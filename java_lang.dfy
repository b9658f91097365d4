/**
 * The slice of the Java platform and of Apache commons-lang that the
 * modelled code leans on: nullable values, the exceptions it raises,
 * `String.split` with a one-character separator, `Integer.parseInt`,
 * `String.trim`, `StringUtils.isBlank` and ASCII case folding.
 */
module JavaLang {

  /** A Java reference that may be null. */
  datatype Option<T> = None | Some(value: T)

  /** The exceptions the modelled code raises, catches or wraps. */
  datatype Fault =
    | IllegalArgument(msg: string)
    | HciClient(msg: string)
    | HciServer(msg: string)
    | TaskFailed(msg: string, code: int, task: string, target: string)
    | VerificationFailed(msg: string)
    | NumberFormat(input: Option<string>)
    | InvalidProperty(msg: string)
    | RuntimeError(msg: string)
    | NullPointer
    | IndexOutOfBounds
    | ClassCast
    // a vim25 fault message, by the fault's name ("DuplicateName", "RuntimeFault", ...)
    | RemoteFault(kind: string, msg: string)

  /** The vim25 fault of that name. */
  predicate IsRemote(f: Fault, kind: string) {
    f.RemoteFault? && f.kind == kind
  }

  /** `catch (IllegalArgumentException e)`: NumberFormatException is one
      of its subclasses. */
  predicate IsIllegalArgument(f: Fault) {
    f.IllegalArgument? || f.NumberFormat?
  }

  /** `Throwable.getMessage`, as string concatenation prints it: the
      message of `Integer.parseInt`'s NumberFormatException names the
      input, and the exceptions modelled without a message print as
      "null". */
  function ExceptionMessage(f: Fault): string {
    match f
    case IllegalArgument(msg) => msg
    case HciClient(msg) => msg
    case HciServer(msg) => msg
    case TaskFailed(msg, _, _, _) => msg
    case VerificationFailed(msg) => msg
    case NumberFormat(input) => if input.None? then "null" else "For input string: \"" + input.value + "\""
    case InvalidProperty(msg) => msg
    case RuntimeError(msg) => msg
    case RemoteFault(_, msg) => msg
    case _ => "null"
  }

  /** A value, or the exception that was thrown instead. */
  datatype Result<T> = Ok(value: T) | Err(fault: Fault) {
    predicate IsFailure() { Err? }
    function PropagateFailure<U>(): Result<U> requires Err? { Err(fault) }
    function Extract(): T requires Ok? { value }
    /** The same outcome with a thrown exception replaced, as a catch-and-rethrow does. */
    function MapFailure(wrap: Fault -> Fault): Result<T> { if Err? then Err(wrap(fault)) else this }
  }

  /** Dereferencing a value that may be null: NullPointerException. */
  function Deref<T>(r: Result<Option<T>>): (d: Result<T>)
    ensures d.Ok? <==> r.Ok? && r.value.Some?
    ensures d.Ok? ==> d.value == r.value.value
    ensures r.Ok? && r.value.None? ==> d == Err(NullPointer)
    ensures r.Err? ==> d == Err(r.fault)
  {
    match r
    case Err(f) => Err(f)
    case Ok(None) => Err(NullPointer)
    case Ok(Some(v)) => Ok(v)
  }

  // ---------------------------------------------------------------
  // Character classes
  // ---------------------------------------------------------------

  /** `Character.isWhitespace`: the Unicode space separators other than
      the no-break spaces, the line and paragraph separators, and the
      ASCII controls TAB, LF, VT, FF, CR and FS..US. */
  predicate IsWhitespace(c: char) {
    c == ' ' || c == '\t' || c == '\n' || c == '\U{000B}' || c == '\U{000C}' || c == '\r'
    || ('\U{001C}' <= c <= '\U{001F}')
    || c == '\U{1680}' || ('\U{2000}' <= c <= '\U{2006}') || ('\U{2008}' <= c <= '\U{200A}')
    || c == '\U{2028}' || c == '\U{2029}' || c == '\U{205F}' || c == '\U{3000}'
  }

  /** `StringUtils.isBlank`: null, empty, or whitespace only. */
  predicate IsBlank(s: Option<string>) {
    s.None? || forall i :: 0 <= i < |s.value| ==> IsWhitespace(s.value[i])
  }

  /** `String.isEmpty` on a value that may be null, as `null == s || s.isEmpty()`. */
  predicate IsNullOrEmpty(s: Option<string>) {
    s.None? || |s.value| == 0
  }

  predicate IsDigit(c: char) { '0' <= c <= '9' }

  predicate AllDigits(s: string) {
    forall i :: 0 <= i < |s| ==> IsDigit(s[i])
  }

  // ---------------------------------------------------------------
  // String.trim / StringUtils.trim
  // ---------------------------------------------------------------

  /** Drops leading characters whose code is at most U+0020. */
  function TrimStart(s: string): string {
    if |s| > 0 && s[0] <= ' ' then TrimStart(s[1..]) else s
  }

  lemma {:induction false} TrimStartFacts(s: string)
    ensures var r := TrimStart(s);
      |r| <= |s| && r == s[|s| - |r|..] && (|r| > 0 ==> r[0] > ' ')
      && forall i :: 0 <= i < |s| - |r| ==> s[i] <= ' '
  {
    if |s| > 0 && s[0] <= ' ' { TrimStartFacts(s[1..]); }
  }

  /** Drops trailing characters whose code is at most U+0020. */
  function TrimEnd(s: string): string {
    if |s| > 0 && s[|s| - 1] <= ' ' then TrimEnd(s[..|s| - 1]) else s
  }

  lemma {:induction false} TrimEndFacts(s: string)
    ensures var r := TrimEnd(s);
      |r| <= |s| && r == s[..|r|] && (|r| > 0 ==> r[|r| - 1] > ' ')
      && forall i :: |r| <= i < |s| ==> s[i] <= ' '
  {
    if |s| > 0 && s[|s| - 1] <= ' ' { TrimEndFacts(s[..|s| - 1]); }
  }

  /** `String.trim`. */
  function TrimChars(s: string): string {
    TrimEnd(TrimStart(s))
  }

  /** `StringUtils.trim`: null stays null. */
  function Trim(s: Option<string>): Option<string> {
    if s.None? then None else Some(TrimChars(s.value))
  }

  /** The trimmed string is a slice of the input, starts and ends with a
      character above U+0020, and only such low characters were cut. */
  lemma TrimCharsIsCore(s: string)
    ensures exists i, j :: 0 <= i <= j <= |s| && TrimChars(s) == s[i..j]
    ensures |TrimChars(s)| > 0 ==> TrimChars(s)[0] > ' ' && TrimChars(s)[|TrimChars(s)| - 1] > ' '
  {
    var a := TrimStart(s);
    var b := TrimEnd(a);
    TrimStartFacts(s);
    TrimEndFacts(a);
    var i := |s| - |a|;
    assert b == s[i..i + |b|];
    if |b| > 0 {
      assert b[0] == a[0];
    }
  }

  /** A string that needs no trimming is its own trim; in particular trimming is idempotent. */
  lemma {:induction false} TrimCharsFixed(s: string)
    requires |s| > 0 ==> s[0] > ' ' && s[|s| - 1] > ' '
    ensures TrimChars(s) == s
  {
  }

  lemma TrimCharsIdempotent(s: string)
    ensures TrimChars(TrimChars(s)) == TrimChars(s)
  {
    TrimCharsIsCore(s);
    TrimCharsFixed(TrimChars(s));
  }

  // ---------------------------------------------------------------
  // String.split with a single, non-regex separator character
  // ---------------------------------------------------------------

  /** All the maximal separator-free segments of s, empty ones included. */
  function Pieces(s: string, c: char): (r: seq<string>)
    ensures |r| >= 1
  {
    if |s| == 0 then [""]
    else
      var rest := Pieces(s[1..], c);
      if s[0] == c then [""] + rest else [[s[0]] + rest[0]] + rest[1..]
  }

  /** Removes empty strings from the end, as `split` with limit 0 does. */
  function DropTrailingEmpty(ps: seq<string>): seq<string> {
    if |ps| > 0 && ps[|ps| - 1] == "" then DropTrailingEmpty(ps[..|ps| - 1]) else ps
  }

  /** What is kept is a prefix ending in a non-empty string; what is dropped is all empty. */
  lemma {:induction false} DropTrailingEmptyFacts(ps: seq<string>)
    ensures var r := DropTrailingEmpty(ps);
      |r| <= |ps| && r == ps[..|r|] && (|r| > 0 ==> r[|r| - 1] != "")
      && forall i :: |r| <= i < |ps| ==> ps[i] == ""
  {
    if |ps| > 0 && ps[|ps| - 1] == "" { DropTrailingEmptyFacts(ps[..|ps| - 1]); }
  }

  /** `s.split(c)`: when c does not occur the result is `[s]` (even for the
      empty string); otherwise the pieces between separators with the
      trailing empty ones removed. */
  function Split(s: string, c: char): seq<string> {
    if c !in s then [s] else DropTrailingEmpty(Pieces(s, c))
  }

  /** The separator-joined concatenation of ps (`String.join`). */
  function Join(ps: seq<string>, c: char): string {
    if |ps| == 0 then ""
    else if |ps| == 1 then ps[0]
    else ps[0] + [c] + Join(ps[1..], c)
  }

  predicate NoSeparator(ps: seq<string>, c: char) {
    forall k :: 0 <= k < |ps| ==> c !in ps[k]
  }

  /** No piece contains the separator. */
  lemma {:induction false} PiecesHaveNoSeparator(s: string, c: char)
    ensures NoSeparator(Pieces(s, c), c)
  {
    if |s| > 0 {
      PiecesHaveNoSeparator(s[1..], c);
      var rest := Pieces(s[1..], c);
      if s[0] != c {
        assert c !in [s[0]] + rest[0];
        var r := Pieces(s, c);
        forall k | 0 <= k < |r| ensures c !in r[k] {
          if k > 0 { assert r[k] == rest[k]; }
        }
      }
    }
  }

  /** Joining the pieces back gives the original string. */
  lemma {:induction false} JoinPieces(s: string, c: char)
    ensures Join(Pieces(s, c), c) == s
  {
    if |s| > 0 {
      JoinPieces(s[1..], c);
      var rest := Pieces(s[1..], c);
      if s[0] == c {
        assert Pieces(s, c)[1..] == rest;
      } else {
        var r := Pieces(s, c);
        if |rest| == 1 {
          assert r == [[s[0]] + rest[0]];
        } else {
          assert r[1..] == rest[1..];
          assert Join(rest, c) == rest[0] + [c] + Join(rest[1..], c);
        }
      }
    }
  }

  /** Splitting a separator-free prefix off: pieces of a + [c] + b. */
  lemma {:induction false} PiecesOfSeparated(a: string, b: string, c: char)
    requires c !in a
    ensures Pieces(a + [c] + b, c) == [a] + Pieces(b, c)
  {
    var s := a + [c] + b;
    if |a| == 0 {
      assert s[0] == c && s[1..] == b;
    } else {
      assert s[1..] == a[1..] + [c] + b;
      PiecesOfSeparated(a[1..], b, c);
      assert [a[0]] + a[1..] == a;
    }
  }

  lemma {:induction false} PiecesOfPlain(a: string, c: char)
    requires c !in a
    ensures Pieces(a, c) == [a]
  {
    if |a| > 0 {
      PiecesOfPlain(a[1..], c);
      assert [a[0]] + a[1..] == a;
    }
  }

  /** Pieces inverts Join for separator-free parts. */
  lemma {:induction false} PiecesOfJoin(ps: seq<string>, c: char)
    requires |ps| >= 1 && NoSeparator(ps, c)
    ensures Pieces(Join(ps, c), c) == ps
  {
    if |ps| == 1 {
      PiecesOfPlain(ps[0], c);
    } else {
      PiecesOfJoin(ps[1..], c);
      PiecesOfSeparated(ps[0], Join(ps[1..], c), c);
      assert [ps[0]] + ps[1..] == ps;
    }
  }

  lemma SeparatorInJoin(ps: seq<string>, c: char)
    requires |ps| >= 2
    ensures c in Join(ps, c)
  {
    var j := Join(ps, c);
    assert j[|ps[0]|] == c;
  }

  /** `split` inverts `join` when no part contains the separator and the
      last part is not empty. */
  lemma SplitOfJoin(ps: seq<string>, c: char)
    requires |ps| >= 1 && NoSeparator(ps, c) && ps[|ps| - 1] != ""
    ensures Split(Join(ps, c), c) == ps
  {
    if |ps| == 1 {
      assert Join(ps, c) == ps[0];
    } else {
      SeparatorInJoin(ps, c);
      PiecesOfJoin(ps, c);
    }
  }

  /** Without a separator, `split` returns the string itself. */
  lemma SplitPlain(s: string, c: char)
    requires c !in s
    ensures Split(s, c) == [s]
  {
  }

  /** Only a string made of separators splits into zero parts. */
  lemma SplitEmptyOnlyForSeparators(s: string, c: char)
    ensures |Split(s, c)| == 0 <==> |s| > 0 && forall i :: 0 <= i < |s| ==> s[i] == c
  {
    if c in s {
      var ps := Pieces(s, c);
      if |s| > 0 && forall i :: 0 <= i < |s| ==> s[i] == c {
        forall k | 0 <= k < |ps| ensures ps[k] == "" {
          PieceOfSeparatorsOnly(s, c, k);
        }
      }
      DropTrailingEmptyFacts(ps);
      if |Split(s, c)| == 0 {
        JoinPieces(s, c);
        AllEmptyJoin(ps, c);
      }
    } else if |s| > 0 {
      assert s[0] in s;
    }
  }

  lemma {:induction false} AllEmptyJoin(ps: seq<string>, c: char)
    requires forall k :: 0 <= k < |ps| ==> ps[k] == ""
    ensures forall i :: 0 <= i < |Join(ps, c)| ==> Join(ps, c)[i] == c
  {
    if |ps| >= 2 {
      AllEmptyJoin(ps[1..], c);
    }
  }

  lemma {:induction false} PieceOfSeparatorsOnly(s: string, c: char, k: nat)
    requires forall i :: 0 <= i < |s| ==> s[i] == c
    requires k < |Pieces(s, c)|
    ensures Pieces(s, c)[k] == ""
  {
    if |s| > 0 {
      if k > 0 {
        PieceOfSeparatorsOnly(s[1..], c, k - 1);
      }
    }
  }

  // ---------------------------------------------------------------
  // Integer.parseInt
  // ---------------------------------------------------------------

  const INT_MIN: int := -0x8000_0000
  const INT_MAX: int := 0x7fff_ffff

  predicate IsInt32(n: int) { INT_MIN <= n <= INT_MAX }

  /** Java `int` arithmetic: the result taken modulo 2^32 into the signed
      32-bit range. */
  function Wrap32(n: int): (r: int)
    ensures IsInt32(r)
    ensures IsInt32(n) ==> r == n
    ensures (r - n) % 0x1_0000_0000 == 0
  {
    (n - INT_MIN) % 0x1_0000_0000 + INT_MIN
  }

  function DigitValue(c: char): nat
    requires IsDigit(c)
  {
    c as int - '0' as int
  }

  /** The decimal value of a digit string, most significant digit first. */
  function DigitsValue(s: string): nat
    requires AllDigits(s)
  {
    if |s| == 0 then 0 else DigitsValue(s[..|s| - 1]) * 10 + DigitValue(s[|s| - 1])
  }

  /** `Integer.parseInt(s)`: an optional sign, at least one decimal digit,
      and a value within 32 bits; anything else (null included) throws
      NumberFormatException. */
  function ParseInt(s: Option<string>): Result<int> {
    if s.None? || |s.value| == 0 then Err(NumberFormat(s))
    else
      var t := s.value;
      var digits := if t[0] == '-' || t[0] == '+' then t[1..] else t;
      if |digits| == 0 || !AllDigits(digits) then Err(NumberFormat(s))
      else
        var n: int := DigitsValue(digits);
        var v := if t[0] == '-' then -n else n;
        if IsInt32(v) then Ok(v) else Err(NumberFormat(s))
  }

  function DigitChar(d: nat): char
    requires d < 10
  {
    ('0' as int + d) as char
  }

  /** The canonical decimal spelling of a natural number. */
  function NatToString(n: nat): string
  {
    if n < 10 then [DigitChar(n)] else NatToString(n / 10) + [DigitChar(n % 10)]
  }

  /** `Integer.toString`. */
  function IntToString(n: int): string {
    if n < 0 then "-" + NatToString(-n) else NatToString(n)
  }

  lemma {:induction false} NatToStringDigits(n: nat)
    ensures |NatToString(n)| > 0 && AllDigits(NatToString(n))
    ensures DigitsValue(NatToString(n)) == n
  {
    if n >= 10 {
      NatToStringDigits(n / 10);
      var s := NatToString(n);
      assert s[..|s| - 1] == NatToString(n / 10);
    }
  }

  /** Every 32-bit value survives printing and parsing back. */
  lemma ParseIntRoundTrip(n: int)
    requires IsInt32(n)
    ensures ParseInt(Some(IntToString(n))) == Ok(n)
  {
    if n < 0 {
      NatToStringDigits(-n);
      assert IntToString(n)[1..] == NatToString(-n);
    } else {
      NatToStringDigits(n);
    }
  }

  /** A parsed value is always within 32 bits, and null or empty input never parses. */
  lemma ParseIntRange(s: Option<string>)
    ensures ParseInt(s).Ok? ==> IsInt32(ParseInt(s).value)
    ensures IsNullOrEmpty(s) ==> ParseInt(s) == Err(NumberFormat(s))
  {
  }

  // ---------------------------------------------------------------
  // Case folding and substring search (ASCII letters only)
  // ---------------------------------------------------------------

  function LowerChar(c: char): char {
    if 'A' <= c <= 'Z' then (c as int + 32) as char else c
  }

  /** `String.toLowerCase`, restricted to ASCII letters. */
  function ToLower(s: string): (r: string)
    ensures |r| == |s| && forall i :: 0 <= i < |s| ==> r[i] == LowerChar(s[i])
  {
    if |s| == 0 then "" else [LowerChar(s[0])] + ToLower(s[1..])
  }

  /** `String.equalsIgnoreCase` (ASCII case folding). */
  predicate EqualsIgnoreCase(a: string, b: string) {
    ToLower(a) == ToLower(b)
  }

  /** `s.contains(sub)`. */
  predicate Contains(s: string, sub: string)
    decreases |s|
  {
    |sub| <= |s| && (s[..|sub|] == sub || Contains(s[1..], sub))
  }

  predicate OccursAt(s: string, sub: string, i: int) {
    0 <= i <= |s| - |sub| && s[i..i + |sub|] == sub
  }

  /** `Contains` holds exactly when sub occurs at some position of s. */
  lemma {:induction false} ContainsAt(s: string, sub: string)
    ensures Contains(s, sub) <==> exists i :: OccursAt(s, sub, i)
    decreases |s|
  {
    if |sub| <= |s| && |s| > 0 {
      ContainsAt(s[1..], sub);
      if s[..|sub|] == sub {
        assert OccursAt(s, sub, 0);
      } else {
        if Contains(s[1..], sub) {
          var i :| OccursAt(s[1..], sub, i);
          assert s[i + 1..i + 1 + |sub|] == s[1..][i..i + |sub|];
          assert OccursAt(s, sub, i + 1);
        }
        if exists i :: OccursAt(s, sub, i) {
          var i :| OccursAt(s, sub, i);
          assert i != 0;
          assert s[1..][i - 1..i - 1 + |sub|] == s[i..i + |sub|];
          assert OccursAt(s[1..], sub, i - 1);
        }
      }
    } else if |sub| <= |s| {
      assert OccursAt(s, sub, 0);
    }
  }

  // ---------------------------------------------------------------
  // Mapping a throwing function over a list, stopping at the first throw
  // ---------------------------------------------------------------

  /** The results of f over xs in order, or the exception of the first
      element for which f throws. */
  function MapResult<A, B>(f: A -> Result<B>, xs: seq<A>): Result<seq<B>> {
    if |xs| == 0 then Ok([])
    else
      var init :- MapResult(f, xs[..|xs| - 1]);
      var last :- f(xs[|xs| - 1]);
      Ok(init + [last])
  }

  /** One result per element, each f's own; failure exactly when f fails
      somewhere, and then with the first failure. */
  lemma {:induction false} MapResultShape<A, B>(f: A -> Result<B>, xs: seq<A>)
    ensures MapResult(f, xs).Ok? ==>
      |MapResult(f, xs).value| == |xs| && forall k :: 0 <= k < |xs| ==> f(xs[k]) == Ok(MapResult(f, xs).value[k])
    ensures MapResult(f, xs).Ok? <==> forall k :: 0 <= k < |xs| ==> f(xs[k]).Ok?
    ensures MapResult(f, xs).Err? ==>
      exists k :: 0 <= k < |xs| && f(xs[k]) == Err(MapResult(f, xs).fault) && forall m :: 0 <= m < k ==> f(xs[m]).Ok?
  {
    if |xs| > 0 {
      var init := xs[..|xs| - 1];
      MapResultShape(f, init);
      if MapResult(f, init).Err? {
        var k :| 0 <= k < |init| && f(init[k]) == Err(MapResult(f, init).fault) && forall m :: 0 <= m < k ==> f(init[m]).Ok?;
        assert f(xs[k]) == Err(MapResult(f, xs).fault);
      } else if f(xs[|xs| - 1]).Err? {
        forall m | 0 <= m < |xs| - 1 ensures f(xs[m]).Ok? {
          assert xs[m] == init[m];
        }
      }
    }
  }

  /** Once a prefix has failed, every longer prefix fails the same way. */
  lemma {:induction false} MapResultErrPersists<A, B>(f: A -> Result<B>, xs: seq<A>, i: nat, j: nat)
    requires i <= j <= |xs| && MapResult(f, xs[..i]).Err?
    ensures MapResult(f, xs[..j]) == Err(MapResult(f, xs[..i]).fault)
    decreases j - i
  {
    if i < j {
      assert xs[..i + 1][..i] == xs[..i];
      MapResultErrPersists(f, xs, i + 1, j);
    }
  }

  /** If f gives ys[k] on every xs[k], the mapping gives ys. */
  lemma {:induction false} MapResultOfResults<A, B>(f: A -> Result<B>, xs: seq<A>, ys: seq<B>)
    requires |xs| == |ys| && forall k :: 0 <= k < |xs| ==> f(xs[k]) == Ok(ys[k])
    ensures MapResult(f, xs) == Ok(ys)
  {
    if |xs| > 0 {
      MapResultOfResults(f, xs[..|xs| - 1], ys[..|ys| - 1]);
      assert ys[..|ys| - 1] + [ys[|ys| - 1]] == ys;
    }
  }

  // ---------------------------------------------------------------
  // An early-return search: the first element that decides anything
  // ---------------------------------------------------------------

  /** The decision of the first element of xs for which `decide` gives one. */
  function FirstDecision<A, R>(decide: A -> Option<R>, xs: seq<A>): Option<R> {
    if |xs| == 0 then None
    else if decide(xs[0]).Some? then decide(xs[0])
    else FirstDecision(decide, xs[1..])
  }

  /** Element k is the first that decides anything. */
  predicate DecidesFirstAt<A, R>(decide: A -> Option<R>, xs: seq<A>, k: int) {
    0 <= k < |xs| && decide(xs[k]).Some? && forall j :: 0 <= j < k ==> decide(xs[j]).None?
  }

  /** The search finds nothing exactly when no element decides, and
      otherwise gives the decision of the first element that does. */
  lemma {:induction false} FirstDecisionIsFirst<A, R>(decide: A -> Option<R>, xs: seq<A>)
    ensures FirstDecision(decide, xs).None? <==> forall k :: 0 <= k < |xs| ==> decide(xs[k]).None?
    ensures forall k :: DecidesFirstAt(decide, xs, k) ==> FirstDecision(decide, xs) == decide(xs[k])
  {
    if |xs| > 0 {
      FirstDecisionIsFirst(decide, xs[1..]);
      forall k | DecidesFirstAt(decide, xs, k) ensures FirstDecision(decide, xs) == decide(xs[k]) {
        if k > 0 {
          assert DecidesFirstAt(decide, xs[1..], k - 1) by {
            forall j | 0 <= j < k - 1 ensures decide(xs[1..][j]).None? {
              assert xs[1..][j] == xs[j + 1];
            }
          }
        }
      }
      if FirstDecision(decide, xs).None? {
        forall k | 0 <= k < |xs| ensures decide(xs[k]).None? {
          if k > 0 { assert xs[k] == xs[1..][k - 1]; }
        }
      }
    }
  }

  /** When something decides, some first deciding element exists. */
  lemma {:induction false} FirstDecisionWitness<A, R>(decide: A -> Option<R>, xs: seq<A>)
    requires FirstDecision(decide, xs).Some?
    ensures exists k :: DecidesFirstAt(decide, xs, k) && FirstDecision(decide, xs) == decide(xs[k])
  {
    if decide(xs[0]).Some? {
      assert DecidesFirstAt(decide, xs, 0);
    } else {
      FirstDecisionWitness(decide, xs[1..]);
      var k :| DecidesFirstAt(decide, xs[1..], k) && FirstDecision(decide, xs[1..]) == decide(xs[1..][k]);
      assert DecidesFirstAt(decide, xs, k + 1) by {
        forall j | 0 <= j < k + 1 ensures decide(xs[j]).None? {
          if j > 0 { assert xs[j] == xs[1..][j - 1]; }
        }
      }
    }
  }

  // ---------------------------------------------------------------
  // HashMap.put in a loop: the last write of each key wins
  // ---------------------------------------------------------------

  /** m after `put(k, v)` of each pair of kvs, in order. */
  function PutPairs<K, V>(m: map<K, V>, kvs: seq<(K, V)>): map<K, V> {
    if |kvs| == 0 then m
    else PutPairs(m, kvs[..|kvs| - 1])[kvs[|kvs| - 1].0 := kvs[|kvs| - 1].1]
  }

  /** Pair j is the last one that writes key k. */
  predicate LastWriteAt<K(==), V>(kvs: seq<(K, V)>, k: K, j: int) {
    0 <= j < |kvs| && kvs[j].0 == k && forall i :: j < i < |kvs| ==> kvs[i].0 != k
  }

  /** Some pair writes key k. */
  predicate Writes<K(==), V>(kvs: seq<(K, V)>, k: K) {
    exists j :: 0 <= j < |kvs| && kvs[j].0 == k
  }

  /** The keys are the old keys plus the written ones; a written key holds
      the value of its last write; an unwritten key keeps its old value. */
  lemma {:induction false} PutPairsMeaning<K, V>(m: map<K, V>, kvs: seq<(K, V)>)
    ensures forall k :: k in PutPairs(m, kvs) <==> k in m || Writes(kvs, k)
    ensures forall k, j :: LastWriteAt(kvs, k, j) ==> k in PutPairs(m, kvs) && PutPairs(m, kvs)[k] == kvs[j].1
    ensures forall k :: k in m && !Writes(kvs, k) ==> PutPairs(m, kvs)[k] == m[k]
  {
    if |kvs| > 0 {
      var init := kvs[..|kvs| - 1];
      var last := kvs[|kvs| - 1];
      PutPairsMeaning(m, init);
      forall k ensures Writes(kvs, k) <==> Writes(init, k) || last.0 == k {
        if Writes(kvs, k) && last.0 != k {
          var j :| 0 <= j < |kvs| && kvs[j].0 == k;
          assert init[j] == kvs[j];
        }
        if Writes(init, k) {
          var j :| 0 <= j < |init| && init[j].0 == k;
          assert kvs[j] == init[j];
        }
      }
      forall k, j | LastWriteAt(kvs, k, j) ensures PutPairs(m, kvs)[k] == kvs[j].1 {
        if j < |kvs| - 1 {
          assert LastWriteAt(init, k, j) by {
            forall i | j < i < |init| ensures init[i].0 != k {
              assert init[i] == kvs[i];
            }
          }
        }
      }
    }
  }

  /** Putting a + b is putting a, then b. */
  lemma {:induction false} PutPairsAppend<K, V>(m: map<K, V>, a: seq<(K, V)>, b: seq<(K, V)>)
    ensures PutPairs(m, a + b) == PutPairs(PutPairs(m, a), b)
  {
    if |b| > 0 {
      assert (a + b)[..|a + b| - 1] == a + b[..|b| - 1];
      PutPairsAppend(m, a, b[..|b| - 1]);
    } else {
      assert a + b == a;
    }
  }

  // ---------------------------------------------------------------
  // A loop whose body is a try/catch that logs and moves on
  // ---------------------------------------------------------------

  /** What one item contributes: nothing when the body skipped it or threw. */
  function Kept<B>(r: Result<Option<B>>): seq<B> {
    if r.Ok? && r.value.Some? then [r.value.value] else []
  }

  /** The list built by running `step` on each element in order, adding what
      it produces, and skipping elements for which it throws. */
  function Collected<A, B>(step: A -> Result<Option<B>>, xs: seq<A>): seq<B> {
    if |xs| == 0 then [] else Collected(step, xs[..|xs| - 1]) + Kept(step(xs[|xs| - 1]))
  }

  /** Every collected value is produced by some element; every value an
      element produces is collected; when no element is skipped, the list
      lines up with the input. */
  lemma {:induction false} CollectedMeaning<A, B>(step: A -> Result<Option<B>>, xs: seq<A>)
    ensures |Collected(step, xs)| <= |xs|
    ensures forall b :: b in Collected(step, xs) ==> exists k :: 0 <= k < |xs| && step(xs[k]) == Ok(Some(b))
    ensures forall k :: 0 <= k < |xs| && step(xs[k]).Ok? && step(xs[k]).value.Some? ==>
      step(xs[k]).value.value in Collected(step, xs)
    ensures (forall k :: 0 <= k < |xs| ==> step(xs[k]).Ok? && step(xs[k]).value.Some?) ==>
      |Collected(step, xs)| == |xs| && forall k :: 0 <= k < |xs| ==> step(xs[k]) == Ok(Some(Collected(step, xs)[k]))
  {
    if |xs| > 0 {
      var init := xs[..|xs| - 1];
      CollectedMeaning(step, init);
      var c := Collected(step, xs);
      assert c == Collected(step, init) + Kept(step(xs[|xs| - 1]));
      forall b | b in c ensures exists k :: 0 <= k < |xs| && step(xs[k]) == Ok(Some(b)) {
        if b in Collected(step, init) {
          var k :| 0 <= k < |init| && step(init[k]) == Ok(Some(b));
          assert xs[k] == init[k];
        } else {
          assert step(xs[|xs| - 1]) == Ok(Some(b));
        }
      }
      forall k | 0 <= k < |xs| && step(xs[k]).Ok? && step(xs[k]).value.Some? ensures step(xs[k]).value.value in c {
        if k < |init| { assert xs[k] == init[k]; }
      }
      if forall k :: 0 <= k < |xs| ==> step(xs[k]).Ok? && step(xs[k]).value.Some? {
        forall k | 0 <= k < |init| ensures step(init[k]).Ok? && step(init[k]).value.Some? {
          assert init[k] == xs[k];
        }
        forall k | 0 <= k < |xs| ensures step(xs[k]) == Ok(Some(c[k])) {
          if k < |init| { assert init[k] == xs[k]; }
        }
      }
    }
  }
}
