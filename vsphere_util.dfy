/**
 * `VsphereUtil`: the VLAN trunk parser, array copying, inventory lookups
 * by name, and the outcome of deleting an object.
 */
module VsphereUtil {
  import opened JavaLang
  import opened VimTypes
  import VsphereConstants

  // ---------------------------------------------------------------
  // parseVlanId
  // ---------------------------------------------------------------

  /** One '-'-separated part of a piece, trimmed and parsed. */
  function PartValue(part: string): Result<int> {
    ParseInt(Trim(Some(part)))
  }

  /** The range one comma-separated piece denotes: "a" is a..a, "a-b" is
      a..b (parts after the second are ignored), and a piece made only of
      '-' leaves the range at its default 0..0. */
  function PieceRange(piece: string): Result<NumericRange> {
    var ids := Split(piece, '-');
    if |ids| == 1 then
      var v :- PartValue(ids[0]);
      Ok(NumericRange(v, v))
    else if |ids| >= 2 then
      var a :- PartValue(ids[0]);
      var b :- PartValue(ids[1]);
      Ok(NumericRange(a, b))
    else
      Ok(NumericRange(0, 0))
  }

  /** The ranges of the pieces in order, or the failure of the first piece that fails. */
  function RangesOf(pieces: seq<string>): Result<seq<NumericRange>> {
    MapResult(PieceRange, pieces)
  }

  /** What `parseVlanId` yields: null for a null or blank string,
      otherwise the list of ranges or the NumberFormatException raised. */
  function VlanIds(vlanIdStr: Option<string>): Result<Option<seq<NumericRange>>> {
    if IsBlank(vlanIdStr) then Ok(None)
    else
      var rs :- RangesOf(Split(vlanIdStr.value, ','));
      Ok(Some(rs))
  }

  /** The body of `parseVlanId`'s loop: one piece split at '-' and parsed. */
  method ParsePiece(piece: string) returns (r: Result<NumericRange>)
    ensures r == PieceRange(piece)
  {
    var ids := Split(piece, '-');
    var nr := NumericRange(0, 0);
    if |ids| == 1 {
      var start := PartValue(ids[0]);
      if start.Err? { return Err(start.fault); }
      var end := PartValue(ids[0]);
      nr := NumericRange(start.value, end.value);
    } else if |ids| >= 2 {
      var start := PartValue(ids[0]);
      if start.Err? { return Err(start.fault); }
      var end := PartValue(ids[1]);
      if end.Err? { return Err(end.fault); }
      nr := NumericRange(start.value, end.value);
    }
    return Ok(nr);
  }

  /** `parseVlanId` */
  method ParseVlanId(vlanIdStr: Option<string>) returns (r: Result<Option<seq<NumericRange>>>)
    ensures r == VlanIds(vlanIdStr)
  {
    if !IsBlank(vlanIdStr) {
      var idStrs := Split(vlanIdStr.value, ',');
      var len := |idStrs|;
      var ranges: seq<NumericRange> := [];
      var i := 0;
      while i < len
        invariant 0 <= i <= len
        invariant RangesOf(idStrs[..i]) == Ok(ranges)
      {
        assert idStrs[..i + 1][..i] == idStrs[..i];
        var nr := ParsePiece(idStrs[i]);
        if nr.Err? {
          MapResultErrPersists(PieceRange, idStrs, i + 1, len);
          assert idStrs[..len] == idStrs;
          return Err(nr.fault);
        }
        ranges := ranges + [nr.value];
        i := i + 1;
      }
      assert idStrs[..len] == idStrs;
      return Ok(Some(ranges));
    }
    return Ok(None);
  }

  /** A non-blank string gives exactly one range per comma piece, in the
      pieces' order; it fails precisely when some piece does not parse. */
  lemma VlanIdsPerPiece(s: string)
    requires !IsBlank(Some(s))
    ensures var ps := Split(s, ',');
      (VlanIds(Some(s)).Ok? <==> forall k :: 0 <= k < |ps| ==> PieceRange(ps[k]).Ok?)
      && (VlanIds(Some(s)).Ok? ==>
        VlanIds(Some(s)).value.Some? && |VlanIds(Some(s)).value.value| == |ps|
        && forall k :: 0 <= k < |ps| ==> PieceRange(ps[k]) == Ok(VlanIds(Some(s)).value.value[k]))
  {
    MapResultShape(PieceRange, Split(s, ','));
  }

  /** A piece without '-' is a single id: start and end are both its trimmed value. */
  lemma SinglePieceRange(piece: string)
    requires '-' !in piece
    ensures PartValue(piece).Ok? ==>
      PieceRange(piece) == Ok(NumericRange(PartValue(piece).value, PartValue(piece).value))
    ensures PartValue(piece).Err? ==> PieceRange(piece) == Err(PartValue(piece).fault)
  {
    SplitPlain(piece, '-');
  }

  /** A piece "a-b-..." takes its start from a and its end from b; no order between them is enforced. */
  lemma RangePieceRange(a: string, b: string, rest: seq<string>)
    requires '-' !in a && '-' !in b && NoSeparator(rest, '-')
    requires |rest| == 0 || rest[|rest| - 1] != ""
    requires b != "" || |rest| > 0
    ensures var parsed := (PartValue(a), PartValue(b));
      (parsed.0.Ok? && parsed.1.Ok? ==>
        PieceRange(Join([a, b] + rest, '-')) == Ok(NumericRange(parsed.0.value, parsed.1.value)))
  {
    var ps := [a, b] + rest;
    assert NoSeparator(ps, '-') by {
      forall k | 0 <= k < |ps| ensures '-' !in ps[k] {
        if k >= 2 { assert ps[k] == rest[k - 2]; }
      }
    }
    SplitOfJoin(ps, '-');
  }

  /** The canonical text of a range list: "a-b" pieces separated by commas. */
  function FormatRanges(rs: seq<NumericRange>): string {
    Join(FormatPieces(rs), ',')
  }

  function FormatPieces(rs: seq<NumericRange>): (ps: seq<string>)
    ensures |ps| == |rs|
  {
    if |rs| == 0 then [] else [FormatPiece(rs[0])] + FormatPieces(rs[1..])
  }

  function FormatPiece(r: NumericRange): string {
    IntToString(r.start) + "-" + IntToString(r.end)
  }

  predicate IsVlanRange(r: NumericRange) {
    0 <= r.start <= INT_MAX && 0 <= r.end <= INT_MAX
  }

  /** The decimal spelling of a natural number: digits only, so no
      separator, nothing to trim, and it parses back. */
  lemma DecimalFacts(n: nat)
    requires n <= INT_MAX
    ensures var d := IntToString(n);
      d != "" && ',' !in d && '-' !in d && IsDigit(d[0]) && PartValue(d) == Ok(n)
  {
    var d := IntToString(n);
    NatToStringDigits(n);
    forall k | 0 <= k < |d| ensures d[k] != ',' && d[k] != '-' && d[k] > ' ' { assert IsDigit(d[k]); }
    TrimCharsFixed(d);
    ParseIntRoundTrip(n);
  }

  /** "a-b" splits into a and b when neither holds a '-'. */
  lemma SplitPair(a: string, b: string)
    requires '-' !in a && '-' !in b && b != ""
    ensures Split(a + "-" + b, '-') == [a, b]
  {
    assert Join([a, b], '-') == a + "-" + b;
    SplitOfJoin([a, b], '-');
  }

  /** "a-b" with plain parts denotes the range of their values. */
  lemma PairPieceRange(a: string, b: string, start: int, end: int)
    requires a != "" && ',' !in a && '-' !in a && IsDigit(a[0]) && PartValue(a) == Ok(start)
    requires b != "" && ',' !in b && '-' !in b && PartValue(b) == Ok(end)
    ensures var p := a + "-" + b;
      ',' !in p && p != "" && IsDigit(p[0]) && PieceRange(p) == Ok(NumericRange(start, end))
  {
    SplitPair(a, b);
    var p := a + "-" + b;
    assert ',' !in p by {
      forall k | 0 <= k < |p| ensures p[k] != ',' {
        if k > |a| { assert p[k] == b[k - |a| - 1]; }
        else if k < |a| { assert p[k] == a[k]; }
      }
    }
  }

  lemma FormatPieceParses(r: NumericRange)
    requires IsVlanRange(r)
    ensures ',' !in FormatPiece(r) && FormatPiece(r) != ""
    ensures IsDigit(FormatPiece(r)[0])
    ensures PieceRange(FormatPiece(r)) == Ok(r)
  {
    DecimalFacts(r.start);
    DecimalFacts(r.end);
    PairPieceRange(IntToString(r.start), IntToString(r.end), r.start, r.end);
  }

  lemma {:induction false} FormatPiecesFacts(rs: seq<NumericRange>)
    requires forall k :: 0 <= k < |rs| ==> IsVlanRange(rs[k])
    ensures NoSeparator(FormatPieces(rs), ',')
    ensures forall k :: 0 <= k < |rs| ==> FormatPieces(rs)[k] == FormatPiece(rs[k])
    ensures RangesOf(FormatPieces(rs)) == Ok(rs)
  {
    if |rs| > 0 {
      FormatPiecesFacts(rs[1..]);
      var ps := FormatPieces(rs);
      forall k | 0 <= k < |rs| ensures ps[k] == FormatPiece(rs[k]) {
        if k > 0 { assert ps[k] == FormatPieces(rs[1..])[k - 1]; }
      }
      forall k | 0 <= k < |rs| ensures PieceRange(ps[k]) == Ok(rs[k]) && ',' !in ps[k] {
        FormatPieceParses(rs[k]);
      }
      MapResultOfResults(PieceRange, ps, rs);
    }
  }

  /** Round trip: every non-empty list of non-negative 32-bit ranges,
      written out as "a-b,c-d,...", parses back to itself. */
  lemma VlanIdsRoundTrip(rs: seq<NumericRange>)
    requires |rs| > 0 && forall k :: 0 <= k < |rs| ==> IsVlanRange(rs[k])
    ensures VlanIds(Some(FormatRanges(rs))) == Ok(Some(rs))
  {
    FormatPiecesFacts(rs);
    var ps := FormatPieces(rs);
    FormatPieceParses(rs[|rs| - 1]);
    FormatPieceParses(rs[0]);
    SplitOfJoin(ps, ',');
    JoinStartsWith(ps, ',');
    var text := FormatRanges(rs);
    assert IsDigit(text[0]);
    assert !IsBlank(Some(text)) by { assert !IsWhitespace(text[0]); }
    assert Split(text, ',') == ps;
    assert RangesOf(ps) == Ok(rs);
  }

  lemma JoinStartsWith(ps: seq<string>, c: char)
    requires |ps| > 0 && ps[0] != ""
    ensures |Join(ps, c)| > 0 && Join(ps, c)[0] == ps[0][0]
  {
  }

  /** A letters-only string throws NumberFormatException for its one piece. */
  lemma NonNumericThrows()
    ensures VlanIds(Some("asdfasdf")) == Err(NumberFormat(Some("asdfasdf")))
  {
    var s := "asdfasdf";
    assert ',' !in s;
    assert '-' !in s;
    assert !IsBlank(Some(s)) by { assert !IsWhitespace(s[0]); }
    assert Split(s, ',') == [s];
    assert Split(s, '-') == [s];
    assert TrimChars(s) == s;
    assert !AllDigits(s) by { assert !IsDigit(s[0]); }
    assert RangesOf([s]) == Err(NumberFormat(Some(s))) by {
      var none: seq<string> := [];
      assert [s][..0] == none;
    }
  }

  /** "-1--2" splits at '-' into "", "1", "", "2"; the empty first part
      fails to parse, so the whole string throws. */
  lemma EmptyPartThrows()
    ensures VlanIds(Some("-1--2")) == Err(NumberFormat(Some("")))
  {
    var s := "-1--2";
    assert ',' !in s;
    assert !IsBlank(Some(s)) by { assert !IsWhitespace(s[0]); }
    assert Split(s, ',') == [s];
    var parts := ["", "1", "", "2"];
    assert s == Join(parts, '-');
    assert NoSeparator(parts, '-');
    SplitOfJoin(parts, '-');
    assert PartValue("") == Err(NumberFormat(Some(""))) by { assert TrimChars("") == ""; }
    assert PieceRange(s) == Err(NumberFormat(Some("")));
    var none: seq<string> := [];
    assert [s][..0] == none;
  }

  /** A leading comma makes an empty first piece, which throws, as long
      as something other than commas follows. */
  lemma LeadingCommaThrows(rest: string)
    requires exists i :: 0 <= i < |rest| && rest[i] != ','
    ensures VlanIds(Some("," + rest)).Err?
  {
    var s := "," + rest;
    assert s[0] == ',' && ',' in s;
    assert !IsBlank(Some(s)) by { assert !IsWhitespace(s[0]); }
    var i :| 0 <= i < |rest| && rest[i] != ',';
    assert s[i + 1] != ',';
    SplitEmptyOnlyForSeparators(s, ',');
    var ps := Pieces(s, ',');
    assert s[1..] == rest;
    assert ps[0] == "";
    var sp := Split(s, ',');
    DropTrailingEmptyFacts(ps);
    assert sp[0] == "";
    assert Split("", '-') == [""];
    assert PieceRange("").Err? by { assert TrimChars("") == ""; }
    MapResultShape(PieceRange, sp);
  }

  /** A string of commas only is not blank yet splits into nothing: it
      parses without error to an empty list of ranges. */
  lemma OnlyCommasGiveNoRanges(s: string)
    requires |s| > 0 && forall i :: 0 <= i < |s| ==> s[i] == ','
    ensures VlanIds(Some(s)) == Ok(Some([]))
  {
    assert !IsBlank(Some(s)) by { assert !IsWhitespace(s[0]); }
    SplitEmptyOnlyForSeparators(s, ',');
  }

  // ---------------------------------------------------------------
  // arrayToVector
  // ---------------------------------------------------------------

  /** `arrayToVector`: the same elements in the same order, empty for null. */
  method ArrayToVector<T>(arr: Option<seq<T>>) returns (v: seq<T>)
    ensures arr.None? ==> v == []
    ensures arr.Some? ==> |v| == |arr.value| && forall i :: 0 <= i < |v| ==> v[i] == arr.value[i]
  {
    v := [];
    if arr.Some? {
      var i := 0;
      while i < |arr.value|
        invariant 0 <= i <= |arr.value|
        invariant v == arr.value[..i]
      {
        v := v + [arr.value[i]];
        i := i + 1;
      }
    }
  }

  // ---------------------------------------------------------------
  // Inventory lookups over the name -> MOR map fetched for a type
  // ---------------------------------------------------------------

  /** `HashMap.get`: the entry for the key, or null. */
  function Lookup(m: map<string, Mor>, key: string): (r: Option<Mor>)
    ensures r.Some? <==> key in m
    ensures r.Some? ==> r.value == m[key]
  {
    if key in m then Some(m[key]) else None
  }

  /** `getDatacenterMor` / `getVdsMor`: looked up under the name as given. */
  function GetByName(fetched: map<string, Mor>, name: string): Option<Mor> {
    Lookup(fetched, name)
  }

  /** `getHostMor`: the query is lower-cased before the inventory is
      fetched, so a null name throws first; a fault of the fetch
      (`inFolderByType`) propagates; otherwise the host map is looked up. */
  function GetHostMor(fetched: Result<map<string, Mor>>, hostName: Option<string>): (r: Result<Option<Mor>>)
    ensures hostName.None? ==> r == Err(NullPointer)
    ensures hostName.Some? && fetched.Err? ==> r == Err(fetched.fault)
    ensures hostName.Some? && fetched.Ok? ==> r == Ok(Lookup(fetched.value, ToLower(hostName.value)))
  {
    if hostName.None? then Err(NullPointer)
    else if fetched.Err? then Err(fetched.fault)
    else Ok(Lookup(fetched.value, ToLower(hostName.value)))
  }

  /** Host names differing only in ASCII letter case find the same host. */
  lemma GetHostMorCaseInsensitive(fetched: Result<map<string, Mor>>, a: string, b: string)
    requires EqualsIgnoreCase(a, b)
    ensures GetHostMor(fetched, Some(a)) == GetHostMor(fetched, Some(b))
  {
  }

  /** `getClusterMor(dcMor, name)` / `getPorggroupMor(dcMor, name)`: no
      lookup at all when the datacenter is null; otherwise the entry of
      the map fetched under that datacenter. */
  function GetUnderDatacenter(dcMor: Option<Mor>, fetchUnder: Mor -> map<string, Mor>, name: string): (r: Option<Mor>)
    ensures dcMor.None? ==> r.None?
    ensures dcMor.Some? ==> (r.Some? <==> name in fetchUnder(dcMor.value))
    ensures r.Some? ==> r.value == fetchUnder(dcMor.value)[name]
  {
    if dcMor.None? then None else Lookup(fetchUnder(dcMor.value), name)
  }

  /** `getClusterMor(dcName, name)` / `getPorggroupMor(dcName, name)`:
      resolve the datacenter by name first. */
  function GetUnderDatacenterName(dcs: map<string, Mor>, dcName: string,
                                  fetchUnder: Mor -> map<string, Mor>, name: string): (r: Option<Mor>)
    ensures dcName !in dcs ==> r.None?
    ensures dcName in dcs ==> r == GetUnderDatacenter(Some(dcs[dcName]), fetchUnder, name)
  {
    GetUnderDatacenter(GetByName(dcs, dcName), fetchUnder, name)
  }

  /** The result of looking up without a datacenter does not depend on what would have been fetched. */
  lemma NoDatacenterNoLookup(f: Mor -> map<string, Mor>, g: Mor -> map<string, Mor>, name: string)
    ensures GetUnderDatacenter(None, f, name) == GetUnderDatacenter(None, g, name) == None
  {
  }

  // ---------------------------------------------------------------
  // deleteObject
  // ---------------------------------------------------------------

  /** `deleteObject`: given the outcome of monitoring the destroy task
      (which may itself throw) and the task-info read after it (null on
      any failure), succeed when the task succeeded and otherwise raise
      TaskFailedException with the delete-object code. */
  function DeleteObject(monitored: Result<bool>, info: Result<TaskInfo>, target: Mor): (r: Result<()>)
    ensures r.Ok? <==> monitored == Ok(true)
    ensures monitored == Ok(false) && info.Err? ==> r == Err(NullPointer)
    ensures monitored == Ok(false) && info.Ok? && info.value.error.None? ==> r == Err(NullPointer)
    ensures monitored == Ok(false) && info.Ok? && info.value.error.Some? ==>
      r == Err(TaskFailed(OrNull(info.value.error.value.localizedMessage), VsphereConstants.DELETEDCOJBECT_TASK_FAILURE,
                          OrNull(info.value.name), target.value))
    ensures monitored.Err? ==> r == Err(monitored.fault)
  {
    match monitored
    case Err(f) => Err(f)
    case Ok(true) => Ok(())
    case Ok(false) =>
      if info.Err? then Err(NullPointer)
      else Err(TaskFailure(info.value, VsphereConstants.DELETEDCOJBECT_TASK_FAILURE, target.value))
  }

  /** `new TaskFailedException(taskInfo.getError().getLocalizedMessage(),
      code, taskInfo.getName(), target)`: when the task recorded no fault,
      the first argument throws NullPointerException. */
  function TaskFailure(info: TaskInfo, code: int, target: string): (f: Fault)
    ensures f == NullPointer <==> info.error.None?
    ensures info.error.Some? ==>
      f == TaskFailed(OrNull(info.error.value.localizedMessage), code, OrNull(info.name), target)
  {
    if info.error.None? then NullPointer
    else TaskFailed(OrNull(info.error.value.localizedMessage), code, OrNull(info.name), target)
  }

  /** A nullable string as Java's string concatenation prints it. */
  function OrNull(s: Option<string>): string {
    if s.None? then "null" else s.value
  }
}
