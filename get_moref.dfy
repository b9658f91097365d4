/**
 * `GetMOREF`: finding managed objects by type and name and reading their
 * properties. Every page of retrieved contents is an input: the first
 * page is a parameter and the pages that `continueRetrievePropertiesEx`
 * returns, call by call, are a finite sequence `more`. A loop that asks
 * for more pages than `more` holds ends in `PagesExhausted`.
 */
module GetMoref {
  import opened JavaLang
  import opened VimTypes
  import PFB = PropertyFilterSpecBuilder
  import OSB = ObjectSpecBuilder
  import TSB = TraversalSpecBuilder

  /** A map from entity name to MOR; Java's HashMap admits the null key. */
  type NameMap = map<Option<string>, Mor>

  /** How a paging loop ends: with its value and the number of
      continuation pages it fetched, with an exception, or by asking for
      a page beyond the input. */
  datatype Paged<T> = Drained(value: T, calls: nat) | Threw(fault: Fault) | PagesExhausted

  /** The token a page carries; a null page carries none. */
  function TokenOf(page: Option<RetrieveResult>): Option<string> {
    if page.Some? then page.value.token else None
  }

  // ---------------------------------------------------------------
  // populate(result, map)
  // ---------------------------------------------------------------

  /** The loop `entityNm = (String) dp.getVal()` over a property list:
      null for an empty list, otherwise the value it leaves behind; casting
      a value that is not a string throws. */
  function EntityName(dps: seq<DynamicProperty>): Result<Option<string>> {
    if |dps| == 0 then Ok(None)
    else if EntityName(dps[..|dps| - 1]).Err? then EntityName(dps[..|dps| - 1])
    else if dps[|dps| - 1].val.StringVal? then Ok(Some(dps[|dps| - 1].val.s))
    else Err(ClassCast)
  }

  /** The name is the value of the last property, or null when there is
      none; it fails exactly when some value is not a string. */
  lemma {:induction false} EntityNameMeaning(dps: seq<DynamicProperty>)
    ensures EntityName(dps).Ok? <==> forall i :: 0 <= i < |dps| ==> dps[i].val.StringVal?
    ensures EntityName(dps).Err? ==> EntityName(dps).fault == ClassCast
    ensures EntityName(dps).Ok? && |dps| == 0 ==> EntityName(dps).value == None
    ensures EntityName(dps).Ok? && |dps| > 0 ==> EntityName(dps).value == Some(dps[|dps| - 1].val.s)
  {
    if |dps| > 0 {
      var init := dps[..|dps| - 1];
      EntityNameMeaning(init);
      assert forall i :: 0 <= i < |init| ==> init[i] == dps[i];
    }
  }

  /** The inner loop of `populate`. */
  method EntityNameOf(dps: seq<DynamicProperty>) returns (r: Result<Option<string>>)
    ensures r == EntityName(dps)
  {
    var entityNm: Option<string> := None;
    for i := 0 to |dps|
      invariant EntityName(dps[..i]) == Ok(entityNm)
    {
      assert dps[..i + 1][..i] == dps[..i];
      if !dps[i].val.StringVal? {
        EntityNameMeaning(dps);
        return Err(ClassCast);
      }
      entityNm := Some(dps[i].val.s);
    }
    assert dps[..|dps|] == dps;
    r := Ok(entityNm);
  }

  /** The map entry `populate` puts for one content. */
  function NamedEntry(oc: ObjectContent): Result<(Option<string>, Mor)> {
    var name :- EntityName(oc.propSet);
    Ok((name, oc.obj))
  }

  /** `targetMor.put(entityNm, mr)` for each content of a page, in order. */
  function PutAll(m: NameMap, objects: seq<ObjectContent>): Result<NameMap> {
    var entries :- MapResult(NamedEntry, objects);
    Ok(PutPairs(m, entries))
  }

  /** `populate(result, targetMor)`: the map after the page's contents
      are put and the page's token; a null page changes nothing and
      gives a null token. */
  function Populate(result: Option<RetrieveResult>, m: NameMap): (r: Result<(NameMap, Option<string>)>)
    ensures result.None? ==> r == Ok((m, None))
    ensures r.Ok? ==> r.value.1 == TokenOf(result)
  {
    if result.None? then Ok((m, None))
    else
      var m' :- PutAll(m, result.value.objects);
      Ok((m', result.value.token))
  }

  /** Content j is the last one of the page named k. */
  predicate LastNamedAt(objects: seq<ObjectContent>, k: Option<string>, j: int) {
    0 <= j < |objects| && EntityName(objects[j].propSet) == Ok(k)
    && forall i :: j < i < |objects| ==> EntityName(objects[i].propSet) != Ok(k)
  }

  /** Some content of the page is named k. */
  predicate Named(objects: seq<ObjectContent>, k: Option<string>) {
    exists j :: 0 <= j < |objects| && EntityName(objects[j].propSet) == Ok(k)
  }

  /** Putting a page fails exactly when some content's name cannot be
      cast, and then with ClassCastException. Otherwise each name maps to
      the MOR of the last content with that name, and every other entry
      is kept. */
  lemma PutAllMeaning(m: NameMap, objects: seq<ObjectContent>)
    ensures PutAll(m, objects).Ok? <==> forall j :: 0 <= j < |objects| ==> EntityName(objects[j].propSet).Ok?
    ensures PutAll(m, objects).Err? ==> PutAll(m, objects).fault == ClassCast
    ensures PutAll(m, objects).Ok? ==>
      var m' := PutAll(m, objects).value;
      (forall k :: k in m' <==> k in m || Named(objects, k))
      && (forall k, j :: LastNamedAt(objects, k, j) ==> k in m' && m'[k] == objects[j].obj)
      && (forall k :: k in m && !Named(objects, k) ==> m'[k] == m[k])
  {
    MapResultShape(NamedEntry, objects);
    forall j | 0 <= j < |objects| ensures NamedEntry(objects[j]).Ok? <==> EntityName(objects[j].propSet).Ok? {
    }
    if MapResult(NamedEntry, objects).Err? {
      var j :| 0 <= j < |objects| && NamedEntry(objects[j]) == Err(MapResult(NamedEntry, objects).fault);
      EntityNameMeaning(objects[j].propSet);
    } else {
      var entries := MapResult(NamedEntry, objects).value;
      PutPairsMeaning(m, entries);
      forall j | 0 <= j < |objects| ensures entries[j] == (EntityName(objects[j].propSet).value, objects[j].obj) {
      }
      forall k ensures k in PutPairs(m, entries) <==> k in m || Named(objects, k) {
        if Named(objects, k) {
          var j :| 0 <= j < |objects| && EntityName(objects[j].propSet) == Ok(k);
          assert entries[j].0 == k;
        }
        if Writes(entries, k) {
          var j :| 0 <= j < |entries| && entries[j].0 == k;
          assert EntityName(objects[j].propSet) == Ok(k);
        }
      }
      forall k, j | LastNamedAt(objects, k, j) ensures LastWriteAt(entries, k, j) {
      }
      assert PutAll(m, objects).value == PutPairs(m, entries);
    }
  }

  /** The loop of `populate` and `resultsTotargetMorMap` over one page. */
  method PutContents(objects: seq<ObjectContent>, targetMor: NameMap) returns (r: Result<NameMap>)
    ensures r == PutAll(targetMor, objects)
  {
    var m := targetMor;
    ghost var entries: seq<(Option<string>, Mor)> := [];
    for i := 0 to |objects|
      invariant MapResult(NamedEntry, objects[..i]) == Ok(entries)
      invariant m == PutPairs(targetMor, entries)
    {
      assert objects[..i + 1][..i] == objects[..i];
      var name := EntityNameOf(objects[i].propSet);
      if name.Err? {
        assert MapResult(NamedEntry, objects[..i + 1]).Err?;
        MapResultErrPersists(NamedEntry, objects, i + 1, |objects|);
        assert objects[..|objects|] == objects;
        return Err(name.fault);
      }
      m := m[name.value := objects[i].obj];
      ghost var before := entries;
      entries := before + [(name.value, objects[i].obj)];
      assert entries[..|entries| - 1] == before;
    }
    assert objects[..|objects|] == objects;
    r := Ok(m);
  }

  /** `populate(result, targetMor)`. */
  method PopulateMap(result: Option<RetrieveResult>, targetMor: NameMap) returns (r: Result<(NameMap, Option<string>)>)
    ensures r == Populate(result, targetMor)
  {
    if result.None? {
      return Ok((targetMor, None));
    }
    var put := PutContents(result.value.objects, targetMor);
    if put.Err? {
      return Err(put.fault);
    }
    r := Ok((put.value, result.value.token));
  }

  /** `resultsTotargetMorMap(results, targetMor)`: `populate` without the token. */
  method ResultsToTargetMorMap(results: Option<RetrieveResult>, targetMor: NameMap) returns (r: Result<NameMap>)
    ensures r.Ok? <==> Populate(results, targetMor).Ok?
    ensures r.Ok? ==> r.value == Populate(results, targetMor).value.0
    ensures r.Err? ==> r.fault == Populate(results, targetMor).fault
  {
    if results.None? {
      return Ok(targetMor);
    }
    r := PutContents(results.value.objects, targetMor);
  }

  /** The pages put, in order, into m; the first page that fails stops it. */
  function PutPages(m: NameMap, pages: seq<Option<RetrieveResult>>): Result<NameMap>
    decreases |pages|
  {
    if |pages| == 0 then Ok(m)
    else
      var step :- Populate(pages[0], m);
      PutPages(step.0, pages[1..])
  }

  // ---------------------------------------------------------------
  // toMap
  // ---------------------------------------------------------------

  /** The tokens `toMap` and `entityProps` follow: non-null and non-empty. */
  predicate Continues(token: Option<string>) {
    token.Some? && token.value != ""
  }

  /** The rest of `toMap` once `m` holds the contents so far, `token` is
      the token of the last page and `used` continuation pages were fetched. */
  function DrainToMap(m: NameMap, token: Option<string>, more: seq<Option<RetrieveResult>>, used: nat): Paged<NameMap>
    requires used <= |more|
    decreases |more| - used
  {
    if !Continues(token) then Drained(m, used)
    else if used == |more| then PagesExhausted
    else match Populate(more[used], m)
      case Err(f) => Threw(f)
      case Ok(step) => DrainToMap(step.0, step.1, more, used + 1)
  }

  /** `toMap(result)`: the first page, then the continuation pages `more`. */
  function ToMap(result: Option<RetrieveResult>, more: seq<Option<RetrieveResult>>): Paged<NameMap> {
    match Populate(result, map[])
    case Err(f) => Threw(f)
    case Ok(step) => DrainToMap(step.0, step.1, more, 0)
  }

  /** The token in hand before continuation page k is fetched. */
  function TokenBefore(token: Option<string>, more: seq<Option<RetrieveResult>>, used: nat, k: nat): Option<string>
    requires used <= k <= |more|
  {
    if k == used then token else TokenOf(more[k - 1])
  }

  /** A drained `toMap` put exactly the pages it fetched, fetched one more
      page while the token in hand was non-null and non-empty, and stopped
      at the first token that was not. It runs out of pages only when every
      token continues, and it fails only on a cast. */
  lemma {:induction false} DrainToMapMeaning(m: NameMap, token: Option<string>, more: seq<Option<RetrieveResult>>, used: nat)
    requires used <= |more|
    ensures var r := DrainToMap(m, token, more, used);
      r.Drained? ==>
        used <= r.calls <= |more|
        && PutPages(m, more[used..r.calls]) == Ok(r.value)
        && (forall k :: used <= k < r.calls ==> Continues(TokenBefore(token, more, used, k)))
        && !Continues(TokenBefore(token, more, used, r.calls))
    ensures var r := DrainToMap(m, token, more, used);
      r.PagesExhausted? ==> forall k :: used <= k <= |more| ==> Continues(TokenBefore(token, more, used, k))
    ensures DrainToMap(m, token, more, used).Threw? ==> DrainToMap(m, token, more, used).fault == ClassCast
    decreases |more| - used
  {
    if Continues(token) && used < |more| {
      if more[used].Some? {
        PutAllMeaning(m, more[used].value.objects);
      }
      match Populate(more[used], m)
      case Err(f) =>
      case Ok(step) =>
        DrainToMapMeaning(step.0, step.1, more, used + 1);
        var r := DrainToMap(step.0, step.1, more, used + 1);
        forall k | used + 1 <= k <= |more| ensures TokenBefore(step.1, more, used + 1, k) == TokenBefore(token, more, used, k) {
        }
        if r.Drained? {
          assert more[used..r.calls][1..] == more[used + 1..r.calls];
        }
    }
  }

  /** The contents `toMap` returns are the first page and the `calls`
      continuation pages put in order: every page read but the last
      carries a non-null, non-empty token and the last does not. */
  lemma ToMapMeaning(result: Option<RetrieveResult>, more: seq<Option<RetrieveResult>>)
    ensures var r := ToMap(result, more);
      r.Drained? ==>
        r.calls <= |more|
        && var pages := [result] + more[..r.calls];
        PutPages(map[], pages) == Ok(r.value)
        && (forall k :: 0 <= k < r.calls ==> Continues(TokenOf(pages[k])))
        && !Continues(TokenOf(pages[r.calls]))
    ensures ToMap(result, more).Threw? ==> ToMap(result, more).fault == ClassCast
  {
    if result.Some? {
      PutAllMeaning(map[], result.value.objects);
    }
    match Populate(result, map[])
    case Err(f) =>
    case Ok(step) =>
      DrainToMapMeaning(step.0, step.1, more, 0);
      var r := ToMap(result, more);
      if r.Drained? {
        var pages := [result] + more[..r.calls];
        assert pages[1..] == more[0..r.calls];
        forall k | 0 <= k <= r.calls ensures TokenOf(pages[k]) == TokenBefore(step.1, more, 0, k) {
        }
      }
  }

  /** `toMap(result)`. */
  method ToMapPaged(result: Option<RetrieveResult>, more: seq<Option<RetrieveResult>>) returns (r: Paged<NameMap>)
    ensures r == ToMap(result, more)
  {
    var first := PopulateMap(result, map[]);
    if first.Err? {
      return Threw(first.fault);
    }
    var targetMor := first.value.0;
    var token := first.value.1;
    var used := 0;
    while Continues(token)
      invariant used <= |more|
      invariant DrainToMap(targetMor, token, more, used) == ToMap(result, more)
      decreases |more| - used
    {
      if used == |more| {
        return PagesExhausted;
      }
      var page := PopulateMap(more[used], targetMor);
      if page.Err? {
        return Threw(page.fault);
      }
      targetMor, token := page.value.0, page.value.1;
      used := used + 1;
    }
    r := Drained(targetMor, used);
  }

  // ---------------------------------------------------------------
  // inFolderByType
  // ---------------------------------------------------------------

  /** The pages `inFolderByType` goes on from: non-null, with contents,
      and with a non-null token, an empty one included. */
  predicate FolderContinues(page: Option<RetrieveResult>) {
    page.Some? && |page.value.objects| > 0 && page.value.token.Some?
  }

  /** The rest of `inFolderByType` once `m` holds the contents so far,
      `results` is the page in hand and `used` continuation pages were
      fetched. */
  function DrainFolder(m: NameMap, results: Option<RetrieveResult>, more: seq<Option<RetrieveResult>>, used: nat): Paged<NameMap>
    requires used <= |more|
    decreases |more| - used
  {
    if results.None? || |results.value.objects| == 0 then Drained(m, used)
    else match PutAll(m, results.value.objects)
      case Err(f) => Threw(f)
      case Ok(m') =>
        if results.value.token.None? then Drained(m', used)
        else if used == |more| then PagesExhausted
        else DrainFolder(m', more[used], more, used + 1)
  }

  /** `inFolderByType(folder, moRefType)`: `first` is the reply to the
      initial retrieval and `more` the continuation pages. */
  function InFolderByType(first: Option<RetrieveResult>, more: seq<Option<RetrieveResult>>): Paged<NameMap> {
    DrainFolder(map[], first, more, 0)
  }

  /** A drained folder scan put exactly the pages it read, went on from
      every page but the last (each non-null, non-empty and with a
      token) and stopped at the first page that was null, empty, or
      without a token. It fails only on a cast. */
  lemma {:induction false} DrainFolderMeaning(m: NameMap, results: Option<RetrieveResult>, more: seq<Option<RetrieveResult>>, used: nat)
    requires used <= |more|
    ensures var r := DrainFolder(m, results, more, used);
      r.Drained? ==>
        used <= r.calls <= |more|
        && var pages := [results] + more[used..r.calls];
        PutPages(m, pages) == Ok(r.value)
        && (forall k :: 0 <= k < |pages| - 1 ==> FolderContinues(pages[k]))
        && !FolderContinues(pages[|pages| - 1])
    ensures DrainFolder(m, results, more, used).Threw? ==> DrainFolder(m, results, more, used).fault == ClassCast
    decreases |more| - used
  {
    if results.Some? {
      PutAllMeaning(m, results.value.objects);
    }
    if results.None? || |results.value.objects| == 0 {
      if results.Some? {
        assert MapResult(NamedEntry, results.value.objects) == Ok([]);
      }
    } else if PutAll(m, results.value.objects).Ok? {
      var m' := PutAll(m, results.value.objects).value;
      if results.value.token.Some? && used < |more| {
        DrainFolderMeaning(m', more[used], more, used + 1);
        var r := DrainFolder(m', more[used], more, used + 1);
        if r.Drained? {
          var pages := [results] + more[used..r.calls];
          assert pages[1..] == [more[used]] + more[used + 1..r.calls];
        }
      }
    }
  }

  /** The contents `inFolderByType` returns are the pages it read, put in
      order: it follows any non-null token, even an empty one, and stops
      at the first null or empty page whatever its token. */
  lemma InFolderByTypeMeaning(first: Option<RetrieveResult>, more: seq<Option<RetrieveResult>>)
    ensures var r := InFolderByType(first, more);
      r.Drained? ==>
        r.calls <= |more|
        && var pages := [first] + more[..r.calls];
        PutPages(map[], pages) == Ok(r.value)
        && (forall k :: 0 <= k < r.calls ==> FolderContinues(pages[k]))
        && !FolderContinues(pages[r.calls])
    ensures InFolderByType(first, more).Threw? ==> InFolderByType(first, more).fault == ClassCast
  {
    DrainFolderMeaning(map[], first, more, 0);
    assert more[0..] == more;
  }

  /** `inFolderByType(folder, moRefType)` after its first retrieval. */
  method InFolderByTypePaged(first: Option<RetrieveResult>, more: seq<Option<RetrieveResult>>) returns (r: Paged<NameMap>)
    ensures r == InFolderByType(first, more)
  {
    var targetMor: NameMap := map[];
    var results := first;
    var used := 0;
    while results.Some? && |results.value.objects| > 0
      invariant used <= |more|
      invariant DrainFolder(targetMor, results, more, used) == InFolderByType(first, more)
      decreases |more| - used + (if results.Some? then 1 else 0)
    {
      var put := ResultsToTargetMorMap(results, targetMor);
      if put.Err? {
        return Threw(put.fault);
      }
      targetMor := put.value;
      var token := results.value.token;
      if token.Some? {
        if used == |more| {
          return PagesExhausted;
        }
        results := more[used];
        used := used + 1;
      } else {
        results := None;
      }
    }
    r := Drained(targetMor, used);
  }

  /** `propertyFilterSpecs(container, moRefType, moRefProperties)` once the
      container view exists: the view itself is skipped and its `view`
      list is followed, asking for the given properties of objects of the
      given type. */
  method PropertyFilterSpecs(containerView: Mor, moRefType: string, moRefProperties: seq<string>)
    returns (specs: seq<PropertyFilterSpec>)
    ensures specs == [PropertyFilterSpec(
      [PropertySpec(Some(false), moRefProperties, moRefType)],
      [ObjectSpec(Some(containerView), Some(true),
                  [TraversalSpec(Some("view"), Some("ContainerView"), Some("view"), Some(false), [])])],
      None)]
  {
    var view := new TSB.TraversalSpecBuilder();
    view := view.Name(Some("view"));
    view := view.Path(Some("view"));
    view := view.Skip(Some(false));
    view := view.Type(Some("ContainerView"));
    assert view.Spec() == TraversalSpec(Some("view"), Some("ContainerView"), Some("view"), Some(false), []);
    var objectSpec := new OSB.ObjectSpecBuilder();
    objectSpec := objectSpec.Obj(Some(containerView));
    objectSpec := objectSpec.Skip(Some(true));
    objectSpec := objectSpec.SelectSet([view.Spec()]);
    assert objectSpec.Spec().selectSet == [view.Spec()];
    var filter := new PFB.PropertyFilterSpecBuilder();
    filter := filter.PropSet([PropertySpec(Some(false), moRefProperties, moRefType)]);
    filter := filter.ObjectSet([objectSpec.Spec()]);
    assert filter.Spec().propSet == [PropertySpec(Some(false), moRefProperties, moRefType)];
    assert filter.Spec().reportMissingObjectsInResults == None;
    assert objectSpec.Spec() == ObjectSpec(Some(containerView), Some(true), [view.Spec()]);
    assert filter.Spec().objectSet == [objectSpec.Spec()];
    specs := [filter.Spec()];
  }

  // ---------------------------------------------------------------
  // Property maps of entityProps
  // ---------------------------------------------------------------

  /** A map from property name to value; the null name is a key too. */
  type PropMap = map<Option<string>, PropValue>

  /** The (name, value) pairs of a property list, in order. */
  function PropPairs(dps: seq<DynamicProperty>): (r: seq<(Option<string>, PropValue)>)
    ensures |r| == |dps| && forall i :: 0 <= i < |dps| ==> r[i] == (dps[i].name, dps[i].val)
  {
    seq(|dps|, i requires 0 <= i < |dps| => (dps[i].name, dps[i].val))
  }

  /** The pairs of all contents, one content after another. */
  function ContentPairs(contents: seq<ObjectContent>): seq<(Option<string>, PropValue)> {
    if |contents| == 0 then []
    else ContentPairs(contents[..|contents| - 1]) + PropPairs(contents[|contents| - 1].propSet)
  }

  /** Some property of the list is named k. */
  predicate HasName(dps: seq<DynamicProperty>, k: Option<string>) {
    exists i :: 0 <= i < |dps| && dps[i].name == k
  }

  /** Property i is the last property of the list named k. */
  predicate LastNameAt(dps: seq<DynamicProperty>, k: Option<string>, i: int) {
    0 <= i < |dps| && dps[i].name == k && forall i' :: i < i' < |dps| ==> dps[i'].name != k
  }

  /** Some content has a property named k. */
  predicate SomeContentHas(contents: seq<ObjectContent>, k: Option<string>) {
    exists c :: 0 <= c < |contents| && HasName(contents[c].propSet, k)
  }

  /** Property i of content c is the last property named k of all contents. */
  predicate LastPropAt(contents: seq<ObjectContent>, k: Option<string>, c: int, i: int) {
    0 <= c < |contents| && LastNameAt(contents[c].propSet, k, i)
    && forall c' :: c < c' < |contents| ==> !HasName(contents[c'].propSet, k)
  }

  /** The map `entityProps` makes of the contents of one reply. */
  function ContentMap(contents: seq<ObjectContent>): PropMap {
    PutPairs(map[], ContentPairs(contents))
  }

  /** Putting one property list: its names are added, each with the value
      of its last property of that name, and other entries are kept. */
  lemma PropPairsMeaning(m: PropMap, dps: seq<DynamicProperty>)
    ensures forall k :: k in PutPairs(m, PropPairs(dps)) <==> k in m || HasName(dps, k)
    ensures forall k, i :: LastNameAt(dps, k, i) ==> k in PutPairs(m, PropPairs(dps)) && PutPairs(m, PropPairs(dps))[k] == dps[i].val
    ensures forall k :: k in m && !HasName(dps, k) ==> PutPairs(m, PropPairs(dps))[k] == m[k]
  {
    var kvs := PropPairs(dps);
    PutPairsMeaning(m, kvs);
    forall k ensures HasName(dps, k) <==> Writes(kvs, k) {
      if HasName(dps, k) {
        var i :| 0 <= i < |dps| && dps[i].name == k;
        assert kvs[i].0 == k;
      }
    }
    forall k, i | LastNameAt(dps, k, i) ensures LastWriteAt(kvs, k, i) {
    }
  }

  /** A name occurs in some content iff it occurs in an earlier content or the last. */
  lemma SomeContentHasSplit(contents: seq<ObjectContent>, k: Option<string>)
    requires |contents| > 0
    ensures SomeContentHas(contents, k) <==>
      SomeContentHas(contents[..|contents| - 1], k) || HasName(contents[|contents| - 1].propSet, k)
  {
    var init := contents[..|contents| - 1];
    if SomeContentHas(contents, k) {
      var c :| 0 <= c < |contents| && HasName(contents[c].propSet, k);
      if c < |init| { assert init[c] == contents[c]; }
    }
    if SomeContentHas(init, k) {
      var c :| 0 <= c < |init| && HasName(init[c].propSet, k);
      assert contents[c] == init[c];
    }
  }

  /** The last occurrence in an earlier content is the last one there too,
      and the last content does not have the name. */
  lemma LastPropAtInit(contents: seq<ObjectContent>, k: Option<string>, c: int, i: int)
    requires LastPropAt(contents, k, c, i) && c < |contents| - 1
    ensures LastPropAt(contents[..|contents| - 1], k, c, i)
    ensures !HasName(contents[|contents| - 1].propSet, k)
  {
    var init := contents[..|contents| - 1];
    assert init[c] == contents[c];
    forall c' | c < c' < |init| ensures !HasName(init[c'].propSet, k) {
      assert init[c'] == contents[c'];
    }
  }

  /** The properties of all contents put into one map: the names are those
      that occur, and each holds the value of its last occurrence. */
  lemma {:induction false} ContentPairsMeaning(contents: seq<ObjectContent>)
    ensures forall k :: k in ContentMap(contents) <==> SomeContentHas(contents, k)
    ensures forall k, c, i :: LastPropAt(contents, k, c, i) ==>
      k in ContentMap(contents) && ContentMap(contents)[k] == contents[c].propSet[i].val
  {
    if |contents| > 0 {
      var init := contents[..|contents| - 1];
      var last := contents[|contents| - 1];
      ContentPairsMeaning(init);
      PutPairsAppend(map[], ContentPairs(init), PropPairs(last.propSet));
      assert ContentMap(contents) == PutPairs(ContentMap(init), PropPairs(last.propSet));
      PropPairsMeaning(ContentMap(init), last.propSet);
      forall k ensures k in ContentMap(contents) <==> SomeContentHas(contents, k) {
        SomeContentHasSplit(contents, k);
      }
      forall k, c, i | LastPropAt(contents, k, c, i)
        ensures k in ContentMap(contents) && ContentMap(contents)[k] == contents[c].propSet[i].val
      {
        if c < |init| {
          LastPropAtInit(contents, k, c, i);
          assert init[c] == contents[c];
          assert k in ContentMap(init) && ContentMap(init)[k] == init[c].propSet[i].val;
        } else {
          assert LastNameAt(last.propSet, k, i);
        }
      }
    }
  }

  /** The inner loop of `entityProps`: each property put by name. */
  method PutProperties(m: PropMap, dps: seq<DynamicProperty>) returns (r: PropMap)
    ensures r == PutPairs(m, PropPairs(dps))
  {
    r := m;
    for i := 0 to |dps|
      invariant r == PutPairs(m, PropPairs(dps)[..i])
    {
      assert PropPairs(dps)[..i + 1][..i] == PropPairs(dps)[..i];
      r := r[dps[i].name := dps[i].val];
    }
    assert PropPairs(dps)[..|dps|] == PropPairs(dps);
  }

  /** What `entityProps(entityMor, props)` makes of the reply: the
      properties of every returned content in one map; the reply's token
      is not followed, and a null reply throws. */
  function EntityPropsOf(result: Option<RetrieveResult>): Result<PropMap> {
    if result.None? then Err(NullPointer)
    else Ok(ContentMap(result.value.objects))
  }

  /** The query of `entityProps(entityMor, props)`: the given properties
      of the one object, which is not skipped over. */
  method EntityQuery(entityMor: Mor, props: seq<string>) returns (query: PropertyFilterSpec)
    ensures query == PropertyFilterSpec([PropertySpec(Some(false), props, entityMor.morType)],
                                        [ObjectSpec(Some(entityMor), None, [])], None)
  {
    var objectSpec := new OSB.ObjectSpecBuilder();
    objectSpec := objectSpec.Obj(Some(entityMor));
    var filter := new PFB.PropertyFilterSpecBuilder();
    filter := filter.PropSet([PropertySpec(Some(false), props, entityMor.morType)]);
    filter := filter.ObjectSet([objectSpec.Spec()]);
    query := filter.Spec();
  }

  /** The loops of `entityProps(entityMor, props)` over the reply's contents. */
  method PutContentProperties(oCont: seq<ObjectContent>) returns (retVal: PropMap)
    ensures retVal == ContentMap(oCont)
  {
    retVal := map[];
    for c := 0 to |oCont|
      invariant retVal == ContentMap(oCont[..c])
    {
      assert oCont[..c + 1][..c] == oCont[..c];
      PutPairsAppend(map[], ContentPairs(oCont[..c]), PropPairs(oCont[c].propSet));
      retVal := PutProperties(retVal, oCont[c].propSet);
    }
    assert oCont[..|oCont|] == oCont;
  }

  /** `entityProps(entityMor, props)`: the query, and the map made of the reply. */
  method EntityProps(entityMor: Mor, props: seq<string>, result: Option<RetrieveResult>)
    returns (query: PropertyFilterSpec, r: Result<PropMap>)
    ensures query == PropertyFilterSpec([PropertySpec(Some(false), props, entityMor.morType)],
                                        [ObjectSpec(Some(entityMor), None, [])], None)
    ensures r == EntityPropsOf(result)
  {
    query := EntityQuery(entityMor, props);
    if result.None? {
      return query, Err(NullPointer);
    }
    var retVal := PutContentProperties(result.value.objects);
    r := Ok(retVal);
  }

  // ---------------------------------------------------------------
  // entityProps(entityMors, props)
  // ---------------------------------------------------------------

  /** The types of mors, each once, in order of first occurrence. */
  function DistinctTypes(mors: seq<Mor>): seq<string> {
    if |mors| == 0 then []
    else
      var d := DistinctTypes(mors[..|mors| - 1]);
      if mors[|mors| - 1].morType in d then d else d + [mors[|mors| - 1].morType]
  }

  /** Every type of mors occurs exactly once, and the list for a prefix of
      mors is a prefix of the list for mors: types are listed in the order
      they first occur. */
  lemma {:induction false} DistinctTypesMeaning(mors: seq<Mor>)
    ensures forall t :: t in DistinctTypes(mors) <==> exists i :: 0 <= i < |mors| && mors[i].morType == t
    ensures forall i, j :: 0 <= i < j < |DistinctTypes(mors)| ==> DistinctTypes(mors)[i] != DistinctTypes(mors)[j]
    ensures forall n :: 0 <= n <= |mors| ==> DistinctTypes(mors[..n]) <= DistinctTypes(mors)
  {
    if |mors| > 0 {
      var init := mors[..|mors| - 1];
      DistinctTypesMeaning(init);
      forall t ensures t in DistinctTypes(mors) <==> exists i :: 0 <= i < |mors| && mors[i].morType == t {
        if exists i :: 0 <= i < |mors| && mors[i].morType == t {
          var i :| 0 <= i < |mors| && mors[i].morType == t;
          if i < |init| { assert init[i] == mors[i]; }
        }
        if t in DistinctTypes(init) {
          var i :| 0 <= i < |init| && init[i].morType == t;
          assert mors[i] == init[i];
        }
      }
      forall n | 0 <= n <= |mors| ensures DistinctTypes(mors[..n]) <= DistinctTypes(mors) {
        if n < |mors| {
          assert mors[..n] == init[..n];
        } else {
          assert mors[..n] == mors;
        }
      }
    }
  }

  /** One property spec per type, asking for props. */
  function TypeSpecs(types: seq<string>, props: seq<string>): (r: seq<PropertySpec>)
    ensures |r| == |types| && forall i :: 0 <= i < |types| ==> r[i] == PropertySpec(Some(false), props, types[i])
  {
    seq(|types|, i requires 0 <= i < |types| => PropertySpec(Some(false), props, types[i]))
  }

  /** One object spec per MOR. */
  function ObjectSpecs(mors: seq<Mor>): (r: seq<ObjectSpec>)
    ensures |r| == |mors| && forall i :: 0 <= i < |mors| ==> r[i] == ObjectSpec(Some(mors[i]), None, [])
  {
    seq(|mors|, i requires 0 <= i < |mors| => ObjectSpec(Some(mors[i]), None, []))
  }

  /** One more MOR adds its type's property spec when the type is new,
      and always its object spec. */
  lemma SpecsSnoc(mors: seq<Mor>, mor: Mor, props: seq<string>)
    ensures TypeSpecs(DistinctTypes(mors + [mor]), props) ==
      TypeSpecs(DistinctTypes(mors), props)
      + (if mor.morType in DistinctTypes(mors) then [] else [PropertySpec(Some(false), props, mor.morType)])
    ensures ObjectSpecs(mors + [mor]) == ObjectSpecs(mors) + [ObjectSpec(Some(mor), None, [])]
  {
    assert (mors + [mor])[..|mors|] == mors;
  }

  /** One pass of the filter-spec loop of `entityProps(entityMors, props)`. */
  method AddEntity(propertyFilterSpec: PFB.PropertyFilterSpecBuilder, typesCovered: set<string>,
                   mor: Mor, props: seq<string>) returns (covered: set<string>)
    modifies propertyFilterSpec
    ensures Listed(propertyFilterSpec.propSet) == Listed(old(propertyFilterSpec.propSet))
      + (if mor.morType in typesCovered then [] else [PropertySpec(Some(false), props, mor.morType)])
    ensures Listed(propertyFilterSpec.objectSet) == Listed(old(propertyFilterSpec.objectSet)) + [ObjectSpec(Some(mor), None, [])]
    ensures propertyFilterSpec.reportMissingObjectsInResults == old(propertyFilterSpec.reportMissingObjectsInResults)
    ensures covered == typesCovered + {mor.morType}
  {
    covered := typesCovered;
    if mor.morType !in typesCovered {
      var _ := propertyFilterSpec.PropSet([PropertySpec(Some(false), props, mor.morType)]);
      covered := typesCovered + {mor.morType};
    }
    var objectSpec := new OSB.ObjectSpecBuilder();
    objectSpec := objectSpec.Obj(Some(mor));
    var _ := propertyFilterSpec.ObjectSet([objectSpec.Spec()]);
  }

  /** The filter-spec loop of `entityProps(entityMors, props)`: a
      property spec the first time each type is seen, and an object spec
      for every MOR. */
  method EntityPropsSpec(entityMors: seq<Mor>, props: seq<string>) returns (spec: PropertyFilterSpec)
    ensures spec.propSet == TypeSpecs(DistinctTypes(entityMors), props)
    ensures spec.objectSet == ObjectSpecs(entityMors)
    ensures spec.reportMissingObjectsInResults == None
  {
    var propertyFilterSpec := new PFB.PropertyFilterSpecBuilder();
    var typesCovered: set<string> := {};
    for i := 0 to |entityMors|
      invariant Listed(propertyFilterSpec.propSet) == TypeSpecs(DistinctTypes(entityMors[..i]), props)
      invariant Listed(propertyFilterSpec.objectSet) == ObjectSpecs(entityMors[..i])
      invariant propertyFilterSpec.reportMissingObjectsInResults == None
      invariant forall t :: t in typesCovered <==> t in DistinctTypes(entityMors[..i])
    {
      assert entityMors[..i + 1] == entityMors[..i] + [entityMors[i]];
      SpecsSnoc(entityMors[..i], entityMors[i], props);
      typesCovered := AddEntity(propertyFilterSpec, typesCovered, entityMors[i], props);
    }
    assert entityMors[..|entityMors|] == entityMors;
    spec := propertyFilterSpec.Spec();
  }

  /** The contents of a page; a null page has none. */
  function ObjectsOf(page: Option<RetrieveResult>): seq<ObjectContent> {
    if page.Some? then page.value.objects else []
  }

  /** `populate(result, listobjcontent)`: the page's contents appended in
      order after what the list held, and the page's token; a null page
      appends nothing and gives a null token. */
  function PopulateList(result: Option<RetrieveResult>, listobjcontent: seq<ObjectContent>): (r: (seq<ObjectContent>, Option<string>))
    ensures r.0 == listobjcontent + ObjectsOf(result)
    ensures r.1 == TokenOf(result)
  {
    if result.None? then (listobjcontent, None)
    else (listobjcontent + result.value.objects, result.value.token)
  }

  /** The contents of the pages, one page after another. */
  function AllObjects(pages: seq<Option<RetrieveResult>>): seq<ObjectContent> {
    if |pages| == 0 then [] else AllObjects(pages[..|pages| - 1]) + ObjectsOf(pages[|pages| - 1])
  }

  /** The paging loop of `entityProps(entityMors, props)` once `acc` holds
      the contents so far and `token` is the last page's token. */
  function DrainList(acc: seq<ObjectContent>, token: Option<string>, more: seq<Option<RetrieveResult>>, used: nat): Paged<seq<ObjectContent>>
    requires used <= |more|
    decreases |more| - used
  {
    if !Continues(token) then Drained(acc, used)
    else if used == |more| then PagesExhausted
    else
      var step := PopulateList(more[used], acc);
      DrainList(step.0, step.1, more, used + 1)
  }

  /** The paging loop of `entityProps` never throws; when drained it
      went on while the token in hand was non-null and non-empty, and it
      runs out of pages only when every token continues. */
  lemma {:induction false} DrainListTokens(acc: seq<ObjectContent>, token: Option<string>, more: seq<Option<RetrieveResult>>, used: nat)
    requires used <= |more|
    ensures var r := DrainList(acc, token, more, used);
      r.Drained? ==>
        used <= r.calls <= |more|
        && (forall k :: used <= k < r.calls ==> Continues(TokenBefore(token, more, used, k)))
        && !Continues(TokenBefore(token, more, used, r.calls))
    ensures DrainList(acc, token, more, used).PagesExhausted? ==>
      forall k :: used <= k <= |more| ==> Continues(TokenBefore(token, more, used, k))
    ensures !DrainList(acc, token, more, used).Threw?
    decreases |more| - used
  {
    if Continues(token) && used < |more| {
      var step := PopulateList(more[used], acc);
      DrainListTokens(step.0, step.1, more, used + 1);
      forall k | used + 1 <= k <= |more| ensures TokenBefore(step.1, more, used + 1, k) == TokenBefore(token, more, used, k) {
      }
    }
  }

  /** A drained list holds the contents of every page fetched, in order. */
  lemma {:induction false} DrainListContents(acc: seq<ObjectContent>, token: Option<string>, more: seq<Option<RetrieveResult>>, used: nat)
    requires used <= |more|
    ensures var r := DrainList(acc, token, more, used);
      r.Drained? ==> used <= r.calls <= |more| && r.value == acc + AllObjects(more[used..r.calls])
    decreases |more| - used
  {
    if Continues(token) && used < |more| {
      var step := PopulateList(more[used], acc);
      DrainListContents(step.0, step.1, more, used + 1);
      var r := DrainList(step.0, step.1, more, used + 1);
      assert DrainList(acc, token, more, used) == r;
      if r.Drained? {
        var page := ObjectsOf(more[used]);
        var rest := AllObjects(more[used + 1..r.calls]);
        AllObjectsCons(more[used], more[used + 1..r.calls]);
        assert [more[used]] + more[used + 1..r.calls] == more[used..r.calls];
        assert (acc + page) + rest == acc + (page + rest);
      }
    } else {
      assert more[used..used] == [];
    }
  }

  /** The contents of a page followed by further pages. */
  lemma {:induction false} AllObjectsCons(page: Option<RetrieveResult>, pages: seq<Option<RetrieveResult>>)
    ensures AllObjects([page] + pages) == ObjectsOf(page) + AllObjects(pages)
    decreases |pages|
  {
    if |pages| > 0 {
      var init := pages[..|pages| - 1];
      assert ([page] + pages)[..|pages|] == [page] + init;
      AllObjectsCons(page, init);
    } else {
      assert [page] + pages == [page];
      assert [page][..0] == [];
    }
  }

  /** The MOR of a content paired with its property map. */
  function MorEntry(oc: ObjectContent): (Mor, PropMap) {
    (oc.obj, PutPairs(map[], PropPairs(oc.propSet)))
  }

  /** The result map of `entityProps(entityMors, props)` for the collected
      contents: each MOR with the properties of its last content. */
  function PropsByMor(contents: seq<ObjectContent>): map<Mor, PropMap> {
    PutPairs(map[], seq(|contents|, c requires 0 <= c < |contents| => MorEntry(contents[c])))
  }

  /** Content c is the last one for mor. */
  predicate LastContentAt(contents: seq<ObjectContent>, mor: Mor, c: int) {
    0 <= c < |contents| && contents[c].obj == mor && forall c' :: c < c' < |contents| ==> contents[c'].obj != mor
  }

  /** Every returned MOR is a key, and it maps to the properties of its
      last content, by name, with later properties of a name replacing
      earlier ones. */
  lemma PropsByMorMeaning(contents: seq<ObjectContent>)
    ensures forall mor :: mor in PropsByMor(contents) <==> exists c :: 0 <= c < |contents| && contents[c].obj == mor
    ensures forall mor, c :: LastContentAt(contents, mor, c) ==>
      mor in PropsByMor(contents) && PropsByMor(contents)[mor] == PutPairs(map[], PropPairs(contents[c].propSet))
  {
    var kvs := seq(|contents|, c requires 0 <= c < |contents| => MorEntry(contents[c]));
    PutPairsMeaning(map[], kvs);
    forall mor ensures Writes(kvs, mor) <==> exists c :: 0 <= c < |contents| && contents[c].obj == mor {
      if exists c :: 0 <= c < |contents| && contents[c].obj == mor {
        var c :| 0 <= c < |contents| && contents[c].obj == mor;
        assert kvs[c].0 == mor;
      }
    }
    forall mor, c | LastContentAt(contents, mor, c) ensures LastWriteAt(kvs, mor, c) {
    }
  }

  /** The final loop of `entityProps(entityMors, props)`. */
  method PropsByMorOf(contents: seq<ObjectContent>) returns (retVal: map<Mor, PropMap>)
    ensures retVal == PropsByMor(contents)
  {
    ghost var kvs := seq(|contents|, c requires 0 <= c < |contents| => MorEntry(contents[c]));
    retVal := map[];
    for c := 0 to |contents|
      invariant retVal == PutPairs(map[], kvs[..c])
    {
      assert kvs[..c + 1][..c] == kvs[..c];
      var propMap := PutProperties(map[], contents[c].propSet);
      retVal := retVal[contents[c].obj := propMap];
    }
    assert kvs[..|contents|] == kvs;
  }

  /** `entityProps(entityMors, props)` after the first retrieval: the
      object contents of all pages, then the map by MOR. */
  function EntityPropsAll(first: Option<RetrieveResult>, more: seq<Option<RetrieveResult>>): Paged<map<Mor, PropMap>> {
    var step := PopulateList(first, []);
    match DrainList(step.0, step.1, more, 0)
    case Drained(contents, calls) => Drained(PropsByMor(contents), calls)
    case Threw(f) => Threw(f)
    case PagesExhausted => PagesExhausted
  }

  /** `entityProps(entityMors, props)` fetches every continuation page
      and maps the MORs of all of them: the contents are those of the
      first page and the `calls` pages after it, in order, and every page
      but the last carries a non-null, non-empty token. */
  lemma EntityPropsAllMeaning(first: Option<RetrieveResult>, more: seq<Option<RetrieveResult>>)
    ensures var r := EntityPropsAll(first, more);
      r.Drained? ==>
        r.calls <= |more|
        && var pages := [first] + more[..r.calls];
        r.value == PropsByMor(AllObjects(pages))
        && (forall k :: 0 <= k < r.calls ==> Continues(TokenOf(pages[k])))
        && !Continues(TokenOf(pages[r.calls]))
    ensures !EntityPropsAll(first, more).Threw?
  {
    var step := PopulateList(first, []);
    DrainListTokens(step.0, step.1, more, 0);
    DrainListContents(step.0, step.1, more, 0);
    var d := DrainList(step.0, step.1, more, 0);
    if d.Drained? {
      var pages := [first] + more[..d.calls];
      assert more[0..d.calls] == more[..d.calls];
      assert step.0 == ObjectsOf(first);
      AllObjectsCons(first, more[..d.calls]);
      forall k | 0 <= k <= d.calls ensures TokenOf(pages[k]) == TokenBefore(step.1, more, 0, k) {
      }
    }
  }

  /** The paging loop of `entityProps(entityMors, props)`. */
  method DrainPages(first: Option<RetrieveResult>, more: seq<Option<RetrieveResult>>) returns (r: Paged<seq<ObjectContent>>)
    ensures var step := PopulateList(first, []); r == DrainList(step.0, step.1, more, 0)
  {
    var listobjcontent: seq<ObjectContent> := [];
    var token: Option<string>;
    listobjcontent, token := PopulateList(first, listobjcontent).0, PopulateList(first, listobjcontent).1;
    ghost var start := PopulateList(first, []);
    var used := 0;
    while Continues(token)
      invariant used <= |more|
      invariant DrainList(listobjcontent, token, more, used) == DrainList(start.0, start.1, more, 0)
      decreases |more| - used
    {
      if used == |more| {
        return PagesExhausted;
      }
      listobjcontent, token := PopulateList(more[used], listobjcontent).0, PopulateList(more[used], listobjcontent).1;
      used := used + 1;
    }
    r := Drained(listobjcontent, used);
  }

  /** `entityProps(entityMors, props)`: the query, and the map of all
      returned pages. */
  method EntityPropsOfAll(entityMors: seq<Mor>, props: seq<string>,
                          first: Option<RetrieveResult>, more: seq<Option<RetrieveResult>>)
    returns (query: PropertyFilterSpec, r: Paged<map<Mor, PropMap>>)
    ensures query.propSet == TypeSpecs(DistinctTypes(entityMors), props)
    ensures query.objectSet == ObjectSpecs(entityMors)
    ensures r == EntityPropsAll(first, more)
  {
    query := EntityPropsSpec(entityMors, props);
    var contents := DrainPages(first, more);
    match contents
    case Drained(objects, calls) =>
      var retVal := PropsByMorOf(objects);
      r := Drained(retVal, calls);
    case Threw(f) =>
      r := Threw(f);
    case PagesExhausted =>
      r := PagesExhausted;
  }

  // ---------------------------------------------------------------
  // getVMTraversalSpec
  // ---------------------------------------------------------------

  /** The names of the traversal specs of a selection graph. */
  function TraversalNames(s: Selection): set<string>
    decreases s
  {
    match s
    case SelectionSpec(_) => {}
    case TraversalSpec(name, _, _, _, selectSet) =>
      (if name.Some? then {name.value} else {})
      + (set i, n | 0 <= i < |selectSet| && n in TraversalNames(selectSet[i]) :: n)
  }

  /** The names that bare selection specs of a graph refer to. */
  function ReferencedNames(s: Selection): set<string>
    decreases s
  {
    match s
    case SelectionSpec(name) => if name.Some? then {name.value} else {}
    case TraversalSpec(_, _, _, _, selectSet) =>
      set i, n | 0 <= i < |selectSet| && n in ReferencedNames(selectSet[i]) :: n
  }

  /** Every bare selection of the graph names a traversal of the graph. */
  predicate Closed(s: Selection) {
    ReferencedNames(s) <= TraversalNames(s)
  }

  /** The traversal from a virtual app to its virtual machines. */
  const VAPP_TO_VM := TraversalSpec(Some("vAppToVM"), Some("VirtualApp"), Some("vm"), None, [])

  /** The traversal from a virtual app to its nested virtual apps. */
  const VAPP_TO_VAPP := TraversalSpec(Some("vAppToVApp"), Some("VirtualApp"), Some("resourcePool"), None,
                                      [SelectionSpec(Some("vAppToVApp")), SelectionSpec(Some("vAppToVM"))])

  /** The traversal from a datacenter to its VM folder. */
  const DATACENTER_TO_VM_FOLDER := TraversalSpec(Some("DataCenterToVMFolder"), Some("Datacenter"), Some("vmFolder"),
                                                 Some(false), [SelectionSpec(Some("VisitFolders"))])

  /** The graph `getVMTraversalSpec` returns: folder recursion from the
      root, into datacenters' VM folders and through virtual apps. */
  const VM_TRAVERSAL := TraversalSpec(Some("VisitFolders"), Some("Folder"), Some("childEntity"), Some(false),
                                      [SelectionSpec(Some("VisitFolders")), DATACENTER_TO_VM_FOLDER, VAPP_TO_VM, VAPP_TO_VAPP])

  /** The names in the three inner traversals. */
  lemma InnerTraversalNames()
    ensures TraversalNames(VAPP_TO_VM) == {"vAppToVM"} && ReferencedNames(VAPP_TO_VM) == {}
    ensures TraversalNames(VAPP_TO_VAPP) == {"vAppToVApp"}
    ensures ReferencedNames(VAPP_TO_VAPP) == {"vAppToVApp", "vAppToVM"}
    ensures TraversalNames(DATACENTER_TO_VM_FOLDER) == {"DataCenterToVMFolder"}
    ensures ReferencedNames(DATACENTER_TO_VM_FOLDER) == {"VisitFolders"}
  {
    var sel := VAPP_TO_VAPP.selectSet;
    assert TraversalNames(sel[0]) == {} && TraversalNames(sel[1]) == {};
    assert ReferencedNames(sel[0]) == {"vAppToVApp"} && ReferencedNames(sel[1]) == {"vAppToVM"};
    assert TraversalNames(DATACENTER_TO_VM_FOLDER.selectSet[0]) == {};
    assert ReferencedNames(DATACENTER_TO_VM_FOLDER.selectSet[0]) == {"VisitFolders"};
  }

  /** The graph names exactly the four traversals, refers by name to
      three of them, and is closed. */
  lemma VmTraversalClosed()
    ensures TraversalNames(VM_TRAVERSAL) == {"VisitFolders", "DataCenterToVMFolder", "vAppToVM", "vAppToVApp"}
    ensures ReferencedNames(VM_TRAVERSAL) == {"VisitFolders", "vAppToVApp", "vAppToVM"}
    ensures Closed(VM_TRAVERSAL)
  {
    InnerTraversalNames();
    var top := VM_TRAVERSAL.selectSet;
    assert TraversalNames(top[0]) == {} && ReferencedNames(top[0]) == {"VisitFolders"};
    assert top[1] == DATACENTER_TO_VM_FOLDER && top[2] == VAPP_TO_VM && top[3] == VAPP_TO_VAPP;
  }

  /** The `vAppToVM` traversal, as built in `getVMTraversalSpec`. */
  method VAppToVmSpec() returns (spec: Selection)
    ensures spec == VAPP_TO_VM
  {
    var vAppToVM := new TSB.TraversalSpecBuilder();
    vAppToVM := vAppToVM.Name(Some("vAppToVM"));
    vAppToVM := vAppToVM.Type(Some("VirtualApp"));
    vAppToVM := vAppToVM.Path(Some("vm"));
    spec := vAppToVM.Spec();
  }

  /** The `vAppToVApp` traversal, as built in `getVMTraversalSpec`. */
  method VAppToVAppSpec() returns (spec: Selection)
    ensures spec == VAPP_TO_VAPP
  {
    var vAppToVApp := new TSB.TraversalSpecBuilder();
    vAppToVApp := vAppToVApp.Name(Some("vAppToVApp"));
    vAppToVApp := vAppToVApp.Type(Some("VirtualApp"));
    vAppToVApp := vAppToVApp.Path(Some("resourcePool"));
    vAppToVApp := vAppToVApp.SelectSet([SelectionSpec(Some("vAppToVApp")), SelectionSpec(Some("vAppToVM"))]);
    spec := vAppToVApp.Spec();
  }

  /** The `DataCenterToVMFolder` traversal, as built in `getVMTraversalSpec`. */
  method DataCenterToVmFolderSpec(visitFolders: Selection) returns (spec: Selection)
    requires visitFolders == SelectionSpec(Some("VisitFolders"))
    ensures spec == DATACENTER_TO_VM_FOLDER
  {
    var dataCenterToVMFolder := new TSB.TraversalSpecBuilder();
    dataCenterToVMFolder := dataCenterToVMFolder.Name(Some("DataCenterToVMFolder"));
    dataCenterToVMFolder := dataCenterToVMFolder.Type(Some("Datacenter"));
    dataCenterToVMFolder := dataCenterToVMFolder.Path(Some("vmFolder"));
    dataCenterToVMFolder := dataCenterToVMFolder.Skip(Some(false));
    dataCenterToVMFolder := dataCenterToVMFolder.SelectSet([visitFolders]);
    spec := dataCenterToVMFolder.Spec();
  }

  /** `getVMTraversalSpec()`, built bottom-up with the builders. */
  method VmTraversalSpec() returns (spec: Selection)
    ensures spec == VM_TRAVERSAL
  {
    var vAppToVM := VAppToVmSpec();
    var vAppToVApp := VAppToVAppSpec();
    var visitFolders := SelectionSpec(Some("VisitFolders"));
    var dataCenterToVMFolder := DataCenterToVmFolderSpec(visitFolders);
    var root := new TSB.TraversalSpecBuilder();
    root := root.Name(Some("VisitFolders"));
    root := root.Type(Some("Folder"));
    root := root.Path(Some("childEntity"));
    root := root.Skip(Some(false));
    root := root.SelectSet([visitFolders, dataCenterToVMFolder, vAppToVM, vAppToVApp]);
    spec := root.Spec();
  }

  // ---------------------------------------------------------------
  // vmByVMname
  // ---------------------------------------------------------------

  /** The first content whose name equals vmName; `vmnm.equals(vmName)`
      is false for a null vmName. Names are cast as in `populate`, so a
      content that is not a string fails before any later content is
      looked at. */
  function FindVm(objects: seq<ObjectContent>, vmName: Option<string>): Result<Option<Mor>>
    decreases |objects|
  {
    if |objects| == 0 then Ok(None)
    else
      var vmnm :- EntityName(objects[0].propSet);
      if vmnm.Some? && vmnm == vmName then Ok(Some(objects[0].obj))
      else FindVm(objects[1..], vmName)
  }

  /** Content k is named differently from vmName (or vmName is null). */
  predicate OtherName(objects: seq<ObjectContent>, vmName: Option<string>, k: int) {
    0 <= k < |objects| && EntityName(objects[k].propSet).Ok?
    && (vmName.None? || EntityName(objects[k].propSet).value != vmName)
  }

  /** Content k is the first named vmName. */
  predicate FirstVmAt(objects: seq<ObjectContent>, vmName: Option<string>, k: int) {
    0 <= k < |objects| && vmName.Some? && EntityName(objects[k].propSet) == Ok(vmName)
    && forall j :: 0 <= j < k ==> OtherName(objects, vmName, j)
  }

  /** No VM is found exactly when every content is named, and none is
      named vmName; a VM found is the object of the first content named
      vmName; it fails only on a cast. */
  lemma {:induction false} FindVmMeaning(objects: seq<ObjectContent>, vmName: Option<string>)
    ensures FindVm(objects, vmName) == Ok(None) <==> forall k :: 0 <= k < |objects| ==> OtherName(objects, vmName, k)
    ensures FindVm(objects, vmName).Ok? && FindVm(objects, vmName).value.Some? ==>
      exists k :: FirstVmAt(objects, vmName, k) && objects[k].obj == FindVm(objects, vmName).value.value
    ensures FindVm(objects, vmName).Err? ==> FindVm(objects, vmName).fault == ClassCast
    decreases |objects|
  {
    if |objects| > 0 {
      var rest := objects[1..];
      EntityNameMeaning(objects[0].propSet);
      FindVmMeaning(rest, vmName);
      forall k | 0 < k < |objects| ensures OtherName(objects, vmName, k) <==> OtherName(rest, vmName, k - 1) {
        assert objects[k] == rest[k - 1];
      }
      var r := FindVm(objects, vmName);
      if r.Ok? && r.value.Some? && EntityName(objects[0].propSet) != Ok(vmName) {
        var k :| FirstVmAt(rest, vmName, k) && rest[k].obj == r.value.value;
        assert FirstVmAt(objects, vmName, k + 1) by {
          assert objects[k + 1] == rest[k];
          forall j | 0 <= j < k + 1 ensures OtherName(objects, vmName, j) {
            if j > 0 { assert OtherName(rest, vmName, j - 1); }
          }
        }
      } else if r.Ok? && r.value.Some? {
        assert FirstVmAt(objects, vmName, 0);
      }
      if r == Ok(None) {
        forall k | 0 <= k < |objects| ensures OtherName(objects, vmName, k) {
          if k > 0 { assert OtherName(rest, vmName, k - 1); }
        }
      }
      if forall k :: 0 <= k < |objects| ==> OtherName(objects, vmName, k) {
        assert OtherName(objects, vmName, 0);
        forall k | 0 <= k < |rest| ensures OtherName(rest, vmName, k) {
          assert OtherName(objects, vmName, k + 1);
        }
      }
    }
  }

  /** `vmByVMname` after its one retrieval: a null reply throws, and only
      the first page is searched. */
  function VmByVmName(vmName: Option<string>, result: Option<RetrieveResult>): Result<Option<Mor>> {
    if result.None? then Err(NullPointer) else FindVm(result.value.objects, vmName)
  }

  /** The query of `vmByVMname`: the names of all virtual machines reached
      from the root folder through the VM traversal graph. */
  method VmQuery(rootFolder: Mor) returns (query: PropertyFilterSpec)
    ensures query == PropertyFilterSpec([PropertySpec(Some(false), ["name"], "VirtualMachine")],
                                        [ObjectSpec(Some(rootFolder), Some(true), [VM_TRAVERSAL])], None)
  {
    var tSpec := VmTraversalSpec();
    var propertySpec := PropertySpec(Some(false), ["name"], "VirtualMachine");
    var objectSpec := new OSB.ObjectSpecBuilder();
    objectSpec := objectSpec.Obj(Some(rootFolder));
    objectSpec := objectSpec.Skip(Some(true));
    objectSpec := objectSpec.SelectSet([tSpec]);
    var filter := new PFB.PropertyFilterSpecBuilder();
    assert objectSpec.Spec() == ObjectSpec(Some(rootFolder), Some(true), [VM_TRAVERSAL]);
    filter := filter.PropSet([propertySpec]);
    filter := filter.ObjectSet([objectSpec.Spec()]);
    assert filter.Spec().propSet == [propertySpec];
    query := filter.Spec();
  }

  /** `vmByVMname(vmName, propCollectorRef)`: the query, and the MOR of
      the first returned VM with that name, or null. */
  method VmByVmNameOf(vmName: Option<string>, rootFolder: Mor, result: Option<RetrieveResult>)
    returns (query: PropertyFilterSpec, r: Result<Option<Mor>>)
    ensures query == PropertyFilterSpec([PropertySpec(Some(false), ["name"], "VirtualMachine")],
                                        [ObjectSpec(Some(rootFolder), Some(true), [VM_TRAVERSAL])], None)
    ensures r == VmByVmName(vmName, result)
  {
    query := VmQuery(rootFolder);
    if result.None? {
      return query, Err(NullPointer);
    }
    var listobcont := result.value.objects;
    for i := 0 to |listobcont|
      invariant FindVm(listobcont[i..], vmName) == FindVm(listobcont, vmName)
    {
      var vmnm := EntityNameOf(listobcont[i].propSet);
      if vmnm.Err? {
        return query, Err(vmnm.fault);
      }
      if vmnm.value.Some? && vmnm.value == vmName {
        return query, Ok(Some(listobcont[i].obj));
      }
      assert listobcont[i..][1..] == listobcont[i + 1..];
    }
    r := Ok(None);
  }
}
