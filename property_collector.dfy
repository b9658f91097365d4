/**
 * `PropertyCollector`: reading one property of one managed object,
 * creating the filter that `monitorTask` waits on, listing the recent
 * tasks of an entity, and reading an entity's name. The retrieved
 * contents and every task-info and name read are inputs.
 */
module PropertyCollector {
  import opened JavaLang
  import opened VimTypes
  import opened HciTypes

  const TASK_INFO_PROPERTYNAME := "info"
  const DATACENTER_HOSTFOLDER_PROPERTYNAME := "hostFolder"
  const DATACENTER_NETWORKFOLDER_PROPERTYNAME := "networkFolder"
  const MANAGEDENTITY_NAME_PROPERTYNAME := "name"

  // ---------------------------------------------------------------
  // The retrieval spec of getDynamicProperty and createFilter
  // ---------------------------------------------------------------

  /** The filter spec both `getDynamicProperty` and `createFilter` send:
      one object spec for `mor` (not skipped) and one property spec
      asking for `propertyName` only on objects of `mor`'s type. */
  function PropertyQuery(mor: Mor, propertyName: string): (spec: PropertyFilterSpec)
  {
    PropertyFilterSpec([PropertySpec(Some(false), [propertyName], mor.morType)],
                       [ObjectSpec(Some(mor), Some(false), [])], None)
  }

  /** What `createFilter` hands to the server: the spec and `partialUpdates`. */
  datatype FilterRequest = FilterRequest(spec: PropertyFilterSpec, partialUpdates: bool)

  /** `createFilter`. */
  function CreateFilter(mor: Mor, propertyName: string): (r: FilterRequest)
    ensures !r.partialUpdates
  {
    FilterRequest(PropertyQuery(mor, propertyName), false)
  }

  /** The query selects exactly `mor` and exactly the named property of
      its type, and the filter created for monitoring is the same query. */
  lemma QuerySelectsOneProperty(mor: Mor, propertyName: string)
    ensures var spec := PropertyQuery(mor, propertyName);
      |spec.objectSet| == 1 && spec.objectSet[0].obj == Some(mor) && spec.objectSet[0].skip == Some(false)
      && |spec.propSet| == 1 && spec.propSet[0].all == Some(false)
      && spec.propSet[0].pathSet == [propertyName] && spec.propSet[0].morType == mor.morType
    ensures CreateFilter(mor, propertyName).spec == PropertyQuery(mor, propertyName)
  {
  }

  // ---------------------------------------------------------------
  // getDynamicProperty
  // ---------------------------------------------------------------

  /** Some content has a first property without a name. */
  predicate HasUnnamedFirst(contents: seq<ObjectContent>) {
    exists k :: 0 <= k < |contents| && UnnamedFirstAt(contents, k)
  }

  predicate UnnamedFirstAt(contents: seq<ObjectContent>, k: int) {
    0 <= k < |contents| && |contents[k].propSet| > 0 && contents[k].propSet[0].name.None?
  }

  /** The first property value of the last content with a non-empty property set. */
  function LastFirstValue(contents: seq<ObjectContent>): Option<PropValue> {
    if |contents| == 0 then None
    else if |contents[|contents| - 1].propSet| > 0 then Some(contents[|contents| - 1].propSet[0].val)
    else LastFirstValue(contents[..|contents| - 1])
  }

  /** What `getDynamicProperty` returns: null, an unwrapped array of
      references, the text of an element, or the value as it came. */
  datatype PropertyResult = Null | MorArray(mors: seq<Mor>) | Text(text: string) | Plain(val: PropValue)

  /** The conversions applied to the value found: an
      ArrayOfManagedObjectReference becomes an array, an Element its first
      child's text (throwing when it has no child). */
  function Unwrap(v: Option<PropValue>): Result<PropertyResult> {
    match v
    case None => Ok(Null)
    case Some(MorArrayVal(mors)) => Ok(MorArray(mors))
    case Some(ElementVal(child)) => if child.None? then Err(NullPointer) else Ok(Text(child.value))
    case Some(other) => Ok(Plain(other))
  }

  function UnnamedMessage(propertyName: string): string {
    "The name in propSet of the ObjectContent found null when queried for '" + propertyName + "'"
  }

  const NULL_MOR_MESSAGE := "Could not get dynamic property for null mor."

  /** What `getDynamicProperty` yields for the retrieved contents. */
  function DynamicProperty(mor: Option<Mor>, propertyName: string, contents: seq<ObjectContent>): Result<PropertyResult> {
    if mor.None? then Err(RuntimeError(NULL_MOR_MESSAGE))
    else if HasUnnamedFirst(contents) then Err(RuntimeError(UnnamedMessage(propertyName)))
    else Unwrap(LastFirstValue(contents))
  }

  /** `getDynamicProperty`: the loop over the retrieved contents keeps the
      first value of each content with properties, so the last one wins;
      `retrieve` stands for the server's answer to `PropertyQuery`. */
  method GetDynamicProperty(mor: Option<Mor>, propertyName: string, retrieve: Mor -> seq<ObjectContent>)
    returns (r: Result<PropertyResult>)
    ensures mor.Some? ==> r == DynamicProperty(mor, propertyName, retrieve(mor.value))
    ensures mor.None? ==> r == Err(RuntimeError(NULL_MOR_MESSAGE))
  {
    if mor.None? {
      return Err(RuntimeError(NULL_MOR_MESSAGE));
    }
    var contents := retrieve(mor.value);
    var propertyValue: Option<PropValue> := None;
    for i := 0 to |contents|
      invariant propertyValue == LastFirstValue(contents[..i])
      invariant forall k :: 0 <= k < i ==> !UnnamedFirstAt(contents, k)
    {
      assert contents[..i + 1][..i] == contents[..i];
      var dynamicProperty := contents[i].propSet;
      if |dynamicProperty| > 0 {
        if dynamicProperty[0].name.None? {
          assert UnnamedFirstAt(contents, i);
          return Err(RuntimeError(UnnamedMessage(propertyName)));
        }
        propertyValue := Some(dynamicProperty[0].val);
      }
    }
    assert contents[..|contents|] == contents;
    r := Unwrap(propertyValue);
  }

  /** The value found is that of the last content with a non-empty
      property set: contents with empty property sets play no part. */
  lemma {:induction false} LastFirstValueIsLast(contents: seq<ObjectContent>)
    ensures LastFirstValue(contents).None? <==> forall k :: 0 <= k < |contents| ==> |contents[k].propSet| == 0
    ensures LastFirstValue(contents).Some? ==>
      exists k :: 0 <= k < |contents| && |contents[k].propSet| > 0
        && LastFirstValue(contents) == Some(contents[k].propSet[0].val)
        && forall j :: k < j < |contents| ==> |contents[j].propSet| == 0
  {
    if |contents| > 0 {
      var init := contents[..|contents| - 1];
      LastFirstValueIsLast(init);
      if |contents[|contents| - 1].propSet| == 0 {
        if LastFirstValue(init).Some? {
          var k :| 0 <= k < |init| && |init[k].propSet| > 0 && LastFirstValue(init) == Some(init[k].propSet[0].val)
            && forall j :: k < j < |init| ==> |init[j].propSet| == 0;
          assert init[k] == contents[k];
          assert forall j :: k < j < |contents| ==> |contents[j].propSet| == 0 by {
            forall j | k < j < |contents| ensures |contents[j].propSet| == 0 {
              if j < |init| { assert init[j] == contents[j]; }
            }
          }
        } else {
          forall k | 0 <= k < |contents| ensures |contents[k].propSet| == 0 {
            if k < |init| { assert init[k] == contents[k]; }
          }
        }
      }
    }
  }

  /** An array of references comes back with the same elements in the same
      order, and an element as its first child's text. */
  lemma UnwrapKeepsContents(v: PropValue)
    ensures v.MorArrayVal? ==> Unwrap(Some(v)) == Ok(MorArray(v.mors))
    ensures v.ElementVal? && v.firstChildText.Some? ==> Unwrap(Some(v)) == Ok(Text(v.firstChildText.value))
    ensures !v.MorArrayVal? && !v.ElementVal? ==> Unwrap(Some(v)) == Ok(Plain(v))
  {
  }

  // ---------------------------------------------------------------
  // getName
  // ---------------------------------------------------------------

  /** `getName`: the name read as a string, or null when the read throws
      or the value is not a string (the cast failure is caught too). */
  function GetName(read: Result<PropertyResult>): (name: Option<string>)
    ensures read.Err? ==> name.None?
  {
    match read
    case Ok(Text(s)) => Some(s)
    case Ok(Plain(StringVal(s))) => Some(s)
    case _ => None
  }

  /** A name string that was read is returned as it is; nothing else gives a name. */
  lemma GetNameMeaning(read: Result<PropertyResult>, s: string)
    ensures GetName(read) == Some(s) <==> read == Ok(Text(s)) || read == Ok(Plain(StringVal(s)))
  {
  }

  // ---------------------------------------------------------------
  // getRecentActiveTask
  // ---------------------------------------------------------------

  /** Examining one task throws when the entity name is known and the
      task's state is null (the `equals` call on the state). */
  predicate ExamineThrows(info: Option<TaskInfo>, entityNamed: bool) {
    info.Some? && entityNamed && info.value.state.None?
  }

  /** `Vector.remove(Object)`: the first element equal to `x` is dropped;
      a list without `x` is left as it is. */
  function RemoveFirstOf(list: seq<Mor>, x: Mor): (r: seq<Mor>)
    ensures x in list ==> |r| == |list| - 1
    ensures x !in list ==> r == list
  {
    if |list| == 0 then []
    else if list[0] == x then list[1..]
    else [list[0]] + RemoveFirstOf(list[1..], x)
  }

  /** Removing by value removes the element at `i` when no copy of it
      stands before it. */
  lemma {:induction false} RemoveFirstAt(list: seq<Mor>, i: nat)
    requires i < |list| && list[i] !in list[..i]
    ensures RemoveFirstOf(list, list[i]) == list[..i] + list[i + 1..]
  {
    if i > 0 {
      assert list[0] != list[i] by { assert list[0] == list[..i][0]; }
      assert list[1..][i - 1] == list[i];
      assert list[1..][..i - 1] == list[..i][1..];
      RemoveFirstAt(list[1..], i - 1);
      assert list[..i] == [list[0]] + list[1..][..i - 1];
      assert list[i + 1..] == list[1..][i..];
    }
  }

  /** The list the source's loop yields: it removes a task with null info
      by value (the first copy of it) and then moves on to i + 1, so the
      task that slid into position i is never examined. */
  function ScanAsWritten(list: seq<Mor>, i: nat, infoOf: Mor -> Option<TaskInfo>, entityNamed: bool): Result<seq<Mor>>
    decreases |list| - i
  {
    if i >= |list| then Ok(list)
    else if ExamineThrows(infoOf(list[i]), entityNamed) then Err(NullPointer)
    else if infoOf(list[i]).Some? then ScanAsWritten(list, i + 1, infoOf, entityNamed)
    else ScanAsWritten(RemoveFirstOf(list, list[i]), i + 1, infoOf, entityNamed)
  }

  /** `getRecentActiveTask` as written. `recent` is the entity's
      `recentTask` array, null when the read failed (the loop then throws). */
  method GetRecentActiveTaskAsWritten(recent: Option<seq<Mor>>, infoOf: Mor -> Option<TaskInfo>, entityNamed: bool)
    returns (r: Result<seq<Mor>>)
    ensures recent.None? ==> r == Err(NullPointer)
    ensures recent.Some? ==> r == ScanAsWritten(recent.value, 0, infoOf, entityNamed)
  {
    if recent.None? {
      return Err(NullPointer);
    }
    var recentTaskList := recent.value;
    var i := 0;
    while i < |recentTaskList|
      invariant ScanAsWritten(recentTaskList, i, infoOf, entityNamed) == ScanAsWritten(recent.value, 0, infoOf, entityNamed)
      decreases |recentTaskList| - i
    {
      var task := recentTaskList[i];
      var taskInfo := infoOf(task);
      if taskInfo.Some? {
        if entityNamed && taskInfo.value.state.None? {
          return Err(NullPointer);
        }
      } else {
        recentTaskList := RemoveFirstOf(recentTaskList, task);
      }
      i := i + 1;
    }
    r := Ok(recentTaskList);
  }

  /** Two tasks in a row without info: the second one survives the
      loop as written, while the intended list is empty. */
  lemma AsWrittenKeepsSecondNullTask()
    ensures var a := Mor("Task", "task-1");
      var b := Mor("Task", "task-2");
      ScanAsWritten([a, b], 0, (t: Mor) => None, false) == Ok([b])
      && RecentActiveTasks([a, b], (t: Mor) => None, false) == Ok([])
  {
    var a := Mor("Task", "task-1");
    var b := Mor("Task", "task-2");
    var none := (t: Mor) => None;
    assert RemoveFirstOf([a, b], a) == [b];
    assert ScanAsWritten([a, b], 0, none, false) == ScanAsWritten([b], 1, none, false);
    assert ScanAsWritten([b], 1, none, false) == Ok([b]);
    assert [a, b][1..] == [b] && [b][1..] == [];
    assert WithInfo([b], none) == [];
    assert WithInfo([a, b], none) == [];
  }

  /** The tasks whose info can be read, in their original order. */
  function WithInfo(list: seq<Mor>, infoOf: Mor -> Option<TaskInfo>): seq<Mor> {
    if |list| == 0 then []
    else (if infoOf(list[0]).Some? then [list[0]] else []) + WithInfo(list[1..], infoOf)
  }

  /** What the list is meant to become: every examined task is kept when
      its info can be read and removed otherwise; throwing as the source
      does when a task's state is null. */
  function RecentActiveTasks(list: seq<Mor>, infoOf: Mor -> Option<TaskInfo>, entityNamed: bool): Result<seq<Mor>> {
    if exists k :: 0 <= k < |list| && ExamineThrows(infoOf(list[k]), entityNamed) then Err(NullPointer)
    else Ok(WithInfo(list, infoOf))
  }

  /** `getRecentActiveTask` with the index kept in place after a removal. */
  method GetRecentActiveTask(recent: Option<seq<Mor>>, infoOf: Mor -> Option<TaskInfo>, entityNamed: bool)
    returns (r: Result<seq<Mor>>)
    ensures recent.None? ==> r == Err(NullPointer)
    ensures recent.Some? ==> r == RecentActiveTasks(recent.value, infoOf, entityNamed)
  {
    if recent.None? {
      return Err(NullPointer);
    }
    ghost var all := recent.value;
    var recentTaskList := recent.value;
    var i := 0;
    ghost var seen := 0;
    while i < |recentTaskList|
      invariant seen <= |all| && i <= |recentTaskList|
      invariant recentTaskList[..i] == WithInfo(all[..seen], infoOf)
      invariant recentTaskList[i..] == all[seen..]
      invariant forall k :: 0 <= k < seen ==> !ExamineThrows(infoOf(all[k]), entityNamed)
      decreases |recentTaskList| - i
    {
      var task := recentTaskList[i];
      assert task == all[seen];
      assert recentTaskList[i + 1..] == recentTaskList[i..][1..] == all[seen..][1..] == all[seen + 1..];
      WithInfoAppend(all[..seen], all[seen], infoOf);
      assert all[..seen + 1] == all[..seen] + [all[seen]];
      var taskInfo := infoOf(task);
      if taskInfo.Some? {
        if entityNamed && taskInfo.value.state.None? {
          assert ExamineThrows(infoOf(all[seen]), entityNamed);
          return Err(NullPointer);
        }
        assert recentTaskList[..i + 1] == recentTaskList[..i] + [task];
        i := i + 1;
      } else {
        ghost var oldList := recentTaskList;
        recentTaskList := recentTaskList[..i] + recentTaskList[i + 1..];
        assert recentTaskList[..i] == oldList[..i];
        assert recentTaskList[i..] == oldList[i + 1..];
      }
      seen := seen + 1;
    }
    assert all[seen..] == [];
    assert all[..seen] == all;
    assert recentTaskList[..i] == recentTaskList;
    r := Ok(recentTaskList);
  }

  /** The list `getRecentActiveTask` yields, under either reading of its
      loop. */
  function RecentTasks(reading: Reading, list: seq<Mor>, infoOf: Mor -> Option<TaskInfo>, entityNamed: bool)
    : Result<seq<Mor>>
  {
    if reading.AsWritten? then ScanAsWritten(list, 0, infoOf, entityNamed)
    else RecentActiveTasks(list, infoOf, entityNamed)
  }

  lemma {:induction false} WithInfoAppend(list: seq<Mor>, t: Mor, infoOf: Mor -> Option<TaskInfo>)
    ensures WithInfo(list + [t], infoOf) == WithInfo(list, infoOf) + (if infoOf(t).Some? then [t] else [])
  {
    if |list| > 0 {
      assert (list + [t])[1..] == list[1..] + [t];
      WithInfoAppend(list[1..], t, infoOf);
    }
  }

  /** The intended list keeps, in order, exactly the tasks whose info can be read. */
  lemma {:induction false} WithInfoKeepsExactly(list: seq<Mor>, infoOf: Mor -> Option<TaskInfo>)
    ensures forall t :: t in WithInfo(list, infoOf) <==> t in list && infoOf(t).Some?
    ensures |WithInfo(list, infoOf)| <= |list|
    ensures (forall k :: 0 <= k < |list| ==> infoOf(list[k]).Some?) ==> WithInfo(list, infoOf) == list
  {
    WithInfoMembers(list, infoOf);
    WithInfoAllReadable(list, infoOf);
  }

  lemma {:induction false} WithInfoMembers(list: seq<Mor>, infoOf: Mor -> Option<TaskInfo>)
    ensures forall t :: t in WithInfo(list, infoOf) <==> t in list && infoOf(t).Some?
    ensures |WithInfo(list, infoOf)| <= |list|
  {
    if |list| > 0 {
      var rest := list[1..];
      var head := if infoOf(list[0]).Some? then [list[0]] else [];
      WithInfoMembers(rest, infoOf);
      assert WithInfo(list, infoOf) == head + WithInfo(rest, infoOf);
      forall t ensures t in WithInfo(list, infoOf) <==> t in list && infoOf(t).Some? {
        assert t in list <==> t == list[0] || t in rest;
      }
    }
  }

  lemma {:induction false} WithInfoAllReadable(list: seq<Mor>, infoOf: Mor -> Option<TaskInfo>)
    ensures (forall k :: 0 <= k < |list| ==> infoOf(list[k]).Some?) ==> WithInfo(list, infoOf) == list
  {
    if |list| > 0 && forall k :: 0 <= k < |list| ==> infoOf(list[k]).Some? {
      var rest := list[1..];
      forall k | 0 <= k < |rest| ensures infoOf(rest[k]).Some? {
        assert rest[k] == list[k + 1];
      }
      WithInfoAllReadable(rest, infoOf);
      assert WithInfo(list, infoOf) == [list[0]] + WithInfo(rest, infoOf);
      assert list == [list[0]] + rest;
    }
  }

}
