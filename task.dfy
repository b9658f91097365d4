/**
 * `Task`: following a vSphere task to completion. `monitorTask` creates a
 * property filter on the task's `info` property and polls
 * `waitForUpdatesEx` until an update reports the task finished, giving
 * up after 30 rounds in a row without an update; the `handle*` methods
 * pick the task state out of an update set.
 *
 * Every reply of the server is an input: the task info read at the start,
 * the outcome of creating the filter, whether re-reading the task info
 * during classification yields a value, and the outcome of each call to
 * `waitForUpdatesEx` in order (`outcomes`). When the outcomes run out
 * before the loop ends the model stops with `OutOfOutcomes`.
 */
module Task {
  import opened JavaLang
  import opened VimTypes

  const MAX_WAITFORUPDATE_SEC := 3
  const MAX_WAITFORUPDATES_ATTEMPT := 30
  const TASK_INFO_PROPERTYNAME := "info"

  /** The message of the time-out exception: the minutes are computed
      as (3 / 60000) * 30 in integer arithmetic. */
  const TIMEOUT_MESSAGE := "Operation Timed Out. No update happened for over: "
    + IntToString((MAX_WAITFORUPDATE_SEC / 60000) * MAX_WAITFORUPDATES_ATTEMPT) + " Minutes."

  // ---------------------------------------------------------------
  // handlePropertyChangeSet, handleObjUpdateList, handlePropertyUpdateList
  // ---------------------------------------------------------------

  /** What one property change decides, if anything: a change without a
      name, or an `info` change whose value is not a TaskInfo, throws; an
      `info` change in state SUCCESS or ERROR gives that state; any other
      change decides nothing. */
  function ChangeDecision(c: PropertyChange): Option<Result<Option<TaskState>>> {
    if c.name.None? then Some(Err(NullPointer))
    else if c.name.value != TASK_INFO_PROPERTYNAME then None
    else match c.val
      case NullValue => Some(Err(NullPointer))
      case OtherValue => Some(Err(ClassCast))
      case TaskInfoValue(info) =>
        if info.state == Some(Success) || info.state == Some(Error) then Some(Ok(info.state)) else None
  }

  /** `handlePropertyChangeSet` after its task-info read: the decision of
      the first deciding change, or no state. */
  function ChangesState(changes: seq<PropertyChange>): Result<Option<TaskState>> {
    match FirstDecision(ChangeDecision, changes)
    case None => Ok(None)
    case Some(d) => d
  }

  /** `handleObjUpdateList` with `handlePropertyChangeSet`: the task info
      is read again first, and a null read makes the name lookup throw. */
  function ObjUpdateState(first: ObjectUpdate, infoReadable: bool): Result<Option<TaskState>> {
    if !infoReadable then Err(NullPointer) else ChangesState(first.changeSet)
  }

  /** What one filter update decides: an empty object set throws on
      `get(0)`; only the first object update is examined, and only when
      its object is the monitored task; a state found there decides. */
  function UpdateDecision(u: PropertyFilterUpdate, task: Mor, infoReadable: bool): Option<Result<Option<TaskState>>> {
    if |u.objectSet| == 0 then Some(Err(IndexOutOfBounds))
    else
      var first := u.objectSet[0];
      if first.obj.None? || first.obj.value.value != task.value then None
      else
        var st := ObjUpdateState(first, infoReadable);
        if st == Ok(None) then None else Some(st)
  }

  /** `handlePropertyUpdateList`: the decision of the first deciding filter update, or no state. */
  function UpdateListState(updates: seq<PropertyFilterUpdate>, task: Mor, infoReadable: bool): Result<Option<TaskState>> {
    match FirstDecision((u: PropertyFilterUpdate) => UpdateDecision(u, task, infoReadable), updates)
    case None => Ok(None)
    case Some(d) => d
  }

  /** A state reported by the classifiers is always SUCCESS or ERROR; a
      change decides something only when it has no name or is named `info`. */
  lemma ChangeDecisionFacts(c: PropertyChange)
    ensures ChangeDecision(c).Some? ==> c.name.None? || c.name == Some(TASK_INFO_PROPERTYNAME)
    ensures ChangeDecision(c).Some? && ChangeDecision(c).value.Ok? ==>
      ChangeDecision(c).value.value == Some(Success) || ChangeDecision(c).value.value == Some(Error)
    ensures c.name == Some(TASK_INFO_PROPERTYNAME) && c.val.TaskInfoValue? &&
      (c.val.info.state == Some(Queued) || c.val.info.state == Some(Running) || c.val.info.state.None?)
      ==> ChangeDecision(c).None?
  {
  }

  /** The change set gives no state exactly when no change decides, and
      otherwise the first deciding change wins; a reported state is
      SUCCESS or ERROR. */
  lemma ChangesStateFirstWins(changes: seq<PropertyChange>)
    ensures ChangesState(changes) == Ok(None) <==> forall k :: 0 <= k < |changes| ==> ChangeDecision(changes[k]).None?
    ensures forall k :: DecidesFirstAt(ChangeDecision, changes, k) ==> ChangesState(changes) == ChangeDecision(changes[k]).value
    ensures ChangesState(changes).Ok? && ChangesState(changes).value.Some? ==>
      ChangesState(changes).value == Some(Success) || ChangesState(changes).value == Some(Error)
  {
    FirstDecisionIsFirst(ChangeDecision, changes);
    if FirstDecision(ChangeDecision, changes).Some? {
      FirstDecisionWitness(ChangeDecision, changes);
      var k :| DecidesFirstAt(ChangeDecision, changes, k) && FirstDecision(ChangeDecision, changes) == ChangeDecision(changes[k]);
      ChangeDecisionFacts(changes[k]);
    }
  }

  /** Classification looks only at the first object update of each filter
      update: two update lists that agree on those give the same state. */
  lemma {:induction false} UpdateListOnlyFirstObject(us: seq<PropertyFilterUpdate>, vs: seq<PropertyFilterUpdate>, task: Mor, infoReadable: bool)
    requires |us| == |vs|
    requires forall k :: 0 <= k < |us| ==>
      (|us[k].objectSet| == 0 <==> |vs[k].objectSet| == 0)
      && (|us[k].objectSet| > 0 ==> us[k].objectSet[0] == vs[k].objectSet[0])
    ensures UpdateListState(us, task, infoReadable) == UpdateListState(vs, task, infoReadable)
  {
    var f := (u: PropertyFilterUpdate) => UpdateDecision(u, task, infoReadable);
    assert FirstDecision(f, us) == FirstDecision(f, vs) by {
      SameDecisions(f, us, vs);
    }
  }

  lemma {:induction false} SameDecisions<A, R>(f: A -> Option<R>, us: seq<A>, vs: seq<A>)
    requires |us| == |vs| && forall k :: 0 <= k < |us| ==> f(us[k]) == f(vs[k])
    ensures FirstDecision(f, us) == FirstDecision(f, vs)
  {
    if |us| > 0 {
      SameDecisions(f, us[1..], vs[1..]);
    }
  }

  /** When no filter update starts with an object update about the
      monitored task, no state is found (nothing throws either, provided
      no object set is empty). */
  lemma OtherObjectsIgnored(us: seq<PropertyFilterUpdate>, task: Mor, infoReadable: bool)
    requires forall k :: 0 <= k < |us| ==>
      |us[k].objectSet| > 0 && (us[k].objectSet[0].obj.None? || us[k].objectSet[0].obj.value.value != task.value)
    ensures UpdateListState(us, task, infoReadable) == Ok(None)
  {
    var f := (u: PropertyFilterUpdate) => UpdateDecision(u, task, infoReadable);
    FirstDecisionIsFirst(f, us);
  }

  // ---------------------------------------------------------------
  // monitorTask
  // ---------------------------------------------------------------

  /** The outcome of one call to `waitForUpdatesEx`. */
  datatype WaitOutcome = Throws | ReturnsNull | Returns(updates: UpdateSet)

  /** How one round of up to 31 attempts ended: an attempt at index `at`
      did not throw; all attempts threw, leaving the next outcome at
      `next`; or the outcomes ran out. */
  datatype RoundWait = Answered(at: nat) | AllThrew(next: nat) | Exhausted

  /** The attempts of one round, starting at outcome `pos` with `attempts` left. */
  function Round(outcomes: seq<WaitOutcome>, pos: nat, attempts: nat): (r: RoundWait)
    requires pos <= |outcomes|
    ensures r.Answered? ==> pos <= r.at < |outcomes|
    ensures r.AllThrew? ==> r.next == pos + attempts <= |outcomes|
    decreases attempts
  {
    if attempts == 0 then AllThrew(pos)
    else if pos >= |outcomes| then Exhausted
    else if outcomes[pos].Throws? then Round(outcomes, pos + 1, attempts - 1)
    else Answered(pos)
  }

  /** A round stops at the first attempt that does not throw, and makes at
      most the attempts it is given. */
  lemma {:induction false} RoundFacts(outcomes: seq<WaitOutcome>, pos: nat, attempts: nat)
    requires pos <= |outcomes|
    ensures Round(outcomes, pos, attempts).Answered? ==>
      var at := Round(outcomes, pos, attempts).at;
      at < pos + attempts && !outcomes[at].Throws? && forall k :: pos <= k < at ==> outcomes[k].Throws?
    ensures Round(outcomes, pos, attempts).AllThrew? ==>
      forall k :: pos <= k < pos + attempts ==> outcomes[k].Throws?
    ensures Round(outcomes, pos, attempts).Exhausted? ==>
      |outcomes| < pos + attempts && forall k :: pos <= k < |outcomes| ==> outcomes[k].Throws?
    decreases attempts
  {
    if attempts > 0 && pos < |outcomes| && outcomes[pos].Throws? {
      RoundFacts(outcomes, pos + 1, attempts - 1);
    }
  }

  /** The attempts one round has: the initial try and 30 retries. */
  const ROUND_ATTEMPTS := MAX_WAITFORUPDATES_ATTEMPT + 1

  /** Where the next round starts. */
  function RoundEnd(w: RoundWait, size: nat): nat {
    match w
    case Answered(at) => at + 1
    case AllThrew(next) => next
    case Exhausted => size
  }

  /** The update set a round leaves in `updateSet`: the one returned, null,
      or, when every attempt threw, the one kept from before. */
  function RoundSet(outcomes: seq<WaitOutcome>, w: RoundWait, retained: Option<UpdateSet>): Option<UpdateSet>
    requires w.Answered? ==> w.at < |outcomes|
  {
    if w.Answered? then
      (if outcomes[w.at].Returns? then Some(outcomes[w.at].updates) else None)
    else retained
  }

  /** How `monitorTask` ends: it returns a result, or throws, or the model
      runs out of outcomes while the loop still runs. */
  datatype Ending = Returned(success: bool) | Threw(fault: Fault) | OutOfOutcomes

  /** The polling loop from outcome `pos`, with the wait version, the
      no-update counter and the kept update set; gives how it ends and
      how many outcomes it used. */
  function Watching(outcomes: seq<WaitOutcome>, task: Mor, infoReadable: bool,
                    pos: nat, version: string, noUpdate: nat, retained: Option<UpdateSet>): (Ending, nat)
    requires pos <= |outcomes|
    decreases |outcomes| - pos
  {
    var w := Round(outcomes, pos, ROUND_ATTEMPTS);
    if w.Exhausted? then (OutOfOutcomes, |outcomes|)
    else
      var next := RoundEnd(w, |outcomes|);
      var updateSet := RoundSet(outcomes, w, retained);
      if updateSet.None? then
        if noUpdate + 1 == MAX_WAITFORUPDATES_ATTEMPT then (Threw(RuntimeError(TIMEOUT_MESSAGE)), next)
        else Watching(outcomes, task, infoReadable, next, version, noUpdate + 1, updateSet)
      else
        var state := UpdateListState(updateSet.value.filterSet, task, infoReadable);
        if state.Err? then (Threw(state.fault), next)
        else if state.value == Some(Success) then (Returned(true), next)
        else if state.value == Some(Error) then (Returned(false), next)
        else Watching(outcomes, task, infoReadable, next, updateSet.value.version, 0, updateSet)
  }

  /** Everything `monitorTask` does that the model can observe: how it
      ends, whether it created the filter, how often it destroyed it, and
      how many wait outcomes it used. */
  datatype Monitoring = Monitoring(ending: Ending, filterCreated: bool, filterDestroyed: nat, waits: nat)

  /** `monitorTask` as a function of the server's replies. */
  function Monitor(task: Mor, taskInfo: Option<TaskInfo>, filter: Result<Mor>, infoReadable: bool,
                   outcomes: seq<WaitOutcome>): Monitoring
  {
    if taskInfo.None? then Monitoring(Returned(false), false, 0, 0)
    else if filter.Err? then Monitoring(Threw(filter.fault), false, 0, 0)
    else
      var (ending, used) := Watching(outcomes, task, infoReadable, 0, "", 0, None);
      Monitoring(ending, true, if ending.OutOfOutcomes? then 0 else 1, used)
  }

  /** The version of the last update set among the outcomes so far, or "" before any. */
  function LastVersion(outcomes: seq<WaitOutcome>): string {
    if |outcomes| == 0 then ""
    else if outcomes[|outcomes| - 1].Returns? then outcomes[|outcomes| - 1].updates.version
    else LastVersion(outcomes[..|outcomes| - 1])
  }

  /** Outcomes that throw leave the last version as it was. */
  lemma {:induction false} LastVersionAfterThrows(outcomes: seq<WaitOutcome>, pos: nat, end: nat)
    requires pos <= end <= |outcomes| && forall k :: pos <= k < end ==> outcomes[k].Throws?
    ensures LastVersion(outcomes[..end]) == LastVersion(outcomes[..pos])
    decreases end - pos
  {
    if pos < end {
      assert outcomes[..end][..end - 1] == outcomes[..end - 1];
      LastVersionAfterThrows(outcomes, pos, end - 1);
    }
  }

  /** The attempts of one round, each passing `version`. */
  method WaitRound(outcomes: seq<WaitOutcome>, pos: nat, version: string) returns (w: RoundWait, versions: seq<string>)
    requires pos <= |outcomes|
    ensures w == Round(outcomes, pos, ROUND_ATTEMPTS)
    ensures |versions| == RoundEnd(w, |outcomes|) - pos
    ensures forall k :: 0 <= k < |versions| ==> versions[k] == version
  {
    var i := 1;
    var p := pos;
    versions := [];
    while i <= MAX_WAITFORUPDATES_ATTEMPT + 1
      invariant 1 <= i <= ROUND_ATTEMPTS + 1 && p == pos + (i - 1) <= |outcomes|
      invariant Round(outcomes, p, ROUND_ATTEMPTS + 1 - i) == Round(outcomes, pos, ROUND_ATTEMPTS)
      invariant |versions| == p - pos && forall k :: 0 <= k < |versions| ==> versions[k] == version
    {
      if p >= |outcomes| {
        return Exhausted, versions;
      }
      versions := versions + [version];
      if !outcomes[p].Throws? {
        return Answered(p), versions;
      }
      p := p + 1;
      i := i + 1;
    }
    w := AllThrew(p);
  }

  /** One pass of the do/while loop of `monitorTask`: a round of wait
      attempts, then the no-update counter or the classification of the
      update set. `ending` is set when the loop (or the method) ends. */
  method MonitorRound(outcomes: seq<WaitOutcome>, task: Mor, infoReadable: bool,
                      pos: nat, version: string, noUpdate: nat, retained: Option<UpdateSet>)
    returns (ending: Option<Ending>, pos': nat, version': string, noUpdate': nat, retained': Option<UpdateSet>, vs: seq<string>)
    requires pos <= |outcomes|
    requires version == LastVersion(outcomes[..pos])
    requires retained.Some? ==> retained.value.version == version
    ensures pos' <= |outcomes| && (ending.None? ==> pos < pos')
    ensures ending.None? ==>
      Watching(outcomes, task, infoReadable, pos, version, noUpdate, retained)
      == Watching(outcomes, task, infoReadable, pos', version', noUpdate', retained')
    ensures ending.Some? ==> Watching(outcomes, task, infoReadable, pos, version, noUpdate, retained) == (ending.value, pos')
    ensures version' == LastVersion(outcomes[..pos'])
    ensures retained'.Some? ==> retained'.value.version == version'
    ensures pos <= pos' && |vs| == pos' - pos && forall k :: 0 <= k < |vs| ==> vs[k] == LastVersion(outcomes[..pos + k])
  {
    var w;
    w, vs := WaitRound(outcomes, pos, version);
    RoundFacts(outcomes, pos, ROUND_ATTEMPTS);
    pos' := RoundEnd(w, |outcomes|);
    forall k | 0 <= k < |vs|
      ensures vs[k] == LastVersion(outcomes[..pos + k])
    {
      LastVersionAfterThrows(outcomes, pos, pos + k);
    }
    ending, version', noUpdate', retained' := None, version, noUpdate, retained;
    if w.Exhausted? {
      ending := Some(OutOfOutcomes);
      LastVersionAfterThrows(outcomes, pos, pos');
    } else {
      if w.Answered? {
        LastVersionAfterThrows(outcomes, pos, w.at);
        assert outcomes[..w.at + 1][..w.at] == outcomes[..w.at];
      } else {
        LastVersionAfterThrows(outcomes, pos, pos');
      }
      retained' := RoundSet(outcomes, w, retained);
      if retained'.None? {
        noUpdate' := noUpdate + 1;
        if noUpdate' == MAX_WAITFORUPDATES_ATTEMPT {
          ending := Some(Threw(RuntimeError(TIMEOUT_MESSAGE)));
        }
      } else {
        noUpdate' := 0;
        version' := retained'.value.version;
        var taskState := UpdateListState(retained'.value.filterSet, task, infoReadable);
        if taskState.Err? {
          ending := Some(Threw(taskState.fault));
        } else if taskState.value == Some(Success) {
          ending := Some(Returned(true));
        } else if taskState.value == Some(Error) {
          ending := Some(Returned(false));
        }
      }
    }
  }

  /** `monitorTask`. Besides the observable outcome it returns the version
      passed to each wait attempt. */
  method MonitorTask(task: Mor, taskInfo: Option<TaskInfo>, filter: Result<Mor>, infoReadable: bool,
                     outcomes: seq<WaitOutcome>) returns (r: Monitoring, versions: seq<string>)
    ensures r == Monitor(task, taskInfo, filter, infoReadable, outcomes)
    ensures |versions| == r.waits <= |outcomes|
    ensures forall k :: 0 <= k < |versions| ==> versions[k] == LastVersion(outcomes[..k])
  {
    versions := [];
    if taskInfo.None? {
      return Monitoring(Returned(false), false, 0, 0), versions;
    }
    if filter.Err? {
      return Monitoring(Threw(filter.fault), false, 0, 0), versions;
    }
    var destroyed := 0;
    var updatesVersion := "";
    var noUpdateCounter := 0;
    var updateSet: Option<UpdateSet> := None;
    var pos := 0;
    var ending: Option<Ending> := None;
    ghost var whole := Watching(outcomes, task, infoReadable, 0, "", 0, None);
    while ending.None?
      invariant pos <= |outcomes|
      invariant ending.None? ==> Watching(outcomes, task, infoReadable, pos, updatesVersion, noUpdateCounter, updateSet) == whole
      invariant ending.Some? ==> (ending.value, pos) == whole
      invariant updatesVersion == LastVersion(outcomes[..pos])
      invariant updateSet.Some? ==> updateSet.value.version == updatesVersion
      invariant |versions| == pos && forall k :: 0 <= k < pos ==> versions[k] == LastVersion(outcomes[..k])
      decreases |outcomes| - pos, if ending.None? then 1 else 0
    {
      var vs;
      ghost var pos0 := pos;
      ending, pos, updatesVersion, noUpdateCounter, updateSet, vs :=
        MonitorRound(outcomes, task, infoReadable, pos, updatesVersion, noUpdateCounter, updateSet);
      versions := versions + vs;
      assert forall k :: pos0 <= k < pos ==> versions[k] == vs[k - pos0];
    }
    // the finally block: the filter exists, so it is destroyed once on every exit
    if !ending.value.OutOfOutcomes? {
      destroyed := destroyed + 1;
    }
    r := Monitoring(ending.value, true, destroyed, pos);
  }

  // ---------------------------------------------------------------
  // Properties of monitorTask
  // ---------------------------------------------------------------

  /** Without task info there is no filter and no wait, and the result is false. */
  lemma NoTaskInfoNoMonitoring(task: Mor, filter: Result<Mor>, infoReadable: bool, outcomes: seq<WaitOutcome>)
    ensures Monitor(task, None, filter, infoReadable, outcomes) == Monitoring(Returned(false), false, 0, 0)
  {
  }

  /** A created filter is destroyed exactly once whenever monitoring ends,
      and a filter that was never created is never destroyed. */
  lemma FilterDestroyedOnce(task: Mor, taskInfo: Option<TaskInfo>, filter: Result<Mor>, infoReadable: bool,
                            outcomes: seq<WaitOutcome>)
    ensures var m := Monitor(task, taskInfo, filter, infoReadable, outcomes);
      (m.filterCreated <==> taskInfo.Some? && filter.Ok?)
      && (m.filterCreated && !m.ending.OutOfOutcomes? ==> m.filterDestroyed == 1)
      && (!m.filterCreated ==> m.filterDestroyed == 0)
  {
  }

  /** The loop used no more outcomes than there are. */
  lemma {:induction false} WatchingUses(outcomes: seq<WaitOutcome>, task: Mor, infoReadable: bool,
                                        pos: nat, version: string, noUpdate: nat, retained: Option<UpdateSet>)
    requires pos <= |outcomes|
    ensures pos <= Watching(outcomes, task, infoReadable, pos, version, noUpdate, retained).1 <= |outcomes|
    decreases |outcomes| - pos
  {
    var w := Round(outcomes, pos, ROUND_ATTEMPTS);
    if !w.Exhausted? {
      var next := RoundEnd(w, |outcomes|);
      var updateSet := RoundSet(outcomes, w, retained);
      if updateSet.None? {
        if noUpdate + 1 != MAX_WAITFORUPDATES_ATTEMPT {
          WatchingUses(outcomes, task, infoReadable, next, version, noUpdate + 1, updateSet);
        }
      } else {
        WatchingUses(outcomes, task, infoReadable, next, updateSet.value.version, 0, updateSet);
      }
    }
  }

  /** The update set whose classification a round uses was returned by one
      of the outcomes used so far. */
  predicate ReceivedBefore(outcomes: seq<WaitOutcome>, s: UpdateSet, end: nat) {
    exists j :: 0 <= j < end && j < |outcomes| && outcomes[j] == Returns(s)
  }

  /** A returned result is the verdict of an update set the server sent:
      true when it reported SUCCESS, false when it reported ERROR. */
  lemma {:induction false} ReturnedReflectsState(outcomes: seq<WaitOutcome>, task: Mor, infoReadable: bool,
                                                 pos: nat, version: string, noUpdate: nat, retained: Option<UpdateSet>)
    requires pos <= |outcomes|
    requires retained.Some? ==> ReceivedBefore(outcomes, retained.value, pos)
    ensures var (ending, used) := Watching(outcomes, task, infoReadable, pos, version, noUpdate, retained);
      ending.Returned? ==>
        exists s :: ReceivedBefore(outcomes, s, used)
          && UpdateListState(s.filterSet, task, infoReadable) == Ok(Some(if ending.success then Success else Error))
    decreases |outcomes| - pos
  {
    var w := Round(outcomes, pos, ROUND_ATTEMPTS);
    if !w.Exhausted? {
      var next := RoundEnd(w, |outcomes|);
      var updateSet := RoundSet(outcomes, w, retained);
      if w.Answered? && outcomes[w.at].Returns? {
        assert ReceivedBefore(outcomes, updateSet.value, next);
      } else if retained.Some? {
        var j :| 0 <= j < pos && j < |outcomes| && outcomes[j] == Returns(retained.value);
        assert ReceivedBefore(outcomes, retained.value, next);
      }
      if updateSet.None? {
        if noUpdate + 1 != MAX_WAITFORUPDATES_ATTEMPT {
          ReturnedReflectsState(outcomes, task, infoReadable, next, version, noUpdate + 1, updateSet);
        }
      } else {
        var state := UpdateListState(updateSet.value.filterSet, task, infoReadable);
        if state.Ok? && state.value != Some(Success) && state.value != Some(Error) {
          ReturnedReflectsState(outcomes, task, infoReadable, next, updateSet.value.version, 0, updateSet);
          var (ending, used) := Watching(outcomes, task, infoReadable, next, updateSet.value.version, 0, updateSet);
          if ending.Returned? {
            var s :| ReceivedBefore(outcomes, s, used)
              && UpdateListState(s.filterSet, task, infoReadable) == Ok(Some(if ending.success then Success else Error));
          }
        }
      }
    }
  }

  /** `monitorTask` returns true only after an update reporting SUCCESS and
      false only after one reporting ERROR, or when there is no task info. */
  lemma MonitorResultMeaning(task: Mor, taskInfo: Option<TaskInfo>, filter: Result<Mor>, infoReadable: bool,
                             outcomes: seq<WaitOutcome>)
    ensures var m := Monitor(task, taskInfo, filter, infoReadable, outcomes);
      m.ending.Returned? && taskInfo.Some? ==>
        exists s :: ReceivedBefore(outcomes, s, m.waits)
          && UpdateListState(s.filterSet, task, infoReadable) == Ok(Some(if m.ending.success then Success else Error))
  {
    if taskInfo.Some? && filter.Ok? {
      ReturnedReflectsState(outcomes, task, infoReadable, 0, "", 0, None);
    }
  }

  /** A first reply that reports a finished task ends monitoring at once
      with that verdict. */
  lemma FirstReplyDecides(task: Mor, taskInfo: TaskInfo, filter: Mor, infoReadable: bool,
                          outcomes: seq<WaitOutcome>, s: UpdateSet)
    requires |outcomes| > 0 && outcomes[0] == Returns(s)
    requires UpdateListState(s.filterSet, task, infoReadable) == Ok(Some(Success))
           || UpdateListState(s.filterSet, task, infoReadable) == Ok(Some(Error))
    ensures Monitor(task, Some(taskInfo), Ok(filter), infoReadable, outcomes) ==
      Monitoring(Returned(UpdateListState(s.filterSet, task, infoReadable) == Ok(Some(Success))), true, 1, 1)
  {
    assert Round(outcomes, 0, ROUND_ATTEMPTS) == Answered(0);
  }

  /** Replies without an update set, from a counter value `noUpdate` on,
      end in the time-out exception once the counter reaches 30. */
  lemma {:induction false} SilenceTimesOut(outcomes: seq<WaitOutcome>, task: Mor, infoReadable: bool,
                                           pos: nat, version: string, noUpdate: nat, retained: Option<UpdateSet>)
    requires noUpdate < MAX_WAITFORUPDATES_ATTEMPT
    requires pos + (MAX_WAITFORUPDATES_ATTEMPT - noUpdate) <= |outcomes|
    requires forall k :: pos <= k < |outcomes| ==> outcomes[k] == ReturnsNull
    ensures Watching(outcomes, task, infoReadable, pos, version, noUpdate, retained) ==
      (Threw(RuntimeError(TIMEOUT_MESSAGE)), pos + (MAX_WAITFORUPDATES_ATTEMPT - noUpdate))
    decreases MAX_WAITFORUPDATES_ATTEMPT - noUpdate
  {
    assert Round(outcomes, pos, ROUND_ATTEMPTS) == Answered(pos);
    if noUpdate + 1 < MAX_WAITFORUPDATES_ATTEMPT {
      SilenceTimesOut(outcomes, task, infoReadable, pos + 1, version, noUpdate + 1, None);
    }
  }

  /** Thirty replies in a row without an update set time the monitor out. */
  lemma TimeoutAfterThirtySilentRounds(task: Mor, taskInfo: TaskInfo, filter: Mor, infoReadable: bool,
                                       outcomes: seq<WaitOutcome>)
    requires |outcomes| >= MAX_WAITFORUPDATES_ATTEMPT
    requires forall k :: 0 <= k < |outcomes| ==> outcomes[k] == ReturnsNull
    ensures Monitor(task, Some(taskInfo), Ok(filter), infoReadable, outcomes) ==
      Monitoring(Threw(RuntimeError(TIMEOUT_MESSAGE)), true, 1, MAX_WAITFORUPDATES_ATTEMPT)
  {
    SilenceTimesOut(outcomes, task, infoReadable, 0, "", 0, None);
  }

  /** A round in which every attempt throws reprocesses the kept update
      set: with none kept it counts as a round without update; with one
      kept whose state was undecided, monitoring goes on with the counter
      reset and the version unchanged. */
  lemma ThrowingRoundReprocesses(outcomes: seq<WaitOutcome>, task: Mor, infoReadable: bool,
                                 pos: nat, noUpdate: nat, retained: Option<UpdateSet>)
    requires pos + ROUND_ATTEMPTS < |outcomes|
    requires forall k :: pos <= k < pos + ROUND_ATTEMPTS ==> outcomes[k] == Throws
    requires noUpdate + 1 < MAX_WAITFORUPDATES_ATTEMPT
    requires retained.Some? ==> UpdateListState(retained.value.filterSet, task, infoReadable) == Ok(None)
    ensures var version := if retained.Some? then retained.value.version else "";
      Watching(outcomes, task, infoReadable, pos, version, noUpdate, retained) ==
      Watching(outcomes, task, infoReadable, pos + ROUND_ATTEMPTS, version, if retained.Some? then 0 else noUpdate + 1, retained)
  {
    ThrowingRound(outcomes, pos, ROUND_ATTEMPTS);
  }

  lemma {:induction false} ThrowingRound(outcomes: seq<WaitOutcome>, pos: nat, attempts: nat)
    requires pos + attempts <= |outcomes|
    requires forall k :: pos <= k < pos + attempts ==> outcomes[k] == Throws
    ensures Round(outcomes, pos, attempts) == AllThrew(pos + attempts)
    decreases attempts
  {
    if attempts > 0 {
      ThrowingRound(outcomes, pos + 1, attempts - 1);
    }
  }

  /** The time-out message reports "0 Minutes", because 3 / 60000 is 0. */
  lemma TimeoutMessageSaysZeroMinutes()
    ensures TIMEOUT_MESSAGE == "Operation Timed Out. No update happened for over: 0 Minutes."
  {
    assert IntToString(0) == "0";
  }
}
