/**
 * `Cluster`: creating a cluster in a datacenter's host folder, adding a
 * host to it, switching DRS, HA and vSAN, and waiting for the vSAN update
 * tasks that adding hosts starts on them.
 */
module Cluster {
  import opened JavaLang
  import opened VimTypes
  import VsphereConstants
  import VsphereUtil
  import PropertyCollector
  import Datacenter
  import opened HciTypes

  const DEFAULT_FAILOVERLEVEL := 1
  const VSAN_UPDATE_DESCRIPTION := "host.VsanSystem.update"

  // ---------------------------------------------------------------
  // Cluster configuration specs
  // ---------------------------------------------------------------

  /** `DrsBehavior`. */
  datatype DrsBehavior = Manual | PartiallyAutomated | FullyAutomated

  /** `ClusterDasConfigInfo`, with the failover level of a
      `ClusterFailoverLevelAdmissionControlPolicy` when one is set. */
  datatype DasConfig = DasConfig(enabled: bool, failoverLevel: Option<int>)

  /** `ClusterDrsConfigInfo`. */
  datatype DrsConfig = DrsConfig(enabled: bool, defaultVmBehavior: Option<DrsBehavior>)

  /** `VsanClusterConfigInfo` with its `HostDefaultInfo`. */
  datatype VsanConfig = VsanConfig(enabled: bool, autoClaimStorage: bool, uuid: Option<string>)

  /** `ClusterConfigSpec` / `ClusterConfigSpecEx`: only the parts set. */
  datatype ClusterSpec = ClusterSpec(das: Option<DasConfig>, drs: Option<DrsConfig>, vsan: Option<VsanConfig>)

  /** The spec of a new cluster: HA off with failover level one, DRS off
      with fully automated placement, vSAN untouched. */
  function NewClusterSpec(): (spec: ClusterSpec)
    ensures spec.das == Some(DasConfig(false, Some(DEFAULT_FAILOVERLEVEL)))
    ensures spec.drs == Some(DrsConfig(false, Some(FullyAutomated)))
    ensures spec.vsan.None?
  {
    ClusterSpec(Some(DasConfig(false, Some(DEFAULT_FAILOVERLEVEL))), Some(DrsConfig(false, Some(FullyAutomated))), None)
  }

  /** `initializeVsanClusterConfigInfo`: vSAN on, disks claimed
      automatically, no cluster uuid. */
  function InitializeVsanClusterConfigInfo(): (info: VsanConfig)
    ensures info.enabled && info.autoClaimStorage && info.uuid.None?
  {
    VsanConfig(true, true, None)
  }

  // ---------------------------------------------------------------
  // createCluster
  // ---------------------------------------------------------------

  /** The creation call: the folder, name and spec given to
      `createClusterEx` (none when a check or the folder lookup refused),
      and what `createCluster` returned or threw. */
  datatype ClusterCreation = ClusterCreation(sent: Option<(Option<Mor>, string, ClusterSpec)>, result: Result<Option<Mor>>)

  /** `createCluster`: the connection, datacenter and name are checked, in
      that order, before the host folder is looked up; a failed lookup
      becomes HciServerException; the MOR the call returns is passed on as
      it is. */
  function CreateCluster(connected: bool, dcMor: Option<Mor>, clusterName: Option<string>,
                         readHostFolder: Mor -> Result<PropertyCollector.PropertyResult>,
                         created: Result<Option<Mor>>): (r: ClusterCreation)
    ensures !connected ==> r == ClusterCreation(None, Err(VerificationFailed("VC connection is not established.")))
    ensures connected && dcMor.None? ==> r == ClusterCreation(None, Err(IllegalArgument("Datacenter MOR is not specified.")))
    ensures connected && dcMor.Some? && IsNullOrEmpty(clusterName) ==>
      r == ClusterCreation(None, Err(IllegalArgument("cluster Name is null or empty.")))
    ensures connected && dcMor.Some? && !IsNullOrEmpty(clusterName) && Datacenter.FolderOf(readHostFolder(dcMor.value)).Err? ==>
      r == ClusterCreation(None, Err(HciServer("Create Cluster Failure")))
    ensures r.sent.Some? <==>
      connected && dcMor.Some? && !IsNullOrEmpty(clusterName) && Datacenter.FolderOf(readHostFolder(dcMor.value)).Ok?
    ensures r.sent.Some? ==>
      r.sent.value == (Datacenter.FolderOf(readHostFolder(dcMor.value)).value, clusterName.value, NewClusterSpec())
    ensures r.sent.Some? && created.Ok? ==> r.result == created
    ensures r.sent.Some? && created.Err? ==> r.result == Err(Datacenter.CreationFault(created.fault))
    ensures r.sent.None? ==> r.result.Err?
  {
    if !connected then ClusterCreation(None, Err(VerificationFailed("VC connection is not established.")))
    else if dcMor.None? then ClusterCreation(None, Err(IllegalArgument("Datacenter MOR is not specified.")))
    else if IsNullOrEmpty(clusterName) then ClusterCreation(None, Err(IllegalArgument("cluster Name is null or empty.")))
    else
      var hostFolder := Datacenter.FolderOf(readHostFolder(dcMor.value));
      if hostFolder.Err? then ClusterCreation(None, Err(HciServer("Create Cluster Failure")))
      else ClusterCreation(Some((hostFolder.value, clusterName.value, NewClusterSpec())),
                           created.MapFailure(Datacenter.CreationFault))
  }

  // ---------------------------------------------------------------
  // Cluster tasks: addHost, setDRS, setDAS, enableVsan
  // ---------------------------------------------------------------

  /** The usual end of a cluster task: the task's result MOR when the
      monitor says it succeeded, otherwise TaskFailedException with the
      task's error message, the operation's code, the task name and the
      target. The task-info read is dereferenced in both cases. */
  function TaskOutcome(code: int, target: string, submitted: Result<()>, monitored: Result<bool>,
                       info: Result<TaskInfo>): (r: Result<Option<Mor>>)
    ensures r.Ok? <==> submitted.Ok? && monitored == Ok(true) && info.Ok?
    ensures r.Ok? ==> r.value == info.value.result
    ensures submitted.Ok? && monitored == Ok(false) && info.Ok? ==>
      r == Err(VsphereUtil.TaskFailure(info.value, code, target))
    ensures submitted.Err? ==> r == Err(submitted.fault)
    ensures submitted.Ok? && monitored.Err? ==> r == Err(monitored.fault)
  {
    var _ :- submitted;
    var success :- monitored;
    var taskInfo :- info;
    if success then Ok(taskInfo.result)
    else Err(VsphereUtil.TaskFailure(taskInfo, code, target))
  }

  /** What the host's SSL certificate query gave: nothing to note, an
      SSLVerifyFault with the host's thumbprint, or another exception
      (its message). */
  datatype ConnectionQuery = Answered | SslVerify(thumbprint: Option<string>) | QueryFailed(message: string)

  /** `HostConnectSpec`. */
  datatype HostConnectSpec = HostConnectSpec(
    hostName: Option<string>, userName: Option<string>, password: Option<string>,
    force: bool, sslThumbprint: Option<string>)

  /** `genHostConnectSpec`: the host's credentials, forced, with the
      thumbprint the SSL verification fault reported; any other failure of
      the query becomes HciServerException. */
  function HostConnectSpecFor(hostInfo: HciTypes.HostInfo, query: ConnectionQuery): (r: Result<HostConnectSpec>)
    ensures r.Ok? <==> !query.QueryFailed?
    ensures r.Ok? ==>
      r.value.hostName == hostInfo.hostName && r.value.userName == hostInfo.userName
      && r.value.password == hostInfo.password && r.value.force
    ensures query.SslVerify? ==> r.Ok? && r.value.sslThumbprint == query.thumbprint
    ensures query.Answered? ==> r.Ok? && r.value.sslThumbprint.None?
    ensures query.QueryFailed? ==> r == Err(HciServer(query.message))
  {
    var spec := HostConnectSpec(hostInfo.hostName, hostInfo.userName, hostInfo.password, true, None);
    match query
    case Answered => Ok(spec)
    case SslVerify(thumbprint) => Ok(spec.(sslThumbprint := thumbprint))
    case QueryFailed(message) => Err(HciServer(message))
  }

  /** `addHostIntoCluster` with `addHost`: the datacenter and cluster are
      checked, the connect spec built, the add-host task submitted and
      monitored. It returns the task's result, the new host's MOR; a failed
      task throws TaskFailedException code 1 naming the host. */
  function AddHostIntoCluster(dcMor: Option<Mor>, clusterMor: Option<Mor>, hostInfo: HciTypes.HostInfo, query: ConnectionQuery,
                              submitted: Result<()>, monitored: Result<bool>, info: Result<TaskInfo>)
    : (r: (Option<HostConnectSpec>, Result<Option<Mor>>))
    ensures dcMor.None? || clusterMor.None? ==>
      r == (None, Err(IllegalArgument("Datacenter or Cluster MOR reference is null.")))
    ensures r.0.Some? <==> dcMor.Some? && clusterMor.Some? && !query.QueryFailed?
    ensures r.0.Some? ==> Ok(r.0.value) == HostConnectSpecFor(hostInfo, query)
    ensures r.0.Some? ==>
      r.1 == TaskOutcome(VsphereConstants.ADDHOST_TASK_FAILURE, VsphereUtil.OrNull(hostInfo.hostName), submitted, monitored, info)
    ensures dcMor.Some? && clusterMor.Some? && query.QueryFailed? ==> r == (None, Err(HciServer(query.message)))
  {
    if dcMor.None? || clusterMor.None? then (None, Err(IllegalArgument("Datacenter or Cluster MOR reference is null.")))
    else match HostConnectSpecFor(hostInfo, query)
      case Err(f) => (None, Err(f))
      case Ok(spec) =>
        (Some(spec), TaskOutcome(VsphereConstants.ADDHOST_TASK_FAILURE, VsphereUtil.OrNull(spec.hostName), submitted, monitored, info))
  }

  /** A reconfiguration of the cluster: the spec sent and the outcome. */
  datatype Reconfiguration = Reconfiguration(spec: ClusterSpec, result: Result<Option<Mor>>)

  /** `setDRS`: only the DRS switch is sent; a failed task has code 5. */
  function SetDrs(compResMor: Mor, toEnable: bool, submitted: Result<()>, monitored: Result<bool>, info: Result<TaskInfo>)
    : (r: Reconfiguration)
    ensures r.spec == ClusterSpec(None, Some(DrsConfig(toEnable, None)), None)
    ensures r.result.Ok? <==> submitted.Ok? && monitored == Ok(true) && info.Ok?
    ensures submitted.Ok? && monitored == Ok(false) && info.Ok? ==>
      r.result == Err(VsphereUtil.TaskFailure(info.value, VsphereConstants.SETDRS_TASK_FAILURE, compResMor.value))
  {
    Reconfiguration(ClusterSpec(None, Some(DrsConfig(toEnable, None)), None),
                    TaskOutcome(VsphereConstants.SETDRS_TASK_FAILURE, compResMor.value, submitted, monitored, info))
  }

  /** `setDAS`: only the HA switch is sent; a failed task has code 16. */
  function SetDas(compResMor: Mor, toEnable: bool, submitted: Result<()>, monitored: Result<bool>, info: Result<TaskInfo>)
    : (r: Reconfiguration)
    ensures r.spec == ClusterSpec(Some(DasConfig(toEnable, None)), None, None)
    ensures r.result.Ok? <==> submitted.Ok? && monitored == Ok(true) && info.Ok?
    ensures submitted.Ok? && monitored == Ok(false) && info.Ok? ==>
      r.result == Err(VsphereUtil.TaskFailure(info.value, VsphereConstants.SETDAS_TASK_FAILURE, compResMor.value))
  {
    Reconfiguration(ClusterSpec(Some(DasConfig(toEnable, None)), None, None),
                    TaskOutcome(VsphereConstants.SETDAS_TASK_FAILURE, compResMor.value, submitted, monitored, info))
  }

  /** `enableVsan`: only the vSAN config is sent; a failed task has code 15. */
  function EnableVsan(compResMor: Mor, submitted: Result<()>, monitored: Result<bool>, info: Result<TaskInfo>)
    : (r: Reconfiguration)
    ensures r.spec == ClusterSpec(None, None, Some(InitializeVsanClusterConfigInfo()))
    ensures r.result.Ok? <==> submitted.Ok? && monitored == Ok(true) && info.Ok?
    ensures submitted.Ok? && monitored == Ok(false) && info.Ok? ==>
      r.result == Err(VsphereUtil.TaskFailure(info.value, VsphereConstants.ENABLEVSAN_TASK_FAILURE, compResMor.value))
  {
    Reconfiguration(ClusterSpec(None, None, Some(InitializeVsanClusterConfigInfo())),
                    TaskOutcome(VsphereConstants.ENABLEVSAN_TASK_FAILURE, compResMor.value, submitted, monitored, info))
  }

  /** The three reconfigurations fail with three different codes once the
      task recorded a fault (without one, each throws NullPointerException). */
  lemma ReconfigurationCodesDiffer(mor: Mor, on: bool, info: TaskInfo)
    requires info.error.Some?
    ensures SetDrs(mor, on, Ok(()), Ok(false), Ok(info)).result != SetDas(mor, on, Ok(()), Ok(false), Ok(info)).result
    ensures SetDrs(mor, on, Ok(()), Ok(false), Ok(info)).result != EnableVsan(mor, Ok(()), Ok(false), Ok(info)).result
    ensures SetDas(mor, on, Ok(()), Ok(false), Ok(info)).result != EnableVsan(mor, Ok(()), Ok(false), Ok(info)).result
  {
  }

  // ---------------------------------------------------------------
  // waitForVsanUpdateTask
  // ---------------------------------------------------------------

  /** A task is a vSAN update when its description id is
      "host.VsanSystem.update", ignoring case: compared in lower case. */
  predicate IsVsanUpdate(info: Option<TaskInfo>) {
    info.Some? && info.value.descriptionId.Some? && ToLower(info.value.descriptionId.value) == VSAN_UPDATE_LOWER
  }

  const VSAN_UPDATE_LOWER := "host.vsansystem.update"

  /** Comparing in lower case is `equalsIgnoreCase` against the
      description id the source names. */
  lemma IsVsanUpdateIgnoresCase(info: TaskInfo)
    ensures IsVsanUpdate(Some(info)) <==>
      info.descriptionId.Some? && EqualsIgnoreCase(VSAN_UPDATE_DESCRIPTION, info.descriptionId.value)
  {
    LowerOfVsanUpdate(VSAN_UPDATE_DESCRIPTION);
  }

  lemma LowerOfVsanUpdate(s: string)
    requires s == "host.VsanSystem.update"
    ensures ToLower(s) == "host.vsansystem.update"
  {
  }

  /** The active tasks that are vSAN updates, in order. */
  function VsanUpdateTasks(tasks: seq<Mor>, infoOf: Mor -> Option<TaskInfo>): seq<Mor> {
    if |tasks| == 0 then []
    else
      var last := tasks[|tasks| - 1];
      VsanUpdateTasks(tasks[..|tasks| - 1], infoOf) + (if IsVsanUpdate(infoOf(last)) then [last] else [])
  }

  /** `a` is `b` with some elements left out, the rest in their order. */
  ghost predicate IsSubsequence(a: seq<Mor>, b: seq<Mor>)
    decreases |b|
  {
    if |a| == 0 then true
    else if |b| == 0 then false
    else (a[|a| - 1] == b[|b| - 1] && IsSubsequence(a[..|a| - 1], b[..|b| - 1])) || IsSubsequence(a, b[..|b| - 1])
  }

  /** A task is waited for exactly when it is a vSAN update. */
  lemma {:induction false} VsanUpdateTasksMeaning(tasks: seq<Mor>, infoOf: Mor -> Option<TaskInfo>)
    ensures forall t :: t in VsanUpdateTasks(tasks, infoOf) <==> t in tasks && IsVsanUpdate(infoOf(t))
    ensures |VsanUpdateTasks(tasks, infoOf)| <= |tasks|
  {
    if |tasks| > 0 {
      var init := tasks[..|tasks| - 1];
      VsanUpdateTasksMeaning(init, infoOf);
      assert tasks == init + [tasks[|tasks| - 1]];
    }
  }

  /** The tasks waited for keep the order of the list. */
  lemma {:induction false} VsanUpdateTasksInOrder(tasks: seq<Mor>, infoOf: Mor -> Option<TaskInfo>)
    ensures IsSubsequence(VsanUpdateTasks(tasks, infoOf), tasks)
  {
    if |tasks| > 0 {
      var init := tasks[..|tasks| - 1];
      var last := tasks[|tasks| - 1];
      VsanUpdateTasksInOrder(init, infoOf);
      var v := VsanUpdateTasks(init, infoOf);
      var keep := IsVsanUpdate(infoOf(last));
      assert VsanUpdateTasks(tasks, infoOf) == v + (if keep then [last] else []);
      if keep {
        assert (v + [last])[..|v|] == v;
      } else {
        assert v + [] == v;
      }
    }
  }

  /** `waitForVsanUpdateTask` on one host: list the host's recent tasks
      (`getRecentActiveTask`, read as `reading` says), then read each
      listed task's info again (`infoAgain`; null when the read fails) and
      monitor every one that is a vSAN update, even after one has failed,
      and succeed when each of them did; a monitor that throws counts as a
      failure. An exception while listing the tasks escapes. Returns the
      tasks monitored, in order. */
  method WaitForVsanUpdateTask(reading: Reading, recent: Option<seq<Mor>>, infoOf: Mor -> Option<TaskInfo>,
                               entityNamed: bool, infoAgain: Mor -> Option<TaskInfo>, monitorOf: Mor -> Result<bool>)
    returns (monitored: seq<Mor>, r: Result<bool>)
    ensures recent.None? ==> monitored == [] && r == Err(NullPointer)
    ensures recent.Some? && PropertyCollector.RecentTasks(reading, recent.value, infoOf, entityNamed).Err? ==>
      monitored == [] && r == Err(PropertyCollector.RecentTasks(reading, recent.value, infoOf, entityNamed).fault)
    ensures recent.Some? && PropertyCollector.RecentTasks(reading, recent.value, infoOf, entityNamed).Ok? ==>
      monitored == VsanUpdateTasks(PropertyCollector.RecentTasks(reading, recent.value, infoOf, entityNamed).value, infoAgain)
      && r == Ok(forall k :: 0 <= k < |monitored| ==> monitorOf(monitored[k]) == Ok(true))
  {
    monitored := [];
    var activeTaskList;
    if reading.AsWritten? {
      activeTaskList := PropertyCollector.GetRecentActiveTaskAsWritten(recent, infoOf, entityNamed);
    } else {
      activeTaskList := PropertyCollector.GetRecentActiveTask(recent, infoOf, entityNamed);
    }
    if activeTaskList.Err? {
      return [], Err(activeTaskList.fault);
    }
    var list := activeTaskList.value;
    monitored, r := MonitorVsanUpdates(list, infoAgain, monitorOf);
  }

  /** One more listed task is added exactly when it is a vSAN update. */
  lemma VsanUpdateTasksStep(list: seq<Mor>, i: int, infoOf: Mor -> Option<TaskInfo>)
    requires 0 <= i < |list|
    ensures VsanUpdateTasks(list[..i + 1], infoOf)
      == VsanUpdateTasks(list[..i], infoOf) + (if IsVsanUpdate(infoOf(list[i])) then [list[i]] else [])
  {
    assert list[..i + 1][..i] == list[..i];
  }

  /** The loop of `waitForVsanUpdateTask` over the listed tasks. */
  method MonitorVsanUpdates(list: seq<Mor>, infoOf: Mor -> Option<TaskInfo>, monitorOf: Mor -> Result<bool>)
    returns (monitored: seq<Mor>, r: Result<bool>)
    ensures monitored == VsanUpdateTasks(list, infoOf)
    ensures r == Ok(forall k :: 0 <= k < |monitored| ==> monitorOf(monitored[k]) == Ok(true))
  {
    monitored := [];
    var success := true;
    var i := 0;
    while i < |list|
      invariant 0 <= i <= |list|
      invariant monitored == VsanUpdateTasks(list[..i], infoOf)
      invariant success == forall k :: 0 <= k < |monitored| ==> monitorOf(monitored[k]) == Ok(true)
    {
      VsanUpdateTasksStep(list, i, infoOf);
      var vsanUpdateTask := list[i];
      var taskInfo := infoOf(vsanUpdateTask);
      if IsVsanUpdate(taskInfo) {
        var outcome := monitorOf(vsanUpdateTask);
        // `success &= monitorTask(...)`; a monitor exception sets it to false
        ghost var before := monitored;
        success := success && outcome == Ok(true);
        monitored := monitored + [vsanUpdateTask];
        assert forall k :: 0 <= k < |before| ==> monitored[k] == before[k];
        assert monitored[|before|] == vsanUpdateTask;
        assert success == ((forall k :: 0 <= k < |before| ==> monitorOf(before[k]) == Ok(true)) && monitorOf(vsanUpdateTask) == Ok(true));
      }
      i := i + 1;
    }
    assert list[..i] == list;
    r := Ok(success);
  }

  /** `waitForVsanUpdateTaskInCluster`: an empty host list is a failure;
      otherwise every host is waited for in turn, even after one has failed,
      and the result is whether each of them succeeded. An exception from
      listing the hosts or from a host's wait escapes. Returns the hosts
      waited for. */
  method WaitForVsanUpdateTaskInCluster(hostList: Result<seq<Mor>>, waitOf: Mor -> Result<bool>)
    returns (waited: seq<Mor>, r: Result<bool>)
    ensures hostList.Err? ==> waited == [] && r == Err(hostList.fault)
    ensures hostList == Ok([]) ==> waited == [] && r == Ok(false)
    ensures hostList.Ok? && |hostList.value| > 0 ==>
      (r.Ok? <==> forall k :: 0 <= k < |hostList.value| ==> waitOf(hostList.value[k]).Ok?)
    ensures hostList.Ok? && |hostList.value| > 0 && r.Ok? ==>
      waited == hostList.value && r.value == forall k :: 0 <= k < |hostList.value| ==> waitOf(hostList.value[k]) == Ok(true)
    ensures hostList.Ok? && r.Err? ==>
      exists k :: 0 <= k < |hostList.value| && waited == hostList.value[..k + 1] && waitOf(hostList.value[k]).Err?
                  && r == Err(waitOf(hostList.value[k]).fault)
                  && forall j :: 0 <= j < k ==> waitOf(hostList.value[j]).Ok?
  {
    waited := [];
    if hostList.Err? {
      return [], Err(hostList.fault);
    }
    var hosts := hostList.value;
    if |hosts| == 0 {
      return [], Ok(false);
    }
    var success := true;
    var i := 0;
    while i < |hosts|
      invariant 0 <= i <= |hosts|
      invariant waited == hosts[..i]
      invariant forall k :: 0 <= k < i ==> waitOf(hosts[k]).Ok?
      invariant success == forall k :: 0 <= k < i ==> waitOf(hosts[k]) == Ok(true)
    {
      var host := hosts[i];
      var outcome := waitOf(host);
      waited := waited + [host];
      if outcome.Err? {
        assert waited == hosts[..i + 1];
        return waited, Err(outcome.fault);
      }
      if !outcome.value {
        success := false;
      }
      i := i + 1;
    }
    assert hosts[..i] == hosts;
    r := Ok(success);
  }
}
