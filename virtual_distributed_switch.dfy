/**
 * `VirtualDistributedSwitch`: the specs sent to create a distributed
 * switch and its portgroups, the host-member spec that joins a host's
 * idle physical NICs to the switch's first uplink portgroup, the guarded
 * reads of the switch configuration, and the outcome of a reconfiguration.
 *
 * Every remote call is an input: the property reads are the values
 * `getDynamicProperty` yields, task submission and monitoring are
 * `Result`s, and the task's info is the record fetched afterwards.
 */
module VirtualDistributedSwitch {
  import opened JavaLang
  import opened VimTypes
  import VsphereConstants
  import PropertyCollector
  import VsphereUtil

  const DVPORTGROUPNUM := 1024
  const DVPORTGROUPTYPE_EARLYBIND := "earlyBinding"
  const DVS_PRODUCTSPEC_NAME := "DVS"
  const DVS_PRODUCTSPEC_VENDOR := "VMware, Inc."
  const DVS_PRODUCTSPEC_VER := VsphereConstants.DEFAULT_VDS_VERSION
  const DVS_OPERATION_ADD := "add"
  const DVS_PROPERTY_CFGVERSION := "config.configVersion"
  const DVS_PROPERTY_CONFIG := "config"
  const DVS_PROPERTY_KEY := "key"
  const DVS_DVPORTGROUP_MOR_TYPE := "DistributedVirtualPortgroup"

  const CREATE_PG_FAILED := "Create DV port group failed"
  const CONFIG_VERSION_ERROR := "Create DV port group error"

  // ---------------------------------------------------------------
  // Spec records
  // ---------------------------------------------------------------

  /** `DistributedVirtualSwitchProductSpec`. */
  datatype ProductSpec = ProductSpec(name: Option<string>, vendor: Option<string>, version: Option<string>)

  /** `DistributedVirtualSwitchHostMemberPnicSpec`. */
  datatype PnicSpec = PnicSpec(pnicDevice: string, uplinkPortgroupKey: string)

  /** `DistributedVirtualSwitchHostMemberConfigSpec` with its pnic backing. */
  datatype HostMemberConfigSpec = HostMemberConfigSpec(host: Mor, operation: string, pnicSpec: seq<PnicSpec>)

  /** `DVSConfigSpec`. */
  datatype DvsConfigSpec = DvsConfigSpec(name: Option<string>, configVersion: Option<string>,
                                         host: seq<HostMemberConfigSpec>)

  /** `DVSCreateSpec`. */
  datatype DvsCreateSpec = DvsCreateSpec(productInfo: ProductSpec, configSpec: DvsConfigSpec)

  /** `VmwareDistributedVirtualSwitchTrunkVlanSpec`, the only default port
      setting the client ever fills in. */
  datatype TrunkVlanSpec = TrunkVlanSpec(inherited: bool, vlanId: seq<NumericRange>)

  /** `DVPortgroupConfigSpec`; `defaultPortConfig` is null unless a trunk is attached. */
  datatype PortgroupConfigSpec = PortgroupConfigSpec(name: Option<string>, numPorts: int, portType: string,
                                                     defaultPortConfig: Option<TrunkVlanSpec>)

  // ---------------------------------------------------------------
  // createVds
  // ---------------------------------------------------------------

  /** The spec `createVds` sends to the datacenter's network folder. */
  function CreateVdsSpec(vdsName: Option<string>): (spec: DvsCreateSpec)
    ensures spec.productInfo == ProductSpec(Some("DVS"), Some("VMware, Inc."), Some("6.0.0"))
    ensures spec.configSpec.name == vdsName && spec.configSpec.configVersion == Some("6.0.0")
    ensures spec.configSpec.host == []
  {
    DvsCreateSpec(ProductSpec(Some(DVS_PRODUCTSPEC_NAME), Some(DVS_PRODUCTSPEC_VENDOR), Some(DVS_PRODUCTSPEC_VER)),
                  DvsConfigSpec(vdsName, Some(DVS_PRODUCTSPEC_VER), []))
  }

  /** `createVds`: the network folder lookup, the task submission, the
      monitor and the final task-info read may each throw; the monitor's
      verdict itself is dropped and the task's result is returned as it
      is, null when the task produced none. */
  function CreateVds(folder: Result<Mor>, submitted: Result<()>, monitored: Result<bool>,
                     info: Result<TaskInfo>): (r: Result<Option<Mor>>)
    ensures r.Ok? <==> folder.Ok? && submitted.Ok? && monitored.Ok? && info.Ok?
    ensures r.Ok? ==> r.value == info.value.result
    ensures folder.Err? ==> r == Err(folder.fault)
  {
    var _ :- folder;
    var _ :- submitted;
    var _ :- monitored;
    var ti :- info;
    Ok(ti.result)
  }

  /** A failed creation task is reported exactly like a successful one:
      the caller gets whatever result the task info holds. */
  lemma CreateVdsIgnoresVerdict(folder: Result<Mor>, submitted: Result<()>, info: TaskInfo)
    ensures CreateVds(folder, submitted, Ok(false), Ok(info)) == CreateVds(folder, submitted, Ok(true), Ok(info))
    ensures folder.Ok? && submitted.Ok? ==> CreateVds(folder, submitted, Ok(false), Ok(info)) == Ok(info.result)
  {
  }

  // ---------------------------------------------------------------
  // createDVPortGroup
  // ---------------------------------------------------------------

  /** Whether `createDVPortGroup` attaches a trunk VLAN spec. */
  predicate WantsTrunk(vlanIdStr: Option<string>) {
    !IsBlank(vlanIdStr) && vlanIdStr != Some("0")
  }

  /** The portgroup spec `createDVPortGroup` builds before any remote call;
      parsing the VLAN string happens outside the method's try block, so a
      NumberFormatException escapes as it is. */
  function PortgroupSpec(pgName: Option<string>, vlanIdStr: Option<string>): (r: Result<PortgroupConfigSpec>)
    ensures r.Ok? ==> r.value.name == pgName && r.value.numPorts == 1024 && r.value.portType == "earlyBinding"
    ensures r.Ok? ==> (r.value.defaultPortConfig.Some? <==> WantsTrunk(vlanIdStr))
    ensures r.Ok? && r.value.defaultPortConfig.Some? ==>
      !r.value.defaultPortConfig.value.inherited
      && VsphereUtil.VlanIds(vlanIdStr) == Ok(Some(r.value.defaultPortConfig.value.vlanId))
    ensures r.Err? <==> WantsTrunk(vlanIdStr) && VsphereUtil.VlanIds(vlanIdStr).Err?
    ensures r.Err? ==> r.fault == VsphereUtil.VlanIds(vlanIdStr).fault
  {
    if !WantsTrunk(vlanIdStr) then
      Ok(PortgroupConfigSpec(pgName, DVPORTGROUPNUM, DVPORTGROUPTYPE_EARLYBIND, None))
    else
      var ranges :- VsphereUtil.VlanIds(vlanIdStr);
      if ranges.None? then Err(NullPointer)  // `addAll(null)`; parseVlanId never yields null here
      else Ok(PortgroupConfigSpec(pgName, DVPORTGROUPNUM, DVPORTGROUPTYPE_EARLYBIND,
                                  Some(TrunkVlanSpec(false, ranges.value))))
  }

  /** `createDVPortGroup`: the created portgroup when the task succeeded
      and its info names a result; every failure inside the try block
      (submission, monitoring, reading the info, a null result) and a
      failed task become the same HciServerException. */
  function CreateDvPortGroup(pgName: Option<string>, vlanIdStr: Option<string>, submitted: Result<()>,
                             monitored: Result<bool>, taskResult: Result<Option<Mor>>): (r: Result<Mor>)
    ensures r.Ok? <==> PortgroupSpec(pgName, vlanIdStr).Ok? && submitted.Ok? && monitored == Ok(true)
                       && taskResult.Ok? && taskResult.value.Some?
    ensures r.Ok? ==> taskResult == Ok(Some(r.value))
    ensures r.Err? && PortgroupSpec(pgName, vlanIdStr).Ok? ==> r.fault == HciServer("Create DV port group failed")
    ensures PortgroupSpec(pgName, vlanIdStr).Err? ==> r == Err(PortgroupSpec(pgName, vlanIdStr).fault)
  {
    var _ :- PortgroupSpec(pgName, vlanIdStr);
    if submitted.Ok? && monitored == Ok(true) && taskResult.Ok? && taskResult.value.Some? then
      Ok(taskResult.value.value)
    else
      Err(HciServer(CREATE_PG_FAILED))
  }

  // ---------------------------------------------------------------
  // getConfigVersion, getDVSConfig, getUplinkPortgroups, getPortGroupKey
  // ---------------------------------------------------------------

  /** `getConfigVersion`: the property cast to a string; a failed read or
      a value of another class becomes one HciServerException. */
  function ConfigVersion(read: Result<PropertyCollector.PropertyResult>): (r: Result<Option<string>>)
    ensures r == Ok(None) <==> read == Ok(PropertyCollector.Null)
    ensures r.Ok? && r.value.Some? ==> PropertyCollector.GetName(read) == r.value
    ensures r.Err? ==> r.fault == HciServer("Create DV port group error")
  {
    match read
    case Ok(Null) => Ok(None)
    case Ok(Text(s)) => Ok(Some(s))
    case Ok(Plain(StringVal(s))) => Ok(Some(s))
    case _ => Err(HciServer(CONFIG_VERSION_ERROR))
  }

  /** `getDVSConfig`: nothing is read for a null switch; a value that is
      not a DVSConfigInfo gives null. `read` is the switch's "config". */
  function DvsConfig(dvsMor: Option<Mor>, read: Result<PropertyCollector.PropertyResult>): (r: Result<Option<DvsConfigInfo>>)
    ensures dvsMor.None? ==> r == Ok(None)
    ensures forall c :: r == Ok(Some(c)) <==> dvsMor.Some? && read == Ok(PropertyCollector.Plain(DvsConfigVal(c)))
    ensures r.Err? <==> dvsMor.Some? && read.Err?
    ensures r.Err? ==> r.fault == read.fault
  {
    if dvsMor.None? then Ok(None)
    else
      var v :- read;
      if v.Plain? && v.val.DvsConfigVal? then Ok(Some(v.val.config)) else Ok(None)
  }

  /** `getUplinkPortgroups`: the configured uplink portgroups, or null when
      there is no switch or no config. The log line reads the first entry,
      so an empty list throws instead of being returned. */
  function UplinkPortgroups(dvsMor: Option<Mor>, read: Result<PropertyCollector.PropertyResult>): (r: Result<Option<seq<Mor>>>)
    ensures r.Ok? && r.value.Some? ==> |r.value.value| > 0
    ensures forall ups :: r == Ok(Some(ups)) <==> DvsConfig(dvsMor, read) == Ok(Some(DvsConfigInfo(ups))) && |ups| > 0
    ensures r == Ok(None) <==> DvsConfig(dvsMor, read) == Ok(None)
    ensures DvsConfig(dvsMor, read) == Ok(Some(DvsConfigInfo([]))) ==> r == Err(IndexOutOfBounds)
  {
    var config :- DvsConfig(dvsMor, read);
    if config.None? then Ok(None)
    else if |config.value.uplinkPortgroup| == 0 then Err(IndexOutOfBounds)
    else Ok(Some(config.value.uplinkPortgroup))
  }

  /** `getPortGroupKey`: the "key" property is read only for a
      distributed-portgroup reference and kept only when it is a String. */
  function PortGroupKey(pgMor: Option<Mor>, read: Result<PropertyCollector.PropertyResult>): (r: Result<Option<string>>)
    ensures forall k :: r == Ok(Some(k)) <==>
      pgMor.Some? && pgMor.value.morType == "DistributedVirtualPortgroup"
      && (read == Ok(PropertyCollector.Text(k)) || read == Ok(PropertyCollector.Plain(StringVal(k))))
    ensures r.Err? <==> pgMor.Some? && pgMor.value.morType == "DistributedVirtualPortgroup" && read.Err?
    ensures r.Err? ==> r.fault == read.fault
  {
    if pgMor.Some? && pgMor.value.morType == DVS_DVPORTGROUP_MOR_TYPE then
      var v :- read;
      Ok(PropertyCollector.GetName(Ok(v)))
    else Ok(None)
  }

  // ---------------------------------------------------------------
  // vdsReconfig
  // ---------------------------------------------------------------

  /** The vim faults `vdsReconfig` catches and rethrows as HciServerException. */
  const RECONFIG_CAUGHT: set<string> := {"AlreadyExists", "ConcurrentAccess", "DuplicateName", "DvsFault",
    "DvsNotAuthorized", "InvalidName", "InvalidState", "LimitExceeded", "NotFound", "ResourceInUse",
    "ResourceNotAvailable"}

  /** The exception `vdsReconfig` lets out for one thrown inside its try block. */
  function ReconfigCaught(f: Fault): (g: Fault)
    ensures f.RemoteFault? && f.kind in RECONFIG_CAUGHT ==> g == HciServer(f.msg)
    ensures !(f.RemoteFault? && f.kind in RECONFIG_CAUGHT) ==> g == f
  {
    if f.RemoteFault? && f.kind in RECONFIG_CAUGHT then HciServer(f.msg) else f
  }

  /** `vdsReconfig`: true when the reconfiguration task succeeds, the
      reconfiguration failure code otherwise, with the caught faults
      rewrapped. */
  function VdsReconfig(dvsMor: Mor, submitted: Result<()>, monitored: Result<bool>, info: Result<TaskInfo>): (r: Result<bool>)
    ensures r.Ok? <==> submitted.Ok? && monitored == Ok(true)
    ensures r.Ok? ==> r.value
    ensures submitted.Ok? && monitored == Ok(false) && info.Ok? ==>
      r == Err(VsphereUtil.TaskFailure(info.value, VsphereConstants.VDSRECONFIG_TASK_FAILURE, dvsMor.value))
    ensures submitted.Err? ==> r == Err(ReconfigCaught(submitted.fault))
    ensures submitted.Ok? && monitored.Err? ==> r == Err(ReconfigCaught(monitored.fault))
  {
    var _ :- submitted.MapFailure(ReconfigCaught);
    var ok :- monitored.MapFailure(ReconfigCaught);
    if ok then Ok(true)
    else
      var ti :- info.MapFailure(ReconfigCaught);
      Err(VsphereUtil.TaskFailure(ti, VsphereConstants.VDSRECONFIG_TASK_FAILURE, dvsMor.value))
  }

  // ---------------------------------------------------------------
  // addHostToVds
  // ---------------------------------------------------------------

  /** One pnic spec per device, in order, all on the same uplink portgroup. */
  function PnicSpecs(pnics: seq<string>, uplinkKey: string): (specs: seq<PnicSpec>)
    ensures |specs| == |pnics|
    ensures forall i :: 0 <= i < |pnics| ==> specs[i] == PnicSpec(pnics[i], uplinkKey)
  {
    if |pnics| == 0 then []
    else PnicSpecs(pnics[..|pnics| - 1], uplinkKey) + [PnicSpec(pnics[|pnics| - 1], uplinkKey)]
  }

  /** The loop of `addHostToVds` that fills the pnic backing. */
  method BuildPnicSpecs(pnics: seq<string>, uplinkKey: string) returns (specs: seq<PnicSpec>)
    ensures specs == PnicSpecs(pnics, uplinkKey)
  {
    specs := [];
    var i := 0;
    while i < |pnics|
      invariant 0 <= i <= |pnics|
      invariant specs == PnicSpecs(pnics[..i], uplinkKey)
    {
      assert pnics[..i + 1][..i] == pnics[..i];
      specs := specs + [PnicSpec(pnics[i], uplinkKey)];
      i := i + 1;
    }
    assert pnics[..i] == pnics;
  }

  /** The configuration `addHostToVds` sends, or the exception raised while
      building it: the version read, the host's idle pnics (`idlePnics`,
      what `HostNetwork.getIdlePNic` yields) and the first uplink portgroup
      (`.get(0)` on a null list throws); `configRead` is the switch's "config". */
  function AddHostConfig(hostMor: Mor, dvsMor: Mor, versionRead: Result<PropertyCollector.PropertyResult>,
                         idlePnics: Result<seq<string>>, configRead: Result<PropertyCollector.PropertyResult>): (r: Result<DvsConfigSpec>)
    ensures r.Ok? ==>
      ConfigVersion(versionRead) == Ok(r.value.configVersion) && r.value.name.None?
      && |r.value.host| == 1 && r.value.host[0].host == hostMor && r.value.host[0].operation == "add"
      && idlePnics.Ok? && |r.value.host[0].pnicSpec| == |idlePnics.value|
      && (exists ups: seq<Mor> :: UplinkPortgroups(Some(dvsMor), configRead) == Ok(Some(ups))
           && forall i :: 0 <= i < |idlePnics.value| ==>
                r.value.host[0].pnicSpec[i] == PnicSpec(idlePnics.value[i], ups[0].value))
    ensures r.Ok? <==> ConfigVersion(versionRead).Ok? && idlePnics.Ok?
                       && UplinkPortgroups(Some(dvsMor), configRead).Ok?
                       && UplinkPortgroups(Some(dvsMor), configRead).value.Some?
    ensures ConfigVersion(versionRead).Err? ==> r == Err(HciServer("Create DV port group error"))
    ensures ConfigVersion(versionRead).Ok? && idlePnics.Err? ==> r == Err(idlePnics.fault)
    ensures ConfigVersion(versionRead).Ok? && idlePnics.Ok? && UplinkPortgroups(Some(dvsMor), configRead) == Ok(None) ==>
      r == Err(NullPointer)
  {
    var version :- ConfigVersion(versionRead);
    var pnics :- idlePnics;
    var uplinks :- UplinkPortgroups(Some(dvsMor), configRead);
    if uplinks.None? then Err(NullPointer)
    else
      Ok(DvsConfigSpec(None, version,
        [HostMemberConfigSpec(hostMor, DVS_OPERATION_ADD, PnicSpecs(pnics, uplinks.value[0].value))]))
  }

  /** `addHostToVds`: builds the host-member spec and reconfigures the
      switch with it; `sent` is the spec handed to the reconfiguration. */
  method AddHostToVds(hostMor: Mor, dvsMor: Mor, versionRead: Result<PropertyCollector.PropertyResult>,
                      idlePnics: Result<seq<string>>, configRead: Result<PropertyCollector.PropertyResult>,
                      submitted: Result<()>, monitored: Result<bool>, info: Result<TaskInfo>)
    returns (sent: Option<DvsConfigSpec>, r: Result<bool>)
    ensures var built := AddHostConfig(hostMor, dvsMor, versionRead, idlePnics, configRead);
      (built.Err? ==> sent.None? && r == Err(built.fault))
      && (built.Ok? ==> sent == Some(built.value) && r == VdsReconfig(dvsMor, submitted, monitored, info))
  {
    var version := ConfigVersion(versionRead);
    if version.Err? { return None, Err(version.fault); }
    if idlePnics.Err? { return None, Err(idlePnics.fault); }
    var uplinks := UplinkPortgroups(Some(dvsMor), configRead);
    if uplinks.Err? { return None, Err(uplinks.fault); }
    if uplinks.value.None? { return None, Err(NullPointer); }
    var uplinkKey := uplinks.value.value[0].value;
    var specs := BuildPnicSpecs(idlePnics.value, uplinkKey);
    var cs := DvsConfigSpec(None, version.value, [HostMemberConfigSpec(hostMor, DVS_OPERATION_ADD, specs)]);
    sent := Some(cs);
    r := VdsReconfig(dvsMor, submitted, monitored, info);
  }
}
