/**
 * `HostNetwork`: moving a host's networking from its standard switch to
 * the distributed switch. The host's network info, the proxy-switch
 * config and the VM config are fetched records (inputs); what is computed
 * from them are the lists the client builds: idle physical NICs, idle
 * uplink ports, pnic/uplink pairs, VMkernel NIC and VM device changes,
 * and the vSAN port list.
 *
 * Every `get...` of the source fetches a fresh copy, so the in-place edits
 * it then makes on that copy are modelled as building a new value.
 */
module HostNetwork {
  import opened JavaLang
  import opened VimTypes
  import VsphereConstants
  import VsphereUtil
  import PropertyCollector
  import VirtualDistributedSwitch

  // ---------------------------------------------------------------
  // Fetched records
  // ---------------------------------------------------------------

  /** `DistributedVirtualSwitchHostMemberPnicSpec` as the host sees it. */
  datatype PnicSpec = PnicSpec(pnicDevice: Option<string>, uplinkPortKey: Option<string>)

  /** The bridge of a standard switch: a bond of NIC devices, or another kind. */
  datatype Bridge = BondBridge(nicDevice: seq<string>) | OtherBridge

  /** `HostVirtualSwitchSpec`: the NIC-teaming order and the bridge. */
  datatype VirtualSwitchSpec = VirtualSwitchSpec(activeNic: seq<string>, standbyNic: seq<string>, bridge: Option<Bridge>)

  /** `HostVirtualSwitch`: a standard switch with the keys of its pnics. */
  datatype VirtualSwitch = VirtualSwitch(name: Option<string>, pnic: seq<string>, spec: VirtualSwitchSpec)

  /** `PhysicalNic`. */
  datatype PhysicalNic = PhysicalNic(key: string, device: string)

  /** `HostProxySwitch`: the uplink port keys and the pnic backing. */
  datatype ProxySwitch = ProxySwitch(uplinkPort: seq<string>, pnicSpec: seq<PnicSpec>)

  /** `HostNetworkInfo`; `vnic` holds the devices of the VMkernel NICs. */
  datatype NetworkInfo = NetworkInfo(vswitch: seq<VirtualSwitch>, pnic: seq<PhysicalNic>,
                                     proxySwitch: seq<ProxySwitch>, vnic: seq<string>)

  /** `HostProxySwitchConfig` with its pnic backing. */
  datatype ProxySwitchConfig = ProxySwitchConfig(changeOperation: Option<string>, uuid: Option<string>,
                                                 pnicSpec: seq<PnicSpec>)

  /** `HostVirtualSwitchConfig`. */
  datatype VirtualSwitchConfig = VirtualSwitchConfig(changeOperation: string, name: Option<string>, spec: VirtualSwitchSpec)

  /** `DistributedVirtualSwitchPortConnection`. */
  datatype PortConnection = PortConnection(switchUuid: Option<string>, portgroupKey: Option<string>, portKey: Option<string>)

  /** `HostIpConfig`. */
  datatype IpConfig = IpConfig(dhcp: bool, ipAddress: Option<string>, subnetMask: Option<string>)

  /** `HostVirtualNicSpec`. */
  datatype VnicSpec = VnicSpec(ip: Option<IpConfig>, distributedVirtualPort: Option<PortConnection>, portgroup: Option<string>)

  /** `HostVirtualNicConfig`. */
  datatype VnicConfig = VnicConfig(spec: VnicSpec, device: string, portgroup: string, changeOperation: string)

  /** The HostNetwork object's fixed fields: the host, the switch and the
      management, vMotion and vSAN portgroups. */
  datatype Context = Context(host: Mor, dvs: Mor, mgmtPg: Option<Mor>, vmotionPg: Option<Mor>, vsanPg: Option<Mor>)

  /** The constructor taking three portgroups (an array shorter than three throws). */
  function WithPortgroups(host: Mor, dvs: Mor, pgs: seq<Option<Mor>>): (r: Result<Context>)
    ensures r.Ok? <==> |pgs| >= 3
    ensures r.Ok? ==> r.value == Context(host, dvs, pgs[0], pgs[1], pgs[2])
  {
    if |pgs| < 3 then Err(IndexOutOfBounds) else Ok(Context(host, dvs, pgs[0], pgs[1], pgs[2]))
  }

  /** The constructor taking one portgroup: vMotion and vSAN have none. */
  function WithPortgroup(host: Mor, dvs: Mor, pg: Option<Mor>): (c: Context)
    ensures c.mgmtPg == pg && c.vmotionPg.None? && c.vsanPg.None?
  {
    Context(host, dvs, pg, None, None)
  }

  /** The key of a portgroup, read with `readKey` (`getPortGroupKey`). */
  function KeyOf(pg: Option<Mor>, readKey: Mor -> Result<PropertyCollector.PropertyResult>): Result<Option<string>> {
    VirtualDistributedSwitch.PortGroupKey(pg, if pg.Some? then readKey(pg.value) else Ok(PropertyCollector.Null))
  }

  const NETWORK_INFO_ERROR := "Could not get HostNetworkInfo"

  /** `getHostNetworkInfo`: every failure to read it becomes one HciServerException. */
  function HostNetworkInfo(read: Result<NetworkInfo>): (r: Result<NetworkInfo>)
    ensures r.Ok? <==> read.Ok?
    ensures r.Ok? ==> r == read
    ensures r.Err? ==> r.fault == HciServer("Could not get HostNetworkInfo")
  {
    read.MapFailure(_ => HciServer(NETWORK_INFO_ERROR))
  }

  // ---------------------------------------------------------------
  // getIdlePNic
  // ---------------------------------------------------------------

  /** The pnic keys of all standard switches, switch by switch. */
  function SwitchPnicKeys(vs: seq<VirtualSwitch>): seq<string> {
    if |vs| == 0 then [] else SwitchPnicKeys(vs[..|vs| - 1]) + vs[|vs| - 1].pnic
  }

  /** The devices of the pnics whose key is not in `onSwitch`, in order. */
  function FreeDevices(pnics: seq<PhysicalNic>, onSwitch: seq<string>): seq<string> {
    if |pnics| == 0 then []
    else FreeDevices(pnics[..|pnics| - 1], onSwitch)
         + (if pnics[|pnics| - 1].key in onSwitch then [] else [pnics[|pnics| - 1].device])
  }

  /** `List.remove(Object)`: drops the first element equal to `x`; a null
      `x` matches nothing, since the list holds no nulls. */
  function RemoveFirst(l: seq<string>, x: Option<string>): seq<string> {
    if |l| == 0 then []
    else if Some(l[0]) == x then l[1..]
    else [l[0]] + RemoveFirst(l[1..], x)
  }

  /** The devices named by a backing, nulls left out. */
  function SpecDevices(specs: seq<PnicSpec>): multiset<string> {
    if |specs| == 0 then multiset{}
    else SpecDevices(specs[..|specs| - 1])
         + (if specs[|specs| - 1].pnicDevice.Some? then multiset{specs[|specs| - 1].pnicDevice.value} else multiset{})
  }

  /** `remove` called once per backed pnic, in backing order. */
  function RemoveEach(l: seq<string>, specs: seq<PnicSpec>): seq<string> {
    if |specs| == 0 then l
    else RemoveFirst(RemoveEach(l, specs[..|specs| - 1]), specs[|specs| - 1].pnicDevice)
  }

  const NO_IDLE_PNIC := "No idle physical found"

  /** What `getIdlePNic` yields for the host's network info. */
  function IdlePnics(info: NetworkInfo): Result<seq<string>> {
    var names := FreeDevices(info.pnic, SwitchPnicKeys(info.vswitch));
    var rest := if |names| > 0 && |info.proxySwitch| > 0 then RemoveEach(names, info.proxySwitch[0].pnicSpec) else names;
    if |rest| > 0 then Ok(rest) else Err(InvalidProperty(NO_IDLE_PNIC))
  }

  lemma {:induction false} SwitchPnicKeysMeaning(vs: seq<VirtualSwitch>, k: string)
    ensures k in SwitchPnicKeys(vs) <==> exists i :: 0 <= i < |vs| && k in vs[i].pnic
  {
    if |vs| > 0 {
      SwitchPnicKeysMeaning(vs[..|vs| - 1], k);
      if k in SwitchPnicKeys(vs[..|vs| - 1]) {
        var i :| 0 <= i < |vs| - 1 && k in vs[..|vs| - 1][i].pnic;
        assert k in vs[i].pnic;
      }
      if exists i :: 0 <= i < |vs| && k in vs[i].pnic {
        var i :| 0 <= i < |vs| && k in vs[i].pnic;
        if i < |vs| - 1 { assert k in vs[..|vs| - 1][i].pnic; }
      }
    }
  }

  lemma {:induction false} FreeDevicesMeaning(pnics: seq<PhysicalNic>, onSwitch: seq<string>, d: string)
    ensures d in FreeDevices(pnics, onSwitch) <==>
      exists i :: 0 <= i < |pnics| && pnics[i].device == d && pnics[i].key !in onSwitch
    ensures |FreeDevices(pnics, onSwitch)| <= |pnics|
  {
    if |pnics| > 0 {
      var init := pnics[..|pnics| - 1];
      FreeDevicesMeaning(init, onSwitch, d);
      if d in FreeDevices(init, onSwitch) {
        var i :| 0 <= i < |init| && init[i].device == d && init[i].key !in onSwitch;
        assert pnics[i] == init[i];
      }
      if exists i :: 0 <= i < |pnics| && pnics[i].device == d && pnics[i].key !in onSwitch {
        var i :| 0 <= i < |pnics| && pnics[i].device == d && pnics[i].key !in onSwitch;
        if i < |pnics| - 1 { assert init[i] == pnics[i]; }
      }
    }
  }

  /** Removing the first occurrence takes exactly one copy away, if there is one. */
  lemma {:induction false} RemoveFirstCount(l: seq<string>, x: Option<string>)
    ensures x.None? ==> RemoveFirst(l, x) == l
    ensures x.Some? ==> multiset(RemoveFirst(l, x)) == multiset(l) - multiset{x.value}
  {
    if |l| > 0 {
      var rest := l[1..];
      RemoveFirstCount(rest, x);
      assert l == [l[0]] + rest;
      assert multiset(l) == multiset{l[0]} + multiset(rest);
      if x.Some? {
        if Some(l[0]) == x {
          assert RemoveFirst(l, x) == rest;
        } else {
          assert RemoveFirst(l, x) == [l[0]] + RemoveFirst(rest, x);
          assert multiset(RemoveFirst(l, x)) == multiset{l[0]} + multiset(RemoveFirst(rest, x));
          assert l[0] != x.value;
        }
      }
    }
  }

  /** The backed devices are taken away once per mention: a multiset difference. */
  lemma {:induction false} RemoveEachCount(l: seq<string>, specs: seq<PnicSpec>)
    ensures multiset(RemoveEach(l, specs)) == multiset(l) - SpecDevices(specs)
  {
    if |specs| > 0 {
      var init := specs[..|specs| - 1];
      RemoveEachCount(l, init);
      RemoveFirstCount(RemoveEach(l, init), specs[|specs| - 1].pnicDevice);
    }
  }

  /** `getIdlePNic` names only devices of pnics on no standard switch, each
      at most as often as it occurs there; with no proxy switch it names all
      of them in order; the fault says that nothing is left. */
  lemma IdlePnicsMeaning(info: NetworkInfo)
    ensures var free := FreeDevices(info.pnic, SwitchPnicKeys(info.vswitch));
      (IdlePnics(info).Ok? ==> |IdlePnics(info).value| > 0 && multiset(IdlePnics(info).value) <= multiset(free))
      && (|info.proxySwitch| == 0 ==> IdlePnics(info) == (if |free| > 0 then Ok(free) else Err(InvalidProperty("No idle physical found"))))
      && (|info.proxySwitch| > 0 && |free| > 0 ==>
            (IdlePnics(info).Ok? ==> multiset(IdlePnics(info).value) == multiset(free) - SpecDevices(info.proxySwitch[0].pnicSpec)))
      && (IdlePnics(info).Err? ==> IdlePnics(info).fault == InvalidProperty("No idle physical found"))
  {
    var free := FreeDevices(info.pnic, SwitchPnicKeys(info.vswitch));
    if |free| > 0 && |info.proxySwitch| > 0 {
      RemoveEachCount(free, info.proxySwitch[0].pnicSpec);
    }
  }

  /** An idle pnic's device belongs to a pnic whose key is on no standard switch. */
  lemma IdlePnicIsFree(info: NetworkInfo, d: string)
    requires IdlePnics(info).Ok? && d in IdlePnics(info).value
    ensures exists i :: (0 <= i < |info.pnic| && info.pnic[i].device == d
                         && forall j :: 0 <= j < |info.vswitch| ==> info.pnic[i].key !in info.vswitch[j].pnic)
  {
    var free := FreeDevices(info.pnic, SwitchPnicKeys(info.vswitch));
    IdlePnicsMeaning(info);
    assert d in multiset(IdlePnics(info).value);
    assert d in free;
    FreeDevicesMeaning(info.pnic, SwitchPnicKeys(info.vswitch), d);
    var i :| 0 <= i < |info.pnic| && info.pnic[i].device == d && info.pnic[i].key !in SwitchPnicKeys(info.vswitch);
    SwitchPnicKeysMeaning(info.vswitch, info.pnic[i].key);
  }

  /** `getIdlePNic` over the fetched network info (whose fetch may throw). */
  method GetIdlePNic(read: Result<NetworkInfo>) returns (r: Result<seq<string>>)
    ensures read.Err? ==> r == Err(read.fault)
    ensures read.Ok? ==> r == IdlePnics(read.value)
  {
    if read.Err? { return Err(read.fault); }
    var info := read.value;
    var keys: seq<string> := [];
    var i := 0;
    while i < |info.vswitch|
      invariant 0 <= i <= |info.vswitch|
      invariant keys == SwitchPnicKeys(info.vswitch[..i])
    {
      assert info.vswitch[..i + 1][..i] == info.vswitch[..i];
      keys := keys + info.vswitch[i].pnic;
      i := i + 1;
    }
    assert info.vswitch[..i] == info.vswitch;
    var names: seq<string> := [];
    i := 0;
    while i < |info.pnic|
      invariant 0 <= i <= |info.pnic|
      invariant names == FreeDevices(info.pnic[..i], keys)
    {
      assert info.pnic[..i + 1][..i] == info.pnic[..i];
      if info.pnic[i].key !in keys {
        names := names + [info.pnic[i].device];
      }
      i := i + 1;
    }
    assert info.pnic[..i] == info.pnic;
    if |names| > 0 && |info.proxySwitch| > 0 {
      var specs := info.proxySwitch[0].pnicSpec;
      ghost var free := names;
      i := 0;
      while i < |specs|
        invariant 0 <= i <= |specs|
        invariant names == RemoveEach(free, specs[..i])
      {
        assert specs[..i + 1][..i] == specs[..i];
        names := RemoveFirst(names, specs[i].pnicDevice);
        i := i + 1;
      }
      assert specs[..i] == specs;
    }
    if |names| > 0 {
      return Ok(names);
    }
    return Err(InvalidProperty(NO_IDLE_PNIC));
  }

  // ---------------------------------------------------------------
  // getIdleVdsUplinkPortKey, buildPnicSpec, buildHostProxySwitchConfig
  // ---------------------------------------------------------------

  /** Whether some backed pnic uses the uplink port `key`. */
  predicate UsedBy(specs: seq<PnicSpec>, key: string) {
    exists j :: 0 <= j < |specs| && specs[j].uplinkPortKey == Some(key)
  }

  /** The uplink port keys no backed pnic uses, in uplink order. */
  function IdleUplinks(uplinks: seq<string>, specs: seq<PnicSpec>): seq<string> {
    if |uplinks| == 0 then []
    else IdleUplinks(uplinks[..|uplinks| - 1], specs)
         + (if UsedBy(specs, uplinks[|uplinks| - 1]) then [] else [uplinks[|uplinks| - 1]])
  }

  lemma {:induction false} IdleUplinksMeaning(uplinks: seq<string>, specs: seq<PnicSpec>)
    ensures forall k :: k in IdleUplinks(uplinks, specs) <==> k in uplinks && !UsedBy(specs, k)
    ensures |IdleUplinks(uplinks, specs)| <= |uplinks|
  {
    if |uplinks| > 0 {
      var init := uplinks[..|uplinks| - 1];
      IdleUplinksMeaning(init, specs);
      assert uplinks == init + [uplinks[|uplinks| - 1]];
    }
  }

  /** The inner search of `getIdleVdsUplinkPortKey`: is `key` in use? */
  method IsIdle(specs: seq<PnicSpec>, key: string) returns (idle: bool)
    ensures idle <==> !UsedBy(specs, key)
  {
    idle := true;
    var j := 0;
    while j < |specs|
      invariant 0 <= j <= |specs|
      invariant forall m :: 0 <= m < j ==> specs[m].uplinkPortKey != Some(key)
    {
      if specs[j].uplinkPortKey == Some(key) {
        idle := false;
        break;
      }
      j := j + 1;
    }
  }

  /** `getIdleVdsUplinkPortKey` over the backing's pnic specs and the
      proxy switch's uplink port keys. */
  method IdleVdsUplinkPortKeys(specs: seq<PnicSpec>, uplinks: seq<string>) returns (idle: seq<string>)
    ensures idle == IdleUplinks(uplinks, specs)
  {
    idle := [];
    var i := 0;
    while i < |uplinks|
      invariant 0 <= i <= |uplinks|
      invariant idle == IdleUplinks(uplinks[..i], specs)
    {
      assert uplinks[..i + 1][..i] == uplinks[..i];
      var free := IsIdle(specs, uplinks[i]);
      if free {
        idle := idle + [uplinks[i]];
      }
      i := i + 1;
    }
    assert uplinks[..i] == uplinks;
  }

  /** The i-th pnic on the i-th uplink, for as many pairs as the shorter list has. */
  function Pairs(pnics: seq<string>, uplinks: seq<string>): (specs: seq<PnicSpec>)
    ensures |specs| == if |pnics| < |uplinks| then |pnics| else |uplinks|
    ensures forall i :: 0 <= i < |specs| ==> specs[i] == PnicSpec(Some(pnics[i]), Some(uplinks[i]))
  {
    if |pnics| == 0 || |uplinks| == 0 then []
    else [PnicSpec(Some(pnics[0]), Some(uplinks[0]))] + Pairs(pnics[1..], uplinks[1..])
  }

  /** The pairing loop of `buildPnicSpec`. */
  method PairPnics(pnics: seq<string>, uplinks: seq<string>) returns (specs: seq<PnicSpec>)
    ensures specs == Pairs(pnics, uplinks)
  {
    var loopNum := |uplinks|;
    if |pnics| < |uplinks| {
      loopNum := |pnics|;
    }
    specs := [];
    var i := 0;
    while i < loopNum
      invariant 0 <= i <= loopNum
      invariant |specs| == i
      invariant forall m :: 0 <= m < i ==> specs[m] == PnicSpec(Some(pnics[m]), Some(uplinks[m]))
    {
      specs := specs + [PnicSpec(Some(pnics[i]), Some(uplinks[i]))];
      i := i + 1;
    }
    var expected := Pairs(pnics, uplinks);
    assert |specs| == |expected|;
    assert forall m :: 0 <= m < |specs| ==> specs[m] == expected[m];
  }

  /** `getPnicFromVSS`: the bonded devices of the first standard switch. */
  function PnicFromVss(info: NetworkInfo): (r: Result<seq<string>>)
    ensures r.Ok? ==> |info.vswitch| > 0 && info.vswitch[0].spec.bridge == Some(BondBridge(r.value))
  {
    if |info.vswitch| == 0 then Err(IndexOutOfBounds)
    else match info.vswitch[0].spec.bridge
      case None => Err(NullPointer)
      case Some(OtherBridge) => Err(ClassCast)
      case Some(BondBridge(devices)) => Ok(devices)
  }

  /** What `buildPnicSpec` yields: the standard switch's pnics paired with
      the proxy switch's idle uplink ports; `proxyConfig` is the fetched
      proxy-switch config and `networkRead` the host's network info (read
      twice, with the same answer). */
  function PnicSpecsFor(proxyConfig: Result<ProxySwitchConfig>, networkRead: Result<NetworkInfo>): Result<seq<PnicSpec>> {
    var info :- HostNetworkInfo(networkRead);
    var vss :- PnicFromVss(info);
    var config :- proxyConfig;
    if |info.proxySwitch| == 0 then Err(IndexOutOfBounds)
    else Ok(Pairs(vss, IdleUplinks(info.proxySwitch[0].uplinkPort, config.pnicSpec)))
  }

  /** `buildPnicSpec`. */
  method BuildPnicSpec(proxyConfig: Result<ProxySwitchConfig>, networkRead: Result<NetworkInfo>) returns (r: Result<seq<PnicSpec>>)
    ensures r == PnicSpecsFor(proxyConfig, networkRead)
  {
    var read := HostNetworkInfo(networkRead);
    if read.Err? { return Err(read.fault); }
    var info := read.value;
    var vss := PnicFromVss(info);
    if vss.Err? { return Err(vss.fault); }
    if proxyConfig.Err? { return Err(proxyConfig.fault); }
    if |info.proxySwitch| == 0 { return Err(IndexOutOfBounds); }
    var uplinks := IdleVdsUplinkPortKeys(proxyConfig.value.pnicSpec, info.proxySwitch[0].uplinkPort);
    var specs := PairPnics(vss.value, uplinks);
    return Ok(specs);
  }

  /** `buildHostProxySwitchConfig`: the fetched config marked "edit", with
      the new pairs appended after its existing pnic specs. */
  method BuildHostProxySwitchConfig(proxyConfig: Result<ProxySwitchConfig>, networkRead: Result<NetworkInfo>)
    returns (r: Result<ProxySwitchConfig>)
    ensures proxyConfig.Err? ==> r == Err(proxyConfig.fault)
    ensures proxyConfig.Ok? ==>
      (PnicSpecsFor(proxyConfig, networkRead).Err? ==> r == Err(PnicSpecsFor(proxyConfig, networkRead).fault))
      && (PnicSpecsFor(proxyConfig, networkRead).Ok? ==>
            r == Ok(ProxySwitchConfig(Some("edit"), proxyConfig.value.uuid,
                                      proxyConfig.value.pnicSpec + PnicSpecsFor(proxyConfig, networkRead).value)))
  {
    if proxyConfig.Err? { return Err(proxyConfig.fault); }
    var update := proxyConfig.value.(changeOperation := Some("edit"));
    var specs := BuildPnicSpec(proxyConfig, networkRead);
    if specs.Err? { return Err(specs.fault); }
    update := update.(pnicSpec := update.pnicSpec + specs.value);
    return Ok(update);
  }

  /** The appended pnic specs are on uplink ports no existing spec uses, and
      each pairs a pnic of the standard switch with an uplink of the proxy switch. */
  lemma NewPnicSpecsUseIdleUplinks(proxyConfig: Result<ProxySwitchConfig>, networkRead: Result<NetworkInfo>)
    requires PnicSpecsFor(proxyConfig, networkRead).Ok?
    ensures var appended := PnicSpecsFor(proxyConfig, networkRead).value;
      forall j :: 0 <= j < |appended| ==>
        appended[j].uplinkPortKey.Some? && appended[j].pnicDevice.Some?
        && !UsedBy(proxyConfig.value.pnicSpec, appended[j].uplinkPortKey.value)
        && appended[j].uplinkPortKey.value in networkRead.value.proxySwitch[0].uplinkPort
        && appended[j].pnicDevice.value in PnicFromVss(networkRead.value).value
  {
    var info := networkRead.value;
    var ups := IdleUplinks(info.proxySwitch[0].uplinkPort, proxyConfig.value.pnicSpec);
    IdleUplinksMeaning(info.proxySwitch[0].uplinkPort, proxyConfig.value.pnicSpec);
    var appended := PnicSpecsFor(proxyConfig, networkRead).value;
    assert appended == Pairs(PnicFromVss(info).value, ups);
    forall j | 0 <= j < |appended|
      ensures appended[j].uplinkPortKey.Some? && appended[j].pnicDevice.Some?
        && !UsedBy(proxyConfig.value.pnicSpec, appended[j].uplinkPortKey.value)
        && appended[j].uplinkPortKey.value in info.proxySwitch[0].uplinkPort
        && appended[j].pnicDevice.value in PnicFromVss(networkRead.value).value
    {
      assert appended[j].uplinkPortKey.value == ups[j];
      assert ups[j] in ups;
    }
  }

  // ---------------------------------------------------------------
  // buildHostVirtualSwitchConfig
  // ---------------------------------------------------------------

  /** `buildHostVirtualSwitchConfig`: the first standard switch's spec with
      its active and standby NICs cleared and no bridge, marked "edit". */
  function HostVirtualSwitchConfig(networkRead: Result<NetworkInfo>): (r: Result<VirtualSwitchConfig>)
    ensures r.Ok? <==> networkRead.Ok? && |networkRead.value.vswitch| > 0
    ensures r.Ok? ==>
      var vs := networkRead.value.vswitch[0];
      r.value == VirtualSwitchConfig("edit", vs.name, VirtualSwitchSpec([], [], None))
  {
    var info :- HostNetworkInfo(networkRead);
    if |info.vswitch| == 0 then Err(IndexOutOfBounds)
    else
      var vs := info.vswitch[0];
      var spec := vs.spec.(standbyNic := [], activeNic := [], bridge := None);
      Ok(VirtualSwitchConfig("edit", vs.name, spec))
  }

  // ---------------------------------------------------------------
  // buildHostVirtualNicConfig
  // ---------------------------------------------------------------

  /** The spec every migrated VMkernel NIC shares: the management
      portgroup on the distributed switch, no port key, no standard portgroup. */
  function MigratedVnicSpec(pgKey: Option<string>, switchUuid: Option<string>): VnicSpec {
    VnicSpec(None, Some(PortConnection(switchUuid, pgKey, None)), None)
  }

  /** `buildHostVirtualNicConfig`: one "edit" config per existing VMkernel
      NIC, in order. The management portgroup's key is read first, then the
      proxy switch, then the host's network info. */
  method BuildHostVirtualNicConfig(ctx: Context, readKey: Mor -> Result<PropertyCollector.PropertyResult>,
                                   proxyConfig: Result<ProxySwitchConfig>, networkRead: Result<NetworkInfo>)
    returns (r: Result<seq<VnicConfig>>)
    ensures r.Ok? <==> KeyOf(ctx.mgmtPg, readKey).Ok? && proxyConfig.Ok? && networkRead.Ok?
    ensures KeyOf(ctx.mgmtPg, readKey).Err? ==> r == Err(KeyOf(ctx.mgmtPg, readKey).fault)
    ensures KeyOf(ctx.mgmtPg, readKey).Ok? && proxyConfig.Ok? && networkRead.Err? ==>
      r == Err(HciServer("Could not get HostNetworkInfo"))
    ensures r.Ok? ==>
      var vnics := networkRead.value.vnic;
      var spec := MigratedVnicSpec(KeyOf(ctx.mgmtPg, readKey).value, proxyConfig.value.uuid);
      |r.value| == |vnics|
      && forall i :: 0 <= i < |vnics| ==> r.value[i] == VnicConfig(spec, vnics[i], "", "edit")
  {
    var key := KeyOf(ctx.mgmtPg, readKey);
    if key.Err? { return Err(key.fault); }
    if proxyConfig.Err? { return Err(proxyConfig.fault); }
    var spec := MigratedVnicSpec(key.value, proxyConfig.value.uuid);
    var info := HostNetworkInfo(networkRead);
    if info.Err? { return Err(info.fault); }
    var vnics := info.value.vnic;
    var configs: seq<VnicConfig> := [];
    var i := 0;
    while i < |vnics|
      invariant 0 <= i <= |vnics|
      invariant |configs| == i
      invariant forall m :: 0 <= m < i ==> configs[m] == VnicConfig(spec, vnics[m], "", "edit")
    {
      configs := configs + [VnicConfig(spec, vnics[i], "", "edit")];
      i := i + 1;
    }
    return Ok(configs);
  }

  // ---------------------------------------------------------------
  // migrateVmToVds
  // ---------------------------------------------------------------

  /** `VirtualDeviceConnectInfo`. */
  datatype Connectable = Connectable(startConnected: bool)

  /** A device's backing: a distributed-port backing, or any other. */
  datatype Backing = DvPortBacking(port: PortConnection) | OtherBacking

  /** `VirtualDevice`; `key` stands for the device's identity. */
  datatype VirtualDevice = VirtualDevice(key: int, isEthernetCard: bool, backing: Option<Backing>,
                                         connectable: Option<Connectable>)

  /** `VirtualDeviceConfigSpecOperation`. */
  datatype DeviceOperation = Add | Remove | Edit

  /** `VirtualDeviceConfigSpec`. */
  datatype DeviceChange = DeviceChange(operation: DeviceOperation, device: VirtualDevice)

  /** `VirtualMachineConfigInfo`: the device list of its hardware, if any. */
  datatype VmConfigInfo = VmConfigInfo(hardware: Option<seq<Option<VirtualDevice>>>)

  predicate IsCard(d: Option<VirtualDevice>) {
    d.Some? && d.value.isEthernetCard
  }

  /** A card moved to the distributed port, set to connect at power-on when it can. */
  function Moved(d: VirtualDevice, port: PortConnection): VirtualDevice {
    d.(backing := Some(DvPortBacking(port)),
       connectable := if d.connectable.Some? then Some(Connectable(true)) else None)
  }

  /** One EDIT change per Ethernet card, in device order. */
  function CardEdits(devices: seq<Option<VirtualDevice>>, port: PortConnection): seq<DeviceChange> {
    if |devices| == 0 then []
    else CardEdits(devices[..|devices| - 1], port)
         + (if IsCard(devices[|devices| - 1]) then [DeviceChange(Edit, Moved(devices[|devices| - 1].value, port))] else [])
  }

  function CardCount(devices: seq<Option<VirtualDevice>>): nat {
    if |devices| == 0 then 0
    else CardCount(devices[..|devices| - 1]) + (if IsCard(devices[|devices| - 1]) then 1 else 0)
  }

  /** Every change edits an Ethernet card onto the port, keeping the card's
      key; there is one per card, so devices of other kinds produce none. */
  lemma {:induction false} CardEditsMeaning(devices: seq<Option<VirtualDevice>>, port: PortConnection)
    ensures |CardEdits(devices, port)| == CardCount(devices)
    ensures forall j :: 0 <= j < |CardEdits(devices, port)| ==>
      var c := CardEdits(devices, port)[j];
      c.operation == Edit && c.device.isEthernetCard && c.device.backing == Some(DvPortBacking(port))
      && exists i :: 0 <= i < |devices| && IsCard(devices[i]) && c.device == Moved(devices[i].value, port)
  {
    if |devices| > 0 {
      var init := devices[..|devices| - 1];
      CardEditsMeaning(init, port);
      var edits := CardEdits(devices, port);
      forall j | 0 <= j < |edits|
        ensures var c := edits[j];
          c.operation == Edit && c.device.isEthernetCard && c.device.backing == Some(DvPortBacking(port))
          && exists i :: 0 <= i < |devices| && IsCard(devices[i]) && c.device == Moved(devices[i].value, port)
      {
        if j < |CardEdits(init, port)| {
          assert edits[j] == CardEdits(init, port)[j];
          var i :| 0 <= i < |init| && IsCard(init[i]) && edits[j].device == Moved(init[i].value, port);
          assert devices[i] == init[i];
        } else {
          assert IsCard(devices[|devices| - 1]);
        }
      }
    }
  }

  /** A prefix of the devices holds no more cards than the whole list. */
  lemma {:induction false} CardCountPrefix(devices: seq<Option<VirtualDevice>>, n: nat)
    requires n <= |devices|
    ensures CardCount(devices[..n]) <= CardCount(devices)
  {
    if n < |devices| {
      var init := devices[..|devices| - 1];
      assert devices[..n] == init[..n];
      CardCountPrefix(init, n);
    } else {
      assert devices[..n] == devices;
    }
  }

  /** Order is kept: the edits of a device list are those of its parts in turn. */
  lemma {:induction false} CardEditsAppend(a: seq<Option<VirtualDevice>>, b: seq<Option<VirtualDevice>>, port: PortConnection)
    ensures CardEdits(a + b, port) == CardEdits(a, port) + CardEdits(b, port)
  {
    if |b| > 0 {
      CardEditsAppend(a, b[..|b| - 1], port);
      assert (a + b)[..|a + b| - 1] == a + b[..|b| - 1];
    } else {
      assert a + b == a;
    }
  }

  /** The device changes `migrateVmToVds` sends: none without hardware
      (the list is never filled); otherwise the port is read as the loop
      meets the first card (switch uuid first, then the portgroup key). */
  function DeviceChanges(config: Option<VmConfigInfo>, uuid: Result<Option<string>>, key: Result<Option<string>>): Result<seq<DeviceChange>> {
    if config.None? || config.value.hardware.None? then Ok([])
    else
      var devices := config.value.hardware.value;
      if CardCount(devices) == 0 then Ok(CardEdits(devices, PortConnection(None, None, None)))
      else
        var u :- uuid;
        var k :- key;
        Ok(CardEdits(devices, PortConnection(u, k, None)))
  }

  /** The loop of `migrateVmToVds` over the VM's devices. */
  method EditCards(devices: seq<Option<VirtualDevice>>, uuid: Result<Option<string>>, key: Result<Option<string>>)
    returns (r: Result<seq<DeviceChange>>)
    ensures r == DeviceChanges(Some(VmConfigInfo(Some(devices))), uuid, key)
  {
    var changes: seq<DeviceChange> := [];
    var i := 0;
    while i < |devices|
      invariant 0 <= i <= |devices|
      invariant CardCount(devices[..i]) == 0 ==> changes == []
      invariant CardCount(devices[..i]) > 0 ==>
        uuid.Ok? && key.Ok? && changes == CardEdits(devices[..i], PortConnection(uuid.value, key.value, None))
    {
      assert devices[..i + 1][..i] == devices[..i];
      if IsCard(devices[i]) {
        CardCountPrefix(devices, i + 1);
        if uuid.Err? { return Err(uuid.fault); }
        if key.Err? { return Err(key.fault); }
        if CardCount(devices[..i]) == 0 {
          CardEditsMeaning(devices[..i], PortConnection(uuid.value, key.value, None));
        }
        changes := changes + [DeviceChange(Edit, Moved(devices[i].value, PortConnection(uuid.value, key.value, None)))];
      }
      i := i + 1;
    }
    assert devices[..i] == devices;
    if CardCount(devices) == 0 {
      CardEditsMeaning(devices, PortConnection(None, None, None));
    }
    return Ok(changes);
  }

  /** What `migrateVmToVds` sent (the device changes) and returned. */
  datatype Migration = Migration(sent: Option<seq<DeviceChange>>, result: Result<bool>)

  /** `migrateVmToVds`: a null VM is skipped; otherwise the VM is
      reconfigured with the card edits, and a failed task throws the
      migrate-to-VDS failure code naming the VM. */
  method MigrateVmToVds(ctx: Context, vm: Option<Mor>, config: Result<Option<VmConfigInfo>>,
                        readKey: Mor -> Result<PropertyCollector.PropertyResult>, proxyConfig: Result<ProxySwitchConfig>,
                        submitted: Result<()>, monitored: Result<bool>, info: Result<TaskInfo>)
    returns (m: Migration)
    ensures vm.None? ==> m == Migration(None, Ok(false))
    ensures vm.Some? ==>
      var uuid := if proxyConfig.Ok? then Ok(proxyConfig.value.uuid) else Err(proxyConfig.fault);
      (config.Err? ==> m == Migration(None, Err(config.fault)))
      && (config.Ok? ==>
        var changes := DeviceChanges(config.value, uuid, KeyOf(ctx.mgmtPg, readKey));
        (changes.Err? ==> m == Migration(None, Err(changes.fault)))
        && (changes.Ok? ==>
             m.sent == Some(changes.value)
             && (m.result.Ok? <==> submitted.Ok? && monitored == Ok(true))
             && (m.result.Ok? ==> m.result.value)
             && (submitted.Err? ==> m.result == Err(submitted.fault))
             && (submitted.Ok? && monitored.Err? ==> m.result == Err(monitored.fault))
             && (submitted.Ok? && monitored == Ok(false) && info.Err? ==> m.result == Err(info.fault))
             && (submitted.Ok? && monitored == Ok(false) && info.Ok? ==>
                  m.result == Err(VsphereUtil.TaskFailure(info.value, VsphereConstants.MIGRATEVMTOVDS_TASK_FAILURE, vm.value.value)))))
  {
    if vm.None? { return Migration(None, Ok(false)); }
    if config.Err? { return Migration(None, Err(config.fault)); }
    var uuid := if proxyConfig.Ok? then Ok(proxyConfig.value.uuid) else Err(proxyConfig.fault);
    var changes: Result<seq<DeviceChange>> := Ok([]);
    if config.value.Some? && config.value.value.hardware.Some? {
      changes := EditCards(config.value.value.hardware.value, uuid, KeyOf(ctx.mgmtPg, readKey));
      if changes.Err? { return Migration(None, Err(changes.fault)); }
    }
    var sent := Some(changes.value);
    if submitted.Err? { return Migration(sent, Err(submitted.fault)); }
    if monitored.Err? { return Migration(sent, Err(monitored.fault)); }
    if monitored.value { return Migration(sent, Ok(true)); }
    if info.Err? { return Migration(sent, Err(info.fault)); }
    return Migration(sent, Err(VsphereUtil.TaskFailure(info.value, VsphereConstants.MIGRATEVMTOVDS_TASK_FAILURE, vm.value.value)));
  }

  // ---------------------------------------------------------------
  // addVirtualNIC and traffic selection
  // ---------------------------------------------------------------

  /** `HostVirtualNicManagerNicType`: the kinds the client tells apart. */
  datatype NicType = Vsan | VMotion | Management | OtherNicType(name: string)

  /** The IP settings of a new VMkernel NIC. */
  function VnicIp(enableDhcp: bool, ipAddress: Option<string>, subnetMask: Option<string>): (ip: IpConfig)
    ensures enableDhcp ==> ip == IpConfig(true, None, None)
    ensures !enableDhcp ==> ip == IpConfig(false, ipAddress, subnetMask)
  {
    if enableDhcp then IpConfig(true, None, None) else IpConfig(false, ipAddress, subnetMask)
  }

  /** The portgroup a new VMkernel NIC joins, by traffic type. */
  function ChosenPortgroup(ctx: Context, t: NicType): (pg: Option<Mor>)
    ensures t == Vsan ==> pg == ctx.vsanPg
    ensures t == VMotion ==> pg == ctx.vmotionPg
    ensures t != Vsan && t != VMotion ==> pg == ctx.mgmtPg
  {
    match t
    case Vsan => ctx.vsanPg
    case VMotion => ctx.vmotionPg
    case _ => ctx.mgmtPg
  }

  /** What `addVirtualNIC` sent (the NIC spec, once built) and returned. */
  datatype VnicAttempt = VnicAttempt(sent: Option<VnicSpec>, added: bool)

  /** `addVirtualNIC`: the network system is looked up, the portgroup key
      and the proxy switch read, the NIC added and its traffic selected
      (`selected`, the outcome of `selectTrafficOnVnic`); every exception,
      including a null NIC type, is swallowed into false. */
  function AddVirtualNic(ctx: Context, enableDhcp: bool, ipAddress: Option<string>, subnetMask: Option<string>,
                         vnicType: Option<NicType>, networkSystem: Result<Mor>,
                         readKey: Mor -> Result<PropertyCollector.PropertyResult>, proxyConfig: Result<ProxySwitchConfig>,
                         added: Result<string>, selected: Result<()>): (r: VnicAttempt)
    ensures r.added <==>
      networkSystem.Ok? && vnicType.Some?
      && KeyOf(ChosenPortgroup(ctx, vnicType.value), readKey).Ok? && proxyConfig.Ok? && added.Ok? && selected.Ok?
    ensures r.sent.Some? ==>
      r.sent.value.ip == Some(VnicIp(enableDhcp, ipAddress, subnetMask)) && vnicType.Some?
      && KeyOf(ChosenPortgroup(ctx, vnicType.value), readKey).Ok? && proxyConfig.Ok?
      && r.sent.value.distributedVirtualPort ==
           Some(PortConnection(proxyConfig.value.uuid, KeyOf(ChosenPortgroup(ctx, vnicType.value), readKey).value, None))
    ensures r.added ==> r.sent.Some?
  {
    if networkSystem.Err? || vnicType.None? then VnicAttempt(None, false)
    else
      var key := KeyOf(ChosenPortgroup(ctx, vnicType.value), readKey);
      if key.Err? || proxyConfig.Err? then VnicAttempt(None, false)
      else
        var spec := VnicSpec(Some(VnicIp(enableDhcp, ipAddress, subnetMask)),
                             Some(PortConnection(proxyConfig.value.uuid, key.value, None)), None);
        VnicAttempt(Some(spec), added.Ok? && selected.Ok?)
  }

  /** A HostNetwork built with one portgroup gives vMotion and vSAN NICs a
      null portgroup key, with no key read at all. */
  lemma SinglePortgroupHasNoVsanKey(host: Mor, dvs: Mor, pg: Option<Mor>, t: NicType,
                                    readKey: Mor -> Result<PropertyCollector.PropertyResult>)
    requires t == Vsan || t == VMotion
    ensures KeyOf(ChosenPortgroup(WithPortgroup(host, dvs, pg), t), readKey) == Ok(None)
  {
  }

  const SELECT_TRAFFIC_ERROR := "select traffic error on vNic"
  const SELECT_VSAN_ERROR := "select vSAN traffic error on vNic"
  const VSAN_DOWNSTREAM_IP := "224.2.3.4"
  const VSAN_UPSTREAM_IP := "224.1.2.3"

  /** `VsanHostConfigInfoNetworkInfoPortConfig` with its `VsanHostIpConfig`. */
  datatype VsanPortConfig = VsanPortConfig(device: string, downstreamIpAddress: string, upstreamIpAddress: string)

  /** `VsanHostDiskMapping`/`VsanHostDiskMapInfo`, reduced to the SSD's name. */
  datatype DiskMapping = DiskMapping(ssd: string)

  /** `VsanHostConfigInfoStorageInfo`. */
  datatype VsanStorageInfo = VsanStorageInfo(autoClaimStorage: Option<bool>, checksumEnabled: Option<bool>,
                                             diskMapInfo: seq<DiskMapping>, diskMapping: seq<DiskMapping>)

  /** `VsanHostFaultDomainInfo`. */
  datatype FaultDomain = FaultDomain(name: Option<string>)

  /** `VsanHostConfigInfo`; `networkInfo` is the port list of its network info. */
  datatype VsanHostConfig = VsanHostConfig(enabled: Option<bool>, hostSystem: Option<Mor>,
                                           networkInfo: Option<seq<VsanPortConfig>>,
                                           faultDomainInfo: Option<FaultDomain>, storageInfo: Option<VsanStorageInfo>)

  /** The vSAN config `selectVsanOnVnic` builds from the old one: a port
      for the new NIC first, then the old ports in order; the flags and
      names copied; empty disk lists. A missing part of the old config throws. */
  function NewVsanConfig(nicName: string, prev: VsanHostConfig): (r: Result<VsanHostConfig>)
    ensures r.Ok? <==> prev.networkInfo.Some? && prev.faultDomainInfo.Some? && prev.storageInfo.Some?
    ensures r.Ok? ==>
      r.value.networkInfo == Some([VsanPortConfig(nicName, "224.2.3.4", "224.1.2.3")] + prev.networkInfo.value)
      && r.value.enabled == prev.enabled && r.value.hostSystem == prev.hostSystem
      && r.value.faultDomainInfo == Some(FaultDomain(prev.faultDomainInfo.value.name))
      && r.value.storageInfo == Some(VsanStorageInfo(prev.storageInfo.value.autoClaimStorage,
                                                     prev.storageInfo.value.checksumEnabled, [], []))
  {
    if prev.networkInfo.None? || prev.faultDomainInfo.None? || prev.storageInfo.None? then Err(NullPointer)
    else
      var port := VsanPortConfig(nicName, VSAN_DOWNSTREAM_IP, VSAN_UPSTREAM_IP);
      var storage := VsanStorageInfo(prev.storageInfo.value.autoClaimStorage, prev.storageInfo.value.checksumEnabled, [], []);
      Ok(VsanHostConfig(prev.enabled, prev.hostSystem, Some([port] + prev.networkInfo.value),
                        Some(FaultDomain(prev.faultDomainInfo.value.name)), Some(storage)))
  }

  /** What `selectVsanOnVnic` sent and how it ended. */
  datatype VsanSelection = VsanSelection(sent: Option<VsanHostConfig>, result: Result<()>)

  /** `selectVsanOnVnic`: `oldConfig` is the host's vSAN config as read
      (null, or a failed read, throws); a task that fails is only logged,
      while any exception becomes one HciServerException. */
  function SelectVsanOnVnic(nicName: string, oldConfig: Result<Option<VsanHostConfig>>, submitted: Result<()>,
                            monitored: Result<bool>, info: Result<TaskInfo>): (r: VsanSelection)
    ensures r.result.Err? ==> r.result.fault == HciServer("select vSAN traffic error on vNic")
    ensures r.sent.Some? <==> oldConfig.Ok? && oldConfig.value.Some? && NewVsanConfig(nicName, oldConfig.value.value).Ok?
    ensures r.sent.Some? ==> r.sent == Some(NewVsanConfig(nicName, oldConfig.value.value).value)
    ensures r.result.Ok? <==>
      && r.sent.Some? && submitted.Ok?
      && (monitored == Ok(true) || (monitored == Ok(false) && info.Ok? && info.value.error.Some?))
  {
    if oldConfig.Err? || oldConfig.value.None? then VsanSelection(None, Err(HciServer(SELECT_VSAN_ERROR)))
    else
      var cfg := NewVsanConfig(nicName, oldConfig.value.value);
      if cfg.Err? then VsanSelection(None, Err(HciServer(SELECT_VSAN_ERROR)))
      else if submitted.Ok? && monitored.Ok? && (monitored.value || (info.Ok? && info.value.error.Some?)) then
        VsanSelection(Some(cfg.value), Ok(()))
      else VsanSelection(Some(cfg.value), Err(HciServer(SELECT_VSAN_ERROR)))
  }

  /** A vSAN update task that fails with a recorded fault is not reported
      to the caller; one that recorded none makes the logged
      `getError().getLocalizedMessage()` throw, which the catch rewraps. */
  lemma FailedVsanUpdateIsSilent(nicName: string, prev: VsanHostConfig, info: TaskInfo)
    requires NewVsanConfig(nicName, prev).Ok?
    ensures info.error.Some? ==> SelectVsanOnVnic(nicName, Ok(Some(prev)), Ok(()), Ok(false), Ok(info)).result == Ok(())
    ensures info.error.None? ==>
      SelectVsanOnVnic(nicName, Ok(Some(prev)), Ok(()), Ok(false), Ok(info)).result == Err(HciServer(SELECT_VSAN_ERROR))
  {
  }

  /** `selectTrafficOnVnic`: vSAN goes through `selectVsanOnVnic` (`vsan`);
      any other type selects the NIC with the NIC manager (`other`), whose
      failure becomes one HciServerException. */
  function SelectTrafficOnVnic(vnicType: NicType, vsan: VsanSelection, other: Result<()>): (r: Result<()>)
    ensures vnicType == Vsan ==> r == vsan.result
    ensures vnicType != Vsan ==> (r.Ok? <==> other.Ok?)
    ensures vnicType != Vsan && r.Err? ==> r.fault == HciServer("select traffic error on vNic")
  {
    if vnicType == Vsan then vsan.result
    else other.MapFailure(_ => HciServer(SELECT_TRAFFIC_ERROR))
  }
}
