/**
 * `HostManager`: the operations on one ESXi host.
 *
 * - Which host the session works on (`getHostMor`, the `hostMor` field).
 * - The DNS, host-name, NTP, default-gateway and account updates, each with
 *   its argument checks in the order the code makes them and the spec object
 *   it sends.
 * - The port-group and management-address additions.
 * - The search for a vSwitch free of a port-group name, and the service
 *   search by key.
 * - The hardware summary built from the host's hardware and config records.
 *
 * Every property read from the host is an input: a function of the managed
 * object it is read from. Every update call is an input outcome. The spec
 * object the call would be given is part of the result.
 */
module HostManager {
  import opened JavaLang
  import opened VimTypes
  import VsphereUtil
  import HostNetwork

  /** `GetMOREF.inFolderByType`: entity name (possibly null) to MOR. */
  type NameMap = map<Option<string>, Mor>

  // ---------------------------------------------------------------
  // Faults
  // ---------------------------------------------------------------

  const INVALID_CONFIG := "Configuration parameter is invalid"

  /** The faults `getConfigManager` and `getHostConfigInfo` log and swallow. */
  predicate ReadFault(f: Fault) {
    f.InvalidProperty? || IsRemote(f, "RuntimeFault")
  }

  // ---------------------------------------------------------------
  // Which host: getHostMor and the reads made through it
  // ---------------------------------------------------------------

  function Unaccessible(ip: Option<string>): string {
    "Host " + VsphereUtil.OrNull(ip) + " is unaccessible"
  }

  /** `mor` is a possible outcome of `getHostMor` when the host inventory read
      gave `hosts`: the read's exception, VerificationFailedException for an
      empty inventory, and otherwise the MOR of some host in it (the code takes
      the first key of a HashMap, whose order is unspecified). */
  predicate HostMorChoice(ip: Option<string>, hosts: Result<NameMap>, mor: Result<Mor>) {
    match hosts
    case Err(f) => mor == Err(f)
    case Ok(m) =>
      if m == map[] then mor == Err(VerificationFailed(Unaccessible(ip)))
      else mor.Ok? && mor.value in m.Values
  }

  /** The `hostMor` field after `getHostMor`: untouched when the inventory
      read threw, otherwise the value looked up (null when absent). */
  predicate HostMorAfter(hosts: Result<NameMap>, mor: Result<Mor>, before: Option<Mor>, after: Option<Mor>) {
    if hosts.Err? then after == before else after == (if mor.Ok? then Some(mor.value) else None)
  }

  /** Every inventory read has some possible outcome. */
  lemma HostMorChoiceExists(ip: Option<string>, hosts: Result<NameMap>)
    ensures exists mor :: HostMorChoice(ip, hosts, mor)
  {
    if hosts.Ok? && hosts.value != map[] {
      var k :| k in hosts.value.Keys;
      assert HostMorChoice(ip, hosts, Ok(hosts.value[k]));
    } else if hosts.Ok? {
      assert HostMorChoice(ip, hosts, Err(VerificationFailed(Unaccessible(ip))));
    } else {
      assert HostMorChoice(ip, hosts, Err(hosts.fault));
    }
  }

  /** What `getConfigManager` and `getHostConfigInfo` return: the property
      read from the chosen host; null when the host lookup or the read threw
      InvalidProperty or RuntimeFault; any other exception escapes. */
  function CaughtRead<T>(mor: Result<Mor>, read: Mor -> Result<Option<T>>): (r: Result<Option<T>>)
    ensures r.Err? ==> !ReadFault(r.fault)
    ensures mor.Ok? && read(mor.value).Ok? ==> r == read(mor.value)
    ensures mor.Err? && ReadFault(mor.fault) ==> r == Ok(None)
    ensures r.Ok? && r.value.Some? ==> mor.Ok? && read(mor.value) == r
  {
    if mor.Err? then (if ReadFault(mor.fault) then Ok(None) else Err(mor.fault))
    else
      var v := read(mor.value);
      if v.Err? && ReadFault(v.fault) then Ok(None) else v
  }

  /** `getHostHardwareInfo`: like `CaughtRead`, except that InvalidProperty and
      RuntimeFault become HciServerException instead of null. */
  function HardwareRead(mor: Result<Mor>, read: Mor -> Result<Option<HostHardwareInfo>>): (r: Result<Option<HostHardwareInfo>>)
    ensures r.Err? ==> !ReadFault(r.fault)
    ensures mor.Err? && ReadFault(mor.fault) ==> r == Err(HciServer("Fail to get HostConfigInfo"))
    ensures mor.Ok? && read(mor.value).Err? && ReadFault(read(mor.value).fault) ==> r == Err(HciServer("Fail to get HostConfigInfo"))
    ensures mor.Ok? && read(mor.value).Ok? ==> r == read(mor.value)
    ensures r.Ok? ==> mor.Ok? && r == read(mor.value)
  {
    var v := if mor.Err? then Err(mor.fault) else read(mor.value);
    if v.Err? && ReadFault(v.fault) then Err(HciServer("Fail to get HostConfigInfo")) else v
  }

  // ---------------------------------------------------------------
  // Records read from the host
  // ---------------------------------------------------------------

  /** `HostConfigManager`: the host's configuration subsystems. */
  datatype ConfigManager = ConfigManager(networkSystem: Option<Mor>, dateTimeSystem: Option<Mor>, serviceSystem: Option<Mor>)

  /** `HostDnsConfig`. */
  datatype DnsConfig = DnsConfig(
    dhcp: Option<bool>, hostName: Option<string>, domainName: Option<string>,
    address: seq<string>, searchDomain: seq<string>)

  /** `HostIpRouteConfig`. */
  datatype IpRouteConfig = IpRouteConfig(
    defaultGateway: Option<string>, gatewayDevice: Option<string>,
    ipV6DefaultGateway: Option<string>, ipV6GatewayDevice: Option<string>)

  /** `HostService`. */
  datatype HostService = HostService(key: Option<string>, running: bool, policy: Option<string>)

  /** `HostVirtualSwitch`: its name and the keys of its port groups. */
  datatype VirtualSwitch = VirtualSwitch(name: Option<string>, portgroup: seq<string>)

  /** `HostCpuPackage`, `HostPciDevice` and `HostHardwareInfo`. */
  datatype CpuPackage = CpuPackage(description: Option<string>)
  datatype PciDevice = PciDevice(id: Option<string>, deviceName: Option<string>, vendorName: Option<string>)
  datatype HostHardwareInfo = HostHardwareInfo(cpuPkg: seq<CpuPackage>, memorySize: int, pciDevice: seq<PciDevice>)

  /** `ScsiLun`: a `HostScsiDisk`, whose capacity and SSD flag may be null,
      or a LUN of another kind. */
  datatype DiskCapacity = DiskCapacity(block: int, blockSize: int)
  datatype ScsiLun =
    | ScsiDisk(capacity: Option<DiskCapacity>, canonicalName: Option<string>, deviceName: Option<string>,
               displayName: Option<string>, ssd: Option<bool>)
    | OtherLun(lunType: string)

  /** `PhysicalNic`, with its link speed (null when the link is down). */
  datatype LinkSpeed = LinkSpeed(speedMb: int, duplex: bool)
  datatype PhysicalNic = PhysicalNic(device: Option<string>, driver: Option<string>, linkSpeed: Option<LinkSpeed>, pci: Option<string>)

  /** `HostConfigInfo` with the parts read here. */
  datatype NetworkInfo = NetworkInfo(vswitch: Option<seq<VirtualSwitch>>, pnic: seq<PhysicalNic>)
  datatype StorageDeviceInfo = StorageDeviceInfo(scsiLun: seq<ScsiLun>)
  datatype ProductInfo = ProductInfo(version: Option<string>)
  datatype HostConfigInfo = HostConfigInfo(network: Option<NetworkInfo>, storageDevice: Option<StorageDeviceInfo>,
                                           product: Option<ProductInfo>)

  /** `HostSystemConnectionState` and the `HostRuntimeInfo` holding it. */
  datatype ConnectionState = Connected | Disconnected | NotResponding
  datatype RuntimeInfo = RuntimeInfo(connectionState: Option<ConnectionState>)

  // ---------------------------------------------------------------
  // Getters over the host's config and runtime records
  // ---------------------------------------------------------------

  /** `getHostVersion`, given what `getHostConfigInfo` returned: a null
      config is refused; a null product is dereferenced. */
  function HostVersion(config: Result<Option<HostConfigInfo>>): (r: Result<Option<string>>)
    ensures config.Err? ==> r == Err(config.fault)
    ensures config == Ok(None) ==> r == Err(IllegalArgument("HostConfigInfo is null"))
    ensures r.Ok? <==> config.Ok? && config.value.Some? && config.value.value.product.Some?
    ensures r.Ok? ==> r.value == config.value.value.product.value.version
  {
    match config
    case Err(f) => Err(f)
    case Ok(None) => Err(IllegalArgument("HostConfigInfo is null"))
    case Ok(Some(c)) => if c.product.None? then Err(NullPointer) else Ok(c.product.value.version)
  }

  /** `getHostConnectionState`, given the runtime record read: a null
      record is refused. */
  function HostConnectionState(runtime: Result<Option<RuntimeInfo>>): (r: Result<Option<ConnectionState>>)
    ensures runtime.Err? ==> r == Err(runtime.fault)
    ensures runtime == Ok(None) ==> r == Err(IllegalArgument("HostRuntimeInfo is null"))
    ensures r.Ok? <==> runtime.Ok? && runtime.value.Some?
    ensures r.Ok? ==> r.value == runtime.value.value.connectionState
  {
    match runtime
    case Err(f) => Err(f)
    case Ok(None) => Err(IllegalArgument("HostRuntimeInfo is null"))
    case Ok(Some(info)) => Ok(info.connectionState)
  }

  /** The network record behind `getHostPhysicalNic` and
      `getHostVirtualSwitch`: a null config and a null network record are
      refused, in that order. */
  function HostNetworkInfo(config: Result<Option<HostConfigInfo>>): (r: Result<NetworkInfo>)
    ensures config.Err? ==> r == Err(config.fault)
    ensures config == Ok(None) ==> r == Err(IllegalArgument("HostConfigInfo is null"))
    ensures config.Ok? && config.value.Some? && config.value.value.network.None? ==>
      r == Err(IllegalArgument("HostNetworkInfo is null"))
    ensures r.Ok? <==> config.Ok? && config.value.Some? && config.value.value.network.Some?
    ensures r.Ok? ==> r.value == config.value.value.network.value
  {
    match config
    case Err(f) => Err(f)
    case Ok(None) => Err(IllegalArgument("HostConfigInfo is null"))
    case Ok(Some(c)) => if c.network.None? then Err(IllegalArgument("HostNetworkInfo is null")) else Ok(c.network.value)
  }

  /** `getHostPhysicalNic`. */
  function HostPhysicalNics(config: Result<Option<HostConfigInfo>>): (r: Result<seq<PhysicalNic>>)
    ensures r.Ok? <==> HostNetworkInfo(config).Ok?
    ensures r.Ok? ==> r.value == HostNetworkInfo(config).value.pnic
    ensures r.Err? ==> r == Err(HostNetworkInfo(config).fault)
  {
    var network :- HostNetworkInfo(config);
    Ok(network.pnic)
  }

  /** `getHostVirtualSwitch`. */
  function HostVirtualSwitches(config: Result<Option<HostConfigInfo>>): (r: Result<Option<seq<VirtualSwitch>>>)
    ensures r.Ok? <==> HostNetworkInfo(config).Ok?
    ensures r.Ok? ==> r.value == HostNetworkInfo(config).value.vswitch
    ensures r.Err? ==> r == Err(HostNetworkInfo(config).fault)
  {
    var network :- HostNetworkInfo(config);
    Ok(network.vswitch)
  }

  // ---------------------------------------------------------------
  // Update calls: the spec sent, and the outcome
  // ---------------------------------------------------------------

  /** An update call: the arguments it was made with (none when a check
      refused first), and what the operation returned or threw. */
  datatype Call<S> = Call(sent: Option<S>, result: Result<()>)

  /** The network system of the host's config manager, or the exception the
      checks raise; `nullSystem` is the message for a null network system,
      which differs between callers. */
  function NetworkSystem(cm: Result<Option<ConfigManager>>, nullSystem: string): (r: Result<Mor>)
    ensures cm.Err? ==> r == Err(cm.fault)
    ensures cm == Ok(None) ==> r == Err(IllegalArgument("HostConfigManager is null"))
    ensures cm.Ok? && cm.value.Some? && cm.value.value.networkSystem.None? ==> r == Err(IllegalArgument(nullSystem))
    ensures r.Ok? <==> cm.Ok? && cm.value.Some? && cm.value.value.networkSystem.Some?
    ensures r.Ok? ==> r.value == cm.value.value.networkSystem.value
  {
    match cm
    case Err(f) => Err(f)
    case Ok(None) => Err(IllegalArgument("HostConfigManager is null"))
    case Ok(Some(c)) => if c.networkSystem.None? then Err(IllegalArgument(nullSystem)) else Ok(c.networkSystem.value)
  }

  /** `getHostDnsConfig` as the two DNS updates use it: InvalidProperty and a
      null config both become IllegalArgumentException. */
  function OrgDnsConfig(read: Result<Option<DnsConfig>>): (r: Result<DnsConfig>)
    ensures r.Ok? <==> read.Ok? && read.value.Some?
    ensures r.Ok? ==> r.value == read.value.value
    ensures read == Ok(None) ==> r == Err(IllegalArgument("HostDnsConfig if null"))
    ensures read.Err? && read.fault.InvalidProperty? ==> r == Err(IllegalArgument("Fail to get HostDnsConfig"))
    ensures read.Err? && !read.fault.InvalidProperty? ==> r == Err(read.fault)
  {
    match read
    case Err(f) => Err(if f.InvalidProperty? then IllegalArgument("Fail to get HostDnsConfig") else f)
    case Ok(None) => Err(IllegalArgument("HostDnsConfig if null"))
    case Ok(Some(c)) => Ok(c)
  }

  /** The rethrow around `updateDnsConfig`. */
  function DnsCallFault(f: Fault): Fault {
    if IsRemote(f, "HostConfigFault") || IsRemote(f, "NotFound") then IllegalArgument(INVALID_CONFIG) else f
  }

  /** `updateDns`: replace the DNS servers, keeping the host and domain names.
      The checks come in the order: config manager, network system, a
      non-empty server list, the DNS config read, its host name, its domain
      name. */
  function DnsUpdate(cm: Result<Option<ConfigManager>>, dnsServers: Option<seq<string>>,
                     readDns: Mor -> Result<Option<DnsConfig>>, update: Result<()>): (r: Call<(Mor, DnsConfig)>)
    ensures NetworkSystem(cm, "HostNetworkSystem if null").Err? ==>
      r == Call(None, Err(NetworkSystem(cm, "HostNetworkSystem if null").fault))
    ensures NetworkSystem(cm, "HostNetworkSystem if null").Ok? && (dnsServers.None? || |dnsServers.value| == 0) ==>
      r == Call(None, Err(IllegalArgument("DNS server list is empty")))
    ensures r.sent.Some? <==>
      (NetworkSystem(cm, "HostNetworkSystem if null").Ok? && dnsServers.Some? && |dnsServers.value| > 0
       && var org := OrgDnsConfig(readDns(NetworkSystem(cm, "HostNetworkSystem if null").value));
          org.Ok? && org.value.hostName.Some? && org.value.domainName.Some?)
    ensures r.sent.Some? ==>
      var nw := NetworkSystem(cm, "HostNetworkSystem if null").value;
      var org := OrgDnsConfig(readDns(nw)).value;
      r.sent.value == (nw, DnsConfig(Some(false), org.hostName, org.domainName, dnsServers.value, [org.domainName.value]))
    ensures r.sent.Some? ==> r.result == update.MapFailure(DnsCallFault)
    ensures r.sent.None? ==> r.result.Err?
  {
    var nw := NetworkSystem(cm, "HostNetworkSystem if null");
    if nw.Err? then Call(None, Err(nw.fault))
    else if dnsServers.None? || |dnsServers.value| == 0 then Call(None, Err(IllegalArgument("DNS server list is empty")))
    else
      var org := OrgDnsConfig(readDns(nw.value));
      if org.Err? then Call(None, Err(org.fault))
      else if org.value.hostName.None? then Call(None, Err(IllegalArgument("HostName if null")))
      else if org.value.domainName.None? then Call(None, Err(IllegalArgument("Domain name if null")))
      else
        var config := DnsConfig(Some(false), org.value.hostName, org.value.domainName,
                                dnsServers.value, [org.value.domainName.value]);
        Call(Some((nw.value, config)), update.MapFailure(DnsCallFault))
  }

  /** `updateHostName`: set a new host and domain name. The old server
      addresses are copied only when there are some, which leaves the new
      list equal to the old one either way. */
  function HostNameUpdate(cm: Result<Option<ConfigManager>>, hostName: Option<string>, domainName: Option<string>,
                          readDns: Mor -> Result<Option<DnsConfig>>, update: Result<()>): (r: Call<(Mor, DnsConfig)>)
    ensures NetworkSystem(cm, "HostNetworkSystem if null").Err? ==>
      r == Call(None, Err(NetworkSystem(cm, "HostNetworkSystem if null").fault))
    ensures NetworkSystem(cm, "HostNetworkSystem if null").Ok? && IsNullOrEmpty(hostName) ==>
      r == Call(None, Err(IllegalArgument("HostName is empty")))
    ensures NetworkSystem(cm, "HostNetworkSystem if null").Ok? && !IsNullOrEmpty(hostName) && IsNullOrEmpty(domainName) ==>
      r == Call(None, Err(IllegalArgument("DomainName is empty")))
    ensures r.sent.Some? <==>
      (NetworkSystem(cm, "HostNetworkSystem if null").Ok? && !IsNullOrEmpty(hostName) && !IsNullOrEmpty(domainName)
       && OrgDnsConfig(readDns(NetworkSystem(cm, "HostNetworkSystem if null").value)).Ok?)
    ensures r.sent.Some? ==>
      var nw := NetworkSystem(cm, "HostNetworkSystem if null").value;
      var org := OrgDnsConfig(readDns(nw)).value;
      r.sent.value == (nw, DnsConfig(Some(false), hostName, domainName, org.address, [domainName.value]))
    ensures r.sent.Some? ==> r.result == update.MapFailure(DnsCallFault)
    ensures r.sent.None? ==> r.result.Err?
  {
    var nw := NetworkSystem(cm, "HostNetworkSystem if null");
    if nw.Err? then Call(None, Err(nw.fault))
    else if IsNullOrEmpty(hostName) then Call(None, Err(IllegalArgument("HostName is empty")))
    else if IsNullOrEmpty(domainName) then Call(None, Err(IllegalArgument("DomainName is empty")))
    else
      var org := OrgDnsConfig(readDns(nw.value));
      if org.Err? then Call(None, Err(org.fault))
      else
        var address := if |org.value.address| > 0 then org.value.address else [];
        var config := DnsConfig(Some(false), hostName, domainName, address, [domainName.value]);
        Call(Some((nw.value, config)), update.MapFailure(DnsCallFault))
  }

  /** `HostNtpConfig` inside a `HostDateTimeConfig`. */
  datatype NtpConfig = NtpConfig(server: seq<string>)

  /** The rethrow around `updateDateTimeConfig`. */
  function NtpCallFault(f: Fault): Fault {
    if IsRemote(f, "HostConfigFault") then IllegalArgument(INVALID_CONFIG) else f
  }

  /** `updateNtp`: replace the NTP servers through the date-time system. */
  function NtpUpdate(cm: Result<Option<ConfigManager>>, ntpServers: Option<seq<string>>, update: Result<()>): (r: Call<(Mor, NtpConfig)>)
    ensures cm.Err? ==> r == Call(None, Err(cm.fault))
    ensures cm == Ok(None) ==> r == Call(None, Err(IllegalArgument("HostConfigManager is null")))
    ensures cm.Ok? && cm.value.Some? && cm.value.value.dateTimeSystem.None? ==>
      r == Call(None, Err(IllegalArgument("DateTimeSystem if null")))
    ensures cm.Ok? && cm.value.Some? && cm.value.value.dateTimeSystem.Some? && (ntpServers.None? || |ntpServers.value| == 0) ==>
      r == Call(None, Err(IllegalArgument("NTP server list is empty")))
    ensures r.sent.Some? <==>
      cm.Ok? && cm.value.Some? && cm.value.value.dateTimeSystem.Some? && ntpServers.Some? && |ntpServers.value| > 0
    ensures r.sent.Some? ==> r.sent.value == (cm.value.value.dateTimeSystem.value, NtpConfig(ntpServers.value))
    ensures r.sent.Some? ==> r.result == update.MapFailure(NtpCallFault)
  {
    match cm
    case Err(f) => Call(None, Err(f))
    case Ok(None) => Call(None, Err(IllegalArgument("HostConfigManager is null")))
    case Ok(Some(c)) =>
      if c.dateTimeSystem.None? then Call(None, Err(IllegalArgument("DateTimeSystem if null")))
      else if ntpServers.None? || |ntpServers.value| == 0 then Call(None, Err(IllegalArgument("NTP server list is empty")))
      else Call(Some((c.dateTimeSystem.value, NtpConfig(ntpServers.value))), update.MapFailure(NtpCallFault))
  }

  /** `HostAccountSpec`. */
  datatype AccountSpec = AccountSpec(id: string, password: string)

  /** `updateUserPassword`: the checks come in the order account manager,
      user name, password; UserNotFound and AlreadyExists from the call
      become IllegalArgumentException. */
  function PasswordUpdate(accountManager: Option<Mor>, userName: Option<string>, password: Option<string>,
                          update: Result<()>): (r: Call<(Mor, AccountSpec)>)
    ensures accountManager.None? ==> r == Call(None, Err(IllegalArgument("Account Manager MOR is null")))
    ensures accountManager.Some? && IsNullOrEmpty(userName) ==> r == Call(None, Err(IllegalArgument("User Name is empty")))
    ensures accountManager.Some? && !IsNullOrEmpty(userName) && IsNullOrEmpty(password) ==>
      r == Call(None, Err(IllegalArgument("Password is empty")))
    ensures r.sent.Some? <==> accountManager.Some? && !IsNullOrEmpty(userName) && !IsNullOrEmpty(password)
    ensures r.sent.Some? ==> r.sent.value == (accountManager.value, AccountSpec(userName.value, password.value))
    ensures r.sent.Some? ==> (r.result.Ok? <==> update.Ok?)
    ensures r.sent.Some? && update.Err? && IsRemote(update.fault, "UserNotFound") ==>
      r.result == Err(IllegalArgument("User " + userName.value + " not found"))
    ensures r.sent.Some? && update.Err? && IsRemote(update.fault, "AlreadyExists") ==>
      r.result == Err(IllegalArgument("Password is same as the old one"))
    ensures r.sent.Some? && update.Err? && !IsRemote(update.fault, "UserNotFound") && !IsRemote(update.fault, "AlreadyExists") ==>
      r.result == update
  {
    if accountManager.None? then Call(None, Err(IllegalArgument("Account Manager MOR is null")))
    else if IsNullOrEmpty(userName) then Call(None, Err(IllegalArgument("User Name is empty")))
    else if IsNullOrEmpty(password) then Call(None, Err(IllegalArgument("Password is empty")))
    else
      var user := userName.value;
      var wrap := (f: Fault) =>
        if IsRemote(f, "UserNotFound") then IllegalArgument("User " + user + " not found")
        else if IsRemote(f, "AlreadyExists") then IllegalArgument("Password is same as the old one")
        else f;
      Call(Some((accountManager.value, AccountSpec(user, password.value))), update.MapFailure(wrap))
  }

  /** `HostPortGroupSpec`; its policy is always a new, empty `HostNetworkPolicy`. */
  datatype PortGroupSpec = PortGroupSpec(name: string, vswitchName: string)

  /** `addVirtualSwitchPortGroup`: the checks come in the order config
      manager, network system, port-group name, vSwitch name; the call's
      NotFound, AlreadyExists and HostConfigFault become
      IllegalArgumentException. */
  function PortGroupAddition(cm: Result<Option<ConfigManager>>, pgName: Option<string>, vswName: Option<string>,
                             update: Result<()>): (r: Call<(Mor, PortGroupSpec)>)
    ensures NetworkSystem(cm, "HostNetworkSystem if null").Err? ==>
      r == Call(None, Err(NetworkSystem(cm, "HostNetworkSystem if null").fault))
    ensures NetworkSystem(cm, "HostNetworkSystem if null").Ok? && IsNullOrEmpty(pgName) ==>
      r == Call(None, Err(IllegalArgument("pgName is empty")))
    ensures NetworkSystem(cm, "HostNetworkSystem if null").Ok? && !IsNullOrEmpty(pgName) && IsNullOrEmpty(vswName) ==>
      r == Call(None, Err(IllegalArgument("vswName is empty")))
    ensures r.sent.Some? <==> NetworkSystem(cm, "HostNetworkSystem if null").Ok? && !IsNullOrEmpty(pgName) && !IsNullOrEmpty(vswName)
    ensures r.sent.Some? ==>
      r.sent.value == (NetworkSystem(cm, "HostNetworkSystem if null").value, PortGroupSpec(pgName.value, vswName.value))
    ensures r.sent.Some? ==> (r.result.Ok? <==> update.Ok?)
    ensures r.sent.Some? && update.Err? && IsRemote(update.fault, "NotFound") ==>
      r.result == Err(IllegalArgument("vSwitch " + vswName.value + " not found"))
    ensures r.sent.Some? && update.Err? && IsRemote(update.fault, "AlreadyExists") ==>
      r.result == Err(IllegalArgument("Portgroup " + pgName.value + " already existed"))
    ensures r.sent.Some? && update.Err? && IsRemote(update.fault, "HostConfigFault") ==>
      r.result == Err(IllegalArgument("Host is invalid"))
  {
    var nw := NetworkSystem(cm, "HostNetworkSystem if null");
    if nw.Err? then Call(None, Err(nw.fault))
    else if IsNullOrEmpty(pgName) then Call(None, Err(IllegalArgument("pgName is empty")))
    else if IsNullOrEmpty(vswName) then Call(None, Err(IllegalArgument("vswName is empty")))
    else
      var pg := pgName.value;
      var vsw := vswName.value;
      var wrap := (f: Fault) =>
        if IsRemote(f, "NotFound") then IllegalArgument("vSwitch " + vsw + " not found")
        else if IsRemote(f, "AlreadyExists") then IllegalArgument("Portgroup " + pg + " already existed")
        else if IsRemote(f, "HostConfigFault") then IllegalArgument("Host is invalid")
        else f;
      Call(Some((nw.value, PortGroupSpec(pg, vsw))), update.MapFailure(wrap))
  }

  /** `createVirtualNicSpec`: a static address and mask, DHCP off. */
  function VirtualNicSpec(ipAddress: string, mask: string): (spec: HostNetwork.VnicSpec)
    ensures spec.ip == Some(HostNetwork.IpConfig(false, Some(ipAddress), Some(mask)))
    ensures spec.distributedVirtualPort.None? && spec.portgroup.None?
  {
    HostNetwork.VnicSpec(Some(HostNetwork.VnicIp(false, Some(ipAddress), Some(mask))), None, None)
  }

  /** `addManagementIPAddress`: the checks come in the order config manager,
      network system, address, mask, port-group name; the call's
      AlreadyExists and HostConfigFault become IllegalArgumentException. */
  function ManagementAddressAddition(cm: Result<Option<ConfigManager>>, ipAddress: Option<string>, mask: Option<string>,
                                     pgName: Option<string>, update: Result<()>): (r: Call<(Mor, string, HostNetwork.VnicSpec)>)
    ensures NetworkSystem(cm, "HostNetworkSystem is null").Err? ==>
      r == Call(None, Err(NetworkSystem(cm, "HostNetworkSystem is null").fault))
    ensures NetworkSystem(cm, "HostNetworkSystem is null").Ok? && IsNullOrEmpty(ipAddress) ==>
      r == Call(None, Err(IllegalArgument("ipAddress is empty")))
    ensures NetworkSystem(cm, "HostNetworkSystem is null").Ok? && !IsNullOrEmpty(ipAddress) && IsNullOrEmpty(mask) ==>
      r == Call(None, Err(IllegalArgument("mask is empty")))
    ensures NetworkSystem(cm, "HostNetworkSystem is null").Ok? && !IsNullOrEmpty(ipAddress) && !IsNullOrEmpty(mask)
            && IsNullOrEmpty(pgName) ==>
      r == Call(None, Err(IllegalArgument("pgName is empty")))
    ensures r.sent.Some? <==>
      NetworkSystem(cm, "HostNetworkSystem is null").Ok? && !IsNullOrEmpty(ipAddress) && !IsNullOrEmpty(mask) && !IsNullOrEmpty(pgName)
    ensures r.sent.Some? ==>
      r.sent.value.0 == NetworkSystem(cm, "HostNetworkSystem is null").value && r.sent.value.1 == pgName.value
      && r.sent.value.2.ip == Some(HostNetwork.IpConfig(false, ipAddress, mask))
    ensures r.sent.Some? ==> (r.result.Ok? <==> update.Ok?)
    ensures r.sent.Some? && update.Err? && IsRemote(update.fault, "AlreadyExists") ==>
      r.result == Err(IllegalArgument("Portgroup " + pgName.value + " already has a ip address"))
    ensures r.sent.Some? && update.Err? && IsRemote(update.fault, "HostConfigFault") ==>
      r.result == Err(IllegalArgument("Host configuration parameter is invalid"))
  {
    var nw := NetworkSystem(cm, "HostNetworkSystem is null");
    if nw.Err? then Call(None, Err(nw.fault))
    else if IsNullOrEmpty(ipAddress) then Call(None, Err(IllegalArgument("ipAddress is empty")))
    else if IsNullOrEmpty(mask) then Call(None, Err(IllegalArgument("mask is empty")))
    else if IsNullOrEmpty(pgName) then Call(None, Err(IllegalArgument("pgName is empty")))
    else
      var pg := pgName.value;
      var wrap := (f: Fault) =>
        if IsRemote(f, "AlreadyExists") then IllegalArgument("Portgroup " + pg + " already has a ip address")
        else if IsRemote(f, "HostConfigFault") then IllegalArgument("Host configuration parameter is invalid")
        else f;
      Call(Some((nw.value, pg, VirtualNicSpec(ipAddress.value, mask.value))), update.MapFailure(wrap))
  }

  /** `updateDefaultGateway`: a blank gateway is refused before anything is
      read. The config manager's network system is dereferenced without a
      check; the route config read from it may be null. The new config
      carries the gateway, and the old gateway device and IPv6 gateway and
      device when there was an old config. Exceptions of the read and of the
      call escape as they are. */
  function GatewayUpdate(gateway: Option<string>, cm: Result<Option<ConfigManager>>,
                         readRoute: Option<Mor> -> Result<Option<IpRouteConfig>>, update: Result<()>)
    : (r: Call<(Option<Mor>, IpRouteConfig)>)
    ensures IsBlank(gateway) ==> r == Call(None, Err(IllegalArgument("gateway is empty")))
    ensures !IsBlank(gateway) && cm.Err? ==> r == Call(None, Err(cm.fault))
    ensures !IsBlank(gateway) && cm == Ok(None) ==> r == Call(None, Err(NullPointer))
    ensures r.sent.Some? <==>
      !IsBlank(gateway) && cm.Ok? && cm.value.Some? && readRoute(cm.value.value.networkSystem).Ok?
    ensures r.sent.Some? ==>
      var prev := readRoute(cm.value.value.networkSystem).value;
      var sent := r.sent.value.1;
      r.sent.value.0 == cm.value.value.networkSystem
      && sent.defaultGateway == gateway
      && (prev.Some? ==> sent.gatewayDevice == prev.value.gatewayDevice
                         && sent.ipV6DefaultGateway == prev.value.ipV6DefaultGateway
                         && sent.ipV6GatewayDevice == prev.value.ipV6GatewayDevice)
      && (prev.None? ==> sent == IpRouteConfig(gateway, None, None, None))
    ensures r.sent.Some? ==> r.result == update
    ensures r.sent.None? ==> r.result.Err?
  {
    if IsBlank(gateway) then Call(None, Err(IllegalArgument("gateway is empty")))
    else match Deref(cm)
      case Err(f) => Call(None, Err(f))
      case Ok(c) =>
        var nwSystem := c.networkSystem;
        match readRoute(nwSystem)
        case Err(f) => Call(None, Err(f))
        case Ok(prev) =>
          var route :=
            if prev.Some? then IpRouteConfig(gateway, prev.value.gatewayDevice, prev.value.ipV6DefaultGateway, prev.value.ipV6GatewayDevice)
            else IpRouteConfig(gateway, None, None, None);
          Call(Some((nwSystem, route)), update)
  }

  // ---------------------------------------------------------------
  // Searches: getValidVirtualSwitch, getServiceInfo
  // ---------------------------------------------------------------

  /** A vSwitch qualifies when none of its port groups is pgName; it then
      gives its name. */
  function SwitchFinder(pgName: string): VirtualSwitch -> Option<Option<string>> {
    (vs: VirtualSwitch) => if pgName in vs.portgroup then None else Some(vs.name)
  }

  /** The first vSwitch without a port group pgName, by name. */
  function FreeSwitch(switches: seq<VirtualSwitch>, pgName: string): Result<Option<string>> {
    match FirstDecision(SwitchFinder(pgName), switches)
    case Some(name) => Ok(name)
    case None => Err(IllegalArgument("No valid virtual switch"))
  }

  /** The search fails exactly when every vSwitch has the port group, and
      otherwise names the first vSwitch that has not. */
  lemma FreeSwitchMeaning(switches: seq<VirtualSwitch>, pgName: string)
    ensures FreeSwitch(switches, pgName).Err? <==> forall k :: 0 <= k < |switches| ==> pgName in switches[k].portgroup
    ensures FreeSwitch(switches, pgName).Err? ==> FreeSwitch(switches, pgName).fault == IllegalArgument("No valid virtual switch")
    ensures forall k :: 0 <= k < |switches| && pgName !in switches[k].portgroup
                        && (forall j :: 0 <= j < k ==> pgName in switches[j].portgroup) ==>
      FreeSwitch(switches, pgName) == Ok(switches[k].name)
  {
    FirstDecisionIsFirst(SwitchFinder(pgName), switches);
    forall k | 0 <= k < |switches| && pgName !in switches[k].portgroup
               && (forall j :: 0 <= j < k ==> pgName in switches[j].portgroup)
      ensures FreeSwitch(switches, pgName) == Ok(switches[k].name)
    {
      assert DecidesFirstAt(SwitchFinder(pgName), switches, k);
    }
  }

  /** The loop of `getValidVirtualSwitch`. */
  method FindFreeSwitch(switches: seq<VirtualSwitch>, pgName: string) returns (r: Result<Option<string>>)
    ensures r == FreeSwitch(switches, pgName)
  {
    var i := 0;
    while i < |switches|
      invariant 0 <= i <= |switches|
      invariant FirstDecision(SwitchFinder(pgName), switches) == FirstDecision(SwitchFinder(pgName), switches[i..])
    {
      assert switches[i..][1..] == switches[i + 1..];
      var vSwitch := switches[i];
      if pgName in vSwitch.portgroup {
        i := i + 1;
        continue;
      }
      return Ok(vSwitch.name);
    }
    return Err(IllegalArgument("No valid virtual switch"));
  }

  /** `getValidVirtualSwitch` on the config read: the checks come in the
      order config read, port-group name, switch list; the network record is
      dereferenced without a check. */
  function ValidVirtualSwitch(config: Result<Option<HostConfigInfo>>, pgName: Option<string>): (r: Result<Option<string>>)
    ensures config.Err? ==> r == Err(config.fault)
    ensures config == Ok(None) ==> r == Err(IllegalArgument("HostConfigInfo is null"))
    ensures config.Ok? && config.value.Some? && IsNullOrEmpty(pgName) ==> r == Err(IllegalArgument("PortGroup name is empty"))
    ensures config.Ok? && config.value.Some? && !IsNullOrEmpty(pgName) && config.value.value.network.None? ==>
      r == Err(NullPointer)
    ensures config.Ok? && config.value.Some? && !IsNullOrEmpty(pgName) && config.value.value.network.Some?
            && config.value.value.network.value.vswitch.None? ==>
      r == Err(IllegalArgument("Virtual switch list is empty"))
    ensures r.Ok? ==>
      config.Ok? && config.value.Some? && !IsNullOrEmpty(pgName) && config.value.value.network.Some?
      && config.value.value.network.value.vswitch.Some?
      && var switches := config.value.value.network.value.vswitch.value;
         (exists k :: 0 <= k < |switches| && pgName.value !in switches[k].portgroup && r.value == switches[k].name
                      && forall j :: 0 <= j < k ==> pgName.value in switches[j].portgroup)
  {
    match config
    case Err(f) => Err(f)
    case Ok(None) => Err(IllegalArgument("HostConfigInfo is null"))
    case Ok(Some(c)) =>
      if IsNullOrEmpty(pgName) then Err(IllegalArgument("PortGroup name is empty"))
      else if c.network.None? then Err(NullPointer)
      else if c.network.value.vswitch.None? then Err(IllegalArgument("Virtual switch list is empty"))
      else
        var switches := c.network.value.vswitch.value;
        FreeSwitchMeaning(switches, pgName.value);
        FreeSwitchWitness(switches, pgName.value);
        FreeSwitch(switches, pgName.value)
  }

  /** A successful search has a first qualifying vSwitch. */
  lemma FreeSwitchWitness(switches: seq<VirtualSwitch>, pgName: string)
    ensures FreeSwitch(switches, pgName).Ok? ==>
      (exists k :: 0 <= k < |switches| && pgName !in switches[k].portgroup && FreeSwitch(switches, pgName).value == switches[k].name
                   && forall j :: 0 <= j < k ==> pgName in switches[j].portgroup)
  {
    if FreeSwitch(switches, pgName).Ok? {
      FirstDecisionWitness(SwitchFinder(pgName), switches);
      var k :| DecidesFirstAt(SwitchFinder(pgName), switches, k)
               && FirstDecision(SwitchFinder(pgName), switches) == SwitchFinder(pgName)(switches[k]);
      assert forall j :: 0 <= j < k ==> SwitchFinder(pgName)(switches[j]).None?;
    }
  }

  /** `StringUtils.equalsIgnoreCase`: two nulls are equal, a null and a
      string are not. */
  predicate SameIgnoringCase(a: Option<string>, b: Option<string>) {
    (a.None? && b.None?) || (a.Some? && b.Some? && EqualsIgnoreCase(a.value, b.value))
  }

  function ServiceFinder(serviceName: Option<string>): HostService -> Option<HostService> {
    (s: HostService) => if SameIgnoringCase(serviceName, s.key) then Some(s) else None
  }

  /** The first service whose key is serviceName ignoring case. */
  function ServiceLookup(services: seq<HostService>, serviceName: Option<string>): Result<HostService> {
    match FirstDecision(ServiceFinder(serviceName), services)
    case Some(s) => Ok(s)
    case None => Err(HciServer("Cannot find running status of " + VsphereUtil.OrNull(serviceName)))
  }

  /** The lookup fails exactly when no key matches, with HciServerException,
      and otherwise gives the first matching service. */
  lemma ServiceLookupMeaning(services: seq<HostService>, serviceName: Option<string>)
    ensures ServiceLookup(services, serviceName).Err? <==>
      forall k :: 0 <= k < |services| ==> !SameIgnoringCase(serviceName, services[k].key)
    ensures ServiceLookup(services, serviceName).Err? ==>
      ServiceLookup(services, serviceName).fault == HciServer("Cannot find running status of " + VsphereUtil.OrNull(serviceName))
    ensures forall k :: 0 <= k < |services| && SameIgnoringCase(serviceName, services[k].key)
                        && (forall j :: 0 <= j < k ==> !SameIgnoringCase(serviceName, services[j].key)) ==>
      ServiceLookup(services, serviceName) == Ok(services[k])
  {
    FirstDecisionIsFirst(ServiceFinder(serviceName), services);
    forall k | 0 <= k < |services| && SameIgnoringCase(serviceName, services[k].key)
               && (forall j :: 0 <= j < k ==> !SameIgnoringCase(serviceName, services[j].key))
      ensures ServiceLookup(services, serviceName) == Ok(services[k])
    {
      assert DecidesFirstAt(ServiceFinder(serviceName), services, k);
    }
  }

  /** The loop of `getServiceInfo`. */
  method FindService(services: seq<HostService>, serviceName: Option<string>) returns (r: Result<HostService>)
    ensures r == ServiceLookup(services, serviceName)
  {
    var i := 0;
    while i < |services|
      invariant 0 <= i <= |services|
      invariant FirstDecision(ServiceFinder(serviceName), services) == FirstDecision(ServiceFinder(serviceName), services[i..])
    {
      assert services[i..][1..] == services[i + 1..];
      var service := services[i];
      if SameIgnoringCase(serviceName, service.key) {
        return Ok(service);
      }
      i := i + 1;
    }
    return Err(HciServer("Cannot find running status of " + VsphereUtil.OrNull(serviceName)));
  }

  /** `getServiceInfo` on the config manager read: neither the manager nor
      the service list read from its service system is checked for null. */
  function ServiceInfo(cm: Result<Option<ConfigManager>>, readServices: Option<Mor> -> Result<Option<seq<HostService>>>,
                       serviceName: Option<string>): Result<HostService> {
    var c :- Deref(cm);
    var services :- Deref(readServices(c.serviceSystem));
    ServiceLookup(services, serviceName)
  }

  // ---------------------------------------------------------------
  // getHardwareConfiguration
  // ---------------------------------------------------------------

  /** `ProcessorConfiguration`, `StorageConfiguration`,
      `NetworkAdapterConfiguration` and `HardwareConfiguration`. */
  datatype ProcessorConfiguration = ProcessorConfiguration(description: Option<string>)
  datatype StorageConfiguration = StorageConfiguration(
    canonicalName: Option<string>, deviceName: Option<string>, displayName: Option<string>,
    ssd: bool, block: int, blockSize: int)
  datatype NetworkAdapterConfiguration = NetworkAdapterConfiguration(
    nicName: Option<string>, driverName: Option<string>, duplex: bool, speedMb: int,
    deviceName: Option<string>, vendorName: Option<string>)
  datatype HardwareConfiguration = HardwareConfiguration(
    processors: seq<ProcessorConfiguration>, memorySize: int,
    storage: seq<StorageConfiguration>, adapters: seq<NetworkAdapterConfiguration>)

  /** The body of the storage loop for one LUN: skipped unless it is a
      HostScsiDisk; a null capacity or SSD flag throws, and the entry is
      skipped by the catch. */
  function DiskEntry(lun: ScsiLun): Result<Option<StorageConfiguration>> {
    match lun
    case OtherLun(_) => Ok(None)
    case ScsiDisk(capacity, canonicalName, deviceName, displayName, ssd) =>
      if capacity.None? || ssd.None? then Err(NullPointer)
      else Ok(Some(StorageConfiguration(canonicalName, deviceName, displayName, ssd.value,
                                        capacity.value.block, capacity.value.blockSize)))
  }

  function PciFinder(pci: Option<string>): PciDevice -> Option<PciDevice> {
    (d: PciDevice) => if d.id == pci then Some(d) else None
  }

  /** The first PCI device whose id equals pci (`StringUtils.equals`, so a
      null id matches a null pci). */
  function PciMatch(pciDevices: seq<PciDevice>, pci: Option<string>): Option<PciDevice> {
    FirstDecision(PciFinder(pci), pciDevices)
  }

  /** The body of the adapter loop for one NIC: a null link speed throws and
      the NIC is skipped; device and vendor come from the matching PCI device
      and stay null when there is none. */
  function AdapterEntry(pciDevices: seq<PciDevice>, nic: PhysicalNic): (r: Result<Option<NetworkAdapterConfiguration>>)
    ensures r.Ok? <==> nic.linkSpeed.Some?
    ensures r.Err? ==> r.fault == NullPointer
    ensures r.Ok? ==>
      var m := PciMatch(pciDevices, nic.pci);
      r.value.Some? && r.value.value.nicName == nic.device && r.value.value.driverName == nic.driver
      && r.value.value.duplex == nic.linkSpeed.value.duplex && r.value.value.speedMb == nic.linkSpeed.value.speedMb
      && (m.Some? ==> r.value.value.deviceName == m.value.deviceName && r.value.value.vendorName == m.value.vendorName)
      && (m.None? ==> r.value.value.deviceName.None? && r.value.value.vendorName.None?)
  {
    if nic.linkSpeed.None? then Err(NullPointer)
    else
      var m := PciMatch(pciDevices, nic.pci);
      Ok(Some(NetworkAdapterConfiguration(
        nic.device, nic.driver, nic.linkSpeed.value.duplex, nic.linkSpeed.value.speedMb,
        if m.Some? then m.value.deviceName else None, if m.Some? then m.value.vendorName else None)))
  }

  function AdapterStep(pciDevices: seq<PciDevice>): PhysicalNic -> Result<Option<NetworkAdapterConfiguration>> {
    (nic: PhysicalNic) => AdapterEntry(pciDevices, nic)
  }

  /** One processor entry per CPU package, with its description. */
  function ProcessorsOf(cpuPkg: seq<CpuPackage>): (ps: seq<ProcessorConfiguration>)
    ensures |ps| == |cpuPkg|
    ensures forall i :: 0 <= i < |ps| ==> ps[i].description == cpuPkg[i].description
  {
    seq(|cpuPkg|, i requires 0 <= i < |cpuPkg| => ProcessorConfiguration(cpuPkg[i].description))
  }

  /** `getHardwareConfiguration` on the two records read: the hardware record
      is read first and dereferenced; then the config record, its storage
      record and its network record, none of them checked for null. */
  function HardwareOf(hardware: Result<Option<HostHardwareInfo>>, config: Result<Option<HostConfigInfo>>): Result<HardwareConfiguration> {
    var hhi :- Deref(hardware);
    var hci :- Deref(config);
    var storage :- Deref(Ok(hci.storageDevice));
    var network :- Deref(Ok(hci.network));
    Ok(HardwareConfiguration(
      ProcessorsOf(hhi.cpuPkg), hhi.memorySize,
      Collected(DiskEntry, storage.scsiLun), Collected(AdapterStep(hhi.pciDevice), network.pnic)))
  }

  /** Storage entries come only from HostScsiDisk LUNs, and every disk with a
      capacity and an SSD flag gives one, with its names, flag and geometry. */
  lemma StorageEntriesMeaning(luns: seq<ScsiLun>)
    ensures forall e :: e in Collected(DiskEntry, luns) ==>
      exists k :: 0 <= k < |luns| && luns[k].ScsiDisk? && DiskEntry(luns[k]) == Ok(Some(e))
    ensures forall k :: 0 <= k < |luns| && luns[k].ScsiDisk? && luns[k].capacity.Some? && luns[k].ssd.Some? ==>
      StorageConfiguration(luns[k].canonicalName, luns[k].deviceName, luns[k].displayName, luns[k].ssd.value,
                           luns[k].capacity.value.block, luns[k].capacity.value.blockSize) in Collected(DiskEntry, luns)
    ensures |Collected(DiskEntry, luns)| <= |luns|
  {
    CollectedMeaning(DiskEntry, luns);
    forall e | e in Collected(DiskEntry, luns)
      ensures exists k :: 0 <= k < |luns| && luns[k].ScsiDisk? && DiskEntry(luns[k]) == Ok(Some(e))
    {
      var k :| 0 <= k < |luns| && DiskEntry(luns[k]) == Ok(Some(e));
      assert luns[k].ScsiDisk?;
    }
  }

  /** The matching PCI device is absent exactly when no id equals pci, and
      is otherwise the first device whose id does. */
  lemma PciMatchMeaning(pciDevices: seq<PciDevice>, pci: Option<string>)
    ensures PciMatch(pciDevices, pci).None? <==> forall k :: 0 <= k < |pciDevices| ==> pciDevices[k].id != pci
    ensures forall k :: 0 <= k < |pciDevices| && pciDevices[k].id == pci && (forall j :: 0 <= j < k ==> pciDevices[j].id != pci) ==>
      PciMatch(pciDevices, pci) == Some(pciDevices[k])
  {
    FirstDecisionIsFirst(PciFinder(pci), pciDevices);
    forall k | 0 <= k < |pciDevices| && pciDevices[k].id == pci && (forall j :: 0 <= j < k ==> pciDevices[j].id != pci)
      ensures PciMatch(pciDevices, pci) == Some(pciDevices[k])
    {
      assert DecidesFirstAt(PciFinder(pci), pciDevices, k);
    }
  }

  /** Adapter entries come only from NICs with a link speed, each the entry
      of its NIC, and every such NIC gives one; when every NIC has a link
      speed the entries line up with the NICs. */
  lemma AdaptersMeaning(nics: seq<PhysicalNic>, pciDevices: seq<PciDevice>)
    ensures forall a :: a in Collected(AdapterStep(pciDevices), nics) ==>
      exists k :: 0 <= k < |nics| && nics[k].linkSpeed.Some? && AdapterEntry(pciDevices, nics[k]) == Ok(Some(a))
    ensures forall k :: 0 <= k < |nics| && nics[k].linkSpeed.Some? ==>
      AdapterEntry(pciDevices, nics[k]).value.value in Collected(AdapterStep(pciDevices), nics)
    ensures (forall k :: 0 <= k < |nics| ==> nics[k].linkSpeed.Some?) ==>
      |Collected(AdapterStep(pciDevices), nics)| == |nics|
  {
    var step := AdapterStep(pciDevices);
    assert forall k :: 0 <= k < |nics| ==> step(nics[k]) == AdapterEntry(pciDevices, nics[k]);
    CollectedMeaning(step, nics);
  }

  /** The processor loop. */
  method Processors(cpuPkg: seq<CpuPackage>) returns (ps: seq<ProcessorConfiguration>)
    ensures ps == ProcessorsOf(cpuPkg)
  {
    ps := [];
    var i := 0;
    while i < |cpuPkg|
      invariant 0 <= i <= |cpuPkg|
      invariant |ps| == i && forall j :: 0 <= j < i ==> ps[j] == ProcessorConfiguration(cpuPkg[j].description)
    {
      ps := ps + [ProcessorConfiguration(cpuPkg[i].description)];
      i := i + 1;
    }
  }

  /** The storage loop. */
  method StorageEntries(luns: seq<ScsiLun>) returns (entries: seq<StorageConfiguration>)
    ensures entries == Collected(DiskEntry, luns)
  {
    entries := [];
    var i := 0;
    while i < |luns|
      invariant 0 <= i <= |luns|
      invariant entries == Collected(DiskEntry, luns[..i])
    {
      assert luns[..i + 1][..i] == luns[..i];
      var lun := luns[i];
      if lun.ScsiDisk? {
        // a null capacity or SSD flag throws inside the try, and the catch moves on
        if lun.capacity.Some? && lun.ssd.Some? {
          entries := entries + [StorageConfiguration(lun.canonicalName, lun.deviceName, lun.displayName,
                                                     lun.ssd.value, lun.capacity.value.block, lun.capacity.value.blockSize)];
        }
      }
      i := i + 1;
    }
    assert luns[..i] == luns;
  }

  /** The inner PCI loop, which stops at the first match. */
  method MatchPci(pciDevices: seq<PciDevice>, pci: Option<string>) returns (m: Option<PciDevice>)
    ensures m == PciMatch(pciDevices, pci)
  {
    m := None;
    var i := 0;
    while i < |pciDevices|
      invariant 0 <= i <= |pciDevices|
      invariant PciMatch(pciDevices, pci) == PciMatch(pciDevices[i..], pci)
    {
      assert pciDevices[i..][1..] == pciDevices[i + 1..];
      if pciDevices[i].id == pci {
        m := Some(pciDevices[i]);
        break;
      }
      i := i + 1;
    }
  }

  /** The network adapter loop. */
  method NetworkAdapters(nics: seq<PhysicalNic>, pciDevices: seq<PciDevice>) returns (adapters: seq<NetworkAdapterConfiguration>)
    ensures adapters == Collected(AdapterStep(pciDevices), nics)
  {
    adapters := [];
    var i := 0;
    while i < |nics|
      invariant 0 <= i <= |nics|
      invariant adapters == Collected(AdapterStep(pciDevices), nics[..i])
    {
      assert nics[..i + 1][..i] == nics[..i];
      var nic := nics[i];
      assert AdapterStep(pciDevices)(nic) == AdapterEntry(pciDevices, nic);
      // a null link speed throws inside the try, and the catch moves on
      if nic.linkSpeed.Some? {
        var m := MatchPci(pciDevices, nic.pci);
        var deviceName := if m.Some? then m.value.deviceName else None;
        var vendorName := if m.Some? then m.value.vendorName else None;
        adapters := adapters + [NetworkAdapterConfiguration(nic.device, nic.driver, nic.linkSpeed.value.duplex,
                                                            nic.linkSpeed.value.speedMb, deviceName, vendorName)];
      }
      i := i + 1;
    }
    assert nics[..i] == nics;
  }

  // ---------------------------------------------------------------
  // The manager object
  // ---------------------------------------------------------------

  /** A `HostManager`: the address of its host, and the `hostMor` field that
      every lookup of the host reassigns. */
  class HostManager {
    const ipAddress: Option<string>
    var hostMor: Option<Mor>

    constructor(ipAddress: Option<string>)
      ensures this.ipAddress == ipAddress && hostMor == None
    {
      this.ipAddress := ipAddress;
      hostMor := None;
    }

    /** `getHostMor`, given the read of the host inventory. */
    method GetHostMor(hosts: Result<NameMap>) returns (r: Result<Mor>)
      modifies this`hostMor
      ensures HostMorChoice(ipAddress, hosts, r)
      ensures HostMorAfter(hosts, r, old(hostMor), hostMor)
    {
      if hosts.Err? {
        return Err(hosts.fault);
      }
      var hostMap := hosts.value;
      var keyStr: Option<string> := Some("");
      if hostMap != map[] {
        // the first key of the HashMap's iteration, in an unspecified order
        keyStr :| keyStr in hostMap.Keys;
      }
      hostMor := if keyStr in hostMap then Some(hostMap[keyStr]) else None;
      if hostMor.None? {
        return Err(VerificationFailed(Unaccessible(ipAddress)));
      }
      r := Ok(hostMor.value);
    }

    /** `getConfigManager` and `getHostConfigInfo`: look the host up, then
      read one of its properties, swallowing InvalidProperty and
      RuntimeFault. */
    method ReadHostProperty<T>(hosts: Result<NameMap>, read: Mor -> Result<Option<T>>) returns (r: Result<Option<T>>)
      modifies this`hostMor
      ensures exists mor :: HostMorChoice(ipAddress, hosts, mor) && HostMorAfter(hosts, mor, old(hostMor), hostMor)
                            && r == CaughtRead(mor, read)
    {
      var mor := GetHostMor(hosts);
      r := CaughtRead(mor, read);
    }

    /** `updateDns`. */
    method UpdateDns(hosts: Result<NameMap>, readConfigManager: Mor -> Result<Option<ConfigManager>>,
                     dnsServers: Option<seq<string>>, readDns: Mor -> Result<Option<DnsConfig>>, update: Result<()>)
      returns (r: Call<(Mor, DnsConfig)>)
      modifies this`hostMor
      ensures exists mor :: HostMorChoice(ipAddress, hosts, mor) && HostMorAfter(hosts, mor, old(hostMor), hostMor)
                            && r == DnsUpdate(CaughtRead(mor, readConfigManager), dnsServers, readDns, update)
    {
      var cm := ReadHostProperty(hosts, readConfigManager);
      var servers := VsphereUtil.ArrayToVector(dnsServers);
      assert dnsServers.Some? ==> servers == dnsServers.value;
      r := DnsUpdate(cm, dnsServers, readDns, update);
    }

    /** `updateHostName`. */
    method UpdateHostName(hosts: Result<NameMap>, readConfigManager: Mor -> Result<Option<ConfigManager>>,
                          hostName: Option<string>, domainName: Option<string>,
                          readDns: Mor -> Result<Option<DnsConfig>>, update: Result<()>)
      returns (r: Call<(Mor, DnsConfig)>)
      modifies this`hostMor
      ensures exists mor :: HostMorChoice(ipAddress, hosts, mor) && HostMorAfter(hosts, mor, old(hostMor), hostMor)
                            && r == HostNameUpdate(CaughtRead(mor, readConfigManager), hostName, domainName, readDns, update)
    {
      var cm := ReadHostProperty(hosts, readConfigManager);
      r := HostNameUpdate(cm, hostName, domainName, readDns, update);
    }

    /** `updateNtp`. */
    method UpdateNtp(hosts: Result<NameMap>, readConfigManager: Mor -> Result<Option<ConfigManager>>,
                     ntpServers: Option<seq<string>>, update: Result<()>)
      returns (r: Call<(Mor, NtpConfig)>)
      modifies this`hostMor
      ensures exists mor :: HostMorChoice(ipAddress, hosts, mor) && HostMorAfter(hosts, mor, old(hostMor), hostMor)
                            && r == NtpUpdate(CaughtRead(mor, readConfigManager), ntpServers, update)
    {
      var cm := ReadHostProperty(hosts, readConfigManager);
      r := NtpUpdate(cm, ntpServers, update);
    }

    /** `addVirtualSwitchPortGroup`. */
    method AddVirtualSwitchPortGroup(hosts: Result<NameMap>, readConfigManager: Mor -> Result<Option<ConfigManager>>,
                                     pgName: Option<string>, vswName: Option<string>, update: Result<()>)
      returns (r: Call<(Mor, PortGroupSpec)>)
      modifies this`hostMor
      ensures exists mor :: HostMorChoice(ipAddress, hosts, mor) && HostMorAfter(hosts, mor, old(hostMor), hostMor)
                            && r == PortGroupAddition(CaughtRead(mor, readConfigManager), pgName, vswName, update)
    {
      var cm := ReadHostProperty(hosts, readConfigManager);
      r := PortGroupAddition(cm, pgName, vswName, update);
    }

    /** `addManagementIPAddress`. */
    method AddManagementIpAddress(hosts: Result<NameMap>, readConfigManager: Mor -> Result<Option<ConfigManager>>,
                                  address: Option<string>, mask: Option<string>, pgName: Option<string>, update: Result<()>)
      returns (r: Call<(Mor, string, HostNetwork.VnicSpec)>)
      modifies this`hostMor
      ensures exists mor :: HostMorChoice(ipAddress, hosts, mor) && HostMorAfter(hosts, mor, old(hostMor), hostMor)
                            && r == ManagementAddressAddition(CaughtRead(mor, readConfigManager), address, mask, pgName, update)
    {
      var cm := ReadHostProperty(hosts, readConfigManager);
      r := ManagementAddressAddition(cm, address, mask, pgName, update);
    }

    /** `updateDefaultGateway`: a blank gateway is refused before the host is
      looked up, so `hostMor` is left alone. */
    method UpdateDefaultGateway(gateway: Option<string>, hosts: Result<NameMap>,
                                readConfigManager: Mor -> Result<Option<ConfigManager>>,
                                readRoute: Option<Mor> -> Result<Option<IpRouteConfig>>, update: Result<()>)
      returns (r: Call<(Option<Mor>, IpRouteConfig)>)
      modifies this`hostMor
      ensures IsBlank(gateway) ==> hostMor == old(hostMor) && r == Call(None, Err(IllegalArgument("gateway is empty")))
      ensures !IsBlank(gateway) ==>
        exists mor :: HostMorChoice(ipAddress, hosts, mor) && HostMorAfter(hosts, mor, old(hostMor), hostMor)
                      && r == GatewayUpdate(gateway, CaughtRead(mor, readConfigManager), readRoute, update)
    {
      if IsBlank(gateway) {
        return Call(None, Err(IllegalArgument("gateway is empty")));
      }
      var cm := ReadHostProperty(hosts, readConfigManager);
      r := GatewayUpdate(gateway, cm, readRoute, update);
    }

    /** `getValidVirtualSwitch`. */
    method GetValidVirtualSwitch(hosts: Result<NameMap>, readConfig: Mor -> Result<Option<HostConfigInfo>>,
                                 pgName: Option<string>) returns (r: Result<Option<string>>)
      modifies this`hostMor
      ensures exists mor :: HostMorChoice(ipAddress, hosts, mor) && HostMorAfter(hosts, mor, old(hostMor), hostMor)
                            && r == ValidVirtualSwitch(CaughtRead(mor, readConfig), pgName)
    {
      var config := ReadHostProperty(hosts, readConfig);
      if config.Err? {
        return Err(config.fault);
      }
      if config.value.None? {
        return Err(IllegalArgument("HostConfigInfo is null"));
      }
      if IsNullOrEmpty(pgName) {
        return Err(IllegalArgument("PortGroup name is empty"));
      }
      var network := config.value.value.network;
      if network.None? {
        return Err(NullPointer);
      }
      if network.value.vswitch.None? {
        return Err(IllegalArgument("Virtual switch list is empty"));
      }
      r := FindFreeSwitch(network.value.vswitch.value, pgName.value);
    }

    /** `getServiceInfo`. */
    method GetServiceInfo(hosts: Result<NameMap>, readConfigManager: Mor -> Result<Option<ConfigManager>>,
                          readServices: Option<Mor> -> Result<Option<seq<HostService>>>, serviceName: Option<string>)
      returns (r: Result<HostService>)
      modifies this`hostMor
      ensures exists mor :: HostMorChoice(ipAddress, hosts, mor) && HostMorAfter(hosts, mor, old(hostMor), hostMor)
                            && r == ServiceInfo(CaughtRead(mor, readConfigManager), readServices, serviceName)
    {
      var cm := ReadHostProperty(hosts, readConfigManager);
      var c := Deref(cm);
      if c.Err? {
        return Err(c.fault);
      }
      var services := Deref(readServices(c.value.serviceSystem));
      if services.Err? {
        return Err(services.fault);
      }
      r := FindService(services.value, serviceName);
    }

    /** `getHardwareConfiguration`: the host is looked up once for the
      hardware record and again for the config record. */
    method GetHardwareConfiguration(hosts: Result<NameMap>, readHardware: Mor -> Result<Option<HostHardwareInfo>>,
                                    readConfig: Mor -> Result<Option<HostConfigInfo>>)
      returns (r: Result<HardwareConfiguration>)
      modifies this`hostMor
      // the field holds the last lookup made: the second one, unless the
      // hardware read already failed
      ensures exists mor1, mor2 :: HostMorChoice(ipAddress, hosts, mor1) && HostMorChoice(ipAddress, hosts, mor2)
                                   && r == HardwareOf(HardwareRead(mor1, readHardware), CaughtRead(mor2, readConfig))
                                   && HostMorAfter(hosts, if Deref(HardwareRead(mor1, readHardware)).Err? then mor1 else mor2,
                                                   old(hostMor), hostMor)
      ensures hosts.Err? ==> hostMor == old(hostMor)
    {
      var mor1 := GetHostMor(hosts);
      var hardware := Deref(HardwareRead(mor1, readHardware));
      if hardware.Err? {
        HostMorChoiceExists(ipAddress, hosts);
        ghost var other :| HostMorChoice(ipAddress, hosts, other);
        assert HostMorAfter(hosts, mor1, old(hostMor), hostMor);
        return Err(hardware.fault);
      }
      var hhi := hardware.value;
      var processors := Processors(hhi.cpuPkg);
      ghost var between := hostMor;
      var config := ReadHostProperty(hosts, readConfig);
      ghost var mor2 :| HostMorChoice(ipAddress, hosts, mor2) && HostMorAfter(hosts, mor2, between, hostMor)
                        && config == CaughtRead(mor2, readConfig);
      assert HostMorAfter(hosts, mor2, old(hostMor), hostMor);
      var hci := Deref(config);
      if hci.Err? {
        return Err(hci.fault);
      }
      if hci.value.storageDevice.None? || hci.value.network.None? {
        return Err(NullPointer);
      }
      var storage := StorageEntries(hci.value.storageDevice.value.scsiLun);
      var adapters := NetworkAdapters(hci.value.network.value.pnic, hhi.pciDevice);
      r := Ok(HardwareConfiguration(processors, hhi.memorySize, storage, adapters));
    }
  }
}
