/**
 * `VsphereService`: the entry points that deploy a vCenter appliance and
 * then configure it. Modelled here: the input validation and defaulting
 * of `deployVcenter`, the collection of configuration errors in
 * `checkAddHostsInput`, the progress share each step of a run is given,
 * and the error policy of `addHostToVc`, which walks the hosts one by one.
 * The remote steps themselves are inputs: each host's outcome is given.
 */
module VsphereService {
  import opened JavaLang
  import opened HciTypes
  import InputVcConfiguration
  import ConfigProgress

  // ---------------------------------------------------------------------
  // deployVcenter: validation and defaulting
  // ---------------------------------------------------------------------

  const NO_TARGET := "IP address or host name is not provided."
  const NO_ESX_USER := "Username of ESXi server is not provided."
  const NO_ESX_PASSWORD := "Password of ESXi server is not provided."
  const NO_ISO_PATH := "Location of VCSA installer is not provided."
  const NO_MOUNT_POINT := "Mount point is not provided"
  const NO_VM_NAME := "VCSA VM name is not provided."
  const NO_VC_PASSWORD := "VCenter password  is not provided."
  const NO_VC_IP := "VC ip is not provided."
  const NO_VC_GATEWAY := "VC gateway is not provided."
  const NO_VC_DNS := "VC DNS server is not provided."
  const NEGATIVE_START := "Start of progress should not less than 0"
  const END_ABOVE_100 := "End of progress should not larger than 100"
  const END_BEFORE_START := "End of progress should larger than start"

  const DEFAULT_DATASTORE := "datastore1"
  const DEFAULT_IP_FAMILY := "ipv4"
  const DEFAULT_MODE := "static"
  const DEFAULT_PREFIX := "24"

  function PrefixNotNumber(prefix: string): string { "Prefix " + prefix + " is not a number" }
  function PrefixOutOfRange(prefix: string): string { "Prefix " + prefix + " must between 1~32" }

  /** `VcJsonInput`: the appliance settings the client sends. */
  datatype VcJsonInput = VcJsonInput(
    vmName: Option<string>, password: Option<string>, ipFamily: Option<string>, mode: Option<string>,
    prefix: Option<string>, ip: Option<string>, gateway: Option<string>, dnsServer: Option<string>,
    dnsAlternateServer: Option<string>, systemName: Option<string>)

  /** `VcInstallerInfo`: what the installer is given. */
  datatype VcInstallerInfo = VcInstallerInfo(
    esxHostname: Option<string>, esxDatastore: Option<string>, esxUsername: Option<string>, esxPassword: Option<string>,
    deploymentOption: string, deploymentNetwork: string, applianceName: Option<string>, applianceThinDiskMode: bool,
    vcRootPassword: Option<string>, vcSshEnabled: bool, vcSsoPassword: Option<string>,
    vcSsoDomainName: string, vcSsoSiteName: string,
    vcNWIpFamily: Option<string>, vcNWMode: Option<string>, vcNWIp: Option<string>, vcNWPrefix: Option<string>,
    vcNWGateway: Option<string>, vcNWDnsServer: Option<string>, vcNWDnsAlternateServer: Option<string>,
    vcNWSystemName: Option<string>, vcIsoPath: string, vcMntPath: string)

  /** A value decided by one group of checks, with the messages the group
      appended on the way. */
  datatype Checked<T> = Checked(errors: seq<string>, value: T)

  /** The ESXi target as the code is written: the both-blank test names the
      IP address twice, so a blank IP is refused even with a host name, and
      the IP branch after it is unreachable, so any other IP gives way to
      the trimmed host name. */
  function EsxTargetAsWritten(hostInfo: HostInfo): (c: Checked<Option<string>>)
    ensures c.errors == MessageIf(IsBlank(hostInfo.ipAddress), NO_TARGET)
    ensures !IsBlank(hostInfo.ipAddress) ==> c.value == Trim(hostInfo.hostName)
  {
    if IsBlank(hostInfo.ipAddress) && IsBlank(hostInfo.ipAddress) then Checked([NO_TARGET], Some(""))
    else if IsBlank(hostInfo.ipAddress) then Checked([], Trim(hostInfo.ipAddress))
    else Checked([], Trim(hostInfo.hostName))
  }

  /** The ESXi target as its comment says it should be chosen: either the
      IP address or the host name must be given, and the IP address wins
      when both are. */
  function EsxTarget(hostInfo: HostInfo): (c: Checked<Option<string>>)
    ensures c.errors != [] <==> IsBlank(hostInfo.ipAddress) && IsBlank(hostInfo.hostName)
    ensures c.errors == MessageIf(c.errors != [], NO_TARGET)
    ensures !IsBlank(hostInfo.ipAddress) ==> c.value == Trim(hostInfo.ipAddress)
    ensures IsBlank(hostInfo.ipAddress) && !IsBlank(hostInfo.hostName) ==> c.value == Trim(hostInfo.hostName)
  {
    if IsBlank(hostInfo.ipAddress) && IsBlank(hostInfo.hostName) then Checked([NO_TARGET], Some(""))
    else if !IsBlank(hostInfo.ipAddress) then Checked([], Trim(hostInfo.ipAddress))
    else Checked([], Trim(hostInfo.hostName))
  }

  /** The written test refuses a host given by name only, which the
      intended test accepts, and passes over a given IP address. */
  lemma EsxTargetDiscrepancy()
    ensures EsxTargetAsWritten(HostInfo(None, Some("esx-01"), Some("root"), Some("secret"))).errors == [NO_TARGET]
    ensures EsxTarget(HostInfo(None, Some("esx-01"), Some("root"), Some("secret"))).errors == []
    ensures EsxTargetAsWritten(HostInfo(Some("10.0.0.1"), None, Some("root"), Some("secret"))) == Checked([], None)
    ensures EsxTarget(HostInfo(Some("10.0.0.1"), None, Some("root"), Some("secret"))) == Checked([], Some("10.0.0.1"))
  {
    assert !IsWhitespace("esx-01"[0]);
    assert !IsWhitespace("10.0.0.1"[0]);
    TrimCharsFixed("10.0.0.1");
  }

  /** The prefix as the code is written: a blank prefix becomes "24", and
      a prefix that does not parse is refused. The range test asks for a
      value below 0 and above 32 at once, so it never refuses anything. */
  function PrefixAsWritten(prefix: Option<string>): (c: Checked<string>)
    ensures IsBlank(Trim(prefix)) ==> c == Checked([], DEFAULT_PREFIX)
    ensures !IsBlank(Trim(prefix)) ==> c.value == Trim(prefix).value
    ensures c.errors != [] <==> !IsBlank(Trim(prefix)) && ParseInt(Trim(prefix)).Err?
  {
    var p := Trim(prefix);
    if IsBlank(p) then Checked([], DEFAULT_PREFIX)
    else
      var parsed := ParseInt(p);
      var prefixInt := if parsed.Ok? then parsed.value else 24;
      var notNumber := MessageIf(parsed.Err?, PrefixNotNumber(p.value));
      Checked(notNumber + MessageIf(prefixInt < 0 && prefixInt > 32, PrefixOutOfRange(p.value)), p.value)
  }

  /** The prefix as its comment says it should be checked: a number that
      is not between 0 and 32 is refused as well. */
  function PrefixChecked(prefix: Option<string>): (c: Checked<string>)
    ensures IsBlank(Trim(prefix)) ==> c == Checked([], DEFAULT_PREFIX)
    ensures !IsBlank(Trim(prefix)) ==> c.value == Trim(prefix).value
    ensures c.errors == [] <==>
      IsBlank(Trim(prefix)) || (ParseInt(Trim(prefix)).Ok? && 0 <= ParseInt(Trim(prefix)).value <= 32)
    ensures |c.errors| <= 1
  {
    var p := Trim(prefix);
    if IsBlank(p) then Checked([], DEFAULT_PREFIX)
    else
      var parsed := ParseInt(p);
      var prefixInt := if parsed.Ok? then parsed.value else 24;
      var notNumber := MessageIf(parsed.Err?, PrefixNotNumber(p.value));
      Checked(notNumber + MessageIf(prefixInt < 0 || prefixInt > 32, PrefixOutOfRange(p.value)), p.value)
  }

  /** A prefix of 40 passes the written test; the intended test refuses it. */
  lemma PrefixDiscrepancy()
    ensures PrefixAsWritten(Some("40")).errors == []
    ensures PrefixChecked(Some("40")).errors == [PrefixOutOfRange("40")]
  {
    assert !IsWhitespace("40"[0]);
    TrimCharsFixed("40");
    FortyParses("40");
  }

  lemma FortyParses(s: string)
    requires s == "40"
    ensures ParseInt(Some(s)) == Ok(40)
  {
    assert AllDigits(s);
    assert s[..1] == "4";
    assert DigitsValue(s[..1]) == 4;
  }

  /** The ESXi target under either reading of its test. */
  function TargetOf(reading: Reading, hostInfo: HostInfo): Checked<Option<string>> {
    if reading.AsWritten? then EsxTargetAsWritten(hostInfo) else EsxTarget(hostInfo)
  }

  /** The prefix under either reading of its range test. */
  function PrefixOf(reading: Reading, prefix: Option<string>): Checked<string> {
    if reading.AsWritten? then PrefixAsWritten(prefix) else PrefixChecked(prefix)
  }

  /** A target is named: as written, only a given IP address counts. */
  predicate TargetNamed(reading: Reading, hostInfo: HostInfo) {
    !IsBlank(hostInfo.ipAddress) || (reading.Intended? && !IsBlank(hostInfo.hostName))
  }

  /** A given prefix is accepted: it must be a number, and as intended
      also one from 0 to 32. */
  predicate PrefixAccepted(reading: Reading, prefix: Option<string>) {
    IsBlank(Trim(prefix))
    || (ParseInt(Trim(prefix)).Ok? && (reading.AsWritten? || 0 <= ParseInt(Trim(prefix)).value <= 32))
  }

  /** The checks of the ESXi host, in order: the target, the user name,
      the password. */
  function EsxHostErrors(reading: Reading, hostInfo: HostInfo): (errs: seq<string>)
    ensures errs == [] <==>
      TargetNamed(reading, hostInfo) && !IsBlank(hostInfo.userName) && !IsBlank(hostInfo.password)
  {
    TargetOf(reading, hostInfo).errors
    + MessageIf(IsBlank(hostInfo.userName), NO_ESX_USER)
    + MessageIf(IsBlank(hostInfo.password), NO_ESX_PASSWORD)
  }

  /** The checks of the installer's ISO path and mount point, both trimmed. */
  function InstallerPathErrors(vcPath: string, mntPath: string): (errs: seq<string>)
    ensures errs == [] <==> !IsBlank(Some(TrimChars(vcPath))) && !IsBlank(Some(TrimChars(mntPath)))
  {
    MessageIf(IsBlank(Some(TrimChars(vcPath))), NO_ISO_PATH)
    + MessageIf(IsBlank(Some(TrimChars(mntPath))), NO_MOUNT_POINT)
  }

  /** The checks of the appliance settings, in order. */
  function ApplianceErrors(reading: Reading, vcJson: VcJsonInput): (errs: seq<string>)
    ensures errs == [] <==>
      !IsBlank(vcJson.vmName) && !IsBlank(vcJson.password)
      && PrefixAccepted(reading, vcJson.prefix)
      && !IsBlank(vcJson.ip) && !IsBlank(vcJson.gateway) && !IsBlank(vcJson.dnsServer)
  {
    MessageIf(IsBlank(vcJson.vmName), NO_VM_NAME)
    + MessageIf(IsBlank(vcJson.password), NO_VC_PASSWORD)
    + PrefixOf(reading, vcJson.prefix).errors
    + VcNetworkErrors(vcJson)
  }

  /** The checks of the appliance's IP address, gateway and DNS server. */
  function VcNetworkErrors(vcJson: VcJsonInput): (errs: seq<string>)
    ensures errs == [] <==> !IsBlank(vcJson.ip) && !IsBlank(vcJson.gateway) && !IsBlank(vcJson.dnsServer)
  {
    MessageIf(IsBlank(vcJson.ip), NO_VC_IP)
    + MessageIf(IsBlank(vcJson.gateway), NO_VC_GATEWAY)
    + MessageIf(IsBlank(vcJson.dnsServer), NO_VC_DNS)
  }

  /** The checks of the progress span; each bound has its own message. */
  function ProgressErrors(startProgress: int, endProgress: int): (errs: seq<string>)
    ensures errs == [] <==> 0 <= startProgress <= endProgress <= 100
    ensures |errs| == (if startProgress < 0 then 1 else 0) + (if endProgress > 100 then 1 else 0)
                      + (if startProgress > endProgress then 1 else 0)
  {
    MessageIf(startProgress < 0, NEGATIVE_START)
    + MessageIf(endProgress > 100, END_ABOVE_100)
    + MessageIf(startProgress > endProgress, END_BEFORE_START)
  }

  /** Every message `deployVcenter` appends, in the order it appends them. */
  function DeployErrors(reading: Reading, hostInfo: HostInfo, vcPath: string, mntPath: string, vcJson: VcJsonInput,
                        startProgress: int, endProgress: int): seq<string>
  {
    EsxHostErrors(reading, hostInfo) + InstallerPathErrors(vcPath, mntPath) + ApplianceErrors(reading, vcJson)
    + ProgressErrors(startProgress, endProgress)
  }

  /** `deployVcenter` finds nothing to complain about exactly when the
      credentials, paths and appliance settings are given, the progress
      span lies within 0..100, and: as written, an IP address is given and
      a given prefix is a number; as intended, an IP address or a host
      name is given and a given prefix is a number from 0 to 32. */
  lemma DeployErrorsEmpty(reading: Reading, hostInfo: HostInfo, vcPath: string, mntPath: string, vcJson: VcJsonInput,
                          startProgress: int, endProgress: int)
    ensures DeployErrors(reading, hostInfo, vcPath, mntPath, vcJson, startProgress, endProgress) == [] <==>
      (if reading.AsWritten? then !IsBlank(hostInfo.ipAddress)
       else !IsBlank(hostInfo.ipAddress) || !IsBlank(hostInfo.hostName))
      && !IsBlank(hostInfo.userName) && !IsBlank(hostInfo.password)
      && !IsBlank(Some(TrimChars(vcPath))) && !IsBlank(Some(TrimChars(mntPath)))
      && !IsBlank(vcJson.vmName) && !IsBlank(vcJson.password)
      && (IsBlank(Trim(vcJson.prefix))
          || (ParseInt(Trim(vcJson.prefix)).Ok?
              && (reading.AsWritten? || 0 <= ParseInt(Trim(vcJson.prefix)).value <= 32)))
      && !IsBlank(vcJson.ip) && !IsBlank(vcJson.gateway) && !IsBlank(vcJson.dnsServer)
      && 0 <= startProgress <= endProgress <= 100
  {
    var a := EsxHostErrors(reading, hostInfo);
    var b := InstallerPathErrors(vcPath, mntPath);
    var c := ApplianceErrors(reading, vcJson);
    var d := ProgressErrors(startProgress, endProgress);
    assert |a + b + c + d| == |a| + |b| + |c| + |d|;
  }

  /** The text of a `StringBuilder` the messages were appended to. */
  function Concat(ms: seq<string>): string {
    if |ms| == 0 then "" else Concat(ms[..|ms| - 1]) + ms[|ms| - 1]
  }

  /** The error text holds the messages appended so far, and is empty
      exactly while there are none. */
  ghost predicate Holds(errorMsg: string, errs: seq<string>) {
    errorMsg == Concat(errs) && (|errorMsg| == 0 <==> errs == [])
  }

  /** `errorMsg.append(msg)`. */
  method Append(errorMsg: string, ghost errs: seq<string>, msg: string) returns (e: string, ghost es: seq<string>)
    requires Holds(errorMsg, errs) && |msg| > 0
    ensures Holds(e, es) && es == errs + [msg]
  {
    e := errorMsg + msg;
    es := errs + [msg];
    assert es[..|es| - 1] == errs;
  }

  /** `if (fails) errorMsg.append(msg)`. */
  method AppendIf(fails: bool, msg: string, errorMsg: string, ghost errs: seq<string>) returns (e: string, ghost es: seq<string>)
    requires Holds(errorMsg, errs) && |msg| > 0
    ensures Holds(e, es) && es == errs + MessageIf(fails, msg)
  {
    e, es := errorMsg, errs;
    if fails {
      e, es := Append(e, es, msg);
    }
  }

  /** The ESXi host part of `deployVcenter`: the target and the
      credentials. */
  method CheckEsxHost(reading: Reading, hostInfo: HostInfo, errorMsg: string, ghost errs: seq<string>)
    returns (targetEsx: Option<string>, e: string, ghost es: seq<string>)
    requires Holds(errorMsg, errs)
    ensures Holds(e, es) && es == errs + EsxHostErrors(reading, hostInfo)
    ensures targetEsx == TargetOf(reading, hostInfo).value
  {
    e, es := errorMsg, errs;
    targetEsx := Some("");
    if reading.AsWritten? {
      // `isBlank(ip) & isBlank(ip)`: the IP address is tested twice
      if IsBlank(hostInfo.ipAddress) && IsBlank(hostInfo.ipAddress) {
        e, es := Append(e, es, NO_TARGET);
      } else if IsBlank(hostInfo.ipAddress) {
        targetEsx := Trim(hostInfo.ipAddress);
      } else {
        targetEsx := Trim(hostInfo.hostName);
      }
    } else {
      if IsBlank(hostInfo.ipAddress) && IsBlank(hostInfo.hostName) {
        e, es := Append(e, es, NO_TARGET);
      } else if !IsBlank(hostInfo.ipAddress) {
        targetEsx := Trim(hostInfo.ipAddress);
      } else {
        targetEsx := Trim(hostInfo.hostName);
      }
    }
    ghost var m1 := TargetOf(reading, hostInfo).errors;
    ghost var m2 := MessageIf(IsBlank(hostInfo.userName), NO_ESX_USER);
    ghost var m3 := MessageIf(IsBlank(hostInfo.password), NO_ESX_PASSWORD);
    assert es == errs + m1;
    e, es := AppendIf(IsBlank(hostInfo.userName), NO_ESX_USER, e, es);
    AppendAssoc(errs, m1, m2);
    e, es := AppendIf(IsBlank(hostInfo.password), NO_ESX_PASSWORD, e, es);
    AppendAssoc(errs, m1 + m2, m3);
  }

  /** The prefix part of `deployVcenter`: a blank prefix becomes "24",
      any other must be a number; the range test asks, as written, for a
      value below 0 and above 32 at once, as intended for one below 0 or
      above 32. */
  method CheckPrefix(reading: Reading, vcPrefix: Option<string>, errorMsg: string, ghost errs: seq<string>)
    returns (prefix: Option<string>, e: string, ghost es: seq<string>)
    requires Holds(errorMsg, errs)
    ensures Holds(e, es) && es == errs + PrefixOf(reading, vcPrefix).errors
    ensures prefix == Some(PrefixOf(reading, vcPrefix).value)
  {
    e, es := errorMsg, errs;
    prefix := Trim(vcPrefix);
    if IsBlank(prefix) {
      prefix := Some(DEFAULT_PREFIX);
    } else {
      var prefixInt := 24;
      var parsed := ParseInt(prefix);
      if parsed.Err? {
        e, es := Append(e, es, PrefixNotNumber(prefix.value));
      } else {
        prefixInt := parsed.value;
      }
      assert es == errs + MessageIf(parsed.Err?, PrefixNotNumber(prefix.value));
      var outOfRange := if reading.AsWritten? then prefixInt < 0 && prefixInt > 32 else prefixInt < 0 || prefixInt > 32;
      e, es := AppendIf(outOfRange, PrefixOutOfRange(prefix.value), e, es);
      assert es == errs + MessageIf(parsed.Err?, PrefixNotNumber(prefix.value))
                   + MessageIf(outOfRange, PrefixOutOfRange(prefix.value));
    }
  }

  /** The appliance part of `deployVcenter`: its name, password and
      network settings, with the IP family, mode and prefix defaulted. */
  method CheckAppliance(reading: Reading, vcJson: VcJsonInput, errorMsg: string, ghost errs: seq<string>)
    returns (ipFamily: Option<string>, mode: Option<string>, prefix: Option<string>, e: string, ghost es: seq<string>)
    requires Holds(errorMsg, errs)
    ensures Holds(e, es) && es == errs + ApplianceErrors(reading, vcJson)
    ensures ipFamily == InputVcConfiguration.DefaultIfBlank(Trim(vcJson.ipFamily), DEFAULT_IP_FAMILY)
    ensures mode == InputVcConfiguration.DefaultIfBlank(Trim(vcJson.mode), DEFAULT_MODE)
    ensures prefix == Some(PrefixOf(reading, vcJson.prefix).value)
  {
    e, es := errorMsg, errs;
    ghost var m1 := MessageIf(IsBlank(vcJson.vmName), NO_VM_NAME);
    ghost var m2 := MessageIf(IsBlank(vcJson.password), NO_VC_PASSWORD);
    ghost var m3 := PrefixOf(reading, vcJson.prefix).errors;
    ghost var m4 := VcNetworkErrors(vcJson);
    e, es := AppendIf(IsBlank(vcJson.vmName), NO_VM_NAME, e, es);
    assert es == errs + m1;
    e, es := AppendIf(IsBlank(vcJson.password), NO_VC_PASSWORD, e, es);
    AppendAssoc(errs, m1, m2);
    assert es == errs + (m1 + m2);
    ipFamily := InputVcConfiguration.DefaultName(Trim(vcJson.ipFamily), DEFAULT_IP_FAMILY);
    mode := InputVcConfiguration.DefaultName(Trim(vcJson.mode), DEFAULT_MODE);
    prefix, e, es := CheckPrefix(reading, vcJson.prefix, e, es);
    AppendAssoc(errs, m1 + m2, m3);
    assert es == errs + (m1 + m2 + m3);
    e, es := CheckVcNetwork(vcJson, e, es);
    AppendAssoc(errs, m1 + m2 + m3, m4);
  }

  /** The appliance network part of `deployVcenter`. */
  method CheckVcNetwork(vcJson: VcJsonInput, errorMsg: string, ghost errs: seq<string>)
    returns (e: string, ghost es: seq<string>)
    requires Holds(errorMsg, errs)
    ensures Holds(e, es) && es == errs + VcNetworkErrors(vcJson)
  {
    ghost var m1 := MessageIf(IsBlank(vcJson.ip), NO_VC_IP);
    ghost var m2 := MessageIf(IsBlank(vcJson.gateway), NO_VC_GATEWAY);
    ghost var m3 := MessageIf(IsBlank(vcJson.dnsServer), NO_VC_DNS);
    e, es := AppendIf(IsBlank(vcJson.ip), NO_VC_IP, errorMsg, errs);
    e, es := AppendIf(IsBlank(vcJson.gateway), NO_VC_GATEWAY, e, es);
    AppendAssoc(errs, m1, m2);
    e, es := AppendIf(IsBlank(vcJson.dnsServer), NO_VC_DNS, e, es);
    AppendAssoc(errs, m1 + m2, m3);
  }

  /** The progress part of `deployVcenter`: the span must lie within
      0..100. */
  method CheckProgressSpan(startProgress: int, endProgress: int, errorMsg: string, ghost errs: seq<string>)
    returns (e: string, ghost es: seq<string>)
    requires Holds(errorMsg, errs)
    ensures Holds(e, es) && es == errs + ProgressErrors(startProgress, endProgress)
  {
    e, es := errorMsg, errs;
    ghost var m1 := MessageIf(startProgress < 0, NEGATIVE_START);
    ghost var m2 := MessageIf(endProgress > 100, END_ABOVE_100);
    ghost var m3 := MessageIf(startProgress > endProgress, END_BEFORE_START);
    if startProgress < 0 {
      e, es := Append(e, es, NEGATIVE_START);
    }
    assert es == errs + m1;
    if endProgress > 100 {
      e, es := Append(e, es, END_ABOVE_100);
    }
    AppendAssoc(errs, m1, m2);
    if startProgress > endProgress {
      e, es := Append(e, es, END_BEFORE_START);
    }
    AppendAssoc(errs, m1 + m2, m3);
  }

  /** Every check of `deployVcenter`, in order, once both paths are given:
      the message text and the values the checks settle. */
  method CheckInputs(reading: Reading, hostInfo: HostInfo, vcIsoPath: string, vcMntPath: string,
                     vcJson: VcJsonInput, startProgress: int, endProgress: int)
    returns (targetEsx: Option<string>, ipFamily: Option<string>, mode: Option<string>, prefix: Option<string>,
             errorMsg: string, ghost errs: seq<string>)
    ensures Holds(errorMsg, errs)
    ensures errs == DeployErrors(reading, hostInfo, vcIsoPath, vcMntPath, vcJson, startProgress, endProgress)
    ensures targetEsx == TargetOf(reading, hostInfo).value
    ensures ipFamily == InputVcConfiguration.DefaultIfBlank(Trim(vcJson.ipFamily), DEFAULT_IP_FAMILY)
    ensures mode == InputVcConfiguration.DefaultIfBlank(Trim(vcJson.mode), DEFAULT_MODE)
    ensures prefix == Some(PrefixOf(reading, vcJson.prefix).value)
  {
    errorMsg := "";
    errs := [];
    targetEsx, errorMsg, errs := CheckEsxHost(reading, hostInfo, errorMsg, errs);
    ghost var m1 := EsxHostErrors(reading, hostInfo);
    ghost var m2 := MessageIf(IsBlank(Some(TrimChars(vcIsoPath))), NO_ISO_PATH);
    ghost var m3 := MessageIf(IsBlank(Some(TrimChars(vcMntPath))), NO_MOUNT_POINT);
    errorMsg, errs := AppendIf(IsBlank(Some(TrimChars(vcIsoPath))), NO_ISO_PATH, errorMsg, errs);
    errorMsg, errs := AppendIf(IsBlank(Some(TrimChars(vcMntPath))), NO_MOUNT_POINT, errorMsg, errs);
    AppendAssoc(m1, m2, m3);
    ghost var hostAndPaths := m1 + InstallerPathErrors(vcIsoPath, vcMntPath);
    assert errs == hostAndPaths;
    ipFamily, mode, prefix, errorMsg, errs := CheckAppliance(reading, vcJson, errorMsg, errs);
    errorMsg, errs := CheckProgressSpan(startProgress, endProgress, errorMsg, errs);
  }

  /** `deployVcenter` up to the installer call: every failed check adds its
      message to one error text, blank settings take their defaults, and
      a single HciClientException carries the whole text when any check
      failed; only otherwise is the installer information built. The ISO
      path and mount point are trimmed with `String.trim` and so must not
      be null. `reading` says whether the target and prefix tests are
      taken as they are written or as intended. */
  method DeployVcenter(reading: Reading, hostInfo: HostInfo, vcIsoPath: Option<string>, vcMntPath: Option<string>,
                       datastoreName: Option<string>, vcJson: VcJsonInput, startProgress: int, endProgress: int)
    returns (r: Result<VcInstallerInfo>)
    ensures vcIsoPath.None? || vcMntPath.None? ==> r == Err(NullPointer)
    ensures r.Ok? <==>
      vcIsoPath.Some? && vcMntPath.Some?
      && DeployErrors(reading, hostInfo, vcIsoPath.value, vcMntPath.value, vcJson, startProgress, endProgress) == []
    ensures vcIsoPath.Some? && vcMntPath.Some? && r.Err? ==>
      r == Err(HciClient(Concat(DeployErrors(reading, hostInfo, vcIsoPath.value, vcMntPath.value, vcJson, startProgress, endProgress))))
    ensures r.Ok? ==>
      var info := r.value;
      info.esxHostname == TargetOf(reading, hostInfo).value
      && info.esxDatastore == InputVcConfiguration.DefaultIfBlank(Trim(datastoreName), DEFAULT_DATASTORE)
      && info.esxUsername == hostInfo.userName && info.esxPassword == hostInfo.password
      && info.deploymentOption == "small" && info.deploymentNetwork == "VM Network"
      && info.applianceName == vcJson.vmName && info.applianceThinDiskMode
      && info.vcRootPassword == vcJson.password && info.vcSsoPassword == vcJson.password && info.vcSshEnabled
      && info.vcSsoDomainName == "vsphere.local" && info.vcSsoSiteName == "Default-First-Site"
      && info.vcNWIpFamily == InputVcConfiguration.DefaultIfBlank(Trim(vcJson.ipFamily), DEFAULT_IP_FAMILY)
      && info.vcNWMode == InputVcConfiguration.DefaultIfBlank(Trim(vcJson.mode), DEFAULT_MODE)
      && info.vcNWPrefix == Some(PrefixOf(reading, vcJson.prefix).value)
      && info.vcNWIp == vcJson.ip && info.vcNWGateway == vcJson.gateway && info.vcNWDnsServer == vcJson.dnsServer
      && info.vcNWDnsAlternateServer == vcJson.dnsAlternateServer && info.vcNWSystemName == vcJson.systemName
      && info.vcIsoPath == TrimChars(vcIsoPath.value) && info.vcMntPath == TrimChars(vcMntPath.value)
    // the defaulted settings are never blank
    ensures r.Ok? ==>
      !IsBlank(r.value.esxDatastore) && !IsBlank(r.value.vcNWIpFamily) && !IsBlank(r.value.vcNWMode)
      && !IsBlank(r.value.vcNWPrefix)
  {
    // `vcIsoPath.trim()` and `vcMntPath.trim()` throw before anything
    // else can be observed
    if vcIsoPath.None? || vcMntPath.None? {
      return Err(NullPointer);
    }
    var dsName := InputVcConfiguration.DefaultName(Trim(datastoreName), DEFAULT_DATASTORE);
    var vcPath := TrimChars(vcIsoPath.value);
    var mntPath := TrimChars(vcMntPath.value);
    var targetEsx, ipFamily, mode, prefix, errorMsg;
    ghost var errs;
    targetEsx, ipFamily, mode, prefix, errorMsg, errs :=
      CheckInputs(reading, hostInfo, vcIsoPath.value, vcMntPath.value, vcJson, startProgress, endProgress);

    if |errorMsg| > 0 {
      return Err(HciClient(errorMsg));
    }

    DefaultsNotBlank();
    InputVcConfiguration.DefaultIfBlankSettles(Trim(datastoreName), DEFAULT_DATASTORE);
    InputVcConfiguration.DefaultIfBlankSettles(Trim(vcJson.ipFamily), DEFAULT_IP_FAMILY);
    InputVcConfiguration.DefaultIfBlankSettles(Trim(vcJson.mode), DEFAULT_MODE);
    r := Ok(VcInstallerInfo(
      targetEsx, dsName, hostInfo.userName, hostInfo.password,
      "small", "VM Network", vcJson.vmName, true,
      vcJson.password, true, vcJson.password, "vsphere.local", "Default-First-Site",
      ipFamily, mode, vcJson.ip, prefix, vcJson.gateway, vcJson.dnsServer, vcJson.dnsAlternateServer,
      vcJson.systemName, vcPath, mntPath));
  }

  /** The defaults themselves are not blank. */
  lemma DefaultsNotBlank()
    ensures !IsBlank(Some(DEFAULT_DATASTORE)) && !IsBlank(Some(DEFAULT_IP_FAMILY))
    ensures !IsBlank(Some(DEFAULT_MODE)) && !IsBlank(Some(DEFAULT_PREFIX))
  {
    assert !IsWhitespace(DEFAULT_DATASTORE[0]);
    assert !IsWhitespace(DEFAULT_IP_FAMILY[0]);
    assert !IsWhitespace(DEFAULT_MODE[0]);
    assert !IsWhitespace(DEFAULT_PREFIX[0]);
  }

  // ---------------------------------------------------------------------
  // checkAddHostsInput
  // ---------------------------------------------------------------------

  const INPUT_ERRORS := "There are input errors. See more detail in log"

  /** The lists one after the other. */
  function Flatten(lists: seq<seq<string>>): seq<string> {
    if |lists| == 0 then [] else Flatten(lists[..|lists| - 1]) + lists[|lists| - 1]
  }

  /** Nothing is flattened out of lists that are all empty, and only then. */
  lemma {:induction false} FlattenEmpty(lists: seq<seq<string>>)
    ensures Flatten(lists) == [] <==> forall k :: 0 <= k < |lists| ==> lists[k] == []
  {
    if |lists| > 0 {
      var init := lists[..|lists| - 1];
      FlattenEmpty(init);
      assert forall k :: 0 <= k < |init| ==> init[k] == lists[k];
    }
  }

  /** `checkAddHostsInput`, given what the configurations' `checkValid`
      calls return: the vCenter's errors first, then each host's in array
      order; any error at all makes it throw. */
  method CheckAddHostsInput(vcErrors: seq<string>, hostErrors: seq<seq<string>>)
    returns (errorInputList: seq<string>, r: Result<()>)
    ensures errorInputList == vcErrors + Flatten(hostErrors)
    ensures r.Ok? <==> vcErrors == [] && forall k :: 0 <= k < |hostErrors| ==> hostErrors[k] == []
    ensures r.Err? ==> r == Err(HciClient(INPUT_ERRORS))
  {
    errorInputList := [] + vcErrors;
    var i := 0;
    while i < |hostErrors|
      invariant 0 <= i <= |hostErrors|
      invariant errorInputList == vcErrors + Flatten(hostErrors[..i])
    {
      assert hostErrors[..i + 1][..i] == hostErrors[..i];
      errorInputList := errorInputList + hostErrors[i];
      i := i + 1;
    }
    assert hostErrors[..i] == hostErrors;
    FlattenEmpty(hostErrors);
    if |errorInputList| > 0 {
      r := Err(HciClient(INPUT_ERRORS));
    } else {
      r := Ok(());
    }
  }

  // ---------------------------------------------------------------------
  // The progress share
  // ---------------------------------------------------------------------

  /** Java's `int` division by a positive divisor: the quotient is
      truncated toward zero. */
  function JavaDiv(a: int, b: int): (q: int)
    requires b > 0
    ensures a >= 0 ==> 0 <= q * b <= a < q * b + b
    ensures a < 0 ==> q * b - b < a <= q * b <= 0
  {
    if a >= 0 then
      EuclideanDivision(a, b);
      a / b
    else
      EuclideanDivision(-a, b);
      -((-a) / b)
  }

  /** On non-negative operands Dafny's division and Java's agree. */
  lemma EuclideanDivision(a: int, b: int)
    requires a >= 0 && b > 0
    ensures 0 <= a / b && 0 <= (a / b) * b <= a < (a / b) * b + b
  {
    assert a == (a / b) * b + a % b;
    assert 0 <= a % b < b;
  }

  lemma MulMonotone(k: int, m: int, s: int)
    requires 0 <= k <= m && 0 <= s
    ensures 0 <= k * s <= m * s
  {
    assert (m - k) * s >= 0;
  }

  lemma MulStep(k: int, s: int)
    requires 0 < k && 0 <= s
    ensures 0 <= (k - 1) * s && k * s == (k - 1) * s + s
  {
    MulMonotone(0, k - 1, s);
  }

  /** `(end - start) / (3 + hostConfigs.length)`: the share of each of the
      three cluster-wide steps and of each host. */
  function Share(start: int, end: int, hostCount: nat): (s: int)
    requires IsInt32(start) && IsInt32(end) && hostCount <= INT_MAX - 3
    ensures IsInt32(end - start) && start <= end ==> 0 <= s && s * (3 + hostCount) <= end - start
    ensures IsInt32(end - start) && end < start ==> s <= 0 && end - start <= s * (3 + hostCount)
  {
    JavaDiv(Wrap32(end - start), 3 + hostCount)
  }

  /** The counter after `k` calls of `increaseProgressBy(share)`. */
  function Increased(p: int, share: int, k: nat): int {
    if k == 0 then p else Wrap32(Increased(p, share, k - 1) + share)
  }

  /** The values those calls report, in order. */
  function Increases(p: int, share: int, k: nat): seq<int> {
    if k == 0 then [] else Increases(p, share, k - 1) + [Increased(p, share, k)]
  }

  /** Without overflow, `k` increases add `k` shares. */
  lemma {:induction false} IncreasedAdds(p: int, share: int, k: nat)
    requires share >= 0 && IsInt32(p) && IsInt32(p + k * share)
    ensures Increased(p, share, k) == p + k * share
  {
    if k > 0 {
      MulStep(k, share);
      IncreasedAdds(p, share, k - 1);
    }
  }

  /** A run starts at `start` and then increases the counter by the share
      once after the cluster-wide setup, once after vSAN is enabled and
      once per host added: however many hosts succeed, the counter stays
      within the span the run was given. */
  lemma ProgressStaysInSpan(start: int, end: int, hostCount: nat, k: nat)
    requires 0 <= start <= end <= 100 && hostCount <= INT_MAX - 3 && k <= hostCount + 2
    ensures start <= Increased(start, Share(start, end, hostCount), k) <= end
  {
    var s := Share(start, end, hostCount);
    MulMonotone(k, 3 + hostCount, s);
    assert k * s <= s * (3 + hostCount);
    IncreasedAdds(start, s, k);
  }

  // ---------------------------------------------------------------------
  // addHostToVc: the error policy over the hosts
  // ---------------------------------------------------------------------

  /** What aborts the walk over the hosts: an IllegalArgumentException. */
  predicate Aborts(outcome: Result<()>) {
    outcome.Err? && IsIllegalArgument(outcome.fault)
  }

  /** The number of hosts handled before one aborts the walk. */
  function Handled(outcomes: seq<Result<()>>): (n: nat)
    ensures n <= |outcomes|
    ensures forall k :: 0 <= k < n ==> !Aborts(outcomes[k])
    ensures n < |outcomes| ==> Aborts(outcomes[n])
  {
    if |outcomes| == 0 then 0
    else if Aborts(outcomes[0]) then 0
    else 1 + Handled(outcomes[1..])
  }

  /** The hosts whose addition succeeded. */
  function Successes(outcomes: seq<Result<()>>): nat {
    if |outcomes| == 0 then 0
    else Successes(outcomes[..|outcomes| - 1]) + (if outcomes[|outcomes| - 1].Ok? then 1 else 0)
  }

  /** The IP addresses of the hosts whose addition failed, in order. */
  function FailedIps(ips: seq<Option<string>>, outcomes: seq<Result<()>>): seq<Option<string>>
    requires |ips| == |outcomes|
  {
    if |outcomes| == 0 then []
    else
      FailedIps(ips[..|ips| - 1], outcomes[..|outcomes| - 1])
      + (if outcomes[|outcomes| - 1].Err? then [ips[|ips| - 1]] else [])
  }

  /** Every host is either counted as a success or listed as failed. */
  lemma {:induction false} FailedOrSucceeded(ips: seq<Option<string>>, outcomes: seq<Result<()>>)
    requires |ips| == |outcomes|
    ensures |FailedIps(ips, outcomes)| + Successes(outcomes) == |outcomes|
    ensures FailedIps(ips, outcomes) == [] <==> Successes(outcomes) == |outcomes|
  {
    if |outcomes| > 0 {
      FailedOrSucceeded(ips[..|ips| - 1], outcomes[..|outcomes| - 1]);
    }
  }

  /** A failed host is listed with its own IP address. */
  lemma {:induction false} FailedIpListed(ips: seq<Option<string>>, outcomes: seq<Result<()>>, k: int)
    requires |ips| == |outcomes| && 0 <= k < |outcomes| && outcomes[k].Err?
    ensures ips[k] in FailedIps(ips, outcomes)
  {
    var n := |outcomes| - 1;
    if k < n {
      FailedIpListed(ips[..n], outcomes[..n], k);
    }
  }

  /** One more host handled: its outcome extends the count and the list. */
  lemma HandledStep(ips: seq<Option<string>>, outcomes: seq<Result<()>>, i: int)
    requires |ips| == |outcomes| && 0 <= i < |outcomes|
    ensures Successes(outcomes[..i + 1]) == Successes(outcomes[..i]) + (if outcomes[i].Ok? then 1 else 0)
    ensures FailedIps(ips[..i + 1], outcomes[..i + 1])
      == FailedIps(ips[..i], outcomes[..i]) + (if outcomes[i].Err? then [ips[i]] else [])
  {
    assert ips[..i + 1][..i] == ips[..i];
    assert outcomes[..i + 1][..i] == outcomes[..i];
  }

  /** One host's success: the k-th increase becomes the (k+1)-th. */
  method Advance(counter: ConfigProgress.ConfigProgress, share: int, hasCallback: bool,
                 ghost p: int, ghost before: seq<int>, ghost k: nat)
    requires counter.Valid() && IsInt32(share)
    requires counter.progress == Increased(p, share, k)
    requires counter.printed == before + (if hasCallback then Increases(p, share, k) else [])
    modifies counter
    ensures counter.Valid()
    ensures counter.progress == Increased(p, share, k + 1)
    ensures counter.printed == before + (if hasCallback then Increases(p, share, k + 1) else [])
  {
    counter.IncreaseProgressBy(share, hasCallback);
    assert before + Increases(p, share, k) + [counter.progress] == before + Increases(p, share, k + 1);
  }

  /** `addHostToVc`, given the outcome of each host's steps (exit
      maintenance mode, join the cluster and the distributed switch,
      migrate its VMs and VMkernel NICs, add its vMotion and vSAN NICs):
      a host that succeeds moves the progress on by one share; a host that
      fails has its IP address recorded and the walk goes on, except that
      an IllegalArgumentException ends the walk with HciClientException
      carrying its message. */
  method AddHostToVc(ips: seq<Option<string>>, outcomes: seq<Result<()>>, share: int,
                     hasCallback: bool, counter: ConfigProgress.ConfigProgress)
    returns (r: Result<seq<Option<string>>>)
    requires |ips| == |outcomes| && counter.Valid() && IsInt32(share)
    modifies counter
    ensures counter.Valid()
    ensures Handled(outcomes) == |outcomes| ==> r == Ok(FailedIps(ips, outcomes))
    ensures Handled(outcomes) < |outcomes| ==>
      r == Err(HciClient(ExceptionMessage(outcomes[Handled(outcomes)].fault)))
    ensures counter.progress == Increased(old(counter.progress), share, Successes(outcomes[..Handled(outcomes)]))
    ensures counter.printed == old(counter.printed) +
      (if hasCallback then Increases(old(counter.progress), share, Successes(outcomes[..Handled(outcomes)])) else [])
  {
    var errorHostList: seq<Option<string>> := [];
    var i := 0;
    while i < |outcomes|
      invariant 0 <= i <= Handled(outcomes)
      invariant errorHostList == FailedIps(ips[..i], outcomes[..i])
      invariant counter.Valid()
      invariant counter.progress == Increased(old(counter.progress), share, Successes(outcomes[..i]))
      invariant counter.printed == old(counter.printed) +
        (if hasCallback then Increases(old(counter.progress), share, Successes(outcomes[..i])) else [])
    {
      HandledStep(ips, outcomes, i);
      assert !Aborts(outcomes[i]) ==> i < Handled(outcomes);
      if outcomes[i].Ok? {
        Advance(counter, share, hasCallback, old(counter.progress), old(counter.printed), Successes(outcomes[..i]));
      } else if IsIllegalArgument(outcomes[i].fault) {
        // recorded, then lost with the exception
        errorHostList := errorHostList + [ips[i]];
        assert Aborts(outcomes[i]);
        assert i == Handled(outcomes);
        return Err(HciClient(ExceptionMessage(outcomes[i].fault)));
      } else {
        errorHostList := errorHostList + [ips[i]];
      }
      i := i + 1;
    }
    assert i == |outcomes| == Handled(outcomes);
    assert ips[..i] == ips;
    assert outcomes[..i] == outcomes;
    r := Ok(errorHostList);
  }
}
