/**
 * `InputHostConfiguration`: how to reach a host before and after it is
 * customised, and the management, vMotion and vSAN addressing (DHCP, or a
 * static ip and netmask); its validator appends a message per missing
 * item. Whether a connection to the default host succeeds is an input.
 */
module InputHostConfiguration {
  import opened JavaLang
  import opened HciTypes
  import VsphereUtil

  // The fixed messages of the host checks.
  const CUSTOM_IP_MISSING := "Customized host ip is not provided"
  const CUSTOM_NAME_MISSING := "Customized host name is not provided"
  const CUSTOM_USER_MISSING := "User name of customized host is not provided"
  const CUSTOM_PASSWORD_MISSING := "Password of customized host is not provided"
  const CUSTOM_HOST_MISSING := "Customized host information is not provided."
  const DEFAULT_HOST_MISSING := "Default host information is not provided."

  function IpMissing(traffic: string): string { traffic + " ip is not provided while DHCP is disabled" }
  function NetmaskMissing(traffic: string): string { traffic + " netmask is not provided while DHCP is disabled" }

  /** Messages about the default host: missing, or not reachable. */
  function DefaultHostErrors(defaultHost: Option<HostInfo>, connects: bool): seq<string> {
    if defaultHost.None? then [DEFAULT_HOST_MISSING]
    else if !connects then ["Could not connect to host " + VsphereUtil.OrNull(defaultHost.value.ipAddress)]
    else []
  }

  /** Messages about the customized host: missing, or one per blank field. */
  function CustomizedHostErrors(host: Option<HostInfo>): seq<string> {
    if host.None? then [CUSTOM_HOST_MISSING]
    else
      MessageIf(IsBlank(host.value.ipAddress), CUSTOM_IP_MISSING)
      + MessageIf(IsBlank(host.value.hostName), CUSTOM_NAME_MISSING)
      + MessageIf(IsBlank(host.value.userName), CUSTOM_USER_MISSING)
      + MessageIf(IsBlank(host.value.password), CUSTOM_PASSWORD_MISSING)
  }

  /** Messages about one kind of traffic: none under DHCP, otherwise one per blank ip and netmask. */
  function NetworkErrors(traffic: string, dhcp: bool, ip: Option<string>, netmask: Option<string>): seq<string> {
    if dhcp then []
    else
      MessageIf(IsBlank(ip), IpMissing(traffic))
      + MessageIf(IsBlank(netmask), NetmaskMissing(traffic))
  }

  /** The addressing of one kind of traffic. */
  datatype Addressing = Addressing(dhcp: bool, ip: Option<string>, netmask: Option<string>)

  predicate AddressingComplete(a: Addressing) {
    a.dhcp || (!IsBlank(a.ip) && !IsBlank(a.netmask))
  }

  predicate HostInfoComplete(h: HostInfo) {
    !IsBlank(h.ipAddress) && !IsBlank(h.hostName) && !IsBlank(h.userName) && !IsBlank(h.password)
  }

  /** All messages of one check, in the order default host, customized
      host, management, vMotion, vSan. */
  function HostErrors(defaultHost: Option<HostInfo>, connects: bool, customized: Option<HostInfo>,
                      mgmt: Addressing, vMotion: Addressing, vSan: Addressing): seq<string> {
    (DefaultHostErrors(defaultHost, connects) + CustomizedHostErrors(customized))
    + (NetworkErrors("Management", mgmt.dhcp, mgmt.ip, mgmt.netmask)
       + NetworkErrors("vMotion", vMotion.dhcp, vMotion.ip, vMotion.netmask)
       + NetworkErrors("vSan", vSan.dhcp, vSan.ip, vSan.netmask))
  }

  class InputHostConfiguration {
    var defaultHostInfo: Option<HostInfo>
    var customizedHostInfo: Option<HostInfo>
    var mgmtDHCP: bool
    var mgmtIp: Option<string>
    var mgmtNetmask: Option<string>
    var vMotionDHCP: bool
    var vMotionIp: Option<string>
    var vMotionNetmask: Option<string>
    var vSanDHCP: bool
    var vSanIp: Option<string>
    var vSanNetmask: Option<string>
    /** The inherited error list, kept across checks. */
    var errorInputList: seq<string>

    constructor ()
      ensures defaultHostInfo.None? && customizedHostInfo.None?
      ensures !mgmtDHCP && !vMotionDHCP && !vSanDHCP
      ensures mgmtIp.None? && mgmtNetmask.None? && vMotionIp.None? && vMotionNetmask.None?
      ensures vSanIp.None? && vSanNetmask.None? && errorInputList == []
    {
      defaultHostInfo, customizedHostInfo := None, None;
      mgmtDHCP, vMotionDHCP, vSanDHCP := false, false, false;
      mgmtIp, mgmtNetmask, vMotionIp, vMotionNetmask, vSanIp, vSanNetmask := None, None, None, None, None, None;
      errorInputList := [];
    }

    function Mgmt(): Addressing reads this`mgmtDHCP, this`mgmtIp, this`mgmtNetmask { Addressing(mgmtDHCP, mgmtIp, mgmtNetmask) }
    function VMotion(): Addressing reads this`vMotionDHCP, this`vMotionIp, this`vMotionNetmask { Addressing(vMotionDHCP, vMotionIp, vMotionNetmask) }
    function VSan(): Addressing reads this`vSanDHCP, this`vSanIp, this`vSanNetmask { Addressing(vSanDHCP, vSanIp, vSanNetmask) }

    /** The default-host checks of `checkValid`. */
    method CheckDefaultHost(connects: bool)
      modifies this`errorInputList
      ensures errorInputList == old(errorInputList) + DefaultHostErrors(defaultHostInfo, connects)
    {
      if defaultHostInfo.None? {
        errorInputList := errorInputList + [DEFAULT_HOST_MISSING];
      } else if !connects {
        errorInputList := errorInputList + ["Could not connect to host " + VsphereUtil.OrNull(defaultHostInfo.value.ipAddress)];
      }
    }

    /** The customized-host checks of `checkValid`. */
    method CheckCustomizedHost()
      modifies this`errorInputList
      ensures errorInputList == old(errorInputList) + CustomizedHostErrors(customizedHostInfo)
    {
      if customizedHostInfo.None? {
        errorInputList := errorInputList + [CUSTOM_HOST_MISSING];
      } else {
        var h := customizedHostInfo.value;
        ghost var before := errorInputList;
        ghost var ip := MessageIf(IsBlank(h.ipAddress), CUSTOM_IP_MISSING);
        ghost var name := MessageIf(IsBlank(h.hostName), CUSTOM_NAME_MISSING);
        ghost var user := MessageIf(IsBlank(h.userName), CUSTOM_USER_MISSING);
        ghost var password := MessageIf(IsBlank(h.password), CUSTOM_PASSWORD_MISSING);
        AddIf(IsBlank(h.ipAddress), CUSTOM_IP_MISSING);
        AddIf(IsBlank(h.hostName), CUSTOM_NAME_MISSING);
        AppendAssoc(before, ip, name);
        AddIf(IsBlank(h.userName), CUSTOM_USER_MISSING);
        AppendAssoc(before, ip + name, user);
        AddIf(IsBlank(h.password), CUSTOM_PASSWORD_MISSING);
        AppendAssoc(before, ip + name + user, password);
      }
    }

    /** The checks of one kind of traffic in `checkValid`. */
    method CheckNetwork(traffic: string, dhcp: bool, ip: Option<string>, netmask: Option<string>)
      modifies this`errorInputList
      ensures errorInputList == old(errorInputList) + NetworkErrors(traffic, dhcp, ip, netmask)
    {
      if !dhcp {
        AddIf(IsBlank(ip), IpMissing(traffic));
        AddIf(IsBlank(netmask), NetmaskMissing(traffic));
      }
    }

    /** Append `msg` when `fails`. */
    method AddIf(fails: bool, msg: string)
      modifies this`errorInputList
      ensures errorInputList == old(errorInputList) + MessageIf(fails, msg)
    {
      if fails {
        errorInputList := errorInputList + [msg];
      }
    }

    /** The host checks of `checkValid`. */
    method CheckHosts(connects: bool)
      modifies this`errorInputList
      ensures errorInputList == old(errorInputList)
        + (DefaultHostErrors(defaultHostInfo, connects) + CustomizedHostErrors(customizedHostInfo))
    {
      CheckDefaultHost(connects);
      CheckCustomizedHost();
    }

    /** The addressing checks of `checkValid`. */
    method CheckNetworks()
      modifies this`errorInputList
      ensures errorInputList == old(errorInputList)
        + (NetworkErrors("Management", mgmtDHCP, mgmtIp, mgmtNetmask)
           + NetworkErrors("vMotion", vMotionDHCP, vMotionIp, vMotionNetmask)
           + NetworkErrors("vSan", vSanDHCP, vSanIp, vSanNetmask))
    {
      ghost var before := errorInputList;
      ghost var m := NetworkErrors("Management", mgmtDHCP, mgmtIp, mgmtNetmask);
      ghost var vm := NetworkErrors("vMotion", vMotionDHCP, vMotionIp, vMotionNetmask);
      ghost var vs := NetworkErrors("vSan", vSanDHCP, vSanIp, vSanNetmask);
      CheckNetwork("Management", mgmtDHCP, mgmtIp, mgmtNetmask);
      CheckNetwork("vMotion", vMotionDHCP, vMotionIp, vMotionNetmask);
      AppendAssoc(before, m, vm);
      CheckNetwork("vSan", vSanDHCP, vSanIp, vSanNetmask);
      AppendAssoc(before, m + vm, vs);
    }

    /** `checkValid`; `connects` says whether opening a session to the
        default host succeeds. */
    method CheckValid(connects: bool) returns (errors: seq<string>)
      modifies this`errorInputList
      ensures errorInputList == old(errorInputList)
        + HostErrors(defaultHostInfo, connects, customizedHostInfo, Mgmt(), VMotion(), VSan())
      ensures errors == errorInputList
    {
      ghost var before := errorInputList;
      ghost var hosts := DefaultHostErrors(defaultHostInfo, connects) + CustomizedHostErrors(customizedHostInfo);
      ghost var networks := NetworkErrors("Management", mgmtDHCP, mgmtIp, mgmtNetmask)
           + NetworkErrors("vMotion", vMotionDHCP, vMotionIp, vMotionNetmask)
           + NetworkErrors("vSan", vSanDHCP, vSanIp, vSanNetmask);
      CheckHosts(connects);
      CheckNetworks();
      AppendAssoc(before, hosts, networks);
      assert HostErrors(defaultHostInfo, connects, customizedHostInfo, Mgmt(), VMotion(), VSan()) == hosts + networks;
      errors := errorInputList;
    }
  }

  lemma CustomizedHostErrorsEmptyIff(host: Option<HostInfo>)
    ensures CustomizedHostErrors(host) == [] <==> host.Some? && HostInfoComplete(host.value)
  {
  }

  lemma NetworkErrorsEmptyIff(traffic: string, a: Addressing)
    ensures NetworkErrors(traffic, a.dhcp, a.ip, a.netmask) == [] <==> AddressingComplete(a)
  {
  }

  /** A check adds nothing exactly when the default host is given and
      reachable, the customized host is fully described, and each kind
      of traffic uses DHCP or has both ip and netmask. */
  lemma HostErrorsEmptyIff(defaultHost: Option<HostInfo>, connects: bool, customized: Option<HostInfo>,
                           mgmt: Addressing, vMotion: Addressing, vSan: Addressing)
    ensures HostErrors(defaultHost, connects, customized, mgmt, vMotion, vSan) == [] <==>
      defaultHost.Some? && connects && customized.Some? && HostInfoComplete(customized.value)
      && AddressingComplete(mgmt) && AddressingComplete(vMotion) && AddressingComplete(vSan)
  {
    CustomizedHostErrorsEmptyIff(customized);
    NetworkErrorsEmptyIff("Management", mgmt);
    NetworkErrorsEmptyIff("vMotion", vMotion);
    NetworkErrorsEmptyIff("vSan", vSan);
  }

  /** The default host adds at most one message, the customized host at
      most four, each kind of traffic at most two (none under DHCP). */
  lemma HostErrorsBounds(defaultHost: Option<HostInfo>, connects: bool, customized: Option<HostInfo>,
                         traffic: string, a: Addressing)
    ensures |DefaultHostErrors(defaultHost, connects)| <= 1
    ensures customized.None? ==> |CustomizedHostErrors(customized)| == 1
    ensures |CustomizedHostErrors(customized)| <= 4
    ensures |NetworkErrors(traffic, a.dhcp, a.ip, a.netmask)| <= 2
    ensures a.dhcp ==> NetworkErrors(traffic, a.dhcp, a.ip, a.netmask) == []
  {
  }
}
