/**
 * `InputVcConfiguration`: vCenter connection details, the names of the
 * datacenter, cluster and distributed switch to use, and the portgroup
 * configuration; its validator reports missing connection details,
 * falls back to default names in place, and collects the portgroup
 * messages.
 */
module InputVcConfiguration {
  import opened JavaLang
  import opened HciTypes
  import VsphereConstants
  import PG = InputPortgroupConfiguration

  /** The messages about the connection details. */
  function VcInfoErrors(vcInfo: Option<VcInfo>): seq<string> {
    if vcInfo.None? then ["VC connection information is not provided."]
    else
      MessageIf(IsBlank(vcInfo.value.ipAddress), "VC ip is not provided")
      + MessageIf(IsBlank(vcInfo.value.userName), "User name of VC is not provided")
      + MessageIf(IsBlank(vcInfo.value.password), "Password of VC is not provided")
  }

  /** A blank name is replaced by the default, any other is kept. */
  function DefaultIfBlank(name: Option<string>, default: string): Option<string> {
    if IsBlank(name) then Some(default) else name
  }

  /** One name fallback of `checkValid`. */
  method DefaultName(name: Option<string>, default: string) returns (r: Option<string>)
    ensures r == DefaultIfBlank(name, default)
  {
    r := name;
    if IsBlank(name) {
      r := Some(default);
    }
  }

  class InputVcConfiguration {
    var vcInfo: Option<VcInfo>
    var dataCenterName: Option<string>
    var clusterName: Option<string>
    var vdsName: Option<string>
    var portGroupInfo: PG.InputPortgroupConfiguration?
    /** This class's own error list (it hides the inherited one). */
    var errorInputList: seq<string>

    constructor ()
      ensures vcInfo.None? && portGroupInfo == null && errorInputList == []
      ensures dataCenterName == Some(VsphereConstants.DEFAULT_DATACENTER_NAME)
      ensures clusterName == Some(VsphereConstants.DEFAULT_CLUSTER_NAME)
      ensures vdsName == Some(VsphereConstants.DEFAULT_VDS_NAME)
    {
      vcInfo := None;
      dataCenterName := Some(VsphereConstants.DEFAULT_DATACENTER_NAME);
      clusterName := Some(VsphereConstants.DEFAULT_CLUSTER_NAME);
      vdsName := Some(VsphereConstants.DEFAULT_VDS_NAME);
      portGroupInfo := null;
      errorInputList := [];
    }

    /** The connection checks at the start of `checkValid`. */
    method CheckVcInfo()
      modifies this`errorInputList
      ensures errorInputList == old(errorInputList) + VcInfoErrors(vcInfo)
    {
      if vcInfo.None? {
        errorInputList := errorInputList + ["VC connection information is not provided."];
      } else {
        AddIf(IsBlank(vcInfo.value.ipAddress), "VC ip is not provided");
        AddIf(IsBlank(vcInfo.value.userName), "User name of VC is not provided");
        AddIf(IsBlank(vcInfo.value.password), "Password of VC is not provided");
      }
    }

    /** Append `msg` when `fails`. */
    method AddIf(fails: bool, msg: string)
      modifies this`errorInputList
      ensures errorInputList == old(errorInputList) + MessageIf(fails, msg)
    {
      if fails {
        errorInputList := errorInputList + [msg];
      }
    }

    /** `checkValid`: connection messages first; blank names fall back to
        the defaults; then everything the portgroup configuration's own
        (accumulating) list holds after its check is appended. */
    method CheckValid() returns (errors: seq<string>)
      modifies this`errorInputList, this`dataCenterName, this`clusterName, this`vdsName, portGroupInfo
      ensures dataCenterName == DefaultIfBlank(old(dataCenterName), VsphereConstants.DEFAULT_DATACENTER_NAME)
      ensures clusterName == DefaultIfBlank(old(clusterName), VsphereConstants.DEFAULT_CLUSTER_NAME)
      ensures vdsName == DefaultIfBlank(old(vdsName), VsphereConstants.DEFAULT_VDS_NAME)
      ensures portGroupInfo == null ==> errorInputList == old(errorInputList) + VcInfoErrors(vcInfo)
      ensures portGroupInfo != null ==>
        portGroupInfo.errorInputList == old(portGroupInfo.errorInputList)
          + PG.PortgroupErrors(portGroupInfo.mgmtVlanTrunk, portGroupInfo.vMotionVlanTrunk,
                               portGroupInfo.vSanVlanTrunk, portGroupInfo.vmVlanTrunk)
        && errorInputList == old(errorInputList) + VcInfoErrors(vcInfo) + portGroupInfo.errorInputList
      ensures errors == errorInputList
      ensures vcInfo == old(vcInfo) && portGroupInfo == old(portGroupInfo)
      ensures portGroupInfo != null ==>
        unchanged(portGroupInfo`mgmtVlanTrunk, portGroupInfo`vMotionVlanTrunk,
                  portGroupInfo`vSanVlanTrunk, portGroupInfo`vmVlanTrunk)
    {
      CheckVcInfo();
      dataCenterName := DefaultName(dataCenterName, VsphereConstants.DEFAULT_DATACENTER_NAME);
      clusterName := DefaultName(clusterName, VsphereConstants.DEFAULT_CLUSTER_NAME);
      vdsName := DefaultName(vdsName, VsphereConstants.DEFAULT_VDS_NAME);
      if portGroupInfo != null {
        var pgErrors := portGroupInfo.CheckValid();
        errorInputList := errorInputList + pgErrors;
      }
      errors := errorInputList;
    }
  }

  /** The connection details give no message exactly when they are present
      and ip, user and password are all non-blank; otherwise a null
      connection gives one message and each blank field one each. */
  lemma VcInfoErrorsIff(vcInfo: Option<VcInfo>)
    ensures VcInfoErrors(vcInfo) == [] <==>
      vcInfo.Some? && !IsBlank(vcInfo.value.ipAddress) && !IsBlank(vcInfo.value.userName) && !IsBlank(vcInfo.value.password)
    ensures vcInfo.None? ==> |VcInfoErrors(vcInfo)| == 1
    ensures vcInfo.Some? ==> (|VcInfoErrors(vcInfo)| ==
      (if IsBlank(vcInfo.value.ipAddress) then 1 else 0) + (if IsBlank(vcInfo.value.userName) then 1 else 0)
      + (if IsBlank(vcInfo.value.password) then 1 else 0))
  {
  }

  /** After the fallback a name is never blank, and a second fallback changes nothing. */
  lemma DefaultIfBlankSettles(name: Option<string>, default: string)
    requires !IsBlank(Some(default))
    ensures !IsBlank(DefaultIfBlank(name, default))
    ensures DefaultIfBlank(DefaultIfBlank(name, default), default) == DefaultIfBlank(name, default)
    ensures !IsBlank(name) ==> DefaultIfBlank(name, default) == name
  {
  }

  /** The three default names are themselves not blank, so a checked configuration keeps them. */
  lemma DefaultNamesNotBlank()
    ensures !IsBlank(Some(VsphereConstants.DEFAULT_DATACENTER_NAME))
    ensures !IsBlank(Some(VsphereConstants.DEFAULT_CLUSTER_NAME))
    ensures !IsBlank(Some(VsphereConstants.DEFAULT_VDS_NAME))
  {
    assert !IsWhitespace(VsphereConstants.DEFAULT_DATACENTER_NAME[0]);
    assert !IsWhitespace(VsphereConstants.DEFAULT_CLUSTER_NAME[0]);
    assert !IsWhitespace(VsphereConstants.DEFAULT_VDS_NAME[0]);
  }
}
