/**
 * `InputPortgroupConfiguration`: the four distributed portgroups (management,
 * vMotion, vSAN, VM) with fixed default names and optional VLAN trunk
 * strings, and its validator, which reports each trunk string that
 * `parseVlanId` rejects.
 */
module InputPortgroupConfiguration {
  import opened JavaLang
  import VsphereConstants
  import VsphereUtil
  import VimTypes
  import HciTypes

  const PORTGROUP_NUM := 4

  /** The message for one trunk string that does not parse. */
  function TrunkMessage(traffic: string, trunk: Option<string>): string {
    traffic + " vlan trunk string should be like '206, 207, 208-210'. " + VsphereUtil.OrNull(trunk) + " is invalid"
  }

  /** The messages one trunk string contributes: one when parsing it throws, none otherwise. */
  function TrunkErrors(traffic: string, trunk: Option<string>): seq<string> {
    if VsphereUtil.VlanIds(trunk).Err? then [TrunkMessage(traffic, trunk)] else []
  }

  /** All messages of one check, in the order management, vMotion, vSan, VM. */
  function PortgroupErrors(mgmt: Option<string>, vMotion: Option<string>, vSan: Option<string>, vm: Option<string>): seq<string> {
    TrunkErrors("Management", mgmt) + TrunkErrors("vMotion", vMotion) + TrunkErrors("vSan", vSan) + TrunkErrors("VM", vm)
  }

  class InputPortgroupConfiguration {
    var mgmtPortgroupName: string
    var mgmtVlanTrunk: Option<string>
    var vMotionPortgroupName: string
    var vMotionVlanTrunk: Option<string>
    var vSanPortgroupName: string
    var vSanVlanTrunk: Option<string>
    var vmPortgroupName: string
    var vmVlanTrunk: Option<string>
    /** The error list the object keeps across checks. */
    var errorInputList: seq<string>

    /** A configuration with the default portgroup names, no trunks and no errors yet. */
    constructor ()
      ensures mgmtPortgroupName == VsphereConstants.DEFAULT_MGMT_PG_NAME
      ensures vMotionPortgroupName == VsphereConstants.DEFAULT_VMOTION_PG_NAME
      ensures vSanPortgroupName == VsphereConstants.DEFAULT_VSAN_PG_NAME
      ensures vmPortgroupName == VsphereConstants.DEFAULT_VM_PG_NAME
      ensures mgmtVlanTrunk.None? && vMotionVlanTrunk.None? && vSanVlanTrunk.None? && vmVlanTrunk.None?
      ensures errorInputList == []
    {
      mgmtPortgroupName := VsphereConstants.DEFAULT_MGMT_PG_NAME;
      vMotionPortgroupName := VsphereConstants.DEFAULT_VMOTION_PG_NAME;
      vSanPortgroupName := VsphereConstants.DEFAULT_VSAN_PG_NAME;
      vmPortgroupName := VsphereConstants.DEFAULT_VM_PG_NAME;
      mgmtVlanTrunk, vMotionVlanTrunk, vSanVlanTrunk, vmVlanTrunk := None, None, None, None;
      errorInputList := [];
    }

    /** One try block of `checkValid`: parse a trunk string and append a
        message when parsing throws. */
    method CheckTrunk(traffic: string, trunk: Option<string>)
      modifies this`errorInputList
      ensures errorInputList == old(errorInputList) + TrunkErrors(traffic, trunk)
    {
      var r := VsphereUtil.ParseVlanId(trunk);
      if r.Err? {
        errorInputList := errorInputList + [TrunkMessage(traffic, trunk)];
      }
    }

    /** `checkValid`: parse each trunk string in turn and append a message
        for each one that throws; the list, earlier messages included, is
        returned. */
    method CheckValid() returns (errors: seq<string>)
      modifies this`errorInputList
      ensures errorInputList == old(errorInputList) + PortgroupErrors(mgmtVlanTrunk, vMotionVlanTrunk, vSanVlanTrunk, vmVlanTrunk)
      ensures errors == errorInputList
    {
      ghost var before := errorInputList;
      ghost var mgmt := TrunkErrors("Management", mgmtVlanTrunk);
      ghost var vMotion := TrunkErrors("vMotion", vMotionVlanTrunk);
      ghost var vSan := TrunkErrors("vSan", vSanVlanTrunk);
      ghost var vm := TrunkErrors("VM", vmVlanTrunk);
      CheckTrunk("Management", mgmtVlanTrunk);
      CheckTrunk("vMotion", vMotionVlanTrunk);
      HciTypes.AppendAssoc(before, mgmt, vMotion);
      CheckTrunk("vSan", vSanVlanTrunk);
      HciTypes.AppendAssoc(before, mgmt + vMotion, vSan);
      CheckTrunk("VM", vmVlanTrunk);
      HciTypes.AppendAssoc(before, mgmt + vMotion + vSan, vm);
      errors := errorInputList;
    }
  }

  /** A check adds nothing exactly when all four trunk strings parse; a
      null or blank trunk always parses (to null). */
  lemma PortgroupErrorsEmptyIff(mgmt: Option<string>, vMotion: Option<string>, vSan: Option<string>, vm: Option<string>)
    ensures PortgroupErrors(mgmt, vMotion, vSan, vm) == [] <==>
      VsphereUtil.VlanIds(mgmt).Ok? && VsphereUtil.VlanIds(vMotion).Ok? && VsphereUtil.VlanIds(vSan).Ok? && VsphereUtil.VlanIds(vm).Ok?
    ensures IsBlank(mgmt) && IsBlank(vMotion) && IsBlank(vSan) && IsBlank(vm) ==> PortgroupErrors(mgmt, vMotion, vSan, vm) == []
  {
  }

  /** Each rejected trunk contributes one message, which names its traffic type first. */
  lemma TrunkErrorsNameTraffic(traffic: string, trunk: Option<string>)
    ensures |TrunkErrors(traffic, trunk)| == (if VsphereUtil.VlanIds(trunk).Err? then 1 else 0)
    ensures forall m :: m in TrunkErrors(traffic, trunk) ==> |m| >= |traffic| && m[..|traffic|] == traffic
  {
  }

  /** Formatted lists of VLAN ranges are accepted by the validator. */
  lemma FormattedTrunkAccepted(traffic: string, rs: seq<VimTypes.NumericRange>)
    requires |rs| > 0 && forall k :: 0 <= k < |rs| ==> VsphereUtil.IsVlanRange(rs[k])
    ensures TrunkErrors(traffic, Some(VsphereUtil.FormatRanges(rs))) == []
  {
    VsphereUtil.VlanIdsRoundTrip(rs);
  }

  /** The letters-only trunk from the sample tests is reported. */
  lemma NonNumericTrunkReported(traffic: string)
    ensures TrunkErrors(traffic, Some("asdfasdf")) == [TrunkMessage(traffic, Some("asdfasdf"))]
  {
    VsphereUtil.NonNumericThrows();
  }
}
