/**
 * `VerifyHost`: the readiness checks run on a host before it is added —
 * its connection state, its product version and the link speed of its
 * physical NICs — in that order, followed by closing the session when all
 * of them pass. Each getter's result is an input.
 */
module VerifyHost {
  import opened JavaLang
  import VsphereUtil
  import HostManager

  /** The version the host must report. */
  const HOST_VERSION := "EXPECTED_HOST_VERSION"
  /** The link speed, in Mb/s, every connected NIC must have. */
  const LINK_SPEED := 1000

  /** `verifyHostConnection`: the host passes only when its runtime state
      is CONNECTED. Any other state, and any exception while reading it,
      becomes VerificationFailedException carrying that message. */
  function VerifyHostConnection(hostName: Option<string>, state: Result<Option<HostManager.ConnectionState>>): (r: Result<()>)
    ensures r.Ok? <==> state == Ok(Some(HostManager.Connected))
    ensures state.Ok? && state.value != Some(HostManager.Connected) ==>
      r == Err(VerificationFailed("Host " + VsphereUtil.OrNull(hostName) + " is unaccessible"))
    ensures state.Err? ==> r == Err(VerificationFailed(ExceptionMessage(state.fault)))
  {
    if state.Err? then Err(VerificationFailed(ExceptionMessage(state.fault)))
    else if state.value != Some(HostManager.Connected) then
      // thrown inside the try and rethrown with its own message
      Err(VerificationFailed(ExceptionMessage(VerificationFailed("Host " + VsphereUtil.OrNull(hostName) + " is unaccessible"))))
    else Ok(())
  }

  /** `verifyESXVersion`: the host passes only when it reports exactly
      the expected version; a failure to read it is a mismatch too. */
  function VerifyEsxVersion(version: Result<Option<string>>): (r: Result<()>)
    ensures r.Ok? <==> version == Ok(Some(HOST_VERSION))
    ensures r.Err? ==> r == Err(VerificationFailed("Host version mismatch"))
  {
    if version == Ok(Some(HOST_VERSION)) then Ok(()) else Err(VerificationFailed("Host version mismatch"))
  }

  /** A NIC whose link is down (no link speed) is not checked; any other
      must run at the expected speed. */
  predicate LinkSpeedOk(nic: HostManager.PhysicalNic) {
    nic.linkSpeed.None? || nic.linkSpeed.value.speedMb == LINK_SPEED
  }

  /** `verifyHostNetwork`: walks the NICs and stops at the first one at
      another speed. Whatever goes wrong, reading the list included, is
      reported as the same VerificationFailedException. */
  method VerifyHostNetwork(pnics: Result<seq<HostManager.PhysicalNic>>) returns (r: Result<()>)
    ensures r.Ok? <==> pnics.Ok? && forall k :: 0 <= k < |pnics.value| ==> LinkSpeedOk(pnics.value[k])
    ensures r.Err? ==> r == Err(VerificationFailed("Host network verification failed"))
  {
    if pnics.Err? {
      return Err(VerificationFailed("Host network verification failed"));
    }
    var pNicList := pnics.value;
    var i := 0;
    while i < |pNicList|
      invariant 0 <= i <= |pNicList|
      invariant forall k :: 0 <= k < i ==> LinkSpeedOk(pNicList[k])
    {
      var pNic := pNicList[i];
      if pNic.linkSpeed.Some? && pNic.linkSpeed.value.speedMb != LINK_SPEED {
        return Err(VerificationFailed("Host network verification failed"));
      }
      i := i + 1;
    }
    r := Ok(());
  }

  /** `verify`: the three checks in order, the first failing one deciding
      the exception; the session is closed only when all of them pass. */
  method Verify(hostName: Option<string>, state: Result<Option<HostManager.ConnectionState>>,
                version: Result<Option<string>>, pnics: Result<seq<HostManager.PhysicalNic>>)
    returns (disconnected: bool, r: Result<()>)
    ensures disconnected <==> r.Ok?
    ensures VerifyHostConnection(hostName, state).Err? ==> r == VerifyHostConnection(hostName, state)
    ensures VerifyHostConnection(hostName, state).Ok? && VerifyEsxVersion(version).Err? ==> r == VerifyEsxVersion(version)
    ensures r.Ok? <==>
      state == Ok(Some(HostManager.Connected)) && version == Ok(Some(HOST_VERSION))
      && pnics.Ok? && forall k :: 0 <= k < |pnics.value| ==> LinkSpeedOk(pnics.value[k])
    ensures VerifyHostConnection(hostName, state).Ok? && VerifyEsxVersion(version).Ok? && r.Err? ==>
      r == Err(VerificationFailed("Host network verification failed"))
  {
    disconnected := false;
    r := VerifyHostConnection(hostName, state);
    if r.Err? {
      return;
    }
    r := VerifyEsxVersion(version);
    if r.Err? {
      return;
    }
    r := VerifyHostNetwork(pnics);
    if r.Err? {
      return;
    }
    disconnected := true;
  }
}
