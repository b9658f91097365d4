/**
 * `VcManager`: the license rules of the vCenter manager. A license key is
 * decoded by the license manager before it is added or removed, and a
 * license is assigned to an entity named by its id: a host's MOR value,
 * the vCenter's instance UUID or a cluster's MOR value.
 */
module VcManager {
  import opened JavaLang
  import opened VimTypes
  import VsphereUtil

  /** `LicenseManagerLicenseInfo`, as far as the rules read it. */
  datatype LicenseInfo = LicenseInfo(editionKey: Option<string>, licenseKey: Option<string>, used: Option<int>)

  /** A call to the license manager: the key sent (none when a rule
      refused before the call), and the outcome. */
  datatype LicenseCall = LicenseCall(sent: Option<Option<string>>, result: Result<()>)

  /** `addLicense`: a decoded license with neither an edition key nor a
      license key is refused with HciClientException and not added. */
  function AddLicense(licenseKey: Option<string>, decoded: Result<Option<LicenseInfo>>, added: Result<()>): (r: LicenseCall)
    ensures decoded.Err? ==> r == LicenseCall(None, Err(decoded.fault))
    ensures decoded == Ok(None) ==> r == LicenseCall(None, Err(NullPointer))
    ensures decoded.Ok? && decoded.value.Some? ==>
      (r.sent.None? <==> IsBlank(decoded.value.value.editionKey) && IsBlank(decoded.value.value.licenseKey))
    ensures r.sent.None? && decoded.Ok? && decoded.value.Some? ==>
      r.result == Err(HciClient("Invalid license: " + VsphereUtil.OrNull(licenseKey)))
    ensures r.sent.Some? ==> r.sent.value == licenseKey && r.result == added
  {
    var info := Deref(decoded);
    if info.Err? then LicenseCall(None, Err(info.fault))
    else if IsBlank(info.value.editionKey) && IsBlank(info.value.licenseKey) then
      LicenseCall(None, Err(HciClient("Invalid license: " + VsphereUtil.OrNull(licenseKey))))
    else LicenseCall(Some(licenseKey), added)
  }

  /** `removeLicense`: a license is removed only when it is not in use (no
      usage count, or a count of zero); otherwise HciClientException. */
  function RemoveLicense(licenseKey: Option<string>, decoded: Result<Option<LicenseInfo>>, removed: Result<()>): (r: LicenseCall)
    ensures decoded.Err? ==> r == LicenseCall(None, Err(decoded.fault))
    ensures decoded == Ok(None) ==> r == LicenseCall(None, Err(NullPointer))
    ensures decoded.Ok? && decoded.value.Some? ==>
      (r.sent.Some? <==> decoded.value.value.used.None? || decoded.value.value.used == Some(0))
    ensures r.sent.None? && decoded.Ok? && decoded.value.Some? ==>
      r.result == Err(HciClient("License " + VsphereUtil.OrNull(licenseKey) + " is used"))
    ensures r.sent.Some? ==> r.sent.value == licenseKey && r.result == removed
  {
    var info := Deref(decoded);
    if info.Err? then LicenseCall(None, Err(info.fault))
    else if info.value.used.None? || info.value.used.value == 0 then LicenseCall(Some(licenseKey), removed)
    else LicenseCall(None, Err(HciClient("License " + VsphereUtil.OrNull(licenseKey) + " is used")))
  }

  /** An `updateAssignedLicense` call: the assignment manager, entity id
      and license key sent (none when a step before the call threw), and
      the outcome. */
  datatype Assignment = Assignment(sent: Option<(Option<Mor>, Option<string>, Option<string>)>, result: Result<()>)

  /** The `(ManagedObjectReference)` cast of the `licenseAssignmentManager`
      entry of the license manager's properties: a fault of the read
      propagates, a missing entry casts to null, and a value that is not a
      MOR throws ClassCastException. */
  function AssignmentManager(read: Result<Option<PropValue>>): (r: Result<Option<Mor>>)
    ensures read.Err? ==> r == Err(read.fault)
    ensures read == Ok(None) ==> r == Ok(None)
    ensures (r.Ok? && r.value.Some?) <==> (read.Ok? && read.value.Some? && read.value.value.MorVal?)
    ensures r.Ok? && r.value.Some? ==> read == Ok(Some(MorVal(r.value.value)))
    ensures read.Ok? && read.value.Some? && !read.value.value.MorVal? ==> r == Err(ClassCast)
  {
    if read.Err? then Err(read.fault)
    else if read.value.None? then Ok(None)
    else if read.value.value.MorVal? then Ok(Some(read.value.value.mor))
    else Err(ClassCast)
  }

  /** `assignESXiLicense`: the host is looked up by name (lower-cased);
      a host not found is refused with HciClientException and nothing is
      assigned; otherwise the license goes to the host's MOR value. */
  function AssignEsxiLicense(fetchedHosts: Result<map<string, Mor>>, hostName: Option<string>,
                             managerRead: Result<Option<PropValue>>, licenseKey: Option<string>,
                             updated: Result<()>): (r: Assignment)
    ensures hostName.None? ==> r == Assignment(None, Err(NullPointer))
    ensures hostName.Some? && fetchedHosts.Err? ==> r == Assignment(None, Err(fetchedHosts.fault))
    ensures hostName.Some? && fetchedHosts.Ok? && ToLower(hostName.value) !in fetchedHosts.value ==>
      r == Assignment(None, Err(HciClient("Host " + hostName.value + " not found")))
    ensures r.sent.Some? <==>
      hostName.Some? && fetchedHosts.Ok? && ToLower(hostName.value) in fetchedHosts.value
      && AssignmentManager(managerRead).Ok?
    ensures r.sent.Some? ==>
      r.sent.value == (AssignmentManager(managerRead).value, Some(fetchedHosts.value[ToLower(hostName.value)].value), licenseKey)
      && r.result == updated
  {
    var hostMor := VsphereUtil.GetHostMor(fetchedHosts, hostName);
    if hostMor.Err? then Assignment(None, Err(hostMor.fault))
    else if hostMor.value.None? then Assignment(None, Err(HciClient("Host " + hostName.value + " not found")))
    else AssignLicense(managerRead, Some(hostMor.value.value.value), licenseKey, updated)
  }

  /** `assignVcLicense`: the license goes to the vCenter's instance UUID. */
  function AssignVcLicense(instanceUuid: Option<string>, managerRead: Result<Option<PropValue>>,
                           licenseKey: Option<string>, updated: Result<()>): (r: Assignment)
    ensures r.sent.Some? <==> AssignmentManager(managerRead).Ok?
    ensures r.sent.None? ==> r.result == Err(AssignmentManager(managerRead).fault)
    ensures r.sent.Some? ==>
      r.sent.value == (AssignmentManager(managerRead).value, instanceUuid, licenseKey) && r.result == updated
  {
    AssignLicense(managerRead, instanceUuid, licenseKey, updated)
  }

  /** `assignVsanLicense`: the cluster is looked up under its datacenter
      and the license goes to its MOR value; a cluster not found is
      dereferenced (NullPointerException) before the manager is read. */
  function AssignVsanLicense(dcs: map<string, Mor>, dcName: string, fetchUnder: Mor -> map<string, Mor>,
                             clusterName: string, managerRead: Result<Option<PropValue>>,
                             licenseKey: Option<string>, updated: Result<()>): (r: Assignment)
    ensures VsphereUtil.GetUnderDatacenterName(dcs, dcName, fetchUnder, clusterName).None? ==>
      r == Assignment(None, Err(NullPointer))
    ensures r.sent.Some? <==>
      VsphereUtil.GetUnderDatacenterName(dcs, dcName, fetchUnder, clusterName).Some?
      && AssignmentManager(managerRead).Ok?
    ensures r.sent.Some? ==>
      r.sent.value == (AssignmentManager(managerRead).value, Some(fetchUnder(dcs[dcName])[clusterName].value), licenseKey)
      && r.result == updated
  {
    var clusterMor := VsphereUtil.GetUnderDatacenterName(dcs, dcName, fetchUnder, clusterName);
    if clusterMor.None? then Assignment(None, Err(NullPointer))
    else AssignLicense(managerRead, Some(clusterMor.value.value), licenseKey, updated)
  }

  /** `assignLicense`: the assignment manager is read from the license
      manager, and one `updateAssignedLicense` call sends it with the
      entity and the key; a failed read or cast means no call. */
  function AssignLicense(managerRead: Result<Option<PropValue>>, entityId: Option<string>,
                         licenseKey: Option<string>, updated: Result<()>): (r: Assignment)
    ensures managerRead.Err? ==> r == Assignment(None, Err(managerRead.fault))
    ensures managerRead.Ok? && managerRead.value.Some? && !managerRead.value.value.MorVal? ==>
      r == Assignment(None, Err(ClassCast))
    ensures managerRead == Ok(None) ==> r == Assignment(Some((None, entityId, licenseKey)), updated)
    ensures forall m :: managerRead == Ok(Some(MorVal(m))) ==> r == Assignment(Some((Some(m), entityId, licenseKey)), updated)
  {
    var manager := AssignmentManager(managerRead);
    if manager.Err? then Assignment(None, Err(manager.fault))
    else Assignment(Some((manager.value, entityId, licenseKey)), updated)
  }
}
