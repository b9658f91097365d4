/**
 * `Datacenter`: creating a datacenter under the root folder, and reading a
 * datacenter's host and network folders.
 */
module Datacenter {
  import opened JavaLang
  import opened VimTypes
  import VsphereConstants
  import PropertyCollector

  /** The rethrow around `createDatacenter` and `createClusterEx`: a
      duplicate or invalid name becomes IllegalArgumentException and a
      runtime fault HciServerException, both with the fault's message. */
  function CreationFault(f: Fault): (g: Fault)
    ensures (IsRemote(f, "DuplicateName") || IsRemote(f, "InvalidName")) ==> g == IllegalArgument(f.msg)
    ensures IsRemote(f, "RuntimeFault") ==> g == HciServer(f.msg)
    ensures !IsRemote(f, "DuplicateName") && !IsRemote(f, "InvalidName") && !IsRemote(f, "RuntimeFault") ==> g == f
  {
    if IsRemote(f, "DuplicateName") || IsRemote(f, "InvalidName") then IllegalArgument(f.msg)
    else if IsRemote(f, "RuntimeFault") then HciServer(f.msg)
    else f
  }

  /** The creation call, made only once the checks pass: the name it is
      given, and what `createDatacenter` returned or threw. */
  datatype DatacenterCreation = DatacenterCreation(sent: Option<string>, result: Result<Mor>)

  /** `createDatacenter`: the connection is checked before the name; a null
      MOR from the call becomes TaskFailedException. */
  function CreateDatacenter(connected: bool, dcName: Option<string>, created: Result<Option<Mor>>): (r: DatacenterCreation)
    ensures !connected ==> r == DatacenterCreation(None, Err(VerificationFailed("VC connection is not established")))
    ensures connected && IsNullOrEmpty(dcName) ==> r == DatacenterCreation(None, Err(IllegalArgument("Datacenter name is null or empty.")))
    ensures r.sent.Some? <==> connected && !IsNullOrEmpty(dcName)
    ensures r.sent.Some? ==> r.sent.value == dcName.value
    ensures r.sent.Some? ==> (r.result.Ok? <==> created.Ok? && created.value.Some?)
    ensures r.result.Ok? ==> created == Ok(Some(r.result.value))
    ensures r.sent.Some? && created.Err? ==> r.result == Err(CreationFault(created.fault))
    ensures r.sent.Some? && created == Ok(None) ==>
      r.result == Err(TaskFailed("Failed to create datacenter " + dcName.value,
                                 VsphereConstants.CREATEDATACENTER_TASK_FAILURE, "createDatacenter", dcName.value))
  {
    if !connected then DatacenterCreation(None, Err(VerificationFailed("VC connection is not established")))
    else if IsNullOrEmpty(dcName) then DatacenterCreation(None, Err(IllegalArgument("Datacenter name is null or empty.")))
    else
      var name := dcName.value;
      var result :=
        match created
        case Err(f) => Err(CreationFault(f))
        case Ok(None) => Err(TaskFailed("Failed to create datacenter " + name,
                                        VsphereConstants.CREATEDATACENTER_TASK_FAILURE, "createDatacenter", name))
        case Ok(Some(dc)) => Ok(dc);
      DatacenterCreation(Some(name), result)
  }

  /** When a check refuses, the outcome of the creation call is never
      looked at. */
  lemma ChecksPrecedeCreation(connected: bool, dcName: Option<string>, a: Result<Option<Mor>>, b: Result<Option<Mor>>)
    ensures !connected || IsNullOrEmpty(dcName) ==> CreateDatacenter(connected, dcName, a) == CreateDatacenter(connected, dcName, b)
  {
  }

  /** `isDatacenterExist`: the lookup is never made; the answer is always
      no. */
  function IsDatacenterExist(connected: bool, dcName: Option<string>): (found: bool)
    ensures !found
  {
    false
  }

  /** `getHostFolder` and `getNetworkFolder`: the property read, cast to a
      MOR; a null value stays null, any other kind of value fails the cast. */
  function FolderOf(read: Result<PropertyCollector.PropertyResult>): (r: Result<Option<Mor>>)
    ensures read.Err? ==> r == Err(read.fault)
    ensures r.Ok? && r.value.Some? <==> (exists m :: read == Ok(PropertyCollector.Plain(MorVal(m))))
    ensures r.Ok? && r.value.Some? ==> read == Ok(PropertyCollector.Plain(MorVal(r.value.value)))
    ensures read == Ok(PropertyCollector.Null) ==> r == Ok(None)
    ensures read.Ok? && !read.value.Null? && !(read.value.Plain? && read.value.val.MorVal?) ==> r == Err(ClassCast)
  {
    if read.Err? then Err(read.fault)
    else if read.value.Null? then Ok(None)
    else if read.value.Plain? && read.value.val.MorVal? then Ok(Some(read.value.val.mor))
    else Err(ClassCast)
  }
}
