# vSphere hyper-converged setup client, modelled in Dafny

The repository is a sample Java client for the VMware vSphere (VIM25 SOAP)
management API. It builds a hyper-converged cluster: it deploys a vCenter
appliance, creates a datacenter, a cluster and a distributed switch, adds
ESXi hosts, moves their VMkernel NICs and virtual machines onto the
distributed switch, and turns on vSAN. Nearly every operation ends in a
remote call. This project models the client-side logic around those calls:

- **Decision chains.** The guard chains and their exceptions.
- **Data shaping.** The list and map computations over fetched data.
- **Validators.** The error-accumulating input validators.
- **State machines.** The task monitor's polling loop and the progress counter.

Every remote read is an input value: a `Result` when the read may throw, an
`Option` when it may be null. Paging and polling replies are an input
sequence. A remote write is an output: the spec object the client would
send, paired with the outcome the server gives, which is an input too. The
server itself is not modelled.

One Dafny module models each core Java file. Three shared modules support them:

- `JavaLang` models the Java and Apache Commons behaviour the code relies on:
  - `null` as `Option`;
  - exceptions as the `Fault` datatype inside `Result`;
  - `String.split` with its trailing-empty-string rule;
  - `Integer.parseInt`, with its optional sign, decimal digits and 32-bit range;
  - `StringUtils.isBlank` and `StringUtils.trim`;
  - ASCII `toLowerCase`;
  - `int` wrap-around.
- `VimTypes` holds the vSphere records: managed object references, task
  info, property-collector and update-set shapes, and the spec records.
- `VsphereConstants` holds the MOR types and the task-failure codes
  1 to 16.

Where the code and its described behaviour disagree:

- **`parseVlanId` and its test.** `VsphereUtilTest.testParseVlanId` expects
  no exception for `"asdfasdf"` and `"-1--2"`. The code throws
  `NumberFormatException` for both (`VsphereUtil.NonNumericThrows`,
  `VsphereUtil.EmptyPartThrows`).
- **Code against its own comments.** The three discrepancies under
  "## Findings" are modelled twice: once as written, and once as the
  comments next to them intend. The callers take a `Reading`
  (`AsWritten` or `Intended`, in `HciTypes`) and follow that one:
  `Cluster.WaitForVsanUpdateTask` lists the tasks with either loop, and
  `VsphereService.DeployVcenter` with its checks uses either target test
  and either prefix test. With `AsWritten` they model the code.


## Model

| member | source | states |
|---|---|---|
| VsphereUtil.ParsePiece | src/main/java/com/vmware/sample/hci/vsphere/utils/VsphereUtil.java:432-441 | one comma piece split at '-' gives the range of `PieceRange`: a single part is start and end, two or more parts use the first two, a piece of only '-' keeps 0..0, and a failed parse is the result |
| VsphereUtil.ParseVlanId | src/main/java/com/vmware/sample/hci/vsphere/utils/VsphereUtil.java:425-446 | null for a null or blank string, with no exception; otherwise the ranges of the comma pieces in order, or the NumberFormatException of the first piece that fails |
| VsphereUtil.VlanIdsPerPiece | src/main/java/com/vmware/sample/hci/vsphere/utils/VsphereUtil.java:428-443 | a non-blank string yields exactly one range per comma piece, in piece order, and fails exactly when some piece fails |
| VsphereUtil.SinglePieceRange | src/main/java/com/vmware/sample/hci/vsphere/utils/VsphereUtil.java:434-436 | a piece without '-' gives start = end = its trimmed integer value |
| VsphereUtil.RangePieceRange | src/main/java/com/vmware/sample/hci/vsphere/utils/VsphereUtil.java:437-440 | a piece "a-b-..." takes start from a and end from b; later parts are ignored and start <= end is not required |
| VsphereUtil.PairPieceRange | src/main/java/com/vmware/sample/hci/vsphere/utils/VsphereUtil.java:437-440 | "a-b" with plain numeric parts denotes exactly the range of their two values |
| VsphereUtil.VlanIdsRoundTrip | src/main/java/com/vmware/sample/hci/vsphere/utils/VsphereUtil.java:425-446 | every non-empty list of non-negative 32-bit ranges, written as "a-b,c-d,...", parses back to the same list |
| VsphereUtil.NonNumericThrows | src/main/java/com/vmware/sample/hci/vsphere/utils/VsphereUtil.java:435-436 | a letters-only string raises NumberFormatException |
| VsphereUtil.EmptyPartThrows | src/main/java/com/vmware/sample/hci/vsphere/utils/VsphereUtil.java:437-439 | "-1--2" raises NumberFormatException on its empty first part |
| VsphereUtil.LeadingCommaThrows | src/main/java/com/vmware/sample/hci/vsphere/utils/VsphereUtil.java:428-439 | a leading ',' followed by something other than commas makes an empty first piece, which raises NumberFormatException |
| VsphereUtil.OnlyCommasGiveNoRanges | src/main/java/com/vmware/sample/hci/vsphere/utils/VsphereUtil.java:427-443 | a string of commas only is not blank, yet splits into nothing and yields an empty list without error |
| VsphereUtil.ArrayToVector | src/main/java/com/vmware/sample/hci/vsphere/utils/VsphereUtil.java:64-75 | the same elements in the same order; an empty vector for a null array |
| VsphereUtil.Lookup | src/main/java/com/vmware/sample/hci/vsphere/utils/VsphereUtil.java:98-103 | `HashMap.get`: the entry when the key is present, null exactly when it is absent |
| VsphereUtil.GetHostMor | src/main/java/com/vmware/sample/hci/vsphere/utils/VsphereUtil.java:142-161 | a null name throws NullPointerException before any fetch; a fault of the `inFolderByType` fetch propagates; otherwise the entry for the lower-cased name, or null |
| VsphereUtil.GetHostMorCaseInsensitive | src/main/java/com/vmware/sample/hci/vsphere/utils/VsphereUtil.java:147-152 | names equal up to ASCII letter case find the same host |
| VsphereUtil.GetUnderDatacenter | src/main/java/com/vmware/sample/hci/vsphere/utils/VsphereUtil.java:199-221 | a null datacenter gives null without any lookup; otherwise the entry of the map fetched under that datacenter |
| VsphereUtil.GetUnderDatacenterName | src/main/java/com/vmware/sample/hci/vsphere/utils/VsphereUtil.java:118-130 | the datacenter is resolved by name first, then the lookup is made under it; an unknown datacenter gives null |
| VsphereUtil.NoDatacenterNoLookup | src/main/java/com/vmware/sample/hci/vsphere/utils/VsphereUtil.java:294-311 | without a datacenter the result does not depend on what the fetch would return |
| VsphereUtil.DeleteObject | src/main/java/com/vmware/sample/hci/vsphere/utils/VsphereUtil.java:403-416 | it succeeds exactly when the destroy task succeeds, and a monitor exception propagates; on failure, a null task-info read or a task with no recorded fault is NullPointerException, and otherwise TaskFailedException with code 4 (`DELETEDCOJBECT_TASK_FAILURE`), the fault's localized message, the task name and the target |
| VsphereUtil.TaskFailure | src/main/java/com/vmware/sample/hci/vsphere/utils/VsphereUtil.java:411-413 | the exception a failed task raises: NullPointerException exactly when the task recorded no fault, otherwise TaskFailedException with the fault's localized message, the code, the task name and the target |
| InputPortgroupConfiguration.InputPortgroupConfiguration.constructor | src/main/java/com/vmware/sample/hci/vsphere/InputPortgroupConfiguration.java:30-39 | the names are mgmtPortgroup, vmotionPortgroup, vsanPortgroup and vmPortgroup; there are no trunks and no messages |
| InputPortgroupConfiguration.InputPortgroupConfiguration.CheckTrunk | src/main/java/com/vmware/sample/hci/vsphere/InputPortgroupConfiguration.java:76-82 | appends one message exactly when parsing this trunk throws; earlier messages are kept |
| InputPortgroupConfiguration.InputPortgroupConfiguration.CheckValid | src/main/java/com/vmware/sample/hci/vsphere/InputPortgroupConfiguration.java:75-101 | the list becomes the old list followed by the messages for the mgmt, vMotion, vSan and VM trunks, in that order; the returned list is that field |
| InputPortgroupConfiguration.PortgroupErrorsEmptyIff | src/main/java/com/vmware/sample/hci/vsphere/InputPortgroupConfiguration.java:76-99 | a check adds nothing exactly when all four trunks parse; a null or blank trunk always parses |
| InputPortgroupConfiguration.TrunkErrorsNameTraffic | src/main/java/com/vmware/sample/hci/vsphere/InputPortgroupConfiguration.java:76-99 | a rejected trunk adds exactly one message, and that message starts with its traffic type |
| InputPortgroupConfiguration.FormattedTrunkAccepted | src/main/java/com/vmware/sample/hci/vsphere/InputPortgroupConfiguration.java:76-99 | the text of any list of non-negative 32-bit VLAN ranges draws no message |
| InputPortgroupConfiguration.NonNumericTrunkReported | src/main/java/com/vmware/sample/hci/vsphere/InputPortgroupConfiguration.java:76-82 | a letters-only trunk is reported |
| InputVcConfiguration.DefaultName | src/main/java/com/vmware/sample/hci/vsphere/InputVcConfiguration.java:96-112 | a blank name becomes the default and any other name is kept; the result is never blank when the default is not |
| InputVcConfiguration.InputVcConfiguration.constructor | src/main/java/com/vmware/sample/hci/vsphere/InputVcConfiguration.java:32-37 | the names start as Datacenter1, Cluster1 and DVSwitch1, with an empty list of messages |
| InputVcConfiguration.InputVcConfiguration.CheckVcInfo | src/main/java/com/vmware/sample/hci/vsphere/InputVcConfiguration.java:82-94 | appends the connection messages after the existing ones |
| InputVcConfiguration.InputVcConfiguration.CheckValid | src/main/java/com/vmware/sample/hci/vsphere/InputVcConfiguration.java:80-125 | appends the connection messages, then, for a non-null portgroup configuration, its whole list after its check; the blank names fall back to their defaults; the object's own list accumulates across calls; the connection details, the portgroup object and its trunks are unchanged |
| InputVcConfiguration.VcInfoErrorsIff | src/main/java/com/vmware/sample/hci/vsphere/InputVcConfiguration.java:82-94 | no message exactly when the connection details are present and ip, user and password are non-blank; a null connection gives one message; otherwise each blank field gives one |
| InputVcConfiguration.DefaultIfBlankSettles | src/main/java/com/vmware/sample/hci/vsphere/InputVcConfiguration.java:96-112 | after the fallback a name is not blank, and a second fallback changes nothing |
| InputVcConfiguration.DefaultNamesNotBlank | src/main/java/com/vmware/sample/hci/vsphere/InputVcConfiguration.java:96-112 | the three default names are not blank, so a second check keeps them |
| InputHostConfiguration.InputHostConfiguration.constructor | src/main/java/com/vmware/sample/hci/vsphere/InputHostConfiguration.java:31-37 | DHCP is off for all three traffic types, and there are no hosts, addresses or messages |
| InputHostConfiguration.InputHostConfiguration.CheckDefaultHost | src/main/java/com/vmware/sample/hci/vsphere/InputHostConfiguration.java:132-150 | appends one message for a null default host, or one "Could not connect" message when the connection fails |
| InputHostConfiguration.InputHostConfiguration.CheckCustomizedHost | src/main/java/com/vmware/sample/hci/vsphere/InputHostConfiguration.java:151-166 | appends one message for a null customized host, otherwise one per blank IP, hostname, username and password |
| InputHostConfiguration.InputHostConfiguration.CheckNetwork | src/main/java/com/vmware/sample/hci/vsphere/InputHostConfiguration.java:167-190 | with DHCP off, appends one message per blank IP and per blank netmask; with DHCP on, nothing |
| InputHostConfiguration.InputHostConfiguration.CheckHosts | src/main/java/com/vmware/sample/hci/vsphere/InputHostConfiguration.java:132-166 | appends the default-host messages, then the customized-host messages |
| InputHostConfiguration.InputHostConfiguration.CheckNetworks | src/main/java/com/vmware/sample/hci/vsphere/InputHostConfiguration.java:167-190 | appends the mgmt, vMotion and vSan messages, in that order |
| InputHostConfiguration.InputHostConfiguration.CheckValid | src/main/java/com/vmware/sample/hci/vsphere/InputHostConfiguration.java:130-196 | the list becomes the old list followed by the default, customized, mgmt, vMotion and vSan messages, in that order, and is returned |
| InputHostConfiguration.CustomizedHostErrorsEmptyIff | src/main/java/com/vmware/sample/hci/vsphere/InputHostConfiguration.java:151-166 | no customized-host message exactly when the host is present with all four fields non-blank |
| InputHostConfiguration.NetworkErrorsEmptyIff | src/main/java/com/vmware/sample/hci/vsphere/InputHostConfiguration.java:167-190 | no message for a traffic type exactly when it uses DHCP or has both ip and netmask |
| InputHostConfiguration.HostErrorsEmptyIff | src/main/java/com/vmware/sample/hci/vsphere/InputHostConfiguration.java:130-190 | a check adds nothing exactly when the default host is given and reachable, the customized host is complete, and each traffic type uses DHCP or is fully addressed |
| InputHostConfiguration.HostErrorsBounds | src/main/java/com/vmware/sample/hci/vsphere/InputHostConfiguration.java:130-190 | the default host adds at most one message, the customized host at most four, and each traffic type at most two (none under DHCP) |
| VirtualDistributedSwitch.CreateVdsSpec | src/main/java/com/vmware/sample/hci/vsphere/operation/VirtualDistributedSwitch.java:74-86 | the switch name is the given one; product name "DVS", vendor "VMware, Inc."; version and config version "6.0.0" |
| VirtualDistributedSwitch.CreateVds | src/main/java/com/vmware/sample/hci/vsphere/operation/VirtualDistributedSwitch.java:69-97 | the folder lookup, submission, monitor and info-read exceptions propagate in that order; otherwise the task's result, whatever the monitor's verdict |
| VirtualDistributedSwitch.CreateVdsIgnoresVerdict | src/main/java/com/vmware/sample/hci/vsphere/operation/VirtualDistributedSwitch.java:88-96 | a failed creation task gives the caller the same result as a successful one |
| VirtualDistributedSwitch.PortgroupSpec | src/main/java/com/vmware/sample/hci/vsphere/operation/VirtualDistributedSwitch.java:101-118 | the given name, 1024 ports, type "earlyBinding"; a trunk spec (not inherited) holding `parseVlanId`'s ranges in order exactly when the VLAN string is non-blank and not "0"; that parse's NumberFormatException escapes |
| VirtualDistributedSwitch.CreateDvPortGroup | src/main/java/com/vmware/sample/hci/vsphere/operation/VirtualDistributedSwitch.java:99-138 | the created portgroup's MOR when the task succeeds and its info names a result; every other failure after the spec is built is one HciServerException; it never returns without a result |
| VirtualDistributedSwitch.ConfigVersion | src/main/java/com/vmware/sample/hci/vsphere/operation/VirtualDistributedSwitch.java:140-153 | the config version when the read gives a string; a failed read or another class becomes HciServerException |
| VirtualDistributedSwitch.DvsConfig | src/main/java/com/vmware/sample/hci/vsphere/operation/VirtualDistributedSwitch.java:194-210 | null for a null switch or a value that is not a DVSConfigInfo; otherwise that config |
| VirtualDistributedSwitch.UplinkPortgroups | src/main/java/com/vmware/sample/hci/vsphere/operation/VirtualDistributedSwitch.java:212-231 | null for a null switch or config; otherwise the uplink portgroups, and an empty list throws when its first entry is logged |
| VirtualDistributedSwitch.PortGroupKey | src/main/java/com/vmware/sample/hci/vsphere/operation/VirtualDistributedSwitch.java:233-250 | null unless the MOR's type is exactly "DistributedVirtualPortgroup" and the key read is a String; then that key |
| VirtualDistributedSwitch.ReconfigCaught | src/main/java/com/vmware/sample/hci/vsphere/operation/VirtualDistributedSwitch.java:266-274 | the listed remote faults become HciServerException, and a TaskFailedException passes through unchanged |
| VirtualDistributedSwitch.VdsReconfig | src/main/java/com/vmware/sample/hci/vsphere/operation/VirtualDistributedSwitch.java:252-275 | true exactly when the task succeeds; otherwise `TaskFailure` with code 7 naming the switch (NullPointerException, not rewrapped, when the task recorded no fault), and the caught faults rewrapped |
| VirtualDistributedSwitch.PnicSpecs | src/main/java/com/vmware/sample/hci/vsphere/operation/VirtualDistributedSwitch.java:172-179 | one pnic spec per device, in order, each on the given uplink portgroup key |
| VirtualDistributedSwitch.BuildPnicSpecs | src/main/java/com/vmware/sample/hci/vsphere/operation/VirtualDistributedSwitch.java:172-179 | the loop yields `PnicSpecs` of the devices |
| VirtualDistributedSwitch.AddHostConfig | src/main/java/com/vmware/sample/hci/vsphere/operation/VirtualDistributedSwitch.java:155-190 | the host-member spec: operation "add", the switch's config version, the host, and one pnic spec per idle pnic in order on the first uplink portgroup's key; the exceptions of the reads propagate |
| VirtualDistributedSwitch.AddHostToVds | src/main/java/com/vmware/sample/hci/vsphere/operation/VirtualDistributedSwitch.java:155-192 | the spec sent is `AddHostConfig`, and the result is `vdsReconfig` with that spec |
| Task.ChangeDecisionFacts | src/main/java/com/vmware/sample/hci/vsphere/operation/Task.java:281-338 | a state found is SUCCESS or ERROR; a change decides something only when it has no name or is named "info" |
| Task.ChangesStateFirstWins | src/main/java/com/vmware/sample/hci/vsphere/operation/Task.java:281-338 | a change set gives no state exactly when no change decides, otherwise the first deciding change wins; QUEUED and RUNNING decide nothing |
| Task.UpdateListOnlyFirstObject | src/main/java/com/vmware/sample/hci/vsphere/operation/Task.java:241-279 | two update lists that agree on each filter update's first object update give the same state |
| Task.OtherObjectsIgnored | src/main/java/com/vmware/sample/hci/vsphere/operation/Task.java:269-279 | no state is found when no filter update starts with an object update for the monitored task |
| Task.Round | src/main/java/com/vmware/sample/hci/vsphere/operation/Task.java:171-182 | a round uses at most the attempts it is given and ends at the first attempt that does not throw |
| Task.RoundFacts | src/main/java/com/vmware/sample/hci/vsphere/operation/Task.java:171-182 | a round stops at the first attempt that does not throw and makes at most its 31 attempts; the outcomes before that all threw |
| Task.LastVersionAfterThrows | src/main/java/com/vmware/sample/hci/vsphere/operation/Task.java:174-198 | outcomes that throw leave the last version unchanged |
| Task.WaitRound | src/main/java/com/vmware/sample/hci/vsphere/operation/Task.java:171-182 | a round yields `Round` of the outcomes, each attempt passing the current version |
| Task.MonitorRound | src/main/java/com/vmware/sample/hci/vsphere/operation/Task.java:160-215 | one do/while pass matches one step of `Watching`: a null reply increments the no-update counter, a set resets it and is classified, and a round whose attempts all throw reprocesses the kept set |
| Task.MonitorTask | src/main/java/com/vmware/sample/hci/vsphere/operation/Task.java:108-228 | the outcome is `Monitor` of the replies; the versions passed are "" at first, then the version of the last set received |
| Task.NoTaskInfoNoMonitoring | src/main/java/com/vmware/sample/hci/vsphere/operation/Task.java:118-226 | without task info the result is false, and no filter is created and no wait is made |
| Task.FilterDestroyedOnce | src/main/java/com/vmware/sample/hci/vsphere/operation/Task.java:151-220 | a created filter is destroyed exactly once on every exit, time-out included; a filter never created is never destroyed |
| Task.WatchingUses | src/main/java/com/vmware/sample/hci/vsphere/operation/Task.java:160-215 | the loop uses no more outcomes than there are |
| Task.ReturnedReflectsState | src/main/java/com/vmware/sample/hci/vsphere/operation/Task.java:200-214 | a returned result is the verdict of a received update set: true when it reported SUCCESS, false when it reported ERROR |
| Task.MonitorResultMeaning | src/main/java/com/vmware/sample/hci/vsphere/operation/Task.java:108-228 | true only after an update reporting SUCCESS; false only after one reporting ERROR or when there is no task info |
| Task.FirstReplyDecides | src/main/java/com/vmware/sample/hci/vsphere/operation/Task.java:171-214 | a first reply that reports a finished task ends monitoring at once with that verdict |
| Task.SilenceTimesOut | src/main/java/com/vmware/sample/hci/vsphere/operation/Task.java:183-196 | replies without an update set raise the "Operation Timed Out" exception once the no-update counter reaches 30 |
| Task.TimeoutAfterThirtySilentRounds | src/main/java/com/vmware/sample/hci/vsphere/operation/Task.java:183-196 | thirty null replies in a row time the monitor out |
| Task.ThrowingRoundReprocesses | src/main/java/com/vmware/sample/hci/vsphere/operation/Task.java:160-200 | a round whose attempts all throw reprocesses the kept update set: with none it counts as a silent round; with an undecided one the counter resets and the version stays |
| Task.TimeoutMessageSaysZeroMinutes | src/main/java/com/vmware/sample/hci/vsphere/operation/Task.java:186-191 | the time-out message reports "0 Minutes", because 3 / 60000 is 0 in integer division |
| PropertyCollector.CreateFilter | src/main/java/com/vmware/sample/hci/vsphere/operation/PropertyCollector.java:186-218 | one object spec (the MOR, not skipped), one property spec (not all, just the property, of the MOR's type), and partial updates off |
| PropertyCollector.QuerySelectsOneProperty | src/main/java/com/vmware/sample/hci/vsphere/operation/PropertyCollector.java:80-99 | the query of `getDynamicProperty` selects exactly the MOR and the named property of its type, and is the same as the monitoring filter's |
| PropertyCollector.GetDynamicProperty | src/main/java/com/vmware/sample/hci/vsphere/operation/PropertyCollector.java:71-142 | a null MOR throws before any retrieval; an unnamed first property throws; otherwise the first value of the last content with properties, unwrapped |
| PropertyCollector.LastFirstValueIsLast | src/main/java/com/vmware/sample/hci/vsphere/operation/PropertyCollector.java:100-118 | the value found is that of the last content with a non-empty property set; empty contents play no part |
| PropertyCollector.UnwrapKeepsContents | src/main/java/com/vmware/sample/hci/vsphere/operation/PropertyCollector.java:121-139 | a reference array comes back with the same elements in the same order; an Element becomes its first child's text |
| PropertyCollector.GetName | src/main/java/com/vmware/sample/hci/vsphere/operation/PropertyCollector.java:318-327 | never throws: the name when the read gives a string, null otherwise |
| PropertyCollector.GetNameMeaning | src/main/java/com/vmware/sample/hci/vsphere/operation/PropertyCollector.java:318-327 | a name string read is returned unchanged, and nothing else gives a name |
| PropertyCollector.GetRecentActiveTaskAsWritten | src/main/java/com/vmware/sample/hci/vsphere/operation/PropertyCollector.java:262-309 | the loop as written yields `ScanAsWritten`: a null-info task is removed by value (the first equal element, as `Vector.remove(Object)` does), and the loop then moves past the task that slid into its place |
| PropertyCollector.RemoveFirstAt | src/main/java/com/vmware/sample/hci/vsphere/operation/PropertyCollector.java:303-305 | removing by value drops the element at index i exactly as removing at i does, when no equal element stands before it |
| PropertyCollector.AsWrittenKeepsSecondNullTask | src/main/java/com/vmware/sample/hci/vsphere/operation/PropertyCollector.java:290-302 | with two null-info tasks in a row, the second survives the written loop, while the intended list is empty |
| PropertyCollector.GetRecentActiveTask | src/main/java/com/vmware/sample/hci/vsphere/operation/PropertyCollector.java:262-309 | corrected loop: the result is `RecentActiveTasks`, the tasks with readable info in order, with the same exceptions as the source |
| PropertyCollector.WithInfoKeepsExactly | src/main/java/com/vmware/sample/hci/vsphere/operation/PropertyCollector.java:268-308 | a task is in the intended list exactly when it is in the input and its info is non-null; the list is no longer than the input, and is the whole input when every task has info |
| GetMoref.EntityNameMeaning | src/main/java/com/vmware/sample/hci/connection/helpers/GetMOREF.java:58-63 | an object's key is the value of its last property, null when there is none; it fails with ClassCastException exactly when some value is not a string |
| GetMoref.EntityNameOf | src/main/java/com/vmware/sample/hci/connection/helpers/GetMOREF.java:58-63 | the inner loop yields `EntityName` |
| GetMoref.Populate | src/main/java/com/vmware/sample/hci/connection/helpers/GetMOREF.java:52-69 | a null page leaves the map unchanged and gives a null token; otherwise it gives the page's token |
| GetMoref.PutAllMeaning | src/main/java/com/vmware/sample/hci/connection/helpers/GetMOREF.java:55-67 | fails exactly on a cast; otherwise every name maps to the MOR of its last object on the page, and other entries are kept |
| GetMoref.PutContents | src/main/java/com/vmware/sample/hci/connection/helpers/GetMOREF.java:55-67 | the loop yields `PutAll` of the page |
| GetMoref.PopulateMap | src/main/java/com/vmware/sample/hci/connection/helpers/GetMOREF.java:52-69 | the method yields `Populate` |
| GetMoref.ResultsToTargetMorMap | src/main/java/com/vmware/sample/hci/connection/helpers/GetMOREF.java:195-211 | the map of `populate`, without the token, and its failure |
| GetMoref.DrainToMapMeaning | src/main/java/com/vmware/sample/hci/connection/helpers/GetMOREF.java:274-281 | a drained loop put exactly the pages it fetched and went on exactly while the token was non-null and non-empty; it fails only on a cast |
| GetMoref.ToMapMeaning | src/main/java/com/vmware/sample/hci/connection/helpers/GetMOREF.java:270-283 | the result equals putting the first page and then the fetched continuation pages in order; every page but the last carries a non-null, non-empty token and the last does not |
| GetMoref.ToMapPaged | src/main/java/com/vmware/sample/hci/connection/helpers/GetMOREF.java:270-283 | the loop yields `ToMap` |
| GetMoref.DrainFolderMeaning | src/main/java/com/vmware/sample/hci/connection/helpers/GetMOREF.java:183-190 | a drained folder scan put exactly the pages it read and went on from each page but the last; it stops at the first page that is null, empty or without a token |
| GetMoref.InFolderByTypeMeaning | src/main/java/com/vmware/sample/hci/connection/helpers/GetMOREF.java:168-193 | it follows any non-null token, an empty one included, and stops at the first null or empty page whatever its token; the result is those pages put in order |
| GetMoref.InFolderByTypePaged | src/main/java/com/vmware/sample/hci/connection/helpers/GetMOREF.java:168-193 | the loop yields `InFolderByType` |
| GetMoref.PropertyFilterSpecs | src/main/java/com/vmware/sample/hci/connection/helpers/GetMOREF.java:108-139 | one filter spec: the given properties of the given type, over the container view (skipped) and its "view" traversal |
| GetMoref.PropPairs | src/main/java/com/vmware/sample/hci/connection/helpers/GetMOREF.java:433-441 | the (name, value) pairs of a property list, one per property, in order |
| GetMoref.PropPairsMeaning | src/main/java/com/vmware/sample/hci/connection/helpers/GetMOREF.java:433-441 | one property list adds its names, each with the value of its last property of that name; other entries are kept |
| GetMoref.ContentPairsMeaning | src/main/java/com/vmware/sample/hci/connection/helpers/GetMOREF.java:429-442 | the map holds exactly the names that occur in the contents, each with the value of its last occurrence |
| GetMoref.PutProperties | src/main/java/com/vmware/sample/hci/connection/helpers/GetMOREF.java:433-441 | the inner loop puts the list's pairs in order |
| GetMoref.EntityQuery | src/main/java/com/vmware/sample/hci/connection/helpers/GetMOREF.java:408-425 | the given properties of the one object's type, over that object, not skipped |
| GetMoref.PutContentProperties | src/main/java/com/vmware/sample/hci/connection/helpers/GetMOREF.java:429-442 | the loops yield `ContentMap` of the reply's contents |
| GetMoref.EntityProps | src/main/java/com/vmware/sample/hci/connection/helpers/GetMOREF.java:408-443 | the query is `EntityQuery`'s; the result is the property map of the reply; a null reply throws, and the token is not followed |
| GetMoref.DistinctTypesMeaning | src/main/java/com/vmware/sample/hci/connection/helpers/GetMOREF.java:465-486 | every MOR type occurs exactly once, and in first-occurrence order |
| GetMoref.TypeSpecs | src/main/java/com/vmware/sample/hci/connection/helpers/GetMOREF.java:472-480 | one property spec per type, in order, each asking for the given properties |
| GetMoref.ObjectSpecs | src/main/java/com/vmware/sample/hci/connection/helpers/GetMOREF.java:481-485 | one object spec per MOR, in order |
| GetMoref.SpecsSnoc | src/main/java/com/vmware/sample/hci/connection/helpers/GetMOREF.java:465-486 | one more MOR adds a property spec only for a new type, and always an object spec |
| GetMoref.AddEntity | src/main/java/com/vmware/sample/hci/connection/helpers/GetMOREF.java:469-485 | one loop pass appends a property spec when the type is new and always an object spec, and records the type as covered |
| GetMoref.EntityPropsSpec | src/main/java/com/vmware/sample/hci/connection/helpers/GetMOREF.java:465-486 | one filter spec with one property spec per distinct type in first-occurrence order and one object spec per MOR in input order |
| GetMoref.PopulateList | src/main/java/com/vmware/sample/hci/connection/helpers/GetMOREF.java:71-78 | the page's objects appended in order, and its token; a null page appends nothing and gives a null token |
| GetMoref.DrainListTokens | src/main/java/com/vmware/sample/hci/connection/helpers/GetMOREF.java:492-500 | the paging loop never throws, and goes on exactly while the token is non-null and non-empty |
| GetMoref.DrainListContents | src/main/java/com/vmware/sample/hci/connection/helpers/GetMOREF.java:492-500 | a drained list holds the objects of every fetched page, in order |
| GetMoref.PropsByMorMeaning | src/main/java/com/vmware/sample/hci/connection/helpers/GetMOREF.java:501-511 | every returned MOR is a key, mapped to the properties of its last content, with later properties of a name replacing earlier ones |
| GetMoref.PropsByMorOf | src/main/java/com/vmware/sample/hci/connection/helpers/GetMOREF.java:501-511 | the final loop yields `PropsByMor` |
| GetMoref.EntityPropsAllMeaning | src/main/java/com/vmware/sample/hci/connection/helpers/GetMOREF.java:457-513 | every continuation page is fetched; the map covers the objects of the first page and all later pages, in order; it never throws |
| GetMoref.DrainPages | src/main/java/com/vmware/sample/hci/connection/helpers/GetMOREF.java:488-500 | the paging loop yields `DrainList` from the first page |
| GetMoref.EntityPropsOfAll | src/main/java/com/vmware/sample/hci/connection/helpers/GetMOREF.java:457-513 | the query is `EntityPropsSpec`'s, and the result is `EntityPropsAll` of the replies |
| GetMoref.VmTraversalClosed | src/main/java/com/vmware/sample/hci/connection/helpers/GetMOREF.java:351-397 | the graph names exactly the four traversals; VisitFolders, vAppToVApp and vAppToVM are referred to by name; every reference names a traversal of the graph |
| GetMoref.VAppToVmSpec | src/main/java/com/vmware/sample/hci/connection/helpers/GetMOREF.java:355-360 | the builders produce the vAppToVM traversal (VirtualApp to "vm") |
| GetMoref.VAppToVAppSpec | src/main/java/com/vmware/sample/hci/connection/helpers/GetMOREF.java:362-372 | the builders produce the vAppToVApp traversal, which refers to itself and to vAppToVM |
| GetMoref.DataCenterToVmFolderSpec | src/main/java/com/vmware/sample/hci/connection/helpers/GetMOREF.java:374-382 | the builders produce the DataCenterToVMFolder traversal, which refers to VisitFolders |
| GetMoref.VmTraversalSpec | src/main/java/com/vmware/sample/hci/connection/helpers/GetMOREF.java:351-397 | the builders produce the closed graph of `VmTraversalClosed` |
| GetMoref.FindVmMeaning | src/main/java/com/vmware/sample/hci/connection/helpers/GetMOREF.java:325-344 | no VM exactly when every name differs from vmName; a VM found is the object of the first content with that name; it fails only on a cast |
| GetMoref.VmQuery | src/main/java/com/vmware/sample/hci/connection/helpers/GetMOREF.java:294-324 | the names of all virtual machines under the root folder, through the VM traversal graph |
| GetMoref.VmByVmNameOf | src/main/java/com/vmware/sample/hci/connection/helpers/GetMOREF.java:294-345 | the query is `VmQuery`'s; the result is the first VM with that name on the first page, or null; a null reply throws |
| PropertyFilterSpecBuilder.PropertyFilterSpecBuilder.constructor | src/main/java/com/vmware/sample/hci/connection/helpers/builders/PropertyFilterSpecBuilder.java:23-51 | every field starts null |
| PropertyFilterSpecBuilder.PropertyFilterSpecBuilder.Init | src/main/java/com/vmware/sample/hci/connection/helpers/builders/PropertyFilterSpecBuilder.java:27-34 | each null list is allocated empty; an allocated list keeps its entries |
| PropertyFilterSpecBuilder.PropertyFilterSpecBuilder.ReportMissingObjectsInResults | src/main/java/com/vmware/sample/hci/connection/helpers/builders/PropertyFilterSpecBuilder.java:36-39 | sets only that flag and returns the same builder |
| PropertyFilterSpecBuilder.PropertyFilterSpecBuilder.PropSet | src/main/java/com/vmware/sample/hci/connection/helpers/builders/PropertyFilterSpecBuilder.java:41-45 | appends the specs in argument order; the object specs read as before; returns the same builder |
| PropertyFilterSpecBuilder.PropertyFilterSpecBuilder.ObjectSet | src/main/java/com/vmware/sample/hci/connection/helpers/builders/PropertyFilterSpecBuilder.java:47-51 | appends the specs in argument order; the property specs read as before; returns the same builder |
| TraversalSpecBuilder.TraversalSpecBuilder.constructor | src/main/java/com/vmware/sample/hci/connection/helpers/builders/TraversalSpecBuilder.java:22-56 | every field starts null |
| TraversalSpecBuilder.TraversalSpecBuilder.Init | src/main/java/com/vmware/sample/hci/connection/helpers/builders/TraversalSpecBuilder.java:26-30 | a null selection list is allocated empty; an allocated one keeps its entries |
| TraversalSpecBuilder.TraversalSpecBuilder.Name | src/main/java/com/vmware/sample/hci/connection/helpers/builders/TraversalSpecBuilder.java:32-35 | sets only the name and returns the same builder |
| TraversalSpecBuilder.TraversalSpecBuilder.Path | src/main/java/com/vmware/sample/hci/connection/helpers/builders/TraversalSpecBuilder.java:37-40 | sets only the path and returns the same builder |
| TraversalSpecBuilder.TraversalSpecBuilder.Skip | src/main/java/com/vmware/sample/hci/connection/helpers/builders/TraversalSpecBuilder.java:42-45 | sets only the skip flag and returns the same builder |
| TraversalSpecBuilder.TraversalSpecBuilder.Type | src/main/java/com/vmware/sample/hci/connection/helpers/builders/TraversalSpecBuilder.java:47-50 | sets only the type and returns the same builder |
| TraversalSpecBuilder.TraversalSpecBuilder.SelectSet | src/main/java/com/vmware/sample/hci/connection/helpers/builders/TraversalSpecBuilder.java:52-56 | appends the selections in argument order after the existing ones; the other fields are unchanged |
| ObjectSpecBuilder.ObjectSpecBuilder.constructor | src/main/java/com/vmware/sample/hci/connection/helpers/builders/ObjectSpecBuilder.java:23-47 | every field starts null |
| ObjectSpecBuilder.ObjectSpecBuilder.Init | src/main/java/com/vmware/sample/hci/connection/helpers/builders/ObjectSpecBuilder.java:27-31 | a null selection list is allocated empty; an allocated one keeps its entries |
| ObjectSpecBuilder.ObjectSpecBuilder.Obj | src/main/java/com/vmware/sample/hci/connection/helpers/builders/ObjectSpecBuilder.java:33-36 | sets only the object and returns the same builder |
| ObjectSpecBuilder.ObjectSpecBuilder.Skip | src/main/java/com/vmware/sample/hci/connection/helpers/builders/ObjectSpecBuilder.java:38-41 | sets only the skip flag and returns the same builder |
| ObjectSpecBuilder.ObjectSpecBuilder.SelectSet | src/main/java/com/vmware/sample/hci/connection/helpers/builders/ObjectSpecBuilder.java:43-47 | appends the selections in argument order after the existing ones; the other fields are unchanged |
| HostNetwork.WithPortgroups | src/main/java/com/vmware/sample/hci/vsphere/operation/HostNetwork.java:91-100 | the mgmt, vMotion and vSan portgroups are the first three entries; an array shorter than three throws |
| HostNetwork.WithPortgroup | src/main/java/com/vmware/sample/hci/vsphere/operation/HostNetwork.java:102-111 | the one portgroup is the mgmt portgroup; vMotion and vSan have none |
| HostNetwork.HostNetworkInfo | src/main/java/com/vmware/sample/hci/vsphere/operation/HostNetwork.java:298-309 | the network info when it is read; any failure becomes one HciServerException |
| HostNetwork.SwitchPnicKeysMeaning | src/main/java/com/vmware/sample/hci/vsphere/operation/HostNetwork.java:484-496 | a key is collected exactly when some standard switch lists it |
| HostNetwork.FreeDevicesMeaning | src/main/java/com/vmware/sample/hci/vsphere/operation/HostNetwork.java:497-505 | a device is a candidate exactly when it belongs to a pnic whose key is on no standard switch |
| HostNetwork.RemoveFirstCount | src/main/java/com/vmware/sample/hci/vsphere/operation/HostNetwork.java:515-525 | `List.remove` takes away exactly one copy of the element, if there is one |
| HostNetwork.RemoveEachCount | src/main/java/com/vmware/sample/hci/vsphere/operation/HostNetwork.java:506-527 | removing once per backed pnic is a multiset difference |
| HostNetwork.IdlePnicsMeaning | src/main/java/com/vmware/sample/hci/vsphere/operation/HostNetwork.java:463-535 | only candidate devices, each at most as often as it occurs; all of them in order without a proxy switch; an empty result throws InvalidProperty |
| HostNetwork.IdlePnicIsFree | src/main/java/com/vmware/sample/hci/vsphere/operation/HostNetwork.java:484-535 | an idle device belongs to a pnic whose key is on no standard switch |
| HostNetwork.GetIdlePNic | src/main/java/com/vmware/sample/hci/vsphere/operation/HostNetwork.java:463-535 | the loops yield `IdlePnics` of the network info, and a failed read propagates |
| HostNetwork.IdleUplinksMeaning | src/main/java/com/vmware/sample/hci/vsphere/operation/HostNetwork.java:413-432 | an uplink key is kept exactly when no existing pnic spec uses it, in uplink order |
| HostNetwork.IsIdle | src/main/java/com/vmware/sample/hci/vsphere/operation/HostNetwork.java:418-428 | true exactly when no pnic spec uses the key |
| HostNetwork.IdleVdsUplinkPortKeys | src/main/java/com/vmware/sample/hci/vsphere/operation/HostNetwork.java:396-433 | the loop yields `IdleUplinks`: exactly the unused uplink keys, in order |
| HostNetwork.Pairs | src/main/java/com/vmware/sample/hci/vsphere/operation/HostNetwork.java:367-380 | the i-th pnic on the i-th uplink, for i below the shorter length, in order |
| HostNetwork.PairPnics | src/main/java/com/vmware/sample/hci/vsphere/operation/HostNetwork.java:367-380 | the pairing loop yields `Pairs` |
| HostNetwork.PnicFromVss | src/main/java/com/vmware/sample/hci/vsphere/operation/HostNetwork.java:389-394 | the bonded devices of the first standard switch; no switch, no bridge or a failed read throws |
| HostNetwork.BuildPnicSpec | src/main/java/com/vmware/sample/hci/vsphere/operation/HostNetwork.java:358-381 | the standard switch's pnics paired with the proxy switch's idle uplinks, or the failure of either read |
| HostNetwork.BuildHostProxySwitchConfig | src/main/java/com/vmware/sample/hci/vsphere/operation/HostNetwork.java:435-450 | the fetched config marked "edit", with the existing pnic specs kept and the new pairs appended after them |
| HostNetwork.NewPnicSpecsUseIdleUplinks | src/main/java/com/vmware/sample/hci/vsphere/operation/HostNetwork.java:358-450 | every appended spec is on an uplink no existing spec uses, and pairs a pnic of the standard switch with an uplink of the proxy switch |
| HostNetwork.HostVirtualSwitchConfig | src/main/java/com/vmware/sample/hci/vsphere/operation/HostNetwork.java:341-356 | the first standard switch's spec with active and standby NICs cleared and no bridge, marked "edit" |
| HostNetwork.BuildHostVirtualNicConfig | src/main/java/com/vmware/sample/hci/vsphere/operation/HostNetwork.java:311-339 | one "edit" config per existing VMkernel NIC, same device, portgroup "", all sharing one spec on the mgmt portgroup of the switch, with no port key and no standard portgroup |
| HostNetwork.CardEditsMeaning | src/main/java/com/vmware/sample/hci/vsphere/operation/HostNetwork.java:200-240 | one EDIT change per Ethernet card, keeping its key and moving it to the port; other devices produce none |
| HostNetwork.CardEditsAppend | src/main/java/com/vmware/sample/hci/vsphere/operation/HostNetwork.java:200-240 | the edits keep device order |
| HostNetwork.EditCards | src/main/java/com/vmware/sample/hci/vsphere/operation/HostNetwork.java:200-240 | the device loop yields `DeviceChanges`, reading the port at the first card |
| HostNetwork.MigrateVmToVds | src/main/java/com/vmware/sample/hci/vsphere/operation/HostNetwork.java:178-255 | a null VM gives false with no reconfiguration; otherwise the card edits are sent, true on success; a submit or monitor exception propagates; a failed task whose info read throws rethrows that, and otherwise throws `TaskFailure` with code 6 naming the VM (NullPointerException when it recorded no fault) |
| HostNetwork.VnicIp | src/main/java/com/vmware/sample/hci/vsphere/operation/HostNetwork.java:545-554 | DHCP gives dhcp on with no address or mask; otherwise dhcp off with both |
| HostNetwork.ChosenPortgroup | src/main/java/com/vmware/sample/hci/vsphere/operation/HostNetwork.java:555-562 | a vSAN NIC joins the vSan portgroup, a vMotion NIC the vMotion portgroup, any other the mgmt portgroup |
| HostNetwork.AddVirtualNic | src/main/java/com/vmware/sample/hci/vsphere/operation/HostNetwork.java:537-581 | true exactly when every step succeeds; any exception gives false; the NIC sent has `VnicIp` and the chosen portgroup's key |
| HostNetwork.SinglePortgroupHasNoVsanKey | src/main/java/com/vmware/sample/hci/vsphere/operation/HostNetwork.java:102-111 | with one portgroup, vMotion and vSAN NICs get a null portgroup key and no key is read |
| HostNetwork.NewVsanConfig | src/main/java/com/vmware/sample/hci/vsphere/operation/HostNetwork.java:592-640 | the new NIC's port first, then the old ports in order; flags and names copied; a missing part of the old config throws |
| HostNetwork.SelectVsanOnVnic | src/main/java/com/vmware/sample/hci/vsphere/operation/HostNetwork.java:583-665 | a null or failed read of the old config throws; a failed task with a recorded fault is only logged, while one without a fault (or an unreadable task info) makes the logged message throw; any exception becomes one HciServerException |
| HostNetwork.FailedVsanUpdateIsSilent | src/main/java/com/vmware/sample/hci/vsphere/operation/HostNetwork.java:645-660 | a failed vSAN update task that recorded a fault is not reported to the caller; one that recorded none gives HciServerException("select vSAN traffic error on vNic") |
| HostNetwork.SelectTrafficOnVnic | src/main/java/com/vmware/sample/hci/vsphere/operation/HostNetwork.java:667-690 | vSAN goes through `selectVsanOnVnic`; other types through the NIC manager, whose failure becomes HciServerException |
| HostManager.HostMorChoiceExists | src/main/java/com/vmware/sample/hci/vsphere/HostManager.java:89-102 | the host lookup has an outcome for every inventory read |
| HostManager.CaughtRead | src/main/java/com/vmware/sample/hci/vsphere/HostManager.java:108-128 | the property read from the chosen host; null when the lookup or the read throws InvalidProperty or RuntimeFault; other exceptions escape |
| HostManager.HardwareRead | src/main/java/com/vmware/sample/hci/vsphere/HostManager.java:592-600 | as `CaughtRead`, except that InvalidProperty and RuntimeFault become HciServerException |
| HostManager.HostVersion | src/main/java/com/vmware/sample/hci/vsphere/HostManager.java:130-136 | a null config is IllegalArgumentException, a null product NullPointerException; otherwise the product's version |
| HostManager.HostConnectionState | src/main/java/com/vmware/sample/hci/vsphere/HostManager.java:138-145 | a null runtime record is IllegalArgumentException; otherwise its connection state |
| HostManager.HostNetworkInfo | src/main/java/com/vmware/sample/hci/vsphere/HostManager.java:167-193 | null config, then null network record, each IllegalArgumentException; otherwise the network record |
| HostManager.HostPhysicalNics | src/main/java/com/vmware/sample/hci/vsphere/HostManager.java:167-179 | the network record's physical NICs, or its failure |
| HostManager.HostVirtualSwitches | src/main/java/com/vmware/sample/hci/vsphere/HostManager.java:181-193 | the network record's virtual switches, or its failure |
| HostManager.NetworkSystem | src/main/java/com/vmware/sample/hci/vsphere/HostManager.java:197-206 | a null config manager, then a null network system, each IllegalArgumentException; otherwise the network system |
| HostManager.OrgDnsConfig | src/main/java/com/vmware/sample/hci/vsphere/HostManager.java:209-221 | the DNS config; InvalidProperty and a null config both become IllegalArgumentException |
| HostManager.DnsUpdate | src/main/java/com/vmware/sample/hci/vsphere/HostManager.java:195-247 | guards in the order config manager, network system, non-empty server list, DNS config, host name, domain name; the config sent has DHCP off, the old names, search domain [domain] and the given servers in order |
| HostManager.HostNameUpdate | src/main/java/com/vmware/sample/hci/vsphere/HostManager.java:249-296 | an empty name or domain is refused; the config sent has the new names, search domain [domain] and the old address list |
| HostManager.NtpUpdate | src/main/java/com/vmware/sample/hci/vsphere/HostManager.java:298-327 | guards in the order config manager, date-time system, non-empty server list; the config sent holds the given servers |
| HostManager.PasswordUpdate | src/main/java/com/vmware/sample/hci/vsphere/HostManager.java:329-360 | guards in the order account manager, user, password; UserNotFound and AlreadyExists become IllegalArgumentException |
| HostManager.PortGroupAddition | src/main/java/com/vmware/sample/hci/vsphere/HostManager.java:390-430 | guards in the order config manager, network system, portgroup name, vSwitch name; NotFound, AlreadyExists and HostConfigFault become IllegalArgumentException |
| HostManager.VirtualNicSpec | src/main/java/com/vmware/sample/hci/vsphere/HostManager.java:432-440 | a static address and mask with DHCP off, no port and no portgroup |
| HostManager.ManagementAddressAddition | src/main/java/com/vmware/sample/hci/vsphere/HostManager.java:442-480 | guards in the order config manager, network system, address, mask, portgroup name; AlreadyExists and HostConfigFault become IllegalArgumentException |
| HostManager.GatewayUpdate | src/main/java/com/vmware/sample/hci/vsphere/HostManager.java:482-507 | a blank gateway is refused before any read; the config sent has the new gateway, and copies the old gateway device and IPv6 gateway and device when an old config exists |
| HostManager.FreeSwitchMeaning | src/main/java/com/vmware/sample/hci/vsphere/HostManager.java:376-387 | fails exactly when every vSwitch has the portgroup; otherwise names the first that has not |
| HostManager.FindFreeSwitch | src/main/java/com/vmware/sample/hci/vsphere/HostManager.java:376-387 | the search loop yields `FreeSwitch` |
| HostManager.ValidVirtualSwitch | src/main/java/com/vmware/sample/hci/vsphere/HostManager.java:366-388 | IllegalArgumentException for a null config, an empty name, a null switch list or no qualifying switch; otherwise the first switch without the portgroup |
| HostManager.FreeSwitchWitness | src/main/java/com/vmware/sample/hci/vsphere/HostManager.java:376-387 | a successful search names a switch without the portgroup, and every earlier switch has it |
| HostManager.ServiceLookupMeaning | src/main/java/com/vmware/sample/hci/vsphere/HostManager.java:545-553 | HciServerException exactly when no key matches ignoring case; otherwise the first matching service |
| HostManager.FindService | src/main/java/com/vmware/sample/hci/vsphere/HostManager.java:545-553 | the search loop yields `ServiceLookup` |
| HostManager.AdapterEntry | src/main/java/com/vmware/sample/hci/vsphere/HostManager.java:640-672 | a NIC without link speed throws and is skipped; otherwise its name, driver, duplex and speed, with device and vendor of the matching PCI device |
| HostManager.ProcessorsOf | src/main/java/com/vmware/sample/hci/vsphere/HostManager.java:611-617 | one processor entry per CPU package, with its description |
| HostManager.StorageEntriesMeaning | src/main/java/com/vmware/sample/hci/vsphere/HostManager.java:619-637 | entries come only from HostScsiDisk LUNs, and each disk with a capacity and SSD flag gives one with its names and geometry |
| HostManager.PciMatchMeaning | src/main/java/com/vmware/sample/hci/vsphere/HostManager.java:650-658 | no match exactly when no id equals the NIC's; otherwise the first device whose id does |
| HostManager.AdaptersMeaning | src/main/java/com/vmware/sample/hci/vsphere/HostManager.java:640-672 | adapters come only from NICs with a link speed, and every such NIC gives one |
| HostManager.Processors | src/main/java/com/vmware/sample/hci/vsphere/HostManager.java:611-617 | the processor loop yields `ProcessorsOf` |
| HostManager.StorageEntries | src/main/java/com/vmware/sample/hci/vsphere/HostManager.java:619-637 | the storage loop collects `DiskEntry` of each LUN |
| HostManager.MatchPci | src/main/java/com/vmware/sample/hci/vsphere/HostManager.java:650-658 | the inner loop yields `PciMatch` |
| HostManager.NetworkAdapters | src/main/java/com/vmware/sample/hci/vsphere/HostManager.java:640-672 | the adapter loop collects `AdapterEntry` of each NIC |
| HostManager.HostManager.constructor | src/main/java/com/vmware/sample/hci/vsphere/HostManager.java:75-83 | the host's address is kept, and no host MOR is cached yet |
| HostManager.HostManager.GetHostMor | src/main/java/com/vmware/sample/hci/vsphere/HostManager.java:89-102 | the read's exception, VerificationFailedException for an empty inventory, or the MOR of some host in it; the cached MOR is updated unless the read threw |
| HostManager.HostManager.ReadHostProperty | src/main/java/com/vmware/sample/hci/vsphere/HostManager.java:108-128 | `CaughtRead` of the host the lookup chose |
| HostManager.HostManager.UpdateDns | src/main/java/com/vmware/sample/hci/vsphere/HostManager.java:195-247 | `DnsUpdate` on the config manager of the host the lookup chose |
| HostManager.HostManager.UpdateHostName | src/main/java/com/vmware/sample/hci/vsphere/HostManager.java:249-296 | `HostNameUpdate` on the chosen host's config manager |
| HostManager.HostManager.UpdateNtp | src/main/java/com/vmware/sample/hci/vsphere/HostManager.java:298-327 | `NtpUpdate` on the chosen host's config manager |
| HostManager.HostManager.AddVirtualSwitchPortGroup | src/main/java/com/vmware/sample/hci/vsphere/HostManager.java:390-430 | `PortGroupAddition` on the chosen host's config manager |
| HostManager.HostManager.AddManagementIpAddress | src/main/java/com/vmware/sample/hci/vsphere/HostManager.java:442-480 | `ManagementAddressAddition` on the chosen host's config manager |
| HostManager.HostManager.UpdateDefaultGateway | src/main/java/com/vmware/sample/hci/vsphere/HostManager.java:482-507 | a blank gateway is refused with the cached MOR untouched; otherwise `GatewayUpdate` on the chosen host |
| HostManager.HostManager.GetValidVirtualSwitch | src/main/java/com/vmware/sample/hci/vsphere/HostManager.java:366-388 | `ValidVirtualSwitch` on the chosen host's config |
| HostManager.HostManager.GetServiceInfo | src/main/java/com/vmware/sample/hci/vsphere/HostManager.java:539-554 | `ServiceInfo` on the chosen host's config manager |
| HostManager.HostManager.GetHardwareConfiguration | src/main/java/com/vmware/sample/hci/vsphere/HostManager.java:602-675 | `HardwareOf` of the hardware and config records, each read through its own host lookup; `hostMor` ends as the last lookup made (the first when the hardware read failed), and is untouched when the inventory read threw |
| Cluster.NewClusterSpec | src/main/java/com/vmware/sample/hci/vsphere/operation/Cluster.java:91-105 | HA off with failover level 1, DRS off with fully automated placement, and vSAN untouched |
| Cluster.InitializeVsanClusterConfigInfo | src/main/java/com/vmware/sample/hci/vsphere/operation/Cluster.java:121-133 | vSAN enabled, auto-claim storage on, no cluster uuid |
| Cluster.CreateCluster | src/main/java/com/vmware/sample/hci/vsphere/operation/Cluster.java:60-119 | guards before the folder lookup: not connected is VerificationFailed, a null datacenter or null or empty name IllegalArgument; duplicate or invalid names become IllegalArgument and a runtime fault HciServer |
| Cluster.TaskOutcome | src/main/java/com/vmware/sample/hci/vsphere/operation/Cluster.java:206-218 | the task's result on success; otherwise `TaskFailure`: TaskFailedException with the operation's code, the task name and the target, or NullPointerException when the task recorded no fault |
| Cluster.HostConnectSpecFor | src/main/java/com/vmware/sample/hci/vsphere/operation/Cluster.java:156-190 | the host's credentials, forced, with the thumbprint the SSL fault reports; any other failure of the query becomes HciServerException |
| Cluster.AddHostIntoCluster | src/main/java/com/vmware/sample/hci/vsphere/operation/Cluster.java:140-219 | a null datacenter or cluster is refused; the new host's MOR on success; a failed task throws code 1 naming the host |
| Cluster.SetDrs | src/main/java/com/vmware/sample/hci/vsphere/operation/Cluster.java:221-243 | only the DRS switch is sent; a failed task has code 5 |
| Cluster.SetDas | src/main/java/com/vmware/sample/hci/vsphere/operation/Cluster.java:245-267 | only the HA switch is sent; a failed task has code 16 |
| Cluster.EnableVsan | src/main/java/com/vmware/sample/hci/vsphere/operation/Cluster.java:269-291 | only the vSAN config is sent; a failed task has code 15 |
| Cluster.ReconfigurationCodesDiffer | src/main/java/com/vmware/sample/hci/vsphere/operation/Cluster.java:221-291 | once the task recorded a fault, the three reconfigurations fail with three different codes |
| Cluster.IsVsanUpdateIgnoresCase | src/main/java/com/vmware/sample/hci/vsphere/operation/Cluster.java:363-364 | the lower-case comparison of the description id is `equalsIgnoreCase` against "host.VsanSystem.update" |
| Cluster.VsanUpdateTasksMeaning | src/main/java/com/vmware/sample/hci/vsphere/operation/Cluster.java:350-378 | a task is waited for exactly when it is a vSAN update, and no more tasks are waited for than are listed |
| Cluster.VsanUpdateTasksInOrder | src/main/java/com/vmware/sample/hci/vsphere/operation/Cluster.java:338-378 | the tasks waited for are a subsequence of the listed tasks: they keep the list order |
| Cluster.WaitForVsanUpdateTask | src/main/java/com/vmware/sample/hci/vsphere/operation/Cluster.java:328-382 | a null `recentTask` array throws from the listing loop, as does a task with a null state; otherwise the tasks `getRecentActiveTask` lists (as written: `ScanAsWritten`, which skips a task after a removal; as intended: `RecentActiveTasks`) are each read again, and every one whose second read is a vSAN update is monitored; the result is whether each succeeded, a monitor exception counting as failure |
| Cluster.MonitorVsanUpdates | src/main/java/com/vmware/sample/hci/vsphere/operation/Cluster.java:350-378 | every vSAN update is monitored, even after one fails; the result is their conjunction |
| Cluster.WaitForVsanUpdateTaskInCluster | src/main/java/com/vmware/sample/hci/vsphere/operation/Cluster.java:302-319 | false for an empty host list; otherwise every host is waited for, even after a failure, and the result is whether all succeeded |
| Datacenter.CreationFault | src/main/java/com/vmware/sample/hci/vsphere/operation/Datacenter.java:58-66 | DuplicateName and InvalidName become IllegalArgumentException, RuntimeFault HciServerException, each with the fault's message |
| Datacenter.CreateDatacenter | src/main/java/com/vmware/sample/hci/vsphere/operation/Datacenter.java:36-79 | not connected is VerificationFailed, checked before the name; a null or empty name is IllegalArgument; a null created MOR is TaskFailed code 10, task "createDatacenter", target the name |
| Datacenter.ChecksPrecedeCreation | src/main/java/com/vmware/sample/hci/vsphere/operation/Datacenter.java:41-48 | when a guard refuses, the creation call's outcome is not looked at |
| Datacenter.IsDatacenterExist | src/main/java/com/vmware/sample/hci/vsphere/operation/Datacenter.java:81-84 | always false |
| Datacenter.FolderOf | src/main/java/com/vmware/sample/hci/vsphere/operation/Datacenter.java:86-101 | the property read cast to a MOR; null stays null; another kind of value fails the cast |
| VcManager.AddLicense | src/main/java/com/vmware/sample/hci/vsphere/VcManager.java:97-107 | HciClientException with nothing added exactly when the decoded license has a blank edition key and a blank license key; otherwise the key is added |
| VcManager.RemoveLicense | src/main/java/com/vmware/sample/hci/vsphere/VcManager.java:109-121 | removed exactly when the usage count is null or 0; otherwise HciClientException with nothing removed |
| VcManager.AssignEsxiLicense | src/main/java/com/vmware/sample/hci/vsphere/VcManager.java:123-132 | a null name is NullPointerException and a failed host fetch propagates, with no assignment; HciClientException with no assignment when the lower-cased host name is not found; otherwise the license goes to the host's MOR value, sent exactly when the assignment manager is read and cast |
| VcManager.AssignVcLicense | src/main/java/com/vmware/sample/hci/vsphere/VcManager.java:135-139 | the license goes to the vCenter's instance UUID, sent exactly when the assignment manager is read and cast, and otherwise that step's exception |
| VcManager.AssignVsanLicense | src/main/java/com/vmware/sample/hci/vsphere/VcManager.java:142-148 | a cluster not found is NullPointerException before the manager is read; otherwise the license goes to the cluster's MOR value, sent exactly when the assignment manager is read and cast |
| VcManager.AssignmentManager | src/main/java/com/vmware/sample/hci/vsphere/VcManager.java:157-159 | a failed `entityProps` read propagates, a missing `licenseAssignmentManager` entry casts to null, a MOR value gives that MOR, and any other value is ClassCastException |
| VcManager.AssignLicense | src/main/java/com/vmware/sample/hci/vsphere/VcManager.java:150-162 | a failed manager read or cast means no call and its exception; otherwise one `updateAssignedLicense` of the manager read (null when missing), the entity id and the key, with the call's outcome |
| VerifyHost.VerifyHostConnection | src/main/java/com/vmware/sample/hci/vsphere/VerifyHost.java:41-55 | passes exactly when the state is CONNECTED; any other state or a read exception is VerificationFailedException |
| VerifyHost.VerifyEsxVersion | src/main/java/com/vmware/sample/hci/vsphere/VerifyHost.java:58-69 | passes exactly when the version is "EXPECTED_HOST_VERSION"; a failed read also gives "Host version mismatch" |
| VerifyHost.VerifyHostNetwork | src/main/java/com/vmware/sample/hci/vsphere/VerifyHost.java:72-92 | passes exactly when every NIC with a link speed runs at 1000; a failure is always "Host network verification failed" |
| VerifyHost.Verify | src/main/java/com/vmware/sample/hci/vsphere/VerifyHost.java:98-111 | the checks run in the order connection, version, network, the first failure deciding; the session is closed exactly when all three pass |
| ConfigProgress.Reported | src/main/java/com/vmware/sample/hci/vsphere/utils/ConfigProgress.java:42-50 | a negative stored value is HciServerException; 0 to 100 is returned as it is; above 100 is reported as 100 |
| ConfigProgress.ReportedMonotone | src/main/java/com/vmware/sample/hci/vsphere/utils/ConfigProgress.java:42-50 | the reported value never decreases while the stored value grows |
| ConfigProgress.ConfigProgress.constructor | src/main/java/com/vmware/sample/hci/vsphere/utils/ConfigProgress.java:35 | the stored progress starts at 0 and nothing has been reported |
| ConfigProgress.ConfigProgress.GetProgress | src/main/java/com/vmware/sample/hci/vsphere/utils/ConfigProgress.java:42-50 | `Reported` of the stored value; nothing changes |
| ConfigProgress.ConfigProgress.SetProgress | src/main/java/com/vmware/sample/hci/vsphere/utils/ConfigProgress.java:52-67 | stores the value unclamped; with a callback, reports the new stored value exactly once, and without one never |
| ConfigProgress.ConfigProgress.IncreaseProgressBy | src/main/java/com/vmware/sample/hci/vsphere/utils/ConfigProgress.java:69-84 | adds with Java `int` wrap-around and no clamping; with a callback, reports the new stored value exactly once |
| ConfigProgress.OverflowIsRefused | src/main/java/com/vmware/sample/hci/vsphere/utils/ConfigProgress.java:42-84 | an increase past the `int` range wraps to a negative value, which `getProgress` refuses |
| VcInstallerLog.LineMarker | src/main/java/com/vmware/sample/hci/vsphere/vcinstall/VcInstallerLog.java:90-122 | the marker a line announces is the first in chain order whose text it contains; none exactly when it contains no marker text |
| VcInstallerLog.VcInstallerLog.constructor | src/main/java/com/vmware/sample/hci/vsphere/vcinstall/VcInstallerLog.java:43-51 | keeps the progress flag, the span, the callback and the counter |
| VcInstallerLog.VcInstallerLog.Plain | src/main/java/com/vmware/sample/hci/vsphere/vcinstall/VcInstallerLog.java:39-41 | a log that drives no progress, with an empty span and no callback |
| VcInstallerLog.VcInstallerLog.Target | src/main/java/com/vmware/sample/hci/vsphere/vcinstall/VcInstallerLog.java:87-122 | template verification sets start + 1, "Finished successfully" end - 1, and the others start plus their share of the span, always from the start |
| VcInstallerLog.VcInstallerLog.VcInstallProgress | src/main/java/com/vmware/sample/hci/vsphere/vcinstall/VcInstallerLog.java:87-123 | a marked line sets the counter to its target and reports it with a callback; an unmarked line changes nothing and reports nothing |
| VcInstallerLog.VcInstallerLog.Run | src/main/java/com/vmware/sample/hci/vsphere/vcinstall/VcInstallerLog.java:54-85 | without progress nothing changes; with it, each line is classified in turn and the counter ends at the last marked line's target |
| VcInstallerLog.VcInstallerLog.LastLineDecides | src/main/java/com/vmware/sample/hci/vsphere/vcinstall/VcInstallerLog.java:88-122 | only the last marked line decides where the counter ends, so a later line with an earlier marker moves it back |
| VcInstallerLog.VcInstallerLog.LastReportIsFinal | src/main/java/com/vmware/sample/hci/vsphere/vcinstall/VcInstallerLog.java:88-122 | the last report is the final counter value |
| VsphereService.EsxTargetAsWritten | src/main/java/com/vmware/sample/hci/vsphere/VsphereService.java:91-98 | as written: a blank IP is an error even with a host name, and otherwise the target is the trimmed host name |
| VsphereService.EsxTarget | src/main/java/com/vmware/sample/hci/vsphere/VsphereService.java:91-98 | corrected: an error exactly when both IP and host name are blank; the trimmed IP when given, else the trimmed host name |
| VsphereService.EsxTargetDiscrepancy | src/main/java/com/vmware/sample/hci/vsphere/VsphereService.java:91-98 | a host given by name only is refused as written and accepted as intended; a given IP is passed over as written |
| VsphereService.PrefixAsWritten | src/main/java/com/vmware/sample/hci/vsphere/VsphereService.java:137-157 | as written: a blank prefix becomes "24"; an error exactly when the trimmed prefix does not parse |
| VsphereService.PrefixChecked | src/main/java/com/vmware/sample/hci/vsphere/VsphereService.java:137-157 | corrected: no error exactly when the prefix is blank or parses to a value from 0 to 32 |
| VsphereService.PrefixDiscrepancy | src/main/java/com/vmware/sample/hci/vsphere/VsphereService.java:152-155 | prefix "40" passes the written test and is refused by the corrected one |
| VsphereService.EsxHostErrors | src/main/java/com/vmware/sample/hci/vsphere/VsphereService.java:91-104 | no message exactly when a target is named (as written: a non-blank IP; as intended: a non-blank IP or host name) and the user and password are non-blank |
| VsphereService.InstallerPathErrors | src/main/java/com/vmware/sample/hci/vsphere/VsphereService.java:105-116 | no message exactly when the trimmed ISO path and mount point are non-empty |
| VsphereService.ApplianceErrors | src/main/java/com/vmware/sample/hci/vsphere/VsphereService.java:117-167 | no message exactly when the VM name, password, IP, gateway and DNS are non-blank and the prefix is accepted (as written: blank or a number; as intended: blank or a number from 0 to 32) |
| VsphereService.VcNetworkErrors | src/main/java/com/vmware/sample/hci/vsphere/VsphereService.java:159-167 | no message exactly when the appliance IP, gateway and DNS server are non-blank |
| VsphereService.ProgressErrors | src/main/java/com/vmware/sample/hci/vsphere/VsphereService.java:168-176 | start < 0, end > 100 and start > end each add their own message, and nothing else does |
| VsphereService.DeployErrorsEmpty | src/main/java/com/vmware/sample/hci/vsphere/VsphereService.java:85-181 | no message at all exactly when the credentials, paths, VM name, password, network settings and progress span pass, and, as written, an IP is given and a given prefix is a number, or, as intended, an IP or a host name is given and a given prefix is a number from 0 to 32 |
| VsphereService.CheckEsxHost | src/main/java/com/vmware/sample/hci/vsphere/VsphereService.java:91-104 | appends `EsxHostErrors` under the given reading to the error text and returns that reading's target: as written the trimmed host name (null when none) whenever the IP is given |
| VsphereService.CheckPrefix | src/main/java/com/vmware/sample/hci/vsphere/VsphereService.java:137-157 | appends the prefix messages under the given reading (as written, "40" adds nothing) and returns the defaulted prefix |
| VsphereService.CheckAppliance | src/main/java/com/vmware/sample/hci/vsphere/VsphereService.java:117-167 | appends `ApplianceErrors` under the given reading and returns the defaulted IP family, mode and prefix |
| VsphereService.CheckInputs | src/main/java/com/vmware/sample/hci/vsphere/VsphereService.java:85-176 | appends the messages of every check of `deployVcenter` in source order, giving `DeployErrors`, and returns the target, IP family, mode and prefix the checks settle |
| VsphereService.CheckProgressSpan | src/main/java/com/vmware/sample/hci/vsphere/VsphereService.java:168-176 | appends `ProgressErrors` |
| VsphereService.DeployVcenter | src/main/java/com/vmware/sample/hci/vsphere/VsphereService.java:81-215 | a null ISO path or mount point is NullPointerException; otherwise one HciClientException carrying every message in order exactly when some check fails (under the given reading), and else the installer settings with that reading's target and prefix and the defaults "datastore1", "ipv4", "static" and "24" |
| VsphereService.FlattenEmpty | src/main/java/com/vmware/sample/hci/vsphere/VsphereService.java:619-630 | the joined lists are empty exactly when every list is |
| VsphereService.CheckAddHostsInput | src/main/java/com/vmware/sample/hci/vsphere/VsphereService.java:617-631 | the vCenter's messages, then each host's in array order; HciClientException exactly when the list is non-empty |
| VsphereService.JavaDiv | src/main/java/com/vmware/sample/hci/vsphere/VsphereService.java:231 | Java `int` division by a positive divisor, truncating toward zero |
| VsphereService.Share | src/main/java/com/vmware/sample/hci/vsphere/VsphereService.java:231 | (end - start) / (3 + hosts) in Java division; with a span from 0 to 100 the share is non-negative and (3 + hosts) shares fit in the span |
| VsphereService.IncreasedAdds | src/main/java/com/vmware/sample/hci/vsphere/VsphereService.java:648-750 | without overflow, k increases add k shares |
| VsphereService.ProgressStaysInSpan | src/main/java/com/vmware/sample/hci/vsphere/VsphereService.java:643-751 | with 0 <= start <= end <= 100, up to hosts + 2 increases keep the counter within [start, end] |
| VsphereService.Handled | src/main/java/com/vmware/sample/hci/vsphere/VsphereService.java:813-828 | the hosts handled before the first IllegalArgumentException, or all of them |
| VsphereService.FailedOrSucceeded | src/main/java/com/vmware/sample/hci/vsphere/VsphereService.java:813-828 | every host is either counted as a success or listed as failed |
| VsphereService.FailedIpListed | src/main/java/com/vmware/sample/hci/vsphere/VsphereService.java:813-828 | a failed host is listed with its own IP address |
| VsphereService.AddHostToVc | src/main/java/com/vmware/sample/hci/vsphere/VsphereService.java:753-836 | no abort gives the failed IPs in order; the first IllegalArgumentException is HciClientException; the counter grows by one share per success before that |

## Left out

- vim25 remote calls (retrieval, `waitForUpdatesEx`, filter creation and destruction, every task and update call): their results are inputs, and the server's behaviour is not modelled.
- `VsphereClient` login and session, and its wall-clock `isConnected`: a `connected` flag is an input instead.
- Connection plumbing (`Connection`, `DisableSecurity`, `BaseHelper`, `ApiValidator`): thin wrappers over connections the model cannot see.
- SSH (`executeSSHCommand`), JAXB (`getMethodFault`), the shell strings of `runBackupCmd`/`runRestoreCmd`, `updateHostService`, `exitMaintenanceMode` and `restoreHost`'s sleep and reconnect: each is one remote or external call with nothing to decide on the client side.
- `VcInstaller` (the installer process), `VcInstallerInfo.saveToTemplate` (JSON file I/O), `InputStreamToLog` and the stream reading of `VcInstallerLog.run`: process and file I/O. `Run` takes the installer's lines as a sequence.
- VcInstallerLog.VcInstallerLog.Target: the floating-point steps `(int)(f * all)` of the intermediate markers are an input function of the span, so their values are not stated.
- Floating point in `StorageConfiguration.getCapacity` and `MemoryConfiguration.getSizeinMB`: only the integer fields are modelled.
- `ConfigProgress` is `synchronized`: the model is sequential, and the thread test is not modelled.
- `Thread.sleep` calls and all logging produce nothing observable and are left out.
- HostManager.HostManager.GetHostMor: the code takes the first key of a `HashMap`, whose iteration order is unspecified, so the contract says only "the MOR of some host in the inventory".
- `HostNetwork.deepCopyObject` (Java serialization), `getVM`, `getVMConfigInfo` and `migrateVmkNicToVds`: each is one remote read or write plus a loop of remote calls; the configs `migrateVmkNicToVds` sends are modelled by `BuildHostVirtualNicConfig`, `HostVirtualSwitchConfig` and `BuildHostProxySwitchConfig`.
- `HostManager.getHostVirtualNic`: the same guarded read as `getHostPhysicalNic`, of another list.
- Task.MonitorTask: the re-read of the task info inside `handlePropertyChangeSet` is one readability flag for the whole run, not a read per update set.
- `Task.getTaskInfo`: a single guarded property read.
- PropertySpecBuilder.java is not part of this model: the property specs it builds are written as `PropertySpec` values.
- `SelectionSpecBuilder` only sets a name: the bare selection specs are written as `SelectionSpec` values.
- InputHostConfiguration.InputHostConfiguration.CheckValid: connecting to the default host is an input flag. The catch that adds "Internal error" is not modelled, because nothing inside the modelled body throws.
- InputVcConfiguration.InputVcConfiguration.CheckValid: its "Internal error" catch is not modelled for the same reason.
- VsphereService.CheckAddHostsInput: it takes the lists the `checkValid` calls return. The aliasing of one configuration object listed twice, whose list would then be appended to twice, is not modelled.
- VsphereService.DeployVcenter: it covers the checks and defaults up to the installer call. Both paths are checked for null before the other checks, since their `trim()` exceptions leave nothing else to observe. `hostInfo` and `vcJsonInput` are taken as non-null, and the installer run and the progress it drives are left out.
- VsphereService.AddHostToVc: each host's steps are summarised by their outcome, which is an input. The remote calls behind that outcome are modelled in `Cluster`, `VirtualDistributedSwitch` and `HostNetwork`.
- `initializeVcenter` and `addHosts`: only the progress share and the span the counter stays in are modelled; the rest is a fixed sequence of the calls modelled elsewhere.
- PropertyCollector.GetRecentActiveTask: the Java method never returns null, and the model gives its list directly. The corrected loop removes at the index it examines.
- `Integer.parseInt` (`JavaLang.ParseInt`) is modelled for ASCII digits only: Java also accepts any other Unicode decimal digit through `Character.digit`, so a trunk, VLAN id or prefix written with, say, Arabic-Indic digits is refused by the model and accepted by the code. This reaches `VsphereUtil.ParseVlanId`, the prefix checks of `deployVcenter` and the validators.
- `JavaLang.ExceptionMessage`, `VsphereUtil.OrNull` and the task-failure text: a null message is carried as the text "null", as string concatenation prints it. The code keeps a real null in three places, and the model still shows "null":
  - a null localized fault message or task name in TaskFailedException;
  - `new VerificationFailedException(e.getMessage(), e)` (VerifyHost);
  - `new HciClientException(e.getMessage(), e)` (`addHostToVc`).
  So a message that is null in Java is the four-letter string in `VerifyHost.VerifyHostConnection` and `VsphereService.AddHostToVc`.
- `JavaLang.ToLower` and `JavaLang.EqualsIgnoreCase` fold ASCII letters only.
  - Java's `hostName.toLowerCase()` (`getHostMor`) uses the default locale. Under a Turkish locale, "ESXI-01" lower-cases to a dotless "ı" and finds no host, and "İ" becomes two characters. The model always folds `I` to `i` and keeps the length.
  - `String.equalsIgnoreCase` (the vSAN update test) and `StringUtils.equalsIgnoreCase` (the service lookup) fold every Unicode letter. For example "ſ" equals "s" and the Kelvin sign equals "k" in Java, but not in the model.
  - This reaches `VsphereUtil.GetHostMor`, `VsphereUtil.GetHostMorCaseInsensitive`, `VcManager.AssignEsxiLicense`, `Cluster.IsVsanUpdate`, `Cluster.IsVsanUpdateIgnoresCase`, `Cluster.VsanUpdateTasks`, `Cluster.VsanUpdateTasksMeaning`, `Cluster.WaitForVsanUpdateTask`, `HostManager.ServiceLookup`, `HostManager.ServiceLookupMeaning`, `HostManager.FindService` and `HostManager.HostManager.GetServiceInfo`. Each of them agrees with the code on ASCII names only.
- Pure data holders (`VcInfo`, `VcJsonInput`, the exceptions, `VsphereInventory`, the hardware records) appear only as datatypes, and the constants as constants.

## Findings

| source | as written | input that shows it | evidently intended | confidence | as-written member | corrected member |
|---|---|---|---|---|---|---|
| src/main/java/com/vmware/sample/hci/vsphere/operation/PropertyCollector.java:290-302 | after removing a task without info (by value) at index i, the loop moves to i + 1, so the task that slid into place i is never examined | two tasks in a row whose info reads as null: the second stays in the list | every task without info is removed; the ones with info are kept in order | not executed | PropertyCollector.AsWrittenKeepsSecondNullTask | PropertyCollector.WithInfoKeepsExactly |
| src/main/java/com/vmware/sample/hci/vsphere/VsphereService.java:91-98 | the both-blank test is `isBlank(ip) & isBlank(ip)` (a single, non-short-circuit `&`), and the `else if` repeats the blank-IP test, so it can never be taken | host with IP null and host name "esx-01": refused; host with IP "10.0.0.1" and no host name: target is the null host name | refuse only when both IP and host name are blank; use the IP when given, else the host name | not executed | VsphereService.EsxTargetDiscrepancy | VsphereService.EsxTarget |
| src/main/java/com/vmware/sample/hci/vsphere/VsphereService.java:152-155 | the range test is `prefix < 0 && prefix > 32`, which no number meets | prefix "40": passes the test | refuse a prefix outside 0..32 (`\|\|`) | not executed | VsphereService.PrefixDiscrepancy | VsphereService.PrefixChecked |
