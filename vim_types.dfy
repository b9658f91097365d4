/**
 * Records of the vSphere management API (vim25) that the modelled code
 * reads or builds. Each is a plain value: the client only fills them in
 * and hands them to a remote call, or reads them from a remote reply.
 */
module VimTypes {
  import opened JavaLang

  /** A managed object reference: a type name and a server-side key. */
  datatype Mor = Mor(morType: string, value: string)

  /** `NumericRange`; a freshly constructed one holds 0..0. */
  datatype NumericRange = NumericRange(start: int, end: int)

  /** `TaskInfoState`. */
  datatype TaskState = Queued | Running | Success | Error

  /** `LocalizedMethodFault`: the fault a failed task records. */
  datatype LocalizedFault = LocalizedFault(localizedMessage: Option<string>)

  /** The parts of `TaskInfo` the client looks at; `error` is null unless
      the task recorded a fault. */
  datatype TaskInfo = TaskInfo(
    name: Option<string>,
    descriptionId: Option<string>,
    state: Option<TaskState>,
    result: Option<Mor>,
    error: Option<LocalizedFault>)

  /** A property value as delivered in a property change: null, a
      TaskInfo, or anything else. */
  datatype ChangeValue = NullValue | TaskInfoValue(info: TaskInfo) | OtherValue

  /** `PropertyChange`. */
  datatype PropertyChange = PropertyChange(name: Option<string>, val: ChangeValue)

  /** `ObjectUpdate`. */
  datatype ObjectUpdate = ObjectUpdate(obj: Option<Mor>, changeSet: seq<PropertyChange>)

  /** `PropertyFilterUpdate`. */
  datatype PropertyFilterUpdate = PropertyFilterUpdate(objectSet: seq<ObjectUpdate>)

  /** `UpdateSet`. */
  datatype UpdateSet = UpdateSet(version: string, filterSet: seq<PropertyFilterUpdate>)

  // ----- retrieval specs -----

  /** A list-valued field as the generated getter returns it: a list that
      was never allocated reads as an empty one. */
  function Listed<T>(l: Option<seq<T>>): seq<T> {
    if l.Some? then l.value else []
  }

  /** `SelectionSpec` / `TraversalSpec`: a bare selection only names a
      traversal; a traversal follows `path` from objects of `type`. */
  datatype Selection =
    | SelectionSpec(name: Option<string>)
    | TraversalSpec(name: Option<string>, morType: Option<string>, path: Option<string>,
                    skip: Option<bool>, selectSet: seq<Selection>)

  /** `PropertySpec`. */
  datatype PropertySpec = PropertySpec(all: Option<bool>, pathSet: seq<string>, morType: string)

  /** `ObjectSpec`. */
  datatype ObjectSpec = ObjectSpec(obj: Option<Mor>, skip: Option<bool>, selectSet: seq<Selection>)

  /** `PropertyFilterSpec`. */
  datatype PropertyFilterSpec = PropertyFilterSpec(
    propSet: seq<PropertySpec>,
    objectSet: seq<ObjectSpec>,
    reportMissingObjectsInResults: Option<bool>)

  /** A property value in retrieved content; an `Element` carries the text
      of its first child, or null when it has no child. */
  datatype PropValue =
    | StringVal(s: string)
    | MorVal(mor: Mor)
    | MorArrayVal(mors: seq<Mor>)
    | ElementVal(firstChildText: Option<string>)
    | IntVal(n: int)
    | DvsConfigVal(config: DvsConfigInfo)
    | OtherVal

  /** The part of `DVSConfigInfo` the client reads: the uplink portgroups,
      a list that the generated getter never returns as null. */
  datatype DvsConfigInfo = DvsConfigInfo(uplinkPortgroup: seq<Mor>)

  /** `DynamicProperty`. */
  datatype DynamicProperty = DynamicProperty(name: Option<string>, val: PropValue)

  /** `ObjectContent`. */
  datatype ObjectContent = ObjectContent(obj: Mor, propSet: seq<DynamicProperty>)

  /** `RetrieveResult`: a page of contents and the continuation token. */
  datatype RetrieveResult = RetrieveResult(objects: seq<ObjectContent>, token: Option<string>)
}
