/**
 * `PropertyFilterSpecBuilder`: a fluent builder that is itself a
 * `PropertyFilterSpec`. Both list fields are allocated together on the
 * first append; appends never drop what is already there.
 */
module PropertyFilterSpecBuilder {
  import opened JavaLang
  import opened VimTypes

  class PropertyFilterSpecBuilder {
    var propSet: Option<seq<PropertySpec>>
    var objectSet: Option<seq<ObjectSpec>>
    var reportMissingObjectsInResults: Option<bool>

    /** A new builder: every field null. */
    constructor ()
      ensures propSet == None && objectSet == None && reportMissingObjectsInResults == None
    {
      propSet := None;
      objectSet := None;
      reportMissingObjectsInResults := None;
    }

    /** The `PropertyFilterSpec` this builder is, as it is sent to the server. */
    function Spec(): PropertyFilterSpec
      reads this
    {
      PropertyFilterSpec(Listed(propSet), Listed(objectSet), reportMissingObjectsInResults)
    }

    /** Allocates each list that is null; allocated lists are kept. */
    method Init()
      modifies this`propSet, this`objectSet
      ensures propSet.Some? && objectSet.Some?
      ensures old(propSet).Some? ==> propSet == old(propSet)
      ensures old(objectSet).Some? ==> objectSet == old(objectSet)
      ensures Listed(propSet) == Listed(old(propSet))
      ensures Listed(objectSet) == Listed(old(objectSet))
    {
      if propSet.None? {
        propSet := Some([]);
      }
      if objectSet.None? {
        objectSet := Some([]);
      }
    }

    /** Sets only the report-missing-objects flag. */
    method ReportMissingObjectsInResults(value: Option<bool>) returns (self: PropertyFilterSpecBuilder)
      modifies this`reportMissingObjectsInResults
      ensures reportMissingObjectsInResults == value
      ensures self == this
    {
      reportMissingObjectsInResults := value;
      self := this;
    }

    /** Appends the property specs, in argument order, after the existing
        ones; the object specs read the same as before. */
    method PropSet(propertySpecs: seq<PropertySpec>) returns (self: PropertyFilterSpecBuilder)
      modifies this`propSet, this`objectSet
      ensures propSet == Some(Listed(old(propSet)) + propertySpecs)
      ensures objectSet.Some? && Listed(objectSet) == Listed(old(objectSet))
      ensures self == this
    {
      Init();
      propSet := Some(propSet.value + propertySpecs);
      self := this;
    }

    /** Appends the object specs, in argument order, after the existing
        ones; the property specs read the same as before. */
    method ObjectSet(objectSpecs: seq<ObjectSpec>) returns (self: PropertyFilterSpecBuilder)
      modifies this`propSet, this`objectSet
      ensures objectSet == Some(Listed(old(objectSet)) + objectSpecs)
      ensures propSet.Some? && Listed(propSet) == Listed(old(propSet))
      ensures self == this
    {
      Init();
      objectSet := Some(objectSet.value + objectSpecs);
      self := this;
    }
  }
}
