/**
 * `TraversalSpecBuilder`: a fluent builder that is itself a
 * `TraversalSpec`. The setters overwrite one field each; `selectSet`
 * allocates its list on first use and then appends to it.
 */
module TraversalSpecBuilder {
  import opened JavaLang
  import opened VimTypes

  class TraversalSpecBuilder {
    var name: Option<string>
    var morType: Option<string>
    var path: Option<string>
    var skip: Option<bool>
    var selectSet: Option<seq<Selection>>

    /** A new builder: every field null. */
    constructor ()
      ensures name == None && morType == None && path == None && skip == None && selectSet == None
    {
      name := None;
      morType := None;
      path := None;
      skip := None;
      selectSet := None;
    }

    /** The `TraversalSpec` this builder is, as it is sent to the server. */
    function Spec(): Selection
      reads this
    {
      TraversalSpec(name, morType, path, skip, Listed(selectSet))
    }

    /** Allocates `selectSet` when it is null; an allocated list is kept. */
    method Init()
      modifies this`selectSet
      ensures selectSet.Some?
      ensures old(selectSet).Some? ==> selectSet == old(selectSet)
      ensures Listed(selectSet) == Listed(old(selectSet))
    {
      if selectSet.None? {
        selectSet := Some([]);
      }
    }

    /** Sets the name; nothing else changes. */
    method Name(value: Option<string>) returns (self: TraversalSpecBuilder)
      modifies this`name
      ensures name == value
      ensures self == this
    {
      name := value;
      self := this;
    }

    /** Sets the path; nothing else changes. */
    method Path(value: Option<string>) returns (self: TraversalSpecBuilder)
      modifies this`path
      ensures path == value
      ensures self == this
    {
      path := value;
      self := this;
    }

    /** Sets the skip flag; nothing else changes. */
    method Skip(value: Option<bool>) returns (self: TraversalSpecBuilder)
      modifies this`skip
      ensures skip == value
      ensures self == this
    {
      skip := value;
      self := this;
    }

    /** Sets the managed-object type; nothing else changes. */
    method Type(value: Option<string>) returns (self: TraversalSpecBuilder)
      modifies this`morType
      ensures morType == value
      ensures self == this
    {
      morType := value;
      self := this;
    }

    /** Appends the selections, in argument order, after the existing ones. */
    method SelectSet(selectionSpecs: seq<Selection>) returns (self: TraversalSpecBuilder)
      modifies this`selectSet
      ensures selectSet == Some(Listed(old(selectSet)) + selectionSpecs)
      ensures self == this
    {
      Init();
      selectSet := Some(selectSet.value + selectionSpecs);
      self := this;
    }
  }
}
