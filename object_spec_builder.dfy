/**
 * `ObjectSpecBuilder`: a fluent builder that is itself an `ObjectSpec`.
 * The setters overwrite one field each; `selectSet` allocates its list
 * on first use and then appends to it.
 */
module ObjectSpecBuilder {
  import opened JavaLang
  import opened VimTypes

  class ObjectSpecBuilder {
    var obj: Option<Mor>
    var skip: Option<bool>
    var selectSet: Option<seq<Selection>>

    /** A new builder: every field null. */
    constructor ()
      ensures obj == None && skip == None && selectSet == None
    {
      obj := None;
      skip := None;
      selectSet := None;
    }

    /** The `ObjectSpec` this builder is, as it is sent to the server. */
    function Spec(): ObjectSpec
      reads this
    {
      ObjectSpec(obj, skip, Listed(selectSet))
    }

    /** Allocates `selectSet` when it is null; an allocated list is kept. */
    method Init()
      modifies this`selectSet
      ensures selectSet.Some?
      ensures old(selectSet).Some? ==> selectSet == old(selectSet)
      ensures Listed(selectSet) == Listed(old(selectSet))
    {
      if selectSet.None? {
        selectSet := Some([]);
      }
    }

    /** Sets the object; nothing else changes. */
    method Obj(objectReference: Option<Mor>) returns (self: ObjectSpecBuilder)
      modifies this`obj
      ensures obj == objectReference
      ensures self == this
    {
      obj := objectReference;
      self := this;
    }

    /** Sets the skip flag; nothing else changes. */
    method Skip(value: Option<bool>) returns (self: ObjectSpecBuilder)
      modifies this`skip
      ensures skip == value
      ensures self == this
    {
      skip := value;
      self := this;
    }

    /** Appends the selections, in argument order, after the existing ones. */
    method SelectSet(selectionSpecs: seq<Selection>) returns (self: ObjectSpecBuilder)
      modifies this`selectSet
      ensures selectSet == Some(Listed(old(selectSet)) + selectionSpecs)
      ensures self == this
    {
      Init();
      selectSet := Some(selectSet.value + selectionSpecs);
      self := this;
    }
  }
}
