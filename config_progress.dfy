/**
 * `ConfigProgress`: the one progress counter of a configuration run, set
 * or increased by the steps of the run and read, clamped to at most 100,
 * by whoever reports it. The counter is a static field in the source; here
 * it is the field of the one `ConfigProgress` object the run shares. The
 * optional callback is modelled by the list of values it was given.
 */
module ConfigProgress {
  import opened JavaLang

  const NEGATIVE_PROGRESS := "Progress should not less than 0"

  /** `getProgress` on a stored value: a negative value is an error, a
      value above 100 is reported as 100. */
  function Reported(stored: int): (r: Result<int>)
    ensures r.Err? <==> stored < 0
    ensures r.Err? ==> r == Err(HciServer(NEGATIVE_PROGRESS))
    ensures r.Ok? ==> 0 <= r.value <= 100
    ensures 0 <= stored <= 100 ==> r == Ok(stored)
    ensures stored > 100 ==> r == Ok(100)
  {
    if stored < 0 then Err(HciServer(NEGATIVE_PROGRESS))
    else if stored <= 100 then Ok(stored)
    else Ok(100)
  }

  /** Reading never goes backwards while the stored value grows. */
  lemma ReportedMonotone(a: int, b: int)
    requires 0 <= a <= b
    ensures Reported(a).Ok? && Reported(b).Ok? && Reported(a).value <= Reported(b).value
  {
  }

  class ConfigProgress {
    /** The stored progress, a Java `int`. */
    var progress: int
    /** The values handed to the `ProgressCallback`, in call order. */
    var printed: seq<int>

    predicate Valid()
      reads this
    {
      IsInt32(progress)
    }

    /** The counter starts at 0, with nothing reported. */
    constructor ()
      ensures Valid() && progress == 0 && printed == []
    {
      progress := 0;
      printed := [];
    }

    /** `getProgress`: reads the stored value and changes nothing. */
    method GetProgress() returns (r: Result<int>)
      ensures r == Reported(progress)
    {
      if progress < 0 {
        r := Err(HciServer(NEGATIVE_PROGRESS));
      } else if progress >= 0 && progress <= 100 {
        r := Ok(progress);
      } else {
        r := Ok(100);
      }
    }

    /** `setProgress(pro)` and `setProgress(pro, pc)`: stores `pro` as it
        is, unclamped; with a callback, reports the new stored value once. */
    method SetProgress(pro: int, hasCallback: bool)
      requires IsInt32(pro)
      modifies this
      ensures Valid()
      ensures progress == pro
      ensures printed == old(printed) + (if hasCallback then [progress] else [])
    {
      progress := pro;
      if hasCallback {
        printed := printed + [progress];
      }
    }

    /** `increaseProgressBy(pro)` and `increaseProgressBy(pro, pc)`: adds
        `pro` with Java `int` arithmetic and no clamping; with a callback,
        reports the new stored value once. */
    method IncreaseProgressBy(pro: int, hasCallback: bool)
      requires Valid() && IsInt32(pro)
      modifies this
      ensures Valid()
      ensures progress == Wrap32(old(progress) + pro)
      ensures printed == old(printed) + (if hasCallback then [progress] else [])
    {
      progress := Wrap32(progress + pro);
      if hasCallback {
        printed := printed + [progress];
      }
    }
  }

  /** An increase past the `int` range wraps to a negative value, which
      `getProgress` then refuses. */
  lemma OverflowIsRefused(p: int, a: int)
    requires IsInt32(p) && IsInt32(a) && p + a > INT_MAX
    ensures Reported(Wrap32(p + a)).Err?
  {
    assert Wrap32(p + a) == p + a - 0x1_0000_0000;
  }
}
