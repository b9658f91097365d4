/**
 * `VcInstallerLog`: following the vCenter installer's output, line by
 * line, and moving the shared progress counter when a line carries one of
 * the installer's milestone markers. The progress an installer run owns
 * is the span from `startProgress` to `endProgress`; each milestone sets
 * the counter to a fixed point of that span.
 */
module VcInstallerLog {
  import opened JavaLang
  import ConfigProgress

  /** The installer milestones, in the order the classification tests them. */
  datatype Marker =
    | TemplateVerification | TransferCompleted | SettingUpStorage | PostgresPlpython
    | ServicesInstalled | ApplianceManagement | ProfileDrivenStorage | FinishedSuccessfully

  /** The text that announces each milestone. */
  function MarkerText(m: Marker): string {
    match m
    case TemplateVerification => "Performing basic template verification"
    case TransferCompleted => "Transfer Completed"
    case SettingUpStorage => "Setting up storage"
    case PostgresPlpython => "VMware-Postgres-plpython"
    case ServicesInstalled => "Services installations succeeded"
    case ApplianceManagement => "Starting VMware Appliance Management Service"
    case ProfileDrivenStorage => "Starting VMware vSphere Profile-Driven Storage"
    case FinishedSuccessfully => "Finished successfully"
  }

  /** A milestone's place in the if/else chain. */
  function Rank(m: Marker): nat {
    match m
    case TemplateVerification => 0
    case TransferCompleted => 1
    case SettingUpStorage => 2
    case PostgresPlpython => 3
    case ServicesInstalled => 4
    case ApplianceManagement => 5
    case ProfileDrivenStorage => 6
    case FinishedSuccessfully => 7
  }

  predicate Announces(line: string, m: Marker) {
    Contains(line, MarkerText(m))
  }

  /** The milestone a line announces: the first in chain order whose text
      it contains, when there is one. */
  function LineMarker(line: string): (m: Option<Marker>)
    ensures m.Some? ==> Announces(line, m.value)
    ensures m.Some? ==> forall e: Marker :: Rank(e) < Rank(m.value) ==> !Announces(line, e)
    ensures m.None? <==> forall e: Marker :: !Announces(line, e)
  {
    if Announces(line, TemplateVerification) then Some(TemplateVerification)
    else if Announces(line, TransferCompleted) then Some(TransferCompleted)
    else if Announces(line, SettingUpStorage) then Some(SettingUpStorage)
    else if Announces(line, PostgresPlpython) then Some(PostgresPlpython)
    else if Announces(line, ServicesInstalled) then Some(ServicesInstalled)
    else if Announces(line, ApplianceManagement) then Some(ApplianceManagement)
    else if Announces(line, ProfileDrivenStorage) then Some(ProfileDrivenStorage)
    else if Announces(line, FinishedSuccessfully) then Some(FinishedSuccessfully)
    else None
  }

  class VcInstallerLog {
    /** Whether the lines drive the progress at all. */
    const toProgress: bool
    const startProgress: int
    const endProgress: int
    /** Whether a `ProgressCallback` was given. */
    const hasCallback: bool
    /** `(int)(f * all)` for the fraction f of each intermediate milestone:
        the floating-point step, given as a function of the span. */
    const fraction: (Marker, int) -> int
    /** The counter the lines move. */
    const counter: ConfigProgress.ConfigProgress

    /** `VcInstallerLog(input, iType, toProg, startProgress, endProgress, pc)`. */
    constructor (toProg: bool, startProgress: int, endProgress: int, hasCallback: bool,
                 fraction: (Marker, int) -> int, counter: ConfigProgress.ConfigProgress)
      ensures this.toProgress == toProg && this.startProgress == startProgress && this.endProgress == endProgress
      ensures this.hasCallback == hasCallback && this.fraction == fraction && this.counter == counter
    {
      this.toProgress := toProg;
      this.startProgress := startProgress;
      this.endProgress := endProgress;
      this.hasCallback := hasCallback;
      this.fraction := fraction;
      this.counter := counter;
    }

    /** `VcInstallerLog(input, iType)`: a log that drives no progress. */
    constructor Plain(fraction: (Marker, int) -> int, counter: ConfigProgress.ConfigProgress)
      ensures !toProgress && startProgress == 0 && endProgress == 0 && !hasCallback
      ensures this.fraction == fraction && this.counter == counter
    {
      toProgress := false;
      startProgress := 0;
      endProgress := 0;
      hasCallback := false;
      this.fraction := fraction;
      this.counter := counter;
    }

    /** Where a milestone puts the counter: one past the start, one short
        of the end, or the start plus the milestone's share of the span —
        always measured from the start, never from the current progress. */
    function Target(m: Marker): (p: int)
      ensures m == TemplateVerification ==> p == Wrap32(startProgress + 1)
      ensures m == FinishedSuccessfully ==> p == Wrap32(endProgress - 1)
      ensures m != TemplateVerification && m != FinishedSuccessfully ==>
        p == Wrap32(startProgress + fraction(m, Wrap32(endProgress - startProgress)))
      ensures IsInt32(p)
    {
      var all := Wrap32(endProgress - startProgress);
      match m
      case TemplateVerification => Wrap32(startProgress + 1)
      case FinishedSuccessfully => Wrap32(endProgress - 1)
      case _ => Wrap32(startProgress + fraction(m, all))
    }

    /** `vcInstallProgress`: a line announcing a milestone sets the counter
        to that milestone's target (and reports it); any other line changes
        nothing. */
    method VcInstallProgress(line: string)
      modifies counter
      ensures LineMarker(line).None? ==> counter.progress == old(counter.progress) && counter.printed == old(counter.printed)
      ensures LineMarker(line).Some? ==>
        counter.progress == Target(LineMarker(line).value)
        && counter.printed == old(counter.printed) + (if hasCallback then [counter.progress] else [])
    {
      var marker := LineMarker(line);
      if marker.Some? {
        counter.SetProgress(Target(marker.value), hasCallback);
      }
    }

    /** `run`, over the lines the installer printed: when the log drives
        progress, each line is classified in turn. */
    method Run(lines: seq<string>)
      modifies counter
      ensures !toProgress ==> counter.progress == old(counter.progress) && counter.printed == old(counter.printed)
      ensures toProgress ==> counter.progress == LastTarget(lines, old(counter.progress))
      ensures toProgress ==> counter.printed == old(counter.printed) + (if hasCallback then Targets(lines) else [])
    {
      if !toProgress {
        return;
      }
      var i := 0;
      while i < |lines|
        invariant 0 <= i <= |lines|
        invariant counter.progress == LastTarget(lines[..i], old(counter.progress))
        invariant counter.printed == old(counter.printed) + (if hasCallback then Targets(lines[..i]) else [])
      {
        Feed(lines, i, old(counter.progress), old(counter.printed));
        i := i + 1;
      }
      assert lines[..i] == lines;
    }

    /** One pass of `run`'s loop: line i moves the counter on from where
        the earlier lines left it. */
    method Feed(lines: seq<string>, i: int, ghost before: int, ghost reported: seq<int>)
      requires 0 <= i < |lines|
      requires counter.progress == LastTarget(lines[..i], before)
      requires counter.printed == reported + (if hasCallback then Targets(lines[..i]) else [])
      modifies counter
      ensures counter.progress == LastTarget(lines[..i + 1], before)
      ensures counter.printed == reported + (if hasCallback then Targets(lines[..i + 1]) else [])
    {
      RunStep(lines, i, before);
      VcInstallProgress(lines[i]);
    }

    /** The counter after the lines: the target of the last announcing
        line, or `before` when none announces anything. */
    function LastTarget(lines: seq<string>, before: int): int
    {
      if |lines| == 0 then before
      else
        var m := LineMarker(lines[|lines| - 1]);
        if m.Some? then Target(m.value) else LastTarget(lines[..|lines| - 1], before)
    }

    /** The targets of the announcing lines, in order. */
    function Targets(lines: seq<string>): seq<int>
    {
      if |lines| == 0 then []
      else
        var m := LineMarker(lines[|lines| - 1]);
        Targets(lines[..|lines| - 1]) + (if m.Some? then [Target(m.value)] else [])
    }

    /** One more line: it moves the counter and adds a report exactly
        when it announces a milestone. */
    lemma RunStep(lines: seq<string>, i: int, before: int)
      requires 0 <= i < |lines|
      ensures LastTarget(lines[..i + 1], before)
        == (if LineMarker(lines[i]).Some? then Target(LineMarker(lines[i]).value) else LastTarget(lines[..i], before))
      ensures Targets(lines[..i + 1])
        == Targets(lines[..i]) + (if LineMarker(lines[i]).Some? then [Target(LineMarker(lines[i]).value)] else [])
    {
      assert lines[..i + 1][..i] == lines[..i];
      assert lines[..i + 1][i] == lines[i];
    }

    /** Only the last announcing line decides where the counter ends, so a
        later milestone earlier in the chain moves the counter back. */
    lemma {:induction false} LastLineDecides(lines: seq<string>, before: int, k: int)
      requires 0 <= k < |lines| && LineMarker(lines[k]).Some?
      requires forall j :: k < j < |lines| ==> LineMarker(lines[j]).None?
      ensures LastTarget(lines, before) == Target(LineMarker(lines[k]).value)
      decreases |lines|
    {
      var init := lines[..|lines| - 1];
      if k < |lines| - 1 {
        assert LineMarker(lines[|lines| - 1]).None?;
        assert LastTarget(lines, before) == LastTarget(init, before);
        assert init[k] == lines[k];
        assert forall j :: k < j < |init| ==> LineMarker(init[j]).None? by {
          forall j | k < j < |init| ensures LineMarker(init[j]).None? {
            assert init[j] == lines[j];
          }
        }
        LastLineDecides(init, before, k);
      }
    }

    /** The counter's last report is where it ends. */
    lemma {:induction false} LastReportIsFinal(lines: seq<string>, before: int)
      requires |Targets(lines)| > 0
      ensures Targets(lines)[|Targets(lines)| - 1] == LastTarget(lines, before)
      decreases |lines|
    {
      var init := lines[..|lines| - 1];
      var m := LineMarker(lines[|lines| - 1]);
      if m.None? {
        assert Targets(lines) == Targets(init) && LastTarget(lines, before) == LastTarget(init, before);
        LastReportIsFinal(init, before);
      } else {
        assert Targets(lines) == Targets(init) + [Target(m.value)];
        assert LastTarget(lines, before) == Target(m.value);
      }
    }
  }
}
