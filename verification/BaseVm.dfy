/** The prepared base VM: when it needs preparing, and the steps that prepare it (src/lima/base.rs, src/commands/base.rs). */
module BaseVm {

  import opened Common

  datatype Status = Running | Stopped | Other

  datatype Stamp = Missing | Stale | Fresh

  /** `deprecated`: host mounts or a top-level rosetta entry in its configuration. */
  datatype Vm = Vm(status: Status, deprecated: bool, guarded: bool, stamp: Stamp)

  type Base = Option<Vm>

  // ---- What to do about a base before cloning it ----

  datatype Warning = NoMetadata | StaleProvision | Unguarded

  datatype Strategy = Blocked | Clone(warning: Option<Warning>) | Prepare(rebuild: bool)

  /** `prepare_strategy`. */
  function StrategyFor(base: Base): Strategy {
    match base
    case None => Prepare(false)
    case Some(vm) =>
      if vm.status == Running then Blocked
      else if vm.deprecated then Prepare(true)
      else if vm.stamp == Missing then Clone(Some(NoMetadata))
      else if vm.stamp == Stale then Clone(Some(StaleProvision))
      else if !vm.guarded then Clone(Some(Unguarded))
      else Clone(None)
  }

  /**
   * The decision, outcome by outcome: a running base is refused, a missing one created, one with deprecated
   * configuration rebuilt, and any other cloned, with the first warning that applies.
   */
  lemma StrategyIs(base: Base, warning: Option<Warning>)
    ensures StrategyFor(base) == Blocked <==> base.Some? && base.value.status == Running
    ensures StrategyFor(base) == Prepare(false) <==> base.None?
    ensures StrategyFor(base) == Prepare(true) <==> base.Some? && base.value.status != Running && base.value.deprecated
    ensures StrategyFor(base) == Clone(warning) <==> MayBeCloned(base) && IsWarning(base.value, warning)
  {
  }

  predicate MayBeCloned(base: Base) {
    base.Some? && base.value.status != Running && !base.value.deprecated
  }

  predicate IsWarning(vm: Vm, warning: Option<Warning>) {
    match warning
    case Some(NoMetadata) => vm.stamp == Missing
    case Some(StaleProvision) => vm.stamp == Stale
    case Some(Unguarded) => vm.stamp == Fresh && !vm.guarded
    case None => vm.stamp == Fresh && vm.guarded
  }

  // ---- The steps ----

  datatype Step = Unprotect | Delete | Create | Start | Probe | WriteStamp | Stop | Protect

  function PrepareSteps(rebuild: bool): seq<Step> {
    (if rebuild then [Unprotect, Delete] else []) + [Create, Start, Probe, Stop, Protect]
  }

  /** `prepare_steps_for_existing`. */
  function StepsForExisting(base: Base, rebuild: bool): seq<Step> {
    match base
    case None => PrepareSteps(false)
    case Some(vm) =>
      if rebuild || vm.deprecated then PrepareSteps(true)
      else if vm.status == Running then [Stop, Start, Probe, Stop, Protect]
      else [Start, Probe, Stop, Protect]
  }

  function AfterProbe(steps: seq<Step>): seq<Step> {
    if steps == [] then []
    else if steps[0] == Probe then [Probe, WriteStamp] + steps[1..]
    else [steps[0]] + AfterProbe(steps[1..])
  }

  /** `prepare_report_steps_for_existing`. */
  function ReportSteps(base: Base, rebuild: bool): seq<Step> {
    AfterProbe(StepsForExisting(base, rebuild))
  }

  /** The steps written out: a base is deleted exactly when it exists and is to be rebuilt, or is deprecated. */
  lemma ReportStepsAre(base: Base, rebuild: bool)
    ensures ReportSteps(base, rebuild) ==
      if base.None? then [Create, Start, Probe, WriteStamp, Stop, Protect]
      else if rebuild || base.value.deprecated then [Unprotect, Delete, Create, Start, Probe, WriteStamp, Stop, Protect]
      else if base.value.status == Running then [Stop, Start, Probe, WriteStamp, Stop, Protect]
      else [Start, Probe, WriteStamp, Stop, Protect]
  {
    InsertInCreate();
    if base.Some? && !rebuild && !base.value.deprecated && base.value.status == Running {
      assert [Stop, Start, Probe, Stop, Protect][1..] == [Start, Probe, Stop, Protect];
    }
  }

  /** What a working step does; `None` when `limactl` refuses it in that state. */
  function Apply(step: Step, base: Base): Option<Base> {
    match (step, base)
    case (Create, None) => Some(Some(Vm(Stopped, false, false, Missing)))
    case (Create, Some(_)) => None
    case (_, None) => None
    case (Unprotect, Some(vm)) => Some(Some(vm.(guarded := false)))
    case (Delete, Some(vm)) => if vm.guarded then None else Some(None)
    case (Start, Some(vm)) => if vm.status == Running then None else Some(Some(vm.(status := Running)))
    case (Probe, Some(vm)) => if vm.status == Running then Some(base) else None
    case (WriteStamp, Some(vm)) => Some(Some(vm.(stamp := Fresh)))
    case (Stop, Some(vm)) => if vm.status == Running then Some(Some(vm.(status := Stopped))) else None
    case (Protect, Some(vm)) => Some(Some(vm.(guarded := true)))
  }

  /** What a step leaves alone: only guarding changes the guard, only a stamp the stamp, only starting and stopping the status. */
  lemma StepsChangeOneThing(step: Step, base: Base)
    requires base.Some? && Apply(step, base).Some?
    ensures step != Create && (Apply(step, base).value.None? <==> step == Delete)
    ensures step != Delete ==>
      var vm, vm' := base.value, Apply(step, base).value.value;
      && vm'.deprecated == vm.deprecated
      && vm'.guarded == (if step == Protect then true else if step == Unprotect then false else vm.guarded)
      && vm'.stamp == (if step == WriteStamp then Fresh else vm.stamp)
      && vm'.status == (if step == Start then Running else if step == Stop then Stopped else vm.status)
  {
  }

  function RunSteps(steps: seq<Step>, base: Base): Option<Base> {
    if steps == [] then Some(base)
    else match Apply(steps[0], base) case None => None case Some(next) => RunSteps(steps[1..], next)
  }

  const PREPARED: Base := Some(Vm(Stopped, false, true, Fresh))

  lemma RunOneStep(step: Step, rest: seq<Step>, base: Base)
    ensures RunSteps([step] + rest, base) ==
      match Apply(step, base) case None => None case Some(next) => RunSteps(rest, next)
  {
    assert ([step] + rest)[1..] == rest;
  }

  /** From any running base the last steps stop, stamp and guard it. */
  lemma FinishSteps(vm: Vm)
    requires vm.status == Running
    ensures RunSteps([Probe, WriteStamp, Stop, Protect], Some(vm)) == Some(Some(Vm(Stopped, vm.deprecated, true, Fresh)))
  {
    RunOneStep(Probe, [WriteStamp, Stop, Protect], Some(vm));
    RunOneStep(WriteStamp, [Stop, Protect], Some(vm));
    RunOneStep(Stop, [Protect], Some(vm.(stamp := Fresh)));
    RunOneStep(Protect, [], Some(vm.(stamp := Fresh, status := Stopped)));
    assert [Probe, WriteStamp, Stop, Protect] == [Probe] + [WriteStamp, Stop, Protect];
    assert [WriteStamp, Stop, Protect] == [WriteStamp] + [Stop, Protect];
    assert [Stop, Protect] == [Stop] + [Protect] && [Protect] == [Protect] + [];
  }

  lemma {:induction false} StartSteps(base: Base)
    requires base.Some? && base.value.status != Running
    ensures RunSteps([Start, Probe, WriteStamp, Stop, Protect], base) ==
      Some(Some(Vm(Stopped, base.value.deprecated, true, Fresh)))
  {
    var finish := [Probe, WriteStamp, Stop, Protect];
    RunOneStep(Start, finish, base);
    FinishSteps(base.value.(status := Running));
    assert [Start] + finish == [Start, Probe, WriteStamp, Stop, Protect];
  }

  lemma CreateSteps()
    ensures RunSteps([Create] + [Start, Probe, WriteStamp, Stop, Protect], None) == Some(PREPARED)
  {
    RunOneStep(Create, [Start, Probe, WriteStamp, Stop, Protect], None);
    StartSteps(Some(Vm(Stopped, false, false, Missing)));
  }

  lemma InsertInCreate()
    ensures AfterProbe(PrepareSteps(false)) == [Create] + [Start, Probe, WriteStamp, Stop, Protect]
    ensures AfterProbe(PrepareSteps(true)) == [Unprotect] + ([Delete] + ([Create] + [Start, Probe, WriteStamp, Stop, Protect]))
  {
    var create := [Create, Start, Probe, Stop, Protect];
    assert PrepareSteps(false) == create;
    assert create[1..] == [Start, Probe, Stop, Protect];
    assert PrepareSteps(true)[1..] == [Delete] + create;
    assert ([Delete] + create)[1..] == create;
  }

  /** Whatever is there beforehand, its steps all apply in order and end in a prepared base, ready to clone. */
  lemma PreparationCompletes(base: Base, rebuild: bool)
    ensures RunSteps(ReportSteps(base, rebuild), base) == Some(PREPARED)
    ensures StrategyFor(PREPARED) == Clone(None)
  {
    var start := [Start, Probe, WriteStamp, Stop, Protect];
    InsertInCreate();
    CreateSteps();
    if base.Some? {
      var vm := base.value;
      if rebuild || vm.deprecated {
        RunOneStep(Unprotect, [Delete] + ([Create] + start), base);
        RunOneStep(Delete, [Create] + start, Some(vm.(guarded := false)));
      } else if vm.status == Running {
        RunOneStep(Stop, start, base);
        StartSteps(Some(vm.(status := Stopped)));
      } else {
        StartSteps(base);
      }
    }
  }

  /** The host's base VM as the step loop changes it; a step that does not work leaves any state behind. */
  class Host {
    var base: Base

    method RunStep(step: Step, works: bool, left: Base) returns (ok: bool)
      modifies this
      ensures ok <==> works && Apply(step, old(base)).Some?
      ensures if ok then Apply(step, old(base)) == Some(base) else base == left
    {
      match Apply(step, base) {
        case Some(next) =>
          if works { base := next; return true; }
        case None =>
      }
      base := left;
      ok := false;
    }

    /**
     * `prepare_base_report_with_progress_timeout`: prepared exactly when every step works; otherwise it
     * stops at the first that does not, and when that is the stamp it still tries to stop the VM.
     */
    method PrepareBase(rebuild: bool, works: nat -> bool, left: Base, stops: bool) returns (r: Result<seq<Step>, Step>)
      modifies this
      ensures var steps := ReportSteps(old(base), rebuild);
        && (r.Ok? <==> forall i: nat :: i < |steps| ==> works(i))
        && (r.Ok? ==> base == PREPARED && r.value == steps)
        && (r.Err? ==> exists i: nat :: FailsFirst(steps, works, i) && r.error == steps[i])
        && (r.Err? ==> base == AfterFailing(r.error, left, stops))
    {
      hide ReportSteps, StrategyFor;
      var steps := ReportSteps(base, rebuild);
      PreparationCompletes(base, rebuild);
      assert steps[0..] == steps;
      for i := 0 to |steps|
        invariant RunSteps(steps[i..], base) == Some(PREPARED)
        invariant forall k: nat :: k < i ==> works(k)
      {
        assert steps[i..][0] == steps[i] && steps[i..][1..] == steps[i + 1..];
        var ok := RunStep(steps[i], works(i), left);
        if !ok {
          if steps[i] == WriteStamp { var _ := RunStep(Stop, stops, left); }
          assert FailsFirst(steps, works, i);
          return Err(steps[i]);
        }
      }
      r := Ok(steps);
    }
  }

  function AfterFailing(step: Step, left: Base, stops: bool): Base {
    if step == WriteStamp && stops && left.Some? && left.value.status == Running
    then Some(left.value.(status := Stopped)) else left
  }

  ghost predicate FailsFirst(steps: seq<Step>, works: nat -> bool, i: nat) {
    i < |steps| && !works(i) && forall k: nat :: k < i ==> works(k)
  }
}
