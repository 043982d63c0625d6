/** Where a resumed launch falls short of an uninterrupted one, and histories that get there. */
module LaunchExceptions {

  import opened Common
  import opened SessionKinds
  import opened LaunchStages
  import opened LaunchRuns
  import opened LaunchHistories

  // ---- Windows ----

  predicate Opens(a: Act, window: Window) {
    a == Do(StartAgent) || (a == Do(EnsureShell) && window == Shell)
  }

  predicate OpensIn(acts: seq<Act>, window: Window) {
    exists a :: a in acts && Opens(a, window)
  }

  /** A complete run leaves exactly the windows that were open or that it opened. */
  lemma {:induction false} RunOpensWindows(spec: Spec, w: World, acts: seq<Act>, window: Window)
    requires w.vm.Some? && Run(spec, w, acts).Some? && Do(CloneVm) !in acts
    ensures Run(spec, w, acts).value.vm.Some?
    ensures window in Run(spec, w, acts).value.vm.value.live <==> window in w.vm.value.live || OpensIn(acts, window)
    decreases |acts|
  {
    if acts != [] {
      RunOpensWindows(spec, Apply(spec, w, acts[0]), acts[1..], window);
      assert acts == [acts[0]] + acts[1..];
      assert OpensIn(acts, window) <==> Opens(acts[0], window) || OpensIn(acts[1..], window);
    }
  }

  lemma StagesOpen(spec: Spec, stage: Stage, window: Window)
    requires Belongs(spec.mode, stage)
    ensures OpensIn(ActsOf(spec, stage), window) <==>
      (stage == ShellReady && window == Shell) || (stage == AgentStarted && spec.provider)
  {
    ActsOfThen(spec, stage, []);
    if stage == ShellReady { assert Do(EnsureShell) in ActsOf(spec, stage); }
    if stage == AgentStarted && spec.provider { assert Do(StartAgent) in ActsOf(spec, stage); }
  }

  lemma {:induction false} StagesThenOpen(spec: Spec, stages: seq<Stage>, rest: seq<Act>, window: Window)
    requires forall stage :: stage in stages ==> Belongs(spec.mode, stage)
    requires !OpensIn(rest, window)
    ensures OpensIn(StagesThen(spec, stages, rest), window) <==>
      (window == Shell && ShellReady in stages) || (spec.provider && AgentStarted in stages)
  {
    if stages != [] {
      assert stages == [stages[0]] + stages[1..];
      StagesOpen(spec, stages[0], window);
      StagesThenOpen(spec, stages[1..], rest, window);
    }
  }

  lemma SeedingOpens(spec: Spec, later: seq<Stage>, window: Window)
    requires forall stage :: stage in later ==> Belongs(spec.mode, stage)
    ensures OpensIn(SeedingOn(spec, later), window) <==>
      (window == Shell && ShellReady in later) || (spec.provider && AgentStarted in later)
  {
    StagesThenOpen(spec, later, FINISH, window);
  }

  lemma RetryTailOpens(spec: Spec, completed: Stage, window: Window)
    ensures OpensIn(RetryTail(spec, completed), window) <==>
      (window == Shell && Pending(spec.mode, completed, ShellReady)) ||
      (spec.provider && Pending(spec.mode, completed, AgentStarted))
  {
    var later := Only(spec.mode, completed, Later(spec.mode));
    OnlyIsWithin(spec.mode, completed, Later(spec.mode));
    SeedingOpens(spec, later, window);
  }

  lemma RetryOpens(spec: Spec, completed: Stage, window: Window)
    ensures OpensIn(RetryPlan(spec, completed), window) <==>
      (window == Shell && Pending(spec.mode, completed, ShellReady)) ||
      (spec.provider && Pending(spec.mode, completed, AgentStarted))
  {
    RetryPlanParts(spec, completed);
    RetryTailOpens(spec, completed, window);
    StagesOpen(spec, PortsConfigured, window);
  }

  lemma LaunchOpens(spec: Spec, window: Window)
    ensures OpensIn(AfterClone(spec), window) <==> window == Shell || spec.provider
  {
    var seeding := SeedingOn(spec, Later(spec.mode));
    TwoStages(spec, PortsConfigured, VmStarted, seeding);
    SeedingOpens(spec, Later(spec.mode), window);
    StagesOpen(spec, VmStarted, window);
    StagesOpen(spec, PortsConfigured, window);
  }

  /** A window the uninterrupted launch would leave open is open, or its stage is still to come. */
  predicate WindowIsComing(spec: Spec, w: World, window: Window)
    requires w.vm.Some? && w.retry.Some?
  {
    window in w.vm.value.live ||
    (window == Shell && Pending(spec.mode, w.retry.value.checkpoint, ShellReady)) ||
    (spec.provider && Pending(spec.mode, w.retry.value.checkpoint, AgentStarted))
  }

  /**
   * The windows are the exception. Stages are not redone, so a retry that completes leaves the windows of
   * an uninterrupted launch exactly when each of them is still open or its stage is still pending; a VM
   * that stopped after its shell's checkpoint comes back without its shell.
   */
  lemma RetryLeavesTheWindowsIff(spec: Spec, start: World, w: World)
    requires Begun(start) && InProgress(spec, 0, w)
    requires w.vm.value.live <= (if spec.provider then {Shell, Agent} else {Shell})
    requires Run(spec, w, RetryPlan(spec, w.retry.value.checkpoint)).Some?
    ensures var retried := Run(spec, w, RetryPlan(spec, w.retry.value.checkpoint)).value;
      Run(spec, start, LaunchPlan(spec)).Some? &&
      var launched := Run(spec, start, LaunchPlan(spec)).value;
      retried.vm.Some? && launched.vm.Some? &&
      (retried.vm.value.live == launched.vm.value.live <==>
        WindowIsComing(spec, w, Shell) && (spec.provider ==> WindowIsComing(spec, w, Agent)))
  {
    var completed := w.retry.value.checkpoint;
    var retried := RetriedWindows(spec, w);
    var launched := LaunchedWindows(spec, start);
    if spec.provider {
      assert WindowIsComing(spec, w, Agent) <==> Agent in retried.vm.value.live;
    } else {
      assert Agent !in retried.vm.value.live;
    }
    assert WindowIsComing(spec, w, Shell) <==> Shell in retried.vm.value.live;
    SameWindows(retried.vm.value.live, launched.vm.value.live);
  }

  lemma SameWindows(a: set<Window>, b: set<Window>)
    ensures a == b <==> (Shell in a <==> Shell in b) && (Agent in a <==> Agent in b)
  {
    if (Shell in a <==> Shell in b) && (Agent in a <==> Agent in b) {
      forall x ensures x in a <==> x in b { assert x == Shell || x == Agent; }
    }
  }

  lemma RetriedWindows(spec: Spec, w: World) returns (retried: World)
    requires InProgress(spec, 0, w) && Run(spec, w, RetryPlan(spec, w.retry.value.checkpoint)).Some?
    ensures retried == Run(spec, w, RetryPlan(spec, w.retry.value.checkpoint)).value && retried.vm.Some?
    ensures Shell in retried.vm.value.live <==> WindowIsComing(spec, w, Shell)
    ensures Agent in retried.vm.value.live <==> WindowIsComing(spec, w, Agent)
  {
    var plan := RetryPlan(spec, w.retry.value.checkpoint);
    retried := Run(spec, w, plan).value;
    RetryNeverClones(spec, w.retry.value.checkpoint);
    RunOpensWindows(spec, w, plan, Shell);
    RunOpensWindows(spec, w, plan, Agent);
    RetryOpens(spec, w.retry.value.checkpoint, Shell);
    RetryOpens(spec, w.retry.value.checkpoint, Agent);
  }

  lemma RetryNeverClones(spec: Spec, completed: Stage)
    ensures Do(CloneVm) !in RetryPlan(spec, completed)
  {
    RetryPlanParts(spec, completed);
    ActsOfThen(spec, PortsConfigured, [Do(StartVm)] + RetryTail(spec, completed));
  }

  lemma {:induction false} ColdNeverClones(acts: seq<Act>)
    requires Cold(acts)
    ensures Do(CloneVm) !in acts
    decreases |acts|
  {
    if acts != [] {
      assert acts == [acts[0]] + acts[1..];
      if acts[0] != Do(StartVm) { ColdNeverClones(acts[1..]); }
    }
  }

  lemma LaunchedWindows(spec: Spec, start: World) returns (launched: World)
    requires Begun(start)
    ensures Run(spec, start, LaunchPlan(spec)) == Some(launched) && launched.vm.Some?
    ensures Shell in launched.vm.value.live
    ensures Agent in launched.vm.value.live <==> spec.provider
  {
    UninterruptedLaunchFinishes(spec, start);
    AfterCloneIsCold(spec);
    ColdNeverClones(AfterClone(spec));
    launched := Run(spec, start, LaunchPlan(spec)).value;
    RunOpensWindows(spec, Cloned(spec, start), AfterClone(spec), Shell);
    RunOpensWindows(spec, Cloned(spec, start), AfterClone(spec), Agent);
    LaunchOpens(spec, Shell);
    LaunchOpens(spec, Agent);
  }

  // ---- Stopping right after a checkpoint ----

  /** Stopped between two actions. */
  lemma {:induction false} PrefixIsAttempt(spec: Spec, w: World, a: seq<Act>, b: seq<Act>)
    requires Run(spec, w, a).Some?
    ensures Attempt(spec, w, a + b, Run(spec, w, a).value)
    decreases |a|
  {
    if a == [] {
      assert a + b == b;
      if b != [] { assert Half(spec, w, b[0], w) && StopsDuring(spec, w, b[0], w); }
    } else {
      assert (a + b)[0] == a[0] && (a + b)[1..] == a[1..] + b;
      PrefixIsAttempt(spec, Apply(spec, w, a[0]), a[1..], b);
    }
  }

  lemma RunIsAttempt(spec: Spec, w: World, acts: seq<Act>)
    requires Run(spec, w, acts).Some?
    ensures Attempt(spec, w, acts, Run(spec, w, acts).value)
  {
    assert acts + [] == acts;
    PrefixIsAttempt(spec, w, acts, []);
  }

  lemma {:induction false} StagesSaveEach(spec: Spec, stages: seq<Stage>, rest: seq<Act>, stage: Stage)
    returns (before: seq<Act>, after: seq<Act>)
    requires stage in stages
    ensures StagesThen(spec, stages, rest) == before + ([Save(stage)] + after)
    ensures Remaining(stages, stage).Some? && after == StagesThen(spec, Remaining(stages, stage).value, rest)
  {
    if stages[0] == stage {
      after := StagesThen(spec, stages[1..], rest);
      before := ActsOf(spec, stage)[..|ActsOf(spec, stage)| - 1];
      assert ActsOf(spec, stage) == before + [Save(stage)];
    } else {
      var b, a := StagesSaveEach(spec, stages[1..], rest, stage);
      before, after := ActsOf(spec, stages[0]) + b, a;
    }
  }

  lemma LaunchSavesEach(spec: Spec, stage: Stage) returns (before: seq<Act>, after: seq<Act>)
    requires stage in Later(spec.mode)
    ensures LaunchPlan(spec) == before + ([Save(stage)] + after)
    ensures Remaining(Later(spec.mode), stage).Some?
    ensures after == StagesThen(spec, Remaining(Later(spec.mode), stage).value, FINISH)
  {
    var seeding := SeedingOn(spec, Later(spec.mode));
    TwoStages(spec, PortsConfigured, VmStarted, seeding);
    var b, a := StagesSaveEach(spec, Later(spec.mode), FINISH, stage);
    before := ActsOf(spec, VmCloned) + [Mark(Starting)] + ActsOf(spec, PortsConfigured) + ActsOf(spec, VmStarted) +
      [Mark(Seeding)] + b;
    after := a;
  }

  /** A launch stopped right after it stored this stage's checkpoint. */
  lemma StopAfterSaving(spec: Spec, start: World, stage: Stage, before: seq<Act>, after: seq<Act>) returns (w: World)
    requires Begun(start) && LaunchPlan(spec) == before + ([Save(stage)] + after)
    ensures Attempt(spec, start, LaunchPlan(spec), w) && w.retry == Some(Retry(stage, false)) && InProgress(spec, 0, w)
  {
    UninterruptedLaunchFinishes(spec, start);
    assert before + ([Save(stage)] + after) == before + [Save(stage)] + after;
    RunConcat(spec, start, before + [Save(stage)], after);
    RunConcat(spec, start, before, [Save(stage)]);
    PrefixIsAttempt(spec, start, before + [Save(stage)], after);
    w := Run(spec, start, before + [Save(stage)]).value;
    assert [Save(stage)][1..] == [];
    assert w == Apply(spec, Run(spec, start, before).value, Save(stage));
    StoppedLaunchIsResumable(spec, start, w);
  }

  // ---- A retry goes on with the launch ----

  lemma {:induction false} OnlyIsAll(mode: Mode, completed: Stage, stages: seq<Stage>)
    requires forall stage :: stage in stages ==> Pending(mode, completed, stage)
    ensures Only(mode, completed, stages) == stages
  {
    if stages != [] {
      OnlyIsAll(mode, completed, stages[1..]);
      assert stages[0] in stages && stages == [stages[0]] + stages[1..];
    }
  }

  lemma {:induction false} OnlyIsRemaining(mode: Mode, completed: Stage, stages: seq<Stage>)
    requires completed in stages && Belongs(mode, completed)
    requires forall stage :: stage in stages ==> Belongs(mode, stage)
    requires forall j, k :: 0 <= j < k < |stages| ==> Rank(mode, stages[j]) < Rank(mode, stages[k])
    ensures Some(Only(mode, completed, stages)) == Remaining(stages, completed)
  {
    var rest := stages[1..];
    OnlySplits(mode, completed, stages);
    if stages[0] == completed {
      forall stage | stage in rest ensures Pending(mode, completed, stage) {
        var k :| 0 <= k < |rest| && rest[k] == stage;
        assert stages[k + 1] == stage;
      }
      OnlyIsAll(mode, completed, rest);
    } else {
      assert forall k :: 0 <= k < |rest| ==> rest[k] == stages[k + 1];
      var k :| 0 <= k < |rest| && rest[k] == completed;
      OnlyIsRemaining(mode, completed, rest);
    }
  }

  /** What a launch has done before it starts its VM, up to the ports' checkpoint. */
  function BeforePorts(spec: Spec): seq<Act> {
    ActsOf(spec, VmCloned) + [Mark(Starting)] + When(spec.ports != [], [Do(ConfigurePorts)])
  }

  lemma LaunchSavesPorts(spec: Spec)
    ensures LaunchPlan(spec) == BeforePorts(spec) +
      ([Save(PortsConfigured)] + (ActsOf(spec, VmStarted) + SeedingOn(spec, Later(spec.mode))))
  {
    TwoStages(spec, PortsConfigured, VmStarted, SeedingOn(spec, Later(spec.mode)));
    hide SeedingOn, StagesThen;
  }

  lemma LaunchSavesStart(spec: Spec) returns (before: seq<Act>)
    ensures LaunchPlan(spec) == before + ([Save(VmStarted)] + SeedingOn(spec, Later(spec.mode)))
  {
    hide SeedingOn, BeforePorts, LaunchPlan;
    LaunchSavesPorts(spec);
    var seeding := SeedingOn(spec, Later(spec.mode));
    before := BeforePorts(spec) + [Save(PortsConfigured), Do(StartVm)];
    assert ActsOf(spec, VmStarted) + seeding == [Do(StartVm)] + ([Save(VmStarted)] + seeding);
  }

  lemma LaterAreInOrder(mode: Mode)
    ensures forall stage :: stage in Later(mode) <==> Belongs(mode, stage) && Rank(mode, stage) > 2
    ensures forall j, k :: 0 <= j < k < |Later(mode)| ==> Rank(mode, Later(mode)[j]) < Rank(mode, Later(mode)[k])
  {
    forall stage ensures stage in Later(mode) <==> Belongs(mode, stage) && Rank(mode, stage) > 2 {
      StagesAreRanked(mode, stage);
    }
  }

  lemma RetryFromClone(spec: Spec)
    ensures AfterClone(spec) == [Mark(Starting)] + RetryPlan(spec, VmCloned)
  {
    hide SeedingOn, StagesThen, RetryPlan;
    var seeding := SeedingOn(spec, Later(spec.mode));
    LaterAreInOrder(spec.mode);
    OnlyIsAll(spec.mode, VmCloned, Later(spec.mode));
    RetryPlanParts(spec, VmCloned);
    TwoStages(spec, PortsConfigured, VmStarted, seeding);
    ActsOfThen(spec, VmStarted, seeding);
  }

  lemma RetryFromPorts(spec: Spec)
    ensures RetryPlan(spec, PortsConfigured) == ActsOf(spec, VmStarted) + SeedingOn(spec, Later(spec.mode))
  {
    hide SeedingOn, RetryPlan;
    LaterAreInOrder(spec.mode);
    OnlyIsAll(spec.mode, PortsConfigured, Later(spec.mode));
    RetryPlanParts(spec, PortsConfigured);
    ActsOfThen(spec, VmStarted, SeedingOn(spec, Later(spec.mode)));
  }

  lemma RetryFromStart(spec: Spec)
    ensures RetryPlan(spec, VmStarted) == [Do(StartVm)] + SeedingOn(spec, Later(spec.mode))
  {
    hide SeedingOn, RetryPlan;
    LaterAreInOrder(spec.mode);
    OnlyIsAll(spec.mode, VmStarted, Later(spec.mode));
    RetryPlanParts(spec, VmStarted);
  }

  lemma RetryFromLater(spec: Spec, completed: Stage)
    requires completed in Later(spec.mode)
    ensures Remaining(Later(spec.mode), completed).Some?
    ensures RetryPlan(spec, completed) ==
      [Do(StartVm), Mark(Seeding)] + StagesThen(spec, Remaining(Later(spec.mode), completed).value, FINISH)
  {
    hide StagesThen, RetryPlan, Only, Remaining;
    LaterAreInOrder(spec.mode);
    OnlyIsRemaining(spec.mode, completed, Later(spec.mode));
    RetryPlanParts(spec, completed);
  }

  /**
   * A retry does exactly what the launch had still to do after the checkpoint it resumes from; only, it does
   * not mark the session as starting again, and it first starts a VM whose start is behind it.
   */
  lemma RetryContinuesLaunch(spec: Spec, completed: Stage) returns (before: seq<Act>, after: seq<Act>)
    requires Belongs(spec.mode, completed)
    ensures LaunchPlan(spec) == before + ([Save(completed)] + after)
    ensures match completed
      case VmCloned => after == [Mark(Starting)] + RetryPlan(spec, completed)
      case PortsConfigured => RetryPlan(spec, completed) == after
      case VmStarted => RetryPlan(spec, completed) == [Do(StartVm)] + after
      case _ => RetryPlan(spec, completed) == [Do(StartVm), Mark(Seeding)] + after
  {
    hide SeedingOn, StagesThen, RetryPlan, AfterClone, BeforePorts, Later;
    match completed
    case VmCloned =>
      RetryFromClone(spec);
      before, after := [Do(CloneVm)], AfterClone(spec);
    case PortsConfigured =>
      RetryFromPorts(spec);
      LaunchSavesPorts(spec);
      before, after := BeforePorts(spec), ActsOf(spec, VmStarted) + SeedingOn(spec, Later(spec.mode));
    case VmStarted =>
      RetryFromStart(spec);
      before := LaunchSavesStart(spec);
      after := SeedingOn(spec, Later(spec.mode));
    case _ =>
      LaterAreInOrder(spec.mode);
      before, after := LaunchSavesEach(spec, completed);
      RetryFromLater(spec, completed);
  }

  // ---- Histories that lose a window, or cannot go on ----

  /** Somebody stops the VM, which ends its windows, or starts it. */
  function Switched(w: World, on: bool): World {
    match w.vm
    case None => w
    case Some(vm) => w.(vm := Some(vm.(running := on, live := if on then vm.live else {})))
  }

  lemma SwitchedIsBetween(spec: Spec, w: World, on: bool)
    requires InProgress(spec, 0, w)
    ensures Between(w, Switched(w, on)) && InProgress(spec, 0, Switched(w, on))
  {
    BetweenKeepsProgress(spec, 0, w, Switched(w, on));
  }

  lemma BetweenContinues(spec: Spec, w: World, w': World)
    requires w.retry.Some? && Between(w, w')
    ensures Continues(spec, w, w')
  {
  }

  /** Retried without any failure after its VM has stopped, a session ends with the windows still to come. */
  lemma RetryAfterStop(spec: Spec, w: World) returns (retried: World)
    requires InProgress(spec, 0, w)
    ensures var down := Switched(w, false);
      Run(spec, down, RetryPlan(spec, w.retry.value.checkpoint)) == Some(retried) && Continues(spec, down, retried)
    ensures Finished(spec, retried) && (Shell in retried.vm.value.live <==> WindowIsComing(spec, Switched(w, false), Shell))
  {
    var down, plan := Switched(w, false), RetryPlan(spec, w.retry.value.checkpoint);
    SwitchedIsBetween(spec, w, false);
    RetryCompletesIff(spec, 0, down);
    retried := RetriedWindows(spec, down);
    RunIsAttempt(spec, down, plan);
    RaiseLow(spec, 0, down);
    CompleteRunFinishes(spec, Rank(spec.mode, w.retry.value.checkpoint), down, plan);
  }

  /** The last stage that opens a window. */
  function LastWindowStage(spec: Spec): Stage {
    if spec.provider then AgentStarted else ShellReady
  }

  /**
   * For every launch or open: stopped right after its last window's checkpoint, its VM then stopped, and
   * retried without any failure, it ends finished but without the shell an uninterrupted one leaves open.
   */
  lemma WindowsCanBeLost(spec: Spec, start: World) returns (ws: seq<World>)
    requires Begun(start)
    ensures History(spec, start, ws) && |ws| == 3
    ensures ws[0].retry == Some(Retry(LastWindowStage(spec), false)) && ws[1] == Switched(ws[0], false)
    ensures Run(spec, ws[1], RetryPlan(spec, LastWindowStage(spec))) == Some(ws[2]) && Finished(spec, ws[2])
    ensures Shell !in ws[2].vm.value.live
    ensures Run(spec, start, LaunchPlan(spec)).Some? && var launched := Run(spec, start, LaunchPlan(spec)).value;
      launched.vm.Some? && Shell in launched.vm.value.live
  {
    hide Run, Attempt, Finished, InProgress, Begun, LaunchPlan, RetryPlan, Continues, Between;
    var stage := LastWindowStage(spec);
    var before, after := LaunchSavesEach(spec, stage);
    var stopped := StopAfterSaving(spec, start, stage, before, after);
    var down := Switched(stopped, false);
    SwitchedIsBetween(spec, stopped, false);
    var retried := RetryAfterStop(spec, stopped);
    var launched := LaunchedWindows(spec, start);
    ws := [stopped, down, retried];
    assert Continues(spec, stopped, down) by { BetweenContinues(spec, stopped, down); }
  }

  /**
   * And for every launch or open with ports: stopped right after its clone's checkpoint, and its VM then
   * started by somebody else, a retry cannot complete.
   */
  lemma RetryCanBeStuck(spec: Spec, start: World) returns (ws: seq<World>)
    requires Begun(start) && spec.ports != []
    ensures History(spec, start, ws) && |ws| == 2
    ensures ws[0].retry == Some(Retry(VmCloned, false)) && ws[1] == Switched(ws[0], true)
    ensures Run(spec, ws[1], RetryPlan(spec, VmCloned)) == None
  {
    assert LaunchPlan(spec) == [Do(CloneVm)] + ([Save(VmCloned)] + AfterClone(spec));
    var cloned := StopAfterSaving(spec, start, VmCloned, [Do(CloneVm)], AfterClone(spec));
    var up := Switched(cloned, true);
    SwitchedIsBetween(spec, cloned, true);
    RetryCompletesIff(spec, 0, up);
    ws := [cloned, up];
    assert Continues(spec, cloned, up);
  }
}
