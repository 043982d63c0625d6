/** Whole histories of a session: a launch or open that stops after its clone's checkpoint, then retries. */
module LaunchHistories {

  import opened Common
  import opened SessionKinds
  import opened LaunchStages
  import opened LaunchRuns

  // ---- Attempts ----

  /** Stopped during an action, by a crash, or by a failure that is then recorded. */
  ghost predicate StopsDuring(spec: Spec, w: World, a: Act, w': World) {
    exists half :: Half(spec, w, a, half) && (w' == half || w' == Failed(half))
  }

  /** `save_launch_error`: an update that touches nothing when there is no retry row. */
  function Failed(w: World): World {
    match w.retry case None => w case Some(retry) => w.(retry := Some(retry.(failed := true)))
  }

  /** Doing these actions may end there, complete or not. */
  ghost predicate Attempt(spec: Spec, w: World, acts: seq<Act>, w': World)
    decreases |acts|
  {
    if acts == [] then w' == w
    else StopsDuring(spec, w, acts[0], w') || (Enabled(w, acts[0]) && Attempt(spec, Apply(spec, w, acts[0]), acts[1..], w'))
  }

  /** Doing these actions passes through a moment when those are left. */
  ghost predicate Reaches(spec: Spec, w: World, acts: seq<Act>, w': World, rest: seq<Act>)
    decreases |acts|
  {
    (w' == w && rest == acts) ||
    (acts != [] && Enabled(w, acts[0]) && Reaches(spec, Apply(spec, w, acts[0]), acts[1..], w', rest))
  }

  lemma {:induction false} AttemptIsResumable(spec: Spec, low: nat, w: World, acts: seq<Act>, w': World)
    requires Safe(spec, low, w, acts) && Attempt(spec, w, acts, w')
    ensures Resumable(spec, low, w')
    decreases |acts|
  {
    if acts != [] {
      if StopsDuring(spec, w, acts[0], w') {
        var half :| Half(spec, w, acts[0], half) && (w' == half || w' == Failed(half));
        FailedIsResumable(spec, low, half);
      } else {
        AttemptIsResumable(spec, low, Apply(spec, w, acts[0]), acts[1..], w');
      }
    }
  }

  lemma FailedIsResumable(spec: Spec, low: nat, w: World)
    requires Resumable(spec, low, w)
    ensures Resumable(spec, low, Failed(w))
  {
    if InProgress(spec, low, w) {
      forall stage | Belongs(spec.mode, stage) && Rank(spec.mode, stage) <= Rank(spec.mode, w.retry.value.checkpoint)
        ensures Has(spec, Failed(w), stage)
      {
        assert Has(spec, w, stage);
      }
    }
  }

  lemma {:induction false} ReachedIsSafe(spec: Spec, low: nat, w: World, acts: seq<Act>, w': World, rest: seq<Act>)
    requires Safe(spec, low, w, acts) && Reaches(spec, w, acts, w', rest)
    ensures Safe(spec, low, w', rest)
    decreases |acts|
  {
    if !(w' == w && rest == acts) {
      ReachedIsSafe(spec, low, Apply(spec, w, acts[0]), acts[1..], w', rest);
    }
  }

  lemma {:induction false} RunConcat(spec: Spec, w: World, a: seq<Act>, b: seq<Act>)
    ensures Run(spec, w, a + b) == match Run(spec, w, a) case None => None case Some(at) => Run(spec, at, b)
    decreases |a|
  {
    if a == [] {
      assert a + b == b;
    } else {
      assert (a + b)[0] == a[0] && (a + b)[1..] == a[1..] + b;
      if Enabled(w, a[0]) { RunConcat(spec, Apply(spec, w, a[0]), a[1..], b); }
    }
  }

  lemma {:induction false} CompleteRunFinishes(spec: Spec, low: nat, w: World, acts: seq<Act>)
    requires Safe(spec, low, w, acts) && Run(spec, w, acts).Some?
    ensures Finished(spec, Run(spec, w, acts).value)
    decreases |acts|
  {
    if acts != [] { CompleteRunFinishes(spec, low, Apply(spec, w, acts[0]), acts[1..]); }
  }

  // ---- The launch itself ----

  /** The session's row is there, its VM not yet. */
  predicate Begun(w: World) {
    w.vm.None? && w.retry.None? && w.row.Some? && !w.row.value.agentRecorded
  }

  function Cloned(spec: Spec, w: World): World
    requires Begun(w)
  {
    w.(vm := Some(Vm(false, spec.inherited, {}, {})), retry := Some(Retry(VmCloned, false)))
  }

  lemma CloneIsAtStage(spec: Spec, w: World)
    requires Begun(w)
    ensures AtStage(spec, 0, Cloned(spec, w), VmCloned, false)
    ensures Safe(spec, 0, Cloned(spec, w), AfterClone(spec))
  {
    assert [] + spec.inherited == spec.inherited;
    assert Repeated(spec.ports, 0) + spec.inherited == spec.inherited;
    AfterCloneIsSafe(spec);
  }

  /** A launch that stopped leaving a retry row left a resumable session. */
  lemma StoppedLaunchIsResumable(spec: Spec, start: World, w: World)
    requires Begun(start) && Attempt(spec, start, LaunchPlan(spec), w) && w.retry.Some?
    ensures InProgress(spec, 0, w)
  {
    CloneIsAtStage(spec, start);
    var cloned := Apply(spec, start, Do(CloneVm));
    var plan := LaunchPlan(spec);
    assert !StopsDuring(spec, start, plan[0], w);
    assert Attempt(spec, cloned, plan[1..], w);
    if StopsDuring(spec, cloned, Save(VmCloned), w) {
      FailedIsResumable(spec, 0, Cloned(spec, start));
    } else {
      AttemptIsResumable(spec, 0, Cloned(spec, start), AfterClone(spec), w);
    }
  }

  // ---- Nothing in a plan is out of place ----

  /** Only acts a running VM and a row are enough for. */
  predicate Warm(acts: seq<Act>) {
    forall a :: a in acts && a.Do? ==> a.effect != CloneVm && a.effect != ConfigurePorts
  }

  /** Only acts that need no guest, up to a start. */
  predicate Cold(acts: seq<Act>)
    decreases |acts|
  {
    acts != [] ==>
      (acts[0] == Do(StartVm) && Warm(acts[1..])) ||
      ((acts[0].Do? ==> acts[0].effect == ConfigurePorts) && Cold(acts[1..]))
  }

  lemma {:induction false} WarmRuns(spec: Spec, w: World, acts: seq<Act>)
    requires w.vm.Some? && w.vm.value.running && w.row.Some? && Warm(acts)
    ensures Run(spec, w, acts).Some?
    decreases |acts|
  {
    if acts != [] { WarmRuns(spec, Apply(spec, w, acts[0]), acts[1..]); }
  }

  lemma {:induction false} ColdRuns(spec: Spec, w: World, acts: seq<Act>)
    requires w.vm.Some? && !w.vm.value.running && w.row.Some? && Cold(acts)
    ensures Run(spec, w, acts).Some?
    decreases |acts|
  {
    if acts != [] {
      if acts[0] == Do(StartVm) {
        WarmRuns(spec, Apply(spec, w, acts[0]), acts[1..]);
      } else {
        ColdRuns(spec, Apply(spec, w, acts[0]), acts[1..]);
      }
    }
  }

  lemma ColdCons(a: Act, rest: seq<Act>)
    requires if a == Do(StartVm) then Warm(rest) else Cold(rest) && (a.Do? ==> a.effect == ConfigurePorts)
    ensures Cold([a] + rest)
  {
    assert ([a] + rest)[1..] == rest;
  }

  lemma {:induction false} StagesAreWarm(spec: Spec, stages: seq<Stage>, rest: seq<Act>)
    requires VmCloned !in stages && PortsConfigured !in stages && Warm(rest)
    ensures Warm(StagesThen(spec, stages, rest))
  {
    if stages != [] {
      assert stages[0] in stages;
      StagesAreWarm(spec, stages[1..], rest);
    }
  }

  lemma {:induction false} OnlyIsWithin(mode: Mode, completed: Stage, stages: seq<Stage>)
    ensures forall stage :: stage in Only(mode, completed, stages) <==> stage in stages && Pending(mode, completed, stage)
  {
    if stages != [] {
      OnlyIsWithin(mode, completed, stages[1..]);
      OnlySplits(mode, completed, stages);
    }
  }

  lemma SeedingIsWarm(spec: Spec, later: seq<Stage>)
    requires VmCloned !in later && PortsConfigured !in later
    ensures Warm(SeedingOn(spec, later))
  {
    StagesAreWarm(spec, later, FINISH);
  }

  /** Undisturbed, a launch finishes. */
  lemma UninterruptedLaunchFinishes(spec: Spec, start: World)
    requires Begun(start)
    ensures Run(spec, start, LaunchPlan(spec)).Some?
    ensures Finished(spec, Run(spec, start, LaunchPlan(spec)).value)
  {
    CloneIsAtStage(spec, start);
    AfterCloneIsCold(spec);
    ColdRuns(spec, Cloned(spec, start), AfterClone(spec));
    CompleteRunFinishes(spec, 0, Cloned(spec, start), AfterClone(spec));
  }

  lemma AfterCloneIsCold(spec: Spec)
    ensures Cold(AfterClone(spec))
  {
    var seeding := SeedingOn(spec, Later(spec.mode));
    SeedingIsWarm(spec, Later(spec.mode));
    ActsOfThen(spec, VmStarted, seeding);
    ColdCons(Do(StartVm), [Save(VmStarted)] + seeding);
    TwoStages(spec, PortsConfigured, VmStarted, seeding);
    ColdCons(Mark(Starting), StagesThen(spec, [PortsConfigured, VmStarted], seeding));
  }

  /** What follows the ports in a retry. */
  function RetryTail(spec: Spec, completed: Stage): seq<Act> {
    When(Pending(spec.mode, completed, VmStarted), [Save(VmStarted)]) +
    SeedingOn(spec, Only(spec.mode, completed, Later(spec.mode)))
  }

  lemma RetryPlanParts(spec: Spec, completed: Stage)
    ensures RetryPlan(spec, completed) ==
      if Pending(spec.mode, completed, PortsConfigured)
      then ActsOf(spec, PortsConfigured) + ([Do(StartVm)] + RetryTail(spec, completed))
      else [Do(StartVm)] + RetryTail(spec, completed)
    ensures Warm(RetryTail(spec, completed))
  {
    var rest := [Do(StartVm)] + RetryTail(spec, completed);
    TwoStages(spec, PortsConfigured, PortsConfigured, rest);
    assert [PortsConfigured][1..] == [];
    assert Only(spec.mode, completed, [PortsConfigured]) ==
      if Pending(spec.mode, completed, PortsConfigured) then [PortsConfigured] else [];
    OnlyIsWithin(spec.mode, completed, Later(spec.mode));
    SeedingIsWarm(spec, Only(spec.mode, completed, Later(spec.mode)));
  }

  /**
   * When nothing fails, a retry completes from every resumable session, except that it cannot edit the
   * ports of a VM somebody has started meanwhile.
   */
  lemma RetryCompletesIff(spec: Spec, low: nat, w: World)
    requires InProgress(spec, low, w)
    ensures Run(spec, w, RetryPlan(spec, w.retry.value.checkpoint)).Some? <==>
      !(w.vm.value.running && spec.ports != [] && Pending(spec.mode, w.retry.value.checkpoint, PortsConfigured))
  {
    var completed := w.retry.value.checkpoint;
    var tail := RetryTail(spec, completed);
    RetryPlanParts(spec, completed);
    if !w.vm.value.running {
      ColdCons(Do(StartVm), tail);
      ColdRuns(spec, w, RetryPlan(spec, completed));
    } else {
      ActsOfThen(spec, PortsConfigured, [Do(StartVm)] + tail);
      if Pending(spec.mode, completed, PortsConfigured) {
        if spec.ports == [] {
          WarmRuns(spec, w, RetryPlan(spec, completed));
        }
      } else {
        WarmRuns(spec, w, RetryPlan(spec, completed));
      }
    }
  }

  // ---- Histories ----

  /** Between attempts the VM may stop or be started, windows may come and go, the lifecycle may change. */
  ghost predicate Between(w: World, w': World) {
    && w.vm.Some? && w'.vm.Some? && w.row.Some? && w'.row.Some?
    && w'.vm.value.forwards == w.vm.value.forwards && w'.vm.value.disk == w.vm.value.disk
    && (!w'.vm.value.running ==> w'.vm.value.live == {})
    && w'.row.value.agentRecorded == w.row.value.agentRecorded
    && w'.retry == w.retry
  }

  ghost predicate Continues(spec: Spec, w: World, w': World) {
    && w.retry.Some?
    && (Between(w, w') || Attempt(spec, w, RetryPlan(spec, w.retry.value.checkpoint), w'))
  }

  /** A launch that stopped after its clone's checkpoint, then any number of retries and events in between. */
  ghost predicate History(spec: Spec, start: World, ws: seq<World>) {
    && Begun(start) && ws != []
    && Attempt(spec, start, LaunchPlan(spec), ws[0]) && ws[0].retry.Some?
    && forall i :: 0 <= i < |ws| - 1 ==> Continues(spec, ws[i], ws[i + 1])
  }

  lemma BetweenKeepsProgress(spec: Spec, low: nat, w: World, w': World)
    requires InProgress(spec, low, w) && Between(w, w')
    ensures InProgress(spec, low, w')
  {
    forall stage | Belongs(spec.mode, stage) && Rank(spec.mode, stage) <= Rank(spec.mode, w.retry.value.checkpoint)
      ensures Has(spec, w', stage)
    {
      assert Has(spec, w, stage);
    }
  }

  lemma RaiseLow(spec: Spec, low: nat, w: World)
    requires InProgress(spec, low, w)
    ensures InProgress(spec, Rank(spec.mode, w.retry.value.checkpoint), w)
    ensures Safe(spec, Rank(spec.mode, w.retry.value.checkpoint), w, RetryPlan(spec, w.retry.value.checkpoint))
  {
    RetryIsSafe(spec, w.retry.value.checkpoint);
    assert AtStage(spec, Rank(spec.mode, w.retry.value.checkpoint), w, w.retry.value.checkpoint, false);
  }

  lemma ContinuesIsResumable(spec: Spec, low: nat, w: World, w': World)
    requires InProgress(spec, low, w) && Continues(spec, w, w')
    ensures Resumable(spec, Rank(spec.mode, w.retry.value.checkpoint), w')
  {
    RaiseLow(spec, low, w);
    if Between(w, w') {
      BetweenKeepsProgress(spec, Rank(spec.mode, w.retry.value.checkpoint), w, w');
    } else {
      AttemptIsResumable(spec, Rank(spec.mode, w.retry.value.checkpoint), w,
                         RetryPlan(spec, w.retry.value.checkpoint), w');
    }
  }

  lemma {:induction false} HistoryIsInProgress(spec: Spec, start: World, ws: seq<World>, i: nat)
    requires History(spec, start, ws) && i < |ws| && ws[i].retry.Some?
    ensures InProgress(spec, 0, ws[i])
  {
    if i == 0 {
      StoppedLaunchIsResumable(spec, start, ws[0]);
    } else {
      assert Continues(spec, ws[i - 1], ws[i]);
      HistoryIsInProgress(spec, start, ws, i - 1);
      ContinueAbove(spec, 0, ws[i - 1], ws[i]);
    }
  }

  lemma HistoryIsResumable(spec: Spec, start: World, ws: seq<World>, i: nat, j: nat)
    requires History(spec, start, ws) && i <= j < |ws| && ws[i].retry.Some?
    ensures Resumable(spec, Rank(spec.mode, ws[i].retry.value.checkpoint), ws[j])
  {
    HistoryIsInProgress(spec, start, ws, i);
    RaiseLow(spec, 0, ws[i]);
    HistoryStaysResumable(spec, start, ws, Rank(spec.mode, ws[i].retry.value.checkpoint), i, j);
  }

  lemma {:induction false} HistoryStaysResumable(spec: Spec, start: World, ws: seq<World>, low: nat, i: nat, j: nat)
    requires History(spec, start, ws) && i <= j < |ws| && Resumable(spec, low, ws[i])
    ensures Resumable(spec, low, ws[j])
    decreases j
  {
    if i < j {
      HistoryStaysResumable(spec, start, ws, low, i, j - 1);
      assert Continues(spec, ws[j - 1], ws[j]);
      ContinueAbove(spec, low, ws[j - 1], ws[j]);
    }
  }

  lemma ContinueAbove(spec: Spec, low: nat, w: World, w': World)
    requires Resumable(spec, low, w) && Continues(spec, w, w')
    ensures Resumable(spec, low, w')
  {
    ContinuesIsResumable(spec, low, w, w');
  }

  // ---- Main results ----

  /** The same session, except that port rules may be repeated and windows may differ. */
  ghost predicate SameSession(a: World, b: World) {
    && a.vm.Some? && b.vm.Some? && a.row == b.row && a.retry == b.retry
    && a.vm.value.running == b.vm.value.running && a.vm.value.disk == b.vm.value.disk
    && forall hostPort: nat, protocol :: GuestPort(a.vm.value.forwards, hostPort, protocol) ==
                                         GuestPort(b.vm.value.forwards, hostPort, protocol)
  }

  lemma FinishedSessionsAreTheSame(spec: Spec, a: World, b: World)
    requires Finished(spec, a) && Finished(spec, b)
    ensures SameSession(a, b)
  {
    forall hostPort: nat, protocol
      ensures GuestPort(a.vm.value.forwards, hostPort, protocol) == GuestPort(b.vm.value.forwards, hostPort, protocol)
    {
      FinishedForwards(spec, a, hostPort, protocol);
      FinishedForwards(spec, b, hostPort, protocol);
    }
  }

  lemma FinishedForwards(spec: Spec, w: World, hostPort: nat, protocol: Protocol)
    requires Finished(spec, w)
    ensures GuestPort(w.vm.value.forwards, hostPort, protocol) == GuestPort(spec.ports + spec.inherited, hostPort, protocol)
  {
    if spec.ports == [] {
      var n: nat :| w.vm.value.forwards == Repeated(spec.ports, n) + spec.inherited;
      RepeatedNothing(n);
    } else {
      var n: nat :| n >= 1 && w.vm.value.forwards == Repeated(spec.ports, n) + spec.inherited;
      RepeatsAreHarmless(spec.ports, spec.inherited, n, hostPort, protocol);
    }
  }

  lemma {:induction false} RepeatedNothing(n: nat)
    ensures Repeated([], n) == []
  {
    if n > 0 { RepeatedNothing(n - 1); }
  }

  /**
   * However often a launch or open is interrupted after its clone's checkpoint, before or after any
   * effect or row write, and whatever happens to the VM between attempts: as soon as its retry row is
   * gone, the session is the one an uninterrupted run would have made.
   */
  lemma ResumedEndsLikeUninterrupted(spec: Spec, start: World, ws: seq<World>)
    requires History(spec, start, ws) && ws[|ws| - 1].retry.None?
    ensures Run(spec, start, LaunchPlan(spec)).Some?
    ensures SameSession(ws[|ws| - 1], Run(spec, start, LaunchPlan(spec)).value)
    ensures Finished(spec, ws[|ws| - 1])
  {
    UninterruptedLaunchFinishes(spec, start);
    HistoryIsResumable(spec, start, ws, 0, |ws| - 1);
    FinishedSessionsAreTheSame(spec, ws[|ws| - 1], Run(spec, start, LaunchPlan(spec)).value);
  }

  /** The recorded checkpoint never moves backwards. */
  lemma CheckpointNeverMovesBack(spec: Spec, start: World, ws: seq<World>, i: nat, j: nat)
    requires History(spec, start, ws) && i <= j < |ws| && ws[i].retry.Some? && ws[j].retry.Some?
    ensures Rank(spec.mode, ws[i].retry.value.checkpoint) <= Rank(spec.mode, ws[j].retry.value.checkpoint)
  {
    HistoryIsResumable(spec, start, ws, i, j);
  }

  /**
   * Once a stage's checkpoint is stored, no later moment of any retry is about to do its effect again or
   * store it again, the only exception being starting the VM; and no retry ever clones.
   */
  lemma StoredStagesNeverRunAgain(
      spec: Spec, start: World, ws: seq<World>, i: nat, j: nat, stage: Stage, w: World, rest: seq<Act>)
    requires History(spec, start, ws) && i <= j < |ws| && ws[i].retry.Some? && ws[j].retry.Some?
    requires Belongs(spec.mode, stage) && Rank(spec.mode, stage) <= Rank(spec.mode, ws[i].retry.value.checkpoint)
    requires Reaches(spec, ws[j], RetryPlan(spec, ws[j].retry.value.checkpoint), w, rest) && rest != []
    ensures rest[0] != Save(stage)
    ensures rest[0].Do? && StageOf(rest[0].effect) == stage ==> rest[0].effect == StartVm
    ensures rest[0] != Do(CloneVm)
    ensures w.retry.Some? ==>
      Rank(spec.mode, w.retry.value.checkpoint) >= Rank(spec.mode, ws[i].retry.value.checkpoint)
  {
    CheckpointNeverMovesBack(spec, start, ws, i, j);
    HistoryIsInProgress(spec, start, ws, j);
    MomentOfRetry(spec, ws[j], w, rest);
  }

  lemma MomentOfRetry(spec: Spec, w: World, w': World, rest: seq<Act>)
    requires InProgress(spec, 0, w) && rest != []
    requires Reaches(spec, w, RetryPlan(spec, w.retry.value.checkpoint), w', rest)
    ensures Fresh(spec, w', rest[0])
    ensures w'.retry.Some? ==> Rank(spec.mode, w'.retry.value.checkpoint) >= Rank(spec.mode, w.retry.value.checkpoint)
  {
    RaiseLow(spec, 0, w);
    ReachedIsSafe(spec, Rank(spec.mode, w.retry.value.checkpoint), w,
                  RetryPlan(spec, w.retry.value.checkpoint), w', rest);
  }
}
