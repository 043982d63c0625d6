/** The launch, open and retry commands, step by step (src/commands/launch.rs, src/commands/open.rs, src/commands/retry.rs). */
module LaunchCommands {

  import opened Common
  import opened SessionKinds
  import opened LaunchStages
  import opened LaunchRuns
  import opened LaunchHistories

  /** How an action ends. */
  datatype Ending = Worked | Broke | Died

  /** What becomes of an action: it works, or it returns an error or its process dies, leaving that behind. */
  datatype Fate = Works | Breaks(leaving: World) | Dies(leaving: World)

  /** Which parts of a rollback work: the row, what has to succeed before the VM is deleted, and the VM. */
  datatype Undo = Undo(row: bool, listed: bool, vm: bool)

  /** How a command ends. */
  datatype Outcome = Launched | Preserved | RolledBack | Refused(why: Refusal) | Killed

  datatype Refusal = NoSession | RetryUnavailable | InvalidCheckpoint | VmGone

  // ---- Following a plan ----

  lemma RunNext(spec: Spec, w: World, acts: seq<Act>, i: nat)
    requires i < |acts| && Run(spec, w, acts[..i]).Some?
    ensures var at := Run(spec, w, acts[..i]).value;
      Run(spec, w, acts[..i + 1]) == if Enabled(at, acts[i]) then Some(Apply(spec, at, acts[i])) else None
  {
    RunConcat(spec, w, acts[..i], [acts[i]]);
    assert acts[..i + 1] == acts[..i] + [acts[i]] && [acts[i]][1..] == [];
  }

  lemma RunStarts(spec: Spec, w: World, acts: seq<Act>, i: nat)
    requires i <= |acts| && Run(spec, w, acts).Some?
    ensures Run(spec, w, acts[..i]).Some?
    ensures i < |acts| ==> Enabled(Run(spec, w, acts[..i]).value, acts[i])
  {
    assert acts == acts[..i] + acts[i..];
    RunConcat(spec, w, acts[..i], acts[i..]);
  }

  /** All of the first `n` actions work. */
  ghost predicate AllWork(fates: nat -> Fate, n: nat) {
    forall i: nat :: i < n ==> fates(i).Works?
  }

  /** The first of `n` actions that does not work. */
  ghost predicate FailsFirst(fates: nat -> Fate, i: nat, n: nat) {
    i < n && !fates(i).Works? && AllWork(fates, i)
  }

  /** All before it work and find what they need; it does not work, or does not find what it needs. */
  ghost predicate Halts(spec: Spec, w: World, acts: seq<Act>, fates: nat -> Fate, i: nat) {
    && i < |acts| && AllWork(fates, i) && Run(spec, w, acts[..i]).Some?
    && (fates(i).Works? ==> !Enabled(Run(spec, w, acts[..i]).value, acts[i]))
  }

  /** What an action leaves that did not work: what it may leave, or nothing changed. */
  function Halfway(spec: Spec, w: World, a: Act, fate: Fate): (half: World)
    ensures Half(spec, w, a, half)
  {
    if !fate.Works? && Half(spec, w, a, fate.leaving) then fate.leaving else w
  }

  ghost function HaltedAt(spec: Spec, w: World, acts: seq<Act>, fates: nat -> Fate, i: nat): World
    requires Halts(spec, w, acts, fates, i)
  {
    Halfway(spec, Run(spec, w, acts[..i]).value, acts[i], fates(i))
  }

  lemma RunsPast(spec: Spec, w: World, acts: seq<Act>, fates: nat -> Fate, i: nat, j: nat)
    requires i < j <= |acts| && AllWork(fates, j) && Run(spec, w, acts[..j]).Some?
    ensures !Halts(spec, w, acts, fates, i)
  {
    RunStarts(spec, w, acts[..j], i);
    assert acts[..j][..i] == acts[..i] && acts[..j][i] == acts[i];
  }

  /** A command halts once, or not at all if every action works and finds what it needs. */
  lemma HaltsOnce(spec: Spec, w: World, acts: seq<Act>, fates: nat -> Fate, i: nat, j: nat)
    requires Halts(spec, w, acts, fates, i)
    ensures Halts(spec, w, acts, fates, j) ==> i == j
    ensures !(AllWork(fates, |acts|) && Run(spec, w, acts).Some?)
  {
    if AllWork(fates, |acts|) && Run(spec, w, acts).Some? {
      assert acts[..|acts|] == acts;
      RunsPast(spec, w, acts, fates, i, |acts|);
    } else if Halts(spec, w, acts, fates, j) {
      if i < j {
        RunsPast(spec, w, acts, fates, i, j);
      } else if j < i {
        RunsPast(spec, w, acts, fates, j, i);
      }
    }
  }

  lemma {:induction false} HaltedIsAttempt(spec: Spec, w: World, acts: seq<Act>, i: nat, half: World, end: World)
    requires i < |acts| && Run(spec, w, acts[..i]).Some? && Half(spec, Run(spec, w, acts[..i]).value, acts[i], half)
    requires end == half || end == Failed(half)
    ensures Attempt(spec, w, acts, end)
    decreases i
  {
    if i == 0 {
      assert StopsDuring(spec, w, acts[0], end);
    } else {
      assert acts[..i][1..] == acts[1..][..i - 1];
      HaltedIsAttempt(spec, Apply(spec, w, acts[0]), acts[1..], i - 1, half, end);
    }
  }

  // ---- How a launch ends ----

  /** What a rollback leaves; a launch deletes its VM whether or not its row could be deleted. */
  predicate TakenBack(mode: Mode, undo: Undo, w: World, w': World) {
    && w'.row == (if undo.row then None else w.row)
    && w'.retry == (if undo.row then None else w.retry)
    && w'.vm == (if undo.vm && undo.listed && (undo.row || mode == Sandbox) then None else w.vm)
  }

  /** What recording the failure for a retry leaves, if it can be recorded. */
  function Recorded(w: World, recorded: bool): World {
    if recorded then Failed(w) else w
  }

  lemma CloneRuns(spec: Spec, w: World)
    requires Begun(w)
    ensures Run(spec, w, ActsOf(spec, VmCloned)) == Some(Cloned(spec, w))
  {
    var acts := ActsOf(spec, VmCloned);
    assert acts == [Do(CloneVm), Save(VmCloned)] && acts[1..] == [Save(VmCloned)] && acts[1..][1..] == [];
    var cloned := Apply(spec, w, Do(CloneVm));
    assert Apply(spec, cloned, Save(VmCloned)) == Cloned(spec, w);
    assert Run(spec, cloned, acts[1..]) == Some(Cloned(spec, w));
  }

  /** Stopped after the clone's checkpoint, which is the second action, a launch leaves a session to resume. */
  lemma LateHaltIsResumable(spec: Spec, begun: World, fates: nat -> Fate, i: nat, recorded: bool)
    requires Begun(begun) && i >= 2 && Halts(spec, begun, LaunchPlan(spec), fates, i)
    ensures Resumable(spec, 0, Recorded(HaltedAt(spec, begun, LaunchPlan(spec), fates, i), recorded))
  {
    var plan, clone, rest := LaunchPlan(spec), ActsOf(spec, VmCloned), AfterClone(spec);
    CloneRuns(spec, begun);
    assert plan[..i] == clone + rest[..i - 2] && plan[i] == rest[i - 2];
    RunConcat(spec, begun, clone, rest[..i - 2]);
    var half := HaltedAt(spec, begun, plan, fates, i);
    HaltedIsAttempt(spec, Cloned(spec, begun), rest, i - 2, half, Recorded(half, recorded));
    CloneIsAtStage(spec, begun);
    AttemptIsResumable(spec, 0, Cloned(spec, begun), rest, Recorded(half, recorded));
  }

  /** Nothing in a launch is out of place: it halts where its first action fails. */
  lemma LaunchHaltsIff(spec: Spec, begun: World, fates: nat -> Fate, i: nat)
    requires Begun(begun)
    ensures Halts(spec, begun, LaunchPlan(spec), fates, i) <==> FailsFirst(fates, i, |LaunchPlan(spec)|)
  {
    UninterruptedLaunchFinishes(spec, begun);
    if i < |LaunchPlan(spec)| { RunStarts(spec, begun, LaunchPlan(spec), i); }
  }

  class Session {
    const spec: Spec
    var world: World
    /** What becomes of the actions of the present command, and how many have been done. */
    var fates: nat -> Fate
    var done: nat
    ghost var start: World
    ghost var plan: seq<Act>

    /** The plan has been followed so far, and this is left of it. */
    ghost predicate Left(rest: seq<Act>)
      reads this
    {
      && done <= |plan| && plan[done..] == rest && AllWork(fates, done)
      && Run(spec, start, plan[..done]) == Some(world)
    }

    /** The plan stopped on the way. */
    ghost predicate Stopped(ending: Ending)
      reads this
    {
      && Halts(spec, start, plan, fates, done) && world == HaltedAt(spec, start, plan, fates, done)
      && ending == if fates(done).Dies? then Died else Broke
    }

    /** What holds after one or more actions. */
    twostate predicate After(ending: Ending, rest: seq<Act>)
      reads this
    {
      old(done) <= done && if ending == Worked then Left(rest) else Stopped(ending)
    }

    constructor (spec: Spec, world: World)
      ensures this.spec == spec && this.world == world
    {
      this.spec, this.world := spec, world;
      fates, done := _ => Works, 0;
    }

    method Perform(a: Act, ghost rest: seq<Act>) returns (ending: Ending)
      requires Left([a] + rest)
      modifies this`world, this`done
      ensures After(ending, rest) && done == old(done) + if ending == Worked then 1 else 0
    {
      RunNext(spec, start, plan, done);
      assert plan[done] == plan[done..][0] == a && plan[done + 1..] == plan[done..][1..] == rest;
      var fate := fates(done);
      if fate.Works? && Enabled(world, a) {
        world, done, ending := Apply(spec, world, a), done + 1, Worked;
      } else {
        world, ending := Halfway(spec, world, a, fate), if fate.Dies? then Died else Broke;
      }
    }

    /** A stage's effect, if this launch has it, and then its checkpoint. */
    method PerformStage(stage: Stage, ghost rest: seq<Act>) returns (ending: Ending)
      requires Belongs(spec.mode, stage) && Left(ActsOf(spec, stage) + rest)
      modifies this`world, this`done
      ensures After(ending, rest)
    {
      ActsOfThen(spec, stage, rest);
      if Applies(spec, EffectOf(stage)) {
        if stage == AgentStarted {
          ending := Perform(Do(StartAgent), [RecordAgent] + ([Save(AgentStarted)] + rest));
          if ending != Worked { return; }
          ending := Perform(RecordAgent, [Save(AgentStarted)] + rest);
        } else {
          ending := Perform(Do(EffectOf(stage)), [Save(stage)] + rest);
        }
        if ending != Worked { return; }
      }
      ending := Perform(Save(stage), rest);
    }

    method Finish() returns (ending: Ending)
      requires Left(FINISH)
      modifies this`world, this`done
      ensures After(ending, [])
    {
      assert FINISH == [Mark(Running)] + ([DropRetry] + []);
      ending := Perform(Mark(Running), [DropRetry] + []);
      if ending == Worked { ending := Perform(DropRetry, []); }
    }

    /** One of the stages of a list, in a command that does them all. */
    method NextStage(stage: Stage, ghost stages: seq<Stage>) returns (ending: Ending)
      requires stages != [] && stages[0] == stage && Belongs(spec.mode, stage)
      requires Left(StagesThen(spec, stages, FINISH))
      modifies this`world, this`done
      ensures After(ending, StagesThen(spec, stages[1..], FINISH))
    {
      ending := PerformStage(stage, StagesThen(spec, stages[1..], FINISH));
    }

    // ---- launch and open ----

    /** Up to a running VM: what launch and open have in common after the clone. */
    method ConfigureAndStart(ghost rest: seq<Act>) returns (ending: Ending)
      requires Left([Mark(Starting)] + StagesThen(spec, [PortsConfigured, VmStarted], [Mark(Seeding)] + rest))
      modifies this`world, this`done
      ensures After(ending, rest)
    {
      ghost var seeding := [Mark(Seeding)] + rest;
      TwoStages(spec, PortsConfigured, VmStarted, seeding);
      ending := Perform(Mark(Starting), ActsOf(spec, PortsConfigured) + (ActsOf(spec, VmStarted) + seeding));
      if ending != Worked { return; }
      ending := PerformStage(PortsConfigured, ActsOf(spec, VmStarted) + seeding);
      if ending != Worked { return; }
      ending := PerformStage(VmStarted, seeding);
      if ending != Worked { return; }
      ending := Perform(Mark(Seeding), rest);
    }

    /** The stages a sandbox launch does in its running VM. */
    method SandboxStages() returns (ending: Ending)
      requires spec.mode == Sandbox && Left(StagesThen(spec, Later(Sandbox), FINISH))
      modifies this`world, this`done
      ensures After(ending, [])
    {
      ghost var stages := Later(Sandbox);
      ending := NextStage(GuestSupportInstalled, stages);
      if ending != Worked { return; }
      ending := NextStage(ShellReady, stages[1..]);
      if ending != Worked { return; }
      ending := NextStage(WorkspaceSeeded, stages[1..][1..]);
      if ending != Worked { return; }
      ending := NextStage(AgentStarted, stages[1..][1..][1..]);
      if ending != Worked { return; }
      assert stages[1..][1..][1..][1..] == [];
      ending := Finish();
    }

    method RepoStages() returns (ending: Ending)
      requires spec.mode == Repo && Left(StagesThen(spec, Later(Repo), FINISH))
      modifies this`world, this`done
      ensures After(ending, [])
    {
      ghost var stages := Later(Repo);
      ending := NextStage(GuestSupportInstalled, stages);
      if ending != Worked { return; }
      ending := NextStage(WorkspaceSeeded, stages[1..]);
      if ending != Worked { return; }
      ending := NextStage(ShellReady, stages[1..][1..]);
      if ending != Worked { return; }
      ending := NextStage(GitIdentityConfigured, stages[1..][1..][1..]);
      if ending != Worked { return; }
      ending := NextStage(AgentStarted, stages[1..][1..][1..][1..]);
      if ending != Worked { return; }
      assert stages[1..][1..][1..][1..][1..] == [];
      ending := Finish();
    }

    /**
     * The guard of a launch that never stored a checkpoint: it deletes the row, then the VM if there is
     * one. An open stops when the row or its refs cannot be deleted, a launch goes on without its row.
     */
    method Rollback(undo: Undo) returns (ok: bool)
      modifies this`world
      ensures TakenBack(spec.mode, undo, old(world), world)
      ensures ok <==> undo.listed && (spec.mode == Repo ==> undo.row) && (undo.vm || old(world).vm.None?)
      ensures ok ==> world.vm.None?
      ensures undo == Undo(true, true, true) ==> world == World(None, None, None)
    {
      if undo.row { world := World(world.vm, None, None); }
      if !undo.row && spec.mode == Repo { return false; }
      if !undo.listed { return false; }
      if world.vm.Some? && undo.vm { world := world.(vm := None); }
      ok := world.vm.None?;
    }

    /** How a command that stopped ends: recorded for a retry, rolled back, or simply dead. */
    method Conclude(ending: Ending, retryable: bool, undo: Undo, recorded: bool) returns (outcome: Outcome)
      modifies this`world
      ensures match ending
        case Worked => outcome == Launched && world == old(world)
        case Died => outcome == Killed && world == old(world)
        case Broke =>
          if retryable then outcome == Preserved && world == Recorded(old(world), recorded)
          else outcome == RolledBack && TakenBack(spec.mode, undo, old(world), world)
    {
      if ending == Worked {
        outcome := Launched;
      } else if ending == Died {
        outcome := Killed;
      } else if retryable {
        if recorded { world := Failed(world); }
        outcome := Preserved;
      } else {
        var _ := Rollback(undo);
        outcome := RolledBack;
      }
    }

    /** The clone and its checkpoint; from then on a failure is kept for a retry. */
    method CloneAndCheckpoint() returns (ending: Ending)
      requires Left(LaunchPlan(spec)) && done == 0
      modifies this`world, this`done
      ensures After(ending, AfterClone(spec))
      ensures if ending == Worked then done == 2 else done < 2
    {
      assert LaunchPlan(spec) == [Do(CloneVm)] + ([Save(VmCloned)] + AfterClone(spec));
      ending := Perform(Do(CloneVm), [Save(VmCloned)] + AfterClone(spec));
      if ending == Worked { ending := Perform(Save(VmCloned), AfterClone(spec)); }
    }

    /**
     * What launch and open promise. They end well exactly when every action works. Otherwise the first that
     * does not decides: killed if the process died in it; rolled back if it is the clone or the clone's
     * checkpoint, the first two; and preserved for a retry if it comes later, leaving a session to resume.
     */
    ghost predicate Ends(begun: World, fates: nat -> Fate, undo: Undo, recorded: bool, outcome: Outcome)
      reads this`world
    {
      var plan := LaunchPlan(spec);
      && (outcome == Launched <==> AllWork(fates, |plan|))
      && (outcome == Killed <==> exists i: nat :: FailsFirst(fates, i, |plan|) && fates(i).Dies?)
      && (outcome == RolledBack <==> exists i: nat :: FailsFirst(fates, i, |plan|) && fates(i).Breaks? && i < 2)
      && (outcome == Preserved <==> exists i: nat :: FailsFirst(fates, i, |plan|) && fates(i).Breaks? && i >= 2)
      && (outcome == Launched ==> Run(spec, begun, plan) == Some(world) && Finished(spec, world))
      && (outcome == Preserved ==> Resumable(spec, 0, world))
      && (forall i :: Halts(spec, begun, plan, fates, i) ==>
            var left := HaltedAt(spec, begun, plan, fates, i);
            match outcome
            case RolledBack => TakenBack(spec.mode, undo, left, world)
            case Preserved => world == Recorded(left, recorded)
            case _ => world == left)
    }

    method Launch(fates: nat -> Fate, undo: Undo, recorded: bool) returns (outcome: Outcome)
      requires spec.mode == Sandbox && Begun(world)
      modifies this
      ensures Ends(old(world), fates, undo, recorded, outcome)
    {
      start, plan := world, LaunchPlan(spec);
      this.fates, done := fates, 0;
      var ending := CloneAndCheckpoint();
      var retryable := ending == Worked;
      if ending == Worked { ending := ConfigureAndStart(StagesThen(spec, Later(Sandbox), FINISH)); }
      if retryable && ending == Worked { ending := SandboxStages(); }
      LaunchEnded(ending, retryable, recorded);
      outcome := Conclude(ending, retryable, undo, recorded);
    }

    /** `open`, once the session's row and refs are there. */
    method Open(fates: nat -> Fate, undo: Undo, recorded: bool) returns (outcome: Outcome)
      requires spec.mode == Repo && Begun(world)
      modifies this
      ensures Ends(old(world), fates, undo, recorded, outcome)
    {
      start, plan := world, LaunchPlan(spec);
      this.fates, done := fates, 0;
      var ending := CloneAndCheckpoint();
      var retryable := ending == Worked;
      if ending == Worked { ending := ConfigureAndStart(StagesThen(spec, Later(Repo), FINISH)); }
      if retryable && ending == Worked { ending := RepoStages(); }
      LaunchEnded(ending, retryable, recorded);
      outcome := Conclude(ending, retryable, undo, recorded);
    }

    /** Where the actions of a launch ended, told by its fates alone. */
    lemma LaunchEnded(ending: Ending, retryable: bool, recorded: bool)
      requires Begun(start) && plan == LaunchPlan(spec)
      requires if ending == Worked then Left([]) else Stopped(ending)
      requires retryable <==> ending == Worked || done >= 2
      ensures ending == Worked ==>
        AllWork(fates, |plan|) && Run(spec, start, plan) == Some(world) && Finished(spec, world)
      ensures ending != Worked ==> FailsFirst(fates, done, |plan|) && (ending == Died <==> fates(done).Dies?)
      ensures forall i: nat :: FailsFirst(fates, i, |plan|) ==> ending != Worked && i == done
      ensures forall i :: Halts(spec, start, plan, fates, i) ==> ending != Worked && i == done
      ensures ending == Broke && retryable ==> Resumable(spec, 0, Recorded(world, recorded))
    {
      forall i ensures Halts(spec, start, plan, fates, i) <==> FailsFirst(fates, i, |plan|) {
        LaunchHaltsIff(spec, start, fates, i);
      }
      if ending == Worked {
        assert plan[..done] == plan;
        UninterruptedLaunchFinishes(spec, start);
      } else if retryable {
        LateHaltIsResumable(spec, start, fates, done, recorded);
      }
    }

    // ---- retry ----

    /** A stage, if it is among the remaining ones. */
    method IfPending(stage: Stage, completed: Stage, remaining: seq<Stage>, ghost stages: seq<Stage>) returns (ending: Ending)
      requires Belongs(spec.mode, stage) && Belongs(spec.mode, completed)
      requires Remaining(Stages(spec.mode), completed) == Some(remaining)
      requires stages != [] && stages[0] == stage
      requires Left(StagesThen(spec, Only(spec.mode, completed, stages), FINISH))
      modifies this`world, this`done
      ensures After(ending, StagesThen(spec, Only(spec.mode, completed, stages[1..]), FINISH))
    {
      RemainingAreLater(spec.mode, completed, stage);
      OnlySplits(spec.mode, completed, stages);
      ghost var rest := Only(spec.mode, completed, stages[1..]);
      ending := Worked;
      if stage in remaining {
        assert ([stage] + rest)[1..] == rest;
        ending := NextStage(stage, [stage] + rest);
      }
    }

    method RetrySandboxStages(completed: Stage, remaining: seq<Stage>) returns (ending: Ending)
      requires spec.mode == Sandbox && Belongs(Sandbox, completed)
      requires Remaining(Stages(Sandbox), completed) == Some(remaining)
      requires Left(StagesThen(spec, Only(Sandbox, completed, Later(Sandbox)[1..]), FINISH))
      modifies this`world, this`done
      ensures After(ending, StagesThen(spec, Only(Sandbox, completed, [AgentStarted]), FINISH))
    {
      ghost var stages := Later(Sandbox)[1..];
      ending := IfPending(ShellReady, completed, remaining, stages);
      if ending != Worked { return; }
      ending := IfPending(WorkspaceSeeded, completed, remaining, stages[1..]);
      assert stages[1..][1..] == [AgentStarted];
    }

    method RetryRepoStages(completed: Stage, remaining: seq<Stage>) returns (ending: Ending)
      requires spec.mode == Repo && Belongs(Repo, completed)
      requires Remaining(Stages(Repo), completed) == Some(remaining)
      requires Left(StagesThen(spec, Only(Repo, completed, Later(Repo)[1..]), FINISH))
      modifies this`world, this`done
      ensures After(ending, StagesThen(spec, Only(Repo, completed, [AgentStarted]), FINISH))
    {
      ghost var stages := Later(Repo)[1..];
      ending := IfPending(WorkspaceSeeded, completed, remaining, stages);
      if ending != Worked { return; }
      ending := IfPending(ShellReady, completed, remaining, stages[1..]);
      if ending != Worked { return; }
      ending := IfPending(GitIdentityConfigured, completed, remaining, stages[1..][1..]);
      assert stages[1..][1..][1..] == [AgentStarted];
    }

    /** Ports if they are pending, then a running VM, whether or not its start is pending. */
    method ResumeVm(completed: Stage, remaining: seq<Stage>) returns (ending: Ending)
      requires Belongs(spec.mode, completed) && Remaining(Stages(spec.mode), completed) == Some(remaining)
      requires Left(RetryPlan(spec, completed))
      modifies this`world, this`done
      ensures After(ending, StagesThen(spec, Only(spec.mode, completed, Later(spec.mode)), FINISH))
    {
      ghost var later := StagesThen(spec, Only(spec.mode, completed, Later(spec.mode)), FINISH);
      ghost var tail := RetryTail(spec, completed);
      RetryPlanParts(spec, completed);
      RemainingAreLater(spec.mode, completed, PortsConfigured);
      RemainingAreLater(spec.mode, completed, VmStarted);
      assert [] + SeedingOn(spec, Only(spec.mode, completed, Later(spec.mode))) == [Mark(Seeding)] + later;
      if PortsConfigured in remaining {
        ending := PerformStage(PortsConfigured, [Do(StartVm)] + tail);
        if ending != Worked { return; }
      }
      ending := Perform(Do(StartVm), tail);
      if ending != Worked { return; }
      if VmStarted in remaining {
        ending := Perform(Save(VmStarted), [Mark(Seeding)] + later);
        if ending != Worked { return; }
      }
      ending := Perform(Mark(Seeding), later);
    }

    method RetryStages(completed: Stage, remaining: seq<Stage>) returns (ending: Ending)
      requires Belongs(spec.mode, completed) && Remaining(Stages(spec.mode), completed) == Some(remaining)
      requires Left(RetryPlan(spec, completed))
      modifies this`world, this`done
      ensures After(ending, [])
    {
      ending := ResumeVm(completed, remaining);
      if ending != Worked { return; }
      ending := IfPending(GuestSupportInstalled, completed, remaining, Later(spec.mode));
      if ending != Worked { return; }
      match spec.mode {
        case Sandbox => ending := RetrySandboxStages(completed, remaining);
        case Repo => ending := RetryRepoStages(completed, remaining);
      }
      if ending == Worked { ending := RetryAgentAndFinish(completed, remaining); }
    }

    /** The end of both orders. */
    method RetryAgentAndFinish(completed: Stage, remaining: seq<Stage>) returns (ending: Ending)
      requires Belongs(spec.mode, completed) && Remaining(Stages(spec.mode), completed) == Some(remaining)
      requires Left(StagesThen(spec, Only(spec.mode, completed, [AgentStarted]), FINISH))
      modifies this`world, this`done
      ensures After(ending, [])
    {
      ending := IfPending(AgentStarted, completed, remaining, [AgentStarted]);
      if ending != Worked { return; }
      assert [AgentStarted][1..] == [];
      ending := Finish();
    }

    /**
     * What retry promises. It refuses and changes nothing exactly without a row, a stored checkpoint of the
     * session's mode, or a VM. Otherwise it does what remains after the checkpoint, and ends well exactly
     * when every action works and finds what it needs; where one does not, it is killed if the process died
     * in it, and preserved for another retry if not.
     */
    ghost predicate RetryEnds(before: World, fates: nat -> Fate, recorded: bool, outcome: Outcome)
      reads this`world
    {
      if !(before.retry.Some? && Belongs(spec.mode, before.retry.value.checkpoint) && before.vm.Some?) then
        outcome.Refused? && world == before
      else
        var plan := RetryPlan(spec, before.retry.value.checkpoint);
        && (outcome == Launched <==> AllWork(fates, |plan|) && Run(spec, before, plan).Some?)
        && (outcome == Killed <==> exists i: nat :: Halts(spec, before, plan, fates, i) && fates(i).Dies?)
        && (outcome == Preserved <==> exists i: nat :: Halts(spec, before, plan, fates, i) && !fates(i).Dies?)
        && (outcome == Launched ==> Run(spec, before, plan) == Some(world))
        && (forall i :: Halts(spec, before, plan, fates, i) ==>
              var left := HaltedAt(spec, before, plan, fates, i);
              world == if outcome == Preserved then Recorded(left, recorded) else left)
    }

    method Retry(fates: nat -> Fate, recorded: bool) returns (outcome: Outcome)
      requires world.retry.Some? ==> world.row.Some?
      modifies this
      ensures RetryEnds(old(world), fates, recorded, outcome)
    {
      if world.row.None? { return Refused(NoSession); }
      if world.retry.None? { return Refused(RetryUnavailable); }
      var completed := world.retry.value.checkpoint;
      var remaining := Remaining(Stages(spec.mode), completed);
      RemainingAreLater(spec.mode, completed, VmCloned);
      if remaining.None? { return Refused(InvalidCheckpoint); }
      if world.vm.None? { return Refused(VmGone); }
      start, plan := world, RetryPlan(spec, completed);
      this.fates, done := fates, 0;
      var ending := RetryStages(completed, remaining.value);
      RetryEnded(ending);
      outcome := Conclude(ending, true, Undo(false, false, false), recorded);
    }

    /** Where the actions of a retry ended, told by its fates and what they find. */
    lemma RetryEnded(ending: Ending)
      requires if ending == Worked then Left([]) else Stopped(ending)
      ensures ending == Worked ==> AllWork(fates, |plan|) && Run(spec, start, plan) == Some(world)
      ensures ending != Worked ==> !(AllWork(fates, |plan|) && Run(spec, start, plan).Some?)
      ensures forall i :: Halts(spec, start, plan, fates, i) ==> ending != Worked && i == done
    {
      if ending == Worked { assert plan[..done] == plan; }
      forall i | Halts(spec, start, plan, fates, i) ensures ending != Worked && i == done {
        HaltsOnce(spec, start, plan, fates, i, done);
      }
      if ending != Worked { HaltsOnce(spec, start, plan, fates, done, done); }
    }
  }
}
