/**
 * Interrupted launches and their retries: a session interrupted anywhere after its clone's checkpoint
 * and resumed any number of times ends as if it had never been interrupted.
 */
module LaunchRuns {

  import opened Common
  import opened SessionKinds
  import opened LaunchStages

  // ---- Port forwards ----

  function Repeated(rules: seq<Rule>, n: nat): seq<Rule> {
    if n == 0 then [] else rules + Repeated(rules, n - 1)
  }

  /** The first rule for a host port decides. */
  function GuestPort(rules: seq<Rule>, hostPort: nat, protocol: Protocol): Option<nat> {
    if rules == [] then None
    else if rules[0].hostPort == hostPort && rules[0].protocol == protocol then Some(rules[0].guestPort)
    else GuestPort(rules[1..], hostPort, protocol)
  }

  lemma {:induction false} GuestPortAppend(a: seq<Rule>, b: seq<Rule>, hostPort: nat, protocol: Protocol)
    ensures GuestPort(a + b, hostPort, protocol) ==
      if GuestPort(a, hostPort, protocol).Some? then GuestPort(a, hostPort, protocol) else GuestPort(b, hostPort, protocol)
  {
    if a == [] {
      assert a + b == b;
    } else {
      assert (a + b)[0] == a[0] && (a + b)[1..] == a[1..] + b;
      GuestPortAppend(a[1..], b, hostPort, protocol);
    }
  }

  /** Configuring the same ports again changes no forwarding. */
  lemma {:induction false} RepeatsAreHarmless(rules: seq<Rule>, inherited: seq<Rule>, n: nat, hostPort: nat, protocol: Protocol)
    requires n > 0
    ensures GuestPort(Repeated(rules, n) + inherited, hostPort, protocol) ==
      GuestPort(rules + inherited, hostPort, protocol)
  {
    GuestPortAppend(rules, inherited, hostPort, protocol);
    assert Repeated(rules, n) + inherited == rules + (Repeated(rules, n - 1) + inherited);
    GuestPortAppend(rules, Repeated(rules, n - 1) + inherited, hostPort, protocol);
    if n > 1 {
      RepeatsAreHarmless(rules, inherited, n - 1, hostPort, protocol);
    } else {
      assert [] + inherited == inherited;
    }
  }

  /** The requested ports have been prepended at least so many times. */
  ghost predicate Forwarded(spec: Spec, forwards: seq<Rule>, least: nat) {
    exists n: nat :: n >= least && forwards == Repeated(spec.ports, n) + spec.inherited
  }

  lemma ForwardOnceMore(spec: Spec, forwards: seq<Rule>, least: nat)
    requires Forwarded(spec, forwards, least)
    ensures Forwarded(spec, spec.ports + forwards, least + 1)
  {
    var n: nat :| n >= least && forwards == Repeated(spec.ports, n) + spec.inherited;
    assert spec.ports + forwards == Repeated(spec.ports, n + 1) + spec.inherited;
  }

  // ---- What each stage leaves ----

  /** A stage's result on disk or in the catalog. */
  ghost predicate Has(spec: Spec, w: World, stage: Stage)
    requires w.vm.Some? && w.row.Some?
  {
    match stage
    case PortsConfigured => spec.ports != [] ==> Forwarded(spec, w.vm.value.forwards, 1)
    case GuestSupportInstalled => Support in w.vm.value.disk
    case WorkspaceSeeded => Seeds(spec) ==> Workspace in w.vm.value.disk
    case GitIdentityConfigured => Identity in w.vm.value.disk
    case AgentStarted => spec.provider ==> AgentFiles in w.vm.value.disk && w.row.value.agentRecorded
    case _ => true
  }

  function Parts(spec: Spec): set<Part> {
    {Support} + (if Seeds(spec) then {Workspace} else {}) + (if spec.mode == Repo then {Identity} else {}) +
    (if spec.provider then {AgentFiles} else {})
  }

  /** Nothing is there that this launch would not put there. */
  ghost predicate NothingElse(spec: Spec, w: World) {
    && w.vm.Some? && w.row.Some?
    && w.vm.value.disk <= Parts(spec)
    && Forwarded(spec, w.vm.value.forwards, 0)
    && (w.row.value.agentRecorded ==> spec.provider)
    && (!w.vm.value.running ==> w.vm.value.live == {})
  }

  ghost predicate Built(spec: Spec, w: World, upTo: Stage)
    requires w.vm.Some? && w.row.Some?
  {
    forall stage :: Belongs(spec.mode, stage) && Rank(spec.mode, stage) <= Rank(spec.mode, upTo) ==> Has(spec, w, stage)
  }

  /** A resumable session: everything up to its checkpoint is built. `low` is a rank it never falls below. */
  ghost predicate InProgress(spec: Spec, low: nat, w: World) {
    && NothingElse(spec, w)
    && w.retry.Some? && Belongs(spec.mode, w.retry.value.checkpoint)
    && low <= Rank(spec.mode, w.retry.value.checkpoint)
    && Built(spec, w, w.retry.value.checkpoint)
  }

  /** A launched session. */
  ghost predicate Finished(spec: Spec, w: World) {
    && NothingElse(spec, w)
    && w.retry.None? && w.row.value == Row(Running, spec.provider)
    && w.vm.value.running && w.vm.value.disk == Parts(spec)
    && (spec.ports != [] ==> Forwarded(spec, w.vm.value.forwards, 1))
  }

  // ---- Safety of a list of actions ----

  /** No stage whose checkpoint is stored is done again; only starting a VM is. */
  predicate Fresh(spec: Spec, w: World, a: Act) {
    && (a.Do? && a.effect != StartVm ==>
          w.retry.Some? && Pending(spec.mode, w.retry.value.checkpoint, StageOf(a.effect)))
    && (a.Save? ==> w.retry.Some? && Pending(spec.mode, w.retry.value.checkpoint, a.stage))
  }

  ghost predicate Resumable(spec: Spec, low: nat, w: World) {
    InProgress(spec, low, w) || Finished(spec, w)
  }

  ghost predicate HalvesResumable(spec: Spec, low: nat, w: World, a: Act) {
    forall w' :: Half(spec, w, a, w') ==> Resumable(spec, low, w')
  }

  /** Wherever these actions stop, the session is resumable, and none of them repeats a stored stage. */
  ghost predicate Safe(spec: Spec, low: nat, w: World, acts: seq<Act>)
    decreases |acts|
  {
    && Resumable(spec, low, w)
    && if acts == [] then Finished(spec, w)
       else
         && Fresh(spec, w, acts[0])
         && HalvesResumable(spec, low, w, acts[0])
         && (Enabled(w, acts[0]) ==> Safe(spec, low, Apply(spec, w, acts[0]), acts[1..]))
  }

  /** In progress with exactly this checkpoint, and with the VM running when `up`. */
  ghost predicate AtStage(spec: Spec, low: nat, w: World, checkpoint: Stage, up: bool) {
    InProgress(spec, low, w) && w.retry.value.checkpoint == checkpoint && (up ==> w.vm.value.running)
  }

  /** The rest of a plan is safe from everywhere a checkpoint has just been stored. */
  ghost predicate SafeFrom(spec: Spec, low: nat, checkpoint: Stage, up: bool, acts: seq<Act>) {
    forall w :: AtStage(spec, low, w, checkpoint, up) ==> Safe(spec, low, w, acts)
  }

  // ---- One action at a time ----

  /** Later effects leave what earlier stages left. */
  lemma DoKeepsProgress(spec: Spec, low: nat, w: World, effect: Effect)
    requires InProgress(spec, low, w) && CanDo(w.vm, effect) && effect != CloneVm
    requires PartOf(effect) <= Parts(spec)
    ensures InProgress(spec, low, Apply(spec, w, Do(effect)))
  {
    var w' := Apply(spec, w, Do(effect));
    if effect == ConfigurePorts {
      ForwardOnceMore(spec, w.vm.value.forwards, 0);
    }
    forall stage | Belongs(spec.mode, stage) && Rank(spec.mode, stage) <= Rank(spec.mode, w.retry.value.checkpoint)
      ensures Has(spec, w', stage)
    {
      assert Has(spec, w, stage);
      if effect == ConfigurePorts && stage == PortsConfigured && spec.ports != [] {
        ForwardOnceMore(spec, w.vm.value.forwards, 1);
      }
    }
  }

  lemma HalfKeepsProgress(spec: Spec, low: nat, w: World, effect: Effect, w': World)
    requires InProgress(spec, low, w) && Half(spec, w, Do(effect), w')
    requires PartOf(effect) <= Parts(spec) && Fresh(spec, w, Do(effect))
    ensures InProgress(spec, low, w')
  {
    if effect == ConfigurePorts {
      if w' != w { DoKeepsProgress(spec, low, w, effect); }
    } else {
      forall p | p in w'.vm.value.disk ensures p in Parts(spec) {
        if p !in PartOf(effect) { assert p in w'.vm.value.disk - PartOf(effect); }
      }
      forall stage | Belongs(spec.mode, stage) && Rank(spec.mode, stage) <= Rank(spec.mode, w.retry.value.checkpoint)
        ensures Has(spec, w', stage)
      {
        assert Has(spec, w, stage);
        HalfKeepsEarlier(spec, w, effect, w', stage);
      }
    }
  }

  lemma HalfKeepsEarlier(spec: Spec, w: World, effect: Effect, w': World, stage: Stage)
    requires w.vm.Some? && w.row.Some? && w'.vm.Some? && w'.row == w.row && Has(spec, w, stage)
    requires w'.vm.value.forwards == w.vm.value.forwards
    requires w'.vm.value.disk - PartOf(effect) == w.vm.value.disk - PartOf(effect)
    requires effect != StartVm ==> stage != StageOf(effect)
    ensures Has(spec, w', stage)
  {
    var part := PartOf(effect);
    assert forall p :: p !in part && p in w.vm.value.disk ==> p in w.vm.value.disk - part;
  }

  lemma DoIsSafe(spec: Spec, low: nat, w: World, effect: Effect, rest: seq<Act>)
    requires InProgress(spec, low, w) && PartOf(effect) <= Parts(spec) && Fresh(spec, w, Do(effect)) && effect != CloneVm
    requires CanDo(w.vm, effect) ==> Safe(spec, low, Apply(spec, w, Do(effect)), rest)
    ensures Safe(spec, low, w, [Do(effect)] + rest)
  {
    forall w' | Half(spec, w, Do(effect), w') ensures Resumable(spec, low, w') {
      HalfKeepsProgress(spec, low, w, effect, w');
    }
  }

  /** Storing the next checkpoint once its stage is done. */
  lemma SaveIsSafe(spec: Spec, low: nat, w: World, stage: Stage, up: bool, rest: seq<Act>)
    requires InProgress(spec, low, w) && (up ==> w.vm.value.running)
    requires Belongs(spec.mode, stage) && Rank(spec.mode, stage) == Rank(spec.mode, w.retry.value.checkpoint) + 1
    requires Has(spec, w, stage) && SafeFrom(spec, low, stage, up, rest)
    ensures Safe(spec, low, w, [Save(stage)] + rest)
  {
    var saved := Apply(spec, w, Save(stage));
    forall s | Belongs(spec.mode, s) && Rank(spec.mode, s) <= Rank(spec.mode, stage) ensures Has(spec, saved, s) {
      if Rank(spec.mode, s) == Rank(spec.mode, stage) {
        SameRank(spec.mode, s, stage);
      } else {
        assert Has(spec, w, s);
      }
    }
    assert AtStage(spec, low, saved, stage, up);
  }

  lemma SameRank(mode: Mode, s: Stage, t: Stage)
    requires Belongs(mode, s) && Belongs(mode, t) && Rank(mode, s) == Rank(mode, t)
    ensures s == t
  {
  }

  lemma RowWriteIsSafe(spec: Spec, low: nat, w: World, a: Act, rest: seq<Act>)
    requires InProgress(spec, low, w) && Enabled(w, a)
    requires a.Mark? || (a.RecordAgent? && spec.provider)
    requires Safe(spec, low, Apply(spec, w, a), rest)
    ensures Safe(spec, low, w, [a] + rest)
  {
    RowWriteKeepsProgress(spec, low, w, a);
  }

  lemma RowWriteKeepsProgress(spec: Spec, low: nat, w: World, a: Act)
    requires InProgress(spec, low, w) && Enabled(w, a)
    requires a.Mark? || (a.RecordAgent? && spec.provider)
    ensures InProgress(spec, low, Apply(spec, w, a))
  {
    forall stage | Belongs(spec.mode, stage) && Rank(spec.mode, stage) <= Rank(spec.mode, w.retry.value.checkpoint)
      ensures Has(spec, Apply(spec, w, a), stage)
    {
      assert Has(spec, w, stage);
    }
  }

  // ---- One stage at a time ----

  predicate Applies(spec: Spec, effect: Effect) {
    match effect
    case ConfigurePorts => spec.ports != []
    case SeedWorkspace => Seeds(spec)
    case StartAgent => spec.provider
    case ConfigureIdentity => spec.mode == Repo
    case _ => true
  }

  predicate IsNext(spec: Spec, w: World, stage: Stage) {
    && w.retry.Some? && Belongs(spec.mode, stage)
    && Rank(spec.mode, stage) == Rank(spec.mode, w.retry.value.checkpoint) + 1
  }

  lemma EffectThenSave(spec: Spec, low: nat, w: World, effect: Effect, up: bool, rest: seq<Act>)
    requires InProgress(spec, low, w) && (up && effect != StartVm ==> w.vm.value.running)
    requires IsNext(spec, w, StageOf(effect)) && Applies(spec, effect) && effect != CloneVm && effect != StartAgent
    requires SafeFrom(spec, low, StageOf(effect), up, rest)
    ensures Safe(spec, low, w, [Do(effect)] + ([Save(StageOf(effect))] + rest))
  {
    if CanDo(w.vm, effect) {
      DoKeepsProgress(spec, low, w, effect);
      if effect == ConfigurePorts { ForwardOnceMore(spec, w.vm.value.forwards, 0); }
      SaveIsSafe(spec, low, Apply(spec, w, Do(effect)), StageOf(effect), up, rest);
    }
    DoIsSafe(spec, low, w, effect, [Save(StageOf(effect))] + rest);
  }

  lemma AgentThenSave(spec: Spec, low: nat, w: World, up: bool, rest: seq<Act>)
    requires InProgress(spec, low, w) && (up ==> w.vm.value.running)
    requires IsNext(spec, w, AgentStarted) && spec.provider
    requires SafeFrom(spec, low, AgentStarted, up, rest)
    ensures Safe(spec, low, w, [Do(StartAgent)] + ([RecordAgent] + ([Save(AgentStarted)] + rest)))
  {
    if CanDo(w.vm, StartAgent) {
      var started := Apply(spec, w, Do(StartAgent));
      DoKeepsProgress(spec, low, w, StartAgent);
      RowWriteKeepsProgress(spec, low, started, RecordAgent);
      SaveIsSafe(spec, low, Apply(spec, started, RecordAgent), AgentStarted, up, rest);
      RowWriteIsSafe(spec, low, started, RecordAgent, [Save(AgentStarted)] + rest);
    }
    DoIsSafe(spec, low, w, StartAgent, [RecordAgent] + ([Save(AgentStarted)] + rest));
  }

  function EffectOf(stage: Stage): Effect
    requires !stage.Unknown?
  {
    match stage
    case VmCloned => CloneVm
    case PortsConfigured => ConfigurePorts
    case VmStarted => StartVm
    case GuestSupportInstalled => InstallSupport
    case WorkspaceSeeded => SeedWorkspace
    case ShellReady => EnsureShell
    case GitIdentityConfigured => ConfigureIdentity
    case AgentStarted => StartAgent
  }

  lemma ActsOfThen(spec: Spec, stage: Stage, rest: seq<Act>)
    requires Belongs(spec.mode, stage)
    ensures ActsOf(spec, stage) + rest ==
      if !Applies(spec, EffectOf(stage)) then [Save(stage)] + rest
      else if stage == AgentStarted then [Do(StartAgent)] + ([RecordAgent] + ([Save(AgentStarted)] + rest))
      else [Do(EffectOf(stage))] + ([Save(stage)] + rest)
  {
  }

  lemma StageIsSafe(spec: Spec, low: nat, w: World, stage: Stage, up: bool, rest: seq<Act>)
    requires InProgress(spec, low, w) && (up && stage != VmStarted ==> w.vm.value.running)
    requires IsNext(spec, w, stage)
    requires SafeFrom(spec, low, stage, up, rest)
    ensures Safe(spec, low, w, ActsOf(spec, stage) + rest)
  {
    ActsOfThen(spec, stage, rest);
    if !Applies(spec, EffectOf(stage)) {
      SaveIsSafe(spec, low, w, stage, up, rest);
    } else if stage == AgentStarted {
      AgentThenSave(spec, low, w, up, rest);
    } else {
      EffectThenSave(spec, low, w, EffectOf(stage), up, rest);
    }
  }

  // ---- Lists of stages ----

  /** Each stage comes right after the one before it. */
  predicate Consecutive(mode: Mode, after: Stage, stages: seq<Stage>)
    decreases |stages|
  {
    stages == [] ||
    (Belongs(mode, stages[0]) && Rank(mode, stages[0]) == Rank(mode, after) + 1 && Consecutive(mode, stages[0], stages[1..]))
  }

  function End(after: Stage, stages: seq<Stage>): Stage
    decreases |stages|
  {
    if stages == [] then after else End(stages[0], stages[1..])
  }

  lemma {:induction false} StagesAreSafe(spec: Spec, low: nat, after: Stage, stages: seq<Stage>, rest: seq<Act>)
    requires Consecutive(spec.mode, after, stages)
    requires SafeFrom(spec, low, End(after, stages), true, rest)
    ensures SafeFrom(spec, low, after, true, StagesThen(spec, stages, rest))
    decreases |stages|
  {
    if stages != [] {
      StagesAreSafe(spec, low, stages[0], stages[1..], rest);
      forall w | AtStage(spec, low, w, after, true) ensures Safe(spec, low, w, StagesThen(spec, stages, rest)) {
        StageIsSafe(spec, low, w, stages[0], true, StagesThen(spec, stages[1..], rest));
      }
    }
  }

  lemma Link(mode: Mode, after: Stage, stage: Stage, rest: seq<Stage>)
    requires Belongs(mode, stage) && Rank(mode, stage) == Rank(mode, after) + 1 && Consecutive(mode, stage, rest)
    ensures Consecutive(mode, after, [stage] + rest) && End(after, [stage] + rest) == End(stage, rest)
  {
    assert ([stage] + rest)[1..] == rest;
  }

  lemma LaterIsConsecutive(mode: Mode)
    ensures Consecutive(mode, VmStarted, Later(mode)) && End(VmStarted, Later(mode)) == AgentStarted
  {
    if mode == Sandbox {
      Link(mode, WorkspaceSeeded, AgentStarted, []);
      Link(mode, ShellReady, WorkspaceSeeded, [AgentStarted] + []);
      Link(mode, GuestSupportInstalled, ShellReady, [WorkspaceSeeded] + ([AgentStarted] + []));
    } else {
      Link(mode, GitIdentityConfigured, AgentStarted, []);
      Link(mode, ShellReady, GitIdentityConfigured, [AgentStarted] + []);
      Link(mode, WorkspaceSeeded, ShellReady, [GitIdentityConfigured] + ([AgentStarted] + []));
      Link(mode, GuestSupportInstalled, WorkspaceSeeded, [ShellReady] + ([GitIdentityConfigured] + ([AgentStarted] + [])));
    }
    var rest := Later(mode)[1..];
    assert Later(mode) == [GuestSupportInstalled] + rest;
    assert rest == if mode == Sandbox then [ShellReady] + ([WorkspaceSeeded] + ([AgentStarted] + []))
                   else [WorkspaceSeeded] + ([ShellReady] + ([GitIdentityConfigured] + ([AgentStarted] + [])));
    Link(mode, VmStarted, GuestSupportInstalled, rest);
  }

  lemma OnlySplits(mode: Mode, completed: Stage, stages: seq<Stage>)
    requires stages != []
    ensures Only(mode, completed, stages) ==
      if Pending(mode, completed, stages[0]) then [stages[0]] + Only(mode, completed, stages[1..])
      else Only(mode, completed, stages[1..])
  {
  }

  lemma {:induction false} OnlyKeepsAll(mode: Mode, after: Stage, stages: seq<Stage>, completed: Stage)
    requires Consecutive(mode, after, stages) && Rank(mode, completed) <= Rank(mode, after)
    ensures Only(mode, completed, stages) == stages
    decreases |stages|
  {
    if stages != [] {
      OnlyKeepsAll(mode, stages[0], stages[1..], completed);
      OnlySplits(mode, completed, stages);
    }
  }

  /** Filtering consecutive stages by a checkpoint among them keeps those right after it. */
  lemma {:induction false} OnlyIsConsecutive(mode: Mode, after: Stage, stages: seq<Stage>, completed: Stage)
    requires Consecutive(mode, after, stages) && completed in stages
    ensures Consecutive(mode, completed, Only(mode, completed, stages))
    ensures End(completed, Only(mode, completed, stages)) == End(after, stages)
    decreases |stages|
  {
    OnlySplits(mode, completed, stages);
    if completed == stages[0] {
      OnlyKeepsAll(mode, stages[0], stages[1..], completed);
    } else {
      assert completed in stages[1..];
      LaterInRank(mode, stages[0], stages[1..], completed);
      OnlyIsConsecutive(mode, stages[0], stages[1..], completed);
    }
  }

  lemma {:induction false} LaterInRank(mode: Mode, after: Stage, stages: seq<Stage>, stage: Stage)
    requires Consecutive(mode, after, stages) && stage in stages
    ensures Rank(mode, stage) > Rank(mode, after)
    decreases |stages|
  {
    if stage != stages[0] { LaterInRank(mode, stages[0], stages[1..], stage); }
  }

  // ---- Whole plans ----

  lemma FinishIsSafe(spec: Spec, low: nat)
    ensures SafeFrom(spec, low, AgentStarted, true, FINISH)
  {
    forall w | AtStage(spec, low, w, AgentStarted, true) ensures Safe(spec, low, w, FINISH) {
      var running := Apply(spec, w, Mark(Running));
      RowWriteKeepsProgress(spec, low, w, Mark(Running));
      EverythingBuilt(spec, low, running);
      assert Safe(spec, low, Apply(spec, running, DropRetry), []);
      RowWriteIsSafe(spec, low, w, Mark(Running), [DropRetry] + []);
      assert FINISH == [Mark(Running)] + ([DropRetry] + []);
    }
  }

  lemma EverythingBuilt(spec: Spec, low: nat, w: World)
    requires AtStage(spec, low, w, AgentStarted, true) && w.row.value.lifecycle == Running
    ensures Finished(spec, Apply(spec, w, DropRetry))
  {
    assert Has(spec, w, PortsConfigured) && Has(spec, w, GuestSupportInstalled) && Has(spec, w, WorkspaceSeeded);
    assert Has(spec, w, AgentStarted) && (spec.mode == Repo ==> Has(spec, w, GitIdentityConfigured));
  }

  lemma SeedingIsSafe(spec: Spec, low: nat, after: Stage, later: seq<Stage>)
    requires Consecutive(spec.mode, after, later) && End(after, later) == AgentStarted
    ensures SafeFrom(spec, low, after, true, SeedingOn(spec, later))
  {
    FinishIsSafe(spec, low);
    StagesAreSafe(spec, low, after, later, FINISH);
  }

  lemma OneStageIsSafe(spec: Spec, low: nat, after: Stage, stage: Stage, up: bool, rest: seq<Act>)
    requires Belongs(spec.mode, stage) && Rank(spec.mode, stage) == Rank(spec.mode, after) + 1
    requires up ==> stage == VmStarted
    requires SafeFrom(spec, low, stage, up, rest)
    ensures SafeFrom(spec, low, after, false, ActsOf(spec, stage) + rest)
  {
    forall w | AtStage(spec, low, w, after, false) ensures Safe(spec, low, w, ActsOf(spec, stage) + rest) {
      StageIsSafe(spec, low, w, stage, up, rest);
    }
  }

  /** After its clone, a launch is safe: wherever it stops, it can be resumed. */
  lemma AfterCloneIsSafe(spec: Spec)
    ensures SafeFrom(spec, 0, VmCloned, false, AfterClone(spec))
  {
    var seeding := SeedingOn(spec, Later(spec.mode));
    LaterIsConsecutive(spec.mode);
    SeedingIsSafe(spec, 0, VmStarted, Later(spec.mode));
    OneStageIsSafe(spec, 0, PortsConfigured, VmStarted, true, seeding);
    OneStageIsSafe(spec, 0, VmCloned, PortsConfigured, false, ActsOf(spec, VmStarted) + seeding);
    TwoStages(spec, PortsConfigured, VmStarted, seeding);
  }

  lemma TwoStages(spec: Spec, s: Stage, t: Stage, rest: seq<Act>)
    ensures StagesThen(spec, [s, t], rest) == ActsOf(spec, s) + (ActsOf(spec, t) + rest)
    ensures StagesThen(spec, [t], rest) == ActsOf(spec, t) + rest
  {
    assert [t][1..] == [];
    assert StagesThen(spec, [t], rest) == ActsOf(spec, t) + rest;
    assert [s, t][1..] == [t];
  }

  /** From any stored checkpoint, a retry is safe and never falls below that checkpoint. */
  lemma RetryIsSafe(spec: Spec, completed: Stage)
    requires Belongs(spec.mode, completed)
    ensures SafeFrom(spec, Rank(spec.mode, completed), completed, false, RetryPlan(spec, completed))
  {
    var low := Rank(spec.mode, completed);
    LaterIsConsecutive(spec.mode);
    if low < 2 {
      OnlyKeepsAll(spec.mode, VmStarted, Later(spec.mode), completed);
      RetryEarly(spec, completed);
    } else {
      if completed == VmStarted {
        OnlyKeepsAll(spec.mode, VmStarted, Later(spec.mode), completed);
      } else {
        OnlyIsConsecutive(spec.mode, VmStarted, Later(spec.mode), completed);
      }
      var later := Only(spec.mode, completed, Later(spec.mode));
      SeedingIsSafe(spec, low, completed, later);
      StartIsSafe(spec, low, completed, SeedingOn(spec, later));
      assert [] + SeedingOn(spec, later) == SeedingOn(spec, later);
      assert Only(spec.mode, completed, [PortsConfigured]) == [];
    }
  }

  lemma StartIsSafe(spec: Spec, low: nat, after: Stage, rest: seq<Act>)
    requires SafeFrom(spec, low, after, true, rest)
    ensures SafeFrom(spec, low, after, false, [Do(StartVm)] + rest)
  {
    forall w | AtStage(spec, low, w, after, false) ensures Safe(spec, low, w, [Do(StartVm)] + rest) {
      DoKeepsProgress(spec, low, w, StartVm);
      DoIsSafe(spec, low, w, StartVm, rest);
    }
  }

  lemma RetryEarly(spec: Spec, completed: Stage)
    requires Belongs(spec.mode, completed) && Rank(spec.mode, completed) < 2
    requires Only(spec.mode, completed, Later(spec.mode)) == Later(spec.mode)
    ensures SafeFrom(spec, Rank(spec.mode, completed), completed, false, RetryPlan(spec, completed))
  {
    var low := Rank(spec.mode, completed);
    var seeding := SeedingOn(spec, Later(spec.mode));
    LaterIsConsecutive(spec.mode);
    SeedingIsSafe(spec, low, VmStarted, Later(spec.mode));
    OneStageIsSafe(spec, low, PortsConfigured, VmStarted, true, seeding);
    ActsOfThen(spec, VmStarted, seeding);
    assert [PortsConfigured][1..] == [];
    if completed == VmCloned {
      OneStageIsSafe(spec, low, VmCloned, PortsConfigured, false, ActsOf(spec, VmStarted) + seeding);
      TwoStages(spec, PortsConfigured, PortsConfigured, ActsOf(spec, VmStarted) + seeding);
      assert Only(spec.mode, completed, [PortsConfigured]) == [PortsConfigured];
    } else {
      assert Only(spec.mode, completed, [PortsConfigured]) == [];
    }
  }
}
