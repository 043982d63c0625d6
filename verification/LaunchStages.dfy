/**
 * The stages of a launch or open, what each does to the session's VM and rows, and the order in which
 * launch, open and retry do them (src/commands/launch.rs, src/commands/open.rs, src/commands/retry.rs,
 * src/session/launch_retry.rs, src/db/launch_retries.rs).
 */
module LaunchStages {

  import opened Common
  import opened SessionKinds
  import Ports

  // ---- What is asked for ----

  type Protocol = Ports.Protocol

  type Rule = Ports.PublishedPort

  /** `inherited`: the forwards a clone of the base starts with. */
  datatype Spec = Spec(mode: Mode, ports: seq<Rule>, seed: bool, provider: bool, inherited: seq<Rule>)

  // ---- What there is ----

  /** Parts of the guest disk, which survive a stop. */
  datatype Part = Support | Workspace | Identity | AgentFiles

  /** tmux windows, which do not. */
  datatype Window = Shell | Agent

  datatype Vm = Vm(running: bool, forwards: seq<Rule>, disk: set<Part>, live: set<Window>)

  datatype Row = Row(lifecycle: State, agentRecorded: bool)

  datatype Stage =
    | VmCloned | PortsConfigured | VmStarted | GuestSupportInstalled
    | WorkspaceSeeded | ShellReady | GitIdentityConfigured | AgentStarted
    | Unknown(text: string)

  datatype Retry = Retry(checkpoint: Stage, failed: bool)

  datatype World = World(vm: Option<Vm>, row: Option<Row>, retry: Option<Retry>)

  // ---- Stage orders ----

  /** `SANDBOX_STAGES` and `REPO_STAGES`. */
  function Stages(mode: Mode): seq<Stage> {
    [VmCloned, PortsConfigured, VmStarted] + Later(mode)
  }

  /** The stages after the VM runs. */
  function Later(mode: Mode): seq<Stage> {
    match mode
    case Sandbox => [GuestSupportInstalled, ShellReady, WorkspaceSeeded, AgentStarted]
    case Repo => [GuestSupportInstalled, WorkspaceSeeded, ShellReady, GitIdentityConfigured, AgentStarted]
  }

  /** `remaining_stages`: what follows a checkpoint, or nothing known about it. */
  function Remaining(stages: seq<Stage>, completed: Stage): Option<seq<Stage>> {
    if stages == [] then None
    else if stages[0] == completed then Some(stages[1..])
    else Remaining(stages[1..], completed)
  }

  /** A stage's place in its mode's order. */
  function Rank(mode: Mode, stage: Stage): nat {
    match stage
    case VmCloned => 0
    case PortsConfigured => 1
    case VmStarted => 2
    case GuestSupportInstalled => 3
    case WorkspaceSeeded => if mode == Repo then 4 else 5
    case ShellReady => if mode == Repo then 5 else 4
    case GitIdentityConfigured => 6
    case AgentStarted => if mode == Repo then 7 else 6
    case Unknown(_) => 99
  }

  predicate Belongs(mode: Mode, stage: Stage) {
    !stage.Unknown? && (stage == GitIdentityConfigured ==> mode == Repo)
  }

  predicate Pending(mode: Mode, completed: Stage, stage: Stage) {
    Belongs(mode, stage) && Rank(mode, stage) > Rank(mode, completed)
  }

  lemma {:induction false} RemainingAt(stages: seq<Stage>, i: nat)
    requires i < |stages| && stages[i] !in stages[..i]
    ensures Remaining(stages, stages[i]) == Some(stages[i + 1..])
  {
    if i > 0 {
      assert stages[..i] == [stages[0]] + stages[1..][..i - 1];
      RemainingAt(stages[1..], i - 1);
      assert stages[1..][i - 1] == stages[i];
      assert stages[1..][i..] == stages[i + 1..];
    }
  }

  lemma {:induction false} RemainingUnknown(stages: seq<Stage>, stage: Stage)
    requires stage !in stages
    ensures Remaining(stages, stage) == None
  {
    if stages != [] { RemainingUnknown(stages[1..], stage); }
  }

  /** Exactly the stages of a mode are listed, each at its rank. */
  lemma StagesAreRanked(mode: Mode, stage: Stage)
    ensures stage in Stages(mode) <==> Belongs(mode, stage)
    ensures Belongs(mode, stage) ==> Rank(mode, stage) < |Stages(mode)| && Stages(mode)[Rank(mode, stage)] == stage
    ensures forall i :: 0 <= i < |Stages(mode)| ==> Rank(mode, Stages(mode)[i]) == i
  {
  }

  /** A list of stages in which each stage of a mode stands at its rank. */
  ghost predicate Ranked(mode: Mode, stages: seq<Stage>) {
    && (forall stage :: stage in stages <==> Belongs(mode, stage))
    && (forall i :: 0 <= i < |stages| ==> Rank(mode, stages[i]) == i)
  }

  lemma RankedRemaining(mode: Mode, stages: seq<Stage>, completed: Stage, stage: Stage)
    requires Ranked(mode, stages)
    ensures Remaining(stages, completed).Some? <==> Belongs(mode, completed)
    ensures Belongs(mode, completed) ==>
      (stage in Remaining(stages, completed).value <==> Pending(mode, completed, stage))
  {
    if Belongs(mode, completed) {
      var i :| 0 <= i < |stages| && stages[i] == completed;
      RemainingAt(stages, i);
      RankedLater(mode, stages, i, stage);
    } else {
      RemainingUnknown(stages, completed);
    }
  }

  lemma RankedLater(mode: Mode, stages: seq<Stage>, i: nat, stage: Stage)
    requires Ranked(mode, stages) && i < |stages|
    ensures stage in stages[i + 1..] <==> Pending(mode, stages[i], stage)
  {
    if Pending(mode, stages[i], stage) {
      var k :| 0 <= k < |stages| && stages[k] == stage;
      assert Rank(mode, stages[k]) == k;
    }
  }

  /** A stage remains after a checkpoint exactly when it comes later in its mode's order. */
  lemma RemainingAreLater(mode: Mode, completed: Stage, stage: Stage)
    ensures Remaining(Stages(mode), completed).Some? <==> Belongs(mode, completed)
    ensures Belongs(mode, completed) ==>
      (stage in Remaining(Stages(mode), completed).value <==> Pending(mode, completed, stage))
  {
    forall s ensures s in Stages(mode) <==> Belongs(mode, s) { StagesAreRanked(mode, s); }
    StagesAreRanked(mode, completed);
    RankedRemaining(mode, Stages(mode), completed, stage);
  }

  // ---- Actions ----

  datatype Effect =
    | CloneVm | ConfigurePorts | StartVm | InstallSupport | SeedWorkspace | EnsureShell | ConfigureIdentity | StartAgent

  datatype Act = Do(effect: Effect) | Save(stage: Stage) | Mark(lifecycle: State) | RecordAgent | DropRetry

  function StageOf(effect: Effect): Stage {
    match effect
    case CloneVm => VmCloned
    case ConfigurePorts => PortsConfigured
    case StartVm => VmStarted
    case InstallSupport => GuestSupportInstalled
    case SeedWorkspace => WorkspaceSeeded
    case EnsureShell => ShellReady
    case ConfigureIdentity => GitIdentityConfigured
    case StartAgent => AgentStarted
  }

  /** What must be so for an effect to work: editing needs a stopped VM, everything in the guest a running one. */
  predicate CanDo(vm: Option<Vm>, effect: Effect) {
    match effect
    case CloneVm => vm.None?
    case ConfigurePorts => vm.Some? && !vm.value.running
    case StartVm => vm.Some?
    case _ => vm.Some? && vm.value.running
  }

  function Done(spec: Spec, vm: Option<Vm>, effect: Effect): Vm
    requires CanDo(vm, effect)
  {
    match effect
    case CloneVm => Vm(false, spec.inherited, {}, {})
    case ConfigurePorts => vm.value.(forwards := spec.ports + vm.value.forwards)
    case StartVm => vm.value.(running := true)
    case InstallSupport => vm.value.(disk := vm.value.disk + {Support})
    case SeedWorkspace => vm.value.(disk := vm.value.disk + {Workspace})
    case EnsureShell => vm.value.(live := vm.value.live + {Shell})
    case ConfigureIdentity => vm.value.(disk := vm.value.disk + {Identity})
    case StartAgent => vm.value.(disk := vm.value.disk + {AgentFiles}, live := vm.value.live + {Shell, Agent})
  }

  predicate Enabled(w: World, a: Act) {
    match a
    case Do(effect) => CanDo(w.vm, effect)
    case _ => w.row.Some?
  }

  function Apply(spec: Spec, w: World, a: Act): World
    requires Enabled(w, a)
  {
    match a
    case Do(effect) => w.(vm := Some(Done(spec, w.vm, effect)))
    case Save(stage) => w.(retry := Some(Retry(stage, false)))
    case Mark(lifecycle) => w.(row := Some(w.row.value.(lifecycle := lifecycle)))
    case RecordAgent => w.(row := Some(w.row.value.(agentRecorded := true)))
    case DropRetry => w.(retry := None)
  }

  /** What an effect that did not succeed may leave of a VM. */
  predicate HalfDone(spec: Spec, vm: Option<Vm>, effect: Effect, vm': Option<Vm>) {
    vm' == vm ||
    match effect
    case CloneVm => CanDo(vm, effect) && vm' == Some(Done(spec, vm, effect))
    case ConfigurePorts => CanDo(vm, effect) && vm' == Some(Done(spec, vm, effect))
    case _ =>
      && vm.Some? && vm'.Some? && vm'.value.forwards == vm.value.forwards
      && (!vm'.value.running ==> vm'.value.live == {})
      && vm'.value.disk - PartOf(effect) == vm.value.disk - PartOf(effect)
  }

  /** The part of the disk an effect writes. */
  function PartOf(effect: Effect): set<Part> {
    match effect
    case InstallSupport => {Support}
    case SeedWorkspace => {Workspace}
    case ConfigureIdentity => {Identity}
    case StartAgent => {AgentFiles}
    case _ => {}
  }

  /** What an interrupted action may leave: a row write has happened or not. */
  predicate Half(spec: Spec, w: World, a: Act, w': World) {
    match a
    case Do(effect) => w'.row == w.row && w'.retry == w.retry && HalfDone(spec, w.vm, effect, w'.vm)
    case _ => w' == w || (Enabled(w, a) && w' == Apply(spec, w, a))
  }

  function Run(spec: Spec, w: World, acts: seq<Act>): Option<World>
    decreases |acts|
  {
    if acts == [] then Some(w)
    else if Enabled(w, acts[0]) then Run(spec, Apply(spec, w, acts[0]), acts[1..])
    else None
  }

  // ---- Plans ----

  function When(condition: bool, acts: seq<Act>): seq<Act> {
    if condition then acts else []
  }

  /** A stage's effect, when it applies, and then its checkpoint. */
  function ActsOf(spec: Spec, stage: Stage): seq<Act> {
    (match stage
     case VmCloned => [Do(CloneVm)]
     case PortsConfigured => When(spec.ports != [], [Do(ConfigurePorts)])
     case VmStarted => [Do(StartVm)]
     case GuestSupportInstalled => [Do(InstallSupport)]
     case WorkspaceSeeded => When(Seeds(spec), [Do(SeedWorkspace)])
     case ShellReady => [Do(EnsureShell)]
     case GitIdentityConfigured => [Do(ConfigureIdentity)]
     case AgentStarted => When(spec.provider, [Do(StartAgent), RecordAgent])
     case Unknown(_) => []) + [Save(stage)]
  }

  predicate Seeds(spec: Spec) {
    spec.mode == Repo || spec.seed
  }

  function StagesThen(spec: Spec, stages: seq<Stage>, rest: seq<Act>): seq<Act> {
    if stages == [] then rest else ActsOf(spec, stages[0]) + StagesThen(spec, stages[1..], rest)
  }

  const FINISH: seq<Act> := [Mark(Running), DropRetry]

  function SeedingOn(spec: Spec, later: seq<Stage>): seq<Act> {
    [Mark(Seeding)] + StagesThen(spec, later, FINISH)
  }

  /** Everything after the clone's checkpoint. */
  function AfterClone(spec: Spec): seq<Act> {
    [Mark(Starting)] + StagesThen(spec, [PortsConfigured, VmStarted], SeedingOn(spec, Later(spec.mode)))
  }

  /** What launch and open do once the session's row is there. */
  function LaunchPlan(spec: Spec): seq<Act> {
    ActsOf(spec, VmCloned) + AfterClone(spec)
  }

  /** The plans written out, stage by stage. */
  lemma LaunchPlanIs(spec: Spec)
    ensures LaunchPlan(spec) ==
      [Do(CloneVm), Save(VmCloned)] + ([Mark(Starting)] + (
      ((if spec.ports == [] then [] else [Do(ConfigurePorts)]) + [Save(PortsConfigured)]) + (
      [Do(StartVm), Save(VmStarted)] + ([Mark(Seeding)] + InGuest(spec)))))
  {
    hide FINISH, StagesThen;
    InGuestIs(spec);
    StagesThenCons(spec, [PortsConfigured, VmStarted], SeedingOn(spec, Later(spec.mode)));
    StagesThenCons(spec, [VmStarted], SeedingOn(spec, Later(spec.mode)));
    StagesThenNone(spec, SeedingOn(spec, Later(spec.mode)));
    assert [PortsConfigured, VmStarted][1..] == [VmStarted] && [VmStarted][1..] == [];
    ActsAre(spec, VmCloned, CloneVm);
    ActsAre(spec, VmStarted, StartVm);
  }

  /** What a launch and an open do in the guest, and at the end. */
  function InGuest(spec: Spec): seq<Act> {
    match spec.mode
    case Sandbox =>
      [Do(InstallSupport), Save(GuestSupportInstalled)] + ([Do(EnsureShell), Save(ShellReady)] + (
      ((if spec.seed then [Do(SeedWorkspace)] else []) + [Save(WorkspaceSeeded)]) + AgentAndEnd(spec)))
    case Repo =>
      [Do(InstallSupport), Save(GuestSupportInstalled)] + ([Do(SeedWorkspace), Save(WorkspaceSeeded)] + (
      [Do(EnsureShell), Save(ShellReady)] + ([Do(ConfigureIdentity), Save(GitIdentityConfigured)] + AgentAndEnd(spec))))
  }

  function AgentAndEnd(spec: Spec): seq<Act> {
    ((if spec.provider then [Do(StartAgent), RecordAgent] else []) + [Save(AgentStarted)]) + [Mark(Running), DropRetry]
  }

  lemma InGuestIs(spec: Spec)
    ensures StagesThen(spec, Later(spec.mode), FINISH) == InGuest(spec)
  {
    hide StagesThen;
    var later := Later(spec.mode);
    StagesThenCons(spec, later, FINISH);
    StagesThenCons(spec, later[1..], FINISH);
    StagesThenCons(spec, later[1..][1..], FINISH);
    StagesThenCons(spec, later[1..][1..][1..], FINISH);
    ActsAre(spec, GuestSupportInstalled, InstallSupport);
    ActsAre(spec, ShellReady, EnsureShell);
    match spec.mode
    case Sandbox =>
      assert later[1..][1..][1..][1..] == [];
      StagesThenNone(spec, FINISH);
    case Repo =>
      StagesThenCons(spec, later[1..][1..][1..][1..], FINISH);
      ActsAre(spec, WorkspaceSeeded, SeedWorkspace);
      ActsAre(spec, GitIdentityConfigured, ConfigureIdentity);
      assert later[1..][1..][1..][1..][1..] == [];
      StagesThenNone(spec, FINISH);
  }

  lemma ActsAre(spec: Spec, stage: Stage, effect: Effect)
    requires StageOf(effect) == stage && stage != PortsConfigured && stage != AgentStarted
    requires stage == WorkspaceSeeded ==> Seeds(spec)
    ensures ActsOf(spec, stage) == [Do(effect), Save(stage)]
  {
  }

  lemma StagesThenNone(spec: Spec, rest: seq<Act>)
    ensures StagesThen(spec, [], rest) == rest
  {
  }

  lemma StagesThenCons(spec: Spec, stages: seq<Stage>, rest: seq<Act>)
    requires stages != []
    ensures StagesThen(spec, stages, rest) == ActsOf(spec, stages[0]) + StagesThen(spec, stages[1..], rest)
  {
  }

  function Only(mode: Mode, completed: Stage, stages: seq<Stage>): seq<Stage> {
    if stages == [] then []
    else (if Pending(mode, completed, stages[0]) then [stages[0]] else []) + Only(mode, completed, stages[1..])
  }

  /** What retry does from a checkpoint; `StartVm` does nothing to a running VM. */
  function RetryPlan(spec: Spec, completed: Stage): seq<Act> {
    StagesThen(spec, Only(spec.mode, completed, [PortsConfigured]),
      [Do(StartVm)] + (When(Pending(spec.mode, completed, VmStarted), [Save(VmStarted)]) +
      SeedingOn(spec, Only(spec.mode, completed, Later(spec.mode)))))
  }
}
