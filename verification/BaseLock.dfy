/**
 * Cloning the prepared base under a shared lock and preparing it under an exclusive one, by any
 * number of launch, open and base-prepare processes (src/commands/base.rs, src/db/locks.rs). The
 * first evaluation is unlocked, and between preparing and cloning nothing is locked.
 */
module BaseLock {

  import opened Common
  import opened BaseVm

  type Pid = nat

  // ---- The lock file ----

  datatype Lock = Free | Shared(holders: set<Pid>) | Exclusive(holder: Pid)

  datatype Mode = ForClone | ForPrepare

  predicate CanLock(lock: Lock, mode: Mode) {
    lock.Free? || (mode == ForClone && lock.Shared?)
  }

  function Locked(lock: Lock, pid: Pid, mode: Mode): Lock
    requires CanLock(lock, mode)
  {
    if mode == ForPrepare then Exclusive(pid) else Shared((if lock.Shared? then lock.holders else {}) + {pid})
  }

  /** Dropping the file, or the process going away. */
  function Released(lock: Lock, pid: Pid): Lock {
    match lock
    case Free => Free
    case Shared(holders) => if holders == {pid} then Free else Shared(holders - {pid})
    case Exclusive(holder) => if holder == pid then Free else lock
  }

  // ---- One process ----

  /** Preparing automatically, or as `base prepare`. */
  datatype Why = Automatic | Asked

  datatype Pc =
    | Evaluate                          // decide, unlocked
    | WantExclusive(why: Why, rebuild: bool)
    | Recheck                           // decide again, exclusively locked
    | ListBase(why: Why, rebuild: bool) // look at the base once more to pick the steps
    | Preparing(why: Why, rest: seq<Step>)
    | WantShared                        // unlocked, about to lock for cloning
    | MayClone                          // locked, nothing cloned yet
    | Cloning
    | Finished

  predicate HoldsExclusive(pc: Pc) {
    pc.Recheck? || pc.ListBase? || pc.Preparing?
  }

  predicate HoldsShared(pc: Pc) {
    pc.MayClone? || pc.Cloning?
  }

  datatype World = World(base: Base, lock: Lock, procs: map<Pid, Pc>)

  /** `Crash` is also any error a process ends with; `Fail` is a preparation step that did not work. */
  datatype Label =
    | Launch(pid: Pid)
    | AskPrepare(pid: Pid, rebuild: bool)
    | Go(pid: Pid)
    | Crash(pid: Pid)
    | Fail(pid: Pid, base: Base)
    | Outside(base: Base)

  predicate Idle(w: World, pid: Pid) {
    pid in w.procs ==> w.procs[pid] == Finished
  }

  predicate Enabled(w: World, l: Label) {
    match l
    case Launch(pid) => Idle(w, pid)
    case AskPrepare(pid, _) => Idle(w, pid)
    case Go(pid) =>
      && pid in w.procs
      && w.procs[pid] != Finished
      && (w.procs[pid].Preparing? && w.procs[pid].rest != [] ==> Apply(w.procs[pid].rest[0], w.base).Some?)
    case Crash(pid) => pid in w.procs
    case Fail(pid, _) => pid in w.procs && w.procs[pid].Preparing? && w.procs[pid].rest != []
    case Outside(_) => true
  }

  function At(w: World, pid: Pid, pc: Pc): World {
    w.(procs := w.procs[pid := pc])
  }

  function Drop(w: World, pid: Pid, pc: Pc): World {
    World(w.base, Released(w.lock, pid), w.procs[pid := pc])
  }

  function TryLock(w: World, pid: Pid, mode: Mode, pc: Pc): World {
    if CanLock(w.lock, mode) then World(w.base, Locked(w.lock, pid, mode), w.procs[pid := pc]) else At(w, pid, Finished)
  }

  function Advance(w: World, pid: Pid): World
    requires Enabled(w, Go(pid))
  {
    match w.procs[pid]
    case Evaluate =>
      At(w, pid, match StrategyFor(w.base) case Blocked => Finished case Clone(_) => WantShared
                 case Prepare(rebuild) => WantExclusive(Automatic, rebuild))
    case WantExclusive(why, rebuild) =>
      TryLock(w, pid, ForPrepare, if why == Automatic then Recheck else ListBase(Asked, rebuild))
    case Recheck =>
      (match StrategyFor(w.base)
       case Blocked => Drop(w, pid, Finished)
       case Clone(_) => Drop(w, pid, WantShared)
       case Prepare(rebuild) => At(w, pid, ListBase(Automatic, rebuild)))
    case ListBase(why, rebuild) => At(w, pid, Preparing(why, ReportSteps(w.base, rebuild)))
    case Preparing(why, rest) =>
      if rest == [] then Drop(w, pid, if why == Automatic then WantShared else Finished)
      else At(w.(base := Apply(rest[0], w.base).value), pid, Preparing(why, rest[1..]))
    case WantShared => TryLock(w, pid, ForClone, MayClone)
    case MayClone => At(w, pid, Cloning)
    case Cloning => Drop(w, pid, Finished)
  }

  function Next(w: World, l: Label): World
    requires Enabled(w, l)
  {
    match l
    case Launch(pid) => At(w, pid, Evaluate)
    case AskPrepare(pid, rebuild) => At(w, pid, WantExclusive(Asked, rebuild))
    case Go(pid) => Advance(w, pid)
    case Crash(pid) => Drop(w, pid, Finished)
    case Fail(pid, base) => Drop(w.(base := base), pid, Finished)
    case Outside(base) => w.(base := base)
  }

  predicate IsRun(ws: seq<World>, ls: seq<Label>, base: Base) {
    && |ws| == |ls| + 1 && ws[0] == World(base, Free, map[])
    && forall i :: 0 <= i < |ls| ==> Enabled(ws[i], ls[i]) && ws[i + 1] == Next(ws[i], ls[i])
  }

  // ---- Mutual exclusion ----

  /** The lock file says exactly who holds it, and a shared lock has holders. */
  ghost predicate LockTells(w: World) {
    && (w.lock.Shared? ==> w.lock.holders != {})
    && forall pid :: (pid in w.procs && HoldsExclusive(w.procs[pid]) <==> w.lock == Exclusive(pid)) &&
         (pid in w.procs && HoldsShared(w.procs[pid]) <==> w.lock.Shared? && pid in w.lock.holders)
  }

  lemma DropKeepsLock(w: World, pid: Pid, pc: Pc)
    requires LockTells(w) && !HoldsExclusive(pc) && !HoldsShared(pc)
    ensures LockTells(Drop(w, pid, pc))
  {
    if w.lock.Shared? && w.lock.holders != {pid} {
      var other :| other in w.lock.holders && other != pid;
      assert other in w.lock.holders - {pid};
    }
  }

  lemma TryLockKeepsLock(w: World, pid: Pid, mode: Mode, pc: Pc)
    requires LockTells(w) && pid in w.procs && !HoldsExclusive(w.procs[pid]) && !HoldsShared(w.procs[pid])
    requires if mode == ForPrepare then HoldsExclusive(pc) else HoldsShared(pc) && !HoldsExclusive(pc)
    ensures LockTells(TryLock(w, pid, mode, pc))
  {
    if mode == ForClone && CanLock(w.lock, mode) {
      assert pid in Locked(w.lock, pid, mode).holders;
    }
  }

  lemma NextKeepsLock(w: World, l: Label)
    requires Enabled(w, l) && LockTells(w)
    ensures LockTells(Next(w, l))
  {
    match l
    case Crash(pid) => DropKeepsLock(w, pid, Finished);
    case Fail(pid, base) => DropKeepsLock(w.(base := base), pid, Finished);
    case Go(pid) => AdvanceKeepsLock(w, pid);
    case _ =>
  }

  lemma AdvanceKeepsLock(w: World, pid: Pid)
    requires Enabled(w, Go(pid)) && LockTells(w)
    ensures LockTells(Advance(w, pid))
  {
    match w.procs[pid]
    case WantExclusive(why, rebuild) =>
      TryLockKeepsLock(w, pid, ForPrepare, if why == Automatic then Recheck else ListBase(Asked, rebuild));
    case WantShared => TryLockKeepsLock(w, pid, ForClone, MayClone);
    case Recheck =>
      DropKeepsLock(w, pid, Finished);
      DropKeepsLock(w, pid, WantShared);
    case Preparing(why, rest) => DropKeepsLock(w, pid, if why == Automatic then WantShared else Finished);
    case Cloning => DropKeepsLock(w, pid, Finished);
    case _ =>
  }

  lemma {:induction false} RunKeepsLock(ws: seq<World>, ls: seq<Label>, base: Base, i: nat)
    requires IsRun(ws, ls, base) && i < |ws|
    ensures LockTells(ws[i])
  {
    if i > 0 {
      RunKeepsLock(ws, ls, base, i - 1);
      NextKeepsLock(ws[i - 1], ls[i - 1]);
    }
  }

  /**
   * In every run, with crashes, failing steps and outside changes anywhere: a preparation step never
   * runs while any process is cloning or may clone, nor while another process prepares.
   */
  lemma NoPreparationDuringAClone(ws: seq<World>, ls: seq<Label>, base: Base, i: nat, p: Pid, q: Pid)
    requires IsRun(ws, ls, base) && i < |ws|
    requires p in ws[i].procs && q in ws[i].procs && p != q
    requires ws[i].procs[p].Preparing? || ws[i].procs[p].ListBase?
    ensures !HoldsShared(ws[i].procs[q]) && !HoldsExclusive(ws[i].procs[q])
  {
    RunKeepsLock(ws, ls, base, i);
  }

  /** Only the process that holds the exclusive lock changes the base. */
  lemma OnlyTheHolderChangesTheBase(ws: seq<World>, ls: seq<Label>, base: Base, i: nat)
    requires IsRun(ws, ls, base) && i < |ls| && !ls[i].Outside?
    requires ws[i + 1].base != ws[i].base
    ensures (ls[i].Go? || ls[i].Fail?) && ws[i].lock == Exclusive(ls[i].pid)
  {
    RunKeepsLock(ws, ls, base, i);
  }

  // ---- Automatic preparation ----

  predicate NoOutsideChanges(ls: seq<Label>) {
    forall i :: 0 <= i < |ls| ==> !ls[i].Outside?
  }

  /** Whoever is about to prepare automatically would still decide to. */
  ghost predicate StillWanted(w: World) {
    forall pid :: pid in w.procs && w.procs[pid].ListBase? && w.procs[pid].why == Automatic ==>
      StrategyFor(w.base) == Prepare(w.procs[pid].rebuild)
  }

  /**
   * Without outside changes, an automatic preparation picks its steps only when the base, as it is at
   * that moment, still calls for exactly that preparation: it is missing, or deprecated and not running.
   */
  lemma {:induction false} AutomaticPreparationIsStillWanted(ws: seq<World>, ls: seq<Label>, base: Base, i: nat, pid: Pid)
    requires IsRun(ws, ls, base) && NoOutsideChanges(ls) && i < |ws|
    ensures StillWanted(ws[i])
    ensures pid in ws[i].procs && ws[i].procs[pid].ListBase? && ws[i].procs[pid].why == Automatic ==>
      var rebuild := ws[i].procs[pid].rebuild;
      match ws[i].base
      case None => !rebuild
      case Some(vm) => rebuild && vm.deprecated && vm.status != Running
  {
    if i > 0 {
      AutomaticPreparationIsStillWanted(ws, ls, base, i - 1, pid);
      RunKeepsLock(ws, ls, base, i - 1);
      NextStillWanted(ws[i - 1], ls[i - 1]);
    }
    hide Next;
  }

  lemma NextStillWanted(w: World, l: Label)
    requires Enabled(w, l) && LockTells(w) && StillWanted(w) && !l.Outside?
    ensures StillWanted(Next(w, l))
  {
    hide StrategyFor, ReportSteps;
  }

  // ---- Preparations that run ----

  /** Whatever is left of a preparation leads from the base as it is to a prepared one. */
  ghost predicate OnTrack(w: World) {
    forall pid :: pid in w.procs && w.procs[pid].Preparing? ==> RunSteps(w.procs[pid].rest, w.base) == Some(PREPARED)
  }

  lemma NextIsOnTrack(w: World, l: Label)
    requires Enabled(w, l) && LockTells(w) && OnTrack(w) && !l.Outside?
    ensures OnTrack(Next(w, l))
  {
    var w' := Next(w, l);
    if l.Go? && w.procs[l.pid].ListBase? { PreparationCompletes(w.base, w.procs[l.pid].rebuild); }
    forall pid | pid in w'.procs && w'.procs[pid].Preparing? ensures RunSteps(w'.procs[pid].rest, w'.base) == Some(PREPARED) {
      if l.pid != pid {
        assert pid in w.procs && w'.procs[pid] == w.procs[pid] && w.lock == Exclusive(pid);
        assert w'.base == w.base;
      }
    }
  }

  /**
   * Without outside changes, and whatever fails or dies: what is left of a preparation always leads to a
   * prepared base, so a preparation that has come to its end has left one.
   */
  lemma {:induction false} PreparationsStayOnTrack(ws: seq<World>, ls: seq<Label>, base: Base, i: nat)
    requires IsRun(ws, ls, base) && NoOutsideChanges(ls) && i < |ws|
    ensures OnTrack(ws[i])
  {
    if i > 0 {
      PreparationsStayOnTrack(ws, ls, base, i - 1);
      RunKeepsLock(ws, ls, base, i - 1);
      NextIsOnTrack(ws[i - 1], ls[i - 1]);
    }
  }

  /** At that moment a preparation by this process has come to its end, and left what it should. */
  ghost predicate HasPrepared(ws: seq<World>, ls: seq<Label>, k: nat, pid: Pid)
    requires k < |ws|
  {
    && pid in ws[k].procs && ws[k].procs[pid] == Preparing(Automatic, [])
    && (NoOutsideChanges(ls) ==> ws[k].base == PREPARED)
  }

  lemma PreparedOnTheWay(ws: seq<World>, ls: seq<Label>, base: Base, k: nat, pid: Pid)
    requires IsRun(ws, ls, base) && k < |ws| && pid in ws[k].procs && ws[k].procs[pid] == Preparing(Automatic, [])
    ensures HasPrepared(ws, ls, k, pid)
  {
    if NoOutsideChanges(ls) { PreparationsStayOnTrack(ws, ls, base, k); }
  }

  // ---- What a clone finds ----

  /** No outside changes, and every preparation that starts runs all its steps to the end. */
  predicate PreparationsComplete(ws: seq<World>, ls: seq<Label>)
    requires |ws| == |ls| + 1
  {
    forall i :: 0 <= i < |ls| ==> Undisturbed(ws[i], ls[i])
  }

  predicate Undisturbed(w: World, l: Label) {
    && !l.Outside? && !l.Fail?
    && (l.Crash? && l.pid in w.procs ==> !w.procs[l.pid].Preparing?)
  }

  /** A base nobody would clone in a state that is neither stopped nor running. */
  predicate Usable(base: Base) {
    base.Some? && base.value.status == Other ==> base.value.deprecated
  }

  predicate Stopped_(base: Base) {
    base.Some? && base.value.status == Stopped
  }

  predicate WillClone(pc: Pc) {
    pc.WantShared? || pc.MayClone? || pc.Cloning?
  }

  predicate Mid(w: World) {
    w.lock.Exclusive? && w.lock.holder in w.procs && w.procs[w.lock.holder].Preparing?
  }

  /**
   * While a preparation runs, its remaining steps lead to a prepared base; otherwise the base is usable,
   * and stopped as soon as some process has been told it may clone.
   */
  ghost predicate ReadyForClones(w: World) {
    if Mid(w) then RunSteps(w.procs[w.lock.holder].rest, w.base) == Some(PREPARED)
    else Usable(w.base) && forall pid :: pid in w.procs && WillClone(w.procs[pid]) ==> Stopped_(w.base)
  }

  /** While one process prepares, a step of another leaves the preparation where it is. */
  lemma OtherWhileMid(w: World, l: Label)
    requires Enabled(w, l) && LockTells(w) && ReadyForClones(w) && Undisturbed(w, l) && Mid(w)
    requires l.pid != w.lock.holder
    ensures ReadyForClones(Next(w, l))
  {
    var w' := Next(w, l);
    assert w'.lock == w.lock && w'.base == w.base;
    assert w'.procs[w.lock.holder] == w.procs[w.lock.holder];
  }

  lemma HolderWhileMid(w: World, l: Label)
    requires Enabled(w, l) && LockTells(w) && ReadyForClones(w) && Undisturbed(w, l) && Mid(w)
    requires l.pid == w.lock.holder
    ensures ReadyForClones(Next(w, l))
  {
    assert l == Go(l.pid);
    var rest := w.procs[l.pid].rest;
    assert !Mid(Next(w, l)) <==> rest == [];
  }

  lemma OutsidePreparation(w: World, l: Label)
    requires Enabled(w, l) && LockTells(w) && ReadyForClones(w) && Undisturbed(w, l) && !Mid(w)
    ensures ReadyForClones(Next(w, l))
  {
    var w' := Next(w, l);
    if l.Go? && w.procs[l.pid].ListBase? {
      PreparationCompletes(w.base, w.procs[l.pid].rebuild);
      assert w.lock == Exclusive(l.pid);
    } else {
      assert w'.base == w.base && !Mid(w');
      forall pid | pid in w'.procs && WillClone(w'.procs[pid]) ensures Stopped_(w'.base) {
        if pid in w.procs && WillClone(w.procs[pid]) {
        } else {
          assert StrategyFor(w.base).Clone?;
        }
      }
    }
  }

  lemma {:induction false} RunKeepsReady(ws: seq<World>, ls: seq<Label>, base: Base, i: nat)
    requires IsRun(ws, ls, base) && PreparationsComplete(ws, ls) && Usable(base) && i < |ws|
    ensures ReadyForClones(ws[i])
  {
    if i > 0 {
      var w, l := ws[i - 1], ls[i - 1];
      RunKeepsReady(ws, ls, base, i - 1);
      RunKeepsLock(ws, ls, base, i - 1);
      assert Undisturbed(w, l);
      if !Mid(w) { OutsidePreparation(w, l); }
      else if l.pid == w.lock.holder { HolderWhileMid(w, l); }
      else { OtherWhileMid(w, l); }
    }
  }

  /** Every process cloning finds an existing, stopped base. */
  ghost predicate ClonesFindStopped(w: World) {
    forall pid :: pid in w.procs && w.procs[pid].Cloning? ==> Stopped_(w.base)
  }

  ghost predicate AlwaysFindStopped(base: Base) {
    forall ws, ls, i :: IsRun(ws, ls, base) && PreparationsComplete(ws, ls) && 0 <= i < |ws| ==> ClonesFindStopped(ws[i])
  }

  /** One launch on its own, from evaluating to cloning. */
  function LoneClone(base: Base): (seq<World>, seq<Label>) {
    ([World(base, Free, map[]), World(base, Free, map[0 := Evaluate]), World(base, Free, map[0 := WantShared]),
      World(base, Shared({0}), map[0 := MayClone]), World(base, Shared({0}), map[0 := Cloning])],
     [Launch(0), Go(0), Go(0), Go(0)])
  }

  lemma LoneCloneIsRun(base: Base)
    requires StrategyFor(base).Clone?
    ensures var (ws, ls) := LoneClone(base); IsRun(ws, ls, base) && PreparationsComplete(ws, ls)
  {
    var (ws, ls) := LoneClone(base);
    assert map[][0 := Evaluate] == map[0 := Evaluate];
    assert map[0 := Evaluate][0 := WantShared] == map[0 := WantShared];
    assert {} + {0} == {0} && Locked(Free, 0, ForClone) == Shared({0});
    assert map[0 := WantShared][0 := MayClone] == map[0 := MayClone];
    assert map[0 := MayClone][0 := Cloning] == map[0 := Cloning];
    assert ws[1] == Next(ws[0], ls[0]) && ws[2] == Next(ws[1], ls[1]);
    assert ws[3] == Next(ws[2], ls[2]) && ws[4] == Next(ws[3], ls[3]);
  }

  /**
   * If every preparation completes and nobody else changes the base, then every clone in every run finds
   * an existing stopped base, exactly when the run does not start from a base whose status is neither
   * running nor stopped and whose configuration is not deprecated: that one is cloned as it is.
   */
  lemma ClonesFindAStoppedBaseIff(base: Base)
    ensures AlwaysFindStopped(base) <==> Usable(base)
  {
    if Usable(base) {
      forall ws, ls, i | IsRun(ws, ls, base) && PreparationsComplete(ws, ls) && 0 <= i < |ws|
        ensures ClonesFindStopped(ws[i])
      {
        RunKeepsReady(ws, ls, base, i);
        RunKeepsLock(ws, ls, base, i);
      }
    } else {
      var (ws, ls) := LoneClone(base);
      LoneCloneIsRun(base);
      assert ws[4].procs[0].Cloning? && !ClonesFindStopped(ws[4]);
    }
  }

  // ---- No deprecated base is cloned ----

  predicate Deprecated(base: Base) {
    base.Some? && base.value.deprecated
  }

  /** Failing steps and outside changes may leave anything, except a newly deprecated configuration. */
  predicate NothingDeprecates(ws: seq<World>, ls: seq<Label>)
    requires |ws| == |ls| + 1
  {
    forall i :: 0 <= i < |ls| ==> KeepsConfiguration(ws[i], ls[i])
  }

  predicate KeepsConfiguration(w: World, l: Label) {
    l.Fail? || l.Outside? ==> Deprecated(l.base) ==> Deprecated(w.base)
  }

  /** Who will clone was told so of a base that is not deprecated; who prepares one that is will delete it. */
  ghost predicate ClonesNothingDeprecated(w: World) {
    Deprecated(w.base) ==> forall pid :: pid in w.procs ==>
      !WillClone(w.procs[pid]) && (w.procs[pid].Preparing? ==> Delete in w.procs[pid].rest)
  }

  lemma StepNeverDeprecates(step: Step, base: Base)
    requires Apply(step, base).Some?
    ensures Deprecated(Apply(step, base).value) ==> Deprecated(base) && step != Delete
  {
  }

  lemma NextClonesNothingDeprecated(w: World, l: Label)
    requires Enabled(w, l) && ClonesNothingDeprecated(w) && KeepsConfiguration(w, l)
    ensures ClonesNothingDeprecated(Next(w, l))
  {
    if l.Go? {
      match w.procs[l.pid]
      case Preparing(why, rest) =>
        if rest != [] {
          StepNeverDeprecates(rest[0], w.base);
          assert Delete in rest && rest[0] != Delete ==> Delete in rest[1..] by {
            if Delete in rest && rest[0] != Delete {
              var k :| 0 <= k < |rest| && rest[k] == Delete;
              assert rest[1..][k - 1] == Delete;
            }
          }
        }
      case ListBase(why, rebuild) => ReportStepsAre(w.base, rebuild);
      case Evaluate => StrategyIs(w.base, None);
      case Recheck => StrategyIs(w.base, None);
      case _ =>
    }
  }

  lemma {:induction false} RunClonesNothingDeprecated(ws: seq<World>, ls: seq<Label>, base: Base, i: nat)
    requires IsRun(ws, ls, base) && NothingDeprecates(ws, ls) && i < |ws|
    ensures ClonesNothingDeprecated(ws[i])
  {
    if i > 0 {
      RunClonesNothingDeprecated(ws, ls, base, i - 1);
      NextClonesNothingDeprecated(ws[i - 1], ls[i - 1]);
    }
  }

  /**
   * Whatever base a run starts from, whoever dies and whichever steps fail: unless a failing step or an
   * outside change itself makes the base's configuration deprecated, nobody ever clones a deprecated base.
   */
  lemma DeprecatedBasesAreNeverCloned(ws: seq<World>, ls: seq<Label>, base: Base, i: nat, pid: Pid)
    requires IsRun(ws, ls, base) && NothingDeprecates(ws, ls) && i < |ws|
    requires pid in ws[i].procs && ws[i].procs[pid].Cloning?
    ensures ws[i].base.Some? ==> !ws[i].base.value.deprecated
  {
    RunClonesNothingDeprecated(ws, ls, base, i);
  }

  // ---- Completion is needed ----

  /** Plays labels one after another; `None` when one is not enabled. */
  function Play(w: World, ls: seq<Label>): Option<World>
    decreases |ls|
  {
    if ls == [] then Some(w) else if Enabled(w, ls[0]) then Play(Next(w, ls[0]), ls[1..]) else None
  }

  lemma PlayOne(w: World, l: Label, rest: seq<Label>)
    requires Enabled(w, l)
    ensures Play(w, [l] + rest) == Play(Next(w, l), rest)
  {
    assert ([l] + rest)[1..] == rest;
  }

  /** The first launch creates the missing base, and a second one is told that it may clone it. */
  lemma SecondLaunchIsTold() returns (rest: seq<Step>)
    ensures Play(World(None, Free, map[]), [Launch(0), Go(0), Go(0)] + [Go(0), Go(0), Go(0), Launch(1), Go(1)]) ==
      Some(Told([Start] + rest))
  {
    InsertInCreate();
    rest := [Probe, WriteStamp, Stop, Protect];
    assert [Start] + rest == [Start, Probe, WriteStamp, Stop, Protect];
    FirstLaunchLocks([Go(0), Go(0), Go(0), Launch(1), Go(1)]);
    FirstLaunchPrepares([Start] + rest, [Go(0), Launch(1), Go(1)]);
    SecondLaunchArrives([Start] + rest);
  }

  function Told(rest: seq<Step>): World {
    World(Some(Vm(Stopped, false, false, Missing)), Exclusive(0), map[0 := Preparing(Automatic, rest), 1 := WantShared])
  }

  function Creating(rest: seq<Step>): World {
    World(None, Exclusive(0), map[0 := Preparing(Automatic, [Create] + rest)])
  }

  lemma FirstLaunchPrepares(steps: seq<Step>, rest: seq<Label>)
    requires ReportSteps(None, false) == [Create] + steps
    ensures Play(World(None, Exclusive(0), map[0 := Recheck]), [Go(0), Go(0)] + rest) == Play(Creating(steps), rest)
  {
    var w3 := World(None, Exclusive(0), map[0 := Recheck]);
    var w4 := Next(w3, Go(0));
    PlayOne(w3, Go(0), [Go(0)] + rest);
    PlayOne(w4, Go(0), rest);
    assert [Go(0), Go(0)] + rest == [Go(0)] + ([Go(0)] + rest);
    assert w4.procs[0] == ListBase(Automatic, false);
    assert Next(w4, Go(0)) == Creating(steps);
  }

  lemma FirstLaunchLocks(rest: seq<Label>)
    ensures Play(World(None, Free, map[]), [Launch(0), Go(0), Go(0)] + rest) ==
      Play(World(None, Exclusive(0), map[0 := Recheck]), rest)
  {
    var w0 := World(None, Free, map[]);
    PlayOne(w0, Launch(0), [Go(0), Go(0)] + rest);
    PlayOne(Next(w0, Launch(0)), Go(0), [Go(0)] + rest);
    PlayOne(Next(Next(w0, Launch(0)), Go(0)), Go(0), rest);
    assert [Launch(0), Go(0), Go(0)] + rest == [Launch(0)] + ([Go(0), Go(0)] + rest);
    assert [Go(0), Go(0)] + rest == [Go(0)] + ([Go(0)] + rest);
    assert Next(Next(Next(w0, Launch(0)), Go(0)), Go(0)) == World(None, Exclusive(0), map[0 := Recheck]);
  }

  lemma SecondLaunchArrives(steps: seq<Step>)
    ensures Play(Creating(steps), [Go(0), Launch(1), Go(1)]) == Some(Told(steps))
  {
    assert ([Create] + steps)[1..] == steps;
    var w6 := Next(Creating(steps), Go(0));
    var w7 := Next(w6, Launch(1));
    PlayOne(Creating(steps), Go(0), [Launch(1), Go(1)]);
    PlayOne(w6, Launch(1), [Go(1)]);
    PlayOne(w7, Go(1), []);
    assert Next(w7, Go(1)).procs == Told(steps).procs;
  }

  lemma PreparationDies(rest: seq<Step>, more: seq<Label>)
    ensures Play(Told([Start] + rest), [Go(0), Crash(0)] + more) == Play(Died(), more)
  {
    var told := Told([Start] + rest);
    var started := Next(told, Go(0));
    assert ([Start] + rest)[1..] == rest;
    PlayOne(told, Go(0), [Crash(0)] + more);
    PlayOne(started, Crash(0), more);
    assert [Go(0), Crash(0)] + more == [Go(0)] + ([Crash(0)] + more);
    assert Next(started, Crash(0)) == Died();
  }

  function Died(): World {
    World(Some(Vm(Running, false, false, Missing)), Free, map[0 := Finished, 1 := WantShared])
  }

  lemma SecondLaunchClones() returns (w: World)
    ensures Play(Died(), [Go(1), Go(1)]) == Some(w)
    ensures 1 in w.procs && w.procs[1] == Cloning && w.base == Died().base
  {
    var locked := Next(Died(), Go(1));
    assert locked.procs[1] == MayClone;
    w := Next(locked, Go(1));
    PlayOne(Died(), Go(1), [Go(1)]);
    PlayOne(locked, Go(1), []);
  }

  lemma {:induction false} PlayAppend(w: World, a: seq<Label>, b: seq<Label>)
    requires Play(w, a).Some?
    ensures Play(w, a + b) == Play(Play(w, a).value, b)
    decreases |a|
  {
    if a == [] {
      assert a + b == b;
    } else {
      assert (a + b)[0] == a[0] && (a + b)[1..] == a[1..] + b;
      PlayAppend(Next(w, a[0]), a[1..], b);
    }
  }

  // ---- Undisturbed ----

  /** This process takes so many steps. */
  function Steps(pid: Pid, n: nat): seq<Label> {
    if n == 0 then [] else [Go(pid)] + Steps(pid, n - 1)
  }

  lemma StepOnce(w: World, pid: Pid, n: nat)
    requires Enabled(w, Go(pid))
    ensures Play(w, Steps(pid, n + 1)) == Play(Advance(w, pid), Steps(pid, n))
  {
    PlayOne(w, Go(pid), Steps(pid, n));
  }

  /** The steps left of a preparation, one after another. */
  lemma {:induction false} StepsPrepare(w: World, pid: Pid, why: Why, rest: seq<Step>, n: nat)
    requires pid in w.procs && w.procs[pid] == Preparing(why, rest) && RunSteps(rest, w.base).Some?
    ensures Play(w, Steps(pid, |rest| + n)) ==
      Play(World(RunSteps(rest, w.base).value, w.lock, w.procs[pid := Preparing(why, [])]), Steps(pid, n))
    decreases |rest|
  {
    if rest == [] {
      assert w == World(w.base, w.lock, w.procs[pid := Preparing(why, [])]);
    } else {
      var next := Advance(w, pid);
      StepOnce(w, pid, |rest| - 1 + n);
      StepsPrepare(next, pid, why, rest[1..], n);
      assert next.procs[pid := Preparing(why, [])] == w.procs[pid := Preparing(why, [])];
    }
  }

  lemma PreparationEnds(base: Base, procs: map<Pid, Pc>, pid: Pid, why: Why, n: nat)
    ensures Play(World(base, Exclusive(pid), procs[pid := Preparing(why, [])]), Steps(pid, n + 1)) ==
      Play(World(base, Free, procs[pid := if why == Automatic then WantShared else Finished]), Steps(pid, n))
  {
    StepOnce(World(base, Exclusive(pid), procs[pid := Preparing(why, [])]), pid, n);
    Overwrites(procs, pid, Preparing(why, []), if why == Automatic then WantShared else Finished);
  }

  /** From looking at the base under the exclusive lock to dropping that lock again. */
  lemma PreparesFrom(w: World, pid: Pid, why: Why, rebuild: bool, n: nat)
    requires pid in w.procs && w.procs[pid] == ListBase(why, rebuild) && w.lock == Exclusive(pid)
    ensures Play(w, Steps(pid, |ReportSteps(w.base, rebuild)| + 2 + n)) ==
      Play(World(PREPARED, Free, w.procs[pid := if why == Automatic then WantShared else Finished]), Steps(pid, n))
  {
    hide ReportSteps, RunSteps, Play;
    var steps := ReportSteps(w.base, rebuild);
    PreparationCompletes(w.base, rebuild);
    StepOnce(w, pid, |steps| + (1 + n));
    StepsPrepare(Advance(w, pid), pid, why, steps, 1 + n);
    Overwrites(w.procs, pid, Preparing(why, steps), Preparing(why, []));
    PreparationEnds(PREPARED, w.procs, pid, why, n);
  }

  /** With the lock free and nobody else at work, `base prepare` ends with a prepared base and the lock free. */
  lemma AskedPreparationCompletes(w: World, pid: Pid, rebuild: bool)
    requires Idle(w, pid) && w.lock.Free?
    ensures Play(w, [AskPrepare(pid, rebuild)] + Steps(pid, |ReportSteps(w.base, rebuild)| + 3)) ==
      Some(World(PREPARED, Free, w.procs[pid := Finished]))
  {
    hide ReportSteps, RunSteps;
    var n := |ReportSteps(w.base, rebuild)| + 2;
    var asked := Next(w, AskPrepare(pid, rebuild));
    PlayOne(w, AskPrepare(pid, rebuild), Steps(pid, n + 1));
    StepOnce(asked, pid, n);
    PreparesFrom(Advance(asked, pid), pid, Asked, rebuild, 0);
    assert Advance(asked, pid).procs[pid := Finished] == w.procs[pid := Finished];
  }

  /** From wanting the shared lock to cloning, and to the end of the clone. */
  lemma ClonesFrom(w: World, pid: Pid)
    requires pid in w.procs && w.procs[pid].WantShared? && w.lock.Free?
    ensures Play(w, Steps(pid, 2)) == Some(World(w.base, Shared({pid}), w.procs[pid := Cloning]))
    ensures Play(World(w.base, Shared({pid}), w.procs[pid := Cloning]), Steps(pid, 1)) ==
      Some(World(w.base, Free, w.procs[pid := Finished]))
  {
    StepOnce(w, pid, 1);
    assert Locked(Free, pid, ForClone) == Shared({pid});
    var locked := Advance(w, pid);
    StepOnce(locked, pid, 0);
    assert locked.procs[pid := Cloning] == w.procs[pid := Cloning];
    var cloning := World(w.base, Shared({pid}), w.procs[pid := Cloning]);
    StepOnce(cloning, pid, 0);
    assert cloning.procs[pid := Finished] == w.procs[pid := Finished];
  }

  /** How many steps an undisturbed launch takes before it clones. */
  function StepsToClone(base: Base): nat {
    match StrategyFor(base)
    case Blocked => 0
    case Clone(_) => 3
    case Prepare(rebuild) => |ReportSteps(base, rebuild)| + 7
  }

  /**
   * With the lock free and nobody else at work, a launch ends at once on a running base; and otherwise it
   * comes to clone, holding the shared lock: a prepared base if there was none or a deprecated one, and the
   * base as it is if not. Then it drops the lock.
   */
  lemma UndisturbedLaunchClones(w: World, pid: Pid)
    requires Idle(w, pid) && w.lock.Free?
    ensures w.base.Some? && w.base.value.status == Running ==>
      Play(w, [Launch(pid)] + Steps(pid, 1)) == Some(w.(procs := w.procs[pid := Finished]))
    ensures !(w.base.Some? && w.base.value.status == Running) ==>
      var found := if w.base.None? || w.base.value.deprecated then PREPARED else w.base;
      && Play(w, [Launch(pid)] + Steps(pid, StepsToClone(w.base))) ==
           Some(World(found, Shared({pid}), w.procs[pid := Cloning]))
      && Play(World(found, Shared({pid}), w.procs[pid := Cloning]), Steps(pid, 1)) ==
           Some(World(found, Free, w.procs[pid := Finished]))
  {
    hide ReportSteps, RunSteps;
    var launched := Next(w, Launch(pid));
    match StrategyFor(w.base)
    case Blocked =>
      PlayOne(w, Launch(pid), Steps(pid, 1));
      StepOnce(launched, pid, 0);
      assert launched.procs[pid := Finished] == w.procs[pid := Finished];
    case Clone(_) =>
      PlayOne(w, Launch(pid), Steps(pid, 3));
      StepOnce(launched, pid, 2);
      Overwrites(w.procs, pid, Evaluate, WantShared);
      ClonesAfter(w.base, w.procs, pid);
    case Prepare(rebuild) =>
      PlayOne(w, Launch(pid), Steps(pid, StepsToClone(w.base)));
      PreparesThenClones(w, pid, rebuild);
  }

  lemma Overwrites(procs: map<Pid, Pc>, pid: Pid, a: Pc, b: Pc)
    ensures procs[pid := a][pid := b] == procs[pid := b]
  {
  }

  lemma ClonesAfter(base: Base, procs: map<Pid, Pc>, pid: Pid)
    ensures Play(World(base, Free, procs[pid := WantShared]), Steps(pid, 2)) ==
      Some(World(base, Shared({pid}), procs[pid := Cloning]))
    ensures Play(World(base, Shared({pid}), procs[pid := Cloning]), Steps(pid, 1)) ==
      Some(World(base, Free, procs[pid := Finished]))
  {
    ClonesFrom(World(base, Free, procs[pid := WantShared]), pid);
    Overwrites(procs, pid, WantShared, Cloning);
    Overwrites(procs, pid, WantShared, Finished);
  }

  lemma PreparesThenClones(w: World, pid: Pid, rebuild: bool)
    requires w.lock.Free? && StrategyFor(w.base) == Prepare(rebuild)
    ensures Play(At(w, pid, Evaluate), Steps(pid, |ReportSteps(w.base, rebuild)| + 7)) ==
      Some(World(PREPARED, Shared({pid}), w.procs[pid := Cloning]))
    ensures Play(World(PREPARED, Shared({pid}), w.procs[pid := Cloning]), Steps(pid, 1)) ==
      Some(World(PREPARED, Free, w.procs[pid := Finished]))
  {
    hide ReportSteps, RunSteps, StrategyFor;
    var n := |ReportSteps(w.base, rebuild)|;
    StepOnce(At(w, pid, Evaluate), pid, n + 6);
    Overwrites(w.procs, pid, Evaluate, WantExclusive(Automatic, rebuild));
    StepOnce(At(w, pid, WantExclusive(Automatic, rebuild)), pid, n + 5);
    Overwrites(w.procs, pid, WantExclusive(Automatic, rebuild), Recheck);
    StepOnce(World(w.base, Exclusive(pid), w.procs[pid := Recheck]), pid, n + 4);
    Overwrites(w.procs, pid, Recheck, ListBase(Automatic, rebuild));
    PreparesFrom(World(w.base, Exclusive(pid), w.procs[pid := ListBase(Automatic, rebuild)]), pid, Automatic, rebuild, 2);
    Overwrites(w.procs, pid, ListBase(Automatic, rebuild), WantShared);
    ClonesAfter(PREPARED, w.procs, pid);
  }

  /**
   * A launch may read the base as stopped while another process prepares it; if that preparation then
   * dies after starting the VM, the launch locks and clones a running base.
   */
  lemma CrashedPreparationIsCloned() returns (before: seq<Label>, w: World)
    ensures Play(World(None, Free, map[]), before + ([Go(0), Crash(0)] + [Go(1), Go(1)])) == Some(w)
    ensures !ClonesFindStopped(w)
  {
    before := [Launch(0), Go(0), Go(0)] + [Go(0), Go(0), Go(0), Launch(1), Go(1)];
    var rest := SecondLaunchIsTold();
    PreparationDies(rest, [Go(1), Go(1)]);
    w := SecondLaunchClones();
    PlayAppend(World(None, Free, map[]), before, [Go(0), Crash(0)] + [Go(1), Go(1)]);
  }

  // ---- The method ----

  datatype Refusal = BaseIsRunning | BaseIsBusy | StepFailed | NoticeFailed

  /** What a session is told about the base it is to clone. */
  datatype Notice = AutoRebuild | AutoPrepare | Warn(warning: Warning)

  predicate Belongs(l: Label, pid: Pid) {
    !l.Outside? && l.pid == pid
  }

  /** This process decides, on the base as it is, to clone or prepare it, with that notice. */
  ghost predicate Decides(w: World, pid: Pid, notice: Option<Notice>) {
    && pid in w.procs
    && match notice
       case Some(AutoPrepare) => w.procs[pid].Recheck? && w.base.None?
       case Some(AutoRebuild) => w.procs[pid].Recheck? && Deprecated(w.base) && w.base.value.status != Running
       case Some(Warn(warning)) =>
         (w.procs[pid].Evaluate? || w.procs[pid].Recheck?) && MayBeCloned(w.base) && IsWarning(w.base.value, Some(warning))
       case None => (w.procs[pid].Evaluate? || w.procs[pid].Recheck?) && MayBeCloned(w.base) && IsWarning(w.base.value, None)
  }

  /** It decides on a running base. */
  ghost predicate FindsRunning(w: World, pid: Pid) {
    pid in w.procs && (w.procs[pid].Evaluate? || w.procs[pid].Recheck?) && w.base.Some? && w.base.value.status == Running
  }

  /** It asks for a lock that is taken: exclusively, or in any way when it wants it exclusively. */
  ghost predicate FindsLocked(w: World, pid: Pid) {
    && pid in w.procs
    && ((w.procs[pid].WantShared? && w.lock.Exclusive?) || (w.procs[pid].WantExclusive? && w.lock != Free))
  }

  /** Its next preparation step does not work, or is refused in the base's state. */
  ghost predicate StepFails(w: World, pid: Pid, works: nat -> bool) {
    && pid in w.procs && w.procs[pid].Preparing? && w.procs[pid].rest != []
    && (!works(|w.procs[pid].rest|) || Apply(w.procs[pid].rest[0], w.base).None?)
  }

  /** A moment of a call, from when it begins. */
  ghost predicate Within(ws: seq<World>, before: nat, k: nat) {
    before <= k + 1 && k < |ws|
  }

  /** Some moment of a call gives the reason it fails for; a failing notice is told of separately. */
  ghost predicate Explains(ws: seq<World>, before: nat, pid: Pid, why: Refusal, works: nat -> bool) {
    match why
    case BaseIsRunning => exists k: nat :: Within(ws, before, k) && FindsRunning(ws[k], pid)
    case BaseIsBusy => exists k: nat :: Within(ws, before, k) && FindsLocked(ws[k], pid)
    case StepFailed => exists k: nat :: Within(ws, before, k) && StepFails(ws[k], pid, works)
    case NoticeFailed => true
  }

  /** At some moment of a call it decides, with that notice. */
  ghost predicate HasDecided(ws: seq<World>, before: nat, pid: Pid, notice: Option<Notice>) {
    exists k: nat :: Within(ws, before, k) && Decides(ws[k], pid, notice)
  }

  ghost predicate HasFoundLocked(ws: seq<World>, before: nat, pid: Pid) {
    exists k: nat :: Within(ws, before, k) && FindsLocked(ws[k], pid)
  }

  lemma ExplainsBefore(ws: seq<World>, middle: nat, before: nat, pid: Pid, why: Refusal, works: nat -> bool)
    requires Explains(ws, middle, pid, why, works) && before <= middle
    ensures Explains(ws, before, pid, why, works)
  {
  }

  lemma LockedExplains(ws: seq<World>, middle: nat, before: nat, pid: Pid, works: nat -> bool)
    requires HasFoundLocked(ws, middle, pid) && before <= middle
    ensures Explains(ws, before, pid, BaseIsBusy, works)
  {
  }

  lemma NoticeExplains(ws: seq<World>, before: nat, pid: Pid, works: nat -> bool)
    ensures Explains(ws, before, pid, NoticeFailed, works)
  {
  }

  lemma DecidedBefore(
      early: seq<World>, late: seq<World>, middle: nat, before: nat, pid: Pid, notice: Option<Notice>)
    requires HasDecided(early, middle, pid, notice) && early <= late && before <= middle
    ensures HasDecided(late, before, pid, notice)
  {
    var k: nat :| Within(early, middle, k) && Decides(early[k], pid, notice);
    assert Within(late, before, k) && late[k] == early[k];
  }

  class Host {
    var world: World
    ghost var start: Base
    ghost var ws: seq<World>
    ghost var ls: seq<Label>

    ghost predicate Valid()
      reads this
    {
      IsRun(ws, ls, start) && ws[|ws| - 1] == world
    }

    /** What has been recorded stays recorded. */
    twostate predicate Longer()
      reads this
    {
      old(ws) <= ws && start == old(start)
    }

    ghost predicate IsAt(pid: Pid, pc: Pc)
      reads this
    {
      Valid() && pid in world.procs && world.procs[pid] == pc
    }

    method Do(l: Label)
      requires Valid() && Enabled(world, l)
      modifies this`world, this`ws, this`ls
      ensures Valid() && world == Next(old(world), l) && Longer() && ws == old(ws) + [world]
    {
      world := Next(world, l);
      ws, ls := ws + [world], ls + [l];
    }

    /** The other processes, and whoever else can touch the base, take any number of steps. */
    method Others(pid: Pid)
      requires Valid() && pid in world.procs
      modifies this`world, this`ws, this`ls
      ensures IsAt(pid, old(world).procs[pid]) && Longer()
    {
      var n :| 0 <= n;
      for i := 0 to n
        invariant IsAt(pid, old(world).procs[pid]) && Longer()
      {
        var l: Label := *;
        if Enabled(world, l) && !Belongs(l, pid) {
          Do(l);
        }
      }
    }

    /** `acquire_base_lock`, not waiting. */
    method LockForClone(pid: Pid) returns (r: Result<(), Refusal>)
      requires IsAt(pid, WantShared)
      modifies this`world, this`ws, this`ls
      ensures IsAt(pid, if r.Ok? then MayClone else Finished) && Longer()
      ensures r.Err? ==> r.error == BaseIsBusy && HasFoundLocked(ws, |old(ws)|, pid)
    {
      Others(pid);
      r := if CanLock(world.lock, ForClone) then Ok(()) else Err(BaseIsBusy);
      ghost var k := |ws| - 1;
      Do(Go(pid));
      assert r.Err? ==> Within(ws, |old(ws)|, k) && FindsLocked(ws[k], pid);
    }

    method LockForPrepare(pid: Pid) returns (r: Result<(), Refusal>)
      requires Valid() && pid in world.procs && world.procs[pid].WantExclusive? && world.procs[pid].why == Automatic
      modifies this`world, this`ws, this`ls
      ensures IsAt(pid, if r.Ok? then Recheck else Finished) && Longer()
      ensures r.Err? ==> r.error == BaseIsBusy && HasFoundLocked(ws, |old(ws)|, pid)
    {
      Others(pid);
      r := if CanLock(world.lock, ForPrepare) then Ok(()) else Err(BaseIsBusy);
      ghost var k := |ws| - 1;
      Do(Go(pid));
      assert r.Err? ==> Within(ws, |old(ws)|, k) && FindsLocked(ws[k], pid);
    }

    /** One step of a preparation: it works, or the command ends. */
    method OneStep(pid: Pid, rest: seq<Step>, works: nat -> bool, left: Base) returns (ok: bool)
      requires IsAt(pid, Preparing(Automatic, rest)) && rest != []
      modifies this`world, this`ws, this`ls
      ensures IsAt(pid, if ok then Preparing(Automatic, rest[1..]) else Finished) && Longer() && |ws| > |old(ws)|
      ensures !ok ==> Explains(ws, |old(ws)|, pid, StepFailed, works)
    {
      hide ReportSteps, Apply, StrategyFor;
      Others(pid);
      ghost var k := |ws| - 1;
      ok := works(|rest|) && Apply(rest[0], world.base).Some?;
      assert !ok ==> StepFails(ws[k], pid, works);
      if ok { Do(Go(pid)); } else { Do(Fail(pid, left)); }
      assert Within(ws, |old(ws)|, k);
    }

    /** `prepare_base`, holding the exclusive lock: each step works or not, by how many are left. */
    method PrepareLocked(pid: Pid, rebuild: bool, works: nat -> bool, left: Base) returns (r: Result<(), Refusal>)
      requires IsAt(pid, ListBase(Automatic, rebuild))
      modifies this`world, this`ws, this`ls
      ensures IsAt(pid, if r.Ok? then Preparing(Automatic, []) else Finished) && Longer() && |ws| > |old(ws)|
      ensures r.Err? ==> r.error == StepFailed && Explains(ws, |old(ws)|, pid, StepFailed, works)
    {
      hide Apply, StrategyFor, IsRun, ReportSteps, StepFails;
      Others(pid);
      var rest := ReportSteps(world.base, rebuild);
      Do(Go(pid));
      while rest != []
        invariant IsAt(pid, Preparing(Automatic, rest)) && Longer() && |ws| > |old(ws)|
        decreases |rest|
      {
        var ok := OneStep(pid, rest, works, left);
        if !ok { return Err(StepFailed); }
        rest := rest[1..];
      }
      r := Ok(());
    }

    /** A notice that cannot be recorded ends the command, dropping its lock. */
    method Notify(pid: Pid, notified: bool) returns (r: Result<(), Refusal>)
      requires Valid() && pid in world.procs
      modifies this`world, this`ws, this`ls
      ensures r == if notified then Ok(()) else Err(NoticeFailed)
      ensures IsAt(pid, if notified then old(world).procs[pid] else Finished) && Longer()
    {
      r := Ok(());
      if !notified {
        Do(Crash(pid));
        r := Err(NoticeFailed);
      }
    }

    /**
     * `acquire_clone_lock_for_prepared_base`: whatever the others do meanwhile, its steps are those of
     * one process of the protocol. It succeeds exactly when it ends holding the shared lock, having decided
     * to clone or prepare the base it found, and having said why; and it fails only because it decided on a
     * running base, found a lock taken, one of its steps did not work, or its notice could not be recorded.
     */
    method AcquireCloneLock(pid: Pid, notified: bool, works: nat -> bool, left: Base)
      returns (r: Result<(), Refusal>, notice: Option<Notice>)
      requires Valid() && Idle(world, pid)
      modifies this`world, this`ws, this`ls
      ensures IsAt(pid, if r.Ok? then MayClone else Finished) && Longer()
      ensures r.Err? ==> Explains(ws, |old(ws)|, pid, r.error, works)
      ensures r == Err(NoticeFailed) <==> notice.Some? && !notified
      ensures r.Ok? || notice.Some? ==> HasDecided(ws, |old(ws)|, pid, notice)
    {
      hide Decides, Explains, HasFoundLocked, HasDecided, Next;
      notice := None;
      Begin(pid);
      ghost var middle := |ws|;
      var strategy := Decide(pid, works);
      ghost var decided := ws;
      match strategy {
        case Blocked =>
          r := Err(BaseIsRunning);
          ExplainsBefore(ws, middle, |old(ws)|, pid, BaseIsRunning, works);
        case Clone(warning) =>
          r, notice := CloneWithNotice(pid, warning, notified);
          DecidedBefore(decided, ws, middle, |old(ws)|, pid, Warned(warning));
          NoticeExplains(ws, |old(ws)|, pid, works);
          if r == Err(BaseIsBusy) { LockedExplains(ws, |decided|, |old(ws)|, pid, works); }
        case Prepare(_) =>
          r := LockForPrepare(pid);
          if r.Ok? {
            middle := |ws|;
            r, notice := DecideAgain(pid, notified, works, left);
            if r.Err? { ExplainsBefore(ws, middle, |old(ws)|, pid, r.error, works); }
            if r.Ok? || notice.Some? { DecidedBefore(ws, ws, middle, |old(ws)|, pid, notice); }
          } else {
            LockedExplains(ws, |decided|, |old(ws)|, pid, works);
          }
      }
    }

    method Begin(pid: Pid)
      requires Valid() && Idle(world, pid)
      modifies this`world, this`ws, this`ls
      ensures IsAt(pid, Evaluate) && Longer()
    {
      Do(Launch(pid));
      Others(pid);
    }

    /** `prepare_strategy`, on the base as it is now. */
    method Decide(pid: Pid, works: nat -> bool) returns (strategy: Strategy)
      requires IsAt(pid, Evaluate) || IsAt(pid, Recheck)
      modifies this`world, this`ws, this`ls
      ensures IsAt(pid, match strategy
        case Blocked => Finished
        case Clone(_) => WantShared
        case Prepare(rebuild) =>
          if old(world).procs[pid].Evaluate? then WantExclusive(Automatic, rebuild) else ListBase(Automatic, rebuild)) && Longer()
      ensures match strategy
        case Blocked => Explains(ws, |old(ws)|, pid, BaseIsRunning, works)
        case Clone(warning) => HasDecided(ws, |old(ws)|, pid, Warned(warning))
        case Prepare(rebuild) =>
          old(world).procs[pid].Recheck? ==> HasDecided(ws, |old(ws)|, pid, Some(if rebuild then AutoRebuild else AutoPrepare))
    {
      hide ReportSteps, Apply;
      strategy := StrategyFor(world.base);
      ghost var k := |ws| - 1;
      Do(Go(pid));
      assert Within(ws, |old(ws)|, k) && ws[k] == old(world);
    }

    /** The decision once more, holding the exclusive lock. */
    method DecideAgain(pid: Pid, notified: bool, works: nat -> bool, left: Base)
      returns (r: Result<(), Refusal>, notice: Option<Notice>)
      requires IsAt(pid, Recheck)
      modifies this`world, this`ws, this`ls
      ensures IsAt(pid, if r.Ok? then MayClone else Finished) && Longer()
      ensures r.Err? ==> Explains(ws, |old(ws)|, pid, r.error, works)
      ensures r == Err(NoticeFailed) <==> notice.Some? && !notified
      ensures r.Ok? || notice.Some? ==> HasDecided(ws, |old(ws)|, pid, notice)
    {
      hide Decides, FindsRunning, FindsLocked, StepFails, HasDecided, Next;
      notice := None;
      Others(pid);
      ghost var middle := |ws|;
      var decision := Decide(pid, works);
      ghost var decided := ws;
      match decision {
        case Blocked => r := Err(BaseIsRunning);
        case Clone(warning) =>
          r, notice := CloneWithNotice(pid, warning, notified);
          DecidedBefore(decided, ws, middle, |old(ws)|, pid, Warned(warning));
        case Prepare(rebuild) =>
          r := PrepareThenLock(pid, rebuild, notified, works, left);
          notice := Some(if rebuild then AutoRebuild else AutoPrepare);
          DecidedBefore(decided, ws, middle, |old(ws)|, pid, notice);
      }
    }

    method CloneWithNotice(pid: Pid, warning: Option<Warning>, notified: bool)
      returns (r: Result<(), Refusal>, notice: Option<Notice>)
      requires IsAt(pid, WantShared)
      modifies this`world, this`ws, this`ls
      ensures IsAt(pid, if r.Ok? then MayClone else Finished) && Longer()
      ensures r == Err(NoticeFailed) <==> notice.Some? && !notified
      ensures r.Ok? || notice.Some? ==> notice == Warned(warning)
      ensures r.Err? && r.error != NoticeFailed ==> r.error == BaseIsBusy && HasFoundLocked(ws, |old(ws)|, pid)
    {
      notice := None;
      r := LockForClone(pid);
      if r.Ok? && warning.Some? {
        notice := Warned(warning);
        r := Notify(pid, notified);
      }
    }

    /** Done with the preparation: drop the exclusive lock, then lock again for cloning. */
    method DropAndLock(pid: Pid) returns (r: Result<(), Refusal>)
      requires IsAt(pid, Preparing(Automatic, []))
      modifies this`world, this`ws, this`ls
      ensures IsAt(pid, if r.Ok? then MayClone else Finished) && Longer()
      ensures r.Err? ==> r.error == BaseIsBusy && HasFoundLocked(ws, |old(ws)|, pid)
    {
      Others(pid);
      Do(Go(pid));
      r := LockForClone(pid);
    }

    /** Prepare, drop the exclusive lock, then lock again for cloning: others may come in between. */
    method PrepareThenLock(pid: Pid, rebuild: bool, notified: bool, works: nat -> bool, left: Base)
      returns (r: Result<(), Refusal>)
      requires IsAt(pid, ListBase(Automatic, rebuild))
      modifies this`world, this`ws, this`ls
      ensures IsAt(pid, if r.Ok? then MayClone else Finished) && Longer()
      ensures r.Err? ==> Explains(ws, |old(ws)|, pid, r.error, works)
      ensures r == Err(NoticeFailed) <==> !notified
      ensures r.Ok? ==> exists k: nat :: |old(ws)| <= k < |ws| && HasPrepared(ws, ls, k, pid)
    {
      r := Notify(pid, notified);
      if r.Err? { return; }
      r := PrepareLocked(pid, rebuild, works, left);
      if r.Err? { return; }
      ghost var k := |ws| - 1;
      r := DropAndLock(pid);
      PreparedOnTheWay(ws, ls, start, k, pid);
    }
  }

  function Warned(warning: Option<Warning>): Option<Notice> {
    match warning case None => None case Some(w) => Some(Warn(w))
  }
}
