/**
 * Many sessions over one catalog and one set of VMs: commands on different sessions interleave freely,
 * commands on one session follow each other, and any of them may fail or die after any write.
 */
module LifecycleRuns {

  import opened Common
  import opened SessionKinds
  import opened Lifecycle

  // ---- Names ----

  type Name = string

  const PREFIX := "agbranch-"

  function VmName(session: Name): string {
    PREFIX + session
  }

  /** The default name of the prepared base, from its platform. */
  function BaseName(platform: string): string {
    PREFIX + (BASE + platform)
  }

  const BASE := "base-"

  predicate Ordinary(session: Name) {
    !(BASE <= session)
  }

  lemma AppendCancels(prefix: string, a: string, b: string)
    requires prefix + a == prefix + b
    ensures a == b
  {
    assert a == (prefix + a)[|prefix|..] && b == (prefix + b)[|prefix|..];
  }

  lemma VmNamesDiffer(s: Name, t: Name)
    requires VmName(s) == VmName(t)
    ensures s == t
  {
    AppendCancels(PREFIX, s, t);
  }

  /** A session shares its VM with a prepared base exactly when it is called `base-` and the platform. */
  lemma SessionVmIsBaseIff(session: Name, platform: string)
    ensures VmName(session) == BaseName(platform) <==> session == BASE + platform
    ensures Ordinary(session) ==> VmName(session) != BaseName(platform)
  {
    if VmName(session) == BaseName(platform) {
      AppendCancels(PREFIX, session, BASE + platform);
    }
  }

  // ---- Slots ----

  datatype Slot = SlotFree | SessionExists | VmReserved(owner: Name)

  /** `ensure_runtime_session_slot_available`, over the VM name each row carries. */
  ghost predicate IsSlot(rows: map<Name, string>, session: Name, vm: string, slot: Slot) {
    match slot
    case SessionExists => session in rows
    case VmReserved(owner) => session !in rows && owner in rows && rows[owner] == vm
    case SlotFree => session !in rows && forall t :: t in rows ==> rows[t] != vm
  }

  /** When every row carries its own session's VM name, a slot is free exactly when the name is unused. */
  lemma SlotIsFreeIff(rows: map<Name, string>, session: Name, slot: Slot)
    requires forall t :: t in rows ==> rows[t] == VmName(t)
    requires IsSlot(rows, session, VmName(session), slot)
    ensures slot.SlotFree? <==> session !in rows
    ensures !slot.VmReserved?
  {
    match slot
    case VmReserved(owner) => VmNamesDiffer(owner, session);
    case _ =>
  }

  // ---- The world ----

  /** What a running command still has to write, and whether a failure takes its launch back. */
  datatype Job = Job(ops: seq<Op>, undo: bool)

  datatype World = World(rows: map<Name, Row>, vms: map<string, Vm>, retries: set<Name>, jobs: map<Name, Job>)

  function ViewOf(w: World, s: Name): View {
    View(if s in w.rows then Some(w.rows[s]) else None,
         if VmName(s) in w.vms then Some(w.vms[VmName(s)]) else None,
         s in w.retries)
  }

  function WithView(w: World, s: Name, v: View): World {
    World(if v.row.Some? then w.rows[s := v.row.value] else w.rows - {s},
          if v.vm.Some? then w.vms[VmName(s) := v.vm.value] else w.vms - {VmName(s)},
          if v.retry then w.retries + {s} else w.retries - {s},
          w.jobs)
  }

  lemma WithViewHas(w: World, s: Name, v: View)
    ensures ViewOf(WithView(w, s, v), s) == v
  {
  }

  lemma WithViewElsewhere(w: World, s: Name, v: View, t: Name)
    requires s != t
    ensures ViewOf(WithView(w, s, v), t) == ViewOf(w, t)
  {
    if VmName(s) == VmName(t) { VmNamesDiffer(s, t); }
  }

  datatype Label =
    | Begin(session: Name, command: Command, now: Time)
    | Step(session: Name)
    | End(session: Name)
    | Fail(session: Name, left: View)
    | Crash(session: Name, left: View)
    | GuestCommits(session: Name)
    | BaseChanges(platform: string, vm: Option<Vm>)

  predicate HasNext(w: World, s: Name) {
    s in w.jobs && w.jobs[s].ops != []
  }

  predicate Allowed(w: World, l: Label) {
    match l
    case Begin(s, _, _) => s !in w.jobs
    case Step(s) => HasNext(w, s) && Enabled(ViewOf(w, s), w.jobs[s].ops[0])
    case End(s) => s in w.jobs && w.jobs[s].ops == []
    case Fail(s, left) => HasNext(w, s) && Half(ViewOf(w, s), w.jobs[s].ops[0], left)
    case Crash(s, left) => HasNext(w, s) && Half(ViewOf(w, s), w.jobs[s].ops[0], left)
    case GuestCommits(s) => VmName(s) in w.vms && w.vms[VmName(s)].up
    case BaseChanges(_, _) => true
  }

  /** A launch is taken back; a sandbox launch deletes its VM even when its row could not be deleted. */
  function AfterFailure(w: World, s: Name): map<Name, Job>
    requires HasNext(w, s)
  {
    if w.jobs[s].undo then w.jobs[s := Job(ROLLBACK, false)]
    else if w.jobs[s].ops[0] == Remove && s in w.rows && w.rows[s].mode == Sandbox then w.jobs[s := Job(ROLLBACK[1..], false)]
    else w.jobs - {s}
  }

  function Next(w: World, l: Label): World
    requires Allowed(w, l)
  {
    match l
    case Begin(s, c, now) =>
      w.(jobs := w.jobs[s := Job(Program(ViewOf(w, s), c, now), c.Launch? && s !in w.rows)])
    case Step(s) =>
      var job := w.jobs[s];
      WithView(w, s, Apply(ViewOf(w, s), job.ops[0])).(
        jobs := w.jobs[s := Job(job.ops[1..], job.undo && job.ops[0] != Checkpoint)])
    case End(s) => w.(jobs := w.jobs - {s})
    case Fail(s, left) =>
      WithView(w, s, left).(jobs := AfterFailure(w, s))
    case Crash(s, left) => WithView(w, s, left).(jobs := w.jobs - {s})
    case GuestCommits(s) => w.(vms := w.vms[VmName(s) := w.vms[VmName(s)].(saved := false)])
    case BaseChanges(platform, vm) =>
      w.(vms := if vm.Some? then w.vms[BaseName(platform) := vm.value] else w.vms - {BaseName(platform)})
  }

  ghost predicate IsRun(ws: seq<World>, ls: seq<Label>) {
    && |ws| == |ls| + 1 && ws[0].rows == map[] && ws[0].jobs == map[] && ws[0].retries == {}
    && forall i :: 0 <= i < |ls| ==> Allowed(ws[i], ls[i]) && ws[i + 1] == Next(ws[i], ls[i])
  }

  // ---- What always holds ----

  /** A launch that has not stored its checkpoint. */
  ghost predicate Undoable(v: View, ops: seq<Op>) {
    exists mode, now ::
      (v.row.None? && ops == LaunchOps(mode, now)) ||
      (v.row.Some? && v.row.value.state == Cloning &&
        (ops == LaunchOps(mode, now)[1..] || ops == LaunchOps(mode, now)[2..]))
  }

  ghost predicate JobIsSafe(v: View, job: Job) {
    Safe(v, job.ops) && (job.undo ==> Undoable(v, job.ops))
  }

  ghost predicate Fine(w: World, s: Name) {
    Good(ViewOf(w, s)) && (s in w.jobs ==> JobIsSafe(ViewOf(w, s), w.jobs[s]))
  }

  lemma BeginIsFine(w: World, s: Name, c: Command, now: Time)
    requires Fine(w, s) && s !in w.jobs
    ensures Fine(Next(w, Begin(s, c, now)), s)
  {
    CommandIsSafe(ViewOf(w, s), c, now);
    if c.Launch? && s !in w.rows { assert Program(ViewOf(w, s), c, now) == LaunchOps(c.mode, now); }
    assert ViewOf(Next(w, Begin(s, c, now)), s) == ViewOf(w, s);
  }

  lemma StepUndoable(v: View, ops: seq<Op>)
    requires Undoable(v, ops) && Enabled(v, ops[0]) && ops[0] != Checkpoint
    ensures Undoable(Apply(v, ops[0]), ops[1..])
  {
    var mode, now :|
      (v.row.None? && ops == LaunchOps(mode, now)) ||
      (v.row.Some? && v.row.value.state == Cloning &&
        (ops == LaunchOps(mode, now)[1..] || ops == LaunchOps(mode, now)[2..]));
    assert LaunchOps(mode, now)[1..][1..] == LaunchOps(mode, now)[2..];
    assert LaunchOps(mode, now)[2..][0] == Checkpoint;
  }

  lemma StepIsFine(w: World, s: Name)
    requires Fine(w, s) && Allowed(w, Step(s))
    ensures Fine(Next(w, Step(s)), s)
    ensures Keeps(ViewOf(w, s), ViewOf(Next(w, Step(s)), s))
  {
    var v, job := ViewOf(w, s), w.jobs[s];
    var v' := Apply(v, job.ops[0]);
    assert Half(v, job.ops[0], v');
    WithViewHas(w, s, v');
    assert ViewOf(Next(w, Step(s)), s) == ViewOf(WithView(w, s, v'), s);
    if job.undo && job.ops[0] != Checkpoint { StepUndoable(v, job.ops); }
  }

  lemma HalfOfUndoableIsNotGone(v: View, ops: seq<Op>, v': View)
    requires Undoable(v, ops) && Half(v, ops[0], v')
    ensures !Gone(v')
  {
    var mode, now :|
      (v.row.None? && ops == LaunchOps(mode, now)) ||
      (v.row.Some? && v.row.value.state == Cloning &&
        (ops == LaunchOps(mode, now)[1..] || ops == LaunchOps(mode, now)[2..]));
    assert ops[0] in [Insert(mode), CloneVm, Checkpoint];
  }

  lemma StopIsFine(w: World, l: Label)
    requires (l.Fail? || l.Crash?) && Fine(w, l.session) && Allowed(w, l)
    ensures Fine(Next(w, l), l.session)
    ensures Keeps(ViewOf(w, l.session), ViewOf(Next(w, l), l.session))
  {
    var v, job := ViewOf(w, l.session), w.jobs[l.session];
    assert Keeps(v, l.left);
    WithViewHas(w, l.session, l.left);
    assert ViewOf(Next(w, l), l.session) == ViewOf(WithView(w, l.session, l.left), l.session);
    if l.Fail? && job.undo {
      HalfOfUndoableIsNotGone(v, job.ops, l.left);
    }
  }

  /** The same, but for whether the guest's work is saved. */
  predicate SameButSaved(v: View, v': View) {
    v.row == v'.row && v.retry == v'.retry &&
    match (v.vm, v'.vm)
    case (None, None) => true
    case (Some(vm), Some(vm')) => vm.up == vm'.up
    case _ => false
  }

  /** What a guest commits makes no difference to what its session's commands may do. */
  lemma {:induction false} SafeIgnoresSaving(v: View, v': View, ops: seq<Op>)
    requires Safe(v, ops) && SameButSaved(v, v')
    ensures Safe(v', ops)
    decreases |ops|
  {
    if ops != [] {
      forall h' | Half(v', ops[0], h') ensures Keeps(v', h') {
        SavingIsIgnored(v, v', ops[0], h');
      }
      if Enabled(v', ops[0]) {
        SafeIgnoresSaving(Apply(v, ops[0]), Apply(v', ops[0]), ops[1..]);
      }
    }
  }

  lemma SavingIsIgnored(v: View, v': View, op: Op, h': View)
    requires Good(v) && HalvesKeep(v, op) && SameButSaved(v, v') && Half(v', op, h')
    ensures Keeps(v', h')
  {
    var h := if h' == v' then v
             else if Enabled(v', op) && h' == Apply(v', op) then Apply(v, op)
             else v.(vm := Some(v.vm.value.(up := h'.vm.value.up)));
    assert Half(v, op, h) && SameButSaved(h, h');
  }

  lemma GuestCommitsIsFine(w: World, s: Name, t: Name)
    requires Fine(w, t) && Allowed(w, GuestCommits(s))
    ensures Fine(Next(w, GuestCommits(s)), t)
    ensures Keeps(ViewOf(w, t), ViewOf(Next(w, GuestCommits(s)), t))
  {
    var w' := Next(w, GuestCommits(s));
    if s == t {
      var v, v' := ViewOf(w, t), ViewOf(w', t);
      if t in w.jobs { SafeIgnoresSaving(v, v', w.jobs[t].ops); }
    } else {
      if VmName(s) == VmName(t) { VmNamesDiffer(s, t); }
      assert ViewOf(w', t) == ViewOf(w, t);
    }
  }

  lemma BaseChangesIsFine(w: World, platform: string, vm: Option<Vm>, t: Name)
    requires Fine(w, t) && Ordinary(t)
    ensures Fine(Next(w, BaseChanges(platform, vm)), t)
    ensures ViewOf(Next(w, BaseChanges(platform, vm)), t) == ViewOf(w, t)
  {
    SessionVmIsBaseIff(t, platform);
  }

  lemma OthersAreFine(w: World, l: Label, t: Name)
    requires Fine(w, t) && Allowed(w, l) && !l.BaseChanges? && !l.GuestCommits? && l.session != t
    ensures Fine(Next(w, l), t) && ViewOf(Next(w, l), t) == ViewOf(w, t)
  {
    var w' := Next(w, l);
    match l
    case Step(s) =>
      var v' := Apply(ViewOf(w, s), w.jobs[s].ops[0]);
      WithViewElsewhere(w, s, v', t);
      assert ViewOf(w', t) == ViewOf(WithView(w, s, v'), t);
    case Fail(s, left) =>
      WithViewElsewhere(w, s, left, t);
      assert ViewOf(w', t) == ViewOf(WithView(w, s, left), t);
    case Crash(s, left) =>
      WithViewElsewhere(w, s, left, t);
      assert ViewOf(w', t) == ViewOf(WithView(w, s, left), t);
    case _ =>
  }

  lemma NextIsFine(w: World, l: Label, t: Name)
    requires Fine(w, t) && Allowed(w, l) && Ordinary(t)
    ensures Fine(Next(w, l), t)
    ensures Keeps(ViewOf(w, t), ViewOf(Next(w, l), t))
  {
    if l.BaseChanges? {
      BaseChangesIsFine(w, l.platform, l.vm, t);
    } else if l.GuestCommits? {
      GuestCommitsIsFine(w, l.session, t);
    } else if l.session != t {
      OthersAreFine(w, l, t);
    } else {
      match l
      case Begin(s, c, now) => BeginIsFine(w, s, c, now);
      case Step(s) => StepIsFine(w, s);
      case End(s) => assert ViewOf(Next(w, l), s) == ViewOf(w, s);
      case _ => StopIsFine(w, l);
    }
  }

  lemma {:induction false} RunIsFine(ws: seq<World>, ls: seq<Label>, i: nat, t: Name)
    requires IsRun(ws, ls) && i < |ws| && Ordinary(t)
    ensures Fine(ws[i], t)
  {
    if i > 0 {
      RunIsFine(ws, ls, i - 1, t);
      NextIsFine(ws[i - 1], ls[i - 1], t);
    }
  }

  /**
   * In every run, at every moment: a session whose row is closed has no VM, and neither has one that was
   * discarded, so the final sync a sync close then skips has nothing left to save.
   */
  lemma ClosedAndDiscardedHaveNoVm(ws: seq<World>, ls: seq<Label>, i: nat, t: Name)
    requires IsRun(ws, ls) && i < |ws| && Ordinary(t) && t in ws[i].rows
    ensures ws[i].rows[t].state == Closed ==> VmName(t) !in ws[i].vms && ws[i].rows[t].closedAt.Some?
    ensures ws[i].rows[t].sync == Discarded ==> VmName(t) !in ws[i].vms && ws[i].rows[t].state in {Closed, Destroying}
  {
    RunIsFine(ws, ls, i, t);
    var v := ViewOf(ws[i], t);
    assert v.row == Some(ws[i].rows[t]);
  }

  /** Once closed, a session keeps its row, never gets a VM again, and is only ever closed or being closed. */
  lemma {:induction false} ClosedSessionsStayGone(ws: seq<World>, ls: seq<Label>, i: nat, j: nat, t: Name)
    requires IsRun(ws, ls) && i <= j < |ws| && Ordinary(t)
    requires t in ws[i].rows && ws[i].rows[t].state == Closed
    ensures t in ws[j].rows && VmName(t) !in ws[j].vms && ws[j].rows[t].state in {Closed, Destroying}
    decreases j - i
  {
    RunIsFine(ws, ls, i, t);
    if i < j {
      ClosedSessionsStayGone(ws, ls, i, j - 1, t);
      RunIsFine(ws, ls, j - 1, t);
      NextIsFine(ws[j - 1], ls[j - 1], t);
      assert Gone(ViewOf(ws[j - 1], t)) && Gone(ViewOf(ws[j], t));
    } else {
      assert Gone(ViewOf(ws[i], t));
    }
  }
}
