/**
 * One session's row and VM under launch, retry, start, stop, sync, close and repair, each a list of
 * ordered writes that may stop after any of them (src/commands/close.rs, src/commands/repair.rs,
 * src/commands/start.rs, src/commands/stop.rs, src/sync/git_native.rs, src/db/sessions.rs).
 */
module Lifecycle {

  import opened Common
  import opened SessionKinds

  type Time = nat

  datatype Sync = Pending | Clean | Blocked | Discarded

  datatype Row = Row(mode: Mode, state: State, sync: Sync,
                     startedAt: Option<Time>, stoppedAt: Option<Time>, closedAt: Option<Time>)

  /** `saved`: everything committed in the guest has reached the host. */
  datatype Vm = Vm(up: bool, saved: bool)

  /** What there is of a session: its row, its VM, and whether a retry row is left. */
  datatype View = View(row: Option<Row>, vm: Option<Vm>, retry: bool)

  // ---- Writes ----

  datatype Op =
    | Insert(mode: Mode)
    | Remove
    | Mark(state: State, startedAt: Option<Time>, stoppedAt: Option<Time>, closedAt: Option<Time>)
    | MarkSync(sync: Sync)
    | EndSync(clean: bool)
    | Checkpoint
    | DropRetry
    | CloneVm
    | StartVm
    | StopVm
    | DeleteVm
    | Publish

  /** `COALESCE(new, old)`. */
  function Coalesce(new_: Option<Time>, old_: Option<Time>): Option<Time> {
    if new_.Some? then new_ else old_
  }

  predicate Enabled(v: View, op: Op) {
    match op
    case Insert(_) => v.row.None?
    case Mark(_, _, _, _) => v.row.Some?
    case MarkSync(_) => v.row.Some?
    case EndSync(_) => v.row.Some?
    case Checkpoint => v.row.Some?
    case CloneVm => v.vm.None?
    case StartVm => v.vm.Some?
    case StopVm => v.vm.Some?
    case Publish => v.vm.Some? && v.vm.value.up
    case _ => true
  }

  function Apply(v: View, op: Op): View
    requires Enabled(v, op)
  {
    match op
    case Insert(mode) => v.(row := Some(Row(mode, Cloning, Pending, None, None, None)))
    case Remove => v.(row := None, retry := false)
    case Mark(state, startedAt, stoppedAt, closedAt) =>
      var row := v.row.value;
      v.(row := Some(Row(row.mode, state, row.sync, Coalesce(startedAt, row.startedAt),
                         Coalesce(stoppedAt, row.stoppedAt), Coalesce(closedAt, row.closedAt))))
    case MarkSync(sync) => v.(row := Some(v.row.value.(sync := sync)))
    case EndSync(clean) => v.(row := Some(v.row.value.(state := Running, sync := if clean then Clean else Blocked)))
    case Checkpoint => v.(retry := true)
    case DropRetry => v.(retry := false)
    case CloneVm => v.(vm := Some(Vm(false, true)))
    case StartVm => v.(vm := Some(v.vm.value.(up := true)))
    case StopVm => v.(vm := Some(v.vm.value.(up := false)))
    case DeleteVm => v.(vm := None)
    case Publish => v.(vm := Some(v.vm.value.(saved := true)))
  }

  /** What an interrupted write leaves: it happened or not, and a VM may be up or down. */
  predicate Half(v: View, op: Op, v': View) {
    || v' == v
    || (Enabled(v, op) && v' == Apply(v, op))
    || ((op.StartVm? || op.StopVm?) && v.vm.Some? && v'.vm.Some? && v' == v.(vm := Some(v.vm.value.(up := v'.vm.value.up))))
  }

  // ---- Commands ----

  datatype Outcome = KeepWork | DropWork

  datatype Command =
    | Launch(mode: Mode)
    | Retry
    | Start
    | Stop
    | SyncBack(clean: bool)
    | Close(outcome: Outcome, yes: bool, clean: bool)
    | Repair

  function Stamp(state: State): Op {
    Mark(state, None, None, None)
  }

  function LaunchOps(mode: Mode, now: Time): seq<Op> {
    [Insert(mode), CloneVm, Checkpoint, Stamp(Starting)] + ResumeOps(now)
  }

  function ResumeOps(now: Time): seq<Op> {
    [StartVm, Stamp(Seeding), Mark(Running, Some(now), None, None), DropRetry]
  }

  /** A sync back; whether it ends clean is the guest's and the host repository's doing. */
  function SyncOps(clean: bool): seq<Op> {
    [StartVm, Stamp(Syncing)] + SyncEnd(clean)
  }

  /** The stop time a command that ends with the VM gone records. */
  function StopTime(state: State, now: Time): Option<Time> {
    if state == Stopped || state == Closed then None else Some(now)
  }

  /** `finish_close_at_with`, given the state read when the command began. */
  function FinishOps(state: State, outcome: Outcome, now: Time): seq<Op> {
    [Stamp(Destroying)] + CompleteOps(state, outcome, now)
  }

  function CompleteOps(state: State, outcome: Outcome, now: Time): seq<Op> {
    [DeleteVm, Mark(Closed, None, StopTime(state, now), Some(now)),
     MarkSync(if outcome == KeepWork then Clean else Discarded)]
  }

  predicate SyncsFirst(row: Row, outcome: Outcome) {
    outcome == KeepWork && row.sync != Discarded
  }

  function CloseOps(row: Row, outcome: Outcome, yes: bool, clean: bool, now: Time): seq<Op> {
    if row.mode == Sandbox && outcome == KeepWork then []
    else
      (if SyncsFirst(row, outcome) then SyncOps(clean) else []) +
      (if yes && (SyncsFirst(row, outcome) ==> clean) then FinishOps(row.state, outcome, now) else [])
  }

  function RepairOps(state: State, now: Time): seq<Op> {
    match state
    case Starting => [StartVm, Mark(Running, Some(now), None, None)]
    case Destroying => [DeleteVm, Mark(Closed, None, StopTime(state, now), Some(now))]
    case _ => []
  }

  /** The writes of a command, decided by what it reads when it begins. */
  function Program(v: View, c: Command, now: Time): seq<Op> {
    match (c, v.row)
    case (Launch(mode), None) => LaunchOps(mode, now)
    case (Launch(_), Some(_)) => []
    case (_, None) => []
    case (Retry, Some(_)) => if v.retry && v.vm.Some? then ResumeOps(now) else []
    case (Start, Some(row)) => [StartVm, Mark(Running, if row.state == Running then None else Some(now), None, None)]
    case (Stop, Some(row)) => [StopVm, Mark(Stopped, None, StopTime(row.state, now), None)]
    case (SyncBack(clean), Some(row)) => if row.mode == Repo then SyncOps(clean) else []
    case (Close(outcome, yes, clean), Some(row)) => CloseOps(row, outcome, yes, clean, now)
    case (Repair, Some(row)) => RepairOps(row.state, now)
  }

  /** A launch that fails before its checkpoint takes back its row and its VM. */
  const ROLLBACK: seq<Op> := [Remove, DeleteVm]

  // ---- What holds at every moment ----

  /** A closed session has no VM; so has a discarded one, which is closed or being closed again. */
  predicate Good(v: View) {
    v.row.Some? ==>
      && (v.row.value.state == Closed ==> v.vm.None? && v.row.value.closedAt.Some?)
      && (v.row.value.sync == Discarded ==> Gone(v))
  }

  /** Closed, or being closed again, with nothing left to close. */
  predicate Gone(v: View) {
    v.row.Some? && v.vm.None? && v.row.value.state in {Closed, Destroying}
  }

  /** A step that keeps what holds, and never brings a gone session back. */
  predicate Keeps(v: View, v': View) {
    Good(v') && (Gone(v) ==> Gone(v'))
  }

  ghost predicate HalvesKeep(v: View, op: Op) {
    forall v' :: Half(v, op, v') ==> Keeps(v, v')
  }

  /** Wherever these writes stop, what must hold does. */
  ghost predicate Safe(v: View, ops: seq<Op>)
    decreases |ops|
  {
    && Good(v)
    && (ops != [] ==>
          && HalvesKeep(v, ops[0])
          && (Enabled(v, ops[0]) ==> Safe(Apply(v, ops[0]), ops[1..])))
  }

  lemma SafeCons(v: View, op: Op, rest: seq<Op>)
    requires Good(v) && HalvesKeep(v, op) && (Enabled(v, op) ==> Safe(Apply(v, op), rest))
    ensures Safe(v, [op] + rest)
  {
    assert ([op] + rest)[1..] == rest;
  }

  /** While the VM is there, the row may be marked with anything but closed. */
  lemma MarkIsSafe(v: View, op: Op, rest: seq<Op>)
    requires Good(v) && v.vm.Some?
    requires (op.Mark? && op.state != Closed) || op.EndSync?
    requires Enabled(v, op) ==> Safe(Apply(v, op), rest)
    ensures Safe(v, [op] + rest)
  {
    SafeCons(v, op, rest);
  }

  lemma ResumeIsSafe(v: View, now: Time)
    requires Good(v) && v.row.Some?
    ensures Safe(v, ResumeOps(now))
  {
    var running := Mark(Running, Some(now), None, None);
    if v.vm.Some? {
      var up := Apply(v, StartVm);
      var seeding := Apply(up, Stamp(Seeding));
      MarkIsSafe(seeding, running, [DropRetry]);
      MarkIsSafe(up, Stamp(Seeding), [running] + [DropRetry]);
    }
    assert ResumeOps(now) == [StartVm] + ([Stamp(Seeding)] + ([running] + [DropRetry]));
  }

  /** A launch is only begun without a row, so it never touches a closed session. */
  lemma LaunchIsSafe(v: View, mode: Mode, now: Time)
    requires Good(v) && v.row.None?
    ensures Safe(v, LaunchOps(mode, now))
  {
    var inserted := Apply(v, Insert(mode));
    if inserted.vm.None? {
      ClonedIsSafe(Apply(inserted, CloneVm), now);
    }
    var rest := [Checkpoint] + ([Stamp(Starting)] + ResumeOps(now));
    SafeCons(inserted, CloneVm, rest);
    SafeCons(v, Insert(mode), [CloneVm] + rest);
    assert LaunchOps(mode, now) == [Insert(mode)] + ([CloneVm] + rest);
  }

  lemma ClonedIsSafe(v: View, now: Time)
    requires Good(v) && v.row.Some? && v.vm.Some?
    ensures Safe(v, [Checkpoint] + ([Stamp(Starting)] + ResumeOps(now)))
  {
    var stored := Apply(v, Checkpoint);
    ResumeIsSafe(Apply(stored, Stamp(Starting)), now);
    MarkIsSafe(stored, Stamp(Starting), ResumeOps(now));
    SafeCons(v, Checkpoint, [Stamp(Starting)] + ResumeOps(now));
  }

  /** The end of a sync back: what it publishes, when it is clean, and how it records itself. */
  function SyncEnd(clean: bool): seq<Op> {
    if clean then [Publish, EndSync(true)] else [EndSync(false)]
  }

  lemma SyncOpsThen(clean: bool, rest: seq<Op>)
    ensures SyncOps(clean) + rest == [StartVm] + ([Stamp(Syncing)] + (SyncEnd(clean) + rest))
    ensures SyncEnd(true) + rest == [Publish] + ([EndSync(true)] + rest)
  {
  }

  lemma SyncEndIsSafe(v: View, clean: bool, rest: seq<Op>)
    requires Good(v) && v.row.Some? && v.vm.Some? && v.vm.value.up
    requires forall v' :: Good(v') && v'.row.Some? && v'.vm.Some? && v'.row.value.mode == v.row.value.mode ==> Safe(v', rest)
    ensures Safe(v, SyncEnd(clean) + rest)
  {
    if clean {
      var published := Apply(v, Publish);
      MarkIsSafe(published, EndSync(true), rest);
      SafeCons(v, Publish, [EndSync(true)] + rest);
      SyncOpsThen(clean, rest);
    } else {
      MarkIsSafe(v, EndSync(false), rest);
    }
  }

  /** A sync back, followed by writes that are safe whenever it has ended with the VM still there. */
  lemma SyncIsSafe(v: View, clean: bool, rest: seq<Op>)
    requires Good(v) && v.row.Some?
    requires forall v' :: Good(v') && v'.row.Some? && v'.vm.Some? && v'.row.value.mode == v.row.value.mode ==> Safe(v', rest)
    ensures Safe(v, SyncOps(clean) + rest)
  {
    var tail := SyncEnd(clean) + rest;
    SyncOpsThen(clean, rest);
    if v.vm.Some? {
      var up := Apply(v, StartVm);
      SyncEndIsSafe(Apply(up, Stamp(Syncing)), clean, rest);
      MarkIsSafe(up, Stamp(Syncing), tail);
    }
  }

  lemma MarkSyncIsSafe(v: View, sync: Sync)
    requires Good(v) && Gone(v)
    ensures Safe(v, [MarkSync(sync)])
  {
    assert Safe(Apply(v, MarkSync(sync)), []);
    SafeCons(v, MarkSync(sync), []);
    assert [MarkSync(sync)] + [] == [MarkSync(sync)];
  }

  lemma FinishIsSafe(v: View, state: State, outcome: Outcome, now: Time)
    requires Good(v) && v.row.Some? && (v.row.value.sync == Discarded ==> v.vm.None?)
    ensures Safe(v, FinishOps(state, outcome, now))
  {
    var sync := if outcome == KeepWork then Clean else Discarded;
    var destroying := Apply(v, Stamp(Destroying));
    forall v' | Good(v') && Gone(v') && v'.row.value.state == Closed ensures Safe(v', [MarkSync(sync)]) {
      MarkSyncIsSafe(v', sync);
    }
    var closed := Mark(Closed, None, StopTime(state, now), Some(now));
    SafeCons(v, Stamp(Destroying), [DeleteVm] + ([closed] + [MarkSync(sync)]));
    assert FinishOps(state, outcome, now) == [Stamp(Destroying)] + ([DeleteVm] + ([closed] + [MarkSync(sync)]));
  }

  lemma CloseIsSafe(v: View, outcome: Outcome, yes: bool, clean: bool, now: Time)
    requires Good(v) && v.row.Some?
    ensures Safe(v, CloseOps(v.row.value, outcome, yes, clean, now))
  {
    var row := v.row.value;
    var finish := if yes && (SyncsFirst(row, outcome) ==> clean) then FinishOps(row.state, outcome, now) else [];
    if !(row.mode == Sandbox && outcome == KeepWork) {
      if SyncsFirst(row, outcome) {
        forall v' | Good(v') && v'.row.Some? && v'.vm.Some? && v'.row.value.mode == row.mode ensures Safe(v', finish) {
          if finish != [] { FinishIsSafe(v', row.state, outcome, now); }
        }
        SyncIsSafe(v, clean, finish);
      } else {
        if finish != [] { FinishIsSafe(v, row.state, outcome, now); }
        assert [] + finish == finish;
      }
    }
  }

  /** Every command is safe wherever it stops. */
  lemma CommandIsSafe(v: View, c: Command, now: Time)
    requires Good(v)
    ensures Safe(v, Program(v, c, now))
  {
    match (c, v.row)
    case (Launch(mode), None) => LaunchIsSafe(v, mode, now);
    case (Launch(_), Some(_)) =>
    case (_, None) =>
    case (Retry, Some(_)) => ResumeIsSafe(v, now);
    case (Start, Some(row)) =>
    case (Stop, Some(row)) =>
    case (SyncBack(clean), Some(_)) =>
      SyncIsSafe(v, clean, []);
      assert SyncOps(clean) + [] == SyncOps(clean);
    case (Close(outcome, yes, clean), Some(_)) => CloseIsSafe(v, outcome, yes, clean, now);
    case (Repair, Some(_)) =>
  }

  // ---- Attempts ----

  /** Doing these writes may end there. */
  ghost predicate Attempt(v: View, ops: seq<Op>, v': View)
    decreases |ops|
  {
    if ops == [] then v' == v
    else Half(v, ops[0], v') || (Enabled(v, ops[0]) && Attempt(Apply(v, ops[0]), ops[1..], v'))
  }

  function Run(v: View, ops: seq<Op>): Option<View>
    decreases |ops|
  {
    if ops == [] then Some(v) else if Enabled(v, ops[0]) then Run(Apply(v, ops[0]), ops[1..]) else None
  }

  lemma RunCons(v: View, op: Op, rest: seq<Op>)
    ensures Run(v, [op] + rest) == if Enabled(v, op) then Run(Apply(v, op), rest) else None
  {
    assert ([op] + rest)[1..] == rest;
  }

  // ---- Closing ----

  /**
   * From a session that is being destroyed, a confirmed discard, or a repair, never gets stuck: when its
   * writes work it ends closed, without a VM, and a discard also records itself.
   */
  lemma DestroyingCanBeFinished(v: View, yes: bool, clean: bool, now: Time)
    requires v.row.Some? && v.row.value.state == Destroying
    ensures yes ==> var end := Run(v, Program(v, Close(DropWork, yes, clean), now));
      end.Some? && Gone(end.value) && end.value.row.value.state == Closed && end.value.row.value.sync == Discarded
    ensures var end := Run(v, Program(v, Repair, now));
      end.Some? && Gone(end.value) && end.value.row.value.state == Closed && end.value.row.value.sync == v.row.value.sync
  {
    var closed := Mark(Closed, None, StopTime(Destroying, now), Some(now));
    var deleted := Apply(v, DeleteVm);
    RunCons(v, DeleteVm, [closed] + []);
    RunCons(deleted, closed, []);
    assert RepairOps(Destroying, now) == [DeleteVm] + ([closed] + []);
    if yes {
      FinishRuns(v, Destroying, DropWork, now);
      assert [] + FinishOps(Destroying, DropWork, now) == FinishOps(Destroying, DropWork, now);
    }
  }

  /** Closing always gets to its end once it has begun, whether or not there still is a VM. */
  lemma FinishRuns(v: View, state: State, outcome: Outcome, now: Time)
    requires v.row.Some?
    ensures var end := Run(v, FinishOps(state, outcome, now));
      && end.Some? && end.value.vm.None? && end.value.row.Some? && end.value.retry == v.retry
      && end.value.row.value == Row(v.row.value.mode, Closed, if outcome == KeepWork then Clean else Discarded,
           v.row.value.startedAt, Coalesce(StopTime(state, now), v.row.value.stoppedAt), Some(now))
  {
    var sync := if outcome == KeepWork then Clean else Discarded;
    var closed := Mark(Closed, None, StopTime(state, now), Some(now));
    var v1 := Apply(v, Stamp(Destroying));
    var v2 := Apply(v1, DeleteVm);
    var v3 := Apply(v2, closed);
    RunCons(v, Stamp(Destroying), [DeleteVm] + ([closed] + ([MarkSync(sync)] + [])));
    RunCons(v1, DeleteVm, [closed] + ([MarkSync(sync)] + []));
    RunCons(v2, closed, [MarkSync(sync)] + []);
    RunCons(v3, MarkSync(sync), []);
    assert FinishOps(state, outcome, now) == [Stamp(Destroying)] + ([DeleteVm] + ([closed] + ([MarkSync(sync)] + [])));
  }

  /** Closing a session that was stopped keeps the time it was stopped; otherwise closing records it. */
  lemma CloseKeepsTheStopTime(v: View, outcome: Outcome, now: Time)
    requires v.row.Some?
    ensures var end := Run(v, FinishOps(v.row.value.state, outcome, now));
      end.Some? && end.value.row.Some? && end.value.row.value.stoppedAt ==
        if v.row.value.state in {Stopped, Closed} then v.row.value.stoppedAt else Some(now)
  {
    FinishRuns(v, v.row.value.state, outcome, now);
  }

  // ---- What a command that comes to its end leaves ----

  /** A sync back needs the VM: it runs then, the row is running again, and a clean one has saved everything. */
  function Synced(v: View, clean: bool): View
    requires v.row.Some? && v.vm.Some?
  {
    v.(row := Some(v.row.value.(state := Running, sync := if clean then Clean else Blocked)),
       vm := Some(Vm(true, clean || v.vm.value.saved)))
  }

  lemma SyncRuns(v: View, clean: bool, rest: seq<Op>)
    requires v.row.Some?
    ensures Run(v, SyncOps(clean) + rest) == if v.vm.None? then None else Run(Synced(v, clean), rest)
  {
    SyncOpsThen(clean, rest);
    RunCons(v, StartVm, [Stamp(Syncing)] + (SyncEnd(clean) + rest));
    if v.vm.Some? {
      var up := Apply(v, StartVm);
      var syncing := Apply(up, Stamp(Syncing));
      RunCons(up, Stamp(Syncing), SyncEnd(clean) + rest);
      if clean {
        RunCons(syncing, Publish, [EndSync(true)] + rest);
        RunCons(Apply(syncing, Publish), EndSync(true), rest);
      } else {
        RunCons(syncing, EndSync(false), rest);
      }
    }
  }

  lemma ResumeRuns(v: View, now: Time)
    requires v.row.Some?
    ensures Run(v, ResumeOps(now)) ==
      if v.vm.None? then None
      else Some(View(Some(v.row.value.(state := Running, startedAt := Some(now))), Some(v.vm.value.(up := true)), false))
  {
    var running := Mark(Running, Some(now), None, None);
    assert ResumeOps(now) == [StartVm] + ([Stamp(Seeding)] + ([running] + ([DropRetry] + [])));
    RunCons(v, StartVm, [Stamp(Seeding)] + ([running] + ([DropRetry] + [])));
    if v.vm.Some? {
      var up := Apply(v, StartVm);
      var seeding := Apply(up, Stamp(Seeding));
      RunCons(up, Stamp(Seeding), [running] + ([DropRetry] + []));
      RunCons(seeding, running, [DropRetry] + []);
      RunCons(Apply(seeding, running), DropRetry, []);
    }
  }

  /** Stopped right after its checkpoint, a launch has left a row, a VM that is down, and a retry row; rolled back, nothing. */
  lemma LaunchBegins(v: View, mode: Mode, now: Time)
    requires v.row.None? && v.vm.None?
    ensures Run(v, LaunchOps(mode, now)[..3]) ==
      Some(View(Some(Row(mode, Cloning, Pending, None, None, None)), Some(Vm(false, true)), true))
    ensures Run(Run(v, LaunchOps(mode, now)[..3]).value, ROLLBACK) == Some(View(None, None, false))
  {
    var inserted := Apply(v, Insert(mode));
    var cloned := Apply(inserted, CloneVm);
    var stored := Apply(cloned, Checkpoint);
    assert LaunchOps(mode, now)[..3] == [Insert(mode)] + ([CloneVm] + ([Checkpoint] + []));
    RunCons(v, Insert(mode), [CloneVm] + ([Checkpoint] + []));
    RunCons(inserted, CloneVm, [Checkpoint] + []);
    RunCons(cloned, Checkpoint, []);
    assert ROLLBACK == [Remove] + ([DeleteVm] + []);
    RunCons(stored, Remove, [DeleteVm] + []);
    RunCons(Apply(stored, Remove), DeleteVm, []);
  }

  /** A name that is taken cannot be launched, and without a row there is nothing else to do. */
  lemma NothingToDo(v: View, c: Command, now: Time)
    requires v.row.Some? <==> c.Launch?
    ensures Program(v, c, now) == []
  {
  }

  /** A launch ends with a running session that was never stopped; it cannot get by a VM that is there. */
  lemma LaunchEnds(v: View, mode: Mode, now: Time)
    requires v.row.None?
    ensures Run(v, Program(v, Launch(mode), now)) ==
      if v.vm.Some? then None
      else Some(View(Some(Row(mode, Running, Pending, Some(now), None, None)), Some(Vm(true, true)), false))
  {
    hide ResumeOps;
    var inserted := Apply(v, Insert(mode));
    var rest := [CloneVm] + ([Checkpoint] + ([Stamp(Starting)] + ResumeOps(now)));
    assert LaunchOps(mode, now) == [Insert(mode)] + rest;
    RunCons(v, Insert(mode), rest);
    RunCons(inserted, CloneVm, [Checkpoint] + ([Stamp(Starting)] + ResumeOps(now)));
    if v.vm.None? {
      var cloned := Apply(inserted, CloneVm);
      var stored := Apply(cloned, Checkpoint);
      RunCons(cloned, Checkpoint, [Stamp(Starting)] + ResumeOps(now));
      RunCons(stored, Stamp(Starting), ResumeOps(now));
      ResumeRuns(Apply(stored, Stamp(Starting)), now);
    }
  }

  /** A retry, when it is allowed, ends with a running session started now. */
  lemma RetryEnds(v: View, now: Time)
    requires v.row.Some?
    ensures Run(v, Program(v, Retry, now)) == Some(
      if v.retry && v.vm.Some?
      then View(Some(v.row.value.(state := Running, startedAt := Some(now))), Some(v.vm.value.(up := true)), false)
      else v)
  {
    ResumeRuns(v, now);
  }

  /** A start records when, unless the session was running; a stop, unless it was stopped or closed. */
  lemma StartAndStopEnd(v: View, now: Time)
    requires v.row.Some?
    ensures Run(v, Program(v, Start, now)) ==
      if v.vm.None? then None
      else if v.row.value.state == Running then Some(v.(vm := Some(v.vm.value.(up := true))))
      else Some(v.(row := Some(v.row.value.(state := Running, startedAt := Some(now))), vm := Some(v.vm.value.(up := true))))
    ensures Run(v, Program(v, Stop, now)) ==
      if v.vm.None? then None
      else if v.row.value.state in {Stopped, Closed} then
        Some(v.(row := Some(v.row.value.(state := Stopped)), vm := Some(v.vm.value.(up := false))))
      else Some(v.(row := Some(v.row.value.(state := Stopped, stoppedAt := Some(now))), vm := Some(v.vm.value.(up := false))))
  {
    var state := v.row.value.state;
    var started := Mark(Running, if state == Running then None else Some(now), None, None);
    var stopped := Mark(Stopped, None, StopTime(state, now), None);
    assert [StartVm, started] == [StartVm] + ([started] + []) && [StopVm, stopped] == [StopVm] + ([stopped] + []);
    RunCons(v, StartVm, [started] + []);
    RunCons(v, StopVm, [stopped] + []);
    if v.vm.Some? {
      RunCons(Apply(v, StartVm), started, []);
      RunCons(Apply(v, StopVm), stopped, []);
    }
  }

  /** A sync back of a repository session; a sandbox has none. */
  lemma SyncBackEnds(v: View, clean: bool, now: Time)
    requires v.row.Some?
    ensures Run(v, Program(v, SyncBack(clean), now)) ==
      if v.row.value.mode == Sandbox then Some(v) else if v.vm.None? then None else Some(Synced(v, clean))
  {
    assert SyncOps(clean) + [] == SyncOps(clean);
    SyncRuns(v, clean, []);
  }

  /**
   * A repair restarts a session that was starting and finishes destroying one that was being destroyed;
   * in every other state it leaves everything as it is.
   */
  lemma RepairEnds(v: View, now: Time)
    requires v.row.Some?
    ensures Run(v, Program(v, Repair, now)) ==
      match v.row.value.state
      case Starting =>
        if v.vm.None? then None
        else Some(v.(row := Some(v.row.value.(state := Running, startedAt := Some(now))), vm := Some(v.vm.value.(up := true))))
      case Destroying =>
        Some(v.(row := Some(v.row.value.(state := Closed, stoppedAt := Some(now), closedAt := Some(now))), vm := None))
      case _ => Some(v)
  {
    var running := Mark(Running, Some(now), None, None);
    var closed := Mark(Closed, None, Some(now), Some(now));
    assert [StartVm, running] == [StartVm] + ([running] + []) && [DeleteVm, closed] == [DeleteVm] + ([closed] + []);
    RunCons(v, StartVm, [running] + []);
    if v.vm.Some? { RunCons(Apply(v, StartVm), running, []); }
    RunCons(v, DeleteVm, [closed] + []);
    RunCons(Apply(v, DeleteVm), closed, []);
  }

  /** A session closed now: no VM, the stop time it had if it was stopped or closed, and its outcome. */
  function Closing(v: View, outcome: Outcome, now: Time): View
    requires v.row.Some?
  {
    var row := v.row.value;
    View(Some(Row(row.mode, Closed, if outcome == KeepWork then Clean else Discarded, row.startedAt,
                  if row.state in {Stopped, Closed} then row.stoppedAt else Some(now), Some(now))), None, v.retry)
  }

  /**
   * A close that is allowed: a sync comes first when the work is kept and has not been discarded; it needs
   * the VM and must be clean; and without confirmation nothing more happens.
   */
  lemma CloseEnds(v: View, outcome: Outcome, yes: bool, clean: bool, now: Time)
    requires v.row.Some? && !(v.row.value.mode == Sandbox && outcome == KeepWork)
    ensures Run(v, Program(v, Close(outcome, yes, clean), now)) ==
      var syncs := outcome == KeepWork && v.row.value.sync != Discarded;
      if syncs && v.vm.None? then None
      else if syncs && !(clean && yes) then Some(Synced(v, clean))
      else if !yes then Some(v)
      else Some(Closing(v, outcome, now))
  {
    var row := v.row.value;
    var finish := if yes && (SyncsFirst(row, outcome) ==> clean) then FinishOps(row.state, outcome, now) else [];
    if SyncsFirst(row, outcome) {
      SyncRuns(v, clean, finish);
      if v.vm.Some? && finish != [] { FinishRuns(Synced(v, clean), row.state, outcome, now); }
    } else {
      assert [] + finish == finish;
      if finish != [] { FinishRuns(v, row.state, outcome, now); }
    }
  }
}
