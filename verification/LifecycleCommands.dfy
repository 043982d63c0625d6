/** Closing and repairing a session, write by write (src/commands/close.rs, src/commands/repair.rs). */
module LifecycleCommands {

  import opened Common
  import opened SessionKinds
  import opened Lifecycle

  /** What becomes of a write: it works, or it fails or its process dies, leaving that behind. */
  datatype Fate = Works | Fails(leaving: View)

  // ---- Following a program ----

  lemma {:induction false} RunConcat(v: View, a: seq<Op>, b: seq<Op>)
    ensures Run(v, a + b) == match Run(v, a) case None => None case Some(at) => Run(at, b)
    decreases |a|
  {
    if a == [] {
      assert a + b == b;
    } else {
      assert (a + b)[0] == a[0] && (a + b)[1..] == a[1..] + b;
      if Enabled(v, a[0]) { RunConcat(Apply(v, a[0]), a[1..], b); }
    }
  }

  ghost predicate AllWork(fates: nat -> Fate, n: nat) {
    forall i: nat :: i < n ==> fates(i).Works?
  }

  /** All before it work and find what they need; it does not work, or does not find what it needs. */
  ghost predicate Halts(v: View, ops: seq<Op>, fates: nat -> Fate, i: nat) {
    && i < |ops| && AllWork(fates, i) && Run(v, ops[..i]).Some?
    && (fates(i).Works? ==> !Enabled(Run(v, ops[..i]).value, ops[i]))
  }

  /** What a write leaves that did not work: what it may leave, or nothing changed. */
  function Halfway(v: View, op: Op, fate: Fate): (half: View)
    ensures Half(v, op, half)
  {
    if fate.Fails? && Half(v, op, fate.leaving) then fate.leaving else v
  }

  /** The program comes to its end: every write works and finds what it needs. */
  ghost predicate Completes(v: View, ops: seq<Op>, fates: nat -> Fate) {
    AllWork(fates, |ops|) && Run(v, ops).Some?
  }

  /** It stops at the first write that does not work, or does not find what it needs, and leaves that. */
  ghost predicate StopsWith(v: View, ops: seq<Op>, fates: nat -> Fate, v': View) {
    exists i: nat :: Halts(v, ops, fates, i) && v' == Halfway(Run(v, ops[..i]).value, ops[i], fates(i))
  }

  lemma HaltsOrCompletes(v: View, ops: seq<Op>, fates: nat -> Fate, i: nat)
    requires Halts(v, ops, fates, i)
    ensures !Completes(v, ops, fates)
  {
    if Run(v, ops).Some? {
      assert ops == ops[..i] + ops[i..];
      RunConcat(v, ops[..i], ops[i..]);
    }
  }

  lemma {:induction false} StopIsAttempt(v: View, ops: seq<Op>, i: nat, half: View)
    requires i < |ops| && Run(v, ops[..i]).Some? && Half(Run(v, ops[..i]).value, ops[i], half)
    ensures Attempt(v, ops, half)
    decreases i
  {
    if i > 0 {
      assert ops[..i][1..] == ops[1..][..i - 1];
      StopIsAttempt(Apply(v, ops[0]), ops[1..], i - 1, half);
    }
  }

  lemma {:induction false} RunIsAttempt(v: View, ops: seq<Op>)
    requires Run(v, ops).Some?
    ensures Attempt(v, ops, Run(v, ops).value)
    decreases |ops|
  {
    if ops != [] { RunIsAttempt(Apply(v, ops[0]), ops[1..]); }
  }

  /** However a program ends, that is one of the ways it may. */
  lemma EndIsAttempt(v: View, ops: seq<Op>, fates: nat -> Fate, v': View)
    requires Run(v, ops) == Some(v') || StopsWith(v, ops, fates, v')
    ensures Attempt(v, ops, v')
  {
    if Run(v, ops) == Some(v') {
      RunIsAttempt(v, ops);
    } else {
      var i: nat :| Halts(v, ops, fates, i) && v' == Halfway(Run(v, ops[..i]).value, ops[i], fates(i));
      StopIsAttempt(v, ops, i, v');
    }
  }

  datatype Refusal = InvalidFlags | NotFound | NeedsDiscard | Unconfirmed | SyncBlocked | ManualRepair | Interrupted

  /** `validate_close_args`: exactly one of the two outcomes. */
  function OutcomeOf(sync: bool, discard: bool): (r: Option<Outcome>)
    ensures r == Some(KeepWork) <==> sync && !discard
    ensures r == Some(DropWork) <==> discard && !sync
    ensures r.None? <==> sync == discard
  {
    if sync && !discard then Some(KeepWork) else if !sync && discard then Some(DropWork) else None
  }

  class Session {
    var view: View
    /** What becomes of the writes of the present command, and how many have been done. */
    var fates: nat -> Fate
    var done: nat
    ghost var start: View
    ghost var plan: seq<Op>

    /** The program has been followed so far, and this is left of it. */
    ghost predicate Left(rest: seq<Op>)
      reads this
    {
      && done <= |plan| && plan[done..] == rest && AllWork(fates, done)
      && Run(start, plan[..done]) == Some(view)
    }

    ghost predicate Stopped()
      reads this
    {
      StopsWith(start, plan, fates, view)
    }

    method Begin(fates: nat -> Fate, ghost plan: seq<Op>)
      modifies this
      ensures view == old(view) && start == view && this.plan == plan && this.fates == fates && Left(plan)
    {
      this.fates, done, start, this.plan := fates, 0, view, plan;
      assert plan[..0] == [];
    }

    /** A write that works, or one that fails or dies halfway. */
    method Perform(op: Op, ghost rest: seq<Op>) returns (ok: bool)
      requires Left([op] + rest)
      modifies this`view, this`done
      ensures if ok then Left(rest) else Stopped()
    {
      assert plan[done] == plan[done..][0] == op && plan[done + 1..] == plan[done..][1..] == rest;
      assert plan[..done + 1] == plan[..done] + [op] && [op] + [] == [op];
      RunConcat(start, plan[..done], [op]);
      RunCons(view, op, []);
      var fate := fates(done);
      ok := fate.Works? && Enabled(view, op);
      if ok {
        view, done := Apply(view, op), done + 1;
      } else {
        assert Halts(start, plan, fates, done);
        view := Halfway(view, op, fate);
      }
    }

    /** A sync back; the guest and the host repository decide whether it ends clean. */
    method SyncBack(clean: bool, ghost rest: seq<Op>) returns (ok: bool)
      requires Left(SyncOps(clean) + rest)
      modifies this`view, this`done
      ensures if ok then Left(rest) else Stopped()
    {
      SyncOpsThen(clean, rest);
      ok := Perform(StartVm, [Stamp(Syncing)] + (SyncEnd(clean) + rest));
      if ok { ok := Perform(Stamp(Syncing), SyncEnd(clean) + rest); }
      if ok && clean { ok := Perform(Publish, [EndSync(true)] + rest); }
      if ok { ok := Perform(EndSync(clean), rest); }
    }

    /** `finish_close_at_with`, after its confirmation. */
    method FinishClose(state: State, outcome: Outcome, now: Time) returns (ok: bool)
      requires Left(FinishOps(state, outcome, now))
      modifies this`view, this`done
      ensures if ok then Left([]) else Stopped()
    {
      var sync := if outcome == KeepWork then Clean else Discarded;
      var closed := Mark(Closed, None, StopTime(state, now), Some(now));
      assert FinishOps(state, outcome, now) ==
        [Stamp(Destroying)] + ([DeleteVm] + ([closed] + ([MarkSync(sync)] + [])));
      ok := Perform(Stamp(Destroying), [DeleteVm] + ([closed] + ([MarkSync(sync)] + [])));
      if ok { ok := Perform(DeleteVm, [closed] + ([MarkSync(sync)] + [])); }
      if ok { ok := Perform(closed, [MarkSync(sync)] + []); }
      if ok { ok := Perform(MarkSync(sync), []); }
    }

    /** Where a program's writes ended, told by its fates and what they find. */
    lemma ProgramEnded(ok: bool)
      requires if ok then Left([]) else Stopped()
      ensures ok <==> Completes(start, plan, fates)
      ensures if ok then Run(start, plan) == Some(view) else StopsWith(start, plan, fates, view)
    {
      if ok {
        assert plan[..done] == plan;
      } else {
        var i: nat :| Halts(start, plan, fates, i) && view == Halfway(Run(start, plan[..i]).value, plan[i], fates(i));
        HaltsOrCompletes(start, plan, fates, i);
      }
    }

    /**
     * `close`: it refuses, changing nothing, exactly for bad flags, a missing row, or work to be kept of a
     * sandbox. Otherwise it is interrupted exactly when one of its writes does not work or a sync finds no
     * VM; it is blocked by a sync that is not clean, and by a missing confirmation; and it succeeds exactly
     * when none of this happens, leaving the session closed.
     */
    method Close(sync: bool, discard: bool, yes: bool, clean: bool, now: Time, fates: nat -> Fate)
      returns (r: Result<(), Refusal>)
      modifies this
      ensures r == Err(InvalidFlags) <==> sync == discard
      ensures r == Err(NotFound) <==> sync != discard && old(view).row.None?
      ensures r == Err(NeedsDiscard) <==> sync && !discard && old(view).row.Some? && old(view).row.value.mode == Sandbox
      ensures r in {Err(InvalidFlags), Err(NotFound), Err(NeedsDiscard)} ==> view == old(view)
      ensures r !in {Err(InvalidFlags), Err(NotFound), Err(NeedsDiscard)} ==>
        var outcome := if sync then KeepWork else DropWork;
        var syncs := sync && old(view).row.value.sync != Discarded;
        var program := Program(old(view), Command.Close(outcome, yes, clean), now);
        && (r == Err(Interrupted) <==> !AllWork(fates, |program|) || (syncs && old(view).vm.None?))
        && (r == Err(Interrupted) ==> StopsWith(old(view), program, fates, view))
        && (r == Err(SyncBlocked) ==> syncs && !clean && old(view).vm.Some? && view == Synced(old(view), false))
        && (r == Err(Unconfirmed) ==> !yes && (syncs ==> clean && old(view).vm.Some?))
        && (r == Err(Unconfirmed) ==> view == if syncs then Synced(old(view), true) else old(view))
        && (r.Ok? ==> yes && (syncs ==> clean) && view == Closing(old(view), outcome, now))
        && r != Err(ManualRepair)
    {
      hide Run, CloseOps, StopsWith;
      var outcome := OutcomeOf(sync, discard);
      if outcome.None? { return Err(InvalidFlags); }
      if view.row.None? { return Err(NotFound); }
      var row := view.row.value;
      if row.mode == Sandbox && outcome.value == KeepWork { return Err(NeedsDiscard); }
      Begin(fates, CloseOps(row, outcome.value, yes, clean, now));
      var finished := CloseWrites(row, outcome.value, yes, clean, now);
      ProgramEnded(finished);
      CloseEnds(start, outcome.value, yes, clean, now);
      r := if !finished then Err(Interrupted)
           else if SyncsFirst(row, outcome.value) && !clean then Err(SyncBlocked)
           else if !yes then Err(Unconfirmed)
           else Ok(());
    }

    /** The writes of a close: the sync, if one is due, and the rest only when it is clean and confirmed. */
    method CloseWrites(row: Row, outcome: Outcome, yes: bool, clean: bool, now: Time) returns (ok: bool)
      requires !(row.mode == Sandbox && outcome == KeepWork) && Left(CloseOps(row, outcome, yes, clean, now))
      modifies this`view, this`done
      ensures if ok then Left([]) else Stopped()
    {
      ghost var finish := if yes && (SyncsFirst(row, outcome) ==> clean) then FinishOps(row.state, outcome, now) else [];
      if SyncsFirst(row, outcome) {
        ok := SyncBack(clean, finish);
        if !ok || !clean { return; }
      } else {
        assert [] + finish == finish;
      }
      ok := true;
      if yes { ok := FinishClose(row.state, outcome, now); }
    }

    /**
     * `apply_repair_action_at_with` on the action for the row's state: a session that was starting is
     * restarted, one that was being destroyed is closed, one that is settled needs nothing, and any other
     * is refused. It is interrupted exactly when one of the two writes does not work, or finds no VM to start.
     */
    method Repair(now: Time, fates: nat -> Fate) returns (r: Result<(), Refusal>)
      modifies this
      ensures r == Err(NotFound) <==> old(view).row.None?
      ensures old(view).row.None? ==> view == old(view)
      ensures old(view).row.Some? ==>
        var row, vm := old(view).row.value, old(view).vm;
        match row.state
        case Starting =>
          && r == (if fates(0).Works? && fates(1).Works? && vm.Some? then Ok(()) else Err(Interrupted))
          && (r.Ok? ==> view == View(
                Some(Row(row.mode, Running, row.sync, Some(now), row.stoppedAt, row.closedAt)),
                Some(Vm(true, vm.value.saved)), old(view).retry))
        case Destroying =>
          && r == (if fates(0).Works? && fates(1).Works? then Ok(()) else Err(Interrupted))
          && (r.Ok? ==> view == View(
                Some(Row(row.mode, State.Closed, row.sync, row.startedAt, Some(now), Some(now))), None, old(view).retry))
        case Running => r == Ok(()) && view == old(view)
        case Stopped => r == Ok(()) && view == old(view)
        case Closed => r == Ok(()) && view == old(view)
        case _ => r == Err(ManualRepair) && view == old(view)
      ensures r == Err(Interrupted) ==> StopsWith(old(view), RepairOps(old(view).row.value.state, now), fates, view)
    {
      hide Run, StopsWith;
      if view.row.None? { return Err(NotFound); }
      var state := view.row.value.state;
      Begin(fates, RepairOps(state, now));
      RepairEnds(view, now);
      var ok := true;
      match state {
        case Starting =>
          var running := Mark(Running, Some(now), None, None);
          assert plan == [StartVm] + ([running] + []);
          ok := Perform(StartVm, [running] + []);
          if ok { ok := Perform(running, []); }
        case Destroying =>
          var closed := Mark(State.Closed, None, StopTime(state, now), Some(now));
          assert plan == [DeleteVm] + ([closed] + []);
          ok := Perform(DeleteVm, [closed] + []);
          if ok { ok := Perform(closed, []); }
        case _ =>
          if state !in {Running, State.Stopped, State.Closed} { return Err(ManualRepair); }
      }
      ProgramEnded(ok);
      r := if ok then Ok(()) else Err(Interrupted);
    }
  }
}
