/**
 * Discarded does not always mean closed: closing again what has been discarded marks its row as being
 * destroyed first, and nothing else does (src/commands/close.rs, src/commands/repair.rs).
 */
module LifecycleDiscards {

  import opened Common
  import opened SessionKinds
  import opened Lifecycle
  import opened LifecycleRuns

  // ---- One command ----

  predicate DiscardedIsClosed(v: View) {
    v.row.Some? && v.row.value.sync == Discarded ==> v.row.value.state == Closed
  }

  ghost predicate AlwaysDiscardedIsClosed(v: View, ops: seq<Op>) {
    forall v' :: Attempt(v, ops, v') ==> DiscardedIsClosed(v')
  }

  /** Nothing before the last write makes a row discarded, and the last one finds it closed. */
  predicate DiscardsLast(v: View, ops: seq<Op>)
    decreases |ops|
  {
    && (v.row.Some? ==> v.row.value.sync != Discarded)
    && (ops != [] ==>
          if ops[0] == MarkSync(Discarded) then |ops| == 1 && v.row.Some? && v.row.value.state == Closed
          else Enabled(v, ops[0]) ==> DiscardsLast(Apply(v, ops[0]), ops[1..]))
  }

  lemma {:induction false} DiscardedOnlyLast(v: View, ops: seq<Op>, v': View)
    requires DiscardsLast(v, ops) && Attempt(v, ops, v')
    ensures DiscardedIsClosed(v')
    decreases |ops|
  {
    if ops != [] && !Half(v, ops[0], v') {
      if ops[0] != MarkSync(Discarded) {
        DiscardedOnlyLast(Apply(v, ops[0]), ops[1..], v');
      }
    }
  }

  lemma DiscardsCons(v: View, op: Op, rest: seq<Op>)
    requires v.row.Some? && v.row.value.sync != Discarded
    requires if op == MarkSync(Discarded) then rest == [] && v.row.value.state == Closed
             else Enabled(v, op) ==> DiscardsLast(Apply(v, op), rest)
    ensures DiscardsLast(v, [op] + rest)
  {
    assert ([op] + rest)[1..] == rest;
  }

  lemma FinishDiscardsLast(v: View, state: State, outcome: Outcome, now: Time)
    requires v.row.Some? && v.row.value.sync != Discarded
    ensures DiscardsLast(v, FinishOps(state, outcome, now))
  {
    var sync := if outcome == KeepWork then Clean else Discarded;
    var closed := Mark(Closed, None, StopTime(state, now), Some(now));
    var v1 := Apply(v, Stamp(Destroying));
    var v2 := Apply(v1, DeleteVm);
    DiscardsCons(Apply(v2, closed), MarkSync(sync), []);
    DiscardsCons(v2, closed, [MarkSync(sync)] + []);
    DiscardsCons(v1, DeleteVm, [closed] + ([MarkSync(sync)] + []));
    DiscardsCons(v, Stamp(Destroying), [DeleteVm] + ([closed] + ([MarkSync(sync)] + [])));
    assert FinishOps(state, outcome, now) == [Stamp(Destroying)] + ([DeleteVm] + ([closed] + ([MarkSync(sync)] + [])));
  }

  lemma SyncDiscardsLast(v: View, clean: bool, finish: seq<Op>)
    requires v.row.Some? && v.row.value.sync != Discarded
    requires forall v': View :: v'.row.Some? && v'.row.value.sync != Discarded ==> DiscardsLast(v', finish)
    ensures DiscardsLast(v, SyncOps(clean) + finish)
  {
    var tail := SyncEnd(clean) + finish;
    SyncOpsThen(clean, finish);
    if v.vm.Some? {
      var syncing := Apply(Apply(v, StartVm), Stamp(Syncing));
      if clean {
        DiscardsCons(Apply(syncing, Publish), EndSync(true), finish);
        DiscardsCons(syncing, Publish, [EndSync(true)] + finish);
      } else {
        DiscardsCons(syncing, EndSync(false), finish);
      }
      DiscardsCons(Apply(v, StartVm), Stamp(Syncing), tail);
    }
    DiscardsCons(v, StartVm, [Stamp(Syncing)] + tail);
  }

  lemma CloseWritesDiscardedLast(v: View, outcome: Outcome, yes: bool, clean: bool, now: Time)
    requires v.row.Some? && v.row.value.sync != Discarded
    ensures DiscardsLast(v, CloseOps(v.row.value, outcome, yes, clean, now))
  {
    var row := v.row.value;
    var finish := if yes && (SyncsFirst(row, outcome) ==> clean) then FinishOps(row.state, outcome, now) else [];
    forall v': View | v'.row.Some? && v'.row.value.sync != Discarded ensures DiscardsLast(v', finish) {
      if finish != [] { FinishDiscardsLast(v', row.state, outcome, now); }
    }
    if SyncsFirst(row, outcome) {
      SyncDiscardsLast(v, clean, finish);
    } else {
      assert [] + finish == finish;
    }
  }

  lemma {:induction false} NeverDiscards(v: View, ops: seq<Op>, v': View)
    requires MarkSync(Discarded) !in ops && Attempt(v, ops, v')
    requires v.row.Some? ==> v.row.value.sync != Discarded
    ensures DiscardedIsClosed(v')
    decreases |ops|
  {
    if ops != [] && !Half(v, ops[0], v') {
      NeverDiscards(Apply(v, ops[0]), ops[1..], v');
    }
  }

  /** A confirmed close, other than the sync close that a sandbox session is refused. */
  predicate ClosesDiscarded(v: View, c: Command) {
    && v.row.Some? && v.row.value.sync == Discarded
    && c.Close? && c.yes && !(v.row.value.mode == Sandbox && c.outcome == KeepWork)
  }

  /**
   * Every command keeps discarded sessions closed at every point where it may stop, exactly when it is not
   * a confirmed close of a discarded session.
   */
  lemma CommandKeepsDiscardedClosedIff(v: View, c: Command, now: Time)
    requires Good(v) && DiscardedIsClosed(v)
    ensures AlwaysDiscardedIsClosed(v, Program(v, c, now)) <==> !ClosesDiscarded(v, c)
  {
    if ClosesDiscarded(v, c) {
      ClosingAgainReopens(v, c, now);
    } else if v.row.Some? && v.row.value.sync == Discarded {
      forall v' | Attempt(v, Program(v, c, now), v') ensures DiscardedIsClosed(v') {
        NothingLeftToDo(v, c, now, v');
      }
    } else {
      forall v' | Attempt(v, Program(v, c, now), v') ensures DiscardedIsClosed(v') {
        FirstDiscardCloses(v, c, now, v');
      }
    }
  }

  lemma ClosingAgainReopens(v: View, c: Command, now: Time)
    requires Good(v) && DiscardedIsClosed(v) && ClosesDiscarded(v, c)
    ensures !AlwaysDiscardedIsClosed(v, Program(v, c, now))
  {
    var ops, again := Program(v, c, now), Apply(v, Stamp(Destroying));
    assert ops == [] + FinishOps(v.row.value.state, c.outcome, now);
    assert ops[0] == Stamp(Destroying);
    assert Half(v, ops[0], again) && Attempt(v, ops, again) && !DiscardedIsClosed(again);
  }

  /** Without its VM a closed session can neither be started, stopped nor synced. */
  lemma NothingLeftToDo(v: View, c: Command, now: Time, v': View)
    requires Good(v) && DiscardedIsClosed(v) && v.row.Some? && v.row.value.sync == Discarded
    requires !ClosesDiscarded(v, c) && Attempt(v, Program(v, c, now), v')
    ensures v' == v
  {
  }

  lemma FirstDiscardCloses(v: View, c: Command, now: Time, v': View)
    requires v.row.Some? ==> v.row.value.sync != Discarded
    requires Attempt(v, Program(v, c, now), v')
    ensures DiscardedIsClosed(v')
  {
    if c.Close? && v.row.Some? {
      CloseWritesDiscardedLast(v, c.outcome, c.yes, c.clean, now);
      DiscardedOnlyLast(v, Program(v, c, now), v');
    } else {
      NeverDiscards(v, Program(v, c, now), v');
    }
  }

  // ---- Whole runs ----

  /** A session's discarded row is closed, and stays so wherever its running command stops. */
  ghost predicate StaysClosed(w: World, t: Name) {
    && DiscardedIsClosed(ViewOf(w, t))
    && (t in w.jobs ==> AlwaysDiscardedIsClosed(ViewOf(w, t), w.jobs[t].ops))
  }

  /** The moment somebody begins to close again what this session has discarded. */
  predicate BeginsClosingAgain(w: World, l: Label, t: Name) {
    l.Begin? && l.session == t && ClosesDiscarded(ViewOf(w, t), l.command)
  }

  lemma StepStaysClosed(v: View, ops: seq<Op>)
    requires ops != [] && AlwaysDiscardedIsClosed(v, ops) && Enabled(v, ops[0])
    ensures DiscardedIsClosed(Apply(v, ops[0])) && AlwaysDiscardedIsClosed(Apply(v, ops[0]), ops[1..])
  {
    assert Attempt(v, ops, Apply(v, ops[0]));
    forall v' | Attempt(Apply(v, ops[0]), ops[1..], v') ensures DiscardedIsClosed(v') {
      assert Attempt(v, ops, v');
    }
  }

  lemma TakingBackStaysClosed(v: View, ops: seq<Op>)
    requires DiscardedIsClosed(v) && (ops == ROLLBACK || ops == ROLLBACK[1..])
    ensures AlwaysDiscardedIsClosed(v, ops)
  {
    assert ROLLBACK[1..] == [DeleteVm] && [DeleteVm][1..] == [];
    forall v' | Attempt(v, ops, v') ensures DiscardedIsClosed(v') {
    }
  }

  lemma {:induction false} AttemptIgnoresSaving(v: View, v': View, ops: seq<Op>, end': View) returns (end: View)
    requires SameButSaved(v, v') && Attempt(v', ops, end')
    ensures Attempt(v, ops, end) && SameButSaved(end, end')
    decreases |ops|
  {
    if ops == [] {
      end := v;
    } else if Half(v', ops[0], end') {
      end := HalfIgnoresSaving(v, v', ops[0], end');
    } else {
      end := AttemptIgnoresSaving(Apply(v, ops[0]), Apply(v', ops[0]), ops[1..], end');
    }
  }

  lemma HalfIgnoresSaving(v: View, v': View, op: Op, half': View) returns (half: View)
    requires SameButSaved(v, v') && Half(v', op, half')
    ensures Half(v, op, half) && SameButSaved(half, half')
  {
    half := if half' == v' then v
            else if Enabled(v', op) && half' == Apply(v', op) then Apply(v, op)
            else v.(vm := Some(v.vm.value.(up := half'.vm.value.up)));
  }

  lemma OwnStepStaysClosed(w: World, l: Label, t: Name)
    requires Fine(w, t) && StaysClosed(w, t) && Allowed(w, l) && !BeginsClosingAgain(w, l, t)
    requires !l.BaseChanges? && l.session == t && !l.GuestCommits?
    ensures StaysClosed(Next(w, l), t)
  {
    var v, w' := ViewOf(w, t), Next(w, l);
    match l
    case Begin(_, c, now) =>
      CommandKeepsDiscardedClosedIff(v, c, now);
      assert ViewOf(w', t) == v;
    case Step(_) =>
      var ops := w.jobs[t].ops;
      WithViewHas(w, t, Apply(v, ops[0]));
      assert ViewOf(w', t) == ViewOf(WithView(w, t, Apply(v, ops[0])), t);
      StepStaysClosed(v, ops);
    case End(_) => assert ViewOf(w', t) == v;
    case Fail(_, left) =>
      WithViewHas(w, t, left);
      assert ViewOf(w', t) == ViewOf(WithView(w, t, left), t);
      assert Attempt(v, w.jobs[t].ops, left);
      TakingBackStaysClosed(left, ROLLBACK);
      TakingBackStaysClosed(left, ROLLBACK[1..]);
    case Crash(_, left) =>
      WithViewHas(w, t, left);
      assert ViewOf(w', t) == ViewOf(WithView(w, t, left), t);
      assert Attempt(v, w.jobs[t].ops, left);
  }

  lemma NextStaysClosed(w: World, l: Label, t: Name)
    requires Fine(w, t) && StaysClosed(w, t) && Allowed(w, l) && Ordinary(t) && !BeginsClosingAgain(w, l, t)
    ensures StaysClosed(Next(w, l), t)
  {
    if l.BaseChanges? {
      BaseChangesIsFine(w, l.platform, l.vm, t);
    } else if l.session != t {
      if l.GuestCommits? {
        if VmName(l.session) == VmName(t) { VmNamesDiffer(l.session, t); }
        assert ViewOf(Next(w, l), t) == ViewOf(w, t);
      } else {
        OthersAreFine(w, l, t);
      }
    } else if l.GuestCommits? {
      CommitStaysClosed(w, t);
    } else {
      OwnStepStaysClosed(w, l, t);
    }
  }

  lemma CommitStaysClosed(w: World, t: Name)
    requires StaysClosed(w, t) && Allowed(w, GuestCommits(t))
    ensures StaysClosed(Next(w, GuestCommits(t)), t)
  {
    var v, v' := ViewOf(w, t), ViewOf(Next(w, GuestCommits(t)), t);
    if t in w.jobs {
      forall end' | Attempt(v', w.jobs[t].ops, end') ensures DiscardedIsClosed(end') {
        var end := AttemptIgnoresSaving(v, v', w.jobs[t].ops, end');
      }
    }
  }

  lemma {:induction false} RunStaysClosed(ws: seq<World>, ls: seq<Label>, i: nat, t: Name)
    requires IsRun(ws, ls) && i < |ws| && Ordinary(t)
    requires forall k :: 0 <= k < i ==> !BeginsClosingAgain(ws[k], ls[k], t)
    ensures StaysClosed(ws[i], t)
  {
    if i > 0 {
      RunStaysClosed(ws, ls, i - 1, t);
      RunIsFine(ws, ls, i - 1, t);
      NextStaysClosed(ws[i - 1], ls[i - 1], t);
    }
  }

  /**
   * In every run, at every moment: a discarded session is closed, unless somebody has begun a confirmed
   * close of it when it was discarded already.
   */
  lemma DiscardedIsClosedUnlessClosedAgain(ws: seq<World>, ls: seq<Label>, i: nat, t: Name)
    requires IsRun(ws, ls) && i < |ws| && Ordinary(t) && t in ws[i].rows && ws[i].rows[t].sync == Discarded
    ensures ws[i].rows[t].state == Closed || exists k :: 0 <= k < i && BeginsClosingAgain(ws[k], ls[k], t)
  {
    if forall k :: 0 <= k < i ==> !BeginsClosingAgain(ws[k], ls[k], t) {
      RunStaysClosed(ws, ls, i, t);
      assert ViewOf(ws[i], t).row == Some(ws[i].rows[t]);
    }
  }

  // ---- A run that gets there ----

  lemma Extend(ws: seq<World>, ls: seq<Label>, l: Label)
    requires IsRun(ws, ls) && Allowed(ws[|ls|], l)
    ensures IsRun(ws + [Next(ws[|ls|], l)], ls + [l])
  {
  }

  /** A running command whose writes all work. */
  lemma {:induction false} Follow(ws: seq<World>, ls: seq<Label>, s: Name) returns (ws': seq<World>, ls': seq<Label>)
    requires IsRun(ws, ls) && s in ws[|ls|].jobs && Run(ViewOf(ws[|ls|], s), ws[|ls|].jobs[s].ops).Some?
    ensures IsRun(ws', ls') && s in ws'[|ls'|].jobs && ws'[|ls'|].jobs[s].ops == []
    ensures Some(ViewOf(ws'[|ls'|], s)) == Run(ViewOf(ws[|ls|], s), ws[|ls|].jobs[s].ops)
    decreases |ws[|ls|].jobs[s].ops|
  {
    var w := ws[|ls|];
    if w.jobs[s].ops == [] {
      ws', ls' := ws, ls;
    } else {
      Extend(ws, ls, Step(s));
      StepMoves(w, s);
      ws', ls' := Follow(ws + [Next(w, Step(s))], ls + [Step(s)], s);
    }
  }

  lemma StepMoves(w: World, s: Name)
    requires Allowed(w, Step(s))
    ensures var w' := Next(w, Step(s));
      s in w'.jobs && w'.jobs[s].ops == w.jobs[s].ops[1..] && ViewOf(w', s) == Apply(ViewOf(w, s), w.jobs[s].ops[0])
  {
    WithViewHas(w, s, Apply(ViewOf(w, s), w.jobs[s].ops[0]));
  }

  /** A whole command whose writes all work. */
  lemma Complete(ws: seq<World>, ls: seq<Label>, s: Name, c: Command, now: Time) returns (ws': seq<World>, ls': seq<Label>)
    requires IsRun(ws, ls) && s !in ws[|ls|].jobs
    requires Run(ViewOf(ws[|ls|], s), Program(ViewOf(ws[|ls|], s), c, now)).Some?
    ensures IsRun(ws', ls') && s !in ws'[|ls'|].jobs
    ensures Some(ViewOf(ws'[|ls'|], s)) == Run(ViewOf(ws[|ls|], s), Program(ViewOf(ws[|ls|], s), c, now))
  {
    var w := ws[|ls|];
    var begun := Next(w, Begin(s, c, now));
    Extend(ws, ls, Begin(s, c, now));
    assert ViewOf(begun, s) == ViewOf(w, s);
    ws', ls' := Follow(ws + [begun], ls + [Begin(s, c, now)], s);
    var done := ws'[|ls'|];
    Extend(ws', ls', End(s));
    assert ViewOf(Next(done, End(s)), s) == ViewOf(done, s);
    ws', ls' := ws' + [Next(done, End(s))], ls' + [End(s)];
  }

  lemma LaunchWorks(now: Time)
    ensures var end := Run(View(None, None, false), LaunchOps(Sandbox, now)); end.Some? && end.value.row.Some?
  {
    var v0 := View(None, None, false);
    var v1 := Apply(v0, Insert(Sandbox));
    var v2 := Apply(v1, CloneVm);
    var v3 := Apply(v2, Checkpoint);
    var v4 := Apply(v3, Stamp(Starting));
    var v5 := Apply(v4, StartVm);
    var v6 := Apply(v5, Stamp(Seeding));
    var running := Mark(Running, Some(now), None, None);
    var tail := [running] + ([DropRetry] + []);
    RunCons(Apply(v6, running), DropRetry, []);
    RunCons(v6, running, [DropRetry] + []);
    RunCons(v5, Stamp(Seeding), tail);
    RunCons(v4, StartVm, [Stamp(Seeding)] + tail);
    RunCons(v3, Stamp(Starting), [StartVm] + ([Stamp(Seeding)] + tail));
    RunCons(v2, Checkpoint, [Stamp(Starting)] + ([StartVm] + ([Stamp(Seeding)] + tail)));
    RunCons(v1, CloneVm, [Checkpoint] + ([Stamp(Starting)] + ([StartVm] + ([Stamp(Seeding)] + tail))));
    RunCons(v0, Insert(Sandbox), [CloneVm] + ([Checkpoint] + ([Stamp(Starting)] + ([StartVm] + ([Stamp(Seeding)] + tail)))));
    assert LaunchOps(Sandbox, now) ==
      [Insert(Sandbox)] + ([CloneVm] + ([Checkpoint] + ([Stamp(Starting)] + ([StartVm] + ([Stamp(Seeding)] + tail)))));
  }

  lemma DiscardWorks(v: View, clean: bool, now: Time)
    requires v.row.Some?
    ensures var end := Run(v, Program(v, Close(DropWork, true, clean), now));
      end.Some? && end.value.row.Some? && end.value.row.value.sync == Discarded
  {
    FinishRuns(v, v.row.value.state, DropWork, now);
    assert [] + FinishOps(v.row.value.state, DropWork, now) == FinishOps(v.row.value.state, DropWork, now);
  }

  /** A session launched, discarded, and discarded again up to the first write. */
  lemma DiscardedButBeingDestroyed(s: Name) returns (ws: seq<World>, ls: seq<Label>)
    ensures IsRun(ws, ls) && s in ws[|ls|].rows
    ensures ws[|ls|].rows[s].sync == Discarded && ws[|ls|].rows[s].state == Destroying
  {
    var discard := Close(DropWork, true, false);
    LaunchWorks(0);
    ws, ls := Complete([World(map[], map[], {}, map[])], [], s, Launch(Sandbox), 0);
    DiscardWorks(ViewOf(ws[|ls|], s), false, 0);
    ws, ls := Complete(ws, ls, s, discard, 0);
    Extend(ws, ls, Begin(s, discard, 0));
    var w := Next(ws[|ls|], Begin(s, discard, 0));
    ws, ls := ws + [w], ls + [Begin(s, discard, 0)];
    FirstOpDestroys(ViewOf(w, s), false, 0);
    Extend(ws, ls, Step(s));
    StepMoves(w, s);
    ws, ls := ws + [Next(w, Step(s))], ls + [Step(s)];
  }

  lemma FirstOpDestroys(v: View, clean: bool, now: Time)
    requires v.row.Some?
    ensures var ops := Program(v, Close(DropWork, true, clean), now); ops != [] && ops[0] == Stamp(Destroying)
  {
  }
}
