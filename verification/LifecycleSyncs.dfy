/** A sync close deletes a VM only when its work has reached the host (src/commands/close.rs). */
module LifecycleSyncs {

  import opened Common
  import opened SessionKinds
  import opened Lifecycle
  import opened LifecycleRuns

  // ---- One command ----

  /** Deletes only a VM whose work is saved. */
  predicate DeletesOnlySaved(v: View, ops: seq<Op>)
    decreases |ops|
  {
    ops == [] ||
    (&& (ops[0] == DeleteVm ==> v.vm.None? || v.vm.value.saved)
     && (Enabled(v, ops[0]) ==> DeletesOnlySaved(Apply(v, ops[0]), ops[1..])))
  }

  lemma DeletesCons(v: View, op: Op, rest: seq<Op>)
    requires op == DeleteVm ==> v.vm.None? || v.vm.value.saved
    requires Enabled(v, op) ==> DeletesOnlySaved(Apply(v, op), rest)
    ensures DeletesOnlySaved(v, [op] + rest)
  {
    assert ([op] + rest)[1..] == rest;
  }

  lemma FinishDeletesSaved(v: View, state: State, outcome: Outcome, now: Time)
    requires v.row.Some? && (v.vm.None? || v.vm.value.saved)
    ensures DeletesOnlySaved(v, FinishOps(state, outcome, now))
  {
    var sync := if outcome == KeepWork then Clean else Discarded;
    var closed := Mark(Closed, None, StopTime(state, now), Some(now));
    var v1 := Apply(v, Stamp(Destroying));
    var v2 := Apply(v1, DeleteVm);
    DeletesCons(Apply(v2, closed), MarkSync(sync), []);
    DeletesCons(v2, closed, [MarkSync(sync)] + []);
    DeletesCons(v1, DeleteVm, [closed] + ([MarkSync(sync)] + []));
    DeletesCons(v, Stamp(Destroying), [DeleteVm] + ([closed] + ([MarkSync(sync)] + [])));
    assert FinishOps(state, outcome, now) == [Stamp(Destroying)] + ([DeleteVm] + ([closed] + ([MarkSync(sync)] + [])));
  }

  /** With no guest commits made meanwhile, a sync close never deletes work that has not reached the host. */
  lemma SyncCloseLosesNothing(v: View, yes: bool, clean: bool, now: Time)
    requires Good(v) && v.row.Some?
    ensures DeletesOnlySaved(v, CloseOps(v.row.value, KeepWork, yes, clean, now))
  {
    var row := v.row.value;
    var finish := if yes && (SyncsFirst(row, KeepWork) ==> clean) then FinishOps(row.state, KeepWork, now) else [];
    if row.mode == Repo {
      if row.sync != Discarded {
        SyncThenFinishDeletesSaved(v, clean, finish, now);
      } else {
        if finish != [] { FinishDeletesSaved(v, row.state, KeepWork, now); }
        assert [] + finish == finish;
      }
    }
  }

  lemma SyncThenFinishDeletesSaved(v: View, clean: bool, finish: seq<Op>, now: Time)
    requires v.row.Some?
    requires finish == [] || (clean && finish == FinishOps(v.row.value.state, KeepWork, now))
    ensures DeletesOnlySaved(v, SyncOps(clean) + finish)
  {
    var tail := SyncEnd(clean) + finish;
    SyncOpsThen(clean, finish);
    if v.vm.Some? {
      var syncing := Apply(Apply(v, StartVm), Stamp(Syncing));
      if clean {
        var published := Apply(syncing, Publish);
        if finish != [] { FinishDeletesSaved(Apply(published, EndSync(true)), v.row.value.state, KeepWork, now); }
        DeletesCons(published, EndSync(true), finish);
        DeletesCons(syncing, Publish, [EndSync(true)] + finish);
      } else {
        DeletesCons(syncing, EndSync(false), finish);
      }
      DeletesCons(Apply(v, StartVm), Stamp(Syncing), tail);
    }
    DeletesCons(v, StartVm, [Stamp(Syncing)] + tail);
  }

  // ---- Whole runs ----

  /** What the guest commits now will still be published before anything is deleted. */
  predicate PublishIsAhead(ops: seq<Op>) {
    ops != [] && (ops[0] == Publish || (ops[0] != DeleteVm && PublishIsAhead(ops[1..])))
  }

  lemma {:induction false} CommitBeforePublish(v: View, v': View, ops: seq<Op>)
    requires DeletesOnlySaved(v, ops) && PublishIsAhead(ops) && SameButSaved(v, v')
    ensures DeletesOnlySaved(v', ops)
    decreases |ops|
  {
    if Enabled(v, ops[0]) && ops[0] != Publish {
      CommitBeforePublish(Apply(v, ops[0]), Apply(v', ops[0]), ops[1..]);
    }
  }

  /** What the session's running command still has to do deletes only what is saved. */
  predicate IsSaving(w: World, s: Name) {
    s in w.jobs && DeletesOnlySaved(ViewOf(w, s), w.jobs[s].ops)
  }

  /** The session's command goes on, and the guest commits nothing that would come too late. */
  predicate GoesOn(w: World, l: Label, s: Name) {
    && ((l.Begin? || l.End? || l.Fail? || l.Crash?) ==> l.session != s)
    && (l == GuestCommits(s) ==> s in w.jobs && PublishIsAhead(w.jobs[s].ops))
  }

  lemma NextIsSaving(w: World, l: Label, s: Name)
    requires IsSaving(w, s) && Allowed(w, l) && GoesOn(w, l, s) && Ordinary(s)
    ensures IsSaving(Next(w, l), s)
  {
    var v, w' := ViewOf(w, s), Next(w, l);
    match l
    case BaseChanges(platform, _) => SessionVmIsBaseIff(s, platform);
    case GuestCommits(t) =>
      if t == s {
        CommitBeforePublish(v, ViewOf(w', s), w.jobs[s].ops);
      } else {
        if VmName(t) == VmName(s) { VmNamesDiffer(t, s); }
        assert ViewOf(w', s) == v;
      }
    case Step(t) =>
      var after := Apply(ViewOf(w, t), w.jobs[t].ops[0]);
      if t == s { WithViewHas(w, s, after); } else { WithViewElsewhere(w, t, after, s); }
      assert ViewOf(w', s) == ViewOf(WithView(w, t, after), s);
    case Fail(t, left) =>
      WithViewElsewhere(w, t, left, s);
      assert ViewOf(w', s) == ViewOf(WithView(w, t, left), s);
    case Crash(t, left) =>
      WithViewElsewhere(w, t, left, s);
      assert ViewOf(w', s) == ViewOf(WithView(w, t, left), s);
    case _ => assert ViewOf(w', s) == v;
  }

  /**
   * In every run: as long as a sync close goes on, and unless the guest commits between the final publish
   * and the deletion, a VM that it is about to delete has no work that has not reached the host.
   */
  lemma {:induction false} SyncClosesDeleteOnlySaved(
      ws: seq<World>, ls: seq<Label>, i: nat, j: nat, s: Name, yes: bool, clean: bool, now: Time)
    requires IsRun(ws, ls) && Ordinary(s) && i < j < |ws| && ls[i] == Begin(s, Close(KeepWork, yes, clean), now)
    requires forall k :: i < k < j ==> GoesOn(ws[k], ls[k], s)
    ensures IsSaving(ws[j], s)
    ensures HasNext(ws[j], s) && ws[j].jobs[s].ops[0] == DeleteVm && VmName(s) in ws[j].vms ==> ws[j].vms[VmName(s)].saved
    decreases j
  {
    if j == i + 1 {
      RunIsFine(ws, ls, i, s);
      assert ViewOf(ws[j], s) == ViewOf(ws[i], s);
      if s in ws[i].rows { SyncCloseLosesNothing(ViewOf(ws[i], s), yes, clean, now); }
    } else {
      SyncClosesDeleteOnlySaved(ws, ls, i, j - 1, s, yes, clean, now);
      NextIsSaving(ws[j - 1], ls[j - 1], s);
    }
  }
}
