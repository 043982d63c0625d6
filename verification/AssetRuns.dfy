/** Whole runs of the asset cache: what readers, extractors and collectors can rely on. */
module AssetRuns {

  import opened AssetTree
  import opened AssetBundle
  import opened AssetNames
  import opened AssetProtocol
  import opened AssetSafety

  // ---- Every step keeps the invariant ----

  lemma CollectorStep(b: Bundles, w: World, pid: Pid, preserved: string, pc: CollectorPc, c: Choice)
    requires Inv(b, w) && pid in w.procs && w.procs[pid] == Collector(preserved, pc)
    requires EnabledCollector(w, preserved, pc, c)
    ensures Inv(b, NextCollector(w, pid, preserved, pc, c))
  {
    var w' := NextCollector(w, pid, preserved, pc, c);
    CollectorKeepsLock(w, pid, preserved, pc, c);
  }

  lemma ResolverStep(b: Bundles, w: World, pid: Pid, fp: string, pc: ResolverPc, c: Choice)
    requires ValidBundles(b) && Inv(b, w) && pid in w.procs && w.procs[pid] == Resolver(fp, pc)
    requires fp in b && EnabledResolver(b, w, fp, pc, c)
    ensures Inv(b, NextResolver(b, w, pid, fp, pc, c))
  {
    var w' := NextResolver(b, w, pid, fp, pc, c);
    assert Progress(b, w.root, w.now, w.procs[pid]);
    ResolverKeepsLock(b, w, pid, fp, pc, c);
    ResolverKeeps(b, w, pid, fp, pc, c);
    ResolverShape(b, w, pid, fp, pc, c);
  }

  /** A resolver changes directories only under the lock, and no process but itself. */
  lemma ResolverShape(b: Bundles, w: World, pid: Pid, fp: string, pc: ResolverPc, c: Choice)
    requires fp in b && EnabledResolver(b, w, fp, pc, c)
    ensures var w' := NextResolver(b, w, pid, fp, pc, c);
      && pid in w'.procs && w'.procs == w.procs[pid := w'.procs[pid]] && w'.now == w.now
      && (w'.root == w.root || Holds(Resolver(fp, pc)))
  {
  }

  lemma CrashKeeps(b: Bundles, w: World, pid: Pid)
    requires Inv(b, w) && pid in w.procs
    ensures Inv(b, To(w, pid, Stopped))
  {
    ToKeepsLock(w, To(w, pid, Stopped), pid, Stopped);
  }

  lemma NextKeepsInv(b: Bundles, w: World, l: Label)
    requires ValidBundles(b) && Enabled(b, w, l) && Inv(b, w)
    ensures Inv(b, Next(b, w, l))
  {
    match l
    case Go(pid, c) =>
      var p := w.procs[pid];
      if p.Resolver? { ResolverStep(b, w, pid, p.fp, p.pc, c); } else { CollectorStep(b, w, pid, p.preserved, p.cpc, c); }
    case Crash(pid) => CrashKeeps(b, w, pid);
    case Tick(time) =>
    case Resolve(pid, fp) =>
    case StartGc(pid, preserved) =>
  }

  lemma {:induction false} RunKeepsInv(b: Bundles, ws: seq<World>, ls: seq<Label>, i: nat)
    requires IsRun(b, ws, ls) && AllCanonicalsExact(b, ws[0].root) && i < |ws|
    ensures Inv(b, ws[i])
  {
    if i > 0 {
      RunKeepsInv(b, ws, ls, i - 1);
      NextKeepsInv(b, ws[i - 1], ls[i - 1]);
    }
  }

  // ---- An acceptable cache is a right one ----

  /**
   * At every moment of every run, whatever dies, deletes, or swaps: if a bundle's cache would be accepted,
   * every one of its assets is there, with exactly its embedded bytes and its final mode.
   */
  lemma AcceptableIsComplete(b: Bundles, ws: seq<World>, ls: seq<Label>, i: nat, fp: string)
    requires IsRun(b, ws, ls) && AllCanonicalsExact(b, ws[0].root) && i < |ws| && fp in b
    requires CanonicalName(fp) in ws[i].root && Acceptable(fp, b[fp], ws[i].root[CanonicalName(fp)], ws[i].now)
    ensures forall k :: 0 <= k < |b[fp]| ==> Installed(ws[i].root[CanonicalName(fp)].lima.value, b[fp][k])
  {
    RunKeepsInv(b, ws, ls, i);
    assert CanonicalExact(b, ws[i].root, fp);
  }

  /** This file of the bundle is there, as it should be. */
  ghost predicate IsRight(b: Bundles, w: World, fp: string, k: nat) {
    && fp in b && k < |b[fp]| && HasLima(w, CanonicalName(fp))
    && Installed(w.root[CanonicalName(fp)].lima.value, b[fp][k])
  }

  /** A reader without the lock sees changing directories, but every file it finds good is right when it looks. */
  lemma ReadersSeeRightFiles(b: Bundles, ws: seq<World>, ls: seq<Label>, i: nat)
    requires IsRun(b, ws, ls) && AllCanonicalsExact(b, ws[0].root) && i < |ls|
    requires ls[i].Go? && ws[i].procs[ls[i].pid].Resolver? && ws[i].procs[ls[i].pid].pc.LookAsset?
    requires ws[i + 1].procs[ls[i].pid] == Resolver(ws[i].procs[ls[i].pid].fp, LookAsset(ws[i].procs[ls[i].pid].pc.k + 1))
    ensures IsRight(b, ws[i], ws[i].procs[ls[i].pid].fp, ws[i].procs[ls[i].pid].pc.k)
  {
    RunKeepsInv(b, ws, ls, i);
    assert Enabled(b, ws[i], ls[i]);
    assert CanonicalExact(b, ws[i].root, ws[i].procs[ls[i].pid].fp);
  }

  /** A look without the lock that has come past this file. */
  predicate IsPast(w: World, pid: Pid, fp: string, k: nat) {
    && pid in w.procs && w.procs[pid].Resolver? && w.procs[pid].fp == fp
    && (w.procs[pid].pc.LookGuard? || (w.procs[pid].pc.LookAsset? && k < w.procs[pid].pc.k))
  }

  lemma {:induction false} PastFilesWereRight(b: Bundles, ws: seq<World>, ls: seq<Label>, i: nat, pid: Pid, fp: string, k: nat)
    returns (m: nat)
    requires IsRun(b, ws, ls) && AllCanonicalsExact(b, ws[0].root) && i < |ws|
    requires fp in b && k < |b[fp]| && IsPast(ws[i], pid, fp, k)
    ensures m < i && IsRight(b, ws[m], fp, k)
  {
    hide Enabled, Next, ValidBundles, IsRight;
    assert Enabled(b, ws[i - 1], ls[i - 1]) && ws[i] == Next(b, ws[i - 1], ls[i - 1]);
    if IsPast(ws[i - 1], pid, fp, k) {
      m := PastFilesWereRight(b, ws, ls, i - 1, pid, fp, k);
    } else {
      PastStep(b, ws[i - 1], ls[i - 1], pid, fp, k);
      ReadersSeeRightFiles(b, ws, ls, i - 1);
      m := i - 1;
    }
  }

  lemma PastStep(b: Bundles, w: World, l: Label, pid: Pid, fp: string, k: nat)
    requires Enabled(b, w, l) && fp in b && k < |b[fp]| && IsPast(Next(b, w, l), pid, fp, k) && !IsPast(w, pid, fp, k)
    ensures l.Go? && l.pid == pid && pid in w.procs && w.procs[pid] == Resolver(fp, LookAsset(k))
    ensures Next(b, w, l).procs[pid] == Resolver(fp, LookAsset(k + 1))
  {
    hide FileAt, Acceptable, IsRegular, FinalMode, Marked, FileOk, HasLima, Shrinks;
  }

  ghost predicate WasRight(b: Bundles, ws: seq<World>, i: nat, fp: string, k: nat)
    requires i <= |ws|
  {
    exists m :: 0 <= m < i && IsRight(b, ws[m], fp, k)
  }

  /**
   * So a reader that accepts the cache without the lock has found every embedded file in turn, each with
   * its exact bytes and final mode when it looked.
   */
  lemma AcceptingReadersSawEveryFile(b: Bundles, ws: seq<World>, ls: seq<Label>, i: nat, pid: Pid, fp: string)
    requires IsRun(b, ws, ls) && AllCanonicalsExact(b, ws[0].root) && i < |ls|
    requires pid in ws[i].procs && ws[i].procs[pid] == Resolver(fp, LookGuard)
    requires pid in ws[i + 1].procs && ws[i + 1].procs[pid] == Resolver(fp, Accepted(false))
    ensures fp in b && forall k :: 0 <= k < |b[fp]| ==> WasRight(b, ws, i, fp, k)
  {
    assert Enabled(b, ws[i], ls[i]) && ws[i + 1] == Next(b, ws[i], ls[i]);
    forall k | 0 <= k < |b[fp]| ensures WasRight(b, ws, i, fp, k) {
      var m := PastFilesWereRight(b, ws, ls, i, pid, fp, k);
    }
  }

  // ---- Extraction is left alone ----

  /** The scratch directory a running extraction owns. */
  predicate Owns(p: Proc, name: string) {
    p.Resolver? && match p.pc
      case MakeLima(s) => s == name
      case CreateFile(s, _) => s == name
      case WriteFile(s, _, _) => s == name
      case SetMode(s, _) => s == name
      case CreateMarker(s) => s == name
      case WriteMarker(s, _) => s == name
      case Decide(s) => s == name
      case Unmark(s) => s == name
      case MoveAside(s) => s == name
      case MoveIn(s, _) => s == name
      case _ => false
  }

  lemma OwnersHold(p: Proc, name: string)
    requires Owns(p, name)
    ensures Holds(p)
  {
  }

  /** No step of another process, collectors included, touches any directory while an extraction runs. */
  lemma ExtractionIsLeftAlone(b: Bundles, ws: seq<World>, ls: seq<Label>, i: nat, pid: Pid, scratch: string)
    requires IsRun(b, ws, ls) && AllCanonicalsExact(b, ws[0].root) && i < |ls|
    requires pid in ws[i].procs && Owns(ws[i].procs[pid], scratch)
    ensures scratch in ws[i].root
    ensures !(ls[i].Go? && ls[i].pid == pid) ==> ws[i + 1].root == ws[i].root
  {
    RunKeepsInv(b, ws, ls, i);
    OwnersHold(ws[i].procs[pid], scratch);
    assert Progress(b, ws[i].root, ws[i].now, ws[i].procs[pid]);
  }
}
