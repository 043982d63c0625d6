/** Racing resolvers extract once, and a resolver on its own recovers from whatever others left behind. */
module AssetRecovery {

  import opened AssetBundle
  import opened AssetNames
  import opened AssetProtocol
  import opened AssetSafety
  import opened AssetRuns

  // ---- At most one extraction ----

  /** Deciding to extract, or extracting and not yet committed. */
  predicate Uncommitted(p: Proc, fp: string) {
    p.Resolver? && p.fp == fp && Holds(p) && !p.pc.Recheck? && !p.pc.Clean?
  }

  predicate Extracting(p: Proc, fp: string) {
    Uncommitted(p, fp) && !p.pc.MakeScratch?
  }

  predicate OnlyResolvers(w: World) {
    forall pid :: pid in w.procs ==> !w.procs[pid].Collector?
  }

  /** A bundle's directory is there only once complete, and nobody extracts it while it is there. */
  ghost predicate Once(b: Bundles, w: World, fp: string)
    requires fp in b
  {
    && (CanonicalName(fp) in w.root ==> Ready(fp, b[fp], w.root[CanonicalName(fp)]))
    && forall pid :: pid in w.procs && Uncommitted(w.procs[pid], fp) ==> CanonicalName(fp) !in w.root
  }

  /** The bundle has been extracted, or is being. */
  ghost predicate Begun(w: World, fp: string) {
    CanonicalName(fp) in w.root || exists pid :: pid in w.procs && Extracting(w.procs[pid], fp)
  }

  /** An extraction touches only its own canonical name and scratch names. */
  lemma ResolverTouches(b: Bundles, w: World, pid: Pid, fp: string, pc: ResolverPc, c: Choice, name: string)
    requires fp in b && EnabledResolver(b, w, fp, pc, c) && PcProgress(b[fp], w.root, w.now, fp, pc)
    requires name != CanonicalName(fp) && !IsScratchName(name)
    ensures Same(w.root, NextResolver(b, w, pid, fp, pc, c).root, name)
  {
    if pc.MakeScratch? || pc.MoveAside? { ScratchNamesAreScratch(fp, c.text); }
  }

  /** Before it commits, an extraction leaves its canonical name alone. */
  lemma BeforeCommit(b: Bundles, w: World, pid: Pid, fp: string, pc: ResolverPc, c: Choice)
    requires fp in b && PlainFingerprint(fp) && EnabledResolver(b, w, fp, pc, c)
    requires PcProgress(b[fp], w.root, w.now, fp, pc)
    requires !pc.Decide? && !pc.Unmark? && !pc.MoveAside? && !pc.MoveIn?
    ensures Same(w.root, NextResolver(b, w, pid, fp, pc, c).root, CanonicalName(fp))
  {
    CanonicalIsNotScratch(fp);
    if pc.MakeScratch? { ScratchNamesAreScratch(fp, c.text); }
  }

  /** What a step of a resolver for this bundle must do for the bundle to be extracted once. */
  ghost predicate OnceStep(b: Bundles, w: World, pid: Pid, fp: string, pc: ResolverPc, c: Choice)
    requires fp in b && EnabledResolver(b, w, fp, pc, c)
  {
    var w' := NextResolver(b, w, pid, fp, pc, c);
    && pid in w'.procs
    && (CanonicalName(fp) in w.root ==> Same(w.root, w'.root, CanonicalName(fp)))
    && (CanonicalName(fp) in w'.root ==> Ready(fp, b[fp], w'.root[CanonicalName(fp)]))
    && (Uncommitted(w'.procs[pid], fp) ==> CanonicalName(fp) !in w'.root)
    && (Extracting(Resolver(fp, pc), fp) || pc.MakeScratch? ==>
          CanonicalName(fp) in w'.root || Extracting(w'.procs[pid], fp))
  }

  lemma CommitStep(b: Bundles, w: World, pid: Pid, fp: string, pc: ResolverPc, c: Choice)
    requires fp in b && PlainFingerprint(fp) && EnabledResolver(b, w, fp, pc, c)
    requires PcProgress(b[fp], w.root, w.now, fp, pc) && CanonicalName(fp) !in w.root
    requires pc.Decide? || pc.MoveIn?
    ensures OnceStep(b, w, pid, fp, pc, c)
  {
    ScratchIsNotCanonical(fp, pc.scratch);
  }

  lemma UncommittedStep(b: Bundles, w: World, pid: Pid, fp: string, pc: ResolverPc, c: Choice)
    requires fp in b && PlainFingerprint(fp) && EnabledResolver(b, w, fp, pc, c)
    requires PcProgress(b[fp], w.root, w.now, fp, pc) && CanonicalName(fp) !in w.root
    requires Uncommitted(Resolver(fp, pc), fp) && !pc.Decide? && !pc.Unmark? && !pc.MoveAside? && !pc.MoveIn?
    ensures OnceStep(b, w, pid, fp, pc, c)
  {
    BeforeCommit(b, w, pid, fp, pc, c);
  }

  lemma IdleStep(b: Bundles, w: World, pid: Pid, fp: string, pc: ResolverPc, c: Choice)
    requires fp in b && PlainFingerprint(fp) && EnabledResolver(b, w, fp, pc, c)
    requires PcProgress(b[fp], w.root, w.now, fp, pc)
    requires !Uncommitted(Resolver(fp, pc), fp)
    requires CanonicalName(fp) in w.root ==> Ready(fp, b[fp], w.root[CanonicalName(fp)])
    ensures OnceStep(b, w, pid, fp, pc, c)
  {
    BeforeCommit(b, w, pid, fp, pc, c);
    if pc.Recheck? && CanonicalName(fp) in w.root {
      ReadyIsAcceptable(fp, b[fp], w.root[CanonicalName(fp)], w.now);
    }
  }

  /** A step of a resolver for this bundle. */
  lemma OwnStep(b: Bundles, w: World, pid: Pid, fp: string, pc: ResolverPc, c: Choice)
    requires ValidBundles(b) && Inv(b, w) && fp in b && Once(b, w, fp)
    requires pid in w.procs && w.procs[pid] == Resolver(fp, pc) && EnabledResolver(b, w, fp, pc, c)
    ensures OnceStep(b, w, pid, fp, pc, c)
  {
    assert Progress(b, w.root, w.now, w.procs[pid]);
    if !Uncommitted(Resolver(fp, pc), fp) {
      IdleStep(b, w, pid, fp, pc, c);
    } else {
      assert Uncommitted(w.procs[pid], fp) && CanonicalName(fp) !in w.root;
      if pc.Decide? || pc.MoveIn? {
        CommitStep(b, w, pid, fp, pc, c);
      } else if !pc.Unmark? && !pc.MoveAside? {
        UncommittedStep(b, w, pid, fp, pc, c);
      }
    }
  }

  /** No deaths and no collectors. */
  predicate Calm(l: Label) {
    !l.Crash? && !l.StartGc?
  }

  lemma CalmStep(b: Bundles, w: World, l: Label, fp: string)
    requires ValidBundles(b) && Inv(b, w) && OnlyResolvers(w) && fp in b && Once(b, w, fp)
    requires Enabled(b, w, l) && Calm(l)
    ensures OnlyResolvers(Next(b, w, l)) && Once(b, Next(b, w, l), fp)
    ensures Begun(w, fp) ==> Begun(Next(b, w, l), fp)
  {
    if l.Go? {
      var p := w.procs[l.pid];
      assert Progress(b, w.root, w.now, p);
      ResolverShape(b, w, l.pid, p.fp, p.pc, l.choice);
      GoIsResolver(b, w, l.pid, p.fp, p.pc, l.choice);
      if p.fp == fp {
        OwnStep(b, w, l.pid, fp, p.pc, l.choice);
        OwnStepKeepsOnce(b, w, Next(b, w, l), l.pid, fp);
      } else {
        CanonicalIsNotScratch(fp);
        if CanonicalName(fp) == CanonicalName(p.fp) { CanonicalNamesDiffer(fp, p.fp); }
        ResolverTouches(b, w, l.pid, p.fp, p.pc, l.choice, CanonicalName(fp));
        OtherStepKeepsOnce(b, w, Next(b, w, l), l.pid, fp);
      }
    } else {
      assert Next(b, w, l).root == w.root;
      forall pid | pid in Next(b, w, l).procs && Uncommitted(Next(b, w, l).procs[pid], fp)
        ensures CanonicalName(fp) !in w.root
      {
        assert pid in w.procs && Uncommitted(w.procs[pid], fp);
      }
      if pid :| pid in w.procs && Extracting(w.procs[pid], fp) {
        assert pid in Next(b, w, l).procs && Extracting(Next(b, w, l).procs[pid], fp);
      }
    }
  }

  lemma GoIsResolver(b: Bundles, w: World, pid: Pid, fp: string, pc: ResolverPc, c: Choice)
    requires fp in b && EnabledResolver(b, w, fp, pc, c)
    ensures var p := NextResolver(b, w, pid, fp, pc, c).procs[pid]; !p.Collector? && (p.Resolver? ==> p.fp == fp)
  {
  }

  lemma OwnStepKeepsOnce(b: Bundles, w: World, w': World, pid: Pid, fp: string)
    requires LockTells(w) && fp in b && Once(b, w, fp) && pid in w.procs && pid in w'.procs
    requires w'.procs == w.procs[pid := w'.procs[pid]] && w.procs[pid].Resolver? && w.procs[pid].fp == fp
    requires w'.root == w.root || Holds(w.procs[pid])
    requires CanonicalName(fp) in w.root ==> Same(w.root, w'.root, CanonicalName(fp))
    requires CanonicalName(fp) in w'.root ==> Ready(fp, b[fp], w'.root[CanonicalName(fp)])
    requires Uncommitted(w'.procs[pid], fp) ==> CanonicalName(fp) !in w'.root
    requires Extracting(w.procs[pid], fp) || w.procs[pid].pc.MakeScratch? ==>
      CanonicalName(fp) in w'.root || Extracting(w'.procs[pid], fp)
    ensures Once(b, w', fp)
    ensures Begun(w, fp) ==> Begun(w', fp)
  {
    forall other | other in w'.procs && Uncommitted(w'.procs[other], fp) ensures CanonicalName(fp) !in w'.root {
      if other != pid { assert Uncommitted(w.procs[other], fp); }
    }
    if other :| other in w.procs && Extracting(w.procs[other], fp) {
      if other != pid { assert other in w'.procs && Extracting(w'.procs[other], fp); }
    }
  }

  lemma OtherStepKeepsOnce(b: Bundles, w: World, w': World, pid: Pid, fp: string)
    requires fp in b && Once(b, w, fp) && pid in w.procs && pid in w'.procs
    requires w'.procs == w.procs[pid := w'.procs[pid]] && !Uncommitted(w'.procs[pid], fp)
    requires !Uncommitted(w.procs[pid], fp)
    requires Same(w.root, w'.root, CanonicalName(fp))
    ensures Once(b, w', fp)
    ensures Begun(w, fp) ==> Begun(w', fp)
  {
    if other :| other in w.procs && Extracting(w.procs[other], fp) {
      assert other in w'.procs && Extracting(w'.procs[other], fp);
    }
  }

  /** The moment a resolver begins to extract a bundle. */
  predicate Starts(ws: seq<World>, ls: seq<Label>, i: nat, fp: string)
    requires i < |ls| && i < |ws|
  {
    ls[i].Go? && ls[i].pid in ws[i].procs && ws[i].procs[ls[i].pid] == Resolver(fp, MakeScratch)
  }

  ghost predicate CalmRun(b: Bundles, ws: seq<World>, ls: seq<Label>, fp: string) {
    && IsRun(b, ws, ls) && AllCanonicalsExact(b, ws[0].root) && fp in b
    && CanonicalName(fp) !in ws[0].root
    && forall i :: 0 <= i < |ls| ==> Calm(ls[i])
  }

  lemma {:induction false} CalmRunKeepsOnce(b: Bundles, ws: seq<World>, ls: seq<Label>, fp: string, i: nat)
    requires CalmRun(b, ws, ls, fp) && i < |ws|
    ensures OnlyResolvers(ws[i]) && Once(b, ws[i], fp)
  {
    if i > 0 {
      CalmRunKeepsOnce(b, ws, ls, fp, i - 1);
      RunKeepsInv(b, ws, ls, i - 1);
      CalmStep(b, ws[i - 1], ls[i - 1], fp);
    }
  }

  lemma {:induction false} BegunStays(b: Bundles, ws: seq<World>, ls: seq<Label>, fp: string, i: nat, j: nat)
    requires CalmRun(b, ws, ls, fp) && i <= j < |ws| && Begun(ws[i], fp)
    ensures Begun(ws[j], fp)
    decreases j - i
  {
    if i < j {
      BegunStays(b, ws, ls, fp, i, j - 1);
      CalmRunKeepsOnce(b, ws, ls, fp, j - 1);
      RunKeepsInv(b, ws, ls, j - 1);
      CalmStep(b, ws[j - 1], ls[j - 1], fp);
    }
  }

  lemma StartBegins(b: Bundles, ws: seq<World>, ls: seq<Label>, fp: string, i: nat)
    requires CalmRun(b, ws, ls, fp) && i < |ls| && Starts(ws, ls, i, fp)
    ensures Begun(ws[i + 1], fp)
  {
    CalmRunKeepsOnce(b, ws, ls, fp, i);
    RunKeepsInv(b, ws, ls, i);
    assert Enabled(b, ws[i], ls[i]) && ws[i + 1] == Next(b, ws[i], ls[i]);
    OwnStep(b, ws[i], ls[i].pid, fp, MakeScratch, ls[i].choice);
  }

  /** From a cold cache, any number of racing resolvers begin to extract a bundle at most once. */
  lemma AtMostOneExtraction(b: Bundles, ws: seq<World>, ls: seq<Label>, fp: string, i: nat, j: nat)
    requires CalmRun(b, ws, ls, fp) && i < |ls| && j < |ls|
    requires Starts(ws, ls, i, fp) && Starts(ws, ls, j, fp)
    ensures i == j
  {
    if i < j { NoSecondStart(b, ws, ls, fp, i, j); } else if j < i { NoSecondStart(b, ws, ls, fp, j, i); }
  }

  lemma NoSecondStart(b: Bundles, ws: seq<World>, ls: seq<Label>, fp: string, i: nat, j: nat)
    requires CalmRun(b, ws, ls, fp) && i < j < |ls| && Starts(ws, ls, i, fp)
    ensures !Starts(ws, ls, j, fp)
  {
    StartBegins(b, ws, ls, fp, i);
    BegunStays(b, ws, ls, fp, i + 1, j);
    CalmRunKeepsOnce(b, ws, ls, fp, j);
    RunKeepsInv(b, ws, ls, j);
    if ls[j].Go? && ls[j].pid in ws[j].procs {
      LoneStarter(b, ws[j], ls[j].pid, fp);
    }
  }

  lemma LoneStarter(b: Bundles, w: World, pid: Pid, fp: string)
    requires LockTells(w) && fp in b && Once(b, w, fp) && Begun(w, fp) && pid in w.procs
    ensures w.procs[pid] != Resolver(fp, MakeScratch)
  {
  }
}
