/** What collectors delete, over whole runs of the asset cache (src/commands/gc.rs). */
module AssetCollectors {

  import opened Common
  import opened AssetNames
  import opened AssetProtocol
  import opened AssetSafety
  import opened AssetRuns

  // ---- Only what was confirmed under the lock is deleted ----

  predicate IsStepOf(l: Label, pid: Pid) {
    l.Go? && l.pid == pid
  }

  predicate IsCollector(w: World, pid: Pid) {
    pid in w.procs && w.procs[pid].Collector?
  }

  predicate IsDeleting(w: World, pid: Pid, name: string) {
    IsCollector(w, pid) && w.procs[pid].cpc.Deleting? && w.procs[pid].cpc.name == name
  }

  /** Holding the lock, this collector finds the name there and still what it was taken for. */
  predicate Confirms(w: World, l: Label, pid: Pid, name: string) {
    && IsStepOf(l, pid) && w.lock == Some(pid) && IsCollector(w, pid)
    && w.procs[pid].cpc.Confirm? && w.procs[pid].cpc.candidate.name == name
    && StillMatches(w, w.procs[pid].preserved, w.procs[pid].cpc.candidate)
  }

  lemma HolderAlone(b: Bundles, w: World, l: Label, pid: Pid)
    requires Inv(b, w) && Enabled(b, w, l) && w.lock == Some(pid) && !IsStepOf(l, pid)
    ensures Next(b, w, l).root == w.root
  {
    if l.Go? && w.procs[l.pid].Resolver? {
      ResolverShape(b, w, l.pid, w.procs[l.pid].fp, w.procs[l.pid].pc, l.choice);
    }
  }

  lemma DeletingStep(b: Bundles, w: World, l: Label, pid: Pid, name: string)
    requires Inv(b, w) && Enabled(b, w, l) && IsDeleting(Next(b, w, l), pid, name)
    ensures IsDeleting(w, pid, name) || (IsStepOf(l, pid) && Confirms(w, l, pid, name))
    ensures IsDeleting(w, pid, name) && !IsStepOf(l, pid) ==> Next(b, w, l).root == w.root
  {
    if IsDeleting(w, pid, name) && !IsStepOf(l, pid) { HolderAlone(b, w, l, pid); }
  }

  lemma StartsIdle(b: Bundles, ws: seq<World>, ls: seq<Label>, pid: Pid, name: string)
    requires IsRun(b, ws, ls)
    ensures !IsDeleting(ws[0], pid, name)
  {
  }

  /** A collector that is deleting has confirmed the name, and nothing else has changed a directory since. */
  lemma {:induction false} DeletingWasConfirmed(b: Bundles, ws: seq<World>, ls: seq<Label>, i: nat, pid: Pid, name: string)
    returns (k: nat)
    requires IsRun(b, ws, ls) && AllCanonicalsExact(b, ws[0].root) && i < |ws| && IsDeleting(ws[i], pid, name)
    ensures k < i && Confirms(ws[k], ls[k], pid, name)
    ensures forall m :: k < m <= i ==> IsDeleting(ws[m], pid, name)
    ensures forall m :: k <= m < i && !IsStepOf(ls[m], pid) ==> ws[m + 1].root == ws[m].root
  {
    hide IsDeleting, Confirms, Enabled, Next, Inv, AllCanonicalsExact;
    StartsIdle(b, ws, ls, pid, name);
    RunKeepsInv(b, ws, ls, i - 1);
    assert Enabled(b, ws[i - 1], ls[i - 1]) && ws[i] == Next(b, ws[i - 1], ls[i - 1]);
    DeletingStep(b, ws[i - 1], ls[i - 1], pid, name);
    if IsDeleting(ws[i - 1], pid, name) {
      k := DeletingWasConfirmed(b, ws, ls, i - 1, pid, name);
    } else {
      k := i - 1;
    }
  }

  /** Whatever a collector changes, it has confirmed under the lock, which it has held ever since. */
  lemma CollectorsDeleteWhatTheyConfirm(b: Bundles, ws: seq<World>, ls: seq<Label>, i: nat, pid: Pid)
    returns (k: nat, name: string)
    requires IsRun(b, ws, ls) && AllCanonicalsExact(b, ws[0].root) && i < |ls|
    requires IsStepOf(ls[i], pid) && IsCollector(ws[i], pid) && ws[i + 1].root != ws[i].root
    ensures k < i && Confirms(ws[k], ls[k], pid, name)
    ensures forall m :: k < m <= i ==> IsDeleting(ws[m], pid, name)
    ensures forall m :: k <= m < i && !IsStepOf(ls[m], pid) ==> ws[m + 1].root == ws[m].root
    ensures OnlyChanged(ws[i].root, ws[i + 1].root, name)
  {
    assert Enabled(b, ws[i], ls[i]) && ws[i + 1] == Next(b, ws[i], ls[i]);
    name := ws[i].procs[pid].cpc.name;
    k := DeletingWasConfirmed(b, ws, ls, i, pid, name);
  }

  /**
   * A candidate renamed or reaped by the time the lock is taken is skipped: the collector goes on with the
   * rest, and whatever it changes later it has confirmed anew.
   */
  lemma GoneCandidatesAreSkipped(b: Bundles, ws: seq<World>, ls: seq<Label>, k: nat, i: nat, pid: Pid)
    returns (again: nat, name: string)
    requires IsRun(b, ws, ls) && AllCanonicalsExact(b, ws[0].root) && k < i < |ls|
    requires IsStepOf(ls[k], pid) && IsCollector(ws[k], pid) && ws[k].procs[pid].cpc.Confirm?
    requires ws[k].procs[pid].cpc.candidate.name !in ws[k].root
    requires IsStepOf(ls[i], pid) && IsCollector(ws[i], pid) && ws[i + 1].root != ws[i].root
    ensures ws[k + 1].root == ws[k].root
    ensures ws[k + 1].procs[pid] == Collector(ws[k].procs[pid].preserved, Pick(ws[k].procs[pid].cpc.rest))
    ensures k < again < i && Confirms(ws[again], ls[again], pid, name)
    ensures OnlyChanged(ws[i].root, ws[i + 1].root, name)
  {
    assert Enabled(b, ws[k], ls[k]) && ws[k + 1] == Next(b, ws[k], ls[k]);
    assert forall n :: !IsDeleting(ws[k], pid, n);
    again, name := CollectorsDeleteWhatTheyConfirm(b, ws, ls, i, pid);
  }

  // ---- What collectors preserve ----

  /** The names a collector has in hand. */
  predicate InHand(p: Proc, name: string) {
    p.Collector? && match p.cpc
      case Collect => false
      case Pick(rest) => exists c :: c in rest && c.name == name
      case Confirm(candidate, rest) => candidate.name == name || exists c :: c in rest && c.name == name
      case Deleting(n, rest) => n == name || exists c :: c in rest && c.name == name
  }

  ghost predicate PreservedIsSafe(w: World) {
    forall pid :: pid in w.procs && w.procs[pid].Collector? ==> !InHand(w.procs[pid], w.procs[pid].preserved)
  }

  lemma {:induction false} RunKeepsPreserved(b: Bundles, ws: seq<World>, ls: seq<Label>, i: nat)
    requires IsRun(b, ws, ls) && i < |ws|
    ensures PreservedIsSafe(ws[i])
  {
    if i > 0 {
      RunKeepsPreserved(b, ws, ls, i - 1);
      NextKeepsPreserved(b, ws[i - 1], ls[i - 1]);
    }
    hide Enabled, Next, ValidBundles, PreservedIsSafe;
  }

  lemma NextKeepsPreserved(b: Bundles, w: World, l: Label)
    requires Enabled(b, w, l) && PreservedIsSafe(w)
    ensures PreservedIsSafe(Next(b, w, l))
  {
    hide FileAt, EnabledResolver;
  }

  /** The directory whose name a collector is given to preserve is never changed or removed by it. */
  lemma CollectorsPreserveTheirName(b: Bundles, ws: seq<World>, ls: seq<Label>, i: nat)
    requires IsRun(b, ws, ls) && i < |ls| && ls[i].Go? && ws[i].procs[ls[i].pid].Collector?
    ensures var name := ws[i].procs[ls[i].pid].preserved;
      && (name in ws[i].root <==> name in ws[i + 1].root)
      && (name in ws[i].root ==> ws[i + 1].root[name] == ws[i].root[name])
  {
    RunKeepsPreserved(b, ws, ls, i);
    assert Enabled(b, ws[i], ls[i]) && ws[i + 1] == Next(b, ws[i], ls[i]);
  }

  /**
   * What is preserved in practice is the fingerprint itself, which is not the name of its directory. So
   * the current cache is taken for an obsolete one exactly when its marker is a day old.
   */
  lemma CurrentCacheIsCollectedIff(w: World, fp: string)
    requires PlainFingerprint(fp) && ':' in fp && CanonicalName(fp) in w.root
    ensures Classified(w, fp, Candidate(CanonicalName(fp), Obsolete)) <==>
      w.root[CanonicalName(fp)].marker.Some? && w.root[CanonicalName(fp)].marker.value.mtime + DAY <= w.now
    ensures StillMatches(w, fp, Candidate(CanonicalName(fp), Obsolete))
    ensures !Classified(w, CanonicalName(fp), Candidate(CanonicalName(fp), Obsolete))
  {
    CanonicalIsNotScratch(fp);
    CanonicalIsFingerprintIff(fp);
  }

  // ---- What collectors had classified ----

  /** The moment a collector draws up its list. */
  predicate Lists(w: World, l: Label, pid: Pid, preserved: string) {
    IsStepOf(l, pid) && pid in w.procs && w.procs[pid] == Collector(preserved, Collect)
  }

  lemma InHandStep(b: Bundles, w: World, l: Label, pid: Pid, name: string)
    requires Enabled(b, w, l) && IsCollector(Next(b, w, l), pid) && InHand(Next(b, w, l).procs[pid], name)
    ensures var preserved := Next(b, w, l).procs[pid].preserved;
      || (IsCollector(w, pid) && InHand(w.procs[pid], name) && w.procs[pid].preserved == preserved)
      || (Lists(w, l, pid, preserved) && exists kind :: Classified(w, preserved, Candidate(name, kind)))
  {
    if IsStepOf(l, pid) && w.procs[pid].Collector? && w.procs[pid].cpc.Collect? {
      var x :| x in l.choice.candidates && x.name == name;
      assert x == Candidate(name, x.kind);
    }
  }

  /** Every name in hand was taken for garbage when the collector drew up its list. */
  lemma {:induction false} InHandWasClassified(b: Bundles, ws: seq<World>, ls: seq<Label>, i: nat, pid: Pid, name: string)
    returns (c: nat)
    requires IsRun(b, ws, ls) && i < |ws| && IsCollector(ws[i], pid) && InHand(ws[i].procs[pid], name)
    ensures c < i && Lists(ws[c], ls[c], pid, ws[i].procs[pid].preserved)
    ensures exists kind :: Classified(ws[c], ws[i].procs[pid].preserved, Candidate(name, kind))
  {
    hide Enabled, Next, Classified, InHand, ValidBundles;
    assert Enabled(b, ws[i - 1], ls[i - 1]) && ws[i] == Next(b, ws[i - 1], ls[i - 1]);
    InHandStep(b, ws[i - 1], ls[i - 1], pid, name);
    if IsCollector(ws[i - 1], pid) && InHand(ws[i - 1].procs[pid], name) && ws[i - 1].procs[pid].preserved == ws[i].procs[pid].preserved {
      c := InHandWasClassified(b, ws, ls, i - 1, pid, name);
    } else {
      c := i - 1;
    }
  }

  predicate IsDayOld(w: World, name: string) {
    name in w.root && w.root[name].marker.Some? && w.root[name].marker.value.mtime + DAY <= w.now
  }

  /**
   * In every run, a collector that changes or removes a bundle's directory saw its marker a day old when it
   * drew up its list.
   */
  lemma DeletedCacheWasOld(b: Bundles, ws: seq<World>, ls: seq<Label>, i: nat, pid: Pid, fp: string) returns (c: nat)
    requires IsRun(b, ws, ls) && AllCanonicalsExact(b, ws[0].root) && i < |ls| && PlainFingerprint(fp)
    requires IsStepOf(ls[i], pid) && IsCollector(ws[i], pid)
    requires !Same(ws[i].root, ws[i + 1].root, CanonicalName(fp))
    ensures c < i && Lists(ws[c], ls[c], pid, ws[i].procs[pid].preserved) && IsDayOld(ws[c], CanonicalName(fp))
  {
    var k, name := CollectorsDeleteWhatTheyConfirm(b, ws, ls, i, pid);
    assert IsDeleting(ws[i], pid, name);
    c := InHandWasClassified(b, ws, ls, i, pid, name);
    CanonicalIsNotScratch(fp);
  }

  /** A collector on its own, given the fingerprint to preserve. */
  function Alone(w: World, lock: Option<Pid>, fp: string, pc: CollectorPc): World {
    w.(lock := lock, procs := map[0 := Collector(fp, pc)])
  }

  ghost predicate Leads(b: Bundles, w: World, l: Label, w': World) {
    Enabled(b, w, l) && w' == Next(b, w, l)
  }

  lemma AloneLists(b: Bundles, w: World, fp: string, x: Candidate)
    requires w.lock == None && w.procs == map[] && Classified(w, fp, x)
    ensures Leads(b, w, StartGc(0, fp), Alone(w, None, fp, Collect))
    ensures Leads(b, Alone(w, None, fp, Collect), Go(0, Found([x])), Alone(w, None, fp, Pick([x])))
  {
  }

  lemma AloneConfirms(b: Bundles, w: World, fp: string, x: Candidate)
    requires StillMatches(w, fp, x)
    ensures Leads(b, Alone(w, None, fp, Pick([x])), Go(0, Plain), Alone(w, Some(0), fp, Confirm(x, [])))
    ensures Leads(b, Alone(w, Some(0), fp, Confirm(x, [])), Go(0, Plain), Alone(w, Some(0), fp, Deleting(x.name, [])))
  {
    assert [x][1..] == [];
  }

  lemma AloneDeletes(b: Bundles, w: World, fp: string, name: string)
    ensures Leads(b, Alone(w, Some(0), fp, Deleting(name, [])), Go(0, Plain), Alone(Without(w, name), None, fp, Pick([])))
  {
  }

  /**
   * And from any world in which nobody is at work, a collector given the fingerprint to preserve can delete
   * the current cache, once its marker is a day old.
   */
  lemma CurrentCacheIsDeleted(b: Bundles, w: World, fp: string) returns (ws: seq<World>, ls: seq<Label>)
    requires ValidBundles(b) && w.lock == None && w.procs == map[]
    requires PlainFingerprint(fp) && ':' in fp && IsDayOld(w, CanonicalName(fp))
    ensures IsRun(b, ws, ls) && |ls| == 5 && ws[0] == w && ls[0] == StartGc(0, fp)
    ensures ws[5].root == w.root - {CanonicalName(fp)}
  {
    CurrentCacheIsCollectedIff(w, fp);
    var name := CanonicalName(fp);
    var x := Candidate(name, Obsolete);
    AloneLists(b, w, fp, x);
    AloneConfirms(b, w, fp, x);
    AloneDeletes(b, w, fp, name);
    hide Enabled, Next, StillMatches, Classified, IsDayOld;
    ws := [w, Alone(w, None, fp, Collect), Alone(w, None, fp, Pick([x])), Alone(w, Some(0), fp, Confirm(x, [])),
           Alone(w, Some(0), fp, Deleting(name, [])), Alone(Without(w, name), None, fp, Pick([]))];
    ls := [StartGc(0, fp), Go(0, Found([x])), Go(0, Plain), Go(0, Plain), Go(0, Plain)];
    forall i | 0 <= i < |ls| ensures Leads(b, ws[i], ls[i], ws[i + 1]) {
    }
  }
}
