/**
 * The asset cache under any number of resolvers, extracting the bundles of any number of program
 * versions, and garbage collectors (src/lima/asset_resolver.rs, src/commands/gc.rs). One step is one
 * filesystem operation; a process may die or fail before any of them.
 */
module AssetProtocol {

  import opened Common
  import opened FileTree
  import opened AssetTree
  import opened AssetBundle
  import opened AssetNames

  type Pid = nat

  /** The files each known fingerprint stands for. */
  type Bundles = map<string, seq<Asset>>

  predicate ValidBundles(b: Bundles) {
    forall fp :: fp in b ==> PlainFingerprint(fp) && ValidManifest(b[fp])
  }

  predicate Same(before: map<string, CacheDir>, after: map<string, CacheDir>, name: string) {
    (name in before <==> name in after) && (name in before ==> after[name] == before[name])
  }

  /** Every directory but one is as it was. */
  ghost predicate OnlyChanged(before: map<string, CacheDir>, after: map<string, CacheDir>, name: string) {
    forall other :: other != name ==> Same(before, after, other)
  }

  // ---- Processes ----

  datatype ResolverPc =
    | LookDir | LookMarker | LookAsset(k: nat) | LookGuard        // the check without the lock
    | WantLock | Recheck                                          // and under it
    | MakeScratch
    | MakeLima(scratch: string)
    | CreateFile(scratch: string, k: nat)
    | WriteFile(scratch: string, k: nat, written: nat)
    | SetMode(scratch: string, k: nat)
    | CreateMarker(scratch: string)
    | WriteMarker(scratch: string, written: nat)
    | Decide(scratch: string)
    | Unmark(scratch: string)
    | MoveAside(scratch: string)
    | MoveIn(scratch: string, stale: string)
    | Clean(stale: string)
    | Accepted(extracted: bool)

  datatype Kind = Scratch | Obsolete

  datatype Candidate = Candidate(name: string, kind: Kind)

  datatype CollectorPc =
    | Collect
    | Pick(rest: seq<Candidate>)
    | Confirm(candidate: Candidate, rest: seq<Candidate>)
    | Deleting(name: string, rest: seq<Candidate>)

  /** A collector preserves one name; which one is a matter of how it is called. */
  datatype Proc =
    | Resolver(fp: string, pc: ResolverPc)
    | Collector(preserved: string, cpc: CollectorPc)
    | Stopped

  datatype World = World(root: map<string, CacheDir>, lock: Option<Pid>, now: Time, procs: map<Pid, Proc>)

  predicate Holds(p: Proc) {
    match p
    case Resolver(_, pc) =>
      !(pc.LookDir? || pc.LookMarker? || pc.LookAsset? || pc.LookGuard? || pc.WantLock? || pc.Accepted?)
    case Collector(_, cpc) => cpc.Confirm? || cpc.Deleting?
    case Stopped => false
  }

  // ---- Steps ----

  /** What a step depends on besides the world: what a check finds, a fresh name, how far a write gets. */
  datatype Choice =
    | Plain
    | Verdict(ok: bool)
    | Token(text: string)
    | Upto(length: nat, mode: bv16)
    | Leaves(dir: CacheDir)
    | Found(candidates: seq<Candidate>)

  datatype Label =
    | Resolve(pid: Pid, fp: string)
    | StartGc(pid: Pid, preserved: string)
    | Tick(time: Time)
    | Crash(pid: Pid)
    | Go(pid: Pid, choice: Choice)

  const DAY: Time := 24 * 60 * 60 * SECOND

  /** `classify_asset_directory`, but for the age of scratch directories, which may be any. */
  predicate Classified(w: World, preserved: string, c: Candidate) {
    && c.name in w.root && c.name != preserved
    && match c.kind
       case Scratch => IsScratchName(c.name)
       case Obsolete =>
         && !IsScratchName(c.name) && w.root[c.name].marker.Some?
         && w.root[c.name].marker.value.mtime + DAY <= w.now
  }

  /** `still_matches`: the directory is there and still called what it was taken for. */
  predicate StillMatches(w: World, preserved: string, c: Candidate) {
    && c.name in w.root
    && match c.kind
       case Scratch => IsScratchName(c.name)
       case Obsolete => c.name != preserved && !IsScratchName(c.name)
  }

  /** A directory some of whose entries have been removed. */
  ghost predicate Shrinks(before: CacheDir, after: CacheDir) {
    && (after.marker == before.marker || after.marker == None)
    && (after.lima.Some? ==> before.lima.Some? && Fewer(after.lima.value, before.lima.value))
    && (HasTree(after) ==> HasTree(before))
  }

  predicate HasLima(w: World, name: string) {
    name in w.root && HasTree(w.root[name])
  }

  ghost predicate EnabledResolver(b: Bundles, w: World, fp: string, pc: ResolverPc, c: Choice)
    requires fp in b
  {
    var canonical, assets := CanonicalName(fp), b[fp];
    match pc
    case LookDir => c == Verdict(HasLima(w, canonical))
    case LookMarker => c == Verdict(canonical in w.root && Marked(fp, w.root[canonical]))
    case LookAsset(k) => k < |assets| ==> c == Verdict(HasLima(w, canonical) && FileOk(w.root[canonical].lima.value, assets[k].path))
    case LookGuard => c.Verdict?
    case Recheck => c == Verdict(canonical in w.root && Acceptable(fp, assets, w.root[canonical], w.now))
    case MakeScratch => c.Token? && ScratchName(fp, c.text) !in w.root
    case MakeLima(scratch) => scratch in w.root
    case CreateFile(scratch, k) =>
      c.Upto? && HasLima(w, scratch) && (k < |assets| ==> CanPut(w.root[scratch].lima.value, assets[k].path))
    case WriteFile(scratch, k, written) =>
      && c.Upto? && HasLima(w, scratch) && k < |assets| && IsRegular(w.root[scratch].lima.value, assets[k].path)
      && CanPut(w.root[scratch].lima.value, assets[k].path) && written <= c.length <= |assets[k].bytes|
    case SetMode(scratch, k) =>
      && HasLima(w, scratch) && k < |assets| && IsRegular(w.root[scratch].lima.value, assets[k].path)
      && CanPut(w.root[scratch].lima.value, assets[k].path)
    case CreateMarker(scratch) => scratch in w.root
    case WriteMarker(scratch, written) => scratch in w.root && c.Upto? && written <= c.length <= |fp|
    case Decide(scratch) => scratch in w.root
    case Unmark(_) => canonical in w.root
    case MoveAside(_) => c.Token? && canonical in w.root && StaleName(fp, c.text) !in w.root
    case MoveIn(scratch, _) => scratch in w.root && canonical !in w.root
    case Clean(stale) => c.Leaves? ==> stale in w.root && Shrinks(w.root[stale], c.dir)
    case WantLock => true
    case Accepted(_) => false
  }

  ghost predicate EnabledCollector(w: World, preserved: string, pc: CollectorPc, c: Choice) {
    match pc
    case Collect => c.Found? && forall x :: x in c.candidates ==> Classified(w, preserved, x)
    case Deleting(name, _) => c.Leaves? ==> name in w.root && Shrinks(w.root[name], c.dir)
    case Pick(rest) => rest != []
    case Confirm(_, _) => true
  }

  ghost predicate Enabled(b: Bundles, w: World, l: Label) {
    match l
    case Resolve(pid, fp) => pid !in w.procs && fp in b
    case StartGc(pid, _) => pid !in w.procs
    case Tick(time) => w.now <= time
    case Crash(pid) => pid in w.procs
    case Go(pid, c) =>
      pid in w.procs &&
      match w.procs[pid]
      case Resolver(fp, pc) => fp in b && EnabledResolver(b, w, fp, pc, c)
      case Collector(preserved, pc) => EnabledCollector(w, preserved, pc, c)
      case Stopped => false
  }

  function Freed(lock: Option<Pid>, pid: Pid): Option<Pid> {
    if lock == Some(pid) then None else lock
  }

  /** The process moves on; a lock it no longer needs is dropped. */
  function To(w: World, pid: Pid, p: Proc): World {
    w.(procs := w.procs[pid := p], lock := if Holds(p) then w.lock else Freed(w.lock, pid))
  }

  function WithDir(w: World, name: string, dir: CacheDir): World {
    w.(root := w.root[name := dir])
  }

  function Without(w: World, name: string): World {
    w.(root := w.root - {name})
  }

  /** A non-waiting lock: a process that does not get it gives up. */
  function TryLock(w: World, pid: Pid, got: Proc, busy: Proc): World {
    if w.lock.None? then w.(lock := Some(pid), procs := w.procs[pid := got]) else w.(procs := w.procs[pid := busy])
  }

  function FileAt(lima: Tree, path: Path): Item
    requires IsRegular(lima, path)
  {
    At<Item>(lima, path).value.it
  }

  function PutFile(w: World, scratch: string, path: Path, item: Item): World
    requires HasLima(w, scratch) && CanPut(w.root[scratch].lima.value, path)
  {
    WithDir(w, scratch, w.root[scratch].(lima := Some(Put(w.root[scratch].lima.value, path, Leaf(item)))))
  }

  function NextResolver(b: Bundles, w: World, pid: Pid, fp: string, pc: ResolverPc, c: Choice): World
    requires fp in b && EnabledResolver(b, w, fp, pc, c)
  {
    var canonical, assets := CanonicalName(fp), b[fp];
    match pc
    case LookDir => To(w, pid, Resolver(fp, if c.ok then LookMarker else WantLock))
    case LookMarker => To(w, pid, Resolver(fp, if c.ok then LookAsset(0) else WantLock))
    case LookAsset(k) =>
      To(w, pid, Resolver(fp, if k >= |assets| then LookGuard else if c.ok then LookAsset(k + 1) else WantLock))
    case LookGuard => To(w, pid, Resolver(fp, if c.ok then Accepted(false) else WantLock))
    case WantLock => TryLock(w, pid, Resolver(fp, Recheck), Stopped)
    case Recheck => To(w, pid, Resolver(fp, if c.ok then Accepted(false) else MakeScratch))
    case MakeScratch =>
      var scratch := ScratchName(fp, c.text);
      To(WithDir(w, scratch, CacheDir(None, None)), pid, Resolver(fp, MakeLima(scratch)))
    case MakeLima(scratch) =>
      To(WithDir(w, scratch, w.root[scratch].(lima := Some(Dir(map[])))), pid, Resolver(fp, CreateFile(scratch, 0)))
    case CreateFile(scratch, k) =>
      if k >= |assets| then To(w, pid, Resolver(fp, CreateMarker(scratch)))
      else To(PutFile(w, scratch, assets[k].path, Regular([], c.mode, w.now)), pid, Resolver(fp, WriteFile(scratch, k, 0)))
    case WriteFile(scratch, k, _) =>
      var mode := FileAt(w.root[scratch].lima.value, assets[k].path).mode;
      To(PutFile(w, scratch, assets[k].path, Regular(assets[k].bytes[..c.length], mode, w.now)), pid,
         Resolver(fp, if c.length == |assets[k].bytes| then SetMode(scratch, k) else WriteFile(scratch, k, c.length)))
    case SetMode(scratch, k) =>
      var file := FileAt(w.root[scratch].lima.value, assets[k].path);
      To(PutFile(w, scratch, assets[k].path, file.(mode := FinalMode(assets[k].path))), pid,
         Resolver(fp, CreateFile(scratch, k + 1)))
    case CreateMarker(scratch) =>
      To(WithDir(w, scratch, w.root[scratch].(marker := Some(Marker([], w.now)))), pid, Resolver(fp, WriteMarker(scratch, 0)))
    case WriteMarker(scratch, _) =>
      To(WithDir(w, scratch, w.root[scratch].(marker := Some(Marker(fp[..c.length], w.now)))), pid,
         Resolver(fp, if c.length == |fp| then Decide(scratch) else WriteMarker(scratch, c.length)))
    case Decide(scratch) =>
      if canonical !in w.root then
        To(Without(WithDir(w, canonical, w.root[scratch]), scratch), pid, Resolver(fp, Accepted(true)))
      else To(w, pid, Resolver(fp, Unmark(scratch)))
    case Unmark(scratch) =>
      var unmarked := if c.Verdict? then w.root[canonical] else w.root[canonical].(marker := None); // a failure is ignored
      To(WithDir(w, canonical, unmarked), pid, Resolver(fp, MoveAside(scratch)))
    case MoveAside(scratch) =>
      var stale := StaleName(fp, c.text);
      To(Without(WithDir(w, stale, w.root[canonical]), canonical), pid, Resolver(fp, MoveIn(scratch, stale)))
    case MoveIn(scratch, stale) =>
      To(Without(WithDir(w, canonical, w.root[scratch]), scratch), pid, Resolver(fp, Clean(stale)))
    case Clean(stale) =>
      if c.Leaves? then To(WithDir(w, stale, c.dir), pid, Resolver(fp, Clean(stale)))
      else if c.Verdict? then To(w, pid, Resolver(fp, Accepted(true))) // what could not be removed stays
      else To(Without(w, stale), pid, Resolver(fp, Accepted(true)))
  }

  function NextCollector(w: World, pid: Pid, preserved: string, pc: CollectorPc, c: Choice): World
    requires pc.Collect? ==> c.Found?
    requires pc.Pick? ==> pc.rest != []
  {
    match pc
    case Collect => To(w, pid, Collector(preserved, Pick(c.candidates)))
    case Pick(rest) =>
      TryLock(w, pid, Collector(preserved, Confirm(rest[0], rest[1..])), Collector(preserved, Pick(rest[1..])))
    case Confirm(candidate, rest) =>
      To(w, pid, Collector(preserved, if StillMatches(w, preserved, candidate) then Deleting(candidate.name, rest) else Pick(rest)))
    case Deleting(name, rest) =>
      if c.Leaves? then To(WithDir(w, name, c.dir), pid, Collector(preserved, Deleting(name, rest)))
      else if c.Verdict? then To(w, pid, Collector(preserved, Pick(rest))) // what could not be deleted stays
      else To(Without(w, name), pid, Collector(preserved, Pick(rest)))
  }

  function Next(b: Bundles, w: World, l: Label): World
    requires Enabled(b, w, l)
  {
    match l
    case Resolve(pid, fp) => w.(procs := w.procs[pid := Resolver(fp, LookDir)])
    case StartGc(pid, preserved) => w.(procs := w.procs[pid := Collector(preserved, Collect)])
    case Tick(time) => w.(now := time)
    case Crash(pid) => To(w, pid, Stopped)
    case Go(pid, c) =>
      match w.procs[pid]
      case Resolver(fp, pc) => NextResolver(b, w, pid, fp, pc, c)
      case Collector(preserved, pc) => NextCollector(w, pid, preserved, pc, c)
  }

  ghost predicate IsRun(b: Bundles, ws: seq<World>, ls: seq<Label>) {
    && ValidBundles(b)
    && |ws| == |ls| + 1 && ws[0].lock == None && ws[0].procs == map[]
    && forall i :: 0 <= i < |ls| ==> Enabled(b, ws[i], ls[i]) && ws[i + 1] == Next(b, ws[i], ls[i])
  }

  // ---- Who holds the lock ----

  predicate LockTells(w: World) {
    && (forall pid :: pid in w.procs && Holds(w.procs[pid]) ==> w.lock == Some(pid))
    && (w.lock.Some? ==> w.lock.value in w.procs && Holds(w.procs[w.lock.value]))
  }

  lemma ToKeepsLock(w: World, w': World, pid: Pid, p: Proc)
    requires LockTells(w) && pid in w.procs && w' == To(w.(root := w'.root), pid, p)
    requires Holds(p) ==> Holds(w.procs[pid])
    ensures LockTells(w')
  {
  }

  lemma TryLockKeepsLock(w: World, pid: Pid, got: Proc, busy: Proc)
    requires LockTells(w) && pid in w.procs && !Holds(w.procs[pid]) && Holds(got) && !Holds(busy)
    ensures LockTells(TryLock(w, pid, got, busy))
  {
  }

  lemma ResolverKeepsLock(b: Bundles, w: World, pid: Pid, fp: string, pc: ResolverPc, c: Choice)
    requires LockTells(w) && pid in w.procs && w.procs[pid] == Resolver(fp, pc)
    requires fp in b && EnabledResolver(b, w, fp, pc, c)
    ensures LockTells(NextResolver(b, w, pid, fp, pc, c))
  {
    var w' := NextResolver(b, w, pid, fp, pc, c);
    if pc.WantLock? {
      TryLockKeepsLock(w, pid, Resolver(fp, Recheck), Stopped);
    } else {
      ToKeepsLock(w, w', pid, w'.procs[pid]);
    }
  }

  lemma CollectorKeepsLock(w: World, pid: Pid, preserved: string, pc: CollectorPc, c: Choice)
    requires LockTells(w) && pid in w.procs && w.procs[pid] == Collector(preserved, pc)
    requires EnabledCollector(w, preserved, pc, c)
    ensures LockTells(NextCollector(w, pid, preserved, pc, c))
  {
    var w' := NextCollector(w, pid, preserved, pc, c);
    if pc.Pick? {
      TryLockKeepsLock(w, pid, Collector(preserved, Confirm(pc.rest[0], pc.rest[1..])), Collector(preserved, Pick(pc.rest[1..])));
    } else {
      ToKeepsLock(w, w', pid, w'.procs[pid]);
    }
  }

  lemma NextKeepsLock(b: Bundles, w: World, l: Label)
    requires Enabled(b, w, l) && LockTells(w)
    ensures LockTells(Next(b, w, l))
  {
    match l
    case Go(pid, c) =>
      var p := w.procs[pid];
      if p.Resolver? {
        ResolverKeepsLock(b, w, pid, p.fp, p.pc, c);
      } else {
        CollectorKeepsLock(w, pid, p.preserved, p.cpc, c);
      }
    case Crash(pid) => ToKeepsLock(w, Next(b, w, l), pid, Stopped);
    case _ =>
  }
}
