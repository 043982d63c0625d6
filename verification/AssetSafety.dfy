/** What every step of the asset cache's protocol keeps, and what follows for every run. */
module AssetSafety {

  import opened Common
  import opened FileTree
  import opened AssetTree
  import opened AssetBundle
  import opened AssetNames
  import opened AssetProtocol

  // ---- The invariant ----

  /** Under a canonical name there is never a wrong file, only possibly a missing one. */
  ghost predicate CanonicalExact(b: Bundles, root: map<string, CacheDir>, fp: string)
    requires fp in b
  {
    CanonicalName(fp) in root && HasTree(root[CanonicalName(fp)]) ==> Exact(b[fp], root[CanonicalName(fp)].lima.value)
  }

  ghost predicate AllCanonicalsExact(b: Bundles, root: map<string, CacheDir>) {
    forall fp :: fp in b ==> CanonicalExact(b, root, fp)
  }

  ghost predicate Unmarked(root: map<string, CacheDir>, scratch: string, assets: seq<Asset>, count: nat, now: Time) {
    && scratch in root && IsScratchName(scratch) && root[scratch].marker.None?
    && root[scratch].lima.Some? && Filled(assets, count, root[scratch].lima.value, now)
  }

  ghost predicate ReadyAt(root: map<string, CacheDir>, name: string, fp: string, assets: seq<Asset>) {
    name in root && Ready(fp, assets, root[name])
  }

  /** How far the extraction of a process has got, in its own scratch directory. */
  ghost predicate Progress(b: Bundles, root: map<string, CacheDir>, now: Time, p: Proc) {
    p.Resolver? ==> p.fp in b && PcProgress(b[p.fp], root, now, p.fp, p.pc)
  }

  ghost predicate PcProgress(assets: seq<Asset>, root: map<string, CacheDir>, now: Time, fp: string, pc: ResolverPc) {
    match pc
    case MakeLima(s) => s in root && IsScratchName(s) && root[s] == CacheDir(None, None)
    case CreateFile(s, k) => k <= |assets| && Unmarked(root, s, assets, k, now)
    case WriteFile(s, k, _) =>
      k < |assets| && Unmarked(root, s, assets, k, now) && IsRegular(root[s].lima.value, assets[k].path)
    case SetMode(s, k) =>
      && k < |assets| && Unmarked(root, s, assets, k, now) && IsRegular(root[s].lima.value, assets[k].path)
      && FileAt(root[s].lima.value, assets[k].path).bytes == assets[k].bytes
    case CreateMarker(s) => Unmarked(root, s, assets, |assets|, now)
    case WriteMarker(s, _) =>
      && s in root && IsScratchName(s) && root[s].marker.Some? && root[s].lima.Some?
      && Filled(assets, |assets|, root[s].lima.value, root[s].marker.value.mtime) && root[s].marker.value.mtime <= now
    case Decide(s) => IsScratchName(s) && ReadyAt(root, s, fp, assets)
    case Unmark(s) => IsScratchName(s) && ReadyAt(root, s, fp, assets)
    case MoveAside(s) => IsScratchName(s) && ReadyAt(root, s, fp, assets)
    case MoveIn(s, stale) => IsScratchName(s) && IsScratchName(stale) && s != stale && ReadyAt(root, s, fp, assets)
    case Clean(stale) => IsScratchName(stale) && ReadyAt(root, CanonicalName(fp), fp, assets)
    case _ => true
  }

  ghost predicate Inv(b: Bundles, w: World) {
    && LockTells(w) && AllCanonicalsExact(b, w.root)
    && forall pid :: pid in w.procs ==> Progress(b, w.root, w.now, w.procs[pid])
  }

  // ---- Changing one directory ----

  lemma ScratchIsNotCanonical(fp: string, name: string)
    requires PlainFingerprint(fp) && IsScratchName(name)
    ensures name != CanonicalName(fp)
  {
    CanonicalIsNotScratch(fp);
  }

  lemma SetScratchKeepsExact(b: Bundles, root: map<string, CacheDir>, name: string, dir: CacheDir)
    requires ValidBundles(b) && AllCanonicalsExact(b, root) && IsScratchName(name)
    ensures AllCanonicalsExact(b, root[name := dir])
  {
    forall fp | fp in b ensures CanonicalExact(b, root[name := dir], fp) {
      ScratchIsNotCanonical(fp, name);
      assert CanonicalExact(b, root, fp);
    }
  }

  lemma RemoveKeepsExact(b: Bundles, root: map<string, CacheDir>, name: string)
    requires AllCanonicalsExact(b, root)
    ensures AllCanonicalsExact(b, root - {name})
  {
    forall fp | fp in b ensures CanonicalExact(b, root - {name}, fp) {
      assert CanonicalExact(b, root, fp);
    }
  }

  lemma SetCanonicalKeepsExact(b: Bundles, root: map<string, CacheDir>, fp: string, dir: CacheDir)
    requires ValidBundles(b) && AllCanonicalsExact(b, root) && fp in b
    requires HasTree(dir) ==> Exact(b[fp], dir.lima.value)
    ensures AllCanonicalsExact(b, root[CanonicalName(fp) := dir])
  {
    forall other | other in b ensures CanonicalExact(b, root[CanonicalName(fp) := dir], other) {
      if CanonicalName(other) == CanonicalName(fp) { CanonicalNamesDiffer(other, fp); }
      assert CanonicalExact(b, root, other);
    }
  }

  // ---- Extraction, step by step ----

  ghost predicate StepOk(b: Bundles, w: World, pid: Pid, fp: string, pc: ResolverPc, c: Choice)
    requires fp in b && EnabledResolver(b, w, fp, pc, c)
  {
    var w' := NextResolver(b, w, pid, fp, pc, c);
    AllCanonicalsExact(b, w'.root) && pid in w'.procs && Progress(b, w'.root, w'.now, w'.procs[pid])
  }

  lemma StartKeeps(b: Bundles, w: World, pid: Pid, fp: string, pc: ResolverPc, c: Choice)
    requires ValidBundles(b) && AllCanonicalsExact(b, w.root) && fp in b && EnabledResolver(b, w, fp, pc, c)
    requires pc.MakeScratch? || pc.MakeLima?
    requires PcProgress(b[fp], w.root, w.now, fp, pc)
    ensures StepOk(b, w, pid, fp, pc, c)
  {
    match pc
    case MakeScratch =>
      ScratchNamesAreScratch(fp, c.text);
      SetScratchKeepsExact(b, w.root, ScratchName(fp, c.text), CacheDir(None, None));
    case MakeLima(s) =>
      SetScratchKeepsExact(b, w.root, s, w.root[s].(lima := Some(Dir(map[]))));
  }

  lemma PutFileKeeps(b: Bundles, w: World, s: string, fp: string, k: nat, item: Item)
    requires ValidBundles(b) && AllCanonicalsExact(b, w.root) && fp in b && k < |b[fp]|
    requires Unmarked(w.root, s, b[fp], k, w.now) && StampOf(item).Some? && StampOf(item).value <= w.now
    requires item.Regular? && CanPut(w.root[s].lima.value, b[fp][k].path)
    ensures var root := PutFile(w, s, b[fp][k].path, item).root;
      && AllCanonicalsExact(b, root) && Unmarked(root, s, b[fp], k, w.now)
      && IsRegular(root[s].lima.value, b[fp][k].path) && FileAt(root[s].lima.value, b[fp][k].path) == item
  {
    PutKeepsFilled(b[fp], k, w.root[s].lima.value, item, w.now);
    SetScratchKeepsExact(b, w.root, s,
      w.root[s].(lima := Some(Put(w.root[s].lima.value, b[fp][k].path, Leaf(item)))));
  }

  lemma FileKeeps(b: Bundles, w: World, pid: Pid, fp: string, pc: ResolverPc, c: Choice)
    requires ValidBundles(b) && AllCanonicalsExact(b, w.root) && fp in b && EnabledResolver(b, w, fp, pc, c)
    requires (pc.CreateFile? && pc.k < |b[fp]|) || pc.WriteFile?
    requires PcProgress(b[fp], w.root, w.now, fp, pc)
    ensures StepOk(b, w, pid, fp, pc, c)
  {
    match pc
    case CreateFile(s, k) => PutFileKeeps(b, w, s, fp, k, Regular([], c.mode, w.now));
    case WriteFile(s, k, _) =>
      var bytes := b[fp][k].bytes;
      PutFileKeeps(b, w, s, fp, k,
        Regular(bytes[..c.length], FileAt(w.root[s].lima.value, b[fp][k].path).mode, w.now));
      assert c.length == |bytes| ==> bytes[..c.length] == bytes;
  }

  lemma SetModeKeeps(b: Bundles, w: World, pid: Pid, fp: string, s: string, k: nat, c: Choice)
    requires ValidBundles(b) && AllCanonicalsExact(b, w.root) && fp in b && EnabledResolver(b, w, fp, SetMode(s, k), c)
    requires PcProgress(b[fp], w.root, w.now, fp, SetMode(s, k))
    ensures StepOk(b, w, pid, fp, SetMode(s, k), c)
  {
    var lima := w.root[s].lima.value;
    var asset := b[fp][k];
    var file := FileAt(lima, asset.path);
    StampOfFile(lima, asset.path, w.now);
    PutFileKeeps(b, w, s, fp, k, file.(mode := FinalMode(asset.path)));
    var root := PutFile(w, s, asset.path, file.(mode := FinalMode(asset.path))).root;
    assert Installed(root[s].lima.value, asset);
  }

  lemma StampOfFile(lima: Tree, path: Path, now: Time)
    requires lima.Dir? && StampsUpTo(lima, now) && IsRegular(lima, path)
    ensures FileAt(lima, path).Regular? && FileAt(lima, path).mtime <= now
  {
    AtIsStamp(lima, path, FileAt(lima, path), now, FileAt(lima, path).mtime);
  }

  lemma MarkerKeeps(b: Bundles, w: World, pid: Pid, fp: string, pc: ResolverPc, c: Choice)
    requires ValidBundles(b) && AllCanonicalsExact(b, w.root) && fp in b && EnabledResolver(b, w, fp, pc, c)
    requires pc.CreateMarker? || pc.WriteMarker?
    requires PcProgress(b[fp], w.root, w.now, fp, pc)
    ensures StepOk(b, w, pid, fp, pc, c)
  {
    match pc
    case CreateMarker(s) =>
      SetScratchKeepsExact(b, w.root, s, w.root[s].(marker := Some(Marker([], w.now))));
    case WriteMarker(s, _) =>
      SetScratchKeepsExact(b, w.root, s, w.root[s].(marker := Some(Marker(fp[..c.length], w.now))));
      assert c.length == |fp| ==> fp[..c.length] == fp;
  }

  /** A scratch directory that is ready takes the canonical name. */
  lemma RenameKeeps(b: Bundles, root: map<string, CacheDir>, fp: string, scratch: string)
    requires ValidBundles(b) && AllCanonicalsExact(b, root) && fp in b && IsScratchName(scratch)
    requires ReadyAt(root, scratch, fp, b[fp])
    ensures var after := root[CanonicalName(fp) := root[scratch]] - {scratch};
      AllCanonicalsExact(b, after) && ReadyAt(after, CanonicalName(fp), fp, b[fp])
  {
    ScratchIsNotCanonical(fp, scratch);
    SetCanonicalKeepsExact(b, root, fp, root[scratch]);
    RemoveKeepsExact(b, root[CanonicalName(fp) := root[scratch]], scratch);
  }

  lemma UnmarkKeeps(b: Bundles, w: World, pid: Pid, fp: string, s: string, c: Choice)
    requires ValidBundles(b) && AllCanonicalsExact(b, w.root) && fp in b && EnabledResolver(b, w, fp, Unmark(s), c)
    requires PcProgress(b[fp], w.root, w.now, fp, Unmark(s))
    ensures StepOk(b, w, pid, fp, Unmark(s), c)
  {
    ScratchIsNotCanonical(fp, s);
    assert CanonicalExact(b, w.root, fp);
    SetCanonicalKeepsExact(b, w.root, fp, w.root[CanonicalName(fp)].(marker := None));
  }

  lemma MoveAsideKeeps(b: Bundles, w: World, pid: Pid, fp: string, s: string, c: Choice)
    requires ValidBundles(b) && AllCanonicalsExact(b, w.root) && fp in b && EnabledResolver(b, w, fp, MoveAside(s), c)
    requires PcProgress(b[fp], w.root, w.now, fp, MoveAside(s))
    ensures StepOk(b, w, pid, fp, MoveAside(s), c)
  {
    var canonical, stale := CanonicalName(fp), StaleName(fp, c.text);
    ScratchIsNotCanonical(fp, s);
    ScratchNamesAreScratch(fp, c.text);
    SetScratchKeepsExact(b, w.root, stale, w.root[canonical]);
    RemoveKeepsExact(b, w.root[stale := w.root[canonical]], canonical);
  }

  lemma DecideKeeps(b: Bundles, w: World, pid: Pid, fp: string, s: string, c: Choice)
    requires ValidBundles(b) && AllCanonicalsExact(b, w.root) && fp in b && EnabledResolver(b, w, fp, Decide(s), c)
    requires PcProgress(b[fp], w.root, w.now, fp, Decide(s))
    ensures StepOk(b, w, pid, fp, Decide(s), c)
  {
    RenameKeeps(b, w.root, fp, s);
  }

  lemma MoveInKeeps(b: Bundles, w: World, pid: Pid, fp: string, s: string, stale: string, c: Choice)
    requires ValidBundles(b) && AllCanonicalsExact(b, w.root) && fp in b && EnabledResolver(b, w, fp, MoveIn(s, stale), c)
    requires PcProgress(b[fp], w.root, w.now, fp, MoveIn(s, stale))
    ensures StepOk(b, w, pid, fp, MoveIn(s, stale), c)
  {
    RenameKeeps(b, w.root, fp, s);
  }

  lemma CleanKeeps(b: Bundles, w: World, pid: Pid, fp: string, stale: string, c: Choice)
    requires ValidBundles(b) && AllCanonicalsExact(b, w.root) && fp in b && EnabledResolver(b, w, fp, Clean(stale), c)
    requires PcProgress(b[fp], w.root, w.now, fp, Clean(stale))
    ensures StepOk(b, w, pid, fp, Clean(stale), c)
  {
    ScratchIsNotCanonical(fp, stale);
    if c.Leaves? {
      SetScratchKeepsExact(b, w.root, stale, c.dir);
    } else if !c.Verdict? {
      RemoveKeepsExact(b, w.root, stale);
    }
  }

  lemma ResolverKeeps(b: Bundles, w: World, pid: Pid, fp: string, pc: ResolverPc, c: Choice)
    requires ValidBundles(b) && AllCanonicalsExact(b, w.root) && fp in b && EnabledResolver(b, w, fp, pc, c)
    requires PcProgress(b[fp], w.root, w.now, fp, pc)
    ensures StepOk(b, w, pid, fp, pc, c)
  {
    if pc.MakeScratch? || pc.MakeLima? { StartKeeps(b, w, pid, fp, pc, c); }
    else if (pc.CreateFile? && pc.k < |b[fp]|) || pc.WriteFile? { FileKeeps(b, w, pid, fp, pc, c); }
    else if pc.SetMode? { SetModeKeeps(b, w, pid, fp, pc.scratch, pc.k, c); }
    else if pc.CreateMarker? || pc.WriteMarker? { MarkerKeeps(b, w, pid, fp, pc, c); }
    else if pc.Decide? { DecideKeeps(b, w, pid, fp, pc.scratch, c); }
    else if pc.MoveIn? { MoveInKeeps(b, w, pid, fp, pc.scratch, pc.stale, c); }
    else if pc.Unmark? { UnmarkKeeps(b, w, pid, fp, pc.scratch, c); }
    else if pc.MoveAside? { MoveAsideKeeps(b, w, pid, fp, pc.scratch, c); }
    else if pc.Clean? { CleanKeeps(b, w, pid, fp, pc.stale, c); }
  }
}
