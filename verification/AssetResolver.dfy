/**
 * One resolver from beginning to end, each of its operations a step of the protocol
 * (src/lima/asset_resolver.rs). On its own, with operations that work and a clock that does not go
 * back, it recovers from every state runs can reach.
 */
module AssetResolver {

  import opened Common
  import opened AssetTree
  import opened AssetBundle
  import opened AssetNames
  import opened AssetProtocol
  import opened AssetSafety
  import opened AssetRuns

  /** The cache as it is would be accepted at that time. */
  ghost predicate GoodAt(b: Bundles, root: map<string, CacheDir>, fp: string, time: Time)
    requires fp in b
  {
    CanonicalName(fp) in root && Acceptable(fp, b[fp], root[CanonicalName(fp)], time)
  }

  ghost predicate GoodFrom(b: Bundles, root: map<string, CacheDir>, fp: string, now: Time)
    requires fp in b
  {
    forall time: Time :: now <= time ==> GoodAt(b, root, fp, time)
  }

  ghost predicate BadFrom(b: Bundles, root: map<string, CacheDir>, fp: string, now: Time)
    requires fp in b
  {
    forall time: Time :: now <= time ==> !GoodAt(b, root, fp, time)
  }

  class Host {
    const bundles: Bundles
    var world: World

    constructor (bundles: Bundles, world: World)
      ensures this.bundles == bundles && this.world == world
    {
      this.bundles, this.world := bundles, world;
    }

    ghost predicate Valid()
      reads this
    {
      ValidBundles(bundles) && Inv(bundles, world)
    }

    ghost predicate IsAt(pid: Pid, fp: string, pc: ResolverPc)
      reads this
    {
      Valid() && fp in bundles && pid in world.procs && world.procs[pid] == Resolver(fp, pc) &&
      PcProgress(bundles[fp], world.root, world.now, fp, pc)
    }

    /** The cache would be accepted now. */
    ghost predicate Accepts(fp: string)
      reads this
      requires fp in bundles
    {
      GoodAt(bundles, world.root, fp, world.now)
    }

    method Do(l: Label)
      requires Valid() && Enabled(bundles, world, l)
      modifies this`world
      ensures Valid() && world == Next(bundles, old(world), l)
    {
      NextKeepsInv(bundles, world, l);
      world := Next(bundles, world, l);
    }

    /** One operation of a resolver. */
    method Op(pid: Pid, ghost fp: string, ghost pc: ResolverPc, c: Choice)
      requires IsAt(pid, fp, pc) && EnabledResolver(bundles, world, fp, pc, c)
      modifies this`world
      ensures Valid() && world == NextResolver(bundles, old(world), pid, fp, pc, c)
      ensures pid in world.procs && Progress(bundles, world.root, world.now, world.procs[pid])
    {
      ResolverShape(bundles, world, pid, fp, pc, c);
      Do(Go(pid, c));
    }

    /** Time passes, never backwards. */
    method Wait(ghost pid: Pid, ghost fp: string, ghost pc: ResolverPc)
      requires IsAt(pid, fp, pc)
      modifies this`world
      ensures IsAt(pid, fp, pc) && world.root == old(world).root && world.lock == old(world).lock
      ensures world.now >= old(world).now
    {
      var time: Time :| world.now <= time;
      Do(Tick(time));
      assert Progress(bundles, world.root, world.now, world.procs[pid]);
    }

    /** The world but for this process and the clock. */
    twostate predicate Unchanged()
      reads this
    {
      world.root == old(world.root) && world.lock == old(world.lock) && world.now == old(world.now)
    }

    /** One look of the check without the lock. */
    method LookOp(pid: Pid, fp: string, pc: ResolverPc, ok: bool)
      requires IsAt(pid, fp, pc) && IsLook(pc) && EnabledResolver(bundles, world, fp, pc, Verdict(ok))
      modifies this`world
      ensures IsAt(pid, fp, AfterLook(bundles[fp], pc, ok)) && Unchanged()
    {
      Op(pid, fp, pc, Verdict(ok));
    }

    method LookAtFiles(pid: Pid, fp: string) returns (ok: bool)
      requires IsAt(pid, fp, LookAsset(0)) && HasLima(world, CanonicalName(fp))
      modifies this`world
      ensures IsAt(pid, fp, if ok then LookGuard else WantLock) && Unchanged()
      ensures ok <==> Complete(bundles[fp], world.root[CanonicalName(fp)].lima.value)
    {
      var assets, lima := bundles[fp], world.root[CanonicalName(fp)].lima.value;
      for k := 0 to |assets|
        invariant IsAt(pid, fp, LookAsset(k)) && Unchanged()
        invariant forall i :: 0 <= i < k ==> FileOk(lima, assets[i].path)
      {
        ok := FileOk(lima, assets[k].path);
        LookOp(pid, fp, LookAsset(k), ok);
        if !ok { return; }
      }
      LookOp(pid, fp, LookAsset(|assets|), true);
      ok := true;
    }

    /** The check without the lock: accepted exactly when the cache is good, and otherwise about to lock. */
    method Look(pid: Pid, fp: string) returns (ok: bool)
      requires IsAt(pid, fp, LookDir)
      modifies this`world
      ensures IsAt(pid, fp, if ok then Accepted(false) else WantLock) && Unchanged()
      ensures ok <==> Accepts(fp)
    {
      var canonical := CanonicalName(fp);
      ok := HasLima(world, canonical);
      LookOp(pid, fp, LookDir, ok);
      if !ok { return; }
      ok := Marked(fp, world.root[canonical]);
      LookOp(pid, fp, LookMarker, ok);
      if !ok { return; }
      ok := LookAtFiles(pid, fp);
      if !ok { return; }
      ok := CacheIsAcceptable(fp, bundles[fp], Some(world.root[canonical]), world.now);
      LookOp(pid, fp, LookGuard, ok);
    }

    // ---- Extraction ----

    method CreateFileOp(pid: Pid, fp: string, scratch: string, k: nat)
      requires IsAt(pid, fp, CreateFile(scratch, k)) && k < |bundles[fp]|
      modifies this`world
      ensures IsAt(pid, fp, WriteFile(scratch, k, 0)) && OnlyChanged(old(world.root), world.root, scratch)
    {
      var mode: bv16 := *;
      CanPutAsset(bundles[fp], k, world.root[scratch].lima.value);
      Op(pid, fp, CreateFile(scratch, k), Upto(0, mode));
    }

    method WriteFileOp(pid: Pid, fp: string, scratch: string, k: nat, written: nat, length: nat)
      requires IsAt(pid, fp, WriteFile(scratch, k, written)) && written <= length <= |bundles[fp][k].bytes|
      modifies this`world
      ensures IsAt(pid, fp, if length == |bundles[fp][k].bytes| then SetMode(scratch, k) else WriteFile(scratch, k, length))
      ensures OnlyChanged(old(world.root), world.root, scratch)
    {
      CanPutAsset(bundles[fp], k, world.root[scratch].lima.value);
      Op(pid, fp, WriteFile(scratch, k, written), Upto(length, 0));
    }

    method SetModeOp(pid: Pid, fp: string, scratch: string, k: nat)
      requires IsAt(pid, fp, SetMode(scratch, k))
      modifies this`world
      ensures IsAt(pid, fp, CreateFile(scratch, k + 1)) && OnlyChanged(old(world.root), world.root, scratch)
    {
      CanPutAsset(bundles[fp], k, world.root[scratch].lima.value);
      Op(pid, fp, SetMode(scratch, k), Plain);
    }

    /** One file: created, written in as many pieces as it takes, then given its mode. */
    method InstallFile(pid: Pid, fp: string, scratch: string, k: nat)
      requires IsAt(pid, fp, CreateFile(scratch, k)) && k < |bundles[fp]|
      modifies this`world
      ensures IsAt(pid, fp, CreateFile(scratch, k + 1)) && OnlyChanged(old(world.root), world.root, scratch)
    {
      var size := |bundles[fp][k].bytes|;
      CreateFileOp(pid, fp, scratch, k);
      var written, done := 0, false;
      while !done
        invariant written <= size && (done ==> written == size)
        invariant IsAt(pid, fp, if done then SetMode(scratch, k) else WriteFile(scratch, k, written))
        invariant OnlyChanged(old(world.root), world.root, scratch)
        decreases size - written, !done
      {
        var length: nat :| written <= length <= size && (written < size ==> written < length);
        ghost var before := world.root;
        WriteFileOp(pid, fp, scratch, k, written, length);
        OnlyChangedTwice(old(world.root), before, world.root, scratch);
        written, done := length, length == size;
      }
      Wait(pid, fp, SetMode(scratch, k));
      ghost var written_ := world.root;
      SetModeOp(pid, fp, scratch, k);
      OnlyChangedTwice(old(world.root), written_, world.root, scratch);
    }

    method MakeScratchOp(pid: Pid, fp: string, token: string)
      requires IsAt(pid, fp, MakeScratch) && ScratchName(fp, token) !in world.root
      modifies this`world
      ensures IsAt(pid, fp, MakeLima(ScratchName(fp, token)))
      ensures OnlyChanged(old(world.root), world.root, ScratchName(fp, token))
    {
      Op(pid, fp, MakeScratch, Token(token));
    }

    method MakeLimaOp(pid: Pid, fp: string, scratch: string)
      requires IsAt(pid, fp, MakeLima(scratch))
      modifies this`world
      ensures IsAt(pid, fp, CreateFile(scratch, 0)) && OnlyChanged(old(world.root), world.root, scratch)
    {
      Op(pid, fp, MakeLima(scratch), Plain);
    }

    method NoMoreFilesOp(pid: Pid, fp: string, scratch: string)
      requires fp in bundles && IsAt(pid, fp, CreateFile(scratch, |bundles[fp]|))
      modifies this`world
      ensures IsAt(pid, fp, CreateMarker(scratch)) && world.root == old(world.root)
    {
      Op(pid, fp, CreateFile(scratch, |bundles[fp]|), Upto(0, 0));
    }

    method CreateMarkerOp(pid: Pid, fp: string, scratch: string)
      requires IsAt(pid, fp, CreateMarker(scratch))
      modifies this`world
      ensures IsAt(pid, fp, WriteMarker(scratch, 0)) && OnlyChanged(old(world.root), world.root, scratch)
    {
      Op(pid, fp, CreateMarker(scratch), Plain);
    }

    method WriteMarkerOp(pid: Pid, fp: string, scratch: string, written: nat, length: nat)
      requires IsAt(pid, fp, WriteMarker(scratch, written)) && written <= length <= |fp|
      modifies this`world
      ensures IsAt(pid, fp, if length == |fp| then Decide(scratch) else WriteMarker(scratch, length))
      ensures OnlyChanged(old(world.root), world.root, scratch)
    {
      Op(pid, fp, WriteMarker(scratch, written), Upto(length, 0));
    }

    /** The marker, last of all, in as many pieces as it takes. */
    method WriteMarkerOps(pid: Pid, fp: string, scratch: string)
      requires IsAt(pid, fp, WriteMarker(scratch, 0))
      modifies this`world
      ensures IsAt(pid, fp, Decide(scratch)) && OnlyChanged(old(world.root), world.root, scratch)
    {
      var written, done := 0, false;
      while !done
        invariant written <= |fp| && (done ==> written == |fp|)
        invariant IsAt(pid, fp, if done then Decide(scratch) else WriteMarker(scratch, written))
        invariant OnlyChanged(old(world.root), world.root, scratch)
        decreases |fp| - written, !done
      {
        var length: nat :| written <= length <= |fp| && (written < |fp| ==> written < length);
        ghost var before := world.root;
        WriteMarkerOp(pid, fp, scratch, written, length);
        OnlyChangedTwice(old(world.root), before, world.root, scratch);
        written, done := length, length == |fp|;
      }
    }

    /** `extract_embedded_bundle`, up to its commit. */
    method ExtractInto(pid: Pid, fp: string, token: string)
      requires IsAt(pid, fp, MakeScratch) && ScratchName(fp, token) !in world.root
      modifies this`world
      ensures IsAt(pid, fp, Decide(ScratchName(fp, token)))
      ensures OnlyChanged(old(world.root), world.root, ScratchName(fp, token))
    {
      var scratch := ScratchName(fp, token);
      MakeScratchOp(pid, fp, token);
      ghost var made := world.root;
      MakeLimaOp(pid, fp, scratch);
      OnlyChangedTwice(old(world.root), made, world.root, scratch);
      for k := 0 to |bundles[fp]|
        invariant IsAt(pid, fp, CreateFile(scratch, k)) && OnlyChanged(old(world.root), world.root, scratch)
      {
        ghost var before := world.root;
        InstallFile(pid, fp, scratch, k);
        OnlyChangedTwice(old(world.root), before, world.root, scratch);
      }
      ghost var filled := world.root;
      NoMoreFilesOp(pid, fp, scratch);
      Wait(pid, fp, CreateMarker(scratch));
      CreateMarkerOp(pid, fp, scratch);
      OnlyChangedTwice(old(world.root), filled, world.root, scratch);
      ghost var created := world.root;
      WriteMarkerOps(pid, fp, scratch);
      OnlyChangedTwice(old(world.root), created, world.root, scratch);
    }

    // ---- Commit ----

    /** The whole bundle under its canonical name. */
    ghost predicate Extracted(fp: string)
      reads this
      requires fp in bundles
    {
      ReadyAt(world.root, CanonicalName(fp), fp, bundles[fp])
    }

    method DecideOp(pid: Pid, fp: string, scratch: string) returns (renamed: bool)
      requires IsAt(pid, fp, Decide(scratch))
      modifies this`world
      ensures renamed <==> CanonicalName(fp) !in old(world.root)
      ensures IsAt(pid, fp, if renamed then Accepted(true) else Unmark(scratch))
      ensures if renamed then Extracted(fp) else world.root == old(world.root)
    {
      renamed := CanonicalName(fp) !in world.root;
      ScratchIsNotCanonical(fp, scratch);
      Op(pid, fp, Decide(scratch), Plain);
    }

    /** Removing the marker may fail; that is ignored. */
    method UnmarkOp(pid: Pid, fp: string, scratch: string)
      requires IsAt(pid, fp, Unmark(scratch)) && CanonicalName(fp) in world.root
      modifies this`world
      ensures IsAt(pid, fp, MoveAside(scratch)) && world.root.Keys == old(world.root).Keys
    {
      var removed: bool := *;
      Op(pid, fp, Unmark(scratch), if removed then Plain else Verdict(false));
    }

    method MoveAsideOp(pid: Pid, fp: string, scratch: string, token: string)
      requires IsAt(pid, fp, MoveAside(scratch)) && CanonicalName(fp) in world.root && StaleName(fp, token) !in world.root
      modifies this`world
      ensures IsAt(pid, fp, MoveIn(scratch, StaleName(fp, token))) && CanonicalName(fp) !in world.root
    {
      ScratchNamesAreScratch(fp, token);
      ScratchIsNotCanonical(fp, StaleName(fp, token));
      Op(pid, fp, MoveAside(scratch), Token(token));
    }

    method MoveInOp(pid: Pid, fp: string, scratch: string, stale: string)
      requires IsAt(pid, fp, MoveIn(scratch, stale)) && CanonicalName(fp) !in world.root
      modifies this`world
      ensures IsAt(pid, fp, Clean(stale))
    {
      Op(pid, fp, MoveIn(scratch, stale), Plain);
    }

    /** Removing what was moved aside may fail. */
    method CleanOp(pid: Pid, fp: string, stale: string)
      requires IsAt(pid, fp, Clean(stale))
      modifies this`world
      ensures IsAt(pid, fp, Accepted(true)) && Extracted(fp)
    {
      var removes: bool := *;
      ScratchIsNotCanonical(fp, stale);
      Op(pid, fp, Clean(stale), if removes then Plain else Verdict(false));
    }

    /** `commit_scratch_into_canonical`. */
    method Commit(pid: Pid, fp: string, scratch: string, token: string)
      requires IsAt(pid, fp, Decide(scratch)) && StaleName(fp, token) !in world.root
      modifies this`world
      ensures IsAt(pid, fp, Accepted(true)) && Extracted(fp)
    {
      var renamed := DecideOp(pid, fp, scratch);
      if !renamed {
        UnmarkOp(pid, fp, scratch);
        MoveAsideOp(pid, fp, scratch, token);
        MoveInOp(pid, fp, scratch, StaleName(fp, token));
        CleanOp(pid, fp, StaleName(fp, token));
      }
    }

    // ---- The whole ----

    method Enter(pid: Pid, fp: string)
      requires Valid() && pid !in world.procs && fp in bundles
      modifies this`world
      ensures IsAt(pid, fp, LookDir) && Unchanged()
    {
      Do(Resolve(pid, fp));
    }

    /** The lock, and the second check under it. */
    method LockAndRecheck(pid: Pid, fp: string) returns (ok: bool)
      requires IsAt(pid, fp, WantLock) && world.lock.None?
      modifies this`world
      ensures IsAt(pid, fp, if ok then Accepted(false) else MakeScratch)
      ensures world.root == old(world).root && world.now == old(world).now && (ok <==> Accepts(fp))
    {
      Op(pid, fp, WantLock, Plain);
      var canonical := CanonicalName(fp);
      var dir := if canonical in world.root then Some(world.root[canonical]) else None;
      ok := CacheIsAcceptable(fp, bundles[fp], dir, world.now);
      Op(pid, fp, Recheck, Verdict(ok));
    }

    /** The two checks: accepted without the lock, or under it, or about to extract. */
    method AcceptOrLock(pid: Pid, fp: string) returns (ok: bool)
      requires Valid() && pid !in world.procs && fp in bundles && world.lock.None?
      modifies this`world
      ensures IsAt(pid, fp, if ok then Accepted(false) else MakeScratch) && (ok ==> Accepts(fp))
      ensures world.root == old(world).root
      ensures GoodFrom(bundles, old(world).root, fp, old(world).now) ==> ok
      ensures BadFrom(bundles, old(world).root, fp, old(world).now) ==> !ok
    {
      hide Acceptable, Inv, ValidBundles;
      Enter(pid, fp);
      Wait(pid, fp, LookDir);
      ok := Look(pid, fp);
      if !ok {
        Wait(pid, fp, WantLock);
        ok := LockAndRecheck(pid, fp);
      }
    }

    /**
     * `resolve_uncached`: from any state that runs can reach in which nobody holds the lock, whatever
     * crashes and collectors left in the cache, a resolver whose operations work ends with a cache that
     * would be accepted. It uses a cache that is good from now on as it is, and extracts when the cache is
     * not good at any time from now on. The tokens are the fresh names it makes.
     */
    method ResolveUncached(pid: Pid, fp: string, token: string, staleToken: string) returns (extracted: bool)
      requires Valid() && pid !in world.procs && fp in bundles && world.lock.None?
      requires ScratchName(fp, token) !in world.root && StaleName(fp, staleToken) !in world.root
      modifies this`world
      ensures IsAt(pid, fp, Accepted(extracted)) && Accepts(fp)
      ensures GoodFrom(bundles, old(world).root, fp, old(world).now) ==> !extracted
      ensures BadFrom(bundles, old(world).root, fp, old(world).now) ==> extracted
      ensures !extracted ==> world.root == old(world).root
    {
      hide GoodFrom, BadFrom;
      var ok := AcceptOrLock(pid, fp);
      if ok { return false; }
      ScratchIsNotStale(fp, token, staleToken);
      ghost var before := world.root;
      ExtractInto(pid, fp, token);
      assert Same(before, world.root, StaleName(fp, staleToken));
      Commit(pid, fp, ScratchName(fp, token), staleToken);
      ReadyNow(bundles, world, fp);
      extracted := true;
    }
  }

  lemma ReadyNow(b: Bundles, w: World, fp: string)
    requires ValidBundles(b) && fp in b && ReadyAt(w.root, CanonicalName(fp), fp, b[fp])
    ensures Acceptable(fp, b[fp], w.root[CanonicalName(fp)], w.now)
  {
    ReadyIsAcceptable(fp, b[fp], w.root[CanonicalName(fp)], w.now);
  }

  lemma OnlyChangedTwice(a: map<string, CacheDir>, b: map<string, CacheDir>, c: map<string, CacheDir>, name: string)
    requires OnlyChanged(a, b, name) && OnlyChanged(b, c, name)
    ensures OnlyChanged(a, c, name)
  {
    forall other | other != name ensures Same(a, c, other) {
      assert Same(a, b, other) && Same(b, c, other);
    }
  }

  predicate IsLook(pc: ResolverPc) {
    pc.LookDir? || pc.LookMarker? || pc.LookAsset? || pc.LookGuard?
  }

  function AfterLook(assets: seq<Asset>, pc: ResolverPc, ok: bool): ResolverPc
    requires IsLook(pc)
  {
    match pc
    case LookDir => if ok then LookMarker else WantLock
    case LookMarker => if ok then LookAsset(0) else WantLock
    case LookAsset(k) => if k >= |assets| then LookGuard else if ok then LookAsset(k + 1) else WantLock
    case LookGuard => if ok then Accepted(false) else WantLock
  }
}
