/** Filling a scratch tree with a bundle's files, one at a time (src/lima/asset_resolver.rs). */
module AssetBundle {

  import opened Common
  import opened FileTree
  import opened AssetTree

  /** Distinct file paths, none of them below another. */
  predicate ValidManifest(assets: seq<Asset>) {
    && (forall i :: 0 <= i < |assets| ==> assets[i].path != [])
    && forall i, j :: 0 <= i < |assets| && 0 <= j < |assets| && i != j ==> !(assets[i].path <= assets[j].path)
  }

  /** The embedded bytes with the final mode. */
  predicate Installed(lima: Tree, asset: Asset) {
    match At<Item>(lima, asset.path)
    case Some(Leaf(Regular(bytes, mode, _))) => bytes == asset.bytes && mode == FinalMode(asset.path)
    case _ => false
  }

  /** Whatever regular file is at an asset's path is that asset. */
  ghost predicate Exact(assets: seq<Asset>, lima: Tree) {
    forall i :: 0 <= i < |assets| && IsRegular(lima, assets[i].path) ==> Installed(lima, assets[i])
  }

  predicate IsRegular(lima: Tree, path: Path) {
    match At<Item>(lima, path) case Some(Leaf(Regular(_, _, _))) => true case _ => false
  }

  // ---- A tree being filled ----

  ghost predicate LeavesAreAssets(assets: seq<Asset>, lima: Tree) {
    forall path: Path :: At(lima, path).Some? && At(lima, path).value.Leaf? ==> IsAssetPath(assets, path)
  }

  /** No entry newer than this, and no empty directory below the top. */
  ghost predicate StampsUpTo(lima: Tree, latest: Time)
    requires lima.Dir?
  {
    forall now: Time, t: Time :: IsStamp(lima, now, t) ==> t <= latest
  }

  /** The first so many assets are installed, and nothing else is there but possibly the next one. */
  ghost predicate Filled(assets: seq<Asset>, count: nat, lima: Tree, now: Time) {
    && lima.Dir? && LeavesAreAssets(assets, lima) && StampsUpTo(lima, now)
    && forall i :: 0 <= i < count && i < |assets| ==> Installed(lima, assets[i])
  }

  /** With no leaf strictly above a path, something can be put there. */
  lemma {:induction false} ClearPath(node: Tree, path: Path)
    requires forall prefix: Path :: prefix < path && At(node, prefix).Some? ==> At(node, prefix).value.Dir?
    ensures CanPut(node, path)
    decreases |path|
  {
    if path != [] {
      assert At(node, []) == Some(node) && [] < path;
      if path[0] in node.entries {
        var child := node.entries[path[0]];
        forall prefix: Path | prefix < path[1..] && At(child, prefix).Some? ensures At(child, prefix).value.Dir? {
          var longer := [path[0]] + prefix;
          assert longer[1..] == prefix && longer < path;
          assert At(node, longer) == At(child, prefix);
        }
        ClearPath(child, path[1..]);
      }
    }
  }

  lemma CanPutAsset(assets: seq<Asset>, k: nat, lima: Tree)
    requires ValidManifest(assets) && k < |assets| && LeavesAreAssets(assets, lima)
    ensures CanPut(lima, assets[k].path)
  {
    var path := assets[k].path;
    forall prefix: Path | prefix < path && At(lima, prefix).Some? ensures At(lima, prefix).value.Dir? {
      assert !IsAssetPath(assets, prefix);
    }
    ClearPath(lima, path);
  }

  /** Leaves after a put are the one put or leaves from before. */
  lemma {:induction false} LeafAfterPut(node: Tree, path: Path, item: Item, other: Path)
    requires CanPut(node, path) && At(Put(node, path, Leaf(item)), other).Some?
    requires At(Put(node, path, Leaf(item)), other).value.Leaf?
    ensures other == path || At(Put(node, path, Leaf(item)), other) == At(node, other)
    decreases |path|
  {
    if other != path {
      if path <= other {
        var below := other[|path|..];
        assert other == path + below;
        AtPut(node, path, Leaf(item), below);
      } else if other <= path {
        AbovePutIsDir(node, path, Leaf(item), other);
      } else {
        AtPutElsewhere(node, path, Leaf(item), other);
      }
    }
  }

  lemma {:induction false} AbovePutIsDir(node: Tree, path: Path, sub: Tree, above: Path)
    requires CanPut(node, path) && above < path
    ensures At(Put(node, path, sub), above).Some? && At(Put(node, path, sub), above).value.Dir?
    decreases |path|
  {
    if above != [] {
      CanPutInEmpty<Item>(path[1..]);
      assert above[1..] < path[1..];
      AbovePutIsDir(if path[0] in node.entries then node.entries[path[0]] else Dir(map[]), path[1..], sub, above[1..]);
    }
  }

  lemma {:induction false} StampsAfterPut(node: Tree, path: Path, item: Item, latest: Time)
    requires node.Dir? && StampsUpTo(node, latest) && CanPut(node, path) && path != []
    requires StampOf(item).Some? && StampOf(item).value <= latest
    ensures StampsUpTo(Put(node, path, Leaf(item)), latest)
    decreases |path|
  {
    var after := Put(node, path, Leaf(item));
    var child := if path[0] in node.entries then node.entries[path[0]] else Dir(map[]);
    CanPutInEmpty<Item>(path[1..]);
    if |path| > 1 {
      ChildStamps(node, path[0], child, latest);
      StampsAfterPut(child, path[1..], item, latest);
    }
    forall now: Time, t: Time | IsStamp(after, now, t) ensures t <= latest {
      var name := StampWitness(after, now, t);
      if name != path[0] {
        assert StampAt(node, name, now, t);
        assert IsStamp(node, now, t);
      } else if |path| == 1 {
        assert path[1..] == [];
        assert after.entries[name] == Put(child, path[1..], Leaf(item));
      } else {
        assert after.entries[name] == Put(child, path[1..], Leaf(item));
        PutIsNotEmpty(child, path[1..], Leaf(item));
        StampBelow(after, name, now, t);
      }
    }
  }

  lemma ChildStamps(node: Tree, name: Name, child: Tree, latest: Time)
    requires node.Dir? && StampsUpTo(node, latest) && child.Dir?
    requires if name in node.entries then child == node.entries[name] else child == Dir(map[])
    ensures StampsUpTo(child, latest)
  {
    forall now: Time, t: Time | IsStamp(child, now, t) ensures t <= latest {
      var below := StampWitness(child, now, t);
      assert below in child.entries;
      StampBelow(node, name, now, t);
    }
  }

  /** The times of a directory are those of the non-empty directories in it. */
  lemma StampBelow(dir: Tree, name: Name, now: Time, t: Time)
    requires dir.Dir? && name in dir.entries && dir.entries[name].Dir? && dir.entries[name].entries != map[]
    ensures StampAt(dir, name, now, t) <==> IsStamp(dir.entries[name], now, t)
    ensures StampAt(dir, name, now, t) ==> IsStamp(dir, now, t)
  {
  }

  lemma PutIsNotEmpty(node: Tree, path: Path, sub: Tree)
    requires CanPut(node, path) && path != []
    ensures Put(node, path, sub).Dir? && Put(node, path, sub).entries != map[]
  {
    assert path[0] in Put(node, path, sub).entries;
  }

  /** Creating, writing or chmodding the next file keeps the tree filled. */
  lemma PutKeepsFilled(assets: seq<Asset>, k: nat, lima: Tree, item: Item, now: Time)
    requires ValidManifest(assets) && k < |assets| && Filled(assets, k, lima, now)
    requires StampOf(item).Some? && StampOf(item).value <= now
    ensures CanPut(lima, assets[k].path)
    ensures Filled(assets, k, Put(lima, assets[k].path, Leaf(item)), now)
    ensures At(Put(lima, assets[k].path, Leaf(item)), assets[k].path) == Some(Leaf(item))
  {
    var path := assets[k].path;
    CanPutAsset(assets, k, lima);
    var after := Put(lima, path, Leaf(item));
    AtPutSame(lima, path, Leaf(item));
    StampsAfterPut(lima, path, item, now);
    forall q: Path | At(after, q).Some? && At(after, q).value.Leaf? ensures IsAssetPath(assets, q) {
      LeafAfterPut(lima, path, item, q);
    }
    forall i | 0 <= i < k ensures Installed(after, assets[i]) {
      AtPutElsewhere(lima, path, Leaf(item), assets[i].path);
    }
  }

  // ---- A complete bundle ----

  /** A directory with the whole bundle and a marker no older than any of it. */
  ghost predicate Ready(fp: string, assets: seq<Asset>, dir: CacheDir) {
    && dir.marker.Some? && dir.marker.value.text == fp
    && dir.lima.Some? && Filled(assets, |assets|, dir.lima.value, dir.marker.value.mtime)
  }

  lemma ReadyIsAcceptable(fp: string, assets: seq<Asset>, dir: CacheDir, now: Time)
    requires Ready(fp, assets, dir) && (fp == [] || fp[|fp| - 1] != '\n')
    ensures Acceptable(fp, assets, dir, now) && Exact(assets, dir.lima.value)
  {
    var lima := dir.lima.value;
    forall i | 0 <= i < |assets| ensures FileOk(lima, assets[i].path) {
      assert Installed(lima, assets[i]);
    }
    assert Trimmed(fp) == fp;
  }

  // ---- Deleting ----

  /** What is left of a tree has only leaves it had. */
  ghost predicate Fewer(after: Tree, before: Tree) {
    forall path: Path :: At(after, path).Some? && At(after, path).value.Leaf? ==> At(before, path) == At(after, path)
  }
}
