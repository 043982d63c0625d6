/**
 * Leaving excluded artifacts behind: copying a filtered seed, scrubbing a tree in place, and listing what
 * is excluded, all over directories in any order (src/policy/artifacts.rs). Which paths are excluded is
 * any test on a path and on whether it is a directory.
 */
module Artifacts {

  import opened Common
  import opened FileTree

  /** `inside`: the link resolves, and to somewhere under the seed's root. */
  datatype Item = File(bytes: Bytes, mode: nat) | Link(text: string, inside: bool) | Special

  type Tree = Node<Item>

  type Test = (Path, bool) -> bool

  // ---- What is left ----

  predicate Survives(excluded: Test, at: Path, entries: map<Name, Tree>, name: Name) {
    name in entries && !excluded(at + [name], entries[name].Dir?)
  }

  /** A tree without its excluded entries. */
  function Pruned(excluded: Test, at: Path, node: Tree): Tree
    decreases node
  {
    match node
    case Leaf(_) => node
    case Dir(entries) =>
      Dir(map name | name in entries && Survives(excluded, at, entries, name) :: Pruned(excluded, at + [name], entries[name]))
  }

  predicate IsSpecial(node: Tree) {
    node.Leaf? && node.it.Special?
  }

  /** A copied seed: sockets, devices and the like are passed over. */
  function Seeded(excluded: Test, at: Path, node: Tree): Tree
    decreases node
  {
    match node
    case Leaf(_) => node
    case Dir(entries) =>
      Dir(map name | name in entries && Survives(excluded, at, entries, name) && !IsSpecial(entries[name]) ::
            Seeded(excluded, at + [name], entries[name]))
  }

  /** Every surviving link stays inside the seed. */
  ghost predicate LinksInside(excluded: Test, at: Path, node: Tree)
    decreases node, 1
  {
    node.Dir? ==> forall name :: Survives(excluded, at, node.entries, name) ==> EntryInside(excluded, at, node, name)
  }

  ghost predicate EntryInside(excluded: Test, at: Path, node: Tree, name: Name)
    requires node.Dir? && name in node.entries
    decreases node, 0
  {
    match node.entries[name]
    case Leaf(item) => item.Link? ==> item.inside
    case Dir(_) => LinksInside(excluded, at + [name], node.entries[name])
  }

  // ---- Putting one more entry ----

  lemma AddEntry(root: Tree, at: Path, entries: map<Name, Tree>, name: Name, sub: Tree)
    requires CanPut(root, at)
    ensures CanPut(Put(root, at, Dir(entries)), at + [name])
    ensures Put(Put(root, at, Dir(entries)), at + [name], sub) == Put(root, at, Dir(entries[name := sub]))
  {
    PutTwice(root, at, Dir(entries), [name], sub);
  }

  lemma PutAgain(root: Tree, at: Path, first: Tree, second: Tree)
    requires CanPut(root, at)
    ensures CanPut(Put(root, at, first), at) && Put(Put(root, at, first), at, second) == Put(root, at, second)
  {
    PutTwice(root, at, first, [], second);
    assert at + [] == at;
  }

  // ---- The walk ----

  datatype Purpose = Copy | List

  /** The entries a walk has been through, as a copy has them. */
  function CopiedSoFar(excluded: Test, at: Path, entries: map<Name, Tree>, seen: set<Name>): map<Name, Tree> {
    map name | name in entries && name in seen && Survives(excluded, at, entries, name) && !IsSpecial(entries[name]) ::
      Seeded(excluded, at + [name], entries[name])
  }

  lemma CopyOneMore(excluded: Test, at: Path, entries: map<Name, Tree>, seen: set<Name>, name: Name)
    requires name in entries && name !in seen
    ensures CopiedSoFar(excluded, at, entries, seen + {name}) ==
      if Survives(excluded, at, entries, name) && !IsSpecial(entries[name])
      then CopiedSoFar(excluded, at, entries, seen)[name := Seeded(excluded, at + [name], entries[name])]
      else CopiedSoFar(excluded, at, entries, seen)
  {
  }

  /** Excluded, with nothing excluded above it: what a walk that starts at `at` lists. */
  ghost predicate Topmost(excluded: Test, at: Path, node: Tree, path: Path)
    decreases node, 1
  {
    node.Dir? && exists name :: TopmostBy(excluded, at, node, name, path)
  }

  ghost predicate TopmostBy(excluded: Test, at: Path, node: Tree, name: Name, path: Path)
    requires node.Dir?
    decreases node, 0
  {
    name in node.entries &&
    if excluded(at + [name], node.entries[name].Dir?) then path == at + [name]
    else Topmost(excluded, at + [name], node.entries[name], path)
  }

  lemma TopmostWitness(excluded: Test, at: Path, node: Tree, path: Path) returns (name: Name)
    requires Topmost(excluded, at, node, path)
    ensures node.Dir? && TopmostBy(excluded, at, node, name, path)
  {
    name :| TopmostBy(excluded, at, node, name, path);
  }

  /** What is listed below a name starts with it. */
  lemma {:induction false} TopmostIsBelow(excluded: Test, at: Path, node: Tree, name: Name, path: Path)
    requires node.Dir? && TopmostBy(excluded, at, node, name, path)
    ensures at + [name] <= path
    decreases node
  {
    if !excluded(at + [name], node.entries[name].Dir?) {
      var next := TopmostWitness(excluded, at + [name], node.entries[name], path);
      TopmostIsBelow(excluded, at + [name], node.entries[name], next, path);
    }
  }

  lemma TopmostByOneName(excluded: Test, at: Path, node: Tree, a: Name, b: Name, path: Path)
    requires node.Dir? && TopmostBy(excluded, at, node, a, path) && TopmostBy(excluded, at, node, b, path)
    ensures a == b
  {
    TopmostIsBelow(excluded, at, node, a, path);
    TopmostIsBelow(excluded, at, node, b, path);
    assert (at + [a])[|at|] == path[|at|] && (at + [b])[|at|] == path[|at|];
  }

  predicate NoDuplicates(paths: seq<Path>) {
    forall i, j :: 0 <= i < j < |paths| ==> paths[i] != paths[j]
  }

  /** Exactly what is topmost excluded below some names of a directory, each once. */
  ghost predicate Lists(excluded: Test, at: Path, dir: Tree, names: set<Name>, paths: seq<Path>)
    requires dir.Dir?
  {
    && NoDuplicates(paths)
    && (forall path :: path in paths ==> exists name :: name in names && TopmostBy(excluded, at, dir, name, path))
    && forall name, path :: name in names && TopmostBy(excluded, at, dir, name, path) ==> path in paths
  }

  lemma ListsMore(excluded: Test, at: Path, dir: Tree, names: set<Name>, paths: seq<Path>, name: Name, more: seq<Path>)
    requires dir.Dir? && name !in names && Lists(excluded, at, dir, names, paths)
    requires Lists(excluded, at, dir, {name}, more)
    ensures Lists(excluded, at, dir, names + {name}, paths + more)
  {
    forall i, j | 0 <= i < j < |paths + more| ensures (paths + more)[i] != (paths + more)[j] {
      if i < |paths| <= j && (paths + more)[i] == (paths + more)[j] {
        assert paths[i] in paths && more[j - |paths|] in more;
        var other :| other in names && TopmostBy(excluded, at, dir, other, paths[i]);
        TopmostByOneName(excluded, at, dir, other, name, paths[i]);
      }
    }
    forall path | path in paths + more
      ensures exists x :: x in names + {name} && TopmostBy(excluded, at, dir, x, path)
    {
      if path in paths {
        var x :| x in names && TopmostBy(excluded, at, dir, x, path);
        assert x in names + {name};
      } else {
        assert TopmostBy(excluded, at, dir, name, path) && name in names + {name};
      }
    }
  }

  /** What is listed for one entry. */
  lemma ListsEntry(excluded: Test, at: Path, dir: Tree, name: Name, paths: seq<Path>)
    requires dir.Dir? && name in dir.entries
    requires if excluded(at + [name], dir.entries[name].Dir?) then paths == [at + [name]]
             else if dir.entries[name].Dir? then
               Lists(excluded, at + [name], dir.entries[name], dir.entries[name].entries.Keys, paths)
             else paths == []
    ensures Lists(excluded, at, dir, {name}, paths)
  {
    var entry := dir.entries[name];
    if !excluded(at + [name], entry.Dir?) && entry.Dir? {
      forall path | path in paths ensures TopmostBy(excluded, at, dir, name, path) {
        var next :| next in entry.entries && TopmostBy(excluded, at + [name], entry, next, path);
      }
      forall path | TopmostBy(excluded, at, dir, name, path) ensures path in paths {
        var next := TopmostWitness(excluded, at + [name], entry, path);
      }
    }
    assert name in {name};
  }

  class Visitor {
    const purpose: Purpose
    var copy: Tree
    var listed: seq<Path>

    constructor (purpose: Purpose)
      ensures this.purpose == purpose && copy == Dir(map[]) && listed == []
    {
      this.purpose, copy, listed := purpose, Dir(map[]), [];
    }

    /** The callback for an entry that stays: copied, when this walk copies; `false` for a link to outside. */
    method Include(path: Path, entry: Tree) returns (ok: bool)
      requires purpose == Copy ==> CanPut(copy, path)
      modifies this`copy
      ensures purpose == List ==> ok && copy == old(copy)
      ensures purpose == Copy ==> (ok <==> (entry.Leaf? && entry.it.Link? ==> entry.it.inside))
      ensures purpose == Copy && ok ==>
        copy == if IsSpecial(entry) then old(copy) else Put(old(copy), path, if entry.Dir? then Dir(map[]) else entry)
    {
      ok := true;
      if purpose == Copy {
        match entry {
          case Leaf(Link(_, inside)) =>
            if !inside { return false; }
            copy := Put(copy, path, entry);
          case Dir(_) => copy := Put(copy, path, Dir(map[]));
          case Leaf(File(_, _)) => copy := Put(copy, path, entry);
          case Leaf(Special) =>
        }
      }
    }

    /** The callback for an excluded entry: listed, when this walk lists. */
    method Exclude(path: Path)
      modifies this`listed
      ensures listed == if purpose == List then old(listed) + [path] else old(listed)
    {
      if purpose == List { listed := listed + [path]; }
    }

    /**
     * `visit_tree`. Copying, it fills an empty directory with what is seeded of the source, or fails on a
     * link to outside; listing, it adds exactly what is topmost excluded, each path once.
     */
    method VisitTree(excluded: Test, at: Path, dir: Tree) returns (ok: bool, ghost more: seq<Path>)
      requires dir.Dir? && (purpose == Copy ==> At(copy, at) == Some(Node<Item>.Dir(map[])))
      modifies this
      ensures purpose == List ==> ok && copy == old(copy)
      ensures purpose == List ==> listed == old(listed) + more && Lists(excluded, at, dir, dir.entries.Keys, more)
      ensures purpose == Copy ==> listed == old(listed) && CanPut(old(copy), at) && (ok <==> LinksInside(excluded, at, dir))
      ensures purpose == Copy && ok ==> copy == Put(old(copy), at, Seeded(excluded, at, dir))
      decreases dir
    {
      ghost var before := copy;
      var left, seen := dir.entries.Keys, {};
      more := [];
      if purpose == Copy {
        CanPutWhereFound(copy, at);
        PutWhatIsThere(copy, at);
        assert CopiedSoFar(excluded, at, dir.entries, {}) == map[];
      }
      while left != {}
        invariant seen + left == dir.entries.Keys && seen !! left
        invariant purpose == List ==> copy == before && listed == old(listed) + more && Lists(excluded, at, dir, seen, more)
        invariant purpose == Copy ==> listed == old(listed) && CanPut(before, at)
        invariant purpose == Copy ==> copy == Put(before, at, Dir(CopiedSoFar(excluded, at, dir.entries, seen)))
        invariant purpose == Copy ==>
          forall name :: name in seen && Survives(excluded, at, dir.entries, name) ==> EntryInside(excluded, at, dir, name)
        decreases left
      {
        var name :| name in left;
        ghost var one;
        ok, one := VisitEntry(excluded, at, dir, name, before, seen);
        if !ok { return; }
        if purpose == List { ListsMore(excluded, at, dir, seen, more, name, one); }
        more := more + one;
        left, seen := left - {name}, seen + {name};
      }
      assert seen == dir.entries.Keys;
      AllCopied(excluded, at, dir);
      ok := true;
    }

    /** One entry of a directory. */
    method VisitEntry(excluded: Test, at: Path, dir: Tree, name: Name, ghost before: Tree, ghost seen: set<Name>)
      returns (ok: bool, ghost more: seq<Path>)
      requires dir.Dir? && name in dir.entries && name !in seen
      requires purpose == Copy ==> CanPut(before, at)
      requires purpose == Copy ==> copy == Put(before, at, Dir(CopiedSoFar(excluded, at, dir.entries, seen)))
      modifies this
      ensures purpose == List ==> ok && copy == old(copy)
      ensures purpose == List ==> listed == old(listed) + more && Lists(excluded, at, dir, {name}, more)
      ensures purpose == Copy ==> listed == old(listed)
      ensures purpose == Copy ==> (ok <==> (Survives(excluded, at, dir.entries, name) ==> EntryInside(excluded, at, dir, name)))
      ensures purpose == Copy && ok ==> copy == Put(before, at, Dir(CopiedSoFar(excluded, at, dir.entries, seen + {name})))
      decreases dir, 0
    {
      var path, entry := at + [name], dir.entries[name];
      CopyOneMore(excluded, at, dir.entries, seen, name);
      if excluded(path, entry.Dir?) {
        Exclude(path);
        more := [path];
        ListsEntry(excluded, at, dir, name, more);
        return true, more;
      }
      more := [];
      if purpose == Copy {
        AddEntry(before, at, CopiedSoFar(excluded, at, dir.entries, seen), name, if entry.Dir? then Dir(map[]) else entry);
        AddEntry(before, at, CopiedSoFar(excluded, at, dir.entries, seen), name, Seeded(excluded, path, entry));
      }
      ghost var start := copy;
      ok := Include(path, entry);
      if ok && entry.Dir? {
        if purpose == Copy {
          AtPutSame(start, path, Node<Item>.Dir(map[]));
          PutAgain(start, path, Dir(map[]), Seeded(excluded, path, entry));
        }
        ok, more := VisitTree(excluded, path, entry);
      }
      if purpose == List { ListsEntry(excluded, at, dir, name, more); }
    }
  }

  lemma AllCopied(excluded: Test, at: Path, dir: Tree)
    requires dir.Dir?
    ensures Dir(CopiedSoFar(excluded, at, dir.entries, dir.entries.Keys)) == Seeded(excluded, at, dir)
  {
  }

  /** `materialize`: an error exactly when some surviving link leads outside, otherwise the seeded tree. */
  method Materialize(excluded: Test, root: Tree) returns (r: Option<Tree>)
    requires root.Dir?
    ensures r.Some? <==> LinksInside(excluded, [], root)
    ensures r.Some? ==> r.value == Seeded(excluded, [], root)
  {
    var visitor := new Visitor(Copy);
    var ok, _ := visitor.VisitTree(excluded, [], root);
    r := if ok then Some(visitor.copy) else None;
  }

  /** `collect_excluded_paths`. */
  method CollectExcludedPaths(excluded: Test, root: Tree) returns (paths: seq<Path>)
    requires root.Dir?
    ensures NoDuplicates(paths)
    ensures forall path :: path in paths <==> Topmost(excluded, [], root, path)
  {
    var visitor := new Visitor(List);
    var _, more := visitor.VisitTree(excluded, [], root);
    paths := visitor.listed;
    assert paths == [] + more == more;
    forall path ensures path in paths <==> Topmost(excluded, [], root, path) {
      if Topmost(excluded, [], root, path) { var name := TopmostWitness(excluded, [], root, path); }
    }
  }

  // ---- Scrubbing in place ----

  /** The entries a scrub has been through, among those it has not. */
  function ScrubbedSoFar(excluded: Test, at: Path, entries: map<Name, Tree>, seen: set<Name>): map<Name, Tree> {
    map name | name in entries && (name in seen ==> Survives(excluded, at, entries, name)) ::
      if name in seen then Pruned(excluded, at + [name], entries[name]) else entries[name]
  }

  lemma ScrubOneMore(excluded: Test, at: Path, entries: map<Name, Tree>, seen: set<Name>, name: Name)
    requires name in entries && name !in seen
    ensures var before := ScrubbedSoFar(excluded, at, entries, seen);
      && name in before && before[name] == entries[name]
      && ScrubbedSoFar(excluded, at, entries, seen + {name}) ==
           if Survives(excluded, at, entries, name) then before[name := Pruned(excluded, at + [name], entries[name])]
           else before - {name}
  {
  }

  lemma AllScrubbed(excluded: Test, at: Path, dir: Tree)
    requires dir.Dir?
    ensures Dir(ScrubbedSoFar(excluded, at, dir.entries, {})) == dir
    ensures Dir(ScrubbedSoFar(excluded, at, dir.entries, dir.entries.Keys)) == Pruned(excluded, at, dir)
  {
    assert ScrubbedSoFar(excluded, at, dir.entries, {}) == dir.entries;
  }

  class Worktree {
    var tree: Tree

    constructor (tree: Tree)
      ensures this.tree == tree
    {
      this.tree := tree;
    }

    /** `remove_dir_all` or `remove_file`. */
    method Remove(at: Path, name: Name)
      requires At(tree, at).Some? && At(tree, at).value.Dir?
      modifies this`tree
      ensures CanPut(old(tree), at) && tree == Put(old(tree), at, Dir(At(old(tree), at).value.entries - {name}))
    {
      CanPutWhereFound(tree, at);
      tree := Put(tree, at, Dir(At<Item>(tree, at).value.entries - {name}));
    }

    /** `scrub_tree_inner`: a directory becomes its pruned self, and nothing else changes. */
    method ScrubDirectory(excluded: Test, at: Path, ghost dir: Tree)
      requires dir.Dir? && At(tree, at) == Some(dir)
      modifies this`tree
      ensures CanPut(old(tree), at) && tree == Put(old(tree), at, Pruned(excluded, at, dir))
      decreases dir
    {
      ghost var before := tree;
      CanPutWhereFound(tree, at);
      PutWhatIsThere(tree, at);
      AllScrubbed(excluded, at, dir);
      var left := At<Item>(tree, at).value.entries.Keys;
      ghost var seen: set<Name> := {};
      while left != {}
        invariant seen + left == dir.entries.Keys && seen !! left
        invariant tree == Put(before, at, Dir(ScrubbedSoFar(excluded, at, dir.entries, seen)))
        decreases left
      {
        var name :| name in left;
        ScrubEntry(excluded, at, dir, name, before, seen);
        left, seen := left - {name}, seen + {name};
      }
      assert seen == dir.entries.Keys;
    }

    method ScrubEntry(excluded: Test, at: Path, ghost dir: Tree, name: Name, ghost before: Tree, ghost seen: set<Name>)
      requires dir.Dir? && name in dir.entries && name !in seen && CanPut(before, at)
      requires tree == Put(before, at, Dir(ScrubbedSoFar(excluded, at, dir.entries, seen)))
      modifies this`tree
      ensures tree == Put(before, at, Dir(ScrubbedSoFar(excluded, at, dir.entries, seen + {name})))
      decreases dir, 0
    {
      ghost var entries := ScrubbedSoFar(excluded, at, dir.entries, seen);
      ScrubOneMore(excluded, at, dir.entries, seen, name);
      AtPutSame(before, at, Dir(entries));
      EntryAt(before, at, entries, name);
      var entry := At<Item>(tree, at).value.entries[name];
      if excluded(at + [name], entry.Dir?) {
        Remove(at, name);
        PutAgain(before, at, Dir(entries), Dir(entries - {name}));
      } else if entry.Dir? {
        AddEntry(before, at, entries, name, Pruned(excluded, at + [name], entry));
        ScrubDirectory(excluded, at + [name], entry);
      } else {
        assert entries[name := entry] == entries;
      }
    }
  }

  lemma EntryAt(root: Tree, at: Path, entries: map<Name, Tree>, name: Name)
    requires CanPut(root, at) && name in entries
    ensures At(Put(root, at, Dir(entries)), at + [name]) == Some(entries[name])
  {
    AtPut(root, at, Dir(entries), [name]);
    assert [name][1..] == [];
    assert At(entries[name], [name][1..]) == Some(entries[name]);
  }

  /** `scrub_tree`. */
  method ScrubTree(excluded: Test, root: Tree) returns (scrubbed: Tree)
    requires root.Dir?
    ensures scrubbed == Pruned(excluded, [], root)
  {
    var worktree := new Worktree(root);
    worktree.ScrubDirectory(excluded, [], root);
    scrubbed := worktree.tree;
  }

  // ---- What it all means ----

  ghost predicate NoSpecials(node: Tree)
    decreases node
  {
    node.Dir? ==> forall name :: name in node.entries ==> !IsSpecial(node.entries[name]) && NoSpecials(node.entries[name])
  }

  /** A copied seed is the scrubbed tree, exactly when nothing special survives scrubbing. */
  lemma {:induction false} SeedIsScrubbedTreeIff(excluded: Test, at: Path, node: Tree)
    ensures Seeded(excluded, at, node) == Pruned(excluded, at, node) <==> NoSpecials(Pruned(excluded, at, node))
    decreases node
  {
    if node.Dir? {
      var seeded, pruned := Seeded(excluded, at, node), Pruned(excluded, at, node);
      forall name | name in pruned.entries
        ensures Seeded(excluded, at + [name], node.entries[name]) == pruned.entries[name] <==> NoSpecials(pruned.entries[name])
        ensures IsSpecial(pruned.entries[name]) <==> IsSpecial(node.entries[name])
      {
        SeedIsScrubbedTreeIff(excluded, at + [name], node.entries[name]);
      }
      if NoSpecials(pruned) {
        assert seeded.entries == pruned.entries;
      } else {
        SpecialsDiffer(excluded, at, node);
      }
    }
  }

  lemma SpecialsDiffer(excluded: Test, at: Path, node: Tree)
    requires node.Dir? && !NoSpecials(Pruned(excluded, at, node))
    requires forall name :: name in Pruned(excluded, at, node).entries ==>
      (Seeded(excluded, at + [name], node.entries[name]) == Pruned(excluded, at, node).entries[name] <==>
         NoSpecials(Pruned(excluded, at, node).entries[name]))
    ensures Seeded(excluded, at, node) != Pruned(excluded, at, node)
  {
    var pruned := Pruned(excluded, at, node);
    var name :| name in pruned.entries && (IsSpecial(pruned.entries[name]) || !NoSpecials(pruned.entries[name]));
    if IsSpecial(node.entries[name]) {
      assert name !in Seeded(excluded, at, node).entries;
    } else {
      assert Seeded(excluded, at, node).entries[name] == Seeded(excluded, at + [name], node.entries[name]);
    }
  }

  /** Neither this entry nor anything above it is excluded. */
  ghost predicate Kept(excluded: Test, at: Path, node: Tree, path: Path)
    decreases |path|
  {
    path == [] ||
    (&& node.Dir? && Survives(excluded, at, node.entries, path[0])
     && Kept(excluded, at + [path[0]], node.entries[path[0]], path[1..]))
  }

  /** A path survives exactly when it was there and neither it nor any directory above it is excluded. */
  lemma {:induction false} SurvivesIffKept(excluded: Test, at: Path, node: Tree, path: Path)
    ensures At(Pruned(excluded, at, node), path).Some? <==> At(node, path).Some? && Kept(excluded, at, node, path)
    ensures At(Pruned(excluded, at, node), path).Some? ==>
      At(Pruned(excluded, at, node), path).value == Pruned(excluded, at + path, At(node, path).value)
    decreases |path|
  {
    if path == [] {
      assert at + [] == at;
    } else if node.Dir? && Survives(excluded, at, node.entries, path[0]) {
      SurvivesIffKept(excluded, at + [path[0]], node.entries[path[0]], path[1..]);
      assert at + path == at + [path[0]] + path[1..];
    }
  }

  /** The entry so far along a path is not excluded. */
  predicate Open(excluded: Test, at: Path, node: Tree, path: Path, k: nat)
    requires k <= |path|
  {
    !excluded(at + path[..k], At(node, path[..k]).Some? && At(node, path[..k]).value.Dir?)
  }

  lemma OpenFirst(excluded: Test, at: Path, node: Tree, path: Path)
    requires path != [] && At(node, path).Some?
    ensures node.Dir? && path[0] in node.entries
    ensures Open(excluded, at, node, path, 1) <==> Survives(excluded, at, node.entries, path[0])
  {
    assert path[..1] == [path[0]] && [path[0]][1..] == [];
    assert At(node, [path[0]]) == At(node.entries[path[0]], [path[0]][1..]);
  }

  lemma OpenBelow(excluded: Test, at: Path, node: Tree, path: Path, k: nat)
    requires path != [] && node.Dir? && path[0] in node.entries && k < |path|
    ensures Open(excluded, at, node, path, k + 1) <==>
      Open(excluded, at + [path[0]], node.entries[path[0]], path[1..], k)
  {
    var longer := path[..k + 1];
    assert longer[0] == path[0] && longer[1..] == path[1..][..k];
    assert at + longer == at + [path[0]] + path[1..][..k];
  }

  /** The same, entry by entry along the path. */
  lemma {:induction false} KeptMeans(excluded: Test, at: Path, node: Tree, path: Path)
    requires At(node, path).Some?
    ensures Kept(excluded, at, node, path) <==> forall k :: 0 < k <= |path| ==> Open(excluded, at, node, path, k)
    decreases |path|
  {
    if path != [] {
      var child, rest := node.entries[path[0]], path[1..];
      OpenFirst(excluded, at, node, path);
      KeptMeans(excluded, at + [path[0]], child, rest);
      if Kept(excluded, at, node, path) {
        forall k | 0 < k <= |path| ensures Open(excluded, at, node, path, k) {
          if k > 1 { OpenBelow(excluded, at, node, path, k - 1); }
        }
      } else if Open(excluded, at, node, path, 1) {
        var k :| 0 < k <= |rest| && !Open(excluded, at + [path[0]], child, rest, k);
        OpenBelow(excluded, at, node, path, k);
      }
    }
  }

  /** Scrubbing again changes nothing. */
  lemma {:induction false} PrunedTwice(excluded: Test, at: Path, node: Tree)
    ensures Pruned(excluded, at, Pruned(excluded, at, node)) == Pruned(excluded, at, node)
    decreases node
  {
    if node.Dir? {
      var once := Pruned(excluded, at, node);
      forall name | name in once.entries
        ensures Pruned(excluded, at + [name], once.entries[name]) == once.entries[name]
        ensures Survives(excluded, at, once.entries, name)
      {
        PrunedTwice(excluded, at + [name], node.entries[name]);
      }
      assert Pruned(excluded, at, once).entries == once.entries;
    }
  }

  predicate Between(low: Path, middle: Path, high: Path) {
    low <= middle && middle <= high
  }

  /** A path, or something above it, is listed. */
  ghost predicate ListedAbove(excluded: Test, at: Path, node: Tree, path: Path) {
    exists above :: Between(at, above, at + path) && Topmost(excluded, at, node, above)
  }

  /** The same, by the first name of the path. */
  ghost predicate ListedByFirst(excluded: Test, at: Path, node: Tree, path: Path)
    requires path != [] && node.Dir?
  {
    exists above :: Between(at, above, at + path) && TopmostBy(excluded, at, node, path[0], above)
  }

  lemma ListedStep(excluded: Test, at: Path, node: Tree, path: Path)
    requires path != [] && node.Dir?
    ensures ListedAbove(excluded, at, node, path) <==> ListedByFirst(excluded, at, node, path)
  {
    if ListedAbove(excluded, at, node, path) {
      var above :| Between(at, above, at + path) && Topmost(excluded, at, node, above);
      var name := TopmostWitness(excluded, at, node, above);
      TopmostIsBelow(excluded, at, node, name, above);
      assert name == above[|at|] == path[0];
    }
    if ListedByFirst(excluded, at, node, path) {
      var above :| Between(at, above, at + path) && TopmostBy(excluded, at, node, path[0], above);
      assert Topmost(excluded, at, node, above);
    }
  }

  lemma ListedBelow(excluded: Test, at: Path, node: Tree, path: Path)
    requires path != [] && node.Dir? && Survives(excluded, at, node.entries, path[0])
    ensures ListedAbove(excluded, at + [path[0]], node.entries[path[0]], path[1..]) <==>
      ListedByFirst(excluded, at, node, path)
  {
    var first, child := at + [path[0]], node.entries[path[0]];
    assert at + path == first + path[1..];
    if ListedByFirst(excluded, at, node, path) {
      var above :| Between(at, above, at + path) && TopmostBy(excluded, at, node, path[0], above);
      TopmostIsBelow(excluded, at, node, path[0], above);
      assert Between(first, above, first + path[1..]) && Topmost(excluded, first, child, above);
    }
    if ListedAbove(excluded, first, child, path[1..]) {
      var above :| Between(first, above, first + path[1..]) && Topmost(excluded, first, child, above);
      assert at <= first;
      assert Between(at, above, at + path) && TopmostBy(excluded, at, node, path[0], above);
    }
  }

  lemma NothingListedAtTop(excluded: Test, at: Path, node: Tree)
    ensures !ListedAbove(excluded, at, node, [])
  {
    if ListedAbove(excluded, at, node, []) {
      var above :| Between(at, above, at + []) && Topmost(excluded, at, node, above);
      var name := TopmostWitness(excluded, at, node, above);
      TopmostIsBelow(excluded, at, node, name, above);
    }
  }

  /** What scrubbing removes is exactly what is listed, and what is below it. */
  lemma {:induction false} GoneIffListedAbove(excluded: Test, at: Path, node: Tree, path: Path)
    requires At(node, path).Some?
    ensures At(Pruned(excluded, at, node), path).None? <==> ListedAbove(excluded, at, node, path)
    decreases |path|
  {
    if path == [] {
      NothingListedAtTop(excluded, at, node);
    } else {
      ListedStep(excluded, at, node, path);
      if Survives(excluded, at, node.entries, path[0]) {
        GoneIffListedAbove(excluded, at + [path[0]], node.entries[path[0]], path[1..]);
        ListedBelow(excluded, at, node, path);
      } else {
        var first := at + [path[0]];
        assert first <= at + path by { assert at + path == first + path[1..]; }
        assert Between(at, first, at + path) && TopmostBy(excluded, at, node, path[0], first);
      }
    }
  }
}
