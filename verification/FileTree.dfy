/** A small filesystem tree, generic in what a non-directory entry carries. */
module FileTree {

  import opened Common

  type Name = Bytes

  type Path = seq<Name>

  datatype Node<+L> = Leaf(it: L) | Dir(entries: map<Name, Node<L>>)

  /** What is found by walking down a path without following links. */
  function At<L>(node: Node<L>, path: Path): Option<Node<L>>
    decreases |path|
  {
    if path == [] then Some(node)
    else if node.Dir? && path[0] in node.entries then At(node.entries[path[0]], path[1..])
    else None
  }

  /** Nothing but directories strictly above the path, so an entry can be put there. */
  predicate CanPut<L>(node: Node<L>, path: Path)
    decreases |path|
  {
    path == [] || (node.Dir? && (path[0] in node.entries ==> CanPut(node.entries[path[0]], path[1..])))
  }

  /** Puts a subtree at a path, creating missing parent directories. */
  function Put<L>(node: Node<L>, path: Path, sub: Node<L>): (r: Node<L>)
    requires CanPut(node, path)
    ensures path != [] ==> r.Dir?
    decreases |path|
  {
    if path == [] then sub
    else if path[0] in node.entries then
      Dir(node.entries[path[0] := Put(node.entries[path[0]], path[1..], sub)])
    else
      CanPutInEmpty<L>(path[1..]);
      Dir(node.entries[path[0] := Put(Dir(map[]), path[1..], sub)])
  }

  lemma {:induction false} CanPutInEmpty<L>(path: Path)
    ensures CanPut(Node<L>.Dir(map[]), path)
  {
  }

  lemma {:induction false} AtPut<L>(node: Node<L>, path: Path, sub: Node<L>, below: Path)
    requires CanPut(node, path)
    ensures At(Put(node, path, sub), path + below) == At(sub, below)
    decreases |path|
  {
    if path == [] {
      assert path + below == below;
    } else {
      assert (path + below)[0] == path[0] && (path + below)[1..] == path[1..] + below;
      CanPutInEmpty<L>(path[1..]);
      AtPut(if path[0] in node.entries then node.entries[path[0]] else Dir(map[]), path[1..], sub, below);
    }
  }

  lemma AtPutSame<L>(node: Node<L>, path: Path, sub: Node<L>)
    requires CanPut(node, path)
    ensures At(Put(node, path, sub), path) == Some(sub)
  {
    AtPut(node, path, sub, []);
    assert path + [] == path;
  }

  lemma {:induction false} AtEmptyDir<L>(path: Path)
    requires path != []
    ensures At(Node<L>.Dir(map[]), path) == None
  {
  }

  /** Putting something at one path leaves every path that is neither above nor below it alone. */
  lemma {:induction false} AtPutElsewhere<L>(node: Node<L>, path: Path, sub: Node<L>, other: Path)
    requires CanPut(node, path) && !(path <= other) && !(other <= path)
    ensures At(Put(node, path, sub), other) == At(node, other)
    decreases |path|
  {
    assert path != [] && other != [];
    if path[0] == other[0] {
      assert path == [path[0]] + path[1..] && other == [other[0]] + other[1..];
      CanPutInEmpty<L>(path[1..]);
      AtPutElsewhere(if path[0] in node.entries then node.entries[path[0]] else Dir(map[]),
                     path[1..], sub, other[1..]);
      if path[0] !in node.entries { AtEmptyDir<L>(other[1..]); }
    }
  }

  /** Two puts below one path are one put of the combined subtree. */
  lemma {:induction false} PutTwice<L>(node: Node<L>, path: Path, sub: Node<L>, below: Path, x: Node<L>)
    requires CanPut(node, path) && CanPut(sub, below)
    ensures CanPut(Put(node, path, sub), path + below)
    ensures Put(Put(node, path, sub), path + below, x) == Put(node, path, Put(sub, below, x))
    decreases |path|
  {
    if path == [] {
      assert path + below == below;
    } else {
      assert (path + below)[0] == path[0] && (path + below)[1..] == path[1..] + below;
      CanPutInEmpty<L>(path[1..]);
      PutTwice(if path[0] in node.entries then node.entries[path[0]] else Dir(map[]), path[1..], sub, below, x);
    }
  }

  lemma {:induction false} CanPutWhereFound<L>(node: Node<L>, path: Path)
    requires At(node, path).Some?
    ensures CanPut(node, path)
    decreases |path|
  {
    if path != [] { CanPutWhereFound(node.entries[path[0]], path[1..]); }
  }

  lemma {:induction false} PutWhatIsThere<L>(node: Node<L>, path: Path)
    requires At(node, path).Some?
    ensures CanPut(node, path) && Put(node, path, At(node, path).value) == node
    decreases |path|
  {
    CanPutWhereFound(node, path);
    if path != [] { PutWhatIsThere(node.entries[path[0]], path[1..]); }
  }

  lemma {:induction false} AtSplits<L>(node: Node<L>, path: Path, below: Path)
    ensures At(node, path + below) == match At(node, path) case None => None case Some(n) => At(n, below)
    decreases |path|
  {
    if path == [] {
      assert path + below == below;
    } else {
      assert (path + below)[0] == path[0] && (path + below)[1..] == path[1..] + below;
      if node.Dir? && path[0] in node.entries { AtSplits(node.entries[path[0]], path[1..], below); }
    }
  }
}
