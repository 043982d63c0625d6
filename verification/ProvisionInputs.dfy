/**
 * Collecting the provision-fingerprint inputs: at build time from the repository root
 * (build.rs) and at run time from an override `lima/` directory (src/lima/fingerprint.rs).
 */
module ProvisionInputs {

  import opened Common
  import opened ByteOrder
  import opened FileTree
  import Fingerprint

  /** A directory entry that is not a directory; a link carries what reading through it gives. */
  datatype Entry = Regular(bytes: Bytes) | Link(through: Option<Bytes>) | Special

  type Tree = Node<Entry>

  const LIMA: Name := Ascii("lima")
  const PROVISION: Name := Ascii("provision")
  const MACOS: Name := Ascii("safe-sync-macos.yaml")
  const LINUX: Name := Ascii("safe-sync-linux.yaml")
  const SLASH: byte := 47

  datatype Unreadable = Unreadable

  type Inputs = Result<seq<Fingerprint.Input>, Unreadable>

  /** `fs::read`: links are followed, directories and special files do not read. */
  function ReadAt(root: Tree, path: Path): Option<Bytes> {
    match At<Entry>(root, path)
    case Some(Leaf(Regular(bytes))) => Some(bytes)
    case Some(Leaf(Link(through))) => through
    case _ => None
  }

  /** `Path::extension() == Some("sh")`: the last dot is not the first character and `sh` follows it. */
  predicate HasShExtension(n: Name) {
    |n| > 3 && n[|n| - 3..] == [46, 115, 104]
  }

  predicate IsScript(entries: map<Name, Tree>, n: Name) {
    n in entries && entries[n].Leaf? && entries[n].it.Regular? && HasShExtension(n)
  }

  /** Path components joined by slashes. */
  function Posix(path: Path): Bytes {
    if path == [] then []
    else if |path| == 1 then path[0]
    else path[0] + [SLASH] + Posix(path[1..])
  }

  function WithKey(path: Path): Keyed<Path> {
    Keyed(Posix(path), path)
  }

  function ScriptPath(n: Name): Keyed<Path> {
    WithKey([LIMA, PROVISION, n])
  }

  /** The scripts among some of a directory's names, filed under their joined paths. */
  function Scripts(entries: map<Name, Tree>, names: set<Name>): set<Keyed<Path>> {
    set n | n in names && IsScript(entries, n) :: ScriptPath(n)
  }

  /** Reads every listed path below the directory holding `lima`; one failure fails the whole. */
  function Load(lima: Tree, paths: seq<Keyed<Path>>): Inputs {
    if paths == [] then Ok([]) else
      match ReadAt(lima, Below(paths[0].item))
      case None => Err(Unreadable)
      case Some(bytes) =>
        match Load(lima, paths[1..])
        case Err(e) => Err(e)
        case Ok(rest) => Ok([Keyed(paths[0].path, bytes)] + rest)
  }

  /** `strip_prefix("lima")`. */
  function Below(path: Path): Path {
    if path == [] then [] else path[1..]
  }

  // ---- What both collections amount to ----

  ghost function Enumerate<T>(s: set<T>): (r: seq<T>)
    ensures multiset(r) == multiset(s)
  {
    if s == {} then [] else
      var x :| x in s;
      assert multiset(s) == multiset(s - {x}) + multiset{x};
      [x] + Enumerate(s - {x})
  }

  /** The two templates and the scripts, sorted bytewise on their joined paths. */
  function Listing(scripts: seq<Keyed<Path>>): seq<Keyed<Path>> {
    SortByPath([WithKey([LIMA, MACOS]), WithKey([LIMA, LINUX])] + scripts)
  }

  /** The scripts of a directory, sorted. */
  ghost function SortedScripts(entries: map<Name, Tree>): seq<Keyed<Path>> {
    SortByPath(Enumerate(Scripts(entries, entries.Keys)))
  }

  /** What both collections amount to, as a function of the `lima/` directory alone. */
  ghost function Collected(lima: Tree): Inputs {
    match At<Entry>(lima, [PROVISION])
    case Some(Dir(entries)) => Load(lima, Listing(SortedScripts(entries)))
    case _ => Err(Unreadable)
  }

  // ---- Joined paths ----

  lemma PosixOfScript(n: Name)
    ensures Posix([LIMA, PROVISION, n]) == LIMA + [SLASH] + (PROVISION + [SLASH] + n)
  {
    assert [LIMA, PROVISION, n][1..] == [PROVISION, n];
    assert [PROVISION, n][1..] == [n];
    assert Posix([n]) == n;
    assert Posix([PROVISION, n]) == PROVISION + [SLASH] + n;
  }

  lemma DropPrefix(p: Bytes, a: Bytes, b: Bytes)
    ensures p + a == p + b ==> a == b
  {
    assert (p + a)[|p|..] == a && (p + b)[|p|..] == b;
  }

  /** Distinct scripts have distinct joined paths, so sorting them leaves no choice. */
  lemma ScriptPathInjective(m: Name, n: Name)
    requires ScriptPath(m).path == ScriptPath(n).path
    ensures m == n
  {
    PosixOfScript(m);
    PosixOfScript(n);
    DropPrefix(LIMA + [SLASH], PROVISION + [SLASH] + m, PROVISION + [SLASH] + n);
    DropPrefix(PROVISION + [SLASH], m, n);
  }

  lemma ScriptsAgree(entries: map<Name, Tree>, scripts: seq<Keyed<Path>>)
    requires multiset(scripts) == multiset(Scripts(entries, entries.Keys))
    ensures SortByPath(scripts) == SortedScripts(entries)
  {
    var all := Scripts(entries, entries.Keys);
    var enumerated := Enumerate(all);
    forall x, y | x in enumerated && y in enumerated && x.path == y.path ensures x == y {
      assert x in multiset(enumerated) && y in multiset(enumerated);
      assert x in all && y in all;
      var m :| m in entries.Keys && x == ScriptPath(m);
      var n :| n in entries.Keys && y == ScriptPath(n);
      ScriptPathInjective(m, n);
    }
    SortForgetsOrder(enumerated, scripts);
  }

  // ---- The two collections ----

  /** `discover_…_scripts`: reads a directory in whatever order it comes, then sorts. */
  method DiscoverScripts(entries: map<Name, Tree>) returns (scripts: seq<Keyed<Path>>)
    ensures scripts == SortedScripts(entries)
  {
    scripts := [];
    var seen: set<Name> := {};
    while seen != entries.Keys
      invariant seen <= entries.Keys
      invariant multiset(scripts) == multiset(Scripts(entries, seen))
      decreases entries.Keys - seen
    {
      var name :| name in entries.Keys && name !in seen;
      if entries[name].Leaf? && entries[name].it.Regular? && HasShExtension(name) {
        scripts := scripts + [ScriptPath(name)];
      }
      seen := seen + {name};
    }
    ScriptsAgree(entries, scripts);
    scripts := SortByPath(scripts);
  }

  /** Reads the listed files in order, giving up at the first that does not read. */
  method LoadInputs(root: Tree, prefix: Path, paths: seq<Keyed<Path>>, ghost lima: Tree) returns (r: Inputs)
    requires forall k :: 0 <= k < |paths| ==> ReadAt(root, prefix + Below(paths[k].item)) == ReadAt(lima, Below(paths[k].item))
    ensures r == Load(lima, paths)
  {
    var inputs: seq<Fingerprint.Input> := [];
    assert paths[0..] == paths;
    PrependNothing(Load(lima, paths));
    for i := 0 to |paths|
      invariant Prepend(inputs, Load(lima, paths[i..])) == Load(lima, paths)
    {
      assert paths[i..][1..] == paths[i + 1..];
      var bytes := ReadAt(root, prefix + Below(paths[i].item));
      if bytes == None { return Err(Unreadable); }
      LoadOneMore(lima, paths[i..], inputs, bytes.value);
      inputs := inputs + [Keyed(paths[i].path, bytes.value)];
    }
    r := Ok(inputs);
    assert inputs + [] == inputs;
  }

  lemma PrependNothing(r: Inputs)
    ensures Prepend([], r) == r
  {
    match r case Err(_) => case Ok(ys) => assert [] + ys == ys;
  }

  lemma LoadOneMore(lima: Tree, paths: seq<Keyed<Path>>, inputs: seq<Fingerprint.Input>, bytes: Bytes)
    requires paths != [] && ReadAt(lima, Below(paths[0].item)) == Some(bytes)
    ensures Prepend(inputs, Load(lima, paths)) ==
      Prepend(inputs + [Keyed(paths[0].path, bytes)], Load(lima, paths[1..]))
  {
    match Load(lima, paths[1..])
    case Err(_) =>
    case Ok(ys) =>
      var x := Keyed(paths[0].path, bytes);
      assert inputs + ([x] + ys) == inputs + [x] + ys;
  }

  function Prepend(xs: seq<Fingerprint.Input>, r: Inputs): Inputs {
    match r case Err(e) => Err(e) case Ok(ys) => Ok(xs + ys)
  }

  /** `build.rs`: collects from the repository root, reading `root/lima/...`. */
  method BuildTimeInputs(root: Tree) returns (r: Inputs)
    ensures r == match At(root, [LIMA]) case None => Err(Unreadable) case Some(lima) => Collected(lima)
  {
    AtSplits(root, [LIMA], [PROVISION]);
    assert [LIMA] + [PROVISION] == [LIMA, PROVISION];
    match At<Entry>(root, [LIMA, PROVISION]) {
      case Some(Dir(entries)) =>
        var scripts := DiscoverScripts(entries);
        var paths := Listing(scripts);
        ghost var lima := At(root, [LIMA]).value;
        forall k | 0 <= k < |paths|
          ensures ReadAt(root, [LIMA] + Below(paths[k].item)) == ReadAt(lima, Below(paths[k].item))
        {
          AtSplits(root, [LIMA], Below(paths[k].item));
        }
        r := LoadInputs(root, [LIMA], paths, lima);
      case _ => r := Err(Unreadable);
    }
  }

  /** `override_provision_inputs`: collects from the `lima/` directory itself. */
  method RunTimeInputs(limaRoot: Tree) returns (r: Inputs)
    ensures r == Collected(limaRoot)
  {
    match At<Entry>(limaRoot, [PROVISION]) {
      case Some(Dir(entries)) =>
        var scripts := DiscoverScripts(entries);
        var paths := Listing(scripts);
        forall k | 0 <= k < |paths|
          ensures ReadAt(limaRoot, [] + Below(paths[k].item)) == ReadAt(limaRoot, Below(paths[k].item))
        {
          assert [] + Below(paths[k].item) == Below(paths[k].item);
        }
        r := LoadInputs(limaRoot, [], paths, limaRoot);
      case _ => r := Err(Unreadable);
    }
  }

  // ---- What is collected ----

  /** One listed path and what reading it gives. */
  predicate IsRead(lima: Tree, path: Keyed<Path>, x: Fingerprint.Input) {
    x.path == path.path && ReadAt(lima, Below(path.item)) == Some(x.item)
  }

  lemma {:induction false} LoadExactly(lima: Tree, paths: seq<Keyed<Path>>)
    ensures Load(lima, paths).Ok? <==> forall p :: p in paths ==> ReadAt(lima, Below(p.item)).Some?
    ensures Load(lima, paths).Ok? ==>
      forall x :: x in Load(lima, paths).value <==> exists p :: p in paths && IsRead(lima, p, x)
  {
    if paths != [] {
      var p, rest := paths[0], paths[1..];
      LoadExactly(lima, rest);
      assert forall q :: q in paths <==> q == p || q in rest;
      if Load(lima, paths).Ok? {
        var ys, x0 := Load(lima, rest).value, Keyed(p.path, ReadAt(lima, Below(p.item)).value);
        forall x ensures x in Load(lima, paths).value <==> exists q :: q in paths && IsRead(lima, q, x) {
          LoadHeadOrTail(lima, p, rest, x0, ys, x);
          assert paths == [p] + rest;
        }
      }
    }
  }

  lemma LoadHeadOrTail(lima: Tree, p: Keyed<Path>, rest: seq<Keyed<Path>>, x0: Fingerprint.Input,
                       ys: seq<Fingerprint.Input>, x: Fingerprint.Input)
    requires IsRead(lima, p, x0)
    requires x in ys <==> exists q :: q in rest && IsRead(lima, q, x)
    ensures x in [x0] + ys <==> exists q :: q in [p] + rest && IsRead(lima, q, x)
  {
    if x == x0 { assert p in [p] + rest; }
    if x in ys {
      var q :| q in rest && IsRead(lima, q, x);
      assert q in [p] + rest;
    }
  }

  predicate IsListed(entries: map<Name, Tree>, p: Keyed<Path>) {
    p == WithKey([LIMA, MACOS]) || p == WithKey([LIMA, LINUX]) || p in Scripts(entries, entries.Keys)
  }

  lemma ListingExactly(entries: map<Name, Tree>)
    ensures forall p :: p in Listing(SortedScripts(entries)) <==> IsListed(entries, p)
  {
    var all := Scripts(entries, entries.Keys);
    var templates := [WithKey([LIMA, MACOS]), WithKey([LIMA, LINUX])];
    var scripts := SortedScripts(entries);
    SameElements(templates + scripts, Listing(scripts));
    forall p ensures p in scripts <==> p in all {
      InBoth(p, scripts, all);
    }
  }

  lemma InBoth(p: Keyed<Path>, scripts: seq<Keyed<Path>>, all: set<Keyed<Path>>)
    requires multiset(scripts) == multiset(all)
    ensures p in scripts <==> p in all
  {
    assert p in multiset(scripts) <==> p in multiset(all);
  }

  /** The inputs are the two templates and every regular `.sh` file directly below `provision/`, and nothing else. */
  lemma CollectedExactly(lima: Tree, entries: map<Name, Tree>)
    requires At(lima, [PROVISION]) == Some(Dir(entries))
    ensures Collected(lima).Ok? <==> forall p :: IsListed(entries, p) ==> ReadAt(lima, Below(p.item)).Some?
    ensures Collected(lima).Ok? ==>
      forall x :: x in Collected(lima).value <==> exists p :: IsListed(entries, p) && IsRead(lima, p, x)
  {
    ListingExactly(entries);
    LoadExactly(lima, Listing(SortedScripts(entries)));
  }

  // ---- The same, in the words of the file system ----

  /** Reading a regular file, or a link through which something reads. */
  predicate ReadsAs(lima: Tree, path: Path, bytes: Bytes) {
    At(lima, path) == Some(Leaf(Regular(bytes))) || At(lima, path) == Some(Leaf(Link(Some(bytes))))
  }

  predicate IsTemplate(lima: Tree, file: Name, x: Fingerprint.Input) {
    x.path == Ascii("lima/") + file && ReadsAs(lima, [file], x.item)
  }

  /** A regular file of this name, which is something followed by `.sh`. */
  predicate IsShellScript(entries: map<Name, Tree>, name: Name, stem: Name, x: Fingerprint.Input) {
    && stem != [] && name == stem + Ascii(".sh") && name in entries
    && entries[name] == Leaf(Regular(x.item)) && x.path == Ascii("lima/provision/") + name
  }

  ghost predicate IsShellInput(entries: map<Name, Tree>, x: Fingerprint.Input) {
    exists name, stem :: IsShellScript(entries, name, stem, x)
  }

  lemma ReadAtIs(lima: Tree, path: Path, bytes: Bytes)
    ensures ReadAt(lima, path) == Some(bytes) <==> ReadsAs(lima, path, bytes)
  {
  }

  lemma ShExtensionIs(name: Name) returns (stem: Name)
    ensures HasShExtension(name) <==> stem != [] && name == stem + Ascii(".sh")
    ensures forall other: Name :: other != [] && name == other + Ascii(".sh") ==> HasShExtension(name)
  {
    assert Ascii(".sh") == [46, 115, 104];
    stem := if |name| > 3 then name[..|name| - 3] else [];
    assert HasShExtension(name) ==> name == stem + name[|name| - 3..];
  }

  lemma JoinedPaths(name: Name)
    ensures WithKey([LIMA, name]).path == Ascii("lima/") + name
    ensures ScriptPath(name).path == Ascii("lima/provision/") + name
  {
    assert [LIMA, name][1..] == [name];
    assert Posix([name]) == name;
    assert LIMA + [SLASH] == Ascii("lima/");
    PosixOfScript(name);
    assert LIMA + [SLASH] + (PROVISION + [SLASH] + name) == (LIMA + [SLASH] + (PROVISION + [SLASH])) + name;
    assert LIMA + [SLASH] + (PROVISION + [SLASH]) == Ascii("lima/provision/");
  }

  lemma TemplateIsRead(lima: Tree, file: Name, x: Fingerprint.Input)
    ensures IsRead(lima, WithKey([LIMA, file]), x) <==> IsTemplate(lima, file, x)
  {
    JoinedPaths(file);
    assert Below([LIMA, file]) == [file];
    ReadAtIs(lima, [file], x.item);
  }

  lemma ScriptIsRead(lima: Tree, entries: map<Name, Tree>, name: Name, x: Fingerprint.Input)
    requires At(lima, [PROVISION]) == Some(Dir(entries)) && IsScript(entries, name)
    ensures ReadAt(lima, Below(ScriptPath(name).item)) == Some(entries[name].it.bytes)
    ensures IsRead(lima, ScriptPath(name), x) <==>
      entries[name] == Leaf(Regular(x.item)) && x.path == Ascii("lima/provision/") + name
  {
    JoinedPaths(name);
    assert Below([LIMA, PROVISION, name]) == [PROVISION] + [name];
    AtSplits(lima, [PROVISION], [name]);
    assert [name][1..] == [];
  }

  lemma ScriptInputIs(lima: Tree, entries: map<Name, Tree>, x: Fingerprint.Input)
    requires At(lima, [PROVISION]) == Some(Dir(entries))
    ensures (exists p :: p in Scripts(entries, entries.Keys) && IsRead(lima, p, x)) <==> IsShellInput(entries, x)
  {
    if p :| p in Scripts(entries, entries.Keys) && IsRead(lima, p, x) {
      var name :| name in entries.Keys && IsScript(entries, name) && p == ScriptPath(name);
      var stem := ShExtensionIs(name);
      ScriptIsRead(lima, entries, name, x);
      assert IsShellScript(entries, name, stem, x);
    }
    if IsShellInput(entries, x) {
      var name, stem :| IsShellScript(entries, name, stem, x);
      var _ := ShExtensionIs(name);
      assert IsScript(entries, name);
      ScriptIsRead(lima, entries, name, x);
      assert ScriptPath(name) in Scripts(entries, entries.Keys);
    }
  }

  lemma {:induction false} LoadKeepsPaths(lima: Tree, paths: seq<Keyed<Path>>)
    requires Load(lima, paths).Ok?
    ensures var xs := Load(lima, paths).value;
      |xs| == |paths| && forall i :: 0 <= i < |xs| ==> xs[i].path == paths[i].path
  {
    if paths != [] { LoadKeepsPaths(lima, paths[1..]); }
  }

  /**
   * In path order: the two templates, and every regular file directly below `provision` whose name is something
   * followed by `.sh`, each under its path from the repository; links are read through, but only templates may
   * be links. It fails exactly when a template does not read.
   */
  lemma CollectedIs(lima: Tree, entries: map<Name, Tree>, x: Fingerprint.Input)
    requires At(lima, [PROVISION]) == Some(Dir(entries))
    ensures Collected(lima).Ok? <==>
      (exists bytes :: ReadsAs(lima, [MACOS], bytes)) && (exists bytes :: ReadsAs(lima, [LINUX], bytes))
    ensures Collected(lima).Ok? ==> Sorted(Collected(lima).value)
    ensures Collected(lima).Ok? ==>
      (x in Collected(lima).value <==> IsTemplate(lima, MACOS, x) || IsTemplate(lima, LINUX, x) || IsShellInput(entries, x))
  {
    CollectedExactly(lima, entries);
    TemplatesDecide(lima, entries);
    hide Collected, ReadsAs, IsTemplate, IsShellInput, IsRead, Scripts, WithKey;
    TemplateIsRead(lima, MACOS, x);
    TemplateIsRead(lima, LINUX, x);
    ScriptInputIs(lima, entries, x);
    if Collected(lima).Ok? { CollectedIsSorted(lima, entries); }
  }

  lemma CollectedIsSorted(lima: Tree, entries: map<Name, Tree>)
    requires At(lima, [PROVISION]) == Some(Dir(entries)) && Collected(lima).Ok?
    ensures Sorted(Collected(lima).value)
  {
    hide Load;
    var paths := Listing(SortedScripts(entries));
    SortByPathSorts([WithKey([LIMA, MACOS]), WithKey([LIMA, LINUX])] + SortedScripts(entries));
    LoadKeepsPaths(lima, paths);
  }

  lemma TemplatesDecide(lima: Tree, entries: map<Name, Tree>)
    requires At(lima, [PROVISION]) == Some(Dir(entries))
    ensures (forall p :: IsListed(entries, p) ==> ReadAt(lima, Below(p.item)).Some?) <==>
      (exists bytes :: ReadsAs(lima, [MACOS], bytes)) && (exists bytes :: ReadsAs(lima, [LINUX], bytes))
  {
    assert Below([LIMA, MACOS]) == [MACOS] && Below([LIMA, LINUX]) == [LINUX];
    assert IsListed(entries, WithKey([LIMA, MACOS])) && IsListed(entries, WithKey([LIMA, LINUX]));
    OneReads(lima, [MACOS]);
    OneReads(lima, [LINUX]);
    forall p | p in Scripts(entries, entries.Keys) ensures ReadAt(lima, Below(p.item)).Some? {
      var name :| name in entries.Keys && IsScript(entries, name) && p == ScriptPath(name);
      ScriptIsRead(lima, entries, name, Keyed([], []));
    }
  }

  lemma OneReads(lima: Tree, path: Path)
    ensures ReadAt(lima, path).Some? <==> exists bytes :: ReadsAs(lima, path, bytes)
  {
    if ReadAt(lima, path).Some? { ReadAtIs(lima, path, ReadAt(lima, path).value); }
    forall bytes | ReadsAs(lima, path, bytes) ensures ReadAt(lima, path).Some? { ReadAtIs(lima, path, bytes); }
  }
}
