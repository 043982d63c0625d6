/**
 * When an extracted asset tree is good: what the resolver accepts (src/lima/asset_resolver.rs) and what
 * the read-only inspector reports (src/lima/asset_inspect.rs), on trees without symlinked directories.
 */
module AssetTree {

  import opened Common
  import opened FileTree

  /** In nanoseconds. */
  type Time = nat

  const SECOND: Time := 1_000_000_000

  /** Entries that are not directories; a link carries the time of what it leads to, if that exists. */
  datatype Item = Regular(bytes: Bytes, mode: bv16, mtime: Time) | Link(target: Option<Time>) | Special(mtime: Time)

  type Tree = Node<Item>

  datatype Asset = Asset(path: Path, bytes: Bytes)

  predicate IsScript(path: Path) {
    path != [] && var name := path[|path| - 1]; |name| >= 3 && name[|name| - 3..] == [46, 115, 104]
  }

  /** Owner read, and execute for scripts: 0o500 and 0o400. */
  function RequiredBits(path: Path): bv16 {
    if IsScript(path) then 0x140 else 0x100
  }

  /** 0o755 and 0o644. */
  function FinalMode(path: Path): bv16 {
    if IsScript(path) then 0x1ED else 0x1A4
  }

  /** Scripts are the files called something and `.sh`; they end with mode 755, and the others with mode 644. */
  lemma ScriptsEndExecutable(path: Path)
    ensures IsScript(path) <==> path != [] && exists stem :: path[|path| - 1] == stem + Ascii(".sh")
    ensures FinalMode(path) as int == if IsScript(path) then 7 * 64 + 5 * 8 + 5 else 6 * 64 + 4 * 8 + 4
  {
    assert Ascii(".sh") == [46, 115, 104];
    if IsScript(path) {
      var name := path[|path| - 1];
      assert name == name[..|name| - 3] + Ascii(".sh");
    }
  }

  predicate ModeOk(path: Path, mode: bv16) {
    mode & RequiredBits(path) == RequiredBits(path)
  }

  // ---- Completeness ----

  predicate FileOk(lima: Tree, path: Path) {
    match At<Item>(lima, path)
    case Some(Leaf(Regular(_, mode, _))) => ModeOk(path, mode)
    case _ => false
  }

  predicate Complete(assets: seq<Asset>, lima: Tree) {
    forall i :: 0 <= i < |assets| ==> FileOk(lima, assets[i].path)
  }

  /** `complete_tree_check`. */
  method CompleteTreeCheck(assets: seq<Asset>, lima: Tree) returns (ok: bool)
    ensures ok <==> Complete(assets, lima)
  {
    for i := 0 to |assets|
      invariant forall k :: 0 <= k < i ==> FileOk(lima, assets[k].path)
    {
      match At<Item>(lima, assets[i].path) {
        case Some(Leaf(Regular(_, mode, _))) =>
          if !ModeOk(assets[i].path, mode) { return false; }
        case _ => return false;
      }
    }
    ok := true;
  }

  datatype Kind = Directory | OtherKind

  datatype Reason =
    | MissingAssets(paths: seq<Path>, omitted: nat)
    | SymlinkNotAllowed(path: Path)
    | WrongFileType(path: Path, kind: Kind)
    | WrongMode(path: Path, expected: bv16, found: bv16)

  const TRUNCATION := 3

  /** What is wrong with something that is there. */
  function Problem(lima: Tree, path: Path): Option<Reason> {
    match At<Item>(lima, path)
    case None => None
    case Some(Dir(_)) => Some(WrongFileType(path, Directory))
    case Some(Leaf(Link(_))) => Some(SymlinkNotAllowed(path))
    case Some(Leaf(Special(_))) => Some(WrongFileType(path, OtherKind))
    case Some(Leaf(Regular(_, mode, _))) =>
      if ModeOk(path, mode) then None else Some(WrongMode(path, RequiredBits(path), mode))
  }

  // ---- What a scan reports ----

  const OWNER_READ: bv16 := 0x100
  const OWNER_EXECUTE: bv16 := 0x40

  /** The owner may not read the file, or not execute it although it is a script. */
  predicate Lacks(path: Path, mode: bv16) {
    mode & OWNER_READ == 0 || (IsScript(path) && mode & OWNER_EXECUTE == 0)
  }

  predicate IsRegularOfMode(lima: Tree, path: Path, mode: bv16) {
    match At<Item>(lima, path) case Some(Leaf(Regular(_, m, _))) => m == mode case _ => false
  }

  predicate IsLink(lima: Tree, path: Path) {
    match At<Item>(lima, path) case Some(Leaf(Link(_))) => true case _ => false
  }

  predicate IsDirectory(lima: Tree, path: Path) {
    match At<Item>(lima, path) case Some(Dir(_)) => true case _ => false
  }

  predicate IsSpecial(lima: Tree, path: Path) {
    match At<Item>(lima, path) case Some(Leaf(Special(_))) => true case _ => false
  }

  /** What a reason claims of a path, in the words of the file system. */
  predicate Tells(reason: Reason, lima: Tree, path: Path) {
    match reason
    case WrongMode(p, expected, found) =>
      && p == path && IsRegularOfMode(lima, path, found) && Lacks(path, found)
      && expected == if IsScript(path) then OWNER_READ | OWNER_EXECUTE else OWNER_READ
    case SymlinkNotAllowed(p) => p == path && IsLink(lima, path)
    case WrongFileType(p, Directory) => p == path && IsDirectory(lima, path)
    case WrongFileType(p, OtherKind) => p == path && IsSpecial(lima, path)
    case MissingAssets(_, _) => false
  }

  lemma RequiredBitsAre(path: Path, mode: bv16)
    ensures RequiredBits(path) == if IsScript(path) then OWNER_READ | OWNER_EXECUTE else OWNER_READ
    ensures ModeOk(path, mode) <==> !Lacks(path, mode)
  {
    assert mode & 0x140 == 0x140 <==> mode & 0x100 != 0 && mode & 0x40 != 0;
    assert mode & 0x100 == 0x100 <==> mode & 0x100 != 0;
  }

  /** Each path that is there is reported by the one reason that is true of it, or is good. */
  lemma ProblemTells(lima: Tree, path: Path, reason: Reason)
    ensures Problem(lima, path) == Some(reason) <==> Tells(reason, lima, path)
  {
    match At<Item>(lima, path) {
      case Some(Leaf(Regular(_, mode, _))) => RequiredBitsAre(path, mode);
      case _ =>
    }
  }

  /** Something is reported of what is there exactly when it is not a good file. */
  lemma ProblemIffNotOk(lima: Tree, path: Path)
    ensures Problem(lima, path).Some? <==> IsWrong(lima, path)
    ensures Problem(lima, path).Some? ==> Tells(Problem(lima, path).value, lima, path)
  {
    if Problem(lima, path).Some? { ProblemTells(lima, path, Problem(lima, path).value); }
  }

  predicate IsMissing(lima: Tree, path: Path) {
    At(lima, path).None?
  }

  predicate IsWrong(lima: Tree, path: Path) {
    At(lima, path).Some? && !FileOk(lima, path)
  }

  predicate Increasing(at: seq<nat>, n: nat) {
    (forall k :: 0 <= k < |at| ==> at[k] < n) && forall j, k :: 0 <= j < k < |at| ==> at[j] < at[k]
  }

  /** These are the paths of the missing among the first `n` files, which are at these positions. */
  predicate FindsMissing(paths: seq<Path>, at: seq<nat>, n: nat, assets: seq<Asset>, lima: Tree)
    requires n <= |assets|
  {
    && Increasing(at, n) && |paths| == |at|
    && (forall k :: 0 <= k < |at| ==> paths[k] == assets[at[k]].path && IsMissing(lima, paths[k]))
    && forall i :: 0 <= i < n && IsMissing(lima, assets[i].path) ==> i in at
  }

  /** These tell what is wrong with the files that are there and not good among the first `n`. */
  predicate FindsWrong(reasons: seq<Reason>, at: seq<nat>, n: nat, assets: seq<Asset>, lima: Tree)
    requires n <= |assets|
  {
    && Increasing(at, n) && |reasons| == |at|
    && (forall k :: 0 <= k < |at| ==> Tells(reasons[k], lima, assets[at[k]].path))
    && forall i :: 0 <= i < n && IsWrong(lima, assets[i].path) ==> i in at
  }

  /** What is missing comes first: its first three paths, and how many more there are. */
  predicate Lists(reasons: seq<Reason>, paths: seq<Path>, rest: seq<Reason>) {
    if paths == [] then reasons == rest
    else if |paths| <= 3 then reasons == [MissingAssets(paths, 0)] + rest
    else reasons == [MissingAssets([paths[0], paths[1], paths[2]], |paths| - 3)] + rest
  }

  /** The whole report: what is missing, then what is wrong with every file that is not good, in manifest order. */
  ghost predicate IsReport(reasons: seq<Reason>, assets: seq<Asset>, lima: Tree) {
    exists paths: seq<Path>, gone: seq<nat>, rest: seq<Reason>, wrong: seq<nat> ::
      && FindsMissing(paths, gone, |assets|, assets, lima) && FindsWrong(rest, wrong, |assets|, assets, lima)
      && Lists(reasons, paths, rest)
  }

  lemma IncreasingAppend(at: seq<nat>, n: nat)
    requires Increasing(at, n)
    ensures Increasing(at, n + 1) && Increasing(at + [n], n + 1)
  {
  }

  /** A path is told of exactly when it is listed and not good. */
  lemma TellsIsWrong(reason: Reason, lima: Tree, path: Path)
    requires Tells(reason, lima, path)
    ensures IsWrong(lima, path) && Problem(lima, path) == Some(reason)
  {
    ProblemTells(lima, path, reason);
    ProblemIffNotOk(lima, path);
  }

  /** A reason is in a report exactly when it is true of a listed path. */
  lemma ReportIsExact(reasons: seq<Reason>, assets: seq<Asset>, lima: Tree, reason: Reason)
    requires IsReport(reasons, assets, lima) && !reason.MissingAssets?
    ensures reason in reasons <==> exists i :: 0 <= i < |assets| && Tells(reason, lima, assets[i].path)
  {
    hide Tells, IsWrong, Problem, IsMissing;
    var paths: seq<Path>, gone: seq<nat>, rest: seq<Reason>, wrong: seq<nat> :|
      && FindsMissing(paths, gone, |assets|, assets, lima) && FindsWrong(rest, wrong, |assets|, assets, lima)
      && Lists(reasons, paths, rest);
    assert reason in reasons <==> reason in rest;
    if k :| 0 <= k < |rest| && rest[k] == reason {
      assert Tells(reason, lima, assets[wrong[k]].path);
    }
    if i :| 0 <= i < |assets| && Tells(reason, lima, assets[i].path) {
      TellsIsWrong(reason, lima, assets[i].path);
      assert i in wrong;
      var k :| 0 <= k < |wrong| && wrong[k] == i;
      TellsIsWrong(rest[k], lima, assets[i].path);
      assert rest[k] == reason;
    }
  }

  lemma {:induction false} SameUpTo(a: seq<nat>, b: seq<nat>, n: nat, k: nat)
    requires Increasing(a, n) && Increasing(b, n) && (forall x: nat :: x in a <==> x in b) && k <= |a|
    ensures k <= |b| && forall j :: 0 <= j < k ==> a[j] == b[j]
    decreases k
  {
    if k > 0 {
      var last := k - 1;
      SameUpTo(a, b, n, last);
      assert a[last] in b;
      var m :| 0 <= m < |b| && b[m] == a[last];
      assert m >= last by { assert forall j :: 0 <= j < last ==> b[j] == a[j] < a[last]; }
      assert b[last] in a;
      var m' :| 0 <= m' < |a| && a[m'] == b[last];
      assert m' >= last by { assert forall j :: 0 <= j < last ==> a[j] == b[j] < b[last]; }
    }
  }

  lemma IncreasingIsUnique(a: seq<nat>, b: seq<nat>, n: nat)
    requires Increasing(a, n) && Increasing(b, n) && forall x: nat :: x in a <==> x in b
    ensures a == b
  {
    SameUpTo(a, b, n, |a|);
    SameUpTo(b, a, n, |b|);
  }

  lemma MissingAreUnique(a: seq<Path>, at: seq<nat>, b: seq<Path>, bt: seq<nat>, n: nat, assets: seq<Asset>, lima: Tree)
    requires n <= |assets| && FindsMissing(a, at, n, assets, lima) && FindsMissing(b, bt, n, assets, lima)
    ensures a == b
  {
    hide IsMissing;
    IncreasingIsUnique(at, bt, n);
  }

  lemma WrongAreUnique(a: seq<Reason>, at: seq<nat>, b: seq<Reason>, bt: seq<nat>, n: nat, assets: seq<Asset>, lima: Tree)
    requires n <= |assets| && FindsWrong(a, at, n, assets, lima) && FindsWrong(b, bt, n, assets, lima)
    ensures a == b
  {
    hide IsWrong, Tells, Problem;
    forall k | 0 <= k < |a| ensures at[k] in bt { TellsIsWrong(a[k], lima, assets[at[k]].path); }
    forall k | 0 <= k < |b| ensures bt[k] in at { TellsIsWrong(b[k], lima, assets[bt[k]].path); }
    IncreasingIsUnique(at, bt, n);
    forall k | 0 <= k < |a| ensures a[k] == b[k] {
      TellsIsWrong(a[k], lima, assets[at[k]].path);
      TellsIsWrong(b[k], lima, assets[at[k]].path);
    }
  }

  /** There is one report to make. */
  lemma ReportIsUnique(a: seq<Reason>, b: seq<Reason>, assets: seq<Asset>, lima: Tree)
    requires IsReport(a, assets, lima) && IsReport(b, assets, lima)
    ensures a == b
  {
    hide Tells, IsWrong, IsMissing, FindsMissing, FindsWrong;
    var paths: seq<Path>, gone: seq<nat>, rest: seq<Reason>, wrong: seq<nat> :|
      && FindsMissing(paths, gone, |assets|, assets, lima) && FindsWrong(rest, wrong, |assets|, assets, lima)
      && Lists(a, paths, rest);
    var paths': seq<Path>, gone': seq<nat>, rest': seq<Reason>, wrong': seq<nat> :|
      && FindsMissing(paths', gone', |assets|, assets, lima) && FindsWrong(rest', wrong', |assets|, assets, lima)
      && Lists(b, paths', rest');
    MissingAreUnique(paths, gone, paths', gone', |assets|, assets, lima);
    WrongAreUnique(rest, wrong, rest', wrong', |assets|, assets, lima);
  }

  /** `scan_tree`. */
  method ScanTree(assets: seq<Asset>, lima: Tree) returns (reasons: seq<Reason>)
    ensures IsReport(reasons, assets, lima)
  {
    hide Tells, FileOk, ModeOk, Problem, FindsMissing, FindsWrong;
    reasons := [];
    var missing: seq<Path> := [];
    ghost var gone: seq<nat>, wrong: seq<nat> := [], [];
    NothingFound(assets, lima);
    for i := 0 to |assets|
      invariant FindsMissing(missing, gone, i, assets, lima) && FindsWrong(reasons, wrong, i, assets, lima)
    {
      FindsNext(missing, gone, reasons, wrong, i, assets, lima);
      match At<Item>(lima, assets[i].path) {
        case None =>
          missing, gone := missing + [assets[i].path], gone + [i];
        case Some(_) =>
          var problem := Problem(lima, assets[i].path);
          if problem.Some? { reasons, wrong := reasons + [problem.value], wrong + [i]; }
      }
    }
    ghost var rest := reasons;
    if missing != [] {
      var kept := if |missing| < TRUNCATION then |missing| else TRUNCATION;
      assert kept == |missing| ==> missing[..kept] == missing;
      assert kept < |missing| ==> missing[..kept] == [missing[0], missing[1], missing[2]];
      reasons := [MissingAssets(missing[..kept], |missing| - kept)] + reasons;
    }
    assert Lists(reasons, missing, rest);
  }

  lemma NothingFound(assets: seq<Asset>, lima: Tree)
    ensures FindsMissing([], [], 0, assets, lima) && FindsWrong([], [], 0, assets, lima)
  {
  }

  /** One more file: missing, wrong or good. */
  lemma FindsNext(paths: seq<Path>, gone: seq<nat>, rest: seq<Reason>, wrong: seq<nat>, i: nat,
                  assets: seq<Asset>, lima: Tree)
    requires i < |assets| && FindsMissing(paths, gone, i, assets, lima) && FindsWrong(rest, wrong, i, assets, lima)
    ensures var path := assets[i].path;
      if IsMissing(lima, path) then FindsMissing(paths + [path], gone + [i], i + 1, assets, lima)
      else FindsMissing(paths, gone, i + 1, assets, lima)
    ensures var problem := Problem(lima, assets[i].path);
      if problem.Some? then FindsWrong(rest + [problem.value], wrong + [i], i + 1, assets, lima)
      else FindsWrong(rest, wrong, i + 1, assets, lima)
    ensures IsMissing(lima, assets[i].path) ==> Problem(lima, assets[i].path).None?
  {
    IncreasingAppend(gone, i);
    IncreasingAppend(wrong, i);
    ProblemIffNotOk(lima, assets[i].path);
    hide Tells, FileOk, Problem, Increasing;
  }

  /** The inspector finds nothing wrong exactly when the resolver finds the tree complete. */
  lemma NoReasonIffComplete(reasons: seq<Reason>, assets: seq<Asset>, lima: Tree)
    requires IsReport(reasons, assets, lima)
    ensures reasons == [] <==> Complete(assets, lima)
  {
    hide Tells;
    var paths: seq<Path>, gone: seq<nat>, rest: seq<Reason>, wrong: seq<nat> :|
      && FindsMissing(paths, gone, |assets|, assets, lima) && FindsWrong(rest, wrong, |assets|, assets, lima)
      && Lists(reasons, paths, rest);
    if reasons == [] {
      forall i | 0 <= i < |assets| ensures FileOk(lima, assets[i].path) {
        assert i !in gone && i !in wrong;
      }
    } else if gone != [] {
      assert !FileOk(lima, assets[gone[0]].path);
    } else {
      TellsIsWrong(rest[0], lima, assets[wrong[0]].path);
      assert !FileOk(lima, assets[wrong[0]].path);
    }
  }

  // ---- The newest entry ----

  /** Reading the time of a dangling link is an error. */
  ghost predicate Dangles(dir: Tree)
    requires dir.Dir?
    decreases dir, 1
  {
    exists name :: DanglesAt(dir, name)
  }

  ghost predicate DanglesAt(dir: Tree, name: Name)
    requires dir.Dir?
    decreases dir, 0
  {
    name in dir.entries &&
      match dir.entries[name]
      case Leaf(item) => item == Link(None)
      case Dir(_) => Dangles(dir.entries[name])
  }

  /** A walk fails exactly when somewhere in the tree there is a dangling link. */
  lemma DanglesIff(dir: Tree)
    requires dir.Dir?
    ensures Dangles(dir) <==> exists path: Path :: At(dir, path) == Some(Leaf(Link(None)))
  {
    if Dangles(dir) { var path := DanglingPath(dir); }
    forall path: Path | At(dir, path) == Some(Leaf(Link(None))) ensures Dangles(dir) { DanglingIsFound(dir, path); }
  }

  lemma {:induction false} DanglingPath(dir: Tree) returns (path: Path)
    requires dir.Dir? && Dangles(dir)
    ensures At(dir, path) == Some(Leaf(Link(None)))
    decreases dir
  {
    var name :| DanglesAt(dir, name);
    match dir.entries[name]
    case Leaf(_) =>
      path := [name];
      assert path[1..] == [];
    case Dir(_) =>
      var rest := DanglingPath(dir.entries[name]);
      path := [name] + rest;
      assert path[1..] == rest;
  }

  lemma {:induction false} DanglingIsFound(dir: Tree, path: Path)
    requires dir.Dir? && At(dir, path) == Some(Leaf(Link(None)))
    ensures Dangles(dir)
    decreases |path|
  {
    if dir.entries[path[0]].Dir? { DanglingIsFound(dir.entries[path[0]], path[1..]); }
    assert DanglesAt(dir, path[0]);
  }

  function StampOf(item: Item): Option<Time> {
    match item
    case Regular(_, _, mtime) => Some(mtime)
    case Link(target) => target
    case Special(mtime) => Some(mtime)
  }

  /** A time the walk takes into account: an entry's, or the present for an empty subdirectory. */
  ghost predicate IsStamp(dir: Tree, now: Time, t: Time)
    requires dir.Dir?
    decreases dir, 1
  {
    exists name :: StampAt(dir, name, now, t)
  }

  ghost predicate StampAt(dir: Tree, name: Name, now: Time, t: Time)
    requires dir.Dir?
    decreases dir, 0
  {
    name in dir.entries &&
      match dir.entries[name]
      case Leaf(item) => StampOf(item) == Some(t)
      case Dir(entries) => if entries == map[] then t == now else IsStamp(dir.entries[name], now, t)
  }

  datatype Newest = Unreadable | Nothing | At_(time: Time)

  /** `newest_mtime`, over the entries in any order. */
  method NewestMtime(dir: Tree, now: Time) returns (r: Newest)
    requires dir.Dir?
    ensures r.Unreadable? <==> Dangles(dir)
    ensures r.Nothing? <==> dir.entries == map[]
    ensures r.At_? ==> IsStamp(dir, now, r.time) && forall t: Time :: IsStamp(dir, now, t) ==> t <= r.time
    decreases dir
  {
    var left := dir.entries.Keys;
    r := Nothing;
    ghost var seen: set<Name> := {};
    while left != {}
      invariant seen + left == dir.entries.Keys && seen !! left
      invariant !r.Unreadable? && (r.Nothing? <==> seen == {})
      invariant forall name :: name in seen ==> !DanglesAt(dir, name)
      invariant r.At_? ==> IsStamp(dir, now, r.time)
      invariant forall name, t: Time :: name in seen && StampAt(dir, name, now, t) ==> r.At_? && t <= r.time
      decreases left
    {
      var name :| name in left;
      var candidate: Newest;
      match dir.entries[name] {
        case Leaf(item) =>
          candidate := if StampOf(item).Some? then At_(StampOf(item).value) else Unreadable;
        case Dir(entries) =>
          candidate := NewestMtime(dir.entries[name], now);
          if candidate.Nothing? { candidate := At_(now); }
      }
      assert candidate.Unreadable? <==> DanglesAt(dir, name);
      if candidate.Unreadable? { return Unreadable; }
      assert StampAt(dir, name, now, candidate.time);
      assert forall t: Time :: StampAt(dir, name, now, t) ==> t <= candidate.time;
      if !(r.At_? && r.time >= candidate.time) { r := candidate; }
      left, seen := left - {name}, seen + {name};
    }
    assert seen == dir.entries.Keys;
    if r.At_? {
      forall t: Time | IsStamp(dir, now, t) ensures t <= r.time {
        var name := StampWitness(dir, now, t);
      }
    }
  }

  lemma StampWitness(dir: Tree, now: Time, t: Time) returns (name: Name)
    requires dir.Dir? && IsStamp(dir, now, t)
    ensures StampAt(dir, name, now, t)
  {
    name :| StampAt(dir, name, now, t);
  }

  /** An entry's time is among the times of the directory it is somewhere under. */
  lemma {:induction false} AtIsStamp(dir: Tree, path: Path, item: Item, now: Time, t: Time)
    requires dir.Dir? && path != [] && At(dir, path) == Some(Leaf(item)) && StampOf(item) == Some(t)
    ensures IsStamp(dir, now, t)
    decreases |path|
  {
    var below := dir.entries[path[0]];
    if |path| == 1 {
      assert path[1..] == [];
    } else {
      AtIsStamp(below, path[1..], item, now, t);
      assert below.entries != map[] by { assert path[1..][0] in below.entries; }
    }
    assert StampAt(dir, path[0], now, t);
  }

  /** Every time is some entry's, or the present standing for an empty directory. */
  lemma {:induction false} StampHasPath(dir: Tree, now: Time, t: Time) returns (path: Path)
    requires dir.Dir? && IsStamp(dir, now, t)
    ensures path != [] && At(dir, path).Some?
    ensures match At(dir, path).value case Leaf(item) => StampOf(item) == Some(t) case Dir(entries) => entries == map[] && t == now
    decreases dir
  {
    var name :| StampAt(dir, name, now, t);
    match dir.entries[name]
    case Leaf(_) =>
      path := [name];
      assert path[1..] == [];
    case Dir(entries) =>
      if entries == map[] {
        path := [name];
        assert path[1..] == [];
      } else {
        var rest := StampHasPath(dir.entries[name], now, t);
        path := [name] + rest;
        assert path[1..] == rest;
      }
  }

  // ---- Acceptance and inspection ----

  datatype Marker = Marker(text: string, mtime: Time)

  /** A directory of the cache: its marker, when readable, and what is called `lima` in it. */
  datatype CacheDir = CacheDir(marker: Option<Marker>, lima: Option<Tree>)

  /** `trim_end_matches('\n')`. */
  function Trimmed(s: string): (r: string)
    ensures r <= s && (r == [] || r[|r| - 1] != '\n')
    ensures forall k :: |r| <= k < |s| ==> s[k] == '\n'
  {
    if s != [] && s[|s| - 1] == '\n' then Trimmed(s[..|s| - 1]) else s
  }

  const GRACE: Time := 2 * SECOND

  /** `mtime_guard_passes`: a walk that fails, or finds nothing, passes. */
  ghost predicate GuardPasses(marked: Time, lima: Tree, now: Time)
    requires lima.Dir?
  {
    Dangles(lima) || lima.entries == map[] || forall t: Time :: IsStamp(lima, now, t) ==> t <= marked + 2 * SECOND
  }

  predicate HasTree(dir: CacheDir) {
    dir.lima.Some? && dir.lima.value.Dir?
  }

  predicate Marked(fp: string, dir: CacheDir) {
    dir.marker.Some? && Trimmed(dir.marker.value.text) == fp
  }

  /** What the resolver accepts. */
  ghost predicate Acceptable(fp: string, assets: seq<Asset>, dir: CacheDir, now: Time) {
    && HasTree(dir) && Marked(fp, dir) && Complete(assets, dir.lima.value)
    && GuardPasses(dir.marker.value.mtime, dir.lima.value, now)
  }

  /** `cache_is_acceptable`. */
  method CacheIsAcceptable(fp: string, assets: seq<Asset>, dir: Option<CacheDir>, now: Time) returns (ok: bool)
    ensures ok <==> dir.Some? && Acceptable(fp, assets, dir.value, now)
  {
    if dir.None? || !HasTree(dir.value) { return false; }
    if !Marked(fp, dir.value) { return false; }
    var complete := CompleteTreeCheck(assets, dir.value.lima.value);
    if !complete { return false; }
    var newest := NewestMtime(dir.value.lima.value, now);
    ok := newest.At_? ==> newest.time <= dir.value.marker.value.mtime + GRACE;
  }

  datatype Inspection =
    | Cache
    | Absent
    | FingerprintMissing
    | FingerprintMismatch(found: string)
    | TreeIncomplete(first: Reason)
    | GuardTripped(path: Path)

  predicate Newer(lima: Tree, path: Path, marked: Time) {
    match At<Item>(lima, path)
    case Some(Leaf(item)) => StampOf(item).Some? && StampOf(item).value > marked + GRACE
    case _ => false
  }

  /** What the inspector reports as a cache. */
  predicate LooksCached(fp: string, assets: seq<Asset>, dir: CacheDir) {
    && HasTree(dir) && Marked(fp, dir) && Complete(assets, dir.lima.value)
    && forall i :: 0 <= i < |assets| ==> !Newer(dir.lima.value, assets[i].path, dir.marker.value.mtime)
  }

  /** The path of the first listed file, in manifest order, that is too new for the marker. */
  ghost predicate IsFirstNewer(assets: seq<Asset>, dir: CacheDir, path: Path)
    requires HasTree(dir) && dir.marker.Some?
  {
    exists i :: 0 <= i < |assets| && assets[i].path == path && IsNewerAfter(assets, dir, i)
  }

  predicate IsNewerAfter(assets: seq<Asset>, dir: CacheDir, i: nat)
    requires HasTree(dir) && dir.marker.Some? && i < |assets|
  {
    && Newer(dir.lima.value, assets[i].path, dir.marker.value.mtime)
    && forall k :: 0 <= k < i ==> !Newer(dir.lima.value, assets[k].path, dir.marker.value.mtime)
  }

  /** The first reason of the report. */
  ghost predicate BeginsReport(first: Reason, assets: seq<Asset>, lima: Tree) {
    exists reasons :: IsReport(reasons, assets, lima) && reasons != [] && reasons[0] == first
  }

  /** `inspect_cache`. */
  method InspectCache(fp: string, assets: seq<Asset>, dir: Option<CacheDir>) returns (r: Inspection)
    ensures r.Cache? <==> dir.Some? && LooksCached(fp, assets, dir.value)
    ensures r.Absent? <==> dir.None? || !HasTree(dir.value)
    ensures r.FingerprintMissing? <==> dir.Some? && HasTree(dir.value) && dir.value.marker.None?
    ensures r.FingerprintMismatch? <==>
      dir.Some? && HasTree(dir.value) && dir.value.marker.Some? && Trimmed(dir.value.marker.value.text) != fp
    ensures r.FingerprintMismatch? ==> r.found == Trimmed(dir.value.marker.value.text)
    ensures r.TreeIncomplete? <==>
      dir.Some? && HasTree(dir.value) && Marked(fp, dir.value) && !Complete(assets, dir.value.lima.value)
    ensures r.TreeIncomplete? ==> BeginsReport(r.first, assets, dir.value.lima.value)
    ensures r.GuardTripped? <==>
      && dir.Some? && HasTree(dir.value) && Marked(fp, dir.value) && Complete(assets, dir.value.lima.value)
      && !LooksCached(fp, assets, dir.value)
    ensures r.GuardTripped? ==> IsFirstNewer(assets, dir.value, r.path)
  {
    hide Newer, Trimmed, IsReport;
    if dir.None? || !HasTree(dir.value) { return Absent; }
    if dir.value.marker.None? { return FingerprintMissing; }
    var marker, lima := dir.value.marker.value, dir.value.lima.value;
    if Trimmed(marker.text) != fp { return FingerprintMismatch(Trimmed(marker.text)); }
    var reasons := ScanTree(assets, lima);
    NoReasonIffComplete(reasons, assets, lima);
    if reasons != [] { return TreeIncomplete(reasons[0]); }
    for i := 0 to |assets|
      invariant forall k :: 0 <= k < i ==> !Newer(lima, assets[k].path, marker.mtime)
    {
      if Newer(lima, assets[i].path, marker.mtime) {
        assert IsNewerAfter(assets, dir.value, i);
        return GuardTripped(assets[i].path);
      }
    }
    r := Cache;
  }

  /** Whatever the resolver accepts without a read error, the inspector reports as a cache. */
  lemma AcceptedLooksCached(fp: string, assets: seq<Asset>, dir: CacheDir, now: Time)
    requires Acceptable(fp, assets, dir, now) && !Dangles(dir.lima.value)
    requires forall i :: 0 <= i < |assets| ==> assets[i].path != []
    ensures LooksCached(fp, assets, dir)
  {
    var lima := dir.lima.value;
    forall i | 0 <= i < |assets| ensures !Newer(lima, assets[i].path, dir.marker.value.mtime) {
      var path := assets[i].path;
      assert FileOk(lima, path);
      var item := At<Item>(lima, path).value.it;
      AtIsStamp(lima, path, item, now, StampOf(item).value);
      assert path[0] in lima.entries;
    }
  }

  /** Nothing but the listed files, and no empty directories. */
  ghost predicate NothingElse(assets: seq<Asset>, lima: Tree) {
    && (forall path: Path :: At(lima, path).Some? && At(lima, path).value.Leaf? ==> IsAssetPath(assets, path))
    && forall path: Path :: path != [] ==> At(lima, path) != Some(Node<Item>.Dir(map[]))
  }

  ghost predicate IsAssetPath(assets: seq<Asset>, path: Path) {
    exists i :: 0 <= i < |assets| && assets[i].path == path
  }

  /**
   * Conversely, what the inspector reports as a cache is accepted exactly when no other entry, or empty
   * directory, is newer than the marker; so always when there is nothing but the listed files.
   */
  lemma CachedIsAcceptedIff(fp: string, assets: seq<Asset>, dir: CacheDir, now: Time)
    requires LooksCached(fp, assets, dir)
    ensures Acceptable(fp, assets, dir, now) <==> GuardPasses(dir.marker.value.mtime, dir.lima.value, now)
    ensures NothingElse(assets, dir.lima.value) ==> Acceptable(fp, assets, dir, now)
  {
    var lima := dir.lima.value;
    if NothingElse(assets, lima) {
      forall t: Time | IsStamp(lima, now, t) ensures t <= dir.marker.value.mtime + GRACE {
        var path := StampHasPath(lima, now, t);
        assert At(lima, path) != Some(Node<Item>.Dir(map[]));
        var i :| 0 <= i < |assets| && assets[i].path == path;
        assert !Newer(lima, assets[i].path, dir.marker.value.mtime);
      }
    }
  }
}
