/** Bytewise order on paths, and the stable sort the fingerprint code relies on. */
module ByteOrder {

  import opened Common

  /** Lexicographic comparison of byte strings, a prefix coming first. */
  predicate LexLe(a: Bytes, b: Bytes) {
    a == [] || (b != [] && (a[0] < b[0] || (a[0] == b[0] && LexLe(a[1..], b[1..]))))
  }

  lemma {:induction false} LexTotal(a: Bytes, b: Bytes)
    ensures LexLe(a, b) || LexLe(b, a)
  {
    if a != [] && b != [] { LexTotal(a[1..], b[1..]); }
  }

  lemma {:induction false} LexAntisymmetric(a: Bytes, b: Bytes)
    requires LexLe(a, b) && LexLe(b, a)
    ensures a == b
  {
    if a != [] {
      LexAntisymmetric(a[1..], b[1..]);
      assert a == [a[0]] + a[1..] && b == [b[0]] + b[1..];
    }
  }

  lemma {:induction false} LexTransitive(a: Bytes, b: Bytes, c: Bytes)
    requires LexLe(a, b) && LexLe(b, c)
    ensures LexLe(a, c)
  {
    if a != [] && a[0] == b[0] && b[0] == c[0] { LexTransitive(a[1..], b[1..], c[1..]); }
  }

  /** Something filed under a slash-separated path. */
  datatype Keyed<+T> = Keyed(path: Bytes, item: T)

  predicate Sorted<T>(xs: seq<Keyed<T>>) {
    forall i, j :: 0 <= i < j < |xs| ==> LexLe(xs[i].path, xs[j].path)
  }

  /** No path is listed with two different contents. */
  ghost predicate PathsAgree<T>(xs: seq<Keyed<T>>) {
    forall x, y :: x in xs && y in xs && x.path == y.path ==> x == y
  }

  function Insert<T>(x: Keyed<T>, xs: seq<Keyed<T>>): (r: seq<Keyed<T>>)
    ensures multiset(r) == multiset(xs) + multiset{x}
  {
    if xs == [] then [x]
    else if LexLe(x.path, xs[0].path) then
      assert multiset([x] + xs) == multiset(xs) + multiset{x}; [x] + xs
    else
      assert xs == [xs[0]] + xs[1..];
      [xs[0]] + Insert(x, xs[1..])
  }

  /** `sort_by` on the path: sorted, and equal keys keep their order. */
  function SortByPath<T>(xs: seq<Keyed<T>>): (r: seq<Keyed<T>>)
    ensures multiset(r) == multiset(xs)
  {
    if xs == [] then [] else
      assert xs == [xs[0]] + xs[1..];
      Insert(xs[0], SortByPath(xs[1..]))
  }

  lemma {:induction false} InsertKeepsSorted<T>(x: Keyed<T>, xs: seq<Keyed<T>>)
    requires Sorted(xs)
    ensures Sorted(Insert(x, xs))
  {
    if xs == [] {
    } else if LexLe(x.path, xs[0].path) {
      forall j | 0 <= j < |xs| ensures LexLe(x.path, xs[j].path) {
        if j > 0 { LexTransitive(x.path, xs[0].path, xs[j].path); }
      }
    } else {
      LexTotal(x.path, xs[0].path);
      InsertKeepsSorted(x, xs[1..]);
      var r := Insert(x, xs[1..]);
      forall j | 0 <= j < |r| ensures LexLe(xs[0].path, r[j].path) {
        assert r[j] in multiset(r);
        assert r[j] in multiset(xs[1..]) + multiset{x};
        if r[j] != x {
          assert r[j] in xs[1..];
        }
      }
    }
  }

  lemma {:induction false} SortByPathSorts<T>(xs: seq<Keyed<T>>)
    ensures Sorted(SortByPath(xs))
  {
    if xs != [] {
      SortByPathSorts(xs[1..]);
      InsertKeepsSorted(xs[0], SortByPath(xs[1..]));
    }
  }

  lemma SameElements<T>(xs: seq<Keyed<T>>, ys: seq<Keyed<T>>)
    requires multiset(xs) == multiset(ys)
    ensures |xs| == |ys|
    ensures forall x :: x in xs <==> x in ys
  {
    assert |multiset(xs)| == |multiset(ys)|;
    forall x ensures x in xs <==> x in ys {
      assert x in multiset(xs) <==> x in multiset(ys);
    }
  }

  lemma TailElements<T>(xs: seq<Keyed<T>>)
    requires xs != []
    ensures multiset(xs[1..]) == multiset(xs) - multiset{xs[0]}
  {
    assert xs == [xs[0]] + xs[1..];
  }

  lemma SortedHeadsAgree<T>(xs: seq<Keyed<T>>, ys: seq<Keyed<T>>)
    requires Sorted(xs) && Sorted(ys) && PathsAgree(xs)
    requires xs != [] && ys != [] && xs[0] in ys && ys[0] in xs
    ensures xs[0] == ys[0]
  {
    var k :| 0 <= k < |ys| && ys[k] == xs[0];
    var l :| 0 <= l < |xs| && xs[l] == ys[0];
    if k != 0 && l != 0 { LexAntisymmetric(xs[0].path, ys[0].path); }
  }

  /** A sorted list whose paths agree is determined by its elements. */
  lemma {:induction false} SortedIsUnique<T>(xs: seq<Keyed<T>>, ys: seq<Keyed<T>>)
    requires Sorted(xs) && Sorted(ys) && PathsAgree(xs)
    requires multiset(xs) == multiset(ys)
    ensures xs == ys
  {
    SameElements(xs, ys);
    if xs != [] {
      SortedHeadsAgree(xs, ys);
      TailElements(xs);
      TailElements(ys);
      SortedIsUnique(xs[1..], ys[1..]);
      assert xs == [xs[0]] + xs[1..] && ys == [ys[0]] + ys[1..];
    }
  }

  lemma {:induction false} EqualPathsDoNotCommute<T>(x: Keyed<T>, y: Keyed<T>, s: seq<Keyed<T>>)
    requires x.path == y.path && Insert(x, Insert(y, s)) == Insert(y, Insert(x, s))
    ensures x == y
  {
    LexTotal(x.path, x.path);
    if s == [] || LexLe(x.path, s[0].path) {
      assert Insert(x, Insert(y, s))[0] == x && Insert(y, Insert(x, s))[0] == y;
    } else {
      assert Insert(x, Insert(y, s))[1..] == Insert(x, Insert(y, s[1..]));
      assert Insert(y, Insert(x, s))[1..] == Insert(y, Insert(x, s[1..]));
      EqualPathsDoNotCommute(x, y, s[1..]);
    }
  }

  /** Sorting forgets the order of collection exactly when no path is listed with two contents. */
  lemma SortForgetsOrderIff<T>(xs: seq<Keyed<T>>)
    ensures PathsAgree(xs) <==>
      forall ys :: multiset(ys) == multiset(xs) ==> SortByPath(ys) == SortByPath(xs)
  {
    if PathsAgree(xs) {
      forall ys | multiset(ys) == multiset(xs) ensures SortByPath(ys) == SortByPath(xs) {
        SortForgetsOrder(xs, ys);
      }
    } else {
      var x, y :| x in xs && y in xs && x.path == y.path && x != y;
      var ys, zs := OrderMatters(xs, x, y);
      assert SortByPath(ys) != SortByPath(zs);
    }
  }

  lemma SortCons<T>(x: Keyed<T>, xs: seq<Keyed<T>>)
    ensures SortByPath([x] + xs) == Insert(x, SortByPath(xs))
  {
    assert ([x] + xs)[1..] == xs;
  }

  lemma TwoRemoved<T>(xs: seq<Keyed<T>>, x: Keyed<T>, y: Keyed<T>) returns (rest: seq<Keyed<T>>)
    requires x in xs && y in xs && x != y
    ensures multiset(xs) == multiset(rest) + multiset{x} + multiset{y}
  {
    var once := Remove(x, xs);
    assert y in multiset(once);
    rest := Remove(y, once);
  }

  lemma OrderMatters<T>(xs: seq<Keyed<T>>, x: Keyed<T>, y: Keyed<T>) returns (ys: seq<Keyed<T>>, zs: seq<Keyed<T>>)
    requires x in xs && y in xs && x.path == y.path && x != y
    ensures multiset(ys) == multiset(xs) && multiset(zs) == multiset(xs)
    ensures SortByPath(ys) != SortByPath(zs)
  {
    var rest := TwoRemoved(xs, x, y);
    ys, zs := [x] + ([y] + rest), [y] + ([x] + rest);
    SortCons(x, [y] + rest);
    SortCons(y, [x] + rest);
    SortCons(y, rest);
    SortCons(x, rest);
    if SortByPath(ys) == SortByPath(zs) { EqualPathsDoNotCommute(x, y, SortByPath(rest)); }
  }

  lemma PathsAgreeAcrossOrders<T>(xs: seq<Keyed<T>>, ys: seq<Keyed<T>>)
    requires PathsAgree(xs) && multiset(ys) == multiset(xs)
    ensures PathsAgree(ys)
  {
    SameElements(xs, ys);
  }

  lemma SortForgetsOrder<T>(xs: seq<Keyed<T>>, ys: seq<Keyed<T>>)
    requires PathsAgree(xs) && multiset(ys) == multiset(xs)
    ensures SortByPath(ys) == SortByPath(xs)
  {
    SortByPathSorts(xs);
    SortByPathSorts(ys);
    PathsAgreeAcrossOrders(xs, SortByPath(xs));
    SortedIsUnique(SortByPath(xs), SortByPath(ys));
  }

  ghost function Remove<T>(x: Keyed<T>, xs: seq<Keyed<T>>): (r: seq<Keyed<T>>)
    requires x in xs
    ensures multiset(r) == multiset(xs) - multiset{x}
  {
    assert xs == [xs[0]] + xs[1..];
    if xs[0] == x then xs[1..] else [xs[0]] + Remove(x, xs[1..])
  }
}
