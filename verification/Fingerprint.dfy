/** The length-framed pre-image fed to the fingerprint hasher (src/lima/fingerprint.rs). */
module Fingerprint {

  import opened Common
  import opened ByteOrder
  import Decimal

  /** One hashed item: a path and the bytes of the file there. */
  type Input = Keyed<Bytes>

  const PROVISION_SALT: Bytes := Ascii("agbranch-base-fingerprint-v1") + [0]
  const BUNDLE_SALT: Bytes := Ascii("agbranch-asset-bundle-fingerprint-v1") + [0]

  /** One field: its length in decimal, a NUL, the field, a NUL. */
  function Field(b: Bytes): Bytes {
    Ascii(Decimal.Render(|b|)) + [0] + b + [0]
  }

  function Frame(x: Input): Bytes {
    Field(x.path) + Field(x.item)
  }

  function Frames(xs: seq<Input>): Bytes {
    if xs == [] then [] else Frame(xs[0]) + Frames(xs[1..])
  }

  function PreImage(salt: Bytes, xs: seq<Input>): Bytes {
    salt + Frames(SortByPath(xs))
  }

  // ---- Reading a stream back ----

  function FirstNul(s: Bytes): (n: nat)
    ensures n <= |s|
    ensures forall i :: 0 <= i < n ==> s[i] != 0
    ensures n < |s| ==> s[n] == 0
  {
    if s == [] || s[0] == 0 then 0 else 1 + FirstNul(s[1..])
  }

  function Text(b: Bytes): (s: string)
    requires forall i :: 0 <= i < |b| ==> b[i] < 128
    ensures |s| == |b| && forall i :: 0 <= i < |b| ==> s[i] == b[i] as char
  {
    seq(|b|, i requires 0 <= i < |b| => b[i] as char)
  }

  predicate IsDecimal(b: Bytes) {
    b != [] && forall i :: 0 <= i < |b| ==> 48 <= b[i] < 58
  }

  /** Reads one field off the front of a stream. */
  function TakeField(s: Bytes): (r: Option<(Bytes, Bytes)>)
    ensures r.Some? ==> |r.value.1| < |s|
  {
    var n := FirstNul(s);
    if n == |s| || !IsDecimal(s[..n]) then None else
      var len := Decimal.Value(Text(s[..n]));
      var rest := s[n + 1..];
      if len < |rest| && rest[len] == 0 then Some((rest[..len], rest[len + 1..])) else None
  }

  function DecodeFrames(s: Bytes): Option<seq<Input>>
    decreases |s|
  {
    if s == [] then Some([]) else
      match TakeField(s)
      case None => None
      case Some((path, afterPath)) =>
        match TakeField(afterPath)
        case None => None
        case Some((bytes, rest)) =>
          match DecodeFrames(rest)
          case None => None
          case Some(xs) => Some([Keyed(path, bytes)] + xs)
  }

  lemma {:induction false} FirstNulSkips(d: Bytes, rest: Bytes)
    requires forall i :: 0 <= i < |d| ==> d[i] != 0
    ensures FirstNul(d + [0] + rest) == |d|
  {
    var s := d + [0] + rest;
    assert forall i :: 0 <= i < |d| ==> s[i] == d[i];
    assert s[|d|] == 0;
  }

  lemma LengthTextReadsBack(n: nat)
    ensures var d := Ascii(Decimal.Render(n)); IsDecimal(d) && Text(d) == Decimal.Render(n)
  {
    var text := Decimal.Render(n);
    assert forall i :: 0 <= i < |text| ==> Decimal.IsDigitChar(text[i]);
    assert Text(Ascii(text)) == text;
  }

  lemma TakeFieldOf(s: Bytes, d: Bytes, after: Bytes)
    requires s == d + [0] + after && IsDecimal(d)
    requires var len := Decimal.Value(Text(d)); len < |after| && after[len] == 0
    ensures var len := Decimal.Value(Text(d)); TakeField(s) == Some((after[..len], after[len + 1..]))
  {
    FirstNulSkips(d, after);
    assert s[..|d|] == d;
    assert s[|d| + 1..] == after;
  }

  lemma TakeFieldReadsField(b: Bytes, rest: Bytes)
    ensures TakeField(Field(b) + rest) == Some((b, rest))
  {
    var d := Ascii(Decimal.Render(|b|));
    var after := b + [0] + rest;
    LengthTextReadsBack(|b|);
    Decimal.RenderReadsBack(|b|);
    assert Field(b) + rest == d + [0] + after;
    TakeFieldOf(Field(b) + rest, d, after);
    assert after[..|b|] == b && after[|b| + 1..] == rest;
  }

  lemma AppendAssociates(a: Bytes, b: Bytes, c: Bytes)
    ensures a + (b + c) == (a + b) + c
  {
  }

  lemma DecodeOneFrame(x: Input, tail: Bytes)
    ensures DecodeFrames(Frame(x) + tail) ==
      match DecodeFrames(tail) case None => None case Some(xs) => Some([x] + xs)
  {
    var afterPath := Field(x.item) + tail;
    AppendAssociates(Field(x.path), Field(x.item), tail);
    TakeFieldReadsField(x.path, afterPath);
    TakeFieldReadsField(x.item, tail);
    assert |Frame(x) + tail| > 0;
  }

  /** Decoding inverts framing for every list of inputs, whatever bytes they hold. */
  lemma {:induction false} DecodeReadsFrames(xs: seq<Input>)
    ensures DecodeFrames(Frames(xs)) == Some(xs)
  {
    hide Frame, Field, TakeField;
    if xs != [] {
      DecodeOneFrame(xs[0], Frames(xs[1..]));
      DecodeReadsFrames(xs[1..]);
      assert xs == [xs[0]] + xs[1..];
    }
  }

  /** Equal streams under one salt come from equal sorted lists, and equal sorted lists give equal streams. */
  lemma StreamDeterminesInputs(salt: Bytes, xs: seq<Input>, ys: seq<Input>)
    ensures PreImage(salt, xs) == PreImage(salt, ys) <==> SortByPath(xs) == SortByPath(ys)
    ensures PreImage(salt, xs) == PreImage(salt, ys) ==> multiset(xs) == multiset(ys)
  {
    if PreImage(salt, xs) == PreImage(salt, ys) {
      var a, b := SortByPath(xs), SortByPath(ys);
      assert (salt + Frames(a))[|salt|..] == Frames(a);
      assert (salt + Frames(b))[|salt|..] == Frames(b);
      DecodeReadsFrames(a);
      DecodeReadsFrames(b);
    }
  }

  lemma SaltsDiffer()
    ensures |PROVISION_SALT| > 9 && |BUNDLE_SALT| > 9 && PROVISION_SALT[9] != BUNDLE_SALT[9]
  {
    var a, b := "agbranch-base-fingerprint-v1", "agbranch-asset-bundle-fingerprint-v1";
    assert a[9] == 'b' && b[9] == 'a';
    assert PROVISION_SALT[9] == Ascii(a)[9] && BUNDLE_SALT[9] == Ascii(b)[9];
  }

  /** No provision stream is an asset-bundle stream, for any inputs at all. */
  lemma SaltsSeparateStreams(xs: seq<Input>, ys: seq<Input>)
    ensures PreImage(PROVISION_SALT, xs) != PreImage(BUNDLE_SALT, ys)
  {
    SaltsDiffer();
    assert PreImage(PROVISION_SALT, xs)[9] == PROVISION_SALT[9];
    assert PreImage(BUNDLE_SALT, ys)[9] == BUNDLE_SALT[9];
  }

  /** The pre-image ignores the order of collection exactly when no path has two contents. */
  lemma PreImageForgetsOrderIff(salt: Bytes, xs: seq<Input>)
    ensures PathsAgree(xs) <==>
      forall ys :: multiset(ys) == multiset(xs) ==> PreImage(salt, ys) == PreImage(salt, xs)
  {
    if PathsAgree(xs) {
      forall ys | multiset(ys) == multiset(xs) ensures PreImage(salt, ys) == PreImage(salt, xs) {
        SortForgetsOrder(xs, ys);
      }
    } else {
      var x, y :| x in xs && y in xs && x.path == y.path && x != y;
      var ys, zs := OrderMatters(xs, x, y);
      StreamDeterminesInputs(salt, ys, zs);
    }
  }

  // ---- The hashing loop ----

  datatype FingerprintError = EmptyPath

  /** The four updates that feed one field to the hasher. */
  method Feed(fed: Bytes, field: Bytes) returns (r: Bytes)
    ensures r == fed + Field(field)
  {
    r := fed + Ascii(Decimal.Render(|field|));
    r := r + [0];
    r := r + field;
    r := r + [0];
  }

  method FeedInput(fed: Bytes, input: Input) returns (r: Bytes)
    ensures r == fed + Frame(input)
  {
    r := Feed(fed, input.path);
    r := Feed(r, input.item);
  }

  predicate HasEmptyPath(xs: seq<Input>) {
    exists i :: 0 <= i < |xs| && xs[i].path == []
  }

  /** Sorts the inputs and feeds the hasher; `sha256` stands for the hex digest of what was fed. */
  method ComputeFingerprint(inputs: seq<Input>, salt: Bytes, sha256: Bytes -> string)
    returns (r: Result<string, FingerprintError>)
    ensures r == if HasEmptyPath(inputs) then Err(EmptyPath) else Ok("sha256:" + sha256(PreImage(salt, inputs)))
  {
    var sorted := SortByPath(inputs);
    SortKeepsEmptyPath(inputs);
    var fed := salt;
    var rest := sorted;
    while rest != []
      invariant fed + Frames(rest) == salt + Frames(sorted)
      invariant HasEmptyPath(rest) <==> HasEmptyPath(sorted)
    {
      if rest[0].path == [] { return Err(EmptyPath); }
      AppendAssociates(fed, Frame(rest[0]), Frames(rest[1..]));
      fed := FeedInput(fed, rest[0]);
      rest := rest[1..];
    }
    assert fed + [] == fed;
    r := Ok("sha256:" + sha256(fed));
  }

  lemma SortKeepsEmptyPath(xs: seq<Input>)
    ensures HasEmptyPath(SortByPath(xs)) <==> HasEmptyPath(xs)
  {
    var sorted := SortByPath(xs);
    SameElements(xs, sorted);
    if HasEmptyPath(xs) {
      var i :| 0 <= i < |xs| && xs[i].path == [];
      assert xs[i] in sorted;
    }
    if HasEmptyPath(sorted) {
      var i :| 0 <= i < |sorted| && sorted[i].path == [];
      assert sorted[i] in xs;
    }
  }
}
