/** What directories of the asset cache are called (src/lima/asset_resolver.rs, src/commands/gc.rs). */
module AssetNames {

  /** `replace(':', "-")`. */
  function Dashed(fp: string): (r: string)
    ensures |r| == |fp|
    ensures forall i :: 0 <= i < |fp| ==> r[i] == if fp[i] == ':' then '-' else fp[i]
  {
    seq(|fp|, i requires 0 <= i < |fp| => if fp[i] == ':' then '-' else fp[i])
  }

  const TMP := ".tmp."
  const STALE := ".stale."

  predicate Contains(s: string, part: string) {
    part <= s || (s != [] && Contains(s[1..], part))
  }

  /** `is_scratch_suffix`. */
  predicate IsScratchName(name: string) {
    Contains(name, TMP) || Contains(name, STALE)
  }

  function CanonicalName(fp: string): string {
    Dashed(fp)
  }

  function ScratchName(fp: string, token: string): string {
    CanonicalName(fp) + TMP + token
  }

  function StaleName(fp: string, token: string): string {
    CanonicalName(fp) + STALE + token
  }

  /** Fingerprints such as `sha256:` and hexadecimal digits: no dot, dash or newline. */
  predicate PlainFingerprint(fp: string) {
    forall i :: 0 <= i < |fp| ==> fp[i] != '.' && fp[i] != '-' && fp[i] != '\n'
  }

  lemma {:induction false} DotlessDoesNotContain(s: string, part: string)
    requires (forall i :: 0 <= i < |s| ==> s[i] != '.') && part != [] && part[0] == '.'
    ensures !Contains(s, part)
  {
    if s != [] { DotlessDoesNotContain(s[1..], part); }
  }

  lemma CanonicalIsNotScratch(fp: string)
    requires PlainFingerprint(fp)
    ensures !IsScratchName(CanonicalName(fp))
  {
    DotlessDoesNotContain(CanonicalName(fp), TMP);
    DotlessDoesNotContain(CanonicalName(fp), STALE);
  }

  lemma {:induction false} MiddleIsContained(a: string, part: string, b: string)
    ensures Contains(a + part + b, part)
  {
    if a == [] {
      assert [] + part + b == part + b;
    } else {
      assert (a + part + b)[1..] == a[1..] + part + b;
      MiddleIsContained(a[1..], part, b);
    }
  }

  lemma ScratchNamesAreScratch(fp: string, token: string)
    ensures IsScratchName(ScratchName(fp, token)) && IsScratchName(StaleName(fp, token))
  {
    MiddleIsContained(CanonicalName(fp), TMP, token);
    MiddleIsContained(CanonicalName(fp), STALE, token);
  }

  lemma ScratchIsNotStale(fp: string, token: string, other: string)
    ensures ScratchName(fp, token) != StaleName(fp, other)
  {
    var i := |CanonicalName(fp)| + 1;
    assert ScratchName(fp, token)[i] == TMP[1] && StaleName(fp, other)[i] == STALE[1];
  }

  /** Different bundles have different canonical directories. */
  lemma CanonicalNamesDiffer(a: string, b: string)
    requires PlainFingerprint(a) && PlainFingerprint(b) && CanonicalName(a) == CanonicalName(b)
    ensures a == b
  {
    forall i | 0 <= i < |a| ensures a[i] == b[i] {
      assert CanonicalName(a)[i] == CanonicalName(b)[i];
    }
  }

  /** A bundle's directory carries its fingerprint's own name exactly when that has no colon. */
  lemma CanonicalIsFingerprintIff(fp: string)
    ensures CanonicalName(fp) == fp <==> ':' !in fp
  {
    if CanonicalName(fp) == fp {
      forall i | 0 <= i < |fp| ensures fp[i] != ':' { assert CanonicalName(fp)[i] == fp[i]; }
    } else {
      assert exists i :: 0 <= i < |fp| && CanonicalName(fp)[i] != fp[i];
    }
  }
}
