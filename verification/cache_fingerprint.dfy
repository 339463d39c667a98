/** The fingerprint chain over the blocks of a request (internal/emulation/cache.go): SHA-256 over
    the prelude and then, block by block, over the previous digest and the block's digest. */
module CacheFingerprint {
  import opened CanonicalJson
  import opened CacheBlocks

  type Digest = d: string | |d| == 32 witness seq(32, i => '0')

  // SHA-256, as any function to 32 bytes.
  type Sha = string -> Digest

  // binary.BigEndian.PutUint64 of a length.
  function Len8(n: nat): (s: string)
    ensures |s| == 8
  {
    seq(8, i requires 0 <= i < 8 => (n / Pow256(7 - i) % 256) as char)
  }

  function Pow256(k: nat): (r: nat)
    ensures r > 0
  {
    if k == 0 then 1 else 256 * Pow256(k - 1)
  }

  /** The hash state after the texts of a prelude and of n blocks: the fingerprint of block n - 1. */
  function PrefixState(sha: Sha, prelude: string, texts: seq<string>, n: nat): (s: string)
    requires n <= |texts|
    ensures n > 0 ==> |s| == 32
  {
    if n == 0 then Len8(|prelude|) + prelude
    else sha(PrefixState(sha, prelude, texts, n - 1) + sha(texts[n - 1]))
  }

  /** Every string that is hashed on the way to that fingerprint. */
  ghost function Hashed(sha: Sha, prelude: string, texts: seq<string>, n: nat): set<string>
    requires n <= |texts|
  {
    if n == 0 then {}
    else
      Hashed(sha, prelude, texts, n - 1)
      + {texts[n - 1], PrefixState(sha, prelude, texts, n - 1) + sha(texts[n - 1])}
  }

  ghost predicate CollisionFree(sha: Sha, inputs: set<string>) {
    forall x, y :: x in inputs && y in inputs && sha(x) == sha(y) ==> x == y
  }

  lemma Narrower(sha: Sha, few: set<string>, many: set<string>)
    requires few <= many && CollisionFree(sha, many)
    ensures CollisionFree(sha, few)
  {
  }

  lemma LastBlock(sha: Sha, v: string, xs: seq<string>, m: nat, w: string, ys: seq<string>, n: nat)
    requires 0 < m <= |xs| && 0 < n <= |ys|
    requires CollisionFree(sha, Hashed(sha, v, xs, m) + Hashed(sha, w, ys, n))
    requires PrefixState(sha, v, xs, m) == PrefixState(sha, w, ys, n)
    ensures PrefixState(sha, v, xs, m - 1) == PrefixState(sha, w, ys, n - 1)
    ensures xs[m - 1] == ys[n - 1]
  {
    var s, t := PrefixState(sha, v, xs, m - 1), PrefixState(sha, w, ys, n - 1);
    var g, h := sha(xs[m - 1]), sha(ys[n - 1]);
    assert s + g in Hashed(sha, v, xs, m) && t + h in Hashed(sha, w, ys, n);
    assert s + g == t + h;
    SameSuffix(s, t, g, h);
    assert xs[m - 1] in Hashed(sha, v, xs, m) && ys[n - 1] in Hashed(sha, w, ys, n);
  }

  // A chain's start, behind its length prefix, is never a digest; so chains that meet at one both start there.
  lemma ChainStart(sha: Sha, v: string, xs: seq<string>, m: nat, w: string, ys: seq<string>, n: nat)
    requires 0 < m <= |xs| && 0 < n <= |ys| && |v| > 24 && |w| > 24 && (m == 1 || n == 1)
    requires PrefixState(sha, v, xs, m - 1) == PrefixState(sha, w, ys, n - 1)
    ensures m == n == 1 && v == w
  {
    assert |PrefixState(sha, v, xs, 0)| == 8 + |v| && |PrefixState(sha, w, ys, 0)| == 8 + |w|;
    SamePrefix(Len8(|v|), Len8(|w|), v, w);
  }

  lemma HashedGrows(sha: Sha, v: string, xs: seq<string>, m: nat)
    requires 0 < m <= |xs|
    ensures Hashed(sha, v, xs, m - 1) <= Hashed(sha, v, xs, m)
  {
  }

  lemma ShorterCollisionFree(sha: Sha, v: string, xs: seq<string>, m: nat, w: string, ys: seq<string>, n: nat)
    requires 0 < m <= |xs| && 0 < n <= |ys| && CollisionFree(sha, Hashed(sha, v, xs, m) + Hashed(sha, w, ys, n))
    ensures CollisionFree(sha, Hashed(sha, v, xs, m - 1) + Hashed(sha, w, ys, n - 1))
  {
    HashedGrows(sha, v, xs, m);
    HashedGrows(sha, w, ys, n);
    Narrower(sha, Hashed(sha, v, xs, m - 1) + Hashed(sha, w, ys, n - 1), Hashed(sha, v, xs, m) + Hashed(sha, w, ys, n));
  }

  /** Equal fingerprints come from equal chains, unless SHA-256 collides on what they hash. */
  lemma {:induction false} ChainUnique(sha: Sha, v: string, xs: seq<string>, m: nat, w: string, ys: seq<string>, n: nat)
    requires 0 < m <= |xs| && 0 < n <= |ys| && |v| > 24 && |w| > 24
    requires CollisionFree(sha, Hashed(sha, v, xs, m) + Hashed(sha, w, ys, n))
    requires PrefixState(sha, v, xs, m) == PrefixState(sha, w, ys, n)
    ensures v == w && m == n && xs[..m] == ys[..n]
    decreases m
  {
    LastBlock(sha, v, xs, m, w, ys, n);
    if m == 1 || n == 1 {
      ChainStart(sha, v, xs, m, w, ys, n);
    } else {
      ShorterCollisionFree(sha, v, xs, m, w, ys, n);
      ChainUnique(sha, v, xs, m - 1, w, ys, n - 1);
    }
    TakeOneMore(xs, m, ys);
  }

  lemma TakeOneMore(xs: seq<string>, m: nat, ys: seq<string>)
    requires 0 < m <= |xs| && m <= |ys| && xs[..m - 1] == ys[..m - 1] && xs[m - 1] == ys[m - 1]
    ensures xs[..m] == ys[..m]
  {
    assert xs[..m] == xs[..m - 1] + [xs[m - 1]] && ys[..m] == ys[..m - 1] + [ys[m - 1]];
  }

  lemma {:induction false} SameState(sha: Sha, v: string, xs: seq<string>, ys: seq<string>, n: nat)
    requires n <= |xs| && n <= |ys| && xs[..n] == ys[..n]
    ensures PrefixState(sha, v, xs, n) == PrefixState(sha, v, ys, n)
  {
    if n > 0 {
      assert xs[n - 1] == xs[..n][n - 1] == ys[..n][n - 1] == ys[n - 1];
      assert xs[..n - 1] == xs[..n][..n - 1] && ys[..n - 1] == ys[..n][..n - 1];
      SameState(sha, v, xs, ys, n - 1);
    }
  }

  lemma SameSuffix(s: string, t: string, g: string, h: string)
    requires s + g == t + h && |g| == |h|
    ensures s == t && g == h
  {
    assert |s| == |t|;
    SamePrefix(s, t, g, h);
  }

  // ---------------------------------------------------------------- requests

  /** The canonical texts of the fingerprinted blocks. */
  function Texts(bs: seq<Pending>): seq<string> {
    seq(|bs|, i requires 0 <= i < |bs| => Write(bs[i].value))
  }

  lemma {:induction false} QuoteLength(s: string)
    ensures |Quote(s)| > |s|
  {
    if s != [] {
      QuoteLength(s[1..]);
    }
  }

  lemma {:induction false} LastFieldLength(v: Json, k: string)
    requires v.Obj? && k in v.fields
    ensures |WriteFields(v, [k], false)| >= |k| + 5
  {
    QuoteLength(k);
    assert [k][1..] == [];
  }

  lemma {:induction false} TwoFieldsLength(v: Json, a: string, b: string)
    requires v.Obj? && a != b && v.fields.Keys == {a, b}
    ensures |Write(v)| >= |a| + |b| + 9
  {
    var ks := SortedKeys(v.fields.Keys);
    assert |{a, b}| == 2;
    assert ks[0] in {a, b} && ks[1] in {a, b} && ks[0] != ks[1];
    LastFieldLength(v, ks[1]);
    QuoteLength(ks[0]);
    assert ks[1..] == [ks[1]];
  }

  // A prelude's text is longer than 24 bytes, so with its length prefix it never passes for a digest.
  lemma PreludeLength(p: Payload)
    ensures |Write(Prelude(p))| > 24
  {
    TwoFieldsLength(Prelude(p), "model", "tool_choice");
  }

  lemma PreludeWellFormed(p: Payload)
    requires PayloadWellFormed(p)
    ensures WellFormed(Prelude(p))
  {
  }

  lemma TextsUnique(xs: seq<Pending>, n: nat, ys: seq<Pending>, m: nat)
    requires n <= |xs| && m <= |ys|
    requires (forall b :: b in xs ==> WellFormed(b.value)) && (forall b :: b in ys ==> WellFormed(b.value))
    ensures Texts(xs)[..n] == Texts(ys)[..m] <==> Values(xs)[..n] == Values(ys)[..m]
  {
    if Texts(xs)[..n] == Texts(ys)[..m] {
      assert n == |Texts(xs)[..n]| == m;
      forall i | 0 <= i < n
        ensures xs[i].value == ys[i].value
      {
        assert Texts(xs)[..n][i] == Texts(ys)[..m][i];
        assert xs[i] in xs && ys[i] in ys;
        WriteInjective(xs[i].value, ys[i].value);
      }
    } else if Values(xs)[..n] == Values(ys)[..m] {
      assert n == |Values(xs)[..n]| == m;
      forall i | 0 <= i < n
        ensures Texts(xs)[..n][i] == Texts(ys)[..m][i]
      {
        assert Values(xs)[..n][i] == Values(ys)[..m][i];
      }
    }
  }

  function FingerprintOf(sha: Sha, p: Payload, est: Estimators, n: nat): string
    requires n <= |Flatten(p, est)|
  {
    PrefixState(sha, Write(Prelude(p)), Texts(Flatten(p, est)), n)
  }

  ghost function HashedFor(sha: Sha, p: Payload, est: Estimators, n: nat): set<string>
    requires n <= |Flatten(p, est)|
  {
    Hashed(sha, Write(Prelude(p)), Texts(Flatten(p, est)), n)
  }

  /** Fingerprints are exact: as long as SHA-256 does not collide on the strings these two chains
      hash, the fingerprint of the first n blocks of one request equals that of the first m blocks
      of another exactly when n == m, the preludes agree and those blocks have the same values. */
  lemma FingerprintExact(sha: Sha, p: Payload, n: nat, q: Payload, m: nat, est: Estimators)
    requires PayloadWellFormed(p) && PayloadWellFormed(q)
    requires 0 < n <= |Flatten(p, est)| && 0 < m <= |Flatten(q, est)|
    requires CollisionFree(sha, HashedFor(sha, p, est, n) + HashedFor(sha, q, est, m))
    ensures FingerprintOf(sha, p, est, n) == FingerprintOf(sha, q, est, m)
            <==> n == m && Prelude(p) == Prelude(q)
                 && Values(Flatten(p, est))[..n] == Values(Flatten(q, est))[..m]
  {
    var v, w, xs, ys := Write(Prelude(p)), Write(Prelude(q)), Texts(Flatten(p, est)), Texts(Flatten(q, est));
    FlattenWellFormed(p, est);
    FlattenWellFormed(q, est);
    TextsUnique(Flatten(p, est), n, Flatten(q, est), m);
    PreludeWellFormed(p);
    PreludeWellFormed(q);
    WriteInjective(Prelude(p), Prelude(q));
    if FingerprintOf(sha, p, est, n) == FingerprintOf(sha, q, est, m) {
      PreludeLength(p);
      PreludeLength(q);
      ChainUnique(sha, v, xs, n, w, ys, m);
    } else if n == m && v == w && xs[..n] == ys[..m] {
      SameState(sha, v, xs, ys, n);
    }
  }

  /** Markers and spelling never change a fingerprint, for any hash function at all. */
  lemma SpellingKeepsFingerprints(sha: Sha, p: Payload, q: Payload, est: Estimators, n: nat)
    requires Normal(p) == Normal(q) && n <= |Flatten(p, est)|
    ensures |Flatten(q, est)| == |Flatten(p, est)|
    ensures FingerprintOf(sha, p, est, n) == FingerprintOf(sha, q, est, n)
  {
    SpellingInvisible(p, est);
    SpellingInvisible(q, est);
    var xs, ys := Flatten(p, est), Flatten(q, est);
    assert |Values(xs)| == |xs| && |Values(ys)| == |ys|;
    forall i | 0 <= i < |xs|
      ensures Texts(xs)[i] == Texts(ys)[i]
    {
      assert Values(xs)[i] == Values(ys)[i];
    }
    assert Texts(xs) == Texts(ys);
  }
}
