/** Runs of requests: the profiles the tracker sees come from payloads, so that what is read is said in terms
    of what two requests have in common. */
module CacheRequests {
  import opened CacheBlocks
  import opened CacheConfig
  import opened CacheFingerprint
  import opened CachePlan
  import opened CacheProfile
  import opened CacheRuns
  import opened CacheTracker
  import opened CanonicalJson
  import opened Options

  datatype Request = Request(payload: Payload, cfg: Config, inputTokens: int)

  /** The profile is the one that requests like this are looked up and committed with. */
  ghost predicate Serves(sha: Sha, est: Estimators, q: Request, p: Profile) {
    ProfileFor(sha, q.cfg, q.payload, est, q.inputTokens) == Some(p)
  }

  lemma PreparedValues(cfg: Config, p: Payload, est: Estimators, total: int)
    ensures var bs, all := Prepared(cfg, p, est, total), Flatten(p, est);
            |bs| <= |all| && forall i :: 0 <= i < |bs| ==> bs[i].value == all[i].value
  {
  }

  // Equal block values have equal texts.
  lemma EqualTexts(xs: seq<Pending>, ys: seq<Pending>, n: nat)
    requires n <= |xs| && n <= |ys| && forall i :: 0 <= i < n ==> xs[i].value == ys[i].value
    ensures Texts(xs)[..n] == Texts(ys)[..n]
  {
  }

  lemma {:induction false} BuiltBlock(sha: Sha, est: Estimators, q: Request, p: Profile, k: nat)
    requires Serves(sha, est, q, p) && k < |p.blocks|
    ensures var bs := Prepared(q.cfg, q.payload, est, TotalFor(q.payload, est, q.inputTokens));
            |bs| == |p.blocks| && p.blocks[k].fingerprint == PrefixState(sha, Write(Prelude(q.payload)), Texts(bs), k + 1)
  {
    var total := TotalFor(q.payload, est, q.inputTokens);
    assert p.blocks[k] == BlockAt(sha, Prelude(q.payload), Prepared(q.cfg, q.payload, est, total), k);
  }

  lemma {:induction false} SameChain(sha: Sha, p: Payload, est: Estimators, bs: seq<Pending>, n: nat)
    requires n <= |bs| <= |Flatten(p, est)| && forall i :: 0 <= i < |bs| ==> bs[i].value == Flatten(p, est)[i].value
    ensures PrefixState(sha, Write(Prelude(p)), Texts(bs), n) == FingerprintOf(sha, p, est, n)
  {
    EqualTexts(bs, Flatten(p, est), n);
    SameState(sha, Write(Prelude(p)), Texts(bs), Texts(Flatten(p, est)), n);
  }

  lemma {:induction false} PreparedChain(sha: Sha, cfg: Config, p: Payload, est: Estimators, total: int, n: nat)
    requires n <= |Prepared(cfg, p, est, total)|
    ensures n <= |Flatten(p, est)|
    ensures PrefixState(sha, Write(Prelude(p)), Texts(Prepared(cfg, p, est, total)), n) == FingerprintOf(sha, p, est, n)
  {
    PreparedValues(cfg, p, est, total);
    SameChain(sha, p, est, Prepared(cfg, p, est, total), n);
  }

  // A block of a built profile has the fingerprint of the request's blocks up to it.
  lemma BuiltFingerprint(sha: Sha, est: Estimators, q: Request, p: Profile, k: nat)
    requires Serves(sha, est, q, p) && k < |p.blocks|
    ensures k < |Flatten(q.payload, est)|
    ensures p.blocks[k].fingerprint == FingerprintOf(sha, q.payload, est, k + 1)
  {
    BuiltBlock(sha, est, q, p, k);
    PreparedChain(sha, q.cfg, q.payload, est, TotalFor(q.payload, est, q.inputTokens), k + 1);
  }

  // How many leading blocks the i-th cacheable breakpoint stands for.
  function Length(p: Profile, i: nat): nat
    requires i < |p.Cacheable()|
  {
    p.Cacheable()[i].index + 1
  }

  /** A request's breakpoint is known by the fingerprint of the blocks up to it, whatever was cut off
      behind them and whoever set the marks. */
  lemma KeyIsFingerprint(sha: Sha, est: Estimators, q: Request, p: Profile, i: nat)
    requires Serves(sha, est, q, p) && i < |p.Cacheable()|
    ensures Length(p, i) <= |Flatten(q.payload, est)|
    ensures KeyAt(p, i) == FingerprintOf(sha, q.payload, est, Length(p, i))
  {
    BuiltFingerprint(sha, est, q, p, Length(p, i) - 1);
  }

  /** Two requests have the same prelude and the same first n blocks, up to markers and spelling. */
  ghost predicate Share(est: Estimators, p: Payload, q: Payload, n: nat) {
    && n <= |Flatten(p, est)| && n <= |Flatten(q, est)|
    && Prelude(p) == Prelude(q) && Values(Flatten(p, est))[..n] == Values(Flatten(q, est))[..n]
  }

  lemma SharedKey(sha: Sha, est: Estimators, p: Payload, q: Payload, n: nat)
    requires Share(est, p, q, n)
    ensures FingerprintOf(sha, p, est, n) == FingerprintOf(sha, q, est, n)
  {
    var xs, ys := Flatten(p, est), Flatten(q, est);
    forall i | 0 <= i < n
      ensures xs[i].value == ys[i].value
    {
      assert Values(xs)[..n][i] == Values(ys)[..n][i];
    }
    EqualTexts(xs, ys, n);
    SameState(sha, Write(Prelude(p)), Texts(xs), Texts(ys), n);
  }

  /** A request that shares the blocks up to one of its breakpoints with a request committed before, for
      which they were a breakpoint too, reads at least up to there: for any hash function. */
  lemma {:induction false} SharedBlocksHit(sha: Sha, est: Estimators, ops: seq<Timed>, c: nat, r: nat, ns: nat,
                        p: Request, pp: Profile, i: nat, q: Request, qp: Profile, j: nat)
    requires c < r < |ops| && ns != 0 && ops[c].op == Commit(ns, pp) && ops[r].op == Op.Compute(ns, qp)
    requires Serves(sha, est, p, pp) && Serves(sha, est, q, qp)
    requires i < |pp.Cacheable()| && j < |qp.Cacheable()| && Length(pp, i) == Length(qp, j)
    requires Share(est, p.payload, q.payload, Length(qp, j))
    requires |qp.Cacheable()| - 1 - j <= 9 && Fresh(Readings(ops), c, r, pp.Cacheable()[i].ttl)
    ensures Run(ops, |ops|).1[r].read >= qp.TokensFor(qp.Cacheable()[j].cumulative)
    ensures j == |qp.Cacheable()| - 1 ==> Run(ops, |ops|).1[r].creation == 0
  {
    KeyIsFingerprint(sha, est, p, pp, i);
    KeyIsFingerprint(sha, est, q, qp, j);
    SharedKey(sha, est, p.payload, q.payload, Length(qp, j));
    BuiltProfile(sha, q.cfg, q.payload, est, q.inputTokens, qp);
    HitGuarantee(ops, c, r, ns, pp, i, qp, j);
  }

  lemma {:induction false} HashedWithin(sha: Sha, v: string, xs: seq<string>, n: nat, m: nat)
    requires n <= m <= |xs|
    ensures Hashed(sha, v, xs, n) <= Hashed(sha, v, xs, m)
    decreases m
  {
    if n < m {
      HashedWithin(sha, v, xs, n, m - 1);
      HashedGrows(sha, v, xs, m);
    }
  }

  // SHA-256 does not collide on anything hashed for the two payloads.
  ghost predicate Distinguishes(sha: Sha, est: Estimators, p: Payload, q: Payload) {
    CollisionFree(sha, HashedFor(sha, p, est, |Flatten(p, est)|) + HashedFor(sha, q, est, |Flatten(q, est)|))
  }

  lemma KeyMeansShared(sha: Sha, est: Estimators, p: Payload, n: nat, q: Payload, m: nat)
    requires PayloadWellFormed(p) && PayloadWellFormed(q) && Distinguishes(sha, est, p, q)
    requires 0 < n <= |Flatten(p, est)| && 0 < m <= |Flatten(q, est)|
    requires FingerprintOf(sha, p, est, n) == FingerprintOf(sha, q, est, m)
    ensures n == m && Share(est, p, q, n)
  {
    var xs, ys := Texts(Flatten(p, est)), Texts(Flatten(q, est));
    HashedWithin(sha, Write(Prelude(p)), xs, n, |xs|);
    HashedWithin(sha, Write(Prelude(q)), ys, m, |ys|);
    Narrower(sha, HashedFor(sha, p, est, n) + HashedFor(sha, q, est, m), HashedFor(sha, p, est, |xs|) + HashedFor(sha, q, est, |ys|));
    FingerprintExact(sha, p, n, q, m, est);
  }

  lemma KeysMeanShared(sha: Sha, est: Estimators, p: Request, pp: Profile, i: nat, q: Request, qp: Profile, j: nat)
    requires PayloadWellFormed(p.payload) && PayloadWellFormed(q.payload) && Distinguishes(sha, est, p.payload, q.payload)
    requires Serves(sha, est, p, pp) && Serves(sha, est, q, qp)
    requires i < |pp.Cacheable()| && j < |qp.Cacheable()| && KeyAt(pp, i) == KeyAt(qp, j)
    ensures Share(est, p.payload, q.payload, Length(qp, j)) && Length(pp, i) == Length(qp, j)
  {
    KeyIsFingerprint(sha, est, p, pp, i);
    KeyIsFingerprint(sha, est, q, qp, j);
    KeyMeansShared(sha, est, p.payload, Length(pp, i), q.payload, Length(qp, j));
  }

  /** Every profile of the run is that of a request, given by its place in the run. */
  ghost predicate RunOf(sha: Sha, est: Estimators, ops: seq<Timed>, requests: seq<Request>) {
    && |requests| == |ops|
    && forall i :: 0 <= i < |ops| && !ops[i].op.Prune? ==>
         PayloadWellFormed(requests[i].payload) && Serves(sha, est, requests[i], ops[i].op.profile)
  }

  /** The request at r reads exactly up to its breakpoint j, and shares all blocks up to there with the request
      committed at c in the same namespace. */
  ghost predicate ReadsShared(est: Estimators, ops: seq<Timed>, requests: seq<Request>, c: int, r: nat, j: int)
    requires r < |ops| == |requests| && ops[r].op.Compute?
  {
    && 0 <= c < r && ops[c].op.Commit? && ops[c].op.ns == ops[r].op.ns
    && LooksAt(ops[r].op.profile, j)
    && Share(est, requests[c].payload, requests[r].payload, Length(ops[r].op.profile, j))
    && Run(ops, |ops|).1[r].read == ops[r].op.profile.TokensFor(ops[r].op.profile.Cacheable()[j].cumulative)
  }

  /** And nothing else is ever read: tokens are read only by a request that shares its prelude and all its blocks
      up to a breakpoint with a request committed before it in the same namespace, and then up to there. */
  lemma {:induction false} ReadsOnlyShared(sha: Sha, est: Estimators, ops: seq<Timed>, requests: seq<Request>, r: nat)
    requires RunOf(sha, est, ops, requests) && r < |ops| && ops[r].op.Compute?
    requires forall c :: 0 <= c < r ==> Distinguishes(sha, est, requests[c].payload, requests[r].payload)
    requires Run(ops, |ops|).1[r].read > 0
    ensures exists c, j :: ReadsShared(est, ops, requests, c, r, j)
  {
    var c, j := ReadFrom(ops, r);
    var i := CommittedAs(ops[c], ops[r].op.ns, KeyAt(ops[r].op.profile, j));
    KeysMeanShared(sha, est, requests[c], ops[c].op.profile, i, requests[r], ops[r].op.profile, j);
    assert ReadsShared(est, ops, requests, c, r, j);
  }

  lemma CommittedAs(t: Timed, ns: nat, fp: string) returns (i: nat)
    requires Commits(t, (ns, fp))
    ensures i < |t.op.profile.Cacheable()| && KeyAt(t.op.profile, i) == fp
  {
    i :| 0 <= i < |t.op.profile.Cacheable()| && KeyAt(t.op.profile, i) == fp;
  }
}
