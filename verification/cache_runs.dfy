/** Whole runs of the prefix tracker, under any readings of the clock: what pruning hides, how long a lease
    lives, and what that guarantees to a client. */
module CacheRuns {
  import opened CacheUsage
  import opened CacheProfile
  import opened CacheTracker
  import opened Options

  /** Drives a fresh tracker through any interleaving of requests, commits and prunings, with any readings:
      it reports what the leases of the specification say. */
  method Replay(ops: seq<Timed>) returns (outs: seq<Split>)
    ensures outs == Run(ops, |ops|).1
  {
    var tracker := new Tracker();
    outs := [];
    for i := 0 to |ops|
      invariant tracker.Valid() && fresh(tracker)
      invariant (tracker.leases, outs) == Run(ops, i)
    {
      var now := ops[i].now;
      var out := NOTHING;
      match ops[i].op {
        case Compute(ns, p) => out := tracker.Compute(now, ns, p);
        case Commit(ns, p) => tracker.Update(now, ns, p);
        case Prune => tracker.PruneLocked(now);
      }
      outs := outs + [out];
    }
  }

  // ---------------------------------------------------------------- pruning

  // An operation prunes something that a later one, with an older reading, would still have found.
  ghost predicate Hides(ops: seq<Timed>, i: nat, j: nat)
    requires i < j < |ops|
  {
    !Idle(ops[i].op) && Hidden(RememberRun(ops, i).0, ops[i].now, ops[j].now)
  }

  ghost predicate HidesNothing(ops: seq<Timed>) {
    forall i, j :: 0 <= i < j < |ops| ==> !Hides(ops, i, j)
  }

  ghost predicate Ordered(ops: seq<Timed>) {
    forall i, j :: 0 <= i <= j < |ops| ==> ops[i].now <= ops[j].now
  }

  lemma ActKeeps(live: Leases, t: Timed, k: (nat, string))
    requires k in live
    ensures k in Act(live, t).0
  {
    if t.op.Commit? {
      CommitKeeps(live, t.now, t.op.ns, t.op.profile, |t.op.profile.Cacheable()|, k);
    }
  }

  // One operation on a pruned and on a complete memory that look the same at its reading.
  lemma StepAgrees(s: Leases, r: Leases, t: Timed, now: int)
    requires Drop(s, t.now) == Drop(r, t.now) && Drop(s, now) == Drop(r, now)
    requires Idle(t.op) || !Hidden(r, t.now, now)
    ensures Step(s, t).1 == Remember(r, t).1
    ensures Drop(Step(s, t).0, now) == Drop(Remember(r, t).0, now)
  {
    if !Idle(t.op) {
      var live := Drop(s, t.now);
      var after := Act(live, t).0;
      forall k | k in live
        ensures k in after
      {
        ActKeeps(live, t, k);
      }
      assert Drop(after, now) == Drop(r + after, now);
    }
  }

  lemma {:induction false} RunsAgree(ops: seq<Timed>, n: nat)
    requires n <= |ops| && HidesNothing(ops)
    ensures Run(ops, n).1 == RememberRun(ops, n).1
    ensures forall j :: n <= j < |ops| ==> Drop(Run(ops, n).0, ops[j].now) == Drop(RememberRun(ops, n).0, ops[j].now)
  {
    if n > 0 {
      RunsAgree(ops, n - 1);
      var s, r, t := Run(ops, n - 1).0, RememberRun(ops, n - 1).0, ops[n - 1];
      forall j | n <= j < |ops|
        ensures Drop(Run(ops, n).0, ops[j].now) == Drop(RememberRun(ops, n).0, ops[j].now)
      {
        assert !Hides(ops, n - 1, j);
        StepAgrees(s, r, t, ops[j].now);
      }
      OutputAgrees(s, r, t);
    }
  }

  lemma OutputAgrees(s: Leases, r: Leases, t: Timed)
    requires Drop(s, t.now) == Drop(r, t.now)
    ensures Step(s, t).1 == Remember(r, t).1
  {
  }

  /** Pruning is never observable in a run that hides nothing, and no run whose readings come in the order
      of its operations hides anything. */
  lemma {:induction false} PruningUnobservable(ops: seq<Timed>)
    ensures HidesNothing(ops) ==> Run(ops, |ops|).1 == RememberRun(ops, |ops|).1
    ensures Ordered(ops) ==> HidesNothing(ops)
  {
    if HidesNothing(ops) {
      RunsAgree(ops, |ops|);
    }
  }

  // ---------------------------------------------------------------- the life of a lease

  function Readings(ops: seq<Timed>): seq<int> {
    seq(|ops|, i requires 0 <= i < |ops| => ops[i].now)
  }

  // The lease under k is kept, for at least as long and with at least the same TTL.
  ghost predicate Extends(s: Leases, t: Leases, k: (nat, string)) {
    k in s ==> k in t && t[k].ttl >= s[k].ttl && t[k].expiresAt >= s[k].expiresAt
  }

  lemma {:induction false} CommitKeeps(s: Leases, now: int, ns: nat, p: Profile, n: nat, k: (nat, string))
    requires n <= |p.Cacheable()|
    ensures Extends(s, CommitLive(s, now, ns, p, n), k)
  {
    if n > 0 {
      CommitKeeps(s, now, ns, p, n - 1, k);
    }
  }

  // The operation reads the prefix k.
  ghost predicate Hits(s: Leases, t: Timed, k: (nat, string)) {
    && t.op.Compute? && !Idle(t.op)
    && var m := MatchOf(Drop(s, t.now), t.op.ns, t.op.profile);
       m.Some? && k == (t.op.ns, KeyAt(t.op.profile, m.value))
  }

  /** No operation takes away a lease that is live at its reading, or lowers its TTL. It shortens its life in
      exactly one case: it hits it, with a reading from more than a TTL before its expiry. */
  lemma LifeShortens(s: Leases, t: Timed, k: (nat, string))
    requires k in s && t.now < s[k].expiresAt
    ensures var after := Step(s, t).0;
            && k in after && after[k].ttl >= s[k].ttl
            && (after[k].expiresAt < s[k].expiresAt <==> Hits(s, t, k) && t.now + s[k].ttl < s[k].expiresAt)
  {
    var live := Drop(s, t.now);
    if t.op.Commit? && !Idle(t.op) {
      CommitKeeps(live, t.now, t.op.ns, t.op.profile, |t.op.profile.Cacheable()|, k);
    }
  }

  /** The lease under k lasts: its TTL is at least `life`, and it expires no sooner than that after one of the
      readings c to n - 1. */
  ghost predicate Lasts(s: Leases, k: (nat, string), ts: seq<int>, c: nat, n: nat, life: int)
    requires n <= |ts|
  {
    k in s && s[k].ttl >= life && exists i :: c <= i < n && s[k].expiresAt >= ts[i] + life
  }

  // One more operation, with a reading less than `life` after every one since the commit.
  lemma StepLasts(ops: seq<Timed>, c: nat, n: nat, k: (nat, string), life: int)
    requires c < n < |ops| && Lasts(Run(ops, n).0, k, Readings(ops), c, n, life)
    requires forall i :: c <= i < n ==> Readings(ops)[n] < Readings(ops)[i] + life
    ensures Lasts(Run(ops, n + 1).0, k, Readings(ops), c, n + 1, life)
  {
    var s, ts := Run(ops, n).0, Readings(ops);
    var i :| c <= i < n && s[k].expiresAt >= ts[i] + life;
    assert Run(ops, n + 1).0 == Step(s, ops[n]).0;
    LifeShortens(s, ops[n], k);
    if Hits(s, ops[n], k) {
      HitRestarts(s, ops[n], k);
      assert Step(s, ops[n]).0[k].expiresAt >= ts[n] + life;
    }
  }

  /** A lease lives through any stretch in which no reading is `life` or more after one that acted before it. */
  lemma {:induction false} LeaseSurvives(ops: seq<Timed>, c: nat, m: nat, n: nat, k: (nat, string), life: int)
    requires c < m <= n <= |ops| && Lasts(Run(ops, m).0, k, Readings(ops), c, m, life)
    requires forall i, j :: c <= i < j < n ==> Readings(ops)[j] < Readings(ops)[i] + life
    ensures Lasts(Run(ops, n).0, k, Readings(ops), c, n, life)
    decreases n
  {
    if m < n {
      LeaseSurvives(ops, c, m, n - 1, k, life);
      StepLasts(ops, c, n - 1, k, life);
    }
  }

  lemma HitRestarts(s: Leases, t: Timed, k: (nat, string))
    requires k in s && Hits(s, t, k)
    ensures k in Step(s, t).0 && Step(s, t).0[k] == Lease(s[k].ttl, t.now + s[k].ttl)
  {
  }

  lemma {:induction false} CommitLeases(s: Leases, now: int, ns: nat, p: Profile, n: nat, i: nat)
    requires i < n <= |p.Cacheable()|
    ensures var t := CommitLive(s, now, ns, p, n);
            var k, ttl := (ns, KeyAt(p, i)), p.Cacheable()[i].ttl;
            k in t && t[k].ttl >= ttl && t[k].expiresAt >= now + ttl
  {
    if i < n - 1 {
      CommitLeases(s, now, ns, p, n - 1, i);
    }
  }

  // The i-th of the first n cacheable breakpoints has that key.
  ghost predicate Offers(p: Profile, n: nat, i: int, fp: string)
    requires n <= |p.Cacheable()|
  {
    0 <= i < n && KeyAt(p, i) == fp
  }

  // Some of them has.
  ghost predicate Offered(p: Profile, n: nat, fp: string)
    requires n <= |p.Cacheable()|
  {
    exists i :: Offers(p, n, i, fp)
  }

  /** Each of TTL and expiry is the greatest of the live lease's and of those the commit's breakpoints ask for. */
  ghost predicate Greatest(s: Leases, t: Leases, now: int, ns: nat, p: Profile, n: nat, fp: string)
    requires n <= |p.Cacheable()|
  {
    var k := (ns, fp);
    && k in t
    && (k in s ==> t[k].ttl >= s[k].ttl && t[k].expiresAt >= s[k].expiresAt)
    && (forall i :: Offers(p, n, i, fp) ==> t[k].ttl >= p.Cacheable()[i].ttl && t[k].expiresAt >= now + p.Cacheable()[i].ttl)
    && ((k in s && t[k].ttl == s[k].ttl) || exists i :: Offers(p, n, i, fp) && t[k].ttl == p.Cacheable()[i].ttl)
    && ((k in s && t[k].expiresAt == s[k].expiresAt)
        || exists i :: Offers(p, n, i, fp) && t[k].expiresAt == now + p.Cacheable()[i].ttl)
  }

  /** What a commit makes of the live leases: each cacheable prefix is leased for the longest that was asked for
      it, and no other lease changes. */
  lemma {:induction false} CommitExact(s: Leases, now: int, ns: nat, p: Profile, n: nat, k: (nat, string))
    requires n <= |p.Cacheable()|
    ensures var t := CommitLive(s, now, ns, p, n);
            if k.0 == ns && Offered(p, n, k.1) then Greatest(s, t, now, ns, p, n, k.1) else SameAt(s, t, k)
  {
    if n > 0 {
      CommitExact(s, now, ns, p, n - 1, k);
      var t, u := CommitLive(s, now, ns, p, n - 1), CommitLive(s, now, ns, p, n);
      if k == (ns, KeyAt(p, n - 1)) {
        MoreGreatest(s, t, u, now, ns, p, n, k.1);
      } else if k.0 == ns {
        OfferedMore(p, n, k.1);
        assert SameAt(t, u, k);
        if Offered(p, n, k.1) {
          StillGreatest(s, t, u, now, ns, p, n, k.1);
        }
      }
    }
  }

  ghost predicate SameAt(s: Leases, t: Leases, k: (nat, string)) {
    (k in t <==> k in s) && (k in s ==> t[k] == s[k])
  }

  lemma OfferedMore(p: Profile, n: nat, fp: string)
    requires 0 < n <= |p.Cacheable()|
    ensures forall i :: Offers(p, n, i, fp) <==> Offers(p, n - 1, i, fp) || (i == n - 1 && KeyAt(p, n - 1) == fp)
    ensures Offered(p, n, fp) <==> Offered(p, n - 1, fp) || KeyAt(p, n - 1) == fp
  {
    if Offered(p, n - 1, fp) {
      var i :| Offers(p, n - 1, i, fp);
      assert Offers(p, n, i, fp);
    }
    if KeyAt(p, n - 1) == fp {
      assert Offers(p, n, n - 1, fp);
    }
  }

  // A breakpoint under another key.
  lemma StillGreatest(s: Leases, t: Leases, u: Leases, now: int, ns: nat, p: Profile, n: nat, fp: string)
    requires 0 < n <= |p.Cacheable()| && KeyAt(p, n - 1) != fp && SameAt(t, u, (ns, fp))
    requires Greatest(s, t, now, ns, p, n - 1, fp)
    ensures Greatest(s, u, now, ns, p, n, fp)
  {
    OfferedMore(p, n, fp);
  }

  // One more breakpoint under the key.
  lemma MoreGreatest(s: Leases, t: Leases, u: Leases, now: int, ns: nat, p: Profile, n: nat, fp: string)
    requires 0 < n <= |p.Cacheable()| && KeyAt(p, n - 1) == fp
    requires u == Leased(t, (ns, fp), p.Cacheable()[n - 1].ttl, now)
    requires if Offered(p, n - 1, fp) then Greatest(s, t, now, ns, p, n - 1, fp) else SameAt(s, t, (ns, fp))
    ensures Offered(p, n, fp) && Greatest(s, u, now, ns, p, n, fp)
  {
    OfferedMore(p, n, fp);
    assert Offers(p, n, n - 1, fp);
  }

  lemma {:induction false} OutputAt(ops: seq<Timed>, n: nat, r: nat)
    requires r < n <= |ops|
    ensures Run(ops, n).1[r] == Step(Run(ops, r).0, ops[r]).1
  {
    if r < n - 1 {
      OutputAt(ops, n - 1, r);
    }
  }

  // ---------------------------------------------------------------- what a client gets

  /** From a commit up to a request, no reading is `life` or more after one that acted before it. */
  ghost predicate Fresh(ts: seq<int>, c: nat, r: nat, life: int)
    requires c < r < |ts|
  {
    forall i, j :: c <= i < j <= r ==> ts[j] < ts[i] + life
  }

  /** With readings in the order of the operations, that is the plain TTL. */
  lemma OrderedFresh(ops: seq<Timed>, c: nat, r: nat, life: int)
    requires Ordered(ops) && c < r < |ops|
    ensures Fresh(Readings(ops), c, r, life) <==> ops[r].now < ops[c].now + life
  {
    var ts := Readings(ops);
    assert ts[c] == ops[c].now && ts[r] == ops[r].now;
    forall i, j | c <= i < j <= r && ts[r] < ts[c] + life
      ensures ts[j] < ts[i] + life
    {
      assert ops[c].now <= ops[i].now && ops[j].now <= ops[r].now;
    }
  }

  lemma {:induction false} StillLeased(ops: seq<Timed>, c: nat, r: nat, ns: nat, p: Profile, i: nat)
    requires c < r < |ops| && ns != 0 && ops[c].op == Commit(ns, p) && i < |p.Cacheable()|
    requires Fresh(Readings(ops), c, r, p.Cacheable()[i].ttl)
    ensures (ns, KeyAt(p, i)) in Drop(Run(ops, r).0, ops[r].now)
  {
    var key, life, ts := (ns, KeyAt(p, i)), p.Cacheable()[i].ttl, Readings(ops);
    CommitLeases(Drop(Run(ops, c).0, ops[c].now), ops[c].now, ns, p, |p.Cacheable()|, i);
    assert Run(ops, c + 1).0 == Step(Run(ops, c).0, ops[c]).0;
    assert Run(ops, c + 1).0[key].expiresAt >= ts[c] + life;
    LeaseSurvives(ops, c, c + 1, r, key, life);
    var k :| c <= k < r && Run(ops, r).0[key].expiresAt >= ts[k] + life;
    assert ts[r] < ts[k] + life;
  }

  /** Hit guarantee: once a prefix is committed, any later request in the same namespace that shares the
      prefix, with at most nine cacheable breakpoints to the right of it, reads at least that prefix, whatever
      happened in between; if no reading is the prefix's TTL or more after one that acted before it. */
  lemma {:induction false} HitGuarantee(ops: seq<Timed>, c: nat, r: nat, ns: nat, p: Profile, i: nat, q: Profile, j: nat)
    requires c < r < |ops| && ns != 0 && q.Valid()
    requires ops[c].op == Commit(ns, p) && ops[r].op == Op.Compute(ns, q)
    requires i < |p.Cacheable()| && j < |q.Cacheable()| && KeyAt(p, i) == KeyAt(q, j)
    requires |q.Cacheable()| - 1 - j <= 9
    requires Fresh(Readings(ops), c, r, p.Cacheable()[i].ttl)
    ensures Run(ops, |ops|).1[r].read >= q.TokensFor(q.Cacheable()[j].cumulative)
    ensures j == |q.Cacheable()| - 1 ==> Run(ops, |ops|).1[r].creation == 0
  {
    StillLeased(ops, c, r, ns, p, i);
    OutputAt(ops, |ops|, r);
    ReadAtLeast(Drop(Run(ops, r).0, ops[r].now), ops[r].now, ns, q, j);
  }

  // A leased breakpoint within the lookback is read at least up to there.
  lemma ReadAtLeast(live: Leases, now: int, ns: nat, q: Profile, j: nat)
    requires q.Valid() && j < |q.Cacheable()| && |q.Cacheable()| - 1 - j <= 9
    requires (ns, KeyAt(q, j)) in live
    ensures ReadLive(live, now, ns, q).1.read >= q.TokensFor(q.Cacheable()[j].cumulative)
    ensures j == |q.Cacheable()| - 1 ==> ReadLive(live, now, ns, q).1.creation == 0
  {
    var m := MatchOf(live, ns, q);
    assert m.Some? && j <= m.value;
    CacheableOrdered(q, |q.breakpoints|, j, m.value);
    TokensForMonotone(q, q.Cacheable()[j].cumulative, q.Cacheable()[m.value].cumulative);
  }

  /** Replaying a committed request within the TTL of its last breakpoint creates nothing and reads
      the whole cacheable prefix. */
  lemma {:induction false} ReplayReadsAll(ops: seq<Timed>, c: nat, r: nat, ns: nat, p: Profile)
    requires c < r < |ops| && ns != 0 && p.Valid() && p.LastCacheable().Some?
    requires ops[c].op == Commit(ns, p) && ops[r].op == Op.Compute(ns, p)
    requires Fresh(Readings(ops), c, r, p.LastCacheable().value.ttl)
    ensures var out := Run(ops, |ops|).1[r];
            out.creation == 0 && out.read == p.TokensFor(p.LastCacheable().value.cumulative)
  {
    var n := |p.Cacheable()|;
    HitGuarantee(ops, c, r, ns, p, n - 1, p, n - 1);
    OutputAt(ops, |ops|, r);
    var m := MatchOf(Drop(Run(ops, r).0, ops[r].now), ns, p);
    if m.Some? {
      CacheableOrdered(p, |p.breakpoints|, m.value, n - 1);
      TokensForMonotone(p, p.Cacheable()[m.value].cumulative, p.Cacheable()[n - 1].cumulative);
    }
  }

  // The operation commits the prefix k.
  ghost predicate Commits(t: Timed, k: (nat, string)) {
    t.op.Commit? && t.op.ns == k.0 && exists i :: 0 <= i < |t.op.profile.Cacheable()| && KeyAt(t.op.profile, i) == k.1
  }

  lemma {:induction false} CommitAddsOnly(s: Leases, now: int, ns: nat, p: Profile, n: nat, k: (nat, string))
    requires n <= |p.Cacheable()| && k in CommitLive(s, now, ns, p, n) && k !in s
    ensures Commits(Timed(now, Commit(ns, p)), k)
  {
    if n > 0 {
      if k == (ns, KeyAt(p, n - 1)) {
        assert KeyAt(p, n - 1) == k.1;
      } else {
        CommitAddsOnly(s, now, ns, p, n - 1, k);
      }
    }
  }

  /** Nothing is ever leased, and so nothing ever read, that was not committed before in the same
      namespace. */
  lemma {:induction false} OnlyCommitted(ops: seq<Timed>, n: nat, k: (nat, string))
    requires n <= |ops| && k in Run(ops, n).0
    ensures exists c :: 0 <= c < n && Commits(ops[c], k)
  {
    var before, t := Run(ops, n - 1).0, ops[n - 1];
    if k in before {
      OnlyCommitted(ops, n - 1, k);
    } else {
      CommitAddsOnly(Drop(before, t.now), t.now, t.op.ns, t.op.profile, |t.op.profile.Cacheable()|, k);
      assert Commits(ops[n - 1], k);
    }
  }

  /** A request reads tokens only by a prefix it shares with an earlier commit: all up to there, and no more. */
  lemma {:induction false} ReadsOnlyCommitted(ops: seq<Timed>, r: nat)
    requires r < |ops| && ops[r].op.Compute? && Run(ops, |ops|).1[r].read > 0
    ensures exists c, j :: 0 <= c < r && LooksAt(ops[r].op.profile, j)
              && Commits(ops[c], (ops[r].op.ns, KeyAt(ops[r].op.profile, j)))
              && Run(ops, |ops|).1[r].read == ops[r].op.profile.TokensFor(ops[r].op.profile.Cacheable()[j].cumulative)
  {
    var c, j := ReadFrom(ops, r);
  }

  lemma ReadFrom(ops: seq<Timed>, r: nat) returns (c: nat, j: nat)
    requires r < |ops| && ops[r].op.Compute? && Run(ops, |ops|).1[r].read > 0
    ensures c < r && LooksAt(ops[r].op.profile, j)
    ensures Commits(ops[c], (ops[r].op.ns, KeyAt(ops[r].op.profile, j)))
    ensures Run(ops, |ops|).1[r].read == ops[r].op.profile.TokensFor(ops[r].op.profile.Cacheable()[j].cumulative)
  {
    var p, ns := ops[r].op.profile, ops[r].op.ns;
    OutputAt(ops, |ops|, r);
    j := MatchOf(Drop(Run(ops, r).0, ops[r].now), ns, p).value;
    OnlyCommitted(ops, r, (ns, KeyAt(p, j)));
    c :| 0 <= c < r && Commits(ops[c], (ns, KeyAt(p, j)));
  }

  /** What any request of any run reports: read or created, everything up to its last breakpoint, the creation
      under that breakpoint's TTL; and which leases that takes, and leaves. */
  lemma {:induction false} RequestAccounts(ops: seq<Timed>, r: nat)
    requires r < |ops| && ops[r].op.Compute?
    ensures var ns, p := ops[r].op.ns, ops[r].op.profile;
            var before, after, out := Run(ops, r).0, Run(ops, r + 1).0, Run(ops, |ops|).1[r];
            if ns == 0 || p.LastCacheable().None? then after == before && out == Split(0, 0, 0, 0, 0)
            else Looks(Drop(before, ops[r].now), ops[r].now, ns, p, after, out)
  {
    OutputAt(ops, |ops|, r);
    if ops[r].op.ns != 0 && ops[r].op.profile.LastCacheable().Some? {
      Looked(Drop(Run(ops, r).0, ops[r].now), ops[r].now, ops[r].op.ns, ops[r].op.profile);
    }
  }

  // ---------------------------------------------------------------- which readings are safe

  // A commit and a request in one namespace with a prefix in common, the i-th of one and j-th of the other.
  datatype Pair = Pair(ns: nat, p: Profile, i: nat, q: Profile, j: nat)

  /** The request at r repeats a prefix committed at c for `life`, within the lookback. */
  ghost predicate Repeats(ops: seq<Timed>, c: nat, r: nat, life: int, x: Pair) {
    && c < r < |ops| && x.ns != 0 && x.q.Valid()
    && ops[c].op == Commit(x.ns, x.p) && ops[r].op == Op.Compute(x.ns, x.q)
    && x.i < |x.p.Cacheable()| && x.j < |x.q.Cacheable()| && KeyAt(x.p, x.i) == KeyAt(x.q, x.j)
    && |x.q.Cacheable()| - 1 - x.j <= 9 && x.p.Cacheable()[x.i].ttl == life
  }

  // The request reads at least the prefix repeated.
  ghost predicate ReadsIt(ops: seq<Timed>, r: nat, x: Pair) {
    && r < |ops| && x.j < |x.q.Cacheable()|
    && Run(ops, |ops|).1[r].read >= x.q.TokensFor(x.q.Cacheable()[x.j].cumulative)
  }

  /** Exactly which readings guarantee the hit: those of which none is the TTL or more after one that acted
      before it. Given any others, there is a run with these very readings whose request misses. */
  lemma SafeReadings(ts: seq<int>, c: nat, r: nat, life: int)
    requires c < r < |ts|
    ensures Fresh(ts, c, r, life) <==>
            forall ops, x :: Readings(ops) == ts && Repeats(ops, c, r, life, x) ==> ReadsIt(ops, r, x)
  {
    if Fresh(ts, c, r, life) {
      forall ops, x | Readings(ops) == ts && Repeats(ops, c, r, life, x)
        ensures ReadsIt(ops, r, x)
      {
        HitGuarantee(ops, c, r, x.ns, x.p, x.i, x.q, x.j);
      }
    } else {
      var i, j :| c <= i < j <= r && ts[j] >= ts[i] + life;
      MissingRun(ts, c, r, i, j, life);
      var ops, x := Stale(ts, c, r, i, j, life), Pair(1, One(life), 0, One(life), 0);
      OneBreakpoint(life);
      assert Readings(ops) == ts;
      assert Repeats(ops, c, r, life, x) && !ReadsIt(ops, r, x);
    }
  }

  // One cacheable block.
  function One(ttl: int): Profile {
    Profile(8, 0, false, [Block("fp", 8)], [Breakpoint(0, ttl)])
  }

  const FP := (1, "fp")

  lemma OneBreakpoint(ttl: int)
    ensures One(ttl).Cacheable() == [Resolved(0, 8, ttl)] && KeyAt(One(ttl), 0) == "fp"
    ensures One(ttl).LastCacheable() == Some(Resolved(0, 8, ttl)) && One(ttl).TokensFor(8) == 8 && One(ttl).Valid()
  {
    assert One(ttl).CacheableUpTo(0) == [];
  }

  lemma CommitOne(s: Leases, now: int, ttl: int)
    requires s == map[]
    ensures Step(s, Timed(now, Commit(1, One(ttl)))).0 == map[FP := Lease(ttl, now + ttl)]
  {
    OneBreakpoint(ttl);
    assert Drop(s, now) == map[];
    assert CommitLive(map[], now, 1, One(ttl), 0) == map[];
  }

  lemma ReadOne(s: Leases, now: int, ttl: int)
    ensures var live, after := Drop(s, now), Step(s, Timed(now, Op.Compute(1, One(ttl))));
            if FP in live then after.0 == Refreshed(live, FP, now) && after.1.read == 8
            else after.0 == live && after.1.read == 0
  {
    OneBreakpoint(ttl);
    var live := Drop(s, now);
    assert Rightmost(live, 1, One(ttl), 0, 0).None?;
    assert MatchOf(live, 1, One(ttl)) == if FP in live then Some(0) else None;
  }

  // Commit at c, a hit at i, a pruning at j, the request at r; nothing else touches the table.
  function PartAt(n: nat, c: nat, r: nat, i: nat, j: nat, life: int): Op {
    if n == c then Commit(1, One(life))
    else if n == r || n == i then Op.Compute(1, One(life))
    else if n == j then Prune
    else Op.Compute(0, One(life))
  }

  function Stale(ts: seq<int>, c: nat, r: nat, i: nat, j: nat, life: int): (ops: seq<Timed>)
    ensures |ops| == |ts| && forall n :: 0 <= n < |ts| ==> ops[n] == Timed(ts[n], PartAt(n, c, r, i, j, life))
  {
    seq(|ts|, n requires 0 <= n < |ts| => Timed(ts[n], PartAt(n, c, r, i, j, life)))
  }

  // From i on the lease expires no later than a TTL after that reading; behind j it is gone.
  lemma {:induction false} StaleLease(ts: seq<int>, c: nat, r: nat, i: nat, j: nat, life: int, n: nat)
    requires c <= i < j <= r < |ts| && n <= r && ts[j] >= ts[i] + life
    ensures var s := Run(Stale(ts, c, r, i, j, life), n).0;
            && s.Keys <= {FP} && (n <= c || n > j ==> s == map[])
            && (FP in s ==> s[FP] == Lease(life, ts[if n <= i then c else i] + life))
  {
    var ops := Stale(ts, c, r, i, j, life);
    if n > 0 {
      StaleLease(ts, c, r, i, j, life, n - 1);
      var s, now := Run(ops, n - 1).0, ts[n - 1];
      if n - 1 == c {
        CommitOne(s, now, life);
      } else if n - 1 == i {
        ReadOne(s, now, life);
      } else if n - 1 == j {
        assert Step(s, ops[j]).0 == Drop(s, now) == map[];
      } else {
        assert Idle(ops[n - 1].op);
      }
    }
  }

  lemma {:induction false} MissingRun(ts: seq<int>, c: nat, r: nat, i: nat, j: nat, life: int)
    requires c <= i < j <= r < |ts| && ts[j] >= ts[i] + life
    ensures Run(Stale(ts, c, r, i, j, life), |ts|).1[r].read == 0
  {
    var ops := Stale(ts, c, r, i, j, life);
    StaleLease(ts, c, r, i, j, life, r);
    assert FP !in Drop(Run(ops, r).0, ts[r]);
    ReadOne(Run(ops, r).0, ts[r], life);
    OutputAt(ops, |ts|, r);
  }

  /** The commit's TTL alone guarantees nothing: committed at 2 for 5, a hit whose reading is 1 moves the
      expiry from 7 to 6, and a request at 6 reads nothing. */
  lemma OlderHitShortens()
    ensures var ops := [Timed(2, Commit(1, One(5))), Timed(1, Op.Compute(1, One(5))), Timed(6, Op.Compute(1, One(5)))];
            Run(ops, 3).1[1].read == 8 && Run(ops, 3).1[2].read == 0
  {
    var ops := [Timed(2, Commit(1, One(5))), Timed(1, Op.Compute(1, One(5))), Timed(6, Op.Compute(1, One(5)))];
    CommitOne(map[], 2, 5);
    assert Run(ops, 1).0 == map[FP := Lease(5, 7)];
    ReadOne(Run(ops, 1).0, 1, 5);
    assert Drop(Run(ops, 1).0, 1) == Run(ops, 1).0;
    assert Run(ops, 2).0 == map[FP := Lease(5, 6)];
    ReadOne(Run(ops, 2).0, 6, 5);
    OutputAt(ops, 3, 1);
    OutputAt(ops, 3, 2);
  }

  /** Nor does a late reading leave an older one alone: pruned at 7, the lease is gone for a request at 3. */
  lemma PruningObserved()
    ensures var ops := [Timed(2, Commit(1, One(5))), Timed(7, Prune), Timed(3, Op.Compute(1, One(5)))];
            Run(ops, 3).1[2].read == 0 && RememberRun(ops, 3).1[2].read == 8
  {
    var ops := [Timed(2, Commit(1, One(5))), Timed(7, Prune), Timed(3, Op.Compute(1, One(5)))];
    var s := map[FP := Lease(5, 7)];
    CommitOne(map[], 2, 5);
    assert Run(ops, 1).0 == s;
    assert Drop(s, 7).Keys == {};
    assert Run(ops, 2).0 == map[];
    ReadOne(Run(ops, 2).0, 3, 5);
    OutputAt(ops, 3, 2);
    assert RememberRun(ops, 0).0 == map[];
    assert RememberRun(ops, 1).0 == map[] + s == s;
    assert RememberRun(ops, 2).0 == s + map[] == s;
    ReadOne(s, 3, 5);
    assert Drop(s, 3) == s;
  }
}
