/** The prefix tracker (internal/emulation/cache.go): per namespace, which prefixes were committed and
    until when they count as cached. An operation reads the clock before it takes the lock, so readings
    need not come in the order of the operations. Times are nanoseconds. */
module CacheTracker {
  import opened CacheUsage
  import opened CacheBlocks
  import opened CacheProfile
  import opened Numbers
  import opened Options

  const LOOKBACK := 10

  datatype Entry = Entry(tokens: nat, ttl: int, expiresAt: int)
  type Table = map<nat, map<string, Entry>>

  // ---------------------------------------------------------------- the specification

  datatype Lease = Lease(ttl: int, expiresAt: int)
  type Leases = map<(nat, string), Lease>

  /** What is left of the leases at time `now`. */
  ghost function Drop(s: Leases, now: int): Leases {
    map k | k in s && s[k].expiresAt > now :: s[k]
  }

  // The fingerprint of the i-th cacheable breakpoint.
  function KeyAt(p: Profile, i: nat): string
    requires i < |p.Cacheable()|
  {
    p.blocks[p.Cacheable()[i].index].fingerprint
  }

  /** The rightmost leased breakpoint in [lo, hi). */
  ghost function Rightmost(s: Leases, ns: nat, p: Profile, lo: nat, hi: nat): (r: Option<nat>)
    requires lo <= hi <= |p.Cacheable()|
    ensures r.Some? ==> lo <= r.value < hi && (ns, KeyAt(p, r.value)) in s
    ensures r.Some? ==> forall i :: r.value < i < hi ==> (ns, KeyAt(p, i)) !in s
    ensures r.None? ==> forall i :: lo <= i < hi ==> (ns, KeyAt(p, i)) !in s
  {
    if lo == hi then None
    else if (ns, KeyAt(p, hi - 1)) in s then Some(hi - 1)
    else Rightmost(s, ns, p, lo, hi - 1)
  }

  // Only the last ten cacheable breakpoints are looked at.
  ghost function MatchOf(s: Leases, ns: nat, p: Profile): Option<nat> {
    var n := |p.Cacheable()|;
    Rightmost(s, ns, p, Max(n - LOOKBACK, 0), n)
  }

  // Read what matched, create the rest under the TTL of the last breakpoint.
  function Charge(lastTokens: int, matched: int, ttl: int): Split {
    var creation := Max(lastTokens - matched, 0);
    Split(0, Max(matched, 0), creation, if ttl >= HOUR then 0 else creation, if ttl >= HOUR then creation else 0)
  }

  lemma Looked(live: Leases, now: int, ns: nat, p: Profile)
    requires p.LastCacheable().Some?
    ensures Looks(live, now, ns, p, ReadLive(live, now, ns, p).0, ReadLive(live, now, ns, p).1)
  {
    var (after, out) := ReadLive(live, now, ns, p);
    var m := MatchOf(live, ns, p);
    var n := |p.Cacheable()|;
    if m.Some? {
      assert ReadsAt(live, now, ns, p, m.value, after, out);
      if p.Valid() {
        CacheableOrdered(p, |p.breakpoints|, m.value, n - 1);
        TokensForMonotone(p, p.Cacheable()[m.value].cumulative, p.Cacheable()[n - 1].cumulative);
      }
    }
  }

  datatype Op = Compute(ns: nat, profile: Profile) | Commit(ns: nat, profile: Profile) | Prune
  datatype Timed = Timed(now: int, op: Op)

  const NOTHING := Split(0, 0, 0, 0, 0)

  ghost function Refreshed(s: Leases, key: (nat, string), now: int): Leases
    requires key in s
  {
    s[key := Lease(s[key].ttl, now + s[key].ttl)]
  }

  // The operation leaves before it touches the table.
  predicate Idle(op: Op) {
    match op
    case Compute(ns, p) => ns == 0 || p.LastCacheable().None?
    case Commit(ns, _) => ns == 0
    case Prune => false
  }

  // The last ten breakpoints are looked at.
  predicate LooksAt(p: Profile, j: int) {
    0 <= j < |p.Cacheable()| <= j + 10
  }

  /** The prefix up to breakpoint j is read and its lease starts over; none of the longer ones is leased. */
  ghost predicate ReadsAt(live: Leases, now: int, ns: nat, p: Profile, j: int, after: Leases, out: Split) {
    && LooksAt(p, j) && (ns, KeyAt(p, j)) in live
    && (forall i :: j < i < |p.Cacheable()| ==> (ns, KeyAt(p, i)) !in live)
    && out.read == p.TokensFor(p.Cacheable()[j].cumulative)
    && var ttl := live[(ns, KeyAt(p, j))].ttl; after == live[(ns, KeyAt(p, j)) := Lease(ttl, now + ttl)]
  }

  ghost predicate ReadsNothing(live: Leases, ns: nat, p: Profile, after: Leases, out: Split) {
    && (forall j :: LooksAt(p, j) ==> (ns, KeyAt(p, j)) !in live)
    && out.read == 0 && after == live
  }

  /** Everything up to the last breakpoint is read or created, the creation under that breakpoint's TTL: an hour
      or less. */
  ghost predicate Accounts(p: Profile, out: Split) {
    && p.LastCacheable().Some?
    && var last := p.LastCacheable().value;
       && out.input == 0 && out.read >= 0 && out.creation >= 0
       && (p.Valid() ==> out.read + out.creation == p.TokensFor(last.cumulative))
       && (last.ttl < 3_600_000_000_000 ==> out.creation5m == out.creation && out.creation1h == 0)
       && (last.ttl >= 3_600_000_000_000 ==> out.creation5m == 0 && out.creation1h == out.creation)
  }

  /** What a lookup makes of the live leases and what it reports, said by what is leased. */
  ghost predicate Looks(live: Leases, now: int, ns: nat, p: Profile, after: Leases, out: Split) {
    && Accounts(p, out)
    && (ReadsNothing(live, ns, p, after, out) || exists j :: ReadsAt(live, now, ns, p, j, after, out))
  }

  /** The rightmost match restarts its lease; it is read, the rest of the cacheable prefix created. */
  ghost function ReadLive(live: Leases, now: int, ns: nat, p: Profile): (Leases, Split) {
    if p.LastCacheable().None? then (live, NOTHING)
    else
      var m := MatchOf(live, ns, p);
      (if m.Some? then Refreshed(live, (ns, KeyAt(p, m.value)), now) else live,
       Charge(p.TokensFor(p.LastCacheable().value.cumulative), MatchedTokens(p, m), p.LastCacheable().value.ttl))
  }

  function MatchedTokens(p: Profile, m: Option<nat>): nat
    requires m.Some? ==> m.value < |p.Cacheable()|
  {
    if m.Some? then p.TokensFor(p.Cacheable()[m.value].cumulative) else 0
  }

  function Renewed(lease: Lease, ttl: int, now: int): Lease {
    Lease(Max(lease.ttl, ttl), Max(lease.expiresAt, now + ttl))
  }

  /** Leases the first n cacheable breakpoints. */
  ghost function CommitLive(live: Leases, now: int, ns: nat, p: Profile, n: nat): Leases
    requires n <= |p.Cacheable()|
  {
    if n == 0 then live
    else
      var before := CommitLive(live, now, ns, p, n - 1);
      Leased(before, (ns, KeyAt(p, n - 1)), p.Cacheable()[n - 1].ttl, now)
  }

  // What an operation makes of the leases that are live at its reading, and what it reports.
  ghost function Act(live: Leases, t: Timed): (Leases, Split) {
    match t.op
    case Compute(ns, p) => ReadLive(live, t.now, ns, p)
    case Commit(ns, p) => (CommitLive(live, t.now, ns, p, |p.Cacheable()|), NOTHING)
    case Prune => (live, NOTHING)
  }

  /** One operation: whatever has expired by its reading is gone, the rest it acts on. */
  ghost function Step(s: Leases, t: Timed): (Leases, Split) {
    if Idle(t.op) then (s, NOTHING) else Act(Drop(s, t.now), t)
  }

  /** The leases after a run, and the splits it reported. */
  ghost function Run(ops: seq<Timed>, n: nat): (Leases, seq<Split>)
    requires n <= |ops|
    ensures |Run(ops, n).1| == n
  {
    if n == 0 then (map[], [])
    else
      var before := Run(ops, n - 1);
      var step := Step(before.0, ops[n - 1]);
      (step.0, before.1 + [step.1])
  }

  /** The same operation where nothing is ever pruned: an expired lease is only skipped. */
  ghost function Remember(s: Leases, t: Timed): (Leases, Split) {
    if Idle(t.op) then (s, NOTHING)
    else
      var r := Act(Drop(s, t.now), t);
      (s + r.0, r.1)
  }

  ghost function RememberRun(ops: seq<Timed>, n: nat): (Leases, seq<Split>)
    requires n <= |ops|
    ensures |RememberRun(ops, n).1| == n
  {
    if n == 0 then (map[], [])
    else
      var before := RememberRun(ops, n - 1);
      var step := Remember(before.0, ops[n - 1]);
      (step.0, before.1 + [step.1])
  }

  // ---------------------------------------------------------------- the tracker

  // The leases are exactly what the table holds, expired or not.
  ghost predicate Holds(e: Table, s: Leases) {
    && (forall ns, fp :: ns in e && fp in e[ns] ==>
          (ns, fp) in s && s[(ns, fp)] == Lease(e[ns][fp].ttl, e[ns][fp].expiresAt))
    && (forall k :: k in s ==> k.0 in e && k.1 in e[k.0])
  }

  // Some lease live at `now` has expired by `earlier`, the reading of a pruning.
  ghost predicate Hidden(s: Leases, earlier: int, now: int) {
    exists k :: k in s && now < s[k].expiresAt <= earlier
  }

  /** A pruning at one reading can be seen at another exactly when it drops a lease that is still live there:
      never at a later reading. */
  lemma PruneObservable(s: Leases, earlier: int, now: int)
    ensures Drop(Drop(s, earlier), now) == Drop(s, now) <==> !Hidden(s, earlier, now)
    ensures earlier <= now ==> !Hidden(s, earlier, now)
  {
    if k :| k in s && now < s[k].expiresAt <= earlier {
      assert k in Drop(s, now) && k !in Drop(Drop(s, earlier), now);
    } else {
      assert Drop(Drop(s, earlier), now) == Drop(s, now);
    }
  }

  // A committed breakpoint: a renewed lease, or a new one.
  ghost function Leased(s: Leases, key: (nat, string), ttl: int, now: int): Leases {
    s[key := if key in s then Renewed(s[key], ttl, now) else Lease(ttl, now + ttl)]
  }

  // The live entries of one namespace.
  function LiveIn(space: map<string, Entry>, now: int): map<string, Entry> {
    map fp | fp in space && space[fp].expiresAt > now :: space[fp]
  }

  // A namespace after pruning: gone when nothing in it is live.
  predicate PrunedAt(before: Table, after: Table, now: int, ns: nat)
    requires ns in before
  {
    if ns in after then after[ns] == LiveIn(before[ns], now) else LiveIn(before[ns], now) == map[]
  }

  lemma PrunedHolds(before: Table, s: Leases, after: Table, now: int)
    requires Holds(before, s)
    requires after.Keys <= before.Keys && forall ns :: ns in before ==> PrunedAt(before, after, now, ns)
    ensures Holds(after, Drop(s, now))
  {
    forall k | k in Drop(s, now)
      ensures k.0 in after && k.1 in after[k.0]
    {
      assert PrunedAt(before, after, now, k.0);
      assert k.1 in LiveIn(before[k.0], now);
    }
    forall ns, fp | ns in after && fp in after[ns]
      ensures (ns, fp) in Drop(s, now)
    {
      assert PrunedAt(before, after, now, ns);
    }
  }

  class Tracker {
    var entries: Table
    ghost var leases: Leases

    ghost predicate Valid()
      reads this
    {
      Holds(entries, leases)
    }

    constructor ()
      ensures Valid() && leases == map[]
    {
      entries, leases := map[], map[];
    }

    /** Removes what has expired. */
    method PruneLocked(now: int)
      requires Valid()
      modifies this
      ensures Valid() && leases == Drop(old(leases), now)
    {
      ghost var before := entries;
      var todo := entries.Keys;
      while todo != {}
        invariant todo <= entries.Keys <= before.Keys && leases == old(leases)
        invariant forall ns :: ns in todo ==> entries[ns] == before[ns]
        invariant forall ns :: ns in before && ns !in todo ==> PrunedAt(before, entries, now, ns)
        decreases todo
      {
        var ns :| ns in todo;
        todo := todo - {ns};
        var space := PruneSpace(entries[ns], now);
        if space == map[] {
          entries := entries - {ns};
        } else {
          entries := entries[ns := space];
        }
      }
      PrunedHolds(before, leases, entries, now);
      leases := Drop(leases, now);
    }

    // The loop of Compute: the rightmost live entry among the last ten breakpoints.
    method FindLive(now: int, ns: nat, p: Profile) returns (r: Option<nat>)
      requires Valid() && leases == Drop(leases, now)
      ensures r == MatchOf(leases, ns, p)
    {
      var bps := p.Cacheable();
      ghost var lo := Max(|bps| - LOOKBACK, 0);
      if ns !in entries {
        assert MatchOf(leases, ns, p).None?;
        return None;
      }
      var i, seen := |bps| - 1, 0;
      while i >= 0 && seen < LOOKBACK
        invariant i == |bps| - 1 - seen && lo <= i + 1
        invariant MatchOf(leases, ns, p) == Rightmost(leases, ns, p, lo, i + 1)
        decreases i + 1
      {
        var key := p.blocks[bps[i].index].fingerprint;
        if key in entries[ns] && entries[ns][key].expiresAt > now {
          return Some(i);
        }
        assert (ns, key) !in leases;
        i, seen := i - 1, seen + 1;
      }
      return None;
    }

    // Stores an entry; the namespace is created if need be.
    method Store(ns: nat, fp: string, entry: Entry)
      requires Valid()
      modifies this
      ensures Valid() && leases == old(leases)[(ns, fp) := Lease(entry.ttl, entry.expiresAt)]
      ensures ns in entries
    {
      var space := if ns in entries then entries[ns] else map[];
      entries := entries[ns := space[fp := entry]];
      leases := leases[(ns, fp) := Lease(entry.ttl, entry.expiresAt)];
    }

    method CommitOne(now: int, ns: nat, fp: string, tokens: nat, ttl: int)
      requires Valid()
      modifies this
      ensures Valid() && leases == Leased(old(leases), (ns, fp), ttl, now)
    {
      var entry := Entry(tokens, ttl, now + ttl);
      if ns in entries && fp in entries[ns] {
        entry := Recommit(entries[ns][fp], tokens, ttl, now + ttl);
      }
      Store(ns, fp, entry);
    }

    /** Reads the longest leased prefix and restarts its lease. */
    method Compute(now: int, ns: nat, p: Profile) returns (out: Split)
      requires Valid()
      modifies this
      ensures Valid() && (leases, out) == Step(old(leases), Timed(now, Op.Compute(ns, p)))
      ensures if ns == 0 || p.LastCacheable().None? then leases == old(leases) && out == Split(0, 0, 0, 0, 0)
              else Looks(Drop(old(leases), now), now, ns, p, leases, out)
    {
      if ns == 0 || p.LastCacheable().None? {
        return NOTHING;
      }
      Looked(Drop(leases, now), now, ns, p);
      var last := p.LastCacheable().value;
      PruneLocked(now);
      assert Drop(leases, now) == leases;
      var matched := ReadMatch(now, ns, p);
      out := Report(p.TokensFor(last.cumulative), matched, last.ttl);
    }

    // The locked part of Compute, after pruning.
    method ReadMatch(now: int, ns: nat, p: Profile) returns (matched: nat)
      requires Valid() && leases == Drop(leases, now)
      modifies this
      ensures Valid() && matched == MatchedTokens(p, MatchOf(old(leases), ns, p))
      ensures var m := MatchOf(old(leases), ns, p);
              leases == if m.Some? then Refreshed(old(leases), (ns, KeyAt(p, m.value)), now) else old(leases)
    {
      var found := FindLive(now, ns, p);
      if found.None? {
        return 0;
      }
      var bp := p.Cacheable()[found.value];
      var key := p.blocks[bp.index].fingerprint;
      assert key == KeyAt(p, found.value);
      var entry := entries[ns][key];
      Store(ns, key, entry.(expiresAt := now + entry.ttl));
      return p.TokensFor(bp.cumulative);
    }

    /** Leases every cacheable prefix of a request that succeeded. */
    method Update(now: int, ns: nat, p: Profile)
      requires Valid()
      modifies this
      ensures Valid() && leases == Step(old(leases), Timed(now, Commit(ns, p))).0
    {
      if ns == 0 {
        return;
      }
      PruneLocked(now);
      ghost var live := leases;
      var bps := p.Cacheable();
      for k := 0 to |bps|
        invariant Valid()
        invariant leases == CommitLive(live, now, ns, p, k)
      {
        var block := p.blocks[bps[k].index];
        CommitOne(now, ns, block.fingerprint, block.cumulative, bps[k].ttl);
      }
    }
  }

  method Report(lastTokens: int, matched: int, ttl: int) returns (out: Split)
    ensures out == Charge(lastTokens, matched, ttl)
  {
    var creation := Max(lastTokens - matched, 0);
    out := Split(0, Max(matched, 0), creation, 0, 0);
    if creation > 0 {
      if ttl >= HOUR {
        out := out.(creation1h := creation);
      } else {
        out := out.(creation5m := creation);
      }
    }
  }

  method Recommit(entry: Entry, tokens: nat, ttl: int, expiresAt: int) returns (r: Entry)
    ensures r == Entry(Max(entry.tokens, tokens), Max(entry.ttl, ttl), Max(entry.expiresAt, expiresAt))
  {
    r := entry;
    if tokens > r.tokens {
      r := r.(tokens := tokens);
    }
    if ttl > r.ttl {
      r := r.(ttl := ttl);
    }
    if expiresAt > r.expiresAt {
      r := r.(expiresAt := expiresAt);
    }
  }

  method PruneSpace(space: map<string, Entry>, now: int) returns (r: map<string, Entry>)
    ensures r == LiveIn(space, now)
  {
    r := space;
    var todo := space.Keys;
    while todo != {}
      invariant todo <= r.Keys <= space.Keys
      invariant forall fp :: fp in r ==> r[fp] == space[fp]
      invariant forall fp :: fp in space && fp !in todo ==> (fp in r <==> space[fp].expiresAt > now)
      decreases todo
    {
      var fp :| fp in todo;
      todo := todo - {fp};
      if r[fp].expiresAt <= now {
        r := r - {fp};
      }
    }
  }
}
