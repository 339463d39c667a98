/** Whole runs of the session-affinity cache: groups that have expired are only dropped when they are met, and
    operations read the clock before they take the lock. What a run answers is compared with a cache that
    drops every group as soon as an operation finds it expired. */
module SessionRuns {
  import opened SessionCache
  import opened Options

  // ---------------------------------------------------------------- the specification

  /** A session's binding: the account, until when, and the sessions it is shared with. */
  datatype Binding = Binding(auth: string, expiresAt: int, members: set<string>)
  type Bindings = map<string, Binding>

  ghost function Bound(e: Entries): Bindings {
    map k | k in e :: Binding(e[k].auth, e[k].expiresAt, set a | a in e[k].aliases)
  }

  datatype Op = Get(id: string) | Refresh(id: string) | Bind(auth: string, ids: seq<string>) | Forget(auth: string) | SetTtl(ttl: int)
  datatype Timed = Timed(now: int, op: Op)
  datatype State = State(bindings: Bindings, ttl: int)

  ghost predicate Groups(b: Bindings) {
    && "" !in b
    && (forall k :: k in b ==> k in b[k].members)
    && (forall k, a :: k in b && a in b[k].members ==> a in b && b[a] == b[k])
  }

  ghost function Live(b: Bindings, now: int): Bindings {
    map k | k in b && now < b[k].expiresAt :: b[k]
  }

  predicate IsLive(b: Bindings, id: string, now: int) {
    id in b && now < b[id].expiresAt
  }

  // A lookup drops the group it finds expired.
  function Met(b: Bindings, id: string, now: int): Bindings {
    if id in b && b[id].expiresAt <= now then b - b[id].members else b
  }

  function MetAll(b: Bindings, ids: seq<string>, now: int): Bindings {
    if ids == [] then b else Met(MetAll(b, ids[..|ids| - 1], now), ids[|ids| - 1], now)
  }

  // The sessions that one of `ids` is, or shares a live binding with.
  function Joined(b: Bindings, ids: seq<string>, now: int): set<string> {
    if ids == [] then {}
    else
      var id := ids[|ids| - 1];
      Joined(b, ids[..|ids| - 1], now) + (if id == "" then {} else {id}) + (if IsLive(b, id, now) then b[id].members else {})
  }

  ghost function Laid(b: Bindings, g: Binding): Bindings {
    map k | k in b.Keys + g.members :: if k in g.members then g else b[k]
  }

  ghost function Renewed(b: Bindings, id: string, now: int, expiresAt: int): Bindings {
    if IsLive(b, id, now) then Laid(b, b[id].(expiresAt := expiresAt)) else Met(b, id, now)
  }

  ghost function Rebound(b: Bindings, ids: seq<string>, now: int, auth: string, expiresAt: int): Bindings {
    Laid(MetAll(b, ids, now), Binding(auth, expiresAt, Joined(b, ids, now)))
  }

  function Asked(b: Bindings, id: string, now: int): Option<string> {
    if IsLive(b, id, now) then Some(b[id].auth) else None
  }

  /** The bindings after an operation. `drop` are those an invalidation drops; which groups these are depends
      on the order of iteration over a map. */
  ghost function After(b: Bindings, ttl: int, t: Timed, drop: set<string>): Bindings {
    match t.op
    case Get(id) => Met(b, id, t.now)
    case Refresh(id) => Renewed(b, id, t.now, t.now + ttl)
    case Bind(auth, ids) => if auth == "" then b else Rebound(b, ids, t.now, auth, t.now + ttl)
    case Forget(_) => b - drop
    case SetTtl(_) => b
  }

  function TtlAfter(ttl: int, op: Op): int {
    if op.SetTtl? && op.ttl > 0 then op.ttl else ttl
  }

  function Reply(b: Bindings, t: Timed): Option<string> {
    match t.op
    case Get(id) => Asked(b, id, t.now)
    case Refresh(id) => Asked(b, id, t.now)
    case _ => None
  }

  /** What an invalidation may drop: whole groups of the account, some for every expiry. */
  ghost predicate Lawful(b: Bindings, auth: string, drop: set<string>) {
    && (forall k :: k in drop && k in b ==> b[k].auth == auth && auth != "" && b[k].members <= drop)
    && (auth != "" ==> forall k :: k in b && b[k].auth == auth ==> DropsExpiry(b, drop, b[k].expiresAt))
  }

  ghost predicate DropsExpiry(b: Bindings, drop: set<string>, x: int) {
    exists j :: j in b && j in drop && b[j].expiresAt == x
  }

  ghost predicate Allowed(b: Bindings, t: Timed, drop: set<string>) {
    t.op.Forget? ==> Lawful(b, t.op.auth, drop)
  }

  ghost function Step(s: State, t: Timed, drop: set<string>): (State, Option<string>) {
    (State(After(s.bindings, s.ttl, t, drop), TtlAfter(s.ttl, t.op)), Reply(s.bindings, t))
  }

  /** A run: the state of the cache, and its answers. */
  ghost function Run(ops: seq<Timed>, drops: seq<set<string>>, ttl: int, n: nat): (State, seq<Option<string>>)
    requires n <= |ops| && n <= |drops|
    ensures |Run(ops, drops, ttl, n).1| == n
  {
    if n == 0 then (State(map[], ttl), [])
    else
      var before := Run(ops, drops, ttl, n - 1);
      var step := Step(before.0, ops[n - 1], drops[n - 1]);
      (step.0, before.1 + [step.1])
  }

  /** The same where every operation first drops whatever has expired by its reading. */
  ghost function EagerRun(ops: seq<Timed>, drops: seq<set<string>>, ttl: int, n: nat): (State, seq<Option<string>>)
    requires n <= |ops| && n <= |drops|
    ensures |EagerRun(ops, drops, ttl, n).1| == n
  {
    if n == 0 then (State(map[], ttl), [])
    else
      var before := EagerRun(ops, drops, ttl, n - 1);
      var step := Step(before.0.(bindings := Live(before.0.bindings, ops[n - 1].now)), ops[n - 1], drops[n - 1]);
      (step.0, before.1 + [step.1])
  }

  ghost predicate AllowedAt(ops: seq<Timed>, drops: seq<set<string>>, ttl: int, i: nat)
    requires i < |ops| && i < |drops|
  {
    Allowed(Run(ops, drops, ttl, i).0.bindings, ops[i], drops[i])
  }

  ghost predicate AllAllowed(ops: seq<Timed>, drops: seq<set<string>>, ttl: int, n: nat)
    requires n <= |ops| && n <= |drops|
  {
    forall i :: 0 <= i < n ==> AllowedAt(ops, drops, ttl, i)
  }

  // ---------------------------------------------------------------- the cache

  lemma BoundSwept(e: Entries, f: Entries, id: string, now: int)
    requires Partition(e) && Swept(e, f, id, now)
    ensures Bound(f) == Met(Bound(e), id, now)
  {
    if id in e {
      forall k | k in e
        ensures e[k] == e[id] <==> k in Bound(e)[id].members
      {
        if k in e[id].aliases {
          assert e[k] == e[id];
        }
      }
    }
  }

  // The bindings of k, with a group laid over the rest.
  ghost predicate LaidAt(b: Bindings, g: Binding, f: Bindings, k: string) {
    if k in g.members then k in f && f[k] == g else (k in f <==> k in b) && (k in f ==> f[k] == b[k])
  }

  lemma LaidIs(b: Bindings, g: Binding, f: Bindings)
    requires forall k :: LaidAt(b, g, f, k)
    ensures f == Laid(b, g)
  {
    forall k
      ensures k in f <==> k in Laid(b, g)
      ensures k in f ==> f[k] == Laid(b, g)[k]
    {
      assert LaidAt(b, g, f, k);
    }
  }

  lemma RefreshedAt(e: Entries, id: string, expiresAt: int, f: Entries, k: string)
    requires Partition(e) && Refreshed(e, id, expiresAt, f)
    ensures LaidAt(Bound(e), Bound(e)[id].(expiresAt := expiresAt), Bound(f), k)
  {
    if k in e[id].aliases {
      assert e[k] == e[id];
    }
  }

  lemma BoundRefreshed(e: Entries, id: string, expiresAt: int, f: Entries)
    requires Partition(e) && Refreshed(e, id, expiresAt, f)
    ensures Bound(f) == Laid(Bound(e), Bound(e)[id].(expiresAt := expiresAt))
  {
    forall k
      ensures LaidAt(Bound(e), Bound(e)[id].(expiresAt := expiresAt), Bound(f), k)
    {
      RefreshedAt(e, id, expiresAt, f, k);
    }
    LaidIs(Bound(e), Bound(e)[id].(expiresAt := expiresAt), Bound(f));
  }

  lemma {:induction false} BoundJoins(e: Entries, ids: seq<string>, now: int, k: string)
    requires Partition(e)
    ensures InGroup(e, ids, now, k) <==> k in Joined(Bound(e), ids, now)
  {
    if ids != [] {
      var before, id := ids[..|ids| - 1], ids[|ids| - 1];
      BoundJoins(e, before, now, k);
      assert ids == before + [id];
      JoinsMore(e, before, id, now, k);
    }
  }

  lemma JoinsMore(e: Entries, before: seq<string>, id: string, now: int, k: string)
    requires Partition(e)
    ensures InGroup(e, before + [id], now, k)
            <==> InGroup(e, before, now, k) || (k == id && k != "") || (LiveId(e, id, now) && k in e[id].aliases)
  {
    var ids := before + [id];
    assert ids[|before|] == id;
    if j :| j in before && LiveId(e, j, now) && k in e[j].aliases {
      assert j in ids;
    }
  }

  lemma {:induction false} BoundMet(e: Entries, ids: seq<string>, now: int)
    requires Partition(e)
    ensures Partition(DropExpired(e, ids, now)) && Bound(DropExpired(e, ids, now)) == MetAll(Bound(e), ids, now)
  {
    if ids == [] {
      assert DropExpired(e, ids, now) == e;
    } else {
      var before, id := ids[..|ids| - 1], ids[|ids| - 1];
      var d := DropExpired(e, before, now);
      BoundMet(e, before, now);
      assert ids == before + [id];
      DropOne(e, before, now, id);
      if id in d {
        WithoutPartition(d, d[id]);
      }
      BoundSwept(d, DropExpired(e, ids, now), id, now);
    }
  }

  lemma {:induction false} ReboundAt(e: Entries, ids: seq<string>, now: int, auth: string, expiresAt: int, f: Entries, k: string)
    requires Partition(e) && Rebinds(e, ids, now, auth, expiresAt, f)
    ensures LaidAt(Bound(DropExpired(e, ids, now)), Binding(auth, expiresAt, Joined(Bound(e), ids, now)), Bound(f), k)
  {
    BoundJoins(e, ids, now, k);
    if InGroup(e, ids, now, k) {
      forall a
        ensures a in f[k].aliases <==> a in Joined(Bound(e), ids, now)
      {
        BoundJoins(e, ids, now, a);
      }
    }
  }

  lemma BoundRebound(e: Entries, ids: seq<string>, now: int, auth: string, expiresAt: int, f: Entries)
    requires Partition(e) && Rebinds(e, ids, now, auth, expiresAt, f)
    ensures Bound(f) == Rebound(Bound(e), ids, now, auth, expiresAt)
  {
    var d, g := DropExpired(e, ids, now), Binding(auth, expiresAt, Joined(Bound(e), ids, now));
    BoundMet(e, ids, now);
    forall k
      ensures LaidAt(Bound(d), g, Bound(f), k)
    {
      ReboundAt(e, ids, now, auth, expiresAt, f, k);
    }
    LaidIs(Bound(d), g, Bound(f));
  }

  lemma BoundRenewed(e: Entries, id: string, now: int, expiresAt: int, f: Entries, r: Option<string>)
    requires Partition(e) && r == Answer(e, id, now)
    requires r.None? ==> Swept(e, f, id, now)
    requires r.Some? ==> Refreshed(e, id, expiresAt, f)
    ensures Bound(f) == Renewed(Bound(e), id, now, expiresAt) && r == Asked(Bound(e), id, now)
  {
    if r.Some? {
      BoundRefreshed(e, id, expiresAt, f);
    } else {
      BoundSwept(e, f, id, now);
    }
  }

  ghost predicate Forgot(e: Entries, f: Entries, auth: string) {
    && f.Keys <= e.Keys
    && (forall k :: k in e && (k in f || e[k].auth != auth) ==> k in f && f[k] == e[k])
    && (auth != "" ==> forall k :: k in e && e[k].auth == auth ==> ExpiryDropped(e, f, e[k].expiresAt))
  }

  // What is gone after an invalidation.
  lemma BoundForgot(e: Entries, f: Entries, auth: string)
    requires Partition(e) && Partition(f) && Forgot(e, f, auth)
    ensures Bound(f) == Bound(e) - (e.Keys - f.Keys) && Lawful(Bound(e), auth, e.Keys - f.Keys)
  {
    var b, drop := Bound(e), e.Keys - f.Keys;
    forall k | k in drop
      ensures b[k].members <= drop
    {
      WholeGroup(e, f, k);
    }
    forall k | k in b && b[k].auth == auth && auth != ""
      ensures DropsExpiry(b, drop, b[k].expiresAt)
    {
      assert ExpiryDropped(e, f, e[k].expiresAt);
      var j :| j in e && j !in f && e[j].expiresAt == e[k].expiresAt;
      assert j in b && j in drop;
    }
  }

  lemma WholeGroup(e: Entries, f: Entries, k: string)
    requires Partition(e) && Partition(f) && f.Keys <= e.Keys && k in e && k !in f
    requires forall j :: j in f ==> f[j] == e[j]
    ensures Bound(e)[k].members <= e.Keys - f.Keys
  {
    forall a | a in e[k].aliases
      ensures a in e && a !in f
    {
      assert e[a] == e[k] && k in e[k].aliases;
    }
  }

  /** What one operation makes of the entries, and what it answers. */
  ghost predicate Moves(e: Entries, ttl: int, t: Timed, f: Entries, r: Option<string>) {
    match t.op
    case Get(id) => r == Answer(e, id, t.now) && Swept(e, f, id, t.now)
    case Refresh(id) =>
      r == Answer(e, id, t.now) && (if r.Some? then Refreshed(e, id, t.now + ttl, f) else Swept(e, f, id, t.now))
    case Bind(auth, ids) => r.None? && (if auth == "" then f == e else Rebinds(e, ids, t.now, auth, t.now + ttl, f))
    case Forget(auth) => r.None? && Forgot(e, f, auth)
    case SetTtl(_) => r.None? && f == e
  }

  /** One operation on the cache. */
  method Perform(cache: Cache, t: Timed) returns (r: Option<string>)
    requires cache.Valid()
    modifies cache
    ensures cache.Valid() && cache.ttl == TtlAfter(old(cache.ttl), t.op)
    ensures Moves(old(cache.entries), old(cache.ttl), t, cache.entries, r)
  {
    r := None;
    match t.op {
      case Get(id) => r := cache.Get(t.now, id);
      case Refresh(id) => r := cache.GetAndRefresh(t.now, id);
      case Bind(auth, ids) => cache.SetAliases(t.now, auth, ids);
      case Forget(auth) => cache.InvalidateAuth(auth);
      case SetTtl(ttl) => cache.SetTtl(ttl);
    }
  }

  // One step of the specification; an invalidation drops what it dropped.
  ghost predicate Steps(e: Entries, ttl: int, t: Timed, f: Entries, r: Option<string>) {
    && Bound(f) == After(Bound(e), ttl, t, e.Keys - f.Keys) && r == Reply(Bound(e), t)
    && Allowed(Bound(e), t, e.Keys - f.Keys)
  }

  lemma GetSteps(e: Entries, ttl: int, now: int, id: string, f: Entries, r: Option<string>)
    requires Partition(e) && Moves(e, ttl, Timed(now, Get(id)), f, r)
    ensures Steps(e, ttl, Timed(now, Get(id)), f, r)
  {
    BoundSwept(e, f, id, now);
  }

  lemma RefreshAfter(b: Bindings, f: Bindings, ttl: int, now: int, id: string, drop: set<string>)
    requires f == Renewed(b, id, now, now + ttl)
    ensures f == After(b, ttl, Timed(now, Refresh(id)), drop)
  {
  }

  lemma RefreshSteps(e: Entries, ttl: int, now: int, id: string, f: Entries, r: Option<string>)
    requires Partition(e) && r == Answer(e, id, now)
    requires if r.Some? then Refreshed(e, id, now + ttl, f) else Swept(e, f, id, now)
    ensures Bound(f) == After(Bound(e), ttl, Timed(now, Refresh(id)), e.Keys - f.Keys) && r == Asked(Bound(e), id, now)
  {
    BoundRenewed(e, id, now, now + ttl, f, r);
    RefreshAfter(Bound(e), Bound(f), ttl, now, id, e.Keys - f.Keys);
  }

  lemma BindAfter(b: Bindings, f: Bindings, ttl: int, now: int, auth: string, ids: seq<string>, drop: set<string>)
    requires auth != "" && f == Rebound(b, ids, now, auth, now + ttl)
    ensures f == After(b, ttl, Timed(now, Bind(auth, ids)), drop)
  {
  }

  lemma BindSteps(e: Entries, ttl: int, now: int, auth: string, ids: seq<string>, f: Entries)
    requires Partition(e) && auth != "" && Rebinds(e, ids, now, auth, now + ttl, f)
    ensures Bound(f) == After(Bound(e), ttl, Timed(now, Bind(auth, ids)), e.Keys - f.Keys)
  {
    BoundRebound(e, ids, now, auth, now + ttl, f);
    BindAfter(Bound(e), Bound(f), ttl, now, auth, ids, e.Keys - f.Keys);
  }

  lemma ForgetSteps(e: Entries, ttl: int, now: int, auth: string, f: Entries, r: Option<string>)
    requires Partition(e) && Partition(f) && Moves(e, ttl, Timed(now, Forget(auth)), f, r)
    ensures Steps(e, ttl, Timed(now, Forget(auth)), f, r)
  {
    BoundForgot(e, f, auth);
  }

  /** Every operation is one step of the specification. */
  lemma MovesSteps(e: Entries, ttl: int, t: Timed, f: Entries, r: Option<string>)
    requires Partition(e) && Partition(f) && Moves(e, ttl, t, f, r)
    ensures Steps(e, ttl, t, f, r)
  {
    match t.op
    case Get(id) => GetSteps(e, ttl, t.now, id, f, r);
    case Refresh(id) => RefreshSteps(e, ttl, t.now, id, f, r);
    case Bind(auth, ids) =>
      if auth != "" {
        BindSteps(e, ttl, t.now, auth, ids, f);
      }
    case Forget(auth) => ForgetSteps(e, ttl, t.now, auth, f, r);
    case SetTtl(_) =>
  }

  lemma {:induction false} SameRun(ops: seq<Timed>, drops: seq<set<string>>, drop: set<string>, ttl: int, n: nat)
    requires n <= |ops| && n <= |drops|
    ensures Run(ops, drops + [drop], ttl, n) == Run(ops, drops, ttl, n)
  {
    if n > 0 {
      SameRun(ops, drops, drop, ttl, n - 1);
    }
  }

  lemma {:induction false} AllowedMore(ops: seq<Timed>, drops: seq<set<string>>, drop: set<string>, ttl: int)
    requires |drops| < |ops| && AllAllowed(ops, drops, ttl, |drops|)
    requires Allowed(Run(ops, drops, ttl, |drops|).0.bindings, ops[|drops|], drop)
    ensures AllAllowed(ops, drops + [drop], ttl, |drops| + 1)
  {
    var more := drops + [drop];
    forall i | 0 <= i <= |drops|
      ensures AllowedAt(ops, more, ttl, i)
    {
      SameRun(ops, drops, drop, ttl, i);
      assert i < |drops| ==> AllowedAt(ops, drops, ttl, i);
    }
  }

  /** Drives a fresh cache through any operations with any readings: it answers as the specification says. */
  method Replay(ops: seq<Timed>, ttl: int) returns (outs: seq<Option<string>>, ghost drops: seq<set<string>>)
    requires ttl > 0
    ensures |drops| == |ops| && AllAllowed(ops, drops, ttl, |ops|)
    ensures outs == Run(ops, drops, ttl, |ops|).1
  {
    var cache := new Cache(ttl);
    outs, drops := [], [];
    assert Bound(map[]) == map[];
    for i := 0 to |ops|
      invariant cache.Valid() && fresh(cache) && |drops| == i
      invariant (State(Bound(cache.entries), cache.ttl), outs) == Run(ops, drops, ttl, i)
      invariant AllAllowed(ops, drops, ttl, i)
    {
      ghost var e, start := cache.entries, cache.ttl;
      var r := Perform(cache, ops[i]);
      ghost var drop := e.Keys - cache.entries.Keys;
      MovesSteps(e, start, ops[i], cache.entries, r);
      SameRun(ops, drops, drop, ttl, i);
      AllowedMore(ops, drops, drop, ttl);
      outs, drops := outs + [r], drops + [drop];
    }
  }

  // ---------------------------------------------------------------- groups stay groups

  lemma MetGroups(b: Bindings, id: string, now: int)
    requires Groups(b)
    ensures Groups(Met(b, id, now))
  {
    if id in b && b[id].expiresAt <= now {
      forall k, a | k in b && k !in b[id].members && a in b[k].members
        ensures a !in b[id].members
      {
        assert b[a] == b[k];
      }
    }
  }

  lemma {:induction false} MetAllGroups(b: Bindings, ids: seq<string>, now: int)
    requires Groups(b)
    ensures Groups(MetAll(b, ids, now))
  {
    if ids != [] {
      MetAllGroups(b, ids[..|ids| - 1], now);
      MetGroups(MetAll(b, ids[..|ids| - 1], now), ids[|ids| - 1], now);
    }
  }

  lemma LaidGroups(b: Bindings, g: Binding)
    requires Groups(b) && "" !in g.members
    requires forall k, a :: k in b && k in g.members && a in b[k].members ==> a in g.members
    ensures Groups(Laid(b, g))
  {
    var f := Laid(b, g);
    forall k, a | k in f && a in f[k].members
      ensures a in f && f[a] == f[k]
    {
      if k !in g.members {
        assert b[a] == b[k] && k in b[a].members;
      }
    }
  }

  // What is met along `ids` and not dropped is live, or no session of `ids`.
  lemma {:induction false} MetLives(b: Bindings, ids: seq<string>, now: int, k: string)
    requires Groups(b) && k in MetAll(b, ids, now)
    ensures k in b && MetAll(b, ids, now)[k] == b[k] && (k in ids ==> IsLive(b, k, now))
  {
    if ids != [] {
      MetLives(b, ids[..|ids| - 1], now, k);
      MetAllGroups(b, ids[..|ids| - 1], now);
    }
  }

  lemma {:induction false} JoinedIs(b: Bindings, ids: seq<string>, now: int, k: string)
    requires Groups(b)
    ensures k in Joined(b, ids, now) <==> k != "" && (k in ids || exists id :: id in ids && IsLive(b, id, now) && k in b[id].members)
  {
    if ids != [] {
      var before, id := ids[..|ids| - 1], ids[|ids| - 1];
      assert ids == before + [id];
      JoinedIs(b, before, now, k);
      if j :| j in before && IsLive(b, j, now) && k in b[j].members {
        assert j in ids;
      }
    }
  }

  lemma BindGroups(b: Bindings, ids: seq<string>, now: int, auth: string, expiresAt: int)
    requires Groups(b)
    ensures Groups(Rebound(b, ids, now, auth, expiresAt))
  {
    var d, g := MetAll(b, ids, now), Binding(auth, expiresAt, Joined(b, ids, now));
    MetAllGroups(b, ids, now);
    JoinedIs(b, ids, now, "");
    forall k, a | k in d && k in g.members && a in d[k].members
      ensures a in g.members
    {
      StaysTogether(b, ids, now, k, a);
    }
    LaidGroups(d, g);
  }

  lemma {:induction false} StaysTogether(b: Bindings, ids: seq<string>, now: int, k: string, a: string)
    requires Groups(b) && k in MetAll(b, ids, now) && k in Joined(b, ids, now) && a in MetAll(b, ids, now)[k].members
    ensures a in Joined(b, ids, now)
  {
    MetLives(b, ids, now, k);
    JoinedIs(b, ids, now, k);
    JoinedIs(b, ids, now, a);
    assert a in b[k].members;
    if k !in ids {
      var id :| id in ids && IsLive(b, id, now) && k in b[id].members;
      assert b[k] == b[id];
    }
  }

  lemma ForgetGroups(b: Bindings, auth: string, drop: set<string>)
    requires Groups(b) && Lawful(b, auth, drop)
    ensures Groups(b - drop)
  {
    forall k, a | k in b - drop && a in b[k].members
      ensures a !in drop
    {
      assert b[a] == b[k] && k in b[a].members;
    }
  }

  lemma StepGroups(b: Bindings, ttl: int, t: Timed, drop: set<string>)
    requires Groups(b) && Allowed(b, t, drop)
    ensures Groups(After(b, ttl, t, drop))
  {
    match t.op
    case Get(id) => MetGroups(b, id, t.now);
    case Refresh(id) =>
      if IsLive(b, id, t.now) {
        LaidGroups(b, b[id].(expiresAt := t.now + ttl));
      } else {
        MetGroups(b, id, t.now);
      }
    case Bind(auth, ids) => BindGroups(b, ids, t.now, auth, t.now + ttl);
    case Forget(auth) => ForgetGroups(b, auth, drop);
    case SetTtl(_) =>
  }

  lemma {:induction false} RunGroups(ops: seq<Timed>, drops: seq<set<string>>, ttl: int, n: nat)
    requires n <= |ops| && n <= |drops| && ttl > 0 && AllAllowed(ops, drops, ttl, n)
    ensures Groups(Run(ops, drops, ttl, n).0.bindings) && Run(ops, drops, ttl, n).0.ttl > 0
  {
    if n > 0 {
      RunGroups(ops, drops, ttl, n - 1);
      assert AllowedAt(ops, drops, ttl, n - 1);
      StepGroups(Run(ops, drops, ttl, n - 1).0.bindings, Run(ops, drops, ttl, n - 1).0.ttl, ops[n - 1], drops[n - 1]);
    }
  }

  // ---------------------------------------------------------------- lazily or eagerly

  /** Dropping an expired group can be seen at another reading exactly if the group is still live there: never
      at a later one. */
  lemma DropObservable(b: Bindings, id: string, now: int, u: int)
    requires Groups(b) && id in b && b[id].expiresAt <= now
    ensures (forall k :: Asked(Met(b, id, now), k, u) == Asked(b, k, u)) <==> b[id].expiresAt <= u
  {
    if b[id].expiresAt <= u {
      forall k
        ensures Asked(Met(b, id, now), k, u) == Asked(b, k, u)
      {
        assert k in b[id].members ==> b[k] == b[id];
      }
    } else {
      assert Asked(b, id, u).Some? && Asked(Met(b, id, now), id, u).None?;
    }
  }

  // Two caches with the same live bindings.
  ghost predicate Alike(b: Bindings, c: Bindings, now: int) {
    Live(b, now) == Live(c, now)
  }

  lemma LiveTwice(b: Bindings, now: int, u: int)
    requires now <= u
    ensures Alike(Live(b, now), b, u)
  {
  }

  lemma LaidLive(b: Bindings, c: Bindings, g: Binding, now: int)
    requires Alike(b, c, now)
    ensures Alike(Laid(b, g), Laid(c, g), now)
  {
    forall k
      ensures IsLive(b, k, now) <==> IsLive(c, k, now)
      ensures IsLive(b, k, now) ==> b[k] == c[k]
    {
      assert k in Live(b, now) <==> k in Live(c, now);
    }
  }

  lemma MetLive(b: Bindings, id: string, now: int)
    requires Groups(b)
    ensures Alike(Met(b, id, now), b, now) && Met(Live(b, now), id, now) == Live(b, now)
  {
  }

  lemma {:induction false} MetAllLive(b: Bindings, ids: seq<string>, now: int)
    requires Groups(b)
    ensures Alike(MetAll(b, ids, now), b, now) && MetAll(Live(b, now), ids, now) == Live(b, now)
  {
    if ids != [] {
      var before := ids[..|ids| - 1];
      MetAllLive(b, before, now);
      MetAllGroups(b, before, now);
      MetLive(MetAll(b, before, now), ids[|ids| - 1], now);
      MetLive(b, ids[|ids| - 1], now);
    }
  }

  lemma {:induction false} JoinedLive(b: Bindings, ids: seq<string>, now: int)
    ensures Joined(Live(b, now), ids, now) == Joined(b, ids, now)
  {
    if ids != [] {
      JoinedLive(b, ids[..|ids| - 1], now);
    }
  }

  lemma RefreshLive(b: Bindings, id: string, now: int, ttl: int, drop: set<string>)
    requires Groups(b)
    ensures var t := Timed(now, Refresh(id)); Alike(After(Live(b, now), ttl, t, drop), After(b, ttl, t, drop), now)
  {
    LiveTwice(b, now, now);
    if IsLive(b, id, now) {
      LaidLive(Live(b, now), b, b[id].(expiresAt := now + ttl), now);
    } else {
      MetLive(b, id, now);
    }
  }

  lemma BindLive(b: Bindings, ids: seq<string>, now: int, auth: string, ttl: int, drop: set<string>)
    requires Groups(b)
    ensures var t := Timed(now, Bind(auth, ids)); Alike(After(Live(b, now), ttl, t, drop), After(b, ttl, t, drop), now)
  {
    LiveTwice(b, now, now);
    MetAllLive(b, ids, now);
    JoinedLive(b, ids, now);
    LaidLive(MetAll(Live(b, now), ids, now), MetAll(b, ids, now), Binding(auth, now + ttl, Joined(b, ids, now)), now);
  }

  lemma DropLive(b: Bindings, drop: set<string>, now: int)
    ensures Alike(Live(b, now) - drop, b - drop, now)
  {
  }

  // An operation cannot tell a cache from what is live in it at the operation's reading.
  lemma StepLive(b: Bindings, ttl: int, t: Timed, drop: set<string>)
    requires Groups(b)
    ensures Reply(Live(b, t.now), t) == Reply(b, t)
    ensures Alike(After(Live(b, t.now), ttl, t, drop), After(b, ttl, t, drop), t.now)
  {
    var now := t.now;
    match t.op
    case Get(id) =>
      LiveTwice(b, now, now);
      MetLive(b, id, now);
    case Refresh(id) => RefreshLive(b, id, now, ttl, drop);
    case Bind(auth, ids) => BindLive(b, ids, now, auth, ttl, drop);
    case Forget(_) => DropLive(b, drop, now);
    case SetTtl(_) => LiveTwice(b, now, now);
  }

  // Some binding live at `now` has expired by `earlier`, a reading that acted before.
  ghost predicate Hidden(b: Bindings, earlier: int, now: int) {
    exists k :: k in b && now < b[k].expiresAt <= earlier
  }

  lemma {:induction false} MetAllWithin(b: Bindings, ids: seq<string>, now: int)
    ensures forall k :: k in MetAll(b, ids, now) ==> k in b && MetAll(b, ids, now)[k] == b[k]
  {
    if ids != [] {
      MetAllWithin(b, ids[..|ids| - 1], now);
    }
  }

  // What a step leaves is from before, or lasts beyond its reading.
  lemma StepHidden(b: Bindings, ttl: int, t: Timed, drop: set<string>, u: int)
    requires ttl > 0 && !Hidden(b, t.now, u)
    ensures !Hidden(After(b, ttl, t, drop), t.now, u)
  {
    if t.op.Bind? {
      MetAllWithin(b, t.op.ids, t.now);
    }
  }

  lemma SameLive(b: Bindings, now: int, u: int)
    requires !Hidden(b, now, u) && u <= now
    ensures Live(b, u) == Live(b, now)
  {
  }

  // One operation on two caches that look the same at its reading.
  lemma StepAgrees(b: Bindings, e: Bindings, ttl: int, t: Timed, drop: set<string>, u: int)
    requires Groups(b) && ttl > 0 && Alike(b, e, t.now)
    requires u < t.now ==> !Hidden(b, t.now, u)
    ensures Reply(Live(e, t.now), t) == Reply(b, t)
    ensures Alike(After(b, ttl, t, drop), After(Live(e, t.now), ttl, t, drop), u)
  {
    var now, f, g := t.now, After(Live(e, t.now), ttl, t, drop), After(b, ttl, t, drop);
    StepLive(b, ttl, t, drop);
    if now <= u {
      LiveTwice(f, now, u);
      LiveTwice(g, now, u);
    } else {
      StepHidden(b, ttl, t, drop, u);
      StepHidden(Live(b, now), ttl, t, drop, u);
      SameLive(g, now, u);
      SameLive(f, now, u);
    }
  }

  // An operation acts while a binding has expired by its reading that a later one, with an older reading,
  // would still find live.
  ghost predicate Hides(ops: seq<Timed>, drops: seq<set<string>>, ttl: int, i: nat, j: nat)
    requires i < j < |ops| == |drops|
  {
    Hidden(Run(ops, drops, ttl, i).0.bindings, ops[i].now, ops[j].now)
  }

  ghost predicate HidesNothing(ops: seq<Timed>, drops: seq<set<string>>, ttl: int)
    requires |ops| == |drops|
  {
    forall i, j :: 0 <= i < j < |ops| ==> !Hides(ops, drops, ttl, i, j)
  }

  ghost predicate Ordered(ops: seq<Timed>) {
    forall i, j :: 0 <= i <= j < |ops| ==> ops[i].now <= ops[j].now
  }

  // Two caches look the same at the readings from n on.
  ghost predicate SameFrom(ops: seq<Timed>, n: nat, b: Bindings, e: Bindings) {
    forall j :: n <= j < |ops| ==> Alike(b, e, ops[j].now)
  }

  lemma {:induction false} RunsAgree(ops: seq<Timed>, drops: seq<set<string>>, ttl: int, n: nat)
    requires n <= |ops| == |drops| && ttl > 0 && AllAllowed(ops, drops, ttl, |ops|) && HidesNothing(ops, drops, ttl)
    ensures Run(ops, drops, ttl, n).1 == EagerRun(ops, drops, ttl, n).1
    ensures Run(ops, drops, ttl, n).0.ttl == EagerRun(ops, drops, ttl, n).0.ttl
    ensures SameFrom(ops, n, Run(ops, drops, ttl, n).0.bindings, EagerRun(ops, drops, ttl, n).0.bindings)
  {
    if n > 0 {
      RunsAgree(ops, drops, ttl, n - 1);
      RunGroups(ops, drops, ttl, n - 1);
      var s, e, t := Run(ops, drops, ttl, n - 1).0, EagerRun(ops, drops, ttl, n - 1).0, ops[n - 1];
      StepAgrees(s.bindings, e.bindings, s.ttl, t, drops[n - 1], t.now);
      forall j | n <= j < |ops|
        ensures Alike(Run(ops, drops, ttl, n).0.bindings, EagerRun(ops, drops, ttl, n).0.bindings, ops[j].now)
      {
        assert !Hides(ops, drops, ttl, n - 1, j);
        StepAgrees(s.bindings, e.bindings, s.ttl, t, drops[n - 1], ops[j].now);
      }
    }
  }

  // What the cache drops at an invalidation is what the eager one may drop.
  ghost predicate EagerAllowedAt(ops: seq<Timed>, drops: seq<set<string>>, ttl: int, i: nat)
    requires i < |ops| == |drops|
  {
    Allowed(Live(EagerRun(ops, drops, ttl, i).0.bindings, ops[i].now), ops[i], drops[i])
  }

  lemma LiveAllowed(b: Bindings, t: Timed, drop: set<string>)
    requires Allowed(b, t, drop)
    ensures Allowed(Live(b, t.now), t, drop)
  {
    if t.op.Forget? && t.op.auth != "" {
      forall k | k in Live(b, t.now) && b[k].auth == t.op.auth
        ensures DropsExpiry(Live(b, t.now), drop, b[k].expiresAt)
      {
        assert DropsExpiry(b, drop, b[k].expiresAt);
      }
    }
  }

  /** Dropping groups only when they are met is never observable in a run that hides nothing: it answers as the
      eager cache. No run whose readings come in the order of its operations hides anything. */
  lemma {:induction false} LazyIsEager(ops: seq<Timed>, drops: seq<set<string>>, ttl: int)
    requires |ops| == |drops| && ttl > 0 && AllAllowed(ops, drops, ttl, |ops|)
    ensures HidesNothing(ops, drops, ttl) ==> Run(ops, drops, ttl, |ops|).1 == EagerRun(ops, drops, ttl, |ops|).1
    ensures HidesNothing(ops, drops, ttl) ==> forall i :: 0 <= i < |ops| ==> EagerAllowedAt(ops, drops, ttl, i)
    ensures Ordered(ops) ==> HidesNothing(ops, drops, ttl)
  {
    if HidesNothing(ops, drops, ttl) {
      RunsAgree(ops, drops, ttl, |ops|);
      forall i | 0 <= i < |ops|
        ensures EagerAllowedAt(ops, drops, ttl, i)
      {
        RunsAgree(ops, drops, ttl, i);
        var b, e := Run(ops, drops, ttl, i).0.bindings, EagerRun(ops, drops, ttl, i).0.bindings;
        assert AllowedAt(ops, drops, ttl, i) && Alike(b, e, ops[i].now);
        LiveAllowed(b, ops[i], drops[i]);
      }
    }
  }

  /** An older reading can miss: bound at 0 for 10, looked up at 12 and so dropped, not found at 5. Without the
      lookup it is found. */
  lemma OlderLookupMisses(auth: string, id: string)
    requires auth != "" && id != ""
    ensures var bind, late, early := Timed(0, Bind(auth, [id])), Timed(12, Get(id)), Timed(5, Get(id));
            && Run([bind, late, early], [{}, {}, {}], 10, 3).1[2] == None
            && Run([bind, early], [{}, {}], 10, 2).1[1] == Some(auth)
  {
    var bind, late, early := Timed(0, Bind(auth, [id])), Timed(12, Get(id)), Timed(5, Get(id));
    var one := map[id := Binding(auth, 10, {id})];
    assert [id][..0] == [];
    assert Joined(map[], [id], 0) == {id} && MetAll(map[], [id], 0) == map[];
    assert Laid(map[], Binding(auth, 10, {id})) == one;
    assert Run([bind, late, early], [{}, {}, {}], 10, 1).0 == State(one, 10);
    assert Met(one, id, 12) == map[];
    assert Run([bind, late, early], [{}, {}, {}], 10, 2).0 == State(map[], 10);
    assert Run([bind, early], [{}, {}], 10, 1).0 == State(one, 10);
  }
}
