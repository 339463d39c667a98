/** Choosing an account for a request (internal/scheduler/pick.go) and retrying across accounts
    (internal/api/pick.go). The pool is given as a snapshot for every look at it. */
module Scheduler {
  import opened SessionCache
  import opened Options

  /** An account as one look at the pool finds it; `ready` covers cooling, limits and concurrency. */
  datatype Account = Account(id: string, priority: int, weight: int, groups: seq<string>, ready: bool, warm: bool)

  datatype Strategy = RoundRobin | Weighted | FillFirst

  datatype Config = Config(strategy: Strategy, sessionAffinity: bool, warmPreference: bool,
                           requestRetry: nat, credentialLimit: nat, maxRetryInterval: int)

  /** Session ids are those extracted from the request, the fallback affinity already applied. */
  datatype Request = Request(model: string, primary: string, fallback: string, tried: set<string>, group: string)

  // ---------------------------------------------------------------- candidates

  predicate Eligible(cfg: Config, req: Request, a: Account) {
    && a.id !in req.tried
    && (req.group == "" || req.group in a.groups)
    && a.ready
    && (cfg.strategy.Weighted? ==> a.weight > 0)
  }

  predicate HasId(accounts: seq<Account>, id: string) {
    exists a :: a in accounts && a.id == id
  }

  predicate IsTop(accounts: seq<Account>, a: Account) {
    a in accounts && forall b :: b in accounts ==> b.priority <= a.priority
  }

  method CollectReady(accounts: seq<Account>, req: Request) returns (out: seq<Account>)
    ensures forall a :: a in out <==> a in accounts && a.ready && a.id !in req.tried && (req.group == "" || req.group in a.groups)
  {
    out := [];
    for i := 0 to |accounts|
      invariant forall a :: a in out <==>
                  a in accounts[..i] && a.ready && a.id !in req.tried && (req.group == "" || req.group in a.groups)
    {
      var a := accounts[i];
      if a.id !in req.tried && (req.group == "" || req.group in a.groups) && a.ready {
        out := out + [a];
      }
    }
  }

  method PositiveWeight(accounts: seq<Account>) returns (out: seq<Account>)
    ensures forall a :: a in out <==> a in accounts && a.weight > 0
  {
    out := [];
    for i := 0 to |accounts|
      invariant forall a :: a in out <==> a in accounts[..i] && a.weight > 0
    {
      if accounts[i].weight > 0 {
        out := out + [accounts[i]];
      }
    }
  }

  method FindId(accounts: seq<Account>, id: string) returns (r: Option<Account>)
    ensures r.Some? ==> r.value in accounts && r.value.id == id
    ensures r.None? ==> !HasId(accounts, id)
  {
    for i := 0 to |accounts|
      invariant forall j :: 0 <= j < i ==> accounts[j].id != id
    {
      if accounts[i].id == id {
        return Some(accounts[i]);
      }
    }
    return None;
  }

  method HighestPriority(accounts: seq<Account>) returns (out: seq<Account>)
    ensures forall a :: a in out <==> IsTop(accounts, a)
    ensures accounts != [] ==> out != []
  {
    if |accounts| <= 1 {
      return accounts;
    }
    var best, at := accounts[0].priority, 0;
    for i := 1 to |accounts|
      invariant 0 <= at < i && accounts[at].priority == best
      invariant forall j :: 0 <= j < i ==> accounts[j].priority <= best
    {
      if accounts[i].priority > best {
        best, at := accounts[i].priority, i;
      }
    }
    out := [];
    for i := 0 to |accounts|
      invariant forall a :: a in out <==> a in accounts[..i] && a.priority == best
    {
      if accounts[i].priority == best {
        out := out + [accounts[i]];
      }
    }
    assert accounts[at] in out;
  }

  method WarmOnly(accounts: seq<Account>) returns (out: seq<Account>)
    ensures forall a :: a in out <==> a in accounts && a.warm
  {
    out := [];
    for i := 0 to |accounts|
      invariant forall a :: a in out <==> a in accounts[..i] && a.warm
    {
      if accounts[i].warm {
        out := out + [accounts[i]];
      }
    }
  }

  // ---------------------------------------------------------------- picking

  function CacheKey(session: string, model: string): (k: string)
    ensures k != ""
  {
    "cursor::" + session + "::" + model
  }

  /** The longer session id goes on into what the shorter one's key says of its model. */
  predicate Overlaps(session: string, model: string, longer: string, other: string) {
    || (longer == session + ":" && model == ":" + other)
    || (|session| + 2 <= |longer| && longer[..|session|] == session && longer[|session|..|session| + 2] == "::"
        && model == longer[|session| + 2..] + "::" + other)
  }

  /** Two sessions, of any two models, share a binding exactly if they are the same or one id overlaps; so of one
      model never. */
  lemma KeysMeet(s: string, m: string, t: string, n: string)
    ensures CacheKey(s, m) == CacheKey(t, n) <==> (s == t && m == n) || Overlaps(s, m, t, n) || Overlaps(t, n, s, m)
    ensures CacheKey(s, m) == CacheKey(t, m) <==> s == t
  {
    if |s| == |t| {
      Same(s, m, t, n);
      Same(s, m, t, m);
    } else if |s| < |t| {
      Longer(s, m, t, n);
      Longer(s, m, t, m);
    } else {
      Longer(t, n, s, m);
      Longer(t, m, s, m);
    }
  }

  lemma Cancel(a: string, b: string, c: string, d: string)
    ensures |a| == |c| ==> (a + b == c + d <==> a == c && b == d)
  {
    if |a| == |c| && a + b == c + d {
      assert a == (a + b)[..|a|] == c && b == (a + b)[|a|..] == d;
    }
  }

  lemma KeyParts(s: string, m: string, t: string, n: string)
    ensures CacheKey(s, m) == CacheKey(t, n) <==> s + ("::" + m) == t + ("::" + n)
  {
    assert CacheKey(s, m) == "cursor::" + (s + ("::" + m)) && CacheKey(t, n) == "cursor::" + (t + ("::" + n));
    Cancel("cursor::", s + ("::" + m), "cursor::", t + ("::" + n));
  }

  lemma Same(s: string, m: string, t: string, n: string)
    requires |s| == |t|
    ensures CacheKey(s, m) == CacheKey(t, n) <==> s == t && m == n
  {
    KeyParts(s, m, t, n);
    Cancel(s, "::" + m, t, "::" + n);
    Cancel("::", m, "::", n);
  }

  // What the longer id adds to the shorter one meets the model's part of the key.
  lemma Added(u: string, m: string, n: string)
    requires u != ""
    ensures "::" + m == u + ("::" + n) <==> (u == ":" && m == ":" + n) || (|u| >= 2 && u[..2] == "::" && m == u[2..] + "::" + n)
  {
    if |u| == 1 {
      assert "::" + m == ":" + (":" + m) && "::" + n == ":" + (":" + n);
      Cancel(":", ":" + m, u, "::" + n);
      Cancel(":", m, ":", ":" + n);
    } else {
      assert u + ("::" + n) == u[..2] + (u[2..] + "::" + n);
      Cancel("::", m, u[..2], u[2..] + "::" + n);
    }
  }

  lemma Longer(s: string, m: string, t: string, n: string)
    requires |s| < |t|
    ensures CacheKey(s, m) == CacheKey(t, n) <==> Overlaps(s, m, t, n)
    ensures !Overlaps(t, n, s, m)
  {
    var u := t[|s|..];
    KeyParts(s, m, t, n);
    assert t + ("::" + n) == t[..|s|] + (u + ("::" + n));
    Cancel(s, "::" + m, t[..|s|], u + ("::" + n));
    Added(u, m, n);
    assert t == t[..|s|] + u;
    Cancel(t[..|s|], u, s, ":");
    assert |u| >= 2 ==> u[..2] == t[|s|..|s| + 2] && u[2..] == t[|s| + 2..];
    assert t == s + ":" <==> t[..|s|] == s && u == ":";
  }

  ghost predicate EligibleId(cfg: Config, req: Request, accounts: seq<Account>, id: string) {
    exists a :: a in accounts && Eligible(cfg, req, a) && a.id == id
  }

  // The account a session is bound to.
  ghost function BindingOf(e: Entries, now: int, session: string, req: Request): Option<string> {
    Answer(e, CacheKey(session, req.model), now)
  }

  predicate HasFallback(req: Request) {
    req.fallback != "" && req.fallback != req.primary
  }

  // The best choice without a binding: top priority among the eligible and, if preferred and possible, warm.
  ghost predicate BestOf(cfg: Config, req: Request, accounts: seq<Account>, a: Account) {
    && a in accounts && Eligible(cfg, req, a)
    && (forall b :: b in accounts && Eligible(cfg, req, b) ==> b.priority <= a.priority)
    && (cfg.warmPreference && !a.warm ==>
          forall b :: b in accounts && Eligible(cfg, req, b) && b.priority == a.priority ==> !b.warm)
  }

  /** The eligible account the cache decides for: the primary session's, else the fallback session's. */
  ghost function Sticky(cfg: Config, e: Entries, now: int, req: Request, ids: iset<string>): Option<string> {
    var bound, other := BindingOf(e, now, req.primary, req), BindingOf(e, now, req.fallback, req);
    if !cfg.sessionAffinity || req.primary == "" then None
    else if bound.Some? && bound.value in ids then bound
    else if HasFallback(req) && other.Some? && other.value in ids then other
    else None
  }

  ghost function EligibleIds(cfg: Config, req: Request, accounts: seq<Account>): iset<string> {
    iset id | EligibleId(cfg, req, accounts, id)
  }

  /** Which account a pick may return. */
  ghost predicate Picks(cfg: Config, e: Entries, now: int, req: Request, accounts: seq<Account>, a: Account) {
    && a in accounts && Eligible(cfg, req, a)
    && var id := Sticky(cfg, e, now, req, EligibleIds(cfg, req, accounts));
       if id.Some? then a.id == id.value else BestOf(cfg, req, accounts, a)
  }

  // The binding is as it was, or that of the session's live group, refreshed.
  ghost predicate Touched(e: Entries, f: Entries, key: string, now: int, k: string)
    requires k in f
  {
    && k in e && SameMembers(f[k].aliases, e[k].aliases) && f[k].auth == e[k].auth
    && (f[k] == e[k] || (LiveId(e, key, now) && k in e[key].aliases && now < f[k].expiresAt))
  }

  // What a lookup may have done: refreshed the session's live group, dropped what had expired by then, and
  // dropped bindings of one account.
  ghost predicate Loosened(e: Entries, f: Entries, key: string, now: int, dropped: Option<string>) {
    && (forall k :: k in f ==> Touched(e, f, key, now, k))
    && (forall k :: k in e && k !in f ==> e[k].expiresAt <= now || Some(e[k].auth) == dropped)
  }

  lemma SweptMore(e: Entries, f: Entries, g: Entries, key: string, now: int, dropped: Option<string>, id: string)
    requires Partition(e) && Loosened(e, f, key, now, dropped) && Swept(f, g, id, now)
    ensures Loosened(e, g, key, now, dropped)
  {
    forall k | k in g
      ensures Touched(e, g, key, now, k)
    {
      assert Touched(e, f, key, now, k);
    }
    forall k | k in e && k !in g
      ensures e[k].expiresAt <= now || Some(e[k].auth) == dropped
    {
      if k in f {
        assert Touched(e, f, key, now, k);
      }
    }
  }

  lemma RefreshLoosens(e: Entries, f: Entries, key: string, now: int, expiresAt: int)
    requires Partition(e) && Refreshed(e, key, expiresAt, f) && LiveId(e, key, now) && now < expiresAt
    ensures Loosened(e, f, key, now, None)
  {
    forall k | k in f
      ensures Touched(e, f, key, now, k)
    {
      if k in e[key].aliases {
        assert e[k] == e[key];
      }
    }
  }

  lemma SweepLoosens(e: Entries, f: Entries, key: string, now: int)
    requires Swept(e, f, key, now)
    ensures Loosened(e, f, key, now, None)
  {
  }

  // Dropping an account's bindings on top.
  lemma DropLoosens(e: Entries, f: Entries, g: Entries, key: string, now: int, id: string)
    requires Loosened(e, f, key, now, None) && g.Keys <= f.Keys
    requires forall k :: k in f && (k in g || f[k].auth != id) ==> k in g && g[k] == f[k]
    ensures Loosened(e, g, key, now, Some(id))
  {
    forall k | k in g
      ensures Touched(e, g, key, now, k)
    {
      assert k in f && Touched(e, f, key, now, k);
    }
    forall k | k in e && k !in g
      ensures e[k].expiresAt <= now || Some(e[k].auth) == Some(id)
    {
      if k in f {
        assert Touched(e, f, key, now, k);
      }
    }
  }

  // Nobody else can tell, but for the bindings of the account dropped.
  lemma LoosenedSpares(e: Entries, f: Entries, key: string, now: int, dropped: Option<string>, k: string, t: int)
    requires Loosened(e, f, key, now, dropped) && now <= t && !InGroup(e, [key], now, k) && k != ""
    ensures Spared(e, f, k, t, dropped)
  {
    assert [key][0] == key;
    if k in f {
      assert Touched(e, f, key, now, k);
    }
  }

  // The keys a pick binds.
  function BindIds(req: Request): seq<string> {
    var pk, fk := CacheKey(req.primary, req.model), CacheKey(req.fallback, req.model);
    if req.fallback != "" && req.fallback != req.primary then [pk, fk] else [pk]
  }

  // The sessions a request may rebind: its own, and those in one live group with them.
  ghost predicate Tied(e: Entries, req: Request, now: int, k: string) {
    InGroup(e, BindIds(req), now, k)
  }

  // Another session's binding is left alone, or goes with the bindings of the account dropped.
  ghost predicate Spared(e: Entries, f: Entries, k: string, t: int, dropped: Option<string>) {
    Answer(f, k, t) == Answer(e, k, t) || (Answer(f, k, t).None? && Answer(e, k, t) == dropped)
  }

  lemma StillTied(e: Entries, f: Entries, req: Request, now: int, later: int, dropped: Option<string>, k: string)
    requires Partition(e) && now <= later && Loosened(e, f, CacheKey(req.primary, req.model), now, dropped)
    requires InGroup(f, BindIds(req), later, k)
    ensures Tied(e, req, now, k)
  {
    if k !in BindIds(req) {
      var id :| id in BindIds(req) && LiveId(f, id, later) && k in f[id].aliases;
      assert Touched(e, f, CacheKey(req.primary, req.model), now, id);
      assert k in e[id].aliases && LiveId(e, id, now);
    }
  }

  /** The account whose bindings a pick drops: the one the session is bound to, if it is not eligible. */
  ghost function Gone(e: Entries, now: int, req: Request, ids: iset<string>): Option<string> {
    var bound := BindingOf(e, now, req.primary, req);
    if bound.Some? && bound.value !in ids then bound else None
  }

  /** Other sessions' bindings, after a pick. */
  ghost predicate Frames(e: Entries, g: Entries, req: Request, now: int, later: int, dropped: Option<string>) {
    forall k, t :: later <= t && k != "" && !Tied(e, req, now, k) ==> Spared(e, g, k, t, dropped)
  }

  lemma Framed(e: Entries, f: Entries, g: Entries, req: Request, now: int, later: int, dropped: Option<string>, until: int, id: string)
    requires Partition(e) && now <= later && Loosened(e, f, CacheKey(req.primary, req.model), now, dropped)
    requires forall k, t :: later <= t ==>
               Answer(g, k, t) == if InGroup(f, BindIds(req), later, k) then Until(id, until, t) else Answer(f, k, t)
    ensures Frames(e, g, req, now, later, dropped)
  {
    var pk := CacheKey(req.primary, req.model);
    forall k, t | later <= t && k != "" && !Tied(e, req, now, k)
      ensures Spared(e, g, k, t, dropped)
    {
      if InGroup(f, BindIds(req), later, k) {
        StillTied(e, f, req, now, later, dropped, k);
      }
      NotTied(e, req, now, k);
      LoosenedSpares(e, f, pk, now, dropped, k, t);
    }
  }

  lemma NotTied(e: Entries, req: Request, now: int, k: string)
    requires !Tied(e, req, now, k) && k != ""
    ensures !InGroup(e, [CacheKey(req.primary, req.model)], now, k)
  {
    assert BindIds(req)[0] == CacheKey(req.primary, req.model);
  }

  // The session ids of a request.
  predicate Own(req: Request, session: string) {
    session == req.primary || (HasFallback(req) && session == req.fallback)
  }

  /** A session, of the same model, that is not the request's nor in a live group with it. */
  ghost predicate Apart(e: Entries, req: Request, now: int, session: string) {
    && !Own(req, session)
    && forall s :: Own(req, s) && LiveId(e, CacheKey(s, req.model), now) ==>
         CacheKey(session, req.model) !in e[CacheKey(s, req.model)].aliases
  }

  /** Its binding is as it was, or it was to the account dropped and is gone. */
  ghost predicate Undisturbed(e: Entries, g: Entries, req: Request, session: string, t: int, dropped: Option<string>) {
    || BindingOf(g, t, session, req) == BindingOf(e, t, session, req)
    || (BindingOf(g, t, session, req).None? && BindingOf(e, t, session, req) == dropped)
  }

  ghost predicate SessionsFramed(e: Entries, g: Entries, req: Request, now: int, later: int, dropped: Option<string>) {
    forall session, t :: later <= t && Apart(e, req, now, session) ==> Undisturbed(e, g, req, session, t, dropped)
  }

  lemma ApartUntied(e: Entries, req: Request, now: int, session: string)
    requires Apart(e, req, now, session)
    ensures !Tied(e, req, now, CacheKey(session, req.model))
  {
    var k := CacheKey(session, req.model);
    KeysMeet(session, req.model, req.primary, req.model);
    KeysMeet(session, req.model, req.fallback, req.model);
    if id :| id in BindIds(req) && LiveId(e, id, now) && k in e[id].aliases {
      assert id == CacheKey(req.primary, req.model) || (HasFallback(req) && id == CacheKey(req.fallback, req.model));
      assert Own(req, req.primary) && (HasFallback(req) ==> Own(req, req.fallback));
    }
  }

  lemma FramesSessions(e: Entries, g: Entries, req: Request, now: int, later: int, dropped: Option<string>)
    requires Frames(e, g, req, now, later, dropped)
    ensures SessionsFramed(e, g, req, now, later, dropped)
  {
    forall session, t | later <= t && Apart(e, req, now, session)
      ensures Undisturbed(e, g, req, session, t, dropped)
    {
      ApartUntied(e, req, now, session);
      assert Spared(e, g, CacheKey(session, req.model), t, dropped);
    }
  }

  /** An id that holds "::" and goes on in another model's name: two sessions, one key. */
  lemma KeyShared(a: string, b: string, model: string)
    ensures CacheKey(a + "::" + b, model) == CacheKey(a, b + "::" + model)
  {
    KeysMeet(a, b + "::" + model, a + "::" + b, model);
    assert (a + "::" + b)[..|a|] == a && (a + "::" + b)[|a|..|a| + 2] == "::" && (a + "::" + b)[|a| + 2..] == b;
  }

  // From `since` on the session is bound to the account, for one TTL.
  ghost predicate BoundTo(e: Entries, key: string, id: string, since: int, ttl: int) {
    forall t :: since <= t ==> Answer(e, key, t) == Until(id, since + ttl, t)
  }

  class Scheduler {
    const cfg: Config
    const cache: Cache

    constructor (cfg: Config, ttl: int)
      ensures this.cfg == cfg && fresh(cache) && cache.Valid()
    {
      this.cfg := cfg;
      this.cache := new Cache(ttl);
    }

    method Bind(later: int, req: Request, id: string)
      requires cache.Valid() && id != ""
      modifies cache`entries
      ensures cache.Valid()
      ensures cfg.sessionAffinity && req.primary != "" ==> BoundTo(cache.entries, CacheKey(req.primary, req.model), id, later, cache.ttl)
      ensures cfg.sessionAffinity && req.primary != "" && HasFallback(req) ==>
                BoundTo(cache.entries, CacheKey(req.fallback, req.model), id, later, cache.ttl)
      ensures !cfg.sessionAffinity || req.primary == "" ==> cache.entries == old(cache.entries)
      ensures cfg.sessionAffinity && req.primary != "" ==>
                forall k, t :: later <= t ==>
                  Answer(cache.entries, k, t)
                  == if InGroup(old(cache.entries), BindIds(req), later, k) then Until(id, later + cache.ttl, t)
                     else Answer(old(cache.entries), k, t)
    {
      if !cfg.sessionAffinity || req.primary == "" {
        return;
      }
      if req.fallback != "" && req.fallback != req.primary {
        cache.SetAliases(later, id, [CacheKey(req.primary, req.model), CacheKey(req.fallback, req.model)]);
      } else {
        cache.SetAliases(later, id, [CacheKey(req.primary, req.model)]);
      }
    }

    // The primary session's account, if it is among the candidates; otherwise its bindings are dropped.
    method FindPrimary(now: int, req: Request, candidates: seq<Account>) returns (r: Option<Account>)
      requires cache.Valid()
      modifies cache`entries
      ensures cache.Valid()
      ensures r.Some? ==> r.value in candidates
      ensures var bound := BindingOf(old(cache.entries), now, req.primary, req);
              && (r.Some? <==> bound.Some? && HasId(candidates, bound.value))
              && (r.Some? ==> r.value.id == bound.value)
      ensures Loosened(old(cache.entries), cache.entries, CacheKey(req.primary, req.model), now,
                       Gone(old(cache.entries), now, req, iset id | HasId(candidates, id)))
    {
      var key := CacheKey(req.primary, req.model);
      var id := cache.GetAndRefresh(now, key);
      if id.None? {
        SweepLoosens(old(cache.entries), cache.entries, key, now);
        return None;
      }
      RefreshLoosens(old(cache.entries), cache.entries, key, now, now + cache.ttl);
      r := FindId(candidates, id.value);
      if r.None? {
        ghost var found := cache.entries;
        cache.InvalidateAuth(id.value);
        DropLoosens(old(cache.entries), found, cache.entries, key, now, id.value);
      }
    }

    // The account a live binding decides for, if it is a candidate.
    method FindBound(now: int, req: Request, candidates: seq<Account>) returns (r: Option<Account>)
      requires cache.Valid() && cfg.sessionAffinity && req.primary != ""
      modifies cache`entries
      ensures cache.Valid()
      ensures r.Some? ==> r.value in candidates
      ensures var id := Sticky(cfg, old(cache.entries), now, req, iset id | HasId(candidates, id));
              if id.Some? then r.Some? && r.value.id == id.value else r.None?
      ensures Loosened(old(cache.entries), cache.entries, CacheKey(req.primary, req.model), now,
                       Gone(old(cache.entries), now, req, iset id | HasId(candidates, id)))
    {
      r := FindPrimary(now, req, candidates);
      ghost var found := cache.entries;
      if r.Some? {
        return;
      }
      if req.fallback != "" && req.fallback != req.primary {
        var other := cache.Get(now, CacheKey(req.fallback, req.model));
        SweptMore(old(cache.entries), found, cache.entries, CacheKey(req.primary, req.model), now,
                  Gone(old(cache.entries), now, req, iset id | HasId(candidates, id)), CacheKey(req.fallback, req.model));
        if other.Some? {
          r := FindId(candidates, other.value);
        }
      }
    }

    /** Picks an account: a live binding to a still eligible account beats any priority; otherwise some
        account of the top priority among the eligible. None exactly when no account is eligible. */
    method Pick(now: int, later: int, accounts: seq<Account>, req: Request) returns (r: Option<Account>)
      requires cache.Valid() && now <= later && forall a :: a in accounts ==> a.id != ""
      modifies cache`entries
      ensures cache.Valid()
      ensures r.None? <==> forall a :: a in accounts ==> !Eligible(cfg, req, a)
      ensures r.None? ==> cache.entries == old(cache.entries)
      ensures r.Some? ==> Picks(cfg, old(cache.entries), now, req, accounts, r.value)
      ensures r.Some? && cfg.sessionAffinity && req.primary != "" ==>
                BoundTo(cache.entries, CacheKey(req.primary, req.model), r.value.id, later, cache.ttl)
      ensures r.Some? && cfg.sessionAffinity && req.primary != "" && HasFallback(req) ==>
                BoundTo(cache.entries, CacheKey(req.fallback, req.model), r.value.id, later, cache.ttl)
      ensures !cfg.sessionAffinity || req.primary == "" ==> cache.entries == old(cache.entries)
      ensures Frames(old(cache.entries), cache.entries, req, now, later,
                     Gone(old(cache.entries), now, req, EligibleIds(cfg, req, accounts)))
      ensures SessionsFramed(old(cache.entries), cache.entries, req, now, later,
                             Gone(old(cache.entries), now, req, EligibleIds(cfg, req, accounts)))
    {
      var candidates := CollectReady(accounts, req);
      if cfg.strategy.Weighted? {
        candidates := PositiveWeight(candidates);
      }
      assert forall a :: a in candidates <==> a in accounts && Eligible(cfg, req, a);
      assert (iset id | HasId(candidates, id)) == EligibleIds(cfg, req, accounts);
      if |candidates| == 0 {
        assert forall a :: a in accounts ==> !Eligible(cfg, req, a);
        return None;
      }
      assert candidates[0] in candidates;
      ghost var gone := Gone(cache.entries, now, req, EligibleIds(cfg, req, accounts));
      if cfg.sessionAffinity && req.primary != "" {
        r := FindBound(now, req, candidates);
        if r.Some? {
          BindPicked(later, req, r.value.id, old(cache.entries), now, gone);
          return;
        }
        var picked := PickBest(candidates);
        BindPicked(later, req, picked.id, old(cache.entries), now, gone);
        return Some(picked);
      }
      var picked := PickBest(candidates);
      return Some(picked);
    }

    method BindPicked(later: int, req: Request, id: string, ghost before: Entries, ghost now: int, ghost gone: Option<string>)
      requires cache.Valid() && id != "" && cfg.sessionAffinity && req.primary != ""
      requires Partition(before) && now <= later && Loosened(before, cache.entries, CacheKey(req.primary, req.model), now, gone)
      modifies cache`entries
      ensures cache.Valid() && Frames(before, cache.entries, req, now, later, gone)
      ensures SessionsFramed(before, cache.entries, req, now, later, gone)
      ensures BoundTo(cache.entries, CacheKey(req.primary, req.model), id, later, cache.ttl)
      ensures HasFallback(req) ==> BoundTo(cache.entries, CacheKey(req.fallback, req.model), id, later, cache.ttl)
    {
      ghost var found := cache.entries;
      Bind(later, req, id);
      Framed(before, found, cache.entries, req, now, later, gone, later + cache.ttl, id);
      FramesSessions(before, cache.entries, req, now, later, gone);
    }

    // The strategy itself is not modelled: it returns some member of the tier.
    method PickBest(candidates: seq<Account>) returns (picked: Account)
      requires candidates != []
      ensures IsTop(candidates, picked)
      ensures cfg.warmPreference && !picked.warm ==> forall b :: IsTop(candidates, b) ==> !b.warm
    {
      var tier := HighestPriority(candidates);
      if cfg.warmPreference {
        var warm := WarmOnly(tier);
        if |warm| > 0 {
          tier := warm;
        }
      }
      var i: nat :| i < |tier|;
      assert tier[i] in tier;
      return tier[i];
    }
  }

  /** An undisturbed session sticks: picked again before its binding expires, it gets the same account as
      long as that account is still eligible, whatever else became available. */
  method PickTwice(s: Scheduler, times: (int, int, int, int), pools: (seq<Account>, seq<Account>), req: Request)
    returns (first: Option<Account>, second: Option<Account>)
    requires s.cache.Valid() && times.0 <= times.1 <= times.2 <= times.3
    requires forall a :: a in pools.0 || a in pools.1 ==> a.id != ""
    modifies s.cache`entries
    ensures s.cache.Valid()
    ensures (first.Some? && s.cfg.sessionAffinity && req.primary != "" && times.2 < times.1 + s.cache.ttl
             && EligibleId(s.cfg, req, pools.1, first.value.id)) ==>
              second.Some? && second.value.id == first.value.id
  {
    first := s.Pick(times.0, times.1, pools.0, req);
    second := s.Pick(times.2, times.3, pools.1, req);
  }

  // ---------------------------------------------------------------- retrying across accounts

  /** What one turn of the retry loop meets: the pool, whether the slot is still free when taken, how long
      until the first account cools down (if all are cooling), and whether the wait is not canceled. */
  datatype Round = Round(now: int, later: int, accounts: seq<Account>, acquires: bool, resetIn: Option<int>, waits: bool)

  datatype Handout = Handed(account: Account) | Exhausted | Unavailable | Canceled | Pending

  class AccountIter {
    const sched: Scheduler
    const req: Request
    var tried: set<string>
    var outer: nat
    ghost var handed: multiset<string>
    // What the cache held at the last look.
    ghost var seen: Entries
    ghost const universe: set<string>

    ghost function PerRound(): nat {
      if sched.cfg.credentialLimit > 0 && sched.cfg.credentialLimit < |universe|
      then sched.cfg.credentialLimit else |universe|
    }

    // At most one hand-out of an account per round of the outer loop, and a bounded number per round.
    ghost predicate Valid()
      reads this, sched.cache
    {
      && sched.cache.Valid()
      && tried <= universe && |tried| <= PerRound() && outer <= sched.cfg.requestRetry
      && |handed| <= outer * PerRound() + |tried|
      && forall id :: handed[id] <= outer + (if id in tried then 1 else 0)
    }

    constructor (sched: Scheduler, req: Request, ghost universe: set<string>)
      requires sched.cache.Valid()
      ensures Valid() && this.sched == sched && this.req == req && this.universe == universe
      ensures handed == multiset{} && outer == 0 && tried == {}
    {
      this.sched, this.req := sched, req;
      this.universe := universe;
      tried, outer, handed, seen := {}, 0, multiset{}, map[];
    }

    // No account is eligible any more.
    ghost predicate NoneLeft(x: Round)
      reads this
    {
      forall a :: a in x.accounts ==> !Eligible(sched.cfg, req.(tried := tried), a)
    }

    // Another round is allowed: retries are left, and an account recovers within the longest wait.
    ghost predicate MayWait(x: Round)
      reads this
    {
      x.resetIn.Some? && outer < sched.cfg.requestRetry && 0 < x.resetIn.value <= sched.cfg.maxRetryInterval
    }

    /** The next account to try. Every account handed out is eligible and not tried in this round; over
        all calls a request gets at most (RequestRetry + 1) * min(N, limit) accounts, each at most
        RequestRetry + 1 times. `Pending`: the rounds given ran out. */
    method Next(rounds: seq<Round>) returns (r: Handout, used: nat)
      requires Valid()
      requires forall x :: x in rounds ==> x.now <= x.later && forall a :: a in x.accounts ==> a.id != "" && a.id in universe
      modifies this, sched.cache`entries
      ensures Valid() && used <= |rounds| && old(outer) <= outer
      ensures |handed| <= (sched.cfg.requestRetry + 1) * PerRound()
      ensures forall id :: handed[id] <= sched.cfg.requestRetry + 1
      ensures r.Handed? ==> used > 0 && r.account in rounds[used - 1].accounts && rounds[used - 1].acquires
      ensures r.Handed? ==>
                r.account.id in tried && Eligible(sched.cfg, req.(tried := tried - {r.account.id}), r.account)
      ensures r.Handed? ==> handed == old(handed) + multiset{r.account.id}
      ensures r.Handed? && outer == old(outer) ==> tried == old(tried) + {r.account.id} && r.account.id !in old(tried)
      ensures r.Handed? && (!sched.cfg.sessionAffinity || req.primary == "") ==>
                BestOf(sched.cfg, req.(tried := tried - {r.account.id}), rounds[used - 1].accounts, r.account)
      ensures r.Handed? ==>
                Picks(sched.cfg, seen, rounds[used - 1].now, req.(tried := tried - {r.account.id}), rounds[used - 1].accounts, r.account)
      ensures used == 1 ==> seen == old(sched.cache.entries)
      ensures r.Handed? && sched.cfg.sessionAffinity && req.primary != "" ==>
                BoundTo(sched.cache.entries, CacheKey(req.primary, req.model), r.account.id, rounds[used - 1].later, sched.cache.ttl)
      ensures !r.Handed? ==> handed == old(handed)
      ensures r.Exhausted? ==> sched.cfg.credentialLimit > 0 && |tried| >= sched.cfg.credentialLimit
      ensures r.Unavailable? || r.Canceled? ==> used > 0 && NoneLeft(rounds[used - 1])
      ensures r.Unavailable? ==> !MayWait(rounds[used - 1])
      ensures r.Canceled? ==> MayWait(rounds[used - 1]) && !rounds[used - 1].waits
      ensures r.Pending? ==> used == |rounds|
    {
      used := 0;
      while used < |rounds|
        invariant Valid() && used <= |rounds| && handed == old(handed) && old(outer) <= outer
        invariant outer == old(outer) ==> tried == old(tried)
        invariant used == 0 ==> sched.cache.entries == old(sched.cache.entries) && tried == old(tried)
        invariant used == 1 ==> seen == old(sched.cache.entries)
      {
        if sched.cfg.credentialLimit > 0 && |tried| >= sched.cfg.credentialLimit {
          BoundTotal();
          return Exhausted, used;
        }
        r := Turn(rounds[used]);
        used := used + 1;
        if !r.Pending? {
          BoundTotal();
          return;
        }
      }
      BoundTotal();
      return Pending, used;
    }

    // Everything about the account handed out in one turn.
    twostate predicate HandsOut(x: Round, a: Account)
      reads this, sched.cache
    {
      && a in x.accounts && x.acquires && a.id !in old(tried) && tried == old(tried) + {a.id}
      && handed == old(handed) + multiset{a.id} && outer == old(outer)
      && Picks(sched.cfg, old(sched.cache.entries), x.now, req.(tried := old(tried)), x.accounts, a)
      && (sched.cfg.sessionAffinity && req.primary != "" ==>
            BoundTo(sched.cache.entries, CacheKey(req.primary, req.model), a.id, x.later, sched.cache.ttl))
    }

    // One turn of the loop; `Pending` to go on.
    method Turn(x: Round) returns (r: Handout)
      requires Valid() && x.now <= x.later && forall a :: a in x.accounts ==> a.id != "" && a.id in universe
      requires sched.cfg.credentialLimit > 0 ==> |tried| < sched.cfg.credentialLimit
      modifies this, sched.cache`entries
      ensures Valid() && old(outer) <= outer && !r.Exhausted? && seen == old(sched.cache.entries)
      ensures r.Handed? ==> HandsOut(x, r.account)
      ensures !r.Handed? ==> handed == old(handed) && (outer == old(outer) ==> tried == old(tried))
      ensures r.Unavailable? || r.Canceled? ==> NoneLeft(x)
      ensures r.Unavailable? ==> !MayWait(x)
      ensures r.Canceled? ==> MayWait(x) && !x.waits
    {
      seen := sched.cache.entries;
      var picked := sched.Pick(x.now, x.later, x.accounts, req.(tried := tried));
      if picked.Some? {
        if x.acquires {
          Hand(picked.value);
          return Handed(picked.value);
        }
        return Pending;
      }
      if x.resetIn.None? || outer >= sched.cfg.requestRetry || sched.cfg.maxRetryInterval <= 0
         || x.resetIn.value <= 0 || x.resetIn.value > sched.cfg.maxRetryInterval {
        return Unavailable;
      }
      if !x.waits {
        return Canceled;
      }
      NextRound();
      return Pending;
    }

    method Hand(a: Account)
      requires Valid() && a.id !in tried && a.id in universe
      requires sched.cfg.credentialLimit > 0 ==> |tried| < sched.cfg.credentialLimit
      modifies this`tried, this`handed
      ensures Valid() && tried == old(tried) + {a.id} && handed == old(handed) + multiset{a.id}
    {
      SubsetSize(tried + {a.id}, universe);
      tried := tried + {a.id};
      handed := handed + multiset{a.id};
    }

    method NextRound()
      requires Valid() && outer < sched.cfg.requestRetry
      modifies this`tried, this`outer
      ensures Valid() && tried == {} && outer == old(outer) + 1
    {
      tried := {};
      outer := outer + 1;
      assert outer * PerRound() == (outer - 1) * PerRound() + PerRound();
    }

    lemma BoundTotal()
      requires Valid()
      ensures |handed| <= (sched.cfg.requestRetry + 1) * PerRound()
      ensures forall id :: handed[id] <= sched.cfg.requestRetry + 1
    {
      Times(outer, sched.cfg.requestRetry, PerRound());
    }
  }

  lemma Times(a: nat, b: nat, m: nat)
    requires a <= b
    ensures a * m + m <= (b + 1) * m
  {
    assert (b - a) * m >= 0;
    assert (b + 1) * m == (b - a) * m + a * m + m;
  }

  lemma SubsetSize(a: set<string>, b: set<string>)
    requires a <= b
    ensures |a| <= |b|
  {
    assert b == a + (b - a);
  }
}
