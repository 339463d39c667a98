/** The session-affinity cache (internal/scheduler/cache.go): session ids are bound to accounts in groups of
    aliases that share one binding and one expiry. */
module SessionCache {
  import opened Options

  datatype Entry = Entry(auth: string, expiresAt: int, aliases: seq<string>)
  type Entries = map<string, Entry>

  const HOUR := 3_600_000_000_000

  // ---------------------------------------------------------------- aliases

  // The non-empty ids among the first n, first occurrences only, in order.
  function MergedUpTo(ids: seq<string>, n: nat): (r: seq<string>)
    requires n <= |ids|
    ensures forall id :: id in r <==> id != "" && exists i :: 0 <= i < n && ids[i] == id
    ensures forall i, j :: 0 <= i < j < |r| ==> r[i] != r[j]
  {
    if n == 0 then []
    else
      var before, id := MergedUpTo(ids, n - 1), ids[n - 1];
      if id == "" || id in before then before else before + [id]
  }

  /** The non-empty ids of a list, first occurrences only, in order. */
  function Merged(ids: seq<string>): (r: seq<string>)
    ensures forall id :: id in r <==> id in ids && id != ""
    ensures forall i, j :: 0 <= i < j < |r| ==> r[i] != r[j]
  {
    MergedUpTo(ids, |ids|)
  }

  method MergeAliases(existing: seq<string>, candidates: seq<string>) returns (out: seq<string>)
    ensures out == Merged(existing + candidates)
  {
    var ids := existing + candidates;
    var seen: set<string> := {};
    out := [];
    for i := 0 to |ids|
      invariant out == MergedUpTo(ids, i) && forall id :: id in seen <==> id in out
    {
      if ids[i] != "" && ids[i] !in seen {
        seen := seen + {ids[i]};
        out := out + [ids[i]];
      }
    }
  }

  // ---------------------------------------------------------------- groups

  /** Alias groups are a partition: every key lies in its own entry's alias list, and every alias of an
      entry is a key with that very entry. */
  ghost predicate Partition(e: Entries) {
    && "" !in e
    && (forall k :: k in e ==> k in e[k].aliases && e[k].auth != "")
    && (forall k, a :: k in e && a in e[k].aliases ==> a in e && e[a] == e[k])
  }

  /** What an eagerly expiring map would answer. */
  ghost function Answer(e: Entries, k: string, t: int): Option<string> {
    if k in e && t < e[k].expiresAt then Some(e[k].auth) else None
  }

  // From time t on, nobody can tell the two apart.
  ghost predicate SameAnswers(e: Entries, f: Entries, now: int) {
    forall k, t :: now <= t ==> Answer(f, k, t) == Answer(e, k, t)
  }

  /** Whole groups without one group. */
  ghost function Without(e: Entries, g: Entry): Entries {
    map k | k in e && e[k] != g :: e[k]
  }

  // The session's group is gone if it has expired, and nothing else is.
  ghost predicate Swept(e: Entries, f: Entries, id: string, now: int) {
    f == if id in e && e[id].expiresAt <= now then Without(e, e[id]) else e
  }

  lemma WithoutPartition(e: Entries, g: Entry)
    requires Partition(e)
    ensures Partition(Without(e, g))
  {
  }

  /** A new group laid over the others. */
  ghost function With(e: Entries, g: Entry): Entries {
    map k | k in e.Keys + (set a | a in g.aliases) :: if k in g.aliases then g else e[k]
  }

  // A group may be laid over others that it swallows whole.
  lemma WithPartition(e: Entries, g: Entry)
    requires Partition(e) && g.auth != "" && "" !in g.aliases
    requires forall k, a :: k in e && k in g.aliases && a in e[k].aliases ==> a in g.aliases
    ensures Partition(With(e, g))
  {
    var f := With(e, g);
    forall k, a | k in f && a in f[k].aliases
      ensures a in f && f[a] == f[k]
    {
      if k !in g.aliases {
        assert a in e && e[a] == e[k];
        assert k in e[a].aliases;
      }
    }
  }

  class Cache {
    var entries: Entries
    var ttl: int

    ghost predicate Valid()
      reads this
    {
      Partition(entries) && ttl > 0
    }

    constructor (ttl: int)
      ensures Valid() && entries == map[] && this.ttl == if ttl <= 0 then HOUR else ttl
    {
      entries := map[];
      this.ttl := if ttl <= 0 then HOUR else ttl;
    }

    method SetTtl(ttl: int)
      requires Valid()
      modifies this`ttl
      ensures Valid() && this.ttl == if ttl > 0 then ttl else old(this.ttl)
    {
      if ttl > 0 {
        this.ttl := ttl;
      }
    }

    /** Removes the group of an entry. */
    method RemoveGroupLocked(entry: Entry)
      requires Valid() && forall a :: a in entry.aliases && a in entries && entries[a].auth == entry.auth ==> entries[a] == entry
      modifies this`entries
      ensures Valid() && entries == Without(old(entries), entry)
    {
      ghost var before := entries;
      for i := 0 to |entry.aliases|
        invariant entries.Keys <= before.Keys && forall k :: k in entries ==> entries[k] == before[k]
        invariant forall k :: k in before && k !in entries ==> before[k] == entry
        invariant forall j :: 0 <= j < i && entry.aliases[j] in entries ==> entries[entry.aliases[j]] != entry
      {
        var alias := entry.aliases[i];
        if alias in entries && entries[alias].auth == entry.auth {
          entries := entries - {alias};
        }
      }
      assert entries == Without(before, entry);
      WithoutPartition(before, entry);
    }

    /** Looks a session up; the group of an expired entry is dropped. */
    method Get(now: int, id: string) returns (r: Option<string>)
      requires Valid()
      modifies this`entries
      ensures Valid() && r == Answer(old(entries), id, now)
      ensures SameAnswers(old(entries), entries, now)
      ensures Swept(old(entries), entries, id, now)
    {
      if id == "" || id !in entries {
        return None;
      }
      if now >= entries[id].expiresAt {
        RemoveGroupLocked(entries[id]);
        return None;
      }
      return Some(entries[id].auth);
    }

    // Removes several groups.
    method RemoveGroups(groups: seq<Entry>)
      requires Valid() && forall g :: g in groups ==> Owned(entries, g)
      modifies this`entries
      ensures Valid() && entries == WithoutAll(old(entries), groups)
    {
      ghost var before := entries;
      for i := 0 to |groups|
        invariant Valid() && entries == WithoutAll(before, groups[..i])
      {
        assert groups[i] in groups;
        RemoveGroupLocked(groups[i]);
        assert groups[..i + 1] == groups[..i] + [groups[i]];
        assert entries == WithoutAll(before, groups[..i + 1]);
      }
      assert groups[..|groups|] == groups;
    }

    /** Binds a group of aliases, swallowing the groups given. */
    method ReplaceLocked(auth: string, expiresAt: int, aliases: seq<string>, previous: seq<Entry>)
      requires Valid() && auth != "" && "" !in aliases
      requires forall p :: p in previous ==> Owned(entries, p) && forall a :: a in p.aliases ==> a in aliases
      requires forall k :: k in entries && k in aliases ==> entries[k] in previous
      modifies this`entries
      ensures Valid() && entries == With(old(entries), Entry(auth, expiresAt, aliases))
    {
      ghost var before := entries;
      var entry := Entry(auth, expiresAt, aliases);
      RemoveGroups(previous);
      ghost var rest := entries;
      for i := 0 to |aliases|
        invariant forall k :: k in entries <==> k in rest || k in aliases[..i]
        invariant forall k :: k in entries ==> entries[k] == if k in aliases[..i] then entry else rest[k]
      {
        entries := entries[aliases[i] := entry];
      }
      assert aliases[..|aliases|] == aliases;
      Swallowed(before, previous, entry, entries);
    }

    /** Looks a session up and, if it is bound, restarts the expiry of its whole group. */
    method GetAndRefresh(now: int, id: string) returns (r: Option<string>)
      requires Valid()
      modifies this`entries
      ensures Valid() && r == Answer(old(entries), id, now)
      ensures r.None? ==> SameAnswers(old(entries), entries, now) && Swept(old(entries), entries, id, now)
      ensures r.Some? ==> Refreshed(old(entries), id, now + ttl, entries)
    {
      if id == "" || id !in entries {
        return None;
      }
      var entry := entries[id];
      if now >= entry.expiresAt {
        RemoveGroupLocked(entry);
        return None;
      }
      var aliases := MergeAliases([id], entry.aliases);
      assert SameMembers(aliases, entry.aliases);
      ReplaceLocked(entry.auth, now + ttl, aliases, [entry]);
      IsRefreshed(old(entries), id, Entry(entry.auth, now + ttl, aliases));
      return Some(entry.auth);
    }

    /** Binds session ids, and every session that shares a live group with one of them, to an account. */
    method SetAliases(now: int, auth: string, ids: seq<string>)
      requires Valid()
      modifies this`entries
      ensures Valid()
      ensures auth == "" ==> entries == old(entries)
      ensures auth != "" ==> forall k, t :: now <= t ==>
                Answer(entries, k, t)
                == if InGroup(old(entries), ids, now, k) then Until(auth, now + ttl, t) else Answer(old(entries), k, t)
      ensures auth != "" ==> forall k :: InGroup(old(entries), ids, now, k) ==>
                k in entries && forall a :: a in entries[k].aliases <==> InGroup(old(entries), ids, now, a)
      ensures auth != "" ==> Rebinds(old(entries), ids, now, auth, now + ttl, entries)
    {
      if auth == "" {
        return;
      }
      var aliases, previous := CollectLive(now, ids);
      if |aliases| == 0 {
        DropAnswers(old(entries), ids, now);
        assert forall k :: !InGroup(old(entries), ids, now, k);
        return;
      }
      ReplaceLocked(auth, now + ttl, aliases, previous);
      Rebound(old(entries), ids, now, Entry(auth, now + ttl, aliases));
    }

    // The loop of SetAliases: drops the expired groups of `ids`, collects the live ones.
    method CollectLive(now: int, ids: seq<string>) returns (aliases: seq<string>, previous: seq<Entry>)
      requires Valid()
      modifies this`entries
      ensures Valid() && entries == DropExpired(old(entries), ids, now)
      ensures forall k :: k in aliases <==> InGroup(old(entries), ids, now, k)
      ensures forall p :: p in previous ==> Owned(entries, p) && forall a :: a in p.aliases ==> a in aliases
      ensures forall k :: k in entries && k in aliases ==> entries[k] in previous
    {
      aliases := MergeAliases([], ids);
      previous := [];
      ghost var before := entries;
      for i := 0 to |ids|
        invariant Valid() && entries == DropExpired(before, ids[..i], now)
        invariant Collected(before, ids[..i], now, previous)
        invariant forall k :: k in aliases <==> k != "" && (k in ids || AliasOf(previous, k))
      {
        var id := ids[i];
        assert ids[..i + 1] == ids[..i] + [id];
        DropOne(before, ids[..i], now, id);
        if id !in entries {
          CollectNone(before, ids[..i], now, previous, id);
        } else if now >= entries[id].expiresAt {
          RemoveGroupLocked(entries[id]);
          CollectNone(before, ids[..i], now, previous, id);
        } else {
          CollectMore(before, ids[..i], now, previous, id, ids, aliases);
          aliases := MergeAliases(aliases, entries[id].aliases);
          previous := previous + [entries[id]];
        }
      }
      assert ids[..|ids|] == ids;
      GroupIs(before, ids, now, previous, aliases);
      StillOwned(before, ids, now, previous, aliases);
    }

    /** Drops the bindings of an account, one group per distinct expiry: all of them exactly when its
        groups have distinct expiries. Other accounts' bindings are untouched. */
    method InvalidateAuth(auth: string)
      requires Valid()
      modifies this`entries
      ensures Valid() && entries.Keys <= old(entries).Keys
      ensures forall k :: k in old(entries) && (k in entries || old(entries)[k].auth != auth) ==>
                k in entries && entries[k] == old(entries)[k]
      ensures auth != "" ==> forall k :: k in old(entries) && old(entries)[k].auth == auth ==>
                ExpiryDropped(old(entries), entries, old(entries)[k].expiresAt)
      ensures auth != "" ==> (NoneOf(entries, auth) <==> DistinctExpiries(old(entries), auth))
    {
      if auth == "" {
        return;
      }
      var groups := CollectGroups(auth);
      RemoveGroups(groups);
      Invalidated(old(entries), auth, groups);
    }

    // One group of the account for each expiry, in any order of iteration.
    method CollectGroups(auth: string) returns (groups: seq<Entry>)
      requires Valid()
      ensures OnePerExpiry(entries, auth, groups)
      ensures forall k :: k in entries && entries[k].auth == auth ==> ExpiryAmong(groups, entries[k].expiresAt)
      ensures forall g :: g in groups ==> Owned(entries, g)
    {
      var todo := entries.Keys;
      var seen: set<int> := {};
      groups := [];
      while todo != {}
        invariant todo <= entries.Keys && OnePerExpiry(entries, auth, groups)
        invariant forall x :: x in seen <==> ExpiryAmong(groups, x)
        invariant forall k :: k in entries && k !in todo && entries[k].auth == auth ==> entries[k].expiresAt in seen
        decreases todo
      {
        var k :| k in todo;
        todo := todo - {k};
        if entries[k].auth == auth && entries[k].expiresAt !in seen {
          OneMoreGroup(entries, auth, groups, k);
          seen := seen + {entries[k].expiresAt};
          groups := groups + [entries[k]];
        }
      }
    }
  }

  ghost predicate ExpiryAmong(groups: seq<Entry>, x: int) {
    exists g :: g in groups && g.expiresAt == x
  }

  lemma OneMoreGroup(e: Entries, auth: string, groups: seq<Entry>, k: string)
    requires OnePerExpiry(e, auth, groups) && k in e && e[k].auth == auth && !ExpiryAmong(groups, e[k].expiresAt)
    ensures OnePerExpiry(e, auth, groups + [e[k]])
    ensures forall x :: ExpiryAmong(groups + [e[k]], x) <==> ExpiryAmong(groups, x) || x == e[k].expiresAt
  {
    var more := groups + [e[k]];
    assert more[|groups|] == e[k];
    forall x | ExpiryAmong(groups, x)
      ensures ExpiryAmong(more, x)
    {
      var g :| g in groups && g.expiresAt == x;
      assert g in more;
    }
    forall i | 0 <= i < |groups|
      ensures groups[i].expiresAt != e[k].expiresAt
    {
      assert groups[i] in groups;
    }
  }

  ghost predicate NoneOf(e: Entries, auth: string) {
    forall k :: k in e ==> e[k].auth != auth
  }

  ghost predicate DistinctExpiries(e: Entries, auth: string) {
    forall k, j :: k in e && j in e && e[k].auth == auth && e[j].auth == auth && e[k].expiresAt == e[j].expiresAt ==> e[k] == e[j]
  }

  // Groups of one account, no two with the same expiry.
  ghost predicate OnePerExpiry(e: Entries, auth: string, groups: seq<Entry>) {
    && (forall g :: g in groups ==> g.auth == auth && exists k :: k in e && e[k] == g)
    && (forall i, j :: 0 <= i < j < |groups| ==> groups[i].expiresAt != groups[j].expiresAt)
  }

  // Some binding with that expiry is gone.
  ghost predicate ExpiryDropped(e: Entries, f: Entries, x: int) {
    exists j :: j in e && j !in f && e[j].expiresAt == x
  }

  lemma Invalidated(e: Entries, auth: string, groups: seq<Entry>)
    requires OnePerExpiry(e, auth, groups)
    requires forall k :: k in e && e[k].auth == auth ==> ExpiryAmong(groups, e[k].expiresAt)
    ensures NoneOf(WithoutAll(e, groups), auth) <==> DistinctExpiries(e, auth)
    ensures forall k :: k in e && e[k].auth == auth ==> ExpiryDropped(e, WithoutAll(e, groups), e[k].expiresAt)
  {
    forall k | k in e && e[k].auth == auth
      ensures ExpiryDropped(e, WithoutAll(e, groups), e[k].expiresAt)
    {
      var j := Dropped(e, auth, groups, k);
    }
    if NoneOf(WithoutAll(e, groups), auth) {
      NoneMeansDistinct(e, auth, groups);
    } else {
      var k :| k in WithoutAll(e, groups) && e[k].auth == auth;
      StaysMeansShared(e, auth, groups, k);
    }
  }

  // A binding that stays shares its expiry with another group, which was dropped instead.
  lemma StaysMeansShared(e: Entries, auth: string, groups: seq<Entry>, k: string)
    requires OnePerExpiry(e, auth, groups) && k in WithoutAll(e, groups) && e[k].auth == auth
    requires ExpiryAmong(groups, e[k].expiresAt)
    ensures !DistinctExpiries(e, auth)
  {
    var j := Dropped(e, auth, groups, k);
    assert e[j] != e[k];
  }

  // The group that is dropped for k's expiry.
  lemma Dropped(e: Entries, auth: string, groups: seq<Entry>, k: string) returns (j: string)
    requires OnePerExpiry(e, auth, groups) && k in e && ExpiryAmong(groups, e[k].expiresAt)
    ensures j in e && e[j].auth == auth && e[j] in groups && j !in WithoutAll(e, groups) && e[j].expiresAt == e[k].expiresAt
  {
    var g :| g in groups && g.expiresAt == e[k].expiresAt;
    j :| j in e && e[j] == g;
  }

  lemma NoneMeansDistinct(e: Entries, auth: string, groups: seq<Entry>)
    requires OnePerExpiry(e, auth, groups) && NoneOf(WithoutAll(e, groups), auth)
    ensures DistinctExpiries(e, auth)
  {
    forall k, j | k in e && j in e && e[k].auth == auth && e[j].auth == auth && e[k].expiresAt == e[j].expiresAt
      ensures e[k] == e[j]
    {
      assert k !in WithoutAll(e, groups) && j !in WithoutAll(e, groups);
      var x :| 0 <= x < |groups| && groups[x] == e[k];
      var y :| 0 <= y < |groups| && groups[y] == e[j];
      assert x == y;
    }
  }

  lemma Rebound(e: Entries, ids: seq<string>, now: int, g: Entry)
    requires forall k :: k in g.aliases <==> InGroup(e, ids, now, k)
    ensures var f := With(DropExpired(e, ids, now), g);
            forall k, t :: now <= t ==>
              Answer(f, k, t) == if InGroup(e, ids, now, k) then Until(g.auth, g.expiresAt, t) else Answer(e, k, t)
  {
    WithAnswers(DropExpired(e, ids, now), g);
    DropAnswers(e, ids, now);
  }

  function Until(auth: string, expiresAt: int, t: int): Option<string> {
    if t < expiresAt then Some(auth) else None
  }

  ghost predicate SameMembers(a: seq<string>, b: seq<string>) {
    forall x :: x in a <==> x in b
  }

  lemma WithAnswers(e: Entries, g: Entry)
    ensures forall k, t :: Answer(With(e, g), k, t)
                           == if k in g.aliases then Until(g.auth, g.expiresAt, t) else Answer(e, k, t)
  {
  }

  /** The group of `id` is the same group as before, with a new expiry; nothing else changed. */
  ghost predicate Refreshed(e: Entries, id: string, expiresAt: int, f: Entries) {
    && id in e
    && (forall k :: k in f <==> k in e)
    && (forall k :: k in e ==>
          if k in e[id].aliases then SameMembers(f[k].aliases, e[id].aliases) && f[k].auth == e[id].auth && f[k].expiresAt == expiresAt
          else f[k] == e[k])
  }

  lemma IsRefreshed(e: Entries, id: string, g: Entry)
    requires Partition(e) && id in e && SameMembers(g.aliases, e[id].aliases) && g.auth == e[id].auth
    ensures Refreshed(e, id, g.expiresAt, With(e, g))
  {
  }

  /** The group of `ids` is bound to the account; but for expired groups met along `ids`, all else is as it was. */
  ghost predicate Rebinds(e: Entries, ids: seq<string>, now: int, auth: string, expiresAt: int, f: Entries) {
    && (forall k :: InGroup(e, ids, now, k) ==>
          k in f && f[k].auth == auth && f[k].expiresAt == expiresAt
          && forall a :: a in f[k].aliases <==> InGroup(e, ids, now, a))
    && (forall k :: !InGroup(e, ids, now, k) ==>
          (k in f <==> k in DropExpired(e, ids, now)) && (k in f ==> f[k] == e[k]))
  }

  ghost predicate LiveId(e: Entries, id: string, now: int) {
    id in e && now < e[id].expiresAt
  }

  /** The sessions that end up in one group with `ids`. */
  ghost predicate InGroup(e: Entries, ids: seq<string>, now: int, k: string) {
    k != "" && (k in ids || exists id :: id in ids && LiveId(e, id, now) && k in e[id].aliases)
  }

  // Without the expired groups met along `ids`.
  ghost function DropExpired(e: Entries, ids: seq<string>, now: int): Entries {
    map k | k in e && !(e[k].expiresAt <= now && exists id :: id in ids && id in e && e[id] == e[k]) :: e[k]
  }

  // The live entries met along `ids`.
  ghost predicate Collected(e: Entries, ids: seq<string>, now: int, previous: seq<Entry>) {
    && (forall p :: p in previous ==> exists id :: id in ids && LiveId(e, id, now) && e[id] == p)
    && (forall id :: id in ids && LiveId(e, id, now) ==> e[id] in previous)
  }

  /** All the aliases of g are bound by g itself. */
  ghost predicate Owned(e: Entries, g: Entry) {
    forall a :: a in g.aliases ==> a in e && e[a] == g
  }

  ghost function WithoutAll(e: Entries, groups: seq<Entry>): Entries {
    map k | k in e && e[k] !in groups :: e[k]
  }

  lemma Swallowed(e: Entries, previous: seq<Entry>, g: Entry, f: Entries)
    requires Partition(e) && g.auth != "" && "" !in g.aliases
    requires forall p :: p in previous ==> Owned(e, p) && forall a :: a in p.aliases ==> a in g.aliases
    requires forall k :: k in e && k in g.aliases ==> e[k] in previous
    requires forall k :: k in f <==> k in WithoutAll(e, previous) || k in g.aliases
    requires forall k :: k in f ==> f[k] == if k in g.aliases then g else e[k]
    ensures f == With(e, g) && Partition(f)
  {
    forall k | k in e && e[k] in previous
      ensures k in g.aliases
    {
      assert k in e[k].aliases;
    }
    WithPartition(e, g);
  }

  lemma DropOne(e: Entries, ids: seq<string>, now: int, id: string)
    ensures var d := DropExpired(e, ids, now);
            DropExpired(e, ids + [id], now) == if id in d && d[id].expiresAt <= now then Without(d, d[id]) else d
  {
  }

  lemma CollectNone(e: Entries, ids: seq<string>, now: int, previous: seq<Entry>, id: string)
    requires Collected(e, ids, now, previous) && !LiveId(e, id, now)
    ensures Collected(e, ids + [id], now, previous)
  {
  }

  ghost predicate AliasOf(previous: seq<Entry>, k: string) {
    exists p :: p in previous && k in p.aliases
  }

  lemma CollectMore(e: Entries, before: seq<string>, now: int, previous: seq<Entry>, id: string, ids: seq<string>, aliases: seq<string>)
    requires Collected(e, before, now, previous) && LiveId(e, id, now)
    requires forall k :: k in aliases <==> k != "" && (k in ids || AliasOf(previous, k))
    ensures Collected(e, before + [id], now, previous + [e[id]])
    ensures forall k :: k in Merged(aliases + e[id].aliases) <==> k != "" && (k in ids || AliasOf(previous + [e[id]], k))
  {
    var more := previous + [e[id]];
    assert more[|previous|] == e[id];
    forall k
      ensures AliasOf(more, k) <==> AliasOf(previous, k) || k in e[id].aliases
    {
      if AliasOf(previous, k) {
        var p :| p in previous && k in p.aliases;
        assert p in more;
      }
    }
  }

  lemma GroupIs(e: Entries, ids: seq<string>, now: int, previous: seq<Entry>, aliases: seq<string>)
    requires Partition(e) && Collected(e, ids, now, previous)
    requires forall k :: k in aliases <==> k != "" && (k in ids || AliasOf(previous, k))
    ensures forall k :: k in aliases <==> InGroup(e, ids, now, k)
  {
  }

  lemma StillOwned(e: Entries, ids: seq<string>, now: int, previous: seq<Entry>, aliases: seq<string>)
    requires Partition(e) && Collected(e, ids, now, previous)
    requires forall k :: k in aliases <==> InGroup(e, ids, now, k)
    ensures var d := DropExpired(e, ids, now);
            && (forall p :: p in previous ==> Owned(d, p) && forall a :: a in p.aliases ==> a in aliases)
            && (forall k :: k in d && k in aliases ==> d[k] in previous)
  {
  }

  lemma DropAnswers(e: Entries, ids: seq<string>, now: int)
    ensures SameAnswers(e, DropExpired(e, ids, now), now)
  {
  }

  /** Two sessions bound to one account at the same moment are two groups with one expiry: invalidating the
      account leaves one of them bound. */
  method EqualExpiries(auth: string) returns (cache: Cache)
    requires auth != ""
    ensures cache.Valid() && !NoneOf(cache.entries, auth)
  {
    cache := new Cache(10);
    cache.SetAliases(0, auth, ["a"]);
    ghost var one := cache.entries;
    assert Answer(one, "a", 9) == Some(auth) && Answer(one, "a", 10).None?;
    cache.SetAliases(0, auth, ["b"]);
    ghost var two := cache.entries;
    assert Answer(two, "b", 9) == Some(auth) && Answer(two, "b", 10).None?;
    assert Answer(two, "a", 9) == Some(auth) && Answer(two, "a", 10).None?;
    assert "a" !in two["b"].aliases;
    assert two["a"] != two["b"];
    cache.InvalidateAuth(auth);
  }
}
