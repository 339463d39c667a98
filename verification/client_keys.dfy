/** The client-key store (internal/clientkeys/store.go): entries by id, ids by plaintext, and usage totals
    that reach the backend in batches. Ids are unbounded; timestamps and descriptions are left out. Whether
    a write reaches the backend is a parameter, since the source carries on either way. */
module ClientKeys {
  import opened Options

  const SYSTEM_ID := 0
  const FLUSH_THRESHOLD := 100

  datatype Totals = Totals(input: nat, output: nat, cacheCreate: nat, cacheRead: nat, credits: real)

  datatype Key = Key(id: nat, key: string, name: string, group: string, isSystem: bool, disabled: bool, calls: nat, totals: Totals)

  const NONE := Totals(0, 0, 0, 0, 0.0)

  // ---------------------------------------------------------------- the two indexes

  type Entries = map<nat, Key>
  type Index = map<string, nat>

  /** Each entry is found under its id and, through the index, under its plaintext; and nothing else is. */
  ghost predicate Inverse(entries: Entries, byKey: Index) {
    && (forall id :: id in entries ==> entries[id].id == id && entries[id].key in byKey && byKey[entries[id].key] == id)
    && (forall k :: k in byKey ==> byKey[k] in entries && entries[byKey[k]].key == k)
  }

  lemma PutNew(entries: Entries, byKey: Index, e: Key)
    requires Inverse(entries, byKey) && e.id !in entries && e.key !in byKey
    ensures Inverse(entries[e.id := e], byKey[e.key := e.id])
  {
  }

  lemma PutSame(entries: Entries, byKey: Index, e: Key)
    requires Inverse(entries, byKey) && e.id in entries && entries[e.id].key == e.key
    ensures Inverse(entries[e.id := e], byKey)
  {
  }

  lemma Removed(entries: Entries, byKey: Index, id: nat)
    requires Inverse(entries, byKey) && id in entries
    ensures Inverse(entries - {id}, byKey - {entries[id].key})
  {
    var k := entries[id].key;
    forall other | other in entries && other != id
      ensures entries[other].key != k
    {
      assert byKey[entries[other].key] == other;
    }
  }

  /** Under inverse indexes no two entries share a plaintext. */
  lemma OneEach(entries: Entries, byKey: Index, id: nat, other: nat)
    requires Inverse(entries, byKey) && id in entries && other in entries && entries[id].key == entries[other].key
    ensures id == other
  {
    assert byKey[entries[id].key] == id;
  }

  // ---------------------------------------------------------------- loading

  // The maps, and the highest id, after loading the first n keys of a stored list.
  function LoadedEntries(list: seq<Key>, n: nat): Entries
    requires n <= |list|
  {
    if n == 0 then map[] else LoadedEntries(list, n - 1)[list[n - 1].id := list[n - 1]]
  }

  function LoadedIndex(list: seq<Key>, n: nat): Index
    requires n <= |list|
  {
    if n == 0 then map[] else LoadedIndex(list, n - 1)[list[n - 1].key := list[n - 1].id]
  }

  function MaxId(list: seq<Key>, n: nat): nat
    requires n <= |list|
  {
    if n == 0 then 0
    else
      var max := MaxId(list, n - 1);
      if list[n - 1].id > max then list[n - 1].id else max
  }

  predicate LastWithId(list: seq<Key>, i: nat, n: nat)
    requires i < n <= |list|
  {
    forall j :: i < j < n ==> list[j].id != list[i].id
  }

  predicate LastWithKey(list: seq<Key>, i: nat, n: nat)
    requires i < n <= |list|
  {
    forall j :: i < j < n ==> list[j].key != list[i].key
  }

  // What each map holds is the last of the list under that id or plaintext.
  lemma {:induction false} LastById(list: seq<Key>, i: nat, n: nat)
    requires i < n <= |list| && LastWithId(list, i, n)
    ensures list[i].id in LoadedEntries(list, n) && LoadedEntries(list, n)[list[i].id] == list[i]
  {
    if i < n - 1 {
      LastById(list, i, n - 1);
      assert list[n - 1].id != list[i].id;
    }
  }

  lemma {:induction false} LastByKey(list: seq<Key>, i: nat, n: nat)
    requires i < n <= |list| && LastWithKey(list, i, n)
    ensures list[i].key in LoadedIndex(list, n) && LoadedIndex(list, n)[list[i].key] == list[i].id
  {
    if i < n - 1 {
      LastByKey(list, i, n - 1);
      assert list[n - 1].key != list[i].key;
    }
  }

  lemma {:induction false} MaxAbove(list: seq<Key>, n: nat)
    requires n <= |list|
    ensures forall id :: id in LoadedEntries(list, n) ==> id <= MaxId(list, n)
  {
    if n > 0 {
      MaxAbove(list, n - 1);
    }
  }

  // Entries are stored under their own ids, and plaintexts lead to entries.
  lemma {:induction false} LoadedOwn(list: seq<Key>, n: nat)
    requires n <= |list|
    ensures forall id :: id in LoadedEntries(list, n) ==> LoadedEntries(list, n)[id].id == id
    ensures forall k :: k in LoadedIndex(list, n) ==> LoadedIndex(list, n)[k] in LoadedEntries(list, n)
  {
    if n > 0 {
      LoadedOwn(list, n - 1);
    }
  }

  lemma {:induction false} LoadedFrom(list: seq<Key>, n: nat, id: nat) returns (i: nat)
    requires n <= |list| && id in LoadedEntries(list, n)
    ensures i < n && list[i].id == id && LastWithId(list, i, n)
  {
    if list[n - 1].id == id {
      i := n - 1;
    } else {
      i := LoadedFrom(list, n - 1, id);
    }
  }

  lemma {:induction false} LoadedKeyFrom(list: seq<Key>, n: nat, key: string) returns (i: nat)
    requires n <= |list| && key in LoadedIndex(list, n)
    ensures i < n && list[i].key == key && LastWithKey(list, i, n)
  {
    if list[n - 1].key == key {
      i := n - 1;
    } else {
      i := LoadedKeyFrom(list, n - 1, key);
    }
  }

  // The last key with an id is also the last with its plaintext, and the other way round.
  ghost predicate Unambiguous(list: seq<Key>) {
    forall i :: 0 <= i < |list| ==> (LastWithId(list, i, |list|) <==> LastWithKey(list, i, |list|))
  }

  /** Loading a stored list gives inverse indexes exactly when no key of it shadows half of another. */
  lemma {:induction false} LoadInverse(list: seq<Key>)
    ensures Inverse(LoadedEntries(list, |list|), LoadedIndex(list, |list|)) <==> Unambiguous(list)
  {
    var n := |list|;
    var entries, byKey := LoadedEntries(list, n), LoadedIndex(list, n);
    if Unambiguous(list) {
      forall id | id in entries
        ensures entries[id].id == id && entries[id].key in byKey && byKey[entries[id].key] == id
      {
        var i := LoadedFrom(list, n, id);
        LastById(list, i, n);
        LastByKey(list, i, n);
      }
      forall k | k in byKey
        ensures byKey[k] in entries && entries[byKey[k]].key == k
      {
        var i := LoadedKeyFrom(list, n, k);
        LastById(list, i, n);
        LastByKey(list, i, n);
      }
    }
    if Inverse(entries, byKey) {
      forall i | 0 <= i < n
        ensures LastWithId(list, i, n) <==> LastWithKey(list, i, n)
      {
        LastBoth(list, i);
      }
    }
  }

  lemma {:induction false} LastBoth(list: seq<Key>, i: nat)
    requires i < |list| && Inverse(LoadedEntries(list, |list|), LoadedIndex(list, |list|))
    ensures LastWithId(list, i, |list|) <==> LastWithKey(list, i, |list|)
  {
    var n := |list|;
    var entries, byKey := LoadedEntries(list, n), LoadedIndex(list, n);
    if LastWithId(list, i, n) {
      LastById(list, i, n);
      var j := LoadedKeyFrom(list, n, list[i].key);
      LastByKey(list, j, n);
      assert byKey[list[i].key] == list[i].id == list[j].id;
      assert j >= i;
      assert j <= i;
    }
    if LastWithKey(list, i, n) {
      LastByKey(list, i, n);
      var j := LoadedFrom(list, n, list[i].id);
      LastById(list, j, n);
      assert entries[list[i].id] == list[j];
      assert j >= i;
      assert j <= i;
    }
  }

  /** What a save writes: every entry once, in whatever order. */
  ghost predicate Lists(list: seq<Key>, entries: Entries) {
    && (forall i :: 0 <= i < |list| ==> list[i].id in entries && entries[list[i].id] == list[i])
    && (forall i, j :: 0 <= i < j < |list| ==> list[i].id != list[j].id)
    && (forall id :: id in entries ==> exists i :: 0 <= i < |list| && list[i].id == id)
  }

  lemma {:induction false} MaxBelow(list: seq<Key>, n: nat, limit: nat)
    requires n <= |list| && limit > 0 && forall i :: 0 <= i < n ==> list[i].id < limit
    ensures MaxId(list, n) < limit
  {
    if n > 0 {
      MaxBelow(list, n - 1, limit);
    }
  }

  lemma {:induction false} ListedEntries(list: seq<Key>, entries: Entries, byKey: Index)
    requires Inverse(entries, byKey) && Lists(list, entries)
    ensures LoadedEntries(list, |list|) == entries
  {
    var n := |list|;
    var es := LoadedEntries(list, n);
    forall id | id in entries
      ensures id in es && es[id] == entries[id]
    {
      var i :| 0 <= i < n && list[i].id == id;
      AllLast(list, entries, byKey, i);
      LastById(list, i, n);
    }
    forall id | id in es
      ensures id in entries
    {
      var i := LoadedFrom(list, n, id);
    }
  }

  lemma {:induction false} ListedIndex(list: seq<Key>, entries: Entries, byKey: Index)
    requires Inverse(entries, byKey) && Lists(list, entries)
    ensures LoadedIndex(list, |list|) == byKey
  {
    var n := |list|;
    var ks := LoadedIndex(list, n);
    forall k | k in byKey
      ensures k in ks && ks[k] == byKey[k]
    {
      var i :| 0 <= i < n && list[i].id == byKey[k];
      AllLast(list, entries, byKey, i);
      assert list[i].key == k;
      LastByKey(list, i, n);
    }
    forall k | k in ks
      ensures k in byKey
    {
      var i := LoadedKeyFrom(list, n, k);
      assert entries[list[i].id].key == k;
    }
  }

  /** Loading what was saved gives both indexes back. The next id is the same exactly if the last id given
      out is still in use; otherwise ids are handed out again. */
  lemma {:induction false} SaveLoad(list: seq<Key>, entries: Entries, byKey: Index, nextId: nat)
    requires Inverse(entries, byKey) && Lists(list, entries)
    requires nextId > 0 && forall id :: id in entries ==> id < nextId
    ensures LoadedEntries(list, |list|) == entries && LoadedIndex(list, |list|) == byKey
    ensures var next := MaxId(list, |list|) + 1;
            && next <= nextId && (forall id :: id in entries ==> id < next)
            && (next == nextId <==> nextId == 1 || nextId - 1 in entries)
  {
    ListedEntries(list, entries, byKey);
    ListedIndex(list, entries, byKey);
    MaxAbove(list, |list|);
    MaxBelow(list, |list|, nextId);
    MaxTaken(list, |list|);
  }

  lemma {:induction false} MaxTaken(list: seq<Key>, n: nat)
    requires n <= |list|
    ensures MaxId(list, n) == 0 || MaxId(list, n) in LoadedEntries(list, n)
  {
    if n > 0 {
      MaxTaken(list, n - 1);
    }
  }

  /** A key is created and deleted; after a restart the next key gets its id. */
  method IdReused() returns (first: Key, second: Key)
    ensures first.key != second.key && first.id == second.id
  {
    var store := new Store([]);
    var r := store.CreateWithKey("first", "", "a", true);
    first := r.value;
    var ok := store.Delete(first.id, true);
    assert store.entries == map[];
    assert Lists([], store.saved);
    var restarted := new Store([]);
    r := restarted.CreateWithKey("second", "", "b", true);
    second := r.value;
  }

  /** Two plaintexts with one id are loaded and that id is deleted: the first plaintext is still known, without
      an entry, and creating a key with it fails. */
  method PlaintextWithoutEntry() returns (r: Option<Key>)
    ensures r.None?
  {
    var list := [Key(1, "a", "", "", false, false, 0, NONE), Key(1, "b", "", "", false, false, 0, NONE)];
    var store := new Store(list);
    assert LoadedIndex(list, 1) == map["a" := 1];
    assert LoadedIndex(list, 2) == map["a" := 1, "b" := 1];
    assert LoadedEntries(list, 2)[1] == list[1];
    var ok := store.Delete(1, true);
    r := store.CreateWithKey("", "", "a", true);
  }

  lemma AllLast(list: seq<Key>, entries: Entries, byKey: Index, i: nat)
    requires Inverse(entries, byKey) && Lists(list, entries) && i < |list|
    ensures LastWithId(list, i, |list|) && LastWithKey(list, i, |list|)
  {
    forall j | i < j < |list|
      ensures list[j].key != list[i].key
    {
      if list[j].key == list[i].key {
        OneEach(entries, byKey, list[i].id, list[j].id);
      }
    }
  }

  // ---------------------------------------------------------------- usage not yet saved

  datatype Usage = Usage(id: nat, input: nat, output: nat, cacheCreate: nat, cacheRead: nat, credits: real)

  function Add(t: Totals, u: Usage): Totals {
    Totals(t.input + u.input, t.output + u.output, t.cacheCreate + u.cacheCreate, t.cacheRead + u.cacheRead,
           if u.credits > 0.0 then t.credits + u.credits else t.credits)
  }

  /** Totals of one key after some more usage, each record counted for its own key. */
  function After(t: Totals, id: nat, pending: seq<Usage>): Totals {
    if pending == [] then t
    else
      var u := pending[|pending| - 1];
      var before := After(t, id, pending[..|pending| - 1]);
      if u.id == id then Add(before, u) else before
  }

  lemma {:induction false} AfterOne(t: Totals, id: nat, pending: seq<Usage>, u: Usage)
    ensures After(t, id, pending + [u]) == if u.id == id then Add(After(t, id, pending), u) else After(t, id, pending)
  {
    assert (pending + [u])[..|pending|] == pending;
  }

  function Total(pending: seq<Usage>, id: nat, part: Usage -> nat): nat {
    if pending == [] then 0
    else
      var u := pending[|pending| - 1];
      Total(pending[..|pending| - 1], id, part) + (if u.id == id then part(u) else 0)
  }

  // Only a positive amount of credits counts.
  function Credits(pending: seq<Usage>, id: nat): real {
    if pending == [] then 0.0
    else
      var u := pending[|pending| - 1];
      Credits(pending[..|pending| - 1], id) + (if u.id == id && u.credits > 0.0 then u.credits else 0.0)
  }

  /** Each total grows by its own part of the key's records. */
  lemma {:induction false} AfterSums(t: Totals, id: nat, pending: seq<Usage>)
    ensures After(t, id, pending).input == t.input + Total(pending, id, (u: Usage) => u.input)
    ensures After(t, id, pending).output == t.output + Total(pending, id, (u: Usage) => u.output)
    ensures After(t, id, pending).cacheCreate == t.cacheCreate + Total(pending, id, (u: Usage) => u.cacheCreate)
    ensures After(t, id, pending).cacheRead == t.cacheRead + Total(pending, id, (u: Usage) => u.cacheRead)
    ensures After(t, id, pending).credits == t.credits + Credits(pending, id)
  {
    if pending != [] {
      AfterSums(t, id, pending[..|pending| - 1]);
    }
  }

  ghost predicate AheadAt(entries: Entries, saved: Entries, pending: seq<Usage>, id: nat)
  {
    && (id in entries <==> id in saved)
    && (id in entries && id in saved ==> entries[id].totals == After(saved[id].totals, id, pending))
  }

  /** Memory is ahead of the backend by the pending usage, and by nothing else that counts. */
  ghost predicate Ahead(entries: Entries, saved: Entries, pending: seq<Usage>) {
    forall id :: AheadAt(entries, saved, pending, id)
  }

  // ---------------------------------------------------------------- how far the backend may lag

  /** Records since the last write, and records that were already pending at writes that failed. */
  datatype Lag = Lag(dirty: nat, carried: nat) {
    function Size(): nat {
      dirty + carried
    }

    function Write(stored: bool): Lag {
      if stored then Lag(0, 0) else Lag(0, carried + dirty)
    }

    function Record(stored: bool): Lag {
      var l := Lag(dirty + 1, carried);
      if l.dirty >= FLUSH_THRESHOLD then l.Write(stored) else l
    }
  }

  /** A usage record, or a change of the keys; and whether a write it leads to succeeds. */
  datatype Event = Recorded(stored: bool) | Changed(stored: bool)

  function LagAfter(l: Lag, es: seq<Event>): Lag {
    if es == [] then l
    else
      var before, e := LagAfter(l, es[..|es| - 1]), es[|es| - 1];
      if e.Recorded? then before.Record(e.stored) else before.Write(e.stored)
  }

  ghost predicate AllStored(es: seq<Event>) {
    forall i :: 0 <= i < |es| ==> es[i].stored
  }

  function Records(n: nat, stored: bool): seq<Event> {
    seq(n, i => Recorded(stored))
  }

  lemma {:induction false} NothingCarried(l: Lag, es: seq<Event>)
    requires l.dirty < FLUSH_THRESHOLD && l.carried == 0 && AllStored(es)
    ensures LagAfter(l, es).carried == 0 && LagAfter(l, es).dirty < FLUSH_THRESHOLD
  {
    if es != [] {
      NothingCarried(l, es[..|es| - 1]);
    }
  }

  lemma {:induction false} OnlyCounted(l: Lag, n: nat, stored: bool)
    requires l.dirty + n < FLUSH_THRESHOLD
    ensures LagAfter(l, Records(n, stored)) == Lag(l.dirty + n, l.carried)
  {
    if n > 0 {
      OnlyCounted(l, n - 1, stored);
      assert Records(n, stored)[..n - 1] == Records(n - 1, stored);
    }
  }

  /** As long as writes succeed, the backend lags by 99 records at most, however the store is used from here on,
      if and only if nothing is carried over a write that failed. */
  lemma {:induction false} LagBounded(l: Lag)
    requires l.dirty < FLUSH_THRESHOLD
    ensures (forall es :: AllStored(es) ==> LagAfter(l, es).Size() <= 99) <==> l.carried == 0
  {
    if l.carried == 0 {
      forall es | AllStored(es)
        ensures LagAfter(l, es).Size() <= 99
      {
        NothingCarried(l, es);
      }
    } else {
      var n := 99 - l.dirty;
      OnlyCounted(l, n, true);
      assert AllStored(Records(n, true)) && LagAfter(l, Records(n, true)).Size() > 99;
    }
  }

  /** The write at the hundredth record fails, and a hundred records are missing with a count of 0. */
  lemma {:induction false} HundredthLost(l: Lag)
    requires l.dirty == 0
    ensures LagAfter(l, Records(99, true) + [Recorded(false)]) == Lag(0, l.carried + 100)
  {
    OnlyCounted(l, 99, true);
    assert (Records(99, true) + [Recorded(false)])[..99] == Records(99, true);
  }

  /** While writes keep failing the lag has no bound. */
  lemma {:induction false} LagUnbounded(n: nat) returns (es: seq<Event>)
    ensures LagAfter(Lag(0, 0), es) == Lag(0, 100 * n)
  {
    es := [];
    for i := 0 to n
      invariant LagAfter(Lag(0, 0), es) == Lag(0, 100 * i)
    {
      var more := Records(99, true) + [Recorded(false)];
      HundredthLost(LagAfter(Lag(0, 0), es));
      LagConcat(Lag(0, 0), es, more);
      es := es + more;
    }
  }

  lemma {:induction false} LagConcat(l: Lag, es: seq<Event>, fs: seq<Event>)
    ensures LagAfter(l, es + fs) == LagAfter(LagAfter(l, es), fs)
  {
    if fs == [] {
      assert es + fs == es;
    } else {
      assert (es + fs)[..|es + fs| - 1] == es + fs[..|fs| - 1];
      LagConcat(l, es, fs[..|fs| - 1]);
    }
  }

  lemma Caught(entries: Entries)
    ensures Ahead(entries, entries, [])
  {
  }

  lemma Moved(entries: Entries, byKey: Index, id: nat, e: Key)
    requires Inverse(entries, byKey) && id in entries && e.key == entries[id].key && e.id !in entries
    ensures Inverse((entries - {id})[e.id := e], byKey[e.key := e.id])
  {
    Removed(entries, byKey, id);
    PutNew(entries - {id}, byKey - {e.key}, e);
    assert (byKey - {e.key})[e.key := e.id] == byKey[e.key := e.id];
  }

  // The entry of a plaintext.
  function Find(entries: Entries, byKey: Index, k: string): Key
    requires k in byKey && byKey[k] in entries
  {
    entries[byKey[k]]
  }

  ghost predicate HasSystemKey(entries: Entries, byKey: Index, k: string, taken: bool) {
    && k in byKey && byKey[k] in entries && entries[byKey[k]].isSystem
    && (!taken ==> byKey[k] == SYSTEM_ID)
  }

  // Every entry has its own id, and the next id is still free.
  ghost predicate Numbered(entries: Entries, nextId: nat) {
    nextId > 0 && forall id :: id in entries ==> entries[id].id == id && id < nextId
  }

  /** The plaintext is known, but its entry is gone. */
  ghost predicate Dangles(entries: Entries, byKey: Index, k: string) {
    k in byKey && byKey[k] !in entries
  }

  class Store {
    var entries: Entries
    var byKey: Index
    var nextId: nat
    var usageDirty: nat
    // What the backend holds; the usage since then, of which so much was counted before a write that failed;
    // and whether something else changed since then.
    ghost var saved: Entries
    ghost var pending: seq<Usage>
    ghost var carried: nat
    ghost var changed: bool

    /** What holds of every store, loaded from whatever list. */
    ghost predicate Kept()
      reads this
    {
      Numbered(entries, nextId) && Lagging()
    }

    /** A sound store: the indexes are inverse, as they are unless an ambiguous list was loaded. */
    ghost predicate Valid()
      reads this
    {
      Kept() && Inverse(entries, byKey)
    }

    /** The backend lags by the pending usage: what was counted since the last write, and what was carried
        over writes that failed. */
    ghost predicate Lagging()
      reads this
    {
      && usageDirty < FLUSH_THRESHOLD && |pending| == usageDirty + carried
      && (!changed ==> Ahead(entries, saved, pending))
    }

    ghost function LagNow(): Lag
      reads this
    {
      Lag(usageDirty, carried)
    }

    /** The backend holds exactly what memory does. */
    ghost predicate Synced()
      reads this
    {
      saved == entries && pending == [] && LagNow() == Lag(0, 0) && !changed
    }

    /** Loads a stored list; a blank one is empty. The store is sound exactly when the list is unambiguous. */
    constructor (list: seq<Key>)
      ensures Kept() && (Valid() <==> Unambiguous(list)) && forall k :: !Dangles(entries, byKey, k)
      ensures entries == LoadedEntries(list, |list|) && byKey == LoadedIndex(list, |list|) && nextId == MaxId(list, |list|) + 1
    {
      var es: Entries, ks: Index, max := map[], map[], 0;
      for i := 0 to |list|
        invariant es == LoadedEntries(list, i) && ks == LoadedIndex(list, i) && max == MaxId(list, i)
      {
        var k := list[i];
        if k.id > max {
          max := k.id;
        }
        es, ks := es[k.id := k], ks[k.key := k.id];
      }
      MaxAbove(list, |list|);
      LoadedOwn(list, |list|);
      LoadInverse(list);
      Caught(es);
      entries, byKey, nextId, usageDirty := es, ks, max + 1, 0;
      saved, pending, carried, changed := es, [], 0, false;
    }

    // Writes everything, or tries to: the count starts over either way.
    method Save(stored: bool)
      requires |pending| == usageDirty + carried
      modifies this`usageDirty, this`saved, this`pending, this`carried, this`changed
      ensures LagNow() == old(LagNow()).Write(stored) && |pending| == usageDirty + carried
      ensures stored ==> Synced()
      ensures !stored ==> saved == old(saved) && pending == old(pending) && changed == old(changed)
    {
      carried := if stored then 0 else carried + usageDirty;
      usageDirty := 0;
      if stored {
        saved, pending, changed := entries, [], false;
      }
    }

    // Writes a change of the keys.
    method SaveChange(stored: bool)
      requires |pending| == usageDirty + carried
      modifies this`usageDirty, this`saved, this`pending, this`carried, this`changed
      ensures Lagging() && LagNow() == old(LagNow()).Write(stored)
      ensures stored ==> Synced()
    {
      Save(stored);
      changed := !stored;
      if stored {
        SyncedLags();
      }
    }

    lemma SyncedLags()
      requires Synced()
      ensures Lagging()
    {
      Caught(entries);
    }

    /** A known plaintext gives its key and changes nothing; a new one gets the next id. None: the plaintext is
        known but its entry is gone, and the source fails on the missing entry. */
    method CreateWithKey(name: string, group: string, plaintext: string, stored: bool) returns (r: Option<Key>)
      requires Kept()
      modifies this
      ensures Kept() && (old(Valid()) ==> Valid() && r.Some? && r.value.key == plaintext)
      ensures r.None? <==> Dangles(old(entries), old(byKey), plaintext)
      ensures r.Some? ==> plaintext in byKey && byKey[plaintext] in entries && entries[byKey[plaintext]] == r.value
      ensures plaintext in old(byKey) ==> unchanged(this)
      ensures plaintext !in old(byKey) ==>
                && r == Some(Key(old(nextId), plaintext, name, group, false, false, 0, NONE)) && nextId == old(nextId) + 1
                && entries == old(entries)[old(nextId) := r.value] && byKey == old(byKey)[plaintext := old(nextId)]
                && LagNow() == old(LagNow()).Write(stored) && (stored ==> Synced())
    {
      if plaintext in byKey {
        if byKey[plaintext] !in entries {
          return None;
        }
        return Some(entries[byKey[plaintext]]);
      }
      var e := Key(nextId, plaintext, name, group, false, false, 0, NONE);
      if Inverse(entries, byKey) {
        PutNew(entries, byKey, e);
      }
      nextId := nextId + 1;
      entries, byKey := entries[e.id := e], byKey[plaintext := e.id];
      SaveChange(stored);
      return Some(e);
    }

    /** Deletes a key that is there and not a system key; a refusal changes nothing. Other plaintexts with the
        id, that only an ambiguous list can give, are left without an entry. */
    method Delete(id: nat, stored: bool) returns (ok: bool)
      requires Kept()
      modifies this
      ensures Kept() && (old(Valid()) ==> Valid()) && (ok <==> id in old(entries) && !old(entries)[id].isSystem)
      ensures ok ==> entries == old(entries) - {id} && byKey == old(byKey) - {old(entries)[id].key} && nextId == old(nextId)
      ensures ok ==> (forall k :: Dangles(entries, byKey, k)
                                  <==> k in byKey && (Dangles(old(entries), old(byKey), k) || old(byKey)[k] == id))
      ensures ok ==> LagNow() == old(LagNow()).Write(stored) && (stored ==> Synced())
      ensures !ok ==> unchanged(this)
    {
      if id !in entries || entries[id].isSystem {
        return false;
      }
      if Inverse(entries, byKey) {
        Removed(entries, byKey, id);
      }
      entries, byKey := entries - {id}, byKey - {entries[id].key};
      SaveChange(stored);
      return true;
    }

    // Puts an entry back under the same id and plaintext, and saves.
    method Put(e: Key, stored: bool)
      requires Kept() && e.id in entries && entries[e.id].key == e.key
      modifies this`entries, this`usageDirty, this`saved, this`pending, this`carried, this`changed
      ensures Kept() && (old(Valid()) ==> Valid()) && entries == old(entries)[e.id := e]
      ensures LagNow() == old(LagNow()).Write(stored) && (stored ==> Synced())
    {
      if Inverse(entries, byKey) {
        PutSame(entries, byKey, e);
      }
      entries := entries[e.id := e];
      SaveChange(stored);
    }

    method SetDisabled(id: nat, disabled: bool, stored: bool) returns (ok: bool)
      requires Kept()
      modifies this
      ensures Kept() && (old(Valid()) ==> Valid()) && (ok <==> id in old(entries)) && byKey == old(byKey) && nextId == old(nextId)
      ensures entries == if ok then old(entries)[id := old(entries)[id].(disabled := disabled)] else old(entries)
      ensures ok ==> LagNow() == old(LagNow()).Write(stored) && (stored ==> Synced())
    {
      if id !in entries {
        return false;
      }
      Put(entries[id].(disabled := disabled), stored);
      return true;
    }

    /** Makes the configured plaintext a system key, under id 0 whenever that is free: a known key moves
        there with its name, group and totals. All other plaintexts lead where they did, in a sound store to
        what they did. A plaintext whose entry is gone changes nothing; `failed`: the source fails on the missing
        entry that it would move. */
    method EnsureSystemKey(name: string, plaintext: string, stored: bool) returns (failed: bool)
      requires Kept()
      modifies this
      ensures Kept() && (old(Valid()) ==> Valid() && !failed)
      ensures failed <==> plaintext != "" && Dangles(old(entries), old(byKey), plaintext)
                          && old(byKey)[plaintext] != SYSTEM_ID && SYSTEM_ID !in old(entries)
      ensures plaintext == "" || Dangles(old(entries), old(byKey), plaintext) ==> unchanged(this)
      ensures plaintext != "" && !Dangles(old(entries), old(byKey), plaintext) ==>
                HasSystemKey(entries, byKey, plaintext, SYSTEM_ID in old(entries))
      ensures forall k :: k != plaintext ==>
                (k in byKey <==> k in old(byKey)) && (k in byKey ==> byKey[k] == old(byKey)[k])
      ensures old(Valid()) ==> forall k :: k != plaintext && k in byKey ==>
                Find(entries, byKey, k) == Find(old(entries), old(byKey), k)
      ensures plaintext != "" && plaintext in old(byKey) && old(byKey)[plaintext] in old(entries) ==>
                Find(entries, byKey, plaintext)
                == Find(old(entries), old(byKey), plaintext).(id := byKey[plaintext], isSystem := true)
      ensures plaintext in old(byKey) && SYSTEM_ID in old(entries) ==> byKey == old(byKey)
      ensures plaintext != "" && plaintext !in old(byKey) ==>
                && byKey[plaintext] == (if SYSTEM_ID in old(entries) then old(nextId) else SYSTEM_ID)
                && Find(entries, byKey, plaintext) == Key(byKey[plaintext], plaintext, name, "", true, false, 0, NONE)
      ensures forall id :: id in old(entries) && !(plaintext in old(byKey) && old(byKey)[plaintext] == id) ==>
                id in entries && entries[id] == old(entries)[id]
      ensures entries != old(entries) ==> LagNow() == old(LagNow()).Write(stored) && (stored ==> Synced())
    {
      if plaintext == "" {
        return false;
      }
      if plaintext in byKey {
        var id := byKey[plaintext];
        if id != SYSTEM_ID && SYSTEM_ID !in entries {
          if id !in entries {
            return true;
          }
          Relocate(plaintext, id, stored);
        } else if id in entries && !entries[id].isSystem {
          Put(entries[id].(isSystem := true), stored);
        }
        return false;
      }
      AddSystem(name, plaintext, stored);
      return false;
    }

    method Relocate(plaintext: string, id: nat, stored: bool)
      requires Kept() && id in entries && SYSTEM_ID !in entries && plaintext in byKey && byKey[plaintext] == id
      modifies this`entries, this`byKey, this`usageDirty, this`saved, this`pending, this`carried, this`changed
      ensures Kept() && (old(Valid()) ==> Valid()) && byKey == old(byKey)[plaintext := SYSTEM_ID]
      ensures entries == (old(entries) - {id})[SYSTEM_ID := old(entries)[id].(id := SYSTEM_ID, isSystem := true)]
      ensures LagNow() == old(LagNow()).Write(stored) && (stored ==> Synced())
    {
      var e := entries[id].(id := SYSTEM_ID, isSystem := true);
      if Inverse(entries, byKey) {
        Moved(entries, byKey, id, e);
      }
      entries := entries - {id};
      entries := entries[SYSTEM_ID := e];
      byKey := byKey[plaintext := SYSTEM_ID];
      SaveChange(stored);
    }

    method AddSystem(name: string, plaintext: string, stored: bool)
      requires Kept() && plaintext !in byKey
      modifies this
      ensures Kept() && (old(Valid()) ==> Valid())
      ensures var id := if SYSTEM_ID in old(entries) then old(nextId) else SYSTEM_ID;
              && byKey == old(byKey)[plaintext := id]
              && entries == old(entries)[id := Key(id, plaintext, name, "", true, false, 0, NONE)]
      ensures LagNow() == old(LagNow()).Write(stored) && (stored ==> Synced())
    {
      var id := SYSTEM_ID;
      if SYSTEM_ID in entries {
        id := nextId;
        nextId := nextId + 1;
      }
      var e := Key(id, plaintext, name, "", true, false, 0, NONE);
      if Inverse(entries, byKey) {
        PutNew(entries, byKey, e);
      }
      entries, byKey := entries[id := e], byKey[plaintext := id];
      SaveChange(stored);
    }

    /** The new plaintext keeps a sound store sound exactly when it is not another key's. */
    method Rotate(id: nat, newKey: string, stored: bool) returns (ok: bool)
      requires Kept()
      modifies this
      ensures Kept() && (ok <==> id in old(entries))
      ensures !ok ==> unchanged(this)
      ensures ok ==> entries == old(entries)[id := old(entries)[id].(key := newKey)] && nextId == old(nextId)
      ensures ok ==> byKey == (old(byKey) - {old(entries)[id].key})[newKey := id]
      ensures old(Valid()) ==> (Valid() <==> !ok || newKey !in old(byKey) || old(byKey)[newKey] == id)
      ensures ok ==> LagNow() == old(LagNow()).Write(stored) && (stored ==> Synced())
    {
      if id !in entries {
        return false;
      }
      if Inverse(entries, byKey) {
        Rotated(entries, byKey, id, newKey);
      }
      byKey := byKey - {entries[id].key};
      entries := entries[id := entries[id].(key := newKey)];
      byKey := byKey[newKey := id];
      SaveChange(stored);
      return true;
    }

    // Some enabled entry with the plaintext, if there is one; the entries are gone through in any order.
    method Scan(presented: string) returns (hit: bool, id: nat)
      ensures hit ==> id in entries && Matches(entries, id, presented)
      ensures !hit ==> forall i :: i in entries ==> !Matches(entries, i, presented)
    {
      hit, id := false, 0;
      var rest := entries.Keys;
      while rest != {}
        invariant rest <= entries.Keys
        invariant !hit ==> forall i :: i in entries && i !in rest ==> !Matches(entries, i, presented)
        invariant hit ==> id in entries && Matches(entries, id, presented)
        decreases |rest|
      {
        var i :| i in rest;
        rest := rest - {i};
        if entries[i].disabled {
          continue;
        }
        if entries[i].key == presented {
          hit, id := true, i;
        }
      }
    }

    /** Accepts a plaintext exactly if some enabled entry has it, and counts the call there. In a sound store
        that is what the index says, unless the entry is disabled. */
    method VerifyAndTouch(presented: string) returns (hit: bool, id: nat)
      modifies this`entries
      ensures hit ==> id in old(entries) && !old(entries)[id].disabled && old(entries)[id].key == presented
      ensures hit ==> entries == old(entries)[id := old(entries)[id].(calls := old(entries)[id].calls + 1)]
      ensures !hit ==> entries == old(entries) && forall i :: i in entries ==> entries[i].disabled || entries[i].key != presented
      ensures old(Kept()) ==> Kept()
      ensures old(Valid()) ==> Valid() && (hit <==> presented in byKey && !old(entries)[byKey[presented]].disabled)
      ensures old(Valid()) && hit ==> id == byKey[presented]
    {
      hit, id := Scan(presented);
      if !hit {
        assert Valid() && presented in byKey ==> !Matches(entries, byKey[presented], presented);
        return;
      }
      if Kept() {
        TouchKeeps(id);
      }
      entries := Touched(entries, id);
    }

    lemma TouchKeeps(id: nat)
      requires Kept() && id in entries
      ensures Inverse(entries, byKey) ==> Inverse(Touched(entries, id), byKey)
      ensures !changed ==> Ahead(Touched(entries, id), saved, pending)
    {
      var e := entries[id].(calls := entries[id].calls + 1);
      if Inverse(entries, byKey) {
        PutSame(entries, byKey, e);
      }
      if !changed {
        forall i
          ensures AheadAt(Touched(entries, id), saved, pending, i)
        {
          assert AheadAt(entries, saved, pending, i);
        }
      }
    }

    /** Usage adds up in memory and is written every hundredth time. Usage of an unknown id is dropped. */
    method RecordUsage(u: Usage, stored: bool)
      requires Kept()
      modifies this
      ensures Kept() && (old(Valid()) ==> Valid()) && byKey == old(byKey) && nextId == old(nextId)
      ensures entries == if u.id in old(entries) then old(entries)[u.id := Charged(old(entries)[u.id], u)] else old(entries)
      ensures u.id in old(entries) ==> AddedTo(old(entries)[u.id], entries[u.id], u)
      ensures LagNow() == if u.id in old(entries) then old(LagNow()).Record(stored) else old(LagNow())
      ensures u.id in old(entries) && usageDirty == 0 && stored ==> Synced()
      ensures usageDirty > 0 || !stored ==> saved == old(saved)
      ensures u.id in old(entries) ==> usageDirty == (old(usageDirty) + 1) % FLUSH_THRESHOLD
    {
      if u.id !in entries {
        return;
      }
      Charge(u);
      usageDirty := usageDirty + 1;
      if usageDirty >= FLUSH_THRESHOLD {
        Save(stored);
        if stored {
          SyncedLags();
        }
      }
    }

    method Charge(u: Usage)
      requires Kept() && u.id in entries
      modifies this`entries, this`pending
      ensures old(Inverse(entries, byKey)) ==> Inverse(entries, byKey)
      ensures entries == old(entries)[u.id := Charged(old(entries)[u.id], u)]
      ensures !changed ==> Ahead(entries, saved, pending)
      ensures pending == old(pending) + [u]
    {
      var e := Charged(entries[u.id], u);
      if Inverse(entries, byKey) {
        PutSame(entries, byKey, e);
      }
      if !changed {
        AheadByOne(entries, saved, pending, u);
      }
      entries, pending := entries[u.id := e], pending + [u];
    }
  }

  // Nothing but the totals changed, each by its own part.
  predicate AddedTo(e: Key, f: Key, u: Usage) {
    && f == e.(totals := f.totals)
    && f.totals.input - e.totals.input == u.input && f.totals.output - e.totals.output == u.output
    && f.totals.cacheCreate - e.totals.cacheCreate == u.cacheCreate && f.totals.cacheRead - e.totals.cacheRead == u.cacheRead
    && f.totals.credits - e.totals.credits == (if u.credits > 0.0 then u.credits else 0.0)
  }

  function Charged(e: Key, u: Usage): Key {
    e.(totals := Add(e.totals, u))
  }

  function Touched(entries: Entries, id: nat): (r: Entries)
    requires id in entries
    ensures id in r
  {
    entries[id := entries[id].(calls := entries[id].calls + 1)]
  }

  ghost predicate Matches(entries: Entries, i: nat, presented: string)
    requires i in entries
  {
    !entries[i].disabled && entries[i].key == presented
  }

  lemma AheadByOne(entries: Entries, saved: Entries, pending: seq<Usage>, u: Usage)
    requires Ahead(entries, saved, pending) && u.id in entries
    ensures Ahead(entries[u.id := Charged(entries[u.id], u)], saved, pending + [u])
  {
    var next := entries[u.id := Charged(entries[u.id], u)];
    forall id
      ensures AheadAt(next, saved, pending + [u], id)
    {
      assert AheadAt(entries, saved, pending, id);
      if id in saved {
        AfterOne(saved[id].totals, id, pending, u);
      }
    }
  }

  lemma Rotated(entries: Entries, byKey: Index, id: nat, newKey: string)
    requires Inverse(entries, byKey) && id in entries
    ensures Inverse(entries[id := entries[id].(key := newKey)], (byKey - {entries[id].key})[newKey := id])
            <==> newKey !in byKey || byKey[newKey] == id
  {
    var es, ks := entries[id := entries[id].(key := newKey)], (byKey - {entries[id].key})[newKey := id];
    if newKey in byKey && byKey[newKey] != id {
      var other := byKey[newKey];
      assert es[other].key == newKey && ks[newKey] == id;
    } else {
      forall i | i in es
        ensures es[i].id == i && es[i].key in ks && ks[es[i].key] == i
      {
        if i != id && entries[i].key == entries[id].key {
          OneEach(entries, byKey, i, id);
        }
      }
    }
  }
}
