/** The upstream storm breaker (internal/adapter/storm.go): a ring of six ten-second slices that must agree
    with a plain log of the attempts. Instants are nanoseconds; a slice is known by its number, where the
    source keeps its start. The environment switch comes in as a parameter. */
module Storm {
  import opened Options

  const SECOND := 1_000_000_000
  const SPAN := 10 * SECOND
  const WINDOW := 60 * SECOND
  const PROBE_INTERVAL := 15 * SECOND
  const MIN_ATTEMPTS := 12

  datatype Bucket = Bucket(at: Option<nat>, n: nat, f: nat)

  datatype Rec = Rec(t: nat, ok: bool)

  /** The two numbers a bucket keeps. */
  datatype Stat = Attempts | Failures

  function Slice(t: nat): nat {
    t / SPAN
  }

  // The slice began less than sixty seconds ago.
  predicate Live(k: nat, now: nat) {
    now - k * SPAN < WINDOW
  }

  function Weight(r: Rec, s: Stat): nat {
    if s.Attempts? || !r.ok then 1 else 0
  }

  function Value(b: Bucket, s: Stat): nat {
    if s.Attempts? then b.n else b.f
  }

  // ---------------------------------------------------------------- counting a log

  /** Records of the log whose slice is live. */
  function Total(log: seq<Rec>, now: nat, s: Stat): nat {
    if log == [] then 0
    else
      var r := log[|log| - 1];
      Total(log[..|log| - 1], now, s) + (if Live(Slice(r.t), now) then Weight(r, s) else 0)
  }

  /** Records of one slice. */
  function Of(log: seq<Rec>, k: nat, s: Stat): nat {
    if log == [] then 0
    else
      var r := log[|log| - 1];
      Of(log[..|log| - 1], k, s) + (if Slice(r.t) == k then Weight(r, s) else 0)
  }

  /** Records of the last so many nanoseconds, a real trailing window. */
  function Trailing(log: seq<Rec>, now: nat, length: nat, s: Stat): nat {
    if log == [] then 0
    else
      var r := log[|log| - 1];
      Trailing(log[..|log| - 1], now, length, s) + (if now - r.t < length then Weight(r, s) else 0)
  }

  // The attempt is recent, and failed if failures are asked for.
  predicate Hit(r: Rec, now: nat, length: nat, s: Stat) {
    now - r.t < length && (s.Failures? ==> !r.ok)
  }

  ghost function Hits(log: seq<Rec>, now: nat, length: nat, s: Stat): set<nat> {
    set i | 0 <= i < |log| && Hit(log[i], now, length, s)
  }

  lemma {:induction false} HitsMore(log: seq<Rec>, now: nat, length: nat, s: Stat)
    requires log != []
    ensures var n := |log| - 1;
            Hits(log, now, length, s) == Hits(log[..n], now, length, s) + (if Hit(log[n], now, length, s) then {n} else {})
  {
    var n := |log| - 1;
    assert forall i :: 0 <= i < n ==> log[..n][i] == log[i];
  }

  /** Each attempt is counted once, and each failed one as one failure. */
  lemma {:induction false} TrailingCounts(log: seq<Rec>, now: nat, length: nat, s: Stat)
    ensures Trailing(log, now, length, s) == |Hits(log, now, length, s)|
  {
    if log != [] {
      var n := |log| - 1;
      TrailingCounts(log[..n], now, length, s);
      HitsMore(log, now, length, s);
      assert n !in Hits(log[..n], now, length, s);
    }
  }

  function Part(log: seq<Rec>, k: nat, now: nat, s: Stat): nat {
    if Live(k, now) then Of(log, k, s) else 0
  }

  // All the slices an epoch can reach.
  function Parts(log: seq<Rec>, b: nat, now: nat, s: Stat): nat {
    Part(log, b, now, s) + Part(log, b + 1, now, s) + Part(log, b + 2, now, s) + Part(log, b + 3, now, s)
    + Part(log, b + 4, now, s) + Part(log, b + 5, now, s) + Part(log, b + 6, now, s)
  }

  ghost predicate InEpoch(log: seq<Rec>, b: nat) {
    forall i :: 0 <= i < |log| ==> b <= Slice(log[i].t) <= b + 6
  }

  lemma PartStep(log: seq<Rec>, r: Rec, k: nat, now: nat, s: Stat)
    ensures Part(log + [r], k, now, s)
            == Part(log, k, now, s) + (if Slice(r.t) == k && Live(k, now) then Weight(r, s) else 0)
  {
    assert (log + [r])[..|log|] == log;
  }

  lemma PartsStep(log: seq<Rec>, r: Rec, b: nat, now: nat, s: Stat)
    requires b <= Slice(r.t) <= b + 6
    ensures Parts(log + [r], b, now, s)
            == Parts(log, b, now, s) + (if Live(Slice(r.t), now) then Weight(r, s) else 0)
  {
    PartStep(log, r, b, now, s);
    PartStep(log, r, b + 1, now, s);
    PartStep(log, r, b + 2, now, s);
    PartStep(log, r, b + 3, now, s);
    PartStep(log, r, b + 4, now, s);
    PartStep(log, r, b + 5, now, s);
    PartStep(log, r, b + 6, now, s);
  }

  lemma {:induction false} TotalParts(log: seq<Rec>, b: nat, now: nat, s: Stat)
    requires InEpoch(log, b)
    ensures Total(log, now, s) == Parts(log, b, now, s)
  {
    if log != [] {
      var front, r := log[..|log| - 1], log[|log| - 1];
      assert log == front + [r];
      TotalParts(front, b, now, s);
      PartsStep(front, r, b, now, s);
    }
  }

  /** Slices err on the safe side: whatever is counted is less than a minute old, and whatever is less
      than fifty seconds old is counted. */
  lemma {:induction false} SlicesAndTime(log: seq<Rec>, now: nat, s: Stat)
    ensures Trailing(log, now, WINDOW - SPAN, s) <= Total(log, now, s) <= Trailing(log, now, WINDOW, s)
  {
    if log != [] {
      SlicesAndTime(log[..|log| - 1], now, s);
    }
  }

  lemma {:induction false} TrailingOfSuffix(earlier: seq<Rec>, log: seq<Rec>, now: nat, length: nat, s: Stat)
    ensures Trailing(log, now, length, s) <= Trailing(earlier + log, now, length, s)
  {
    if log != [] {
      var n := |log| - 1;
      assert (earlier + log)[..|earlier| + n] == earlier + log[..n];
      TrailingOfSuffix(earlier, log[..n], now, length, s);
    }
  }

  // ---------------------------------------------------------------- the ring

  type Ring = r: seq<Bucket> | |r| == 6 witness seq(6, i => Bucket(None, 0, 0))

  function Counts(b: Bucket, now: nat, s: Stat): nat {
    if b.at.Some? && Live(b.at.value, now) then Value(b, s) else 0
  }

  function RingSum(ring: seq<Bucket>, i: nat, now: nat, s: Stat): nat
    requires i <= |ring|
  {
    if i == 0 then 0 else RingSum(ring, i - 1, now, s) + Counts(ring[i - 1], now, s)
  }

  ghost predicate Monotone(log: seq<Rec>) {
    forall i, j :: 0 <= i < j < |log| ==> log[i].t <= log[j].t
  }

  ghost predicate Exact(b: Bucket, log: seq<Rec>, k: nat) {
    b.n == Of(log, k, Attempts) && b.f == Of(log, k, Failures)
  }

  ghost predicate AtMost(b: Bucket, log: seq<Rec>, k: nat) {
    b.n <= Of(log, k, Attempts) && b.f <= Of(log, k, Failures)
  }

  ghost predicate Unseen(log: seq<Rec>, k: nat) {
    Of(log, k, Attempts) == 0 && Of(log, k, Failures) == 0
  }

  // Slots one to five always hold their slice of the epoch, exactly.
  ghost predicate SlotHolds(ring: Ring, b: nat, log: seq<Rec>, i: nat)
    requires i < 6
  {
    ring[i].at == Some(b + i) && Exact(ring[i], log, b + i)
  }

  // Slot zero is used twice: for the first slice of the epoch, then for the seventh.
  ghost predicate FirstHolds(ring: Ring, b: nat, log: seq<Rec>) {
    && (ring[0].at == Some(b) || ring[0].at == Some(b + 6))
    && AtMost(ring[0], log, ring[0].at.value)
    && (Monotone(log) ==> Exact(ring[0], log, ring[0].at.value) && Switched(ring, b, log))
  }

  ghost predicate Switched(ring: Ring, b: nat, log: seq<Rec>) {
    if ring[0].at == Some(b) then Unseen(log, b + 6)
    else log != [] && Slice(log[|log| - 1].t) == b + 6
  }

  ghost predicate RingHolds(ring: Ring, base: Option<nat>, log: seq<Rec>) {
    if base.None? then log == [] && forall i :: 0 <= i < 6 ==> ring[i] == Bucket(None, 0, 0)
    else
      && InEpoch(log, base.value) && FirstHolds(ring, base.value, log)
      && forall i :: 1 <= i < 6 ==> SlotHolds(ring, base.value, log, i)
  }

  function Fresh(b: nat): Ring {
    seq(6, i requires 0 <= i => Bucket(Some(b + i), 0, 0))
  }

  lemma FreshHolds(b: nat)
    ensures RingHolds(Fresh(b), Some(b), [])
  {
  }

  predicate MustReset(base: Option<nat>, cur: nat) {
    base.None? || cur < base.value || cur - base.value >= 7
  }

  /** The slot of a slice, cleared if it held another one. */
  function Rolled(ring: Ring, b: nat, cur: nat): Ring
    requires b <= cur <= b + 6
  {
    var i := (cur - b) % 6;
    if ring[i].at == Some(cur) then ring else ring[i := Bucket(Some(cur), 0, 0)]
  }

  function Counted(ring: Ring, i: nat, ok: bool): Ring
    requires i < 6
  {
    ring[i := Bucket(ring[i].at, ring[i].n + 1, if ok then ring[i].f else ring[i].f + 1)]
  }

  lemma {:induction false} OfStep(log: seq<Rec>, r: Rec, k: nat, s: Stat)
    ensures Of(log + [r], k, s) == Of(log, k, s) + (if Slice(r.t) == k then Weight(r, s) else 0)
  {
    assert (log + [r])[..|log|] == log;
  }

  lemma MonotonePrefix(log: seq<Rec>, r: Rec)
    requires Monotone(log + [r])
    ensures Monotone(log) && (log == [] || log[|log| - 1].t <= r.t)
  {
    var m := log + [r];
    assert forall i :: 0 <= i < |log| ==> m[i] == log[i];
    if log != [] {
      assert m[|log| - 1].t <= m[|log|].t;
    }
  }

  lemma CountOf(log: seq<Rec>, r: Rec, k: nat, c: Bucket)
    requires AtMost(c, log, k)
    ensures var d := Bucket(c.at, c.n + 1, if r.ok then c.f else c.f + 1);
            && (Slice(r.t) == k ==> AtMost(d, log + [r], k) && (Exact(c, log, k) ==> Exact(d, log + [r], k)))
            && (Slice(r.t) != k ==> AtMost(c, log + [r], k) && (Exact(c, log, k) ==> Exact(c, log + [r], k)))
  {
    OfStep(log, r, k, Attempts);
    OfStep(log, r, k, Failures);
  }

  lemma SliceOrder(t: nat, u: nat)
    requires t <= u
    ensures Slice(t) <= Slice(u)
  {
  }

  // The clock running on rules out the last record being in a later slice.
  lemma NoLater(log: seq<Rec>, r: Rec, k: nat)
    requires Monotone(log + [r]) && log != [] && Slice(log[|log| - 1].t) == k
    ensures k <= Slice(r.t)
  {
    MonotonePrefix(log, r);
    SliceOrder(log[|log| - 1].t, r.t);
  }

  function Recorded(ring: Ring, b: nat, r: Rec): Ring
    requires b <= Slice(r.t) <= b + 6
  {
    Counted(Rolled(ring, b, Slice(r.t)), (Slice(r.t) - b) % 6, r.ok)
  }

  lemma SlotKept(ring: Ring, b: nat, log: seq<Rec>, r: Rec, i: nat)
    requires 1 <= i < 6 && SlotHolds(ring, b, log, i) && b <= Slice(r.t) <= b + 6
    ensures SlotHolds(Recorded(ring, b, r), b, log + [r], i)
  {
    CountOf(log, r, b + i, ring[i]);
  }

  // A record of another slot's slice.
  lemma FirstUntouched(ring: Ring, b: nat, log: seq<Rec>, r: Rec)
    requires FirstHolds(ring, b, log) && b < Slice(r.t) < b + 6
    ensures FirstHolds(Recorded(ring, b, r), b, log + [r])
  {
    CountOf(log, r, ring[0].at.value, ring[0]);
    OfStep(log, r, b + 6, Attempts);
    OfStep(log, r, b + 6, Failures);
    assert Recorded(ring, b, r)[0] == ring[0];
    if Monotone(log + [r]) {
      MonotonePrefix(log, r);
      if ring[0].at == Some(b + 6) {
        NoLater(log, r, b + 6);
      }
    }
  }

  // A record of the slice that slot zero holds.
  lemma FirstCounted(ring: Ring, b: nat, log: seq<Rec>, r: Rec)
    requires FirstHolds(ring, b, log) && ring[0].at == Some(Slice(r.t))
    ensures FirstHolds(Recorded(ring, b, r), b, log + [r])
  {
    CountOf(log, r, Slice(r.t), ring[0]);
    OfStep(log, r, b + 6, Attempts);
    OfStep(log, r, b + 6, Failures);
    if Monotone(log + [r]) {
      MonotonePrefix(log, r);
    }
  }

  // A record of the other slice that slot zero is for.
  lemma FirstSwitched(ring: Ring, b: nat, log: seq<Rec>, r: Rec)
    requires FirstHolds(ring, b, log) && (Slice(r.t) == b || Slice(r.t) == b + 6) && ring[0].at != Some(Slice(r.t))
    ensures FirstHolds(Recorded(ring, b, r), b, log + [r])
  {
    CountOf(log, r, Slice(r.t), Bucket(Some(Slice(r.t)), 0, 0));
    if Monotone(log + [r]) {
      MonotonePrefix(log, r);
      if Slice(r.t) == b {
        NoLater(log, r, b + 6);
      }
    }
  }

  lemma FirstKept(ring: Ring, b: nat, log: seq<Rec>, r: Rec)
    requires FirstHolds(ring, b, log) && b <= Slice(r.t) <= b + 6
    ensures FirstHolds(Recorded(ring, b, r), b, log + [r])
  {
    if b < Slice(r.t) < b + 6 {
      FirstUntouched(ring, b, log, r);
    } else if ring[0].at == Some(Slice(r.t)) {
      FirstCounted(ring, b, log, r);
    } else {
      FirstSwitched(ring, b, log, r);
    }
  }

  /** One recorded attempt keeps the ring and the log together. */
  lemma RecordKeeps(ring: Ring, b: nat, log: seq<Rec>, r: Rec)
    requires RingHolds(ring, Some(b), log) && b <= Slice(r.t) <= b + 6
    ensures RingHolds(Recorded(ring, b, r), Some(b), log + [r])
  {
    FirstKept(ring, b, log, r);
    forall i | 1 <= i < 6
      ensures SlotHolds(Recorded(ring, b, r), b, log + [r], i)
    {
      SlotKept(ring, b, log, r, i);
    }
  }

  function Next(ring: Ring, base: Option<nat>, r: Rec): Ring {
    var cur := Slice(r.t);
    if MustReset(base, cur) then Recorded(Fresh(cur), cur, r) else Recorded(ring, base.value, r)
  }

  lemma RecordOrReset(ring: Ring, base: Option<nat>, log: seq<Rec>, r: Rec)
    requires RingHolds(ring, base, log)
    ensures var reset := MustReset(base, Slice(r.t));
            RingHolds(Next(ring, base, r), if reset then Some(Slice(r.t)) else base, (if reset then [] else log) + [r])
  {
    var cur := Slice(r.t);
    if MustReset(base, cur) {
      FreshHolds(cur);
      RecordKeeps(Fresh(cur), cur, [], r);
    } else {
      RecordKeeps(ring, base.value, log, r);
    }
  }

  lemma {:induction false} Unrolled(ring: Ring, now: nat, s: Stat)
    ensures RingSum(ring, 6, now, s)
            == Counts(ring[0], now, s) + Counts(ring[1], now, s) + Counts(ring[2], now, s)
               + Counts(ring[3], now, s) + Counts(ring[4], now, s) + Counts(ring[5], now, s)
  {
    assert RingSum(ring, 1, now, s) == Counts(ring[0], now, s);
    assert RingSum(ring, 2, now, s) == RingSum(ring, 1, now, s) + Counts(ring[1], now, s);
    assert RingSum(ring, 3, now, s) == RingSum(ring, 2, now, s) + Counts(ring[2], now, s);
    assert RingSum(ring, 4, now, s) == RingSum(ring, 3, now, s) + Counts(ring[3], now, s);
    assert RingSum(ring, 5, now, s) == RingSum(ring, 4, now, s) + Counts(ring[4], now, s);
  }

  lemma FirstCounts(ring: Ring, b: nat, log: seq<Rec>, now: nat, s: Stat)
    requires FirstHolds(ring, b, log)
    ensures Counts(ring[0], now, s) <= Part(log, b, now, s) + Part(log, b + 6, now, s)
    ensures Monotone(log) && (log == [] || log[|log| - 1].t <= now) ==>
              Counts(ring[0], now, s) == Part(log, b, now, s) + Part(log, b + 6, now, s)
  {
  }

  lemma SlotCounts(ring: Ring, b: nat, log: seq<Rec>, now: nat, s: Stat, i: nat)
    requires 1 <= i < 6 && SlotHolds(ring, b, log, i)
    ensures Counts(ring[i], now, s) == Part(log, b + i, now, s)
  {
  }

  /** What the ring adds up is never more than what the log holds, and exactly that as long as the clock
      has not run backwards. */
  lemma {:induction false} RingSumsLog(ring: Ring, base: Option<nat>, log: seq<Rec>, now: nat, s: Stat)
    requires RingHolds(ring, base, log)
    ensures RingSum(ring, 6, now, s) <= Total(log, now, s)
    ensures Monotone(log) && (log == [] || log[|log| - 1].t <= now) ==> RingSum(ring, 6, now, s) == Total(log, now, s)
  {
    Unrolled(ring, now, s);
    if base.Some? {
      var b := base.value;
      TotalParts(log, b, now, s);
      FirstCounts(ring, b, log, now, s);
      SlotCounts(ring, b, log, now, s, 1);
      SlotCounts(ring, b, log, now, s, 2);
      SlotCounts(ring, b, log, now, s, 3);
      SlotCounts(ring, b, log, now, s, 4);
      SlotCounts(ring, b, log, now, s, 5);
    }
  }

  // ---------------------------------------------------------------- probes

  // Each probe comes at least a quarter of a minute after the one before.
  ghost predicate Spaced(ps: seq<nat>) {
    forall i :: 0 < i < |ps| ==> ps[i] - ps[i - 1] >= PROBE_INTERVAL
  }

  /** How many probes fall in a stretch of time. */
  function Within(ps: seq<nat>, from: int, length: int): nat {
    if ps == [] then 0
    else
      var x := ps[|ps| - 1];
      Within(ps[..|ps| - 1], from, length) + (if from <= x <= from + length then 1 else 0)
  }

  lemma {:induction false} SpacedBelow(ps: seq<nat>, i: nat)
    requires Spaced(ps) && i < |ps|
    ensures ps[i] <= ps[|ps| - 1]
    decreases |ps| - i
  {
    if i < |ps| - 1 {
      assert ps[i + 1] - ps[i] >= PROBE_INTERVAL;
      SpacedBelow(ps, i + 1);
    }
  }

  // A stretch may end at the last probe, or earlier still.
  lemma {:induction false} WithinShorter(ps: seq<nat>, from: int, length: int, shorter: int)
    requires forall i :: 0 <= i < |ps| ==> ps[i] <= from + shorter
    ensures Within(ps, from, length) <= Within(ps, from, shorter)
  {
    if ps != [] {
      WithinShorter(ps[..|ps| - 1], from, length, shorter);
    }
  }

  lemma {:induction false} NoneBefore(ps: seq<nat>, from: int, length: int)
    requires length < 0
    ensures Within(ps, from, length) == 0
  {
    if ps != [] {
      NoneBefore(ps[..|ps| - 1], from, length);
    }
  }

  /** At most one probe, and one more for every fifteen seconds of a stretch of any length. */
  lemma {:induction false} ProbesBounded(ps: seq<nat>, from: int, length: nat)
    requires Spaced(ps)
    ensures Within(ps, from, length) <= 1 + length / PROBE_INTERVAL
  {
    if ps != [] {
      var front, x := ps[..|ps| - 1], ps[|ps| - 1];
      assert Spaced(front) by {
        assert forall i :: 0 <= i < |front| ==> front[i] == ps[i];
      }
      if from <= x <= from + length {
        var shorter := x - PROBE_INTERVAL - from;
        forall i | 0 <= i < |front|
          ensures front[i] <= from + shorter
        {
          SpacedBelow(front, i);
          assert ps[|ps| - 1] - ps[|ps| - 2] >= PROBE_INTERVAL;
        }
        WithinShorter(front, from, length, shorter);
        if shorter < 0 {
          NoneBefore(front, from, shorter);
        } else {
          ProbesBounded(front, from, shorter);
          assert 1 + shorter / PROBE_INTERVAL == (x - from) / PROBE_INTERVAL;
        }
      } else {
        ProbesBounded(front, from, length);
      }
    }
  }

  // ---------------------------------------------------------------- the breaker

  /** Twelve attempts in the window, seven in ten of them failed. */
  predicate Stormy(log: seq<Rec>, now: nat) {
    Total(log, now, Attempts) >= 12 && 10 * Total(log, now, Failures) >= 7 * Total(log, now, Attempts)
  }

  /** The ring goes on with an attempt: it is in one of the seven ten-second slices that begin with that of the first. */
  predicate GoesOn(log: seq<Rec>, now: nat) {
    log != [] && log[0].t / (10 * SECOND) <= now / (10 * SECOND) < log[0].t / (10 * SECOND) + 7
  }

  class Breaker {
    const ring: array<Bucket>
    var base: Option<nat>
    var lastProbe: Option<nat>
    // Every attempt since the ring was last reset, those before, and the probes let through.
    ghost var log: seq<Rec>
    ghost var earlier: seq<Rec>
    ghost var probes: seq<nat>

    ghost predicate Valid()
      reads this, ring
    {
      && ring.Length == 6 && RingHolds(ring[..], base, log)
      && base == (if log == [] then None else Some(Slice(log[0].t)))
      && Spaced(probes) && lastProbe == (if probes == [] then None else Some(probes[|probes| - 1]))
    }

    /** Every attempt ever recorded. */
    ghost function All(): seq<Rec>
      reads this
    {
      earlier + log
    }

    // The clock has not run backwards since the reset.
    ghost predicate Steady(now: nat)
      reads this
    {
      Monotone(log) && (log == [] || log[|log| - 1].t <= now)
    }

    constructor ()
      ensures Valid() && fresh(ring) && All() == [] && log == [] && probes == []
    {
      ring := new Bucket[6](_ => Bucket(None, 0, 0));
      base, lastProbe, log, earlier, probes := None, None, [], [], [];
    }

    /** The slot of a slice, reset or cleared as needed and about to be counted in. */
    method Current(cur: nat) returns (i: nat)
      requires Valid()
      modifies this`base, this`log, this`earlier, ring
      ensures All() == old(All()) && ring.Length == 6 && base.Some?
      ensures log == if MustReset(old(base), cur) then [] else old(log)
      ensures base == if MustReset(old(base), cur) then Some(cur) else old(base)
      ensures base.value <= cur <= base.value + 6 && i == (cur - base.value) % 6
      ensures ring[..] == Rolled(if MustReset(old(base), cur) then Fresh(cur) else old(ring[..]), base.value, cur)
    {
      if base.None? || cur < base.value || cur - base.value >= 7 {
        base := Some(cur);
        for k := 0 to 6
          modifies ring
          invariant forall j :: 0 <= j < k ==> ring[j] == Bucket(Some(cur + j), 0, 0)
        {
          ring[k] := Bucket(Some(cur + k), 0, 0);
        }
        earlier, log := earlier + log, [];
        assert earlier + log == earlier;
        assert ring[..] == Fresh(cur);
        return 0;
      }
      i := (cur - base.value) % 6;
      if ring[i].at != Some(cur) {
        ring[i] := Bucket(Some(cur), 0, 0);
      }
      assert ring[..] == Rolled(old(ring[..]), base.value, cur);
    }

    method Count(i: nat, ok: bool)
      requires ring.Length == 6 && i < 6
      modifies ring
      ensures ring[..] == Counted(old(ring[..]), i, ok)
    {
      ring[i] := Bucket(ring[i].at, ring[i].n + 1, if ok then ring[i].f else ring[i].f + 1);
    }

    // The record itself, without the agreement with the log.
    method Add(now: nat, ok: bool)
      requires Valid()
      modifies this`base, this`log, this`earlier, ring
      ensures All() == old(All()) + [Rec(now, ok)]
      ensures log == (if MustReset(old(base), Slice(now)) then [] else old(log)) + [Rec(now, ok)]
      ensures base == if MustReset(old(base), Slice(now)) then Some(Slice(now)) else old(base)
      ensures ring.Length == 6 && ring[..] == Next(old(ring[..]), old(base), Rec(now, ok))
    {
      var i := Current(Slice(now));
      Count(i, ok);
      assert earlier + (log + [Rec(now, ok)]) == All() + [Rec(now, ok)];
      log := log + [Rec(now, ok)];
    }

    /** Counts one attempt, unless switched off. The log restarts exactly when the ring does: at first use,
        when the clock is before the ring, or seventy seconds after it. */
    method StormRecord(off: bool, now: nat, ok: bool)
      requires Valid()
      modifies this`base, this`log, this`earlier, ring
      ensures Valid()
      ensures All() == if off then old(All()) else old(All()) + [Rec(now, ok)]
      ensures !off ==> log == (if GoesOn(old(log), now) then old(log) else []) + [Rec(now, ok)]
      ensures off ==> log == old(log)
    {
      if off {
        return;
      }
      RecordOrReset(ring[..], base, log, Rec(now, ok));
      Add(now, ok);
    }

    method Stats(now: nat) returns (attempts: nat, failures: nat)
      requires Valid()
      ensures attempts == RingSum(ring[..], 6, now, Attempts) && failures == RingSum(ring[..], 6, now, Failures)
    {
      attempts, failures := 0, 0;
      for i := 0 to 6
        invariant attempts == RingSum(ring[..], i, now, Attempts) && failures == RingSum(ring[..], i, now, Failures)
      {
        var b := ring[i];
        if b.at.None? || now - b.at.value * SPAN >= WINDOW {
          continue;
        }
        attempts := attempts + b.n;
        failures := failures + b.f;
      }
    }

    /** What the window holds never exceeds the attempts of the last minute, and includes all those of the
        last fifty seconds unless the ring was reset since or the clock ran backwards. */
    method StormStats(now: nat) returns (attempts: nat, failures: nat)
      requires Valid()
      ensures attempts <= Trailing(All(), now, WINDOW, Attempts) && failures <= Trailing(All(), now, WINDOW, Failures)
      ensures attempts <= Total(log, now, Attempts) && failures <= Total(log, now, Failures)
      ensures Steady(now) ==> attempts == Total(log, now, Attempts) && failures == Total(log, now, Failures)
      ensures Steady(now) ==> attempts >= Trailing(log, now, WINDOW - SPAN, Attempts)
      ensures Steady(now) ==> failures >= Trailing(log, now, WINDOW - SPAN, Failures)
    {
      attempts, failures := Stats(now);
      StatBounds(now, Attempts);
      StatBounds(now, Failures);
    }

    lemma {:induction false} StatBounds(now: nat, s: Stat)
      requires Valid()
      ensures var n := RingSum(ring[..], 6, now, s);
              && n <= Total(log, now, s) && n <= Trailing(All(), now, WINDOW, s)
              && (Steady(now) ==> n == Total(log, now, s) && n >= Trailing(log, now, WINDOW - SPAN, s))
    {
      RingSumsLog(ring[..], base, log, now, s);
      SlicesAndTime(log, now, s);
      TrailingOfSuffix(earlier, log, now, WINDOW, s);
    }

    /** The breaker opens only on at least twelve attempts and nine failures of the last minute; by the
        window's own numbers, exactly at twelve attempts of which seven in ten failed. So it must open if there were
        twelve in fifty seconds and the failures among these are seven in ten of a whole minute's. */
    method StormOpen(off: bool, now: nat) returns (open: bool)
      requires Valid()
      ensures off ==> !open
      ensures open ==> Trailing(All(), now, WINDOW, Attempts) >= 12 && Trailing(All(), now, WINDOW, Failures) >= 9
      ensures Steady(now) && !off ==> (open <==> Stormy(log, now))
      ensures Steady(now) && !off ==>
                (open <==> Total(log, now, Attempts) >= 12 && 10 * Total(log, now, Failures) >= 7 * Total(log, now, Attempts))
      ensures (&& Steady(now) && !off
               && Trailing(log, now, 50 * SECOND, Attempts) >= 12
               && 10 * Trailing(log, now, 50 * SECOND, Failures) >= 7 * Trailing(log, now, 60 * SECOND, Attempts)) ==> open
      ensures Steady(now) && open ==>
                10 * Trailing(log, now, 60 * SECOND, Failures) >= 7 * Trailing(log, now, 50 * SECOND, Attempts)
    {
      SlicesAndTime(log, now, Attempts);
      SlicesAndTime(log, now, Failures);
      if off {
        return false;
      }
      var n, f := StormStats(now);
      open := n >= MIN_ATTEMPTS && 10 * f >= 7 * n;
    }

    /** The second half of an admission, under a lock of its own: lets a probe through if the last one is
        fifteen seconds old at the first clock reading, and dates it by the second. */
    method Probe(since: nat, now: nat) returns (admitted: bool)
      requires Valid() && since <= now
      modifies this`lastProbe, this`probes
      ensures Valid()
      ensures admitted <==> old(lastProbe).None? || since - old(lastProbe).value >= 15 * SECOND
      ensures probes == if admitted then old(probes) + [now] else old(probes)
    {
      if lastProbe.None? || since - lastProbe.value >= PROBE_INTERVAL {
        lastProbe := Some(now);
        probes := probes + [now];
        return true;
      }
      return false;
    }

    /** An admission with nothing in between: a closed breaker lets everything through, an open one only
        probes, and each of them counts. */
    method StormAllow(off: bool, now: nat, since: nat, probe: nat) returns (admitted: bool)
      requires Valid() && since <= probe
      modifies this`lastProbe, this`probes
      ensures Valid()
      ensures !admitted ==> !off && Trailing(All(), now, WINDOW, Attempts) >= 12
      ensures !admitted ==> probes == old(probes) != [] && since - probes[|probes| - 1] < PROBE_INTERVAL
      ensures Steady(now) ==>
                && (admitted <==> off || !Stormy(log, now) || old(probes) == [] || since - old(probes)[|old(probes)| - 1] >= PROBE_INTERVAL)
                && (probes == old(probes) + [probe] <==> admitted && !off && Stormy(log, now))
      ensures probes == old(probes) || (admitted && probes == old(probes) + [probe])
    {
      var open := StormOpen(off, now);
      if !open {
        return true;
      }
      admitted := Probe(since, probe);
    }
  }
}
