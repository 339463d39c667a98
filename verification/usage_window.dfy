/** An account's sliding minute and daily count (internal/pool/account.go), both pruned in passing, against
    the full history of uses and limit checks. A use reads the clock under the account's lock; a check was given
    its reading before, so it may be older than the use before it. Instants are nanoseconds since a UTC midnight;
    a day is known by its number, where the source keeps its date. */
module UsageWindow {
  import opened Options

  const MINUTE := 60_000_000_000
  const DAY := 1440 * MINUTE

  function Day(t: nat): nat {
    t / DAY
  }

  // ---------------------------------------------------------------- the history

  /** The uses of the last sixty seconds, in order. */
  function Recent(log: seq<nat>, now: int): seq<nat> {
    if log == [] then []
    else
      var t := log[|log| - 1];
      Recent(log[..|log| - 1], now) + (if t > now - MINUTE then [t] else [])
  }

  /** The uses of one day. */
  function OnDay(log: seq<nat>, day: nat): nat {
    if log == [] then 0
    else OnDay(log[..|log| - 1], day) + (if Day(log[|log| - 1]) == day then 1 else 0)
  }

  ghost predicate Ordered(log: seq<nat>) {
    forall i, j :: 0 <= i < j < |log| ==> log[i] <= log[j]
  }

  /** They are counted one by one. */
  lemma {:induction false} OnDayCounts(log: seq<nat>, day: nat)
    ensures OnDay(log, day) == |set i | 0 <= i < |log| && log[i] / (24 * 60 * MINUTE) == day|
  {
    if log != [] {
      var front := log[..|log| - 1];
      var s := set i | 0 <= i < |log| && log[i] / (24 * 60 * MINUTE) == day;
      var t := set i | 0 <= i < |front| && front[i] / (24 * 60 * MINUTE) == day;
      OnDayCounts(front, day);
      assert s == if Day(log[|front|]) == day then t + {|front|} else t;
    }
  }

  lemma {:induction false} AppendUse(log: seq<nat>, t: nat, now: int, day: nat)
    ensures Recent(log + [t], now) == Recent(log, now) + (if t > now - MINUTE then [t] else [])
    ensures OnDay(log + [t], day) == OnDay(log, day) + (if Day(t) == day then 1 else 0)
  {
    assert (log + [t])[..|log|] == log;
  }

  lemma {:induction false} RecentWithin(log: seq<nat>, now: int)
    requires Ordered(log)
    ensures Ordered(Recent(log, now))
    ensures forall i :: 0 <= i < |Recent(log, now)| ==> Recent(log, now)[i] <= log[|log| - 1]
  {
    if log != [] {
      var front, t := log[..|log| - 1], log[|log| - 1];
      RecentWithin(front, now);
      forall i | 0 <= i < |Recent(front, now)|
        ensures Recent(front, now)[i] <= t
      {
        assert front[|front| - 1] <= t;
      }
    }
  }

  lemma {:induction false} RecentTwice(log: seq<nat>, clock: int, now: int)
    ensures Recent(Recent(log, clock), now) == Recent(log, if clock <= now then now else clock)
  {
    if log != [] {
      var front, t := log[..|log| - 1], log[|log| - 1];
      RecentTwice(front, clock, now);
      AppendUse(Recent(front, clock), t, now, 0);
      assert Recent(log, clock) == if t > clock - MINUTE then Recent(front, clock) + [t] else Recent(front, clock);
    }
  }

  lemma {:induction false} RecentNone(ts: seq<nat>, n: nat, now: int)
    requires n <= |ts| && forall j :: 0 <= j < n ==> ts[j] <= now - MINUTE
    ensures Recent(ts[..n], now) == []
  {
    if n > 0 {
      RecentNone(ts, n - 1, now);
      assert ts[..n] == ts[..n - 1] + [ts[n - 1]];
      AppendUse(ts[..n - 1], ts[n - 1], now, 0);
    }
  }

  lemma {:induction false} RecentAll(ts: seq<nat>, i: nat, n: nat, now: int)
    requires i <= n <= |ts| && Recent(ts[..i], now) == []
    requires forall j :: i <= j < n ==> ts[j] > now - MINUTE
    ensures Recent(ts[..n], now) == ts[i..n]
    decreases n
  {
    if i < n {
      RecentAll(ts, i, n - 1, now);
      assert ts[..n] == ts[..n - 1] + [ts[n - 1]] && ts[i..n] == ts[i..n - 1] + [ts[n - 1]];
      AppendUse(ts[..n - 1], ts[n - 1], now, 0);
    }
  }

  /** Of an ordered list, the recent uses are a suffix. */
  lemma {:induction false} RecentIsSuffix(ts: seq<nat>, i: nat, now: int)
    requires Ordered(ts) && i <= |ts|
    requires forall j :: 0 <= j < i ==> ts[j] <= now - MINUTE
    requires i < |ts| ==> ts[i] > now - MINUTE
    ensures Recent(ts, now) == ts[i..]
  {
    RecentNone(ts, i, now);
    forall j | i <= j < |ts|
      ensures ts[j] > now - MINUTE
    {
      assert i < j ==> ts[i] <= ts[j];
    }
    RecentAll(ts, i, |ts|, now);
    assert ts[..|ts|] == ts;
  }

  // ---------------------------------------------------------------- uses and checks

  datatype Event = Event(now: nat, use: bool)

  function Uses(h: seq<Event>): seq<nat> {
    if h == [] then []
    else Uses(h[..|h| - 1]) + (if h[|h| - 1].use then [h[|h| - 1].now] else [])
  }

  /** The instants of the uses, in order, and of nothing else. */
  lemma {:induction false} UsesAll(a: seq<Event>, b: seq<Event>, t: nat)
    ensures Uses(a + b) == Uses(a) + Uses(b)
    ensures Uses([Event(t, true)]) == [t] && Uses([Event(t, false)]) == []
  {
    assert [Event(t, true)][..0] == [] && [Event(t, false)][..0] == [];
    if b == [] {
      assert a + b == a;
    } else {
      assert (a + b)[..|a + b| - 1] == a + b[..|b| - 1];
      UsesAll(a, b[..|b| - 1], t);
    }
  }

  /** The latest of the readings. */
  function Latest(h: seq<Event>): (r: int)
    ensures forall i :: 0 <= i < |h| ==> h[i].now <= r
    ensures r == -1 || exists i :: 0 <= i < |h| && h[i].now == r
  {
    if h == [] then -1
    else
      var e, before := h[|h| - 1], Latest(h[..|h| - 1]);
      if before <= e.now then e.now else before
  }

  /** No use is older than a reading before it: all that locking and a clock that runs forward ensure. Checks
      may come with any reading. */
  ghost predicate Steady(h: seq<Event>) {
    forall i, j :: 0 <= i < j < |h| && h[j].use ==> h[i].now <= h[j].now
  }

  // Without the leading instants that are a minute old.
  function Trim(ts: seq<nat>, now: int): seq<nat> {
    if ts != [] && ts[0] <= now - MINUTE then Trim(ts[1..], now) else ts
  }

  /** What the account keeps of the uses: every event trims, a use is appended. */
  function Window(h: seq<Event>): seq<nat> {
    if h == [] then []
    else Trim(Window(h[..|h| - 1]), h[|h| - 1].now) + (if h[|h| - 1].use then [h[|h| - 1].now] else [])
  }

  function LastDay(h: seq<Event>): Option<nat> {
    if h == [] then None else Some(Day(h[|h| - 1].now))
  }

  /** What it counts of a day: every event of another day than the one before starts over. */
  function Count(h: seq<Event>): nat {
    if h == [] then 0
    else
      var e, before := h[|h| - 1], h[..|h| - 1];
      (if LastDay(before) == Some(Day(e.now)) then Count(before) else 0) + (if e.use then 1 else 0)
  }

  lemma {:induction false} OneMore(h: seq<Event>, e: Event)
    ensures Uses(h + [e]) == Uses(h) + (if e.use then [e.now] else [])
    ensures Latest(h + [e]) == if Latest(h) <= e.now then e.now else Latest(h)
    ensures Window(h + [e]) == Trim(Window(h), e.now) + (if e.use then [e.now] else [])
    ensures Count(h + [e]) == (if LastDay(h) == Some(Day(e.now)) then Count(h) else 0) + (if e.use then 1 else 0)
    ensures LastDay(h + [e]) == Some(Day(e.now))
  {
    assert (h + [e])[..|h|] == h;
  }

  lemma {:induction false} SteadyMore(h: seq<Event>, e: Event)
    ensures Steady(h + [e]) <==> Steady(h) && (e.use ==> Latest(h) <= e.now)
  {
    var g := h + [e];
    if Steady(g) {
      forall i, j | 0 <= i < j < |h| && h[j].use
        ensures h[i].now <= h[j].now
      {
        assert g[i] == h[i] && g[j] == h[j];
      }
      if i :| 0 <= i < |h| && h[i].now == Latest(h) {
        assert g[i] == h[i] && g[|h|] == e;
      }
    }
  }

  // Trimming is dropping the leading instants.
  lemma {:induction false} TrimIs(ts: seq<nat>, now: int, i: nat)
    requires i <= |ts| && forall j :: 0 <= j < i ==> ts[j] <= now - MINUTE
    requires i < |ts| ==> ts[i] > now - MINUTE
    ensures Trim(ts, now) == ts[i..]
  {
    if i > 0 {
      TrimIs(ts[1..], now, i - 1);
      assert ts[1..][i - 1..] == ts[i..];
    }
  }

  // Of an ordered list, exactly the recent uses are left.
  lemma {:induction false} TrimRecent(ts: seq<nat>, now: int)
    requires Ordered(ts)
    ensures Trim(ts, now) == Recent(ts, now)
  {
    var i := FirstRecent(ts, now);
    TrimIs(ts, now, i);
    RecentIsSuffix(ts, i, now);
  }

  function FirstRecent(ts: seq<nat>, now: int): (i: nat)
    ensures i <= |ts| && forall j :: 0 <= j < i ==> ts[j] <= now - MINUTE
    ensures i < |ts| ==> ts[i] > now - MINUTE
  {
    if ts != [] && ts[0] <= now - MINUTE then FirstRecent(ts[1..], now) + 1 else 0
  }

  lemma {:induction false} UsesOrdered(h: seq<Event>)
    requires Steady(h)
    ensures Ordered(Uses(h)) && forall i :: 0 <= i < |Uses(h)| ==> Uses(h)[i] <= Latest(h)
  {
    if h != [] {
      var before, e := h[..|h| - 1], h[|h| - 1];
      assert h == before + [e];
      SteadyMore(before, e);
      UsesOrdered(before);
    }
  }

  // One event trims what has been kept to the later of two readings.
  lemma {:induction false} TrimLater(log: seq<nat>, clock: int, now: int)
    requires Ordered(log)
    ensures Trim(Recent(log, clock), now) == Recent(log, if clock <= now then now else clock)
  {
    RecentWithin(log, clock);
    TrimRecent(Recent(log, clock), now);
    RecentTwice(log, clock, now);
  }

  lemma {:induction false} MinuteStep(h: seq<Event>, e: Event)
    requires Ordered(Uses(h)) && Window(h) == Recent(Uses(h), Latest(h)) && (e.use ==> Latest(h) <= e.now)
    ensures Window(h + [e]) == Recent(Uses(h + [e]), Latest(h + [e]))
  {
    OneMore(h, e);
    TrimLater(Uses(h), Latest(h), e.now);
    AppendUse(Uses(h), e.now, e.now, 0);
    assert Uses(h) + [] == Uses(h);
    assert Trim(Window(h), e.now) + [] == Trim(Window(h), e.now);
  }

  /** The sliding minute is exact, whatever readings the checks come with: what is kept are the uses of the
      minute before the latest reading. */
  lemma {:induction false} MinuteExact(h: seq<Event>)
    requires Steady(h)
    ensures Window(h) == Recent(Uses(h), Latest(h))
  {
    if h != [] {
      var before, e := h[..|h| - 1], h[|h| - 1];
      assert h == before + [e];
      SteadyMore(before, e);
      MinuteExact(before);
      UsesOrdered(before);
      MinuteStep(before, e);
    }
  }

  /** A use of the day was followed by a reading of another day. */
  ghost predicate Lost(h: seq<Event>, day: nat) {
    exists i, j :: 0 <= i < j < |h| && h[i].use && Day(h[i].now) == day && Day(h[j].now) != day
  }

  lemma {:induction false} DayMore(h: seq<Event>, e: Event, day: nat)
    ensures OnDay(Uses(h + [e]), day) == OnDay(Uses(h), day) + (if e.use && Day(e.now) == day then 1 else 0)
  {
    OneMore(h, e);
    AppendUse(Uses(h), e.now, 0, day);
    assert Uses(h) + [] == Uses(h);
  }

  lemma {:induction false} NoUse(h: seq<Event>, day: nat)
    ensures OnDay(Uses(h), day) == 0 <==> forall i :: 0 <= i < |h| && h[i].use ==> Day(h[i].now) != day
  {
    if h != [] {
      var before, e := h[..|h| - 1], h[|h| - 1];
      assert h == before + [e];
      NoUse(before, day);
      DayMore(before, e, day);
      forall i | 0 <= i < |before|
        ensures before[i] == h[i]
      {
      }
    }
  }

  lemma {:induction false} LostMore(h: seq<Event>, e: Event, day: nat)
    ensures Lost(h, day) ==> Lost(h + [e], day)
    ensures Lost(h + [e], day) <==> Lost(h, day) || (Day(e.now) != day && OnDay(Uses(h), day) > 0)
  {
    var g := h + [e];
    assert g[|h|] == e;
    NoUse(h, day);
    if i, j :| 0 <= i < j < |h| && h[i].use && Day(h[i].now) == day && Day(h[j].now) != day {
      assert g[i] == h[i] && g[j] == h[j];
    }
    if OnDay(Uses(h), day) > 0 {
      var i :| 0 <= i < |h| && h[i].use && Day(h[i].now) == day;
      assert g[i] == h[i];
    }
    if i, j :| 0 <= i < j < |g| && g[i].use && Day(g[i].now) == day && Day(g[j].now) != day {
      assert g[i] == h[i] && (j < |h| ==> g[j] == h[j]);
    }
  }

  /** The daily count is the uses of the current day exactly when none of them was followed by a reading of
      another day; it is never more. */
  lemma {:induction false} DailyExact(h: seq<Event>, day: nat)
    requires LastDay(h) == Some(day)
    ensures Count(h) <= OnDay(Uses(h), day)
    ensures Count(h) == OnDay(Uses(h), day) <==> !Lost(h, day)
  {
    var before, e := h[..|h| - 1], h[|h| - 1];
    assert h == before + [e];
    LostMore(before, e, day);
    DayMore(before, e, day);
    if LastDay(before) == Some(day) {
      DailyExact(before, day);
    } else {
      OtherDay(before, day);
    }
  }

  // The last reading is of another day: all uses of this one are lost.
  lemma {:induction false} OtherDay(h: seq<Event>, day: nat)
    requires LastDay(h) != Some(day)
    ensures Lost(h, day) <==> OnDay(Uses(h), day) > 0
  {
    NoUse(h, day);
    if OnDay(Uses(h), day) > 0 {
      var i :| 0 <= i < |h| && h[i].use && Day(h[i].now) == day;
      assert i < |h| - 1 && Day(h[|h| - 1].now) != day;
    }
  }

  /** Nothing is lost while readings come in order. */
  lemma OrderedKeeps(h: seq<Event>, day: nat)
    requires LastDay(h) == Some(day) && forall i, j :: 0 <= i < j < |h| ==> h[i].now <= h[j].now
    ensures Steady(h) && !Lost(h, day)
  {
    forall i, j | 0 <= i < j < |h| && h[i].use && Day(h[i].now) == day
      ensures Day(h[j].now) == day
    {
      DayMonotone(h[i].now, h[j].now);
      assert h[j].now <= h[|h| - 1].now;
      DayMonotone(h[j].now, h[|h| - 1].now);
    }
  }

  lemma DayMonotone(t: nat, u: nat)
    requires t <= u
    ensures Day(t) <= Day(u)
  {
  }

  // A use, a check whose reading is of another day, another use.
  lemma ForgetsDay(t: nat, u: nat, v: nat)
    requires Day(t) == Day(v) != Day(u) && u <= t <= v
    ensures var h := [Event(t, true), Event(u, false), Event(v, true)];
            Steady(h) && Count(h) == 1 && OnDay(Uses(h), Day(v)) == 2
  {
    var e0, e1, e2 := Event(t, true), Event(u, false), Event(v, true);
    assert [e0, e1, e2][..2] == [e0, e1] && [e0, e1][..1] == [e0] && [e0][..0] == [];
    assert Count([e0, e1]) == 0;
    assert [] + [e0] == [e0] && [e0] + [e1] == [e0, e1] && [e0, e1] + [e2] == [e0, e1, e2];
    DayMore([], e0, Day(v));
    DayMore([e0], e1, Day(v));
    DayMore([e0, e1], e2, Day(v));
  }

  /** A use at midnight, a check whose reading is from just before, another use: two uses that day, and a count
      of one. */
  lemma CheckForgetsDay()
    ensures var h := [Event(DAY, true), Event(DAY - 1, false), Event(DAY + 1, true)];
            Steady(h) && Count(h) == 1 && OnDay(Uses(h), 1) == 2
  {
    ForgetsDay(DAY, DAY - 1, DAY + 1);
  }

  // ---------------------------------------------------------------- limits

  datatype Limits = Limits(rpm: int, daily: int)

  // The value is positive, and none that comes before it is.
  predicate FirstPositive(values: seq<int>, x: int) {
    exists i :: 0 <= i < |values| && values[i] == x > 0 && forall j :: 0 <= j < i ==> values[j] <= 0
  }

  /** The limit in force: the account's own, else the overlay's, else its groups'; none if none of them is positive. */
  function InForce(own: int, overlay: int, group: int): (r: int)
    ensures r > 0 <==> own > 0 || overlay > 0 || group > 0
    ensures r > 0 ==> FirstPositive([own, overlay, group], r)
  {
    var values := [own, overlay, group];
    assert values[0] == own && values[1] == overlay && values[2] == group;
    if own > 0 then own else if overlay > 0 then overlay else group
  }

  predicate Exceeds(limit: int, used: nat) {
    limit > 0 && used >= limit
  }

  /** No use came when the minute before it was already full. */
  ghost predicate Obeyed(log: seq<nat>, limit: int) {
    forall i :: 0 <= i < |log| ==> !Exceeds(limit, |Recent(log[..i], log[i])|)
  }

  /** A limit that is obeyed at each use is kept over every minute; and a minute may be full. */
  lemma {:induction false} LimitKept(log: seq<nat>, limit: int, now: int)
    requires Ordered(log) && Obeyed(log, limit) && limit > 0
    requires log != [] ==> log[|log| - 1] <= now
    ensures |Recent(log, now)| <= limit
  {
    if log != [] {
      var front, t := log[..|log| - 1], log[|log| - 1];
      assert forall i :: 0 <= i < |front| ==> front[i] == log[i] && front[..i] == log[..i];
      if t > now - MINUTE {
        RecentFewer(front, t, now);
        assert log[..|log| - 1] == front;
      } else {
        LimitKept(front, limit, now);
      }
    }
  }

  lemma {:induction false} RecentFewer(log: seq<nat>, before: int, now: int)
    requires before <= now
    ensures |Recent(log, now)| <= |Recent(log, before)|
  {
    if log != [] {
      RecentFewer(log[..|log| - 1], before, now);
    }
  }

  function Burst(n: nat, t: nat): (log: seq<nat>)
    ensures |log| == n && forall i :: 0 <= i < n ==> log[i] == t
  {
    if n == 0 then [] else Burst(n - 1, t) + [t]
  }

  lemma {:induction false} BurstRecent(log: seq<nat>, t: nat)
    requires forall i :: 0 <= i < |log| ==> log[i] == t
    ensures |Recent(log, t)| == |log|
  {
    if log != [] {
      BurstRecent(log[..|log| - 1], t);
    }
  }

  /** Nor is it stricter than it says: that many uses at once obey it, and one more does not. */
  lemma {:induction false} LimitReached(limit: nat, t: nat)
    ensures Obeyed(Burst(limit, t), limit)
    ensures limit > 0 ==> !Obeyed(Burst(limit + 1, t), limit)
  {
    var log, more := Burst(limit, t), Burst(limit + 1, t);
    forall i | 0 <= i < |log|
      ensures !Exceeds(limit, |Recent(log[..i], log[i])|)
    {
      BurstRecent(log[..i], t);
    }
    if limit > 0 {
      BurstRecent(more[..limit], t);
      assert Exceeds(limit, |Recent(more[..limit], more[limit])|);
    }
  }

  class Account {
    const limits: Limits
    // What the group lookup says, if there is one.
    const group: Option<Limits>
    var useTimes: seq<nat>
    var dailyCount: nat
    var dailyDay: Option<nat>
    var failCount: nat
    // All uses and checks so far.
    ghost var history: seq<Event>

    ghost predicate Valid()
      reads this
    {
      useTimes == Window(history) && dailyDay == LastDay(history) && dailyCount == Count(history)
    }

    constructor (limits: Limits, group: Option<Limits>)
      ensures Valid() && history == [] && this.limits == limits && this.group == group
    {
      this.limits, this.group := limits, group;
      useTimes, dailyCount, dailyDay, failCount := [], 0, None, 0;
      history := [];
    }

    /** Drops the leading uses that are a minute old, of ordered ones all that are; a new day starts a new count. */
    method PruneUses(now: nat)
      modifies this`useTimes, this`dailyCount, this`dailyDay
      ensures useTimes == Trim(old(useTimes), now) && dailyDay == Some(Day(now))
      ensures Ordered(old(useTimes)) ==> useTimes == Recent(old(useTimes), now)
      ensures dailyCount == if old(dailyDay) == Some(Day(now)) then old(dailyCount) else 0
    {
      var i := 0;
      while i < |useTimes| && useTimes[i] <= now - MINUTE
        invariant i <= |useTimes| && forall j :: 0 <= j < i ==> useTimes[j] <= now - MINUTE
      {
        i := i + 1;
      }
      TrimIs(useTimes, now, i);
      if Ordered(useTimes) {
        TrimRecent(useTimes, now);
      }
      useTimes := useTimes[i..];
      var day := Day(now);
      if dailyDay != Some(day) {
        dailyDay, dailyCount := Some(day), 0;
      }
    }

    /** One use: both counts see it. */
    method RecordUse(now: nat)
      requires Valid()
      modifies this`useTimes, this`dailyCount, this`dailyDay, this`history
      ensures Valid() && history == old(history) + [Event(now, true)]
      ensures Steady(history) ==> useTimes == Recent(Uses(history), now)
      ensures dailyCount == OnDay(Uses(history), Day(now)) <==> !Lost(history, Day(now))
    {
      PruneUses(now);
      useTimes := useTimes + [now];
      dailyCount := dailyCount + 1;
      Recorded(history, now);
      history := history + [Event(now, true)];
    }

    /** Decides by the uses of the minute before the latest reading, even if its own is older, and by the uses
        of its own reading's day, unless some of them are lost. A change of day lifts the daily limit. */
    method OverLimit(now: nat, overlay: Limits) returns (over: bool)
      requires Valid()
      modifies this`useTimes, this`dailyCount, this`dailyDay, this`history
      ensures Valid() && history == old(history) + [Event(now, false)]
      ensures over <==> Exceeds(RpmInForce(overlay), |Window(history)|) || Exceeds(DailyInForce(overlay), Count(history))
      ensures Steady(history) && !Lost(history, Day(now)) ==>
                (over <==> Exceeds(RpmInForce(overlay), |Recent(Uses(history), Latest(history))|)
                           || Exceeds(DailyInForce(overlay), OnDay(Uses(history), Day(now))))
      ensures Steady(history) && LastDay(old(history)) != Some(Day(now)) ==>
                (over <==> Exceeds(RpmInForce(overlay), |Recent(Uses(history), Latest(history))|))
    {
      PruneUses(now);
      OneMore(history, Event(now, false));
      history := history + [Event(now, false)];
      Means(history, Day(now));
      var rpm, daily := EffectiveLimits(overlay);
      if rpm > 0 && |useTimes| >= rpm {
        return true;
      }
      if daily > 0 && dailyCount >= daily {
        return true;
      }
      return false;
    }

    function RpmInForce(overlay: Limits): int {
      InForce(limits.rpm, overlay.rpm, if group.Some? then group.value.rpm else 0)
    }

    function DailyInForce(overlay: Limits): int {
      InForce(limits.daily, overlay.daily, if group.Some? then group.value.daily else 0)
    }

    /** Each limit is looked up on its own; one that is not positive is none at all. */
    method EffectiveLimits(overlay: Limits) returns (rpm: int, daily: int)
      ensures forall used :: Exceeds(rpm, used) <==> Exceeds(RpmInForce(overlay), used)
      ensures forall used :: Exceeds(daily, used) <==> Exceeds(DailyInForce(overlay), used)
    {
      rpm, daily := limits.rpm, limits.daily;
      if rpm > 0 && daily > 0 {
        return;
      }
      var gRpm, gDaily := overlay.rpm, overlay.daily;
      if group.Some? && (gRpm <= 0 || gDaily <= 0) {
        if gRpm <= 0 {
          gRpm := group.value.rpm;
        }
        if gDaily <= 0 {
          gDaily := group.value.daily;
        }
      }
      if rpm <= 0 {
        rpm := gRpm;
      }
      if daily <= 0 {
        daily := gDaily;
      }
    }

    /** A use that reaches a limit counts as a failure of the account, at that very use. */
    method Use(now: nat)
      requires Valid()
      modifies this`useTimes, this`dailyCount, this`dailyDay, this`history, this`failCount
      ensures Valid() && history == old(history) + [Event(now, true), Event(now, false)]
      ensures Steady(history) && !Lost(history, Day(now)) ==>
                (failCount == old(failCount) + 1
                 <==> Exceeds(RpmInForce(Limits(0, 0)), |Recent(Uses(history), now)|)
                      || Exceeds(DailyInForce(Limits(0, 0)), OnDay(Uses(history), Day(now))))
      ensures old(failCount) <= failCount <= old(failCount) + 1
    {
      RecordUse(now);
      assert history + [Event(now, false)] == old(history) + [Event(now, true), Event(now, false)];
      Checked(old(history), now);
      var over := OverLimit(now, Limits(0, 0));
      if over {
        failCount := failCount + 1;
      }
    }
  }

  // A use, and a check with the same reading.
  lemma {:induction false} Recorded(h: seq<Event>, now: nat)
    ensures var g := h + [Event(now, true)];
            && Window(g) == Trim(Window(h), now) + [now] && LastDay(g) == Some(Day(now))
            && Count(g) == (if LastDay(h) == Some(Day(now)) then Count(h) else 0) + 1
            && (Steady(g) ==> Window(g) == Recent(Uses(g), now))
            && (Count(g) == OnDay(Uses(g), Day(now)) <==> !Lost(g, Day(now)))
  {
    OneMore(h, Event(now, true));
    SteadyMore(h, Event(now, true));
    Means(h + [Event(now, true)], Day(now));
  }

  lemma Checked(h: seq<Event>, now: nat)
    ensures var g := h + [Event(now, true), Event(now, false)]; Steady(g) ==> Latest(g) == now
  {
    var u, g := h + [Event(now, true)], h + [Event(now, true), Event(now, false)];
    assert g == u + [Event(now, false)];
    SteadyMore(u, Event(now, false));
    SteadyMore(h, Event(now, true));
    OneMore(h, Event(now, true));
    OneMore(u, Event(now, false));
  }

  // What window and count mean.
  lemma {:induction false} Means(h: seq<Event>, day: nat)
    requires LastDay(h) == Some(day)
    ensures Steady(h) ==> Window(h) == Recent(Uses(h), Latest(h))
    ensures Count(h) == OnDay(Uses(h), day) <==> !Lost(h, day)
  {
    if Steady(h) {
      MinuteExact(h);
    }
    DailyExact(h, day);
  }
}
