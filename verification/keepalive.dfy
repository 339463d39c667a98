/** Background token refresh (internal/auth/keepalive.go): single flight, backoff and dead accounts.
    Each region under the lock is one method, so every interleaving of the refreshing goroutines is a
    sequence of calls. Instants and durations are nanoseconds; the refresh itself is a parameter. */
module Keepalive {
  import opened Numbers

  const MINUTE := 60_000_000_000
  const HOUR := 60 * MINUTE
  const DEFAULT_MAX_FAILURES := 8

  // ---------------------------------------------------------------- backoff

  function Pow2(n: nat): (r: nat)
    ensures r > 0
  {
    if n == 0 then 1 else 2 * Pow2(n - 1)
  }

  /** How long to wait after so many failures in a row: doubling minutes, an hour at most. */
  function Backoff(c: nat): nat
    requires c > 0
  {
    Min(Pow2(c - 1), 60) * MINUTE
  }

  lemma {:induction false} Pow2Grows(a: nat, b: nat)
    requires a <= b
    ensures Pow2(a) <= Pow2(b)
    decreases b
  {
    if a < b {
      Pow2Grows(a, b - 1);
    }
  }

  method BackoffFor(count: int) returns (d: nat)
    ensures d == Backoff(if count < 1 then 1 else count)
  {
    var c := if count < 1 then 1 else count;
    d := MINUTE;
    var i := 1;
    while i < c && d < HOUR
      invariant 1 <= i <= c && d == Pow2(i - 1) * MINUTE
    {
      d := 2 * d;
      i := i + 1;
    }
    Pow2Grows(i - 1, c - 1);
    if d > HOUR {
      d := HOUR;
    }
  }

  /** The waiting between the first and the failure after the c-th. */
  function Waits(c: nat): nat {
    if c == 0 then 0 else Waits(c - 1) + Backoff(c)
  }

  /** Eight failures in a row have two hours and three minutes of waiting between them. */
  lemma WaitsOfSeven()
    ensures Waits(7) == 123 * MINUTE
  {
    assert Pow2(3) == 8 && Pow2(4) == 16 && Pow2(5) == 32 && Pow2(6) == 64;
    assert Waits(3) == 7 * MINUTE;
    assert Waits(5) == 31 * MINUTE;
  }

  // ---------------------------------------------------------------- histories

  datatype Event =
    | Start(name: string, t: int)
    | Fail(name: string, t: int)
    | Success(name: string, t: int)
    | Dead(name: string, t: int)

  /** What a history says of one account: refreshes under way, failures in a row, when the first and the
      last of them ended, and when the last refresh started. */
  datatype Streak = Streak(open: int, count: nat, first: int, last: int, started: int)

  function Step(s: Streak, e: Event): Streak {
    match e
    case Start(_, t) => s.(open := s.open + 1, started := t)
    case Fail(_, t) => s.(open := s.open - 1, count := s.count + 1, first := if s.count == 0 then t else s.first, last := t)
    case Success(_, _) => s.(open := s.open - 1, count := 0)
    case Dead(_, _) => s.(count := 0)
  }

  function Of(log: seq<Event>, name: string): Streak {
    if log == [] then Streak(0, 0, 0, 0, 0)
    else
      var e := log[|log| - 1];
      var s := Of(log[..|log| - 1], name);
      if e.name == name then Step(s, e) else s
  }

  // A failure of the account that no success or death of it has followed.
  predicate Counts(log: seq<Event>, name: string, i: nat)
    requires i < |log|
  {
    log[i].Fail? && log[i].name == name
    && forall j :: i < j < |log| && log[j].name == name ==> !log[j].Success? && !log[j].Dead?
  }

  ghost function Counting(log: seq<Event>, name: string): set<nat> {
    set i | 0 <= i < |log| && Counts(log, name, i)
  }

  lemma {:induction false} CountingMore(log: seq<Event>, e: Event, name: string)
    ensures Counting(log + [e], name)
            == if e.name != name || e.Start? then Counting(log, name)
               else if e.Fail? then Counting(log, name) + {|log|} else {}
  {
    var more := log + [e];
    assert more[|log|] == e;
    forall i | 0 <= i < |log|
      ensures Counts(more, name, i) <==> Counts(log, name, i) && !(e.name == name && (e.Success? || e.Dead?))
    {
      if Counts(more, name, i) {
        forall j | i < j < |log| && log[j].name == name
          ensures !log[j].Success? && !log[j].Dead?
        {
          assert more[j] == log[j];
        }
      }
    }
    assert Counts(more, name, |log|) <==> e.Fail? && e.name == name;
  }

  ghost predicate Spans(log: seq<Event>, fails: set<nat>, i: nat, j: nat) {
    i in fails && j in fails && forall k :: k in fails ==> i <= k <= j < |log|
  }

  /** A streak is the failures since the last success or death, from the first of them to the last. */
  lemma {:induction false} StreakIs(log: seq<Event>, name: string) returns (i: nat, j: nat)
    ensures Of(log, name).count == |Counting(log, name)|
    ensures Counting(log, name) != {} ==>
              Spans(log, Counting(log, name), i, j) && Of(log, name).first == log[i].t && Of(log, name).last == log[j].t
  {
    i, j := 0, 0;
    if log != [] {
      var front, e := log[..|log| - 1], log[|log| - 1];
      i, j := StreakIs(front, name);
      CountingMore(front, e, name);
      assert log == front + [e];
      assert |front| !in Counting(front, name);
      if e.name == name && e.Fail? {
        i, j := if Counting(front, name) == {} then |front| else i, |front|;
      }
    }
  }

  lemma {:induction false} OfStep(log: seq<Event>, e: Event, name: string)
    ensures Of(log + [e], name) == if e.name == name then Step(Of(log, name), e) else Of(log, name)
  {
    assert (log + [e])[..|log|] == log;
  }

  /** What may happen next after a history: a refresh starts only when no other of that account is under
      way and the wait after its last failure is over; one that ends is under way; an account dies right
      at the failure that makes the number full. */
  ghost predicate Allowed(log: seq<Event>, e: Event, max: nat, onDead: bool) {
    var s := Of(log, e.name);
    match e
    case Start(_, t) => s.open == 0 && (s.count > 0 ==> t >= s.last + Backoff(s.count))
    case Fail(_, _) => s.open == 1 && (onDead ==> s.count < max)
    case Success(_, _) => s.open == 1
    case Dead(_, t) => onDead && s.count == max && log != [] && log[|log| - 1] == Fail(e.name, t)
  }

  ghost predicate AllowedAt(log: seq<Event>, i: nat, max: nat, onDead: bool)
    requires i < |log|
  {
    Allowed(log[..i], log[i], max, onDead)
  }

  ghost predicate Traced(log: seq<Event>, max: nat, onDead: bool) {
    forall i :: 0 <= i < |log| ==> AllowedAt(log, i, max, onDead)
  }

  lemma TracedStep(log: seq<Event>, e: Event, max: nat, onDead: bool)
    requires Traced(log, max, onDead) && Allowed(log, e, max, onDead)
    ensures Traced(log + [e], max, onDead)
  {
    var m := log + [e];
    forall i | 0 <= i < |m|
      ensures AllowedAt(m, i, max, onDead)
    {
      if i < |log| {
        assert AllowedAt(log, i, max, onDead);
        assert m[..i] == log[..i] && m[i] == log[i];
      } else {
        assert m[..i] == log && m[i] == e;
      }
    }
  }

  lemma TracedPrefix(log: seq<Event>, n: nat, max: nat, onDead: bool)
    requires Traced(log, max, onDead) && n <= |log|
    ensures Traced(log[..n], max, onDead)
  {
    forall i | 0 <= i < n
      ensures AllowedAt(log[..n], i, max, onDead)
    {
      assert AllowedAt(log, i, max, onDead);
      assert log[..n][..i] == log[..i];
    }
  }

  // The clock is read under the lock and does not run backwards.
  ghost predicate Ordered(log: seq<Event>) {
    forall i, j :: 0 <= i < j < |log| ==> log[i].t <= log[j].t
  }

  // A streak of failures took at least the waits between them; a refresh under way waited once more.
  ghost predicate Slow(s: Streak) {
    && (s.count > 0 ==> s.last - s.first >= Waits(s.count - 1))
    && (s.count > 0 && s.open == 1 ==> s.started >= s.last + Backoff(s.count))
  }

  ghost predicate Before(s: Streak, t: int) {
    s.open == 1 ==> s.started <= t
  }

  lemma {:induction false} SlowStep(s: Streak, e: Event, log: seq<Event>, max: nat, onDead: bool)
    requires s == Of(log, e.name) && Slow(s) && Before(s, e.t) && Allowed(log, e, max, onDead)
    ensures Slow(Step(s, e))
  {
    if e.Fail? && s.count > 0 {
      assert Waits(s.count) == Waits(s.count - 1) + Backoff(s.count);
    }
  }

  /** At no point of a history is more than one refresh of an account under way. */
  lemma {:induction false} OneAtATime(log: seq<Event>, name: string, max: nat, onDead: bool)
    requires Traced(log, max, onDead)
    ensures 0 <= Of(log, name).open <= 1
  {
    if log != [] {
      var n := |log| - 1;
      TracedPrefix(log, n, max, onDead);
      OneAtATime(log[..n], name, max, onDead);
      assert AllowedAt(log, n, max, onDead);
    }
  }

  lemma {:induction false} StartedBefore(log: seq<Event>, name: string, t: int, max: nat, onDead: bool)
    requires Traced(log, max, onDead) && forall i :: 0 <= i < |log| ==> log[i].t <= t
    ensures Before(Of(log, name), t)
  {
    if log != [] {
      var n := |log| - 1;
      TracedPrefix(log, n, max, onDead);
      OneAtATime(log[..n], name, max, onDead);
      StartedBefore(log[..n], name, t, max, onDead);
      assert AllowedAt(log, n, max, onDead);
    }
  }

  lemma {:induction false} StreaksSlow(log: seq<Event>, name: string, max: nat, onDead: bool)
    requires Traced(log, max, onDead) && Ordered(log)
    ensures Slow(Of(log, name))
  {
    if log != [] {
      var n := |log| - 1;
      var p, e := log[..n], log[n];
      TracedPrefix(log, n, max, onDead);
      StreaksSlow(p, name, max, onDead);
      if e.name == name {
        assert AllowedAt(log, n, max, onDead);
        StartedBefore(p, name, e.t, max, onDead);
        SlowStep(Of(p, name), e, p, max, onDead);
      }
    }
  }

  /** An account is declared dead only after as many failures in a row as configured, and never sooner after
      the first of them than all the waits in between. */
  lemma {:induction false} DeathTakesItsTime(log: seq<Event>, i: nat, max: nat, onDead: bool)
    requires Traced(log, max, onDead) && Ordered(log) && max > 0
    requires i < |log| && log[i].Dead?
    ensures var s := Of(log[..i], log[i].name); s.count == max && s.last == log[i].t && s.last - s.first >= Waits(max - 1)
  {
    var p, e := log[..i], log[i];
    TracedPrefix(log, i, max, onDead);
    assert AllowedAt(log, i, max, onDead);
    assert Ordered(p);
    StreaksSlow(p, e.name, max, onDead);
  }

  /** With the default of eight failures, never sooner than 123 minutes after the first. */
  lemma DefaultDeath(log: seq<Event>, i: nat, onDead: bool)
    requires Traced(log, DEFAULT_MAX_FAILURES, onDead) && Ordered(log)
    requires i < |log| && log[i].Dead?
    ensures log[i].t - Of(log[..i], log[i].name).first >= 123 * MINUTE
  {
    DeathTakesItsTime(log, i, DEFAULT_MAX_FAILURES, onDead);
    WaitsOfSeven();
  }

  // ---------------------------------------------------------------- the machine

  datatype Entry = Waiting | Joined | Started

  datatype Outcome = Done | Retry(until: int) | Died

  // The maps say of an account what its history does.
  ghost predicate Agrees(s: Streak, name: string, running: set<string>, failures: map<string, nat>,
                         nextTry: map<string, int>, max: nat, onDead: bool)
  {
    && s.open == (if name in running then 1 else 0)
    && s.count == (if name in failures then failures[name] else 0)
    && (name in failures ==> failures[name] > 0)
    && (name in failures && name in nextTry ==> s.count > 0 && nextTry[name] == s.last + Backoff(s.count))
    && (onDead ==> s.count < max)
  }

  // One failure keeps every account's agreement, but for the limit.
  lemma FailAgrees(s: Streak, name: string, running: set<string>, failures: map<string, nat>,
                   nextTry: map<string, int>, max: nat, onDead: bool, failed: string, now: int)
    requires Agrees(s, name, running, failures, nextTry, max, onDead) && failed in running
    ensures var c := if failed in failures then failures[failed] + 1 else 1;
            Agrees(if failed == name then Step(s, Fail(failed, now)) else s, name, running - {failed}, failures[failed := c],
                   nextTry[failed := now + Backoff(c)], if name == failed then max + 1 else max, onDead)
  {
  }

  class Keepalive {
    const maxFailures: nat
    const onDead: bool
    var inflight: set<string>
    var failures: map<string, nat>
    var nextTry: map<string, int>
    // Refreshes not yet returned, and everything that happened.
    ghost var running: set<string>
    ghost var log: seq<Event>

    ghost predicate Valid()
      reads this
    {
      && maxFailures > 0 && running <= inflight && failures.Keys == nextTry.Keys
      && Traced(log, maxFailures, onDead)
      && forall name :: Agrees(Of(log, name), name, running, failures, nextTry, maxFailures, onDead)
    }

    constructor (max: int, onDead: bool)
      ensures Valid() && log == [] && inflight == {} && this.onDead == onDead
      ensures maxFailures == if max <= 0 then DEFAULT_MAX_FAILURES else max
    {
      maxFailures := if max <= 0 then DEFAULT_MAX_FAILURES else max;
      this.onDead := onDead;
      inflight, failures, nextTry, running, log := {}, map[], map[], {}, [];
    }

    // Appending an event leaves what the history says of the other accounts.
    ghost method Append(e: Event)
      requires Traced(log, maxFailures, onDead) && Allowed(log, e, maxFailures, onDead)
      modifies this`log
      ensures log == old(log) + [e] && Traced(log, maxFailures, onDead)
      ensures forall name :: Of(log, name) == if e.name == name then Step(Of(old(log), name), e) else Of(old(log), name)
    {
      TracedStep(log, e, maxFailures, onDead);
      forall name
        ensures Of(log + [e], name) == if e.name == name then Step(Of(log, name), e) else Of(log, name)
      {
        OfStep(log, e, name);
      }
      log := log + [e];
    }

    /** The first region: stays out while the account waits, joins a refresh under way, or starts one.
        So at most one refresh of an account is ever outstanding. */
    method Begin(name: string, now: int) returns (r: Entry)
      requires Valid()
      modifies this`inflight, this`running, this`log
      ensures Valid()
      ensures r.Waiting? <==> name in nextTry && now < nextTry[name]
      ensures r.Joined? <==> !r.Waiting? && name in old(inflight)
      ensures r.Started? ==> name !in old(running) && running == old(running) + {name} && inflight == old(inflight) + {name}
      ensures r.Started? ==> log == old(log) + [Start(name, now)]
      ensures !r.Started? ==> running == old(running) && inflight == old(inflight) && log == old(log)
    {
      if name in nextTry && now < nextTry[name] {
        return Waiting;
      }
      if name in inflight {
        return Joined;
      }
      assert Agrees(Of(log, name), name, running, failures, nextTry, maxFailures, onDead);
      inflight, running := inflight + {name}, running + {name};
      Append(Start(name, now));
      return Started;
    }

    /** The second region, after the refresh returned. The dead callback fires exactly at the last of
        maxFailures failures in a row, and the account starts over. */
    method Complete(name: string, ok: bool, now: int) returns (r: Outcome)
      requires Valid() && name in running
      modifies this`failures, this`nextTry, this`running, this`log
      ensures Valid() && running == old(running) - {name}
      ensures r == if ok then Done
                   else (var c := Of(old(log), name).count + 1;
                         if onDead && c == maxFailures then Died else Retry(now + Backoff(c)))
      ensures log == old(log) + (match r
                                 case Done => [Success(name, now)]
                                 case Retry(_) => [Fail(name, now)]
                                 case Died => [Fail(name, now), Dead(name, now)])
      ensures failures - {name} == old(failures) - {name}
    {
      if ok {
        Succeed(name, now);
        return Done;
      }
      r := Failed(name, now);
    }

    method Succeed(name: string, now: int)
      requires Valid() && name in running
      modifies this`failures, this`nextTry, this`running, this`log
      ensures Valid() && running == old(running) - {name} && log == old(log) + [Success(name, now)]
      ensures failures == old(failures) - {name}
    {
      assert Agrees(Of(log, name), name, running, failures, nextTry, maxFailures, onDead);
      running, failures, nextTry := running - {name}, failures - {name}, nextTry - {name};
      Append(Success(name, now));
    }

    method Failed(name: string, now: int) returns (r: Outcome)
      requires Valid() && name in running
      modifies this`failures, this`nextTry, this`running, this`log
      ensures Valid() && running == old(running) - {name}
      ensures r == (var c := Of(old(log), name).count + 1; if onDead && c == maxFailures then Died else Retry(now + Backoff(c)))
      ensures log == old(log) + (if r.Died? then [Fail(name, now), Dead(name, now)] else [Fail(name, now)])
      ensures failures - {name} == old(failures) - {name}
    {
      assert Agrees(Of(log, name), name, running, failures, nextTry, maxFailures, onDead);
      var wait := CountFailure(name, now);
      if failures[name] >= maxFailures && onDead {
        Bury(name, now);
        return Died;
      }
      return Retry(now + wait);
    }

    // Valid, except that one account may have reached the number of failures.
    ghost predicate ValidBut(name: string)
      reads this
    {
      && maxFailures > 0 && running <= inflight && failures.Keys == nextTry.Keys
      && Traced(log, maxFailures, onDead)
      && forall n :: Agrees(Of(log, n), n, running, failures, nextTry, if n == name then maxFailures + 1 else maxFailures, onDead)
    }

    method CountFailure(name: string, now: int) returns (wait: nat)
      requires Valid() && name in running
      modifies this`failures, this`nextTry, this`running, this`log
      ensures ValidBut(name) && running == old(running) - {name} && log == old(log) + [Fail(name, now)]
      ensures failures == old(failures)[name := Of(old(log), name).count + 1]
      ensures wait == Backoff(Of(old(log), name).count + 1)
    {
      assert Agrees(Of(log, name), name, running, failures, nextTry, maxFailures, onDead);
      var c := if name in failures then failures[name] + 1 else 1;
      wait := BackoffFor(c);
      forall n
        ensures Agrees(if name == n then Step(Of(log, n), Fail(name, now)) else Of(log, n), n, running - {name},
                       failures[name := c], nextTry[name := now + wait], if n == name then maxFailures + 1 else maxFailures, onDead)
      {
        FailAgrees(Of(log, n), n, running, failures, nextTry, maxFailures, onDead, name, now);
      }
      running, failures, nextTry := running - {name}, failures[name := c], nextTry[name := now + wait];
      Append(Fail(name, now));
    }

    method Bury(name: string, now: int)
      requires ValidBut(name) && onDead && name in failures && failures[name] == maxFailures
      requires log != [] && log[|log| - 1] == Fail(name, now)
      modifies this`failures, this`nextTry, this`log
      ensures Valid() && log == old(log) + [Dead(name, now)] && failures == old(failures) - {name}
    {
      assert Agrees(Of(log, name), name, running, failures, nextTry, maxFailures + 1, onDead);
      failures, nextTry := failures - {name}, nextTry - {name};
      Append(Dead(name, now));
    }

    /** The last region: the flight is over, and the account may be refreshed again. */
    method Release(name: string)
      requires Valid() && name in inflight && name !in running
      modifies this`inflight
      ensures Valid() && inflight == old(inflight) - {name}
    {
      inflight := inflight - {name};
    }
  }
}
