/** Message batches (internal/api/batches.go): one worker answers the requests one by one while a client may
    cancel at any moment. Each region under the store's lock is one method; the worker's place between them
    is ghost. One process lifetime only. */
module Batches {
  import opened Options

  datatype Request = Request(customId: string, hasParams: bool)

  /** What the upstream says to a request that has parameters. */
  datatype Reply = Message(body: string) | Failure(message: string)

  datatype Outcome = Succeeded(body: string) | Errored(message: string)

  datatype Result = Result(customId: string, outcome: Outcome)

  datatype Status = InProgress | Canceling | Cancelled | Ended

  predicate Terminal(s: Status) {
    s.Cancelled? || s.Ended?
  }

  /** The answer to one request. */
  function Answer(q: Request, reply: Reply): Result {
    Result(q.customId, if !q.hasParams then Errored("") else match reply
           case Message(body) => Succeeded(body)
           case Failure(message) => Errored(message))
  }

  /** The answers to the first n requests, in order. */
  function Answers(requests: seq<Request>, replies: seq<Reply>, n: nat): (r: seq<Result>)
    requires n <= |requests| == |replies|
    ensures |r| == n && forall i :: 0 <= i < n ==> r[i] == Answer(requests[i], replies[i])
  {
    if n == 0 then [] else Answers(requests, replies, n - 1) + [Answer(requests[n - 1], replies[n - 1])]
  }

  /** The worker is about to look for a cancellation, is at work on a request, is about to finish, or is gone. */
  datatype Phase = Checking(i: nat) | Working(i: nat) | Finishing | Stopped

  function NextPhase(i: nat, n: nat): Phase {
    if i < n then Checking(i) else Finishing
  }

  // No look for a cancellation is left.
  predicate PastLastLook(p: Phase, n: nat) {
    p.Finishing? || (p.Working? && p.i + 1 == n)
  }

  datatype Counts = Counts(processing: int, succeeded: nat, errored: nat, canceled: int)

  /** How many of the first n results succeeded. */
  function CountSucceeded(results: seq<Result>, n: nat): (c: nat)
    requires n <= |results|
    ensures c == |set i | 0 <= i < n && results[i].outcome.Succeeded?| <= n
  {
    if n == 0 then 0
    else
      OneMore(results, n);
      CountSucceeded(results, n - 1) + (if results[n - 1].outcome.Succeeded? then 1 else 0)
  }

  lemma OneMore(results: seq<Result>, n: nat)
    requires 0 < n <= |results|
    ensures |set i | 0 <= i < n && results[i].outcome.Succeeded?|
            == |set i | 0 <= i < n - 1 && results[i].outcome.Succeeded?| + (if results[n - 1].outcome.Succeeded? then 1 else 0)
  {
    var s, t := set i | 0 <= i < n && results[i].outcome.Succeeded?, set i | 0 <= i < n - 1 && results[i].outcome.Succeeded?;
    assert s == if results[n - 1].outcome.Succeeded? then t + {n - 1} else t;
  }

  class Batch {
    const requests: seq<Request>
    const replies: seq<Reply>
    var results: seq<Result>
    var status: Status
    var endedAt: Option<int>
    var cancelInitiated: Option<int>
    ghost var phase: Phase
    // The cancellation came when the worker would not look for one any more.
    ghost var late: bool

    ghost predicate Valid()
      reads this
    {
      && |replies| == |requests| && |results| <= |requests|
      && results == Answers(requests, replies, |results|)
      && (endedAt.Some? <==> Terminal(status))
      && (cancelInitiated.Some? <==> status.Canceling? || status.Cancelled?)
      && PhaseHolds()
    }

    ghost predicate PhaseHolds()
      reads this
    {
      var n := |requests|;
      && (phase.Checking? || phase.Working? ==> phase.i < n && |results| == phase.i)
      && (phase.Finishing? ==> |results| == n)
      && (Terminal(status) ==> phase.Stopped?)
      && (phase.Stopped? ==> !status.InProgress?)
      && (status.Ended? ==> |results| == n)
      && (status.Canceling? ==> (late <==> PastLastLook(phase, n) || phase.Stopped?))
      && (status.Canceling? && late ==> |results| >= n - 1)
      && (status.Canceling? && phase.Stopped? ==> |results| == n)
    }

    constructor (requests: seq<Request>, replies: seq<Reply>)
      requires |replies| == |requests|
      ensures Valid() && status == InProgress && results == [] && phase == NextPhase(0, |requests|)
      ensures this.requests == requests && this.replies == replies
    {
      this.requests, this.replies := requests, replies;
      results, status, endedAt, cancelInitiated := [], InProgress, None, None;
      phase, late := NextPhase(0, |requests|), false;
    }

    /** Looks for a cancellation, and completes it. */
    method IsCancelled(now: int) returns (c: bool)
      requires Valid() && phase.Checking?
      modifies this`status, this`endedAt, this`phase
      ensures Valid() && (c <==> old(status).Canceling?)
      ensures c ==> status == Cancelled && phase == Stopped && endedAt == Some(now)
      ensures !c ==> status == old(status) && endedAt == old(endedAt) && phase == Working(old(phase).i)
    {
      if status == Canceling || status == Cancelled {
        if status == Canceling {
          status := Cancelled;
          endedAt := Some(now);
        }
        phase := Stopped;
        return true;
      }
      phase := Working(phase.i);
      return false;
    }

    /** Answers the request at hand, cancelled meanwhile or not. */
    method AppendResult()
      requires Valid() && phase.Working?
      modifies this`results, this`phase
      ensures Valid() && phase == NextPhase(old(phase).i + 1, |requests|)
      ensures results == Answers(requests, replies, old(phase).i + 1)
    {
      var i := |results|;
      var outcome;
      if !requests[i].hasParams {
        outcome := Errored("");
      } else {
        match replies[i] {
          case Failure(message) => outcome := Errored(message);
          case Message(body) => outcome := Succeeded(body);
        }
      }
      results := results + [Result(requests[i].customId, outcome)];
      phase := NextPhase(i + 1, |requests|);
    }

    /** Ends the batch, unless it is being cancelled. */
    method Finish(now: int)
      requires Valid() && phase.Finishing?
      modifies this`status, this`endedAt, this`phase
      ensures Valid() && phase == Stopped
      ensures status == if old(status).InProgress? then Ended else old(status)
      ensures endedAt == if old(status).InProgress? then Some(now) else old(endedAt)
    {
      if status == InProgress {
        status := Ended;
        endedAt := Some(now);
      }
      phase := Stopped;
    }

    /** Only a batch in progress can be cancelled; ended and cancelled are for good. */
    method Cancel(now: int) returns (ok: bool)
      requires Valid()
      modifies this`status, this`cancelInitiated, this`late
      ensures Valid() && (ok <==> old(status).InProgress?)
      ensures ok ==> status == Canceling && cancelInitiated == Some(now) && late == PastLastLook(phase, |requests|)
      ensures !ok ==> unchanged(this)
    {
      if status != InProgress {
        return false;
      }
      status := Canceling;
      cancelInitiated := Some(now);
      late := PastLastLook(phase, |requests|);
      return true;
    }

    /** Every request is counted once: answered, still to do, or given up. */
    method ToResponse() returns (c: Counts)
      requires Valid()
      ensures c.processing + c.succeeded + c.errored + c.canceled == |requests|
      ensures c.processing >= 0 && c.canceled >= 0
      ensures c.succeeded == |set i | 0 <= i < |results| && results[i].outcome.Succeeded?|
      ensures c.succeeded + c.errored == |results|
      ensures c.canceled > 0 ==> status.Cancelled?
      ensures Terminal(status) ==> c.processing == 0
    {
      var succeeded, errored := 0, 0;
      for i := 0 to |results|
        invariant succeeded == CountSucceeded(results, i) && succeeded + errored == i
      {
        if results[i].outcome.Succeeded? {
          succeeded := succeeded + 1;
        } else {
          errored := errored + 1;
        }
      }
      var processing, canceled := |requests| - succeeded - errored, 0;
      if status == Cancelled {
        canceled := processing;
        processing := 0;
      }
      return Counts(processing, succeeded, errored, canceled);
    }

    // A client's cancellation, if it comes at this point of the run.
    method CancelIf(now: int, due: bool)
      requires Valid()
      modifies this`status, this`cancelInitiated, this`late
      ensures Valid()
      ensures !due || !old(status).InProgress? ==> status == old(status)
      ensures due && old(status).InProgress? ==> status == Canceling
    {
      if due {
        var _ := Cancel(now);
      }
    }

    /** The worker's whole run, with a cancellation before one of its regions: 2i is the look before request
        i, 2i + 1 its answer, 2n the finish and anything larger the time after. A batch cancelled before its
        last look is cancelled, with the requests begun before answered. Cancelled between the last look and
        the finish, all requests are answered and the batch stays canceling for good. */
    method ProcessBatch(now: int, cancelAt: Option<nat>)
      requires Valid() && status == InProgress && phase == NextPhase(0, |requests|)
      modifies this
      ensures Valid() && phase == Stopped
      ensures var n := |requests|;
              && status == (if cancelAt.None? || cancelAt.value > 2 * n then Ended
                            else if cancelAt.value <= 2 * n - 2 then Cancelled else Canceling)
              && |results| == if status.Cancelled? then (cancelAt.value + 1) / 2 else n
    {
      var n := |requests|;
      for i := 0 to n
        invariant Valid() && phase == NextPhase(i, n) && |results| == i
        invariant status == if cancelAt.None? || cancelAt.value >= 2 * i then InProgress else Canceling
        invariant cancelAt.None? || cancelAt.value >= 2 * i - 1
      {
        CancelIf(now, cancelAt == Some(2 * i));
        var c := IsCancelled(now);
        if c {
          return;
        }
        CancelIf(now, cancelAt == Some(2 * i + 1));
        AppendResult();
      }
      CancelIf(now, cancelAt == Some(2 * n));
      Finish(now);
      CancelIf(now, cancelAt.Some? && cancelAt.value > 2 * n);
    }
  }

  /** Results answer a prefix of the requests in order: each is of the request in its place, and succeeds or fails
      only with what the upstream said to that request. */
  lemma {:induction false} AnswersInOrder(requests: seq<Request>, replies: seq<Reply>, results: seq<Result>, i: nat)
    requires i < |results| <= |requests| == |replies| && results == Answers(requests, replies, |results|)
    ensures results[i].customId == requests[i].customId
    ensures results[i].outcome.Succeeded? <==> requests[i].hasParams && replies[i].Message?
    ensures results[i].outcome.Succeeded? ==> replies[i] == Message(results[i].outcome.body)
    ensures requests[i].hasParams && replies[i].Failure? ==> results[i].outcome == Errored(replies[i].message)
  {
    assert results[i] == Answer(requests[i], replies[i]);
  }
}
