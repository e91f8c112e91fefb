/** The sliding-window rate limiter (src/awr/auth/hardening.py). Times are reals. */
module Limiter {

  // ---------------------------------------------------------------- one call

  /** Drop the hits at or before the cutoff from the front of the queue. */
  function Pop(bucket: seq<real>, cutoff: real): seq<real> {
    if bucket != [] && bucket[0] <= cutoff then Pop(bucket[1..], cutoff) else bucket
  }

  function RetryAfter(oldest: real, window: int, now: real): int {
    var rest := (window as real - (now - oldest)).Floor + 1;
    if rest > 1 then rest else 1
  }

  /** The queue after a call and the delay it answers with; 0 means accepted. */
  function Decide(bucket: seq<real>, limit: int, window: int, now: real): (seq<real>, int)
    requires limit > 0
  {
    var live := Pop(bucket, now - window as real);
    if |live| >= limit then (live, RetryAfter(live[0], window, now)) else (live + [now], 0)
  }

  class SlidingWindowLimiter {
    var hits: map<string, seq<real>>

    constructor ()
      ensures hits == map[]
    {
      hits := map[];
    }

    function Bucket(key: string): seq<real>
      reads this
    {
      if key in hits then hits[key] else []
    }

    /** allow */
    method Allow(key: string, limit: int, window: int, now: real) returns (retry: int)
      modifies this
      ensures limit <= 0 ==> retry == 0 && hits == old(hits)
      ensures limit > 0 ==>
                && retry == Decide(old(Bucket(key)), limit, window, now).1
                && hits == old(hits)[key := Decide(old(Bucket(key)), limit, window, now).0]
    {
      if limit <= 0 {
        return 0;
      }
      var cutoff := now - window as real;
      var bucket := Bucket(key);
      while bucket != [] && bucket[0] <= cutoff
        invariant Pop(bucket, cutoff) == Pop(old(Bucket(key)), cutoff)
      {
        bucket := bucket[1..];
      }
      if |bucket| >= limit {
        hits := hits[key := bucket];
        return RetryAfter(bucket[0], window, now);
      }
      hits := hits[key := bucket + [now]];
      return 0;
    }
  }

  // ---------------------------------------------------------------- what it is for

  ghost predicate NonDecreasing(times: seq<real>) {
    forall i, j :: 0 <= i < j < |times| ==> times[i] <= times[j]
  }

  /** How many of the accepted calls lie after the cutoff, whatever their order. */
  function CountAfter(accepted: seq<real>, cutoff: real): nat {
    if accepted == [] then 0
    else CountAfter(accepted[..|accepted| - 1], cutoff) + if accepted[|accepted| - 1] > cutoff then 1 else 0
  }

  /** The calls an exact window count accepts: those with fewer than `limit` accepted calls in their last window. */
  function Accepted(limit: int, window: int, times: seq<real>): seq<real> {
    if times == [] then []
    else
      var before, now := Accepted(limit, window, times[..|times| - 1]), times[|times| - 1];
      if CountAfter(before, now - window as real) < limit then before + [now] else before
  }

  /** The queue of a key after calls at these times. */
  function QueueAfter(limit: int, window: int, times: seq<real>): seq<real>
    requires limit > 0
  {
    if times == [] then []
    else Decide(QueueAfter(limit, window, times[..|times| - 1]), limit, window, times[|times| - 1]).0
  }

  // ---------------------------------------------------------------- queues and counts

  lemma {:induction false} PopIsSuffix(s: seq<real>, cutoff: real) returns (n: nat)
    ensures n <= |s| && Pop(s, cutoff) == s[n..]
    ensures forall i :: 0 <= i < n ==> s[i] <= cutoff
    ensures n < |s| ==> s[n] > cutoff
  {
    if s != [] && s[0] <= cutoff {
      n := PopIsSuffix(s[1..], cutoff);
      n := n + 1;
    } else {
      n := 0;
    }
  }

  /** Popping further from a popped queue is popping once. */
  lemma {:induction false} PopTwice(s: seq<real>, first: real, second: real)
    requires first <= second
    ensures Pop(Pop(s, first), second) == Pop(s, second)
  {
    if s != [] && s[0] <= first {
      PopTwice(s[1..], first, second);
    }
  }

  lemma {:induction false} PopOfAppend(s: seq<real>, x: real, cutoff: real)
    ensures Pop(s, cutoff) != [] ==> Pop(s + [x], cutoff) == Pop(s, cutoff) + [x]
    ensures Pop(s, cutoff) == [] ==> Pop(s + [x], cutoff) == if x <= cutoff then [] else [x]
  {
    if s == [] {
      assert s + [x] == [x];
      assert Pop([x][1..], cutoff) == [];
    } else if s[0] <= cutoff {
      assert (s + [x])[1..] == s[1..] + [x];
      PopOfAppend(s[1..], x, cutoff);
    }
  }

  /** On a sorted queue the popped rest is exactly what lies after the cutoff. */
  lemma {:induction false} PopCounts(s: seq<real>, cutoff: real)
    requires NonDecreasing(s)
    ensures |Pop(s, cutoff)| == CountAfter(s, cutoff)
  {
    if s != [] {
      var before, last := s[..|s| - 1], s[|s| - 1];
      PopCounts(before, cutoff);
      assert s == before + [last];
      PopOfAppend(before, last, cutoff);
      var n := PopIsSuffix(before, cutoff);
      if n < |before| { assert before[n] == s[n] <= last; }
    }
  }

  // ---------------------------------------------------------------- main results

  /** From some cutoff on, queue and accepted calls are alike. */
  ghost predicate Alike(bucket: seq<real>, accepted: seq<real>, from: real) {
    forall cutoff :: cutoff >= from ==> Pop(bucket, cutoff) == Pop(accepted, cutoff)
  }

  ghost predicate QueueOk(limit: int, window: int, times: seq<real>)
    requires limit > 0
  {
    var bucket, accepted := QueueAfter(limit, window, times), Accepted(limit, window, times);
    && NonDecreasing(bucket) && NonDecreasing(accepted) && |bucket| <= limit
    && (times == [] ==> bucket == [] && accepted == [])
    && (times != [] ==>
          && Alike(bucket, accepted, times[|times| - 1] - window as real)
          && (forall x <- accepted :: x <= times[|times| - 1]))
  }

  lemma SortedAppend(s: seq<real>, x: real)
    requires NonDecreasing(s) && forall y <- s :: y <= x
    ensures NonDecreasing(s + [x])
  {
    forall i, j | 0 <= i < j < |s| + 1 ensures (s + [x])[i] <= (s + [x])[j] {
      assert s[i] in s;
    }
  }

  lemma LiveQueue(bucket: seq<real>, accepted: seq<real>, cutoff: real, now: real)
    requires NonDecreasing(bucket) && NonDecreasing(accepted) && forall x <- accepted :: x <= now
    requires Pop(bucket, cutoff) == Pop(accepted, cutoff)
    ensures
      var live := Pop(bucket, cutoff);
      && NonDecreasing(live) && NonDecreasing(live + [now]) && |live| <= |bucket|
      && |live| == CountAfter(accepted, cutoff)
  {
    PopCounts(accepted, cutoff);
    var live := Pop(bucket, cutoff);
    var n := PopIsSuffix(bucket, cutoff);
    var m := PopIsSuffix(accepted, cutoff);
    assert live == bucket[n..] && live == accepted[m..];
    forall x <- live ensures x <= now { assert x in accepted; }
    SortedAppend(live, now);
  }

  lemma AlikeAfterPop(accepted: seq<real>, cutoff: real, now: real)
    ensures Alike(Pop(accepted, cutoff), accepted, cutoff)
    ensures Alike(Pop(accepted, cutoff) + [now], accepted + [now], cutoff)
  {
    var live := Pop(accepted, cutoff);
    forall later | later >= cutoff
      ensures Pop(live, later) == Pop(accepted, later) && Pop(live + [now], later) == Pop(accepted + [now], later)
    {
      PopTwice(accepted, cutoff, later);
      PopOfAppend(live, now, later);
      PopOfAppend(accepted, now, later);
    }
  }

  lemma CallIsExact(limit: int, window: int, bucket: seq<real>, accepted: seq<real>, from: real, now: real)
    requires limit > 0 && NonDecreasing(bucket) && NonDecreasing(accepted)
    requires Alike(bucket, accepted, from) && from <= now - window as real
    requires forall x <- accepted :: x <= now
    ensures
      var cutoff := now - window as real;
      var (queue, retry) := Decide(bucket, limit, window, now);
      && retry >= 0
      && (retry == 0 <==> CountAfter(accepted, cutoff) < limit)
      && NonDecreasing(queue) && (|bucket| <= limit ==> |queue| <= limit)
      && Alike(queue, if retry == 0 then accepted + [now] else accepted, cutoff)
  {
    var cutoff := now - window as real;
    assert Pop(bucket, cutoff) == Pop(accepted, cutoff);
    LiveQueue(bucket, accepted, cutoff, now);
    AlikeAfterPop(accepted, cutoff, now);
  }

  lemma LaterCall(limit: int, window: int, before: seq<real>, now: real)
    requires limit > 0 && QueueOk(limit, window, before)
    requires before != [] ==> before[|before| - 1] <= now
    ensures
      var cutoff, accepted := now - window as real, Accepted(limit, window, before);
      var (queue, retry) := Decide(QueueAfter(limit, window, before), limit, window, now);
      && (retry == 0 <==> CountAfter(accepted, cutoff) < limit)
      && NonDecreasing(queue) && |queue| <= limit
      && Alike(queue, if retry == 0 then accepted + [now] else accepted, cutoff)
      && NonDecreasing(accepted + [now]) && (forall x <- accepted :: x <= now)
  {
    var accepted := Accepted(limit, window, before);
    var from := if before == [] then now - window as real else before[|before| - 1] - window as real;
    SortedAppend(accepted, now);
    CallIsExact(limit, window, QueueAfter(limit, window, before), accepted, from, now);
  }

  lemma {:induction false} QueuesAreOk(limit: int, window: int, times: seq<real>)
    requires limit > 0 && NonDecreasing(times)
    ensures QueueOk(limit, window, times)
  {
    if times != [] {
      var before, now := times[..|times| - 1], times[|times| - 1];
      QueuesAreOk(limit, window, before);
      if before != [] { assert before[|before| - 1] == times[|times| - 2] <= now; }
      LaterCall(limit, window, before, now);
      assert times == before + [now];
      StepIsOk(limit, window, times, before, now);
    }
  }

  lemma StepIsOk(limit: int, window: int, times: seq<real>, before: seq<real>, now: real)
    requires limit > 0 && times == before + [now] && NonDecreasing(Accepted(limit, window, before))
    requires
      var cutoff, accepted := now - window as real, Accepted(limit, window, before);
      var (queue, retry) := Decide(QueueAfter(limit, window, before), limit, window, now);
      && (retry == 0 <==> CountAfter(accepted, cutoff) < limit)
      && NonDecreasing(queue) && |queue| <= limit
      && Alike(queue, if retry == 0 then accepted + [now] else accepted, cutoff)
      && NonDecreasing(accepted + [now]) && (forall x <- accepted :: x <= now)
    ensures QueueOk(limit, window, times)
  {
    assert times[..|times| - 1] == before && times[|times| - 1] == now;
    var accepted := Accepted(limit, window, before);
    var (queue, retry) := Decide(QueueAfter(limit, window, before), limit, window, now);
    assert QueueAfter(limit, window, times) == queue;
    assert Accepted(limit, window, times) == if retry == 0 then accepted + [now] else accepted;
  }

  /**
   Main result. For non-decreasing call times the limiter accepts a call exactly when fewer than
   `limit` accepted calls lie in its last window; the queue stays sorted and at most `limit` long.
   */
  lemma WindowCountIsExact(limit: int, window: int, times: seq<real>, now: real)
    requires limit > 0 && NonDecreasing(times + [now])
    ensures
      var queue := QueueAfter(limit, window, times);
      && (Decide(queue, limit, window, now).1 == 0 <==>
            CountAfter(Accepted(limit, window, times), now - window as real) < limit)
      && NonDecreasing(queue) && |queue| <= limit
  {
    forall i, j | 0 <= i < j < |times| ensures times[i] <= times[j] {
      assert times[i] == (times + [now])[i] && times[j] == (times + [now])[j];
    }
    QueuesAreOk(limit, window, times);
    if times != [] { assert (times + [now])[|times| - 1] == times[|times| - 1] && (times + [now])[|times|] == now; }
    LaterCall(limit, window, times, now);
  }

  /**
   Main result. A refused call is told to wait: after that delay the next call is accepted, and up to
   one second earlier every call is still refused, as long as no other call of the key was accepted.
   */
  lemma RetryIsTight(limit: int, window: int, bucket: seq<real>, now: real, later: real)
    requires limit > 0 && NonDecreasing(bucket) && |bucket| <= limit && later >= now
    requires Decide(bucket, limit, window, now).1 > 0
    ensures
      var (queue, retry) := Decide(bucket, limit, window, now);
      && (later >= now + retry as real ==> Decide(queue, limit, window, later).1 == 0)
      && (later < now + (retry - 1) as real ==> Decide(queue, limit, window, later).1 > 0)
  {
    var (queue, retry) := Decide(bucket, limit, window, now);
    var n := PopIsSuffix(bucket, now - window as real);
    assert queue == bucket[n..] && |queue| == limit;
    var rest := window as real - (now - queue[0]);
    assert rest > 0.0 && retry == rest.Floor + 1;
    assert rest < retry as real <= rest + 1.0;
    if later >= now + retry as real {
      assert queue[0] <= later - window as real;
      var m := PopIsSuffix(queue, later - window as real);
      assert m > 0;
    }
    if later < now + (retry - 1) as real {
      assert queue[0] > later - window as real;
      assert Pop(queue, later - window as real) == queue;
    }
  }
}
