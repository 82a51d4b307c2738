/** The in-process sliding-window rate limiter, against a limiter that remembers every accepted call. */
module RateLimiter {

  datatype Decision =
    | Allowed
    | Refused(retryAfter: int)
    | Raises  // the source reads the first element of an empty deque: IndexError

  // ------------------------------------------------------ the full-log limiter

  datatype Call = Call(key: string, time: real)

  /** The accepted times of one key, oldest first. */
  function Times(log: seq<Call>, key: string): (times: seq<real>)
    ensures |times| <= |log|
  {
    if log == [] then []
    else Times(log[..|log| - 1], key) + if log[|log| - 1].key == key then [log[|log| - 1].time] else []
  }

  predicate Within(time: real, now: real, window: int) {
    now - window as real < time <= now
  }

  /** Those of the times that lie in (now - window, now]. */
  function InWindow(times: seq<real>, now: real, window: int): seq<real> {
    if times == [] then []
    else InWindow(times[..|times| - 1], now, window)
         + if Within(times[|times| - 1], now, window) then [times[|times| - 1]] else []
  }

  /** Whole seconds until the oldest of the counted calls leaves the window, but at least one. */
  function RetryAfter(oldest: real, now: real, window: int): int {
    var wait := window as real - (now - oldest);
    var whole := if wait >= 0.0 then wait.Floor else -((-wait).Floor);
    if whole < 1 then 1 else whole
  }

  /** What a limiter that keeps the full log decides. */
  function Decide(log: seq<Call>, call: Call, limit: int, window: int): Decision {
    var counted := InWindow(Times(log, call.key), call.time, window);
    if |counted| < limit then Allowed
    else if counted == [] then Raises
    else Refused(RetryAfter(counted[0], call.time, window))
  }

  function Logged(log: seq<Call>, call: Call, decision: Decision): seq<Call> {
    if decision == Allowed then log + [call] else log
  }

  // ------------------------------------------------------ what the bounded deque relies on

  ghost predicate Sorted(times: seq<real>) {
    forall i, j :: 0 <= i < j < |times| ==> times[i] <= times[j]
  }

  /** Times that are at least `limit` places apart are at least the window apart. */
  ghost predicate Spaced(times: seq<real>, limit: int, window: int) {
    limit >= 0 ==> forall i, j :: 0 <= i && i + limit <= j < |times| ==> times[i] + window as real <= times[j]
  }

  ghost predicate UpTo(times: seq<real>, now: real) {
    forall i :: 0 <= i < |times| ==> times[i] <= now
  }

  /** Dropping from the front whatever is not after the cutoff. */
  function After(times: seq<real>, cutoff: real): (rest: seq<real>)
    ensures |rest| <= |times|
  {
    if times == [] || times[0] > cutoff then times else After(times[1..], cutoff)
  }

  lemma {:induction false} AfterMeaning(times: seq<real>, cutoff: real)
    ensures var gone := |times| - |After(times, cutoff)|;
            && After(times, cutoff) == times[gone..]
            && (gone < |times| ==> times[gone] > cutoff)
            && (forall i :: 0 <= i < gone ==> times[i] <= cutoff)
  {
    if times != [] && times[0] <= cutoff {
      AfterMeaning(times[1..], cutoff);
    }
  }

  /** For sorted times up to now, dropping from the front leaves exactly the times in the window. */
  lemma {:induction false} AfterIsInWindow(times: seq<real>, now: real, window: int)
    requires Sorted(times) && UpTo(times, now)
    ensures After(times, now - window as real) == InWindow(times, now, window)
  {
    hide After, InWindow, Sorted, UpTo;
    if times == [] {
      WindowNothing(now, window);
    } else {
      var front, last := times[..|times| - 1], times[|times| - 1];
      assert times == front + [last];
      Front(front, last, now);
      AfterIsInWindow(front, now, window);
      AfterSnoc(front, last, now - window as real);
      InWindowSnoc(front, last, now, window);
    }
  }

  lemma WindowNothing(now: real, window: int)
    ensures After([], now - window as real) == InWindow([], now, window)
  {
  }

  lemma InWindowSnoc(front: seq<real>, last: real, now: real, window: int)
    ensures InWindow(front + [last], now, window)
            == InWindow(front, now, window) + if Within(last, now, window) then [last] else []
  {
    assert (front + [last])[..|front|] == front;
  }

  lemma Front(front: seq<real>, last: real, now: real)
    requires Sorted(front + [last]) && UpTo(front + [last], now)
    ensures Sorted(front) && UpTo(front, now) && last <= now
  {
    assert forall i :: 0 <= i < |front| ==> (front + [last])[i] == front[i];
    assert (front + [last])[|front|] == last;
  }

  lemma {:induction false} AfterSnoc(front: seq<real>, last: real, cutoff: real)
    requires Sorted(front + [last])
    ensures After(front + [last], cutoff) == After(front, cutoff) + if last > cutoff then [last] else []
  {
    if front != [] {
      assert forall i :: 0 <= i < |front| ==> (front + [last])[i] == front[i];
      if front[0] > cutoff {
        assert (front + [last])[0] <= (front + [last])[|front|];
      } else {
        assert (front + [last])[1..] == front[1..] + [last];
        AfterSnoc(front[1..], last, cutoff);
      }
    }
  }

  /** Dropping in two goes is dropping once. */
  lemma {:induction false} AfterAfter(times: seq<real>, earlier: real, later: real)
    requires earlier <= later
    ensures After(After(times, earlier), later) == After(times, later)
  {
    if times != [] && times[0] <= earlier {
      AfterAfter(times[1..], earlier, later);
    }
  }

  /** A call is accepted only when the limit-th call before it has left the window. */
  lemma SpacedSnoc(times: seq<real>, now: real, limit: int, window: int)
    requires Spaced(times, limit, window)
    requires |After(times, now - window as real)| < limit
    ensures Spaced(times + [now], limit, window)
  {
    var all := times + [now];
    hide After;
    var cutoff := now - window as real;
    AfterMeaning(times, cutoff);
    forall i, j | 0 <= i && i + limit <= j < |all|
      ensures all[i] + window as real <= all[j]
    {
      if j < |times| {
        assert times[i] + window as real <= times[j];
      } else {
        assert times[i] <= cutoff;
      }
    }
  }

  /** Spaced calls never fill any window, wherever it ends, beyond the limit. */
  lemma SpacedMeaning(times: seq<real>, limit: nat, window: int, t: real)
    requires Sorted(times) && Spaced(times, limit, window)
    ensures |InWindow(times, t, window)| <= limit
  {
    var n := LastUpTo(times, t);
    var early := times[..n];
    InWindowPrefix(times, n, t, window);
    assert Spaced(early, limit, window);
    hide Spaced, InWindow;
    AfterIsInWindow(early, t, window);
    SpacedAfter(early, limit, window, t);
  }

  lemma SpacedAfter(times: seq<real>, limit: nat, window: int, t: real)
    requires UpTo(times, t) && Spaced(times, limit, window)
    ensures |After(times, t - window as real)| <= limit
  {
    hide After;
    AfterMeaning(times, t - window as real);
    if times != [] {
      assert times[|times| - 1] <= t;
    }
  }

  /** How many of the sorted times are at most t. */
  function LastUpTo(times: seq<real>, t: real): (n: nat)
    requires Sorted(times)
    ensures n <= |times|
    ensures UpTo(times[..n], t)
    ensures forall i :: n <= i < |times| ==> times[i] > t
  {
    if times == [] || times[|times| - 1] <= t then |times| else LastUpTo(times[..|times| - 1], t)
  }

  lemma {:induction false} InWindowPrefix(times: seq<real>, n: nat, t: real, window: int)
    requires n <= |times| && forall i :: n <= i < |times| ==> times[i] > t
    ensures InWindow(times, t, window) == InWindow(times[..n], t, window)
    decreases |times|
  {
    if n == |times| {
      assert times[..n] == times;
    } else {
      InWindowPrefix(times[..|times| - 1], n, t, window);
      assert times[..|times| - 1][..n] == times[..n];
    }
  }

  // ------------------------------------------------------ the limiter itself

  class SlidingWindowCounter {
    const limit: int
    const window: int
    var events: map<string, seq<real>>
    ghost var log: seq<Call>                // every accepted call
    ghost var cutoffs: map<string, real>    // the last cutoff used for each key
    ghost var clock: real                   // the time of the last call

    /** From its last cutoff on, each deque is as good as all the accepted times of its key. */
    ghost predicate KeyFits(key: string)
      reads this
    {
      var times := Times(log, key);
      && Sorted(times)
      && UpTo(times, clock)
      && Spaced(times, limit, window)
      && (if key in events then
            && key in cutoffs && cutoffs[key] <= clock - window as real
            && After(events[key], cutoffs[key]) == After(times, cutoffs[key])
          else times == [])
    }

    ghost predicate Valid()
      reads this
    {
      forall key :: KeyFits(key)
    }

    constructor (limit: int, window: int, ghost start: real)
      ensures Valid() && log == [] && this.limit == limit && this.window == window && clock == start
    {
      this.limit, this.window := limit, window;
      events, log, cutoffs := map[], [], map[];
      clock := start;
    }

    /** One call at time `now` of a clock that never goes back. */
    method Allow(key: string, now: real) returns (decision: Decision)
      requires Valid() && clock <= now
      modifies this
      ensures Valid() && clock == now
      ensures decision == Decide(old(log), Call(key, now), limit, window)
      ensures log == Logged(old(log), Call(key, now), decision)
      ensures key in events
      ensures events[key] == InWindow(Times(old(log), key), now, window) + if decision == Allowed then [now] else []
    {
      hide InWindow, Times, RetryAfter, After, Sorted, Spaced, UpTo;
      assert KeyFits(key);
      ghost var times := Times(log, key);
      var cutoff := now - window as real;
      var deque := Expire(if key in events then events[key] else [], cutoff);
      assert deque == After(times, cutoff) by {
        if key in events {
          AfterAfter(events[key], cutoffs[key], cutoff);
          AfterAfter(times, cutoffs[key], cutoff);
        }
      }
      Later(times, clock, now);
      AfterIsInWindow(times, now, window);
      AfterAfter(times, cutoff, cutoff);
      forall other
        ensures var all := Times(log, other); Sorted(all) && UpTo(all, now) && Spaced(all, limit, window)
      {
        assert KeyFits(other);
        Later(Times(log, other), clock, now);
      }
      assert forall other :: old(KeyFits(other)) by {
        forall other ensures KeyFits(other) {}
      }
      clock := now;
      cutoffs := cutoffs[key := cutoff];
      if |deque| >= limit {
        events := events[key := deque];
        forall other
          ensures KeyFits(other)
        {
          assert old(KeyFits(other));
        }
        return if deque == [] then Raises else Refused(RetryAfter(deque[0], now, window));
      }
      events := events[key := deque + [now]];
      log := log + [Call(key, now)];
      Accept(times, now, limit, window);
      forall other
        ensures KeyFits(other)
      {
        assert old(KeyFits(other));
        TimesSnoc(old(log), Call(key, now), other);
      }
      return Allowed;
    }
  }

  lemma Later(times: seq<real>, earlier: real, later: real)
    requires UpTo(times, earlier) && earlier <= later
    ensures UpTo(times, later)
  {
  }

  /** The popleft loop of `allow`. */
  method Expire(times: seq<real>, cutoff: real) returns (deque: seq<real>)
    ensures deque == After(times, cutoff)
  {
    deque := times;
    while deque != [] && deque[0] <= cutoff
      invariant After(deque, cutoff) == After(times, cutoff)
    {
      deque := deque[1..];
    }
  }

  lemma TimesSnoc(log: seq<Call>, call: Call, key: string)
    ensures Times(log + [call], key) == if call.key == key then Times(log, key) + [call.time] else Times(log, key)
  {
    assert (log + [call])[..|log|] == log;
  }

  /** What accepting a call does to the times of its key. */
  lemma Accept(times: seq<real>, now: real, limit: int, window: int)
    requires Sorted(times) && UpTo(times, now) && Spaced(times, limit, window)
    requires |After(times, now - window as real)| < limit
    ensures Sorted(times + [now]) && UpTo(times + [now], now) && Spaced(times + [now], limit, window)
    ensures var cutoff := now - window as real;
            After(After(times, cutoff) + [now], cutoff) == After(times + [now], cutoff)
  {
    var cutoff := now - window as real;
    var rest := After(times, cutoff);
    AfterMeaning(times, cutoff);
    SpacedSnoc(times, now, limit, window);
    assert Sorted(times + [now]) && UpTo(times + [now], now) && Sorted(rest + [now]);
    hide Spaced, After;
    AfterSnoc(times, now, cutoff);
    AfterSnoc(rest, now, cutoff);
    AfterAfter(times, cutoff, cutoff);
  }

  // ------------------------------------------------------ whole runs

  ghost predicate InOrder(calls: seq<Call>) {
    forall i, j :: 0 <= i < j < |calls| ==> calls[i].time <= calls[j].time
  }

  /** The calls that the full-log limiter accepts, in order. */
  function Accepted(calls: seq<Call>, limit: int, window: int): seq<Call> {
    if calls == [] then []
    else
      var log := Accepted(calls[..|calls| - 1], limit, window);
      Logged(log, calls[|calls| - 1], Decide(log, calls[|calls| - 1], limit, window))
  }

  function Decisions(calls: seq<Call>, limit: int, window: int): (decisions: seq<Decision>)
    ensures |decisions| == |calls|
  {
    if calls == [] then []
    else
      var front := calls[..|calls| - 1];
      Decisions(front, limit, window) + [Decide(Accepted(front, limit, window), calls[|calls| - 1], limit, window)]
  }

  /** Over any calls to any keys, by a clock that never goes back, the deques decide as the full log does. */
  method Serve(calls: seq<Call>, limit: int, window: int) returns (decisions: seq<Decision>)
    requires InOrder(calls)
    ensures decisions == Decisions(calls, limit, window)
  {
    hide *;
    decisions := [];
    NothingCalled(limit, window);
    if calls == [] {
      return;
    }
    var counter := new SlidingWindowCounter(limit, window, calls[0].time);
    for i := 0 to |calls|
      invariant counter.Valid() && counter.limit == limit && counter.window == window
      invariant i < |calls| ==> counter.clock <= calls[i].time
      invariant counter.log == Accepted(calls[..i], limit, window)
      invariant decisions == Decisions(calls[..i], limit, window)
      modifies counter
    {
      RunSnoc(calls[..i], calls[i], limit, window);
      var decision := counter.Allow(calls[i].key, calls[i].time);
      decisions := decisions + [decision];
      assert calls[..i + 1] == calls[..i] + [calls[i]];
      assert Call(calls[i].key, calls[i].time) == calls[i];
      if i + 1 < |calls| {
        NextInOrder(calls, i);
      }
    }
    assert calls[..|calls|] == calls;
  }

  lemma NextInOrder(calls: seq<Call>, i: nat)
    requires InOrder(calls) && i + 1 < |calls|
    ensures calls[i].time <= calls[i + 1].time
  {
  }

  lemma RunSnoc(calls: seq<Call>, call: Call, limit: int, window: int)
    ensures var log := Accepted(calls, limit, window);
            && Accepted(calls + [call], limit, window) == Logged(log, call, Decide(log, call, limit, window))
            && Decisions(calls + [call], limit, window)
               == Decisions(calls, limit, window) + [Decide(log, call, limit, window)]
  {
    hide Decide, Logged;
    assert (calls + [call])[..|calls|] == calls;
  }

  /** The accepted times of one key, whatever was called for the others. */
  lemma {:induction false} AcceptedTimes(calls: seq<Call>, key: string, limit: int, window: int)
    requires InOrder(calls)
    ensures var times := Times(Accepted(calls, limit, window), key);
            && Sorted(times) && Spaced(times, limit, window)
            && (calls != [] ==> UpTo(times, calls[|calls| - 1].time))
  {
    if calls != [] {
      var front, call := calls[..|calls| - 1], calls[|calls| - 1];
      AcceptedTimes(front, key, limit, window);
      var log := Accepted(front, limit, window);
      var times := Times(log, key);
      assert UpTo(times, call.time) by {
        if front != [] {
          Later(times, front[|front| - 1].time, call.time);
        } else {
          assert times == [];
        }
      }
      hide Sorted, Spaced, UpTo, Times, Decide, Logged;
      LogStep(log, call, key, limit, window);
    }
  }

  lemma LogStep(log: seq<Call>, call: Call, key: string, limit: int, window: int)
    requires var times := Times(log, key); Sorted(times) && Spaced(times, limit, window) && UpTo(times, call.time)
    ensures var times := Times(Logged(log, call, Decide(log, call, limit, window)), key);
            Sorted(times) && Spaced(times, limit, window) && UpTo(times, call.time)
  {
    hide Sorted, Spaced, UpTo, Times, InWindow;
    TimesSnoc(log, call, key);
    if Decide(log, call, limit, window) == Allowed && call.key == key {
      AfterIsInWindow(Times(log, key), call.time, window);
      Accept(Times(log, key), call.time, limit, window);
    }
  }

  /** No window (t - window, t], wherever it ends, holds more accepted calls of a key than the limit. */
  lemma LimitIsKept(calls: seq<Call>, key: string, limit: nat, window: int, t: real)
    requires InOrder(calls)
    ensures |InWindow(Times(Accepted(calls, limit, window), key), t, window)| <= limit
  {
    AcceptedTimes(calls, key, limit, window);
    SpacedMeaning(Times(Accepted(calls, limit, window), key), limit, window, t);
  }

  /** The true wait: until the oldest counted call leaves the window. */
  function Wait(oldest: real, now: real, window: int): real {
    window as real - (now - oldest)
  }

  /** Waits that whole seconds, cut off and at least one, do not fall short of. */
  predicate Covered(wait: real) {
    wait <= 1.0 || wait == wait.Floor as real
  }

  /**
   A refusal means that the window is exactly full, and the whole seconds returned are less than
   one short of the true wait, which they are only when it has a fraction.
   */
  lemma RefusedMeaning(calls: seq<Call>, call: Call, limit: int, window: int)
    requires InOrder(calls + [call])
    requires Decide(Accepted(calls, limit, window), call, limit, window).Refused?
    ensures var counted := InWindow(Times(Accepted(calls, limit, window), call.key), call.time, window);
            && limit >= 1 && |counted| == limit
            && Decide(Accepted(calls, limit, window), call, limit, window).retryAfter >= 1
            && 0.0 < Wait(counted[0], call.time, window)
                   < Decide(Accepted(calls, limit, window), call, limit, window).retryAfter as real + 1.0
  {
    var log := Accepted(calls, limit, window);
    var times := Times(log, call.key);
    InOrderFront(calls, call);
    WithinEach(times, call.time, window);
    if limit >= 0 {
      LimitIsKept(calls, call.key, limit, window, call.time);
    } else {
      NothingAccepted(calls, limit, window);
    }
  }

  lemma InOrderFront(calls: seq<Call>, call: Call)
    requires InOrder(calls + [call])
    ensures InOrder(calls) && (calls != [] ==> calls[|calls| - 1].time <= call.time)
  {
    assert forall i :: 0 <= i < |calls| ==> (calls + [call])[i] == calls[i];
    assert (calls + [call])[|calls|] == call;
  }

  lemma {:induction false} WithinEach(times: seq<real>, now: real, window: int)
    ensures forall i :: 0 <= i < |InWindow(times, now, window)| ==> Within(InWindow(times, now, window)[i], now, window)
  {
    if times != [] {
      WithinEach(times[..|times| - 1], now, window);
    }
  }

  /** With a limit below one every call reads the first element of an empty deque, which raises. */
  lemma {:induction false} NothingAccepted(calls: seq<Call>, limit: int, window: int)
    requires limit <= 0
    ensures Accepted(calls, limit, window) == []
    ensures forall i :: 0 <= i < |calls| ==> Decisions(calls, limit, window)[i] == Raises
  {
    if calls != [] {
      NothingAccepted(calls[..|calls| - 1], limit, window);
    }
  }

  /**
   Calling again after exactly the seconds returned, with no call of the key accepted in between,
   succeeds if and only if the true wait was at most one second or whole.
   */
  lemma RetryAfterSuffices(calls: seq<Call>, call: Call, limit: int, window: int)
    requires InOrder(calls + [call])
    requires Decide(Accepted(calls, limit, window), call, limit, window).Refused?
    ensures var log := Accepted(calls, limit, window);
            var wait := Wait(InWindow(Times(log, call.key), call.time, window)[0], call.time, window);
            var again := Call(call.key, call.time + Decide(log, call, limit, window).retryAfter as real);
            Decide(log, again, limit, window) == Allowed <==> Covered(wait)
  {
    var log := Accepted(calls, limit, window);
    AcceptedByNow(calls, call, limit, window);
    RefusedMeaning(calls, call, limit, window);
    hide *;
    RetryOnLog(log, call, limit, window);
  }

  lemma RetryOnLog(log: seq<Call>, call: Call, limit: nat, window: int)
    requires var times := Times(log, call.key); Sorted(times) && UpTo(times, call.time)
    requires Decide(log, call, limit, window).Refused?
    requires var counted := InWindow(Times(log, call.key), call.time, window);
             |counted| == limit >= 1 && Wait(counted[0], call.time, window) > 0.0
    ensures var wait := Wait(InWindow(Times(log, call.key), call.time, window)[0], call.time, window);
            var again := Call(call.key, call.time + Decide(log, call, limit, window).retryAfter as real);
            Decide(log, again, limit, window) == Allowed <==> Covered(wait)
  {
    hide Sorted, UpTo, Times, InWindow, Wait, RetryAfter, Covered;
    RetryAtLeastOne(InWindow(Times(log, call.key), call.time, window)[0], call.time, window);
    RetryOutcome(Times(log, call.key), call.time, limit, window);
  }

  lemma RetryAtLeastOne(oldest: real, now: real, window: int)
    ensures RetryAfter(oldest, now, window) >= 1
  {
  }

  lemma AcceptedByNow(calls: seq<Call>, call: Call, limit: int, window: int)
    requires InOrder(calls + [call])
    ensures var times := Times(Accepted(calls, limit, window), call.key); Sorted(times) && UpTo(times, call.time)
  {
    InOrderFront(calls, call);
    AcceptedTimes(calls, call.key, limit, window);
    var times := Times(Accepted(calls, limit, window), call.key);
    if calls != [] {
      Later(times, calls[|calls| - 1].time, call.time);
    }
  }

  lemma RetryOutcome(times: seq<real>, now: real, limit: nat, window: int)
    requires Sorted(times) && UpTo(times, now)
    requires var counted := InWindow(times, now, window);
             |counted| == limit >= 1 && Wait(counted[0], now, window) > 0.0 && RetryAfter(counted[0], now, window) >= 1
    ensures var counted := InWindow(times, now, window);
            var wait := Wait(counted[0], now, window);
            var later := now + RetryAfter(counted[0], now, window) as real;
            |InWindow(times, later, window)| < limit <==> Covered(wait)
  {
    hide InWindow, After, Sorted, UpTo, RetryAfter, Covered;
    var counted := InWindow(times, now, window);
    var later := now + RetryAfter(counted[0], now, window) as real;
    Later(times, now, later);
    AfterIsInWindow(times, now, window);
    AfterIsInWindow(times, later, window);
    AfterAfter(times, now - window as real, later - window as real);
    AfterShorter(counted, later - window as real);
    RetryAfterCovers(counted[0], now, window);
  }

  lemma AfterShorter(times: seq<real>, cutoff: real)
    requires times != []
    ensures |After(times, cutoff)| < |times| <==> times[0] <= cutoff
  {
  }

  lemma RetryAfterCovers(oldest: real, now: real, window: int)
    requires Wait(oldest, now, window) > 0.0
    ensures var wait := Wait(oldest, now, window);
            RetryAfter(oldest, now, window) as real >= wait <==> Covered(wait)
  {
  }

  /** One call a window of ten seconds: refused after half a second, told nine, and refused again. */
  lemma RetryAfterMayNotSuffice()
    ensures Decisions([Call("k", 0.0), Call("k", 0.5), Call("k", 9.5)], 1, 10) == [Allowed, Refused(9), Refused(1)]
  {
    var a, b, c := Call("k", 0.0), Call("k", 0.5), Call("k", 9.5);
    assert Decide([], a, 1, 10) == Allowed;
    OneAccepted(b);
    OneAccepted(c);
    hide Decide, Accepted, Decisions;
    NothingCalled(1, 10);
    RunSnoc([], a, 1, 10);
    RunSnoc([a], b, 1, 10);
    RunSnoc([a] + [b], c, 1, 10);
    assert [] + [a] == [a];
    assert [a] + [b] + [c] == [a, b, c];
  }

  lemma OneAccepted(call: Call)
    requires call.key == "k" && 0.0 < call.time < 10.0
    ensures Decide([Call("k", 0.0)], call, 1, 10) == Refused(if call.time > 9.0 then 1 else (10.0 - call.time).Floor)
  {
    TimesSnoc([], Call("k", 0.0), "k");
    assert [] + [Call("k", 0.0)] == [Call("k", 0.0)] && [] + [0.0] == [0.0];
    assert [0.0][..0] == [];
    assert InWindow([0.0], call.time, 10) == [0.0];
    assert Times([Call("k", 0.0)], "k") == [0.0];
  }

  lemma NothingCalled(limit: int, window: int)
    ensures Accepted([], limit, window) == [] && Decisions([], limit, window) == []
  {
  }
}
