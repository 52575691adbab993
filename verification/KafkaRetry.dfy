/** The retry budget of runStreamer (kafka-streamer/main.go): a topic restarts after an error unless its
    retries are used up, and the retries come back once the reset time has passed. */
module KafkaRetry {

  const MAX_RETRIES: nat := 10

  datatype Budget = Budget(remaining: nat, resetAt: int)

  datatype Verdict = Restart | Panic

  function Start(now: int, interval: int): Budget {
    Budget(MAX_RETRIES, now + interval)
  }

  /** One error at time `now`. */
  function OnError(b: Budget, now: int, interval: int): (Budget, Verdict) {
    var c := if now > b.resetAt then Start(now, interval) else b;
    if c.remaining == 0 then (c, Panic) else (c.(remaining := c.remaining - 1), Restart)
  }

  predicate Ascending(times: seq<int>) {
    forall i, j :: 0 <= i < j < |times| ==> times[i] <= times[j]
  }

  /** The budget after the errors at `times`, if none of them was the last straw. */
  function After(start: int, interval: int, times: seq<int>): Budget {
    if times == [] then Start(start, interval)
    else OnError(After(start, interval, times[..|times| - 1]), times[|times| - 1], interval).0
  }

  predicate Panics(start: int, interval: int, times: seq<int>, i: nat)
    requires i < |times|
  {
    OnError(After(start, interval, times[..i]), times[i], interval).1 == Panic
  }

  /** The loop itself: errors at `times`, until one of them panics. */
  method RunStreamer(start: int, interval: int, times: seq<int>) returns (tolerated: nat)
    ensures tolerated <= |times|
    ensures forall i :: 0 <= i < tolerated ==> !Panics(start, interval, times, i)
    ensures tolerated < |times| ==> Panics(start, interval, times, tolerated)
  {
    var retriesRemaining, retriesResetAt := MAX_RETRIES, start + interval;
    tolerated := 0;
    while tolerated < |times|
      invariant tolerated <= |times|
      invariant Budget(retriesRemaining, retriesResetAt) == After(start, interval, times[..tolerated])
      invariant forall i :: 0 <= i < tolerated ==> !Panics(start, interval, times, i)
    {
      var now := times[tolerated];
      if now > retriesResetAt {
        retriesRemaining, retriesResetAt := MAX_RETRIES, now + interval;
      }
      if retriesRemaining == 0 {
        return;
      }
      retriesRemaining := retriesRemaining - 1;
      assert times[..tolerated + 1][..tolerated] == times[..tolerated];
      tolerated := tolerated + 1;
    }
  }

  // ----- Windows

  predicate Tolerated(start: int, interval: int, times: seq<int>) {
    forall i :: 0 <= i < |times| ==> !Panics(start, interval, times, i)
  }

  /** The errors from index `w` on are the ones counted against the budget `b`. */
  ghost predicate CountedFrom(start: int, interval: int, times: seq<int>, w: nat, b: Budget) {
    && w <= |times|
    && b.remaining + (|times| - w) == MAX_RETRIES
    && (forall i :: w <= i < |times| ==> b.resetAt - interval <= times[i] <= b.resetAt)
    && ((w == 0 && b.resetAt == start + interval) || (w < |times| && b.resetAt == times[w] + interval))
  }

  lemma CountOne(start: int, interval: int, front: seq<int>, w: nat, b: Budget, now: int) returns (w': nat)
    requires interval >= 0 && CountedFrom(start, interval, front, w, b)
    requires start <= now && forall i :: 0 <= i < |front| ==> front[i] <= now
    requires OnError(b, now, interval).1 != Panic
    ensures CountedFrom(start, interval, front + [now], w', OnError(b, now, interval).0)
    ensures if now > b.resetAt then w' == |front| else w' == w
  {
    w' := if now > b.resetAt then |front| else w;
    var times := front + [now];
    assert forall i :: 0 <= i < |front| ==> times[i] == front[i];
    assert times[|front|] == now;
  }

  lemma WindowBegin(start: int, interval: int, front: seq<int>, now: int, v: nat, w: nat)
    requires v == 0 || v < |front|
    requires v > 0 ==> front[v] > After(start, interval, front[..v]).resetAt
    requires w == if now > After(start, interval, front).resetAt then |front| else v
    ensures w > 0 ==> (front + [now])[w] > After(start, interval, (front + [now])[..w]).resetAt
  {
    if w == |front| {
      assert (front + [now])[..w] == front;
    } else {
      assert (front + [now])[..w] == front[..w];
    }
  }

  /** Where the current window's errors begin: a window other than the first begins at an error later than
      the reset time it found. */
  lemma {:induction false} Windows(start: int, interval: int, times: seq<int>) returns (w: nat)
    requires interval >= 0 && Ascending(times) && (times != [] ==> start <= times[0])
    requires Tolerated(start, interval, times)
    ensures CountedFrom(start, interval, times, w, After(start, interval, times))
    ensures w > 0 ==> times[w] > After(start, interval, times[..w]).resetAt
  {
    w := 0;
    if times != [] {
      var n := |times|;
      var front, now := times[..n - 1], times[n - 1];
      TolerateTake(start, interval, times, n - 1);
      var v := Windows(start, interval, front);
      assert !Panics(start, interval, times, n - 1);
      assert forall i :: 0 <= i < |front| ==> front[i] <= now;
      w := CountOne(start, interval, front, v, After(start, interval, front), now);
      assert front + [now] == times;
      WindowBegin(start, interval, front, now, v, w);
    }
  }

  /** A panic means eleven errors within one interval: the one that panics and the ten before it. */
  lemma PanicMeansElevenErrors(start: int, interval: int, times: seq<int>)
    requires interval >= 0 && Ascending(times) && times != [] && start <= times[0]
    requires Tolerated(start, interval, times[..|times| - 1]) && Panics(start, interval, times, |times| - 1)
    ensures |times| >= 11 && times[|times| - 1] - times[|times| - 11] <= interval
  {
    var front := times[..|times| - 1];
    var w := Windows(start, interval, front);
    assert |front| - w == MAX_RETRIES;
    assert times[|front|] <= After(start, interval, front).resetAt;
    assert front[w] == times[|times| - 1 - MAX_RETRIES];
  }

  /** Any stretch of twenty-one tolerated errors takes longer than the interval: a closed interval of that
      length holds at most two windows of ten. */
  lemma {:induction false} AtMostTwentyPerInterval(start: int, interval: int, times: seq<int>, i: nat)
    requires interval >= 0 && Ascending(times) && times != [] && start <= times[0]
    requires Tolerated(start, interval, times)
    requires i + 20 < |times|
    ensures times[i + 20] - times[i] > interval
  {
    var upTo := times[..i + 2 * MAX_RETRIES + 1];
    TolerateTake(start, interval, times, |upTo|);
    var w := Windows(start, interval, upTo);
    assert upTo[w] == times[w] && w > i + MAX_RETRIES;
    var before := times[..w];
    TolerateTake(start, interval, times, w);
    var v := Windows(start, interval, before);
    assert v > i;
    assert times[..w] == upTo[..w];
  }

  lemma TolerateTake(start: int, interval: int, times: seq<int>, n: nat)
    requires n <= |times| && Tolerated(start, interval, times)
    ensures Tolerated(start, interval, times[..n])
  {
    forall i | 0 <= i < n ensures !Panics(start, interval, times[..n], i) {
      assert times[..n][..i] == times[..i];
      assert !Panics(start, interval, times, i);
    }
  }

  /** Ten errors at the end of the first window and ten just after it. */
  predicate Twenty(interval: int, times: seq<int>) {
    && |times| == 2 * MAX_RETRIES
    && forall i :: 0 <= i < |times| ==> times[i] == if i < MAX_RETRIES then interval else interval + 1
  }

  /** The budget after the first `n` of them. */
  lemma {:induction false} TwentyErrorsBudget(interval: int, times: seq<int>, n: nat)
    requires interval >= 0 && Twenty(interval, times) && n <= |times|
    ensures After(0, interval, times[..n])
         == if n <= MAX_RETRIES then Budget(MAX_RETRIES - n, interval)
            else Budget(2 * MAX_RETRIES - n, 2 * interval + 1)
  {
    if n > 0 {
      TwentyErrorsBudget(interval, times, n - 1);
      assert times[..n][..n - 1] == times[..n - 1];
    }
  }

  lemma TwentyErrorsStep(interval: int, times: seq<int>)
    requires interval >= 0 && Twenty(interval, times)
    ensures Tolerated(0, interval, times)
  {
    forall i | 0 <= i < |times| ensures !Panics(0, interval, times, i) {
      TwentyErrorsBudget(interval, times, i);
    }
  }

  /** The bound of twenty is met: more than ten errors within an interval need not panic, because a reset
      falls between them. */
  lemma TwentyErrorsCanBeTolerated(interval: int)
    requires interval >= 1
    ensures exists times: seq<int> ::
              && |times| == 20 && Ascending(times) && times[0] >= 0
              && times[|times| - 1] - times[0] <= interval
              && Tolerated(0, interval, times)
  {
    var times := seq(2 * MAX_RETRIES, i => if i < MAX_RETRIES then interval else interval + 1);
    TwentyErrorsStep(interval, times);
  }

  // ----- Exactly when it panics

  /** The error at index `j` comes after the reset time it finds, so it starts a new window. */
  predicate Resets(start: int, interval: int, times: seq<int>, j: nat)
    requires j < |times|
  {
    times[j] > After(start, interval, times[..j]).resetAt
  }

  /** The last of the first `n` errors that started a window, or the first error. */
  lemma {:induction false} LastReset(start: int, interval: int, times: seq<int>, n: nat) returns (w: nat)
    requires 0 < n <= |times|
    ensures w < n && (w == 0 || Resets(start, interval, times, w))
    ensures forall j :: w < j < n ==> !Resets(start, interval, times, j)
  {
    w := n - 1;
    if w > 0 && !Resets(start, interval, times, w) {
      w := LastReset(start, interval, times, w);
    }
  }

  /** Each error since the window's first has cost one retry. */
  lemma {:induction false} Remaining(start: int, interval: int, times: seq<int>, w: nat, n: nat)
    requires w < n <= |times| && Tolerated(start, interval, times[..n])
    requires w == 0 || Resets(start, interval, times, w)
    requires forall j :: w < j < n ==> !Resets(start, interval, times, j)
    ensures After(start, interval, times[..n]).remaining == MAX_RETRIES - (n - w)
  {
    var upTo := times[..n];
    assert upTo[..n - 1] == times[..n - 1] && upTo[n - 1] == times[n - 1];
    assert !Panics(start, interval, upTo, n - 1);
    if w < n - 1 {
      assert !Resets(start, interval, times, n - 1);
      TolerateTake(start, interval, upTo, n - 1);
      Remaining(start, interval, times, w, n - 1);
    }
  }

  /** An error panics if and only if ten came before it and none of the ten after the first of these eleven came after
      the reset time: eleven errors in ten minutes panic unless a new window began among them. */
  lemma PanicIff(start: int, interval: int, times: seq<int>)
    requires times != [] && Tolerated(start, interval, times[..|times| - 1])
    ensures
      var n := |times| - 1;
      Panics(start, interval, times, n)
      <==> n >= 10 && forall j :: n - 10 < j <= n ==> !Resets(start, interval, times, j)
  {
    var n: nat := |times| - 1;
    assert Panics(start, interval, times, n)
      <==> !Resets(start, interval, times, n) && After(start, interval, times[..n]).remaining == 0;
    if n > 0 {
      var w := LastReset(start, interval, times, n);
      Remaining(start, interval, times, w, n);
      if n - w == MAX_RETRIES {
        assert forall j :: w < j < n ==> !Resets(start, interval, times, j);
      } else if n >= MAX_RETRIES {
        assert n - MAX_RETRIES < w <= n && Resets(start, interval, times, w);
      }
    }
  }

  /** Within one interval of its beginning a window has one reset time and no reset.  The first window begins at the
      start (unless its first error begins another), every other one at the error that resets. */
  lemma {:induction false} OneWindow(start: int, interval: int, times: seq<int>, w: nat, n: nat)
    requires w < n <= |times| && Ascending(times) && interval >= 0 && (w == 0 || Resets(start, interval, times, w))
    requires times[n - 1] - WindowStart(start, interval, times, w) <= interval
    ensures After(start, interval, times[..n]).resetAt == WindowStart(start, interval, times, w) + interval
    ensures forall j :: w < j < n ==> !Resets(start, interval, times, j)
  {
    var upTo := times[..n];
    assert upTo[..n - 1] == times[..n - 1] && upTo[n - 1] == times[n - 1];
    if w < n - 1 {
      OneWindow(start, interval, times, w, n - 1);
    }
  }

  /** When the window that the error at `w` opens, or that was open from the start, began. */
  function WindowStart(start: int, interval: int, times: seq<int>, w: nat): int
    requires w < |times|
  {
    if Resets(start, interval, times, w) then times[w] else start
  }

  /** The documented rule holds of a window: if ten errors follow the first one in it within the interval after it
      began, the last of them panics. */
  lemma ElevenInAWindowPanic(start: int, interval: int, times: seq<int>)
    requires |times| >= 11 && Ascending(times) && interval >= 0
    requires Tolerated(start, interval, times[..|times| - 1])
    requires
      var w := |times| - 11;
      && (w == 0 || Resets(start, interval, times, w))
      && times[|times| - 1] - WindowStart(start, interval, times, w) <= interval
    ensures Panics(start, interval, times, |times| - 1)
  {
    OneWindow(start, interval, times, |times| - 11, |times|);
    PanicIff(start, interval, times);
  }
}
