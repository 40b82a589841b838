/**
 A rate limiter that keeps a queue of admission times and drops the old ones on every call. The reference is a
 limiter that keeps every admission time for ever and counts those inside the window.
 */
module SlidingWindow {
  import opened Prelude

  datatype Limits = Limits(window: int, max: int)

  // ----- the queue the code keeps -----

  /** Pop from the front everything older than the cutoff. */
  function Prune(queue: seq<int>, cutoff: int): seq<int> {
    if queue != [] && queue[0] < cutoff then Prune(queue[1..], cutoff) else queue
  }

  lemma {:induction false} PruneShrinks(queue: seq<int>, cutoff: int)
    ensures |Prune(queue, cutoff)| <= |queue|
  {
    if queue == [] {
    } else {
      PruneShrinks(queue[1..], cutoff);
    }
  }

  // ----- the reference -----

  /** How many of the recorded times are not older than the cutoff. */
  ghost function CountSince(times: seq<int>, cutoff: int): nat {
    if times == [] then 0
    else CountSince(times[..|times| - 1], cutoff) + if times[|times| - 1] >= cutoff then 1 else 0
  }

  /** A request at time now is refused when max admissions lie in [now - window, now]. */
  ghost predicate Refuses(limits: Limits, admitted: seq<int>, now: int) {
    CountSince(admitted, now - limits.window) >= limits.max
  }

  /** An admission and the one max places later are more than a window apart. */
  ghost predicate Spaced(limits: Limits, admitted: seq<int>) {
    forall i, j | 0 <= i < j < |admitted| && j - i >= limits.max :: admitted[j] - admitted[i] > limits.window
  }

  // ----- the queue represents the history -----

  ghost predicate IsSuffix(suffix: seq<int>, whole: seq<int>) {
    |suffix| <= |whole| && forall i | 0 <= i < |suffix| :: suffix[i] == whole[|whole| - |suffix| + i]
  }

  /** The queue is the history without some entries that had left the window by time clock. */
  ghost predicate Represents(limits: Limits, admitted: seq<int>, queue: seq<int>, clock: int) {
    && Ordered(admitted)
    && (forall t | t in admitted :: t <= clock)
    && IsSuffix(queue, admitted)
    && forall i | 0 <= i < |admitted| - |queue| :: admitted[i] < clock - limits.window
  }

  lemma {:induction false} PruneSuffix(queue: seq<int>, cutoff: int)
    requires Ordered(queue)
    ensures var p := Prune(queue, cutoff);
            && IsSuffix(p, queue)
            && (forall i | 0 <= i < |queue| - |p| :: queue[i] < cutoff)
            && (forall i | 0 <= i < |p| :: p[i] >= cutoff)
  {
    if queue == [] || queue[0] >= cutoff {
    } else {
      PruneSuffix(queue[1..], cutoff);
    }
  }

  lemma {:induction false} CountSuffix(times: seq<int>, cutoff: int, n: nat)
    requires n <= |times|
    requires forall i | 0 <= i < n :: times[i] < cutoff
    requires forall i | n <= i < |times| :: times[i] >= cutoff
    ensures CountSince(times, cutoff) == |times| - n
  {
    if times == [] {
    } else {
      var front := times[..|times| - 1];
      CountSuffix(front, cutoff, if n == |times| then n - 1 else n);
    }
  }

  /** After pruning, the queue still represents the history and its length is the reference count. */
  lemma PruneRepresents(limits: Limits, admitted: seq<int>, queue: seq<int>, clock: int, now: int)
    requires Represents(limits, admitted, queue, clock) && clock <= now
    ensures var p := Prune(queue, now - limits.window);
            && Represents(limits, admitted, p, now)
            && |p| == CountSince(admitted, now - limits.window)
  {
    var cutoff := now - limits.window;
    var p := Prune(queue, cutoff);
    PruneSuffix(queue, cutoff);
    var n := |admitted| - |p|;
    var m := |admitted| - |queue|;
    forall i | 0 <= i < |admitted| ensures admitted[i] < cutoff <==> i < n {
      if i >= n {
        assert admitted[i] == queue[i - m] == p[i - n];
      } else if i >= m {
        assert admitted[i] == queue[i - m];
      }
    }
    CountSuffix(admitted, cutoff, n);
  }

  lemma RepresentsLater(limits: Limits, admitted: seq<int>, queue: seq<int>, clock: int, now: int)
    requires Represents(limits, admitted, queue, clock) && clock <= now
    ensures Represents(limits, admitted, queue, now)
  {
  }

  /** Recording an admission at or after the clock keeps the representation. */
  lemma AdmitRepresents(limits: Limits, admitted: seq<int>, queue: seq<int>, clock: int, at: int)
    requires Represents(limits, admitted, queue, clock) && clock <= at
    ensures Represents(limits, admitted + [at], queue + [at], at)
  {
    assert forall i | 0 <= i < |admitted| :: admitted[i] in admitted;
  }

  /** Admitting a request that the reference does not refuse keeps the admissions spaced. */
  lemma AdmitSpaced(limits: Limits, admitted: seq<int>, now: int, at: int)
    requires Ordered(admitted) && Spaced(limits, admitted)
    requires now <= at && !Refuses(limits, admitted, now)
    ensures Spaced(limits, admitted + [at])
  {
    forall i | 0 <= i < |admitted| && |admitted| - i >= limits.max
      ensures at - admitted[i] > limits.window
    {
      if admitted[i] >= now - limits.window {
        TailCounts(admitted, now - limits.window, i);
      }
    }
  }

  lemma {:induction false} TailCounts(times: seq<int>, cutoff: int, i: nat)
    requires Ordered(times) && i < |times| && times[i] >= cutoff
    ensures CountSince(times, cutoff) >= |times| - i
  {
    if i == |times| - 1 {
    } else {
      TailCounts(times[..|times| - 1], cutoff, i);
    }
  }
}
