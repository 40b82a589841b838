/** A rate limiter on a stored counter: every call increments it and renews its expiry. */
module RedisLimiter {
  import opened Prelude

  type Identifier = string

  datatype Cell = Cell(count: nat, deadline: int)

  type Store = map<Identifier, Cell>

  datatype Call = Call(identifier: Identifier, now: int)

  // ----- the pipeline: INCR then EXPIRE -----

  /** A key whose deadline has been reached no longer exists. */
  function Live(store: Store, id: Identifier, now: int): nat {
    if id in store && now < store[id].deadline then store[id].count else 0
  }

  function AfterCall(store: Store, id: Identifier, window: int, now: int): Store {
    store[id := Cell(Live(store, id, now) + 1, now + window)]
  }

  function Run(window: int, calls: seq<Call>): Store {
    if calls == [] then map[]
    else
      var last := calls[|calls| - 1];
      AfterCall(Run(window, calls[..|calls| - 1]), last.identifier, window, last.now)
  }

  /** The counter value that call i reads back. */
  function Reading(window: int, calls: seq<Call>, i: nat): nat
    requires i < |calls|
  {
    Live(Run(window, calls[..i]), calls[i].identifier, calls[i].now) + 1
  }

  function Allowed(limit: int, window: int, calls: seq<Call>, i: nat): bool
    requires i < |calls|
  {
    Reading(window, calls, i) <= limit
  }

  // ----- the reference: calls since the last idle gap -----

  /** The times of the calls of one identifier. */
  ghost function TimesOf(calls: seq<Call>, id: Identifier): seq<int> {
    if calls == [] then []
    else
      var front, last := TimesOf(calls[..|calls| - 1], id), calls[|calls| - 1];
      if last.identifier == id then front + [last.now] else front
  }

  /** The length of the longest suffix in which consecutive times are less than a window apart. */
  ghost function Streak(window: int, times: seq<int>): nat {
    if times == [] then 0
    else
      var front, last := times[..|times| - 1], times[|times| - 1];
      if front != [] && last < front[|front| - 1] + window then Streak(window, front) + 1 else 1
  }

  ghost predicate Stored(window: int, store: Store, id: Identifier, times: seq<int>) {
    if times == [] then id !in store
    else id in store && store[id] == Cell(Streak(window, times), times[|times| - 1] + window)
  }

  lemma {:induction false} RunStored(window: int, calls: seq<Call>, id: Identifier)
    ensures Stored(window, Run(window, calls), id, TimesOf(calls, id))
  {
    if calls == [] {
    } else {
      var front := calls[..|calls| - 1];
      RunStored(window, front, id);
      var before := TimesOf(front, id);
      assert (before + [calls[|calls| - 1].now])[..|before|] == before;
    }
  }

  /** Each call reads the number of its identifier's calls, itself included, since the last idle gap of a window. */
  lemma ReadingIsStreak(window: int, calls: seq<Call>, i: nat)
    requires i < |calls|
    ensures Reading(window, calls, i) == Streak(window, TimesOf(calls[..i + 1], calls[i].identifier))
  {
    var id := calls[i].identifier;
    RunStored(window, calls[..i], id);
    assert calls[..i + 1][..i] == calls[..i];
    assert TimesOf(calls[..i + 1], id)[..|TimesOf(calls[..i], id)|] == TimesOf(calls[..i], id);
  }

  // ----- what that allows -----

  /** Over the times of one identifier: how many calls in positions from up to to are allowed. */
  ghost function AllowedCount(limit: int, window: int, times: seq<int>, from: nat, to: nat): nat
    requires from <= to <= |times|
  {
    if from == to then 0
    else AllowedCount(limit, window, times, from, to - 1) + if Streak(window, times[..to]) <= limit then 1 else 0
  }

  /** Without an idle gap the streak grows by one with every call. */
  lemma {:induction false} StreakGrows(window: int, times: seq<int>, from: nat, to: nat)
    requires from < to <= |times|
    requires forall i | from < i < to :: times[i] < times[i - 1] + window
    ensures Streak(window, times[..to]) == Streak(window, times[..from + 1]) + (to - from - 1)
  {
    if to == from + 1 {
    } else {
      StreakGrows(window, times, from, to - 1);
      assert times[..to][..to - 1] == times[..to - 1];
    }
  }

  function Clip(n: int, low: int, high: int): int {
    if n < low then low else if n > high then high else n
  }

  /**
   Calls that follow each other without an idle gap: exactly the first ones up to the limit are allowed, counting
   those of the same streak that came before. All later ones are refused, however long this goes on.
   */
  lemma {:induction false} StreakAllows(limit: int, window: int, times: seq<int>, from: nat, to: nat)
    requires from < to <= |times|
    requires forall i | from < i < to :: times[i] < times[i - 1] + window
    ensures AllowedCount(limit, window, times, from, to) ==
            Clip(limit + 1 - Streak(window, times[..from + 1]), 0, to - from)
  {
    StreakGrows(window, times, from, to);
    if to == from + 1 {
      assert AllowedCount(limit, window, times, from, from) == 0;
    } else {
      StreakAllows(limit, window, times, from, to - 1);
    }
  }

  /** Hence any stretch of time shorter than the window sees at most limit allowed calls. */
  lemma WindowAllowsAtMost(limit: int, window: int, times: seq<int>, from: nat, to: nat)
    requires from < to <= |times| && Ordered(times)
    requires times[to - 1] - times[from] < window
    ensures AllowedCount(limit, window, times, from, to) <= Clip(limit, 0, limit)
  {
    StreakAllows(limit, window, times, from, to);
    assert Streak(window, times[..from + 1]) >= 1;
  }

  /** From the first call of an identifier on, a caller that never pauses for a window gets limit calls in all. */
  lemma NeverPausingGetsLimit(limit: int, window: int, times: seq<int>)
    requires times != []
    requires forall i | 0 < i < |times| :: times[i] < times[i - 1] + window
    ensures AllowedCount(limit, window, times, 0, |times|) == Clip(limit, 0, |times|)
  {
    StreakAllows(limit, window, times, 0, |times|);
    assert times[..1][..0] == [];
  }

  // ----- the same for the calls themselves -----

  /** How many calls of the identifier with indices from a up to b the code allows. */
  ghost function AllowedCalls(limit: int, window: int, calls: seq<Call>, id: Identifier, a: nat, b: nat): nat
    requires a <= b <= |calls|
  {
    if a == b then 0
    else
      AllowedCalls(limit, window, calls, id, a, b - 1) +
      if calls[b - 1].identifier == id && Allowed(limit, window, calls, b - 1) then 1 else 0
  }

  lemma {:induction false} TimesPrefix(calls: seq<Call>, id: Identifier, a: nat, b: nat)
    requires a <= b <= |calls|
    ensures TimesOf(calls[..a], id) <= TimesOf(calls[..b], id)
  {
    if a == b {
    } else {
      TimesPrefix(calls, id, a, b - 1);
      assert calls[..b][..b - 1] == calls[..b - 1];
    }
  }

  lemma {:induction false} AllowedCallsCounted(
    limit: int, window: int, calls: seq<Call>, id: Identifier, a: nat, b: nat)
    requires a <= b <= |calls|
    ensures var x, y := TimesOf(calls[..a], id), TimesOf(calls[..b], id);
            x <= y && AllowedCalls(limit, window, calls, id, a, b) == AllowedCount(limit, window, y, |x|, |y|)
  {
    TimesPrefix(calls, id, a, b);
    if a == b {
    } else {
      TimesPrefix(calls, id, a, b - 1);
      AllowedCallsCounted(limit, window, calls, id, a, b - 1);
      LastCallCounted(limit, window, calls, id, |TimesOf(calls[..a], id)|, b);
    }
  }

  lemma LastCallCounted(limit: int, window: int, calls: seq<Call>, id: Identifier, from: nat, b: nat)
    requires 0 < b <= |calls| && from <= |TimesOf(calls[..b - 1], id)|
    ensures var z, y := TimesOf(calls[..b - 1], id), TimesOf(calls[..b], id);
            from <= |y| && AllowedCount(limit, window, y, from, |y|) ==
            AllowedCount(limit, window, z, from, |z|) +
            if calls[b - 1].identifier == id && Allowed(limit, window, calls, b - 1) then 1 else 0
  {
    var z := TimesOf(calls[..b - 1], id);
    var y := TimesOf(calls[..b], id);
    assert calls[..b][..b - 1] == calls[..b - 1];
    if calls[b - 1].identifier == id {
      assert y == z + [calls[b - 1].now];
      assert y[..|y|] == y;
      ReadingIsStreak(window, calls, b - 1);
      CountPrefix(limit, window, z, y, from, |z|);
    }
  }

  lemma {:induction false} CountPrefix(limit: int, window: int, z: seq<int>, y: seq<int>, from: nat, to: nat)
    requires from <= to <= |z| && z <= y
    ensures AllowedCount(limit, window, z, from, to) == AllowedCount(limit, window, y, from, to)
  {
    if from == to {
    } else {
      CountPrefix(limit, window, z, y, from, to - 1);
      assert z[..to] == y[..to];
    }
  }

  ghost predicate ClockOrdered(calls: seq<Call>) {
    forall i, j | 0 <= i < j < |calls| :: calls[i].now <= calls[j].now
  }

  lemma {:induction false} TimesWithin(calls: seq<Call>, id: Identifier, t: int)
    requires ClockOrdered(calls) && (calls != [] ==> calls[|calls| - 1].now <= t)
    ensures Ordered(TimesOf(calls, id))
    ensures forall x | x in TimesOf(calls, id) :: x <= t
  {
    if calls == [] {
    } else {
      var front := calls[..|calls| - 1];
      TimesWithin(front, id, calls[|calls| - 1].now);
      assert forall i | 0 <= i < |TimesOf(front, id)| :: TimesOf(front, id)[i] in TimesOf(front, id);
    }
  }

  lemma {:induction false} TimesSince(calls: seq<Call>, id: Identifier, a: nat, b: nat, k: nat)
    requires a <= b <= |calls| && ClockOrdered(calls) && a < |calls|
    requires |TimesOf(calls[..a], id)| <= k < |TimesOf(calls[..b], id)|
    ensures TimesOf(calls[..b], id)[k] >= calls[a].now
  {
    if a == b {
    } else {
      assert calls[..b][..b - 1] == calls[..b - 1];
      if k < |TimesOf(calls[..b - 1], id)| {
        TimesSince(calls, id, a, b - 1, k);
      }
    }
  }

  /** The guarantee: calls less than a window apart, first to last, include at most limit allowed ones of one caller. */
  lemma AtMostLimitPerWindow(limit: int, window: int, calls: seq<Call>, id: Identifier, a: nat, b: nat)
    requires a < b <= |calls| && ClockOrdered(calls)
    requires calls[b - 1].now - calls[a].now < window
    ensures AllowedCalls(limit, window, calls, id, a, b) <= Clip(limit, 0, limit)
  {
    var x, y := TimesOf(calls[..a], id), TimesOf(calls[..b], id);
    AllowedCallsCounted(limit, window, calls, id, a, b);
    TimesWithin(calls[..b], id, calls[b - 1].now);
    if |x| < |y| {
      TimesSince(calls, id, a, b, |x|);
      assert y[|y| - 1] in y;
      WindowAllowsAtMost(limit, window, y, |x|, |y|);
    }
  }

  // ----- the client object -----

  class Client {
    var store: Store

    constructor ()
      ensures store == map[]
    {
      store := map[];
    }

    method Increment(id: Identifier, now: int) returns (count: nat)
      modifies this
      ensures count == Live(old(store), id, now) + 1
      ensures id in store && store[id].count == count
      ensures store == old(store)[id := store[id]]
    {
      if id in store && store[id].deadline <= now {
        store := store - {id};
      }
      count := (if id in store then store[id].count else 0) + 1;
      store := store[id := Cell(count, if id in store then store[id].deadline else now)];
    }

    method Expire(id: Identifier, window: int, now: int)
      requires id in store
      modifies this
      ensures store == old(store)[id := Cell(old(store)[id].count, now + window)]
    {
      store := store[id := Cell(store[id].count, now + window)];
    }

    method RateLimit(id: Identifier, limit: int, window: int, now: int) returns (allowed: bool)
      modifies this
      ensures allowed <==> Live(old(store), id, now) + 1 <= limit
      ensures store == AfterCall(old(store), id, window, now)
    {
      var current := Increment(id, now);
      Expire(id, window, now);
      allowed := current <= limit;
    }
  }
}
