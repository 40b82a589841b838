/** Trying providers in order: the default one, then the fallbacks. */
module Fallback {
  import opened Prelude
  import opened SlidingWindow
  import opened Provider

  type Name = nat
  type Response = string

  /** How a provider call ends; a client may also disable its provider before raising. */
  datatype Reply = Answer(response: Response) | Raise(disables: bool)

  /** When the breaker and the limiter are consulted, and when the request is tracked. */
  datatype Times = Times(breaker: int, limiter: int, track: int)

  /** What happens at one position of the order: the checks, then the reply if the call is made. */
  datatype Attempt = Attempt(times: Times, reply: Reply, elapsed: real, done: int)

  predicate Eligible(p: State, t: Times) {
    p.health.status != Unhealthy && !BreakerOpenAt(p, t.breaker) && !LimitedAt(p, t.limiter)
  }

  /** The state in which the call is made: both checks have tidied up and the request is tracked. */
  function Admitted(p: State, t: Times): State {
    Track(AfterLimiterCheck(AfterBreakerCheck(p, t.breaker), t.limiter), t.track)
  }

  function Skipped(p: State, t: Times): State {
    if p.health.status == Unhealthy then p
    else if BreakerOpenAt(p, t.breaker) then p
    else AfterLimiterCheck(AfterBreakerCheck(p, t.breaker), t.limiter)
  }

  /** What the end of a call does. */
  function Ended(p: State, reply: Reply, elapsed: real, done: int): State {
    match reply
    case Answer(_) => Record(p, true, elapsed, done)
    case Raise(disables) => Record(p.(enabled := p.enabled && !disables), false, elapsed, done)
  }

  function Visit(p: State, a: Attempt): State {
    if Eligible(p, a.times) then Ended(Admitted(p, a.times), a.reply, a.elapsed, a.done) else Skipped(p, a.times)
  }

  predicate Answers(p: State, a: Attempt) {
    Eligible(p, a.times) && a.reply.Answer?
  }

  type Providers = map<Name, State>

  datatype Outcome = Outcome(providers: Providers, response: Option<Response>)

  /** One position of the order of providers to try, with what happens there. */
  datatype Leg = Leg(name: Name, attempt: Attempt)

  function VisitAt(ps: Providers, leg: Leg): Providers {
    if leg.name in ps then ps[leg.name := Visit(ps[leg.name], leg.attempt)] else ps
  }

  predicate AnswersAt(ps: Providers, leg: Leg) {
    leg.name in ps && Answers(ps[leg.name], leg.attempt)
  }

  /** The loop with early return. */
  function Try(ps: Providers, legs: seq<Leg>): Outcome {
    if legs == [] then Outcome(ps, None)
    else if AnswersAt(ps, legs[0]) then Outcome(VisitAt(ps, legs[0]), Some(legs[0].attempt.reply.response))
    else Try(VisitAt(ps, legs[0]), legs[1..])
  }

  // ----- the first success, each provider judged when it is reached -----

  /** The providers after the first i positions have been visited, answer or not. */
  ghost function Reached(ps: Providers, legs: seq<Leg>, i: nat): Providers
    requires i <= |legs|
    decreases i
  {
    if i == 0 then ps else Reached(VisitAt(ps, legs[0]), legs[1..], i - 1)
  }

  /** The first position that answers when it is reached, or the number of positions. */
  ghost function First(ps: Providers, legs: seq<Leg>): (n: nat)
    ensures n <= |legs|
    ensures n < |legs| ==> legs[n].attempt.reply.Answer?
    decreases |legs|
  {
    if legs == [] || AnswersAt(ps, legs[0]) then 0 else 1 + First(VisitAt(ps, legs[0]), legs[1..])
  }

  lemma {:induction false} FirstIsFirst(ps: Providers, legs: seq<Leg>, i: nat)
    requires i <= First(ps, legs) && i < |legs|
    ensures AnswersAt(Reached(ps, legs, i), legs[i]) <==> i == First(ps, legs)
    decreases |legs|
  {
    if i == 0 {
    } else {
      FirstIsFirst(VisitAt(ps, legs[0]), legs[1..], i - 1);
    }
  }

  /** The response is that of the first provider able to answer when its turn comes; none after it is touched. */
  lemma {:induction false} FirstSuccess(ps: Providers, legs: seq<Leg>)
    ensures var n := First(ps, legs);
            Try(ps, legs) == if n < |legs|
                             then Outcome(Reached(ps, legs, n + 1), Some(legs[n].attempt.reply.response))
                             else Outcome(Reached(ps, legs, n), None)
    decreases |legs|
  {
    if legs == [] || AnswersAt(ps, legs[0]) {
    } else {
      FirstSuccess(VisitAt(ps, legs[0]), legs[1..]);
    }
  }

  // ----- with distinct names, judged before the call -----

  ghost predicate DistinctNames(legs: seq<Leg>) {
    forall i, j | 0 <= i < j < |legs| :: legs[i].name != legs[j].name
  }

  lemma {:induction false} ReachedUntouched(ps: Providers, legs: seq<Leg>, i: nat, n: Name)
    requires i <= |legs| && forall j | 0 <= j < i :: legs[j].name != n
    ensures n in Reached(ps, legs, i) <==> n in ps
    ensures n in ps ==> Reached(ps, legs, i)[n] == ps[n]
    decreases i
  {
    if i == 0 {
    } else {
      assert legs[0].name != n;
      ReachedUntouched(VisitAt(ps, legs[0]), legs[1..], i - 1, n);
    }
  }

  lemma {:induction false} ReachedVisited(ps: Providers, legs: seq<Leg>, m: nat, i: nat)
    requires DistinctNames(legs) && i < m <= |legs| && legs[i].name in ps
    ensures legs[i].name in Reached(ps, legs, m)
    ensures Reached(ps, legs, m)[legs[i].name] == Visit(ps[legs[i].name], legs[i].attempt)
    decreases m
  {
    if i == 0 {
      ReachedUntouched(VisitAt(ps, legs[0]), legs[1..], m - 1, legs[0].name);
    } else {
      assert legs[0].name != legs[i].name && legs[1..][i - 1] == legs[i];
      ReachedVisited(VisitAt(ps, legs[0]), legs[1..], m - 1, i - 1);
    }
  }

  /** With distinct names the response is that of the first provider able to answer, judged before the call. */
  lemma {:induction false} FirstSuccessAnswers(ps: Providers, legs: seq<Leg>)
    requires DistinctNames(legs)
    ensures var n := First(ps, legs);
            && (forall i | 0 <= i < n :: !AnswersAt(ps, legs[i]))
            && (n < |legs| ==> AnswersAt(ps, legs[n]))
            && Try(ps, legs).response == if n < |legs| then Some(legs[n].attempt.reply.response) else None
  {
    forall i: nat | i <= First(ps, legs) && i < |legs| ensures AnswersAt(ps, legs[i]) <==> i == First(ps, legs) {
      FirstIsFirst(ps, legs, i);
      ReachedUntouched(ps, legs, i, legs[i].name);
    }
    FirstSuccess(ps, legs);
  }

  /** Providers up to and including that one are visited once; every later one is untouched. */
  lemma FirstSuccessVisits(ps: Providers, legs: seq<Leg>, i: nat)
    requires DistinctNames(legs) && i < |legs| && legs[i].name in ps
    ensures legs[i].name in Try(ps, legs).providers
    ensures Try(ps, legs).providers[legs[i].name] ==
            if i <= First(ps, legs) then Visit(ps[legs[i].name], legs[i].attempt) else ps[legs[i].name]
  {
    FirstSuccess(ps, legs);
    var visited := if First(ps, legs) < |legs| then First(ps, legs) + 1 else |legs|;
    if i < visited {
      ReachedVisited(ps, legs, visited, i);
    } else {
      ReachedUntouched(ps, legs, visited, legs[i].name);
    }
  }

  /** A visit records exactly one failure, one success, or nothing at all. */
  lemma VisitRecords(p: State, a: Attempt)
    ensures var h, g := p.health, Visit(p, a).health;
            if !Eligible(p, a.times)
            then g.totalRequests == h.totalRequests && g.failedRequests == h.failedRequests &&
                 g.successfulRequests == h.successfulRequests && g.status == h.status
            else g.totalRequests == h.totalRequests + 1 &&
                 g.failedRequests == h.failedRequests + (if a.reply.Raise? then 1 else 0) &&
                 g.successfulRequests == h.successfulRequests + (if a.reply.Answer? then 1 else 0)
  {
  }

  // ----- sequential runs -----

  /** One complete analysis, a status query of one provider, or a health check that disables one. */
  datatype Action =
    | Analyze(legs: seq<Leg>)
    | Query(name: Name, breaker: int, limiter: int)
    | Disable(name: Name)

  function Step(ps: Providers, e: Action): Providers {
    match e
    case Analyze(legs) => Try(ps, legs).providers
    case Query(n, b, l) =>
      if n in ps then ps[n := AfterLimiterCheck(AfterBreakerCheck(ps[n], b), l)] else ps
    case Disable(n) => if n in ps then ps[n := ps[n].(enabled := false)] else ps
  }

  function Run(ps: Providers, es: seq<Action>): Providers
    decreases |es|
  {
    if es == [] then ps else Run(Step(ps, es[0]), es[1..])
  }

  /** The same provider as far as calls are concerned: its status and its counters. */
  ghost predicate SameRecord(p: State, q: State) {
    q.health == p.health.(consecutiveFailures := q.health.consecutiveFailures)
  }

  lemma {:induction false} TrySkipsUnhealthy(ps: Providers, legs: seq<Leg>, n: Name)
    requires n in ps && ps[n].health.status == Unhealthy
    ensures n in Try(ps, legs).providers && Try(ps, legs).providers[n] == ps[n]
    decreases |legs|
  {
    if legs == [] {
    } else {
      TrySkipsUnhealthy(VisitAt(ps, legs[0]), legs[1..], n);
    }
  }

  /** A provider once marked unhealthy is never called again, whatever happens later. */
  lemma {:induction false} UnhealthyForEver(ps: Providers, es: seq<Action>, n: Name)
    requires n in ps && ps[n].health.status == Unhealthy
    ensures n in Run(ps, es) && SameRecord(ps[n], Run(ps, es)[n]) && Run(ps, es)[n].tracked == ps[n].tracked
    decreases |es|
  {
    if es == [] {
    } else {
      if es[0].Analyze? {
        TrySkipsUnhealthy(ps, es[0].legs, n);
      }
      UnhealthyForEver(Step(ps, es[0]), es[1..], n);
    }
  }

  lemma FirstFailureCounts(p: State, a: Attempt)
    requires p.health == FRESH && Eligible(p, a.times)
    ensures var q := Admitted(p, a.times);
            q.enabled == p.enabled && q.health.totalRequests == 0 && q.health.failedRequests == 0
  {
  }

  lemma FailureCounts(p: State, elapsed: real, done: int)
    ensures var h := Record(p, false, elapsed, done).health;
            h.totalRequests == p.health.totalRequests + 1 && h.failedRequests == p.health.failedRequests + 1
  {
  }

  /** One failed first request is enough, whatever the breaker threshold. */
  lemma FirstFailureIsFinal(p: State, a: Attempt)
    requires p.health == FRESH && p.enabled && Eligible(p, a.times) && a.reply == Raise(false)
    ensures Visit(p, a).health.status == Unhealthy
  {
    var q := Admitted(p, a.times);
    FirstFailureCounts(p, a);
    FailureCounts(q, a.elapsed, a.done);
    StatusExact(q, false, a.elapsed, a.done);
    assert q.(enabled := q.enabled && !false) == q;
  }

  // ----- the breaker of an enabled provider -----

  /** While a provider is enabled, an open breaker shows in its status. */
  ghost predicate Guarded(p: State) {
    p.enabled && p.openTime.Some? ==> p.health.status == Unhealthy
  }

  // ----- when the recovery timeout matters -----

  ghost function WithTimeout(p: State, timeout: int): State {
    p.(settings := p.settings.(timeout := timeout))
  }

  /** For one provider the timeout decides exactly when a breaker opened earlier does not show in the status. */
  lemma TimeoutDecides(p: State, t: Times)
    ensures (exists x: nat, y: nat :: Eligible(WithTimeout(p, x), t) && !Eligible(WithTimeout(p, y), t)) <==>
            p.health.status != Unhealthy && !LimitedAt(p, t.limiter) &&
            p.openTime.Some? && p.openTime.value < t.breaker
  {
    if p.openTime.Some? && p.openTime.value < t.breaker {
      var age := t.breaker - p.openTime.value;
      if p.health.status != Unhealthy && !LimitedAt(p, t.limiter) {
        assert Eligible(WithTimeout(p, age - 1), t) && !Eligible(WithTimeout(p, age), t);
      }
    }
  }

  predicate NeverDisables(e: Action) {
    !e.Disable? && (e.Analyze? ==> forall leg | leg in e.legs :: leg.attempt.reply != Raise(true))
  }

  /** What the analyses of a run answer. */
  function Responses(ps: Providers, es: seq<Action>): seq<Option<Response>>
    decreases |es|
  {
    if es == [] then []
    else (if es[0].Analyze? then [Try(ps, es[0].legs).response] else []) + Responses(Step(ps, es[0]), es[1..])
  }

  /** Equal up to the timeout and up to what the timeout can have changed in a provider marked unhealthy. */
  ghost predicate Similar(p: State, q: State) {
    && q.settings == p.settings.(timeout := q.settings.timeout)
    && p.enabled && q.enabled
    && q.rateLimiter == p.rateLimiter && q.tracked == p.tracked
    && q.health == p.health.(consecutiveFailures := q.health.consecutiveFailures)
    && (p.health.status != Unhealthy ==> p.openTime == q.openTime == None && q.health == p.health)
  }

  ghost predicate AllSimilar(ps: Providers, qs: Providers) {
    ps.Keys == qs.Keys && forall n | n in ps :: Similar(ps[n], qs[n])
  }

  lemma EndedSimilar(p: State, q: State, reply: Reply, elapsed: real, done: int)
    requires Similar(p, q) && p.health.status != Unhealthy && reply != Raise(true)
    ensures Similar(Ended(p, reply, elapsed, done), Ended(q, reply, elapsed, done))
  {
  }

  lemma VisitSimilar(p: State, q: State, a: Attempt)
    requires Similar(p, q) && a.reply != Raise(true)
    ensures Similar(Visit(p, a), Visit(q, a)) && (Answers(p, a) <==> Answers(q, a))
  {
    if Eligible(p, a.times) {
      EndedSimilar(Admitted(p, a.times), Admitted(q, a.times), a.reply, a.elapsed, a.done);
    }
  }

  lemma {:induction false} TrySimilar(ps: Providers, qs: Providers, legs: seq<Leg>)
    requires AllSimilar(ps, qs) && forall leg | leg in legs :: leg.attempt.reply != Raise(true)
    ensures AllSimilar(Try(ps, legs).providers, Try(qs, legs).providers)
    ensures Try(ps, legs).response == Try(qs, legs).response
    decreases |legs|
  {
    if legs == [] {
    } else {
      var leg := legs[0];
      assert leg in legs;
      if leg.name in ps {
        VisitSimilar(ps[leg.name], qs[leg.name], leg.attempt);
      }
      TrySimilar(VisitAt(ps, leg), VisitAt(qs, leg), legs[1..]);
    }
  }

  lemma {:induction false} RunSimilar(ps: Providers, qs: Providers, es: seq<Action>)
    requires AllSimilar(ps, qs) && forall e | e in es :: NeverDisables(e)
    ensures Responses(ps, es) == Responses(qs, es) && AllSimilar(Run(ps, es), Run(qs, es))
    decreases |es|
  {
    if es == [] {
    } else {
      assert es[0] in es;
      if es[0].Analyze? {
        TrySimilar(ps, qs, es[0].legs);
      }
      RunSimilar(Step(ps, es[0]), Step(qs, es[0]), es[1..]);
    }
  }

  /**
   As long as no provider is disabled, the timeouts are without effect: two managers that differ in nothing else give
   the same responses and call the same providers at the same times, in every sequential run.
   */
  lemma {:induction false} TimeoutNeverMatters(ps: Providers, qs: Providers, es: seq<Action>)
    requires ps.Keys == qs.Keys
    requires forall n | n in ps :: qs[n] == WithTimeout(ps[n], qs[n].settings.timeout)
    requires forall n | n in ps :: ps[n].enabled && Guarded(ps[n])
    requires forall e | e in es :: NeverDisables(e)
    ensures Responses(ps, es) == Responses(qs, es)
    ensures Run(ps, es).Keys == Run(qs, es).Keys
    ensures forall n | n in Run(ps, es) :: Run(ps, es)[n].tracked == Run(qs, es)[n].tracked &&
                                           Run(ps, es)[n].health.status == Run(qs, es)[n].health.status
  {
    RunSimilar(ps, qs, es);
  }

  ghost function NewProvider(timeout: int): State {
    State(Settings(Limits(60, 60), 1, timeout), true, FRESH, [], None, [])
  }

  const FAILS := Attempt(Times(1, 1, 1), Raise(false), 1.0, 1)

  /** A disabled provider whose only call failed: its breaker is open, its status is not unhealthy. */
  ghost predicate FailedOffline(p: State, timeout: int) {
    && p.settings == Settings(Limits(60, 60), 1, timeout) && p.rateLimiter == [1]
    && p.health.status == Offline && p.openTime == Some(1)
  }

  lemma DisabledFails(timeout: int)
    ensures FailedOffline(Visit(NewProvider(timeout).(enabled := false), FAILS), timeout)
  {
  }

  lemma DisabledRetried(p: State, timeout: int, at: int)
    requires FailedOffline(p, timeout) && at >= 2
    ensures Eligible(p, Times(at, at, at)) <==> at > timeout + 1
    ensures !Eligible(p, Times(at, at, at)) ==> Skipped(p, Times(at, at, at)) == p
  {
    assert |Prune(p.rateLimiter, at - 60)| <= 1;
  }

  ghost function Pair(timeout: int): Providers {
    map[0 := NewProvider(timeout), 1 := NewProvider(timeout)]
  }

  ghost function Retry(at: int): Attempt {
    Attempt(Times(at, at, at), Answer("ok"), 1.0, at)
  }

  ghost function FailThenRetry(at: int): seq<Action> {
    [Disable(0), Analyze([Leg(0, FAILS)]), Analyze([Leg(0, Retry(at)), Leg(1, Retry(at))])]
  }

  lemma TryOne(ps: Providers, leg: Leg)
    ensures Try(ps, [leg]).providers == VisitAt(ps, leg)
  {
    assert [leg][1..] == [];
  }

  lemma RetryPair(ps: Providers, timeout: int, at: int)
    requires 0 in ps && FailedOffline(ps[0], timeout)
    requires 1 in ps && ps[1] == NewProvider(timeout) && at >= 2
    ensures var after := Try(ps, [Leg(0, Retry(at)), Leg(1, Retry(at))]).providers;
            1 in after && after[1].tracked == if at > timeout + 1 then [] else [at]
  {
    var legs := [Leg(0, Retry(at)), Leg(1, Retry(at))];
    DisabledRetried(ps[0], timeout, at);
    if at <= timeout + 1 {
      assert VisitAt(ps, legs[0]) == ps && legs[1..] == [legs[1]];
      TryOne(ps, legs[1]);
    }
  }

  lemma RetryDecides(timeout: int, at: int)
    requires at >= 2
    ensures 1 in Run(Pair(timeout), FailThenRetry(at))
    ensures Run(Pair(timeout), FailThenRetry(at))[1].tracked == if at > timeout + 1 then [] else [at]
  {
    var es := FailThenRetry(at);
    var off := Step(Pair(timeout), es[0]);
    var failed := Step(off, es[1]);
    DisabledFails(timeout);
    TryOne(off, Leg(0, FAILS));
    assert es[1..][1..] == [es[2]];
    assert Run(Pair(timeout), es) == Run(failed, [es[2]]) == Step(failed, es[2]);
    RetryPair(failed, timeout, at);
  }

  /**
   A disabled provider keeps a harmless status, so there the timeout does decide, also for the providers after it: any
   two timeouts are told apart by a run in which the first provider is disabled, fails, and is tried again between them.
   */
  lemma DisabledTimeoutMatters(short: int, long: int)
    requires 0 <= short < long
    ensures exists es :: 1 in Run(Pair(short), es) && Run(Pair(short), es)[1].tracked == [] &&
                         1 in Run(Pair(long), es) && Run(Pair(long), es)[1].tracked == [short + 2]
  {
    RetryDecides(short, short + 2);
    RetryDecides(long, short + 2);
  }
}
