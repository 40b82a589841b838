/** The provider objects and their manager: methods that update fields, tied to the model. */
module ProviderManager {
  import opened Prelude
  import opened SlidingWindow
  import opened Provider
  import opened Fallback

  class BaseProvider {
    const settings: Settings
    var enabled: bool
    var health: Health
    var rateLimiter: seq<int>
    var circuitOpenTime: Option<int>
    ghost var tracked: seq<int>

    ghost function View(): State
      reads this
    {
      State(settings, enabled, health, rateLimiter, circuitOpenTime, tracked)
    }

    constructor (s: Settings)
      ensures View() == State(s, true, FRESH, [], None, [])
    {
      settings, enabled, health, rateLimiter, circuitOpenTime, tracked := s, true, FRESH, [], None, [];
    }

    method IsRateLimited(now: int) returns (limited: bool)
      modifies this
      ensures limited <==> LimitedAt(old(View()), now)
      ensures View() == AfterLimiterCheck(old(View()), now)
    {
      ghost var cutoff := now - settings.limits.window;
      while rateLimiter != [] && now - rateLimiter[0] > settings.limits.window
        invariant Prune(rateLimiter, cutoff) == Prune(old(rateLimiter), cutoff)
        invariant View() == old(View()).(rateLimiter := rateLimiter)
        decreases |rateLimiter|
      {
        rateLimiter := rateLimiter[1..];
      }
      return |rateLimiter| >= settings.limits.max;
    }

    method IsCircuitBreakerOpen(now: int) returns (open: bool)
      modifies this
      ensures open <==> BreakerOpenAt(old(View()), now)
      ensures View() == AfterBreakerCheck(old(View()), now)
    {
      if circuitOpenTime == None {
        return false;
      }
      if now - circuitOpenTime.value > settings.timeout {
        circuitOpenTime := None;
        health := health.(consecutiveFailures := 0);
        return false;
      }
      return true;
    }

    method UpdateHealthMetrics(success: bool, elapsed: real, now: int)
      modifies this
      ensures View() == Record(old(View()), success, elapsed, now)
    {
      health := health.(lastRequest := Some(now), totalRequests := health.totalRequests + 1,
                        responseTimes := Push(health.responseTimes, elapsed));
      if success {
        health := health.(successfulRequests := health.successfulRequests + 1, lastSuccess := Some(now),
                          consecutiveFailures := 0);
        if circuitOpenTime.Some? {
          circuitOpenTime := None;
        }
      } else {
        health := health.(failedRequests := health.failedRequests + 1, lastError := Some(now),
                          consecutiveFailures := health.consecutiveFailures + 1);
        if health.consecutiveFailures >= settings.threshold && circuitOpenTime == None {
          circuitOpenTime := Some(now);
        }
      }
      if health.totalRequests > 0 {
        health := health.(errorRate := health.failedRequests as real / health.totalRequests as real);
      }
      if health.responseTimes != [] {
        health := health.(averageResponseTime := Mean(health.responseTimes));
      }
      UpdateStatus();
    }

    method UpdateStatus()
      modifies this`health
      ensures health == old(health).(status := StatusOf(enabled, circuitOpenTime.Some?, old(health).errorRate))
    {
      if !enabled {
        health := health.(status := Offline);
      } else if circuitOpenTime.Some? {
        health := health.(status := Unhealthy);
      } else if health.errorRate > 0.5 {
        health := health.(status := Unhealthy);
      } else if health.errorRate > 0.2 {
        health := health.(status := Degraded);
      } else {
        health := health.(status := Healthy);
      }
    }

    method TrackRequest(now: int)
      modifies this
      ensures View() == Track(old(View()), now)
    {
      rateLimiter := rateLimiter + [now];
      tracked := tracked + [now];
    }

    /** The three checks before a call, and the tracking of a call that passes them: nothing suspends in between. */
    method Admit(t: Times) returns (admitted: bool)
      modifies this
      ensures admitted <==> Eligible(old(View()), t)
      ensures View() == if admitted then Admitted(old(View()), t) else Skipped(old(View()), t)
    {
      if health.status == Unhealthy {
        return false;
      }
      var open := IsCircuitBreakerOpen(t.breaker);
      if open {
        return false;
      }
      var limited := IsRateLimited(t.limiter);
      if limited {
        return false;
      }
      TrackRequest(t.track);
      return true;
    }

    /** What happens when the client returns or raises; it may have disabled its provider before. */
    method EndCall(reply: Reply, elapsed: real, done: int)
      modifies this
      ensures View() == Ended(old(View()), reply, elapsed, done)
    {
      match reply {
        case Answer(_) =>
          UpdateHealthMetrics(true, elapsed, done);
        case Raise(disables) =>
          if disables {
            enabled := false;
          }
          UpdateHealthMetrics(false, elapsed, done);
      }
    }

    /** One turn of the fallback loop: skip, answer or record a failure. */
    method TryCall(a: Attempt) returns (r: Option<Response>)
      modifies this
      ensures View() == Visit(old(View()), a)
      ensures r == if Answers(old(View()), a) then Some(a.reply.response) else None
    {
      var admitted := Admit(a.times);
      if !admitted {
        return None;
      }
      EndCall(a.reply, a.elapsed, a.done);
      return if a.reply.Answer? then Some(a.reply.response) else None;
    }
  }

  class Manager {
    const defaultProvider: Name
    const fallbackProviders: seq<Name>
    const providers: map<Name, BaseProvider>

    /** Different names have different provider objects. */
    ghost predicate Separate() {
      forall m, n | m in providers && n in providers && m != n :: providers[m] != providers[n]
    }

    ghost function Views(): Providers
      reads set n | n in providers :: providers[n]
    {
      map n | n in providers :: providers[n].View()
    }

    constructor (d: Name, fallbacks: seq<Name>, ps: map<Name, BaseProvider>)
      ensures defaultProvider == d && fallbackProviders == fallbacks && providers == ps
    {
      defaultProvider, fallbackProviders, providers := d, fallbacks, ps;
    }

    /** One position of the order; a name without a provider is passed over. */
    method TryProvider(leg: Leg) returns (r: Option<Response>)
      requires Separate()
      modifies set n | n in providers :: providers[n]
      ensures Views() == VisitAt(old(Views()), leg)
      ensures r == if AnswersAt(old(Views()), leg) then Some(leg.attempt.reply.response) else None
    {
      if leg.name !in providers {
        return None;
      }
      ghost var before := Views();
      r := providers[leg.name].TryCall(leg.attempt);
      assert Views() == before[leg.name := Visit(before[leg.name], leg.attempt)];
    }

    /** The legs stand for what the clock and the provider services do at each position of the order. */
    method Analyze(cached: Option<Response>, legs: seq<Leg>) returns (r: Option<Response>)
      requires Separate()
      requires |legs| == 1 + |fallbackProviders| && legs[0].name == defaultProvider
      requires forall i | 1 <= i < |legs| :: legs[i].name == fallbackProviders[i - 1]
      modifies set n | n in providers :: providers[n]
      ensures cached.Some? ==> r == cached && Views() == old(Views())
      ensures cached.None? ==> Outcome(Views(), r) == Try(old(Views()), legs)
    {
      if cached.Some? {
        return cached;
      }
      var order := [defaultProvider] + fallbackProviders;
      for i := 0 to |order|
        invariant Try(Views(), legs[i..]) == Try(old(Views()), legs)
      {
        assert legs[i..][0] == legs[i] && legs[i..][1..] == legs[i + 1..];
        r := TryProvider(Leg(order[i], legs[i].attempt));
        if r.Some? {
          return r;
        }
      }
      return None;
    }
  }
}
