/**
 Analyses of several requests at once. The checks before a call and its tracking run without suspension; so do the
 updates after it. Between the two the call is in flight and anything else may happen.
 */
module ProviderSteps {
  import opened Prelude
  import opened SlidingWindow
  import opened Provider
  import opened Fallback

  datatype System = System(providers: Providers, flying: multiset<Name>)

  datatype Move =
    | Begin(name: Name, times: Times)
    | End(name: Name, reply: Reply, elapsed: real, done: int)
    | Look(name: Name, breaker: int, limiter: int)
    | TurnOff(name: Name)

  /** Only a call in flight can end. */
  predicate Possible(s: System, m: Move) {
    m.End? ==> m.name in s.flying
  }

  function Next(s: System, m: Move): System {
    if m.name !in s.providers then s
    else
      var p := s.providers[m.name];
      match m
      case Begin(n, t) =>
        if Eligible(p, t)
        then System(s.providers[n := Admitted(p, t)], s.flying + multiset{n})
        else System(s.providers[n := Skipped(p, t)], s.flying)
      case End(n, reply, elapsed, done) =>
        System(s.providers[n := Ended(p, reply, elapsed, done)], s.flying - multiset{n})
      case Look(n, b, l) => System(s.providers[n := AfterLimiterCheck(AfterBreakerCheck(p, b), l)], s.flying)
      case TurnOff(n) => System(s.providers[n := p.(enabled := false)], s.flying)
  }

  function After(s: System, moves: seq<Move>): System
    decreases |moves|
  {
    if moves == [] then s else After(Next(s, moves[0]), moves[1..])
  }

  predicate Schedule(s: System, moves: seq<Move>)
    decreases |moves|
  {
    moves == [] || (Possible(s, moves[0]) && Schedule(Next(s, moves[0]), moves[1..]))
  }

  // ----- the sequential runs are among the schedules -----

  function LegMoves(ps: Providers, leg: Leg): seq<Move> {
    if leg.name !in ps then []
    else
      var a := leg.attempt;
      [Begin(leg.name, a.times)] +
      if Eligible(ps[leg.name], a.times) then [End(leg.name, a.reply, a.elapsed, a.done)] else []
  }

  function TryMoves(ps: Providers, legs: seq<Leg>): seq<Move>
    decreases |legs|
  {
    if legs == [] then []
    else LegMoves(ps, legs[0]) + if AnswersAt(ps, legs[0]) then [] else TryMoves(VisitAt(ps, legs[0]), legs[1..])
  }

  function ActionMoves(ps: Providers, a: Action): seq<Move> {
    match a
    case Analyze(legs) => TryMoves(ps, legs)
    case Query(n, b, l) => [Look(n, b, l)]
    case Disable(n) => [TurnOff(n)]
  }

  function RunMoves(ps: Providers, actions: seq<Action>): seq<Move>
    decreases |actions|
  {
    if actions == [] then [] else ActionMoves(ps, actions[0]) + RunMoves(Step(ps, actions[0]), actions[1..])
  }

  /** The moves are possible one after another and lead from one system to the other. */
  ghost predicate Leads(s: System, moves: seq<Move>, t: System) {
    Schedule(s, moves) && After(s, moves) == t
  }

  lemma {:induction false} LeadsOn(s: System, moves: seq<Move>, t: System, more: seq<Move>, u: System)
    requires Leads(s, moves, t) && Leads(t, more, u)
    ensures Leads(s, moves + more, u)
    decreases |moves|
  {
    if moves == [] {
      assert moves + more == more;
    } else {
      LeadsOn(Next(s, moves[0]), moves[1..], t, more, u);
      assert (moves + more)[1..] == moves[1..] + more;
    }
  }

  lemma LeadsOne(s: System, m: Move)
    requires Possible(s, m)
    ensures Leads(s, [m], Next(s, m))
  {
    assert [m][1..] == [];
  }

  /** A visit is a call that begins and, if it was admitted, ends at once. */
  lemma LegLeads(ps: Providers, flying: multiset<Name>, leg: Leg)
    ensures Leads(System(ps, flying), LegMoves(ps, leg), System(VisitAt(ps, leg), flying))
  {
    if leg.name in ps {
      var s := System(ps, flying);
      var a := leg.attempt;
      var begin := Begin(leg.name, a.times);
      LeadsOne(s, begin);
      if Eligible(ps[leg.name], a.times) {
        var t := Next(s, begin);
        var end := End(leg.name, a.reply, a.elapsed, a.done);
        LeadsOne(t, end);
        assert Next(t, end).providers == VisitAt(ps, leg);
        assert Next(t, end).flying == flying;
        LeadsOn(s, [begin], t, [end], Next(t, end));
      } else {
        assert LegMoves(ps, leg) == [begin];
      }
    }
  }

  lemma {:induction false} TryLeads(ps: Providers, flying: multiset<Name>, legs: seq<Leg>)
    ensures Leads(System(ps, flying), TryMoves(ps, legs), System(Try(ps, legs).providers, flying))
    decreases |legs|
  {
    if legs == [] {
    } else {
      var after := VisitAt(ps, legs[0]);
      LegLeads(ps, flying, legs[0]);
      if AnswersAt(ps, legs[0]) {
        assert LegMoves(ps, legs[0]) + [] == LegMoves(ps, legs[0]);
      } else {
        TryLeads(after, flying, legs[1..]);
        LeadsOn(System(ps, flying), LegMoves(ps, legs[0]), System(after, flying), TryMoves(after, legs[1..]),
                System(Try(ps, legs).providers, flying));
      }
    }
  }

  /** Every sequential run is a schedule with the same result, whatever other calls stay in flight meanwhile. */
  lemma {:induction false} RunIsASchedule(ps: Providers, flying: multiset<Name>, actions: seq<Action>)
    ensures Leads(System(ps, flying), RunMoves(ps, actions), System(Fallback.Run(ps, actions), flying))
    decreases |actions|
  {
    if actions == [] {
    } else {
      var s := System(ps, flying);
      var t := System(Step(ps, actions[0]), flying);
      if actions[0].Analyze? {
        TryLeads(ps, flying, actions[0].legs);
      } else {
        LeadsOne(s, ActionMoves(ps, actions[0])[0]);
      }
      RunIsASchedule(t.providers, flying, actions[1..]);
      LeadsOn(s, ActionMoves(ps, actions[0]), t, RunMoves(t.providers, actions[1..]),
              System(Fallback.Run(ps, actions), flying));
    }
  }

  // ----- every tracked request is reported once -----

  ghost predicate Accounted(s: System, n: Name) {
    n in s.providers ==> |s.providers[n].tracked| == s.providers[n].health.totalRequests + s.flying[n]
  }

  lemma EndedCounts(p: State, reply: Reply, elapsed: real, done: int)
    ensures Ended(p, reply, elapsed, done).health.totalRequests == p.health.totalRequests + 1
    ensures Ended(p, reply, elapsed, done).tracked == p.tracked
  {
  }

  lemma NextAccounted(s: System, m: Move, n: Name)
    requires Possible(s, m) && Accounted(s, n)
    ensures Accounted(Next(s, m), n)
  {
    if n in s.providers && m.End? {
      EndedCounts(s.providers[n], m.reply, m.elapsed, m.done);
    }
  }

  /** Over every interleaving the requests tracked are the requests reported and those in flight. */
  lemma {:induction false} TrackedIsReportedOrInFlight(s: System, moves: seq<Move>, n: Name)
    requires Schedule(s, moves) && Accounted(s, n)
    ensures Accounted(After(s, moves), n)
    decreases |moves|
  {
    if moves == [] {
    } else {
      NextAccounted(s, moves[0], n);
      TrackedIsReportedOrInFlight(Next(s, moves[0]), moves[1..], n);
    }
  }

  // ----- the request limit -----

  /** The limiter's queue stands for all tracked requests, and these are spaced as the limits demand. */
  ghost predicate WithinLimits(p: State, clock: int) {
    Represents(p.settings.limits, p.tracked, p.rateLimiter, clock) && Spaced(p.settings.limits, p.tracked)
  }

  ghost predicate AllWithinLimits(ps: Providers, clock: int) {
    forall n | n in ps :: WithinLimits(ps[n], clock)
  }

  lemma LimiterCheckWithinLimits(p: State, from: int, now: int)
    requires WithinLimits(p, from) && from <= now
    ensures WithinLimits(AfterLimiterCheck(p, now), now)
    ensures !LimitedAt(p, now) ==> !Refuses(p.settings.limits, p.tracked, now)
  {
    PruneRepresents(p.settings.limits, p.tracked, p.rateLimiter, from, now);
  }

  lemma TrackWithinLimits(p: State, now: int, at: int)
    requires WithinLimits(p, now) && now <= at && !Refuses(p.settings.limits, p.tracked, now)
    ensures WithinLimits(Track(p, at), at)
  {
    AdmitRepresents(p.settings.limits, p.tracked, p.rateLimiter, now, at);
    AdmitSpaced(p.settings.limits, p.tracked, now, at);
  }

  lemma WithinLimitsLater(p: State, q: State, from: int, to: int)
    requires WithinLimits(p, from) && from <= to
    requires q.settings == p.settings && q.tracked == p.tracked && q.rateLimiter == p.rateLimiter
    ensures WithinLimits(q, to)
  {
    RepresentsLater(p.settings.limits, p.tracked, p.rateLimiter, from, to);
  }

  /** The clock readings of a move lie between from and to and do not run backwards. */
  ghost predicate Timely(m: Move, from: int, to: int) {
    match m
    case Begin(_, t) => from <= t.limiter <= t.track <= to
    case Look(_, _, l) => from <= l <= to
    case _ => from <= to
  }

  /** Checking first and tracking later keeps the limit, because the check cannot be later than the tracking. */
  lemma BeginWithinLimits(p: State, t: Times, from: int)
    requires WithinLimits(p, from) && from <= t.limiter <= t.track
    ensures WithinLimits(if Eligible(p, t) then Admitted(p, t) else Skipped(p, t), t.track)
  {
    var q := AfterBreakerCheck(p, t.breaker);
    var r := AfterLimiterCheck(q, t.limiter);
    WithinLimitsLater(p, q, from, from);
    LimiterCheckWithinLimits(q, from, t.limiter);
    if Eligible(p, t) {
      TrackWithinLimits(r, t.limiter, t.track);
    } else {
      WithinLimitsLater(p, p, from, t.track);
      WithinLimitsLater(r, r, t.limiter, t.track);
    }
  }

  lemma NextWithinLimits(s: System, m: Move, from: int, to: int)
    requires AllWithinLimits(s.providers, from) && Timely(m, from, to)
    ensures AllWithinLimits(Next(s, m).providers, to)
  {
    forall n | n in s.providers ensures WithinLimits(Next(s, m).providers[n], to) {
      var p := s.providers[n];
      var q := Next(s, m).providers[n];
      WithinLimitsLater(p, p, from, to);
      if n == m.name {
        match m {
          case Begin(_, t) =>
            BeginWithinLimits(p, t, from);
            WithinLimitsLater(q, q, t.track, to);
          case Look(_, b, l) =>
            WithinLimitsLater(p, AfterBreakerCheck(p, b), from, from);
            LimiterCheckWithinLimits(AfterBreakerCheck(p, b), from, l);
            WithinLimitsLater(q, q, l, to);
          case _ => WithinLimitsLater(p, q, from, to);
        }
      }
    }
  }

  /** Over every interleaving, with a clock that does not run backwards, no provider exceeds its request limit. */
  lemma {:induction false} RunWithinLimits(s: System, moves: seq<Move>, clocks: seq<int>)
    requires |clocks| == |moves| + 1
    requires AllWithinLimits(s.providers, clocks[0])
    requires forall i | 0 <= i < |moves| :: Timely(moves[i], clocks[i], clocks[i + 1])
    ensures AllWithinLimits(After(s, moves).providers, clocks[|moves|])
    decreases |moves|
  {
    if moves == [] {
    } else {
      NextWithinLimits(s, moves[0], clocks[0], clocks[1]);
      RunWithinLimits(Next(s, moves[0]), moves[1..], clocks[1..]);
    }
  }

  /** So after any timely schedule the limiter answers as one that forgets no tracked request. */
  lemma LimitedExactly(s: System, moves: seq<Move>, clocks: seq<int>, n: Name, now: int)
    requires |clocks| == |moves| + 1
    requires AllWithinLimits(s.providers, clocks[0])
    requires forall i | 0 <= i < |moves| :: Timely(moves[i], clocks[i], clocks[i + 1])
    requires n in After(s, moves).providers && clocks[|moves|] <= now
    ensures var p := After(s, moves).providers[n];
            LimitedAt(p, now) <==> Refuses(p.settings.limits, p.tracked, now)
  {
    RunWithinLimits(s, moves, clocks);
    var p := After(s, moves).providers[n];
    PruneRepresents(p.settings.limits, p.tracked, p.rateLimiter, clocks[|moves|], now);
  }

  ghost predicate QueueBounded(p: State) {
    p.rateLimiter == [] || |p.rateLimiter| <= p.settings.limits.max
  }

  /** Over every interleaving the limiter remembers no more requests than it allows in one window. */
  lemma {:induction false} RunQueueBounded(s: System, moves: seq<Move>, n: Name)
    requires n in s.providers && QueueBounded(s.providers[n])
    ensures n in After(s, moves).providers && QueueBounded(After(s, moves).providers[n])
    decreases |moves|
  {
    if moves == [] {
    } else {
      NextQueueBounded(s, moves[0], n);
      RunQueueBounded(Next(s, moves[0]), moves[1..], n);
    }
  }

  lemma CheckQueueBounded(p: State, breaker: int, limiter: int)
    requires QueueBounded(p)
    ensures QueueBounded(AfterLimiterCheck(AfterBreakerCheck(p, breaker), limiter))
  {
    PruneShrinks(p.rateLimiter, limiter - p.settings.limits.window);
  }

  lemma BeginQueueBounded(p: State, t: Times)
    requires QueueBounded(p)
    ensures QueueBounded(if Eligible(p, t) then Admitted(p, t) else Skipped(p, t))
  {
    CheckQueueBounded(p, t.breaker, t.limiter);
  }

  lemma EndKeepsQueue(p: State, reply: Reply, elapsed: real, done: int)
    ensures var q := Ended(p, reply, elapsed, done);
            q.rateLimiter == p.rateLimiter && q.settings == p.settings
  {
  }

  lemma NextQueueBounded(s: System, m: Move, n: Name)
    requires n in s.providers && QueueBounded(s.providers[n])
    ensures QueueBounded(Next(s, m).providers[n])
  {
    var p := s.providers[n];
    match m {
      case Begin(_, t) => BeginQueueBounded(p, t);
      case Look(_, b, l) => CheckQueueBounded(p, b, l);
      case End(_, reply, elapsed, done) => EndKeepsQueue(p, reply, elapsed, done);
      case TurnOff(_) =>
    }
  }

  // ----- disabled providers -----

  /** The moves that disable a provider: a health check, or a call whose client does so before it raises. */
  predicate Disables(m: Move, n: Name) {
    m.name == n && (m.TurnOff? || (m.End? && m.reply.Raise? && m.reply.disables))
  }

  lemma NextEnabled(s: System, m: Move, n: Name)
    requires n in s.providers
    ensures Next(s, m).providers[n].enabled <==> s.providers[n].enabled && !Disables(m, n)
  {
  }

  /** Over every interleaving a provider is enabled at the end exactly if it was and none of the moves disables it. */
  lemma {:induction false} RunEnabled(s: System, moves: seq<Move>, n: Name)
    requires n in s.providers
    ensures n in After(s, moves).providers
    ensures After(s, moves).providers[n].enabled <==>
            s.providers[n].enabled && forall m | m in moves :: !Disables(m, n)
    decreases |moves|
  {
    if moves == [] {
    } else {
      NextEnabled(s, moves[0], n);
      RunEnabled(Next(s, moves[0]), moves[1..], n);
      assert moves == [moves[0]] + moves[1..];
    }
  }

  /** The end of any call of a disabled provider, in particular of the call that disables it, leaves it offline. */
  lemma EndOffline(p: State, reply: Reply, elapsed: real, done: int)
    ensures var q := Ended(p, reply, elapsed, done);
            q.health.status == Offline <==> !p.enabled || reply == Raise(true)
  {
  }

  /**
   And offline is not unhealthy: such a provider is tried again as its breaker and its request limit allow, at any
   moment after a timely schedule.
   */
  lemma OfflineTriedAgain(s: System, moves: seq<Move>, clocks: seq<int>, n: Name, t: Times)
    requires |clocks| == |moves| + 1
    requires AllWithinLimits(s.providers, clocks[0])
    requires forall i | 0 <= i < |moves| :: Timely(moves[i], clocks[i], clocks[i + 1])
    requires n in After(s, moves).providers && clocks[|moves|] <= t.limiter
    requires After(s, moves).providers[n].health.status == Offline
    ensures var p := After(s, moves).providers[n];
            Eligible(p, t) <==>
            (p.openTime.Some? ==> t.breaker - p.openTime.value > p.settings.timeout) &&
            !Refuses(p.settings.limits, p.tracked, t.limiter)
  {
    LimitedExactly(s, moves, clocks, n, t.limiter);
  }

  // ----- unhealthy providers -----

  /** Marked unhealthy with no call in flight. */
  ghost predicate Quiet(s: System, n: Name) {
    n in s.providers && s.providers[n].health.status == Unhealthy && n !in s.flying
  }

  lemma NextStaysQuiet(s: System, m: Move, n: Name)
    requires Possible(s, m) && Quiet(s, n)
    ensures Quiet(Next(s, m), n)
    ensures SameRecord(s.providers[n], Next(s, m).providers[n])
    ensures Next(s, m).providers[n].tracked == s.providers[n].tracked
  {
  }

  /** An unhealthy provider with no call in flight is never called again, over every interleaving. */
  lemma {:induction false} UnhealthyStaysQuiet(s: System, moves: seq<Move>, n: Name)
    requires Schedule(s, moves) && Quiet(s, n)
    ensures Quiet(After(s, moves), n)
    ensures SameRecord(s.providers[n], After(s, moves).providers[n])
    ensures After(s, moves).providers[n].tracked == s.providers[n].tracked
    decreases |moves|
  {
    if moves == [] {
    } else {
      NextStaysQuiet(s, moves[0], n);
      UnhealthyStaysQuiet(Next(s, moves[0]), moves[1..], n);
    }
  }

  // ----- the breaker of an enabled provider -----

  ghost predicate AllGuarded(ps: Providers) {
    forall n | n in ps :: Guarded(ps[n])
  }

  lemma NextGuarded(s: System, m: Move)
    requires AllGuarded(s.providers)
    ensures AllGuarded(Next(s, m).providers)
  {
  }

  /** Over every interleaving an open breaker of an enabled provider shows in its status. */
  lemma {:induction false} RunGuarded(s: System, moves: seq<Move>)
    requires AllGuarded(s.providers)
    ensures AllGuarded(After(s, moves).providers)
    decreases |moves|
  {
    if moves == [] {
    } else {
      NextGuarded(s, moves[0]);
      RunGuarded(Next(s, moves[0]), moves[1..]);
    }
  }

  /** So at any moment an enabled provider is called as its status and its request limit say. */
  lemma {:induction false} EnabledEligibility(s: System, moves: seq<Move>, n: Name, t: Times)
    requires AllGuarded(s.providers) && n in After(s, moves).providers && After(s, moves).providers[n].enabled
    ensures var p := After(s, moves).providers[n];
            Eligible(p, t) <==> p.health.status != Unhealthy && !LimitedAt(p, t.limiter)
  {
    RunGuarded(s, moves);
  }

  // ----- the journal of one provider -----

  /** The breaker checks and the report that a move makes at its provider. */
  function OpsOf(p: State, m: Move): seq<Op> {
    match m
    case Begin(_, t) => if p.health.status == Unhealthy then [] else [Check(t.breaker)]
    case End(_, reply, elapsed, done) => [Report(reply.Answer?, elapsed, done)]
    case Look(_, b, _) => [Check(b)]
    case TurnOff(_) => []
  }

  function OwnOps(s: System, moves: seq<Move>, n: Name): seq<Op>
    decreases |moves|
  {
    if moves == [] then []
    else
      (if moves[0].name == n && n in s.providers then OpsOf(s.providers[n], moves[0]) else []) +
      OwnOps(Next(s, moves[0]), moves[1..], n)
  }

  ghost predicate FollowsJournal(p: State, settings: Settings, ops: seq<Op>) {
    && p.settings == settings
    && BreakerExact(p, Journal(settings, ops))
    && CountsExact(p, Journal(settings, ops), Samples(ops))
    && TimesExact(p, Journal(settings, ops))
  }

  lemma OpFollows(p: State, op: Op, ops: seq<Op>)
    requires FollowsJournal(p, p.settings, ops)
    ensures FollowsJournal(Apply(p, op), p.settings, ops + [op])
  {
    assert (ops + [op])[..|ops|] == ops;
    BreakerStep(p, Journal(p.settings, ops), op);
    CountsStep(p, Journal(p.settings, ops), Samples(ops), op);
    TimesStep(p, Journal(p.settings, ops), op);
  }

  /** The journal says nothing about the limiter, the tracked requests and whether the provider is enabled. */
  lemma AlikeFollows(p: State, q: State, ops: seq<Op>)
    requires FollowsJournal(p, p.settings, ops)
    requires q.settings == p.settings && q.openTime == p.openTime && q.health == p.health
    ensures FollowsJournal(q, p.settings, ops)
  {
  }

  lemma CheckFollows(p: State, at: int, q: State, ops: seq<Op>)
    requires FollowsJournal(p, p.settings, ops)
    requires q.settings == p.settings
    requires q.openTime == AfterBreakerCheck(p, at).openTime && q.health == AfterBreakerCheck(p, at).health
    ensures FollowsJournal(q, p.settings, ops + [Check(at)])
  {
    OpFollows(p, Check(at), ops);
    AlikeFollows(AfterBreakerCheck(p, at), q, ops + [Check(at)]);
  }

  lemma EndFollows(p: State, reply: Reply, elapsed: real, done: int, ops: seq<Op>)
    requires FollowsJournal(p, p.settings, ops)
    ensures FollowsJournal(Ended(p, reply, elapsed, done), p.settings, ops + [Report(reply.Answer?, elapsed, done)])
  {
    var q := if reply == Raise(true) then p.(enabled := false) else p;
    AlikeFollows(p, q, ops);
    OpFollows(q, Report(reply.Answer?, elapsed, done), ops);
  }

  lemma NextFollows(s: System, m: Move, n: Name, ops: seq<Op>)
    requires n in s.providers && m.name == n && FollowsJournal(s.providers[n], s.providers[n].settings, ops)
    ensures FollowsJournal(Next(s, m).providers[n], s.providers[n].settings, ops + OpsOf(s.providers[n], m))
  {
    var p := s.providers[n];
    var q := Next(s, m).providers[n];
    match m {
      case Begin(_, t) =>
        if p.health.status == Unhealthy {
          assert ops + [] == ops;
        } else {
          CheckFollows(p, t.breaker, q, ops);
        }
      case End(_, reply, elapsed, done) => EndFollows(p, reply, elapsed, done, ops);
      case Look(_, b, _) => CheckFollows(p, b, q, ops);
      case TurnOff(_) =>
        assert ops + [] == ops;
        AlikeFollows(p, q, ops);
    }
  }

  lemma {:induction false} RunFollows(s: System, moves: seq<Move>, n: Name, ops: seq<Op>)
    requires n in s.providers && FollowsJournal(s.providers[n], s.providers[n].settings, ops)
    ensures n in After(s, moves).providers
    ensures FollowsJournal(After(s, moves).providers[n], s.providers[n].settings, ops + OwnOps(s, moves, n))
    decreases |moves|
  {
    if moves == [] {
      assert ops + [] == ops;
    } else {
      var own := if moves[0].name == n then OpsOf(s.providers[n], moves[0]) else [];
      var rest := OwnOps(Next(s, moves[0]), moves[1..], n);
      if moves[0].name == n {
        NextFollows(s, moves[0], n, ops);
      } else {
        assert ops + [] == ops;
      }
      RunFollows(Next(s, moves[0]), moves[1..], n, ops + own);
      Regroup(ops, own, rest);
    }
  }

  /**
   Over every interleaving, breaker fields, counters and averages of each provider are those of the journal of its own
   checks and reports, in whatever order the calls end.
   */
  lemma {:induction false} BreakerFollowsJournal(s: System, moves: seq<Move>, n: Name)
    requires n in s.providers && s.providers[n].health == FRESH && s.providers[n].openTime == None
    ensures n in After(s, moves).providers
    ensures FollowsJournal(After(s, moves).providers[n], s.providers[n].settings, OwnOps(s, moves, n))
  {
    RunFollows(s, moves, n, []);
    assert [] + OwnOps(s, moves, n) == OwnOps(s, moves, n);
  }
}
