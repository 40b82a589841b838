/**
 When an unhealthy provider can come back, and when the recovery timeout shows, with several analyses at once. Only the
 calls in flight can change an unhealthy status, so everything depends on how many there are.
 */
module ProviderRecovery {
  import opened Prelude
  import opened SlidingWindow
  import opened Provider
  import opened Fallback
  import opened ProviderSteps

  // ----- schedules by a clock that does not run backwards -----

  /** The last reading of the clock in a move that starts at or after from. */
  function Until(m: Move, from: int): int {
    match m
    case Begin(_, t) => t.track
    case End(_, _, _, done) => done
    case Look(_, _, l) => l
    case TurnOff(_) => from
  }

  ghost predicate InOrder(m: Move, from: int) {
    Timely(m, from, Until(m, from)) && (m.Begin? ==> from <= m.times.breaker <= m.times.limiter)
  }

  /** A possible schedule from time from on. */
  ghost predicate ScheduleFrom(s: System, moves: seq<Move>, from: int)
    decreases |moves|
  {
    moves == [] ||
    (Possible(s, moves[0]) && InOrder(moves[0], from) &&
     ScheduleFrom(Next(s, moves[0]), moves[1..], Until(moves[0], from)))
  }

  /** Such a schedule leads to system t at time to. */
  ghost predicate LeadsFrom(s: System, from: int, moves: seq<Move>, t: System, to: int)
    decreases |moves|
  {
    if moves == [] then s == t && from == to
    else
      Possible(s, moves[0]) && InOrder(moves[0], from) &&
      LeadsFrom(Next(s, moves[0]), Until(moves[0], from), moves[1..], t, to)
  }

  lemma {:induction false} LeadsFromOn(s: System, from: int, moves: seq<Move>, t: System, to: int,
                                       more: seq<Move>, u: System, end: int)
    requires LeadsFrom(s, from, moves, t, to) && LeadsFrom(t, to, more, u, end)
    ensures LeadsFrom(s, from, moves + more, u, end)
    decreases |moves|
  {
    if moves == [] {
      assert moves + more == more;
    } else {
      LeadsFromOn(Next(s, moves[0]), Until(moves[0], from), moves[1..], t, to, more, u, end);
      assert (moves + more)[1..] == moves[1..] + more;
    }
  }

  lemma LeadsFromOne(s: System, from: int, m: Move)
    requires Possible(s, m) && InOrder(m, from)
    ensures LeadsFrom(s, from, [m], Next(s, m), Until(m, from))
  {
    assert [m][1..] == [];
  }

  lemma {:induction false} LeadsFromSchedules(s: System, from: int, moves: seq<Move>, t: System, to: int)
    requires LeadsFrom(s, from, moves, t, to)
    ensures ScheduleFrom(s, moves, from) && Schedule(s, moves) && After(s, moves) == t
    decreases |moves|
  {
    if moves == [] {
    } else {
      LeadsFromSchedules(Next(s, moves[0]), Until(moves[0], from), moves[1..], t, to);
    }
  }

  // ----- when the status can improve without a disabling -----

  predicate Gentle(m: Move, n: Name) {
    m.name == n ==> !m.TurnOff? && (m.End? ==> m.reply != Raise(true))
  }

  /** A schedule in which the provider is not disabled, and after which its status is not unhealthy. */
  ghost predicate Recovers(s: System, n: Name, moves: seq<Move>, from: int) {
    && ScheduleFrom(s, moves, from) && (forall m | m in moves :: Gentle(m, n))
    && n in After(s, moves).providers && After(s, moves).providers[n].health.status != Unhealthy
  }

  /** A check at one moment: enough calls are in flight to outweigh the failures. */
  predicate Recoverable(s: System, n: Name)
    requires n in s.providers
  {
    var p := s.providers[n];
    n in s.flying && (p.enabled ==> 2 * p.health.failedRequests <= p.health.totalRequests + s.flying[n])
  }

  predicate Hopeless(s: System, n: Name) {
    n in s.providers && s.providers[n].health.status == Unhealthy && !Recoverable(s, n)
  }

  lemma EndHopeless(s: System, m: Move, n: Name)
    requires Hopeless(s, n) && m.End? && m.name == n && n in s.flying && m.reply != Raise(true)
    ensures Hopeless(Next(s, m), n)
  {
    StatusExact(s.providers[n], m.reply.Answer?, m.elapsed, m.done);
  }

  lemma NextHopeless(s: System, m: Move, n: Name)
    requires Hopeless(s, n) && Possible(s, m) && Gentle(m, n)
    ensures Hopeless(Next(s, m), n)
  {
    if m.name == n && m.End? {
      EndHopeless(s, m, n);
    }
  }

  lemma {:induction false} StaysHopeless(s: System, moves: seq<Move>, n: Name, from: int)
    requires Hopeless(s, n) && ScheduleFrom(s, moves, from) && forall m | m in moves :: Gentle(m, n)
    ensures Hopeless(After(s, moves), n)
    decreases |moves|
  {
    if moves == [] {
    } else {
      assert moves[0] in moves;
      NextHopeless(s, moves[0], n);
      StaysHopeless(Next(s, moves[0]), moves[1..], n, Until(moves[0], from));
    }
  }

  /** Every call in flight answers. */
  function AllAnswer(n: Name, k: nat, at: int): (moves: seq<Move>)
    ensures forall m | m in moves :: Gentle(m, n)
  {
    if k == 0 then [] else [End(n, Answer("ok"), 1.0, at)] + AllAnswer(n, k - 1, at)
  }

  lemma AnswerHelps(s: System, n: Name, at: int)
    requires n in s.providers && s.providers[n].enabled && Recoverable(s, n)
    ensures var t := Next(s, End(n, Answer("ok"), 1.0, at));
            && n in t.providers && t.providers[n].enabled && t.flying[n] == s.flying[n] - 1
            && if t.flying[n] == 0 then t.providers[n].health.status != Unhealthy else Recoverable(t, n)
  {
    StatusExact(s.providers[n], true, 1.0, at);
  }

  lemma RecoversLater(s: System, n: Name, m: Move, rest: seq<Move>, from: int)
    requires Possible(s, m) && InOrder(m, from) && Gentle(m, n)
    requires Recovers(Next(s, m), n, rest, Until(m, from))
    ensures Recovers(s, n, [m] + rest, from)
  {
    assert ([m] + rest)[1..] == rest;
  }

  lemma {:induction false} AnswersRecover(s: System, n: Name, at: int)
    requires n in s.providers && s.providers[n].enabled && Recoverable(s, n)
    ensures Recovers(s, n, AllAnswer(n, s.flying[n], at), at)
    decreases s.flying[n]
  {
    var k := s.flying[n];
    var end := End(n, Answer("ok"), 1.0, at);
    AnswerHelps(s, n, at);
    if k == 1 {
      assert Recovers(Next(s, end), n, AllAnswer(n, 0, at), at);
    } else {
      AnswersRecover(Next(s, end), n, at);
    }
    RecoversLater(s, n, end, AllAnswer(n, k - 1, at), at);
  }

  lemma DisabledRecovers(s: System, n: Name, at: int)
    requires n in s.providers && !s.providers[n].enabled && n in s.flying
    ensures Recovers(s, n, [End(n, Answer("ok"), 1.0, at)], at)
  {
    assert [End(n, Answer("ok"), 1.0, at)][1..] == [];
  }

  /**
   Over every interleaving without a disabling: the status of an unhealthy provider can become anything else if and only
   if calls are in flight and, while it is enabled, not more than half of all requests would have failed if all of them
   answered.
   */
  lemma RecoversExactly(s: System, n: Name, from: int)
    requires n in s.providers && s.providers[n].health.status == Unhealthy
    ensures (exists moves :: Recovers(s, n, moves, from)) <==> Recoverable(s, n)
  {
    if !Recoverable(s, n) {
      forall moves ensures !Recovers(s, n, moves, from) {
        if ScheduleFrom(s, moves, from) && forall m | m in moves :: Gentle(m, n) {
          StaysHopeless(s, moves, n, from);
        }
      }
    } else if s.providers[n].enabled {
      AnswersRecover(s, n, from);
    } else {
      DisabledRecovers(s, n, from);
    }
  }

  /** An enabled provider without any report yet. */
  ghost predicate Unreported(p: State) {
    p.enabled && p.health == FRESH && p.openTime == None
  }

  lemma BeginsUnreported(s: System, n: Name, t: Times)
    requires n in s.providers && Unreported(s.providers[n])
    requires |s.providers[n].rateLimiter| < s.providers[n].settings.limits.max
    ensures var q := Next(s, Begin(n, t));
            && n in q.providers && Unreported(q.providers[n]) && q.flying == s.flying + multiset{n}
            && q.providers[n].settings == s.providers[n].settings
            && |q.providers[n].rateLimiter| <= |s.providers[n].rateLimiter| + 1
  {
    var p := s.providers[n];
    PruneShrinks(p.rateLimiter, t.limiter - p.settings.limits.window);
  }

  lemma FirstFails(s: System, n: Name, elapsed: real, done: int)
    requires n in s.providers && Unreported(s.providers[n]) && s.flying[n] == 2
    ensures var t := Next(s, End(n, Raise(false), elapsed, done));
            n in t.providers && t.providers[n].enabled && t.providers[n].health.status == Unhealthy && Recoverable(t, n)
  {
    StatusExact(s.providers[n], false, elapsed, done);
  }

  ghost predicate OrderedTimes(from: int, t: Times) {
    from <= t.breaker <= t.limiter <= t.track
  }

  /** That happens to every new provider that may be called twice: two calls begin, one fails, the other decides. */
  lemma RecoveryHappens(p: State, from: int, first: Times, second: Times, elapsed: real, done: int)
    requires Unreported(p) && p.rateLimiter == [] && p.settings.limits.max >= 2
    requires OrderedTimes(from, first) && OrderedTimes(first.track, second) && second.track <= done
    ensures var s := System(map[0 := p], multiset{});
            var moves := [Begin(0, first), Begin(0, second), End(0, Raise(false), elapsed, done)];
            && ScheduleFrom(s, moves, from) && 0 in After(s, moves).providers
            && After(s, moves).providers[0].enabled
            && After(s, moves).providers[0].health.status == Unhealthy && Recoverable(After(s, moves), 0)
  {
    var s := System(map[0 := p], multiset{});
    var end := End(0, Raise(false), elapsed, done);
    var s1 := Next(s, Begin(0, first));
    var s2 := Next(s1, Begin(0, second));
    BeginsUnreported(s, 0, first);
    BeginsUnreported(s1, 0, second);
    FirstFails(s2, 0, elapsed, done);
    LeadsFromOne(s, from, Begin(0, first));
    LeadsFromOne(s1, first.track, Begin(0, second));
    LeadsFromOne(s2, second.track, end);
    LeadsFromOn(s1, first.track, [Begin(0, second)], s2, second.track, [end], Next(s2, end), done);
    LeadsFromOn(s, from, [Begin(0, first)], s1, first.track, [Begin(0, second)] + [end], Next(s2, end), done);
    assert [Begin(0, first)] + ([Begin(0, second)] + [end]) == [Begin(0, first), Begin(0, second), end];
    LeadsFromSchedules(s, from, [Begin(0, first), Begin(0, second), end], Next(s2, end), done);
  }

  // ----- when it can be called again -----

  ghost predicate CalledAgain(s: System, n: Name, moves: seq<Move>, from: int)
    requires n in s.providers
  {
    && ScheduleFrom(s, moves, from)
    && n in After(s, moves).providers && After(s, moves).providers[n].tracked != s.providers[n].tracked
  }

  /** Neither called before nor callable: quiet, or without any request allowed. */
  ghost predicate Uncallable(s: System, n: Name) {
    n in s.providers && (Quiet(s, n) || s.providers[n].settings.limits.max <= 0)
  }

  lemma {:induction false} UncallableStays(s: System, moves: seq<Move>, n: Name, from: int)
    requires Uncallable(s, n) && ScheduleFrom(s, moves, from)
    ensures n in After(s, moves).providers && After(s, moves).providers[n].tracked == s.providers[n].tracked
    decreases |moves|
  {
    if moves == [] {
    } else {
      NextUncallable(s, moves[0], n);
      UncallableStays(Next(s, moves[0]), moves[1..], n, Until(moves[0], from));
    }
  }

  lemma NextUncallable(s: System, m: Move, n: Name)
    requires Uncallable(s, n) && Possible(s, m)
    ensures Uncallable(Next(s, m), n) && Next(s, m).providers[n].tracked == s.providers[n].tracked
  {
    if Quiet(s, n) {
      NextStaysQuiet(s, m, n);
    }
  }

  /** A time later than all entries of a queue. */
  function Beyond(queue: seq<int>): int {
    if queue == [] then 0
    else if queue[0] >= Beyond(queue[1..]) then queue[0] + 1 else Beyond(queue[1..])
  }

  lemma {:induction false} PruneBeyond(queue: seq<int>, cutoff: int)
    requires cutoff >= Beyond(queue)
    ensures Prune(queue, cutoff) == []
  {
    if queue == [] {
    } else {
      PruneBeyond(queue[1..], cutoff);
    }
  }

  function Max(a: int, b: int): int {
    if a < b then b else a
  }

  /** Late enough for the breaker to have timed out and for the limiter's window to be empty. */
  function LateEnough(p: State, from: int): int {
    Max(Max(from, Beyond(p.rateLimiter) + p.settings.limits.window),
        if p.openTime.Some? then p.openTime.value + p.settings.timeout + 1 else from)
  }

  lemma LateIsEligible(p: State, from: int)
    requires p.health.status != Unhealthy && p.settings.limits.max >= 1
    ensures var at := LateEnough(p, from); at >= from && Eligible(p, Times(at, at, at))
  {
    PruneBeyond(p.rateLimiter, LateEnough(p, from) - p.settings.limits.window);
  }

  /** The provider is disabled, a call in flight fails, and a later request finds it offline. */
  lemma DisablingRevives(s: System, n: Name, from: int)
    requires n in s.providers && n in s.flying && s.providers[n].settings.limits.max >= 1
    ensures exists moves :: CalledAgain(s, n, moves, from)
  {
    var off := TurnOff(n);
    var end := End(n, Raise(false), 1.0, from);
    var s1 := Next(s, off);
    var s2 := Next(s1, end);
    var p := s2.providers[n];
    LateIsEligible(p, from);
    var at := LateEnough(p, from);
    var begin := Begin(n, Times(at, at, at));
    var s3 := Next(s2, begin);
    assert s3.providers[n].tracked == s.providers[n].tracked + [at];
    var moves := [off, end, begin];
    assert moves[1..] == [end, begin] && moves[1..][1..] == [begin] && moves[1..][1..][1..] == [];
    assert After(s, moves) == After(s1, [end, begin]) == After(s2, [begin]) == s3;
    assert ScheduleFrom(s2, [begin], from);
    assert ScheduleFrom(s1, [end, begin], from);
    assert CalledAgain(s, n, moves, from);
  }

  /**
   Over every interleaving, an unhealthy provider can be called again if and only if a call is in flight and its limit
   allows any request at all.
   */
  lemma CalledAgainExactly(s: System, n: Name, from: int)
    requires n in s.providers && s.providers[n].health.status == Unhealthy
    ensures (exists moves :: CalledAgain(s, n, moves, from)) <==>
            n in s.flying && s.providers[n].settings.limits.max >= 1
  {
    if n in s.flying && s.providers[n].settings.limits.max >= 1 {
      DisablingRevives(s, n, from);
    } else {
      forall moves ensures !CalledAgain(s, n, moves, from) {
        if ScheduleFrom(s, moves, from) {
          UncallableStays(s, moves, n, from);
        }
      }
    }
  }

  // ----- the timeout -----

  /** No provider is disabled and no status is queried. */
  predicate Plain(m: Move) {
    !m.TurnOff? && !m.Look? && (m.End? ==> m.reply != Raise(true))
  }

  ghost predicate SameButTimeout(p: State, q: State) {
    q == WithTimeout(p, q.settings.timeout) && p.enabled && Guarded(p)
  }

  /** The same but for the timeouts, with enabled providers whose open breakers show. */
  ghost predicate SameButTimeouts(s: System, t: System) {
    && t.flying == s.flying && s.providers.Keys == t.providers.Keys
    && forall n | n in s.providers :: SameButTimeout(s.providers[n], t.providers[n])
  }

  lemma BeginSame(p: State, q: State, t: Times)
    requires SameButTimeout(p, q)
    ensures Eligible(p, t) <==> Eligible(q, t)
    ensures SameButTimeout(if Eligible(p, t) then Admitted(p, t) else Skipped(p, t),
                           if Eligible(q, t) then Admitted(q, t) else Skipped(q, t))
  {
  }

  lemma EndSame(p: State, q: State, reply: Reply, elapsed: real, done: int)
    requires SameButTimeout(p, q) && reply != Raise(true)
    ensures SameButTimeout(Ended(p, reply, elapsed, done), Ended(q, reply, elapsed, done))
  {
  }

  lemma NextSame(s: System, t: System, m: Move)
    requires SameButTimeouts(s, t) && Plain(m)
    ensures SameButTimeouts(Next(s, m), Next(t, m)) && (Possible(s, m) <==> Possible(t, m))
  {
    if m.name in s.providers {
      var p := s.providers[m.name];
      var q := t.providers[m.name];
      if m.Begin? {
        BeginSame(p, q, m.times);
      } else {
        EndSame(p, q, m.reply, m.elapsed, m.done);
      }
    }
  }

  /**
   Over every interleaving without disablings and status queries the timeouts are without effect: the same calls are in
   flight and the same requests are tracked, and the providers agree in everything else too.
   */
  lemma {:induction false} TimeoutWithoutEffect(s: System, t: System, moves: seq<Move>)
    requires SameButTimeouts(s, t) && forall m | m in moves :: Plain(m)
    ensures Schedule(s, moves) <==> Schedule(t, moves)
    ensures SameButTimeouts(After(s, moves), After(t, moves))
    decreases |moves|
  {
    if moves == [] {
    } else {
      assert moves[0] in moves;
      NextSame(s, t, moves[0]);
      TimeoutWithoutEffect(Next(s, moves[0]), Next(t, moves[0]), moves[1..]);
    }
  }

  // ----- a status query shows it -----

  /** A script for one provider: calls that begin, succeed or fail, all at time zero. */
  datatype Beat = Begins | Succeeds | Fails

  datatype Script = Stop | Then(beat: Beat, rest: Script)

  function MoveFor(beat: Beat): Move {
    match beat
    case Begins => Begin(0, Times(0, 0, 0))
    case Succeeds => End(0, Answer("ok"), 1.0, 0)
    case Fails => End(0, Raise(false), 1.0, 0)
  }

  function MovesOf(script: Script): seq<Move> {
    if script.Stop? then [] else [MoveFor(script.beat)] + MovesOf(script.rest)
  }

  /** Requests, failures, failures in a row, calls in flight, and whether the breaker is open. */
  datatype Score = Score(total: nat, failed: nat, row: nat, flying: nat, open: bool)

  predicate Bad(y: Score) {
    y.open || 2 * y.failed > y.total
  }

  predicate Playable(y: Score, beat: Beat) {
    if beat.Begins? then !Bad(y) && y.total + y.flying < 60 else y.flying > 0
  }

  function Turn(y: Score, beat: Beat): Score
    requires Playable(y, beat)
  {
    match beat
    case Begins => y.(flying := y.flying + 1)
    case Succeeds => Score(y.total + 1, y.failed, 0, y.flying - 1, false)
    case Fails => Score(y.total + 1, y.failed + 1, y.row + 1, y.flying - 1, y.open || y.row + 1 >= 2)
  }

  function Play(y: Score, script: Script): Option<Score>
    decreases script
  {
    if script.Stop? then Some(y)
    else if Playable(y, script.beat) then Play(Turn(y, script.beat), script.rest) else None
  }

  ghost predicate Scores(s: System, y: Score, timeout: int) {
    && 0 in s.providers && s.flying[0] == y.flying
    && var p := s.providers[0];
       && p.settings == Settings(Limits(60, 60), 2, timeout) && p.enabled
       && p.health.totalRequests == y.total && p.health.failedRequests == y.failed
       && p.health.consecutiveFailures == y.row
       && p.openTime == (if y.open then Some(0) else None)
       && |p.rateLimiter| <= y.total + y.flying
       && (p.health.status == Unhealthy <==> Bad(y))
  }

  lemma TurnScores(s: System, y: Score, beat: Beat, timeout: int)
    requires Scores(s, y, timeout) && Playable(y, beat)
    ensures Scores(Next(s, MoveFor(beat)), Turn(y, beat), timeout)
  {
    match beat {
      case Begins => PruneShrinks(s.providers[0].rateLimiter, -60);
      case Succeeds => StatusExact(s.providers[0], true, 1.0, 0);
      case Fails => StatusExact(s.providers[0], false, 1.0, 0);
    }
  }

  lemma {:induction false} PlayScores(s: System, y: Score, script: Script, timeout: int)
    requires Scores(s, y, timeout) && Play(y, script).Some?
    ensures var t := After(s, MovesOf(script));
            LeadsFrom(s, 0, MovesOf(script), t, 0) && Scores(t, Play(y, script).value, timeout)
    decreases script
  {
    if script.Stop? {
    } else {
      var move := MoveFor(script.beat);
      TurnScores(s, y, script.beat, timeout);
      PlayScores(Next(s, move), Turn(y, script.beat), script.rest, timeout);
      assert ([move] + MovesOf(script.rest))[1..] == MovesOf(script.rest);
    }
  }

  /** Three calls succeed; of three at once two fail and open the breaker. */
  const OPENS := Then(Begins, Then(Succeeds, Then(Begins, Then(Succeeds, Then(Begins, Then(Succeeds, BURST))))))
  const BURST := Then(Begins, Then(Begins, Then(Begins, Then(Fails, Then(Fails, Stop)))))

  ghost function New(timeout: int): System {
    System(map[0 := State(Settings(Limits(60, 60), 2, timeout), true, FRESH, [], None, [])], multiset{})
  }

  /** A query at time at, after which the last call fails. */
  ghost function Queried(script: Script, at: int): seq<Move> {
    MovesOf(script) + ([Look(0, at, at)] + [End(0, Raise(false), 1.0, at)])
  }

  lemma LateFailure(s: System, timeout: int, at: int)
    requires Scores(s, Score(5, 2, 2, 1, true), timeout)
    ensures var t := Next(Next(s, Look(0, at, at)), End(0, Raise(false), 1.0, at));
            0 in t.providers && (t.providers[0].health.status == Unhealthy <==> at <= timeout)
  {
    var looked := Next(s, Look(0, at, at));
    StatusExact(looked.providers[0], false, 1.0, at);
  }

  const NOTHING := Score(0, 0, 0, 0, false)

  lemma QueriedStatus(timeout: int, script: Script, at: int)
    requires Play(NOTHING, script) == Some(Score(5, 2, 2, 1, true)) && at >= 0
    ensures var t := After(New(timeout), Queried(script, at));
            ScheduleFrom(New(timeout), Queried(script, at), 0) && 0 in t.providers &&
            (t.providers[0].health.status == Unhealthy <==> at <= timeout)
  {
    var s := After(New(timeout), MovesOf(script));
    var look := Look(0, at, at);
    var fail := End(0, Raise(false), 1.0, at);
    var t := Next(Next(s, look), fail);
    PlayScores(New(timeout), NOTHING, script, timeout);
    LateFailure(s, timeout, at);
    LeadsFromOne(s, 0, look);
    LeadsFromOne(Next(s, look), at, fail);
    LeadsFromOn(s, 0, [look], Next(s, look), at, [fail], t, at);
    LeadsFromOn(New(timeout), 0, MovesOf(script), s, 0, [look] + [fail], t, at);
    LeadsFromSchedules(New(timeout), 0, Queried(script, at), t, at);
  }

  lemma OpensPlay()
    ensures Play(NOTHING, OPENS) == Some(Score(5, 2, 2, 1, true))
  {
    assert Play(Score(3, 0, 0, 0, false), BURST) == Some(Score(5, 2, 2, 1, true));
  }

  /** A schedule after which the status differs under the two timeouts. */
  ghost predicate ToldApart(short: int, long: int, moves: seq<Move>) {
    && ScheduleFrom(New(short), moves, 0) && ScheduleFrom(New(long), moves, 0)
    && 0 in After(New(short), moves).providers && 0 in After(New(long), moves).providers
    && After(New(short), moves).providers[0].health.status != Unhealthy
    && After(New(long), moves).providers[0].health.status == Unhealthy
  }

  lemma QueriedApart(script: Script, short: int, long: int)
    requires 0 <= short < long && Play(NOTHING, script) == Some(Score(5, 2, 2, 1, true))
    ensures ToldApart(short, long, Queried(script, short + 1))
  {
    QueriedStatus(short, script, short + 1);
    QueriedStatus(long, script, short + 1);
  }

  /**
   With status queries the timeout does show, even without a disabling: any two timeouts are told apart by a query
   between them that resets the breaker, after which a late failure rewrites the status.
   */
  lemma QueryShowsTimeout(short: int, long: int)
    requires 0 <= short < long
    ensures exists moves :: ToldApart(short, long, moves) && forall m | m in moves :: Gentle(m, 0)
  {
    OpensPlay();
    QueriedApart(OPENS, short, long);
    QueriedGentle(OPENS, short + 1);
  }

  lemma {:induction false} MovesGentle(script: Script)
    ensures forall m | m in MovesOf(script) :: Gentle(m, 0)
  {
    if script.Stop? {
    } else {
      MovesGentle(script.rest);
    }
  }

  lemma QueriedGentle(script: Script, at: int)
    ensures forall m | m in Queried(script, at) :: Gentle(m, 0)
  {
    MovesGentle(script);
  }
}
