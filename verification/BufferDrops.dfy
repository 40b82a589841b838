/** Backpressure when calls are interleaved: when an event can be dropped with at most n calls suspended. */
module BufferDrops {
  import opened Prelude
  import opened Events
  import opened QueueDict
  import opened BufferModel
  import opened BufferSteps
  import opened BufferRuns

  // ----- how full the buffers can be -----

  /** The suspended calls whose category is one of the keys. */
  ghost function InFlightOf(suspended: seq<Event>, keys: seq<Key>): (n: nat)
    ensures n <= |suspended|
  {
    if suspended == [] then 0
    else InFlightOf(suspended[..|suspended| - 1], keys) + if KeyOf(suspended[|suspended| - 1]) in keys then 1 else 0
  }

  lemma {:induction false} InFlightOfAppend(suspended: seq<Event>, keys: seq<Key>, k: Key)
    requires k !in keys
    ensures InFlightOf(suspended, keys + [k]) == InFlightOf(suspended, keys) + InFlight(suspended, k)
  {
    if suspended == [] {
    } else {
      InFlightOfAppend(suspended[..|suspended| - 1], keys, k);
    }
  }

  lemma {:induction false} LengthsInFlight(keys: seq<Key>, queues: map<Key, seq<Event>>, suspended: seq<Event>, c: nat)
    requires NoRepeats(keys)
    requires forall k | k in queues :: |queues[k]| <= c + InFlight(suspended, k)
    ensures Lengths(keys, queues) <= c * |keys| + InFlightOf(suspended, keys)
  {
    if keys == [] {
    } else {
      var front, last := keys[..|keys| - 1], keys[|keys| - 1];
      LengthsInFlight(front, queues, suspended, c);
      InFlightOfAppend(suspended, front, last);
      assert front + [last] == keys;
      assert c * |keys| == c * |front| + c;
    }
  }

  lemma QueueBounded(cfg: Config, steps: seq<Step>, k: Key)
    requires cfg.batchSize >= 1 && k in RunSteps(cfg, steps).state.dict.queues
    ensures var y := RunSteps(cfg, steps);
            |y.state.dict.queues[k]| <= cfg.batchSize - 1 + InFlight(y.suspended, k)
  {
    StepsBounded(cfg, steps, k);
    var s := RunSteps(cfg, steps).state;
    assert s.Buffer(k) == s.dict.queues[k];
  }

  lemma QueuesBounded(cfg: Config, steps: seq<Step>)
    requires cfg.batchSize >= 1
    ensures var y := RunSteps(cfg, steps);
            && NoRepeats(y.state.dict.keys)
            && forall k | k in y.state.dict.queues ::
                 |y.state.dict.queues[k]| <= cfg.batchSize - 1 + InFlight(y.suspended, k)
  {
    StepsCounted(cfg, steps);
    forall k | k in RunSteps(cfg, steps).state.dict.queues
      ensures |RunSteps(cfg, steps).state.dict.queues[k]| <=
              cfg.batchSize - 1 + InFlight(RunSteps(cfg, steps).suspended, k)
    {
      QueueBounded(cfg, steps, k);
    }
  }

  /** Over every interleaving each suspended call adds at most one event to what the buffers hold in sequential use. */
  lemma {:induction false} StepsTotalBounded(cfg: Config, steps: seq<Step>)
    requires cfg.batchSize >= 1
    ensures var y := RunSteps(cfg, steps);
            Total(y.state.dict) <= (cfg.batchSize - 1) * |y.state.dict.keys| + |y.suspended|
  {
    var y := RunSteps(cfg, steps);
    QueuesBounded(cfg, steps);
    LengthsInFlight(y.state.dict.keys, y.state.dict.queues, y.suspended, cfg.batchSize - 1);
  }

  /** The same configuration with room for n suspended calls. */
  function Grown(cfg: Config, n: nat): Config {
    cfg.(batchSize := cfg.batchSize + n)
  }

  lemma UtilizationWith(cfg: Config, total: nat, keys: nat, n: nat)
    requires cfg.batchSize >= 1 && cfg.maxBufferSize > 0
    requires total <= (cfg.batchSize - 1) * keys + n && (keys == 0 ==> total == 0)
    ensures 0.0 <= UtilizationOf(cfg, total, keys) <= PeakUtilization(Grown(cfg, n))
  {
    if keys > 0 {
      assert (cfg.batchSize - 1 + n) * keys == (cfg.batchSize - 1) * keys + n * keys;
      assert n <= n * keys;
      RatioBound(total, keys, cfg.batchSize - 1 + n, cfg.maxBufferSize);
    }
  }

  // ----- no drops -----

  /** A check on the configuration alone; without the Redis write no call is ever suspended. */
  predicate SafeWith(cfg: Config, severity: Severity, n: nat) {
    SafeFor(cfg, severity) && (cfg.persistsToRedis ==> SafeFor(Grown(cfg, n), severity))
  }

  /** The same for all events. */
  predicate DropFreeWith(cfg: Config, n: nat) {
    SafeWith(cfg, Low, n)
  }

  lemma {:induction false} NoDropWith(cfg: Config, n: nat, steps: seq<Step>, e: Event)
    requires SafeWith(cfg, e.severity, n) && |RunSteps(cfg, steps).suspended| <= n
    ensures !ShouldDrop(cfg, RunSteps(cfg, steps).state, e)
  {
    var y := RunSteps(cfg, steps);
    var d := y.state.dict;
    var room := if cfg.persistsToRedis then n else 0;
    if !cfg.persistsToRedis {
      NothingSuspends(cfg, steps);
    }
    if e.severity == Critical {
    } else {
      if cfg.maxBufferSize > 0 {
        StepsTotalBounded(cfg, steps);
        UtilizationWith(cfg, Total(d), |d.keys|, room);
      } else {
        NoCapacity(cfg, Total(d), |d.keys|);
      }
      BelowPeakNotDropped(Grown(cfg, room), e.severity, UtilizationOf(cfg, Total(d), |d.keys|));
    }
  }

  /** Interleaving alone causes no drops: with a configuration safe for its severity only suspended calls can. */
  lemma {:induction false} DropsNeedSuspension(cfg: Config, steps: seq<Step>, e: Event)
    requires SafeFor(cfg, e.severity) && RunSteps(cfg, steps).suspended == []
    ensures !ShouldDrop(cfg, RunSteps(cfg, steps).state, e)
  {
    NoDropWith(cfg, 0, steps, e);
  }

  /** A critical event is never dropped, whatever is interleaved. */
  lemma CriticalKept(cfg: Config, steps: seq<Step>, e: Event)
    requires e.severity == Critical
    ensures RunSteps(cfg, steps + [Arrive(e)]).state.accepted == RunSteps(cfg, steps).state.accepted + [e]
    ensures RunSteps(cfg, steps + [Arrive(e)]).state.droppedEvents == RunSteps(cfg, steps).state.droppedEvents
  {
    RunOne(cfg, steps, Arrive(e));
    CompleteCountsOne(cfg, Push(RunSteps(cfg, steps).state, e), e);
  }

  // ----- a drop -----

  lemma RunOne(cfg: Config, steps: seq<Step>, step: Step)
    ensures RunSteps(cfg, steps + [step]) == Next(cfg, RunSteps(cfg, steps), step)
  {
    assert (steps + [step])[..|steps|] == steps;
  }

  /** One category holds n copies of an event, and m calls are suspended. */
  ghost predicate Holds(y: System, e: Event, n: nat, m: nat) {
    y.state.dict == Filled(e, n) && |y.suspended| == m
  }

  lemma CallFills(cfg: Config, y: System, e: Event, n: nat)
    requires Suspends(cfg, e.severity) && e.severity != Critical && n + 1 < cfg.batchSize
    requires Holds(y, e, n, 0) && !ShouldDrop(cfg, y.state, e)
    ensures Holds(Next(cfg, Next(cfg, y, Arrive(e)), Resume(0)), e, n + 1, 0)
  {
    HalvesMakeACall(cfg, y, e);
    FillStep(cfg, y.state, e, n);
  }

  lemma ArrivalFills(cfg: Config, y: System, e: Event, n: nat, m: nat)
    requires Suspends(cfg, e.severity) && Holds(y, e, n, m) && !ShouldDrop(cfg, y.state, e)
    ensures Holds(Next(cfg, y, Arrive(e)), e, n + 1, m + 1)
  {
    PushFilled(y.state, e, n);
  }

  /** Calls for a high event one after another fill its category up to the batch size less one. */
  lemma {:induction false} CallsFill(cfg: Config, e: Event, n: nat) returns (steps: seq<Step>)
    requires Suspends(cfg, e.severity) && e.severity != Critical && SafeFor(cfg, e.severity) && n < cfg.batchSize
    ensures Holds(RunSteps(cfg, steps), e, n, 0)
  {
    if n == 0 {
      steps := [];
    } else {
      var before := CallsFill(cfg, e, n - 1);
      DropsNeedSuspension(cfg, before, e);
      CallFills(cfg, RunSteps(cfg, before), e, n - 1);
      RunOne(cfg, before, Arrive(e));
      RunOne(cfg, before + [Arrive(e)], Resume(0));
      steps := (before + [Arrive(e)]) + [Resume(0)];
    }
  }

  /** Some interleaving with at most n suspended calls in which the next event of the severity is dropped. */
  ghost predicate DropsWith(cfg: Config, severity: Severity, n: nat) {
    exists steps, e: Event ::
      e.severity == severity && |RunSteps(cfg, steps).suspended| <= n && ShouldDrop(cfg, RunSteps(cfg, steps).state, e)
  }

  lemma FullBurstDrops(cfg: Config, s: State, e: Event, severity: Severity, n: nat)
    requires SafeFor(cfg, severity) && !SafeFor(Grown(cfg, n), severity)
    requires cfg.batchSize >= 1 && s.dict == Filled(e, cfg.batchSize - 1 + n)
    ensures ShouldDrop(cfg, s, Sample(severity))
  {
    FilledTotal(e, cfg.batchSize - 1 + n);
    assert n > 0 && |s.dict.keys| == 1;
    assert UtilizationOf(cfg, cfg.batchSize - 1 + n, 1) == PeakUtilization(Grown(cfg, n));
  }

  lemma DropsNow(cfg: Config, severity: Severity, n: nat, steps: seq<Step>, e: Event)
    requires e.severity == severity && |RunSteps(cfg, steps).suspended| <= n
    requires ShouldDrop(cfg, RunSteps(cfg, steps).state, e)
    ensures DropsWith(cfg, severity, n)
  {
  }

  lemma OneMoreArrives(cfg: Config, steps: seq<Step>, e: Event, n: nat, m: nat)
    requires Suspends(cfg, e.severity) && Holds(RunSteps(cfg, steps), e, n, m)
    requires !ShouldDrop(cfg, RunSteps(cfg, steps).state, e)
    ensures Holds(RunSteps(cfg, steps + [Arrive(e)]), e, n + 1, m + 1)
  {
    RunOne(cfg, steps, Arrive(e));
    ArrivalFills(cfg, RunSteps(cfg, steps), e, n, m);
  }

  /** From then on calls arrive at once, until one of them is dropped or n are suspended. */
  lemma {:induction false} BurstDrops(cfg: Config, e: Event, severity: Severity, n: nat, steps: seq<Step>, k: nat)
    requires e.severity == High && Suspends(cfg, e.severity) && cfg.batchSize >= 1
    requires SafeFor(cfg, severity) && !SafeFor(Grown(cfg, n), severity) && k <= n
    requires Holds(RunSteps(cfg, steps), e, cfg.batchSize - 1 + k, k)
    ensures DropsWith(cfg, severity, n)
    decreases n - k
  {
    if ShouldDrop(cfg, RunSteps(cfg, steps).state, e) {
      AllDropped(cfg, RunSteps(cfg, steps).state, e, severity);
      DropsNow(cfg, severity, n, steps, Sample(severity));
    } else if k < n {
      OneMoreArrives(cfg, steps, e, cfg.batchSize - 1 + k, k);
      BurstDrops(cfg, e, severity, n, steps + [Arrive(e)], k + 1);
    } else {
      FullBurstDrops(cfg, RunSteps(cfg, steps).state, e, severity, n);
      DropsNow(cfg, severity, n, steps, Sample(severity));
    }
  }

  ghost function Arrivals(n: nat): seq<Step> {
    seq(n, _ => Arrive(FILLER))
  }

  lemma {:induction false} ArrivalsAreAdds(cfg: Config, n: nat)
    ensures RunSteps(cfg, Arrivals(n)) == System(BufferRuns.Run(cfg, Fill(n)), [])
  {
    if n == 0 {
    } else {
      ArrivalsAreAdds(cfg, n - 1);
      assert Arrivals(n)[..n - 1] == Arrivals(n - 1) && Fill(n)[..n - 1] == Fill(n - 1);
    }
  }

  lemma SomeStepsDrop(cfg: Config, severity: Severity, n: nat)
    requires !SafeWith(cfg, severity, n)
    ensures DropsWith(cfg, severity, n)
  {
    if !SafeFor(cfg, severity) {
      DropWitness(cfg, severity);
      var i :| ShouldDrop(cfg, BufferRuns.Run(cfg, Fill(i)), Sample(severity));
      ArrivalsAreAdds(cfg, i);
      DropsNow(cfg, severity, n, Arrivals(i), Sample(severity));
    } else {
      var e := Sample(High);
      var steps := CallsFill(cfg, e, cfg.batchSize - 1);
      BurstDrops(cfg, e, severity, n, steps, 0);
    }
  }

  /**
   For each severity, over every interleaving: an event of it can be dropped with at most n calls suspended exactly when
   the configuration fails the check for n.
   */
  lemma InterleavedSeverityExactly(cfg: Config, severity: Severity, n: nat)
    ensures SafeWith(cfg, severity, n) <==> !DropsWith(cfg, severity, n)
  {
    if SafeWith(cfg, severity, n) {
      forall steps, e: Event | e.severity == severity && |RunSteps(cfg, steps).suspended| <= n
        ensures !ShouldDrop(cfg, RunSteps(cfg, steps).state, e)
      {
        NoDropWith(cfg, n, steps, e);
      }
    } else {
      SomeStepsDrop(cfg, severity, n);
    }
  }

  /** And any event at all exactly when it fails the check for low ones. */
  lemma InterleavedDropsExactly(cfg: Config, n: nat)
    ensures DropFreeWith(cfg, n) <==> forall severity :: !DropsWith(cfg, severity, n)
  {
    forall severity ensures DropFreeWith(cfg, n) ==> !DropsWith(cfg, severity, n) {
      InterleavedSeverityExactly(cfg, severity, n);
    }
    InterleavedSeverityExactly(cfg, Low, n);
  }
}
