/** Runs in which every call completes before the next one starts. */
module BufferRuns {
  import opened Events
  import opened QueueDict
  import opened BufferModel
  import opened BufferHistory

  datatype Op = Add(event: Event) | ForceFlush(key: Key) | FlushEverything | ClearEverything | Recount

  ghost function Apply(cfg: Config, s: State, op: Op): State {
    match op
    case Add(e) => AddEvent(cfg, s, e)
    case ForceFlush(k) => FlushBuffer(cfg, s, k)
    case FlushEverything => FlushAll(cfg, s)
    case ClearEverything => Clear(s)
    case Recount => Resync(s)
  }

  ghost function Run(cfg: Config, ops: seq<Op>): State {
    if ops == [] then INITIAL else Apply(cfg, Run(cfg, ops[..|ops| - 1]), ops[|ops| - 1])
  }

  // ----- bounds -----

  /** Between calls a buffer is below the batch size, and empty if its category is critical. */
  ghost predicate BoundedAt(cfg: Config, s: State, k: Key) {
    SoundAt(s, k) && |s.Buffer(k)| < cfg.batchSize && (k.severity == Critical ==> s.Buffer(k) == [])
  }

  ghost predicate Balanced(s: State) {
    Valid(s.dict) && s.bufferedEvents == Total(s.dict)
  }

  lemma AddBounded(cfg: Config, s: State, e: Event, k: Key)
    requires cfg.batchSize >= 1 && BoundedAt(cfg, s, k)
    ensures BoundedAt(cfg, AddEvent(cfg, s, e), k)
  {
    if !ShouldDrop(cfg, s, e) {
      var t := Count(Push(s, e));
      PushAt(s, e, k);
      assert SoundAt(t, k) && t.Buffer(k) == Push(s, e).Buffer(k);
      FlushBufferAt(cfg, t, KeyOf(e), k);
      if k == KeyOf(e) {
        assert e in t.Buffer(k);
      }
    }
  }

  lemma AddBalanced(cfg: Config, s: State, e: Event)
    requires Balanced(s)
    ensures Balanced(AddEvent(cfg, s, e))
  {
    if !ShouldDrop(cfg, s, e) {
      var p := Push(s, e);
      PushTotal(s, e);
      CompleteTotal(cfg, p, e);
      assert p.bufferedEvents == s.bufferedEvents;
    }
  }

  /** With buffers below the batch size, one flush empties its buffer and leaves the others alone. */
  lemma FlushBounded(cfg: Config, s: State, j: Key, k: Key)
    requires BoundedAt(cfg, s, k)
    ensures BoundedAt(cfg, FlushBuffer(cfg, s, j), k)
    ensures FlushBuffer(cfg, s, j).Buffer(k) == if j == k then [] else s.Buffer(k)
  {
    FlushBufferAt(cfg, s, j, k);
  }

  lemma {:induction false} FlushKeysBounded(cfg: Config, s: State, ks: seq<Key>, k: Key)
    requires BoundedAt(cfg, s, k)
    ensures BoundedAt(cfg, FlushKeys(cfg, s, ks), k)
    ensures FlushKeys(cfg, s, ks).Buffer(k) == if k in ks then [] else s.Buffer(k)
  {
    if ks == [] {
    } else {
      var front, last := ks[..|ks| - 1], ks[|ks| - 1];
      FlushKeysBounded(cfg, s, front, k);
      FlushBounded(cfg, FlushKeys(cfg, s, front), last, k);
      assert k in ks <==> k in front || k == last;
    }
  }

  lemma {:induction false} FlushKeysBalanced(cfg: Config, s: State, ks: seq<Key>, l: Level)
    requires Balanced(s)
    ensures Balanced(FlushKeys(cfg, s, ks))
    ensures FlushKeys(cfg, s, ks).Queue(l) == s.Queue(l)
  {
    if ks == [] {
    } else {
      var front, last := ks[..|ks| - 1], ks[|ks| - 1];
      FlushKeysBalanced(cfg, s, front, l);
      FlushBufferTotal(cfg, FlushKeys(cfg, s, front), last);
      FlushBufferRest(cfg, FlushKeys(cfg, s, front), last, l);
    }
  }

  lemma FlushQueuesAt(cfg: Config, s: State, l: Level)
    ensures var t := FlushQueues(cfg, s);
            && t.Queue(l) == Left(cfg, s.Queue(l))
            && t.dict == s.dict && t.sizes == s.sizes && t.bufferedEvents == s.bufferedEvents
  {
    var t1 := FlushQueue(cfg, s, HighLevel);
    var t2 := FlushQueue(cfg, t1, MediumLevel);
    FlushQueueAt(cfg, s, HighLevel, l);
    FlushQueueAt(cfg, t1, MediumLevel, l);
    FlushQueueAt(cfg, t2, LowLevel, l);
  }

  /** One flush of everything empties every category buffer and takes one batch off each priority queue. */
  lemma FlushAllEmpties(cfg: Config, s: State, k: Key, l: Level)
    requires BoundedAt(cfg, s, k) && Balanced(s)
    ensures BoundedAt(cfg, FlushAll(cfg, s), k) && Balanced(FlushAll(cfg, s))
    ensures FlushAll(cfg, s).Buffer(k) == []
    ensures FlushAll(cfg, s).Queue(l) == if |s.Queue(l)| <= cfg.batchSize then [] else s.Queue(l)[cfg.batchSize..]
  {
    var t := FlushKeys(cfg, s, s.dict.keys);
    FlushKeysBounded(cfg, s, s.dict.keys, k);
    FlushKeysBalanced(cfg, s, s.dict.keys, l);
    FlushQueuesAt(cfg, t, l);
  }

  /** In every run each buffer stays below the batch size and keeps no critical event, and the counters are exact. */
  lemma {:induction false} RunBounded(cfg: Config, ops: seq<Op>, k: Key)
    requires cfg.batchSize >= 1
    ensures BoundedAt(cfg, Run(cfg, ops), k) && Balanced(Run(cfg, ops))
  {
    if ops == [] {
    } else {
      var front := ops[..|ops| - 1];
      var s := Run(cfg, front);
      RunBounded(cfg, front, k);
      match ops[|ops| - 1] {
        case Add(e) => AddBounded(cfg, s, e, k); AddBalanced(cfg, s, e);
        case ForceFlush(j) => FlushBounded(cfg, s, j, k); FlushBufferTotal(cfg, s, j);
        case FlushEverything => FlushAllEmpties(cfg, s, k, HighLevel);
        case ClearEverything => ClearAt(s, k); ClearTotal(s);
        case Recount =>
      }
    }
  }

  /** After an add the event's category holds what it held and the event, unless it is full or holds a critical one. */
  lemma AddLeaves(cfg: Config, s: State, e: Event, k: Key)
    requires !ShouldDrop(cfg, s, e) && SoundAt(s, k)
    ensures var b := s.Buffer(k) + [e];
            AddEvent(cfg, s, e).Buffer(k) ==
            if k != Key(e.source, e.eventType, e.severity) then s.Buffer(k)
            else if cfg.batchSize >= 1 && (e.severity == Critical || |b| >= cfg.batchSize)
            then (if |b| <= cfg.batchSize then [] else b[cfg.batchSize..])
            else b
  {
    var t := Count(Push(s, e));
    PushAt(s, e, k);
    assert SoundAt(t, k) && t.Buffer(k) == Push(s, e).Buffer(k);
    FlushBufferAt(cfg, t, KeyOf(e), k);
    if k == KeyOf(e) {
      assert e in t.Buffer(k);
      DueThenLeft(cfg, t.Buffer(k));
    }
  }

  /** The batches of a flush of the priority queues: at most one of each, high before medium before low. */
  lemma FlushQueuesLog(cfg: Config, s: State)
    ensures FlushQueues(cfg, s).log == ((s.log + QueueBatch(cfg, s, HighLevel)) + QueueBatch(cfg, s, MediumLevel)) +
                                       QueueBatch(cfg, s, LowLevel)
  {
    var t1 := FlushQueue(cfg, s, HighLevel);
    var t2 := FlushQueue(cfg, t1, MediumLevel);
    FlushQueueAt(cfg, s, HighLevel, MediumLevel);
    FlushQueueAt(cfg, s, HighLevel, LowLevel);
    FlushQueueAt(cfg, t1, MediumLevel, LowLevel);
    FlushQueueAt(cfg, t2, LowLevel, LowLevel);
  }

  ghost function QueueBatch(cfg: Config, s: State, l: Level): seq<Batch> {
    if Due(cfg, s.Queue(l)) == [] then [] else [Dispatch(cfg, Priority(l), Due(cfg, s.Queue(l)))]
  }

  // ----- what the dropped counter counts -----

  ghost function Adds(ops: seq<Op>): nat {
    if ops == [] then 0 else Adds(ops[..|ops| - 1]) + if ops[|ops| - 1].Add? then 1 else 0
  }

  /** What the clears of a run took, from both views. */
  ghost function Cleared(cfg: Config, ops: seq<Op>): int {
    if ops == [] then 0
    else
      var front := ops[..|ops| - 1];
      var s := Run(cfg, front);
      Cleared(cfg, front) +
      if ops[|ops| - 1] == ClearEverything then Total(s.dict) + |s.high| + |s.medium| + |s.low| else 0
  }

  lemma {:induction false} FlushKeysCounts(cfg: Config, s: State, ks: seq<Key>)
    ensures FlushKeys(cfg, s, ks).droppedEvents == s.droppedEvents && FlushKeys(cfg, s, ks).accepted == s.accepted
  {
    if ks == [] {
    } else {
      FlushKeysCounts(cfg, s, ks[..|ks| - 1]);
    }
  }

  lemma AddDropped(cfg: Config, s: State, e: Event)
    ensures var t := AddEvent(cfg, s, e); t.droppedEvents + |t.accepted| == s.droppedEvents + |s.accepted| + 1
  {
  }

  lemma FlushAllDropped(cfg: Config, s: State)
    ensures FlushAll(cfg, s).droppedEvents == s.droppedEvents && FlushAll(cfg, s).accepted == s.accepted
  {
    FlushKeysCounts(cfg, s, s.dict.keys);
  }

  lemma ApplyDropped(cfg: Config, s: State, op: Op)
    ensures var t := Apply(cfg, s, op);
            t.droppedEvents + |t.accepted| ==
            s.droppedEvents + |s.accepted| + (if op.Add? then 1 else 0) +
            (if op == ClearEverything then Total(s.dict) + |s.high| + |s.medium| + |s.low| else 0)
  {
    match op {
      case Add(e) => AddDropped(cfg, s, e);
      case ForceFlush(_) =>
      case FlushEverything => FlushAllDropped(cfg, s);
      case ClearEverything => ClearQueues(s, HighLevel);
      case Recount =>
    }
  }

  /** In every run the dropped counter is the number of events refused plus what the clears took. */
  lemma {:induction false} RunDropped(cfg: Config, ops: seq<Op>)
    ensures Run(cfg, ops).droppedEvents == Adds(ops) - |Run(cfg, ops).accepted| + Cleared(cfg, ops)
  {
    if ops == [] {
    } else {
      RunDropped(cfg, ops[..|ops| - 1]);
      ApplyDropped(cfg, Run(cfg, ops[..|ops| - 1]), ops[|ops| - 1]);
    }
  }

  // ----- conservation -----

  lemma {:induction false} FlushKeysAccounted(cfg: Config, s: State, ks: seq<Key>, k: Key, l: Level)
    requires Accounted(cfg, s, k, l)
    ensures Accounted(cfg, FlushKeys(cfg, s, ks), k, l)
  {
    if ks == [] {
    } else {
      FlushKeysAccounted(cfg, s, ks[..|ks| - 1], k, l);
      FlushBufferAccounted(cfg, FlushKeys(cfg, s, ks[..|ks| - 1]), ks[|ks| - 1], k, l);
    }
  }

  lemma ApplyAccounted(cfg: Config, s: State, op: Op, k: Key, l: Level)
    requires op != ClearEverything && Accounted(cfg, s, k, l)
    ensures Accounted(cfg, Apply(cfg, s, op), k, l)
  {
    match op {
      case Add(e) =>
        if !ShouldDrop(cfg, s, e) {
          PushAccounted(cfg, s, e, k, l);
          CompleteAccounted(cfg, Push(s, e), e, k, l);
        }
      case ForceFlush(j) => FlushBufferAccounted(cfg, s, j, k, l);
      case FlushEverything =>
        var t := FlushKeys(cfg, s, s.dict.keys);
        var t1 := FlushQueue(cfg, t, HighLevel);
        FlushKeysAccounted(cfg, s, s.dict.keys, k, l);
        FlushQueueAccounted(cfg, t, HighLevel, k, l);
        FlushQueueAccounted(cfg, t1, MediumLevel, k, l);
        FlushQueueAccounted(cfg, FlushQueue(cfg, t1, MediumLevel), LowLevel, k, l);
      case Recount =>
    }
  }

  /** Without an emergency clear nothing is lost, duplicated or reordered in either view. */
  lemma {:induction false} RunAccounted(cfg: Config, ops: seq<Op>, k: Key, l: Level)
    requires ClearEverything !in ops
    ensures Accounted(cfg, Run(cfg, ops), k, l)
  {
    if ops == [] {
    } else {
      var front, last := ops[..|ops| - 1], ops[|ops| - 1];
      assert ops == front + [last];
      RunAccounted(cfg, front, k, l);
      ApplyAccounted(cfg, Run(cfg, front), last, k, l);
    }
  }

  // ----- backpressure -----

  /** The fullest a category can be between calls, as a utilization. */
  function PeakUtilization(cfg: Config): real
    requires cfg.maxBufferSize > 0
  {
    (cfg.batchSize - 1) as real / cfg.maxBufferSize as real
  }

  /** A check on the configuration alone: no event of this severity is ever dropped. */
  predicate SafeFor(cfg: Config, severity: Severity) {
    if severity == Critical then true
    else if cfg.maxBufferSize <= 0 then cfg.dropThreshold > 0.0
    else
      var peak := PeakUtilization(cfg);
      && cfg.batchSize >= 1 && peak < cfg.dropThreshold
      && (severity == Low ==> peak < cfg.backpressureThreshold || peak <= 0.85)
      && (severity == Info ==> peak < cfg.backpressureThreshold || peak <= 0.9)
  }

  /** The same for all events: low ones are dropped first. */
  predicate DropFree(cfg: Config) {
    SafeFor(cfg, Low)
  }

  lemma DropFreeIsSafe(cfg: Config, severity: Severity)
    requires DropFree(cfg)
    ensures SafeFor(cfg, severity)
  {
  }

  lemma RatioAtLeast(n: nat, c: int, d: real)
    requires c > 0
    ensures n as real / c as real >= d <==> n as real >= d * c as real
    ensures n as real / c as real > d <==> n as real > d * c as real
  {
    var r := n as real / c as real;
    assert n as real == r * c as real;
    assert (r - d) * c as real == n as real - d * c as real;
  }

  /** The thresholds without divisions: n events waiting against a capacity c. */
  ghost predicate Exceeds(cfg: Config, severity: Severity, n: real, c: real) {
    severity != Critical &&
    (n >= cfg.dropThreshold * c ||
     (n >= cfg.backpressureThreshold * c &&
      ((severity == Low && n > 0.85 * c) || (severity == Info && n > 0.9 * c))))
  }

  lemma ThresholdRule(cfg: Config, severity: Severity, n: nat, c: int)
    requires c > 0
    ensures DropsAt(cfg, severity, n as real / c as real) <==> Exceeds(cfg, severity, n as real, c as real)
  {
    RatioAtLeast(n, c, cfg.dropThreshold);
    RatioAtLeast(n, c, cfg.backpressureThreshold);
    RatioAtLeast(n, c, 0.85);
    RatioAtLeast(n, c, 0.9);
  }

  /** Dropping compares the events waiting in all categories with the capacity of all categories. */
  lemma DropRule(cfg: Config, s: State, e: Event)
    requires cfg.maxBufferSize > 0
    ensures var capacity := cfg.maxBufferSize * if |s.dict.keys| == 0 then 1 else |s.dict.keys|;
            ShouldDrop(cfg, s, e) <==> Exceeds(cfg, e.severity, Total(s.dict) as real, capacity as real)
  {
    var c := cfg.maxBufferSize * if |s.dict.keys| == 0 then 1 else |s.dict.keys|;
    ThresholdRule(cfg, e.severity, Total(s.dict), c);
  }

  /** A critical event is never dropped, whatever happened before. */
  lemma CriticalKept(cfg: Config, ops: seq<Op>, e: Event)
    requires e.severity == Critical
    ensures Run(cfg, ops + [Add(e)]).accepted == Run(cfg, ops).accepted + [e]
    ensures Run(cfg, ops + [Add(e)]).droppedEvents == Run(cfg, ops).droppedEvents
  {
    assert (ops + [Add(e)])[..|ops|] == ops;
    FlushBufferRest(cfg, Count(Push(Run(cfg, ops), e)), KeyOf(e), HighLevel);
  }

  lemma RatioBound(total: nat, keys: nat, c: nat, m: int)
    requires total <= c * keys && keys >= 1 && m > 0
    ensures m * keys > 0
    ensures total as real / (m * keys) as real <= c as real / m as real
  {
    var r := c as real / m as real;
    assert r * m as real == c as real;
    assert (m * keys) as real == m as real * keys as real;
    assert (c * keys) as real == c as real * keys as real;
    assert r * (m * keys) as real == (c * keys) as real;
    assert total as real <= r * (m * keys) as real;
  }

  lemma UtilizationBound(cfg: Config, d: Dict<Key, Event>)
    requires cfg.batchSize >= 1 && cfg.maxBufferSize > 0
    requires forall k | k in d.queues :: |d.queues[k]| <= cfg.batchSize - 1
    ensures 0.0 <= UtilizationOf(cfg, Total(d), |d.keys|) <= PeakUtilization(cfg)
  {
    LengthsBound(d.keys, d.queues, cfg.batchSize - 1);
    if |d.keys| > 0 {
      RatioBound(Total(d), |d.keys|, cfg.batchSize - 1, cfg.maxBufferSize);
    }
  }

  lemma UtilizationBelowPeak(cfg: Config, ops: seq<Op>)
    requires cfg.batchSize >= 1 && cfg.maxBufferSize > 0
    ensures var d := Run(cfg, ops).dict; 0.0 <= UtilizationOf(cfg, Total(d), |d.keys|) <= PeakUtilization(cfg)
  {
    var s := Run(cfg, ops);
    forall k | k in s.dict.queues ensures |s.dict.queues[k]| <= cfg.batchSize - 1 {
      RunBounded(cfg, ops, k);
    }
    UtilizationBound(cfg, s.dict);
  }

  const FILLER := Event("", 0, 0, Medium, "")

  /** Some event of a severity. */
  function Sample(severity: Severity): Event {
    Event("", 0, 0, severity, "")
  }

  ghost function Fill(n: nat): seq<Op> {
    seq(n, _ => Add(FILLER))
  }

  ghost function Copies(e: Event, n: nat): (es: seq<Event>)
    ensures |es| == n && forall x | x in es :: x == e
  {
    if n == 0 then [] else Copies(e, n - 1) + [e]
  }

  /** The dictionary in which one category holds n copies of one event. */
  ghost function Filled(e: Event, n: nat): Dict<Key, Event> {
    if n == 0 then Dict([], map[]) else Dict([KeyOf(e)], map[KeyOf(e) := Copies(e, n)])
  }

  lemma PushFilled(s: State, e: Event, n: nat)
    requires s.dict == Filled(e, n)
    ensures Push(s, e).dict == Filled(e, n + 1)
  {
    assert s.Buffer(KeyOf(e)) + [e] == Copies(e, n + 1);
  }

  /** With a batch size below one the immediate flush takes nothing, so filling never ends. */
  lemma FillStep(cfg: Config, s: State, e: Event, n: nat)
    requires e.severity != Critical
    requires cfg.batchSize <= 0 || n + 1 < cfg.batchSize
    requires s.dict == Filled(e, n) && !ShouldDrop(cfg, s, e)
    ensures AddEvent(cfg, s, e).dict == Filled(e, n + 1)
  {
    var k := KeyOf(e);
    var t := Count(Push(s, e));
    PushFilled(s, e, n);
    if cfg.batchSize <= 0 {
      assert t.Buffer(k)[0..] == t.Buffer(k);
      PutSame(t.dict, k);
    } else {
      assert !FlushesNow(cfg, t, k);
    }
  }

  lemma FilledTotal(e: Event, n: nat)
    ensures Total(Filled(e, n)) == n
  {
    var d := Filled(e, n);
    assert n > 0 ==> Lengths(d.keys[..0], d.queues) == 0;
  }

  /** Repeating one medium event fills its category up to the peak unless one is dropped on the way. */
  lemma {:induction false} FillRun(cfg: Config, n: nat)
    requires cfg.batchSize <= 0 || n < cfg.batchSize
    requires forall i: nat | i < n :: !ShouldDrop(cfg, Run(cfg, Fill(i)), FILLER)
    ensures Run(cfg, Fill(n)).dict == Filled(FILLER, n)
  {
    if n == 0 {
    } else {
      FillRun(cfg, n - 1);
      assert Fill(n)[..|Fill(n)| - 1] == Fill(n - 1) && Fill(n)[|Fill(n)| - 1] == Add(FILLER);
      FillStep(cfg, Run(cfg, Fill(n - 1)), FILLER, n - 1);
    }
  }

  /** How many events in one category are too many for a configuration that is not safe. */
  function Excess(cfg: Config): nat {
    if cfg.maxBufferSize <= 0 then 0
    else if cfg.batchSize >= 1 then cfg.batchSize - 1
    else if cfg.dropThreshold <= 0.0 then 0
    else (cfg.dropThreshold * cfg.maxBufferSize as real).Floor + 1
  }

  lemma QuotientAbove(n: real, m: real, d: real)
    requires m > 0.0 && n >= d * m
    ensures n / m >= d
  {
    assert (n / m - d) * m >= 0.0;
  }

  /** The full category is fuller than the configuration tolerates, so the next event of the severity is dropped. */
  lemma FilledDrops(cfg: Config, s: State, severity: Severity)
    requires !SafeFor(cfg, severity)
    requires s.dict == Filled(FILLER, Excess(cfg))
    ensures ShouldDrop(cfg, s, Sample(severity))
  {
    var n := Excess(cfg);
    var m := cfg.maxBufferSize;
    FilledTotal(FILLER, n);
    if m > 0 {
      assert UtilizationOf(cfg, n, |s.dict.keys|) == n as real / m as real;
      if cfg.batchSize <= 0 {
        QuotientAbove(n as real, m as real, cfg.dropThreshold);
      }
    }
  }

  /** Where a medium or high event is dropped, every other event is, too, unless it is critical. */
  lemma AllDropped(cfg: Config, s: State, e: Event, severity: Severity)
    requires (e.severity == Medium || e.severity == High) && ShouldDrop(cfg, s, e) && severity != Critical
    ensures ShouldDrop(cfg, s, Sample(severity))
  {
  }

  lemma NoCapacity(cfg: Config, total: nat, keys: nat)
    requires cfg.maxBufferSize <= 0
    ensures UtilizationOf(cfg, total, keys) == 0.0
  {
    assert cfg.maxBufferSize * keys <= 0;
  }

  /** No event of a severity is dropped at a utilization that a configuration safe for it allows between calls. */
  lemma BelowPeakNotDropped(cfg: Config, severity: Severity, utilization: real)
    requires SafeFor(cfg, severity)
    requires 0.0 <= utilization <= if cfg.maxBufferSize > 0 then PeakUtilization(cfg) else 0.0
    ensures !DropsAt(cfg, severity, utilization)
  {
  }

  lemma SafeNeverDrops(cfg: Config, ops: seq<Op>, e: Event)
    requires SafeFor(cfg, e.severity)
    ensures !ShouldDrop(cfg, Run(cfg, ops), e)
  {
    var d := Run(cfg, ops).dict;
    if e.severity == Critical {
    } else {
      if cfg.maxBufferSize > 0 {
        UtilizationBelowPeak(cfg, ops);
      } else {
        NoCapacity(cfg, Total(d), |d.keys|);
      }
      BelowPeakNotDropped(cfg, e.severity, UtilizationOf(cfg, Total(d), |d.keys|));
    }
  }

  /** For every other configuration, filling one category with medium events leads to a drop. */
  lemma DropWitness(cfg: Config, severity: Severity)
    requires !SafeFor(cfg, severity)
    ensures exists n :: ShouldDrop(cfg, Run(cfg, Fill(n)), Sample(severity))
  {
    var n := Excess(cfg);
    if i: nat :| i < n && ShouldDrop(cfg, Run(cfg, Fill(i)), FILLER) {
      AllDropped(cfg, Run(cfg, Fill(i)), FILLER, severity);
    } else {
      FillRun(cfg, n);
      FilledDrops(cfg, Run(cfg, Fill(n)), severity);
    }
  }

  ghost predicate NeverDropsFor(cfg: Config, severity: Severity) {
    forall ops, e: Event | e.severity == severity :: !ShouldDrop(cfg, Run(cfg, ops), e)
  }

  ghost predicate NeverDrops(cfg: Config) {
    forall ops, e :: !ShouldDrop(cfg, Run(cfg, ops), e)
  }

  /** For each severity: none of its events is dropped in any run exactly when the configuration is safe for it. */
  lemma {:induction false} SeverityDropsExactly(cfg: Config, severity: Severity)
    ensures SafeFor(cfg, severity) <==> NeverDropsFor(cfg, severity)
  {
    if SafeFor(cfg, severity) {
      forall ops, e: Event | e.severity == severity ensures !ShouldDrop(cfg, Run(cfg, ops), e) {
        SafeNeverDrops(cfg, ops, e);
      }
    } else {
      DropWitness(cfg, severity);
    }
  }

  /** Backpressure never fires, in any run and for any event, exactly when the configuration is drop-free. */
  lemma {:induction false} DropsExactly(cfg: Config)
    ensures DropFree(cfg) <==> NeverDrops(cfg)
  {
    if DropFree(cfg) {
      forall ops, e ensures !ShouldDrop(cfg, Run(cfg, ops), e) {
        DropFreeIsSafe(cfg, e.severity);
        SafeNeverDrops(cfg, ops, e);
      }
    } else {
      DropWitness(cfg, Low);
    }
  }

  /** The condition the thresholds are meant for is enough, whatever the exact values. */
  lemma SaneThresholdsNeverDrop(cfg: Config)
    requires 1 <= cfg.batchSize && 0 < cfg.maxBufferSize
    requires cfg.batchSize as real <= cfg.backpressureThreshold * cfg.maxBufferSize as real
    requires cfg.dropThreshold >= cfg.backpressureThreshold
    ensures DropFree(cfg)
  {
    var m := cfg.maxBufferSize as real;
    var peak := PeakUtilization(cfg);
    assert peak * m == (cfg.batchSize - 1) as real;
    assert (cfg.backpressureThreshold - peak) * m > 0.0;
  }
}
