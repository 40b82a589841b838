/**
 The buffer manager as a state machine. A state holds the category buffers (with the insertion order of the
 dictionary), the three priority queues and the counters, plus two histories: the events accepted so far and the
 batches handed to the processors.
 */
module BufferModel {
  import opened Events
  import opened Compression
  import opened QueueDict

  datatype Config = Config(
    maxBufferSize: int,
    batchSize: int,
    compressionEnabled: bool,
    backpressureThreshold: real,
    dropThreshold: real,
    persistsToRedis: bool,
    hash: Event -> int)

  datatype Origin = Category(key: Key) | Priority(level: Level)

  /** A batch popped from an origin, and what the processors were sent for it. */
  datatype Batch = Batch(origin: Origin, events: seq<Event>, sent: seq<Event>)

  datatype State = State(
    dict: Dict<Key, Event>,
    high: seq<Event>,
    medium: seq<Event>,
    low: seq<Event>,
    sizes: map<Key, int>,
    totalEvents: int,
    bufferedEvents: int,
    flushedBatches: int,
    droppedEvents: int,
    accepted: seq<Event>,
    log: seq<Batch>)
  {
    ghost function Buffer(k: Key): seq<Event> {
      Get(dict, k)
    }

    ghost function Size(k: Key): int {
      if k in sizes then sizes[k] else 0
    }

    ghost function Queue(l: Level): seq<Event> {
      match l case HighLevel => high case MediumLevel => medium case LowLevel => low
    }

    ghost function WithQueue(l: Level, q: seq<Event>): State {
      match l
      case HighLevel => this.(high := q)
      case MediumLevel => this.(medium := q)
      case LowLevel => this.(low := q)
    }
  }

  ghost const INITIAL := State(Dict([], map[]), [], [], [], map[], 0, 0, 0, 0, [], [])

  // ----- the operations -----

  /** How many of n buffered events one flush takes. */
  function BatchLength(cfg: Config, n: nat): nat {
    if cfg.batchSize <= 0 then 0 else if n <= cfg.batchSize then n else cfg.batchSize
  }

  ghost function Dispatch(cfg: Config, origin: Origin, events: seq<Event>): Batch {
    Batch(origin, events, if cfg.compressionEnabled then Compress(cfg.hash, events) else events)
  }

  function UtilizationOf(cfg: Config, total: nat, buffers: nat): real {
    var capacity := if buffers == 0 then cfg.maxBufferSize else cfg.maxBufferSize * buffers;
    if capacity > 0 then total as real / capacity as real else 0.0
  }

  predicate DropsAt(cfg: Config, severity: Severity, utilization: real) {
    severity != Critical &&
    (utilization >= cfg.dropThreshold ||
     (utilization >= cfg.backpressureThreshold &&
      ((severity == Low && utilization > 0.85) || (severity == Info && utilization > 0.9))))
  }

  ghost predicate ShouldDrop(cfg: Config, s: State, e: Event) {
    DropsAt(cfg, e.severity, UtilizationOf(cfg, Total(s.dict), |s.dict.keys|))
  }

  /** The first half of adding an event: both views receive it. */
  ghost function Push(s: State, e: Event): State {
    var k := KeyOf(e);
    var l := LevelOf(e.severity);
    s.WithQueue(l, s.Queue(l) + [e])
     .(dict := Put(s.dict, k, s.Buffer(k) + [e]),
       sizes := s.sizes[k := s.Size(k) + 1],
       accepted := s.accepted + [e])
  }

  ghost predicate FlushesNow(cfg: Config, s: State, k: Key) {
    |s.Buffer(k)| >= cfg.batchSize || exists e :: e in s.Buffer(k) && e.severity == Critical
  }

  /** Both counters go up by one. */
  ghost function Count(s: State): State {
    s.(totalEvents := s.totalEvents + 1, bufferedEvents := s.bufferedEvents + 1)
  }

  ghost function FlushIfDue(cfg: Config, s: State, k: Key): State {
    if FlushesNow(cfg, s, k) then FlushBuffer(cfg, s, k) else s
  }

  /** The second half, after a critical event has been persisted: counters and the immediate flush. */
  ghost function Complete(cfg: Config, s: State, e: Event): State {
    FlushIfDue(cfg, Count(s), KeyOf(e))
  }

  ghost function Drop(s: State): State {
    s.(droppedEvents := s.droppedEvents + 1)
  }

  ghost function AddEvent(cfg: Config, s: State, e: Event): State {
    if ShouldDrop(cfg, s, e) then Drop(s) else Complete(cfg, Push(s, e), e)
  }

  /** Even a flush that takes nothing leaves the key in the default dictionary. */
  ghost function FlushBuffer(cfg: Config, s: State, k: Key): State {
    var q := s.Buffer(k);
    var n := BatchLength(cfg, |q|);
    var t := s.(dict := Put(s.dict, k, q[n..]));
    if n == 0 then t
    else
      t.(sizes := s.sizes[k := s.Size(k) - n],
         bufferedEvents := s.bufferedEvents - n,
         flushedBatches := s.flushedBatches + 1,
         log := s.log + [Dispatch(cfg, Category(k), q[..n])])
  }

  ghost function FlushQueue(cfg: Config, s: State, l: Level): State {
    var n := BatchLength(cfg, |s.Queue(l)|);
    if n == 0 then s
    else s.WithQueue(l, s.Queue(l)[n..]).(log := s.log + [Dispatch(cfg, Priority(l), s.Queue(l)[..n])])
  }

  ghost function FlushKeys(cfg: Config, s: State, ks: seq<Key>): State {
    if ks == [] then s else FlushBuffer(cfg, FlushKeys(cfg, s, ks[..|ks| - 1]), ks[|ks| - 1])
  }

  ghost function FlushQueues(cfg: Config, s: State): State {
    FlushQueue(cfg, FlushQueue(cfg, FlushQueue(cfg, s, HighLevel), MediumLevel), LowLevel)
  }

  ghost function FlushAll(cfg: Config, s: State): State {
    FlushQueues(cfg, FlushKeys(cfg, s, s.dict.keys))
  }

  ghost function Clear(s: State): State {
    s.(dict := Dict(s.dict.keys, map k | k in s.dict.queues :: []),
       sizes := s.sizes + map k | k in s.dict.queues :: 0,
       high := [], medium := [], low := [],
       bufferedEvents := 0,
       droppedEvents := s.droppedEvents + Total(s.dict) + |s.high| + |s.medium| + |s.low|)
  }

  /** The statistics task overwrites one counter with a recount. */
  ghost function Resync(s: State): State {
    s.(bufferedEvents := Total(s.dict))
  }

  // ----- what holds of every state, whatever the interleaving -----

  /** A buffer holds events of its own category only, and its size counter is exact. */
  ghost predicate SoundAt(s: State, k: Key) {
    s.Size(k) == |s.Buffer(k)| && forall e | e in s.Buffer(k) :: KeyOf(e) == k
  }

  lemma PushAt(s: State, e: Event, k: Key)
    ensures Push(s, e).Buffer(k) == if k == KeyOf(e) then s.Buffer(k) + [e] else s.Buffer(k)
    ensures SoundAt(s, k) ==> SoundAt(Push(s, e), k)
    ensures k == KeyOf(e) <==> k.source == e.source && k.eventType == e.eventType && k.severity == e.severity
  {
    GetPut(s.dict, KeyOf(e), s.Buffer(KeyOf(e)) + [e], k);
  }

  lemma PushQueue(s: State, e: Event, l: Level)
    ensures Push(s, e).Queue(l) == if l == LevelOf(e.severity) then s.Queue(l) + [e] else s.Queue(l)
    ensures Push(s, e).high == s.high + if e.severity == Critical || e.severity == High then [e] else []
    ensures Push(s, e).medium == s.medium + if e.severity == Medium then [e] else []
    ensures Push(s, e).low == s.low + if e.severity == Low || e.severity == Info then [e] else []
  {
  }

  lemma PushTotal(s: State, e: Event)
    requires Valid(s.dict)
    ensures Valid(Push(s, e).dict) && Total(Push(s, e).dict) == Total(s.dict) + 1
  {
    TotalPut(s.dict, KeyOf(e), s.Buffer(KeyOf(e)) + [e]);
  }

  /** What one flush takes from a buffer. */
  ghost function Due(cfg: Config, q: seq<Event>): seq<Event> {
    q[..BatchLength(cfg, |q|)]
  }

  ghost function Left(cfg: Config, q: seq<Event>): seq<Event> {
    q[BatchLength(cfg, |q|)..]
  }

  /** A flush takes the oldest events up to the batch size, and nothing if that is below one. */
  lemma DueThenLeft(cfg: Config, q: seq<Event>)
    ensures Due(cfg, q) + Left(cfg, q) == q
    ensures cfg.batchSize <= 0 ==> Due(cfg, q) == []
    ensures cfg.batchSize >= 1 ==> |Due(cfg, q)| == if |q| <= cfg.batchSize then |q| else cfg.batchSize
  {
  }

  /** One flush takes a prefix of one buffer and hands over exactly that prefix. */
  lemma FlushBufferAt(cfg: Config, s: State, j: Key, k: Key)
    ensures FlushBuffer(cfg, s, j).Buffer(k) == if j == k then Left(cfg, s.Buffer(k)) else s.Buffer(k)
    ensures SoundAt(s, k) ==> SoundAt(FlushBuffer(cfg, s, j), k)
  {
    GetPut(s.dict, j, Left(cfg, s.Buffer(j)), k);
  }

  lemma FlushBufferRest(cfg: Config, s: State, k: Key, l: Level)
    ensures var t := FlushBuffer(cfg, s, k);
            && t.Queue(l) == s.Queue(l)
            && t.accepted == s.accepted
            && t.log == if Due(cfg, s.Buffer(k)) == [] then s.log
                        else s.log + [Dispatch(cfg, Category(k), Due(cfg, s.Buffer(k)))]
  {
  }

  lemma FlushQueueAt(cfg: Config, s: State, m: Level, l: Level)
    ensures var t := FlushQueue(cfg, s, m);
            && t.Queue(l) == (if l == m then Left(cfg, s.Queue(l)) else s.Queue(l))
            && t.dict == s.dict && t.sizes == s.sizes && t.bufferedEvents == s.bufferedEvents
            && t.accepted == s.accepted
            && t.log == if Due(cfg, s.Queue(m)) == [] then s.log
                        else s.log + [Dispatch(cfg, Priority(m), Due(cfg, s.Queue(m)))]
  {
  }

  /** A flush keeps the event counter in step with the buffers. */
  lemma FlushBufferTotal(cfg: Config, s: State, k: Key)
    requires Valid(s.dict)
    ensures var t := FlushBuffer(cfg, s, k);
            Valid(t.dict) && Total(t.dict) - t.bufferedEvents == Total(s.dict) - s.bufferedEvents
  {
    TotalPut(s.dict, k, Left(cfg, s.Buffer(k)));
  }

  /** Completing an event counts it and may flush. */
  lemma CompleteTotal(cfg: Config, s: State, e: Event)
    requires Valid(s.dict)
    ensures var t := Complete(cfg, s, e);
            Valid(t.dict) && Total(t.dict) - t.bufferedEvents == Total(s.dict) - s.bufferedEvents - 1
  {
    FlushBufferTotal(cfg, Count(s), KeyOf(e));
  }

  lemma ClearAt(s: State, k: Key)
    ensures Clear(s).Buffer(k) == []
    ensures SoundAt(s, k) ==> SoundAt(Clear(s), k)
  {
  }

  /** Clearing empties the priority queues, too, and counts what it takes from both views as dropped. */
  lemma ClearQueues(s: State, l: Level)
    ensures Clear(s).Queue(l) == []
    ensures Clear(s).droppedEvents == s.droppedEvents + Total(s.dict) + |s.high| + |s.medium| + |s.low|
    ensures Clear(s).bufferedEvents == 0 && Clear(s).accepted == s.accepted && Clear(s).log == s.log
  {
  }

  lemma ClearTotal(s: State)
    requires Valid(s.dict)
    ensures Valid(Clear(s).dict) && Total(Clear(s).dict) == 0
  {
    LengthsBound(s.dict.keys, Clear(s).dict.queues, 0);
  }
}
