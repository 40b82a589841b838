/** What the two histories of a buffer state say about each other: conservation, order and batch sizes. */
module BufferHistory {
  import opened Events
  import opened Compression
  import opened BufferModel

  /** The accepted events of one category, in order. */
  ghost function OfKey(events: seq<Event>, k: Key): seq<Event> {
    if events == [] then []
    else
      var front, last := events[..|events| - 1], events[|events| - 1];
      OfKey(front, k) + if KeyOf(last) == k then [last] else []
  }

  ghost function OfLevel(events: seq<Event>, l: Level): seq<Event> {
    if events == [] then []
    else
      var front, last := events[..|events| - 1], events[|events| - 1];
      OfLevel(front, l) + if LevelOf(last.severity) == l then [last] else []
  }

  /** The events of all batches popped from one origin, in order. */
  ghost function Popped(log: seq<Batch>, origin: Origin): seq<Event> {
    if log == [] then []
    else
      var front, last := log[..|log| - 1], log[|log| - 1];
      Popped(front, origin) + if last.origin == origin then last.events else []
  }

  ghost function CategoryBatches(log: seq<Batch>): nat {
    if log == [] then 0
    else CategoryBatches(log[..|log| - 1]) + if log[|log| - 1].origin.Category? then 1 else 0
  }

  /** The accepted events of a category are the popped ones followed by the waiting ones. */
  ghost predicate ConservedAt(s: State, k: Key) {
    OfKey(s.accepted, k) == Popped(s.log, Category(k)) + s.Buffer(k)
  }

  ghost predicate QueueConservedAt(s: State, l: Level) {
    OfLevel(s.accepted, l) == Popped(s.log, Priority(l)) + s.Queue(l)
  }

  /** Batches are never empty or oversized, and processors get the batch or its compression. */
  ghost predicate LogSound(cfg: Config, log: seq<Batch>, flushed: int) {
    && (forall b | b in log :: 0 < |b.events| <= cfg.batchSize && b == Dispatch(cfg, b.origin, b.events))
    && flushed == CategoryBatches(log)
  }

  ghost predicate Accounted(cfg: Config, s: State, k: Key, l: Level) {
    ConservedAt(s, k) && QueueConservedAt(s, l) && LogSound(cfg, s.log, s.flushedBatches)
  }

  /** Moving a prefix of the waiting events into the log keeps their order. */
  lemma MoveToLog(all: seq<Event>, log: seq<Batch>, b: Batch, o: Origin, waiting: seq<Event>, left: seq<Event>)
    requires all == Popped(log, o) + waiting
    requires waiting == (if b.origin == o then b.events else []) + left
    ensures all == Popped(log + [b], o) + left
  {
    assert (log + [b])[..|log|] == log;
  }

  lemma LogAppend(cfg: Config, log: seq<Batch>, flushed: int, o: Origin, events: seq<Event>)
    requires LogSound(cfg, log, flushed) && 0 < |events| <= cfg.batchSize
    ensures LogSound(cfg, log + [Dispatch(cfg, o, events)], flushed + if o.Category? then 1 else 0)
  {
    assert (log + [Dispatch(cfg, o, events)])[..|log|] == log;
  }

  lemma Arrives(all: seq<Event>, popped: seq<Event>, waiting: seq<Event>, e: Event, here: bool)
    requires all == popped + waiting
    ensures all + (if here then [e] else []) == popped + if here then waiting + [e] else waiting
  {
  }

  lemma AcceptedAppend(events: seq<Event>, e: Event, k: Key, l: Level)
    ensures OfKey(events + [e], k) == OfKey(events, k) + if KeyOf(e) == k then [e] else []
    ensures OfLevel(events + [e], l) == OfLevel(events, l) + if LevelOf(e.severity) == l then [e] else []
  {
    assert (events + [e])[..|events|] == events;
  }

  lemma PushAccounted(cfg: Config, s: State, e: Event, k: Key, l: Level)
    requires Accounted(cfg, s, k, l)
    ensures Accounted(cfg, Push(s, e), k, l)
  {
    PushAt(s, e, k);
    PushQueue(s, e, l);
    AcceptedAppend(s.accepted, e, k, l);
    Arrives(OfKey(s.accepted, k), Popped(s.log, Category(k)), s.Buffer(k), e, KeyOf(e) == k);
    Arrives(OfLevel(s.accepted, l), Popped(s.log, Priority(l)), s.Queue(l), e, LevelOf(e.severity) == l);
  }

  lemma FlushBufferAccounted(cfg: Config, s: State, j: Key, k: Key, l: Level)
    requires Accounted(cfg, s, k, l)
    ensures Accounted(cfg, FlushBuffer(cfg, s, j), k, l)
  {
    var t := FlushBuffer(cfg, s, j);
    var due := Due(cfg, s.Buffer(j));
    FlushBufferAt(cfg, s, j, k);
    FlushBufferRest(cfg, s, j, l);
    DueThenLeft(cfg, s.Buffer(j));
    if due != [] {
      var batch := Dispatch(cfg, Category(j), due);
      MoveToLog(OfKey(s.accepted, k), s.log, batch, Category(k), s.Buffer(k), t.Buffer(k));
      MoveToLog(OfLevel(s.accepted, l), s.log, batch, Priority(l), s.Queue(l), t.Queue(l));
      LogAppend(cfg, s.log, s.flushedBatches, Category(j), due);
    }
  }

  lemma FlushQueueAccounted(cfg: Config, s: State, m: Level, k: Key, l: Level)
    requires Accounted(cfg, s, k, l)
    ensures Accounted(cfg, FlushQueue(cfg, s, m), k, l)
  {
    var t := FlushQueue(cfg, s, m);
    var due := Due(cfg, s.Queue(m));
    FlushQueueAt(cfg, s, m, l);
    DueThenLeft(cfg, s.Queue(m));
    if due != [] {
      var batch := Dispatch(cfg, Priority(m), due);
      MoveToLog(OfKey(s.accepted, k), s.log, batch, Category(k), s.Buffer(k), t.Buffer(k));
      MoveToLog(OfLevel(s.accepted, l), s.log, batch, Priority(l), s.Queue(l), t.Queue(l));
      LogAppend(cfg, s.log, s.flushedBatches, Priority(m), due);
    }
  }

  lemma CompleteAccounted(cfg: Config, s: State, e: Event, k: Key, l: Level)
    requires Accounted(cfg, s, k, l)
    ensures Accounted(cfg, Complete(cfg, s, e), k, l)
  {
    assert Accounted(cfg, Count(s), k, l);
    FlushBufferAccounted(cfg, Count(s), KeyOf(e), k, l);
  }

  // ----- the two views -----

  lemma CountAppend(xs: seq<Event>, x: Event, keep: bool, e: Event)
    requires x == e ==> keep
    ensures multiset(xs + if keep then [x] else [])[e] == multiset(xs)[e] + if x == e then 1 else 0
  {
  }

  lemma {:induction false} OccurrencesOfKey(events: seq<Event>, e: Event)
    ensures multiset(OfKey(events, KeyOf(e)))[e] == multiset(events)[e]
  {
    if events == [] {
    } else {
      var front, last := events[..|events| - 1], events[|events| - 1];
      OccurrencesOfKey(front, e);
      CountAppend(OfKey(front, KeyOf(e)), last, KeyOf(last) == KeyOf(e), e);
      CountAppend(front, last, true, e);
      assert events == front + [last];
    }
  }

  lemma {:induction false} OccurrencesOfLevel(events: seq<Event>, e: Event)
    ensures multiset(OfLevel(events, LevelOf(e.severity)))[e] == multiset(events)[e]
  {
    if events == [] {
    } else {
      var front, last := events[..|events| - 1], events[|events| - 1];
      var l := LevelOf(e.severity);
      OccurrencesOfLevel(front, e);
      CountAppend(OfLevel(front, l), last, LevelOf(last.severity) == l, e);
      CountAppend(front, last, true, e);
      assert events == front + [last];
    }
  }

  /** Each event is waiting or popped equally often in its category view and in its priority view. */
  lemma ViewsAgree(s: State, e: Event)
    requires ConservedAt(s, KeyOf(e)) && QueueConservedAt(s, LevelOf(e.severity))
    ensures var k := KeyOf(e);
            var l := LevelOf(e.severity);
            && multiset(Popped(s.log, Category(k)))[e] + multiset(s.Buffer(k))[e] == multiset(s.accepted)[e]
            && multiset(Popped(s.log, Priority(l)))[e] + multiset(s.Queue(l))[e] == multiset(s.accepted)[e]
  {
    OccurrencesOfKey(s.accepted, e);
    OccurrencesOfLevel(s.accepted, e);
  }

  /** No distinct content is lost by compression: what the processors got has every hash of the batch. */
  lemma SentCoversBatch(cfg: Config, s: State, b: Batch)
    requires LogSound(cfg, s.log, s.flushedBatches) && b in s.log
    ensures Hashes(cfg.hash, b.sent) == Hashes(cfg.hash, b.events)
    ensures cfg.compressionEnabled ==> Distinct(cfg.hash, b.sent)
    ensures !cfg.compressionEnabled ==> b.sent == b.events
  {
    HashesOfCompress(cfg.hash, b.events);
    CompressDistinct(cfg.hash, b.events);
  }
}
