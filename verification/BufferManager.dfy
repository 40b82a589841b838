/** The buffer manager object: every method is one atomic call and moves the abstract state as the model says. */
module BufferManager {
  import opened Events
  import opened Compression
  import opened QueueDict
  import opened BufferModel

  function SizeOf(sizes: map<Key, int>, k: Key): int {
    if k in sizes then sizes[k] else 0
  }

  ghost function Overwrite<V>(m: map<Key, V>, keys: seq<Key>, v: V): map<Key, V> {
    if keys == [] then m else Overwrite(m, keys[..|keys| - 1], v)[keys[|keys| - 1] := v]
  }

  lemma {:induction false} OverwriteAt<V>(m: map<Key, V>, keys: seq<Key>, v: V, k: Key)
    ensures k in Overwrite(m, keys, v) <==> k in m || k in keys
    ensures k in Overwrite(m, keys, v) ==> Overwrite(m, keys, v)[k] == if k in keys then v else m[k]
  {
    if keys == [] {
    } else {
      OverwriteAt(m, keys[..|keys| - 1], v, k);
    }
  }

  lemma OverwriteAll(d: Dict<Key, Event>, sizes: map<Key, int>)
    requires Valid(d)
    ensures Overwrite(d.queues, d.keys, []) == map k | k in d.queues :: []
    ensures Overwrite(sizes, d.keys, 0) == sizes + map k | k in d.queues :: 0
  {
    var q := Overwrite(d.queues, d.keys, []);
    var z := Overwrite(sizes, d.keys, 0);
    forall k
      ensures k in q <==> k in d.queues
      ensures k in q ==> q[k] == []
      ensures k in z <==> k in sizes || k in d.queues
      ensures k in z ==> z[k] == if k in d.queues then 0 else sizes[k]
    {
      OverwriteAt(d.queues, d.keys, [], k);
      OverwriteAt(sizes, d.keys, 0, k);
    }
  }

  class Manager {
    const cfg: Config
    var keys: seq<Key>
    var eventBuffers: map<Key, seq<Event>>
    var highPriority: seq<Event>
    var mediumPriority: seq<Event>
    var lowPriority: seq<Event>
    var bufferSizes: map<Key, int>
    var totalEvents: int
    var bufferedEvents: int
    var flushedBatches: int
    var droppedEvents: int
    ghost var accepted: seq<Event>
    ghost var log: seq<Batch>

    ghost function Buffers(): Dict<Key, Event>
      reads this`keys, this`eventBuffers
    {
      Dict(keys, eventBuffers)
    }

    ghost function View(): State
      reads this
    {
      State(Buffers(), highPriority, mediumPriority, lowPriority, bufferSizes,
            totalEvents, bufferedEvents, flushedBatches, droppedEvents, accepted, log)
    }

    ghost predicate Consistent()
      reads this`keys, this`eventBuffers
    {
      Valid(Buffers())
    }

    constructor (config: Config)
      ensures cfg == config && Consistent() && View() == INITIAL
    {
      cfg := config;
      keys, eventBuffers := [], map[];
      highPriority, mediumPriority, lowPriority := [], [], [];
      bufferSizes := map[];
      totalEvents, bufferedEvents, flushedBatches, droppedEvents := 0, 0, 0, 0;
      accepted, log := [], [];
    }

    method CountBuffered() returns (total: nat)
      requires Consistent()
      ensures total == Total(View().dict)
    {
      total := 0;
      for i := 0 to |keys|
        invariant total == Lengths(keys[..i], eventBuffers)
      {
        assert keys[..i + 1][..i] == keys[..i];
        total := total + |eventBuffers[keys[i]]|;
      }
      assert keys[..|keys|] == keys;
    }

    method ShouldDropEvent(event: Event) returns (drop: bool)
      requires Consistent()
      ensures drop <==> ShouldDrop(cfg, View(), event)
    {
      var total := CountBuffered();
      var utilization := UtilizationOf(cfg, total, |keys|);
      if event.severity == Critical {
        return false;
      }
      if utilization >= cfg.dropThreshold {
        return true;
      } else if utilization >= cfg.backpressureThreshold {
        if event.severity == Low && utilization > 0.85 {
          return true;
        } else if event.severity == Info && utilization > 0.9 {
          return true;
        }
      }
      return false;
    }

    /** Default-dictionary access: create the missing buffer. */
    method Touch(k: Key)
      modifies this`keys, this`eventBuffers
      ensures k in eventBuffers
      ensures Buffers() == Put(old(Buffers()), k, Get(old(Buffers()), k))
    {
      if k !in eventBuffers {
        keys := keys + [k];
        eventBuffers := eventBuffers[k := []];
      } else {
        PutSame(Buffers(), k);
      }
    }

    /** Append to a buffer that may not exist yet. */
    method Append(k: Key, event: Event)
      modifies this`keys, this`eventBuffers
      ensures k in eventBuffers
      ensures Buffers() == Put(old(Buffers()), k, Get(old(Buffers()), k) + [event])
    {
      Touch(k);
      PutTwice(old(Buffers()), k, Get(old(Buffers()), k), eventBuffers[k] + [event]);
      eventBuffers := eventBuffers[k := eventBuffers[k] + [event]];
    }

    method AddToPriorityBuffer(event: Event)
      modifies this`highPriority, this`mediumPriority, this`lowPriority
      ensures View() == old(View()).WithQueue(
                          LevelOf(event.severity), old(View()).Queue(LevelOf(event.severity)) + [event])
    {
      if event.severity == Critical {
        highPriority := highPriority + [event];
      } else if event.severity == High {
        highPriority := highPriority + [event];
      } else if event.severity == Medium {
        mediumPriority := mediumPriority + [event];
      } else {
        lowPriority := lowPriority + [event];
      }
    }

    method ShouldImmediateFlush(k: Key) returns (flush: bool)
      requires k in eventBuffers
      ensures flush <==> FlushesNow(cfg, View(), k)
    {
      var buffer := eventBuffers[k];
      if |buffer| >= cfg.batchSize {
        return true;
      }
      for i := 0 to |buffer|
        invariant forall j | 0 <= j < i :: buffer[j].severity != Critical
      {
        if buffer[i].severity == Critical {
          assert buffer[i] in buffer;
          return true;
        }
      }
      return false;
    }

    method ProcessBatch(batch: seq<Event>, origin: Origin)
      modifies this`log
      ensures log == old(log) + [Dispatch(cfg, origin, batch)]
    {
      var sent := batch;
      if cfg.compressionEnabled {
        sent := CompressBatch(cfg.hash, batch);
      }
      log := log + [Batch(origin, batch, sent)];
    }

    /** The popping loop of a flush: one event at a time, with both counters. */
    method PopBatch(k: Key) returns (batch: seq<Event>)
      requires k in eventBuffers
      modifies this`eventBuffers, this`bufferedEvents, this`bufferSizes
      ensures batch == Due(cfg, old(eventBuffers)[k])
      ensures eventBuffers == old(eventBuffers)[k := Left(cfg, old(eventBuffers)[k])]
      ensures bufferedEvents == old(bufferedEvents) - |batch|
      ensures bufferSizes == if batch == [] then old(bufferSizes)
                             else old(bufferSizes)[k := SizeOf(old(bufferSizes), k) - |batch|]
    {
      ghost var queue := eventBuffers[k];
      batch := [];
      for i := 0 to BatchLength(cfg, |eventBuffers[k]|)
        invariant k in eventBuffers
        invariant batch == queue[..i]
        invariant eventBuffers == old(eventBuffers)[k := queue[i..]]
        invariant bufferedEvents == old(bufferedEvents) - i
        invariant bufferSizes == if i == 0 then old(bufferSizes)
                                 else old(bufferSizes)[k := SizeOf(old(bufferSizes), k) - i]
      {
        var event := eventBuffers[k][0];
        eventBuffers := eventBuffers[k := eventBuffers[k][1..]];
        batch := batch + [event];
        bufferedEvents := bufferedEvents - 1;
        bufferSizes := bufferSizes[k := SizeOf(bufferSizes, k) - 1];
      }
    }

    method TakeBatch(k: Key) returns (batch: seq<Event>)
      modifies this`keys, this`eventBuffers, this`bufferedEvents, this`bufferSizes
      ensures batch == Due(cfg, old(View()).Buffer(k))
      ensures Buffers() == Put(old(Buffers()), k, Left(cfg, old(View()).Buffer(k)))
      ensures bufferedEvents == old(bufferedEvents) - |batch|
      ensures bufferSizes == if batch == [] then old(bufferSizes)
                             else old(bufferSizes)[k := SizeOf(old(bufferSizes), k) - |batch|]
    {
      ghost var d := Buffers();
      Touch(k);
      if |eventBuffers[k]| == 0 {
        return [];
      }
      PutTwice(d, k, Get(d, k), Left(cfg, Get(d, k)));
      batch := PopBatch(k);
    }

    method Flush(k: Key)
      modifies this
      ensures View() == FlushBuffer(cfg, old(View()), k)
      ensures k in old(eventBuffers) ==> keys == old(keys) && eventBuffers.Keys == old(eventBuffers).Keys
    {
      var batch := TakeBatch(k);
      if |batch| > 0 {
        ProcessBatch(batch, Category(k));
        flushedBatches := flushedBatches + 1;
      }
    }

    method FlushHigh()
      modifies this`highPriority, this`log
      ensures View() == FlushQueue(cfg, old(View()), HighLevel)
    {
      if |highPriority| > 0 {
        var batch;
        batch, highPriority := PopQueue(highPriority);
        if |batch| > 0 {
          ProcessBatch(batch, Priority(HighLevel));
        }
      }
    }

    method FlushMedium()
      modifies this`mediumPriority, this`log
      ensures View() == FlushQueue(cfg, old(View()), MediumLevel)
    {
      if |mediumPriority| > 0 {
        var batch;
        batch, mediumPriority := PopQueue(mediumPriority);
        if |batch| > 0 {
          ProcessBatch(batch, Priority(MediumLevel));
        }
      }
    }

    method FlushLow()
      modifies this`lowPriority, this`log
      ensures View() == FlushQueue(cfg, old(View()), LowLevel)
    {
      if |lowPriority| > 0 {
        var batch;
        batch, lowPriority := PopQueue(lowPriority);
        if |batch| > 0 {
          ProcessBatch(batch, Priority(LowLevel));
        }
      }
    }

    method FlushPriorityBuffers()
      modifies this`highPriority, this`mediumPriority, this`lowPriority, this`log
      ensures View() == FlushQueues(cfg, old(View()))
    {
      FlushHigh();
      FlushMedium();
      FlushLow();
    }

    method PopQueue(queue: seq<Event>) returns (batch: seq<Event>, rest: seq<Event>)
      ensures batch == Due(cfg, queue) && rest == Left(cfg, queue)
    {
      batch, rest := [], queue;
      for i := 0 to BatchLength(cfg, |queue|)
        invariant batch == queue[..i] && rest == queue[i..]
      {
        batch := batch + [rest[0]];
        rest := rest[1..];
      }
    }

    method FlushCategories()
      requires Consistent()
      modifies this
      ensures Buffers().keys == old(keys) && eventBuffers.Keys == old(eventBuffers).Keys
      ensures View() == FlushKeys(cfg, old(View()), old(keys))
    {
      var bufferKeys := keys;
      for i := 0 to |bufferKeys|
        invariant keys == bufferKeys && eventBuffers.Keys == old(eventBuffers).Keys
        invariant View() == FlushKeys(cfg, old(View()), bufferKeys[..i])
      {
        var k := bufferKeys[i];
        assert bufferKeys[..i + 1][..i] == bufferKeys[..i];
        if |eventBuffers[k]| > 0 {
          Flush(k);
        } else {
          PutSame(Buffers(), k);
        }
      }
      assert bufferKeys[..|bufferKeys|] == bufferKeys;
    }

    method FlushEverything()
      requires Consistent()
      modifies this
      ensures Consistent()
      ensures View() == FlushAll(cfg, old(View()))
    {
      FlushCategories();
      FlushPriorityBuffers();
    }

    /** The first half of adding an event, up to the persist call. */
    method PushEvent(event: Event)
      modifies this
      ensures KeyOf(event) in eventBuffers
      ensures View() == Push(old(View()), event)
    {
      var k := KeyOf(event);
      AddToPriorityBuffer(event);
      Append(k, event);
      bufferSizes := bufferSizes[k := SizeOf(bufferSizes, k) + 1];
      accepted := accepted + [event];
    }

    /** The second half, after the persist call. */
    method CompleteEvent(event: Event)
      requires KeyOf(event) in eventBuffers
      modifies this
      ensures View() == Complete(cfg, old(View()), event)
    {
      totalEvents := totalEvents + 1;
      bufferedEvents := bufferedEvents + 1;
      var flush := ShouldImmediateFlush(KeyOf(event));
      if flush {
        Flush(KeyOf(event));
      }
    }

    method AddEventCall(event: Event) returns (buffered: bool)
      requires Consistent()
      modifies this
      ensures Consistent()
      ensures buffered <==> !ShouldDrop(cfg, old(View()), event)
      ensures View() == AddEvent(cfg, old(View()), event)
    {
      var drop := ShouldDropEvent(event);
      if drop {
        droppedEvents := droppedEvents + 1;
        return false;
      }
      PushTotal(View(), event);
      CompleteTotal(cfg, Push(View(), event), event);
      PushEvent(event);
      CompleteEvent(event);
      return true;
    }

    method ClearBuffers()
      requires Consistent()
      modifies this
      ensures Consistent()
      ensures View() == Clear(old(View()))
    {
      ClearTotal(View());
      var cleared := ClearCategories();
      cleared := cleared + |highPriority| + |mediumPriority| + |lowPriority|;
      highPriority, mediumPriority, lowPriority := [], [], [];
      bufferedEvents := 0;
      droppedEvents := droppedEvents + cleared;
    }

    method ClearCategories() returns (cleared: nat)
      requires Consistent()
      modifies this`eventBuffers, this`bufferSizes
      ensures cleared == Total(old(Buffers()))
      ensures Buffers() == Clear(old(View())).dict && bufferSizes == Clear(old(View())).sizes
    {
      cleared := 0;
      for i := 0 to |keys|
        invariant cleared == Lengths(keys[..i], old(eventBuffers))
        invariant eventBuffers == Overwrite(old(eventBuffers), keys[..i], [])
        invariant bufferSizes == Overwrite(old(bufferSizes), keys[..i], 0)
      {
        var k := keys[i];
        assert keys[..i + 1][..i] == keys[..i];
        OverwriteAt(old(eventBuffers), keys[..i], [], k);
        cleared := cleared + |eventBuffers[k]|;
        eventBuffers := eventBuffers[k := []];
        bufferSizes := bufferSizes[k := 0];
      }
      assert keys[..|keys|] == keys;
      OverwriteAll(old(Buffers()), old(bufferSizes));
    }

    method CollectStats()
      requires Consistent()
      modifies this`bufferedEvents
      ensures View() == Resync(old(View()))
    {
      bufferedEvents := CountBuffered();
    }
  }
}
