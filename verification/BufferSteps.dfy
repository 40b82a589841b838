/**
 Interleaved calls. Adding a critical or high event suspends at the Redis write between the two halves of the call;
 other calls, flushes and the background tasks run in between. No lock is held across that point.
 */
module BufferSteps {
  import opened Events
  import opened QueueDict
  import opened BufferModel
  import opened BufferHistory

  /** The shared state and the events whose calls are suspended. */
  datatype System = System(state: State, suspended: seq<Event>)

  datatype Step =
    | Arrive(event: Event)
    | Resume(index: nat)
    | FlushOne(key: Key)
    | FlushLevel(level: Level)
    | ClearNow
    | RecountNow

  predicate Suspends(cfg: Config, severity: Severity) {
    cfg.persistsToRedis && (severity == Critical || severity == High)
  }

  ghost function Next(cfg: Config, y: System, step: Step): System {
    match step
    case Arrive(e) =>
      if ShouldDrop(cfg, y.state, e) then y.(state := Drop(y.state))
      else if Suspends(cfg, e.severity) then System(Push(y.state, e), y.suspended + [e])
      else y.(state := Complete(cfg, Push(y.state, e), e))
    case Resume(i) =>
      if i < |y.suspended|
      then System(Complete(cfg, y.state, y.suspended[i]), y.suspended[..i] + y.suspended[i + 1..])
      else y
    case FlushOne(k) => y.(state := FlushBuffer(cfg, y.state, k))
    case FlushLevel(l) => y.(state := FlushQueue(cfg, y.state, l))
    case ClearNow => y.(state := Clear(y.state))
    case RecountNow => y.(state := Resync(y.state))
  }

  ghost function RunSteps(cfg: Config, steps: seq<Step>): System {
    if steps == [] then System(INITIAL, [])
    else Next(cfg, RunSteps(cfg, steps[..|steps| - 1]), steps[|steps| - 1])
  }

  /** With nothing in between, the two halves of a call are the atomic call. */
  lemma HalvesMakeACall(cfg: Config, y: System, e: Event)
    ensures var z := Next(cfg, y, Arrive(e));
            (if !ShouldDrop(cfg, y.state, e) && Suspends(cfg, e.severity)
             then Next(cfg, z, Resume(|y.suspended|)) else z) == y.(state := AddEvent(cfg, y.state, e))
  {
    assert (y.suspended + [e])[..|y.suspended|] + (y.suspended + [e])[|y.suspended| + 1..] == y.suspended;
  }

  /** A call suspends exactly when its event is kept, critical or high, and persisted to Redis. */
  lemma ArriveSuspends(cfg: Config, y: System, e: Event)
    ensures Next(cfg, y, Arrive(e)).suspended ==
            if !ShouldDrop(cfg, y.state, e) && cfg.persistsToRedis && (e.severity == Critical || e.severity == High)
            then y.suspended + [e] else y.suspended
  {
  }

  /** Suspended calls of one category. */
  ghost function InFlight(suspended: seq<Event>, k: Key): nat {
    if suspended == [] then 0
    else
      InFlight(suspended[..|suspended| - 1], k) + if KeyOf(suspended[|suspended| - 1]) == k then 1 else 0
  }

  lemma InFlightAppend(suspended: seq<Event>, e: Event, k: Key)
    ensures InFlight(suspended + [e], k) == InFlight(suspended, k) + if KeyOf(e) == k then 1 else 0
  {
    assert (suspended + [e])[..|suspended|] == suspended;
  }

  lemma {:induction false} InFlightConcat(xs: seq<Event>, ys: seq<Event>, k: Key)
    ensures InFlight(xs + ys, k) == InFlight(xs, k) + InFlight(ys, k)
  {
    if ys == [] {
      assert xs + ys == xs;
    } else {
      var front := ys[..|ys| - 1];
      InFlightConcat(xs, front, k);
      assert (xs + ys)[..|xs + ys| - 1] == xs + front;
    }
  }

  lemma InFlightInsert(before: seq<Event>, e: Event, after: seq<Event>, k: Key)
    ensures InFlight((before + [e]) + after, k) == InFlight(before + after, k) + if KeyOf(e) == k then 1 else 0
  {
    InFlightAppend(before, e, k);
    InFlightConcat(before, after, k);
    InFlightConcat(before + [e], after, k);
  }

  lemma SplitAt(xs: seq<Event>, i: nat)
    requires i < |xs|
    ensures xs == (xs[..i] + [xs[i]]) + xs[i + 1..]
  {
  }

  lemma InFlightRemove(suspended: seq<Event>, i: nat, k: Key)
    requires i < |suspended|
    ensures InFlight(suspended[..i] + suspended[i + 1..], k) ==
            InFlight(suspended, k) - if KeyOf(suspended[i]) == k then 1 else 0
  {
    SplitAt(suspended, i);
    InFlightInsert(suspended[..i], suspended[i], suspended[i + 1..], k);
  }

  // ----- size bounds -----

  /** A buffer exceeds its sequential bound by at most the number of its suspended calls. */
  ghost predicate BoundedInFlight(cfg: Config, s: State, k: Key, inFlight: nat) {
    && SoundAt(s, k)
    && |s.Buffer(k)| <= cfg.batchSize - 1 + inFlight
    && (k.severity == Critical ==> |s.Buffer(k)| <= inFlight)
  }

  lemma PushBounded(cfg: Config, s: State, e: Event, k: Key, inFlight: nat)
    requires BoundedInFlight(cfg, s, k, inFlight)
    ensures BoundedInFlight(cfg, Push(s, e), k, inFlight + if KeyOf(e) == k then 1 else 0)
  {
    PushAt(s, e, k);
  }

  /** A call that resumes gives back its share of the excess: the flush it may owe takes at least one event. */
  lemma CompleteBounded(cfg: Config, s: State, e: Event, k: Key, inFlight: nat)
    requires cfg.batchSize >= 1
    requires KeyOf(e) == k ==> inFlight > 0
    requires BoundedInFlight(cfg, s, k, inFlight)
    ensures BoundedInFlight(cfg, Complete(cfg, s, e), k, inFlight - if KeyOf(e) == k then 1 else 0)
  {
    var t := Count(s);
    assert SoundAt(t, k) && t.Buffer(k) == s.Buffer(k);
    FlushBufferAt(cfg, t, KeyOf(e), k);
    if KeyOf(e) == k && k.severity == Critical && t.Buffer(k) != [] {
      assert t.Buffer(k)[0] in t.Buffer(k);
      assert FlushesNow(cfg, t, k);
    }
  }

  lemma ArriveBounded(cfg: Config, y: System, e: Event, k: Key)
    requires cfg.batchSize >= 1
    requires BoundedInFlight(cfg, y.state, k, InFlight(y.suspended, k))
    ensures var z := Next(cfg, y, Arrive(e)); BoundedInFlight(cfg, z.state, k, InFlight(z.suspended, k))
  {
    if !ShouldDrop(cfg, y.state, e) {
      var n := InFlight(y.suspended, k);
      PushBounded(cfg, y.state, e, k, n);
      if Suspends(cfg, e.severity) {
        InFlightAppend(y.suspended, e, k);
      } else {
        CompleteBounded(cfg, Push(y.state, e), e, k, n + if KeyOf(e) == k then 1 else 0);
      }
    }
  }

  lemma ResumeBounded(cfg: Config, y: System, i: nat, k: Key)
    requires cfg.batchSize >= 1
    requires BoundedInFlight(cfg, y.state, k, InFlight(y.suspended, k))
    ensures var z := Next(cfg, y, Resume(i)); BoundedInFlight(cfg, z.state, k, InFlight(z.suspended, k))
  {
    if i < |y.suspended| {
      InFlightRemove(y.suspended, i, k);
      CompleteBounded(cfg, y.state, y.suspended[i], k, InFlight(y.suspended, k));
    }
  }

  lemma NextBounded(cfg: Config, y: System, step: Step, k: Key)
    requires cfg.batchSize >= 1
    requires BoundedInFlight(cfg, y.state, k, InFlight(y.suspended, k))
    ensures var z := Next(cfg, y, step); BoundedInFlight(cfg, z.state, k, InFlight(z.suspended, k))
  {
    match step {
      case Arrive(e) => ArriveBounded(cfg, y, e, k);
      case Resume(i) => ResumeBounded(cfg, y, i, k);
      case FlushOne(j) => FlushBufferAt(cfg, y.state, j, k);
      case FlushLevel(l) => FlushQueueAt(cfg, y.state, l, l);
      case ClearNow => ClearAt(y.state, k);
      case RecountNow =>
    }
  }

  lemma {:induction false} StepsBounded(cfg: Config, steps: seq<Step>, k: Key)
    requires cfg.batchSize >= 1
    ensures var y := RunSteps(cfg, steps); BoundedInFlight(cfg, y.state, k, InFlight(y.suspended, k))
  {
    if steps == [] {
    } else {
      StepsBounded(cfg, steps[..|steps| - 1], k);
      NextBounded(cfg, RunSteps(cfg, steps[..|steps| - 1]), steps[|steps| - 1], k);
    }
  }

  // ----- the event counters -----

  ghost predicate TotalExact(y: System) {
    y.state.totalEvents + |y.suspended| == |y.state.accepted|
  }

  lemma CompleteCountsOne(cfg: Config, s: State, e: Event)
    ensures Complete(cfg, s, e).totalEvents == s.totalEvents + 1 && Complete(cfg, s, e).accepted == s.accepted
  {
  }

  /** In every run, clears and recounts included, the total counts the accepted events whose calls have resumed. */
  lemma {:induction false} StepsTotalExact(cfg: Config, steps: seq<Step>)
    ensures TotalExact(RunSteps(cfg, steps))
  {
    if steps == [] {
    } else {
      var y := RunSteps(cfg, steps[..|steps| - 1]);
      StepsTotalExact(cfg, steps[..|steps| - 1]);
      match steps[|steps| - 1] {
        case Arrive(e) => CompleteCountsOne(cfg, Push(y.state, e), e);
        case Resume(i) =>
          if i < |y.suspended| {
            CompleteCountsOne(cfg, y.state, y.suspended[i]);
          }
        case FlushOne(_) =>
        case FlushLevel(_) =>
        case ClearNow =>
        case RecountNow =>
      }
    }
  }

  /**
   The calls that were suspended when the counter was last overwritten: each of them still adds one to a counter
   that already includes (or has already forgotten) its event.
   */
  ghost function Skew(cfg: Config, steps: seq<Step>): nat {
    if steps == [] then 0
    else
      var front, last := steps[..|steps| - 1], steps[|steps| - 1];
      if last == ClearNow || last == RecountNow then |RunSteps(cfg, front).suspended| else Skew(cfg, front)
  }

  ghost predicate Counted(y: System, skew: nat) {
    Valid(y.state.dict) && y.state.bufferedEvents + |y.suspended| == Total(y.state.dict) + skew
  }

  lemma ArriveCounted(cfg: Config, y: System, e: Event, skew: nat)
    requires Counted(y, skew)
    ensures Counted(Next(cfg, y, Arrive(e)), skew)
  {
    if !ShouldDrop(cfg, y.state, e) {
      var p := Push(y.state, e);
      PushTotal(y.state, e);
      assert p.bufferedEvents == y.state.bufferedEvents;
      if !Suspends(cfg, e.severity) {
        CompleteTotal(cfg, p, e);
      }
    }
  }

  lemma NextCounted(cfg: Config, y: System, step: Step, skew: nat)
    requires Counted(y, skew)
    ensures Counted(Next(cfg, y, step), if step == ClearNow || step == RecountNow then |y.suspended| else skew)
  {
    match step {
      case Arrive(e) => ArriveCounted(cfg, y, e, skew);
      case Resume(i) =>
        if i < |y.suspended| {
          CompleteTotal(cfg, y.state, y.suspended[i]);
        }
      case FlushOne(j) => FlushBufferTotal(cfg, y.state, j);
      case FlushLevel(l) => FlushQueueAt(cfg, y.state, l, l);
      case ClearNow => ClearTotal(y.state);
      case RecountNow =>
    }
  }

  /** In every run, counter plus suspended calls is the number of waiting events plus the skew. */
  lemma {:induction false} StepsCounted(cfg: Config, steps: seq<Step>)
    ensures Counted(RunSteps(cfg, steps), Skew(cfg, steps))
  {
    if steps == [] {
    } else {
      var front, last := steps[..|steps| - 1], steps[|steps| - 1];
      StepsCounted(cfg, front);
      NextCounted(cfg, RunSteps(cfg, front), last, Skew(cfg, front));
    }
  }

  /** Without a clear or a recount there is no skew. */
  lemma {:induction false} NoSkew(cfg: Config, steps: seq<Step>)
    requires ClearNow !in steps && RecountNow !in steps
    ensures Skew(cfg, steps) == 0
  {
    if steps == [] {
    } else {
      var front, last := steps[..|steps| - 1], steps[|steps| - 1];
      assert steps == front + [last];
      NoSkew(cfg, front);
    }
  }

  /** Hence the counter is negative exactly when more calls are suspended than events (and skew) are left waiting. */
  lemma {:induction false} CounterNegative(cfg: Config, steps: seq<Step>)
    ensures var y := RunSteps(cfg, steps);
            y.state.bufferedEvents < 0 <==> |y.suspended| > Total(y.state.dict) + Skew(cfg, steps)
  {
    StepsCounted(cfg, steps);
  }

  /** That happens: a timer flush between the two halves of the first critical event is enough. */
  lemma CounterGoesNegative(cfg: Config, e: Event)
    requires cfg.persistsToRedis && cfg.batchSize >= 1 && e.severity == Critical
    ensures RunSteps(cfg, [Arrive(e), FlushOne(KeyOf(e))]).state.bufferedEvents == -1
  {
    var steps := [Arrive(e), FlushOne(KeyOf(e))];
    assert steps[..1] == [Arrive(e)] && steps[..1][..0] == [];
    assert RunSteps(cfg, [Arrive(e)]) == System(Push(INITIAL, e), [e]);
    assert Push(INITIAL, e).Buffer(KeyOf(e)) == [e];
  }

  /** Without the Redis write no call is suspended. */
  lemma {:induction false} NothingSuspends(cfg: Config, steps: seq<Step>)
    requires !cfg.persistsToRedis
    ensures RunSteps(cfg, steps).suspended == []
  {
    if steps == [] {
    } else {
      NothingSuspends(cfg, steps[..|steps| - 1]);
    }
  }

  /** With a batch size below one no flush takes anything. */
  lemma FlushKeepsTotal(cfg: Config, s: State, k: Key)
    requires cfg.batchSize <= 0 && Valid(s.dict)
    ensures Total(FlushBuffer(cfg, s, k).dict) == Total(s.dict)
  {
    TotalPut(s.dict, k, Left(cfg, s.Buffer(k)));
  }

  lemma CompleteKeepsTotal(cfg: Config, s: State, e: Event)
    requires cfg.batchSize <= 0 && Valid(s.dict)
    ensures Total(Complete(cfg, s, e).dict) == Total(s.dict)
  {
    FlushKeepsTotal(cfg, Count(s), KeyOf(e));
  }

  lemma ArriveKeepsTotal(cfg: Config, y: System, e: Event)
    requires cfg.batchSize <= 0 && Valid(y.state.dict)
    ensures var z := Next(cfg, y, Arrive(e));
            Total(z.state.dict) - |z.suspended| >= Total(y.state.dict) - |y.suspended|
  {
    if !ShouldDrop(cfg, y.state, e) {
      PushTotal(y.state, e);
      if !Suspends(cfg, e.severity) {
        CompleteKeepsTotal(cfg, Push(y.state, e), e);
      }
    }
  }

  lemma NextKeepsTotal(cfg: Config, y: System, step: Step)
    requires cfg.batchSize <= 0 && Valid(y.state.dict) && step != ClearNow
    ensures var z := Next(cfg, y, step);
            Total(z.state.dict) - |z.suspended| >= Total(y.state.dict) - |y.suspended|
  {
    match step {
      case Arrive(e) => ArriveKeepsTotal(cfg, y, e);
      case Resume(i) =>
        if i < |y.suspended| {
          CompleteKeepsTotal(cfg, y.state, y.suspended[i]);
        }
      case FlushOne(k) => FlushKeepsTotal(cfg, y.state, k);
      case FlushLevel(l) => FlushQueueAt(cfg, y.state, l, l);
      case RecountNow =>
    }
  }

  lemma {:induction false} SuspendedWait(cfg: Config, steps: seq<Step>)
    requires cfg.batchSize <= 0
    ensures |RunSteps(cfg, steps).suspended| <= Total(RunSteps(cfg, steps).state.dict) + Skew(cfg, steps)
  {
    if steps == [] {
    } else {
      var front, last := steps[..|steps| - 1], steps[|steps| - 1];
      SuspendedWait(cfg, front);
      StepsCounted(cfg, front);
      if last != ClearNow {
        NextKeepsTotal(cfg, RunSteps(cfg, front), last);
      }
    }
  }

  /** The event counter stays non-negative in every run exactly when nothing is persisted or no flush takes anything. */
  lemma {:induction false} CounterNeverNegative(cfg: Config)
    ensures (forall steps :: RunSteps(cfg, steps).state.bufferedEvents >= 0) <==>
            !cfg.persistsToRedis || cfg.batchSize <= 0
  {
    if cfg.persistsToRedis && cfg.batchSize >= 1 {
      CounterGoesNegative(cfg, Event("", 0, 0, Critical, ""));
    } else {
      forall steps ensures RunSteps(cfg, steps).state.bufferedEvents >= 0 {
        StepsCounted(cfg, steps);
        if cfg.persistsToRedis {
          SuspendedWait(cfg, steps);
        } else {
          NothingSuspends(cfg, steps);
        }
      }
    }
  }

  // ----- conservation -----

  lemma NextAccounted(cfg: Config, y: System, step: Step, k: Key, l: Level)
    requires step != ClearNow && Accounted(cfg, y.state, k, l)
    ensures Accounted(cfg, Next(cfg, y, step).state, k, l)
  {
    match step {
      case Arrive(e) =>
        if !ShouldDrop(cfg, y.state, e) {
          PushAccounted(cfg, y.state, e, k, l);
          CompleteAccounted(cfg, Push(y.state, e), e, k, l);
        }
      case Resume(i) =>
        if i < |y.suspended| {
          CompleteAccounted(cfg, y.state, y.suspended[i], k, l);
        }
      case FlushOne(j) => FlushBufferAccounted(cfg, y.state, j, k, l);
      case FlushLevel(m) => FlushQueueAccounted(cfg, y.state, m, k, l);
      case RecountNow =>
    }
  }

  /** Suspension does not disturb order or conservation in either view. */
  lemma {:induction false} StepsAccounted(cfg: Config, steps: seq<Step>, k: Key, l: Level)
    requires ClearNow !in steps
    ensures Accounted(cfg, RunSteps(cfg, steps).state, k, l)
  {
    if steps == [] {
    } else {
      var front, last := steps[..|steps| - 1], steps[|steps| - 1];
      assert steps == front + [last];
      StepsAccounted(cfg, front, k, l);
      NextAccounted(cfg, RunSteps(cfg, front), last, k, l);
    }
  }
}
