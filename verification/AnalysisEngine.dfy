/** The AI analysis engine: batching per analysis type, and the accounting of jobs. */
module AnalysisEngine {
  import opened Events
  import opened Prelude

  type AnalysisType = nat

  /** A UUID, by its number. */
  type JobId = nat

  datatype Config = Config(batchSize: int, maxBatchAge: int, flushFraction: real)

  datatype Mode = RealTime | BatchMode

  datatype Job = Job(id: JobId, mode: Mode, analysisType: AnalysisType, events: seq<Event>)

  type Provider = nat

  datatype Finished = Finished(success: bool, processingTime: real)

  /** One finished job: how it ended, which providers responded, and how long it took. */
  datatype Done = Done(job: Job, success: bool, responders: seq<Provider>, time: real)

  const HISTORY := 1000

  datatype Stats = Stats(
    total: nat,
    realTime: nat,
    batch: nat,
    successful: nat,
    failed: nat,
    averageTime: real,
    byType: map<AnalysisType, nat>,
    byProvider: map<Provider, nat>)

  /**
   The history: the arrival of each waiting event, the arrival that started a buffer's clock (until the buffer is first
   emptied), the batch jobs made, and the jobs finished.
   */
  datatype Past = Past(
    arrivals: map<AnalysisType, seq<int>>,
    starters: map<AnalysisType, int>,
    created: seq<Job>,
    done: seq<Done>)

  datatype State = State(
    buffers: map<AnalysisType, seq<Event>>,
    timestamps: map<AnalysisType, int>,
    activeJobs: map<JobId, Job>,
    completedJobs: map<JobId, Finished>,
    jobHistory: seq<JobId>,
    stats: Stats,
    past: Past)
  {
    ghost function Buffer(t: AnalysisType): seq<Event> {
      if t in buffers then buffers[t] else []
    }

    ghost function Arrivals(t: AnalysisType): seq<int> {
      if t in past.arrivals then past.arrivals[t] else []
    }
  }

  const NO_STATS := Stats(0, 0, 0, 0, 0, 0.0, map[], map[])

  ghost const INITIAL := State(map[], map[], map[], map[], [], NO_STATS, Past(map[], map[], [], []))

  /** When a submission appends its events, and its clock readings for a missing timestamp, the age and a new batch. */
  datatype Moments = Moments(entry: int, stamp: int, check: int, reset: int)

  datatype Op =
    | Analyze(events: seq<Event>, analysisType: AnalysisType, force: bool, at: Moments, id: JobId)
    | Tick(analysisType: AnalysisType, check: int, reset: int, id: JobId)
    | Submit(events: seq<Event>, analysisType: AnalysisType, now: int, id: JobId)
    | Finish(id: JobId, success: bool, responders: seq<Provider>, processingTime: real, now: int)

  // ----- batching -----

  ghost function Stamps(n: nat, now: int): seq<int> {
    seq(n, _ => now)
  }

  /** Extending the buffer, then starting its clock on the first call for the type. */
  ghost function Extend(s: State, events: seq<Event>, t: AnalysisType, entry: int, stamp: int): State {
    s.(buffers := s.buffers[t := s.Buffer(t) + events],
       timestamps := if t in s.timestamps then s.timestamps else s.timestamps[t := stamp],
       past := s.past.(
         arrivals := s.past.arrivals[t := s.Arrivals(t) + Stamps(|events|, entry)],
         starters := if t in s.timestamps then s.past.starters else s.past.starters[t := entry]))
  }

  ghost predicate Due(cfg: Config, s: State, t: AnalysisType, force: bool, now: int)
    requires t in s.timestamps
  {
    force || |s.Buffer(t)| >= cfg.batchSize || now - s.timestamps[t] >= cfg.maxBatchAge
  }

  /** The timer also flushes a buffer that is nearly full. */
  ghost predicate TickDue(cfg: Config, s: State, t: AnalysisType, now: int) {
    s.Buffer(t) != [] && t in s.timestamps &&
    (|s.Buffer(t)| >= cfg.batchSize || now - s.timestamps[t] >= cfg.maxBatchAge ||
     |s.Buffer(t)| as real >= cfg.batchSize as real * cfg.flushFraction)
  }

  ghost function ProcessBatch(s: State, t: AnalysisType, now: int, id: JobId): State {
    if s.Buffer(t) == [] then s
    else
      var job := Job(id, BatchMode, t, s.Buffer(t));
      s.(buffers := s.buffers[t := []],
         timestamps := s.timestamps[t := now],
         activeJobs := s.activeJobs[id := job],
         past := s.past.(
           arrivals := s.past.arrivals[t := []], starters := s.past.starters - {t}, created := s.past.created + [job]))
  }

  /** The running average after the total has been counted up. */
  function NextAverage(average: real, total: nat, time: real): real
    requires total > 0
  {
    (average * (total - 1) as real + time) / total as real
  }

  /** What a finished job adds to the statistics. */
  function Count(x: Stats, d: Done): Stats {
    Stats(
      x.total + 1,
      x.realTime + (if d.job.mode == RealTime then 1 else 0),
      x.batch + (if d.job.mode == BatchMode then 1 else 0),
      x.successful + (if d.success then 1 else 0),
      x.failed + (if d.success then 0 else 1),
      NextAverage(x.averageTime, x.total + 1, d.time),
      Bump(x.byType, d.job.analysisType),
      if d.success then BumpAll(x.byProvider, d.responders) else x.byProvider)
  }

  function Remember(history: seq<JobId>, id: JobId): seq<JobId> {
    var longer := history + [id];
    if |longer| > HISTORY then longer[|longer| - HISTORY..] else longer
  }

  ghost function Complete(s: State, id: JobId, success: bool, responders: seq<Provider>, time: real): State {
    if id !in s.activeJobs then s
    else
      var d := Done(s.activeJobs[id], success, responders, time);
      s.(activeJobs := s.activeJobs - {id},
         completedJobs := s.completedJobs[id := Finished(success, time)],
         jobHistory := if success then Remember(s.jobHistory, id) else s.jobHistory,
         stats := Count(s.stats, d),
         past := s.past.(done := s.past.done + [d]))
  }

  ghost function Apply(cfg: Config, s: State, op: Op): State {
    match op
    case Analyze(events, t, force, at, id) =>
      var x := Extend(s, events, t, at.entry, at.stamp);
      if Due(cfg, x, t, force, at.check) then ProcessBatch(x, t, at.reset, id) else x
    case Tick(t, check, reset, id) => if TickDue(cfg, s, t, check) then ProcessBatch(s, t, reset, id) else s
    case Submit(events, t, _, id) => s.(activeJobs := s.activeJobs[id := Job(id, RealTime, t, events)])
    case Finish(id, success, responders, time, _) => Complete(s, id, success, responders, time)
  }

  ghost function Run(cfg: Config, ops: seq<Op>): State {
    if ops == [] then INITIAL else Apply(cfg, Run(cfg, ops[..|ops| - 1]), ops[|ops| - 1])
  }

  // ----- conservation of events -----

  ghost function Submitted(ops: seq<Op>, t: AnalysisType): seq<Event> {
    if ops == [] then []
    else
      var front, last := Submitted(ops[..|ops| - 1], t), ops[|ops| - 1];
      if last.Analyze? && last.analysisType == t then front + last.events else front
  }

  /** The events of the batch jobs of one type, in the order of creation. */
  ghost function Batched(jobs: seq<Job>, t: AnalysisType): seq<Event> {
    if jobs == [] then []
    else
      var front, last := Batched(jobs[..|jobs| - 1], t), jobs[|jobs| - 1];
      if last.analysisType == t then front + last.events else front
  }

  /** The events of a type that the engine knows of, in order. */
  ghost function Known(s: State, t: AnalysisType): seq<Event> {
    Batched(s.past.created, t) + s.Buffer(t)
  }

  lemma BatchConserves(s: State, u: AnalysisType, now: int, id: JobId, t: AnalysisType)
    ensures Known(ProcessBatch(s, u, now, id), t) == Known(s, t)
  {
    var r := ProcessBatch(s, u, now, id);
    if r.past.created != s.past.created {
      assert r.past.created[..|s.past.created|] == s.past.created;
    }
  }

  lemma ExtendConserves(s: State, events: seq<Event>, u: AnalysisType, entry: int, stamp: int, t: AnalysisType)
    ensures Known(Extend(s, events, u, entry, stamp), t) == if u == t then Known(s, t) + events else Known(s, t)
  {
    assert Batched(s.past.created, t) + (s.Buffer(t) + events) == Known(s, t) + events;
  }

  lemma ApplyConserves(cfg: Config, s: State, op: Op, t: AnalysisType)
    ensures Known(Apply(cfg, s, op), t) ==
            if op.Analyze? && op.analysisType == t then Known(s, t) + op.events else Known(s, t)
  {
    match op {
      case Analyze(events, u, force, at, id) =>
        ExtendConserves(s, events, u, at.entry, at.stamp, t);
        BatchConserves(Extend(s, events, u, at.entry, at.stamp), u, at.reset, id, t);
      case Tick(u, _, reset, id) => BatchConserves(s, u, reset, id, t);
      case Submit(_, _, _, _) =>
      case Finish(_, _, _, _, _) =>
    }
  }

  /** In order, the submitted events of a type are those of its batch jobs followed by those still waiting. */
  lemma {:induction false} EventsConserved(cfg: Config, ops: seq<Op>, t: AnalysisType)
    ensures Submitted(ops, t) == Batched(Run(cfg, ops).past.created, t) + Run(cfg, ops).Buffer(t)
  {
    if ops == [] {
    } else {
      var front := ops[..|ops| - 1];
      EventsConserved(cfg, front, t);
      ApplyConserves(cfg, Run(cfg, front), ops[|ops| - 1], t);
    }
  }

  // ----- age -----

  function Start(op: Op): int {
    match op
    case Analyze(_, _, _, at, _) => at.entry
    case Tick(_, check, _, _) => check
    case Submit(_, _, now, _) => now
    case Finish(_, _, _, _, now) => now
  }

  function End(op: Op): int {
    match op
    case Analyze(_, _, _, at, _) => at.reset
    case Tick(_, _, reset, _) => reset
    case Submit(_, _, now, _) => now
    case Finish(_, _, _, _, now) => now
  }

  /** The clock does not run backwards within an operation. */
  predicate InOrder(op: Op) {
    match op
    case Analyze(_, _, _, at, _) => at.entry <= at.stamp <= at.check <= at.reset
    case Tick(_, check, reset, _) => check <= reset
    case _ => true
  }

  ghost predicate Timely(ops: seq<Op>) {
    (forall i | 0 <= i < |ops| :: InOrder(ops[i])) && forall i | 0 < i < |ops| :: End(ops[i - 1]) <= Start(ops[i])
  }

  /** The event arrived in the submission that started the clock, which is read a little after the event is stored. */
  ghost predicate Opening(s: State, t: AnalysisType, arrival: int) {
    t in s.past.starters && arrival == s.past.starters[t]
  }

  /** The clock of a buffer is not later than any waiting event, except for those of the submission that started it. */
  ghost predicate ClockSound(s: State, t: AnalysisType, clock: int) {
    && |s.Arrivals(t)| == |s.Buffer(t)|
    && (t in s.timestamps ==> s.timestamps[t] <= clock)
    && (t in s.past.starters ==> t in s.timestamps && s.past.starters[t] <= s.timestamps[t])
    && (s.Buffer(t) != [] ==> t in s.timestamps)
    && forall a | a in s.Arrivals(t) && !Opening(s, t, a) :: t in s.timestamps && s.timestamps[t] <= a
  }

  lemma ExtendClockSound(s: State, events: seq<Event>, u: AnalysisType, entry: int, stamp: int, t: AnalysisType,
                         clock: int)
    requires ClockSound(s, t, clock) && clock <= entry <= stamp
    ensures ClockSound(Extend(s, events, u, entry, stamp), t, stamp)
  {
    var x := Extend(s, events, u, entry, stamp);
    if t == u {
      assert x.Arrivals(t) == s.Arrivals(t) + Stamps(|events|, entry);
      forall a | a in x.Arrivals(t) && !Opening(x, t, a) ensures x.timestamps[t] <= a {
        if a in s.Arrivals(t) {
        } else {
          assert a == entry;
        }
      }
    }
  }

  lemma BatchClockSound(s: State, u: AnalysisType, now: int, id: JobId, t: AnalysisType, clock: int)
    requires ClockSound(s, t, clock) && clock <= now
    ensures ClockSound(ProcessBatch(s, u, now, id), t, now)
  {
  }

  lemma ApplyClockSound(cfg: Config, s: State, op: Op, t: AnalysisType, clock: int)
    requires ClockSound(s, t, clock) && clock <= Start(op) && InOrder(op)
    ensures ClockSound(Apply(cfg, s, op), t, End(op))
  {
    match op {
      case Analyze(events, u, _, at, id) =>
        ExtendClockSound(s, events, u, at.entry, at.stamp, t, clock);
        BatchClockSound(Extend(s, events, u, at.entry, at.stamp), u, at.reset, id, t, at.stamp);
      case Tick(u, _, reset, id) => BatchClockSound(s, u, reset, id, t, clock);
      case Submit(_, _, _, _) =>
      case Finish(_, _, _, _, _) =>
    }
  }

  lemma {:induction false} RunClockSound(cfg: Config, ops: seq<Op>, t: AnalysisType, clock: int)
    requires Timely(ops) && (ops != [] ==> End(ops[|ops| - 1]) <= clock)
    ensures ClockSound(Run(cfg, ops), t, clock)
  {
    if ops == [] {
    } else {
      var front, last := ops[..|ops| - 1], ops[|ops| - 1];
      RunClockSound(cfg, front, t, Start(last));
      ApplyClockSound(cfg, Run(cfg, front), last, t, Start(last));
    }
  }

  /**
   A submission that makes no job leaves a buffer that is empty, or not full, not forced and not old: every waiting
   event arrived less than the maximal age before the age was read, except that the events of the submission that
   started the clock may be older by the time between storing them and reading the clock.
   */
  lemma NoJobMeansYoung(cfg: Config, ops: seq<Op>, op: Op)
    requires op.Analyze? && Timely(ops + [op])
    requires Run(cfg, ops + [op]).past.created == Run(cfg, ops).past.created
    ensures var s := Run(cfg, ops + [op]);
            var t := op.analysisType;
            s.Buffer(t) == [] ||
            (!op.force && |s.Buffer(t)| < cfg.batchSize && t in s.timestamps &&
             forall a | a in s.Arrivals(t) ::
               op.at.check - a < cfg.maxBatchAge + if Opening(s, t, a) then s.timestamps[t] - a else 0)
  {
    var all := ops + [op];
    var t := op.analysisType;
    assert all[..|ops|] == ops && all[|ops|] == op;
    assert ops != [] ==> End(all[|ops| - 1]) <= Start(all[|ops|]);
    assert forall i | 0 <= i < |ops| :: all[i] == ops[i];
    assert InOrder(all[|ops|]);
    var s := Run(cfg, ops);
    var x := Extend(s, op.events, t, op.at.entry, op.at.stamp);
    RunClockSound(cfg, ops, t, op.at.entry);
    ExtendClockSound(s, op.events, t, op.at.entry, op.at.stamp, t, op.at.entry);
    var made := ProcessBatch(x, t, op.at.reset, op.id);
    assert x.Buffer(t) != [] ==> |made.past.created| == |s.past.created| + 1;
  }

  /** So without a job all waiting events are younger than the maximal age exactly when the opening ones are. */
  lemma YoungExactly(cfg: Config, ops: seq<Op>, op: Op)
    requires op.Analyze? && Timely(ops + [op])
    requires Run(cfg, ops + [op]).past.created == Run(cfg, ops).past.created
    ensures var s := Run(cfg, ops + [op]);
            var t := op.analysisType;
            (forall a | a in s.Arrivals(t) :: op.at.check - a < cfg.maxBatchAge) <==>
            (t in s.past.starters && s.past.starters[t] in s.Arrivals(t) ==>
               op.at.check - s.past.starters[t] < cfg.maxBatchAge)
  {
    var s := Run(cfg, ops + [op]);
    NoJobMeansYoung(cfg, ops, op);
    RunClockSound(cfg, ops + [op], op.analysisType, op.at.reset);
    if s.Buffer(op.analysisType) == [] {
      assert s.Arrivals(op.analysisType) == [];
    }
  }

  /** The opening events can be older: any gap between storing them and reading the clock makes that possible. */
  lemma OpeningWaitsLonger(cfg: Config, e: Event, gap: int, id: JobId)
    requires gap >= 1 && cfg.batchSize >= 2 && cfg.maxBatchAge >= 1
    ensures var check := gap + cfg.maxBatchAge - 1;
            var ops := [Analyze([e], 0, false, Moments(0, gap, check, check), id)];
            && Timely(ops) && Run(cfg, ops).past.created == []
            && Run(cfg, ops).Buffer(0) == [e] && Run(cfg, ops).Arrivals(0) == [0]
            && check - 0 >= cfg.maxBatchAge
  {
    var check := gap + cfg.maxBatchAge - 1;
    var op := Analyze([e], 0, false, Moments(0, gap, check, check), id);
    assert [op][..0] == [];
    assert Run(cfg, [op]) == Apply(cfg, INITIAL, op);
    assert Stamps(1, 0) == [0];
    assert Extend(INITIAL, [e], 0, 0, gap).Buffer(0) == [e];
  }

  /** The timer never meets a waiting event without a clock. */
  lemma {:induction false} TickHasClock(cfg: Config, ops: seq<Op>, t: AnalysisType)
    requires Timely(ops) && Run(cfg, ops).Buffer(t) != []
    ensures t in Run(cfg, ops).timestamps
  {
    RunClockSound(cfg, ops, t, if ops == [] then 0 else End(ops[|ops| - 1]));
  }

  // ----- when a job is made -----

  /** When the clock of a buffer was last read: at its last batch, or else at the first submission. */
  ghost function ClockOf(cfg: Config, ops: seq<Op>, t: AnalysisType): Option<int> {
    if ops == [] then None
    else
      var front, last := ops[..|ops| - 1], ops[|ops| - 1];
      var before := ClockOf(cfg, front, t);
      if (last.Analyze? || last.Tick?) && last.analysisType == t then
        if Run(cfg, ops).past.created != Run(cfg, front).past.created then Some(End(last))
        else if before == None && last.Analyze? then Some(last.at.stamp)
        else before
      else before
  }

  ghost function ClockIn(s: State, t: AnalysisType): Option<int> {
    if t in s.timestamps then Some(s.timestamps[t]) else None
  }

  lemma BatchMade(s: State, u: AnalysisType, now: int, id: JobId, t: AnalysisType)
    ensures var r := ProcessBatch(s, u, now, id);
            && (r.past.created != s.past.created <==> s.Buffer(u) != [])
            && ClockIn(r, t) == if t == u && s.Buffer(u) != [] then Some(now) else ClockIn(s, t)
  {
    var r := ProcessBatch(s, u, now, id);
    assert s.Buffer(u) != [] ==> |r.past.created| == |s.past.created| + 1;
  }

  lemma ApplyClock(cfg: Config, s: State, op: Op, t: AnalysisType)
    ensures var r := Apply(cfg, s, op);
            var own := (op.Analyze? || op.Tick?) && op.analysisType == t;
            ClockIn(r, t) ==
            if own && r.past.created != s.past.created then Some(End(op))
            else if own && op.Analyze? && ClockIn(s, t) == None then Some(op.at.stamp)
            else ClockIn(s, t)
  {
    match op {
      case Analyze(events, u, _, at, id) =>
        BatchMade(Extend(s, events, u, at.entry, at.stamp), u, at.reset, id, t);
      case Tick(u, _, reset, id) => BatchMade(s, u, reset, id, t);
      case Submit(_, _, _, _) =>
      case Finish(_, _, _, _, _) =>
    }
  }

  lemma {:induction false} ClockIsHistory(cfg: Config, ops: seq<Op>, t: AnalysisType)
    ensures ClockIn(Run(cfg, ops), t) == ClockOf(cfg, ops, t)
  {
    if ops == [] {
    } else {
      ClockIsHistory(cfg, ops[..|ops| - 1], t);
      ApplyClock(cfg, Run(cfg, ops[..|ops| - 1]), ops[|ops| - 1], t);
    }
  }

  lemma RunOne(cfg: Config, ops: seq<Op>, op: Op)
    ensures Run(cfg, ops + [op]) == Apply(cfg, Run(cfg, ops), op)
  {
    assert (ops + [op])[..|ops|] == ops;
  }

  /** A submission makes a job exactly when something waits, and it is forced, full, or the clock reached the age. */
  lemma SubmissionMakesJob(cfg: Config, ops: seq<Op>, op: Op)
    requires op.Analyze?
    ensures var s, r, t := Run(cfg, ops), Run(cfg, ops + [op]), op.analysisType;
            var waiting := s.Buffer(t) + op.events;
            var clock := ClockOf(cfg, ops, t).UnwrapOr(op.at.stamp);
            if waiting != [] &&
               (op.force || |waiting| >= cfg.batchSize || op.at.check - clock >= cfg.maxBatchAge)
            then r.past.created == s.past.created + [Job(op.id, BatchMode, t, waiting)] && r.Buffer(t) == []
            else r.past.created == s.past.created && r.Buffer(t) == waiting
  {
    RunOne(cfg, ops, op);
    ClockIsHistory(cfg, ops, op.analysisType);
  }

  lemma TickRule(cfg: Config, s: State, t: AnalysisType, check: int, reset: int, id: JobId)
    ensures var r := Apply(cfg, s, Tick(t, check, reset, id));
            var waiting := s.Buffer(t);
            if waiting != [] && ClockIn(s, t).Some? &&
               (|waiting| >= cfg.batchSize || check - ClockIn(s, t).value >= cfg.maxBatchAge ||
                |waiting| as real >= cfg.batchSize as real * cfg.flushFraction)
            then r.past.created == s.past.created + [Job(id, BatchMode, t, waiting)] && r.Buffer(t) == []
            else r.past.created == s.past.created && r.Buffer(t) == waiting
  {
  }

  /** A tick makes a job exactly when something waits that is full or nearly full, or the clock reached the age. */
  lemma TickMakesJob(cfg: Config, ops: seq<Op>, t: AnalysisType, check: int, reset: int, id: JobId)
    ensures var s := Run(cfg, ops);
            var r := Run(cfg, ops + [Tick(t, check, reset, id)]);
            var waiting := s.Buffer(t);
            var clock := ClockOf(cfg, ops, t);
            if waiting != [] && clock.Some? &&
               (|waiting| >= cfg.batchSize || check - clock.value >= cfg.maxBatchAge ||
                |waiting| as real >= cfg.batchSize as real * cfg.flushFraction)
            then r.past.created == s.past.created + [Job(id, BatchMode, t, waiting)] && r.Buffer(t) == []
            else r.past.created == s.past.created && r.Buffer(t) == waiting
  {
    RunOne(cfg, ops, Tick(t, check, reset, id));
    ClockIsHistory(cfg, ops, t);
    TickRule(cfg, Run(cfg, ops), t, check, reset, id);
  }

  lemma TimelyFront(ops: seq<Op>, op: Op)
    requires Timely(ops + [op])
    ensures Timely(ops) && InOrder(op) && (ops != [] ==> End(ops[|ops| - 1]) <= Start(op))
  {
    var all := ops + [op];
    assert all[|ops|] == op && InOrder(all[|ops|]);
    assert forall i | 0 <= i < |ops| :: all[i] == ops[i];
    assert ops != [] ==> End(all[|ops| - 1]) <= Start(all[|ops|]);
  }

  /**
   After a tick of its type a buffer is empty, or neither full nor nearly full, and every waiting event is younger than
   the maximal age, with the same exception for the submission that started the clock.
   */
  lemma TickMeansYoung(cfg: Config, ops: seq<Op>, op: Op)
    requires op.Tick? && Timely(ops + [op])
    ensures var s, t := Run(cfg, ops + [op]), op.analysisType;
            s.Buffer(t) == [] ||
            (|s.Buffer(t)| < cfg.batchSize && |s.Buffer(t)| as real < cfg.batchSize as real * cfg.flushFraction &&
             t in s.timestamps &&
             forall a | a in s.Arrivals(t) ::
               op.check - a < cfg.maxBatchAge + if Opening(s, t, a) then s.timestamps[t] - a else 0)
  {
    var t := op.analysisType;
    TimelyFront(ops, op);
    RunOne(cfg, ops, op);
    RunClockSound(cfg, ops, t, op.check);
  }

  // ----- accounting of jobs -----

  /** The identifier an operation gives to a new job, if it makes one. */
  ghost function NewIds(cfg: Config, s: State, op: Op): set<JobId> {
    match op
    case Analyze(events, t, force, at, id) =>
      var x := Extend(s, events, t, at.entry, at.stamp);
      if Due(cfg, x, t, force, at.check) && x.Buffer(t) != [] then {id} else {}
    case Tick(t, check, _, id) => if TickDue(cfg, s, t, check) then {id} else {}
    case Submit(_, _, _, id) => {id}
    case Finish(_, _, _, _, _) => {}
  }

  ghost function Issued(cfg: Config, ops: seq<Op>): set<JobId> {
    if ops == [] then {}
    else
      var front, last := ops[..|ops| - 1], ops[|ops| - 1];
      Issued(cfg, front) + NewIds(cfg, Run(cfg, front), last)
  }

  /** New jobs get identifiers that were never used before. */
  ghost predicate FreshIds(cfg: Config, ops: seq<Op>) {
    forall i | 0 <= i < |ops| :: NewIds(cfg, Run(cfg, ops[..i]), ops[i]) !! Issued(cfg, ops[..i])
  }

  /** Every issued job is active or completed, never both. */
  ghost predicate JobsSplit(s: State, issued: set<JobId>) {
    s.activeJobs.Keys !! s.completedJobs.Keys && s.activeJobs.Keys + s.completedJobs.Keys == issued
  }

  /** The running average is the sum of all processing times over their number. */
  ghost predicate MeanExact(average: real, total: nat, times: seq<real>) {
    total == |times| && average * total as real == Sum(times)
  }

  ghost function Times(done: seq<Done>): seq<real> {
    seq(|done|, i requires 0 <= i < |done| => done[i].time)
  }

  lemma MeanStep(average: real, total: nat, times: seq<real>, x: real)
    requires MeanExact(average, total, times)
    ensures MeanExact(NextAverage(average, total + 1, x), total + 1, times + [x])
  {
    assert (times + [x])[..|times|] == times;
  }

  /** What the statistics are about: the finished jobs of a type, of a mode, with an outcome, and the responses. */
  ghost function OfType(done: seq<Done>, t: AnalysisType): nat {
    if done == [] then 0
    else OfType(done[..|done| - 1], t) + if done[|done| - 1].job.analysisType == t then 1 else 0
  }

  ghost function OfMode(done: seq<Done>, m: Mode): nat {
    if done == [] then 0 else OfMode(done[..|done| - 1], m) + if done[|done| - 1].job.mode == m then 1 else 0
  }

  /** The identifiers of the successful jobs, in order. */
  ghost function Successes(done: seq<Done>): seq<JobId> {
    if done == [] then []
    else Successes(done[..|done| - 1]) + if done[|done| - 1].success then [done[|done| - 1].job.id] else []
  }

  /** All responses that successful jobs were built from. */
  ghost function Responders(done: seq<Done>): multiset<Provider> {
    if done == [] then multiset{}
    else
      Responders(done[..|done| - 1]) +
      if done[|done| - 1].success then multiset(done[|done| - 1].responders) else multiset{}
  }

  ghost predicate StatsExact(x: Stats, done: seq<Done>) {
    && x.total == |done| == x.successful + x.failed
    && x.successful == |Successes(done)|
    && x.realTime == OfMode(done, RealTime) && x.batch == OfMode(done, BatchMode)
    && MeanExact(x.averageTime, x.total, Times(done))
  }

  ghost predicate TalliesExact(x: Stats, done: seq<Done>, t: AnalysisType, p: Provider) {
    Tally(x.byType, t) == OfType(done, t) && Tally(x.byProvider, p) == Responders(done)[p]
  }

  lemma DoneAppend(done: seq<Done>, d: Done)
    ensures (done + [d])[..|done|] == done
    ensures Times(done + [d]) == Times(done) + [d.time]
  {
  }

  lemma CountExact(x: Stats, done: seq<Done>, d: Done)
    requires StatsExact(x, done)
    ensures StatsExact(Count(x, d), done + [d])
  {
    DoneAppend(done, d);
    MeanStep(x.averageTime, x.total, Times(done), d.time);
  }

  lemma CountTallies(x: Stats, done: seq<Done>, d: Done, t: AnalysisType, p: Provider)
    requires TalliesExact(x, done, t, p)
    ensures TalliesExact(Count(x, d), done + [d], t, p)
  {
    DoneAppend(done, d);
    BumpAllTally(x.byProvider, d.responders, p);
  }

  lemma RememberLast(ids: seq<JobId>, id: JobId)
    ensures Remember(Last(ids, HISTORY), id) == Last(ids + [id], HISTORY)
  {
  }

  lemma CompleteSplits(s: State, issued: set<JobId>, id: JobId, success: bool, responders: seq<Provider>,
                       time: real)
    requires JobsSplit(s, issued)
    ensures JobsSplit(Complete(s, id, success, responders, time), issued)
  {
    var t := Complete(s, id, success, responders, time);
    if id in s.activeJobs {
      assert t.activeJobs.Keys == s.activeJobs.Keys - {id};
      assert t.completedJobs.Keys == s.completedJobs.Keys + {id};
    }
  }

  /** Only a finished job touches the statistics. */
  lemma OthersLeaveStats(cfg: Config, s: State, op: Op)
    requires !op.Finish?
    ensures var t := Apply(cfg, s, op);
            && t.completedJobs == s.completedJobs && t.past.done == s.past.done
            && t.stats == s.stats && t.jobHistory == s.jobHistory
  {
  }

  lemma JobAdded(s: State, t: State, issued: set<JobId>, id: JobId)
    requires JobsSplit(s, issued) && id !in issued
    requires t.activeJobs.Keys == s.activeJobs.Keys + {id} && t.completedJobs == s.completedJobs
    ensures JobsSplit(t, issued + {id})
  {
  }

  /** The effect of an operation on the job tables: one fresh job, one finished job, or nothing. */
  lemma ApplySplits(cfg: Config, s: State, op: Op, issued: set<JobId>)
    requires JobsSplit(s, issued)
    requires NewIds(cfg, s, op) !! issued
    ensures JobsSplit(Apply(cfg, s, op), issued + NewIds(cfg, s, op))
  {
    match op {
      case Analyze(_, _, _, _, id) =>
        if id in NewIds(cfg, s, op) { JobAdded(s, Apply(cfg, s, op), issued, id); }
      case Tick(_, _, _, id) =>
        if id in NewIds(cfg, s, op) { JobAdded(s, Apply(cfg, s, op), issued, id); }
      case Submit(_, _, _, id) =>
        JobAdded(s, Apply(cfg, s, op), issued, id);
      case Finish(id, success, responders, time, _) => CompleteSplits(s, issued, id, success, responders, time);
    }
  }

  lemma FreshFront(cfg: Config, ops: seq<Op>)
    requires FreshIds(cfg, ops) && ops != []
    ensures FreshIds(cfg, ops[..|ops| - 1])
    ensures NewIds(cfg, Run(cfg, ops[..|ops| - 1]), ops[|ops| - 1]) !! Issued(cfg, ops[..|ops| - 1])
  {
    var front := ops[..|ops| - 1];
    forall i | 0 <= i < |front| ensures NewIds(cfg, Run(cfg, front[..i]), front[i]) !! Issued(cfg, front[..i]) {
      assert front[..i] == ops[..i] && front[i] == ops[i];
    }
  }

  /** With fresh identifiers every job issued so far is active or completed, never both. */
  lemma {:induction false} RunSplits(cfg: Config, ops: seq<Op>)
    requires FreshIds(cfg, ops)
    ensures JobsSplit(Run(cfg, ops), Issued(cfg, ops))
  {
    if ops == [] {
    } else {
      var front := ops[..|ops| - 1];
      FreshFront(cfg, ops);
      RunSplits(cfg, front);
      ApplySplits(cfg, Run(cfg, front), ops[|ops| - 1], Issued(cfg, front));
    }
  }

  ghost predicate Keyed(s: State, id: JobId) {
    id in s.activeJobs ==> s.activeJobs[id].id == id
  }

  lemma CompleteCounts(s: State, id: JobId, success: bool, responders: seq<Provider>, time: real)
    requires id in s.activeJobs && Keyed(s, id)
    requires StatsExact(s.stats, s.past.done) && s.jobHistory == Last(Successes(s.past.done), HISTORY)
    ensures var t := Complete(s, id, success, responders, time);
            StatsExact(t.stats, t.past.done) && t.jobHistory == Last(Successes(t.past.done), HISTORY)
  {
    var d := Done(s.activeJobs[id], success, responders, time);
    DoneAppend(s.past.done, d);
    CountExact(s.stats, s.past.done, d);
    RememberLast(Successes(s.past.done), id);
    assert Successes(s.past.done + [d]) == if success then Successes(s.past.done) + [id] else Successes(s.past.done);
  }

  /** In every run the counters are those of the finished jobs, and the running average is their exact mean. */
  lemma {:induction false} RunCounts(cfg: Config, ops: seq<Op>)
    ensures StatsExact(Run(cfg, ops).stats, Run(cfg, ops).past.done)
    ensures Run(cfg, ops).jobHistory == Last(Successes(Run(cfg, ops).past.done), 1000)
  {
    if ops == [] {
    } else {
      var front, last := ops[..|ops| - 1], ops[|ops| - 1];
      var s := Run(cfg, front);
      RunCounts(cfg, front);
      if !last.Finish? {
        OthersLeaveStats(cfg, s, last);
      } else if last.id in s.activeJobs {
        RunKeyed(cfg, front, last.id);
        CompleteCounts(s, last.id, last.success, last.responders, last.processingTime);
      }
    }
  }

  lemma BatchKeyed(s: State, t: AnalysisType, now: int, made: JobId, id: JobId)
    requires Keyed(s, id)
    ensures Keyed(ProcessBatch(s, t, now, made), id)
  {
  }

  lemma ApplyKeyed(cfg: Config, s: State, op: Op, id: JobId)
    requires Keyed(s, id)
    ensures Keyed(Apply(cfg, s, op), id)
  {
    match op {
      case Analyze(events, t, _, at, made) =>
        BatchKeyed(Extend(s, events, t, at.entry, at.stamp), t, at.reset, made, id);
      case Tick(t, _, reset, made) => BatchKeyed(s, t, reset, made, id);
      case Submit(_, _, _, _) =>
      case Finish(_, _, _, _, _) =>
    }
  }

  /** An active job is filed under its own identifier. */
  lemma {:induction false} RunKeyed(cfg: Config, ops: seq<Op>, id: JobId)
    ensures Keyed(Run(cfg, ops), id)
  {
    if ops == [] {
    } else {
      RunKeyed(cfg, ops[..|ops| - 1], id);
      ApplyKeyed(cfg, Run(cfg, ops[..|ops| - 1]), ops[|ops| - 1], id);
    }
  }

  /** The jobs submitted for immediate analysis. */
  ghost function SubmittedJobs(ops: seq<Op>): set<Job> {
    if ops == [] then {}
    else
      var last := ops[|ops| - 1];
      SubmittedJobs(ops[..|ops| - 1]) +
      if last.Submit? then {Job(last.id, RealTime, last.analysisType, last.events)} else {}
  }

  /** A job is one of the batches made, in batch mode, or one that was submitted, in real-time mode. */
  ghost predicate HasOrigin(job: Job, created: seq<Job>, submitted: set<Job>) {
    if job.mode == BatchMode then job in created else job in submitted
  }

  ghost predicate AllOrigins(s: State, submitted: set<Job>) {
    && (forall job | job in s.past.created :: job.mode == BatchMode)
    && (forall id | id in s.activeJobs :: HasOrigin(s.activeJobs[id], s.past.created, submitted))
    && forall d | d in s.past.done :: HasOrigin(d.job, s.past.created, submitted)
  }

  lemma BatchOrigins(s: State, t: AnalysisType, now: int, id: JobId, submitted: set<Job>)
    requires AllOrigins(s, submitted)
    ensures AllOrigins(ProcessBatch(s, t, now, id), submitted)
  {
    if s.Buffer(t) != [] {
      var job := Job(id, BatchMode, t, s.Buffer(t));
      var longer := s.past.created + [job];
      assert longer[|s.past.created|] == job;
      assert forall j | j in s.past.created :: j in longer;
    }
  }

  lemma ApplyOrigins(cfg: Config, s: State, op: Op, submitted: set<Job>)
    requires AllOrigins(s, submitted)
    ensures AllOrigins(Apply(cfg, s, op),
                       submitted + if op.Submit? then {Job(op.id, RealTime, op.analysisType, op.events)} else {})
  {
    assert submitted + {} == submitted;
    match op {
      case Analyze(events, t, _, at, id) =>
        BatchOrigins(Extend(s, events, t, at.entry, at.stamp), t, at.reset, id, submitted);
      case Tick(t, _, reset, id) => BatchOrigins(s, t, reset, id, submitted);
      case Submit(_, _, _, _) =>
      case Finish(_, _, _, _, _) =>
    }
  }

  /** In every run each active or finished job is a batch of the engine or was submitted, and its mode says which. */
  lemma {:induction false} RunOrigins(cfg: Config, ops: seq<Op>)
    ensures AllOrigins(Run(cfg, ops), SubmittedJobs(ops))
  {
    if ops == [] {
    } else {
      RunOrigins(cfg, ops[..|ops| - 1]);
      ApplyOrigins(cfg, Run(cfg, ops[..|ops| - 1]), ops[|ops| - 1], SubmittedJobs(ops[..|ops| - 1]));
    }
  }

  /** The completed result of a job is that of its last finish. */
  ghost function LastDone(done: seq<Done>, id: JobId): Option<Finished> {
    if done == [] then None
    else
      var last := done[|done| - 1];
      if last.job.id == id then Some(Finished(last.success, last.time)) else LastDone(done[..|done| - 1], id)
  }

  ghost function ResultIn(s: State, id: JobId): Option<Finished> {
    if id in s.completedJobs then Some(s.completedJobs[id]) else None
  }

  lemma CompleteResults(s: State, job: JobId, success: bool, responders: seq<Provider>, time: real, id: JobId)
    requires Keyed(s, job) && ResultIn(s, id) == LastDone(s.past.done, id)
    ensures var r := Complete(s, job, success, responders, time); ResultIn(r, id) == LastDone(r.past.done, id)
  {
    if job in s.activeJobs {
      DoneAppend(s.past.done, Done(s.activeJobs[job], success, responders, time));
    }
  }

  /** In every run a job is completed exactly when it has finished, with the outcome and the time of its last finish. */
  lemma {:induction false} RunResults(cfg: Config, ops: seq<Op>, id: JobId)
    ensures ResultIn(Run(cfg, ops), id) == LastDone(Run(cfg, ops).past.done, id)
  {
    if ops == [] {
    } else {
      var front, last := ops[..|ops| - 1], ops[|ops| - 1];
      RunResults(cfg, front, id);
      if last.Finish? {
        RunKeyed(cfg, front, last.id);
        CompleteResults(Run(cfg, front), last.id, last.success, last.responders, last.processingTime, id);
      } else {
        OthersLeaveStats(cfg, Run(cfg, front), last);
      }
    }
  }

  /** The counters by analysis type and by provider are exact too. */
  lemma {:induction false} RunTallies(cfg: Config, ops: seq<Op>, t: AnalysisType, p: Provider)
    ensures TalliesExact(Run(cfg, ops).stats, Run(cfg, ops).past.done, t, p)
  {
    if ops == [] {
    } else {
      var front, last := ops[..|ops| - 1], ops[|ops| - 1];
      var s := Run(cfg, front);
      RunTallies(cfg, front, t, p);
      if !last.Finish? {
        OthersLeaveStats(cfg, s, last);
      } else if last.id in s.activeJobs {
        var d := Done(s.activeJobs[last.id], last.success, last.responders, last.processingTime);
        CountTallies(s.stats, s.past.done, d, t, p);
      }
    }
  }

  lemma CompleteAddsKey(s: State, id: JobId, success: bool, responders: seq<Provider>, time: real)
    requires id in s.activeJobs && id !in s.completedJobs.Keys
    ensures |Complete(s, id, success, responders, time).completedJobs.Keys| == |s.completedJobs.Keys| + 1
  {
    assert Complete(s, id, success, responders, time).completedJobs.Keys == s.completedJobs.Keys + {id};
  }

  /** With fresh identifiers the finished jobs are the completed ones, each counted once. */
  lemma {:induction false} RunCompletes(cfg: Config, ops: seq<Op>)
    requires FreshIds(cfg, ops)
    ensures Run(cfg, ops).stats.total == |Run(cfg, ops).completedJobs.Keys|
  {
    if ops == [] {
    } else {
      var last := ops[|ops| - 1];
      var s := Run(cfg, ops[..|ops| - 1]);
      FreshFront(cfg, ops);
      RunCompletes(cfg, ops[..|ops| - 1]);
      if !last.Finish? {
        OthersLeaveStats(cfg, s, last);
      } else if last.id in s.activeJobs {
        RunSplits(cfg, ops[..|ops| - 1]);
        CompleteAddsKey(s, last.id, last.success, last.responders, last.processingTime);
      }
    }
  }

  // ----- the engine object -----

  /** One look of the batch timer at one analysis type. */
  datatype Look = Look(analysisType: AnalysisType, check: int, reset: int, id: JobId)

  ghost function TickAll(cfg: Config, s: State, looks: seq<Look>): State {
    if looks == [] then s
    else
      var last := looks[|looks| - 1];
      Apply(cfg, TickAll(cfg, s, looks[..|looks| - 1]), Tick(last.analysisType, last.check, last.reset, last.id))
  }

  class Engine {
    const cfg: Config
    var batchBuffer: map<AnalysisType, seq<Event>>
    var batchTimestamps: map<AnalysisType, int>
    var activeJobs: map<JobId, Job>
    var completedJobs: map<JobId, Finished>
    var jobHistory: seq<JobId>
    var stats: Stats
    ghost var past: Past

    ghost function View(): State
      reads this
    {
      State(batchBuffer, batchTimestamps, activeJobs, completedJobs, jobHistory, stats, past)
    }

    constructor (config: Config)
      ensures cfg == config && View() == INITIAL
    {
      cfg := config;
      batchBuffer, batchTimestamps, activeJobs, completedJobs, jobHistory := map[], map[], map[], map[], [];
      stats, past := NO_STATS, Past(map[], map[], [], []);
    }

    method ExtendBuffer(events: seq<Event>, t: AnalysisType, entry: int, stamp: int)
      modifies this
      ensures View() == Extend(old(View()), events, t, entry, stamp)
      ensures t in batchBuffer && t in batchTimestamps
    {
      ghost var before := View();
      batchBuffer := batchBuffer[t := (if t in batchBuffer then batchBuffer[t] else []) + events];
      if t !in batchTimestamps {
        batchTimestamps := batchTimestamps[t := stamp];
      }
      past := Extend(before, events, t, entry, stamp).past;
    }

    method MakeBatch(t: AnalysisType, now: int, id: JobId) returns (r: Option<JobId>)
      modifies this
      ensures View() == ProcessBatch(old(View()), t, now, id)
      ensures r == if old(View()).Buffer(t) == [] then None else Some(id)
    {
      if t !in batchBuffer || batchBuffer[t] == [] {
        return None;
      }
      ghost var before := View();
      var events := batchBuffer[t];
      batchBuffer := batchBuffer[t := []];
      batchTimestamps := batchTimestamps[t := now];
      var job := Job(id, BatchMode, t, events);
      activeJobs := activeJobs[id := job];
      past := ProcessBatch(before, t, now, id).past;
      return Some(id);
    }

    method AnalyzeBatch(events: seq<Event>, t: AnalysisType, force: bool, at: Moments, id: JobId)
      returns (r: Option<JobId>)
      modifies this
      ensures View() == Apply(cfg, old(View()), Analyze(events, t, force, at, id))
      ensures r == None <==> past.created == old(past.created)
    {
      ExtendBuffer(events, t, at.entry, at.stamp);
      if force || |batchBuffer[t]| >= cfg.batchSize || at.check - batchTimestamps[t] >= cfg.maxBatchAge {
        r := MakeBatch(t, at.reset, id);
        assert |past.created| == |old(past.created)| + 1 <==> r.Some?;
      } else {
        r := None;
      }
    }

    method BatchProcessorTurn(looks: seq<Look>)
      modifies this
      ensures View() == TickAll(cfg, old(View()), looks)
    {
      for i := 0 to |looks|
        invariant View() == TickAll(cfg, old(View()), looks[..i])
      {
        assert looks[..i + 1][..i] == looks[..i];
        LookAt(looks[i]);
      }
      assert looks[..|looks|] == looks;
    }

    method LookAt(look: Look)
      modifies this
      ensures View() == Apply(cfg, old(View()), Tick(look.analysisType, look.check, look.reset, look.id))
    {
      var t := look.analysisType;
      if t in batchBuffer && batchBuffer[t] != [] && t in batchTimestamps {
        var age := look.check - batchTimestamps[t];
        var size := |batchBuffer[t]|;
        if size >= cfg.batchSize || age >= cfg.maxBatchAge ||
           size as real >= cfg.batchSize as real * cfg.flushFraction {
          var r := MakeBatch(t, look.reset, look.id);
        }
      }
    }

    method AnalyzeRealTime(events: seq<Event>, t: AnalysisType, now: int, id: JobId)
      modifies this
      ensures View() == Apply(cfg, old(View()), Submit(events, t, now, id))
    {
      var job := Job(id, RealTime, t, events);
      activeJobs := activeJobs[id := job];
    }

    method FinishJob(id: JobId, success: bool, responders: seq<Provider>, time: real)
      requires id in activeJobs
      modifies this
      ensures View() == Complete(old(View()), id, success, responders, time)
    {
      var job := activeJobs[id];
      completedJobs := completedJobs[id := Finished(success, time)];
      if success {
        jobHistory := Remember(jobHistory, id);
      }
      UpdateStats(job, success, if success then responders else [], time);
      activeJobs := activeJobs - {id};
      past := past.(done := past.done + [Done(job, success, responders, time)]);
    }

    /** A failed job has an empty result, without responses. */
    method UpdateStats(job: Job, success: bool, responders: seq<Provider>, time: real)
      requires !success ==> responders == []
      modifies this`stats
      ensures stats == Count(old(stats), Done(job, success, responders, time))
    {
      stats := stats.(total := stats.total + 1);
      if job.mode == RealTime {
        stats := stats.(realTime := stats.realTime + 1);
      } else if job.mode == BatchMode {
        stats := stats.(batch := stats.batch + 1);
      }
      if success {
        stats := stats.(successful := stats.successful + 1);
      } else {
        stats := stats.(failed := stats.failed + 1);
      }
      stats := stats.(byType := Bump(stats.byType, job.analysisType));
      ghost var before := stats;
      for i := 0 to |responders|
        invariant stats == before.(byProvider := BumpAll(before.byProvider, responders[..i]))
      {
        assert responders[..i + 1][..i] == responders[..i];
        stats := stats.(byProvider := Bump(stats.byProvider, responders[i]));
      }
      assert responders[..|responders|] == responders;
      stats := stats.(averageTime := NextAverage(stats.averageTime, stats.total, time));
    }
  }
}
