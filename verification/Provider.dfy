/** One AI provider: health metrics, request limiter and circuit breaker. */
module Provider {
  import opened Prelude
  import opened SlidingWindow

  datatype Status = Healthy | Degraded | Unhealthy | Offline

  datatype Settings = Settings(limits: Limits, threshold: int, timeout: int)

  datatype Health = Health(
    status: Status,
    totalRequests: nat,
    successfulRequests: nat,
    failedRequests: nat,
    consecutiveFailures: nat,
    errorRate: real,
    averageResponseTime: real,
    responseTimes: seq<real>,
    lastRequest: Option<int>,
    lastSuccess: Option<int>,
    lastError: Option<int>)

  const FRESH := Health(Healthy, 0, 0, 0, 0, 0.0, 0.0, [], None, None, None)

  /** What a provider object holds, and the history of the requests tracked. The settings never change. */
  datatype State = State(
    settings: Settings,
    enabled: bool,
    health: Health,
    rateLimiter: seq<int>,
    openTime: Option<int>,
    tracked: seq<int>)

  const MAX_SAMPLES := 100

  // ----- the operations -----

  function Push(samples: seq<real>, sample: real): seq<real> {
    var longer := samples + [sample];
    if |longer| > MAX_SAMPLES then longer[|longer| - MAX_SAMPLES..] else longer
  }

  function Mean(xs: seq<real>): real
    requires xs != []
  {
    Sum(xs) / |xs| as real
  }

  function StatusOf(enabled: bool, open: bool, errorRate: real): Status {
    if !enabled then Offline
    else if open then Unhealthy
    else if errorRate > 0.5 then Unhealthy
    else if errorRate > 0.2 then Degraded
    else Healthy
  }

  predicate BreakerOpenAt(p: State, now: int) {
    p.openTime.Some? && now - p.openTime.value <= p.settings.timeout
  }

  function AfterBreakerCheck(p: State, now: int): State {
    if p.openTime.Some? && !BreakerOpenAt(p, now)
    then p.(openTime := None, health := p.health.(consecutiveFailures := 0))
    else p
  }

  function AfterLimiterCheck(p: State, now: int): State {
    p.(rateLimiter := Prune(p.rateLimiter, now - p.settings.limits.window))
  }

  predicate LimitedAt(p: State, now: int) {
    |Prune(p.rateLimiter, now - p.settings.limits.window)| >= p.settings.limits.max
  }

  function Track(p: State, now: int): State {
    p.(rateLimiter := p.rateLimiter + [now], tracked := p.tracked + [now])
  }

  function Record(p: State, success: bool, elapsed: real, now: int): State {
    var h := p.health;
    var failures := if success then 0 else h.consecutiveFailures + 1;
    var open := if success then None
                else if p.openTime.None? && failures >= p.settings.threshold then Some(now) else p.openTime;
    var times := Push(h.responseTimes, elapsed);
    var failed := h.failedRequests + if success then 0 else 1;
    var rate := failed as real / (h.totalRequests + 1) as real;
    p.(openTime := open,
       health := Health(
         StatusOf(p.enabled, open.Some?, rate),
         h.totalRequests + 1,
         h.successfulRequests + if success then 1 else 0,
         failed,
         failures,
         rate,
         Mean(times),
         times,
         Some(now),
         if success then Some(now) else h.lastSuccess,
         if success then h.lastError else Some(now)))
  }

  // ----- the breaker, described by its journal alone -----

  datatype Entry = Failed(at: int) | Succeeded(at: int) | TimedOut(at: int)

  datatype Op = Check(now: int) | Report(success: bool, elapsed: real, now: int)

  /** The times of the failures since the last success or timeout. */
  ghost function Trailing(journal: seq<Entry>): seq<int> {
    if journal == [] then []
    else
      match journal[|journal| - 1]
      case Failed(at) => Trailing(journal[..|journal| - 1]) + [at]
      case _ => []
  }

  /** The breaker is open since the failure that completed the threshold; a threshold below one acts like one. */
  ghost function OpenSince(threshold: int, journal: seq<Entry>): Option<int> {
    var needed := if threshold < 1 then 1 else threshold;
    var failures := Trailing(journal);
    if |failures| >= needed then Some(failures[needed - 1]) else None
  }

  ghost function JournalNext(settings: Settings, journal: seq<Entry>, op: Op): seq<Entry> {
    match op
    case Check(now) =>
      var open := OpenSince(settings.threshold, journal);
      if open.Some? && now - open.value > settings.timeout then journal + [TimedOut(now)] else journal
    case Report(success, _, now) => journal + [if success then Succeeded(now) else Failed(now)]
  }

  ghost function Journal(settings: Settings, ops: seq<Op>): seq<Entry> {
    if ops == [] then [] else JournalNext(settings, Journal(settings, ops[..|ops| - 1]), ops[|ops| - 1])
  }

  ghost function Count(journal: seq<Entry>, success: bool): nat {
    if journal == [] then 0
    else
      var last := journal[|journal| - 1];
      Count(journal[..|journal| - 1], success) + if (if success then last.Succeeded? else last.Failed?) then 1 else 0
  }

  ghost function Samples(ops: seq<Op>): seq<real> {
    if ops == [] then []
    else
      var last := ops[|ops| - 1];
      Samples(ops[..|ops| - 1]) + if last.Report? then [last.elapsed] else []
  }

  // ----- the fields agree with the journal -----

  ghost function Apply(p: State, op: Op): State {
    match op
    case Check(now) => AfterBreakerCheck(p, now)
    case Report(success, elapsed, now) => Record(p, success, elapsed, now)
  }

  ghost function Run(p: State, ops: seq<Op>): State {
    if ops == [] then p else Apply(Run(p, ops[..|ops| - 1]), ops[|ops| - 1])
  }

  ghost predicate BreakerExact(p: State, journal: seq<Entry>) {
    && p.openTime == OpenSince(p.settings.threshold, journal)
    && p.health.consecutiveFailures == |Trailing(journal)|
  }

  ghost predicate CountsExact(p: State, journal: seq<Entry>, samples: seq<real>) {
    var h := p.health;
    && h.successfulRequests == Count(journal, true) && h.failedRequests == Count(journal, false)
    && h.totalRequests == h.successfulRequests + h.failedRequests == |samples|
    && h.responseTimes == Last(samples, 100)
    && (samples != [] ==>
          h.errorRate == h.failedRequests as real / h.totalRequests as real &&
          h.averageResponseTime == Mean(Last(samples, 100)))
  }

  /** The time of the last report in a journal, of the given outcome or of any. */
  ghost function LastReport(journal: seq<Entry>, outcome: Option<bool>): Option<int> {
    if journal == [] then None
    else
      var front, last := journal[..|journal| - 1], journal[|journal| - 1];
      match last
      case TimedOut(_) => LastReport(front, outcome)
      case Succeeded(at) => if outcome == Some(false) then LastReport(front, outcome) else Some(at)
      case Failed(at) => if outcome == Some(true) then LastReport(front, outcome) else Some(at)
  }

  ghost predicate TimesExact(p: State, journal: seq<Entry>) {
    && p.health.lastRequest == LastReport(journal, None)
    && p.health.lastSuccess == LastReport(journal, Some(true))
    && p.health.lastError == LastReport(journal, Some(false))
  }

  lemma TimesStep(p: State, journal: seq<Entry>, op: Op)
    requires TimesExact(p, journal)
    ensures TimesExact(Apply(p, op), JournalNext(p.settings, journal, op))
  {
    match op {
      case Check(now) => assert (journal + [TimedOut(now)])[..|journal|] == journal;
      case Report(success, _, now) =>
        assert (journal + [if success then Succeeded(now) else Failed(now)])[..|journal|] == journal;
    }
  }

  lemma JournalAppend(journal: seq<Entry>, e: Entry)
    ensures Trailing(journal + [e]) == if e.Failed? then Trailing(journal) + [e.at] else []
    ensures forall b :: Count(journal + [e], b) ==
                        Count(journal, b) + if (if b then e.Succeeded? else e.Failed?) then 1 else 0
  {
    assert (journal + [e])[..|journal|] == journal;
  }

  lemma BreakerStep(p: State, journal: seq<Entry>, op: Op)
    requires BreakerExact(p, journal)
    ensures BreakerExact(Apply(p, op), JournalNext(p.settings, journal, op))
  {
    match op {
      case Check(now) => JournalAppend(journal, TimedOut(now));
      case Report(success, _, now) => JournalAppend(journal, if success then Succeeded(now) else Failed(now));
    }
  }

  lemma PushLast(samples: seq<real>, x: real)
    ensures Push(Last(samples, MAX_SAMPLES), x) == Last(samples + [x], MAX_SAMPLES)
  {
  }

  /** The mean times the number of samples is their sum. */
  lemma MeanTimes(xs: seq<real>)
    requires xs != []
    ensures Mean(xs) * |xs| as real == Sum(xs)
  {
  }

  /** The counters after a report. */
  lemma RecordCounts(p: State, success: bool, elapsed: real, now: int)
    ensures var h := p.health;
            var g := Record(p, success, elapsed, now).health;
            && g.totalRequests == h.totalRequests + 1
            && g.successfulRequests == h.successfulRequests + (if success then 1 else 0)
            && g.failedRequests == h.failedRequests + (if success then 0 else 1)
            && g.responseTimes == Push(h.responseTimes, elapsed)
            && g.errorRate == g.failedRequests as real / g.totalRequests as real
            && g.averageResponseTime == Mean(g.responseTimes)
  {
  }

  lemma ReportCounts(p: State, journal: seq<Entry>, samples: seq<real>, success: bool, elapsed: real, now: int)
    requires CountsExact(p, journal, samples)
    ensures CountsExact(Record(p, success, elapsed, now), journal + [if success then Succeeded(now) else Failed(now)],
                        samples + [elapsed])
  {
    JournalAppend(journal, if success then Succeeded(now) else Failed(now));
    PushLast(samples, elapsed);
    RecordCounts(p, success, elapsed, now);
  }

  lemma CountsStep(p: State, journal: seq<Entry>, samples: seq<real>, op: Op)
    requires CountsExact(p, journal, samples)
    ensures CountsExact(Apply(p, op), JournalNext(p.settings, journal, op),
                        samples + if op.Report? then [op.elapsed] else [])
  {
    match op {
      case Check(now) =>
        JournalAppend(journal, TimedOut(now));
        assert samples + [] == samples;
      case Report(success, elapsed, now) =>
        ReportCounts(p, journal, samples, success, elapsed, now);
    }
  }

  /** In every run the breaker fields, the counters and the averages are what the journal and the samples say. */
  lemma {:induction false} RunExact(p: State, ops: seq<Op>)
    requires p.health == FRESH && p.openTime == None
    ensures var q := Run(p, ops);
            && q.settings == p.settings
            && BreakerExact(q, Journal(p.settings, ops))
            && CountsExact(q, Journal(p.settings, ops), Samples(ops))
            && TimesExact(q, Journal(p.settings, ops))
  {
    if ops == [] {
    } else {
      var front, last := ops[..|ops| - 1], ops[|ops| - 1];
      RunExact(p, front);
      BreakerStep(Run(p, front), Journal(p.settings, front), last);
      CountsStep(Run(p, front), Journal(p.settings, front), Samples(front), last);
      TimesStep(Run(p, front), Journal(p.settings, front), last);
    }
  }

  /** An enabled provider's status after a report, in whole numbers: a majority, a fifth, or an open breaker. */
  lemma StatusExact(p: State, success: bool, elapsed: real, now: int)
    requires p.enabled
    ensures var q := Record(p, success, elapsed, now);
            var total, failed := q.health.totalRequests, q.health.failedRequests;
            && (q.health.status == Unhealthy <==> q.openTime.Some? || 2 * failed > total)
            && (q.health.status == Degraded <==> q.openTime.None? && 2 * failed <= total < 5 * failed)
            && (q.health.status == Healthy <==> q.openTime.None? && 5 * failed <= total)
  {
    var q := Record(p, success, elapsed, now);
    RateAbove(q.health.failedRequests, q.health.totalRequests, 1, 2);
    RateAbove(q.health.failedRequests, q.health.totalRequests, 1, 5);
  }

  lemma RateAbove(failed: nat, total: nat, a: nat, b: nat)
    requires total > 0 && b > 0
    ensures failed as real / total as real > a as real / b as real <==> b * failed > a * total
  {
    var x := failed as real / total as real;
    var y := a as real / b as real;
    assert x * total as real == failed as real && y * b as real == a as real;
    assert (x - y) * (total * b) as real == (b * failed - a * total) as real by {
      assert (total * b) as real == total as real * b as real;
    }
    assert (total * b) as real > 0.0;
  }

  /** Open exactly when the failures since the last success or timeout have reached the threshold. */
  lemma OpenIffThreshold(p: State, ops: seq<Op>)
    requires p.health == FRESH && p.openTime == None && p.settings.threshold >= 1
    ensures var q := Run(p, ops);
            q.openTime.Some? <==> q.health.consecutiveFailures >= p.settings.threshold
  {
    RunExact(p, ops);
  }
}
