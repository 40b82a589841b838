/** Admission of events into the processing pipeline: a rate limit per source and type, then deduplication. */
module LogProcessor {
  import opened Events
  import opened Prelude
  import opened SlidingWindow

  datatype RateKey = RateKey(source: Source, eventType: EventType)

  function RateKeyOf(e: Event): RateKey {
    RateKey(e.source, e.eventType)
  }

  type Digest = int

  /** What the duplicate check looks at. */
  datatype Content = Content(source: Source, eventType: EventType, message: string)

  /** digest stands for the content hash; nothing is assumed about it, collisions included. */
  datatype Config = Config(limits: Limits, dedupWindow: int, digest: Content -> Digest)

  function DigestOf(cfg: Config, e: Event): Digest {
    cfg.digest(Content(e.source, e.eventType, e.message))
  }

  const DEDUP_LIMIT := 10000

  /** An event together with the clock readings of its two checks. */
  datatype Request = Request(event: Event, rateTime: int, dedupTime: int)

  /** Counters over all events, accepted or not. */
  datatype Stats = Stats(
    total: nat,
    bySource: map<Source, nat>,
    byType: map<EventType, nat>,
    bySeverity: map<Severity, nat>)

  const NO_STATS := Stats(0, map[], map[], map[])

  function Count(x: Stats, e: Event): Stats {
    Stats(x.total + 1, Bump(x.bySource, e.source), Bump(x.byType, e.eventType), Bump(x.bySeverity, e.severity))
  }

  datatype State = State(
    rateLimits: map<RateKey, seq<int>>,
    dedupCache: map<Digest, int>,
    stats: Stats,
    highPriorityQueue: seq<Event>,
    processingQueue: seq<Event>)
  {
    ghost function Queue(k: RateKey): seq<int> {
      if k in rateLimits then rateLimits[k] else []
    }
  }

  // ----- what the code does -----

  ghost function PrunedQueue(cfg: Config, s: State, k: RateKey, now: int): seq<int> {
    Prune(s.Queue(k), now - cfg.limits.window)
  }

  ghost predicate RateLimited(cfg: Config, s: State, k: RateKey, now: int) {
    |PrunedQueue(cfg, s, k, now)| >= cfg.limits.max
  }

  ghost function AfterRateCheck(cfg: Config, s: State, k: RateKey, now: int): State {
    var pruned := PrunedQueue(cfg, s, k, now);
    s.(rateLimits := s.rateLimits[k := if RateLimited(cfg, s, k, now) then pruned else pruned + [now]])
  }

  predicate Recent(cfg: Config, cache: map<Digest, int>, d: Digest, now: int) {
    d in cache && now - cache[d] < cfg.dedupWindow
  }

  function Evict(cache: map<Digest, int>, cutoff: int): map<Digest, int> {
    map d | d in cache && cache[d] >= cutoff :: cache[d]
  }

  function Remember(cfg: Config, cache: map<Digest, int>, d: Digest, now: int): map<Digest, int> {
    var updated := cache[d := now];
    if |updated| > DEDUP_LIMIT then Evict(updated, now - cfg.dedupWindow) else updated
  }

  ghost function AfterDedupCheck(cfg: Config, s: State, d: Digest, now: int): State {
    if Recent(cfg, s.dedupCache, d, now) then s else s.(dedupCache := Remember(cfg, s.dedupCache, d, now))
  }

  predicate Urgent(e: Event) {
    e.severity == Critical || e.severity == High
  }

  ghost function Enqueue(s: State, e: Event): State {
    if Urgent(e)
    then s.(highPriorityQueue := s.highPriorityQueue + [e])
    else s.(processingQueue := s.processingQueue + [e])
  }

  ghost predicate Accepts(cfg: Config, s: State, r: Request) {
    !RateLimited(cfg, s, RateKeyOf(r.event), r.rateTime) &&
    !Recent(cfg, s.dedupCache, DigestOf(cfg, r.event), r.dedupTime)
  }

  ghost function Process(cfg: Config, s: State, r: Request): State {
    var k := RateKeyOf(r.event);
    var t := AfterRateCheck(cfg, s.(stats := Count(s.stats, r.event)), k, r.rateTime);
    if RateLimited(cfg, s, k, r.rateTime) then t
    else
      var u := AfterDedupCheck(cfg, t, DigestOf(cfg, r.event), r.dedupTime);
      if Recent(cfg, s.dedupCache, DigestOf(cfg, r.event), r.dedupTime) then u else Enqueue(u, r.event)
  }

  // ----- the reference: nothing is ever forgotten -----

  datatype Stamp = Stamp(digest: Digest, time: int)

  /** Every admission time per rate key, and every event that passed deduplication. */
  datatype History = History(admitted: map<RateKey, seq<int>>, passed: seq<Stamp>)
  {
    ghost function Admitted(k: RateKey): seq<int> {
      if k in admitted then admitted[k] else []
    }
  }

  ghost predicate Twin(cfg: Config, h: History, d: Digest, now: int) {
    exists i | 0 <= i < |h.passed| :: h.passed[i].digest == d && now - h.passed[i].time < cfg.dedupWindow
  }

  ghost predicate RefusesRate(cfg: Config, h: History, r: Request) {
    Refuses(cfg.limits, h.Admitted(RateKey(r.event.source, r.event.eventType)), r.rateTime)
  }

  ghost predicate RefAccepts(cfg: Config, h: History, r: Request) {
    var d := cfg.digest(Content(r.event.source, r.event.eventType, r.event.message));
    !RefusesRate(cfg, h, r) && !Twin(cfg, h, d, r.dedupTime)
  }

  ghost function RefProcess(cfg: Config, h: History, r: Request): History {
    var k := RateKey(r.event.source, r.event.eventType);
    var d := cfg.digest(Content(r.event.source, r.event.eventType, r.event.message));
    if RefusesRate(cfg, h, r) then h
    else
      var g := h.(admitted := h.admitted[k := h.Admitted(k) + [r.rateTime]]);
      if Twin(cfg, h, d, r.dedupTime) then g else g.(passed := h.passed + [Stamp(d, r.dedupTime)])
  }

  // ----- the code refines the reference -----

  ghost predicate RateRelated(cfg: Config, s: State, h: History, clock: int) {
    forall k :: Represents(cfg.limits, h.Admitted(k), s.Queue(k), clock)
  }

  /** A cached time is that of the last pass; an uncached digest last passed a whole window ago or never. */
  ghost predicate DigestRelated(cfg: Config, cache: map<Digest, int>, passed: seq<Stamp>, d: Digest, clock: int) {
    && (forall i | 0 <= i < |passed| && passed[i].digest == d ::
          passed[i].time <= clock &&
          if d in cache then passed[i].time <= cache[d] else passed[i].time < clock - cfg.dedupWindow)
    && (d in cache ==> Stamp(d, cache[d]) in passed && cache[d] <= clock)
  }

  ghost predicate DedupRelated(cfg: Config, cache: map<Digest, int>, passed: seq<Stamp>, clock: int) {
    forall d :: DigestRelated(cfg, cache, passed, d, clock)
  }

  /** What a request leaves in its own queue, and in its own history. */
  lemma OwnQueue(cfg: Config, s: State, r: Request)
    ensures var k := RateKeyOf(r.event);
            var pruned := PrunedQueue(cfg, s, k, r.rateTime);
            Process(cfg, s, r).Queue(k) == if RateLimited(cfg, s, k, r.rateTime) then pruned else pruned + [r.rateTime]
  {
  }

  lemma OwnHistory(cfg: Config, h: History, r: Request)
    ensures var k := RateKeyOf(r.event);
            RefProcess(cfg, h, r).Admitted(k) ==
            if RefusesRate(cfg, h, r) then h.Admitted(k) else h.Admitted(k) + [r.rateTime]
  {
  }

  lemma QueueAgrees(limits: Limits, admitted: seq<int>, queue: seq<int>, clock: int, now: int)
    requires Represents(limits, admitted, queue, clock) && clock <= now
    ensures var pruned := Prune(queue, now - limits.window);
            && (|pruned| >= limits.max <==> Refuses(limits, admitted, now))
            && Represents(limits, admitted, pruned, now) && Represents(limits, admitted + [now], pruned + [now], now)
  {
    PruneRepresents(limits, admitted, queue, clock, now);
    AdmitRepresents(limits, admitted, Prune(queue, now - limits.window), now, now);
  }

  lemma RateQueueAgrees(cfg: Config, s: State, h: History, r: Request, clock: int)
    requires Represents(cfg.limits, h.Admitted(RateKeyOf(r.event)), s.Queue(RateKeyOf(r.event)), clock)
    requires clock <= r.rateTime
    ensures var k := RateKeyOf(r.event);
            && (RateLimited(cfg, s, k, r.rateTime) <==> RefusesRate(cfg, h, r))
            && Represents(cfg.limits, RefProcess(cfg, h, r).Admitted(k), Process(cfg, s, r).Queue(k), r.rateTime)
  {
    var k := RateKeyOf(r.event);
    OwnQueue(cfg, s, r);
    OwnHistory(cfg, h, r);
    QueueAgrees(cfg.limits, h.Admitted(k), s.Queue(k), clock, r.rateTime);
  }

  lemma OtherQueuesAgree(cfg: Config, s: State, h: History, r: Request, k: RateKey)
    requires k != RateKeyOf(r.event)
    ensures Process(cfg, s, r).Queue(k) == s.Queue(k)
    ensures RefProcess(cfg, h, r).Admitted(k) == h.Admitted(k)
  {
  }

  lemma RateAgrees(cfg: Config, s: State, h: History, r: Request, clock: int)
    requires RateRelated(cfg, s, h, clock) && clock <= r.rateTime
    ensures RateLimited(cfg, s, RateKeyOf(r.event), r.rateTime) <==> RefusesRate(cfg, h, r)
    ensures RateRelated(cfg, Process(cfg, s, r), RefProcess(cfg, h, r), r.rateTime)
  {
    var t := Process(cfg, s, r);
    var g := RefProcess(cfg, h, r);
    RateQueueAgrees(cfg, s, h, r, clock);
    forall k ensures Represents(cfg.limits, g.Admitted(k), t.Queue(k), r.rateTime) {
      if k != RateKeyOf(r.event) {
        OtherQueuesAgree(cfg, s, h, r, k);
        RepresentsLater(cfg.limits, h.Admitted(k), s.Queue(k), clock, r.rateTime);
      }
    }
  }

  lemma RecentIsTwin(cfg: Config, s: State, h: History, d: Digest, clock: int, now: int)
    requires DedupRelated(cfg, s.dedupCache, h.passed, clock) && clock <= now
    ensures Recent(cfg, s.dedupCache, d, now) <==> Twin(cfg, h, d, now)
  {
    assert DigestRelated(cfg, s.dedupCache, h.passed, d, clock);
  }

  /** Eviction loses only digests whose last pass is a whole window old. */
  lemma RememberRelated(cfg: Config, cache: map<Digest, int>, passed: seq<Stamp>, d: Digest, clock: int, now: int)
    requires DedupRelated(cfg, cache, passed, clock) && clock <= now
    ensures DedupRelated(cfg, Remember(cfg, cache, d, now), passed + [Stamp(d, now)], now)
  {
    var after := Remember(cfg, cache, d, now);
    var longer := passed + [Stamp(d, now)];
    forall c ensures DigestRelated(cfg, after, longer, c, now) {
      assert DigestRelated(cfg, cache, passed, c, clock);
      assert longer[|passed|] == Stamp(d, now);
      assert forall x :: x in passed ==> x in longer;
    }
  }

  lemma DedupLater(cfg: Config, cache: map<Digest, int>, passed: seq<Stamp>, clock: int, now: int)
    requires DedupRelated(cfg, cache, passed, clock) && clock <= now
    ensures DedupRelated(cfg, cache, passed, now)
  {
    forall c ensures DigestRelated(cfg, cache, passed, c, now) {
      assert DigestRelated(cfg, cache, passed, c, clock);
    }
  }

  lemma DedupAgrees(cfg: Config, s: State, h: History, r: Request, clock: int)
    requires DedupRelated(cfg, s.dedupCache, h.passed, clock) && clock <= r.dedupTime
    requires RateLimited(cfg, s, RateKeyOf(r.event), r.rateTime) <==> RefusesRate(cfg, h, r)
    ensures DedupRelated(cfg, Process(cfg, s, r).dedupCache, RefProcess(cfg, h, r).passed, r.dedupTime)
  {
    var d := DigestOf(cfg, r.event);
    RecentIsTwin(cfg, s, h, d, clock, r.dedupTime);
    DedupLater(cfg, s.dedupCache, h.passed, clock, r.dedupTime);
    RememberRelated(cfg, s.dedupCache, h.passed, d, clock, r.dedupTime);
  }

  // ----- whole runs -----

  /** The clock never runs backwards, within a request or between requests. */
  ghost predicate Timely(rs: seq<Request>) {
    && (forall i | 0 <= i < |rs| :: rs[i].rateTime <= rs[i].dedupTime)
    && (forall i | 0 < i < |rs| :: rs[i - 1].dedupTime <= rs[i].rateTime)
  }

  ghost const INITIAL := State(map[], map[], NO_STATS, [], [])

  ghost function Run(cfg: Config, rs: seq<Request>): State {
    if rs == [] then INITIAL else Process(cfg, Run(cfg, rs[..|rs| - 1]), rs[|rs| - 1])
  }

  ghost function RefRun(cfg: Config, rs: seq<Request>): History {
    if rs == [] then History(map[], []) else RefProcess(cfg, RefRun(cfg, rs[..|rs| - 1]), rs[|rs| - 1])
  }

  ghost predicate Related(cfg: Config, s: State, h: History, clock: int) {
    RateRelated(cfg, s, h, clock) && DedupRelated(cfg, s.dedupCache, h.passed, clock)
  }

  lemma {:induction false} RunRelated(cfg: Config, rs: seq<Request>, clock: int)
    requires Timely(rs) && (rs != [] ==> rs[|rs| - 1].dedupTime <= clock)
    ensures Related(cfg, Run(cfg, rs), RefRun(cfg, rs), clock)
  {
    if rs == [] {
      assert Represents(cfg.limits, [], [], clock);
    } else {
      var front, r := rs[..|rs| - 1], rs[|rs| - 1];
      var s, h := Run(cfg, front), RefRun(cfg, front);
      RunRelated(cfg, front, r.rateTime);
      RateAgrees(cfg, s, h, r, r.rateTime);
      DedupAgrees(cfg, s, h, r, r.rateTime);
      var t, g := Process(cfg, s, r), RefProcess(cfg, h, r);
      forall k ensures Represents(cfg.limits, g.Admitted(k), t.Queue(k), clock) {
        RepresentsLater(cfg.limits, g.Admitted(k), t.Queue(k), r.rateTime, clock);
      }
      DedupLater(cfg, t.dedupCache, g.passed, r.dedupTime, clock);
    }
  }

  /**
   After any run each check answers as the reference does: pruning is invisible to the rate check and eviction to the
   duplicate check.
   */
  lemma ChecksAgree(cfg: Config, rs: seq<Request>, r: Request)
    requires Timely(rs + [r])
    ensures RateLimited(cfg, Run(cfg, rs), RateKeyOf(r.event), r.rateTime) <==> RefusesRate(cfg, RefRun(cfg, rs), r)
    ensures var d := cfg.digest(Content(r.event.source, r.event.eventType, r.event.message));
            Recent(cfg, Run(cfg, rs).dedupCache, DigestOf(cfg, r.event), r.dedupTime) <==>
            Twin(cfg, RefRun(cfg, rs), d, r.dedupTime)
  {
    var all := rs + [r];
    assert forall i | 0 <= i < |rs| :: all[i] == rs[i];
    assert all[|rs|] == r;
    assert rs != [] ==> all[|rs| - 1].dedupTime <= all[|rs|].rateTime;
    var s := Run(cfg, rs);
    var h := RefRun(cfg, rs);
    RunRelated(cfg, rs, r.rateTime);
    RateQueueAgrees(cfg, s, h, r, r.rateTime);
    RecentIsTwin(cfg, s, h, DigestOf(cfg, r.event), r.rateTime, r.dedupTime);
  }

  /** So after any run the code accepts a request exactly when the reference does. */
  lemma {:induction false} AcceptsAgrees(cfg: Config, rs: seq<Request>, r: Request)
    requires Timely(rs + [r])
    ensures Accepts(cfg, Run(cfg, rs), r) <==> RefAccepts(cfg, RefRun(cfg, rs), r)
  {
    ChecksAgree(cfg, rs, r);
  }

  /** The events the reference accepts, in order: the critical and high ones or the others. */
  ghost function AcceptedBy(cfg: Config, rs: seq<Request>, urgent: bool): seq<Event> {
    if rs == [] then []
    else
      var front, r := rs[..|rs| - 1], rs[|rs| - 1];
      var before := AcceptedBy(cfg, front, urgent);
      if RefAccepts(cfg, RefRun(cfg, front), r) &&
         ((r.event.severity == Critical || r.event.severity == High) <==> urgent)
      then before + [r.event] else before
  }

  lemma ProcessEnqueues(cfg: Config, s: State, r: Request)
    ensures var t := Process(cfg, s, r);
            && t.stats == Count(s.stats, r.event)
            && t.highPriorityQueue ==
               (if Accepts(cfg, s, r) && Urgent(r.event) then s.highPriorityQueue + [r.event] else s.highPriorityQueue)
            && t.processingQueue ==
               (if Accepts(cfg, s, r) && !Urgent(r.event) then s.processingQueue + [r.event] else s.processingQueue)
  {
  }

  lemma TimelyFront(rs: seq<Request>)
    requires Timely(rs) && rs != []
    ensures Timely(rs[..|rs| - 1]) && rs == rs[..|rs| - 1] + [rs[|rs| - 1]]
  {
  }

  /** After any run the two queues hold exactly what the reference accepts, in order. */
  lemma {:induction false} QueuesMatchReference(cfg: Config, rs: seq<Request>)
    requires Timely(rs)
    ensures Run(cfg, rs).highPriorityQueue == AcceptedBy(cfg, rs, true)
    ensures Run(cfg, rs).processingQueue == AcceptedBy(cfg, rs, false)
  {
    if rs == [] {
    } else {
      var front := rs[..|rs| - 1];
      var r := rs[|rs| - 1];
      TimelyFront(rs);
      QueuesMatchReference(cfg, front);
      AcceptsAgrees(cfg, front, r);
      ProcessEnqueues(cfg, Run(cfg, front), r);
    }
  }

  ghost function EventsOf(rs: seq<Request>): seq<Event> {
    seq(|rs|, i requires 0 <= i < |rs| => rs[i].event)
  }

  /** How many of the events have the given source, type or severity. */
  ghost function OfSource(es: seq<Event>, source: Source): nat {
    if es == [] then 0 else OfSource(es[..|es| - 1], source) + if es[|es| - 1].source == source then 1 else 0
  }

  ghost function OfType(es: seq<Event>, eventType: EventType): nat {
    if es == [] then 0 else OfType(es[..|es| - 1], eventType) + if es[|es| - 1].eventType == eventType then 1 else 0
  }

  ghost function OfSeverity(es: seq<Event>, severity: Severity): nat {
    if es == [] then 0 else OfSeverity(es[..|es| - 1], severity) + if es[|es| - 1].severity == severity then 1 else 0
  }

  ghost predicate StatsExact(x: Stats, es: seq<Event>, like: Event) {
    && x.total == |es|
    && Tally(x.bySource, like.source) == OfSource(es, like.source)
    && Tally(x.byType, like.eventType) == OfType(es, like.eventType)
    && Tally(x.bySeverity, like.severity) == OfSeverity(es, like.severity)
  }

  lemma CountExact(x: Stats, es: seq<Event>, e: Event, like: Event)
    requires StatsExact(x, es, like)
    ensures StatsExact(Count(x, e), es + [e], like)
  {
    assert (es + [e])[..|es|] == es;
  }

  /** Every event is counted once, whatever becomes of it: in all, by source, by type and by severity. */
  lemma {:induction false} RunCounts(cfg: Config, rs: seq<Request>, like: Event)
    ensures StatsExact(Run(cfg, rs).stats, EventsOf(rs), like)
  {
    if rs == [] {
    } else {
      var front := rs[..|rs| - 1];
      var last := rs[|rs| - 1];
      RunCounts(cfg, front, like);
      ProcessEnqueues(cfg, Run(cfg, front), last);
      CountExact(Run(cfg, front).stats, EventsOf(front), last.event, like);
      assert EventsOf(rs) == EventsOf(front) + [last.event];
    }
  }

  // ----- what the reference guarantees -----

  /** Equal content passes deduplication at most once per window. */
  ghost predicate Apart(cfg: Config, passed: seq<Stamp>) {
    forall i, j | 0 <= i < j < |passed| && passed[i].digest == passed[j].digest ::
      passed[j].time - passed[i].time >= cfg.dedupWindow
  }

  lemma {:induction false} ReferenceSpaced(cfg: Config, rs: seq<Request>, k: RateKey)
    requires Timely(rs)
    ensures Spaced(cfg.limits, RefRun(cfg, rs).Admitted(k))
  {
    if rs == [] {
    } else {
      var front, r := rs[..|rs| - 1], rs[|rs| - 1];
      var h := RefRun(cfg, front);
      ReferenceSpaced(cfg, front, k);
      RunRelated(cfg, front, r.rateTime);
      assert Represents(cfg.limits, h.Admitted(k), Run(cfg, front).Queue(k), r.rateTime);
      if k != RateKeyOf(r.event) {
        OtherQueuesAgree(cfg, Run(cfg, front), h, r, k);
      } else {
        OwnHistory(cfg, h, r);
        if !RefusesRate(cfg, h, r) {
          AdmitSpaced(cfg.limits, h.Admitted(k), r.rateTime, r.rateTime);
        }
      }
    }
  }

  lemma {:induction false} ReferenceApart(cfg: Config, rs: seq<Request>)
    ensures Apart(cfg, RefRun(cfg, rs).passed)
  {
    if rs == [] {
    } else {
      ReferenceApart(cfg, rs[..|rs| - 1]);
    }
  }

  // ----- and so what the code does -----

  /** When the code let requests of one key through its rate check. */
  ghost function Admissions(cfg: Config, rs: seq<Request>, k: RateKey): seq<int> {
    if rs == [] then []
    else
      var front, r := rs[..|rs| - 1], rs[|rs| - 1];
      Admissions(cfg, front, k) +
      if k == RateKey(r.event.source, r.event.eventType) && !RateLimited(cfg, Run(cfg, front), k, r.rateTime)
      then [r.rateTime] else []
  }

  /** The requests the code accepted: what they contained, and when they passed the duplicate check. */
  ghost function Acceptances(cfg: Config, rs: seq<Request>): seq<Stamp> {
    if rs == [] then []
    else
      var front, r := rs[..|rs| - 1], rs[|rs| - 1];
      Acceptances(cfg, front) +
      if Accepts(cfg, Run(cfg, front), r)
      then [Stamp(cfg.digest(Content(r.event.source, r.event.eventType, r.event.message)), r.dedupTime)] else []
  }

  lemma {:induction false} AdmissionsAgree(cfg: Config, rs: seq<Request>, k: RateKey)
    requires Timely(rs)
    ensures Admissions(cfg, rs, k) == RefRun(cfg, rs).Admitted(k)
  {
    if rs == [] {
    } else {
      var front, r := rs[..|rs| - 1], rs[|rs| - 1];
      TimelyFront(rs);
      AdmissionsAgree(cfg, front, k);
      ChecksAgree(cfg, front, r);
      if k != RateKeyOf(r.event) {
        OtherQueuesAgree(cfg, Run(cfg, front), RefRun(cfg, front), r, k);
      } else {
        OwnHistory(cfg, RefRun(cfg, front), r);
      }
    }
  }

  lemma {:induction false} AcceptancesAgree(cfg: Config, rs: seq<Request>)
    requires Timely(rs)
    ensures Acceptances(cfg, rs) == RefRun(cfg, rs).passed
  {
    if rs == [] {
    } else {
      var front, r := rs[..|rs| - 1], rs[|rs| - 1];
      TimelyFront(rs);
      AcceptancesAgree(cfg, front);
      AcceptsAgrees(cfg, front, r);
    }
  }

  /** In every run the requests of one key that the code admits are spaced as the limits demand. */
  lemma {:induction false} RunSpaced(cfg: Config, rs: seq<Request>, k: RateKey)
    requires Timely(rs)
    ensures Spaced(cfg.limits, Admissions(cfg, rs, k))
  {
    AdmissionsAgree(cfg, rs, k);
    ReferenceSpaced(cfg, rs, k);
  }

  /** In every run the code accepts equal content at most once per window. */
  lemma {:induction false} RunApart(cfg: Config, rs: seq<Request>)
    requires Timely(rs)
    ensures Apart(cfg, Acceptances(cfg, rs))
  {
    AcceptancesAgree(cfg, rs);
    ReferenceApart(cfg, rs);
  }

  // ----- what the memory holds -----

  /** After a request the cache is within its limit, or every entry in it is inside the window. */
  ghost predicate CacheBounded(cfg: Config, cache: map<Digest, int>, now: int) {
    |cache| <= 10000 || forall d | d in cache :: now - cache[d] <= cfg.dedupWindow
  }

  /** Up to ten thousand entries nothing is forgotten, not even what has left the window. */
  lemma RememberBounded(cfg: Config, cache: map<Digest, int>, d: Digest, now: int)
    ensures CacheBounded(cfg, Remember(cfg, cache, d, now), now)
    ensures |cache[d := now]| <= 10000 ==> Remember(cfg, cache, d, now) == cache[d := now]
  {
  }

  /** Directly after an event was accepted, the clean-up has kept the cache small. */
  lemma AcceptedBounded(cfg: Config, s: State, r: Request)
    requires Accepts(cfg, s, r)
    ensures CacheBounded(cfg, Process(cfg, s, r).dedupCache, r.dedupTime)
  {
    RememberBounded(cfg, s.dedupCache, DigestOf(cfg, r.event), r.dedupTime);
  }

  function Bound(cfg: Config): nat {
    if cfg.limits.max <= 0 then 0 else cfg.limits.max
  }

  lemma ProcessQueueBounded(cfg: Config, s: State, r: Request, k: RateKey)
    requires |s.Queue(k)| <= Bound(cfg)
    ensures |Process(cfg, s, r).Queue(k)| <= Bound(cfg)
  {
    if k == RateKeyOf(r.event) {
      OwnQueue(cfg, s, r);
      PruneShrinks(s.Queue(k), r.rateTime - cfg.limits.window);
    } else {
      OtherQueuesAgree(cfg, s, History(map[], []), r, k);
    }
  }

  /** No queue of the rate limiter is ever longer than the limit. */
  lemma {:induction false} RunQueueBounded(cfg: Config, rs: seq<Request>, k: RateKey)
    ensures |Run(cfg, rs).Queue(k)| <= if cfg.limits.max <= 0 then 0 else cfg.limits.max
  {
    if rs == [] {
    } else {
      RunQueueBounded(cfg, rs[..|rs| - 1], k);
      ProcessQueueBounded(cfg, Run(cfg, rs[..|rs| - 1]), rs[|rs| - 1], k);
    }
  }

  // ----- the processor object -----

  method Pick<T>(s: set<T>) returns (x: T)
    requires s != {}
    ensures x in s
  {
    x :| x in s;
  }

  /** The clean-up: collect the stale keys, then delete them one by one. */
  method EvictStale(cache: map<Digest, int>, cutoff: int) returns (kept: map<Digest, int>)
    ensures kept == Evict(cache, cutoff)
  {
    var stale := set d | d in cache && cache[d] < cutoff;
    kept := cache;
    while stale != {}
      invariant forall d | d in stale :: d in cache && cache[d] < cutoff
      invariant kept == map d | d in cache && (cache[d] >= cutoff || d in stale) :: cache[d]
      decreases stale
    {
      var d := Pick(stale);
      kept := kept - {d};
      stale := stale - {d};
    }
  }

  class Processor {
    const cfg: Config
    var rateLimits: map<RateKey, seq<int>>
    var dedupCache: map<Digest, int>
    var stats: Stats
    var highPriorityQueue: seq<Event>
    var processingQueue: seq<Event>

    ghost function View(): State
      reads this
    {
      State(rateLimits, dedupCache, stats, highPriorityQueue, processingQueue)
    }

    constructor (config: Config)
      ensures cfg == config && View() == INITIAL
    {
      cfg := config;
      rateLimits, dedupCache, stats, highPriorityQueue, processingQueue := map[], map[], NO_STATS, [], [];
    }

    method IsRateLimited(k: RateKey, now: int) returns (limited: bool)
      modifies this`rateLimits
      ensures limited <==> RateLimited(cfg, old(View()), k, now)
      ensures View() == AfterRateCheck(cfg, old(View()), k, now)
    {
      var cutoff := now - cfg.limits.window;
      var queue := if k in rateLimits then rateLimits[k] else [];
      ghost var start := queue;
      while queue != [] && queue[0] < cutoff
        invariant Prune(queue, cutoff) == Prune(start, cutoff)
        decreases |queue|
      {
        queue := queue[1..];
      }
      rateLimits := rateLimits[k := queue];
      if |queue| >= cfg.limits.max {
        return true;
      }
      rateLimits := rateLimits[k := queue + [now]];
      return false;
    }

    method IsDuplicate(d: Digest, now: int) returns (duplicate: bool)
      modifies this`dedupCache
      ensures duplicate <==> Recent(cfg, old(dedupCache), d, now)
      ensures View() == AfterDedupCheck(cfg, old(View()), d, now)
    {
      if d in dedupCache {
        var lastSeen := dedupCache[d];
        if now - lastSeen < cfg.dedupWindow {
          return true;
        }
      }
      dedupCache := dedupCache[d := now];
      if |dedupCache| > DEDUP_LIMIT {
        dedupCache := EvictStale(dedupCache, now - cfg.dedupWindow);
      }
      return false;
    }

    method ProcessEvent(r: Request) returns (accepted: bool)
      modifies this
      ensures accepted <==> Accepts(cfg, old(View()), r)
      ensures View() == Process(cfg, old(View()), r)
    {
      stats := stats.(total := stats.total + 1);
      stats := stats.(bySource := Bump(stats.bySource, r.event.source));
      stats := stats.(byType := Bump(stats.byType, r.event.eventType));
      stats := stats.(bySeverity := Bump(stats.bySeverity, r.event.severity));
      var limited := IsRateLimited(RateKeyOf(r.event), r.rateTime);
      if limited {
        return false;
      }
      var duplicate := IsDuplicate(DigestOf(cfg, r.event), r.dedupTime);
      if duplicate {
        return false;
      }
      if r.event.severity == Critical || r.event.severity == High {
        highPriorityQueue := highPriorityQueue + [r.event];
      } else {
        processingQueue := processingQueue + [r.event];
      }
      return true;
    }
  }
}
