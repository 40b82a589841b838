/**
 Whether what has been revoked gets published once nothing else happens. It depends on the worker: an exception during a
 periodic generation ends it, and nothing starts it again.
 */
module RevocationProgress {
  import opened Prelude
  import opened RevocationList

  predicate Internal(step: Step) {
    !step.Issue? && !step.Revoke? && !step.WakeUp? && !step.Forget? && !Loses(step)
  }

  function Weight(s: State): nat {
    6 * s.recorded + 5 * s.cleared + 4 * s.tokens +
    match s.worker
    case Idle => 0
    case Woken(_) => 3
    case Generating(_, _, _) => 2
    case Ready(_, _, _, _) => 1
    case Stopped => 0
  }

  /** No internal step is possible. */
  ghost predicate Exhausted(s: State) {
    forall step | Internal(step) :: !Enabled(s, step)
  }

  /** A worker that has ended leaves the revocations that found the queue full waiting. */
  predicate Stuck(s: State) {
    s.worker.Stopped? && s.recorded == 0 && (s.cleared == 0 || s.tokens >= 100)
  }

  /** As long as the worker lives, some internal step other than a failure is possible unless the system is at rest. */
  lemma AlwaysAStep(s: State)
    requires !Quiet(s) && !s.worker.Stopped?
    ensures exists step :: Internal(step) && !step.FailList? && Enabled(s, step)
  {
    var step := match s.worker
                case Woken(_) => BeginList
                case Generating(_, start, disturbed) => FinishList(if disturbed then s.revoked else start)
                case Ready(_, _, _, _) => Publish
                case Idle => if s.tokens > 0 then TakeToken else if s.cleared > 0 then PostToken else ClearCache;
    assert Internal(step) && !step.FailList? && Enabled(s, step);
  }

  lemma ExhaustedExactly(s: State)
    ensures Exhausted(s) <==> Quiet(s) || Stuck(s)
  {
    if s.worker.Stopped? {
      if s.recorded > 0 {
        assert Internal(ClearCache) && Enabled(s, ClearCache);
      } else if !Stuck(s) {
        assert Internal(PostToken) && Enabled(s, PostToken);
      }
    } else if !Quiet(s) {
      AlwaysAStep(s);
    }
  }

  /** Each internal step lowers the weight, whichever is scheduled. */
  lemma StepsComeToRest(service: Service, s: State, step: Step)
    requires Internal(step) && Enabled(s, step)
    ensures Weight(Next(service, s, step)) < Weight(s)
    ensures Weight(s) == 0 <==> !Announced(s) && (s.worker.Idle? || s.worker.Stopped?)
  {
  }

  /** Nothing but possible internal steps. */
  ghost predicate LeftAlone(service: Service, s: State, steps: seq<Step>)
    decreases |steps|
  {
    steps == [] ||
    (Internal(steps[0]) && Enabled(s, steps[0]) && LeftAlone(service, Next(service, s, steps[0]), steps[1..]))
  }

  ghost function After(service: Service, s: State, steps: seq<Step>): State
    decreases |steps|
  {
    if steps == [] then s else After(service, Next(service, s, steps[0]), steps[1..])
  }

  lemma {:induction false} AfterOne(service: Service, s: State, front: seq<Step>, step: Step)
    ensures After(service, s, front + [step]) == Next(service, After(service, s, front), step)
    ensures LeftAlone(service, s, front) && Internal(step) && Enabled(After(service, s, front), step) ==>
            LeftAlone(service, s, front + [step])
    decreases |front|
  {
    if front == [] {
      assert front + [step] == [step] && [step][1..] == [];
    } else {
      AfterOne(service, Next(service, s, front[0]), front[1..], step);
      assert (front + [step])[1..] == front[1..] + [step];
    }
  }

  // ----- a worker that has ended -----

  lemma NextStopped(service: Service, s: State, step: Step)
    requires s.worker.Stopped?
    ensures var t := Next(service, s, step);
            t.worker.Stopped? && t.tokens >= s.tokens && (t.cache == s.cache || t.cache == None)
  {
  }

  /** Whatever happens, it stays ended, no token is taken and no list is written. */
  lemma {:induction false} StoppedForEver(service: Service, s: State, steps: seq<Step>)
    requires s.worker.Stopped?
    ensures var t := After(service, s, steps);
            t.worker.Stopped? && t.tokens >= s.tokens && (t.cache == s.cache || t.cache == None)
    decreases |steps|
  {
    if steps == [] {
    } else {
      NextStopped(service, s, steps[0]);
      StoppedForEver(service, Next(service, s, steps[0]), steps[1..]);
    }
  }

  /** A new serial during a periodic generation. */
  function NewSerial(id: CertId, serial: Serial, entry: Entry): seq<Step> {
    ((([Issue(id)] + [WakeUp]) + [BeginList]) + [Revoke(id, serial, entry)]) + [FailList]
  }

  /** It ends the worker: the revocation, and every later one, is never published, whatever happens afterwards. */
  lemma NewSerialEndsWorker(service: Service, id: CertId, serial: Serial, entry: Entry, later: seq<Step>)
    ensures var s := Run(service, NewSerial(id, serial, entry));
            var t := After(service, s, later);
            && s.worker.Stopped? && Announced(s) && s.revoked == [Listed(serial, entry)] && !s.lost
            && t.worker.Stopped? && t.cache == None
  {
    var s2 := [Issue(id)] + [WakeUp];
    var s3 := s2 + [BeginList];
    var s4 := s3 + [Revoke(id, serial, entry)];
    assert [Issue(id)][..0] == [];
    RunOne(service, [Issue(id)], WakeUp);
    RunOne(service, s2, BeginList);
    RunOne(service, s3, Revoke(id, serial, entry));
    RunOne(service, s4, FailList);
    StoppedForEver(service, Run(service, NewSerial(id, serial, entry)), later);
  }

  /** Only a periodic generation can end the worker: without a wake-up or a timeout it lives for ever. */
  lemma {:induction false} AnnouncedIsSafe(service: Service, s: State, steps: seq<Step>)
    requires !s.worker.Stopped? && !Periodic(s.worker)
    requires forall step | step in steps :: !StartsPeriodic(step)
    ensures var t := After(service, s, steps); !t.worker.Stopped? && !Periodic(t.worker)
    decreases |steps|
  {
    if steps == [] {
    } else {
      assert steps[0] in steps;
      NextAnnounced(service, s, steps[0]);
      AnnouncedIsSafe(service, Next(service, s, steps[0]), steps[1..]);
    }
  }

  lemma AfterThree(service: Service, s: State, steps: seq<Step>)
    requires |steps| == 3
    ensures After(service, s, steps) == Next(service, Next(service, Next(service, s, steps[0]), steps[1]), steps[2])
  {
    AfterOne(service, s, [], steps[0]);
    AfterOne(service, s, [steps[0]], steps[1]);
    AfterOne(service, s, [steps[0]] + [steps[1]], steps[2]);
    assert [] + [steps[0]] == [steps[0]] && steps == ([steps[0]] + [steps[1]]) + [steps[2]];
  }

  /**
   A failed generation that is followed as soon as possible by another one: the second failure ends the worker unless
   the first one left it waiting, that is, unless it was announced and did not fail with a timeout.
   */
  lemma SecondFailureEnds(service: Service, s: State, timedOut: bool, again: bool, later: seq<Step>)
    requires s.worker.Generating?
    ensures var t := After(service, s, [LoseGeneration(timedOut), BeginList, LoseGeneration(again)]);
            && (t.worker.Stopped? <==> s.worker.periodic || timedOut)
            && (s.worker.periodic || timedOut ==> After(service, t, later).worker.Stopped?)
  {
    var steps := [LoseGeneration(timedOut), BeginList, LoseGeneration(again)];
    AfterThree(service, s, steps);
    var t := After(service, s, steps);
    if t.worker.Stopped? {
      StoppedForEver(service, t, later);
    }
  }

  predicate Periodic(w: Worker) {
    (w.Woken? || w.Generating? || w.Ready?) && w.periodic
  }

  predicate StartsPeriodic(step: Step) {
    step.WakeUp? || (step.LoseGeneration? && step.timedOut) || (step.LosePublication? && step.timedOut)
  }

  lemma NextAnnounced(service: Service, s: State, step: Step)
    requires !s.worker.Stopped? && !Periodic(s.worker) && !StartsPeriodic(step)
    ensures var t := Next(service, s, step); !t.worker.Stopped? && !Periodic(t.worker)
  {
  }

  // ----- serving a list that lacks a revocation -----

  lemma NextCached(service: Service, s: State, step: Step)
    requires !step.Publish?
    ensures Next(service, s, step).cache == s.cache || Next(service, s, step).cache == None
    ensures service.X509? && !step.Forget? ==> Next(service, s, step).cache == s.cache
  {
  }

  /** Without a new list the cache keeps what it has or loses it; that of the X.509 service only loses it by expiry. */
  lemma {:induction false} CacheKept(service: Service, s: State, steps: seq<Step>)
    requires forall step | step in steps :: !step.Publish?
    ensures After(service, s, steps).cache == s.cache || After(service, s, steps).cache == None
    ensures service.X509? && Forget !in steps ==> After(service, s, steps).cache == s.cache
    decreases |steps|
  {
    if steps == [] {
    } else {
      assert steps[0] in steps;
      NextCached(service, s, steps[0]);
      CacheKept(service, Next(service, s, steps[0]), steps[1..]);
    }
  }

  /**
   The clear of a revocation: the SSH service has no list from then on until the next one is published. The X.509
   service has the same list as before until then, unless it expires.
   */
  lemma ClearCacheExactly(service: Service, s: State, later: seq<Step>)
    requires s.recorded > 0 && forall step | step in later :: !step.Publish?
    ensures var t := After(service, Next(service, s, ClearCache), later);
            && (service.Ssh? ==> t.cache == None)
            && (service.X509? && Forget !in later ==> t.cache == s.cache)
  {
    CacheKept(service, Next(service, s, ClearCache), later);
  }

  /** Expiry leaves either service without a list until the next one is published. */
  lemma ForgetExactly(service: Service, s: State, later: seq<Step>)
    requires forall step | step in later :: !step.Publish?
    ensures After(service, Next(service, s, Forget), later).cache == None
  {
    CacheKept(service, Next(service, s, Forget), later);
  }

  /** A list lacks a serial: the cached one, the one being written, or the dictionary at the start of the generation. */
  ghost predicate HoldsWithout(w: Worker, x: Serial) {
    (w.Ready? && x !in Serials(w.list)) || (w.Generating? && x !in Serials(w.start))
  }

  ghost predicate CachedWithout(s: State, x: Serial) {
    s.cache.Some? && x !in Serials(s.cache.value)
  }

  ghost predicate StartsFirst(s: State) {
    s.worker.Generating? ==> FirstSerials(s.worker.start, s.revoked)
  }

  lemma NextStartsFirst(service: Service, s: State, step: Step)
    requires StartsFirst(s)
    ensures StartsFirst(Next(service, s, step))
  {
    if step.Revoke? {
      UpsertOrder(s.revoked, step.serial, step.entry);
    }
  }

  lemma {:induction false} RunStartsFirst(service: Service, steps: seq<Step>)
    ensures StartsFirst(Run(service, steps))
  {
    if steps == [] {
    } else {
      RunStartsFirst(service, steps[..|steps| - 1]);
      NextStartsFirst(service, Run(service, steps[..|steps| - 1]), steps[|steps| - 1]);
    }
  }

  lemma PrefixHas(start: Listing, list: Listing, d: Listing, x: Serial)
    requires FirstSerials(start, d) && FirstSerials(list, d) && (|start| <= |list| || |list| == |d|)
    requires x in Serials(start)
    ensures x in Serials(list)
  {
    var i :| 0 <= i < |start| && start[i].serial == x;
    assert list[i] in list && list[i].serial == x;
  }

  lemma NextServes(service: Service, s: State, step: Step, x: Serial)
    requires StartsFirst(s) && x in Serials(s.revoked) && !CachedWithout(s, x) && !HoldsWithout(s.worker, x)
    ensures var t := Next(service, s, step);
            StartsFirst(t) && x in Serials(t.revoked) && !CachedWithout(t, x) && !HoldsWithout(t.worker, x)
  {
    NextStartsFirst(service, s, step);
    if step.Revoke? {
      UpsertSerials(s.revoked, step.serial, step.entry);
    } else if step.FinishList? && Enabled(s, step) && s.worker.disturbed {
      PrefixHas(s.worker.start, step.list, s.revoked, x);
    }
  }

  lemma {:induction false} NeverServesWithout(service: Service, s: State, steps: seq<Step>, x: Serial)
    requires StartsFirst(s) && x in Serials(s.revoked) && !CachedWithout(s, x) && !HoldsWithout(s.worker, x)
    ensures !CachedWithout(After(service, s, steps), x)
    decreases |steps|
  {
    if steps == [] {
    } else {
      NextServes(service, s, steps[0], x);
      NeverServesWithout(service, Next(service, s, steps[0]), steps[1..], x);
    }
  }

  lemma SamePrefixSerials(start: Listing, d: Listing)
    requires FirstSerials(start, d)
    ensures Serials(d[..|start|]) <= Serials(start) && FirstSerials(d[..|start|], d)
  {
    forall n | n in Serials(d[..|start|]) ensures n in Serials(start) {
      var i :| 0 <= i < |start| && d[..|start|][i].serial == n;
      assert start[i] in start;
    }
  }

  /** At some moment from now on, a list without the serial is served. */
  ghost predicate ServesWithout(service: Service, s: State, x: Serial) {
    exists steps :: CachedWithout(After(service, s, steps), x)
  }

  lemma ServesNow(service: Service, s: State, steps: seq<Step>, x: Serial)
    requires CachedWithout(After(service, s, steps), x)
    ensures ServesWithout(service, s, x)
  {
  }

  lemma WorkerServesWithout(service: Service, s: State, x: Serial)
    requires StartsFirst(s) && Current(s) && x in Serials(s.revoked) && HoldsWithout(s.worker, x)
    ensures ServesWithout(service, s, x)
  {
    assert [Publish][1..] == [];
    if s.worker.Ready? {
      ServesNow(service, s, [Publish], x);
    } else {
      var finish := FinishList(s.revoked[..|s.worker.start|]);
      SamePrefixSerials(s.worker.start, s.revoked);
      var t := Next(service, s, finish);
      assert [finish, Publish][1..] == [Publish];
      assert After(service, s, [finish, Publish]) == After(service, t, [Publish]) == Next(service, t, Publish);
      ServesNow(service, s, [finish, Publish], x);
    }
  }

  lemma ServesFromHere(service: Service, s: State, x: Serial)
    requires StartsFirst(s) && Current(s) && x in Serials(s.revoked)
    ensures ServesWithout(service, s, x) <==> CachedWithout(s, x) || HoldsWithout(s.worker, x)
  {
    if CachedWithout(s, x) {
      ServesNow(service, s, [], x);
    } else if HoldsWithout(s.worker, x) {
      WorkerServesWithout(service, s, x);
    } else {
      forall steps ensures !CachedWithout(After(service, s, steps), x) {
        NeverServesWithout(service, s, steps, x);
      }
    }
  }

  /**
   In any reachable state, a revoked serial can be missing from a list served now or later if and only if it is missing
   from the cached list, from the one being written, or from the dictionary at the start of the running generation.
   */
  lemma ServesWithoutExactly(service: Service, steps: seq<Step>, x: Serial)
    requires x in Serials(Run(service, steps).revoked)
    ensures var s := Run(service, steps);
            ServesWithout(service, s, x) <==> CachedWithout(s, x) || HoldsWithout(s.worker, x)
  {
    RunStartsFirst(service, steps);
    RunCurrent(service, steps);
    ServesFromHere(service, Run(service, steps), x);
  }

  /**
   So once a revocation is past its clear, the SSH service can serve a list without it only from a generation that had
   begun before it was recorded; the X.509 service can also serve the list it had.
   */
  lemma ServesAfterClear(service: Service, steps: seq<Step>, x: Serial)
    requires Run(service, steps).recorded > 0 && x in Serials(Run(service, steps).revoked)
    ensures var s := Run(service, steps);
            ServesWithout(service, Run(service, steps + [ClearCache]), x) <==>
            HoldsWithout(s.worker, x) || (service.X509? && CachedWithout(s, x))
  {
    RunOne(service, steps, ClearCache);
    ServesWithoutExactly(service, steps + [ClearCache], x);
  }

  // ----- settling -----

  /** The worker lives, and nothing that has already happened ends it. */
  predicate Safe(s: State) {
    && !s.worker.Stopped?
    && !(s.worker.Generating? && s.worker.periodic && |s.worker.start| != |s.revoked|)
  }

  /** The worker holds the dictionary, or will take it. */
  predicate Due(s: State) {
    Announced(s) || match s.worker
                    case Idle => false
                    case Woken(_) => true
                    case Generating(_, start, disturbed) => start == s.revoked && !disturbed
                    case Ready(_, list, _, _) => list == s.revoked
                    case Stopped => false
  }

  lemma NextSettling(service: Service, s: State, step: Step)
    requires Safe(s) && Due(s) && Internal(step) && Enabled(s, step)
    ensures var t := Next(service, s, step);
            t.revoked == s.revoked && Safe(t) && if Quiet(t) then t.cache == Some(t.revoked) else Due(t)
  {
  }

  lemma {:induction false} LeftAloneSettles(service: Service, s: State, more: seq<Step>)
    requires Safe(s) && Due(s) && LeftAlone(service, s, more)
    ensures var t := After(service, s, more);
            t.revoked == s.revoked && Safe(t) && if Quiet(t) then t.cache == Some(s.revoked) else Due(t)
    decreases |more|
  {
    if more == [] {
    } else {
      var next := Next(service, s, more[0]);
      NextSettling(service, s, more[0]);
      if Quiet(next) {
        ExhaustedExactly(next);
        assert more[1..] == [];
      } else {
        LeftAloneSettles(service, next, more[1..]);
      }
    }
  }

  lemma {:induction false} LeftAloneEnds(service: Service, s: State, more: seq<Step>)
    requires LeftAlone(service, s, more)
    ensures |more| <= Weight(s)
    decreases |more|
  {
    if more == [] {
    } else {
      StepsComeToRest(service, s, more[0]);
      LeftAloneEnds(service, Next(service, s, more[0]), more[1..]);
    }
  }

  /** Every schedule that is left alone until nothing more is possible publishes exactly the revoked entries. */
  ghost predicate AlwaysSettles(service: Service, s: State) {
    forall more | LeftAlone(service, s, more) && Exhausted(After(service, s, more)) ::
      Quiet(After(service, s, more)) && After(service, s, more).cache == Some(s.revoked)
  }

  /** Every schedule can be continued until nothing more is possible. */
  lemma {:induction false} Completion(service: Service, s: State, more: seq<Step>) returns (all: seq<Step>)
    requires LeftAlone(service, s, more)
    ensures more <= all && LeftAlone(service, s, all) && Exhausted(After(service, s, all))
    decreases Weight(After(service, s, more))
  {
    var t := After(service, s, more);
    if step :| Internal(step) && Enabled(t, step) {
      AfterOne(service, s, more, step);
      StepsComeToRest(service, t, step);
      all := Completion(service, s, more + [step]);
    } else {
      all := more;
    }
  }

  lemma {:induction false} AfterSplit(service: Service, s: State, front: seq<Step>, back: seq<Step>)
    ensures After(service, s, front + back) == After(service, After(service, s, front), back)
    decreases |front|
  {
    if front == [] {
      assert front + back == back;
    } else {
      AfterSplit(service, Next(service, s, front[0]), front[1..], back);
      assert (front + back)[1..] == front[1..] + back;
    }
  }

  /** A schedule that ends the worker, or comes to rest with another list, shows that the system does not settle. */
  lemma Spoils(service: Service, s: State, more: seq<Step>)
    requires LeftAlone(service, s, more)
    requires var t := After(service, s, more); t.worker.Stopped? || (Quiet(t) && t.cache != Some(s.revoked))
    ensures !AlwaysSettles(service, s)
  {
    var t := After(service, s, more);
    if t.worker.Stopped? {
      var all := Completion(service, s, more);
      assert all == more + all[|more|..];
      AfterSplit(service, s, more, all[|more|..]);
      StoppedForEver(service, t, all[|more|..]);
      assert !Quiet(After(service, s, all));
    } else {
      ExhaustedExactly(t);
    }
  }

  /** A list that a disturbed generation can produce and that is not the dictionary. */
  function WrongList(d: Listing): Listing
    requires d != []
  {
    d[0 := Listed(d[0].serial, d[0].entry + 1)]
  }

  lemma UnsafeSpoils(service: Service, s: State)
    requires !Safe(s)
    ensures !AlwaysSettles(service, s)
  {
    if s.worker.Stopped? {
      Spoils(service, s, []);
    } else {
      assert [FailList][1..] == [];
      assert After(service, s, [FailList]) == Next(service, s, FailList);
      Spoils(service, s, [FailList]);
    }
  }

  lemma PublishSpoils(service: Service, s: State)
    requires s.worker.Ready? && !Announced(s) && s.worker.list != s.revoked
    ensures After(service, s, [Publish]) == Next(service, s, Publish) && LeftAlone(service, s, [Publish])
    ensures Quiet(Next(service, s, Publish)) && Next(service, s, Publish).cache != Some(s.revoked)
  {
    assert [Publish][1..] == [];
  }

  lemma UndueSpoils(service: Service, s: State)
    requires Safe(s) && !Due(s) && !Quiet(s) && (s.worker.Generating? && s.worker.disturbed ==> s.revoked != [])
    ensures !AlwaysSettles(service, s)
  {
    if s.worker.Ready? {
      PublishSpoils(service, s);
      Spoils(service, s, [Publish]);
    } else {
      var list := if s.worker.disturbed then WrongList(s.revoked) else s.worker.start;
      var finish := FinishList(list);
      PublishSpoils(service, Next(service, s, finish));
      assert [finish, Publish][1..] == [Publish];
      Spoils(service, s, [finish, Publish]);
    }
  }

  lemma DueSettles(service: Service, s: State)
    requires Safe(s) && Due(s)
    ensures AlwaysSettles(service, s)
  {
    forall more | LeftAlone(service, s, more) && Exhausted(After(service, s, more))
      ensures Quiet(After(service, s, more)) && After(service, s, more).cache == Some(s.revoked)
    {
      LeftAloneSettles(service, s, more);
      ExhaustedExactly(After(service, s, more));
    }
  }

  lemma NextDisturbed(service: Service, s: State, step: Step)
    requires s.worker.Generating? && s.worker.disturbed ==> s.revoked != []
    ensures var t := Next(service, s, step); t.worker.Generating? && t.worker.disturbed ==> t.revoked != []
  {
  }

  lemma {:induction false} RunDisturbed(service: Service, steps: seq<Step>)
    ensures var s := Run(service, steps); s.worker.Generating? && s.worker.disturbed ==> s.revoked != []
  {
    if steps == [] {
    } else {
      RunDisturbed(service, steps[..|steps| - 1]);
      NextDisturbed(service, Run(service, steps[..|steps| - 1]), steps[|steps| - 1]);
    }
  }

  /**
   From any reachable state that is not at rest, every schedule that is left alone ends within Weight many steps; and
   all of them end at rest with exactly the revoked entries published if and only if the worker lives, is not about to
   fail in a periodic generation, and holds the dictionary or is due to take it.
   */
  lemma SettlesExactly(service: Service, steps: seq<Step>)
    requires !Quiet(Run(service, steps))
    ensures AlwaysSettles(service, Run(service, steps)) <==> Safe(Run(service, steps)) && Due(Run(service, steps))
    ensures forall more | LeftAlone(service, Run(service, steps), more) :: |more| <= Weight(Run(service, steps))
  {
    var s := Run(service, steps);
    forall more | LeftAlone(service, s, more) ensures |more| <= Weight(s) {
      LeftAloneEnds(service, s, more);
    }
    if !Safe(s) {
      UnsafeSpoils(service, s);
    } else if !Due(s) {
      RunDisturbed(service, steps);
      UndueSpoils(service, s);
    } else {
      DueSettles(service, s);
    }
  }

  /** As long as nothing was lost, the life of the worker is all that matters. */
  lemma EveryScheduleSettles(service: Service, steps: seq<Step>)
    requires !Quiet(Run(service, steps)) && !Run(service, steps).lost
    ensures AlwaysSettles(service, Run(service, steps)) <==> Safe(Run(service, steps))
  {
    RunUpToDate(service, steps);
    SettlesExactly(service, steps);
  }

  /** The next periodic generation of a worker that lives repairs every loss, on every schedule. */
  lemma WakeUpRepairs(service: Service, s: State)
    requires s.worker.Idle?
    ensures Next(service, s, WakeUp).revoked == s.revoked
    ensures AlwaysSettles(service, Next(service, s, WakeUp))
  {
    DueSettles(service, Next(service, s, WakeUp));
  }
}
