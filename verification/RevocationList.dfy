/**
 Publishing a revocation list: revocations update a dictionary and post a token; a single worker takes tokens, or wakes
 up by itself after a while, snapshots the dictionary off the event loop and writes a cache. One step is what happens
 between two suspension points.
 */
module RevocationList {
  import opened Prelude

  /** A request identifier, by its number. */
  type CertId = nat
  type Serial = int

  /** What a list says about a serial: time, reason and fingerprint, by a number. */
  type Entry = nat

  datatype Listed = Listed(serial: Serial, entry: Entry)

  /** An insertion-ordered dictionary, and also a list generated from it. */
  type Listing = seq<Listed>

  /** The SSH service clears the list cache on revocation, the X.509 service does not. */
  datatype Service = Ssh | X509

  /**
   A generation runs in a thread and is disturbed by every revocation recorded meanwhile. It is periodic if the worker
   started it by itself; that happens in an exception handler, so what is raised then ends the worker. A list is mixed
   if its generation was disturbed, and late if a revocation was recorded since its generation began.
   */
  datatype Worker =
    | Idle
    | Woken(periodic: bool)
    | Generating(periodic: bool, start: Listing, disturbed: bool)
    | Ready(periodic: bool, list: Listing, mixed: bool, late: bool)
    | Stopped

  /**
   recorded and cleared count the revocations suspended after their first and their second segment. The last three are
   histories: whether some step has raised since the last generation began, so that a revocation may have gone
   unannounced, and whether the list last published is mixed and late.
   */
  datatype State = State(
    certificates: set<CertId>,
    revoked: Listing,
    recorded: nat,
    cleared: nat,
    tokens: nat,
    cache: Option<Listing>,
    worker: Worker,
    lost: bool,
    mixed: bool,
    late: bool)

  const INITIAL := State({}, [], 0, 0, 0, None, Idle, false, false, false)

  const QUEUE_CAPACITY := 100

  datatype Step =
    | Issue(id: CertId)
    | Revoke(id: CertId, serial: Serial, entry: Entry)
    | ClearCache
    | PostToken
    | TakeToken
    | WakeUp
    | BeginList
    | FinishList(list: Listing)
    | FailList
    | Publish
    | Forget
    | LoseRevocation
    | LoseGeneration(timedOut: bool)
    | LosePublication(timedOut: bool)

  function Upsert(d: Listing, serial: Serial, entry: Entry): Listing {
    if d == [] then [Listed(serial, entry)]
    else if d[0].serial == serial then [Listed(serial, entry)] + d[1..]
    else [d[0]] + Upsert(d[1..], serial, entry)
  }

  function Find(d: Listing, serial: Serial): Option<Entry> {
    if d == [] then None else if d[0].serial == serial then Some(d[0].entry) else Find(d[1..], serial)
  }

  ghost function Serials(d: Listing): set<Serial> {
    set x | x in d :: x.serial
  }

  /** The first serials of the dictionary, in its order, with any entries. */
  ghost predicate FirstSerials(list: Listing, d: Listing) {
    |list| <= |d| && forall i | 0 <= i < |list| :: list[i].serial == d[i].serial
  }

  /**
   What a generation can produce: the dictionary if nothing was revoked meanwhile. Otherwise the thread may have started
   its iteration at any time since, and some entries may be older or newer than others. But new serials go to the end
   and make an iteration fail that has started, so what it lists are the serials of one moment.
   */
  ghost predicate Producible(w: Worker, now: Listing, list: Listing) {
    && w.Generating?
    && if w.disturbed then FirstSerials(list, now) && (|w.start| <= |list| || |list| == |now|) else list == w.start
  }

  ghost predicate Enabled(s: State, step: Step) {
    match step
    case Issue(_) => true
    case Revoke(id, _, _) => id in s.certificates
    case ClearCache => s.recorded > 0
    case PostToken => s.cleared > 0 && s.tokens < QUEUE_CAPACITY
    case TakeToken => s.worker.Idle? && s.tokens > 0
    case WakeUp => s.worker.Idle?
    case BeginList => s.worker.Woken?
    case FinishList(list) => Producible(s.worker, s.revoked, list)
    case FailList => s.worker.Generating? && |s.worker.start| != |s.revoked|
    case Publish => s.worker.Ready?
    case Forget => true
    case LoseRevocation => s.recorded > 0
    case LoseGeneration(_) => s.worker.Generating?
    case LosePublication(_) => s.worker.Ready?
  }

  function Disturbed(w: Worker): Worker {
    if w.Generating? then w.(disturbed := true) else if w.Ready? then w.(late := true) else w
  }

  /** Where the worker is after something was raised; a timeout is taken for the end of the wait for a token. */
  function Raised(w: Worker, timedOut: bool): Worker
    requires w.Generating? || w.Ready?
  {
    if w.periodic then Stopped else if timedOut then Woken(true) else Idle
  }

  ghost function Next(service: Service, s: State, step: Step): State {
    if !Enabled(s, step) then s
    else
      match step
      case Issue(id) => s.(certificates := s.certificates + {id})
      case Revoke(_, serial, entry) =>
        s.(revoked := Upsert(s.revoked, serial, entry), recorded := s.recorded + 1,
           worker := Disturbed(s.worker), late := true)
      case ClearCache =>
        s.(recorded := s.recorded - 1, cleared := s.cleared + 1,
           cache := if service.Ssh? then None else s.cache)
      case PostToken => s.(cleared := s.cleared - 1, tokens := s.tokens + 1)
      case TakeToken => s.(tokens := s.tokens - 1, worker := Woken(false))
      case WakeUp => s.(worker := Woken(true))
      case BeginList => s.(worker := Generating(s.worker.periodic, s.revoked, false), lost := false)
      case FinishList(list) =>
        s.(worker := Ready(s.worker.periodic, list, s.worker.disturbed, s.worker.disturbed))
      case FailList => s.(worker := Raised(s.worker, false))
      case Publish => s.(cache := Some(s.worker.list), worker := Idle, mixed := s.worker.mixed, late := s.worker.late)
      case Forget => s.(cache := None)
      case LoseRevocation => s.(recorded := s.recorded - 1, lost := true)
      case LoseGeneration(timedOut) => s.(worker := Raised(s.worker, timedOut), lost := true)
      case LosePublication(timedOut) => s.(worker := Raised(s.worker, timedOut), lost := true)
  }

  ghost function Run(service: Service, steps: seq<Step>): State {
    if steps == [] then INITIAL else Next(service, Run(service, steps[..|steps| - 1]), steps[|steps| - 1])
  }

  // ----- the dictionary holds the last entry of every revoked serial -----

  /** The entry of the last revocation of a serial under a certificate issued before. */
  ghost function LastRevoked(steps: seq<Step>, serial: Serial): Option<Entry> {
    if steps == [] then None
    else
      var front, last := steps[..|steps| - 1], steps[|steps| - 1];
      if last.Revoke? && Issue(last.id) in front && last.serial == serial then Some(last.entry)
      else LastRevoked(front, serial)
  }

  lemma NextCertificates(service: Service, s: State, step: Step, id: CertId)
    ensures id in Next(service, s, step).certificates <==> id in s.certificates || step == Issue(id)
  {
  }

  lemma {:induction false} CertificatesAreIssued(service: Service, steps: seq<Step>, id: CertId)
    ensures id in Run(service, steps).certificates <==> Issue(id) in steps
  {
    if steps == [] {
    } else {
      var front, last := steps[..|steps| - 1], steps[|steps| - 1];
      CertificatesAreIssued(service, front, id);
      NextCertificates(service, Run(service, front), last, id);
      assert steps == front + [last];
    }
  }

  lemma {:induction false} FindUpsert(d: Listing, serial: Serial, entry: Entry, other: Serial)
    ensures Find(Upsert(d, serial, entry), other) == if other == serial then Some(entry) else Find(d, other)
  {
    if d == [] || d[0].serial == serial {
    } else {
      FindUpsert(d[1..], serial, entry, other);
    }
  }

  /** Assigning keeps the order of the serials, and puts a new one at the end. */
  lemma {:induction false} UpsertOrder(d: Listing, serial: Serial, entry: Entry)
    ensures FirstSerials(d, Upsert(d, serial, entry))
    ensures |Upsert(d, serial, entry)| == if Find(d, serial).Some? then |d| else |d| + 1
    ensures Find(d, serial).None? ==> Upsert(d, serial, entry)[|d|] == Listed(serial, entry)
  {
    if d == [] || d[0].serial == serial {
    } else {
      UpsertOrder(d[1..], serial, entry);
      var rest := Upsert(d[1..], serial, entry);
      assert Upsert(d, serial, entry) == [d[0]] + rest;
      forall i | 1 <= i < |d| ensures ([d[0]] + rest)[i].serial == d[i].serial {
        assert d[i] == d[1..][i - 1];
      }
    }
  }

  lemma NextRevoked(service: Service, s: State, step: Step, serial: Serial)
    ensures Find(Next(service, s, step).revoked, serial) ==
            if step.Revoke? && step.id in s.certificates && step.serial == serial then Some(step.entry)
            else Find(s.revoked, serial)
  {
    if step.Revoke? {
      FindUpsert(s.revoked, step.serial, step.entry, serial);
    }
  }

  lemma {:induction false} RevokedIsHistory(service: Service, steps: seq<Step>, serial: Serial)
    ensures Find(Run(service, steps).revoked, serial) == LastRevoked(steps, serial)
  {
    if steps == [] {
    } else {
      var front, last := steps[..|steps| - 1], steps[|steps| - 1];
      RevokedIsHistory(service, front, serial);
      NextRevoked(service, Run(service, front), last, serial);
      if last.Revoke? {
        CertificatesAreIssued(service, front, last.id);
      }
    }
  }

  // ----- quiescence -----

  /** Some revocation is still on its way to the worker. */
  predicate Announced(s: State) {
    s.recorded > 0 || s.cleared > 0 || s.tokens > 0
  }

  predicate Quiet(s: State) {
    !Announced(s) && s.worker.Idle?
  }

  /**
   Without an announcement or a loss, whatever the worker holds or has published is the whole dictionary, and the
   worker has not ended.
   */
  ghost predicate UpToDate(s: State) {
    Announced(s) || s.lost ||
    match s.worker
    case Idle => s.cache == None || s.cache == Some(s.revoked)
    case Woken(_) => true
    case Generating(_, start, disturbed) => start == s.revoked && !disturbed
    case Ready(_, list, _, _) => list == s.revoked
    case Stopped => false
  }

  lemma NextUpToDate(service: Service, s: State, step: Step)
    requires UpToDate(s)
    ensures UpToDate(Next(service, s, step))
  {
  }

  lemma {:induction false} RunUpToDate(service: Service, steps: seq<Step>)
    ensures UpToDate(Run(service, steps))
  {
    if steps == [] {
    } else {
      RunUpToDate(service, steps[..|steps| - 1]);
      NextUpToDate(service, Run(service, steps[..|steps| - 1]), steps[|steps| - 1]);
    }
  }

  /** Over every interleaving: at rest, with nothing lost, the list is absent or is exactly what has been revoked. */
  lemma QuietListExact(service: Service, steps: seq<Step>, serial: Serial)
    requires Quiet(Run(service, steps)) && Run(service, steps).cache.Some? && !Run(service, steps).lost
    ensures Run(service, steps).cache == Some(Run(service, steps).revoked)
    ensures Find(Run(service, steps).cache.value, serial) == LastRevoked(steps, serial)
  {
    RunUpToDate(service, steps);
    RevokedIsHistory(service, steps, serial);
  }

  predicate Loses(step: Step) {
    step.LoseRevocation? || step.LoseGeneration? || step.LosePublication?
  }

  lemma RunOne(service: Service, steps: seq<Step>, step: Step)
    ensures Run(service, steps + [step]) == Next(service, Run(service, steps), step)
  {
    assert (steps + [step])[..|steps|] == steps;
  }

  lemma NextNotLost(service: Service, s: State, step: Step)
    requires !s.lost && !Loses(step)
    ensures !Next(service, s, step).lost
    ensures Next(service, s, step).worker.Stopped? ==> s.worker.Stopped? || step.FailList?
  {
  }

  /**
   As long as no cache call raises and the thread pool does not fail, nothing is lost, and only a generation that finds
   the dictionary changed in size can have ended the worker.
   */
  lemma {:induction false} NothingLost(service: Service, before: seq<Step>, steps: seq<Step>)
    requires forall step | step in steps :: !Loses(step)
    requires !Run(service, before).lost
    ensures !Run(service, before + steps).lost
    ensures Run(service, before + steps).worker.Stopped? ==> Run(service, before).worker.Stopped? || FailList in steps
  {
    if steps == [] {
      assert before + steps == before;
    } else {
      var front, last := steps[..|steps| - 1], steps[|steps| - 1];
      NothingLost(service, before, front);
      NextNotLost(service, Run(service, before + front), last);
      RunOne(service, before + front, last);
      Regroup(before, front, [last]);
      assert steps == front + [last];
    }
  }

  /** What lost says: some step has raised since the last generation began. */
  ghost function LostSince(service: Service, steps: seq<Step>): bool {
    if steps == [] then false
    else
      var front, last := steps[..|steps| - 1], steps[|steps| - 1];
      LostAfter(Run(service, front), last, LostSince(service, front))
  }

  ghost predicate LostAfter(s: State, step: Step, before: bool) {
    if !Enabled(s, step) then before else !step.BeginList? && (Loses(step) || before)
  }

  lemma NextLost(service: Service, s: State, step: Step)
    ensures Next(service, s, step).lost == LostAfter(s, step, s.lost)
  {
  }

  lemma {:induction false} LostIsHistory(service: Service, steps: seq<Step>)
    ensures Run(service, steps).lost == LostSince(service, steps)
  {
    if steps == [] {
    } else {
      LostIsHistory(service, steps[..|steps| - 1]);
      NextLost(service, Run(service, steps[..|steps| - 1]), steps[|steps| - 1]);
    }
  }

  function EmptyList(id: CertId): seq<Step> {
    ((([Issue(id)] + [WakeUp]) + [BeginList]) + [FinishList([])]) + [Publish]
  }

  lemma EmptyListPublished(service: Service, id: CertId)
    ensures Run(service, EmptyList(id)) == INITIAL.(certificates := {id}, cache := Some([]))
  {
    assert [Issue(id)][..0] == [];
    RunOne(service, [Issue(id)], WakeUp);
    RunOne(service, [Issue(id)] + [WakeUp], BeginList);
    RunOne(service, ([Issue(id)] + [WakeUp]) + [BeginList], FinishList([]));
    RunOne(service, (([Issue(id)] + [WakeUp]) + [BeginList]) + [FinishList([])], Publish);
  }

  /** A loss does matter: one cache call that raises leaves the system at rest with a list that lacks a revocation. */
  lemma LossLeavesStaleList(service: Service, id: CertId, serial: Serial, entry: Entry)
    ensures var s := Run(service, (EmptyList(id) + [Revoke(id, serial, entry)]) + [LoseRevocation]);
            Quiet(s) && s.cache == Some([]) && s.revoked == [Listed(serial, entry)]
  {
    EmptyListPublished(service, id);
    RunOne(service, EmptyList(id), Revoke(id, serial, entry));
    RunOne(service, EmptyList(id) + [Revoke(id, serial, entry)], LoseRevocation);
  }

  // ----- when a list is the dictionary -----

  /** What is not late is the dictionary, and what is mixed is late. */
  ghost predicate Current(s: State) {
    && (s.cache.Some? && !s.late ==> s.cache.value == s.revoked && !s.mixed)
    && (s.worker.Generating? && !s.worker.disturbed ==> s.worker.start == s.revoked)
    && (s.worker.Ready? && !s.worker.late ==> s.worker.list == s.revoked && !s.worker.mixed)
  }

  lemma NextCurrent(service: Service, s: State, step: Step)
    requires Current(s)
    ensures Current(Next(service, s, step))
  {
  }

  lemma {:induction false} RunCurrent(service: Service, steps: seq<Step>)
    ensures Current(Run(service, steps))
  {
    if steps == [] {
    } else {
      RunCurrent(service, steps[..|steps| - 1]);
      NextCurrent(service, Run(service, steps[..|steps| - 1]), steps[|steps| - 1]);
    }
  }

  ghost function Entries(d: Listing): set<Entry> {
    set x | x in d :: x.entry
  }

  /** The entries of all revocations asked for. */
  ghost function Used(steps: seq<Step>): set<Entry> {
    if steps == [] then {}
    else
      Used(steps[..|steps| - 1]) + if steps[|steps| - 1].Revoke? then {steps[|steps| - 1].entry} else {}
  }

  /** No two revocations have the same entry; it contains their times. */
  ghost predicate FreshEntries(steps: seq<Step>) {
    steps == [] ||
    (FreshEntries(steps[..|steps| - 1]) &&
     (steps[|steps| - 1].Revoke? ==> steps[|steps| - 1].entry !in Used(steps[..|steps| - 1])))
  }

  lemma EntriesCons(x: Listed, rest: Listing)
    ensures Entries([x] + rest) == {x.entry} + Entries(rest)
  {
    assert ([x] + rest)[0] == x;
    assert forall y | y in rest :: y in [x] + rest;
  }

  lemma {:induction false} UpsertEntries(d: Listing, serial: Serial, entry: Entry)
    ensures entry in Entries(Upsert(d, serial, entry)) && Entries(Upsert(d, serial, entry)) <= Entries(d) + {entry}
  {
    if d == [] {
      EntriesCons(Listed(serial, entry), []);
      assert [Listed(serial, entry)] + [] == [Listed(serial, entry)];
    } else {
      assert d == [d[0]] + d[1..];
      EntriesCons(d[0], d[1..]);
      EntriesCons(Listed(serial, entry), d[1..]);
      if d[0].serial != serial {
        UpsertEntries(d[1..], serial, entry);
        EntriesCons(d[0], Upsert(d[1..], serial, entry));
      }
    }
  }

  /** The list lacks an entry that the dictionary has. */
  ghost predicate Lacks(list: Listing, d: Listing) {
    exists e :: e in Entries(d) && e !in Entries(list)
  }

  /** Lists that are late but not mixed lack an entry; nothing has an entry that was not asked for. */
  ghost predicate Behind(s: State, used: set<Entry>) {
    && Entries(s.revoked) <= used
    && (s.cache.Some? && !s.mixed ==> ListBehind(s.cache.value, s.late, s.revoked, used))
    && (s.worker.Generating? ==> ListBehind(s.worker.start, s.worker.disturbed, s.revoked, used))
    && (s.worker.Ready? && !s.worker.mixed ==> ListBehind(s.worker.list, s.worker.late, s.revoked, used))
  }

  ghost predicate ListBehind(list: Listing, late: bool, d: Listing, used: set<Entry>) {
    Entries(list) <= used && (late ==> Lacks(list, d))
  }

  lemma FreshLacks(list: Listing, d: Listing, used: set<Entry>, serial: Serial, entry: Entry)
    requires Entries(list) <= used && Entries(d) <= used && entry !in used
    ensures Entries(Upsert(d, serial, entry)) <= used + {entry}
    ensures ListBehind(list, true, Upsert(d, serial, entry), used + {entry})
  {
    UpsertEntries(d, serial, entry);
    assert entry in Entries(Upsert(d, serial, entry)) && entry !in Entries(list);
  }

  lemma RevokeBehind(service: Service, s: State, used: set<Entry>, step: Step)
    requires Behind(s, used) && step.Revoke? && step.entry !in used
    ensures Behind(Next(service, s, step), used + {step.entry})
  {
    if Enabled(s, step) {
      FreshLacks(s.revoked, s.revoked, used, step.serial, step.entry);
      if s.cache.Some? && !s.mixed {
        FreshLacks(s.cache.value, s.revoked, used, step.serial, step.entry);
      }
      if s.worker.Generating? {
        FreshLacks(s.worker.start, s.revoked, used, step.serial, step.entry);
      }
      if s.worker.Ready? && !s.worker.mixed {
        FreshLacks(s.worker.list, s.revoked, used, step.serial, step.entry);
      }
    }
  }

  lemma NextBehind(service: Service, s: State, used: set<Entry>, step: Step)
    requires Behind(s, used) && !step.Revoke?
    ensures Behind(Next(service, s, step), used)
  {
  }

  lemma {:induction false} RunBehind(service: Service, steps: seq<Step>)
    requires FreshEntries(steps)
    ensures Behind(Run(service, steps), Used(steps))
  {
    if steps == [] {
    } else {
      var front, last := steps[..|steps| - 1], steps[|steps| - 1];
      RunBehind(service, front);
      if last.Revoke? {
        RevokeBehind(service, Run(service, front), Used(front), last);
      } else {
        NextBehind(service, Run(service, front), Used(front), last);
        assert Used(steps) == Used(front);
      }
    }
  }

  /**
   At any moment a cached list is the dictionary if no revocation was recorded since its generation began; and only
   then, if its generation was not disturbed and revocations have entries of their own.
   */
  lemma CachedListExactly(service: Service, steps: seq<Step>)
    requires Run(service, steps).cache.Some?
    ensures var s := Run(service, steps);
            && (!s.late ==> s.cache.value == s.revoked)
            && (FreshEntries(steps) && !s.mixed ==> (s.cache.value == s.revoked <==> !s.late))
  {
    RunCurrent(service, steps);
    if FreshEntries(steps) {
      RunBehind(service, steps);
    }
  }

  // ----- no serial is published that was not revoked -----

  ghost predicate Grounded(s: State) {
    && (s.cache.Some? ==> Serials(s.cache.value) <= Serials(s.revoked))
    && (s.worker.Generating? ==> Serials(s.worker.start) <= Serials(s.revoked))
    && (s.worker.Ready? ==> Serials(s.worker.list) <= Serials(s.revoked))
  }

  lemma FirstSerialsWithin(list: Listing, d: Listing)
    requires FirstSerials(list, d)
    ensures Serials(list) <= Serials(d)
  {
    forall n | n in Serials(list) ensures n in Serials(d) {
      var i :| 0 <= i < |list| && list[i].serial == n;
      assert d[i] in d && d[i].serial == n;
    }
  }

  lemma {:induction false} UpsertSerials(d: Listing, serial: Serial, entry: Entry)
    ensures Serials(Upsert(d, serial, entry)) == Serials(d) + {serial}
  {
    if d == [] {
      assert Upsert(d, serial, entry)[0] == Listed(serial, entry);
    } else {
      assert d == [d[0]] + d[1..];
      assert Serials(d) == {d[0].serial} + Serials(d[1..]);
      if d[0].serial != serial {
        UpsertSerials(d[1..], serial, entry);
        var rest := Upsert(d[1..], serial, entry);
        assert Serials([d[0]] + rest) == {d[0].serial} + Serials(rest);
      } else {
        assert Serials([Listed(serial, entry)] + d[1..]) == {serial} + Serials(d[1..]);
      }
    }
  }

  lemma NextGrounded(service: Service, s: State, step: Step)
    requires Grounded(s)
    ensures Grounded(Next(service, s, step))
  {
    if step.Revoke? {
      UpsertSerials(s.revoked, step.serial, step.entry);
    } else if step.FinishList? && Enabled(s, step) && s.worker.disturbed {
      FirstSerialsWithin(step.list, s.revoked);
    }
  }

  /** Even in the middle of everything, a published serial has been revoked. */
  lemma {:induction false} RunGrounded(service: Service, steps: seq<Step>)
    ensures Grounded(Run(service, steps))
  {
    if steps == [] {
    } else {
      RunGrounded(service, steps[..|steps| - 1]);
      NextGrounded(service, Run(service, steps[..|steps| - 1]), steps[|steps| - 1]);
    }
  }
}
