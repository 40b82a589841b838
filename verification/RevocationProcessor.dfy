/** The service object: one method per segment, and the loops over the dictionary. */
module RevocationProcessor {
  import opened Prelude
  import opened RevocationList

  class Processor {
    const service: Service
    var certificates: set<CertId>
    var revokedCertificates: Listing
    var recorded: nat
    var cleared: nat
    var listQueue: nat
    var cache: Option<Listing>
    var worker: Worker
    ghost var lost: bool
    ghost var mixed: bool
    ghost var late: bool

    ghost function View(): State
      reads this
    {
      State(certificates, revokedCertificates, recorded, cleared, listQueue, cache, worker, lost, mixed, late)
    }

    constructor (s: Service)
      ensures service == s && View() == INITIAL
    {
      service := s;
      certificates := {};
      revokedCertificates, recorded, cleared, listQueue, cache, worker := [], 0, 0, 0, None, Idle;
      lost, mixed, late := false, false, false;
    }

    method StoreCertificate(id: CertId)
      modifies this
      ensures View() == Next(service, old(View()), Issue(id))
    {
      certificates := certificates + {id};
    }

    /** The segment before the first cache call; an unknown certificate raises and changes nothing. */
    method Revoke(id: CertId, serial: Serial, entry: Entry) returns (known: bool)
      modifies this
      ensures known <==> id in old(certificates)
      ensures View() == Next(service, old(View()), Step.Revoke(id, serial, entry))
    {
      if id !in certificates {
        return false;
      }
      revokedCertificates := Store(revokedCertificates, serial, entry);
      recorded := recorded + 1;
      worker := Disturbed(worker);
      late := true;
      return true;
    }

    method InvalidateCache()
      requires recorded > 0
      modifies this
      ensures View() == Next(service, old(View()), ClearCache)
    {
      if service.Ssh? {
        cache := None;
      }
      recorded, cleared := recorded - 1, cleared + 1;
    }

    method ScheduleUpdate()
      requires cleared > 0 && listQueue < QUEUE_CAPACITY
      modifies this
      ensures View() == Next(service, old(View()), PostToken)
    {
      listQueue := listQueue + 1;
      cleared := cleared - 1;
    }

    method TakeRequest()
      requires worker.Idle? && listQueue > 0
      modifies this
      ensures View() == Next(service, old(View()), TakeToken)
    {
      listQueue := listQueue - 1;
      worker := Woken(false);
    }

    /** The wait for a token has timed out. */
    method WaitTimesOut()
      requires worker.Idle?
      modifies this
      ensures View() == Next(service, old(View()), WakeUp)
    {
      worker := Woken(true);
    }

    method StartGeneration()
      requires worker.Woken?
      modifies this
      ensures View() == Next(service, old(View()), BeginList)
    {
      worker := Generating(worker.periodic, revokedCertificates, false);
      lost := false;
    }

    /** The loop over the items that the thread gets to see. */
    method FinishGeneration(seen: Listing)
      requires Producible(worker, revokedCertificates, seen)
      modifies this
      ensures View() == Next(service, old(View()), FinishList(seen))
    {
      var list := [];
      for i := 0 to |seen|
        invariant list == seen[..i]
      {
        list := list + [seen[i]];
      }
      assert list == seen;
      worker := Ready(worker.periodic, list, worker.disturbed, worker.disturbed);
    }

    /** What the worker does with an exception: its handler of the timeout is not covered by the other handler. */
    method Raise(timedOut: bool)
      requires worker.Generating? || worker.Ready?
      modifies this`worker
      ensures worker == Raised(old(worker), timedOut)
    {
      if worker.periodic {
        worker := Stopped;
      } else if timedOut {
        worker := Woken(true);
      } else {
        worker := Idle;
      }
    }

    /** The dictionary has changed its size during the iteration. */
    method FailGeneration()
      requires worker.Generating? && |worker.start| != |revokedCertificates|
      modifies this
      ensures View() == Next(service, old(View()), FailList)
    {
      Raise(false);
    }

    method WriteCache()
      requires worker.Ready?
      modifies this
      ensures View() == Next(service, old(View()), Publish)
    {
      cache := Some(worker.list);
      mixed, late := worker.mixed, worker.late;
      worker := Idle;
    }

    /** A cache call of a revocation raises; the entry stays recorded. */
    method AbandonRevocation()
      requires recorded > 0
      modifies this
      ensures View() == Next(service, old(View()), LoseRevocation)
    {
      recorded := recorded - 1;
      lost := true;
    }

    /** The thread pool fails. */
    method AbandonGeneration(timedOut: bool)
      requires worker.Generating?
      modifies this
      ensures View() == Next(service, old(View()), LoseGeneration(timedOut))
    {
      Raise(timedOut);
      lost := true;
    }

    /** The cache call of the worker raises. */
    method AbandonPublication(timedOut: bool)
      requires worker.Ready?
      modifies this
      ensures View() == Next(service, old(View()), LosePublication(timedOut))
    {
      Raise(timedOut);
      lost := true;
    }

    /** Posting a token and one undisturbed turn of the worker. */
    method PublishChange()
      requires worker.Idle? && recorded == 0 && cleared == 1 && listQueue == 0
      modifies this
      ensures Quiet(View()) && revokedCertificates == old(revokedCertificates) && cache == Some(revokedCertificates)
    {
      ScheduleUpdate();
      TakeRequest();
      StartGeneration();
      FinishGeneration(revokedCertificates);
      WriteCache();
    }

    /** A revocation processed without interruption, followed by one turn of the list worker. */
    method RevokeAndPublish(id: CertId, serial: Serial, entry: Entry)
      requires id in certificates && Quiet(View())
      modifies this
      ensures Quiet(View()) && cache == Some(Upsert(old(revokedCertificates), serial, entry))
    {
      var known := Revoke(id, serial, entry);
      InvalidateCache();
      PublishChange();
    }
  }

  /** Assigning one key of an insertion-ordered dictionary. */
  method Store(d: Listing, serial: Serial, entry: Entry) returns (r: Listing)
    ensures r == Upsert(d, serial, entry)
  {
    var before: Listing := [];
    for i := 0 to |d|
      invariant before == d[..i]
      invariant Upsert(d, serial, entry) == before + Upsert(d[i..], serial, entry)
    {
      assert d[i..][0] == d[i] && d[i..][1..] == d[i + 1..];
      if d[i].serial == serial {
        Regroup(before, [Listed(serial, entry)], d[i + 1..]);
        return before + [Listed(serial, entry)] + d[i + 1..];
      }
      Regroup(before, [d[i]], Upsert(d[i + 1..], serial, entry));
      before := before + [d[i]];
    }
    return before + [Listed(serial, entry)];
  }
}
