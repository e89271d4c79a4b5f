/** The object service as an object whose methods update its tables in place. */
module ObjectTables {
  import opened Wrappers
  import opened Objects

  /** The inner loop of `expire`: marks the leases that ran out and keeps those within their grace. */
  method AgeLeases(L: Limits, leases: map<Locality, Lease>, now: Time) returns (kept: map<Locality, Lease>)
    ensures kept == Aged(L, leases, now)
  {
    kept := map[];
    var todo := leases.Keys;
    while todo != {}
      invariant todo <= leases.Keys
      invariant kept == map l | l in leases && l !in todo && Kept(L, Marked(leases[l], now), now) :: Marked(leases[l], now)
      decreases |todo|
    {
      var l :| l in todo;
      todo := todo - {l};
      var lease := leases[l];
      if lease.expiresAt <= now && lease.suspectSince.None? { lease := lease.(suspectSince := Some(now)); }
      var since := if lease.suspectSince.Some? && now >= lease.suspectSince.value then now - lease.suspectSince.value else 0;
      if lease.suspectSince.None? || since < L.grace { kept := kept[l := lease]; }
    }
  }

  /** `retain` on the pending transfers. */
  method RetainTransfers(transfers: set<(Id, Locality)>, o: Id, active: map<Locality, Lease>) returns (kept: set<(Id, Locality)>)
    ensures kept == Remaining(transfers, o, active)
  {
    kept := {};
    var todo := transfers;
    while todo != {}
      invariant todo <= transfers
      invariant kept == set p | p in transfers && p !in todo && (p.0 != o || p.1 in active)
      decreases |todo|
    {
      var p :| p in todo;
      todo := todo - {p};
      if p.0 != o || p.1 in active { kept := kept + {p}; }
    }
  }

  /** The loop of `retry_ready` on the calls of one object. */
  method DrainQueue(calls: Calls, turns: nat) returns (c: Calls)
    ensures c == Drain(calls, turns)
  {
    c := calls;
    var left := turns;
    while left > 0 && c.queue != []
      invariant Drain(calls, turns) == Drain(c, left)
      decreases left
    {
      var front := c.queue[0];
      if front.freeze && c.tickets != 0 { break; }
      if front.read { c := c.(readers := c.readers + 1); } else { c := c.(writer := true); }
      c := c.(inFlight := c.inFlight + 1);
      c := c.(queue := c.queue[1..]);
      if !front.read { return; }
      left := left - 1;
    }
  }

  class ObjectService {
    const L: Limits
    var entries: map<Id, Entry>
    var transfers: set<(Id, Locality)>
    var rootCount: int
    var transferCount: int
    var placementCount: int
    var retirements: seq<Id>

    ghost function Now(): State
      reads this
    {
      State(entries, transfers, rootCount, transferCount, placementCount, retirements)
    }

    constructor (limits: Limits)
      ensures L == limits && Now() == State(map[], {}, 0, 0, 0, [])
    {
      L := limits;
      entries, transfers, retirements := map[], {}, [];
      rootCount, transferCount, placementCount := 0, 0, 0;
    }

    method TryCollect(o: Id)
      modifies this
      ensures Now() == Collect(L, old(Now()), o)
    {
      if o !in entries || !Idle(entries[o]) { return; }
      var e := entries[o];
      if !e.home {
        if (e.site.lifecycle.Forwarding? || e.site.lifecycle.Retiring?) && !e.site.present { entries := entries - {o}; }
        return;
      }
      if |e.leases| != 0 || e.roots != 0 { return; }
      match e.site.lifecycle {
        case Resident => if e.site.present { entries := entries - {o}; }
        case Forwarding(_, away) =>
          if e.site.present {
          } else if !away {
            entries := entries - {o};
          } else if |retirements| < L.maxMigrations {
            entries := entries[o := e.(site := e.site.(lifecycle := Retiring))];
            retirements := retirements + [o];
          }
        case _ =>
      }
    }

    method TryInsert(o: Id, rooted: bool, l: Locality, now: Time) returns (ok: bool)
      modifies this
      ensures (Now(), ok) == Insert(L, old(Now()), o, rooted, l, now)
    {
      if |entries| >= L.maxObjects || o in entries { return false; }
      if rooted {
        if rootCount >= L.maxRoots { return false; }
        rootCount := rootCount + 1;
      }
      var roots := if rooted then 1 else 0;
      entries := entries[o := Entry(true, Site(Resident, false, true, None), map[l := Granted(L, now)], roots, NoCalls)];
      return true;
    }

    method TryAcquire(o: Id, l: Locality, now: Time) returns (ok: bool)
      modifies this
      ensures (Now(), ok) == Acquire(L, old(Now()), o, l, now)
    {
      if o !in entries { return false; }
      var e := entries[o];
      if |e.leases| >= L.maxLeases && l !in e.leases { return false; }
      entries := entries[o := e.(leases := e.leases[l := Lease(now + L.ttl, None)])];
      return true;
    }

    method TryRenew(o: Id, l: Locality, now: Time) returns (ok: bool)
      modifies this
      ensures (Now(), ok) == Renew(L, old(Now()), o, l, now)
    {
      if o !in entries || l !in entries[o].leases { return false; }
      var e := entries[o];
      var lease := e.leases[l].(expiresAt := now + L.ttl, suspectSince := None);
      entries := entries[o := e.(leases := e.leases[l := lease])];
      return true;
    }

    method TryAckTransfer(o: Id, l: Locality) returns (ok: bool)
      modifies this
      ensures (Now(), ok) == AckTransfer(old(Now()), o, l)
    {
      ok := (o, l) in transfers;
      if ok {
        transfers := transfers - {(o, l)};
        transferCount := transferCount - 1;
      }
    }

    method TryRelease(o: Id, l: Locality) returns (removed: bool)
      modifies this
      ensures (Now(), removed) == Release(L, old(Now()), o, l)
    {
      if o !in entries { return false; }
      var e := entries[o];
      removed := l in e.leases;
      entries := entries[o := e.(leases := e.leases - {l})];
      var _ := TryAckTransfer(o, l);
      TryCollect(o);
    }

    method TryReleaseRoot(o: Id) returns (ok: bool)
      modifies this
      ensures (Now(), ok) == ReleaseRoot(L, old(Now()), o)
    {
      if o !in entries || entries[o].roots == 0 { return false; }
      entries := entries[o := entries[o].(roots := entries[o].roots - 1)];
      rootCount := rootCount - 1;
      TryCollect(o);
      return true;
    }

    method TryBeginTransfer(o: Id, l: Locality, now: Time) returns (ok: bool)
      modifies this
      ensures (Now(), ok) == BeginTransfer(L, old(Now()), o, l, now)
    {
      if o !in entries || l in entries[o].leases { return false; }
      if (o, l) in transfers || transferCount >= L.maxTransfers { return false; }
      transferCount := transferCount + 1;
      transfers := transfers + {(o, l)};
      ok := TryAcquire(o, l, now);
      if !ok {
        transfers := transfers - {(o, l)};
        transferCount := transferCount - 1;
      }
    }

    /** `expire` on one object: lifecycle, leases, transfers, then collection. */
    method ExpireObject(o: Id, now: Time)
      modifies this
      ensures Now() == ExpireOne(L, old(Now()), o, now)
    {
      if o !in entries { return; }
      var e := entries[o];
      var active := AgeLeases(L, e.leases, now);
      entries := entries[o := e.(site := AgedSite(L, e.home, e.site, now), leases := active)];
      var kept := RetainTransfers(transfers, o, active);
      transferCount := transferCount - (|transfers| - |kept|);
      transfers := kept;
      TryCollect(o);
    }

    /** Visits every object that was in the table at the start; `order` is the order chosen. */
    method ExpireAll(now: Time) returns (order: seq<Id>)
      modifies this
      ensures Now() == Expire(L, old(Now()), order, now)
      ensures forall o :: o in old(entries) <==> o in order
    {
      order := [];
      var ids := entries.Keys;
      while ids != {}
        invariant Now() == Expire(L, old(Now()), order, now)
        invariant forall o :: o in old(entries) <==> o in order || o in ids
        decreases |ids|
      {
        var o :| o in ids;
        ids := ids - {o};
        ExpireObject(o, now);
        assert (order + [o])[..|order|] == order;
        order := order + [o];
      }
    }

    method TryAdmit(o: Id, kind: Kind, current: bool, domain: bool, now: Time) returns (a: Admitted)
      modifies this
      ensures (Now(), a) == Admit(L, old(Now()), o, kind, current, domain, now)
    {
      if o !in entries || !current || !Open(kind, entries[o].site.lifecycle) { return Refused; }
      var e := entries[o];
      if kind.Place? {
        if !domain || placementCount >= L.maxTickets { return Refused; }
        placementCount := placementCount + 1;
        entries := entries[o := e.(calls := Ticket(e.calls))];
        return Run(Job(o, false, true));
      }
      var next, admitted := AdmitEntry(o, e, kind, domain, now);
      entries := entries[o := next];
      return admitted;
    }

    method AdmitEntry(o: Id, entry: Entry, kind: Kind, domain: bool, now: Time) returns (e: Entry, a: Admitted)
      ensures (e, a) == AdmitCall(L, o, entry, kind, domain, now)
    {
      e := entry;
      if kind.Freeze? && e.site.lifecycle.Resident? {
        e := e.(site := e.site.(lifecycle := Freezing(now + L.forwardingTtl)));
      }
      var read := kind.Call? && kind.read;
      if domain && Free(e.calls, read) && (!kind.Freeze? || e.calls.tickets == 0) {
        e := e.(calls := Enter(e.calls, read));
        return e, Run(Job(o, read, false));
      }
      if |e.calls.queue| >= L.maxMailbox { return e, Refused; }
      e := e.(calls := e.calls.(queue := e.calls.queue + [Waiting(read, kind.Freeze?)]));
      return e, Queued;
    }

    method TryComplete(job: Job)
      modifies this
      ensures Now() == Complete(old(Now()), job)
    {
      if job.target !in entries { return; }
      var e := entries[job.target];
      var c := e.calls;
      if job.placement {
        c := c.(tickets := Sub1(c.tickets));
        placementCount := placementCount - 1;
      } else if job.read {
        c := c.(readers := Sub1(c.readers));
      } else {
        c := c.(writer := false);
      }
      c := c.(inFlight := Sub1(c.inFlight));
      entries := entries[job.target := e.(calls := c)];
    }

    method TryRetry(o: Id, turns: nat)
      modifies this
      ensures Now() == Retry(old(Now()), o, turns)
    {
      if o !in entries || entries[o].calls.writer || entries[o].calls.readers != 0 { return; }
      var c := DrainQueue(entries[o].calls, turns);
      entries := entries[o := entries[o].(calls := c)];
    }
  }
}
