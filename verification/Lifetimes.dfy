/** How an object of the service begins and ends: what grants hold it, what undoes them, and when it goes. */
module Lifetimes {
  import opened Wrappers
  import opened Objects
  import opened ObjectRuns
  import opened Leases
  import opened Admission

  /** `l` holds a lease of `o` granted at `now`. */
  predicate Holds(L: Limits, s: State, o: Id, l: Locality, now: Time) {
    o in s.entries && l in s.entries[o].leases && s.entries[o].leases[l] == Lease(now + L.ttl, None)
  }

  /** At most the leases of `o` differ, and among these only that of `l`. */
  predicate OnlyLease(s: State, t: State, o: Id, l: Locality) {
    && o in s.entries && o in t.entries && t == s.(entries := s.entries[o := t.entries[o]])
    && t.entries[o] == s.entries[o].(leases := t.entries[o].leases)
    && t.entries[o].leases - {l} == s.entries[o].leases - {l}
  }

  /** A lease is granted to whoever holds one already, and to others while there is room; a renewal only to a holder. Both
      run for the whole time to live and are no longer suspect. */
  lemma GrantsAndRenewals(L: Limits, s: State, o: Id, l: Locality, now: Time)
    ensures var (t, ok) := Acquire(L, s, o, l, now);
            && (ok <==> o in s.entries && (l in s.entries[o].leases || |s.entries[o].leases| < L.maxLeases))
            && if ok then Holds(L, t, o, l, now) && OnlyLease(s, t, o, l) else t == s
    ensures var (t, ok) := Renew(L, s, o, l, now);
            && (ok <==> o in s.entries && l in s.entries[o].leases)
            && if ok then Holds(L, t, o, l, now) && OnlyLease(s, t, o, l) else t == s
  {
  }

  /** An object is inserted exactly when there is room for it and its root and its name is new; it is then held by its
      creator, at this locality, at rest. */
  lemma InsertionIsHeld(L: Limits, s: State, o: Id, rooted: bool, l: Locality, now: Time)
    ensures var (t, ok) := Insert(L, s, o, rooted, l, now);
            && (ok <==> |s.entries| < L.maxObjects && o !in s.entries && (rooted ==> s.rootCount < L.maxRoots))
            && if ok then Holds(L, t, o, l, now) && t.entries - {o} == s.entries && t.entries[o].home && Idle(t.entries[o])
                          && t.entries[o].site.lifecycle.Resident? && t.entries[o].roots == (if rooted then 1 else 0)
               else t == s
  {
    if o !in s.entries { assert s.entries - {o} == s.entries; }
  }

  /** The release of the creator's lease takes an unrooted object out again and leaves the service as it was before the
      insertion. */
  lemma ReleaseUndoesInsertion(L: Limits, s: State, o: Id, l: Locality, now: Time)
    requires Insert(L, s, o, false, l, now).1 && (o, l) !in s.transfers
    ensures Release(L, Insert(L, s, o, false, l, now).0, o, l) == (s, true)
  {
    var t := Insert(L, s, o, false, l, now).0;
    var e := t.entries[o];
    assert e.leases - {l} == map[];
    var dropped := Set(t, o, e.(leases := e.leases - {l}));
    assert dropped.entries - {o} == s.entries;
    assert AckTransfer(dropped, o, l).0 == dropped;
    assert Collect(L, dropped, o) == Drop(dropped, o) == s;
  }

  /** A rooted object outlives the release of that lease, and goes with its root. */
  lemma RootOutlivesRelease(L: Limits, s: State, o: Id, l: Locality, now: Time)
    requires Insert(L, s, o, true, l, now).1 && (o, l) !in s.transfers
    ensures var (t, ok) := Release(L, Insert(L, s, o, true, l, now).0, o, l);
            ok && o in t.entries && ReleaseRoot(L, t, o) == (s, true)
  {
    var t := Insert(L, s, o, true, l, now).0;
    var e := t.entries[o];
    assert e.leases - {l} == map[];
    var dropped := Set(t, o, e.(leases := e.leases - {l}));
    assert AckTransfer(dropped, o, l).0 == dropped;
    assert Collect(L, dropped, o) == dropped;
    var unrooted := Unrooted(dropped, o);
    assert unrooted.entries - {o} == s.entries && unrooted.rootCount == s.rootCount;
    assert Collect(L, unrooted, o) == Drop(unrooted, o) == s;
  }

  /** A transfer begins exactly when its receiver holds nothing yet and there is room for the transfer and the lease; a
      refused one changes nothing. Its acknowledgement leaves the receiver's lease alone, and a release instead leaves
      the service as it was, if the object stays. */
  lemma TransferIsSettled(L: Limits, s: State, o: Id, l: Locality, now: Time)
    ensures var (t, ok) := BeginTransfer(L, s, o, l, now);
            && (ok <==> o in s.entries && l !in s.entries[o].leases && (o, l) !in s.transfers
                        && s.transferCount < L.maxTransfers && |s.entries[o].leases| < L.maxLeases)
            && (!ok ==> t == s)
            && (ok ==> (o, l) in t.transfers && AckTransfer(t, o, l) == (Acquire(L, s, o, l, now).0, true))
            && (ok && Collect(L, s, o) == s ==> Release(L, t, o, l) == (s, true))
  {
    var (t, ok) := BeginTransfer(L, s, o, l, now);
    if o in s.entries && (o, l) !in s.transfers {
      assert s.transfers + {(o, l)} - {(o, l)} == s.transfers;
      if ok {
        assert s.entries[o].leases[l := Granted(L, now)] - {l} == s.entries[o].leases;
        assert t.entries[o := s.entries[o]] == s.entries;
      }
    }
  }

  /** An acknowledgement for a transfer that is not under way, and a release by a stranger, change nothing at all unless
      the object was to be collected anyway. */
  lemma StrangersChangeNothing(L: Limits, s: State, o: Id, l: Locality)
    ensures (o, l) !in s.transfers ==> AckTransfer(s, o, l) == (s, false)
    ensures (o, l) !in s.transfers && (o in s.entries ==> l !in s.entries[o].leases) ==>
              Release(L, s, o, l) == (Collect(L, s, o), false)
    ensures o !in s.entries || s.entries[o].roots == 0 ==> ReleaseRoot(L, s, o) == (s, false)
  {
    if o in s.entries {
      assert l !in s.entries[o].leases ==> s.entries[o].leases - {l} == s.entries[o].leases;
      assert s.entries[o := s.entries[o]] == s.entries;
    }
  }

  // ----- collection

  /** Nobody uses the object: no job is out, nothing waits, and no copy is being prepared. */
  predicate Unneeded(s: Sys, o: Id)
    requires o in s.state.entries
  {
    Unused(s.jobs, o) && s.state.entries[o].calls.queue == [] && s.state.entries[o].site.prepared.None?
  }

  /** Collection in any run. At its authority an object goes when nobody uses or holds it and it is here, or has come back
      to this locality; one that lives elsewhere is retired once, if there is room. Away from its authority what is left
      of an object goes when it is only a forwarding address. In every other case nothing changes. */
  lemma CollectedExactly(L: Limits, trace: seq<Event>, o: Id)
    requires L.Valid() && Legal(L, Empty, trace)
    ensures var s := After(L, Empty, trace);
            var t := Collect(L, s.state, o);
            if o !in s.state.entries then t == s.state
            else
              var e := s.state.entries[o];
              var free := Unneeded(s, o) && |e.leases| == 0 && e.roots == 0;
              var gone := if e.home then free && if e.site.present then e.site.lifecycle.Resident?
                                                 else e.site.lifecycle.Forwarding? && !e.site.lifecycle.away
                          else Unneeded(s, o) && !e.site.present && (e.site.lifecycle.Forwarding? || e.site.lifecycle.Retiring?);
              var retired := e.home && free && !e.site.present && e.site.lifecycle.Forwarding? && e.site.lifecycle.away
                             && |s.state.retirements| < L.maxMigrations;
              if gone then t == s.state.(entries := s.state.entries - {o})
              else if retired then
                && o in t.entries && t.retirements == s.state.retirements + [o]
                && t.entries[o] == e.(site := e.site.(lifecycle := Retiring))
                && t == s.state.(entries := s.state.entries[o := t.entries[o]], retirements := t.retirements)
              else t == s.state
  {
    EveryRunKeepsAccounts(L, trace);
    var s := After(L, Empty, trace);
    JobsOfEntry(L, s, o);
    ReadNotPlaced(L, trace, o);
    if o in s.state.entries { UsedIsCounted(s.jobs, o, s.state.entries[o].calls); }
  }

  lemma UsedIsCounted(jobs: multiset<Job>, o: Id, c: Calls)
    requires Counts(jobs, o, c)
    ensures Unused(jobs, o) <==> c.inFlight == 0
    ensures c.inFlight == 0 ==> c.tickets == 0
  {
    assert c.inFlight == jobs[Job(o, true, false)] + jobs[Job(o, false, false)] + jobs[Job(o, false, true)] + jobs[Job(o, true, true)];
    if c.inFlight == 0 {
      forall read: bool, placement: bool ensures Job(o, read, placement) !in jobs { }
    }
  }

  // ----- migration marks wear off

  /** A freeze that is answered marks a resident object for the forwarding time to live, and an expiry call takes the mark
      off exactly when that time has passed. */
  lemma FreezeWearsOff(L: Limits, s: State, o: Id, domain: bool, now: Time, later: Time)
    requires L.Valid() && o in s.entries && s.entries[o].site.lifecycle.Resident?
    ensures var e := Admit(L, s, o, Freeze, true, domain, now).0.entries[o];
            AgedEntry(L, e, later).site.lifecycle
            == if later < now + L.forwardingTtl then Freezing(now + L.forwardingTtl) else Resident
  {
    assert AdmitCall(L, o, s.entries[o], Freeze, domain, now).0.site.lifecycle == Freezing(now + L.forwardingTtl);
  }

  /** A copy prepared for a migration that does not commit stays until its time is over, and the first expiry call from
      then on removes it. */
  lemma PreparedWearsOff(L: Limits, s: Sys, o: Id, until: Time, now: Time)
    requires L.Valid() && o !in s.state.entries
    ensures var prepared := Next(L, s, 0, DoPrepare(o, until)).state;
            ExpireOne(L, prepared, o, now).entries == if now < until then prepared.entries else s.state.entries
  {
    var prepared := Next(L, s, 0, DoPrepare(o, until)).state;
    assert Aged(L, map[], now) == map[];
    if now < until {
      assert AgedEntry(L, prepared.entries[o], now) == prepared.entries[o];
    } else {
      assert prepared.entries - {o} == s.state.entries;
    }
  }

  /** Away from the object's authority, an unused forwarding address that still holds the object's state is kept until its
      time is over, and then goes; the authority keeps its address whatever the time. */
  lemma AddressWearsOff(L: Limits, s: State, o: Id, until: Time, away: bool, now: Time)
    requires o in s.entries && Idle(s.entries[o]) && s.entries[o].site == Site(Forwarding(until, away), s.entries[o].site.away, true, None)
    ensures o in ExpireOne(L, s, o, now).entries <==> s.entries[o].home || now < until
    ensures o in ExpireOne(L, s, o, now).entries ==> ExpireOne(L, s, o, now).entries[o].site == s.entries[o].site
  {
  }

  /** A prepared copy blocks collection only until its time is over. */
  lemma PreparedCopyLapses(L: Limits, s: State, o: Id, until: Time, now: Time)
    requires o in s.entries && !s.entries[o].site.lifecycle.Preparing? && s.entries[o].site.prepared == Some(until)
    ensures o in ExpireOne(L, s, o, now).entries && now < until ==> ExpireOne(L, s, o, now).entries[o].site.prepared == Some(until)
    ensures o in ExpireOne(L, s, o, now).entries && until <= now ==> ExpireOne(L, s, o, now).entries[o].site.prepared == None
    ensures now < until ==> o in ExpireOne(L, s, o, now).entries
  {
  }

  /** Expiry ends exactly the transfers of the object to localities whose lease has lapsed: those without a lease, and
      those whose lease has been suspect for the grace period. */
  lemma TransfersLapseWithLeases(L: Limits, s: State, o: Id, now: Time, x: Id, l: Locality)
    requires L.Valid() && o in s.entries
    ensures var leases := s.entries[o].leases;
            (x, l) in ExpireOne(L, s, o, now).transfers <==>
              (x, l) in s.transfers &&
              (x == o ==> l in leases && !(leases[l].suspectSince.Some? && now >= leases[l].suspectSince.value + L.grace))
  {
    if l in s.entries[o].leases { DroppedExactly(L, s.entries[o].leases, l, now); }
  }
}
