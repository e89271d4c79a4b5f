/** Runs of the object service: the accounting that every step keeps, and what a lease protects. */
module ObjectRuns {
  import opened Wrappers
  import opened Objects
  import opened Sums

  /** The service together with the jobs it has handed out and not yet got back. */
  datatype Sys = Sys(state: State, jobs: multiset<Job>)

  datatype Step =
    | DoInsert(o: Id, rooted: bool, l: Locality)
    | DoAcquire(o: Id, l: Locality)
    | DoRenew(o: Id, l: Locality)
    | DoRelease(o: Id, l: Locality)
    | DoReleaseRoot(o: Id)
    | DoBeginTransfer(o: Id, l: Locality)
    | DoAckTransfer(o: Id, l: Locality)
    | DoExpire(order: seq<Id>)
    | DoAdmit(o: Id, kind: Kind, current: bool, domain: bool)
    | DoAdmitLocal(o: Id, read: bool)
    | DoComplete(job: Job)
    | DoRetry(o: Id, turns: nat)
    | DoCollect(o: Id)
    | DoMigrate(o: Id, site: Site)
    | DoPrepare(o: Id, until: Time)
    | DoFinishRetirement
    | DoLoseRetirement

  /** A job is completed only by the one it was handed to, and a migration does not touch an object that
      is being retired. */
  predicate Enabled(s: Sys, step: Step) {
    match step
    case DoComplete(job) => job in s.jobs
    case DoMigrate(o, site) =>
      o in s.state.entries && !s.state.entries[o].site.lifecycle.Retiring? && !site.lifecycle.Retiring?
    case DoPrepare(o, _) => o !in s.state.entries
    case DoFinishRetirement => s.state.retirements != []
    case DoLoseRetirement => s.state.retirements != []
    case _ => true
  }

  function Handed(jobs: multiset<Job>, a: Admitted): multiset<Job> {
    if a.Run? then jobs + multiset{a.job} else jobs
  }

  function Next(L: Limits, s: Sys, now: Time, step: Step): Sys
    requires Enabled(s, step)
  {
    var st := s.state;
    match step
    case DoInsert(o, rooted, l) => s.(state := Insert(L, st, o, rooted, l, now).0)
    case DoAcquire(o, l) => s.(state := Acquire(L, st, o, l, now).0)
    case DoRenew(o, l) => s.(state := Renew(L, st, o, l, now).0)
    case DoRelease(o, l) => s.(state := Release(L, st, o, l).0)
    case DoReleaseRoot(o) => s.(state := ReleaseRoot(L, st, o).0)
    case DoBeginTransfer(o, l) => s.(state := BeginTransfer(L, st, o, l, now).0)
    case DoAckTransfer(o, l) => s.(state := AckTransfer(st, o, l).0)
    case DoExpire(order) => s.(state := Expire(L, st, order, now))
    case DoAdmit(o, kind, current, domain) =>
      var (next, a) := Admit(L, st, o, kind, current, domain, now);
      Sys(next, Handed(s.jobs, a))
    case DoAdmitLocal(o, read) =>
      var (next, a) := AdmitLocal(st, o, read);
      Sys(next, Handed(s.jobs, a))
    case DoComplete(job) => Sys(Complete(st, job), s.jobs - multiset{job})
    case DoRetry(o, turns) =>
      Sys(Retry(st, o, turns),
          if o in st.entries && Quiet(st.entries[o].calls) then s.jobs + Started(o, st.entries[o].calls, turns) else s.jobs)
    case DoCollect(o) => s.(state := Collect(L, st, o))
    case DoMigrate(o, site) => s.(state := Set(st, o, At(st.entries[o], site)))
    case DoPrepare(o, until) =>
      s.(state := Set(st, o, Entry(false, Site(Preparing(until), true, false, Some(until)), map[], 0, NoCalls)))
    case DoFinishRetirement => s.(state := Drop(st, st.retirements[0]).(retirements := st.retirements[1..]))
    case DoLoseRetirement => s.(state := st.(retirements := st.retirements[1..]))
  }

  // ----- what the counters count

  function RootsOf(e: Entry): nat { e.roots }

  function TicketsOf(e: Entry): nat { e.calls.tickets }

  // ----- the invariant

  /** The counters are those of the jobs handed out for the object. */
  ghost predicate Counts(jobs: multiset<Job>, o: Id, c: Calls) {
    && c.readers == jobs[Job(o, true, false)]
    && (if c.writer then 1 else 0) == jobs[Job(o, false, false)]
    && c.tickets == jobs[Job(o, false, true)] + jobs[Job(o, true, true)]
    && c.inFlight == c.readers + (if c.writer then 1 else 0) + c.tickets
  }

  ghost predicate EntryGood(L: Limits, jobs: multiset<Job>, o: Id, e: Entry) {
    && Counts(jobs, o, e.calls)
    && |e.calls.queue| <= L.maxMailbox && |e.leases| <= L.maxLeases
    && (!e.home ==> e.roots == 0)
    && (e.site.lifecycle.Retiring? ==> e.home && e.calls.inFlight == 0 && e.calls.queue == [] && e.roots == 0)
  }

  predicate NoJobs(jobs: multiset<Job>, o: Id) {
    Job(o, true, false) !in jobs && Job(o, false, false) !in jobs && Job(o, true, true) !in jobs && Job(o, false, true) !in jobs
  }

  ghost predicate Sound(L: Limits, entries: map<Id, Entry>, retirements: seq<Id>, jobs: multiset<Job>) {
    && (forall o <- entries :: EntryGood(L, jobs, o, entries[o]))
    && (forall o: Id :: o !in entries ==> NoJobs(jobs, o))
    && (forall k :: 0 <= k < |retirements| ==> retirements[k] in entries && entries[retirements[k]].site.lifecycle.Retiring?)
    && (forall j, k :: 0 <= j < k < |retirements| ==> retirements[j] != retirements[k])
    && |retirements| <= L.maxMigrations
  }

  ghost predicate Tables(L: Limits, s: State, jobs: multiset<Job>) {
    Sound(L, s.entries, s.retirements, jobs)
  }

  ghost predicate Counters(L: Limits, s: State) {
    && s.rootCount == Sum(s.entries, RootsOf) <= L.maxRoots
    && s.transferCount == |s.transfers| <= L.maxTransfers
    && s.placementCount == Sum(s.entries, TicketsOf) <= L.maxTickets
  }

  ghost predicate Inv(L: Limits, s: Sys) {
    L.Valid() && Tables(L, s.state, s.jobs) && Counters(L, s.state)
  }

  // ----- every step keeps it

  ghost predicate SameElsewhere(jobs: multiset<Job>, other: multiset<Job>, o: Id) {
    forall job: Job :: job.target != o ==> jobs[job] == other[job]
  }

  lemma SoundSet(L: Limits, entries: map<Id, Entry>, retirements: seq<Id>, o: Id, e: Entry, jobs: multiset<Job>, other: multiset<Job>)
    requires Sound(L, entries, retirements, jobs) && SameElsewhere(jobs, other, o)
    requires EntryGood(L, other, o, e)
    requires o in entries && entries[o].site.lifecycle.Retiring? ==> e.site.lifecycle.Retiring?
    ensures Sound(L, entries[o := e], retirements, other)
  {
    var next := entries[o := e];
    forall q <- next ensures EntryGood(L, other, q, next[q]) {
      if q != o { assert EntryGood(L, jobs, q, entries[q]); }
    }
    forall q: Id | q !in next ensures NoJobs(other, q) {
      assert NoJobs(jobs, q);
    }
  }

  lemma SoundDrop(L: Limits, entries: map<Id, Entry>, retirements: seq<Id>, o: Id, jobs: multiset<Job>)
    requires Sound(L, entries, retirements, jobs) && o in entries && entries[o].calls.inFlight == 0
    requires o !in retirements
    ensures Sound(L, entries - {o}, retirements, jobs)
  {
    assert EntryGood(L, jobs, o, entries[o]);
    assert NoJobs(jobs, o);
  }

  lemma SoundPush(L: Limits, entries: map<Id, Entry>, retirements: seq<Id>, o: Id, jobs: multiset<Job>)
    requires Sound(L, entries, retirements, jobs) && o in entries && entries[o].site.lifecycle.Retiring?
    requires o !in retirements && |retirements| < L.maxMigrations
    ensures Sound(L, entries, retirements + [o], jobs)
  {
  }

  lemma SoundPop(L: Limits, entries: map<Id, Entry>, retirements: seq<Id>, jobs: multiset<Job>)
    requires Sound(L, entries, retirements, jobs) && retirements != []
    ensures Sound(L, entries, retirements[1..], jobs) && retirements[0] !in retirements[1..]
  {
    forall k | 0 <= k < |retirements| - 1 ensures retirements[1..][k] != retirements[0] {
      assert retirements[0] != retirements[k + 1];
    }
  }

  lemma SetCounters(L: Limits, s: State, o: Id, e: Entry)
    requires Counters(L, s)
    ensures var next := Set(s, o, e);
            var was := if o in s.entries then s.entries[o] else e.(roots := 0, calls := NoCalls);
            && Sum(next.entries, RootsOf) == s.rootCount - was.roots + e.roots
            && Sum(next.entries, TicketsOf) == s.placementCount - was.calls.tickets + e.calls.tickets
  {
    SumSet(s.entries, RootsOf, o, e);
    SumSet(s.entries, TicketsOf, o, e);
  }

  lemma DropCounters(L: Limits, s: State, o: Id)
    requires Counters(L, s) && o in s.entries && s.entries[o].roots == 0 && s.entries[o].calls.tickets == 0
    ensures Counters(L, Drop(s, o))
  {
    SumSplit(s.entries, RootsOf, o);
    SumSplit(s.entries, TicketsOf, o);
  }

  lemma RetireKeeps(L: Limits, s: State, o: Id, jobs: multiset<Job>)
    requires Tables(L, s, jobs) && Counters(L, s) && |s.retirements| < L.maxMigrations
    requires o in s.entries && Idle(s.entries[o]) && s.entries[o].home && s.entries[o].roots == 0
    requires o !in s.retirements
    ensures Tables(L, Retire(s, o), jobs) && Counters(L, Retire(s, o))
  {
    var retiring := At(s.entries[o], s.entries[o].site.(lifecycle := Retiring));
    assert EntryGood(L, jobs, o, s.entries[o]);
    SetCounters(L, s, o, retiring);
    SoundSet(L, s.entries, s.retirements, o, retiring, jobs, jobs);
    SoundPush(L, s.entries[o := retiring], s.retirements, o, jobs);
  }

  /** Collection drops only objects without jobs, waiting calls, roots and, at the authority, leases. */
  lemma CollectKeeps(L: Limits, s: State, o: Id, jobs: multiset<Job>)
    requires Tables(L, s, jobs) && Counters(L, s)
    ensures Tables(L, Collect(L, s, o), jobs) && Counters(L, Collect(L, s, o))
  {
    var next := Collect(L, s, o);
    if next != s {
      assert EntryGood(L, jobs, o, s.entries[o]);
      if o !in next.entries {
        SoundDrop(L, s.entries, s.retirements, o, jobs);
        DropCounters(L, s, o);
      } else {
        RetireKeeps(L, s, o, jobs);
      }
    }
  }

  /** Replacing the entry without touching roots and tickets. */
  lemma SwapKeeps(L: Limits, s: State, o: Id, e: Entry, jobs: multiset<Job>, other: multiset<Job>)
    requires Tables(L, s, jobs) && Counters(L, s) && SameElsewhere(jobs, other, o)
    requires o in s.entries && EntryGood(L, other, o, e)
    requires s.entries[o].site.lifecycle.Retiring? ==> e.site.lifecycle.Retiring?
    requires e.roots == s.entries[o].roots && e.calls.tickets == s.entries[o].calls.tickets
    ensures Tables(L, Set(s, o, e), other) && Counters(L, Set(s, o, e))
  {
    assert Counters(L, Set(s, o, e)) by { SetCounters(L, s, o, e); }
    assert Tables(L, Set(s, o, e), other) by { SoundSet(L, s.entries, s.retirements, o, e, jobs, other); }
  }

  lemma AcquireKeeps(L: Limits, s: State, o: Id, l: Locality, now: Time, jobs: multiset<Job>)
    requires Tables(L, s, jobs) && Counters(L, s)
    ensures Tables(L, Acquire(L, s, o, l, now).0, jobs) && Counters(L, Acquire(L, s, o, l, now).0)
  {
    if Acquire(L, s, o, l, now).1 {
      var e := s.entries[o];
      var leases := e.leases[l := Granted(L, now)];
      assert leases.Keys == e.leases.Keys + {l};
      assert EntryGood(L, jobs, o, e);
      SwapKeeps(L, s, o, e.(leases := leases), jobs, jobs);
    }
  }

  lemma RenewKeeps(L: Limits, s: State, o: Id, l: Locality, now: Time, jobs: multiset<Job>)
    requires Tables(L, s, jobs) && Counters(L, s)
    ensures Tables(L, Renew(L, s, o, l, now).0, jobs) && Counters(L, Renew(L, s, o, l, now).0)
  {
    if Renew(L, s, o, l, now).1 { AcquireKeeps(L, s, o, l, now, jobs); }
  }

  lemma AckKeeps(L: Limits, s: State, o: Id, l: Locality, jobs: multiset<Job>)
    requires Tables(L, s, jobs) && Counters(L, s)
    ensures Tables(L, AckTransfer(s, o, l).0, jobs) && Counters(L, AckTransfer(s, o, l).0)
  {}

  lemma ReleaseKeeps(L: Limits, s: State, o: Id, l: Locality, jobs: multiset<Job>)
    requires Tables(L, s, jobs) && Counters(L, s)
    ensures Tables(L, Release(L, s, o, l).0, jobs) && Counters(L, Release(L, s, o, l).0)
  {
    if o in s.entries {
      var e := s.entries[o];
      var leases := e.leases - {l};
      assert leases.Keys == e.leases.Keys - {l};
      assert EntryGood(L, jobs, o, e);
      SwapKeeps(L, s, o, e.(leases := leases), jobs, jobs);
      var dropped := Set(s, o, e.(leases := leases));
      AckKeeps(L, dropped, o, l, jobs);
      CollectKeeps(L, AckTransfer(dropped, o, l).0, o, jobs);
    }
  }

  lemma UnrootedGood(L: Limits, jobs: multiset<Job>, o: Id, e: Entry)
    requires EntryGood(L, jobs, o, e) && e.roots > 0
    ensures EntryGood(L, jobs, o, e.(roots := e.roots - 1)) && !e.site.lifecycle.Retiring?
  {
  }

  lemma UnrootedCounters(L: Limits, s: State, o: Id)
    requires Counters(L, s) && o in s.entries && s.entries[o].roots > 0
    ensures Counters(L, Unrooted(s, o))
  {
    SetCounters(L, s, o, s.entries[o].(roots := s.entries[o].roots - 1));
  }

  lemma UnrootedTables(L: Limits, s: State, o: Id, jobs: multiset<Job>)
    requires Tables(L, s, jobs) && o in s.entries && s.entries[o].roots > 0
    ensures Tables(L, Unrooted(s, o), jobs)
  {
    UnrootedGood(L, jobs, o, s.entries[o]);
    SoundSet(L, s.entries, s.retirements, o, s.entries[o].(roots := s.entries[o].roots - 1), jobs, jobs);
  }

  lemma ReleaseRootKeeps(L: Limits, s: State, o: Id, jobs: multiset<Job>)
    requires Tables(L, s, jobs) && Counters(L, s)
    ensures Tables(L, ReleaseRoot(L, s, o).0, jobs) && Counters(L, ReleaseRoot(L, s, o).0)
  {
    if ReleaseRoot(L, s, o).1 {
      UnrootedCounters(L, s, o);
      UnrootedTables(L, s, o, jobs);
      CollectKeeps(L, Unrooted(s, o), o, jobs);
    }
  }

  lemma BeginTransferKeeps(L: Limits, s: State, o: Id, l: Locality, now: Time, jobs: multiset<Job>)
    requires Tables(L, s, jobs) && Counters(L, s)
    ensures Tables(L, BeginTransfer(L, s, o, l, now).0, jobs) && Counters(L, BeginTransfer(L, s, o, l, now).0)
    ensures !BeginTransfer(L, s, o, l, now).1 ==> BeginTransfer(L, s, o, l, now).0 == s
  {
    if o in s.entries && l !in s.entries[o].leases && (o, l) !in s.transfers && s.transferCount < L.maxTransfers {
      var begun := s.(transfers := s.transfers + {(o, l)}, transferCount := s.transferCount + 1);
      assert Tables(L, begun, jobs) && Counters(L, begun);
      AcquireKeeps(L, begun, o, l, now, jobs);
      assert s.transfers + {(o, l)} - {(o, l)} == s.transfers;
    }
  }

  lemma InsertKeeps(L: Limits, s: State, o: Id, rooted: bool, l: Locality, now: Time, jobs: multiset<Job>)
    requires L.Valid() && Tables(L, s, jobs) && Counters(L, s)
    ensures Tables(L, Insert(L, s, o, rooted, l, now).0, jobs) && Counters(L, Insert(L, s, o, rooted, l, now).0)
  {
    var (next, ok) := Insert(L, s, o, rooted, l, now);
    if ok {
      var e := next.entries[o];
      assert NoJobs(jobs, o);
      assert EntryGood(L, jobs, o, e);
      SetCounters(L, s, o, e);
      SoundSet(L, s.entries, s.retirements, o, e, jobs, jobs);
    }
  }

  lemma AgedFewer(L: Limits, leases: map<Locality, Lease>, now: Time)
    ensures |Aged(L, leases, now)| <= |leases|
  {
    var kept := Aged(L, leases, now).Keys;
    assert kept <= leases.Keys;
    Fewer(kept, leases.Keys);
  }

  lemma Fewer<T>(a: set<T>, b: set<T>)
    requires a <= b
    ensures |a| <= |b|
  {
    assert b == a + (b - a);
  }

  lemma AgedEntryGood(L: Limits, o: Id, e: Entry, now: Time, jobs: multiset<Job>)
    requires EntryGood(L, jobs, o, e)
    ensures EntryGood(L, jobs, o, AgedEntry(L, e, now))
  {
    AgedFewer(L, e.leases, now);
  }

  lemma AgeingKeeps(L: Limits, s: State, o: Id, now: Time, jobs: multiset<Job>)
    requires Tables(L, s, jobs) && Counters(L, s) && o in s.entries
    ensures Tables(L, Ageing(L, s, o, now), jobs) && Counters(L, Ageing(L, s, o, now))
  {
    var e := AgedEntry(L, s.entries[o], now);
    AgedEntryGood(L, o, s.entries[o], now, jobs);
    SwapKeeps(L, s, o, e, jobs, jobs);
    Fewer(Remaining(s.transfers, o, e.leases), s.transfers);
  }

  lemma ExpireOneKeeps(L: Limits, s: State, o: Id, now: Time, jobs: multiset<Job>)
    requires Tables(L, s, jobs) && Counters(L, s)
    ensures Tables(L, ExpireOne(L, s, o, now), jobs) && Counters(L, ExpireOne(L, s, o, now))
  {
    if o in s.entries {
      AgeingKeeps(L, s, o, now, jobs);
      CollectKeeps(L, Ageing(L, s, o, now), o, jobs);
    }
  }

  lemma {:induction false} ExpireKeeps(L: Limits, s: State, order: seq<Id>, now: Time, jobs: multiset<Job>)
    requires Tables(L, s, jobs) && Counters(L, s)
    ensures Tables(L, Expire(L, s, order, now), jobs) && Counters(L, Expire(L, s, order, now))
  {
    if order != [] {
      ExpireKeeps(L, s, order[..|order| - 1], now, jobs);
      ExpireOneKeeps(L, Expire(L, s, order[..|order| - 1], now), order[|order| - 1], now, jobs);
    }
  }

  /** A job that enters is counted once, and only at its own object. */
  lemma EnterCounts(o: Id, c: Calls, read: bool, jobs: multiset<Job>)
    requires Counts(jobs, o, c) && !c.writer
    ensures var more := jobs + multiset{Job(o, read, false)};
            Counts(more, o, Enter(c, read)) && SameElsewhere(jobs, more, o)
  {
  }

  lemma TicketCounts(o: Id, c: Calls, jobs: multiset<Job>)
    requires Counts(jobs, o, c)
    ensures var more := jobs + multiset{Job(o, false, true)};
            Counts(more, o, Ticket(c)) && SameElsewhere(jobs, more, o)
  {
  }

  lemma LeaveCounts(c: Calls, job: Job, jobs: multiset<Job>)
    requires Counts(jobs, job.target, c) && job in jobs
    ensures c.inFlight > 0 && (job.placement ==> c.tickets > 0)
    ensures Counts(jobs - multiset{job}, job.target, Leave(c, job))
    ensures SameElsewhere(jobs, jobs - multiset{job}, job.target)
  {
    assert job == Job(job.target, job.read, job.placement);
  }

  lemma PlaceKeeps(L: Limits, s: State, o: Id, jobs: multiset<Job>)
    requires Tables(L, s, jobs) && Counters(L, s) && o in s.entries
    requires !s.entries[o].site.lifecycle.Retiring? && s.placementCount < L.maxTickets
    ensures var next := Set(s, o, s.entries[o].(calls := Ticket(s.entries[o].calls))).(placementCount := s.placementCount + 1);
            Tables(L, next, jobs + multiset{Job(o, false, true)}) && Counters(L, next)
  {
    var was := s.entries[o];
    var e, more := was.(calls := Ticket(was.calls)), jobs + multiset{Job(o, false, true)};
    assert Counters(L, Set(s, o, e).(placementCount := s.placementCount + 1)) by { SetCounters(L, s, o, e); }
    assert Sound(L, s.entries[o := e], s.retirements, more) by {
      assert EntryGood(L, jobs, o, was);
      TicketCounts(o, was.calls, jobs);
      SoundSet(L, s.entries, s.retirements, o, e, jobs, more);
    }
  }

  lemma AdmitCallGood(L: Limits, o: Id, e: Entry, kind: Kind, domain: bool, now: Time, jobs: multiset<Job>)
    requires EntryGood(L, jobs, o, e) && Open(kind, e.site.lifecycle)
    ensures var (next, a) := AdmitCall(L, o, e, kind, domain, now);
            && EntryGood(L, Handed(jobs, a), o, next) && SameElsewhere(jobs, Handed(jobs, a), o)
            && next.roots == e.roots && next.calls.tickets == e.calls.tickets
  {
    var a := AdmitCall(L, o, e, kind, domain, now).1;
    if a.Run? { EnterCounts(o, e.calls, a.job.read, jobs); }
  }

  lemma AdmitKeeps(L: Limits, s: State, o: Id, kind: Kind, current: bool, domain: bool, now: Time, jobs: multiset<Job>)
    requires Tables(L, s, jobs) && Counters(L, s)
    ensures var (next, a) := Admit(L, s, o, kind, current, domain, now);
            Tables(L, next, Handed(jobs, a)) && Counters(L, next)
  {
    var (next, a) := Admit(L, s, o, kind, current, domain, now);
    if next == s {
    } else if kind.Place? {
      PlaceKeeps(L, s, o, jobs);
    } else {
      AdmitCallGood(L, o, s.entries[o], kind, domain, now, jobs);
      SwapKeeps(L, s, o, AdmitCall(L, o, s.entries[o], kind, domain, now).0, jobs, Handed(jobs, a));
    }
  }

  lemma AdmitLocalKeeps(L: Limits, s: State, o: Id, read: bool, jobs: multiset<Job>)
    requires Tables(L, s, jobs) && Counters(L, s)
    ensures var (next, a) := AdmitLocal(s, o, read);
            Tables(L, next, Handed(jobs, a)) && Counters(L, next)
  {
    var (next, a) := AdmitLocal(s, o, read);
    if a.Run? {
      var e := s.entries[o];
      assert EntryGood(L, jobs, o, e);
      EnterCounts(o, e.calls, read, jobs);
      SwapKeeps(L, s, o, e.(calls := Enter(e.calls, read)), jobs, Handed(jobs, a));
    }
  }

  /** No subtraction of `complete` saturates, because the job was counted when it was handed out. */
  lemma CompleteKeeps(L: Limits, s: State, job: Job, jobs: multiset<Job>)
    requires Tables(L, s, jobs) && Counters(L, s) && job in jobs
    ensures job.target in s.entries && s.entries[job.target].calls.inFlight > 0
    ensures Tables(L, Complete(s, job), jobs - multiset{job}) && Counters(L, Complete(s, job))
  {
    var o, other := job.target, jobs - multiset{job};
    assert job == Job(o, job.read, job.placement);
    assert !NoJobs(jobs, o);
    assert EntryGood(L, jobs, o, s.entries[o]);
    LeaveCounts(s.entries[o].calls, job, jobs);
    var e := s.entries[o].(calls := Leave(s.entries[o].calls, job));
    assert Counters(L, Complete(s, job)) by { SetCounters(L, s, o, e); }
    assert Tables(L, Complete(s, job), other) by { SoundSet(L, s.entries, s.retirements, o, e, jobs, other); }
  }

  lemma {:induction false} DrainCounts(o: Id, c: Calls, turns: nat, jobs: multiset<Job>)
    requires Counts(jobs, o, c) && !c.writer
    ensures Counts(jobs + Started(o, c, turns), o, Drain(c, turns))
    ensures SameElsewhere(jobs, jobs + Started(o, c, turns), o)
    ensures Drain(c, turns).tickets == c.tickets && |Drain(c, turns).queue| <= |c.queue|
    ensures c.queue == [] ==> Drain(c, turns) == c
    decreases turns
  {
    if turns > 0 && !Stuck(c) {
      var job := Job(o, c.queue[0].read, false);
      var more := jobs + multiset{job};
      EnterCounts(o, c, job.read, jobs);
      assert Counts(more, o, Turn(c));
      if job.read {
        DrainCounts(o, Turn(c), turns - 1, more);
        assert more + Started(o, Turn(c), turns - 1) == jobs + Started(o, c, turns);
      }
    }
  }

  lemma RetryKeeps(L: Limits, s: State, o: Id, turns: nat, jobs: multiset<Job>)
    requires Tables(L, s, jobs) && Counters(L, s) && o in s.entries && Quiet(s.entries[o].calls)
    ensures Tables(L, Retry(s, o, turns), jobs + Started(o, s.entries[o].calls, turns)) && Counters(L, Retry(s, o, turns))
  {
    var e := s.entries[o];
    assert EntryGood(L, jobs, o, e);
    DrainCounts(o, e.calls, turns, jobs);
    SwapKeeps(L, s, o, e.(calls := Drain(e.calls, turns)), jobs, jobs + Started(o, e.calls, turns));
  }

  lemma MigrateKeeps(L: Limits, s: State, o: Id, site: Site, jobs: multiset<Job>)
    requires Tables(L, s, jobs) && Counters(L, s) && o in s.entries
    requires !s.entries[o].site.lifecycle.Retiring? && !site.lifecycle.Retiring?
    ensures Tables(L, Set(s, o, At(s.entries[o], site)), jobs) && Counters(L, Set(s, o, At(s.entries[o], site)))
  {
    assert EntryGood(L, jobs, o, s.entries[o]);
    SwapKeeps(L, s, o, At(s.entries[o], site), jobs, jobs);
  }

  lemma PrepareKeeps(L: Limits, s: State, o: Id, site: Site, jobs: multiset<Job>)
    requires Tables(L, s, jobs) && Counters(L, s) && o !in s.entries && !site.lifecycle.Retiring?
    ensures var e := Entry(false, site, map[], 0, NoCalls);
            Tables(L, Set(s, o, e), jobs) && Counters(L, Set(s, o, e))
  {
    var e := Entry(false, site, map[], 0, NoCalls);
    assert NoJobs(jobs, o);
    SetCounters(L, s, o, e);
    SoundSet(L, s.entries, s.retirements, o, e, jobs, jobs);
  }

  lemma RetirementKeeps(L: Limits, s: State, jobs: multiset<Job>)
    requires Tables(L, s, jobs) && Counters(L, s) && s.retirements != []
    ensures Tables(L, s.(retirements := s.retirements[1..]), jobs) && Counters(L, s.(retirements := s.retirements[1..]))
    ensures var next := Drop(s, s.retirements[0]).(retirements := s.retirements[1..]);
            Tables(L, next, jobs) && Counters(L, next)
  {
    var o := s.retirements[0];
    assert EntryGood(L, jobs, o, s.entries[o]);
    SoundPop(L, s.entries, s.retirements, jobs);
    SoundDrop(L, s.entries, s.retirements[1..], o, jobs);
    DropCounters(L, s, o);
  }

  lemma StepKeeps(L: Limits, s: Sys, now: Time, step: Step)
    requires Inv(L, s) && Enabled(s, step)
    ensures Inv(L, Next(L, s, now, step))
  {
    var st, jobs := s.state, s.jobs;
    match step
    case DoInsert(o, rooted, l) => InsertKeeps(L, st, o, rooted, l, now, jobs);
    case DoAcquire(o, l) => AcquireKeeps(L, st, o, l, now, jobs);
    case DoRenew(o, l) => RenewKeeps(L, st, o, l, now, jobs);
    case DoRelease(o, l) => ReleaseKeeps(L, st, o, l, jobs);
    case DoReleaseRoot(o) => ReleaseRootKeeps(L, st, o, jobs);
    case DoBeginTransfer(o, l) => BeginTransferKeeps(L, st, o, l, now, jobs);
    case DoAckTransfer(o, l) => AckKeeps(L, st, o, l, jobs);
    case DoExpire(order) => ExpireKeeps(L, st, order, now, jobs);
    case DoAdmit(o, kind, current, domain) => AdmitKeeps(L, st, o, kind, current, domain, now, jobs);
    case DoAdmitLocal(o, read) => AdmitLocalKeeps(L, st, o, read, jobs);
    case DoComplete(job) => CompleteKeeps(L, st, job, jobs);
    case DoRetry(o, turns) => if o in st.entries && Quiet(st.entries[o].calls) { RetryKeeps(L, st, o, turns, jobs); }
    case DoCollect(o) => CollectKeeps(L, st, o, jobs);
    case DoMigrate(o, site) => MigrateKeeps(L, st, o, site, jobs);
    case DoPrepare(o, _) => PrepareKeeps(L, st, o, Next(L, s, now, step).state.entries[o].site, jobs);
    case DoFinishRetirement => RetirementKeeps(L, st, jobs);
    case DoLoseRetirement => RetirementKeeps(L, st, jobs);
  }
}
