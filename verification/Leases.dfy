/** What a lease protects: an object whose lease is renewed in time is never collected, whatever else runs. */
module Leases {
  import opened Wrappers
  import opened Objects
  import opened ObjectRuns

  datatype Event = Event(at: Time, step: Step)

  ghost predicate Legal(L: Limits, s: Sys, trace: seq<Event>)
    decreases |trace|
  {
    trace == [] || (Enabled(s, trace[0].step) && Legal(L, Next(L, s, trace[0].at, trace[0].step), trace[1..]))
  }

  ghost function After(L: Limits, s: Sys, trace: seq<Event>): Sys
    requires Legal(L, s, trace)
    decreases |trace|
  {
    if trace == [] then s else After(L, Next(L, s, trace[0].at, trace[0].step), trace[1..])
  }

  lemma {:induction false} RunKeeps(L: Limits, s: Sys, trace: seq<Event>)
    requires Inv(L, s) && Legal(L, s, trace)
    ensures Inv(L, After(L, s, trace))
    decreases |trace|
  {
    if trace != [] {
      StepKeeps(L, s, trace[0].at, trace[0].step);
      RunKeeps(L, Next(L, s, trace[0].at, trace[0].step), trace[1..]);
    }
  }

  const Empty: Sys := Sys(State(map[], {}, 0, 0, 0, []), multiset{})

  lemma StartsGood(L: Limits)
    requires L.Valid()
    ensures Inv(L, Empty)
  {
    assert forall o: Id :: NoJobs(multiset{}, o);
  }

  /** The counters agree with the jobs, roots, tickets and transfers they count, in every run of the service. */
  lemma EveryRunKeepsAccounts(L: Limits, trace: seq<Event>)
    requires L.Valid() && Legal(L, Empty, trace)
    ensures Inv(L, After(L, Empty, trace))
  {
    StartsGood(L);
    RunKeeps(L, Empty, trace);
  }

  // ----- one lease

  /** Steps that grant or renew the lease of `l` on `o`. */
  predicate Renews(step: Step, o: Id, l: Locality) {
    step == DoAcquire(o, l) || step == DoRenew(o, l)
  }

  /** The object is at its authority, is not being retired, and holds a lease of `l` granted at `last`. */
  ghost predicate Protected(L: Limits, s: State, o: Id, l: Locality, last: Time) {
    && o in s.entries
    && var e := s.entries[o];
    && e.home && !e.site.lifecycle.Retiring? && l in e.leases
    && e.leases[l].expiresAt == last + L.ttl
    && (e.leases[l].suspectSince.Some? ==> e.leases[l].suspectSince.value >= last + L.ttl)
  }

  lemma CollectSpares(L: Limits, s: State, x: Id, o: Id, l: Locality, last: Time)
    requires Protected(L, s, o, l, last)
    ensures Protected(L, Collect(L, s, x), o, l, last)
  {
    if x == o { assert l in s.entries[o].leases.Keys; }
  }

  /** A suspect lease is dropped exactly when it has been suspect for the whole grace period; a lease that is
      not yet suspect survives the call, however late it comes. */
  lemma DroppedExactly(L: Limits, leases: map<Locality, Lease>, l: Locality, now: Time)
    requires L.Valid() && l in leases
    ensures l !in Aged(L, leases, now) <==>
            leases[l].suspectSince.Some? && now >= leases[l].suspectSince.value + L.grace
  {
  }

  lemma ExpireOneSpares(L: Limits, s: State, x: Id, now: Time, o: Id, l: Locality, last: Time)
    requires L.Valid() && Protected(L, s, o, l, last) && now < last + L.ttl + L.grace
    ensures Protected(L, ExpireOne(L, s, x, now), o, l, last)
  {
    if x in s.entries {
      if x == o {
        DroppedExactly(L, s.entries[o].leases, l, now);
        assert Marked(s.entries[o].leases[l], now) == Aged(L, s.entries[o].leases, now)[l];
      }
      CollectSpares(L, Ageing(L, s, x, now), x, o, l, last);
    }
  }

  lemma {:induction false} ExpireSpares(L: Limits, s: State, order: seq<Id>, now: Time, o: Id, l: Locality, last: Time)
    requires L.Valid() && Protected(L, s, o, l, last) && now < last + L.ttl + L.grace
    ensures Protected(L, Expire(L, s, order, now), o, l, last)
  {
    if order != [] {
      ExpireSpares(L, s, order[..|order| - 1], now, o, l, last);
      ExpireOneSpares(L, Expire(L, s, order[..|order| - 1], now), order[|order| - 1], now, o, l, last);
    }
  }

  lemma ReleaseSpares(L: Limits, s: State, x: Id, m: Locality, o: Id, l: Locality, last: Time)
    requires Protected(L, s, o, l, last) && (x, m) != (o, l)
    ensures Protected(L, Release(L, s, x, m).0, o, l, last)
  {
    if x in s.entries {
      var e := s.entries[x];
      var dropped := Set(s, x, e.(leases := e.leases - {m}));
      CollectSpares(L, AckTransfer(dropped, x, m).0, x, o, l, last);
    }
  }

  lemma ReleaseRootSpares(L: Limits, s: State, x: Id, o: Id, l: Locality, last: Time)
    requires Protected(L, s, o, l, last)
    ensures Protected(L, ReleaseRoot(L, s, x).0, o, l, last)
  {
    if ReleaseRoot(L, s, x).1 { CollectSpares(L, Unrooted(s, x), x, o, l, last); }
  }

  lemma AcquireSpares(L: Limits, s: State, x: Id, m: Locality, now: Time, o: Id, l: Locality, last: Time)
    requires Protected(L, s, o, l, last)
    ensures Protected(L, Acquire(L, s, x, m, now).0, o, l, if (x, m) == (o, l) then now else last)
    ensures Protected(L, Renew(L, s, x, m, now).0, o, l, if (x, m) == (o, l) then now else last)
  {
  }

  lemma BeginTransferSpares(L: Limits, s: State, x: Id, m: Locality, now: Time, o: Id, l: Locality, last: Time)
    requires Protected(L, s, o, l, last)
    ensures Protected(L, BeginTransfer(L, s, x, m, now).0, o, l, last)
  {
    var begun := s.(transfers := s.transfers + {(x, m)}, transferCount := s.transferCount + 1);
    assert Protected(L, begun, o, l, last);
    AcquireSpares(L, begun, x, m, now, o, l, last);
  }

  /** Admission changes the calls of one object, and at most marks it as freezing. */
  lemma AdmitSpares(L: Limits, s: State, x: Id, kind: Kind, current: bool, domain: bool, now: Time, o: Id, l: Locality, last: Time)
    requires Protected(L, s, o, l, last)
    ensures Protected(L, Admit(L, s, x, kind, current, domain, now).0, o, l, last)
  {
  }

  /** A retirement is queued only for objects that are being retired. */
  lemma RetiresAnother(L: Limits, s: Sys, o: Id, l: Locality, last: Time)
    requires Inv(L, s) && s.state.retirements != [] && Protected(L, s.state, o, l, last)
    ensures s.state.retirements[0] != o
  {
  }

  function LastRenewal(last: Time, event: Event, o: Id, l: Locality): Time {
    if Renews(event.step, o, l) then event.at else last
  }

  /** Steps that only touch calls, migrations and retirements. */
  predicate OnCalls(step: Step) {
    step.DoAdmit? || step.DoAdmitLocal? || step.DoComplete? || step.DoRetry? || step.DoMigrate? || step.DoPrepare? ||
    step.DoFinishRetirement? || step.DoLoseRetirement?
  }

  lemma CallStepSpares(L: Limits, s: Sys, event: Event, o: Id, l: Locality, last: Time)
    requires Enabled(s, event.step) && Protected(L, s.state, o, l, last) && OnCalls(event.step)
    requires event.step.DoFinishRetirement? ==> s.state.retirements[0] != o
    ensures Protected(L, Next(L, s, event.at, event.step).state, o, l, last)
  {
    match event.step
    case DoAdmit(x, kind, current, domain) => AdmitSpares(L, s.state, x, kind, current, domain, event.at, o, l, last);
    case _ =>
  }

  lemma LeaseStepSpares(L: Limits, s: Sys, event: Event, o: Id, l: Locality, last: Time)
    requires L.Valid() && Enabled(s, event.step) && Protected(L, s.state, o, l, last) && !OnCalls(event.step)
    requires event.step != DoRelease(o, l)
    requires event.step.DoExpire? ==> event.at < last + L.ttl + L.grace
    ensures Protected(L, Next(L, s, event.at, event.step).state, o, l, LastRenewal(last, event, o, l))
  {
    match event.step
    case DoExpire(order) => ExpireSpares(L, s.state, order, event.at, o, l, last);
    case DoRelease(x, m) => ReleaseSpares(L, s.state, x, m, o, l, last);
    case DoReleaseRoot(x) => ReleaseRootSpares(L, s.state, x, o, l, last);
    case DoCollect(x) => CollectSpares(L, s.state, x, o, l, last);
    case DoAcquire(x, m) => AcquireSpares(L, s.state, x, m, event.at, o, l, last);
    case DoRenew(x, m) => AcquireSpares(L, s.state, x, m, event.at, o, l, last);
    case DoBeginTransfer(x, m) => BeginTransferSpares(L, s.state, x, m, event.at, o, l, last);
    case DoInsert(_, _, _) =>
    case DoAckTransfer(_, _) =>
  }

  lemma StepSpares(L: Limits, s: Sys, event: Event, o: Id, l: Locality, last: Time)
    requires Inv(L, s) && Enabled(s, event.step) && Protected(L, s.state, o, l, last)
    requires event.step != DoRelease(o, l)
    requires event.step.DoExpire? ==> event.at < last + L.ttl + L.grace
    ensures Protected(L, Next(L, s, event.at, event.step).state, o, l, LastRenewal(last, event, o, l))
  {
    if OnCalls(event.step) {
      if event.step.DoFinishRetirement? { RetiresAnother(L, s, o, l, last); }
      CallStepSpares(L, s, event, o, l, last);
    } else {
      LeaseStepSpares(L, s, event, o, l, last);
    }
  }

  // ----- whole runs

  /** Successive renewals are less than `gap` apart. */
  predicate Gaps(trace: seq<Event>, o: Id, l: Locality, last: Time, gap: nat) {
    trace == [] ||
    ((Renews(trace[0].step, o, l) ==> trace[0].at < last + gap) && Gaps(trace[1..], o, l, LastRenewal(last, trace[0], o, l), gap))
  }

  function FinalRenewal(trace: seq<Event>, o: Id, l: Locality, last: Time): Time {
    if trace == [] then last else FinalRenewal(trace[1..], o, l, LastRenewal(last, trace[0], o, l))
  }

  predicate InOrder(trace: seq<Event>) {
    forall j, k :: 0 <= j < k < |trace| ==> trace[j].at <= trace[k].at
  }

  /** Renewals come less than `lease_ttl + lease_grace` apart, the run ends before the next one is overdue,
      and the holder never releases the lease. */
  predicate RenewedInTime(L: Limits, trace: seq<Event>, o: Id, l: Locality, last: Time) {
    && InOrder(trace)
    && (forall k :: 0 <= k < |trace| ==> trace[k].step != DoRelease(o, l))
    && Gaps(trace, o, l, last, L.ttl + L.grace)
    && (trace != [] ==> trace[|trace| - 1].at < FinalRenewal(trace, o, l, last) + L.ttl + L.grace)
  }

  lemma {:induction false} NothingIsOverdue(L: Limits, trace: seq<Event>, o: Id, l: Locality, last: Time)
    requires RenewedInTime(L, trace, o, l, last) && trace != []
    ensures trace[0].at < last + L.ttl + L.grace
    ensures RenewedInTime(L, trace[1..], o, l, LastRenewal(last, trace[0], o, l))
    decreases |trace|
  {
    var rest, since := trace[1..], LastRenewal(last, trace[0], o, l);
    assert forall k :: 0 <= k < |rest| ==> rest[k] == trace[k + 1];
    assert RenewedInTime(L, rest, o, l, since);
    if rest != [] && !Renews(trace[0].step, o, l) {
      NothingIsOverdue(L, rest, o, l, since);
      assert trace[0].at <= trace[1].at;
    }
  }

  /** No run of expiry, transfer, acknowledgement, release by others, root release, admission, completion,
      migration and collection collects an object while one lease on it is renewed in time: after every
      number `k` of steps the object is still there and still protected. */
  lemma {:induction false} RenewedLeaseProtects(L: Limits, s: Sys, trace: seq<Event>, k: nat, o: Id, l: Locality, last: Time)
    requires Inv(L, s) && Legal(L, s, trace) && Protected(L, s.state, o, l, last)
    requires RenewedInTime(L, trace, o, l, last) && k <= |trace|
    ensures Legal(L, s, trace[..k])
    ensures Protected(L, After(L, s, trace[..k]).state, o, l, FinalRenewal(trace[..k], o, l, last))
    decreases k
  {
    if k > 0 {
      var next := Next(L, s, trace[0].at, trace[0].step);
      NothingIsOverdue(L, trace, o, l, last);
      StepSpares(L, s, trace[0], o, l, last);
      StepKeeps(L, s, trace[0].at, trace[0].step);
      RenewedLeaseProtects(L, next, trace[1..], k - 1, o, l, LastRenewal(last, trace[0], o, l));
      assert trace[..k][1..] == trace[1..][..k - 1];
    }
  }

  /** The bound is sharp: two expiry calls, the first when the lease runs out and the second `lease_grace`
      later, collect an idle object that nothing else holds. */
  lemma UnrenewedIsCollected(L: Limits, s: State, o: Id, l: Locality, last: Time, first: Time, second: Time)
    requires L.Valid() && o in s.entries
    requires var e := s.entries[o];
             e.home && Idle(e) && e.roots == 0 && e.site.lifecycle.Resident? && e.site.present && e.leases == map[l := Granted(L, last)]
    requires last + L.ttl <= first && first + L.grace <= second
    ensures o !in ExpireOne(L, ExpireOne(L, s, o, first), o, second).entries
  {
    var e := s.entries[o];
    var suspect := Lease(last + L.ttl, Some(first));
    assert Aged(L, e.leases, first) == map[l := suspect];
    var aged := e.(leases := map[l := suspect]);
    assert AgedEntry(L, e, first) == aged;
    var mid := ExpireOne(L, s, o, first);
    assert mid.entries[o] == aged;
    assert Aged(L, aged.leases, second) == map[];
    assert AgedEntry(L, aged, second) == aged.(leases := map[]);
  }

  // ----- readers and the writer

  predicate Startable(c: Calls, k: nat)
    requires k < |c.queue|
  {
    !(c.queue[k].freeze && c.tickets != 0)
  }

  /** `r` readers are at the front, the next one is a writer, and the loop has the turns to start them all. */
  predicate WriterAt(c: Calls, turns: nat, r: nat) {
    && r < turns && r < |c.queue| && !c.queue[r].read && Startable(c, r)
    && forall k: nat :: k < r ==> c.queue[k].read && Startable(c, k)
  }

  lemma WriterShifts(c: Calls, turns: nat, r: nat)
    requires turns > 0 && !Stuck(c) && c.queue[0].read
    ensures WriterAt(c, turns, r + 1) <==> WriterAt(Turn(c), turns - 1, r)
  {
    if WriterAt(c, turns, r + 1) {
      forall k: nat | k < r ensures Turn(c).queue[k].read && Startable(Turn(c), k) { assert Startable(c, k + 1); }
    }
    if WriterAt(Turn(c), turns - 1, r) {
      forall k: nat | k < r + 1 ensures c.queue[k].read && Startable(c, k) {
        if k > 0 { assert Startable(Turn(c), k - 1); }
      }
    }
  }

  lemma {:induction false} DrainStartsWriter(c: Calls, turns: nat)
    requires !c.writer
    ensures Drain(c, turns).writer <==> exists r: nat :: WriterAt(c, turns, r)
    ensures Drain(c, turns).readers >= c.readers
    decreases turns
  {
    if turns == 0 || Stuck(c) {
      forall r: nat ensures !WriterAt(c, turns, r) {
        if r > 0 && turns > 0 && c.queue != [] { assert !Startable(c, 0); }
      }
    } else if c.queue[0].read {
      DrainStartsWriter(Turn(c), turns - 1);
      var next, left := Turn(c), turns - 1;
      if r: nat :| WriterAt(next, left, r) {
        WriterShifts(c, turns, r);
      }
      if r: nat :| WriterAt(c, turns, r) {
        assert r > 0;
        WriterShifts(c, turns, r - 1);
      }
    } else {
      assert WriterAt(c, turns, 0);
    }
  }

  /** `retry_ready` looks at the readers only before its loop. It lets a writer run beside readers exactly
      when a writer waits right behind the readers that the same loop starts. */
  lemma WriterBesideReaders(c: Calls, turns: nat)
    requires Quiet(c)
    ensures Drain(c, turns).writer && Drain(c, turns).readers > 0 <==> exists r: nat :: r > 0 && WriterAt(c, turns, r)
  {
    DrainStartsWriter(c, turns);
    if turns > 0 && !Stuck(c) && c.queue[0].read {
      DrainStartsWriter(Turn(c), turns - 1);
    }
  }

  /** An object is inserted, a read and then a write arrive while its domain is busy, and the domain frees up. */
  function BusyDomain(): seq<Event> {
    [Event(0, DoInsert(7, false, 0)), Event(0, DoAdmit(7, Call(true), true, false)),
     Event(0, DoAdmit(7, Call(false), true, false)), Event(0, DoRetry(7, 2))]
  }

  /** The service holding object 7 with these calls. */
  function Holding(L: Limits, calls: Calls, jobs: multiset<Job>): Sys {
    Sys(State(map[7 := Entry(true, Site(Resident, false, true, None), map[0 := Granted(L, 0)], 0, calls)], {}, 0, 0, 0, []), jobs)
  }

  lemma Cons(L: Limits, s: Sys, event: Event, rest: seq<Event>)
    requires Enabled(s, event.step) && Legal(L, Next(L, s, event.at, event.step), rest)
    ensures Legal(L, s, [event] + rest) && After(L, s, [event] + rest) == After(L, Next(L, s, event.at, event.step), rest)
  {
    assert ([event] + rest)[1..] == rest;
  }

  lemma Arrivals(L: Limits)
    requires L.Valid() && L.maxMailbox >= 2
    ensures Next(L, Empty, 0, DoInsert(7, false, 0)) == Holding(L, NoCalls, multiset{})
    ensures Next(L, Holding(L, NoCalls, multiset{}), 0, DoAdmit(7, Call(true), true, false))
         == Holding(L, Calls(0, 0, 0, false, [Waiting(true, false)]), multiset{})
    ensures Next(L, Holding(L, Calls(0, 0, 0, false, [Waiting(true, false)]), multiset{}), 0, DoAdmit(7, Call(false), true, false))
         == Holding(L, Calls(0, 0, 0, false, [Waiting(true, false), Waiting(false, false)]), multiset{})
  {
    assert NoCalls.queue + [Waiting(true, false)] == [Waiting(true, false)];
    assert [Waiting(true, false)] + [Waiting(false, false)] == [Waiting(true, false), Waiting(false, false)];
  }

  lemma RetryStartsBoth(L: Limits)
    ensures Next(L, Holding(L, Calls(0, 0, 0, false, [Waiting(true, false), Waiting(false, false)]), multiset{}), 0, DoRetry(7, 2))
         == Holding(L, Calls(2, 0, 1, true, []), multiset{Job(7, true, false), Job(7, false, false)})
  {
    var c := Calls(0, 0, 0, false, [Waiting(true, false), Waiting(false, false)]);
    var d := Calls(1, 0, 1, false, [Waiting(false, false)]);
    assert Turn(c) == d && Turn(d) == Calls(2, 0, 1, true, []);
    assert Drain(c, 2) == Drain(d, 1) == Turn(d);
    assert Started(7, c, 2) == multiset{Job(7, true, false)} + Started(7, d, 1);
    assert multiset{} + Started(7, c, 2) == multiset{Job(7, true, false), Job(7, false, false)};
  }

  /** From the empty service this run ends with the writer running beside the reader. */
  lemma WriterBesideReaderRun(L: Limits)
    requires L.Valid() && L.maxMailbox >= 2
    ensures Legal(L, Empty, BusyDomain())
    ensures After(L, Empty, BusyDomain())
         == Holding(L, Calls(2, 0, 1, true, []), multiset{Job(7, true, false), Job(7, false, false)})
  {
    Arrivals(L);
    RetryStartsBoth(L);
    var t, reading, writing := BusyDomain(), Calls(0, 0, 0, false, [Waiting(true, false)]), Calls(0, 0, 0, false, [Waiting(true, false), Waiting(false, false)]);
    Cons(L, Holding(L, writing, multiset{}), t[3], []);
    Cons(L, Holding(L, reading, multiset{}), t[2], [t[3]] + []);
    Cons(L, Holding(L, NoCalls, multiset{}), t[1], [t[2]] + ([t[3]] + []));
    Cons(L, Empty, t[0], [t[1]] + ([t[2]] + ([t[3]] + [])));
    assert t == [t[0]] + ([t[1]] + ([t[2]] + ([t[3]] + [])));
  }
}
