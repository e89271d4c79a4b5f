/** Who runs on an object: every answer to a call told by the jobs that are out, and readers and the writer kept apart. */
module Admission {
  import opened Wrappers
  import opened Objects
  import opened ObjectRuns
  import opened Leases

  function Reader(o: Id): Job { Job(o, true, false) }

  function Writer(o: Id): Job { Job(o, false, false) }

  /** No job of the object is out. */
  predicate Unused(jobs: multiset<Job>, o: Id) {
    forall read: bool, placement: bool :: Job(o, read, placement) !in jobs
  }

  // ----- readers and the writer of one object

  /** At most one writer is out, and no reader beside it. */
  ghost predicate Apart(jobs: multiset<Job>) {
    forall o: Id :: Writer(o) in jobs ==> jobs[Writer(o)] == 1 && Reader(o) !in jobs
  }

  lemma JobsOfEntry(L: Limits, s: Sys, o: Id)
    requires Inv(L, s)
    ensures o in s.state.entries ==> Counts(s.jobs, o, s.state.entries[o].calls)
    ensures o !in s.state.entries ==> Unused(s.jobs, o)
  {
    if o in s.state.entries { assert EntryGood(L, s.jobs, o, s.state.entries[o]); } else { assert NoJobs(s.jobs, o); }
  }

  /** Every step other than a retry keeps readers and the writer apart. */
  lemma StepKeepsApart(L: Limits, s: Sys, now: Time, step: Step)
    requires Inv(L, s) && Enabled(s, step) && !step.DoRetry? && Apart(s.jobs)
    ensures Apart(Next(L, s, now, step).jobs)
  {
    match step
    case DoAdmit(o, kind, current, domain) => JobsOfEntry(L, s, o);
    case DoAdmitLocal(o, read) => JobsOfEntry(L, s, o);
    case _ =>
  }

  /** A retry keeps them apart unless the writer it starts waits right behind readers that it starts. */
  lemma RetryKeepsApart(L: Limits, s: Sys, now: Time, o: Id, turns: nat)
    requires Inv(L, s) && Apart(s.jobs)
    ensures Apart(Next(L, s, now, DoRetry(o, turns)).jobs) <==>
            !(o in s.state.entries && Quiet(s.state.entries[o].calls) && exists r: nat :: r > 0 && WriterAt(s.state.entries[o].calls, turns, r))
  {
    if o in s.state.entries && Quiet(s.state.entries[o].calls) {
      var c := s.state.entries[o].calls;
      RetryJobs(L, s, o, turns);
      WriterBesideReaders(c, turns);
      ApartElsewhere(s.jobs, s.jobs + Started(o, c, turns), o);
    }
  }

  lemma RetryJobs(L: Limits, s: Sys, o: Id, turns: nat)
    requires Inv(L, s) && o in s.state.entries && Quiet(s.state.entries[o].calls)
    ensures var c := s.state.entries[o].calls;
            Counts(s.jobs + Started(o, c, turns), o, Drain(c, turns)) && SameElsewhere(s.jobs, s.jobs + Started(o, c, turns), o)
  {
    JobsOfEntry(L, s, o);
    DrainCounts(o, s.state.entries[o].calls, turns, s.jobs);
  }

  /** Jobs that changed at one object only are apart exactly when they are apart there. */
  lemma ApartElsewhere(jobs: multiset<Job>, more: multiset<Job>, o: Id)
    requires Apart(jobs) && SameElsewhere(jobs, more, o)
    ensures Apart(more) <==> (Writer(o) in more ==> more[Writer(o)] == 1 && Reader(o) !in more)
  {
    forall q: Id | q != o ensures more[Writer(q)] == jobs[Writer(q)] && more[Reader(q)] == jobs[Reader(q)] { }
  }

  predicate NoRetry(trace: seq<Event>) {
    forall k :: 0 <= k < |trace| ==> !trace[k].step.DoRetry?
  }

  lemma {:induction false} RunKeepsApart(L: Limits, s: Sys, trace: seq<Event>)
    requires Inv(L, s) && Legal(L, s, trace) && NoRetry(trace) && Apart(s.jobs)
    ensures Apart(After(L, s, trace).jobs)
    decreases |trace|
  {
    if trace != [] {
      StepKeeps(L, s, trace[0].at, trace[0].step);
      StepKeepsApart(L, s, trace[0].at, trace[0].step);
      RunKeepsApart(L, Next(L, s, trace[0].at, trace[0].step), trace[1..]);
    }
  }

  /** In every run of the service without retries, no object has a writer and a reader, or two writers, out at once. */
  lemma ReadersAndWriterApart(L: Limits, trace: seq<Event>)
    requires L.Valid() && Legal(L, Empty, trace) && NoRetry(trace)
    ensures Apart(After(L, Empty, trace).jobs)
  {
    StartsGood(L);
    RunKeepsApart(L, Empty, trace);
  }

  /** Two writers are never out at once, with or without retries. */
  lemma OneWriter(L: Limits, trace: seq<Event>, o: Id)
    requires L.Valid() && Legal(L, Empty, trace)
    ensures After(L, Empty, trace).jobs[Writer(o)] <= 1
  {
    EveryRunKeepsAccounts(L, trace);
    JobsOfEntry(L, After(L, Empty, trace), o);
  }

  // ----- what each call is answered

  /** The object is here, resident, and the request is up to date. */
  predicate Here(s: State, o: Id, current: bool) {
    o in s.entries && current && s.entries[o].site.lifecycle.Resident?
  }

  /** Nothing that is out or waiting keeps the call from running. */
  predicate Clear(s: Sys, o: Id, read: bool)
    requires o in s.state.entries
  {
    s.state.entries[o].calls.queue == [] && Writer(o) !in s.jobs && (read || Reader(o) !in s.jobs)
  }

  /** A call in any run: it runs exactly when its domain is free, nothing waits and nothing it conflicts with is out;
      otherwise it waits at the end of the queue while there is room. A refusal changes nothing. */
  lemma CallIsAnswered(L: Limits, trace: seq<Event>, o: Id, read: bool, current: bool, domain: bool, now: Time)
    requires L.Valid() && Legal(L, Empty, trace)
    ensures var s := After(L, Empty, trace);
            var (next, a) := Admit(L, s.state, o, Call(read), current, domain, now);
            if !Here(s.state, o, current) then next == s.state && a == Refused
            else if domain && Clear(s, o, read) then a == Run(Job(o, read, false)) && OnlyCalls(s.state, next, o, s.state.entries[o].calls.queue)
            else if |s.state.entries[o].calls.queue| < L.maxMailbox then
              a == Queued && OnlyCalls(s.state, next, o, s.state.entries[o].calls.queue + [Waiting(read, false)])
            else next == s.state && a == Refused
  {
    EveryRunKeepsAccounts(L, trace);
    JobsOfEntry(L, After(L, Empty, trace), o);
  }

  /** Only the calls of `o` have changed, and its queue is now this one. */
  ghost predicate OnlyCalls(s: State, t: State, o: Id, queue: seq<Waiting>) {
    && o in s.entries && o in t.entries && t.entries[o].calls.queue == queue
    && t.entries[o] == s.entries[o].(calls := t.entries[o].calls)
    && t == s.(entries := s.entries[o := t.entries[o]])
  }

  /** A local call never waits: it runs exactly when nothing waits and nothing it conflicts with is out. */
  lemma LocalCallIsAnswered(L: Limits, trace: seq<Event>, o: Id, read: bool)
    requires L.Valid() && Legal(L, Empty, trace)
    ensures var s := After(L, Empty, trace);
            var (next, a) := AdmitLocal(s.state, o, read);
            if Here(s.state, o, true) && Clear(s, o, read)
            then a == Run(Job(o, read, false)) && OnlyCalls(s.state, next, o, s.state.entries[o].calls.queue)
            else next == s.state && a == Refused
  {
    EveryRunKeepsAccounts(L, trace);
    JobsOfEntry(L, After(L, Empty, trace), o);
  }

  /** A freeze marks the object, even when it waits or is refused for want of room, and runs exactly when its domain is
      free, nothing waits and no job of the object is out. */
  lemma FreezeIsAnswered(L: Limits, trace: seq<Event>, o: Id, current: bool, domain: bool, now: Time)
    requires L.Valid() && Legal(L, Empty, trace)
    ensures var s := After(L, Empty, trace);
            var (next, a) := Admit(L, s.state, o, Freeze, current, domain, now);
            if !(o in s.state.entries && current && (s.state.entries[o].site.lifecycle.Resident? || s.state.entries[o].site.lifecycle.Freezing?))
            then next == s.state && a == Refused
            else
              var was := s.state.entries[o];
              && o in next.entries
              && next.entries[o].site.lifecycle
                 == (if was.site.lifecycle.Resident? then Freezing(now + L.forwardingTtl) else was.site.lifecycle)
              && (a.Run? <==> domain && was.calls.queue == [] && Unused(s.jobs, o)) && (a.Run? ==> a.job == Writer(o))
              && (a.Queued? <==> !a.Run? && |was.calls.queue| < L.maxMailbox)
              && next.entries[o].calls.queue == was.calls.queue + (if a.Queued? then [Waiting(false, true)] else [])
  {
    EveryRunKeepsAccounts(L, trace);
    var s := After(L, Empty, trace);
    JobsOfEntry(L, s, o);
    if o in s.state.entries { ReadNotPlaced(L, trace, o); }
  }

  /** Placements are no readers. */
  lemma ReadNotPlaced(L: Limits, trace: seq<Event>, o: Id)
    requires Legal(L, Empty, trace)
    ensures Job(o, true, true) !in After(L, Empty, trace).jobs
  {
    PlacedAreWriters(L, Empty, trace);
  }

  lemma {:induction false} PlacedAreWriters(L: Limits, s: Sys, trace: seq<Event>)
    requires Legal(L, s, trace) && forall o: Id :: Job(o, true, true) !in s.jobs
    ensures forall o: Id :: Job(o, true, true) !in After(L, s, trace).jobs
    decreases |trace|
  {
    if trace != [] {
      var step := trace[0].step;
      if step.DoRetry? && step.o in s.state.entries { StartedUnplaced(step.o, s.state.entries[step.o].calls, step.turns); }
      PlacedAreWriters(L, Next(L, s, trace[0].at, step), trace[1..]);
    }
  }

  lemma {:induction false} StartedUnplaced(o: Id, c: Calls, turns: nat)
    ensures forall job :: job in Started(o, c, turns) ==> !job.placement
    decreases turns
  {
    if turns > 0 && !Stuck(c) && c.queue[0].read { StartedUnplaced(o, Turn(c), turns - 1); }
  }

  /** A placement never waits, and what runs or waits on the object does not keep it back: only a busy domain, too many
      placements, or an object that is not here. */
  lemma PlacementIsAnswered(L: Limits, trace: seq<Event>, o: Id, current: bool, domain: bool, now: Time)
    requires L.Valid() && Legal(L, Empty, trace)
    ensures var s := After(L, Empty, trace);
            var (next, a) := Admit(L, s.state, o, Place, current, domain, now);
            if Here(s.state, o, current) && domain && s.state.placementCount < L.maxTickets
            then a == Run(Job(o, false, true)) && OnlyCalls(s.state.(placementCount := s.state.placementCount + 1), next, o, s.state.entries[o].calls.queue)
            else next == s.state && a == Refused
  {
  }

  // ----- what a retry starts

  /** The jobs of these waiting calls. */
  function JobsOf(o: Id, waiting: seq<Waiting>): multiset<Job> {
    if waiting == [] then multiset{} else multiset{Job(o, waiting[0].read, false)} + JobsOf(o, waiting[1..])
  }

  /** The first `n` waiting calls start: readers, or readers and then one writer, that nothing keeps back; and the loop
      stops for want of turns, at a call that is kept back, or behind the writer. */
  predicate Starts(c: Calls, turns: nat, n: nat) {
    && n <= |c.queue| && n <= turns
    && (forall k: nat :: k < n ==> Startable(c, k) && (k < n - 1 ==> c.queue[k].read))
    && (n == turns || n == |c.queue| || !Startable(c, n) || (n > 0 && !c.queue[n - 1].read))
  }

  lemma StartsShifts(c: Calls, turns: nat, m: nat)
    requires turns > 0 && !Stuck(c) && c.queue[0].read && Starts(Turn(c), turns - 1, m)
    ensures Starts(c, turns, m + 1)
  {
    var d := Turn(c);
    forall k: nat | k < m + 1 ensures Startable(c, k) && (k < m ==> c.queue[k].read) {
      if k > 0 { assert Startable(d, k - 1); }
    }
    if m + 1 < |c.queue| { assert Startable(c, m + 1) == Startable(d, m); }
  }

  lemma JobsShift(o: Id, queue: seq<Waiting>, m: nat)
    requires m < |queue|
    ensures JobsOf(o, queue[..m + 1]) == multiset{Job(o, queue[0].read, false)} + JobsOf(o, queue[1..][..m])
    ensures queue[m + 1..] == queue[1..][m..]
  {
    assert queue[..m + 1][1..] == queue[1..][..m];
  }

  /** A retry starts the front of the queue, in order: what is left is what waited behind it. */
  lemma {:induction false} DrainTakesTheFront(o: Id, c: Calls, turns: nat) returns (n: nat)
    ensures Starts(c, turns, n)
    ensures Drain(c, turns).queue == c.queue[n..] && Started(o, c, turns) == JobsOf(o, c.queue[..n])
    decreases turns
  {
    if turns == 0 || Stuck(c) {
      n := 0;
      assert c.queue[..0] == [] && c.queue[0..] == c.queue;
    } else if c.queue[0].read {
      var m := DrainTakesTheFront(o, Turn(c), turns - 1);
      n := m + 1;
      StartsShifts(c, turns, m);
      JobsShift(o, c.queue, m);
    } else {
      n := 1;
      JobsShift(o, c.queue, 0);
      assert c.queue[1..][..0] == [] && c.queue[1..][0..] == c.queue[1..];
      assert multiset{Job(o, false, false)} + JobsOf(o, []) == multiset{Job(o, false, false)};
    }
  }

  /** A retry of an object in any run: nothing, unless no reader and no writer of the object is out; and otherwise the
      front of its queue. */
  lemma RetryStartsTheFront(L: Limits, trace: seq<Event>, o: Id, turns: nat, now: Time) returns (n: nat)
    requires L.Valid() && Legal(L, Empty, trace)
    ensures var s := After(L, Empty, trace);
            var t := Next(L, s, now, DoRetry(o, turns));
            if o !in s.state.entries || Writer(o) in s.jobs || Reader(o) in s.jobs then t == s
            else
              var c := s.state.entries[o].calls;
              && Starts(c, turns, n) && t.jobs == s.jobs + JobsOf(o, c.queue[..n])
              && OnlyCalls(s.state, t.state, o, c.queue[n..])
  {
    EveryRunKeepsAccounts(L, trace);
    var s := After(L, Empty, trace);
    JobsOfEntry(L, s, o);
    n := 0;
    if o in s.state.entries { n := DrainTakesTheFront(o, s.state.entries[o].calls, turns); }
  }
}
