/** Leases, roots, transfers, admission and collection of the object service,
  crates/hataori-runtime/src/object.rs.

  Times are natural numbers read from the clock. Migration changes an entry's lifecycle, state and prepared
  copy; it is modelled as a free choice of those, because nothing here depends on more of it.
 */
module Objects {
  import opened Wrappers

  type Id = nat
  type Locality = nat
  type Time = nat

  datatype Limits = Limits(maxObjects: nat, maxMailbox: nat, maxLeases: nat, maxRoots: nat, maxTickets: nat,
                           maxTransfers: nat, maxMigrations: nat, forwardingTtl: nat, ttl: nat, grace: nat)
  {
    predicate Valid() {
      maxObjects > 0 && maxMailbox > 0 && maxLeases > 0 && maxRoots > 0 && maxTickets > 0 &&
      maxTransfers > 0 && maxMigrations > 0 && forwardingTtl > 0 && ttl > 0 && grace > 0
    }
  }

  datatype Lease = Lease(expiresAt: Time, suspectSince: Option<Time>)

  /** `away` says that the location lies at another locality. */
  datatype Lifecycle =
    | Resident
    | Freezing(until: Time)
    | Preparing(until: Time)
    | Forwarding(until: Time, away: bool)
    | Retiring

  datatype Waiting = Waiting(read: bool, freeze: bool)

  /** Where the object is: `away` is its current location, `prepared` the expiry of a prepared copy. */
  datatype Site = Site(lifecycle: Lifecycle, away: bool, present: bool, prepared: Option<Time>)

  /** The calls running and waiting. */
  datatype Calls = Calls(inFlight: nat, tickets: nat, readers: nat, writer: bool, queue: seq<Waiting>)

  /** `home` says that this locality is the object's authority. */
  datatype Entry = Entry(home: bool, site: Site, leases: map<Locality, Lease>, roots: nat, calls: Calls)

  /** The three counters are the service's atomics; `int` shows that they never go below zero. */
  datatype State = State(entries: map<Id, Entry>, transfers: set<(Id, Locality)>, rootCount: int,
                         transferCount: int, placementCount: int, retirements: seq<Id>)

  datatype Job = Job(target: Id, read: bool, placement: bool)

  datatype Admitted = Run(job: Job) | Queued | Refused

  function Sub1(n: nat): nat { if n > 0 then n - 1 else 0 }

  const NoCalls: Calls := Calls(0, 0, 0, false, [])

  // ----- collection

  predicate Idle(e: Entry) {
    e.calls.inFlight == 0 && e.calls.tickets == 0 && e.calls.queue == [] && e.site.prepared.None?
  }

  function Set(s: State, o: Id, e: Entry): State { s.(entries := s.entries[o := e]) }

  function Drop(s: State, o: Id): State { s.(entries := s.entries - {o}) }

  function Collect(L: Limits, s: State, o: Id): State {
    if o !in s.entries || !Idle(s.entries[o]) then s
    else
      var e := s.entries[o];
      if !e.home then
        if (e.site.lifecycle.Forwarding? || e.site.lifecycle.Retiring?) && !e.site.present then Drop(s, o) else s
      else if |e.leases| != 0 || e.roots != 0 then s
      else if e.site.lifecycle.Resident? && e.site.present then Drop(s, o)
      else if e.site.lifecycle.Forwarding? && !e.site.present then
        if !e.site.lifecycle.away then Drop(s, o)
        else if |s.retirements| >= L.maxMigrations then s
        else Retire(s, o)
      else s
  }

  function Retire(s: State, o: Id): State
    requires o in s.entries
  {
    Set(s, o, At(s.entries[o], s.entries[o].site.(lifecycle := Retiring))).(retirements := s.retirements + [o])
  }

  function At(e: Entry, site: Site): Entry { e.(site := site) }

  // ----- leases, roots and transfers

  function Granted(L: Limits, now: Time): Lease { Lease(now + L.ttl, None) }

  function Acquire(L: Limits, s: State, o: Id, l: Locality, now: Time): (State, bool) {
    if o !in s.entries then (s, false)
    else
      var e := s.entries[o];
      if |e.leases| >= L.maxLeases && l !in e.leases then (s, false)
      else (Set(s, o, e.(leases := e.leases[l := Granted(L, now)])), true)
  }

  function Renew(L: Limits, s: State, o: Id, l: Locality, now: Time): (State, bool) {
    if o !in s.entries || l !in s.entries[o].leases then (s, false)
    else (Set(s, o, s.entries[o].(leases := s.entries[o].leases[l := Granted(L, now)])), true)
  }

  function AckTransfer(s: State, o: Id, l: Locality): (State, bool) {
    if (o, l) in s.transfers then
      (s.(transfers := s.transfers - {(o, l)}, transferCount := s.transferCount - 1), true)
    else (s, false)
  }

  function Release(L: Limits, s: State, o: Id, l: Locality): (State, bool) {
    if o !in s.entries then (s, false)
    else
      var e := s.entries[o];
      var dropped := Set(s, o, e.(leases := e.leases - {l}));
      (Collect(L, AckTransfer(dropped, o, l).0, o), l in e.leases)
  }

  function ReleaseRoot(L: Limits, s: State, o: Id): (State, bool) {
    if o !in s.entries || s.entries[o].roots == 0 then (s, false)
    else (Collect(L, Unrooted(s, o), o), true)
  }

  function Unrooted(s: State, o: Id): State
    requires o in s.entries && s.entries[o].roots > 0
  {
    Set(s, o, s.entries[o].(roots := s.entries[o].roots - 1)).(rootCount := s.rootCount - 1)
  }

  function BeginTransfer(L: Limits, s: State, o: Id, l: Locality, now: Time): (State, bool) {
    if o !in s.entries || l in s.entries[o].leases then (s, false)
    else if (o, l) in s.transfers || s.transferCount >= L.maxTransfers then (s, false)
    else
      var begun := s.(transfers := s.transfers + {(o, l)}, transferCount := s.transferCount + 1);
      var (leased, ok) := Acquire(L, begun, o, l, now);
      if ok then (leased, true)
      else (leased.(transfers := leased.transfers - {(o, l)}, transferCount := leased.transferCount - 1), false)
  }

  function Insert(L: Limits, s: State, o: Id, rooted: bool, l: Locality, now: Time): (State, bool) {
    if |s.entries| >= L.maxObjects || o in s.entries then (s, false)
    else if rooted && s.rootCount >= L.maxRoots then (s, false)
    else
      var e := Entry(true, Site(Resident, false, true, None), map[l := Granted(L, now)], if rooted then 1 else 0, NoCalls);
      (Set(s, o, e).(rootCount := s.rootCount + e.roots), true)
  }

  // ----- expiry

  function Marked(lease: Lease, now: Time): Lease {
    if lease.expiresAt <= now && lease.suspectSince.None? then lease.(suspectSince := Some(now)) else lease
  }

  predicate Kept(L: Limits, lease: Lease, now: Time) {
    lease.suspectSince.None? ||
    (if now >= lease.suspectSince.value then now - lease.suspectSince.value else 0) < L.grace
  }

  function Aged(L: Limits, leases: map<Locality, Lease>, now: Time): map<Locality, Lease> {
    map l | l in leases && Kept(L, Marked(leases[l], now), now) :: Marked(leases[l], now)
  }

  function AgedSite(L: Limits, home: bool, site: Site, now: Time): Site {
    var turned :=
      match site.lifecycle
      case Freezing(until) => if until <= now then site.(lifecycle := Resident) else site
      case Preparing(until) =>
        if until <= now then site.(lifecycle := Forwarding(now + L.forwardingTtl, site.away), prepared := None) else site
      case Forwarding(until, _) => if until <= now && !home then site.(present := false) else site
      case _ => site;
    if turned.prepared.Some? && turned.prepared.value <= now then turned.(prepared := None) else turned
  }

  function Remaining(transfers: set<(Id, Locality)>, o: Id, leases: map<Locality, Lease>): set<(Id, Locality)> {
    set p | p in transfers && (p.0 != o || p.1 in leases)
  }

  function ExpireOne(L: Limits, s: State, o: Id, now: Time): State {
    if o !in s.entries then s else Collect(L, Ageing(L, s, o, now), o)
  }

  function AgedEntry(L: Limits, e: Entry, now: Time): Entry {
    e.(site := AgedSite(L, e.home, e.site, now), leases := Aged(L, e.leases, now))
  }

  /** What `expire` does to one object before it tries to collect it. */
  function Ageing(L: Limits, s: State, o: Id, now: Time): State
    requires o in s.entries
  {
    var e := AgedEntry(L, s.entries[o], now);
    var transfers := Remaining(s.transfers, o, e.leases);
    Set(s, o, e).(transfers := transfers, transferCount := s.transferCount - (|s.transfers| - |transfers|))
  }

  /** `expire` visits the objects in the order of the table; every order is allowed here. */
  function Expire(L: Limits, s: State, order: seq<Id>, now: Time): State {
    if order == [] then s
    else ExpireOne(L, Expire(L, s, order[..|order| - 1], now), order[|order| - 1], now)
  }

  // ----- admission

  function Enter(c: Calls, read: bool): Calls {
    if read then c.(readers := c.readers + 1, inFlight := c.inFlight + 1)
    else c.(writer := true, inFlight := c.inFlight + 1)
  }

  function Ticket(c: Calls): Calls { c.(tickets := c.tickets + 1, inFlight := c.inFlight + 1) }

  function Leave(c: Calls, job: Job): Calls {
    (if job.placement then c.(tickets := Sub1(c.tickets))
     else if job.read then c.(readers := Sub1(c.readers))
     else c.(writer := false)).(inFlight := Sub1(c.inFlight))
  }

  /** A reader waits for the writer; a writer waits for everybody. */
  predicate Free(c: Calls, read: bool) {
    c.queue == [] && !c.writer && (read || c.readers == 0)
  }

  datatype Kind = Call(read: bool) | Freeze | Place

  predicate Open(kind: Kind, lifecycle: Lifecycle) {
    lifecycle.Resident? || (kind.Freeze? && lifecycle.Freezing?)
  }

  /** A freeze marks a resident object at once, even when it then has to wait. */
  function Entered(L: Limits, e: Entry, kind: Kind, now: Time): Entry {
    if kind.Freeze? && e.site.lifecycle.Resident?
    then At(e, e.site.(lifecycle := Freezing(now + L.forwardingTtl))) else e
  }

  /** `current` says that the type and the epoch of the request match the entry. */
  function Admit(L: Limits, s: State, o: Id, kind: Kind, current: bool, domain: bool, now: Time): (State, Admitted) {
    if o !in s.entries || !current || !Open(kind, s.entries[o].site.lifecycle) then (s, Refused)
    else if kind.Place? then
      var e := s.entries[o];
      if !domain || s.placementCount >= L.maxTickets then (s, Refused)
      else (Set(s, o, e.(calls := Ticket(e.calls))).(placementCount := s.placementCount + 1), Run(Job(o, false, true)))
    else
      var (e, a) := AdmitCall(L, o, s.entries[o], kind, domain, now);
      (Set(s, o, e), a)
  }

  /** A call or a freeze runs when nobody is before it, waits when there is room, and is refused otherwise. */
  function AdmitCall(L: Limits, o: Id, e: Entry, kind: Kind, domain: bool, now: Time): (Entry, Admitted) {
    var c, read := e.calls, kind.Call? && kind.read;
    var e := Entered(L, e, kind, now);
    if domain && Free(c, read) && (kind.Freeze? ==> c.tickets == 0) then
      (e.(calls := Enter(c, read)), Run(Job(o, read, false)))
    else if |c.queue| >= L.maxMailbox then (e, Refused)
    else (e.(calls := Waited(c, Waiting(read, kind.Freeze?))), Queued)
  }

  function Waited(c: Calls, w: Waiting): Calls { c.(queue := c.queue + [w]) }

  function AdmitLocal(s: State, o: Id, read: bool): (State, Admitted) {
    if o !in s.entries || !s.entries[o].site.lifecycle.Resident? || !Free(s.entries[o].calls, read) then (s, Refused)
    else (Set(s, o, s.entries[o].(calls := Enter(s.entries[o].calls, read))), Run(Job(o, read, false)))
  }

  function Complete(s: State, job: Job): State {
    if job.target !in s.entries then s
    else
      var e := s.entries[job.target];
      Set(s, job.target, e.(calls := Leave(e.calls, job)))
      .(placementCount := if job.placement then s.placementCount - 1 else s.placementCount)
  }

  predicate Stuck(c: Calls) { c.queue == [] || (c.queue[0].freeze && c.tickets != 0) }

  /** One turn of the loop of `retry_ready`: the front of the queue starts. */
  function Turn(c: Calls): Calls
    requires c.queue != []
  {
    Enter(c, c.queue[0].read).(queue := c.queue[1..])
  }

  /** The loop of `retry_ready` on one entry; `turns` counts the turns that find room and a free domain. */
  function Drain(c: Calls, turns: nat): Calls
    decreases turns
  {
    if turns == 0 || Stuck(c) then c
    else if c.queue[0].read then Drain(Turn(c), turns - 1)
    else Turn(c)
  }

  /** The waiting jobs that the loop starts. */
  function Started(o: Id, c: Calls, turns: nat): multiset<Job>
    decreases turns
  {
    if turns == 0 || Stuck(c) then multiset{}
    else if c.queue[0].read then multiset{Job(o, true, false)} + Started(o, Turn(c), turns - 1)
    else multiset{Job(o, false, false)}
  }

  predicate Quiet(c: Calls) { !c.writer && c.readers == 0 }

  function Retry(s: State, o: Id, turns: nat): State {
    if o !in s.entries || !Quiet(s.entries[o].calls) then s
    else Set(s, o, s.entries[o].(calls := Drain(s.entries[o].calls, turns)))
  }
}
