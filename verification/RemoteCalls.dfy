/** Remote calls of plain actions: the caller's pending table, the callee's request table, and the
  runtime handlers of crates/hataori-runtime/src/runtime.rs, over a faulty network.

  `sent` only grows and any packet in it may be delivered at any time, any number of times or never:
  this covers loss, duplication, delay and reordering. Clock readings, queue space and send results
  are chosen freely by each action. `resolved` logs every completion of a caller's promise.
 */
module RemoteCalls {
  import opened Wrappers
  import D = Dedup

  type RequestId = D.RequestId
  type Message = D.Message

  datatype Config = Config(
    localities: nat,
    handler: (nat, D.Segments) -> Result<D.Segments, D.Segments>,
    known: nat -> bool,
    limits: D.Limits,
    maxPending: nat)

  datatype Phase = Running | Draining | Stopped

  /** What the caller asked for. */
  datatype Call = Call(dest: nat, action: nat, domain: nat, payload: D.Segments)

  datatype Pending = Pending(dest: nat, action: nat, domain: nat)

  datatype Job = Job(requester: nat, request: RequestId, action: nat, domain: nat, payload: D.Segments)

  datatype Response = Response(dest: nat, message: Message, cache: bool)

  datatype Node = Node(
    phase: Phase,
    nextSequence: nat,
    pending: map<RequestId, Pending>,
    table: D.Table,
    jobs: seq<Job>,
    responses: seq<Response>)

  datatype Packet = Packet(source: nat, dest: nat, message: Message)

  /** How a caller's promise is completed: by a reply, by its deadline or a failed send, or by the runtime's end. */
  datatype Outcome =
    | Success(payload: D.Segments)
    | Failed(text: D.Segments)
    | Cancelled
    | Unavailable
    | Moved(location: D.Segments)
    | TimedOut
    | ShutDown

  datatype Sys = Sys(
    nodes: seq<Node>,
    sent: set<Packet>,
    calls: map<RequestId, Call>,
    resolved: seq<(RequestId, Outcome)>,
    fault: bool)

  function Start(c: Config): Sys {
    Sys(seq(c.localities, _ => Node(Running, 1, map[], D.Empty, [], [])), {}, map[], [], false)
  }

  // ----- caller side

  function Put(s: Sys, n: nat, node: Node): Sys
    requires n < |s.nodes|
  {
    s.(nodes := s.nodes[n := node])
  }

  function Post(s: Sys, ok: bool, p: Packet): Sys {
    if ok then s.(sent := s.sent + {p}) else s
  }

  /** spawn_inner for a remote place: number the request, register it, send it. */
  function Spawn(c: Config, s: Sys, o: nat, call: Call, ok: bool): Sys
    requires o < |s.nodes|
  {
    var node := s.nodes[o];
    var r := D.RequestId(o, node.nextSequence);
    var node := node.(nextSequence := node.nextSequence + 1);
    if |node.pending| >= c.maxPending || !ok then Put(s, o, node)
    else
      var s := Put(s, o, node.(pending := node.pending[r := Pending(call.dest, call.action, call.domain)]));
      Post(s, true, Packet(o, call.dest, D.Message(D.Request, r, call.action, call.domain, call.payload)))
        .(calls := s.calls[r := call])
  }

  /** Takes a call out of the pending table and, if it can, tells the callee; `timeout` also resolves it. */
  function Withdraw(s: Sys, o: nat, r: RequestId, timeout: bool, ok: bool): Sys
    requires o < |s.nodes| && r in s.nodes[o].pending
  {
    var node := s.nodes[o];
    var entry := node.pending[r];
    var s := Put(s, o, node.(pending := node.pending - {r}));
    var s := if timeout then s.(resolved := s.resolved + [(r, TimedOut)]) else s;
    Post(s, ok, CancelOf(o, r, entry))
  }

  predicate IsReply(m: Message) {
    !m.kind.Request? && !m.kind.Cancel?
  }

  function OutcomeOf(m: Message): Outcome
    requires IsReply(m)
  {
    match m.kind
    case Success => Success(m.payload)
    case Failure => Failed(m.payload)
    case Cancelled => Cancelled
    case DuplicateResultUnavailable => Unavailable
    case Moved => Moved(m.payload)
  }

  /** complete_pending: a late result is dropped, a mismatched one fails the runtime. */
  function Resolve(s: Sys, o: nat, source: nat, m: Message): Sys
    requires o < |s.nodes| && IsReply(m)
  {
    var node := s.nodes[o];
    if m.request !in node.pending then s
    else if node.pending[m.request].dest != source || node.pending[m.request].action != m.action then s.(fault := true)
    else Put(s, o, node.(pending := node.pending - {m.request})).(resolved := s.resolved + [(m.request, OutcomeOf(m))])
  }

  // ----- callee side

  /** queue_response; without room, or for a payload whose size overflows, the runtime fails. */
  function Queue(s: Sys, n: nat, response: Response, room: bool): Sys
    requires n < |s.nodes|
  {
    var node := s.nodes[n];
    Put(s, n, if room && D.Bytes(response.message.payload) <= D.USIZE_MAX then node.(responses := node.responses + [response]) else node.(phase := Stopped))
  }

  function FailureReply(m: Message, text: D.Segments): Message {
    D.Message(D.Failure, m.request, m.action, m.domain, text)
  }

  /** handle_request for a plain action. `accepted`: the execution domain has space for the job. */
  ghost function HandleRequest(c: Config, s: Sys, n: nat, source: nat, m: Message, now: nat, accepted: bool, room: bool, text: D.Segments): Sys
    requires n < |s.nodes|
  {
    var node := s.nodes[n];
    if !node.phase.Running? then Queue(s, n, Response(source, FailureReply(m, text), false), room)
    else
      var (table, answer) := D.Begin(c.limits, node.table, m.request, m.action, m.domain, now);
      var s := Put(s, n, node.(table := table));
      var node := s.nodes[n];
      match answer
      case Err(error) =>
        Queue(s.(fault := s.fault || error.ChangedMetadata?), n, Response(source, FailureReply(m, text), false), room)
      case Ok(New) =>
        if c.known(m.action) && accepted then
          Put(s, n, node.(jobs := node.jobs + [Job(source, m.request, m.action, m.domain, m.payload)]))
        else Queue(s, n, Response(source, FailureReply(m, text), true), room)
      case Ok(AlreadyRunning) => s
      case Ok(Replay(reply)) => Queue(s, n, Response(source, reply, false), room)
      case Ok(Unavailable(reply)) => Queue(s, n, Response(source, reply, false), room)
      case Ok(WasCancelled(reply)) => Queue(s, n, Response(source, reply, false), room)
  }

  ghost function HandleCancel(c: Config, s: Sys, n: nat, m: Message, now: nat): Sys
    requires n < |s.nodes|
  {
    var (table, answer) := D.CancelRequest(c.limits, s.nodes[n].table, m.request, m.action, m.domain, now);
    Put(s, n, s.nodes[n].(table := table)).(fault := s.fault || answer.Err?)
  }

  function RemoveAt<T>(xs: seq<T>, k: nat): seq<T>
    requires k < |xs|
  {
    xs[..k] + xs[k + 1..]
  }

  /** The reply to a job: its cancel flag is read when it starts. */
  function JobReply(c: Config, job: Job, cancelled: bool): Message {
    if cancelled then D.Message(D.Cancelled, job.request, job.action, job.domain, [])
    else match c.handler(job.action, job.payload)
      case Ok(payload) => D.Message(D.Success, job.request, job.action, job.domain, payload)
      case Err(text) => D.Message(D.Failure, job.request, job.action, job.domain, text)
  }

  /** A job runs and its completion is handled: the reply is queued for sending and caching. */
  function RunJob(c: Config, s: Sys, n: nat, k: nat, room: bool): Sys
    requires n < |s.nodes| && k < |s.nodes[n].jobs|
  {
    var node := s.nodes[n];
    var job := node.jobs[k];
    var cancelled := job.request in node.table.entries && node.table.entries[job.request].Running?
                     && node.table.entries[job.request].cancelled;
    var s := Put(s, n, node.(jobs := RemoveAt(node.jobs, k)));
    Queue(s, n, Response(job.requester, JobReply(c, job, cancelled), true), room)
  }

  /** drain_responses takes the oldest reply: send it, then record it. A send that fails for good stops
      the runtime. */
  function DrainOne(c: Config, s: Sys, n: nat, now: nat, ok: bool): Sys
    requires n < |s.nodes| && s.nodes[n].responses != []
  {
    var node := s.nodes[n];
    var response := node.responses[0];
    var node := node.(responses := node.responses[1..]);
    if !ok then Put(s, n, node.(phase := Stopped))
    else
      var s := Post(s, true, Packet(n, response.dest, response.message));
      if !response.cache then Put(s, n, node)
      else
        var (table, answer) := D.Complete(c.limits, node.table, response.message, now);
        if answer.Err? then Put(s, n, node).(fault := true) else Put(s, n, node.(table := table))
  }

  // ----- shutdown and failure

  /** The cancellation that tells the callee of a withdrawn call. */
  function CancelOf(o: nat, r: RequestId, entry: Pending): Packet {
    Packet(o, entry.dest, D.Message(D.Cancel, r, entry.action, entry.domain, []))
  }

  /** Every pending call of `o` is resolved with an error, in some order. On shutdown any of their callees may be told. */
  ghost predicate Drained(s: Sys, t: Sys, o: nat, phase: Phase)
    requires o < |s.nodes|
  {
    var pending := s.nodes[o].pending;
    && !phase.Running? && (s.nodes[o].phase.Stopped? ==> phase.Stopped?)
    && t == Put(s, o, s.nodes[o].(phase := phase, pending := map[])).(resolved := t.resolved, sent := t.sent)
    && s.sent <= t.sent && (phase.Stopped? ==> t.sent == s.sent)
    && (forall p :: p in t.sent && p !in s.sent ==> p.message.request in pending && p == CancelOf(o, p.message.request, pending[p.message.request]))
    && |s.resolved| <= |t.resolved| && t.resolved[..|s.resolved|] == s.resolved
    && (forall k :: |s.resolved| <= k < |t.resolved| ==> t.resolved[k].1 == ShutDown && t.resolved[k].0 in pending)
    && (forall j, k :: |s.resolved| <= j < k < |t.resolved| ==> t.resolved[j].0 != t.resolved[k].0)
    && (forall r :: r in pending ==> exists k :: |s.resolved| <= k < |t.resolved| && t.resolved[k].0 == r)
  }

  // ----- one step

  /** One step of locality `n`, whose clock reads `now`. */
  ghost predicate StepAt(c: Config, s: Sys, t: Sys, n: nat, now: nat)
    requires |s.nodes| == c.localities
  {
    && n < c.localities
    && (|| (exists call: Call, ok: bool ::
              call.dest < c.localities && call.dest != n && s.nodes[n].phase.Running? && t == Spawn(c, s, n, call, ok))
        || (exists r: RequestId, timeout: bool, ok: bool ::
              r in s.nodes[n].pending && t == Withdraw(s, n, r, timeout, ok))
        || (exists p: Packet, accepted: bool, room: bool, text: D.Segments ::
              p in s.sent && p.dest == n && !s.nodes[n].phase.Stopped?
              && t == Deliver(c, s, p, now, accepted, room, text))
        || (exists k: nat, room: bool ::
              !s.nodes[n].phase.Stopped? && k < |s.nodes[n].jobs| && t == RunJob(c, s, n, k, room))
        || (exists ok: bool ::
              !s.nodes[n].phase.Stopped? && s.nodes[n].responses != [] && t == DrainOne(c, s, n, now, ok))
        || t == Put(s, n, s.nodes[n].(table := D.Expire(s.nodes[n].table, now)))
        || (exists phase: Phase :: Drained(s, t, n, phase))
        || (s.nodes[n].phase.Draining? && s.nodes[n].jobs == [] && s.nodes[n].responses == []
            && t == Put(s, n, s.nodes[n].(table := D.Empty, phase := Stopped))))
  }

  /** Any step of any locality, at any time. */
  ghost predicate Step(c: Config, s: Sys, t: Sys)
    requires |s.nodes| == c.localities
  {
    exists n: nat, now: nat :: StepAt(c, s, t, n, now)
  }

  ghost function Deliver(c: Config, s: Sys, p: Packet, now: nat, accepted: bool, room: bool, text: D.Segments): Sys
    requires p.dest < |s.nodes|
  {
    match p.message.kind
    case Request => HandleRequest(c, s, p.dest, p.source, p.message, now, accepted, room, text)
    case Cancel => HandleCancel(c, s, p.dest, p.message, now)
    case _ => Resolve(s, p.dest, p.source, p.message)
  }

  ghost predicate Run(c: Config, states: seq<Sys>) {
    && states != [] && states[0] == Start(c)
    && (forall k :: 0 <= k < |states| ==> |states[k].nodes| == c.localities)
    && forall k :: 0 <= k < |states| - 1 ==> Step(c, states[k], states[k + 1])
  }

  // ----- the invariant

  /** The message, between these two localities, is one the protocol makes for a call that was issued. */
  ghost predicate Proper(c: Config, calls: map<RequestId, Call>, source: nat, dest: nat, m: Message) {
    && m.request in calls
    && m.action == calls[m.request].action && m.domain == calls[m.request].domain
    && !m.kind.Moved?
    && (if m.kind.Request? || m.kind.Cancel? then source == m.request.origin && dest == calls[m.request].dest
        else source == calls[m.request].dest && dest == m.request.origin)
    && (m.kind.Request? ==> m.payload == calls[m.request].payload)
    && (m.kind.Success? ==> c.handler(m.action, calls[m.request].payload) == Ok(m.payload))
  }

  ghost predicate EntryProper(c: Config, calls: map<RequestId, Call>, n: nat, r: RequestId, e: D.Entry) {
    && r in calls && calls[r].dest == n && e.action == calls[r].action && e.domain == calls[r].domain
    && (e.Completed? && e.response.Some? ==>
          var m := D.Message(e.response.value.0, r, e.action, e.domain, e.response.value.1);
          IsReply(m) && Proper(c, calls, n, r.origin, m))
  }

  ghost predicate TableProper(c: Config, calls: map<RequestId, Call>, n: nat, table: D.Table) {
    && D.Valid(c.limits, table)
    && forall r {:trigger r in table.entries} :: r in table.entries ==> EntryProper(c, calls, n, r, table.entries[r])
  }

  /** Request `r` is started and its completion has not been recorded. */
  ghost predicate Open(table: D.Table, r: RequestId) {
    r in table.entries && table.entries[r].Running?
  }

  ghost predicate JobProper(c: Config, calls: map<RequestId, Call>, n: nat, table: D.Table, job: Job) {
    && job.request in calls && job.requester == job.request.origin
    && calls[job.request] == Call(n, job.action, job.domain, job.payload)
    && Open(table, job.request)
  }

  ghost predicate ResponseProper(c: Config, calls: map<RequestId, Call>, n: nat, table: D.Table, response: Response) {
    && IsReply(response.message) && Proper(c, calls, n, response.dest, response.message)
    && D.Bytes(response.message.payload) <= D.USIZE_MAX
    && (response.cache ==> Open(table, response.message.request))
  }

  /** A started request has at most one job or one reply waiting to be recorded. */
  ghost predicate NoDoubles(node: Node) {
    && (forall j, k :: 0 <= j < k < |node.jobs| ==> node.jobs[j].request != node.jobs[k].request)
    && (forall j, k :: 0 <= j < k < |node.responses| && node.responses[j].cache && node.responses[k].cache ==>
          node.responses[j].message.request != node.responses[k].message.request)
    && (forall j, k :: 0 <= j < |node.jobs| && 0 <= k < |node.responses| && node.responses[k].cache ==>
          node.jobs[j].request != node.responses[k].message.request)
  }

  ghost predicate PendingProper(calls: map<RequestId, Call>, o: nat, pending: map<RequestId, Pending>) {
    forall r :: r in pending ==>
      && r in calls && r.origin == o
      && pending[r] == Pending(calls[r].dest, calls[r].action, calls[r].domain)
  }

  ghost predicate NodeProper(c: Config, calls: map<RequestId, Call>, n: nat, node: Node) {
    && TableProper(c, calls, n, node.table)
    && (forall k :: 0 <= k < |node.jobs| ==> JobProper(c, calls, n, node.table, node.jobs[k]))
    && (forall k :: 0 <= k < |node.responses| ==> ResponseProper(c, calls, n, node.table, node.responses[k]))
    && NoDoubles(node)
    && PendingProper(calls, n, node.pending)
    && (forall r :: r in calls && r.origin == n ==> r.sequence < node.nextSequence)
  }

  /** Each call resolves at most once, never while pending, and a success is the handler's own output. */
  ghost predicate ResolvedOnce(c: Config, s: Sys) {
    && (forall j, k :: 0 <= j < k < |s.resolved| ==> s.resolved[j].0 != s.resolved[k].0)
    && (forall k :: 0 <= k < |s.resolved| ==>
          && s.resolved[k].0 in s.calls && s.resolved[k].0.origin < |s.nodes|
          && s.resolved[k].0 !in s.nodes[s.resolved[k].0.origin].pending
          && (s.resolved[k].1.Success? ==>
                var call := s.calls[s.resolved[k].0];
                c.handler(call.action, call.payload) == Ok(s.resolved[k].1.payload)))
  }

  ghost predicate Inv(c: Config, s: Sys) {
    && |s.nodes| == c.localities && !s.fault
    && (forall r {:trigger r in s.calls} :: r in s.calls ==> r.origin < c.localities)
    && (forall p {:trigger p in s.sent} :: p in s.sent ==> Proper(c, s.calls, p.source, p.dest, p.message))
    && (forall n: nat {:trigger NodeProper(c, s.calls, n, s.nodes[n])} :: n < c.localities ==> NodeProper(c, s.calls, n, s.nodes[n]))
    && ResolvedOnce(c, s)
  }
}
