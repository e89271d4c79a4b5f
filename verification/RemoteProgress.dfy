/** What each message achieves when nothing is in its way: a request runs and is answered, its duplicates are replayed,
  and a cancellation that overtakes it keeps it from running. */
module RemoteProgress {
  import opened Wrappers
  import D = Dedup
  import DR = DedupRuns
  import DA = DedupAnswers
  import opened RemoteCalls
  import opened RemoteCallsProofs

  /** Node `n` has queued exactly this reply, and otherwise only its table may have changed. */
  ghost predicate Queued(s: Sys, t: Sys, n: nat, dest: nat, m: Message, cache: bool) {
    && n < |s.nodes| == |t.nodes|
    && t == s.(nodes := t.nodes)
    && t.nodes == s.nodes[n := s.nodes[n].(table := t.nodes[n].table, responses := s.nodes[n].responses + [Response(dest, m, cache)])]
  }

  /** Node `n` has changed its table at most. */
  ghost predicate Silent(s: Sys, t: Sys, n: nat) {
    && n < |s.nodes| == |t.nodes|
    && t == s.(nodes := t.nodes) && t.nodes == s.nodes[n := s.nodes[n].(table := t.nodes[n].table)]
  }

  /** The record of `r` that a call at time `now` still sees. */
  ghost function Seen(table: D.Table, r: RequestId, now: nat): Option<D.Entry> {
    if r in DA.Live(table, now) then Some(table.entries[r]) else None
  }

  ghost predicate Fresh(table: D.Table, r: RequestId, action: nat, domain: nat) {
    r in table.entries && table.entries[r] == D.Running(action, domain, false)
  }

  /** What the table tells a request whose record, if it has one, has this action and domain. */
  lemma Told(l: D.Limits, table: D.Table, r: RequestId, action: nat, domain: nat, now: nat)
    requires D.Valid(l, table)
    requires r in table.entries ==> table.entries[r].action == action && table.entries[r].domain == domain
    ensures D.Begin(l, table, r, action, domain, now).1
            == match Seen(table, r, now)
               case None => if |DA.Live(table, now)| < l.maxEntries then Ok(D.New) else Err(D.TooManyEntries)
               case Some(Running(_, _, _)) => Ok(D.AlreadyRunning)
               case Some(Completed(_, _, Some((kind, payload)), _, _)) =>
                 if kind.Moved? then Ok(D.AlreadyRunning) else Ok(D.Replay(D.Message(kind, r, action, domain, payload)))
               case Some(Completed(_, _, None, _, _)) =>
                 Ok(D.Unavailable(D.Message(D.DuplicateResultUnavailable, r, action, domain, [])))
               case Some(Tombstone(_, _, _)) => Ok(D.WasCancelled(D.Message(D.Cancelled, r, action, domain, [])))
    ensures Seen(table, r, now) == None && |DA.Live(table, now)| < l.maxEntries ==>
              Fresh(D.Begin(l, table, r, action, domain, now).0, r, action, domain)
  {
    D.ExpireKeeps(l, table, now);
    DA.LiveIsExpired(l, table, now);
  }

  /** What the copy of a request does at its callee `n`, given the record it finds. */
  ghost predicate Handled(c: Config, s: Sys, t: Sys, n: nat, source: nat, m: Message, now: nat, accepted: bool, text: D.Segments)
    requires n < |s.nodes|
  {
    var table := s.nodes[n].table;
    var refusal := D.Message(D.Failure, m.request, m.action, m.domain, text);
    match Seen(table, m.request, now)
    case None =>
      if |DA.Live(table, now)| >= c.limits.maxEntries then Queued(s, t, n, source, refusal, false)
      else if !c.known(m.action) || !accepted then Queued(s, t, n, source, refusal, true)
      else JobAdded(s, t, n, Job(source, m.request, m.action, m.domain, m.payload))
    case Some(Running(_, _, _)) => Silent(s, t, n)
    case Some(Completed(_, _, Some((kind, payload)), _, _)) =>
      D.Bytes(payload) <= D.USIZE_MAX ==> Queued(s, t, n, source, D.Message(kind, m.request, m.action, m.domain, payload), false)
    case Some(Completed(_, _, None, _, _)) =>
      Queued(s, t, n, source, D.Message(D.DuplicateResultUnavailable, m.request, m.action, m.domain, []), false)
    case Some(Tombstone(_, _, _)) => Queued(s, t, n, source, D.Message(D.Cancelled, m.request, m.action, m.domain, []), false)
  }

  /** Node `n` has queued this job, and its request is open and not cancelled. */
  ghost predicate JobAdded(s: Sys, t: Sys, n: nat, job: Job) {
    && n < |s.nodes| == |t.nodes| && Fresh(t.nodes[n].table, job.request, job.action, job.domain)
    && t == s.(nodes := t.nodes)
    && t.nodes == s.nodes[n := s.nodes[n].(table := t.nodes[n].table, jobs := s.nodes[n].jobs + [job])]
  }

  lemma QueueQueues(s: Sys, n: nat, table: D.Table, dest: nat, m: Message, cache: bool)
    requires n < |s.nodes| && D.Bytes(m.payload) <= D.USIZE_MAX
    ensures Queued(s, Queue(Put(s, n, s.nodes[n].(table := table)), n, Response(dest, m, cache), true), n, dest, m, cache)
  {
  }

  /** The callee's record of the request, if there is one, agrees with it. */
  ghost predicate Agrees(table: D.Table, m: Message) {
    m.request in table.entries ==>
      var e := table.entries[m.request];
      e.action == m.action && e.domain == m.domain && !D.IsMoved(e)
  }

  lemma FirstIsHandled(c: Config, s: Sys, n: nat, source: nat, m: Message, now: nat, accepted: bool, text: D.Segments)
    requires n < |s.nodes| && s.nodes[n].phase.Running? && D.Valid(c.limits, s.nodes[n].table)
    requires Agrees(s.nodes[n].table, m) && D.Bytes(text) <= D.USIZE_MAX && Seen(s.nodes[n].table, m.request, now).None?
    ensures Handled(c, s, HandleRequest(c, s, n, source, m, now, accepted, true, text), n, source, m, now, accepted, text)
  {
    var table := D.Begin(c.limits, s.nodes[n].table, m.request, m.action, m.domain, now).0;
    var refusal := D.Message(D.Failure, m.request, m.action, m.domain, text);
    Told(c.limits, s.nodes[n].table, m.request, m.action, m.domain, now);
    QueueQueues(s, n, table, source, refusal, false);
    QueueQueues(s, n, table, source, refusal, true);
  }

  lemma AnswerIsHandled(c: Config, s: Sys, n: nat, source: nat, m: Message, now: nat, accepted: bool, text: D.Segments)
    requires n < |s.nodes| && s.nodes[n].phase.Running? && D.Valid(c.limits, s.nodes[n].table)
    requires Agrees(s.nodes[n].table, m) && D.Bytes(text) <= D.USIZE_MAX
    ensures Handled(c, s, HandleRequest(c, s, n, source, m, now, accepted, true, text), n, source, m, now, accepted, text)
  {
    var table := D.Begin(c.limits, s.nodes[n].table, m.request, m.action, m.domain, now).0;
    match Seen(s.nodes[n].table, m.request, now)
    case None =>
      FirstIsHandled(c, s, n, source, m, now, accepted, text);
    case Some(e) =>
      Told(c.limits, s.nodes[n].table, m.request, m.action, m.domain, now);
      if e.Tombstone? {
        QueueQueues(s, n, table, source, D.Message(D.Cancelled, m.request, m.action, m.domain, []), false);
      } else if e.Completed? && e.response.None? {
        QueueQueues(s, n, table, source, D.Message(D.DuplicateResultUnavailable, m.request, m.action, m.domain, []), false);
      } else if e.Completed? && D.Bytes(e.response.value.1) <= D.USIZE_MAX {
        QueueQueues(s, n, table, source, D.Message(e.response.value.0, m.request, m.action, m.domain, e.response.value.1), false);
      }
  }

  /** What every copy of every request does in every run, when there is room for a reply: a first copy becomes a job or a
      recorded refusal, a running one is left alone, and any other is answered with what is recorded; a callee that is
      not running refuses. */
  lemma RequestIsHandled(c: Config, states: seq<Sys>, i: nat, p: Packet, now: nat, accepted: bool, text: D.Segments)
    requires Run(c, states) && i < |states| && p in states[i].sent && p.dest < c.localities && p.message.kind.Request?
    requires D.Bytes(text) <= D.USIZE_MAX
    ensures var (s, n, m) := (states[i], p.dest, p.message);
            var t := Deliver(c, s, p, now, accepted, true, text);
            n < |s.nodes| &&
            if s.nodes[n].phase.Running? then Handled(c, s, t, n, p.source, m, now, accepted, text)
            else Queued(s, t, n, p.source, D.Message(D.Failure, m.request, m.action, m.domain, text), false)
                 && t.nodes[n].table == s.nodes[n].table
  {
    RunInv(c, states, i);
    ProperIsHandled(c, states[i], p, now, accepted, text);
  }

  lemma ProperIsHandled(c: Config, s: Sys, p: Packet, now: nat, accepted: bool, text: D.Segments)
    requires Inv(c, s) && p in s.sent && p.dest < c.localities && p.message.kind.Request?
    requires D.Bytes(text) <= D.USIZE_MAX
    ensures var (n, m) := (p.dest, p.message);
            var t := Deliver(c, s, p, now, accepted, true, text);
            if s.nodes[n].phase.Running? then Handled(c, s, t, n, p.source, m, now, accepted, text)
            else Queued(s, t, n, p.source, D.Message(D.Failure, m.request, m.action, m.domain, text), false)
                 && t.nodes[n].table == s.nodes[n].table
  {
    var n, m := p.dest, p.message;
    assert NodeProper(c, s.calls, n, s.nodes[n]);
    assert Proper(c, s.calls, p.source, n, m);
    if m.request in s.nodes[n].table.entries {
      assert EntryProper(c, s.calls, n, m.request, s.nodes[n].table.entries[m.request]);
    }
    if s.nodes[n].phase.Running? { AnswerIsHandled(c, s, n, p.source, m, now, accepted, text); }
  }

  // ----- one call from its issue to its result

  /** The reply of the handler to this call. */
  function HandlerReply(c: Config, r: RequestId, call: Call): Message {
    match c.handler(call.action, call.payload)
    case Ok(v) => D.Message(D.Success, r, call.action, call.domain, v)
    case Err(text) => D.Message(D.Failure, r, call.action, call.domain, text)
  }

  /** The call was issued: it is pending under a new id and its request is on its way. */
  ghost predicate Issued(s: Sys, t: Sys, r: RequestId, call: Call) {
    var o := r.origin;
    && o < |s.nodes| == |t.nodes| && r !in s.calls
    && t.calls == s.calls[r := call] && t.resolved == s.resolved && t.fault == s.fault
    && t.sent == s.sent + {Packet(o, call.dest, D.Message(D.Request, r, call.action, call.domain, call.payload))}
    && t.nodes == s.nodes[o := s.nodes[o].(nextSequence := t.nodes[o].nextSequence,
                                           pending := s.nodes[o].pending[r := Pending(call.dest, call.action, call.domain)])]
  }

  lemma CallIsIssued(c: Config, s: Sys, o: nat, call: Call) returns (r: RequestId)
    requires Inv(c, s) && o < c.localities && |s.nodes[o].pending| < c.maxPending
    ensures r.origin == o && Issued(s, Spawn(c, s, o, call, true), r, call)
  {
    assert NodeProper(c, s.calls, o, s.nodes[o]);
    r := D.RequestId(o, s.nodes[o].nextSequence);
  }

  /** A call that finds the pending table full, or that cannot be sent, leaves no trace but its number. */
  lemma RefusedCallLeavesNothing(c: Config, s: Sys, o: nat, call: Call, ok: bool)
    requires o < |s.nodes| && (|s.nodes[o].pending| >= c.maxPending || !ok)
    ensures var t := Spawn(c, s, o, call, ok);
            t == s.(nodes := s.nodes[o := s.nodes[o].(nextSequence := s.nodes[o].nextSequence + 1)])
  {
  }

  /** A job that is not cancelled queues the handler's reply. */
  lemma FreshJobRuns(c: Config, s: Sys, n: nat, job: Job)
    requires n < |s.nodes| && s.nodes[n].jobs != [] && s.nodes[n].jobs[|s.nodes[n].jobs| - 1] == job
    requires Fresh(s.nodes[n].table, job.request, job.action, job.domain)
    requires D.Bytes(HandlerReply(c, job.request, Call(n, job.action, job.domain, job.payload)).payload) <= D.USIZE_MAX
    ensures var k := |s.nodes[n].jobs| - 1;
            var reply := HandlerReply(c, job.request, Call(n, job.action, job.domain, job.payload));
            RunJob(c, s, n, k, true)
            == Put(s, n, s.nodes[n].(jobs := s.nodes[n].jobs[..k], responses := s.nodes[n].responses + [Response(job.requester, reply, true)]))
  {
    assert RemoveAt(s.nodes[n].jobs, |s.nodes[n].jobs| - 1) == s.nodes[n].jobs[..|s.nodes[n].jobs| - 1];
  }

  /** The first reply in the queue is sent and, if it is the request's own, recorded; a send that fails for good stops
      the node and sends nothing. */
  lemma ReplyIsSent(c: Config, s: Sys, n: nat, now: nat)
    requires Inv(c, s) && n < c.localities && s.nodes[n].responses != []
    ensures var response := s.nodes[n].responses[0];
            var t := DrainOne(c, s, n, now, true);
            && n < |t.nodes| && t == s.(nodes := t.nodes, sent := s.sent + {Packet(n, response.dest, response.message)})
            && t.nodes == s.nodes[n := s.nodes[n].(table := t.nodes[n].table, responses := s.nodes[n].responses[1..])]
            && if response.cache then Recorded(c, s.nodes[n].table, t.nodes[n].table, response.message, now)
               else t.nodes[n].table == s.nodes[n].table
    ensures var t := DrainOne(c, s, n, now, false);
            && n < |t.nodes| && t == s.(nodes := t.nodes) && t.nodes[n].phase.Stopped?
  {
    var response := s.nodes[n].responses[0];
    assert NodeProper(c, s.calls, n, s.nodes[n]);
    assert ResponseProper(c, s.calls, n, s.nodes[n].table, response);
    if response.cache { CompleteOpens(c, s.calls, n, s.nodes[n].table, response.message, now); }
  }

  /** The reply is recorded under its request until its time to live is over, with its payload if there is room. */
  ghost predicate Recorded(c: Config, before: D.Table, after: D.Table, m: Message, now: nat) {
    && m.request in after.entries
    && after.entries[m.request]
       == if before.retained + D.Bytes(m.payload) <= c.limits.maxBytes
          then D.Completed(m.action, m.domain, Some((m.kind, m.payload)), D.Bytes(m.payload), now + c.limits.ttl)
          else D.Completed(m.action, m.domain, None, 0, now + c.limits.ttl)
  }

  /** The call has its result; nothing else is pending, logged or stopped that was not before. */
  ghost predicate Answered(c: Config, s: Sys, t: Sys, o: nat, d: nat, call: Call) {
    && o < |s.nodes| == |t.nodes| && d < |s.nodes|
    && |t.resolved| == |s.resolved| + 1 && t.resolved[..|s.resolved|] == s.resolved
    && (match c.handler(call.action, call.payload)
        case Ok(v) => t.resolved[|s.resolved|].1 == Success(v)
        case Err(text) => t.resolved[|s.resolved|].1 == Failed(text))
    && t.calls == s.calls[t.resolved[|s.resolved|].0 := call] && t.resolved[|s.resolved|].0 !in s.calls
    && t.nodes[o].pending == s.nodes[o].pending - {t.resolved[|s.resolved|].0} && t.nodes[o].phase == s.nodes[o].phase
    && t.nodes[d].jobs == s.nodes[d].jobs && t.nodes[d].responses == [] && t.nodes[d].phase == s.nodes[d].phase
  }

  /** Issue and arrival: the callee has a job for the call. */
  lemma CallArrives(c: Config, s: Sys, o: nat, call: Call, now: nat, text: D.Segments) returns (r: RequestId, s1: Sys, s2: Sys)
    requires Inv(c, s) && o < c.localities && call.dest < c.localities && call.dest != o
    requires s.nodes[o].phase.Running? && s.nodes[call.dest].phase.Running? && c.known(call.action)
    requires |s.nodes[o].pending| < c.maxPending && |DA.Live(s.nodes[call.dest].table, now)| < c.limits.maxEntries
    requires D.Bytes(text) <= D.USIZE_MAX
    ensures Inv(c, s1) && Inv(c, s2) && StepAt(c, s, s1, o, now) && StepAt(c, s1, s2, call.dest, now)
    ensures r.origin == o && Issued(s, s1, r, call)
    ensures JobAdded(s1, s2, call.dest, Job(o, r, call.action, call.domain, call.payload))
  {
    var d := call.dest;
    s1 := Spawn(c, s, o, call, true);
    r := CallIsIssued(c, s, o, call);
    SpawnStep(c, s, o, call, true);
    var p := Packet(o, d, D.Message(D.Request, r, call.action, call.domain, call.payload));
    s2 := Deliver(c, s1, p, now, true, true, text);
    RequestStep(c, s1, p, now, true, true, text);
    ProperIsHandled(c, s1, p, now, true, text);
    KnownWasIssued(c, s, d, r);
  }

  lemma KnownWasIssued(c: Config, s: Sys, n: nat, r: RequestId)
    requires Inv(c, s) && n < c.localities
    ensures r in s.nodes[n].table.entries ==> r in s.calls
  {
    assert NodeProper(c, s.calls, n, s.nodes[n]);
    if r in s.nodes[n].table.entries { assert EntryProper(c, s.calls, n, r, s.nodes[n].table.entries[r]); }
  }

  /** The last job of an otherwise idle node runs, and its reply is sent. */
  lemma JobIsServed(c: Config, s: Sys, d: nat, job: Job, now: nat) returns (s1: Sys, s2: Sys)
    requires Inv(c, s) && d < c.localities && !s.nodes[d].phase.Stopped? && s.nodes[d].responses == []
    requires s.nodes[d].jobs != [] && s.nodes[d].jobs[|s.nodes[d].jobs| - 1] == job
    requires Fresh(s.nodes[d].table, job.request, job.action, job.domain)
    requires D.Bytes(HandlerReply(c, job.request, Call(d, job.action, job.domain, job.payload)).payload) <= D.USIZE_MAX
    ensures Inv(c, s1) && Inv(c, s2) && StepAt(c, s, s1, d, now) && StepAt(c, s1, s2, d, now)
    ensures Served(c, s, s2, d, job)
  {
    var k := |s.nodes[d].jobs| - 1;
    s1 := RunJob(c, s, d, k, true);
    FreshJobRuns(c, s, d, job);
    RunJobStep(c, s, d, k, true);
    s2 := DrainOne(c, s1, d, now, true);
    ReplyIsSent(c, s1, d, now);
    DrainOneStep(c, s1, d, now, true);
    assert s1.nodes[d].responses[1..] == [];
  }

  /** The job is gone, its reply is on its way, and the rest is as it was. */
  ghost predicate Served(c: Config, s: Sys, t: Sys, d: nat, job: Job) {
    && d < |s.nodes| && s.nodes[d].jobs != [] && s.nodes[d].jobs[|s.nodes[d].jobs| - 1] == job && d < |t.nodes|
    && t == s.(nodes := t.nodes, sent := s.sent + {Packet(d, job.requester, HandlerReply(c, job.request, Call(d, job.action, job.domain, job.payload)))})
    && t.nodes == s.nodes[d := s.nodes[d].(table := t.nodes[d].table, jobs := s.nodes[d].jobs[..|s.nodes[d].jobs| - 1])]
  }

  lemma ReplyArrives(c: Config, s: Sys, s1: Sys, s2: Sys, s4: Sys, r: RequestId, call: Call)
    requires Issued(s, s1, r, call) && r.origin != call.dest < |s.nodes| && s.nodes[call.dest].responses == []
    requires var job := Job(r.origin, r, call.action, call.domain, call.payload);
             JobAdded(s1, s2, call.dest, job) && Served(c, s2, s4, call.dest, job)
    requires |s.nodes| == c.localities && s.nodes[r.origin].phase.Running?
    ensures var t := Resolve(s4, r.origin, call.dest, HandlerReply(c, r, call));
            Answered(c, s, t, r.origin, call.dest, call) && |s4.nodes| == c.localities && Step(c, s4, t)
  {
    var o, d := r.origin, call.dest;
    var q := Packet(d, o, HandlerReply(c, r, call));
    assert StepAt(c, s4, Deliver(c, s4, q, 0, true, true, []), o, 0);
    var t := Resolve(s4, o, d, HandlerReply(c, r, call));
    assert s4.nodes[o].pending == s.nodes[o].pending[r := Pending(d, call.action, call.domain)];
    assert s2.nodes[d].jobs[..|s2.nodes[d].jobs| - 1] == s.nodes[d].jobs;
    assert t.nodes[o].pending == s.nodes[o].pending[r := Pending(d, call.action, call.domain)] - {r};
  }

  lemma IdleCallCompletes(c: Config, s: Sys, o: nat, call: Call, now: nat) returns (s1: Sys, s2: Sys, s3: Sys, s4: Sys, s5: Sys)
    requires Inv(c, s) && o < c.localities && call.dest < c.localities && call.dest != o
    requires s.nodes[o].phase.Running? && s.nodes[call.dest].phase.Running? && c.known(call.action)
    requires |s.nodes[o].pending| < c.maxPending
    requires |DA.Live(s.nodes[call.dest].table, now)| < c.limits.maxEntries
    requires s.nodes[call.dest].responses == []
    requires D.Bytes(HandlerReply(c, D.RequestId(0, 0), call).payload) <= D.USIZE_MAX
    ensures |s1.nodes| == |s2.nodes| == |s3.nodes| == |s4.nodes| == c.localities
    ensures Step(c, s, s1) && Step(c, s1, s2) && Step(c, s2, s3) && Step(c, s3, s4) && Step(c, s4, s5)
    ensures Answered(c, s, s5, o, call.dest, call)
  {
    var r: RequestId;
    r, s1, s2 := CallArrives(c, s, o, call, now, []);
    s3, s4 := JobIsServed(c, s2, call.dest, Job(o, r, call.action, call.domain, call.payload), now);
    s5 := Resolve(s4, o, call.dest, HandlerReply(c, r, call));
    ReplyArrives(c, s, s1, s2, s4, r, call);
  }

  /** With two idle nodes and a network that delivers, a call of a known action completes with exactly what the handler
      says about its payload: from any state of any run, five more steps do so. */
  lemma CallCompletes(c: Config, states: seq<Sys>, i: nat, o: nat, call: Call, now: nat)
    requires Run(c, states) && i < |states| && o < c.localities && call.dest < c.localities && call.dest != o
    requires states[i].nodes[o].phase.Running? && states[i].nodes[call.dest].phase.Running? && c.known(call.action)
    requires |states[i].nodes[o].pending| < c.maxPending
    requires |DA.Live(states[i].nodes[call.dest].table, now)| < c.limits.maxEntries
    requires states[i].nodes[call.dest].responses == []
    requires D.Bytes(HandlerReply(c, D.RequestId(0, 0), call).payload) <= D.USIZE_MAX
    ensures exists t :: Reaches(c, states[i], t, 5) && Answered(c, states[i], t, o, call.dest, call)
  {
    RunInv(c, states, i);
    var s1, s2, s3, s4, s5 := IdleCallCompletes(c, states[i], o, call, now);
    FiveSteps(c, states[i], s1, s2, s3, s4, s5);
  }

  ghost predicate Reaches(c: Config, s: Sys, t: Sys, n: nat)
    decreases n
  {
    if n == 0 then s == t
    else |s.nodes| == c.localities && exists u :: Step(c, s, u) && Reaches(c, u, t, n - 1)
  }

  lemma FiveSteps(c: Config, s: Sys, s1: Sys, s2: Sys, s3: Sys, s4: Sys, s5: Sys)
    requires |s.nodes| == |s1.nodes| == |s2.nodes| == |s3.nodes| == |s4.nodes| == c.localities
    requires Step(c, s, s1) && Step(c, s1, s2) && Step(c, s2, s3) && Step(c, s3, s4) && Step(c, s4, s5)
    ensures Reaches(c, s, s5, 5)
  {
    assert Reaches(c, s4, s5, 1) by { assert Reaches(c, s5, s5, 0); }
    assert Reaches(c, s3, s5, 2);
    assert Reaches(c, s2, s5, 3);
    assert Reaches(c, s1, s5, 4);
  }

  // ----- a call that is withdrawn

  /** A caller that gives up, or whose deadline has come, logs a timeout only in the second case, waits no longer, and
      tells the callee if it can. */
  lemma WithdrawalIsTold(c: Config, states: seq<Sys>, i: nat, o: nat, r: RequestId, timeout: bool, ok: bool)
    requires Run(c, states) && i < |states| && o < c.localities && r in states[i].nodes[o].pending
    ensures r in states[i].calls
    ensures var (s, t, call) := (states[i], Withdraw(states[i], o, r, timeout, ok), states[i].calls[r]);
            && t.resolved == s.resolved + (if timeout then [(r, TimedOut)] else [])
            && t.sent == s.sent + (if ok then {Packet(o, call.dest, D.Message(D.Cancel, r, call.action, call.domain, []))} else {})
            && t.nodes == s.nodes[o := s.nodes[o].(pending := s.nodes[o].pending - {r})]
  {
    RunInv(c, states, i);
    assert NodeProper(c, states[i].calls, o, states[i].nodes[o]);
  }

  /** A cancellation that reaches the callee before its request, and finds room, keeps the request from running for the
      time to live: the request is answered as cancelled and makes no job. */
  lemma OvertakenRequestIsRefused(c: Config, states: seq<Sys>, i: nat, p: Packet, q: Packet, now: nat, later: nat, accepted: bool, text: D.Segments)
    requires Run(c, states) && i < |states| && p in states[i].sent && q in states[i].sent && p.dest == q.dest < c.localities
    requires p.message.kind.Cancel? && q.message.kind.Request? && p.message.request == q.message.request
    requires states[i].nodes[p.dest].phase.Running? && D.Bytes(text) <= D.USIZE_MAX
    requires var table := states[i].nodes[p.dest].table;
             Seen(table, p.message.request, now) == None && |DA.Live(table, now)| < c.limits.maxEntries
    requires now <= later < now + c.limits.ttl
    ensures var (n, m) := (q.dest, q.message);
            var s := Deliver(c, states[i], p, now, true, true, []);
            n < |s.nodes| &&
            Queued(s, Deliver(c, s, q, later, accepted, true, text), n, q.source, D.Message(D.Cancelled, m.request, m.action, m.domain, []), false)
  {
    RunInv(c, states, i);
    BuriedIsRefused(c, states[i], p, q, now, later, accepted, text);
  }

  lemma BuriedIsRefused(c: Config, s: Sys, p: Packet, q: Packet, now: nat, later: nat, accepted: bool, text: D.Segments)
    requires Inv(c, s) && p in s.sent && q in s.sent && p.dest == q.dest < c.localities
    requires p.message.kind.Cancel? && q.message.kind.Request? && p.message.request == q.message.request
    requires s.nodes[p.dest].phase.Running? && D.Bytes(text) <= D.USIZE_MAX
    requires var table := s.nodes[p.dest].table;
             Seen(table, p.message.request, now) == None && |DA.Live(table, now)| < c.limits.maxEntries
    requires now <= later < now + c.limits.ttl
    ensures var (n, m) := (q.dest, q.message);
            var t := HandleCancel(c, s, n, p.message, now);
            n < |t.nodes| &&
            Queued(t, Deliver(c, t, q, later, accepted, true, text), n, q.source, D.Message(D.Cancelled, m.request, m.action, m.domain, []), false)
  {
    var t, n, r := HandleCancel(c, s, p.dest, p.message, now), p.dest, p.message.request;
    assert D.Valid(c.limits, s.nodes[n].table) by { assert NodeProper(c, s.calls, n, s.nodes[n]); }
    DA.LiveIsExpired(c.limits, s.nodes[n].table, now);
    assert Seen(t.nodes[n].table, r, later) == Some(D.Tombstone(p.message.action, p.message.domain, now + c.limits.ttl));
    CancelStep(c, s, p, now);
    ProperIsHandled(c, t, q, later, accepted, text);
  }
}
