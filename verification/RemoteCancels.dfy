/** What a callee's job replies, and what the cancellation of a call does to it. */
module RemoteCancels {
  import opened Wrappers
  import D = Dedup
  import DR = DedupRuns
  import DA = DedupAnswers
  import opened RemoteCalls
  import opened RemoteCallsProofs
  import opened RemoteExecutions
  import opened RemoteOutcomes

  // ----- every mark of a cancellation goes back to one that was sent

  ghost predicate CancelSent(sent: set<Packet>, r: RequestId) {
    exists p :: p in sent && p.message.kind.Cancel? && p.message.request == r
  }

  /** The record tells that its request was cancelled. */
  predicate Marked(e: D.Entry) {
    match e
    case Running(_, _, cancelled) => cancelled
    case Completed(_, _, response, _, _) => response.Some? && response.value.0.Cancelled?
    case Tombstone(_, _, _) => true
  }

  ghost predicate TableTrail(sent: set<Packet>, table: D.Table) {
    forall r :: r in table.entries && Marked(table.entries[r]) ==> CancelSent(sent, r)
  }

  ghost predicate QueueTrail(sent: set<Packet>, responses: seq<Response>) {
    forall k :: 0 <= k < |responses| && responses[k].message.kind.Cancelled? ==> CancelSent(sent, responses[k].message.request)
  }

  ghost predicate NodeTrail(sent: set<Packet>, node: Node) {
    TableTrail(sent, node.table) && QueueTrail(sent, node.responses)
  }

  ghost predicate Trail(s: Sys) {
    && (forall p :: p in s.sent && p.message.kind.Cancelled? ==> CancelSent(s.sent, p.message.request))
    && (forall p :: p in s.sent && p.message.kind.Cancel? ==>
          p.message.request.origin < |s.nodes| && p.message.request !in s.nodes[p.message.request.origin].pending)
    && (forall n :: 0 <= n < |s.nodes| ==> NodeTrail(s.sent, s.nodes[n]))
    && (forall i :: 0 <= i < |s.resolved| ==> s.resolved[i].1 != Outcome.Cancelled)
  }

  // ----- steps of a callee

  /** A step that touches neither the network nor the promises. */
  ghost predicate Inside(s: Sys, t: Sys, n: nat) {
    n < |s.nodes| && Local(s, t, n) && t.sent == s.sent && t.resolved == s.resolved
    && t.nodes[n].pending == s.nodes[n].pending
  }

  lemma InsideTrail(s: Sys, t: Sys, n: nat)
    requires Trail(s) && Inside(s, t, n) && NodeTrail(s.sent, t.nodes[n])
    ensures Trail(t)
  {
    forall m | 0 <= m < |t.nodes| ensures NodeTrail(t.sent, t.nodes[m]) {
      if m != n { assert t.nodes[m] == s.nodes[m]; }
    }
  }

  lemma QueueInside(s: Sys, n: nat, response: Response, room: bool)
    requires n < |s.nodes| && NodeTrail(s.sent, s.nodes[n])
    requires response.message.kind.Cancelled? ==> CancelSent(s.sent, response.message.request)
    ensures Inside(s, Queue(s, n, response, room), n) && NodeTrail(s.sent, Queue(s, n, response, room).nodes[n])
  {
  }

  /** A mark on a record is old, or comes from the cancellation or the Cancelled reply that the call carries. */
  lemma MarkOrigin(l: D.Limits, table: D.Table, call: DR.Call, r: RequestId)
    requires D.Valid(l, table)
    ensures var after := DR.After(l, table, call);
            r in after.entries && Marked(after.entries[r]) ==>
              || (r in table.entries && Marked(table.entries[r]))
              || (call.op.CancelOp? && call.op.r == r)
              || (call.op.CompleteOp? && call.op.m.request == r && call.op.m.kind.Cancelled?)
  {
    D.ExpireKeeps(l, table, call.now);
  }

  lemma CallMarks(l: D.Limits, table: D.Table, call: DR.Call, sent: set<Packet>)
    requires D.Valid(l, table) && TableTrail(sent, table)
    requires call.op.CancelOp? ==> CancelSent(sent, call.op.r)
    requires call.op.CompleteOp? && call.op.m.kind.Cancelled? ==> CancelSent(sent, call.op.m.request)
    ensures TableTrail(sent, DR.After(l, table, call))
  {
    forall r | r in DR.After(l, table, call).entries && Marked(DR.After(l, table, call).entries[r]) ensures CancelSent(sent, r) {
      MarkOrigin(l, table, call, r);
    }
  }

  /** Only a marked record answers a duplicate with a Cancelled reply. */
  lemma CancelledAnswer(l: D.Limits, table: D.Table, r: RequestId, action: nat, domain: nat, now: nat, sent: set<Packet>)
    requires D.Valid(l, table) && TableTrail(sent, table)
    ensures match D.Begin(l, table, r, action, domain, now).1
            case Ok(Replay(m)) => m.request == r && (m.kind.Cancelled? ==> CancelSent(sent, r))
            case Ok(Unavailable(m)) => m.kind == D.DuplicateResultUnavailable
            case Ok(WasCancelled(m)) => m.request == r && CancelSent(sent, r)
            case _ => true
  {
    D.ExpireKeeps(l, table, now);
  }

  lemma RequestTrail(c: Config, s: Sys, n: nat, source: nat, m: Message, now: nat, accepted: bool, room: bool, text: D.Segments)
    requires n < |s.nodes| && NodeTrail(s.sent, s.nodes[n]) && D.Valid(c.limits, s.nodes[n].table)
    ensures var t := HandleRequest(c, s, n, source, m, now, accepted, room, text);
            Inside(s, t, n) && NodeTrail(s.sent, t.nodes[n])
  {
    if !s.nodes[n].phase.Running? {
      QueueInside(s, n, Response(source, FailureReply(m, text), false), room);
    } else {
      CallMarks(c.limits, s.nodes[n].table, DR.Call(DR.BeginOp(m.request, m.action, m.domain), now), s.sent);
      CancelledAnswer(c.limits, s.nodes[n].table, m.request, m.action, m.domain, now, s.sent);
      var (table, answer) := D.Begin(c.limits, s.nodes[n].table, m.request, m.action, m.domain, now);
      var s1 := Put(s, n, s.nodes[n].(table := table));
      assert Inside(s, s1, n) && NodeTrail(s.sent, s1.nodes[n]);
      match answer
      case Err(error) =>
        QueueInside(s1.(fault := s1.fault || error.ChangedMetadata?), n, Response(source, FailureReply(m, text), false), room);
      case Ok(New) =>
        if !(c.known(m.action) && accepted) { QueueInside(s1, n, Response(source, FailureReply(m, text), true), room); }
      case Ok(AlreadyRunning) =>
      case Ok(Replay(reply)) => QueueInside(s1, n, Response(source, reply, false), room);
      case Ok(Unavailable(reply)) => QueueInside(s1, n, Response(source, reply, false), room);
      case Ok(WasCancelled(reply)) => QueueInside(s1, n, Response(source, reply, false), room);
    }
  }

  lemma RunJobTrail(c: Config, s: Sys, n: nat, k: nat, room: bool)
    requires n < |s.nodes| && k < |s.nodes[n].jobs| && NodeTrail(s.sent, s.nodes[n])
    ensures Inside(s, RunJob(c, s, n, k, room), n) && NodeTrail(s.sent, RunJob(c, s, n, k, room).nodes[n])
  {
    var node := s.nodes[n];
    var job := node.jobs[k];
    var cancelled := job.request in node.table.entries && node.table.entries[job.request].Running?
                     && node.table.entries[job.request].cancelled;
    var s1 := Put(s, n, node.(jobs := RemoveAt(node.jobs, k)));
    QueueInside(s1, n, Response(job.requester, JobReply(c, job, cancelled), true), room);
  }

  // ----- steps that send

  /** Node `n` may have sent packets; the promises may have grown by results that are not Cancelled. */
  lemma OutsideTrail(s: Sys, t: Sys, n: nat)
    requires Trail(s) && n < |s.nodes| && Local(s, t, n) && s.sent <= t.sent && NodeTrail(s.sent, t.nodes[n])
    requires forall p :: p in t.sent && p !in s.sent && p.message.kind.Cancelled? ==> CancelSent(s.sent, p.message.request)
    requires forall p :: p in t.sent && p !in s.sent && p.message.kind.Cancel? ==>
               p.message.request.origin == n && p.message.request !in t.nodes[n].pending
    requires forall r :: r in t.nodes[n].pending && r !in s.nodes[n].pending ==> !CancelSent(s.sent, r)
    requires forall i :: 0 <= i < |t.resolved| ==> t.resolved[i].1 != Outcome.Cancelled
    ensures Trail(t)
  {
    SentGrows(s.sent, t.sent);
    forall m | 0 <= m < |t.nodes| ensures NodeTrail(t.sent, t.nodes[m]) {
      if m != n { assert t.nodes[m] == s.nodes[m]; }
    }
    forall p | p in t.sent && p.message.kind.Cancel?
      ensures p.message.request.origin < |t.nodes| && p.message.request !in t.nodes[p.message.request.origin].pending
    {
      if p in s.sent { assert CancelSent(s.sent, p.message.request); }
    }
  }

  lemma SentGrows(before: set<Packet>, after: set<Packet>)
    requires before <= after
    ensures forall r :: CancelSent(before, r) ==> CancelSent(after, r)
  {
  }

  lemma CancelledIsIssued(c: Config, s: Sys, r: RequestId)
    requires Inv(c, s)
    ensures CancelSent(s.sent, r) ==> r in s.calls
  {
    if CancelSent(s.sent, r) {
      var p :| p in s.sent && p.message.kind.Cancel? && p.message.request == r;
      assert Proper(c, s.calls, p.source, p.dest, p.message);
    }
  }

  lemma SpawnTrail(c: Config, s: Sys, n: nat, call: Call, ok: bool)
    requires Trail(s) && Inv(c, s) && n < c.localities
    ensures Trail(Spawn(c, s, n, call, ok))
  {
    var r := D.RequestId(n, s.nodes[n].nextSequence);
    assert NodeProper(c, s.calls, n, s.nodes[n]);
    CancelledIsIssued(c, s, r);
    OutsideTrail(s, Spawn(c, s, n, call, ok), n);
  }

  lemma WithdrawTrail(s: Sys, n: nat, r: RequestId, timeout: bool, ok: bool)
    requires Trail(s) && n < |s.nodes| && r in s.nodes[n].pending && r.origin == n
    ensures Trail(Withdraw(s, n, r, timeout, ok))
  {
    OutsideTrail(s, Withdraw(s, n, r, timeout, ok), n);
  }

  lemma DrainedTrail(s: Sys, t: Sys, n: nat, phase: Phase)
    requires Trail(s) && n < |s.nodes| && Drained(s, t, n, phase)
    requires forall r :: r in s.nodes[n].pending ==> r.origin == n
    ensures Trail(t)
  {
    forall i | 0 <= i < |t.resolved| ensures t.resolved[i].1 != Outcome.Cancelled {
      if i < |s.resolved| { assert t.resolved[..|s.resolved|][i] == s.resolved[i]; }
    }
    OutsideTrail(s, t, n);
  }

  lemma ResolveTrail(c: Config, s: Sys, p: Packet)
    requires Trail(s) && Inv(c, s) && p in s.sent && p.dest < c.localities && IsReply(p.message)
    ensures Trail(Resolve(s, p.dest, p.source, p.message))
  {
    assert Proper(c, s.calls, p.source, p.dest, p.message);
    if p.message.request in s.nodes[p.dest].pending {
      assert !p.message.kind.Cancelled?;
      OutsideTrail(s, Resolve(s, p.dest, p.source, p.message), p.dest);
    }
  }

  lemma DrainOneTrail(c: Config, s: Sys, n: nat, now: nat, ok: bool)
    requires Trail(s) && n < |s.nodes| && s.nodes[n].responses != [] && D.Valid(c.limits, s.nodes[n].table)
    requires IsReply(s.nodes[n].responses[0].message)
    ensures Trail(DrainOne(c, s, n, now, ok))
  {
    var response := s.nodes[n].responses[0];
    var t := DrainOne(c, s, n, now, ok);
    CallMarks(c.limits, s.nodes[n].table, DR.Call(DR.CompleteOp(response.message), now), s.sent);
    var rest := s.nodes[n].responses[1..];
    assert forall k :: 0 <= k < |rest| ==> rest[k] == s.nodes[n].responses[k + 1];
    OutsideTrail(s, t, n);
  }

  lemma DeliverTrail(c: Config, s: Sys, p: Packet, now: nat, accepted: bool, room: bool, text: D.Segments)
    requires Trail(s) && Inv(c, s) && p in s.sent && p.dest < c.localities
    ensures Trail(Deliver(c, s, p, now, accepted, room, text))
  {
    var n, m := p.dest, p.message;
    var t := Deliver(c, s, p, now, accepted, room, text);
    assert NodeProper(c, s.calls, n, s.nodes[n]);
    if m.kind.Request? {
      RequestTrail(c, s, n, p.source, m, now, accepted, room, text);
      InsideTrail(s, t, n);
    } else if m.kind.Cancel? {
      CallMarks(c.limits, s.nodes[n].table, DR.Call(DR.CancelOp(m.request, m.action, m.domain), now), s.sent);
      InsideTrail(s, t, n);
    } else {
      ResolveTrail(c, s, p);
    }
  }

  lemma StepTrail(c: Config, s: Sys, t: Sys, n: nat, now: nat)
    requires Trail(s) && Inv(c, s) && StepAt(c, s, t, n, now)
    ensures Trail(t)
  {
    assert NodeProper(c, s.calls, n, s.nodes[n]);
    if call: Call, ok: bool :|
        call.dest < c.localities && call.dest != n && s.nodes[n].phase.Running? && t == Spawn(c, s, n, call, ok) {
      SpawnTrail(c, s, n, call, ok);
    } else if r: RequestId, timeout: bool, ok: bool :| r in s.nodes[n].pending && t == Withdraw(s, n, r, timeout, ok) {
      WithdrawTrail(s, n, r, timeout, ok);
    } else if p: Packet, accepted: bool, room: bool, text: D.Segments :|
        p in s.sent && p.dest == n && !s.nodes[n].phase.Stopped? && t == Deliver(c, s, p, now, accepted, room, text) {
      DeliverTrail(c, s, p, now, accepted, room, text);
    } else if k: nat, room: bool :| !s.nodes[n].phase.Stopped? && k < |s.nodes[n].jobs| && t == RunJob(c, s, n, k, room) {
      RunJobTrail(c, s, n, k, room);
      InsideTrail(s, t, n);
    } else if ok: bool :| !s.nodes[n].phase.Stopped? && s.nodes[n].responses != [] && t == DrainOne(c, s, n, now, ok) {
      assert ResponseProper(c, s.calls, n, s.nodes[n].table, s.nodes[n].responses[0]);
      DrainOneTrail(c, s, n, now, ok);
    } else {
      UpkeepTrail(c, s, t, n, now);
    }
  }

  lemma UpkeepTrail(c: Config, s: Sys, t: Sys, n: nat, now: nat)
    requires Trail(s) && n < |s.nodes| && D.Valid(c.limits, s.nodes[n].table)
    requires forall r :: r in s.nodes[n].pending ==> r.origin == n
    requires || t == Put(s, n, s.nodes[n].(table := D.Expire(s.nodes[n].table, now)))
             || (exists phase: Phase :: Drained(s, t, n, phase))
             || t == Put(s, n, s.nodes[n].(table := D.Empty, phase := Stopped))
    ensures Trail(t)
  {
    if phase: Phase :| Drained(s, t, n, phase) {
      DrainedTrail(s, t, n, phase);
    } else {
      CallMarks(c.limits, s.nodes[n].table, DR.Call(DR.ExpireOp, now), s.sent);
      InsideTrail(s, t, n);
    }
  }

  lemma StartTrail(c: Config)
    ensures Trail(Start(c))
  {
  }

  lemma RunStepTrail(c: Config, states: seq<Sys>, k: nat)
    requires Run(c, states) && k < |states| - 1 && Trail(states[k])
    ensures Trail(states[k + 1])
  {
    RunInv(c, states, k);
    var n: nat, now: nat :| StepAt(c, states[k], states[k + 1], n, now);
    StepTrail(c, states[k], states[k + 1], n, now);
  }

  lemma {:induction false} RunTrail(c: Config, states: seq<Sys>, k: nat)
    requires Run(c, states) && k < |states|
    ensures Trail(states[k])
  {
    if k == 0 {
      StartTrail(c);
    } else {
      RunTrail(c, states, k - 1);
      RunStepTrail(c, states, k - 1);
    }
  }

  /** A call is cancelled by its own caller only, who no longer waits for it: a Cancelled reply always comes too late,
      and no promise is ever completed as cancelled. */
  lemma NeverCompletedAsCancelled(c: Config, states: seq<Sys>, k: nat)
    requires Run(c, states) && k < |states|
    ensures forall i :: 0 <= i < |states[k].resolved| ==> states[k].resolved[i].1 != Outcome.Cancelled
    ensures forall p :: p in states[k].sent && p.message.kind.Cancelled? ==>
              p.message.request.origin < c.localities && p.message.request !in states[k].nodes[p.message.request.origin].pending
  {
    RunTrail(c, states, k);
  }

  // ----- what a job replies

  /** The node queues this reply to the caller of `r`, to be recorded when it is sent; or, if the queue has no room or
      the reply is too big, it stops. */
  ghost predicate Replies(s: Sys, t: Sys, n: nat, r: RequestId, kind: D.Kind, payload: D.Segments) {
    && n < |s.nodes| && n < |t.nodes| && r in s.calls
    && (|| t.nodes[n].phase.Stopped?
        || t.nodes[n].responses == s.nodes[n].responses
             + [Response(r.origin, D.Message(kind, r, s.calls[r].action, s.calls[r].domain, payload), true)])
  }

  lemma JobReplies(c: Config, s: Sys, t: Sys, n: nat, now: nat, r: RequestId)
    requires Inv(c, s) && n < |t.nodes| && StepAt(c, s, t, n, now) && Executes(s, t, n, r)
    ensures Open(s.nodes[n].table, r) && r in s.calls
    ensures if s.nodes[n].table.entries[r].cancelled then Replies(s, t, n, r, D.Cancelled, [])
            else match c.handler(s.calls[r].action, s.calls[r].payload)
              case Ok(v) => Replies(s, t, n, r, D.Success, v)
              case Err(text) => Replies(s, t, n, r, D.Failure, text)
  {
    var k, room := ExecutionIsRun(c, s, t, n, now, r);
    assert NodeProper(c, s.calls, n, s.nodes[n]);
    assert JobProper(c, s.calls, n, s.nodes[n].table, s.nodes[n].jobs[k]);
  }

  /** A job whose call was never cancelled replies the handler's own success or failure on the call's payload. */
  lemma JobAnswers(c: Config, states: seq<Sys>, i: nat, n: nat, r: RequestId)
    requires Run(c, states) && i < |states| - 1 && n < c.localities && Executes(states[i], states[i + 1], n, r)
    requires !CancelSent(states[i].sent, r)
    ensures r in states[i].calls
    ensures match c.handler(states[i].calls[r].action, states[i].calls[r].payload)
            case Ok(v) => Replies(states[i], states[i + 1], n, r, D.Success, v)
            case Err(text) => Replies(states[i], states[i + 1], n, r, D.Failure, text)
  {
    RunInv(c, states, i);
    RunTrail(c, states, i);
    var m: nat, now: nat :| StepAt(c, states[i], states[i + 1], m, now);
    StepMoves(c, states[i], states[i + 1], m, now, r);
    JobReplies(c, states[i], states[i + 1], n, now, r);
    assert NodeTrail(states[i].sent, states[i].nodes[n]);
  }

  // ----- a cancellation that finds its job waiting

  ghost predicate MarkedOpen(table: D.Table, r: RequestId) {
    Open(table, r) && table.entries[r].cancelled
  }

  /** A waiting job's mark stays as long as the job waits and its node does not stop. */
  lemma MarkStays(c: Config, s: Sys, t: Sys, p: nat, now: nat, n: nat, r: RequestId)
    requires Inv(c, s) && Inv(c, t) && StepAt(c, s, t, p, now) && n < c.localities
    requires MarkedOpen(s.nodes[n].table, r) && HasJob(t.nodes[n], r) && !t.nodes[n].phase.Stopped?
    ensures MarkedOpen(t.nodes[n].table, r)
  {
    StepMoves(c, s, t, p, now, r);
    if p == n && t.nodes[n].table != s.nodes[n].table {
      var a, b := s.nodes[n], t.nodes[n];
      WaitingIsOpen(c, t, n, r);
      assert D.Valid(c.limits, a.table) by { assert NodeProper(c, s.calls, n, a); }
      var op :| Called(c, a, b, r, now, op);
      DR.Fate(c.limits, a.table, DR.Call(op, now), r);
    }
  }

  lemma WaitingIsOpen(c: Config, s: Sys, n: nat, r: RequestId)
    requires Inv(c, s) && n < c.localities && HasJob(s.nodes[n], r)
    ensures Open(s.nodes[n].table, r) && r in s.calls
    ensures s.nodes[n].table.entries[r].action == s.calls[r].action
    ensures s.nodes[n].table.entries[r].domain == s.calls[r].domain
  {
    var k :| 0 <= k < |s.nodes[n].jobs| && s.nodes[n].jobs[k].request == r;
    assert NodeProper(c, s.calls, n, s.nodes[n]);
    assert JobProper(c, s.calls, n, s.nodes[n].table, s.nodes[n].jobs[k]);
    assert EntryProper(c, s.calls, n, r, s.nodes[n].table.entries[r]);
  }

  /** The delivered cancellation marks the record of a waiting job. */
  lemma CancelMarksJob(c: Config, s: Sys, p: Packet, now: nat)
    requires Inv(c, s) && p in s.sent && p.dest < c.localities && p.message.kind.Cancel?
    requires HasJob(s.nodes[p.dest], p.message.request)
    ensures MarkedOpen(HandleCancel(c, s, p.dest, p.message, now).nodes[p.dest].table, p.message.request)
  {
    var n, m := p.dest, p.message;
    WaitingIsOpen(c, s, n, m.request);
    assert Proper(c, s.calls, p.source, n, m);
    assert NodeProper(c, s.calls, n, s.nodes[n]);
    DA.RunningStep(c.limits, s.nodes[n].table, DR.Call(DR.CancelOp(m.request, m.action, m.domain), now), m.request);
  }

  /** The job of `r` waits at `n`, which has not stopped. */
  ghost predicate Waiting(s: Sys, n: nat, r: RequestId) {
    n < |s.nodes| && HasJob(s.nodes[n], r) && !s.nodes[n].phase.Stopped?
  }

  ghost predicate Waits(states: seq<Sys>, i: nat, k: nat, n: nat, r: RequestId)
    requires k < |states|
  {
    forall m :: i <= m <= k ==> Waiting(states[m], n, r)
  }

  ghost predicate MarkedAt(s: Sys, n: nat, r: RequestId) {
    n < |s.nodes| && MarkedOpen(s.nodes[n].table, r)
  }

  lemma RunMarkStays(c: Config, states: seq<Sys>, j: nat, k: nat, n: nat, r: RequestId)
    requires Run(c, states) && j + 1 == k < |states| && n < c.localities
    requires MarkedAt(states[j], n, r) && Waiting(states[k], n, r)
    ensures MarkedAt(states[k], n, r)
  {
    RunInv(c, states, j);
    RunInv(c, states, k);
    assert Step(c, states[j], states[j + 1]);
    var p: nat, now: nat :| StepAt(c, states[j], states[k], p, now);
    MarkStays(c, states[j], states[k], p, now, n, r);
  }

  /** Each step keeps the mark while the job waits. */
  ghost predicate MarksStay(states: seq<Sys>, n: nat, r: RequestId) {
    forall j, k :: 0 <= j < k < |states| && k == j + 1 && MarkedAt(states[j], n, r) && Waiting(states[k], n, r) ==> MarkedAt(states[k], n, r)
  }

  lemma {:induction false} MarkedWhileWaiting(states: seq<Sys>, i: nat, k: nat, n: nat, r: RequestId)
    requires MarksStay(states, n, r) && i <= k < |states| && Waits(states, i, k, n, r)
    requires MarkedAt(states[i], n, r)
    ensures MarkedAt(states[k], n, r)
  {
    if k > i { MarkedWhileWaiting(states, i, k - 1, n, r); }
  }

  lemma RunKeepsMarks(c: Config, states: seq<Sys>, n: nat, r: RequestId)
    requires Run(c, states) && n < c.localities
    ensures MarksStay(states, n, r)
  {
    forall j, k | 0 <= j < k < |states| && k == j + 1 && MarkedAt(states[j], n, r) && Waiting(states[k], n, r)
      ensures MarkedAt(states[k], n, r)
    {
      RunMarkStays(c, states, j, k, n, r);
    }
  }

  /** The job of `r` waits from the delivery of a cancellation at step `i` to its own execution at step `j`: the reply
      it queues is Cancelled, never a success or a failure of the handler. */
  lemma CancelledJobReplies(c: Config, states: seq<Sys>, i: nat, j: nat, n: nat, p: Packet, now: nat, accepted: bool, room: bool, text: D.Segments)
    requires Run(c, states) && i < j < |states| - 1 && n < c.localities
    requires p in states[i].sent && p.dest == n && p.message.kind.Cancel?
    requires states[i + 1] == Deliver(c, states[i], p, now, accepted, room, text)
    requires Waits(states, i, j, n, p.message.request) && Executes(states[j], states[j + 1], n, p.message.request)
    ensures Replies(states[j], states[j + 1], n, p.message.request, D.Cancelled, [])
  {
    var r := p.message.request;
    RunInv(c, states, i);
    CancelMarksJob(c, states[i], p, now);
    RunKeepsMarks(c, states, n, r);
    MarkedWhileWaiting(states, i + 1, j, n, r);
    RunInv(c, states, j);
    var m: nat, at: nat :| StepAt(c, states[j], states[j + 1], m, at);
    StepMoves(c, states[j], states[j + 1], m, at, r);
    JobReplies(c, states[j], states[j + 1], n, at, r);
  }
}
