/** How often a request's handler runs: at most once until its completion has outlived the time to live. */
module RemoteExecutions {
  import opened Wrappers
  import D = Dedup
  import DR = DedupRuns
  import opened RemoteCalls
  import opened RemoteCallsProofs

  ghost predicate HasJob(node: Node, r: RequestId) {
    exists k :: 0 <= k < |node.jobs| && node.jobs[k].request == r
  }

  /** The handler of `r` runs at locality `n` in this step: its job leaves the queue. A job that was cancelled
      before it started leaves the queue too, so this counts at least every run of the handler. */
  ghost predicate Executes(s: Sys, t: Sys, n: nat, r: RequestId)
    requires n < |s.nodes| && n < |t.nodes|
  {
    HasJob(s.nodes[n], r) && !HasJob(t.nodes[n], r)
  }

  // ----- what one step does to its node

  /** The calls on the request table that a running node makes. */
  predicate Plain(op: DR.Op) { op.BeginOp? || op.CancelOp? || op.CompleteOp? || op.ExpireOp? }

  /** The node may have made one call on its table at time `now`; a job for `r` is new only after that call
      answered that `r` is new. A stopped node stays stopped. */
  ghost predicate Moves(c: Config, a: Node, b: Node, r: RequestId, now: nat) {
    && (a.phase.Stopped? ==> b.phase.Stopped?)
    && (|| b.phase.Stopped?
        || (b.table == a.table && (HasJob(b, r) ==> HasJob(a, r)))
        || exists op :: Called(c, a, b, r, now, op))
  }

  ghost predicate Called(c: Config, a: Node, b: Node, r: RequestId, now: nat, op: DR.Op) {
    && Plain(op) && b.table == DR.After(c.limits, a.table, DR.Call(op, now))
    && (HasJob(b, r) && !HasJob(a, r) ==>
          op.BeginOp? && op.r == r && D.Begin(c.limits, a.table, r, op.action, op.domain, now).1 == Ok(D.New))
  }

  lemma JobAdded(before: Node, after: Node, job: Job, r: RequestId)
    requires after.jobs == before.jobs + [job]
    ensures HasJob(after, r) <==> HasJob(before, r) || job.request == r
  {
    if HasJob(before, r) {
      var k :| 0 <= k < |before.jobs| && before.jobs[k].request == r;
      assert after.jobs[k].request == r;
    }
    if job.request == r { assert after.jobs[|before.jobs|].request == r; }
  }

  lemma QueueJobs(s: Sys, n: nat, response: Response, room: bool)
    requires n < |s.nodes|
    ensures var t := Queue(s, n, response, room);
            && |t.nodes| == |s.nodes| && t.nodes[n].jobs == s.nodes[n].jobs && t.nodes[n].table == s.nodes[n].table
            && (forall k :: 0 <= k < |s.nodes| && k != n ==> t.nodes[k] == s.nodes[k])
            && (t.nodes[n].phase == s.nodes[n].phase || t.nodes[n].phase.Stopped?)
  {
  }

  /** What a request does to the callee. */
  ghost predicate Answered(c: Config, s: Sys, t: Sys, n: nat, job: Job, now: nat)
    requires n < |s.nodes|
  {
    var (table, answer) := D.Begin(c.limits, s.nodes[n].table, job.request, job.action, job.domain, now);
    && |t.nodes| == |s.nodes| && (forall k :: 0 <= k < |s.nodes| && k != n ==> t.nodes[k] == s.nodes[k])
    && t.nodes[n].table == table
    && (t.nodes[n].jobs == s.nodes[n].jobs || (answer == Ok(D.New) && t.nodes[n].jobs == s.nodes[n].jobs + [job]))
  }

  lemma AnswerEffect(c: Config, s: Sys, n: nat, source: nat, m: Message, now: nat, accepted: bool, room: bool, text: D.Segments)
    requires n < |s.nodes| && s.nodes[n].phase.Running?
    ensures Answered(c, s, HandleRequest(c, s, n, source, m, now, accepted, room, text), n,
                     Job(source, m.request, m.action, m.domain, m.payload), now)
  {
    var (table, answer) := D.Begin(c.limits, s.nodes[n].table, m.request, m.action, m.domain, now);
    var s1 := Put(s, n, s.nodes[n].(table := table));
    match answer
    case Err(error) =>
      QueueJobs(s1.(fault := s1.fault || error.ChangedMetadata?), n, Response(source, FailureReply(m, text), false), room);
    case Ok(New) =>
      if !(c.known(m.action) && accepted) { QueueJobs(s1, n, Response(source, FailureReply(m, text), true), room); }
    case Ok(AlreadyRunning) =>
    case Ok(Replay(reply)) => QueueJobs(s1, n, Response(source, reply, false), room);
    case Ok(Unavailable(reply)) => QueueJobs(s1, n, Response(source, reply, false), room);
    case Ok(WasCancelled(reply)) => QueueJobs(s1, n, Response(source, reply, false), room);
  }

  ghost predicate Local(s: Sys, t: Sys, n: nat) {
    |t.nodes| == |s.nodes| && forall k :: 0 <= k < |s.nodes| && k != n ==> t.nodes[k] == s.nodes[k]
  }

  lemma SameJobs(a: Node, b: Node, r: RequestId)
    requires a.jobs == b.jobs
    ensures HasJob(a, r) <==> HasJob(b, r)
  {
  }

  lemma RequestMoves(c: Config, s: Sys, p: Packet, now: nat, accepted: bool, room: bool, text: D.Segments, r: RequestId)
    requires p.dest < |s.nodes| && !s.nodes[p.dest].phase.Stopped?
    ensures var t := HandleRequest(c, s, p.dest, p.source, p.message, now, accepted, room, text);
            Local(s, t, p.dest) && Moves(c, s.nodes[p.dest], t.nodes[p.dest], r, now)
  {
    var n, m := p.dest, p.message;
    var t := HandleRequest(c, s, n, p.source, m, now, accepted, room, text);
    var a, b := s.nodes[n], t.nodes[n];
    if !a.phase.Running? {
      QueueJobs(s, n, Response(p.source, FailureReply(m, text), false), room);
      SameJobs(a, b, r);
    } else {
      AnswerEffect(c, s, n, p.source, m, now, accepted, room, text);
      var job := Job(p.source, m.request, m.action, m.domain, m.payload);
      if b.jobs == a.jobs { SameJobs(a, b, r); } else { JobAdded(a, b, job, r); }
      assert Called(c, a, b, r, now, DR.BeginOp(m.request, m.action, m.domain));
    }
  }

  lemma DeliverMoves(c: Config, s: Sys, p: Packet, now: nat, accepted: bool, room: bool, text: D.Segments, r: RequestId)
    requires p.dest < |s.nodes| && !s.nodes[p.dest].phase.Stopped?
    ensures var t := Deliver(c, s, p, now, accepted, room, text);
            Local(s, t, p.dest) && Moves(c, s.nodes[p.dest], t.nodes[p.dest], r, now)
  {
    var t, m := Deliver(c, s, p, now, accepted, room, text), p.message;
    if m.kind.Request? {
      RequestMoves(c, s, p, now, accepted, room, text, r);
    } else {
      SameJobs(s.nodes[p.dest], t.nodes[p.dest], r);
      if m.kind.Cancel? {
        assert Called(c, s.nodes[p.dest], t.nodes[p.dest], r, now, DR.CancelOp(m.request, m.action, m.domain));
      }
    }
  }

  lemma RunJobMoves(c: Config, s: Sys, n: nat, k: nat, room: bool, r: RequestId, now: nat)
    requires n < |s.nodes| && k < |s.nodes[n].jobs|
    ensures var t := RunJob(c, s, n, k, room);
            Local(s, t, n) && t.nodes[n].table == s.nodes[n].table && Moves(c, s.nodes[n], t.nodes[n], r, now)
  {
    var left := RemoveAt(s.nodes[n].jobs, k);
    assert forall j :: 0 <= j < |left| ==> left[j] == s.nodes[n].jobs[if j < k then j else j + 1];
  }

  lemma DrainOneMoves(c: Config, s: Sys, n: nat, now: nat, ok: bool, r: RequestId)
    requires n < |s.nodes| && s.nodes[n].responses != []
    ensures var t := DrainOne(c, s, n, now, ok);
            Local(s, t, n) && t.nodes[n].jobs == s.nodes[n].jobs && Moves(c, s.nodes[n], t.nodes[n], r, now)
  {
    var t, response := DrainOne(c, s, n, now, ok), s.nodes[n].responses[0];
    SameJobs(s.nodes[n], t.nodes[n], r);
    if ok && response.cache && D.Complete(c.limits, s.nodes[n].table, response.message, now).1.Ok? {
      assert Called(c, s.nodes[n], t.nodes[n], r, now, DR.CompleteOp(response.message));
    }
  }

  lemma SpawnMoves(c: Config, s: Sys, n: nat, call: Call, ok: bool, r: RequestId, now: nat)
    requires n < |s.nodes|
    ensures var t := Spawn(c, s, n, call, ok);
            Local(s, t, n) && t.nodes[n].jobs == s.nodes[n].jobs && Moves(c, s.nodes[n], t.nodes[n], r, now)
  {
    SameJobs(s.nodes[n], Spawn(c, s, n, call, ok).nodes[n], r);
  }

  lemma WithdrawMoves(c: Config, s: Sys, n: nat, q: RequestId, timeout: bool, ok: bool, r: RequestId, now: nat)
    requires n < |s.nodes| && q in s.nodes[n].pending
    ensures var t := Withdraw(s, n, q, timeout, ok);
            Local(s, t, n) && t.nodes[n].jobs == s.nodes[n].jobs && Moves(c, s.nodes[n], t.nodes[n], r, now)
  {
    SameJobs(s.nodes[n], Withdraw(s, n, q, timeout, ok).nodes[n], r);
  }

  /** A step touches its own locality only, and a job leaves only a node that has not stopped and keeps its table. */
  lemma StepMoves(c: Config, s: Sys, t: Sys, n: nat, now: nat, r: RequestId)
    requires |s.nodes| == c.localities && StepAt(c, s, t, n, now)
    ensures Local(s, t, n) && Moves(c, s.nodes[n], t.nodes[n], r, now)
    ensures Executes(s, t, n, r) ==> !s.nodes[n].phase.Stopped? && t.nodes[n].table == s.nodes[n].table
  {
    if call: Call, ok: bool :|
        call.dest < c.localities && call.dest != n && s.nodes[n].phase.Running? && t == Spawn(c, s, n, call, ok) {
      SpawnMoves(c, s, n, call, ok, r, now);
    } else if q: RequestId, timeout: bool, ok: bool :| q in s.nodes[n].pending && t == Withdraw(s, n, q, timeout, ok) {
      WithdrawMoves(c, s, n, q, timeout, ok, r, now);
    } else if p: Packet, accepted: bool, room: bool, text: D.Segments :|
        p in s.sent && p.dest == n && !s.nodes[n].phase.Stopped? && t == Deliver(c, s, p, now, accepted, room, text) {
      DeliverMoves(c, s, p, now, accepted, room, text, r);
      DeliverKeepsJobs(c, s, p, now, accepted, room, text, r);
    } else if k: nat, room: bool :| !s.nodes[n].phase.Stopped? && k < |s.nodes[n].jobs| && t == RunJob(c, s, n, k, room) {
      RunJobMoves(c, s, n, k, room, r, now);
    } else if ok: bool :| !s.nodes[n].phase.Stopped? && s.nodes[n].responses != [] && t == DrainOne(c, s, n, now, ok) {
      DrainOneMoves(c, s, n, now, ok, r);
    } else {
      UpkeepMoves(c, s, t, n, now, r);
    }
  }

  lemma DeliverKeepsJobs(c: Config, s: Sys, p: Packet, now: nat, accepted: bool, room: bool, text: D.Segments, r: RequestId)
    requires p.dest < |s.nodes|
    ensures var t := Deliver(c, s, p, now, accepted, room, text);
            |t.nodes| == |s.nodes| && (HasJob(s.nodes[p.dest], r) ==> HasJob(t.nodes[p.dest], r))
  {
    var n, m := p.dest, p.message;
    var t := Deliver(c, s, p, now, accepted, room, text);
    if m.kind.Request? && s.nodes[n].phase.Running? {
      AnswerEffect(c, s, n, p.source, m, now, accepted, room, text);
      if t.nodes[n].jobs != s.nodes[n].jobs {
        JobAdded(s.nodes[n], t.nodes[n], Job(p.source, m.request, m.action, m.domain, m.payload), r);
      }
    } else if m.kind.Request? {
      QueueJobs(s, n, Response(p.source, FailureReply(m, text), false), room);
    }
  }

  lemma UpkeepMoves(c: Config, s: Sys, t: Sys, n: nat, now: nat, r: RequestId)
    requires n < |s.nodes|
    requires || t == Put(s, n, s.nodes[n].(table := D.Expire(s.nodes[n].table, now)))
             || (exists phase: Phase :: Drained(s, t, n, phase))
             || (s.nodes[n].jobs == [] && t == Put(s, n, s.nodes[n].(table := D.Empty, phase := Stopped)))
    ensures Local(s, t, n) && t.nodes[n].jobs == s.nodes[n].jobs && Moves(c, s.nodes[n], t.nodes[n], r, now)
  {
    SameJobs(s.nodes[n], t.nodes[n], r);
    if t == Put(s, n, s.nodes[n].(table := D.Expire(s.nodes[n].table, now))) {
      assert Called(c, s.nodes[n], t.nodes[n], r, now, DR.ExpireOp);
    }
  }

  // ----- the life of one request at its callee

  /** The record was open and has just been completed at time `now`. */
  ghost predicate Records(c: Config, a: Node, b: Node, r: RequestId, now: nat) {
    && Open(a.table, r) && r in b.table.entries && b.table.entries[r].Completed?
    && b.table.entries[r].expires == now + c.limits.ttl
  }

  /** The table calls a known request new only when its record has expired. */
  lemma NewOnlyWhenExpired(c: Config, table: D.Table, r: RequestId, action: nat, domain: nat, now: nat)
    requires D.Valid(c.limits, table) && r in table.entries && !D.Expired(table.entries[r], now)
    ensures D.Begin(c.limits, table, r, action, domain, now).1 != Ok(D.New)
  {
    D.ExpireKeeps(c.limits, table, now);
  }

  /** A known request without a job gets no job, and an open record stays open or is completed, and a completed
      one stays as it is, until it has expired or the node stops. */
  lemma KnownStays(c: Config, a: Node, b: Node, r: RequestId, now: nat)
    requires D.Valid(c.limits, a.table) && r in a.table.entries && !a.table.entries[r].Tombstone?
    requires !HasJob(a, r) && Moves(c, a, b, r, now) && !b.phase.Stopped?
    requires !D.Expired(a.table.entries[r], now)
    ensures !HasJob(b, r) && r in b.table.entries
    ensures Open(a.table, r) ==> Open(b.table, r) || Records(c, a, b, r, now)
    ensures !Open(a.table, r) ==> b.table.entries[r] == a.table.entries[r]
  {
    if !(b.table == a.table && (HasJob(b, r) ==> HasJob(a, r))) {
      var op :| Called(c, a, b, r, now, op);
      DR.Fate(c.limits, a.table, DR.Call(op, now), r);
      if op.BeginOp? && op.r == r { NewOnlyWhenExpired(c, a.table, r, op.action, op.domain, now); }
    }
  }

  // ----- runs with clocks

  /** A run in which step `k` is one of locality `places[k]`, whose clock then reads `clocks[k]`. No clock goes back;
      the clocks of different localities need not agree. */
  ghost predicate TimedRun(c: Config, states: seq<Sys>, places: seq<nat>, clocks: seq<nat>) {
    && |states| == |places| + 1 == |clocks| + 1 && states[0] == Start(c)
    && (forall k :: 0 <= k < |states| ==> |states[k].nodes| == c.localities)
    && (forall k :: 0 <= k < |places| ==> StepAt(c, states[k], states[k + 1], places[k], clocks[k]))
    && forall j, k :: 0 <= j < k < |places| && places[j] == places[k] ==> clocks[j] <= clocks[k]
  }

  lemma TimedRunIsRun(c: Config, states: seq<Sys>, places: seq<nat>, clocks: seq<nat>)
    requires TimedRun(c, states, places, clocks)
    ensures Run(c, states)
  {
    forall k | 0 <= k < |states| - 1 ensures Step(c, states[k], states[k + 1]) {
      assert StepAt(c, states[k], states[k + 1], places[k], clocks[k]);
    }
  }

  /** Step `q` of the run records the completion of `r` at locality `n`. */
  ghost predicate RecordedAt(c: Config, states: seq<Sys>, places: seq<nat>, clocks: seq<nat>, q: nat, n: nat, r: RequestId)
    requires |states| == |places| + 1 == |clocks| + 1 && q < |places|
    requires n < |states[q].nodes| && n < |states[q + 1].nodes|
  {
    places[q] == n && Records(c, states[q].nodes[n], states[q + 1].nodes[n], r, clocks[q])
  }

  /** After position `i` and before `k`, a completion of `r` was recorded and has then expired by the clock. */
  ghost predicate Outlived(c: Config, states: seq<Sys>, places: seq<nat>, clocks: seq<nat>, i: nat, k: nat, n: nat, r: RequestId)
    requires TimedRun(c, states, places, clocks) && k <= |places| && n < c.localities
  {
    exists q: nat, m: nat :: i < q < m < k && RecordedAt(c, states, places, clocks, q, n, r)
      && places[m] == n && clocks[q] + c.limits.ttl <= clocks[m]
  }

  /** The record is open, or completed by a step after `i`, and there is no job. */
  ghost predicate Settled(c: Config, states: seq<Sys>, places: seq<nat>, clocks: seq<nat>, i: nat, k: nat, n: nat, r: RequestId)
    requires TimedRun(c, states, places, clocks) && k <= |places| && n < c.localities
  {
    var node := states[k].nodes[n];
    && r in node.table.entries && !HasJob(node, r)
    && (|| Open(node.table, r)
        || exists q: nat :: i < q < k && RecordedAt(c, states, places, clocks, q, n, r)
             && node.table.entries[r].Completed? && node.table.entries[r].expires == clocks[q] + c.limits.ttl)
  }

  lemma SettledStep(c: Config, states: seq<Sys>, places: seq<nat>, clocks: seq<nat>, i: nat, k: nat, n: nat, r: RequestId)
    requires TimedRun(c, states, places, clocks) && i < k < |places| && n < c.localities
    requires Settled(c, states, places, clocks, i, k, n, r)
    ensures || Settled(c, states, places, clocks, i, k + 1, n, r) || states[k + 1].nodes[n].phase.Stopped?
            || Outlived(c, states, places, clocks, i, k + 1, n, r)
  {
    var s, t, p, now := states[k], states[k + 1], places[k], clocks[k];
    assert StepAt(c, s, t, p, now);
    StepMoves(c, s, t, p, now, r);
    TimedRunIsRun(c, states, places, clocks);
    RunInv(c, states, k);
    assert NodeProper(c, s.calls, n, s.nodes[n]);
    if p != n {
      assert t.nodes[n] == s.nodes[n];
    } else if !t.nodes[n].phase.Stopped? {
      var a, b := s.nodes[n], t.nodes[n];
      if !D.Expired(a.table.entries[r], now) {
        KnownStays(c, a, b, r, now);
        if Open(a.table, r) && !Open(b.table, r) { assert RecordedAt(c, states, places, clocks, k, n, r); }
      }
    }
  }

  lemma {:induction false} AfterExecution(c: Config, states: seq<Sys>, places: seq<nat>, clocks: seq<nat>, i: nat, k: nat, n: nat, r: RequestId)
    requires TimedRun(c, states, places, clocks) && i < k <= |places| && n < c.localities
    requires Executes(states[i], states[i + 1], n, r)
    ensures || Settled(c, states, places, clocks, i, k, n, r) || states[k].nodes[n].phase.Stopped?
            || Outlived(c, states, places, clocks, i, k, n, r)
  {
    if k == i + 1 {
      ExecutionSettles(c, states, places, clocks, i, n, r);
    } else {
      var j := k - 1;
      AfterExecution(c, states, places, clocks, i, j, n, r);
      if Settled(c, states, places, clocks, i, j, n, r) {
        SettledStep(c, states, places, clocks, i, j, n, r);
      } else {
        StaysStopped(c, states, places, clocks, j, n, r);
      }
    }
  }

  lemma StaysStopped(c: Config, states: seq<Sys>, places: seq<nat>, clocks: seq<nat>, j: nat, n: nat, r: RequestId)
    requires TimedRun(c, states, places, clocks) && j < |places| && n < c.localities
    ensures states[j].nodes[n].phase.Stopped? ==> states[j + 1].nodes[n].phase.Stopped?
  {
    assert StepAt(c, states[j], states[j + 1], places[j], clocks[j]);
    StepMoves(c, states[j], states[j + 1], places[j], clocks[j], r);
  }

  lemma ExecutionSettles(c: Config, states: seq<Sys>, places: seq<nat>, clocks: seq<nat>, i: nat, n: nat, r: RequestId)
    requires TimedRun(c, states, places, clocks) && i < |places| && n < c.localities
    requires Executes(states[i], states[i + 1], n, r)
    ensures Settled(c, states, places, clocks, i, i + 1, n, r)
  {
    assert StepAt(c, states[i], states[i + 1], places[i], clocks[i]);
    StepMoves(c, states[i], states[i + 1], places[i], clocks[i], r);
    TimedRunIsRun(c, states, places, clocks);
    ExecutedIsOpen(c, states, i, n, r);
  }

  /** A job runs at the locality its request was sent to, while its record is open. */
  lemma ExecutedIsOpen(c: Config, states: seq<Sys>, i: nat, n: nat, r: RequestId)
    requires Run(c, states) && i < |states| - 1 && n < c.localities && HasJob(states[i].nodes[n], r)
    ensures r in states[i].calls && states[i].calls[r].dest == n && Open(states[i].nodes[n].table, r)
  {
    RunInv(c, states, i);
    var node := states[i].nodes[n];
    var k :| 0 <= k < |node.jobs| && node.jobs[k].request == r;
    assert NodeProper(c, states[i].calls, n, node);
    assert JobProper(c, states[i].calls, n, node.table, node.jobs[k]);
  }

  /** At most once within the time to live: over a network that loses, duplicates, delays and reorders, a callee
      runs a request's handler a second time only after it recorded the completion of the first run, at least
      `ttl` earlier by its own clock. */
  lemma ExecutedAtMostOnce(c: Config, states: seq<Sys>, places: seq<nat>, clocks: seq<nat>, i: nat, j: nat, n: nat, r: RequestId)
    requires TimedRun(c, states, places, clocks) && i < j < |places| && n < c.localities
    requires Executes(states[i], states[i + 1], n, r) && Executes(states[j], states[j + 1], n, r)
    ensures exists q: nat :: i < q < j && RecordedAt(c, states, places, clocks, q, n, r) && clocks[q] + c.limits.ttl <= clocks[j]
  {
    AfterExecution(c, states, places, clocks, i, j, n, r);
    assert StepAt(c, states[j], states[j + 1], places[j], clocks[j]);
    StepMoves(c, states[j], states[j + 1], places[j], clocks[j], r);
    assert places[j] == n;
    var q: nat, m: nat :| i < q < m < j && RecordedAt(c, states, places, clocks, q, n, r)
      && places[m] == n && clocks[q] + c.limits.ttl <= clocks[m];
    assert clocks[m] <= clocks[j];
  }

  /** A request runs only at the locality it was sent to. */
  lemma ExecutedAtItsCallee(c: Config, states: seq<Sys>, i: nat, n: nat, r: RequestId)
    requires Run(c, states) && i < |states| - 1 && n < c.localities && Executes(states[i], states[i + 1], n, r)
    ensures r in states[i].calls && states[i].calls[r].dest == n
  {
    ExecutedIsOpen(c, states, i, n, r);
  }
}
