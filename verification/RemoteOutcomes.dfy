/** What completes a caller's promise, what a callee replies, and what a cancellation does. */
module RemoteOutcomes {
  import opened Wrappers
  import D = Dedup
  import DR = DedupRuns
  import DA = DedupAnswers
  import opened RemoteCalls
  import opened RemoteCallsProofs
  import opened RemoteExecutions

  // ----- what a reply does to its promise

  /** The reply arrives while its call is pending: exactly one result is logged, the call is no longer pending, and
      nothing else changes. */
  ghost predicate Completes(s: Sys, t: Sys, r: RequestId, outcome: Outcome) {
    && r.origin < |s.nodes|
    && t == s.(nodes := t.nodes, resolved := s.resolved + [(r, outcome)])
    && t.nodes == s.nodes[r.origin := s.nodes[r.origin].(pending := s.nodes[r.origin].pending - {r})]
  }

  /** What every copy of a reply does, wherever the run is: a success completes a pending call with the handler's
      output on the call's own payload, the other replies complete it with their own error, and a reply to a call that
      is not pending changes nothing. */
  lemma ReplyCompletes(c: Config, states: seq<Sys>, i: nat, p: Packet, now: nat, accepted: bool, room: bool, text: D.Segments)
    requires Run(c, states) && i < |states| && p in states[i].sent && p.dest < c.localities && IsReply(p.message)
    ensures var s, t := states[i], Deliver(c, states[i], p, now, accepted, room, text);
            var r := p.message.request;
            && r in s.calls && p.dest == r.origin && p.source == s.calls[r].dest
            && if r !in s.nodes[r.origin].pending then t == s
               else match p.message.kind
                 case Success => Completes(s, t, r, Success(p.message.payload))
                                 && c.handler(s.calls[r].action, s.calls[r].payload) == Ok(p.message.payload)
                 case Failure => Completes(s, t, r, Failed(p.message.payload))
                 case Cancelled => Completes(s, t, r, Outcome.Cancelled)
                 case DuplicateResultUnavailable => Completes(s, t, r, Unavailable)
                 case _ => false
  {
    RunInv(c, states, i);
    var s := states[i];
    assert Proper(c, s.calls, p.source, p.dest, p.message);
    assert NodeProper(c, s.calls, p.dest, s.nodes[p.dest]);
  }

  /** The reason a promise of `r` can be completed with this outcome at its origin. */
  ghost predicate Cause(c: Config, s: Sys, t: Sys, n: nat, r: RequestId, outcome: Outcome)
    requires n < |s.nodes|
  {
    && r.origin == n && r in s.nodes[n].pending
    && match outcome
       case TimedOut => exists ok: bool :: t == Withdraw(s, n, r, true, ok)
       case ShutDown => exists phase: Phase :: Drained(s, t, n, phase)
       case Success(payload) => Heard(s, n, r, D.Success, payload)
       case Failed(text) => Heard(s, n, r, D.Failure, text)
       case Cancelled => exists payload :: Heard(s, n, r, D.Cancelled, payload)
       case Unavailable => exists payload :: Heard(s, n, r, D.DuplicateResultUnavailable, payload)
       case Moved(_) => false
  }

  /** A reply of this kind to the call is on its way to its origin. */
  ghost predicate Heard(s: Sys, n: nat, r: RequestId, kind: D.Kind, payload: D.Segments) {
    exists p: Packet :: p in s.sent && p.dest == n && p.message.request == r && p.message.kind == kind && p.message.payload == payload
  }

  /** Nothing was logged and no call stopped being pending. */
  ghost predicate Unheard(s: Sys, t: Sys, n: nat) {
    && t.resolved == s.resolved && n < |s.nodes| == |t.nodes|
    && forall r :: r in s.nodes[n].pending ==> r in t.nodes[n].pending
  }

  lemma ReplyIsUnheardOrCaused(c: Config, s: Sys, p: Packet)
    requires Inv(c, s) && p in s.sent && p.dest < c.localities && IsReply(p.message)
    ensures var t := Resolve(s, p.dest, p.source, p.message);
            || Unheard(s, t, p.dest)
            || exists outcome :: Completes(s, t, p.message.request, outcome) && Cause(c, s, t, p.dest, p.message.request, outcome)
  {
    var r := p.message.request;
    var t := Resolve(s, p.dest, p.source, p.message);
    assert Proper(c, s.calls, p.source, p.dest, p.message);
    assert NodeProper(c, s.calls, p.dest, s.nodes[p.dest]);
    if r in s.nodes[p.dest].pending {
      var outcome := t.resolved[|s.resolved|].1;
      assert Completes(s, t, r, outcome);
      assert Heard(s, p.dest, r, p.message.kind, p.message.payload);
      assert Cause(c, s, t, p.dest, r, outcome);
    }
  }

  lemma QuietQueue(s: Sys, n: nat, response: Response, room: bool)
    requires n < |s.nodes|
    ensures Unheard(s, Queue(s, n, response, room), n) && Queue(s, n, response, room).calls == s.calls
  {
  }

  lemma QuietRequest(c: Config, s: Sys, n: nat, source: nat, m: Message, now: nat, accepted: bool, room: bool, text: D.Segments)
    requires n < |s.nodes|
    ensures var t := HandleRequest(c, s, n, source, m, now, accepted, room, text);
            Unheard(s, t, n) && t.calls == s.calls
  {
    if !s.nodes[n].phase.Running? {
      QuietQueue(s, n, Response(source, FailureReply(m, text), false), room);
    } else {
      var (table, answer) := D.Begin(c.limits, s.nodes[n].table, m.request, m.action, m.domain, now);
      var s1 := Put(s, n, s.nodes[n].(table := table));
      match answer
      case Err(error) =>
        QuietQueue(s1.(fault := s1.fault || error.ChangedMetadata?), n, Response(source, FailureReply(m, text), false), room);
      case Ok(New) =>
        if !(c.known(m.action) && accepted) { QuietQueue(s1, n, Response(source, FailureReply(m, text), true), room); }
      case Ok(AlreadyRunning) =>
      case Ok(Replay(reply)) => QuietQueue(s1, n, Response(source, reply, false), room);
      case Ok(Unavailable(reply)) => QuietQueue(s1, n, Response(source, reply, false), room);
      case Ok(WasCancelled(reply)) => QuietQueue(s1, n, Response(source, reply, false), room);
    }
  }

  /** Nothing was completed, or one call was, for the cause its outcome names, or the caller withdrew one, or the
      runtime ended. */
  ghost predicate Explained(c: Config, s: Sys, t: Sys, n: nat)
    requires n < |s.nodes|
  {
    || Unheard(s, t, n)
    || (exists r, outcome :: Cause(c, s, t, n, r, outcome) && Completes(s, t, r, outcome))
    || (exists r, outcome, ok: bool :: Cause(c, s, t, n, r, outcome) && t == Withdraw(s, n, r, true, ok))
    || (exists r, ok: bool :: r in s.nodes[n].pending && t == Withdraw(s, n, r, false, ok))
    || (exists phase: Phase :: Drained(s, t, n, phase))
  }

  /** A call that is issued in this step is pending after it. */
  ghost predicate Registered(s: Sys, t: Sys) {
    forall r :: r in t.calls && r !in s.calls ==> r.origin < |t.nodes| && r in t.nodes[r.origin].pending
  }

  lemma SpawnExplained(c: Config, s: Sys, n: nat, call: Call, ok: bool)
    requires n < |s.nodes|
    ensures Explained(c, s, Spawn(c, s, n, call, ok), n) && Registered(s, Spawn(c, s, n, call, ok))
  {
    assert Unheard(s, Spawn(c, s, n, call, ok), n);
  }

  lemma WithdrawExplained(c: Config, s: Sys, n: nat, r: RequestId, timeout: bool, ok: bool)
    requires n < |s.nodes| && r in s.nodes[n].pending && r.origin == n
    ensures Explained(c, s, Withdraw(s, n, r, timeout, ok), n) && Registered(s, Withdraw(s, n, r, timeout, ok))
  {
    if timeout { assert Cause(c, s, Withdraw(s, n, r, true, ok), n, r, TimedOut); }
  }

  lemma QuietDrainOne(c: Config, s: Sys, n: nat, now: nat, ok: bool)
    requires n < |s.nodes| && s.nodes[n].responses != []
    ensures Unheard(s, DrainOne(c, s, n, now, ok), n) && DrainOne(c, s, n, now, ok).calls == s.calls
  {
  }

  lemma QuietRunJob(c: Config, s: Sys, n: nat, k: nat, room: bool)
    requires n < |s.nodes| && k < |s.nodes[n].jobs|
    ensures Unheard(s, RunJob(c, s, n, k, room), n) && RunJob(c, s, n, k, room).calls == s.calls
  {
  }

  /** Why promises complete: whatever one step logs or takes out of the pending table is a single call with the cause
      its outcome names, or a withdrawal by the caller, or the end of the runtime, which completes every pending call. */
  lemma StepExplained(c: Config, s: Sys, t: Sys, n: nat, now: nat)
    requires Inv(c, s) && StepAt(c, s, t, n, now)
    ensures Explained(c, s, t, n) && Registered(s, t)
  {
    if call: Call, ok: bool :|
        call.dest < c.localities && call.dest != n && s.nodes[n].phase.Running? && t == Spawn(c, s, n, call, ok) {
      SpawnExplained(c, s, n, call, ok);
    } else if r: RequestId, timeout: bool, ok: bool :| r in s.nodes[n].pending && t == Withdraw(s, n, r, timeout, ok) {
      assert NodeProper(c, s.calls, n, s.nodes[n]);
      WithdrawExplained(c, s, n, r, timeout, ok);
    } else if p: Packet, accepted: bool, room: bool, text: D.Segments :|
        p in s.sent && p.dest == n && !s.nodes[n].phase.Stopped? && t == Deliver(c, s, p, now, accepted, room, text) {
      DeliverExplained(c, s, p, now, accepted, room, text);
    } else if k: nat, room: bool :| !s.nodes[n].phase.Stopped? && k < |s.nodes[n].jobs| && t == RunJob(c, s, n, k, room) {
      QuietRunJob(c, s, n, k, room);
    } else if ok: bool :| !s.nodes[n].phase.Stopped? && s.nodes[n].responses != [] && t == DrainOne(c, s, n, now, ok) {
      QuietDrainOne(c, s, n, now, ok);
    } else {
      UpkeepExplained(c, s, t, n, now);
    }
  }

  lemma UpkeepExplained(c: Config, s: Sys, t: Sys, n: nat, now: nat)
    requires n < |s.nodes|
    requires || t == Put(s, n, s.nodes[n].(table := D.Expire(s.nodes[n].table, now)))
             || (exists phase: Phase :: Drained(s, t, n, phase))
             || t == Put(s, n, s.nodes[n].(table := D.Empty, phase := Stopped))
    ensures Explained(c, s, t, n) && Registered(s, t)
  {
    if !(exists phase: Phase :: Drained(s, t, n, phase)) { assert Unheard(s, t, n); }
  }

  lemma DeliverExplained(c: Config, s: Sys, p: Packet, now: nat, accepted: bool, room: bool, text: D.Segments)
    requires Inv(c, s) && p in s.sent && p.dest < c.localities
    ensures var t := Deliver(c, s, p, now, accepted, room, text);
            Explained(c, s, t, p.dest) && Registered(s, t)
  {
    if p.message.kind.Request? { QuietRequest(c, s, p.dest, p.source, p.message, now, accepted, room, text); }
    else if !p.message.kind.Cancel? { ReplyIsUnheardOrCaused(c, s, p); }
  }

  /** Every logged result was logged by a step that gives its cause: a success by the delivery of that success, an error
      by the delivery of that error, a timeout by the deadline, and the rest by the end of the runtime. */
  lemma {:induction false} EveryResultHasItsCause(c: Config, states: seq<Sys>, k: nat, i: nat)
    requires Run(c, states) && k < |states| && i < |states[k].resolved|
    ensures var (r, outcome) := states[k].resolved[i];
            exists j: nat :: j < k && r.origin < c.localities && Cause(c, states[j], states[j + 1], r.origin, r, outcome)
  {
    var j := k - 1;
    var s, t := states[j], states[k];
    RunInv(c, states, j);
    var n: nat, now: nat :| StepAt(c, s, t, n, now);
    StepExplained(c, s, t, n, now);
    var (r, outcome) := t.resolved[i];
    if i < |s.resolved| {
      assert t.resolved[i] == s.resolved[i] by { ResolvedGrows(c, s, t, n); }
      EveryResultHasItsCause(c, states, j, i);
    } else {
      assert NodeProper(c, s.calls, n, s.nodes[n]);
      NewResult(c, s, t, n, i);
    }
  }

  lemma ResolvedGrows(c: Config, s: Sys, t: Sys, n: nat)
    requires n < |s.nodes| && Explained(c, s, t, n)
    ensures |s.resolved| <= |t.resolved| && forall i :: 0 <= i < |s.resolved| ==> t.resolved[i] == s.resolved[i]
  {
    if phase: Phase :| Drained(s, t, n, phase) {
      assert forall i :: 0 <= i < |s.resolved| ==> t.resolved[..|s.resolved|][i] == s.resolved[i];
    }
  }

  lemma NewResult(c: Config, s: Sys, t: Sys, n: nat, i: nat)
    requires n < |s.nodes| && Explained(c, s, t, n) && |s.resolved| <= i < |t.resolved|
    requires forall r :: r in s.nodes[n].pending ==> r.origin == n
    ensures t.resolved[i].0.origin == n && Cause(c, s, t, n, t.resolved[i].0, t.resolved[i].1)
  {
    if r, outcome :| Cause(c, s, t, n, r, outcome) && Completes(s, t, r, outcome) {
      assert t.resolved[i] == (r, outcome);
    } else if r, outcome, ok: bool :| Cause(c, s, t, n, r, outcome) && t == Withdraw(s, n, r, true, ok) {
      assert t.resolved[i] == (r, TimedOut);
      assert Cause(c, s, t, n, r, TimedOut);
    } else if phase: Phase :| Drained(s, t, n, phase) {
      assert t.resolved[i].1 == ShutDown;
    }
  }

  /** The caller gave up the call: it dropped the future before a result came. */
  ghost predicate GivenUp(s: Sys, t: Sys, r: RequestId) {
    exists ok: bool :: r.origin < |s.nodes| && r in s.nodes[r.origin].pending && t == Withdraw(s, r.origin, r, false, ok)
  }

  ghost predicate HasResult(s: Sys, r: RequestId) {
    exists i :: 0 <= i < |s.resolved| && s.resolved[i].0 == r
  }

  /** Whatever stops being pending has got its result or was given up. */
  lemma LeavesWithResult(c: Config, s: Sys, t: Sys, n: nat, r: RequestId)
    requires n < |s.nodes| && Explained(c, s, t, n) && r in s.nodes[n].pending && r.origin == n
    ensures |t.nodes| == |s.nodes| && (r in t.nodes[n].pending || HasResult(t, r) || GivenUp(s, t, r))
  {
    if q, outcome :| Cause(c, s, t, n, q, outcome) && Completes(s, t, q, outcome) {
      assert t.resolved[|s.resolved|].0 == q;
    } else if q, outcome, ok: bool :| Cause(c, s, t, n, q, outcome) && t == Withdraw(s, n, q, true, ok) {
      assert t.resolved[|s.resolved|].0 == q;
    } else if q, ok: bool :| q in s.nodes[n].pending && t == Withdraw(s, n, q, false, ok) {
    }
  }

  lemma PendingStep(c: Config, s: Sys, t: Sys, n: nat, r: RequestId)
    requires n < |s.nodes| && Explained(c, s, t, n) && Registered(s, t) && Local(s, t, n) && r in t.calls
    requires r in s.calls ==> r.origin < |s.nodes|
    requires r in s.calls && r !in s.nodes[r.origin].pending ==> HasResult(s, r)
    ensures r.origin < |t.nodes| && (r in t.nodes[r.origin].pending || HasResult(t, r) || GivenUp(s, t, r))
  {
    if r in s.calls {
      if HasResult(s, r) {
        var i :| 0 <= i < |s.resolved| && s.resolved[i].0 == r;
        ResolvedGrows(c, s, t, n);
        assert t.resolved[i].0 == r;
      } else if n == r.origin {
        LeavesWithResult(c, s, t, n, r);
      }
    }
  }

  ghost predicate Accounted(states: seq<Sys>, k: nat, r: RequestId)
    requires k < |states|
  {
    && r.origin < |states[k].nodes|
    && (|| r in states[k].nodes[r.origin].pending || HasResult(states[k], r)
        || exists i, j :: 0 <= i < j <= k && j == i + 1 && GivenUp(states[i], states[j], r))
  }

  lemma AccountedStep(c: Config, states: seq<Sys>, j: nat, k: nat, r: RequestId)
    requires Run(c, states) && k == j + 1 < |states| && r in states[k].calls
    requires r in states[j].calls ==> Accounted(states, j, r)
    ensures Accounted(states, k, r)
  {
    RunInv(c, states, j);
    var s, t := states[j], states[k];
    assert Step(c, states[j], states[j + 1]);
    var n: nat, now: nat :| StepAt(c, s, t, n, now);
    StepMoves(c, s, t, n, now, r);
    StepExplained(c, s, t, n, now);
    if r !in s.calls || r in s.nodes[r.origin].pending || HasResult(s, r) { PendingStep(c, s, t, n, r); }
  }

  ghost predicate StepAccounts(states: seq<Sys>, k: nat, r: RequestId)
    requires 0 < k < |states|
  {
    r in states[k].calls && (r in states[k - 1].calls ==> Accounted(states, k - 1, r)) ==> Accounted(states, k, r)
  }

  ghost predicate StepsAccount(states: seq<Sys>, r: RequestId) {
    forall k: nat :: 0 < k < |states| ==> StepAccounts(states, k, r)
  }

  lemma {:induction false} CallIsAccountedFor(states: seq<Sys>, k: nat, r: RequestId)
    requires StepsAccount(states, r) && k < |states| && r in states[k].calls && r !in states[0].calls
    ensures Accounted(states, k, r)
  {
    assert StepAccounts(states, k, r);
    if r in states[k - 1].calls { CallIsAccountedFor(states, k - 1, r); }
  }

  /** No call is forgotten: each one that was issued is pending, or has a result, or was given up by its caller in some
      step before. */
  lemma EveryCallIsAccountedFor(c: Config, states: seq<Sys>, k: nat, r: RequestId)
    requires Run(c, states) && k < |states| && r in states[k].calls
    ensures Accounted(states, k, r)
  {
    forall j: nat | 0 < j < |states| ensures StepAccounts(states, j, r) {
      if r in states[j].calls && (r in states[j - 1].calls ==> Accounted(states, j - 1, r)) {
        AccountedStep(c, states, j - 1, j, r);
      }
    }
    assert states[0].calls == Start(c).calls == map[];
    CallIsAccountedFor(states, k, r);
  }

  // ----- what a job replies

  /** Only a job's run takes it out of the queue. */
  lemma ExecutionIsRun(c: Config, s: Sys, t: Sys, n: nat, now: nat, r: RequestId) returns (k: nat, room: bool)
    requires |s.nodes| == c.localities && StepAt(c, s, t, n, now) && n < |t.nodes| && Executes(s, t, n, r)
    ensures !s.nodes[n].phase.Stopped? && k < |s.nodes[n].jobs| && s.nodes[n].jobs[k].request == r
    ensures t == RunJob(c, s, n, k, room)
  {
    if call: Call, ok: bool :|
        call.dest < c.localities && call.dest != n && s.nodes[n].phase.Running? && t == Spawn(c, s, n, call, ok) {
      SpawnMoves(c, s, n, call, ok, r, now);
      SameJobs(s.nodes[n], t.nodes[n], r);
    } else if q: RequestId, timeout: bool, ok: bool :| q in s.nodes[n].pending && t == Withdraw(s, n, q, timeout, ok) {
      WithdrawMoves(c, s, n, q, timeout, ok, r, now);
      SameJobs(s.nodes[n], t.nodes[n], r);
    } else if p: Packet, accepted: bool, room': bool, text: D.Segments :|
        p in s.sent && p.dest == n && !s.nodes[n].phase.Stopped? && t == Deliver(c, s, p, now, accepted, room', text) {
      DeliverKeepsJobs(c, s, p, now, accepted, room', text, r);
    } else if k', room' :| !s.nodes[n].phase.Stopped? && 0 <= k' < |s.nodes[n].jobs| && t == RunJob(c, s, n, k', room') {
      k, room := k', room';
      if s.nodes[n].jobs[k].request != r { OtherJobStays(c, s, n, k, room, r); }
    } else if ok: bool :| !s.nodes[n].phase.Stopped? && s.nodes[n].responses != [] && t == DrainOne(c, s, n, now, ok) {
      DrainOneMoves(c, s, n, now, ok, r);
      SameJobs(s.nodes[n], t.nodes[n], r);
    } else {
      UpkeepMoves(c, s, t, n, now, r);
      SameJobs(s.nodes[n], t.nodes[n], r);
    }
  }

  lemma OtherJobStays(c: Config, s: Sys, n: nat, k: nat, room: bool, r: RequestId)
    requires n < |s.nodes| && k < |s.nodes[n].jobs| && s.nodes[n].jobs[k].request != r && HasJob(s.nodes[n], r)
    ensures HasJob(RunJob(c, s, n, k, room).nodes[n], r)
  {
    var jobs := s.nodes[n].jobs;
    var left := RemoveAt(jobs, k);
    var j :| 0 <= j < |jobs| && jobs[j].request == r;
    assert RunJob(c, s, n, k, room).nodes[n].jobs == left;
    assert left[if j < k then j else j - 1] == jobs[j];
  }
}
