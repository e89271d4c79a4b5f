/** Every step of the remote-call system keeps its invariant. */
module RemoteCallsProofs {
  import opened Wrappers
  import D = Dedup
  import opened RemoteCalls

  // ----- frames

  /** Only node `n` changed, calls are as before, and anything new in the network is proper. */
  lemma NodeStep(c: Config, s: Sys, t: Sys, n: nat)
    requires Inv(c, s) && n < c.localities == |t.nodes|
    requires t.nodes == s.nodes[n := t.nodes[n]] && t.calls == s.calls && !t.fault
    requires NodeProper(c, s.calls, n, t.nodes[n])
    requires forall p :: p in t.sent ==> p in s.sent || Proper(c, s.calls, p.source, p.dest, p.message)
    requires ResolvedOnce(c, t)
    ensures Inv(c, t)
  {
    forall m: nat | m < c.localities ensures NodeProper(c, t.calls, m, t.nodes[m]) {
      if m != n { assert NodeProper(c, s.calls, m, s.nodes[m]); }
    }
  }

  /** The promises are untouched and no pending entry was added. */
  lemma ResolvedFrame(c: Config, s: Sys, t: Sys, n: nat)
    requires ResolvedOnce(c, s) && n < |s.nodes| == |t.nodes|
    requires t.nodes == s.nodes[n := t.nodes[n]] && t.calls == s.calls && t.resolved == s.resolved
    requires t.nodes[n].pending.Keys <= s.nodes[n].pending.Keys
    ensures ResolvedOnce(c, t)
  {
  }

  // ----- the table

  /** Records that stay, or are new and proper, keep the table proper. */
  lemma ExpireProper(c: Config, calls: map<RequestId, Call>, n: nat, table: D.Table, now: nat)
    requires TableProper(c, calls, n, table)
    ensures TableProper(c, calls, n, D.Expire(table, now))
    ensures forall r :: Open(table, r) ==> Open(D.Expire(table, now), r)
  {
    D.ExpireKeeps(c.limits, table, now);
  }

  lemma ExpireStep(c: Config, s: Sys, n: nat, now: nat)
    requires Inv(c, s) && n < c.localities
    ensures Inv(c, Put(s, n, s.nodes[n].(table := D.Expire(s.nodes[n].table, now))))
  {
    assert NodeProper(c, s.calls, n, s.nodes[n]);
    var t := Put(s, n, s.nodes[n].(table := D.Expire(s.nodes[n].table, now)));
    ExpireProper(c, s.calls, n, s.nodes[n].table, now);
    ResolvedFrame(c, s, t, n);
    NodeStep(c, s, t, n);
  }

  lemma ClearStep(c: Config, s: Sys, n: nat)
    requires Inv(c, s) && n < c.localities && s.nodes[n].jobs == [] && s.nodes[n].responses == []
    ensures Inv(c, Put(s, n, s.nodes[n].(table := D.Empty, phase := Stopped)))
  {
    assert NodeProper(c, s.calls, n, s.nodes[n]);
    var t := Put(s, n, s.nodes[n].(table := D.Empty, phase := Stopped));
    ResolvedFrame(c, s, t, n);
    NodeStep(c, s, t, n);
  }

  // ----- replies in the queue

  /** Queuing a proper reply; a cached one must be for a started request with nothing else waiting. */
  lemma QueueStep(c: Config, s: Sys, n: nat, response: Response, room: bool)
    requires Inv(c, s) && n < c.localities
    requires IsReply(response.message) && Proper(c, s.calls, n, response.dest, response.message)
    requires response.cache ==>
               && Open(s.nodes[n].table, response.message.request)
               && (forall k :: 0 <= k < |s.nodes[n].jobs| ==> s.nodes[n].jobs[k].request != response.message.request)
               && (forall k :: 0 <= k < |s.nodes[n].responses| && s.nodes[n].responses[k].cache ==>
                     s.nodes[n].responses[k].message.request != response.message.request)
    ensures Inv(c, Queue(s, n, response, room))
  {
    assert NodeProper(c, s.calls, n, s.nodes[n]);
    var t := Queue(s, n, response, room);
    ResolvedFrame(c, s, t, n);
    NodeStep(c, s, t, n);
  }

  // ----- caller steps

  lemma WithdrawStep(c: Config, s: Sys, o: nat, r: RequestId, timeout: bool, ok: bool)
    requires Inv(c, s) && o < c.localities && r in s.nodes[o].pending
    ensures Inv(c, Withdraw(s, o, r, timeout, ok))
  {
    assert NodeProper(c, s.calls, o, s.nodes[o]);
    var t := Withdraw(s, o, r, timeout, ok);
    assert ResolvedOnce(c, t) by {
      forall k | 0 <= k < |s.resolved| ensures s.resolved[k].0 != r { }
    }
    NodeStep(c, s, t, o);
  }

  lemma ResolveStep(c: Config, s: Sys, p: Packet)
    requires Inv(c, s) && p in s.sent && p.dest < c.localities && IsReply(p.message)
    ensures Inv(c, Resolve(s, p.dest, p.source, p.message))
  {
    assert NodeProper(c, s.calls, p.dest, s.nodes[p.dest]);
    var t := Resolve(s, p.dest, p.source, p.message);
    var r := p.message.request;
    if r in s.nodes[p.dest].pending {
      assert ResolvedOnce(c, t) by {
        forall k | 0 <= k < |s.resolved| ensures s.resolved[k].0 != r { }
      }
      NodeStep(c, s, t, p.dest);
    }
  }

  lemma DrainedStep(c: Config, s: Sys, t: Sys, o: nat, phase: Phase)
    requires Inv(c, s) && o < c.localities && Drained(s, t, o, phase)
    ensures Inv(c, t)
  {
    assert NodeProper(c, s.calls, o, s.nodes[o]);
    var n := |s.resolved|;
    assert forall k :: 0 <= k < n ==> t.resolved[k] == s.resolved[k];
    assert ResolvedOnce(c, t);
    forall p | p in t.sent ensures p in s.sent || Proper(c, s.calls, p.source, p.dest, p.message) {
      if p !in s.sent { assert p.message.request in s.nodes[o].pending; }
    }
    NodeStep(c, s, t, o);
  }

  /** A fresh request id changes nothing that was proper. */
  lemma NewCall(c: Config, s: Sys, r: RequestId, call: Call, n: nat)
    requires Inv(c, s) && n < c.localities && r !in s.calls
    requires r.origin == n ==> r.sequence + 1 <= s.nodes[n].nextSequence
    ensures NodeProper(c, s.calls[r := call], n, s.nodes[n])
  {
    assert NodeProper(c, s.calls, n, s.nodes[n]);
    var calls := s.calls[r := call];
    forall q | q in s.nodes[n].table.entries ensures EntryProper(c, calls, n, q, s.nodes[n].table.entries[q]) {
      assert EntryProper(c, s.calls, n, q, s.nodes[n].table.entries[q]);
    }
  }

  lemma SpawnStep(c: Config, s: Sys, o: nat, call: Call, ok: bool)
    requires Inv(c, s) && o < c.localities && call.dest < c.localities && call.dest != o
    ensures Inv(c, Spawn(c, s, o, call, ok))
  {
    assert NodeProper(c, s.calls, o, s.nodes[o]);
    var r := D.RequestId(o, s.nodes[o].nextSequence);
    var t := Spawn(c, s, o, call, ok);
    var s1 := Put(s, o, s.nodes[o].(nextSequence := s.nodes[o].nextSequence + 1));
    ResolvedFrame(c, s, s1, o);
    NodeStep(c, s, s1, o);
    if t != s1 {
      forall n: nat | n < c.localities ensures NodeProper(c, t.calls, n, t.nodes[n]) {
        NewCall(c, s1, r, call, n);
        if n == o { assert PendingProper(t.calls, o, t.nodes[o].pending); }
      }
      assert ResolvedOnce(c, t);
      forall p | p in t.sent ensures Proper(c, t.calls, p.source, p.dest, p.message) {
        if p in s.sent { assert Proper(c, s.calls, p.source, p.dest, p.message); }
      }
    }
  }

  // ----- callee steps

  /** What the request table answers to a proper request. */
  lemma BeginAnswers(c: Config, calls: map<RequestId, Call>, n: nat, table: D.Table, m: Message, now: nat)
    requires TableProper(c, calls, n, table) && m.kind.Request? && Proper(c, calls, m.request.origin, n, m)
    ensures var (table', answer) := D.Begin(c.limits, table, m.request, m.action, m.domain, now);
            && TableProper(c, calls, n, table')
            && (forall r :: Open(table, r) ==> Open(table', r))
            && answer != Err(D.ChangedMetadata)
            && (answer == Ok(D.New) ==> Open(table', m.request) && !Open(table, m.request))
            && (answer.Ok? && (answer.value.Replay? || answer.value.Unavailable? || answer.value.WasCancelled?) ==>
                  IsReply(answer.value.message) && Proper(c, calls, n, m.request.origin, answer.value.message))
  {
    D.BeginKeeps(c.limits, table, m.request, m.action, m.domain, now);
    D.ExpireKeeps(c.limits, table, now);
    var e := D.Expire(table, now);
    if m.request in e.entries {
      assert EntryProper(c, calls, n, m.request, table.entries[m.request]);
    }
    var table' := D.Begin(c.limits, table, m.request, m.action, m.domain, now).0;
    forall r | r in table'.entries ensures EntryProper(c, calls, n, r, table'.entries[r]) {
      if r in e.entries { assert EntryProper(c, calls, n, r, table.entries[r]); }
    }
  }

  /** Replacing the table by one that keeps what is open. */
  lemma TableStep(c: Config, s: Sys, n: nat, table: D.Table)
    requires Inv(c, s) && n < c.localities && TableProper(c, s.calls, n, table)
    requires forall r :: Open(s.nodes[n].table, r) ==> Open(table, r)
    ensures Inv(c, Put(s, n, s.nodes[n].(table := table)))
  {
    assert NodeProper(c, s.calls, n, s.nodes[n]);
    var t := Put(s, n, s.nodes[n].(table := table));
    ResolvedFrame(c, s, t, n);
    NodeStep(c, s, t, n);
  }

  lemma JobStep(c: Config, s: Sys, n: nat, job: Job)
    requires Inv(c, s) && n < c.localities && JobProper(c, s.calls, n, s.nodes[n].table, job)
    requires forall k :: 0 <= k < |s.nodes[n].jobs| ==> s.nodes[n].jobs[k].request != job.request
    requires forall k :: 0 <= k < |s.nodes[n].responses| && s.nodes[n].responses[k].cache ==>
               s.nodes[n].responses[k].message.request != job.request
    ensures Inv(c, Put(s, n, s.nodes[n].(jobs := s.nodes[n].jobs + [job])))
  {
    assert NodeProper(c, s.calls, n, s.nodes[n]);
    var t := Put(s, n, s.nodes[n].(jobs := s.nodes[n].jobs + [job]));
    ResolvedFrame(c, s, t, n);
    NodeStep(c, s, t, n);
  }

  lemma RequestStep(c: Config, s: Sys, p: Packet, now: nat, accepted: bool, room: bool, text: D.Segments)
    requires Inv(c, s) && p in s.sent && p.dest < c.localities && p.message.kind.Request?
    ensures Inv(c, HandleRequest(c, s, p.dest, p.source, p.message, now, accepted, room, text))
  {
    var n, m := p.dest, p.message;
    assert NodeProper(c, s.calls, n, s.nodes[n]);
    assert Proper(c, s.calls, p.source, n, m);
    if !s.nodes[n].phase.Running? {
      QueueStep(c, s, n, Response(p.source, FailureReply(m, text), false), room);
    } else {
      BeginAnswers(c, s.calls, n, s.nodes[n].table, m, now);
      var (table, answer) := D.Begin(c.limits, s.nodes[n].table, m.request, m.action, m.domain, now);
      TableStep(c, s, n, table);
      var s1 := Put(s, n, s.nodes[n].(table := table));
      if answer.Err? {
        QueueStep(c, s1, n, Response(p.source, FailureReply(m, text), false), room);
      } else {
        match answer.value
        case New =>
          if c.known(m.action) && accepted {
            JobStep(c, s1, n, Job(p.source, m.request, m.action, m.domain, m.payload));
          } else {
            QueueStep(c, s1, n, Response(p.source, FailureReply(m, text), true), room);
          }
        case AlreadyRunning =>
        case Replay(reply) => QueueStep(c, s1, n, Response(p.source, reply, false), room);
        case Unavailable(reply) => QueueStep(c, s1, n, Response(p.source, reply, false), room);
        case WasCancelled(reply) => QueueStep(c, s1, n, Response(p.source, reply, false), room);
      }
    }
  }

  lemma CancelProper(c: Config, calls: map<RequestId, Call>, n: nat, table: D.Table, m: Message, now: nat)
    requires TableProper(c, calls, n, table) && m.kind.Cancel? && Proper(c, calls, m.request.origin, n, m)
    ensures var (table', answer) := D.CancelRequest(c.limits, table, m.request, m.action, m.domain, now);
            && TableProper(c, calls, n, table') && answer.Ok?
            && forall r :: Open(table, r) ==> Open(table', r)
  {
    D.CancelKeeps(c.limits, table, m.request, m.action, m.domain, now);
    D.ExpireKeeps(c.limits, table, now);
    var e := D.Expire(table, now);
    var table' := D.CancelRequest(c.limits, table, m.request, m.action, m.domain, now).0;
    if m.request in e.entries { assert EntryProper(c, calls, n, m.request, table.entries[m.request]); }
    forall r | r in table'.entries ensures EntryProper(c, calls, n, r, table'.entries[r]) {
      if r in e.entries { assert EntryProper(c, calls, n, r, table.entries[r]); }
    }
  }

  lemma CancelStep(c: Config, s: Sys, p: Packet, now: nat)
    requires Inv(c, s) && p in s.sent && p.dest < c.localities && p.message.kind.Cancel?
    ensures Inv(c, HandleCancel(c, s, p.dest, p.message, now))
  {
    var n, m := p.dest, p.message;
    assert NodeProper(c, s.calls, n, s.nodes[n]);
    assert Proper(c, s.calls, p.source, n, m);
    CancelProper(c, s.calls, n, s.nodes[n].table, m, now);
    TableStep(c, s, n, D.CancelRequest(c.limits, s.nodes[n].table, m.request, m.action, m.domain, now).0);
  }

  lemma RemoveJob(c: Config, s: Sys, n: nat, k: nat)
    requires Inv(c, s) && n < c.localities && k < |s.nodes[n].jobs|
    ensures Inv(c, Put(s, n, s.nodes[n].(jobs := RemoveAt(s.nodes[n].jobs, k))))
    ensures forall j :: 0 <= j < |s.nodes[n].jobs| - 1 ==>
              RemoveAt(s.nodes[n].jobs, k)[j] == s.nodes[n].jobs[if j < k then j else j + 1]
  {
    assert NodeProper(c, s.calls, n, s.nodes[n]);
    var left := RemoveAt(s.nodes[n].jobs, k);
    var t := Put(s, n, s.nodes[n].(jobs := left));
    assert forall j :: 0 <= j < |left| ==> left[j] == s.nodes[n].jobs[if j < k then j else j + 1];
    ResolvedFrame(c, s, t, n);
    NodeStep(c, s, t, n);
  }

  lemma RunJobStep(c: Config, s: Sys, n: nat, k: nat, room: bool)
    requires Inv(c, s) && n < c.localities && k < |s.nodes[n].jobs|
    ensures Inv(c, RunJob(c, s, n, k, room))
  {
    assert NodeProper(c, s.calls, n, s.nodes[n]);
    var job := s.nodes[n].jobs[k];
    RemoveJob(c, s, n, k);
    var s1 := Put(s, n, s.nodes[n].(jobs := RemoveAt(s.nodes[n].jobs, k)));
    var entry := s.nodes[n].table.entries[job.request];
    assert JobProper(c, s.calls, n, s.nodes[n].table, job);
    QueueStep(c, s1, n, Response(job.requester, JobReply(c, job, entry.cancelled), true), room);
  }

  /** Recording a reply closes its own request and no other. */
  lemma CompleteOpens(c: Config, calls: map<RequestId, Call>, n: nat, table: D.Table, m: Message, now: nat)
    requires TableProper(c, calls, n, table) && Open(table, m.request)
    requires IsReply(m) && Proper(c, calls, n, m.request.origin, m) && D.Bytes(m.payload) <= D.USIZE_MAX
    ensures var (table', answer) := D.Complete(c.limits, table, m, now);
            && answer == Ok(()) && TableProper(c, calls, n, table')
            && forall r :: r != m.request && Open(table, r) ==> Open(table', r)
  {
    assert EntryProper(c, calls, n, m.request, table.entries[m.request]);
    D.CompleteKeeps(c.limits, table, m, now);
    var table' := D.Complete(c.limits, table, m, now).0;
    forall r | r in table'.entries ensures EntryProper(c, calls, n, r, table'.entries[r]) {
      if r != m.request { assert EntryProper(c, calls, n, r, table.entries[r]); }
    }
  }

  lemma DrainOneStep(c: Config, s: Sys, n: nat, now: nat, ok: bool)
    requires Inv(c, s) && n < c.localities && s.nodes[n].responses != []
    ensures Inv(c, DrainOne(c, s, n, now, ok))
  {
    var node := s.nodes[n];
    assert NodeProper(c, s.calls, n, node);
    var response := node.responses[0];
    assert ResponseProper(c, s.calls, n, node.table, response);
    var t := DrainOne(c, s, n, now, ok);
    var rest := node.responses[1..];
    assert forall k :: 0 <= k < |rest| ==> rest[k] == node.responses[k + 1];
    if ok && response.cache {
      CompleteOpens(c, s.calls, n, node.table, response.message, now);
    }
    assert NodeProper(c, s.calls, n, t.nodes[n]);
    ResolvedFrame(c, s, t, n);
    NodeStep(c, s, t, n);
  }

  // ----- all steps, all runs

  lemma StepKeeps(c: Config, s: Sys, t: Sys)
    requires Inv(c, s) && Step(c, s, t)
    ensures Inv(c, t)
  {
    var n: nat, now: nat :| StepAt(c, s, t, n, now);
    if call: Call, ok: bool :|
        call.dest < c.localities && call.dest != n && s.nodes[n].phase.Running? && t == Spawn(c, s, n, call, ok) {
      SpawnStep(c, s, n, call, ok);
    } else if r: RequestId, timeout: bool, ok: bool :|
        r in s.nodes[n].pending && t == Withdraw(s, n, r, timeout, ok) {
      WithdrawStep(c, s, n, r, timeout, ok);
    } else if p: Packet, accepted: bool, room: bool, text: D.Segments :|
        p in s.sent && p.dest == n && !s.nodes[n].phase.Stopped? && t == Deliver(c, s, p, now, accepted, room, text) {
      if p.message.kind.Request? { RequestStep(c, s, p, now, accepted, room, text); }
      else if p.message.kind.Cancel? { CancelStep(c, s, p, now); }
      else { ResolveStep(c, s, p); }
    } else if k: nat, room: bool :| !s.nodes[n].phase.Stopped? && k < |s.nodes[n].jobs| && t == RunJob(c, s, n, k, room) {
      RunJobStep(c, s, n, k, room);
    } else if ok: bool :| !s.nodes[n].phase.Stopped? && s.nodes[n].responses != [] && t == DrainOne(c, s, n, now, ok) {
      DrainOneStep(c, s, n, now, ok);
    } else if t == Put(s, n, s.nodes[n].(table := D.Expire(s.nodes[n].table, now))) {
      ExpireStep(c, s, n, now);
    } else if phase: Phase :| Drained(s, t, n, phase) {
      DrainedStep(c, s, t, n, phase);
    } else {
      ClearStep(c, s, n);
    }
  }

  lemma {:induction false} RunInv(c: Config, states: seq<Sys>, k: nat)
    requires Run(c, states) && k < |states|
    ensures Inv(c, states[k])
  {
    if k == 0 {
      forall n: nat | n < c.localities ensures NodeProper(c, states[0].calls, n, states[0].nodes[n]) { }
    } else {
      RunInv(c, states, k - 1);
      StepKeeps(c, states[k - 1], states[k]);
    }
  }

  /** Every call resolves at most once, and a success is the handler's output on that call's own payload. */
  lemma ResolvesAtMostOnce(c: Config, states: seq<Sys>, k: nat)
    requires Run(c, states) && k < |states|
    ensures var s := states[k];
            && (forall i, j :: 0 <= i < j < |s.resolved| ==> s.resolved[i].0 != s.resolved[j].0)
            && forall i :: 0 <= i < |s.resolved| && s.resolved[i].1.Success? ==>
                 && s.resolved[i].0 in s.calls
                 && c.handler(s.calls[s.resolved[i].0].action, s.calls[s.resolved[i].0].payload) == Ok(s.resolved[i].1.payload)
  {
    RunInv(c, states, k);
  }

  /** Recording a completion never finds the request missing, completed or changed; no duplicate request,
      cancellation or result ever carries the wrong metadata. */
  lemma NoProtocolError(c: Config, states: seq<Sys>, k: nat)
    requires Run(c, states) && k < |states|
    ensures !states[k].fault
  {
    RunInv(c, states, k);
  }

  /** A request has at most one job or unrecorded reply at a time, so no two executions of it overlap. */
  lemma NeverRunsTwiceAtOnce(c: Config, states: seq<Sys>, k: nat, n: nat)
    requires Run(c, states) && k < |states| && n < c.localities
    ensures NoDoubles(states[k].nodes[n])
    ensures forall j :: 0 <= j < |states[k].nodes[n].jobs| ==> Open(states[k].nodes[n].table, states[k].nodes[n].jobs[j].request)
  {
    RunInv(c, states, k);
    assert NodeProper(c, states[k].calls, n, states[k].nodes[n]);
    forall j | 0 <= j < |states[k].nodes[n].jobs| ensures Open(states[k].nodes[n].table, states[k].nodes[n].jobs[j].request) {
      assert JobProper(c, states[k].calls, n, states[k].nodes[n].table, states[k].nodes[n].jobs[j]);
    }
  }
}
