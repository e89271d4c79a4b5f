/** While every payload decodes, the first failing input is always reached: it is waiting somewhere until its
  callback has run, whatever fails elsewhere in the meantime. */
module PmapFirstError {
  import opened Wrappers
  import opened Scheduler
  import SP = SchedulerProofs
  import opened SerialMap
  import opened Pmap
  import opened PmapInvariant
  import opened PmapSafety
  import opened PmapSteps
  import opened PmapRootSteps
  import opened PmapErrors

  /** The index that sequential `map` reports. */
  ghost predicate FirstFailing<T, U, E>(c: Config<T, U, E>, m: nat) {
    m < |c.items| && c.f(c.items[m]).Err? && forall j: nat :: j < m ==> c.f(c.items[j]).Ok?
  }

  ghost predicate Reached<T, U, E>(c: Config<T, U, E>, s: Sys<T, U>, m: nat)
    requires |s.workers| == c.size
  {
    m in s.calls || Waiting(c, s, m)
  }

  /** Evaluating the batch that holds the first failing input runs its callback, in every local mode. */
  lemma EvaluateReaches<T, U, E>(c: Config<T, U, E>, b: Batch<T>, m: nat)
    requires Genuine(c, b.items) && GoodMeta(|c.items|, MetaOf(b)) && Has(b, m) && FirstFailing(c, m)
    ensures m in Calls(c, b)
  {
    var values, meta := ValuesOf(b), MetaOf(b);
    MapExact(values, c.f);
    var k :| 0 <= k < |meta.indices| && meta.indices[k] == m;
    forall j | 0 <= j < k ensures c.f(values[j]).Ok? {
      assert meta.indices[j] < m && values[j] == c.items[meta.indices[j]];
    }
    assert values[k] == c.items[m];
    assert Calls(c, b)[k] == m;
  }

  /** An index that fails outside the queue has the first failing one outside the queue too, because batches
      are handed out in order. */
  lemma ErrorsComeLater<T, U, E>(c: Config<T, U, E>, s: State<T, U>, j: nat, p: Place, m: nat)
    requires WellFormed(s) && |s.ordered| == |c.items| && j < |c.items| && c.f(c.items[j]).Err?
    requires At(s, j, p) && p != InPending && FirstFailing(c, m)
    ensures !At(s, m, InPending)
  {
    if At(s, m, InPending) {
      var k :| 0 <= k < |s.pending| && s.pending[k].index == m;
      var i := j - (|s.ordered| - |s.pending|);
      assert s.pending[i].index == j;
      assert At(s, j, InPending);
    }
  }

  // ----- inside one worker

  lemma SendCarries<T, U, E>(c: Config<T, U, E>, w: nat, me: Worker<T, U>, m: nat)
    requires Sending(me.pc) && NoWire(me) && Unevaluated(View(me.pc, me.up, []), m)
    ensures Unevaluated(SentView(c, w, me), m)
  {
  }

  lemma ReceiveCarries<T, U, E>(c: Config<T, U, E>, me: Worker<T, U>, m: nat)
    requires me.pc.Wait? && |me.down| == 1 && Unevaluated(View(me.pc, me.up, me.down), m)
    ensures var me' := Receive(c, me, true); Unevaluated(View(me'.pc, me'.up, me'.down), m)
  {
  }

  lemma EvalCarries<T, U>(v: View<T, U>, outcome: Outcome<U>, m: nat)
    requires v.pc.Held? && v.down == [] && Unevaluated(v, m)
    ensures Has(v.pc.batch, m) || Unevaluated(v.(pc := SendOutcome(v.pc.batch, outcome, v.pc.next)), m)
  {
  }

  // ----- action by action

  /** A step of one worker that keeps what it holds, and leaves the rest of the system alone. */
  lemma LocalReaches<T, U, E>(c: Config<T, U, E>, s: Sys<T, U>, t: Sys<T, U>, w: nat, m: nat)
    requires |s.workers| == c.size == |t.workers| && c.Worker(w) && Reached(c, s, m)
    requires t == SetWorker(s, w, t.workers[w]).(calls := t.calls)
    requires forall i :: i in s.calls ==> i in t.calls
    requires Unevaluated(ViewOf(s, w), m) ==> Unevaluated(ViewOf(t, w), m) || m in t.calls
    ensures Reached(c, t, m)
  {
    if m !in t.calls && !At(s.sched, m, InPending) && !(s.job.Some? && Has(s.job.value, m)) {
      var u: nat :| c.Worker(u) && Unevaluated(ViewOf(s, u), m);
      if u != w { assert ViewOf(t, u) == ViewOf(s, u); }
      assert Unevaluated(ViewOf(t, u), m);
    }
  }

  lemma SendReaches<T, U, E>(c: Config<T, U, E>, s: Sys<T, U>, w: nat, m: nat)
    requires Inv(c, s) && Clean(c, s) && c.Worker(w) && Sending(s.workers[w].pc) && Reached(c, s, m)
    ensures Reached(c, DoSend(c, s, w), m)
  {
    assert WorkerOk(c, s, w);
    var me, t := s.workers[w], DoSend(c, s, w);
    assert ViewOf(s, w) == View(me.pc, me.up, []);
    assert ViewOf(t, w) == SentView(c, w, me);
    assert NoWire(me);
    if Unevaluated(ViewOf(s, w), m) { SendCarries(c, w, me, m); }
    LocalReaches(c, s, t, w, m);
  }

  lemma RecvReaches<T, U, E>(c: Config<T, U, E>, s: Sys<T, U>, w: nat, m: nat)
    requires Inv(c, s) && c.Worker(w) && s.workers[w].pc.Wait? && s.workers[w].down != [] && Reached(c, s, m)
    ensures Reached(c, DoRecv(c, s, w, true), m)
  {
    assert WorkerOk(c, s, w);
    var me, t := s.workers[w], DoRecv(c, s, w, true);
    assert Channels(ViewOf(s, w));
    assert ViewOf(s, w) == View(me.pc, me.up, me.down);
    assert ViewOf(t, w) == View(t.workers[w].pc, t.workers[w].up, t.workers[w].down);
    if Unevaluated(ViewOf(s, w), m) { ReceiveCarries(c, me, m); }
    LocalReaches(c, s, t, w, m);
  }

  lemma EvalReaches<T, U, E>(c: Config<T, U, E>, s: Sys<T, U>, w: nat, m: nat)
    requires Inv(c, s) && c.Worker(w) && s.workers[w].pc.Held? && FirstFailing(c, m) && Reached(c, s, m)
    ensures Reached(c, DoEval(c, s, w), m)
  {
    assert WorkerOk(c, s, w);
    var v, t := ViewOf(s, w), DoEval(c, s, w);
    var b := v.pc.batch;
    assert Channels(v);
    assert ViewOf(t, w) == v.(pc := SendOutcome(b, Evaluate(c, b), v.pc.next));
    if Unevaluated(v, m) {
      EvalCarries(v, Evaluate(c, b), m);
      if Has(b, m) {
        assert Flow(v)[0] == b;
        FlowPlace(c, s, w, 0);
        EvaluateReaches(c, b, m);
      }
    }
    LocalReaches(c, s, t, w, m);
  }

  lemma FinishReaches<T, U, E>(c: Config<T, U, E>, s: Sys<T, U>, m: nat)
    requires Inv(c, s) && s.job.Some? && s.outbox.None? && FirstFailing(c, m) && Reached(c, s, m)
    ensures Reached(c, Finish(c, s), m)
  {
    var t, b := Finish(c, s), s.job.value;
    EvaluateGives(c, b);
    assert GoodMeta(|c.items|, MetaOf(b));
    if m in s.calls {
      assert m in t.calls;
    } else if Has(b, m) {
      EvaluateReaches(c, b, m);
    } else if At(s.sched, m, InPending) {
      if Evaluate(c, b).CallbackError? {
        FailingIndex(c, b);
        ErrorsComeLater(c, s.sched, Evaluate(c, b).index, AtRoot, m);
      }
      assert At(t.sched, m, InPending);
    } else {
      var u: nat :| c.Worker(u) && Unevaluated(ViewOf(s, u), m);
      assert ViewOf(t, u) == ViewOf(s, u);
    }
  }

  /** The index a failed batch reports is one of its own, and its callback fails. */
  lemma FailingIndex<T, U, E>(c: Config<T, U, E>, b: Batch<T>)
    requires Genuine(c, b.items) && Evaluate(c, b).CallbackError?
    ensures var j := Evaluate(c, b).index; Has(b, j) && j < |c.items| && c.f(c.items[j]).Err?
  {
    EvaluateGives(c, b);
    var values := ValuesOf(b);
    ModesAgree(c.mode, values, c.f);
    MapExact(values, c.f);
    var k := Map(values, c.f).error.index;
    assert MetaOf(b).indices[k] == b.items[k].index;
  }

  /** A message is handled: what it leaves pending or in the worker it came from, and everywhere else, stays. */
  lemma ServedReaches<T, U, E>(c: Config<T, U, E>, s: Sys<T, U>, t: Sys<T, U>, w: nat, m: nat)
    requires |s.workers| == c.size == |t.workers| && c.Worker(w) && Reached(c, s, m)
    requires t.calls == s.calls && t.job == s.job
    requires forall u: nat :: c.Worker(u) && u != w ==> ViewOf(t, u) == ViewOf(s, u)
    requires Unevaluated(ViewOf(s, w), m) ==> Unevaluated(ViewOf(t, w), m)
    requires At(s.sched, m, InPending) ==> At(t.sched, m, InPending) || Unevaluated(ViewOf(t, w), m)
    ensures Reached(c, t, m)
  {
    if m !in t.calls && !At(s.sched, m, InPending) && !(s.job.Some? && Has(s.job.value, m)) {
      var u: nat :| c.Worker(u) && Unevaluated(ViewOf(s, u), m);
      if u != w { assert ViewOf(t, u) == ViewOf(s, u); }
      assert Unevaluated(ViewOf(t, u), m);
    }
  }

  lemma ReadyReaches<T, U, E>(c: Config<T, U, E>, s: Sys<T, U>, w: nat, m: nat)
    requires Inv(c, s) && c.Worker(w) && s.outbox.None? && s.workers[w].up != [] && s.workers[w].up[0].Ready?
    requires Reached(c, s, m)
    ensures |DoRootRecv(c, s, w, true).workers| == c.size && Reached(c, DoRootRecv(c, s, w, true), m)
  {
    var t := DoRootRecv(c, s, w, true);
    ReadyCarries(c, s, w, m);
    assert forall u: nat :: c.Worker(u) && u != w ==> t.workers[u] == s.workers[u];
    ServedReaches(c, s, t, w, m);
  }

  lemma ReadyCarries<T, U, E>(c: Config<T, U, E>, s: Sys<T, U>, w: nat, m: nat)
    requires Inv(c, s) && c.Worker(w) && s.outbox.None? && s.workers[w].up != [] && s.workers[w].up[0].Ready?
    ensures var t := DoRootRecv(c, s, w, true);
            && |t.workers| == c.size
            && (Unevaluated(ViewOf(s, w), m) ==> Unevaluated(ViewOf(t, w), m))
            && (At(s.sched, m, InPending) ==> At(t.sched, m, InPending) || Unevaluated(ViewOf(t, w), m))
  {
    assert WorkerOk(c, s, w);
    var v := ViewOf(s, w);
    ReadyView(c.prefetch, v);
    ReadyAnswered(c, s, DoRootRecv(c, s, w, true), w);
    AnswerCarries(v, OnRemoteReady(s.sched, w).1.value, m);
    if At(s.sched, m, InPending) { ReadyPending(s.sched, w, m); }
  }

  /** An answer adds its batch to what the worker holds. */
  lemma AnswerCarries<T, U>(v: View<T, U>, d: Dispatch<T>, m: nat)
    requires v.down == []
    ensures var v' := v.(up := [], down := [d]);
            && (Unevaluated(v, m) ==> Unevaluated(v', m))
            && (d.Task? && Has(d.batch, m) ==> Unevaluated(v', m))
  {
    var v' := v.(up := [], down := [d]);
    assert v'.down[0] == d;
  }

  /** What leaves the queue is in the answer. */
  lemma ReadyPending<T, U>(s: State<T, U>, w: int, m: nat)
    requires WellFormed(s) && OnRemoteReady(s, w).1.Ok? && At(s, m, InPending)
    ensures var (t, r) := OnRemoteReady(s, w);
            At(t, m, InPending) || (r.value.Task? && Has(r.value.batch, m))
  {
    var (t, r) := OnRemoteReady(s, w);
    if r.value.Task? { SP.BatchFacts(s); }
  }

  /** No reply empties the queue of the first failing input. */
  lemma ReplyPending<T, U, E>(c: Config<T, U, E>, s: Sys<T, U>, w: nat, m: nat)
    requires Inv(c, s) && c.Worker(w) && s.outbox.None?
    requires s.workers[w].up != [] && s.workers[w].up[0].Reply? && !s.workers[w].up[0].outcome.WireError?
    requires FirstFailing(c, m) && At(s.sched, m, InPending)
    ensures s.workers[w].up[0].outcome.Values?
  {
    var v, reply := ViewOf(s, w), s.workers[w].up[0];
    assert WorkerOk(c, s, w);
    if reply.outcome.CallbackError? {
      assert reply == v.up[0] && Truthful(c, reply.batch, reply.outcome);
      assert Flow(v)[0] == reply.batch;
      FlowPlace(c, s, w, 0);
      FailingIndex(c, reply.batch);
      ErrorsComeLater(c, s.sched, Evaluate(c, reply.batch).index, Current(w), m);
    }
  }

  lemma ReplyLeaves<T, U, E>(c: Config<T, U, E>, s: Sys<T, U>, w: nat)
    requires w < |s.workers| && s.outbox.None? && s.workers[w].up != [] && s.workers[w].up[0].Reply?
    ensures var t := DoRootRecv(c, s, w, true);
            && t == SetWorker(s, w, s.workers[w].(up := s.workers[w].up[1..])).(sched := t.sched, fault := t.fault)
            && (s.workers[w].up[0].outcome.Values? ==> t.sched.pending == s.sched.pending)
  {
  }

  lemma ReplyReaches<T, U, E>(c: Config<T, U, E>, s: Sys<T, U>, w: nat, m: nat)
    requires Inv(c, s) && c.Worker(w) && s.outbox.None?
    requires s.workers[w].up != [] && s.workers[w].up[0].Reply? && !s.workers[w].up[0].outcome.WireError?
    requires FirstFailing(c, m) && Reached(c, s, m)
    ensures |DoRootRecv(c, s, w, true).workers| == c.size && Reached(c, DoRootRecv(c, s, w, true), m)
  {
    var t := DoRootRecv(c, s, w, true);
    ReplyLeaves(c, s, w);
    if At(s.sched, m, InPending) { ReplyPending(c, s, w, m); }
    assert forall u: nat :: c.Worker(u) && u != w ==> t.workers[u] == s.workers[u];
    ServedReaches(c, s, t, w, m);
  }

  lemma StartReaches<T, U, E>(c: Config<T, U, E>, s: Sys<T, U>, m: nat)
    requires Inv(c, s) && s.outbox.None? && s.job.None? && !s.sched.root.Stopped? && Reached(c, s, m)
    ensures Reached(c, DoRootStart(s), m)
  {
    var t := DoRootStart(s);
    if At(s.sched, m, InPending) && !s.sched.failed { SP.BatchFacts(s.sched); }
    if m !in s.calls && !At(s.sched, m, InPending) {
      var u: nat :| c.Worker(u) && Unevaluated(ViewOf(s, u), m);
      assert ViewOf(t, u) == ViewOf(s, u);
    }
  }

  lemma AnswerReaches<T, U, E>(c: Config<T, U, E>, s: Sys<T, U>, m: nat)
    requires Inv(c, s) && s.outbox.Some? && s.outbox.value.0 < c.size && Reached(c, s, m)
    ensures Reached(c, DoRootSend(s), m)
  {
    var t := DoRootSend(s);
    forall u: nat | c.Worker(u) ensures ViewOf(t, u) == ViewOf(s, u) { }
    if m !in s.calls && !At(s.sched, m, InPending) && !(s.job.Some? && Has(s.job.value, m)) {
      var u: nat :| c.Worker(u) && Unevaluated(ViewOf(s, u), m);
      assert Unevaluated(ViewOf(t, u), m);
    }
  }

  ghost predicate NoWireUp<T, U>(me: Worker<T, U>) {
    forall k :: 0 <= k < |me.up| && me.up[k].Reply? ==> !me.up[k].outcome.WireError?
  }

  /** In a system where nothing has failed to decode, replies are values or callback errors. */
  ghost predicate NoWireReplies<T, U>(s: Sys<T, U>) {
    forall w: nat {:trigger s.workers[w]} :: w < |s.workers| ==> NoWireUp(s.workers[w])
  }

  lemma ServeReaches<T, U, E>(c: Config<T, U, E>, s: Sys<T, U>, w: nat, m: nat)
    requires Inv(c, s) && NoWireReplies(s) && c.Worker(w) && s.outbox.None? && s.workers[w].up != []
    requires FirstFailing(c, m) && Reached(c, s, m)
    ensures |DoRootRecv(c, s, w, true).workers| == c.size && Reached(c, DoRootRecv(c, s, w, true), m)
  {
    assert NoWireUp(s.workers[w]);
    match s.workers[w].up[0]
    case Ready => ReadyReaches(c, s, w, m);
    case Reply(_, _) => ReplyReaches(c, s, w, m);
    case Drain => DrainReaches(c, s, w, m);
  }

  lemma StepReaches<T, U, E>(c: Config<T, U, E>, s: Sys<T, U>, a: Action, m: nat)
    requires Inv(c, s) && Clean(c, s) && NoWireReplies(s) && Enabled(c, s, a) && Decodes(a)
    requires FirstFailing(c, m) && Reached(c, s, m)
    ensures Reached(c, Step(c, s, a), m)
  {
    match a
    case WorkerSend(w) => SendReaches(c, s, w, m);
    case WorkerRecv(w, ok) => RecvReaches(c, s, w, m);
    case WorkerEval(w) => EvalReaches(c, s, w, m);
    case RootRecv(w, ok) => ServeReaches(c, s, w, m);
    case RootSend => AnswerReaches(c, s, m);
    case RootStart => StartReaches(c, s, m);
    case RootFinish => FinishReaches(c, s, m);
  }

  lemma DrainReaches<T, U, E>(c: Config<T, U, E>, s: Sys<T, U>, w: nat, m: nat)
    requires Inv(c, s) && c.Worker(w) && s.outbox.None? && s.workers[w].up != [] && s.workers[w].up[0].Drain?
    requires Reached(c, s, m)
    ensures |DoRootRecv(c, s, w, true).workers| == c.size && Reached(c, DoRootRecv(c, s, w, true), m)
  {
    var t := DoRootRecv(c, s, w, true);
    assert forall u: nat :: c.Worker(u) && u != w ==> t.workers[u] == s.workers[u];
    ServedReaches(c, s, t, w, m);
  }

  lemma SendNoWire<T, U, E>(c: Config<T, U, E>, w: nat, me: Worker<T, U>)
    requires NoWireUp(me) && NoWire(me)
    ensures NoWireUp(Send(c, w, me))
  {
  }

  lemma ServeNoWire<T, U, E>(c: Config<T, U, E>, s: Sys<T, U>, w: nat)
    requires w < |s.workers| && s.workers[w].up != []
    ensures var t := DoRootRecv(c, s, w, true);
            && |t.workers| == |s.workers|
            && forall u: nat :: u < |s.workers| ==> t.workers[u].up == if u == w then s.workers[w].up[1..] else s.workers[u].up
  {
  }

  lemma StepNoWire<T, U, E>(c: Config<T, U, E>, s: Sys<T, U>, a: Action)
    requires |s.workers| == c.size && Clean(c, s) && NoWireReplies(s) && Enabled(c, s, a) && Decodes(a)
    ensures NoWireReplies(Step(c, s, a))
  {
    var t := Step(c, s, a);
    if a.RootRecv? { ServeNoWire(c, s, a.w); }
    forall w: nat | w < |t.workers| ensures NoWireUp(t.workers[w]) {
      assert NoWireUp(s.workers[w]);
      if a == WorkerSend(w) {
        assert NoWire(s.workers[w]);
        SendNoWire(c, w, s.workers[w]);
      }
    }
  }

  // ----- runs

  /** In a run in which every payload decodes, the first failing input is waiting until its callback has run. */
  lemma {:induction false} RunReaches<T, U, E>(c: Config<T, U, E>, actions: seq<Action>, states: seq<Sys<T, U>>, k: nat, m: nat)
    requires Run(c, actions, states) && k < |states| && FirstFailing(c, m)
    requires forall i :: 0 <= i < |actions| ==> Decodes(actions[i])
    requires forall i :: 0 <= i < |states| ==> |states[i].workers| == c.size && Clean(c, states[i])
    ensures NoWireReplies(states[k]) && Reached(c, states[k], m)
  {
    if k == 0 {
      assert states[0].sched.pending[m].index == m;
      assert At(states[0].sched, m, InPending);
    } else {
      var i := k - 1;
      RunReaches(c, actions, states, i, m);
      RunInv(c, actions, states, i);
      StepReaches(c, states[i], actions[i], m);
      StepNoWire(c, states[i], actions[i]);
    }
  }

  /** When every rank is done, the callback on the first failing input has run. */
  lemma OverReached<T, U, E>(c: Config<T, U, E>, s: Sys<T, U>, m: nat)
    requires Inv(c, s) && Over(c, s) && Reached(c, s, m)
    ensures m in s.calls
  {
    forall w: nat | c.Worker(w) ensures !Unevaluated(ViewOf(s, w), m) {
      assert ViewOf(s, w) == View(Done, [], []);
    }
  }
}
