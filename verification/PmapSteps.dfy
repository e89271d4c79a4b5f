/** The invariant, action by action. */
module PmapSteps {
  import opened Wrappers
  import opened Scheduler
  import SP = SchedulerProofs
  import opened SerialMap
  import opened Pmap
  import opened PmapInvariant
  import opened PmapSafety
  import EK = ErrorKeys

  // ----- worker actions

  /** The outcome being sent belongs to a batch of the pipeline, so its key fits. */
  lemma OutcomeKeyFits<T, U, E>(c: Config<T, U, E>, s: Sys<T, U>, w: nat)
    requires Inv(c, s) && c.Worker(w) && s.workers[w].pc.SendOutcome? && !s.workers[w].pc.outcome.Values?
    ensures KeyFits(c, w, Keep(s.workers[w].key, KeyOf(c, w, s.workers[w].pc.outcome)))
  {
    assert WorkerOk(c, s, w);
    var v := ViewOf(s, w);
    var k := |UpBatches(v.up)|;
    assert Flow(v)[k] == v.pc.batch;
    FlowPlace(c, s, w, k);
    EvaluateGives(c, v.pc.batch);
    match v.pc.outcome
    case CallbackError(index) => KeepFits(c, w, s.workers[w].key, index, EK.Callback);
    case WireError(index) => KeepFits(c, w, s.workers[w].key, index, EK.WireProtocol);
  }

  lemma SentHonest<T, U, E>(c: Config<T, U, E>, w: nat, me: Worker<T, U>, calls: seq<nat>)
    requires Sending(me.pc) && Shape(c.prefetch, View(me.pc, me.up, []))
    requires Honest(c, View(me.pc, me.up, [])) && ValuesLogged(View(me.pc, me.up, []), calls)
    ensures Honest(c, SentView(c, w, me)) && ValuesLogged(SentView(c, w, me), calls)
  {
    SendFlow(c, w, me);
    var v, v' := View(me.pc, me.up, []), SentView(c, w, me);
    assert forall k :: 0 <= k < |v'.up| ==> v'.up[k] == if k < |v.up| then v.up[k] else v'.up[|v.up|];
  }

  lemma SentErrors<T, U, E>(c: Config<T, U, E>, w: nat, me: Worker<T, U>)
    requires Sending(me.pc)
    ensures HasError(SentView(c, w, me)) <==>
            HasError(View(me.pc, me.up, [])) || (me.pc.SendOutcome? && !me.pc.outcome.Values?)
  {
    var v, v' := View(me.pc, me.up, []), SentView(c, w, me);
    assert forall k :: 0 <= k < |v.up| ==> v'.up[k] == v.up[k];
    if me.pc.SendOutcome? { assert v'.up[|v.up|] == Reply(me.pc.batch, me.pc.outcome); }
  }

  lemma WorkerSendKeeps<T, U, E>(c: Config<T, U, E>, s: Sys<T, U>, w: nat)
    requires Inv(c, s) && c.Worker(w) && Sending(s.workers[w].pc)
    ensures Inv(c, DoSend(c, s, w))
  {
    var t := DoSend(c, s, w);
    var me := s.workers[w];
    assert WorkerOk(c, s, w);
    assert ViewOf(s, w) == View(me.pc, me.up, []);
    assert ViewOf(t, w) == SentView(c, w, me);
    SendMoves(c, w, me);
    SentHonest(c, w, me, s.calls);
    SentErrors(c, w, me);
    if me.pc.SendOutcome? && !me.pc.outcome.Values? { OutcomeKeyFits(c, s, w); }
    assert WorkerOk(c, t, w);
    LocalStep(c, s, t, w);
  }

  lemma ReceivedHonest<T, U, E>(c: Config<T, U, E>, me: Worker<T, U>, ok: bool, calls: seq<nat>)
    requires me.pc.Wait? && me.down != [] && Shape(c.prefetch, View(me.pc, me.up, me.down))
    requires Honest(c, View(me.pc, me.up, me.down))
    ensures var me' := Receive(c, me, ok);
            Honest(c, View(me'.pc, me'.up, me'.down)) && ValuesLogged(View(me'.pc, me'.up, me'.down), calls)
  {
    ReceiveMoves(c, me, View(me.pc, me.up, me.down), ok);
  }

  lemma WorkerRecvKeeps<T, U, E>(c: Config<T, U, E>, s: Sys<T, U>, w: nat, ok: bool)
    requires Inv(c, s) && c.Worker(w) && s.workers[w].pc.Wait? && s.workers[w].down != []
    ensures Inv(c, DoRecv(c, s, w, ok))
  {
    var t := DoRecv(c, s, w, ok);
    var me := s.workers[w];
    assert WorkerOk(c, s, w);
    assert ViewOf(s, w) == View(me.pc, me.up, me.down);
    assert ViewOf(t, w) == View(t.workers[w].pc, me.up, t.workers[w].down);
    ReceiveMoves(c, me, ViewOf(s, w), ok);
    ReceivedHonest(c, me, ok, s.calls);
    assert me.up == [];
    assert WorkerOk(c, t, w);
    LocalStep(c, s, t, w);
  }

  // ----- evaluation

  /** A batch still to be evaluated is in the worker's pipeline. */
  lemma UnevaluatedInFlow<T, U>(prefetch: bool, v: View<T, U>, i: nat) returns (k: nat)
    requires Shape(prefetch, v) && Unevaluated(v, i)
    ensures k < |Flow(v)| && Has(Flow(v)[k], i)
    ensures v.pc.Held? || v.pc.SendOutcome? ==> (Has(v.pc.batch, i) && v.pc.Held?) || k == |UpBatches(v.up)| + 1
  {
    var n := |UpBatches(v.up)|;
    if (v.pc.SendReady? || v.pc.Wait?) && v.pc.cur.Some? && Has(v.pc.cur.value, i) {
      k := n;
    } else if v.pc.Held? && Has(v.pc.batch, i) {
      k := n;
    } else if (v.pc.Held? || v.pc.SendOutcome?) && v.pc.next.Work? && Has(v.pc.next.batch, i) {
      k := n + 1;
    } else {
      assert |v.down| == 1 && DownBatches(v.down) == [v.down[0].batch];
      k := n + |PcBatches(v.pc)|;
    }
  }

  lemma UnevaluatedPlace<T, U, E>(c: Config<T, U, E>, s: Sys<T, U>, w: nat, i: nat)
    requires Inv(c, s) && c.Worker(w) && Unevaluated(ViewOf(s, w), i)
    ensures At(s.sched, i, Current(w)) || At(s.sched, i, Prefetched(w))
  {
    assert WorkerOk(c, s, w);
    var k := UnevaluatedInFlow(c.prefetch, ViewOf(s, w), i);
    FlowPlace(c, s, w, k);
  }

  lemma CallsDistinct<T, U, E>(c: Config<T, U, E>, b: Batch<T>, n: nat)
    requires GoodMeta(n, MetaOf(b))
    ensures Distinct(Calls(c, b))
    ensures forall i: nat :: i in Calls(c, b) ==> Has(b, i) && i < n
  {
    var calls := Calls(c, b);
    assert forall k :: 0 <= k < |calls| ==> calls[k] == MetaOf(b).indices[k];
  }

  lemma DistinctJoin(a: seq<nat>, b: seq<nat>)
    requires Distinct(a) && Distinct(b) && forall i :: i in a ==> i !in b
    ensures Distinct(a + b)
  {
    forall j, k | 0 <= j < k < |a + b| ensures (a + b)[j] != (a + b)[k] {
      if j < |a| <= k { assert a[j] in a && b[k - |a|] in b; }
    }
  }

  lemma HeldPlace<T, U, E>(c: Config<T, U, E>, s: Sys<T, U>, w: nat, i: nat)
    requires Inv(c, s) && c.Worker(w) && s.workers[w].pc.Held? && Has(s.workers[w].pc.batch, i)
    ensures At(s.sched, i, Current(w)) && Waiting(c, s, i)
    ensures !At(s.sched, i, Prefetched(w)) && !At(s.sched, i, InPending)
  {
    assert WorkerOk(c, s, w);
    var v := ViewOf(s, w);
    assert Flow(v)[0] == v.pc.batch && Unevaluated(v, i);
    FlowPlace(c, s, w, 0);
    assert At(s.sched, i, Current(w));
  }

  /** An index of one lane's current batch is waiting at no other rank. */
  lemma NowhereElse<T, U, E>(c: Config<T, U, E>, s: Sys<T, U>, w: nat, i: nat)
    requires Inv(c, s) && c.Worker(w) && At(s.sched, i, Current(w))
    ensures !(s.job.Some? && Has(s.job.value, i))
    ensures forall u: nat :: c.Worker(u) && u != w ==> !Unevaluated(ViewOf(s, u), i)
  {
    if s.job.Some? && Has(s.job.value, i) { assert At(s.sched, i, AtRoot); }
    forall u: nat | c.Worker(u) && u != w ensures !Unevaluated(ViewOf(s, u), i) {
      if Unevaluated(ViewOf(s, u), i) { UnevaluatedPlace(c, s, u, i); }
    }
  }

  lemma NotAheadAfterEval<T, U, E>(c: Config<T, U, E>, s: Sys<T, U>, w: nat, outcome: Outcome<U>, i: nat)
    requires Inv(c, s) && c.Worker(w) && s.workers[w].pc.Held? && !At(s.sched, i, Prefetched(w))
    ensures !Unevaluated(ViewOf(s, w).(pc := SendOutcome(s.workers[w].pc.batch, outcome, s.workers[w].pc.next)), i)
  {
    assert WorkerOk(c, s, w);
    var v := ViewOf(s, w);
    var v' := v.(pc := SendOutcome(v.pc.batch, outcome, v.pc.next));
    EvalMoves(c.prefetch, v, outcome);
    if Unevaluated(v', i) {
      var k := UnevaluatedInFlow(c.prefetch, v', i);
      FlowPlace(c, s, w, k);
    }
  }

  /** After worker `w` evaluates the batch it holds, no index of it is waiting anywhere. */
  lemma NotWaitingAfterEval<T, U, E>(c: Config<T, U, E>, s: Sys<T, U>, w: nat, i: nat)
    requires Inv(c, s) && c.Worker(w) && s.workers[w].pc.Held? && Has(s.workers[w].pc.batch, i)
    ensures Waiting(c, s, i)
    ensures !Waiting(c, DoEval(c, s, w), i)
  {
    var t := DoEval(c, s, w);
    HeldPlace(c, s, w, i);
    NowhereElse(c, s, w, i);
    NotAheadAfterEval(c, s, w, t.workers[w].pc.outcome, i);
    assert ViewOf(t, w) == ViewOf(s, w).(pc := t.workers[w].pc);
    forall u: nat | c.Worker(u) ensures !Unevaluated(ViewOf(t, u), i) {
      if u != w { assert ViewOf(t, u) == ViewOf(s, u); }
    }
  }

  lemma EvalWorkerOk<T, U, E>(c: Config<T, U, E>, s: Sys<T, U>, w: nat)
    requires Inv(c, s) && c.Worker(w) && s.workers[w].pc.Held?
    ensures WorkerOk(c, DoEval(c, s, w), w)
  {
    var t := DoEval(c, s, w);
    assert WorkerOk(c, s, w);
    var v := ViewOf(s, w);
    EvalMoves(c.prefetch, v, t.workers[w].pc.outcome);
    assert v.up == [] && Flow(v)[0] == v.pc.batch;
    EvaluateGives(c, v.pc.batch);
    assert ViewOf(t, w) == v.(pc := t.workers[w].pc);
  }

  lemma EvalCallsOk<T, U, E>(c: Config<T, U, E>, s: Sys<T, U>, w: nat)
    requires Inv(c, s) && c.Worker(w) && s.workers[w].pc.Held?
    ensures CallsOk(c, DoEval(c, s, w))
  {
    var t := DoEval(c, s, w);
    var b := s.workers[w].pc.batch;
    assert WorkerOk(c, s, w);
    assert Flow(ViewOf(s, w))[0] == b;
    FlowPlace(c, s, w, 0);
    CallsDistinct(c, b, |c.items|);
    forall i: nat | i in Calls(c, b) ensures i !in s.calls {
      NotWaitingAfterEval(c, s, w, i);
    }
    DistinctJoin(s.calls, Calls(c, b));
    var t0 := t.(calls := s.calls);
    EvalMoves(c.prefetch, ViewOf(s, w), t.workers[w].pc.outcome);
    assert ViewOf(t, w) == ViewOf(s, w).(pc := t.workers[w].pc);
    forall i: nat | i in t.calls ensures i < |c.items| && !Waiting(c, t, i) {
      if i in s.calls {
        StillCalled(c, s, t0, w, i);
        SameWaiting(c, t0, t, i);
      } else {
        NotWaitingAfterEval(c, s, w, i);
      }
    }
  }

  lemma RootKept<T, U, E>(c: Config<T, U, E>, s: Sys<T, U>, t: Sys<T, U>)
    requires c.Valid() && |s.workers| == c.size == |t.workers| && RootOk(c, s)
    requires t == s.(workers := t.workers, calls := t.calls) && t.workers[c.root] == s.workers[c.root]
    requires forall i: nat :: i in s.calls ==> i in t.calls
    ensures RootOk(c, t)
  {
  }

  lemma WorkerEvalKeeps<T, U, E>(c: Config<T, U, E>, s: Sys<T, U>, w: nat)
    requires Inv(c, s) && c.Worker(w) && s.workers[w].pc.Held?
    ensures Inv(c, DoEval(c, s, w))
  {
    var t := DoEval(c, s, w);
    forall u: nat | c.Worker(u) ensures WorkerOk(c, t, u) {
      assert WorkerOk(c, s, u);
      if u == w { EvalWorkerOk(c, s, w); } else { OtherWorker(c, s, t, u); }
    }
    EvalCallsOk(c, s, w);
    RootKept(c, s, t);
    if t.sched.failed { KeysGrow(c, s, t); }
  }

  lemma SameWaiting<T, U, E>(c: Config<T, U, E>, s: Sys<T, U>, t: Sys<T, U>, i: nat)
    requires |s.workers| == c.size == |t.workers|
    requires s == t.(calls := s.calls)
    ensures Waiting(c, t, i) ==> Waiting(c, s, i)
  {
    if w: nat :| c.Worker(w) && Unevaluated(ViewOf(t, w), i) {
      assert ViewOf(s, w) == ViewOf(t, w);
    }
  }
}
