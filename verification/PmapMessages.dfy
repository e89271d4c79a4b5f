/** Whether the error a rank holds is that of the key it holds. */
module PmapMessages {
  import opened Wrappers
  import opened Scheduler
  import opened Pmap
  import opened PmapInvariant
  import opened PmapSafety
  import opened PmapRootSteps
  import EK = ErrorKeys

  /** The key the error was recorded under. */
  function KeyOfError<T, U, E>(c: Config<T, U, E>, rank: nat, error: LocalError): int {
    match error
    case UserError(index) => EK.Raw(index, EK.Callback, rank, c.size)
    case WireFailure(task) => EK.Raw(task, EK.WireProtocol, rank, c.size)
  }

  /** The callback's text behind the message; a wire failure has a text of its own. */
  function TextOf<T, U, E>(c: Config<T, U, E>, error: LocalError): Option<E> {
    match error
    case UserError(index) =>
      if index < |c.items| && c.f(c.items[index]).Err? then Some(c.f(c.items[index]).error) else None
    case WireFailure(_) => None
  }

  /** Key and message are those of one error, or there is neither. */
  predicate Whole<T, U, E>(c: Config<T, U, E>, rank: nat, key: Option<int>, error: Option<LocalError>) {
    match error
    case None => key.None?
    case Some(e) => key == Some(KeyOfError(c, rank, e))
  }

  // ----- workers

  /** Without prefetch a worker that has recorded an error holds no batch and is sent none. */
  ghost predicate Spent<T, U>(v: View<T, U>) {
    PcBatches(v.pc) == [] && DownBatches(v.down) == []
  }

  ghost predicate WorkerWhole<T, U, E>(c: Config<T, U, E>, s: Sys<T, U>, w: nat)
    requires w < |s.workers|
  {
    && Whole(c, w, s.workers[w].key, s.workers[w].error)
    && (!c.prefetch && s.workers[w].key.Some? ==> Spent(ViewOf(s, w)))
  }

  lemma SendWhole<T, U, E>(c: Config<T, U, E>, s: Sys<T, U>, w: nat)
    requires Inv(c, s) && c.Worker(w) && Sending(s.workers[w].pc) && WorkerWhole(c, s, w)
    ensures WorkerWhole(c, DoSend(c, s, w), w)
  {
    assert WorkerOk(c, s, w);
    var me := s.workers[w];
    var t := DoSend(c, s, w);
    assert ViewOf(s, w) == View(me.pc, me.up, []);
    assert ViewOf(t, w) == SentView(c, w, me);
  }

  lemma ReceiveWhole<T, U, E>(c: Config<T, U, E>, s: Sys<T, U>, w: nat, ok: bool)
    requires Inv(c, s) && c.Worker(w) && s.workers[w].pc.Wait? && s.workers[w].down != [] && WorkerWhole(c, s, w)
    ensures WorkerWhole(c, DoRecv(c, s, w, ok), w)
  {
    assert WorkerOk(c, s, w);
  }

  /** The root's answer to a worker that has recorded an error is a stop. */
  lemma ReadyWhole<T, U, E>(c: Config<T, U, E>, s: Sys<T, U>, w: nat)
    requires Inv(c, s) && c.Worker(w) && s.outbox.None? && s.workers[w].up != [] && s.workers[w].up[0].Ready?
    requires WorkerWhole(c, s, w)
    ensures WorkerWhole(c, DoRootRecv(c, s, w, true), w)
  {
    assert WorkerOk(c, s, w);
    var v := ViewOf(s, w);
    ReadyView(c.prefetch, v);
    ReadyAnswered(c, s, DoRootRecv(c, s, w, true), w);
    if !c.prefetch && s.workers[w].key.Some? {
      assert !HasError(v);
      assert OnRemoteReady(s.sched, w).1.value.Stop?;
    }
  }

  /** A step that leaves the worker's program, record and view of batches alone. */
  lemma UntouchedWhole<T, U, E>(c: Config<T, U, E>, s: Sys<T, U>, t: Sys<T, U>, w: nat)
    requires w < |s.workers| == |t.workers| && WorkerWhole(c, s, w)
    requires t.workers[w].key == s.workers[w].key && t.workers[w].error == s.workers[w].error
    requires PcBatches(ViewOf(t, w).pc) == PcBatches(ViewOf(s, w).pc) && ViewOf(t, w).down == ViewOf(s, w).down
    ensures WorkerWhole(c, t, w)
  {
  }

  /** Handling anything but a Ready of `w` does not touch `w`'s program, record or answers. */
  lemma RecvUntouched<T, U, E>(c: Config<T, U, E>, s: Sys<T, U>, w: nat, ok: bool, u: nat)
    requires w < |s.workers| && u < |s.workers| && s.outbox.None? && s.workers[w].up != []
    requires u != w || !s.workers[w].up[0].Ready?
    ensures var t := DoRootRecv(c, s, w, ok);
            && |t.workers| == |s.workers|
            && t.workers[u].key == s.workers[u].key && t.workers[u].error == s.workers[u].error
            && ViewOf(t, u).pc == ViewOf(s, u).pc && ViewOf(t, u).down == ViewOf(s, u).down
  {
  }

  ghost predicate WorkersWhole<T, U, E>(c: Config<T, U, E>, s: Sys<T, U>)
    requires |s.workers| == c.size
  {
    forall w: nat {:trigger WorkerWhole(c, s, w)} :: c.Worker(w) ==> WorkerWhole(c, s, w)
  }

  lemma RecvWhole<T, U, E>(c: Config<T, U, E>, s: Sys<T, U>, w: nat, ok: bool)
    requires Inv(c, s) && c.Worker(w) && s.outbox.None? && s.workers[w].up != [] && WorkersWhole(c, s)
    ensures |DoRootRecv(c, s, w, ok).workers| == c.size && WorkersWhole(c, DoRootRecv(c, s, w, ok))
  {
    var t := DoRootRecv(c, s, w, ok);
    forall u: nat | c.Worker(u) ensures WorkerWhole(c, t, u) {
      assert WorkerWhole(c, s, u);
      if u == w && s.workers[w].up[0].Ready? {
        assert t == DoRootRecv(c, s, w, true);
        ReadyWhole(c, s, w);
      } else {
        RecvUntouched(c, s, w, ok, u);
        UntouchedWhole(c, s, t, u);
      }
    }
  }

  lemma EvalUntouched<T, U, E>(c: Config<T, U, E>, s: Sys<T, U>, w: nat)
    requires w < |s.workers| && s.workers[w].pc.Held?
    ensures var t := DoEval(c, s, w);
            && PcBatches(ViewOf(t, w).pc) == PcBatches(ViewOf(s, w).pc) && ViewOf(t, w).down == ViewOf(s, w).down
            && t.workers[w].key == s.workers[w].key && t.workers[w].error == s.workers[w].error
  {
  }

  /** Actions of another worker, and of the root apart from receiving. */
  lemma ElsewhereUntouched<T, U, E>(c: Config<T, U, E>, s: Sys<T, U>, a: Action, u: nat)
    requires |s.workers| == c.size && Enabled(c, s, a) && !a.RootRecv? && c.Worker(u)
    requires a.WorkerSend? || a.WorkerRecv? || a.WorkerEval? ==> a.w != u
    ensures var t := Step(c, s, a);
            && t.workers[u].key == s.workers[u].key && t.workers[u].error == s.workers[u].error
            && ViewOf(t, u).pc == ViewOf(s, u).pc && ViewOf(t, u).down == ViewOf(s, u).down
  {
  }

  lemma StepWhole<T, U, E>(c: Config<T, U, E>, s: Sys<T, U>, a: Action)
    requires Inv(c, s) && Enabled(c, s, a) && WorkersWhole(c, s)
    ensures WorkersWhole(c, Step(c, s, a))
  {
    if a.RootRecv? {
      RecvWhole(c, s, a.w, a.ok);
    } else {
      forall u: nat | c.Worker(u) ensures WorkerWhole(c, Step(c, s, a), u) {
        LocalWhole(c, s, a, u);
      }
    }
  }

  lemma LocalWhole<T, U, E>(c: Config<T, U, E>, s: Sys<T, U>, a: Action, u: nat)
    requires Inv(c, s) && Enabled(c, s, a) && !a.RootRecv? && WorkersWhole(c, s) && c.Worker(u)
    ensures WorkerWhole(c, Step(c, s, a), u)
  {
    assert WorkerWhole(c, s, u);
    if a == WorkerSend(u) {
      SendWhole(c, s, u);
    } else if a.WorkerRecv? && a.w == u {
      ReceiveWhole(c, s, u, a.ok);
    } else {
      if a == WorkerEval(u) { EvalUntouched(c, s, u); } else { ElsewhereUntouched(c, s, a, u); }
      UntouchedWhole(c, s, Step(c, s, a), u);
    }
  }

  // ----- the root

  /** The root holds the key of a callback error of its own. */
  ghost predicate CallbackHeld<T, U, E>(c: Config<T, U, E>, s: Sys<T, U>) {
    exists index: nat :: index < |c.items| && s.rootKey == Some(EK.Raw(index, EK.Callback, c.root, c.size))
  }

  /** The root's key and message are whole, or the message of an undecodable reply stands beside the key of
      an earlier callback error; after a callback error the root runs no more batches. */
  ghost predicate RootHolds<T, U, E>(c: Config<T, U, E>, s: Sys<T, U>) {
    && (Whole(c, c.root, s.rootKey, s.rootError) || (s.rootError == Some(WireFailure(|c.items|)) && CallbackHeld(c, s)))
    && (s.rootError.Some? ==>
          match s.rootError.value
          case UserError(index) => index < |c.items|
          case WireFailure(task) => task == |c.items|)
    && (CallbackHeld(c, s) ==> s.job.None?)
  }

  /** The root's own batch just failed in a callback. */
  ghost predicate RecordsCallback<T, U, E>(c: Config<T, U, E>, s: Sys<T, U>, a: Action) {
    a.RootFinish? && s.job.Some? && Evaluate(c, s.job.value).CallbackError?
  }

  /** The root handles a reply that does not decode. */
  ghost predicate RecordsUndecodable<T, U>(s: Sys<T, U>, a: Action) {
    a.RootRecv? && !a.ok && a.w < |s.workers| && s.workers[a.w].up != [] && s.workers[a.w].up[0].Reply?
  }

  /** Callback keys of the root lie below the key of every undecodable reply. */
  lemma CallbackBelowWire<T, U, E>(c: Config<T, U, E>, index: nat)
    requires c.Valid() && index < |c.items|
    ensures EK.Raw(index, EK.Callback, c.root, c.size) < EK.Raw(|c.items|, EK.WireProtocol, c.root, c.size)
  {
    EK.BlockOrder(index * 3 + 1, c.root, |c.items| * 3, c.root, c.size);
  }

  lemma FinishHolds<T, U, E>(c: Config<T, U, E>, s: Sys<T, U>)
    requires Inv(c, s) && RootHolds(c, s) && s.job.Some? && s.outbox.None?
    ensures var t := Finish(c, s);
            && RootHolds(c, t)
            && (if RecordsCallback(c, s, RootFinish)
                then CallbackHeld(c, t) && Whole(c, c.root, t.rootKey, t.rootError)
                else t.rootKey == s.rootKey && t.rootError == s.rootError)
  {
    EvaluateGives(c, s.job.value);
    var outcome := Evaluate(c, s.job.value);
    if outcome.CallbackError? {
      CallbackBelowWire(c, outcome.index);
    }
  }

  lemma UndecodableHolds<T, U, E>(c: Config<T, U, E>, s: Sys<T, U>, w: nat)
    requires Inv(c, s) && RootHolds(c, s) && c.Worker(w) && s.outbox.None?
    requires RecordsUndecodable(s, RootRecv(w, false))
    ensures var t := DoRootRecv(c, s, w, false);
            && RootHolds(c, t)
            && (CallbackHeld(c, t) <==> CallbackHeld(c, s))
            && (Whole(c, c.root, t.rootKey, t.rootError) <==> !CallbackHeld(c, s))
  {
    var t := DoRootRecv(c, s, w, false);
    forall index: nat | index < |c.items|
      ensures EK.Raw(index, EK.Callback, c.root, c.size) < EK.Raw(|c.items|, EK.WireProtocol, c.root, c.size)
    {
      CallbackBelowWire(c, index);
    }
    if s.rootKey.Some? && !CallbackHeld(c, s) {
      assert Whole(c, c.root, s.rootKey, s.rootError);
    }
  }

  /** Every other action leaves the root's record alone. */
  lemma OtherHolds<T, U, E>(c: Config<T, U, E>, s: Sys<T, U>, a: Action)
    requires Inv(c, s) && RootHolds(c, s) && Enabled(c, s, a) && !a.RootFinish? && !RecordsUndecodable(s, a)
    ensures var t := Step(c, s, a);
            RootHolds(c, t) && t.rootKey == s.rootKey && t.rootError == s.rootError
  {
    var t := Step(c, s, a);
    assert t.rootKey == s.rootKey && t.rootError == s.rootError;
    assert CallbackHeld(c, t) <==> CallbackHeld(c, s);
  }

  // ----- runs

  ghost predicate CallbackBefore<T, U, E>(c: Config<T, U, E>, actions: seq<Action>, states: seq<Sys<T, U>>, k: nat)
    requires k <= |actions| < |states|
  {
    exists i: nat {:trigger RecordsCallback(c, states[i], actions[i])} :: i < k && RecordsCallback(c, states[i], actions[i])
  }

  /** An undecodable reply was handled after the root's own callback error had been recorded. */
  ghost predicate Overwritten<T, U, E>(c: Config<T, U, E>, actions: seq<Action>, states: seq<Sys<T, U>>, k: nat)
    requires k <= |actions| < |states|
  {
    exists j: nat {:trigger RecordsUndecodable(states[j], actions[j])} ::
      j < k && RecordsUndecodable(states[j], actions[j]) && CallbackBefore(c, actions, states, j)
  }

  lemma {:induction false} RunHolds<T, U, E>(c: Config<T, U, E>, actions: seq<Action>, states: seq<Sys<T, U>>, k: nat)
    requires Run(c, actions, states) && k <= |actions|
    ensures WorkersWhole(c, states[k]) && RootHolds(c, states[k])
    ensures CallbackHeld(c, states[k]) <==> CallbackBefore(c, actions, states, k)
    ensures !Whole(c, c.root, states[k].rootKey, states[k].rootError) <==> Overwritten(c, actions, states, k)
  {
    if k > 0 {
      var i := k - 1;
      var s, a := states[i], actions[i];
      RunHolds(c, actions, states, i);
      RunInv(c, actions, states, i);
      StepWhole(c, s, a);
      if a.RootFinish? { FinishHolds(c, s); }
      else if RecordsUndecodable(s, a) { UndecodableHolds(c, s, a.w); }
      else { OtherHolds(c, s, a); }
      BeforeNext(c, actions, states, i);
    }
  }

  lemma BeforeNext<T, U, E>(c: Config<T, U, E>, actions: seq<Action>, states: seq<Sys<T, U>>, i: nat)
    requires i < |actions| < |states|
    ensures CallbackBefore(c, actions, states, i + 1) <==>
            CallbackBefore(c, actions, states, i) || RecordsCallback(c, states[i], actions[i])
    ensures Overwritten(c, actions, states, i + 1) <==>
            Overwritten(c, actions, states, i) || (RecordsUndecodable(states[i], actions[i]) && CallbackBefore(c, actions, states, i))
  {
  }

  /** In every run a worker's key and message are those of one error, and the root's are exactly unless an
      undecodable reply was handled after a callback error of the root's own. */
  lemma MessagesFollowKeys<T, U, E>(c: Config<T, U, E>, actions: seq<Action>, states: seq<Sys<T, U>>, k: nat, w: nat)
    requires Run(c, actions, states) && k <= |actions|
    ensures c.Worker(w) ==> Whole(c, w, states[k].workers[w].key, states[k].workers[w].error)
    ensures Whole(c, c.root, states[k].rootKey, states[k].rootError) <==> !Overwritten(c, actions, states, k)
  {
    RunHolds(c, actions, states, k);
    if c.Worker(w) { assert WorkerWhole(c, states[k], w); }
  }
}
