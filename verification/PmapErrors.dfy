/** Which errors a `pmap` run can report.

  `Reported`: a callback that ran and failed is behind some recorded key, or about to be.
  `Clean`: while every payload decodes, only callback failures make keys.
 */
module PmapErrors {
  import opened Wrappers
  import opened Scheduler
  import opened SerialMap
  import opened Pmap
  import opened PmapInvariant
  import opened PmapSafety
  import opened PmapSteps
  import opened PmapRootSteps
  import EK = ErrorKeys

  // ----- the lowest failing callback is never lost

  /** A key no larger than any callback key of index `j`. */
  ghost predicate Covers<T, U, E>(c: Config<T, U, E>, key: Option<int>, j: nat)
    requires c.size > 0
  {
    key.Some? && key.value <= EK.Raw(j, EK.Callback, c.size - 1, c.size)
  }

  ghost predicate Pending<T, U>(me: Worker<T, U>, j: nat) {
    me.pc.SendOutcome? && me.pc.outcome.CallbackError? && me.pc.outcome.index <= j
  }

  ghost predicate Known<T, U, E>(c: Config<T, U, E>, s: Sys<T, U>, j: nat)
    requires c.size > 0 && |s.workers| == c.size
  {
    || Covers(c, s.rootKey, j)
    || exists w: nat :: c.Worker(w) && (Covers(c, s.workers[w].key, j) || Pending(s.workers[w], j))
  }

  ghost predicate Reported<T, U, E>(c: Config<T, U, E>, s: Sys<T, U>)
    requires c.size > 0 && |s.workers| == c.size
  {
    forall j: nat :: j in s.calls && j < |c.items| && c.f(c.items[j]).Err? ==> Known(c, s, j)
  }

  /** A failing callback of a batch makes the batch report an index no larger. */
  lemma EvaluateReports<T, U, E>(c: Config<T, U, E>, b: Batch<T>, j: nat)
    requires Genuine(c, b.items) && GoodMeta(|c.items|, MetaOf(b))
    requires Has(b, j) && c.f(c.items[j]).Err?
    ensures Evaluate(c, b).CallbackError? && Evaluate(c, b).index <= j
  {
    var values := ValuesOf(b);
    ModesAgree(c.mode, values, c.f);
    MapExact(values, c.f);
    var k :| 0 <= k < |b.items| && MetaOf(b).indices[k] == j;
    assert values[k] == c.items[j];
    var e := Map(values, c.f).error;
    assert e.index <= k;
    assert MetaOf(b).indices[e.index] == b.items[e.index].index;
  }

  lemma CallbackKeyOrder<T, U, E>(c: Config<T, U, E>, i: nat, w: nat, j: nat)
    requires w < c.size && i <= j
    ensures EK.Raw(i, EK.Callback, w, c.size) <= EK.Raw(j, EK.Callback, c.size - 1, c.size)
  {
    if i < j { EK.BlockOrder(i * 3 + 1, w, j * 3 + 1, c.size - 1, c.size); }
  }

  /** Keys only get smaller and pending reports stay, so what is known stays known. */
  lemma KnownStays<T, U, E>(c: Config<T, U, E>, s: Sys<T, U>, t: Sys<T, U>, j: nat)
    requires c.size > 0 && |s.workers| == c.size == |t.workers| && Known(c, s, j)
    requires Covers(c, s.rootKey, j) ==> Covers(c, t.rootKey, j)
    requires forall w: nat :: c.Worker(w) && (Covers(c, s.workers[w].key, j) || Pending(s.workers[w], j)) ==>
               Covers(c, t.workers[w].key, j) || Pending(t.workers[w], j)
    ensures Known(c, t, j)
  {
    if !Covers(c, s.rootKey, j) {
      var w: nat :| c.Worker(w) && (Covers(c, s.workers[w].key, j) || Pending(s.workers[w], j));
      assert Covers(c, t.workers[w].key, j) || Pending(t.workers[w], j);
    }
  }

  lemma SendKnown<T, U, E>(c: Config<T, U, E>, w: nat, me: Worker<T, U>, j: nat)
    requires c.Worker(w) && Sending(me.pc)
    requires Covers(c, me.key, j) || Pending(me, j)
    ensures Covers(c, Send(c, w, me).key, j)
  {
    if me.pc.SendOutcome? && me.pc.outcome.CallbackError? && me.pc.outcome.index <= j {
      CallbackKeyOrder(c, me.pc.outcome.index, w, j);
    }
  }

  lemma EvalReported<T, U, E>(c: Config<T, U, E>, s: Sys<T, U>, w: nat)
    requires Inv(c, s) && Reported(c, s) && c.Worker(w) && s.workers[w].pc.Held?
    ensures Reported(c, DoEval(c, s, w))
  {
    var t := DoEval(c, s, w);
    var b := s.workers[w].pc.batch;
    assert WorkerOk(c, s, w);
    assert Flow(ViewOf(s, w))[0] == b;
    FlowPlace(c, s, w, 0);
    EvaluateGives(c, b);
    forall j: nat | j in t.calls && j < |c.items| && c.f(c.items[j]).Err? ensures Known(c, t, j) {
      if j in s.calls {
        KnownStays(c, s, t, j);
      } else {
        EvaluateReports(c, b, j);
        assert Pending(t.workers[w], j);
      }
    }
  }

  lemma FinishReported<T, U, E>(c: Config<T, U, E>, s: Sys<T, U>)
    requires Inv(c, s) && Reported(c, s) && s.job.Some?
    ensures Reported(c, Finish(c, s))
  {
    var t := Finish(c, s);
    var b := s.job.value;
    EvaluateGives(c, b);
    forall j: nat | j in t.calls && j < |c.items| && c.f(c.items[j]).Err? ensures Known(c, t, j) {
      if j in s.calls {
        KnownStays(c, s, t, j);
      } else {
        EvaluateReports(c, b, j);
        CallbackKeyOrder(c, Evaluate(c, b).index, c.root, j);
        assert Covers(c, t.rootKey, j);
      }
    }
  }

  /** Handling a message leaves programs and worker keys alone. */
  lemma HandleKeys<T, U, E>(c: Config<T, U, E>, s: Sys<T, U>, w: nat, ok: bool)
    requires w < |s.workers| && s.workers[w].up != []
    ensures var t := DoRootRecv(c, s, w, ok);
            && t.calls == s.calls && |t.workers| == |s.workers|
            && (forall u :: 0 <= u < |s.workers| ==> t.workers[u].pc == s.workers[u].pc && t.workers[u].key == s.workers[u].key)
            && (s.rootKey.Some? ==> t.rootKey.Some? && t.rootKey.value <= s.rootKey.value)
            && (ok ==> t.rootKey == s.rootKey)
  {
  }

  lemma StepReported<T, U, E>(c: Config<T, U, E>, s: Sys<T, U>, a: Action)
    requires Inv(c, s) && Reported(c, s) && Enabled(c, s, a)
    ensures Reported(c, Step(c, s, a))
  {
    if a.WorkerEval? {
      EvalReported(c, s, a.w);
    } else if a.RootFinish? {
      FinishReported(c, s);
    } else {
      var t := Step(c, s, a);
      if a.RootRecv? { HandleKeys(c, s, a.w, a.ok); }
      forall j: nat | j in t.calls && j < |c.items| && c.f(c.items[j]).Err? ensures Known(c, t, j) {
        if a.WorkerSend? && (Covers(c, s.workers[a.w].key, j) || Pending(s.workers[a.w], j)) {
          SendKnown(c, a.w, s.workers[a.w], j);
        }
        KnownStays(c, s, t, j);
      }
    }
  }

  // ----- runs in which every payload decodes

  ghost predicate Decodes(a: Action) {
    (a.WorkerRecv? ==> a.ok) && (a.RootRecv? ==> a.ok)
  }

  ghost predicate CallbackKey<T, U, E>(c: Config<T, U, E>, rank: nat, key: Option<int>) {
    key.Some? ==> exists task :: Made(c, rank, key.value, task, EK.Callback)
  }

  /** No undecoded batch anywhere at this worker. */
  ghost predicate NoWire<T, U>(me: Worker<T, U>) {
    && (me.pc.Held? ==> !me.pc.next.Bad?)
    && (me.pc.SendOutcome? ==> !me.pc.outcome.WireError? && !me.pc.next.Bad?)
  }

  ghost predicate Clean<T, U, E>(c: Config<T, U, E>, s: Sys<T, U>)
    requires |s.workers| == c.size
  {
    && CallbackKey(c, c.root, s.rootKey)
    && forall w: nat {:trigger s.workers[w]} :: c.Worker(w) ==> NoWire(s.workers[w]) && CallbackKey(c, w, s.workers[w].key)
  }

  lemma KeepCallback<T, U, E>(c: Config<T, U, E>, rank: nat, key: Option<int>, task: nat)
    requires CallbackKey(c, rank, key)
    requires Made(c, rank, EK.Raw(task, EK.Callback, rank, c.size), task, EK.Callback)
    ensures CallbackKey(c, rank, Keep(key, EK.Raw(task, EK.Callback, rank, c.size)))
  {
  }

  lemma SendClean<T, U, E>(c: Config<T, U, E>, s: Sys<T, U>, w: nat)
    requires Inv(c, s) && Clean(c, s) && c.Worker(w) && Sending(s.workers[w].pc)
    ensures NoWire(Send(c, w, s.workers[w])) && CallbackKey(c, w, Send(c, w, s.workers[w]).key)
  {
    var me := s.workers[w];
    if me.pc.SendOutcome? && me.pc.outcome.CallbackError? {
      assert WorkerOk(c, s, w);
      var v := ViewOf(s, w);
      assert Flow(v)[|UpBatches(v.up)|] == me.pc.batch;
      EvaluateGives(c, me.pc.batch);
      KeepCallback(c, w, me.key, me.pc.outcome.index);
    }
  }

  lemma StepClean<T, U, E>(c: Config<T, U, E>, s: Sys<T, U>, a: Action)
    requires Inv(c, s) && Clean(c, s) && Enabled(c, s, a) && Decodes(a)
    ensures Clean(c, Step(c, s, a))
  {
    match a
    case WorkerSend(w) => SendClean(c, s, w);
    case WorkerRecv(w, ok) =>
    case WorkerEval(w) =>
      assert WorkerOk(c, s, w);
      assert Flow(ViewOf(s, w))[0] == s.workers[w].pc.batch;
      EvaluateGives(c, s.workers[w].pc.batch);
    case RootRecv(w, ok) => HandleKeys(c, s, w, ok);
    case RootSend =>
    case RootStart =>
    case RootFinish =>
      EvaluateGives(c, s.job.value);
      if Evaluate(c, s.job.value).CallbackError? {
        KeepCallback(c, c.root, s.rootKey, Evaluate(c, s.job.value).index);
      }
  }
}
