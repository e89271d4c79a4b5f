/** The invariant for the root's actions: no coordinator call ever fails. */
module PmapRootSteps {
  import opened Wrappers
  import opened Scheduler
  import SP = SchedulerProofs
  import opened SerialMap
  import opened Pmap
  import opened PmapInvariant
  import opened PmapSafety
  import opened PmapSteps
  import EK = ErrorKeys

  // ----- a step of the root that concerns worker `w`

  /** What such a step must bring for the invariant to survive it. */
  lemma RootStep<T, U, E>(c: Config<T, U, E>, s: Sys<T, U>, t: Sys<T, U>, w: nat)
    requires Inv(c, s) && |t.workers| == c.size && c.Worker(w)
    requires WellFormed(t.sched) && t.sched.remotes.Keys == s.sched.remotes.Keys
    requires t.calls == s.calls && (s.sched.failed ==> t.sched.failed)
    requires RootOk(c, t) && WorkerOk(c, t, w)
    requires forall u: nat :: c.Worker(u) ==> t.workers[u].key == s.workers[u].key
    requires forall u: nat :: c.Worker(u) && u != w ==>
               ViewOf(t, u) == ViewOf(s, u) && t.sched.remotes[u] == s.sched.remotes[u]
    requires forall i: nat :: At(t.sched, i, InPending) ==> At(s.sched, i, InPending)
    requires forall i: nat :: Unevaluated(ViewOf(t, w), i) ==> Unevaluated(ViewOf(s, w), i) || At(s.sched, i, InPending)
    requires t.job == s.job
    requires t.sched.failed && !s.sched.failed ==> SomeKey(c, t)
    requires s.rootKey.Some? ==> t.rootKey.Some?
    ensures Inv(c, t)
  {
    forall u: nat | c.Worker(u) ensures WorkerOk(c, t, u) {
      assert WorkerOk(c, s, u);
      if u != w { OtherWorker(c, s, t, u); }
    }
    forall i: nat | i in t.calls ensures !Waiting(c, t, i) {
      assert !Waiting(c, s, i);
      forall u: nat | c.Worker(u) ensures !Unevaluated(ViewOf(t, u), i) {
        assert !Unevaluated(ViewOf(s, u), i);
      }
    }
    if s.sched.failed { KeysGrow(c, s, t); }
  }

  // ----- sending a held answer

  /** Handing the answer to the channel leaves every worker's view as it was. */
  lemma RootSendView<T, U, E>(c: Config<T, U, E>, s: Sys<T, U>, u: nat)
    requires |s.workers| == c.size && s.outbox.Some? && s.outbox.value.0 < c.size && u < c.size
    ensures ViewOf(DoRootSend(s), u) == ViewOf(s, u)
  {
  }

  lemma RootSendKeeps<T, U, E>(c: Config<T, U, E>, s: Sys<T, U>)
    requires Inv(c, s) && s.outbox.Some? && s.outbox.value.0 < c.size
    ensures Inv(c, DoRootSend(s))
  {
    var t := DoRootSend(s);
    var w := s.outbox.value.0;
    forall u: nat | c.Worker(u) ensures ViewOf(t, u) == ViewOf(s, u) { RootSendView(c, s, u); }
    OtherWorker(c, s, t, w);
    RootStep(c, s, t, w);
  }

  // ----- Ready

  lemma ReadyView<T, U>(prefetch: bool, v: View<T, U>)
    requires Shape(prefetch, v) && v.up != [] && v.up[0].Ready?
    ensures v.pc.Wait? && v.up == [Ready] && v.down == [] && !Told(v)
    ensures Flow(v) == PcBatches(v.pc) && (v.pc.cur.Some? ==> prefetch)
  {
    assert EndsWith(v.up, Ready);
    assert UpBatches(v.up) == [];
  }

  /** The answer to a Ready puts the worker's lane where the coordinator put it. */
  lemma AnswerView<T, U>(prefetch: bool, v: View<T, U>, d: Dispatch<T>)
    requires v.pc.Wait? && v.up == [] && v.down == [] && (v.pc.cur.Some? ==> prefetch)
    ensures var v' := v.(down := [d]);
            && Shape(prefetch, v') && Told(v') == d.Stop?
            && Flow(v') == Flow(v) + (if d.Task? then [d.batch] else [])
            && (forall i: nat :: Unevaluated(v', i) ==> Unevaluated(v, i) || (d.Task? && Has(d.batch, i)))
  {
    var v' := v.(down := [d]);
    assert [d][1..] == [];
    assert DownBatches([d]) == if d.Task? then [d.batch] else [];
    assert UpBatches(v.up) == [];
  }

  lemma GenuineSplit<T, U, E>(c: Config<T, U, E>, a: seq<Item<T>>, b: seq<Item<T>>)
    requires Genuine(c, a + b)
    ensures Genuine(c, a) && Genuine(c, b)
  {
    assert forall k :: 0 <= k < |a| ==> a[k] == (a + b)[k];
    assert forall k :: 0 <= k < |b| ==> b[k] == (a + b)[|a| + k];
  }

  /** The coordinator accepts the request, and its new lane is the one the answer makes. */
  lemma ReadyLane<T, U>(sched: State<T, U>, w: int, v: View<T, U>)
    requires w in sched.remotes && sched.remotes[w] == LaneOf(v)
    requires !sched.failed && sched.pending != [] ==> SP.Dispatchable(sched)
    requires Shape(sched.prefetch, v) && v.up != [] && v.up[0].Ready?
    ensures var (sched', r) := OnRemoteReady(sched, w);
            && r.Ok?
            && sched'.remotes == sched.remotes[w := LaneOf(v.(up := [], down := [r.value]))]
            && sched' == sched.(remotes := sched'.remotes, pending := sched'.pending, nextId := sched'.nextId)
            && (r.value.Stop? ==> sched'.pending == sched.pending)
            && (r.value.Task? ==>
                  && SP.Dispatchable(sched) && MakeBatch(sched).Ok?
                  && MakeBatch(sched).value.1 == r.value.batch && MakeBatch(sched).value.0.pending == sched'.pending)
  {
    ReadyView(sched.prefetch, v);
    var (sched', r) := OnRemoteReady(sched, w);
    AnswerView(sched.prefetch, v.(up := []), r.value);
    assert Flow(v.(up := [])) == Flow(v);
  }

  /** The coordinator's answer to a Ready is a genuine task or a stop. */
  lemma ReadyAccepted<T, U, E>(c: Config<T, U, E>, s: Sys<T, U>, w: nat)
    requires Inv(c, s) && c.Worker(w) && s.outbox.None? && s.workers[w].up != [] && s.workers[w].up[0].Ready?
    ensures var (sched, r) := OnRemoteReady(s.sched, w);
            && r.Ok? && WellFormed(sched)
            && sched.remotes == s.sched.remotes[w := LaneOf(ViewOf(s, w).(up := [], down := [r.value]))]
            && Genuine(c, sched.pending)
            && (r.value.Task? ==> Genuine(c, r.value.batch.items))
            && (r.value.Task? ==> forall i: nat :: At(sched, i, InPending) || Has(r.value.batch, i) ==> At(s.sched, i, InPending))
            && (r.value.Stop? ==> sched.pending == s.sched.pending)
            && sched == s.sched.(remotes := sched.remotes, pending := sched.pending, nextId := sched.nextId)
  {
    assert WorkerOk(c, s, w);
    ReadyLane(s.sched, w, ViewOf(s, w));
    var (sched, r) := OnRemoteReady(s.sched, w);
    SP.ReadyKeeps(s.sched, w);
    if r.value.Task? {
      SP.BatchFacts(s.sched);
      GenuineSplit(c, r.value.batch.items, sched.pending);
    }
  }

  /** The answer is in the worker's view, and what it adds was pending before. */
  lemma ReadyAnswered<T, U, E>(c: Config<T, U, E>, s: Sys<T, U>, t: Sys<T, U>, w: nat)
    requires Inv(c, s) && c.Worker(w) && s.outbox.None? && s.workers[w].up != [] && s.workers[w].up[0].Ready?
    requires t == DoRootRecv(c, s, w, true)
    ensures |t.workers| == c.size
    ensures OnRemoteReady(s.sched, w).1.Ok?
    ensures ViewOf(t, w) == ViewOf(s, w).(up := [], down := [OnRemoteReady(s.sched, w).1.value])
    ensures forall i: nat :: Unevaluated(ViewOf(t, w), i) ==> Unevaluated(ViewOf(s, w), i) || At(s.sched, i, InPending)
  {
    assert WorkerOk(c, s, w);
    var v := ViewOf(s, w);
    ReadyView(c.prefetch, v);
    ReadyAccepted(c, s, w);
    AnswerView(c.prefetch, v.(up := []), OnRemoteReady(s.sched, w).1.value);
  }

  lemma ReadyWorkerOk<T, U, E>(c: Config<T, U, E>, s: Sys<T, U>, t: Sys<T, U>, w: nat)
    requires Inv(c, s) && c.Worker(w) && s.outbox.None? && s.workers[w].up != [] && s.workers[w].up[0].Ready?
    requires t == DoRootRecv(c, s, w, true)
    ensures |t.workers| == c.size && WorkerOk(c, t, w)
    ensures forall i: nat :: Unevaluated(ViewOf(t, w), i) ==> Unevaluated(ViewOf(s, w), i) || At(s.sched, i, InPending)
  {
    assert WorkerOk(c, s, w);
    var v := ViewOf(s, w);
    ReadyView(c.prefetch, v);
    ReadyAccepted(c, s, w);
    ReadyAnswered(c, s, t, w);
    AnswerView(c.prefetch, v.(up := []), OnRemoteReady(s.sched, w).1.value);
    assert Flow(v.(up := [])) == Flow(v);
  }

  lemma ReadyKeeps<T, U, E>(c: Config<T, U, E>, s: Sys<T, U>, w: nat, ok: bool)
    requires Inv(c, s) && c.Worker(w) && s.outbox.None? && s.workers[w].up != [] && s.workers[w].up[0].Ready?
    ensures Inv(c, DoRootRecv(c, s, w, ok))
  {
    var t := DoRootRecv(c, s, w, ok);
    ReadyWorkerOk(c, s, t, w);
    ReadyAccepted(c, s, w);
    assert forall u: nat :: c.Worker(u) && u != w ==> t.workers[u] == s.workers[u];
    RootStep(c, s, t, w);
  }

  // ----- replies

  /** Handling the oldest reply advances the pipeline and the lane together. */
  lemma ReplyView<T, U>(prefetch: bool, v: View<T, U>)
    requires Shape(prefetch, v) && v.up != [] && v.up[0].Reply?
    ensures var v' := v.(up := v.up[1..]);
            && Flow(v) == [v.up[0].batch] + Flow(v') && Told(v') == Told(v)
            && Shape(prefetch, v')
            && AdvanceLane(LaneOf(v)) == Some(LaneOf(v'))
            && (forall i: nat :: Unevaluated(v', i) ==> Unevaluated(v, i))
  {
    var v' := v.(up := v.up[1..]);
    assert Flow(v) == [v.up[0].batch] + Flow(v');
    assert forall last :: EndsWith(v.up, last) && |v.up| > 1 ==> v.up[1..][..|v.up| - 2] == v.up[..|v.up| - 1][1..];
  }

  lemma ReplyGood<T, U, E>(c: Config<T, U, E>, w: nat, v: View<T, U>, key: Option<int>, lane: Lane)
    requires v.up != [] && v.up[0].Reply? && WorkerGood(c, w, v, key, lane)
    ensures AdvanceLane(lane).Some?
    ensures WorkerGood(c, w, v.(up := v.up[1..]), key, AdvanceLane(lane).value)
  {
    var v' := v.(up := v.up[1..]);
    ReplyView(c.prefetch, v);
    assert forall k :: 0 <= k < |v'.up| ==> v'.up[k] == v.up[k + 1];
    assert forall k :: 0 <= k < |Flow(v')| ==> Flow(v')[k] == Flow(v)[k + 1];
  }

  lemma ReplyErrors<T, U>(v: View<T, U>, calls: seq<nat>)
    requires v.up != [] && ValuesLogged(v, calls)
    ensures ValuesLogged(v.(up := v.up[1..]), calls)
    ensures HasError(v) && (!v.up[0].Reply? || v.up[0].outcome.Values?) ==> HasError(v.(up := v.up[1..]))
  {
    var v' := v.(up := v.up[1..]);
    assert forall k :: 0 <= k < |v'.up| ==> v'.up[k] == v.up[k + 1];
    if k :| 1 <= k < |v.up| && v.up[k].Reply? && !v.up[k].outcome.Values? {
      assert v'.up[k - 1] == v.up[k];
    }
  }

  /** The rest of a worker's view after its oldest reply is taken. */
  lemma ReplyWorkerOk<T, U, E>(c: Config<T, U, E>, s: Sys<T, U>, t: Sys<T, U>, w: nat)
    requires Inv(c, s) && c.Worker(w) && s.workers[w].up != [] && s.workers[w].up[0].Reply?
    requires |t.workers| == c.size && ViewOf(t, w) == ViewOf(s, w).(up := s.workers[w].up[1..])
    requires t.workers[w].key == s.workers[w].key && t.calls == s.calls
    requires w in t.sched.remotes && AdvanceLane(s.sched.remotes[w]) == Some(t.sched.remotes[w])
    requires t.sched.failed || (!s.sched.failed && s.workers[w].up[0].outcome.Values?)
    ensures WorkerOk(c, t, w)
    ensures forall i: nat :: Unevaluated(ViewOf(t, w), i) ==> Unevaluated(ViewOf(s, w), i)
  {
    assert WorkerOk(c, s, w);
    var v := ViewOf(s, w);
    ReplyGood(c, w, v, s.workers[w].key, s.sched.remotes[w]);
    ReplyErrors(v, s.calls);
  }

  /** The coordinator accepts the values: they are the current batch's, in order, into empty slots. */
  lemma ValuesAccepted<T, U, E>(c: Config<T, U, E>, s: Sys<T, U>, b: Batch<T>, place: Place)
    requires c.Valid() && |s.sched.ordered| == |c.items| && Genuine(c, b.items) && AtMostOnePlace(s.sched)
    requires GoodMeta(|c.items|, MetaOf(b)) && Evaluate(c, b).Values?
    requires place != Filled && forall i: nat :: Has(b, i) ==> At(s.sched, i, place)
    ensures Accepted(s.sched.ordered, MetaOf(b).indices, Evaluate(c, b).results)
  {
    EvaluateGives(c, b);
    var meta := MetaOf(b);
    var results := Evaluate(c, b).results;
    forall k | 0 <= k < |results|
      ensures results[k].index == meta.indices[k] && meta.indices[k] < |c.items| && s.sched.ordered[meta.indices[k]].None?
    {
      assert Has(b, meta.indices[k]);
      assert At(s.sched, meta.indices[k], place);
      assert !At(s.sched, meta.indices[k], Filled);
    }
  }

  ghost predicate OrderedOk<T, U, E>(c: Config<T, U, E>, ordered: seq<Option<U>>, calls: seq<nat>) {
    && |ordered| == |c.items|
    && (forall i :: 0 <= i < |c.items| && ordered[i].Some? ==> c.f(c.items[i]) == Ok(ordered[i].value))
    && (forall i :: 0 <= i < |c.items| && ordered[i].Some? ==> i in calls)
  }

  /** Storing a batch's values keeps every filled slot equal to its callback's value. */
  lemma FillOk<T, U, E>(c: Config<T, U, E>, ordered: seq<Option<U>>, b: Batch<T>, calls: seq<nat>)
    requires OrderedOk(c, ordered, calls) && Genuine(c, b.items) && Evaluate(c, b).Values?
    requires Accepted(ordered, MetaOf(b).indices, Evaluate(c, b).results)
    requires forall i: nat :: Has(b, i) ==> i in calls
    ensures InRange(ordered, Evaluate(c, b).results)
    ensures OrderedOk(c, Fill(ordered, Evaluate(c, b).results), calls)
  {
    EvaluateGives(c, b);
    var results := Evaluate(c, b).results;
    FillStores(ordered, results);
    var filled := Fill(ordered, results);
    forall i | 0 <= i < |c.items| && filled[i].Some?
      ensures c.f(c.items[i]) == Ok(filled[i].value) && i in calls
    {
      if k :| 0 <= k < |results| && results[k].index == i {
        assert filled[results[k].index] == Some(results[k].value);
        assert MetaOf(b).indices[k] == i;
      } else {
        assert filled[i] == ordered[i];
      }
    }
  }

  lemma SuccessAccepted<T, U, E>(c: Config<T, U, E>, s: Sys<T, U>, w: nat)
    requires Inv(c, s) && c.Worker(w) && s.workers[w].up != [] && s.workers[w].up[0].Reply?
    requires s.workers[w].up[0].outcome.Values?
    ensures var m := s.workers[w].up[0];
            var (sched, r) := OnRemoteSuccess(s.sched, w, m.batch.id, m.outcome.results);
            && r.Ok? && AdvanceLane(s.sched.remotes[w]).Some?
            && sched == s.sched.(ordered := sched.ordered, remotes := s.sched.remotes[w := AdvanceLane(s.sched.remotes[w]).value])
            && OrderedOk(c, sched.ordered, s.calls)
  {
    assert WorkerOk(c, s, w);
    var v := ViewOf(s, w);
    var m := s.workers[w].up[0];
    ReplyView(c.prefetch, v);
    assert Flow(v)[0] == m.batch;
    FlowPlace(c, s, w, 0);
    assert m == v.up[0] && Truthful(c, m.batch, m.outcome);
    ValuesAccepted(c, s, m.batch, Current(w));
    ValidateAccepts(s.sched.ordered, MetaOf(m.batch), m.batch.id, m.outcome.results);
    FillOk(c, s.sched.ordered, m.batch, s.calls);
  }

  lemma SuccessKeeps<T, U, E>(c: Config<T, U, E>, s: Sys<T, U>, w: nat)
    requires Inv(c, s) && c.Worker(w) && s.outbox.None? && s.workers[w].up != []
    requires s.workers[w].up[0].Reply? && s.workers[w].up[0].outcome.Values?
    ensures Inv(c, DoRootRecv(c, s, w, true))
  {
    var t := DoRootRecv(c, s, w, true);
    var m := s.workers[w].up[0];
    SuccessAccepted(c, s, w);
    SP.RemoteSuccessKeeps(s.sched, w, m.batch.id, m.outcome.results);
    assert ViewOf(t, w) == ViewOf(s, w).(up := s.workers[w].up[1..]);
    ReplyTaken(c, s, t, w);
  }

  /** A reply has been handled: what remains to check is the coordinator and the root. */
  lemma ReplyTaken<T, U, E>(c: Config<T, U, E>, s: Sys<T, U>, t: Sys<T, U>, w: nat)
    requires Inv(c, s) && c.Worker(w) && s.outbox.None? && s.workers[w].up != [] && s.workers[w].up[0].Reply?
    requires t == SetWorker(s, w, s.workers[w].(up := s.workers[w].up[1..])).(sched := t.sched, rootKey := t.rootKey, rootError := t.rootError)
    requires WellFormed(t.sched) && OrderedOk(c, t.sched.ordered, s.calls)
    requires AdvanceLane(s.sched.remotes[w]).Some?
    requires t.sched == s.sched.(ordered := t.sched.ordered, pending := t.sched.pending, failed := t.sched.failed,
                                 remotes := s.sched.remotes[w := AdvanceLane(s.sched.remotes[w]).value])
    requires t.sched.pending == s.sched.pending || t.sched.pending == []
    requires s.sched.failed ==> t.sched.failed
    requires t.sched.failed && !s.sched.failed ==> t.rootKey.Some? || s.workers[w].key.Some?
    requires t.sched.failed || s.workers[w].up[0].outcome.Values?
    requires KeyFits(c, c.root, t.rootKey) && (s.rootKey.Some? ==> t.rootKey.Some?) && (t.rootKey.Some? ==> t.sched.failed)
    ensures Inv(c, t)
  {
    assert ViewOf(t, w) == ViewOf(s, w).(up := s.workers[w].up[1..]);
    ReplyWorkerOk(c, s, t, w);
    assert forall u: nat :: c.Worker(u) && u != w ==> ViewOf(t, u) == ViewOf(s, u);
    RootStep(c, s, t, w);
  }

  lemma FailedReplyKeeps<T, U, E>(c: Config<T, U, E>, s: Sys<T, U>, w: nat, ok: bool)
    requires Inv(c, s) && c.Worker(w) && s.outbox.None? && s.workers[w].up != [] && s.workers[w].up[0].Reply?
    requires !ok || !s.workers[w].up[0].outcome.Values?
    ensures Inv(c, DoRootRecv(c, s, w, ok))
  {
    var t := DoRootRecv(c, s, w, ok);
    var m := s.workers[w].up[0];
    assert WorkerOk(c, s, w);
    var v := ViewOf(s, w);
    ReplyView(c.prefetch, v);
    assert Flow(v)[0] == m.batch;
    SP.RemoteErrorKeeps(s.sched, w, m.batch.id);
    if !ok { KeepFits(c, c.root, s.rootKey, |c.items|, EK.WireProtocol); }
    if ok { assert v.up[0] == m && HasError(v); }
    ReplyTaken(c, s, t, w);
  }

  // ----- Drain

  lemma DrainView<T, U>(prefetch: bool, v: View<T, U>)
    requires Shape(prefetch, v) && v.up != [] && v.up[0].Drain?
    ensures v.pc.Done? && v.up == [Drain] && v.down == [] && LaneOf(v).Stopped?
    ensures Shape(prefetch, v.(up := [])) && LaneOf(v.(up := [])).Drained? && Flow(v.(up := [])) == []
    ensures !HasError(v)
  {
    assert EndsWith(v.up, Drain);
    assert UpBatches(v.up) == [];
  }

  lemma DrainGood<T, U, E>(c: Config<T, U, E>, w: nat, v: View<T, U>, key: Option<int>, lane: Lane)
    requires v.up != [] && v.up[0].Drain? && WorkerGood(c, w, v, key, lane)
    ensures lane.Stopped? && WorkerGood(c, w, v.(up := []), key, Drained) && !HasError(v)
  {
    DrainView(c.prefetch, v);
  }

  lemma DrainKeeps<T, U, E>(c: Config<T, U, E>, s: Sys<T, U>, w: nat, ok: bool)
    requires Inv(c, s) && c.Worker(w) && s.outbox.None? && s.workers[w].up != [] && s.workers[w].up[0].Drain?
    ensures Inv(c, DoRootRecv(c, s, w, ok))
  {
    var t := DoRootRecv(c, s, w, ok);
    assert WorkerOk(c, s, w);
    DrainGood(c, w, ViewOf(s, w), s.workers[w].key, s.sched.remotes[w]);
    DrainView(c.prefetch, ViewOf(s, w));
    SP.DrainKeeps(s.sched, w);
    assert ViewOf(t, w) == ViewOf(s, w).(up := []);
    assert WorkerOk(c, t, w);
    assert forall u: nat :: c.Worker(u) && u != w ==> ViewOf(t, u) == ViewOf(s, u);
    RootStep(c, s, t, w);
  }

  lemma RootRecvKeeps<T, U, E>(c: Config<T, U, E>, s: Sys<T, U>, w: nat, ok: bool)
    requires Inv(c, s) && c.Worker(w) && s.outbox.None? && s.workers[w].up != []
    ensures Inv(c, DoRootRecv(c, s, w, ok))
  {
    match s.workers[w].up[0]
    case Ready => ReadyKeeps(c, s, w, ok);
    case Drain => DrainKeeps(c, s, w, ok);
    case Reply(_, outcome) =>
      if ok && outcome.Values? { SuccessKeeps(c, s, w); } else { FailedReplyKeeps(c, s, w, ok); }
  }

  // ----- the root's own batches

  /** A step of the root that touches no worker. */
  lemma RootAlone<T, U, E>(c: Config<T, U, E>, s: Sys<T, U>, t: Sys<T, U>)
    requires Inv(c, s)
    requires t.workers == s.workers && t.outbox == s.outbox
    requires WellFormed(t.sched) && t.sched.remotes == s.sched.remotes
    requires (forall i: nat :: i in s.calls ==> i in t.calls) && (s.sched.failed ==> t.sched.failed)
    requires RootOk(c, t)
    requires Distinct(t.calls) && forall i: nat :: i in t.calls ==> i < |c.items| && !Waiting(c, t, i)
    requires t.sched.failed && !s.sched.failed ==> t.rootKey.Some?
    requires s.rootKey.Some? ==> t.rootKey.Some?
    ensures Inv(c, t)
  {
    forall u: nat | c.Worker(u) ensures WorkerOk(c, t, u) {
      assert WorkerOk(c, s, u);
      OtherWorker(c, s, t, u);
    }
    if s.sched.failed { KeysGrow(c, s, t); }
  }

  lemma NotWaitingAlone<T, U, E>(c: Config<T, U, E>, s: Sys<T, U>, t: Sys<T, U>, i: nat)
    requires |s.workers| == c.size && t.workers == s.workers && t.outbox == s.outbox
    requires !Waiting(c, s, i)
    requires At(t.sched, i, InPending) ==> At(s.sched, i, InPending)
    requires t.job.Some? && Has(t.job.value, i) ==> At(s.sched, i, InPending) || (s.job.Some? && Has(s.job.value, i))
    ensures !Waiting(c, t, i)
  {
    forall u: nat | c.Worker(u) ensures !Unevaluated(ViewOf(t, u), i) {
      assert ViewOf(t, u) == ViewOf(s, u);
      assert !Unevaluated(ViewOf(s, u), i);
    }
  }

  lemma RootStartKeeps<T, U, E>(c: Config<T, U, E>, s: Sys<T, U>)
    requires Inv(c, s) && s.outbox.None? && s.job.None? && !s.sched.root.Stopped?
    ensures Inv(c, DoRootStart(s))
  {
    var t := DoRootStart(s);
    SP.NextRootKeeps(s.sched);
    if !s.sched.failed && s.sched.pending != [] {
      SP.BatchFacts(s.sched);
      GenuineSplit(c, t.job.value.items, t.sched.pending);
    }
    forall i: nat | i in t.calls ensures !Waiting(c, t, i) {
      NotWaitingAlone(c, s, t, i);
    }
    RootAlone(c, s, t);
  }

  /** An index of the root's batch is waiting nowhere else. */
  lemma RootOnly<T, U, E>(c: Config<T, U, E>, s: Sys<T, U>, i: nat)
    requires Inv(c, s) && s.job.Some? && Has(s.job.value, i)
    ensures Waiting(c, s, i) && i !in s.calls && !At(s.sched, i, InPending)
    ensures forall u: nat :: c.Worker(u) ==> !Unevaluated(ViewOf(s, u), i)
  {
    assert At(s.sched, i, AtRoot);
    forall u: nat | c.Worker(u) ensures !Unevaluated(ViewOf(s, u), i) {
      if Unevaluated(ViewOf(s, u), i) { UnevaluatedPlace(c, s, u, i); }
    }
  }

  lemma FinishCalls<T, U, E>(c: Config<T, U, E>, s: Sys<T, U>, t: Sys<T, U>)
    requires Inv(c, s) && s.job.Some?
    requires t.workers == s.workers && t.outbox == s.outbox && t.job.None?
    requires t.sched.pending == s.sched.pending || t.sched.pending == []
    requires t.calls == s.calls + Calls(c, s.job.value)
    ensures Distinct(t.calls) && forall i: nat :: i in t.calls ==> i < |c.items| && !Waiting(c, t, i)
  {
    var b := s.job.value;
    CallsDistinct(c, b, |c.items|);
    forall i: nat | i in Calls(c, b) ensures i !in s.calls { RootOnly(c, s, i); }
    DistinctJoin(s.calls, Calls(c, b));
    forall i: nat | i in t.calls ensures i < |c.items| && !Waiting(c, t, i) {
      if i in s.calls {
        NotWaitingAlone(c, s, t, i);
      } else {
        RootOnly(c, s, i);
        forall u: nat | c.Worker(u) ensures !Unevaluated(ViewOf(t, u), i) {
          assert ViewOf(t, u) == ViewOf(s, u);
        }
      }
    }
  }

  /** The coordinator accepts the root's own outcome. */
  lemma FinishAccepted<T, U, E>(c: Config<T, U, E>, s: Sys<T, U>)
    requires Inv(c, s) && s.job.Some?
    ensures var t := Finish(c, s);
            && t.fault.None? && WellFormed(t.sched)
            && t.sched == s.sched.(root := Idle, ordered := t.sched.ordered, failed := t.sched.failed, pending := t.sched.pending)
            && (t.sched.pending == s.sched.pending || t.sched.pending == [])
            && (s.sched.failed ==> t.sched.failed)
            && (t.sched.failed && !s.sched.failed ==> t.rootKey.Some?)
            && OrderedOk(c, t.sched.ordered, t.calls)
            && KeyFits(c, c.root, t.rootKey) && (t.rootKey.Some? ==> t.sched.failed)
            && (s.rootKey.Some? ==> t.rootKey.Some?)
  {
    var b := s.job.value;
    var calls := s.calls + Calls(c, b);
    EvaluateGives(c, b);
    match Evaluate(c, b)
    case Values(results) =>
      assert forall i: nat :: Has(b, i) ==> At(s.sched, i, AtRoot);
      ValuesAccepted(c, s, b, AtRoot);
      ValidateAccepts(s.sched.ordered, MetaOf(b), b.id, results);
      assert OrderedOk(c, s.sched.ordered, calls);
      FillOk(c, s.sched.ordered, b, calls);
      SP.RootSuccessKeeps(s.sched, b.id, results);
    case CallbackError(index) =>
      KeepFits(c, c.root, s.rootKey, index, EK.Callback);
      SP.RootErrorKeeps(s.sched, b.id);
  }

  lemma RootFinishKeeps<T, U, E>(c: Config<T, U, E>, s: Sys<T, U>)
    requires Inv(c, s) && s.outbox.None? && s.job.Some?
    ensures Inv(c, Finish(c, s))
  {
    var t := Finish(c, s);
    FinishAccepted(c, s);
    FinishCalls(c, s, t);
    RootAlone(c, s, t);
  }

  // ----- all actions, all runs

  lemma StartInv<T, U, E>(c: Config<T, U, E>)
    requires c.Valid()
    ensures Inv(c, Start(c))
  {
    var s := Start<T, U, E>(c);
    SP.InitialWellFormed<T, U>((set w | 0 <= w < c.size && c.Worker(w)), c.items, c.batchSize, c.prefetch);
    forall w: nat | c.Worker(w) ensures WorkerOk(c, s, w) {
      assert s.workers[w] == Worker(SendReady(None), [], [], None, None);
    }
  }

  lemma StepKeeps<T, U, E>(c: Config<T, U, E>, s: Sys<T, U>, a: Action)
    requires Inv(c, s) && Enabled(c, s, a)
    ensures Inv(c, Step(c, s, a))
  {
    match a
    case WorkerSend(w) => WorkerSendKeeps(c, s, w);
    case WorkerRecv(w, ok) => WorkerRecvKeeps(c, s, w, ok);
    case WorkerEval(w) => WorkerEvalKeeps(c, s, w);
    case RootRecv(w, ok) => RootRecvKeeps(c, s, w, ok);
    case RootSend => RootSendKeeps(c, s);
    case RootStart => RootStartKeeps(c, s);
    case RootFinish => RootFinishKeeps(c, s);
  }

  /** Every state of every run satisfies the invariant. */
  lemma {:induction false} RunInv<T, U, E>(c: Config<T, U, E>, actions: seq<Action>, states: seq<Sys<T, U>>, k: nat)
    requires Run(c, actions, states) && k < |states|
    ensures Inv(c, states[k])
  {
    if k == 0 {
      StartInv(c);
    } else {
      RunInv(c, actions, states, k - 1);
      StepKeeps(c, states[k - 1], actions[k - 1]);
    }
  }
}
