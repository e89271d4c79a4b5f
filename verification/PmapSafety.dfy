/** Every step of the `pmap` system keeps the invariant. */
module PmapSafety {
  import opened Wrappers
  import opened Scheduler
  import SP = SchedulerProofs
  import opened SerialMap
  import opened Pmap
  import opened PmapInvariant
  import EK = ErrorKeys

  // ----- the pipeline of one worker

  lemma {:induction false} UpAppend<T, U>(up: seq<Up<T, U>>, m: Up<T, U>)
    ensures UpBatches(up + [m]) == UpBatches(up) + (if m.Reply? then [m.batch] else [])
  {
    var all := up + [m];
    if up == [] {
      assert all == [m] && all[1..] == [];
    } else {
      assert all[0] == up[0] && all[1..] == up[1..] + [m];
      UpAppend(up[1..], m);
      var rest, last := UpBatches(up[1..]), if m.Reply? then [m.batch] else [];
      assert forall first :: [first] + (rest + last) == [first] + rest + last;
    }
  }

  ghost predicate Sending<T, U>(pc: Pc<T, U>) {
    pc.SendReady? || pc.SendOutcome? || pc.SendDrain?
  }

  ghost predicate Moved<T, U>(prefetch: bool, v: View<T, U>, v': View<T, U>) {
    && Flow(v') == Flow(v) && Told(v') == Told(v) && LaneOf(v') == LaneOf(v)
    && Shape(prefetch, v')
    && (forall i: nat :: Unevaluated(v', i) ==> Unevaluated(v, i))
  }

  ghost function SentView<T, U, E>(c: Config<T, U, E>, w: nat, me: Worker<T, U>): View<T, U> {
    View(Send(c, w, me).pc, Send(c, w, me).up, [])
  }

  lemma SendFlow<T, U, E>(c: Config<T, U, E>, w: nat, me: Worker<T, U>)
    requires Sending(me.pc)
    ensures Flow(SentView(c, w, me)) == Flow(View(me.pc, me.up, []))
    ensures Told(SentView(c, w, me)) == Told(View(me.pc, me.up, []))
    ensures forall i: nat :: Unevaluated(SentView(c, w, me), i) ==> Unevaluated(View(me.pc, me.up, []), i)
  {
    var me' := Send(c, w, me);
    UpAppend(me.up, me'.up[|me.up|]);
    if me.pc.SendOutcome? {
      assert PcBatches(me.pc) == [me.pc.batch] + PcBatches(me'.pc);
    }
  }

  lemma SendChannels<T, U, E>(c: Config<T, U, E>, w: nat, me: Worker<T, U>)
    requires Sending(me.pc) && Channels(View(me.pc, me.up, [])) && LoopShape(c.prefetch, me.pc)
    ensures Channels(SentView(c, w, me)) && LoopShape(c.prefetch, SentView(c, w, me).pc)
  {
    assert Send(c, w, me).up[..|me.up|] == me.up;
  }

  /** Sending moves a batch along the pipeline and changes nothing the coordinator tracks. */
  lemma SendMoves<T, U, E>(c: Config<T, U, E>, w: nat, me: Worker<T, U>)
    requires Sending(me.pc) && Shape(c.prefetch, View(me.pc, me.up, []))
    ensures Moved(c.prefetch, View(me.pc, me.up, []), SentView(c, w, me))
  {
    SendFlow(c, w, me);
    SendChannels(c, w, me);
  }

  /** Receiving does too; it can only drop a batch from those still to be evaluated. */
  lemma ReceiveMoves<T, U, E>(c: Config<T, U, E>, me: Worker<T, U>, v: View<T, U>, ok: bool)
    requires me.pc.Wait? && me.down != [] && v == View(me.pc, me.up, me.down)
    requires Shape(c.prefetch, v)
    ensures Moved(c.prefetch, v, View(Receive(c, me, ok).pc, me.up, Receive(c, me, ok).down))
  {
    var me' := Receive(c, me, ok);
    assert me.up == [] && |me.down| == 1 && me'.down == [];
    assert DownBatches(me.down) == if me.down[0].Task? then [me.down[0].batch] else [];
    var v' := View(me'.pc, me'.up, me'.down);
    forall i: nat | Unevaluated(v', i) ensures Unevaluated(v, i) {
      assert v.down[0] == me.down[0];
    }
  }

  lemma EvalMoves<T, U>(prefetch: bool, v: View<T, U>, outcome: Outcome<U>)
    requires v.pc.Held? && Shape(prefetch, v)
    ensures Moved(prefetch, v, v.(pc := SendOutcome(v.pc.batch, outcome, v.pc.next)))
  {
  }

  // ----- frames

  /** A worker the step does not touch stays as good as it was. */
  lemma OtherWorker<T, U, E>(c: Config<T, U, E>, s: Sys<T, U>, t: Sys<T, U>, u: nat)
    requires c.Valid() && |s.workers| == c.size && |t.workers| == c.size && c.Worker(u)
    requires WorkerOk(c, s, u)
    requires ViewOf(t, u) == ViewOf(s, u) && t.workers[u].key == s.workers[u].key
    requires u in t.sched.remotes && t.sched.remotes[u] == s.sched.remotes[u]
    requires (forall i: nat :: i in s.calls ==> i in t.calls) && (s.sched.failed ==> t.sched.failed)
    ensures WorkerOk(c, t, u)
  {
  }

  lemma StillCalled<T, U, E>(c: Config<T, U, E>, s: Sys<T, U>, t: Sys<T, U>, w: nat, i: nat)
    requires |s.workers| == c.size == |t.workers| && c.Worker(w)
    requires t == SetWorker(s, w, t.workers[w])
    requires Unevaluated(ViewOf(t, w), i) ==> Unevaluated(ViewOf(s, w), i)
    requires !Waiting(c, s, i)
    ensures !Waiting(c, t, i)
  {
    forall u: nat | c.Worker(u) ensures !Unevaluated(ViewOf(t, u), i) {
      assert !Unevaluated(ViewOf(s, u), i);
      if u != w { assert ViewOf(t, u) == ViewOf(s, u); }
    }
  }

  lemma KeysGrow<T, U, E>(c: Config<T, U, E>, s: Sys<T, U>, t: Sys<T, U>)
    requires |s.workers| == c.size == |t.workers|
    requires SomeKey(c, s)
    requires s.rootKey.Some? ==> t.rootKey.Some?
    requires forall w: nat :: c.Worker(w) && s.workers[w].key.Some? ==> t.workers[w].key.Some?
    ensures SomeKey(c, t)
  {
    if s.rootKey.None? {
      var u: nat :| c.Worker(u) && s.workers[u].key.Some?;
      assert t.workers[u].key.Some?;
    }
  }

  /** A step that moves batches inside worker `w` only. */
  lemma LocalStep<T, U, E>(c: Config<T, U, E>, s: Sys<T, U>, t: Sys<T, U>, w: nat)
    requires Inv(c, s) && c.Worker(w)
    requires |t.workers| == c.size && t == SetWorker(s, w, t.workers[w])
    requires WorkerOk(c, t, w)
    requires forall i: nat :: Unevaluated(ViewOf(t, w), i) ==> Unevaluated(ViewOf(s, w), i)
    requires s.workers[w].key.Some? ==> t.workers[w].key.Some?
    ensures Inv(c, t)
  {
    forall u: nat | c.Worker(u) ensures WorkerOk(c, t, u) {
      assert WorkerOk(c, s, u);
      if u != w { OtherWorker(c, s, t, u); }
    }
    forall i: nat | i in t.calls ensures !Waiting(c, t, i) {
      StillCalled(c, s, t, w, i);
    }
    if t.sched.failed { KeysGrow(c, s, t); }
  }

  // ----- keys

  /** Any key the protocol makes is below the no-error key and names its rank. */
  lemma KeyFitsRank<T, U, E>(c: Config<T, U, E>, task: nat, class_: EK.Class, rank: nat)
    requires c.Valid() && task <= |c.items| && rank < c.size
    ensures 0 <= EK.Raw(task, class_, rank, c.size) < EK.NO_ERROR_KEY
    ensures EK.Raw(task, class_, rank, c.size) % c.size == rank
  {
    EK.DivMod(task * 3 + EK.Code(class_), rank, c.size);
    if task * 3 + EK.Code(class_) < |c.items| * 3 + 2 {
      EK.BlockOrder(task * 3 + EK.Code(class_), rank, |c.items| * 3 + 2, c.size - 1, c.size);
    }
  }

  lemma KeepFits<T, U, E>(c: Config<T, U, E>, rank: nat, key: Option<int>, task: nat, class_: EK.Class)
    requires KeyFits(c, rank, key)
    requires Made(c, rank, EK.Raw(task, class_, rank, c.size), task, class_)
    ensures KeyFits(c, rank, Keep(key, EK.Raw(task, class_, rank, c.size)))
  {
  }

  // ----- what evaluating a batch gives

  lemma EvaluateGives<T, U, E>(c: Config<T, U, E>, b: Batch<T>)
    requires Genuine(c, b.items)
    ensures !Evaluate(c, b).WireError?
    ensures Evaluate(c, b).Values? ==>
              var results := Evaluate(c, b).results;
              && |results| == |b.items| && Calls(c, b) == MetaOf(b).indices
              && forall k :: 0 <= k < |results| ==>
                   results[k].index == b.items[k].index && c.f(c.items[results[k].index]) == Ok(results[k].value)
    ensures Evaluate(c, b).CallbackError? ==>
              Evaluate(c, b).index < |c.items| && c.f(c.items[Evaluate(c, b).index]).Err?
    ensures forall i: nat :: i in Calls(c, b) ==> Has(b, i)
  {
    var values := ValuesOf(b);
    ModesAgree(c.mode, values, c.f);
    MapExact(values, c.f);
    assert forall k :: 0 <= k < |values| ==> values[k] == b.items[k].value;
  }

  // ----- the coordinator's places are the workers' batches

  /** A batch in a worker's pipeline is its lane's current or prefetched batch. */
  lemma FlowPlace<T, U, E>(c: Config<T, U, E>, s: Sys<T, U>, w: nat, k: nat)
    requires Inv(c, s) && c.Worker(w) && k < |Flow(ViewOf(s, w))|
    ensures k <= 1
    ensures GoodMeta(|c.items|, MetaOf(Flow(ViewOf(s, w))[k]))
    ensures forall i: nat :: Has(Flow(ViewOf(s, w))[k], i) <==>
              At(s.sched, i, if k == 0 then Current(w) else Prefetched(w))
  {
    assert WorkerOk(c, s, w);
    assert GoodLane(|c.items|, s.sched.remotes[w]);
  }
}
