/** Which key a rank holds in a run of `pmap`: the least of those its errors were recorded under. */
module PmapKeys {
  import opened Wrappers
  import opened Scheduler
  import opened SerialMap
  import opened Pmap
  import opened PmapInvariant
  import opened PmapSafety
  import opened PmapRootSteps
  import opened PmapMessages
  import EK = ErrorKeys

  function Least(x: Option<int>, y: Option<int>): Option<int> {
    if x.None? then y else if y.None? || x.value <= y.value then x else y
  }

  /** Index `i` is the first of the batch whose callback fails. */
  ghost predicate FirstFailure<T, U, E>(c: Config<T, U, E>, batch: Batch<T>, i: nat) {
    exists k :: 0 <= k < |batch.items| && batch.items[k].index == i && c.f(batch.items[k].value).Err?
      && forall j :: 0 <= j < k ==> c.f(batch.items[j].value).Ok?
  }

  // ----- workers

  /** The worker sends an error for its batch in this action. */
  ghost predicate SendsError<T, U>(s: Sys<T, U>, a: Action, w: nat) {
    a == WorkerSend(w) && w < |s.workers| && s.workers[w].pc.SendOutcome? && !s.workers[w].pc.outcome.Values?
  }

  /** The key under which it records that error: its first failing input, or, for a batch that did not decode, the number
      of items that the batch announced. */
  ghost function SentKey<T, U, E>(c: Config<T, U, E>, s: Sys<T, U>, a: Action, w: nat): Option<int> {
    if !SendsError(s, a, w) then None
    else match s.workers[w].pc.outcome
      case CallbackError(index) => Some(EK.Raw(index, EK.Callback, w, c.size))
      case WireError(_) => Some(EK.Raw(|s.workers[w].pc.batch.items|, EK.WireProtocol, w, c.size))
  }

  ghost function LeastSent<T, U, E>(c: Config<T, U, E>, actions: seq<Action>, states: seq<Sys<T, U>>, k: nat, w: nat): Option<int>
    requires k <= |actions| < |states|
  {
    if k == 0 then None else Least(LeastSent(c, actions, states, k - 1, w), SentKey(c, states[k - 1], actions[k - 1], w))
  }

  /** Only a worker's own send touches its key. */
  lemma KeyStays<T, U, E>(c: Config<T, U, E>, s: Sys<T, U>, a: Action, w: nat)
    requires |s.workers| == c.size && Enabled(c, s, a) && c.Worker(w) && a != WorkerSend(w)
    ensures Step(c, s, a).workers[w].key == s.workers[w].key
  {
  }

  lemma SendRecords<T, U, E>(c: Config<T, U, E>, s: Sys<T, U>, w: nat)
    requires |s.workers| == c.size && Enabled(c, s, WorkerSend(w)) && c.Worker(w)
    requires s.workers[w].pc.SendOutcome? && s.workers[w].pc.outcome.WireError? ==>
               s.workers[w].pc.outcome.index == |s.workers[w].pc.batch.items|
    ensures DoSend(c, s, w).workers[w].key == Least(s.workers[w].key, SentKey(c, s, WorkerSend(w), w))
  {
  }

  lemma StepRecords<T, U, E>(c: Config<T, U, E>, s: Sys<T, U>, a: Action, w: nat)
    requires Inv(c, s) && Enabled(c, s, a) && c.Worker(w)
    ensures Step(c, s, a).workers[w].key == Least(s.workers[w].key, SentKey(c, s, a, w))
  {
    if a == WorkerSend(w) {
      assert WorkerOk(c, s, w);
      if s.workers[w].pc.SendOutcome? { SentIsKnown(c, s, w); }
      SendRecords(c, s, w);
    } else {
      KeyStays(c, s, a, w);
    }
  }

  lemma SentIsKnown<T, U, E>(c: Config<T, U, E>, s: Sys<T, U>, w: nat)
    requires Inv(c, s) && c.Worker(w) && s.workers[w].pc.SendOutcome?
    ensures s.workers[w].pc.outcome.WireError? ==> s.workers[w].pc.outcome.index == |s.workers[w].pc.batch.items|
    ensures s.workers[w].pc.outcome.CallbackError? ==> s.workers[w].pc.outcome == Evaluate(c, s.workers[w].pc.batch)
  {
    assert WorkerOk(c, s, w);
    var b := s.workers[w].pc.batch;
    assert Evaluate(c, b) == WireError(|b.items|) || !Evaluate(c, b).WireError?;
  }

  /** In every run a worker's key is the least of those of the errors it has sent, and there is none before the first. */
  lemma {:induction false} WorkerHoldsLeastKey<T, U, E>(c: Config<T, U, E>, actions: seq<Action>, states: seq<Sys<T, U>>, k: nat, w: nat)
    requires Run(c, actions, states) && k <= |actions| && c.Worker(w)
    ensures states[k].workers[w].key == LeastSent(c, actions, states, k, w)
  {
    if k > 0 {
      WorkerHoldsLeastKey(c, actions, states, k - 1, w);
      RunInv(c, actions, states, k - 1);
      StepRecords(c, states[k - 1], actions[k - 1], w);
    }
  }

  /** What a worker sends as a callback error is its batch's first failing input. */
  lemma CallbackErrorIsFirst<T, U, E>(c: Config<T, U, E>, actions: seq<Action>, states: seq<Sys<T, U>>, k: nat, w: nat)
    requires Run(c, actions, states) && k < |actions| && c.Worker(w) && SendsError(states[k], actions[k], w)
    requires states[k].workers[w].pc.outcome.CallbackError?
    ensures FirstFailure(c, states[k].workers[w].pc.batch, states[k].workers[w].pc.outcome.index)
  {
    RunInv(c, actions, states, k);
    SentIsKnown(c, states[k], w);
    CallbackIsFirst(c, states[k].workers[w].pc.batch);
  }

  lemma CallbackIsFirst<T, U, E>(c: Config<T, U, E>, batch: Batch<T>)
    requires Evaluate(c, batch).CallbackError?
    ensures FirstFailure(c, batch, Evaluate(c, batch).index)
  {
    var values := ValuesOf(batch);
    ModesAgree(c.mode, values, c.f);
    MapExact(values, c.f);
    var k := Map(values, c.f).error.index;
    assert forall j :: 0 <= j < |values| ==> values[j] == batch.items[j].value;
    assert batch.items[k].index == Evaluate(c, batch).index;
  }

  // ----- the root

  /** The key under which the root records an error in this action. */
  ghost function RootsKey<T, U, E>(c: Config<T, U, E>, s: Sys<T, U>, a: Action): Option<int> {
    if RecordsCallback(c, s, a) then Some(EK.Raw(Evaluate(c, s.job.value).index, EK.Callback, c.root, c.size))
    else if RecordsUndecodable(s, a) then Some(EK.Raw(|c.items|, EK.WireProtocol, c.root, c.size))
    else None
  }

  ghost function LeastAtRoot<T, U, E>(c: Config<T, U, E>, actions: seq<Action>, states: seq<Sys<T, U>>, k: nat): Option<int>
    requires k <= |actions| < |states|
  {
    if k == 0 then None else Least(LeastAtRoot(c, actions, states, k - 1), RootsKey(c, states[k - 1], actions[k - 1]))
  }

  lemma RootRecords<T, U, E>(c: Config<T, U, E>, s: Sys<T, U>, a: Action)
    requires Inv(c, s) && Enabled(c, s, a)
    ensures Step(c, s, a).rootKey == Least(s.rootKey, RootsKey(c, s, a))
  {
    if a.RootFinish? { EvaluateGives(c, s.job.value); }
  }

  /** In every run the root's key is the least of those of its own callback errors, each its batch's first failing input,
      and of the undecodable replies it has handled, which count behind the whole input. */
  lemma {:induction false} RootHoldsLeastKey<T, U, E>(c: Config<T, U, E>, actions: seq<Action>, states: seq<Sys<T, U>>, k: nat)
    requires Run(c, actions, states) && k <= |actions|
    ensures states[k].rootKey == LeastAtRoot(c, actions, states, k)
    ensures k < |actions| && RecordsCallback(c, states[k], actions[k]) ==>
              FirstFailure(c, states[k].job.value, Evaluate(c, states[k].job.value).index)
  {
    if k < |actions| && RecordsCallback(c, states[k], actions[k]) { CallbackIsFirst(c, states[k].job.value); }
    if k > 0 {
      RootHoldsLeastKey(c, actions, states, k - 1);
      RunInv(c, actions, states, k - 1);
      RootRecords(c, states[k - 1], actions[k - 1]);
    }
  }
}
