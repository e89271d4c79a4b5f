/** What accepted coordinator calls move, that refused ones do not matter, and in which order work is handed out. */
module SchedulerEffects {
  import opened Wrappers
  import opened Scheduler
  import SP = SchedulerProofs

  /** A refused call leaves the coordinator as it was, so a valid retry still works. */
  lemma RefusedChangesNothing<T, U>(s: State<T, U>, rank: int, id: nat, results: seq<ItemResult<U>>)
    ensures OnRemoteReady(s, rank).1.Err? ==> OnRemoteReady(s, rank).0 == s
    ensures NextRootBatch(s).1.Err? ==> NextRootBatch(s).0 == s
    ensures OnRootSuccess(s, id, results).1.Err? ==> OnRootSuccess(s, id, results).0 == s
    ensures OnRemoteSuccess(s, rank, id, results).1.Err? ==> OnRemoteSuccess(s, rank, id, results).0 == s
    ensures OnRootError(s, id).1.Err? ==> OnRootError(s, id).0 == s
    ensures OnRemoteError(s, rank, id).1.Err? ==> OnRemoteError(s, rank, id).0 == s
    ensures OnRemoteProtocolError(s, rank).1.Err? ==> OnRemoteProtocolError(s, rank).0 == s
    ensures OnRemoteDrain(s, rank).1.Err? ==> OnRemoteDrain(s, rank).0 == s
  {
  }

  ghost predicate SameAt<T, U>(s: State<T, U>, t: State<T, U>, p: Place) {
    forall i: nat :: At(t, i, p) <==> At(s, i, p)
  }

  ghost predicate EmptyAt<T, U>(s: State<T, U>, p: Place) {
    forall i: nat :: !At(s, i, p)
  }

  /** The indices of `batch` leave pending for place `p`, in order and all at once, and nothing else moves. */
  ghost predicate Dispatched<T, U>(s: State<T, U>, t: State<T, U>, batch: Batch<T>, p: Place) {
    && s.pending == batch.items + t.pending && 0 < |batch.items| <= s.batchSize
    && (|batch.items| == s.batchSize || t.pending == [])
    && (forall i: nat :: At(t, i, p) <==> i in MetaOf(batch).indices)
    && EmptyAt(s, p)
    && forall q :: q != p && q != InPending ==> SameAt(s, t, q)
  }

  /** A ready worker gets the front of the queue as its current or prefetched batch, or a stop exactly when there
      is nothing left to hand out. */
  lemma ReadyMoves<T, U>(s: State<T, U>, rank: int)
    requires WellFormed(s) && OnRemoteReady(s, rank).1.Ok?
    ensures var (t, r) := OnRemoteReady(s, rank);
            match r.value
            case Stop => (s.failed || s.pending == []) && Ending(t.remotes[rank]) && t.pending == s.pending && forall q :: SameAt(s, t, q)
            case Task(batch) =>
              !s.failed && Dispatched(s, t, batch, if s.remotes[rank].Idle? then Current(rank) else Prefetched(rank))
  {
  }

  /** The root takes the front of the queue, or stops exactly when there is nothing left to hand out. */
  lemma RootMoves<T, U>(s: State<T, U>)
    requires WellFormed(s) && NextRootBatch(s).1.Ok?
    ensures var (t, r) := NextRootBatch(s);
            if r.value.None? then t.root.Stopped? && t.pending == s.pending && (s.failed || s.pending == []) && forall q :: SameAt(s, t, q)
            else !s.failed && Dispatched(s, t, r.value.value, AtRoot)
  {
  }

  /** Unless the run has failed, the results of a batch are where its indices say; a failed run keeps none. */
  ghost predicate Stored<T, U>(s: State<T, U>, t: State<T, U>, from: Place, results: seq<ItemResult<U>>) {
    && |t.ordered| == |s.ordered|
    && (s.failed ==> t.ordered == s.ordered)
    && (!s.failed ==>
          && (forall k :: 0 <= k < |results| ==> results[k].index < |t.ordered| && t.ordered[results[k].index] == Some(results[k].value))
          && (forall i: nat :: At(t, i, Filled) <==> At(s, i, Filled) || At(s, i, from))
          && (forall i: nat :: i < |s.ordered| && s.ordered[i].Some? ==> t.ordered[i] == s.ordered[i]))
  }

  lemma RootSuccessMoves<T, U>(s: State<T, U>, id: nat, results: seq<ItemResult<U>>)
    requires WellFormed(s) && OnRootSuccess(s, id, results).1.Ok?
    ensures var t := OnRootSuccess(s, id, results).0;
            && Stored(s, t, AtRoot, results) && EmptyAt(t, AtRoot)
            && forall q :: q != AtRoot && q != Filled ==> SameAt(s, t, q)
  {
    var meta := RootCurrent(s.root).value;
    ValidateAccepts(s.ordered, meta, id, results);
    FillStores(s.ordered, results);
    var t := OnRootSuccess(s, id, results).0;
    if !s.failed { SP.StoreFills(s, s.(root := Idle), meta.indices, results); }
    assert forall i: nat :: At(s, i, AtRoot) <==> i in meta.indices;
    forall i: nat | !s.failed && i < |s.ordered| && s.ordered[i].Some? ensures t.ordered[i] == s.ordered[i] {
      assert forall k :: 0 <= k < |results| ==> results[k].index != i;
    }
  }

  lemma RemoteSuccessMoves<T, U>(s: State<T, U>, rank: int, id: nat, results: seq<ItemResult<U>>)
    requires WellFormed(s) && OnRemoteSuccess(s, rank, id, results).1.Ok?
    ensures var t := OnRemoteSuccess(s, rank, id, results).0;
            && Stored(s, t, Current(rank), results)
            && (forall i: nat :: At(t, i, Current(rank)) <==> At(s, i, Prefetched(rank))) && EmptyAt(t, Prefetched(rank))
            && forall q :: q != Current(rank) && q != Prefetched(rank) && q != Filled ==> SameAt(s, t, q)
  {
    var meta := RemoteCurrent(s, rank).value;
    ValidateAccepts(s.ordered, meta, id, results);
    FillStores(s.ordered, results);
    SP.AdvanceMoves(s, rank);
    var u := AdvanceRemote(s, rank).0;
    var t := OnRemoteSuccess(s, rank, id, results).0;
    if !s.failed { SP.StoreFills(s, u, meta.indices, results); }
    assert forall i: nat :: At(s, i, Current(rank)) <==> i in meta.indices;
    assert forall i: nat, q :: q != Filled ==> (At(t, i, q) <==> At(u, i, q));
    forall i: nat | !s.failed && i < |s.ordered| && s.ordered[i].Some? ensures t.ordered[i] == s.ordered[i] {
      assert forall k :: 0 <= k < |results| ==> results[k].index != i;
    }
  }

  /** An error empties the queue and drops the failed batch; prefetched work moves up, and results stay. */
  lemma ErrorsDrop<T, U>(s: State<T, U>, rank: int, id: nat)
    requires WellFormed(s)
    ensures OnRootError(s, id).1.Ok? ==>
              var t := OnRootError(s, id).0;
              && t.failed && EmptyAt(t, InPending) && EmptyAt(t, AtRoot) && t.ordered == s.ordered && t.remotes == s.remotes
    ensures OnRemoteProtocolError(s, rank).1.Ok? ==>
              var t := OnRemoteProtocolError(s, rank).0;
              && t.failed && EmptyAt(t, InPending) && t.ordered == s.ordered && t.root == s.root
              && (forall i: nat :: At(t, i, Current(rank)) <==> At(s, i, Prefetched(rank))) && EmptyAt(t, Prefetched(rank))
    ensures OnRemoteError(s, rank, id).1.Ok? ==> OnRemoteError(s, rank, id) == OnRemoteProtocolError(s, rank)
  {
  }

  // ----- every sequence of calls

  function Refused<T, U>(s: State<T, U>, call: SP.Call<U>): bool {
    match call
    case Ready(rank) => OnRemoteReady(s, rank).1.Err?
    case NextRoot => NextRootBatch(s).1.Err?
    case RootSuccess(id, results) => OnRootSuccess(s, id, results).1.Err?
    case RemoteSuccess(rank, id, results) => OnRemoteSuccess(s, rank, id, results).1.Err?
    case RootError(id) => OnRootError(s, id).1.Err?
    case RemoteError(rank, id) => OnRemoteError(s, rank, id).1.Err?
    case RemoteProtocolError(rank) => OnRemoteProtocolError(s, rank).1.Err?
    case RemoteDrain(rank) => OnRemoteDrain(s, rank).1.Err?
  }

  /** The calls of a sequence that are not refused. */
  function AcceptedCalls<T, U>(s: State<T, U>, calls: seq<SP.Call<U>>): seq<SP.Call<U>>
    decreases |calls|
  {
    if calls == [] then []
    else
      var rest := AcceptedCalls(SP.Apply(s, calls[0]), calls[1..]);
      if Refused(s, calls[0]) then rest else [calls[0]] + rest
  }

  /** Refused calls do not matter: a sequence leads where its accepted calls alone lead. */
  lemma {:induction false} RefusedCallsDoNotMatter<T, U>(s: State<T, U>, calls: seq<SP.Call<U>>)
    ensures SP.After(s, AcceptedCalls(s, calls)) == SP.After(s, calls)
    decreases |calls|
  {
    if calls != [] {
      RefusedCallsDoNotMatter(SP.Apply(s, calls[0]), calls[1..]);
      match calls[0] {
        case RemoteSuccess(rank, id, results) => RefusedChangesNothing(s, rank, id, results);
        case RootSuccess(id, results) => RefusedChangesNothing(s, 0, id, results);
        case RootError(id) => RefusedChangesNothing(s, 0, id, []);
        case RemoteError(rank, id) => RefusedChangesNothing(s, rank, id, []);
        case Ready(rank) => RefusedChangesNothing(s, rank, 0, []);
        case RemoteProtocolError(rank) => RefusedChangesNothing(s, rank, 0, []);
        case RemoteDrain(rank) => RefusedChangesNothing(s, rank, 0, []);
        case NextRoot => RefusedChangesNothing(s, 0, 0, []);
      }
      var rest := AcceptedCalls(SP.Apply(s, calls[0]), calls[1..]);
      if !Refused(s, calls[0]) { assert ([calls[0]] + rest)[1..] == rest; }
    }
  }

  /** The batch a call hands out, if it does. */
  function Given<T, U>(s: State<T, U>, call: SP.Call<U>): seq<Batch<T>> {
    match call
    case Ready(rank) =>
      var r := OnRemoteReady(s, rank).1;
      if r.Ok? && r.value.Task? then [r.value.batch] else []
    case NextRoot =>
      var r := NextRootBatch(s).1;
      if r.Ok? && r.value.Some? then [r.value.value] else []
    case _ => []
  }

  function HandedOut<T, U>(s: State<T, U>, calls: seq<SP.Call<U>>): seq<Batch<T>>
    decreases |calls|
  {
    if calls == [] then [] else Given(s, calls[0]) + HandedOut(SP.Apply(s, calls[0]), calls[1..])
  }

  function ItemsOf<T>(batches: seq<Batch<T>>): seq<Item<T>> {
    if batches == [] then [] else batches[0].items + ItemsOf(batches[1..])
  }

  /** One call takes what it hands out off the front of the queue; an error empties the queue for good. */
  lemma GivenStep<T, U>(s: State<T, U>, call: SP.Call<U>)
    requires WellFormed(s)
    ensures var t, given := SP.Apply(s, call), Given(s, call);
            && |given| <= 1
            && (given != [] ==> given[0].id == s.nextId && !t.failed && s.pending == given[0].items + t.pending)
            && (given == [] ==> t.pending == s.pending || (t.failed && t.pending == []))
            && t.nextId == s.nextId + |given| && (s.failed ==> t.failed)
  {
    match call
    case Ready(rank) => if OnRemoteReady(s, rank).1.Ok? { ReadyMoves(s, rank); } else { RefusedChangesNothing(s, rank, 0, []); }
    case NextRoot => if NextRootBatch(s).1.Ok? { RootMoves(s); } else { RefusedChangesNothing(s, 0, 0, []); }
    case RootSuccess(id, results) =>
    case RemoteSuccess(rank, id, results) =>
    case RootError(id) => if OnRootError(s, id).1.Ok? { ErrorsDrop(s, 0, id); }
    case RemoteError(rank, id) => if OnRemoteError(s, rank, id).1.Ok? { ErrorsDrop(s, rank, id); }
    case RemoteProtocolError(rank) => if OnRemoteProtocolError(s, rank).1.Ok? { ErrorsDrop(s, rank, 0); }
    case RemoteDrain(rank) =>
  }

  /** What is handed out over any sequence of calls is the front of the queue, in order and without gaps, under
      consecutive batch ids; unless the run has failed, the rest of the queue is still pending. */
  lemma {:induction false} WorkIsHandedOutInOrder<T, U>(s: State<T, U>, calls: seq<SP.Call<U>>)
    requires WellFormed(s)
    ensures var t, out := SP.After(s, calls), HandedOut(s, calls);
            && (forall k :: 0 <= k < |out| ==> out[k].id == s.nextId + k)
            && |ItemsOf(out)| <= |s.pending| && ItemsOf(out) == s.pending[..|ItemsOf(out)|]
            && (!t.failed ==> s.pending == ItemsOf(out) + t.pending)
            && (s.failed ==> t.failed)
    decreases |calls|
  {
    if calls != [] {
      var t, given := SP.Apply(s, calls[0]), Given(s, calls[0]);
      GivenStep(s, calls[0]);
      SP.CallKeeps(s, calls[0]);
      WorkIsHandedOutInOrder(t, calls[1..]);
      var rest := HandedOut(t, calls[1..]);
      var out := given + rest;
      if given == [] {
        assert out == rest;
      } else {
        assert out[0] == given[0] && out[1..] == rest;
        assert s.pending[..|given[0].items| + |ItemsOf(rest)|] == given[0].items + t.pending[..|ItemsOf(rest)|];
      }
    }
  }
}
