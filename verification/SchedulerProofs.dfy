/** Every coordinator operation keeps `WellFormed`, and what a well-formed coordinator guarantees. */
module SchedulerProofs {
  import opened Wrappers
  import opened Scheduler

  lemma InitialWellFormed<T, U>(ranks: set<int>, items: seq<T>, batchSize: nat, prefetch: bool)
    requires batchSize > 0 && |items| <= U64_MAX
    ensures WellFormed(Initial<T, U>(ranks, items, batchSize, prefetch))
  {
    var s := Initial<T, U>(ranks, items, batchSize, prefetch);
    forall i: nat | i < |s.ordered| ensures Placed(s, i) {
      assert s.pending[i].index == i;
      assert At(s, i, InPending);
    }
  }

  lemma PendingRange<T, U>(s: State<T, U>, i: nat)
    requires PendingIsSuffix(s)
    ensures At(s, i, InPending) <==> |s.ordered| - |s.pending| <= i < |s.ordered|
  {
    if |s.ordered| - |s.pending| <= i < |s.ordered| {
      assert s.pending[i - (|s.ordered| - |s.pending|)].index == i;
    }
  }

  lemma MetaRange(n: nat, m: Meta, i: nat)
    requires GoodMeta(n, m)
    ensures i in m.indices <==> m.indices[0] <= i < m.indices[0] + |m.indices|
  {
    if m.indices[0] <= i < m.indices[0] + |m.indices| {
      assert m.indices[i - m.indices[0]] == i;
    }
  }

  predicate Dispatchable<T, U>(s: State<T, U>) {
    && s.batchSize > 0 && !s.failed && s.pending != [] && PendingIsSuffix(s)
    && |s.ordered| <= U64_MAX && s.nextId <= |s.ordered| - |s.pending|
  }

  /** A batch is a nonempty run of consecutive pending indices, and takes them out of pending. */
  lemma BatchFacts<T, U>(s: State<T, U>)
    requires Dispatchable(s)
    ensures MakeBatch(s).Ok?
    ensures var (s', batch) := MakeBatch(s).value;
            && batch.id == s.nextId && batch.items != []
            && |s.pending| == |batch.items| + |s'.pending|
            && batch.items + s'.pending == s.pending
            && s'.nextId <= |s.ordered| - |s'.pending|
            && PendingIsSuffix(s')
            && GoodMeta(|s.ordered|, MetaOf(batch))
            && (forall i: nat :: At(s, i, InPending) <==> At(s', i, InPending) || i in MetaOf(batch).indices)
            && (forall i: nat :: !(At(s', i, InPending) && i in MetaOf(batch).indices))
  {
    var (s', batch) := MakeBatch(s).value;
    var meta := MetaOf(batch);
    assert batch.items + s'.pending == s.pending;
    assert forall k :: 0 <= k < |s'.pending| ==> s'.pending[k] == s.pending[|batch.items| + k];
    assert forall k :: 0 <= k < |meta.indices| ==> meta.indices[k] == s.pending[k].index;
    assert meta.indices[0] == |s.ordered| - |s.pending|;
    forall i: nat
      ensures At(s, i, InPending) <==> At(s', i, InPending) || i in meta.indices
      ensures !(At(s', i, InPending) && i in meta.indices)
    {
      PendingRange(s, i);
      PendingRange(s', i);
      MetaRange(|s.ordered|, meta, i);
    }
  }

  /** Handing the front of pending to an empty place keeps every index at one place. */
  lemma DispatchKeeps<T, U>(s: State<T, U>, t: State<T, U>, place: Place)
    requires WellFormed(s) && !s.failed && s.pending != []
    requires var (s', batch) := MakeBatch(s).value;
             && t.pending == s'.pending && t.ordered == s.ordered
             && (forall i: nat :: At(t, i, place) <==> i in MetaOf(batch).indices)
             && (forall i: nat, p :: p != place && p != InPending ==> (At(t, i, p) <==> At(s, i, p)))
    requires place != InPending && forall i: nat :: !At(s, i, place)
    ensures AtMostOnePlace(t) && Covered(t)
  {
    BatchFacts(s);
    var (s', batch) := MakeBatch(s).value;
    assert forall i: nat :: At(t, i, InPending) <==> At(s', i, InPending);
    forall i: nat, p, q | At(t, i, p) && At(t, i, q) ensures p == q {
      if p == place { assert At(s, i, InPending); }
      if q == place { assert At(s, i, InPending); }
    }
    forall i: nat | i < |t.ordered| ensures Placed(t, i) {
      assert Placed(s, i);
      var p :| At(s, i, p);
      if p == InPending {
        assert At(t, i, InPending) || At(t, i, place);
      } else {
        assert At(t, i, p);
      }
    }
  }

  lemma ReadyKeeps<T, U>(s: State<T, U>, rank: int)
    requires WellFormed(s)
    ensures WellFormed(OnRemoteReady(s, rank).0)
    ensures OnRemoteReady(s, rank).1 != Err(BatchIdOverflow)
  {
    var (t, r) := OnRemoteReady(s, rank);
    if r.Err? {
      if rank in s.remotes && !s.failed && s.pending != [] { BatchFacts(s); }
    } else if r.value.Stop? {
      assert forall i: nat, p :: At(t, i, p) <==> At(s, i, p);
      assert forall i: nat :: Placed(s, i) ==> Placed(t, i);
    } else {
      BatchFacts(s);
      DispatchKeeps(s, t, if s.remotes[rank].Idle? then Current(rank) else Prefetched(rank));
    }
  }

  lemma NextRootKeeps<T, U>(s: State<T, U>)
    requires WellFormed(s)
    ensures WellFormed(NextRootBatch(s).0)
    ensures NextRootBatch(s).1 != Err(BatchIdOverflow)
  {
    var (t, r) := NextRootBatch(s);
    if r.Ok? && r.value.Some? {
      BatchFacts(s);
      DispatchKeeps(s, t, AtRoot);
    } else if r.Ok? {
      assert forall i: nat, p :: At(t, i, p) <==> At(s, i, p);
      assert forall i: nat :: Placed(s, i) ==> Placed(t, i);
    } else if !s.root.Running? && !s.root.Stopped? && !s.failed && s.pending != [] {
      BatchFacts(s);
    }
  }

  /** Where the indices of an advancing lane go: the prefetched batch becomes the current one. */
  lemma AdvanceMoves<T, U>(s: State<T, U>, rank: int)
    requires WellFormed(s) && rank in s.remotes && s.remotes[rank].Running?
    ensures AdvanceRemote(s, rank).1 == Ok(())
    ensures var t := AdvanceRemote(s, rank).0;
            && LanesGood(t)
            && (forall i: nat :: At(t, i, Current(rank)) <==> At(s, i, Prefetched(rank)))
            && (forall i: nat :: !At(t, i, Prefetched(rank)))
            && (forall i: nat, p :: p != Current(rank) && p != Prefetched(rank) ==> (At(t, i, p) <==> At(s, i, p)))
            && AtMostOnePlace(t)
  {
    var t := AdvanceRemote(s, rank).0;
    assert t.remotes.Keys == s.remotes.Keys;
    forall i: nat, p, q | At(t, i, p) && At(t, i, q) ensures p == q {
      assert At(s, i, if p == Current(rank) then Prefetched(rank) else p);
      assert At(s, i, if q == Current(rank) then Prefetched(rank) else q);
    }
  }

  /** Storing fills exactly the indices of the batch. */
  lemma StoreFills<T, U>(s: State<T, U>, t: State<T, U>, indices: seq<nat>, results: seq<ItemResult<U>>)
    requires !s.failed && Accepted(s.ordered, indices, results)
    requires t == t.(ordered := s.ordered, failed := s.failed)
    ensures InRange(s.ordered, results)
    ensures forall i: nat :: At(Store(t, results), i, Filled) <==> At(t, i, Filled) || i in indices
  {
    FillStores(s.ordered, results);
    var u := Store(t, results);
    forall i: nat ensures At(u, i, Filled) <==> At(t, i, Filled) || i in indices {
      if i in indices {
        var k :| 0 <= k < |indices| && indices[k] == i;
        assert u.ordered[results[k].index] == Some(results[k].value);
      } else if i < |s.ordered| {
        assert forall k :: 0 <= k < |results| ==> results[k].index == indices[k];
        assert u.ordered[i] == s.ordered[i];
      }
    }
  }

  /** Storing accepted results of a batch that has left its lane keeps every index in one place. */
  lemma StoreKeeps<T, U>(s: State<T, U>, t: State<T, U>, from: Place, indices: seq<nat>, results: seq<ItemResult<U>>)
    requires WellFormed(s)
    requires Accepted(s.ordered, indices, results)
    requires forall i: nat :: At(s, i, from) <==> i in indices
    requires from != Filled
    requires t == t.(ordered := s.ordered, pending := s.pending, batchSize := s.batchSize, nextId := s.nextId, failed := s.failed)
    requires LanesGood(t) && AtMostOnePlace(t)
    requires forall i: nat :: i in indices ==> forall p :: !At(t, i, p)
    requires forall i: nat :: i !in indices && Placed(s, i) ==> Placed(t, i)
    ensures InRange(s.ordered, results) && WellFormed(Store(t, results))
  {
    if !s.failed {
      FillStores(s.ordered, results);
      StoreFills(s, t, indices, results);
      var u := Store(t, results);
      forall i: nat, p | p != Filled ensures At(u, i, p) <==> At(t, i, p) { }
      forall i: nat | i < |u.ordered| ensures Placed(u, i) {
        assert Placed(s, i);
        if i in indices {
          assert At(u, i, Filled);
        } else {
          var p :| At(t, i, p);
          assert At(u, i, p);
        }
      }
    }
  }

  lemma RootSuccessKeeps<T, U>(s: State<T, U>, id: nat, results: seq<ItemResult<U>>)
    requires WellFormed(s)
    ensures WellFormed(OnRootSuccess(s, id, results).0)
  {
    if OnRootSuccess(s, id, results).1.Ok? {
      var meta := s.root.current;
      ValidateAccepts(s.ordered, meta, id, results);
      var t := s.(root := Idle);
      assert forall i: nat, p :: p != AtRoot ==> (At(t, i, p) <==> At(s, i, p));
      assert forall i: nat :: At(s, i, AtRoot) <==> i in meta.indices;
      forall i: nat | i !in meta.indices && Placed(s, i) ensures Placed(t, i) {
        var p :| At(s, i, p);
        assert At(t, i, p);
      }
      StoreKeeps(s, t, AtRoot, meta.indices, results);
    }
  }

  lemma RemoteSuccessKeeps<T, U>(s: State<T, U>, rank: int, id: nat, results: seq<ItemResult<U>>)
    requires WellFormed(s)
    ensures WellFormed(OnRemoteSuccess(s, rank, id, results).0)
  {
    if RemoteCurrent(s, rank).Ok? {
      AdvanceMoves(s, rank);
      var meta := s.remotes[rank].current;
      ValidateAccepts(s.ordered, meta, id, results);
      if Validate(s.ordered, meta, id, results).None? {
        var t := AdvanceRemote(s, rank).0;
        assert forall i: nat :: At(s, i, Current(rank)) <==> i in meta.indices;
        forall i: nat, p | i in meta.indices ensures !At(t, i, p) {
          assert p == Current(rank) ==> (At(t, i, p) <==> At(s, i, Prefetched(rank)));
          assert At(s, i, Current(rank));
        }
        forall i: nat | i !in meta.indices && Placed(s, i) ensures Placed(t, i) {
          var p :| At(s, i, p);
          assert At(t, i, if p == Prefetched(rank) then Current(rank) else p);
        }
        StoreKeeps(s, t, Current(rank), meta.indices, results);
      }
    }
  }

  lemma RootErrorKeeps<T, U>(s: State<T, U>, id: nat)
    requires WellFormed(s)
    ensures WellFormed(OnRootError(s, id).0)
  {
    var t := OnRootError(s, id).0;
    if OnRootError(s, id).1.Ok? {
      assert forall i: nat, p :: At(t, i, p) ==> At(s, i, p);
    }
  }

  /** Both remote error reports: the lane advances, and the run fails. */
  lemma RemoteErrorKeeps<T, U>(s: State<T, U>, rank: int, id: nat)
    requires WellFormed(s)
    ensures WellFormed(OnRemoteError(s, rank, id).0)
    ensures WellFormed(OnRemoteProtocolError(s, rank).0)
  {
    if RemoteCurrent(s, rank).Ok? {
      AdvanceMoves(s, rank);
      var t := AdvanceRemote(s, rank).0;
      assert forall i: nat, p :: At(Fail(t), i, p) ==> At(t, i, p);
    }
  }

  lemma DrainKeeps<T, U>(s: State<T, U>, rank: int)
    requires WellFormed(s)
    ensures WellFormed(OnRemoteDrain(s, rank).0)
  {
    var t := OnRemoteDrain(s, rank).0;
    assert forall i: nat, p :: At(t, i, p) <==> At(s, i, p);
    assert forall i: nat :: Placed(s, i) ==> Placed(t, i);
  }

  // ----- every sequence of calls

  datatype Call<U> =
    | Ready(rank: int)
    | NextRoot
    | RootSuccess(id: nat, results: seq<ItemResult<U>>)
    | RemoteSuccess(rank: int, id: nat, results: seq<ItemResult<U>>)
    | RootError(id: nat)
    | RemoteError(rank: int, id: nat)
    | RemoteProtocolError(rank: int)
    | RemoteDrain(rank: int)

  function Apply<T, U>(s: State<T, U>, call: Call<U>): State<T, U> {
    match call
    case Ready(rank) => OnRemoteReady(s, rank).0
    case NextRoot => NextRootBatch(s).0
    case RootSuccess(id, results) => OnRootSuccess(s, id, results).0
    case RemoteSuccess(rank, id, results) => OnRemoteSuccess(s, rank, id, results).0
    case RootError(id) => OnRootError(s, id).0
    case RemoteError(rank, id) => OnRemoteError(s, rank, id).0
    case RemoteProtocolError(rank) => OnRemoteProtocolError(s, rank).0
    case RemoteDrain(rank) => OnRemoteDrain(s, rank).0
  }

  function After<T, U>(s: State<T, U>, calls: seq<Call<U>>): State<T, U>
    decreases |calls|
  {
    if calls == [] then s else After(Apply(s, calls[0]), calls[1..])
  }

  lemma CallKeeps<T, U>(s: State<T, U>, call: Call<U>)
    requires WellFormed(s)
    ensures WellFormed(Apply(s, call))
  {
    match call
    case Ready(rank) => ReadyKeeps(s, rank);
    case NextRoot => NextRootKeeps(s);
    case RootSuccess(id, results) => RootSuccessKeeps(s, id, results);
    case RemoteSuccess(rank, id, results) => RemoteSuccessKeeps(s, rank, id, results);
    case RootError(id) => RootErrorKeeps(s, id);
    case RemoteError(rank, id) => RemoteErrorKeeps(s, rank, id);
    case RemoteProtocolError(rank) => RemoteErrorKeeps(s, rank, 0);
    case RemoteDrain(rank) => DrainKeeps(s, rank);
  }

  /** Whatever calls are made, in whatever order and with whatever arguments, the invariant holds. */
  lemma {:induction false} EveryCallSequenceKeeps<T, U>(s: State<T, U>, calls: seq<Call<U>>)
    requires WellFormed(s)
    ensures WellFormed(After(s, calls))
    decreases |calls|
  {
    if calls != [] {
      CallKeeps(s, calls[0]);
      EveryCallSequenceKeeps(Apply(s, calls[0]), calls[1..]);
    }
  }

  /** Once a run has failed no call changes a result, adds work, or clears the failure. */
  lemma {:induction false} FailureIsFinal<T, U>(s: State<T, U>, calls: seq<Call<U>>)
    requires s.failed && s.pending == []
    ensures After(s, calls).failed && After(s, calls).pending == [] && After(s, calls).ordered == s.ordered
    decreases |calls|
  {
    if calls != [] {
      FailureIsFinal(Apply(s, calls[0]), calls[1..]);
    }
  }

  /** A filled slot is never overwritten or emptied. */
  lemma {:induction false} FilledStaysFilled<T, U>(s: State<T, U>, calls: seq<Call<U>>, i: nat)
    requires i < |s.ordered| && s.ordered[i].Some?
    ensures |After(s, calls).ordered| == |s.ordered| && After(s, calls).ordered[i] == s.ordered[i]
    decreases |calls|
  {
    if calls != [] {
      FilledKept(s, calls[0], i);
      FilledStaysFilled(Apply(s, calls[0]), calls[1..], i);
    }
  }

  lemma FilledKept<T, U>(s: State<T, U>, call: Call<U>, i: nat)
    requires i < |s.ordered| && s.ordered[i].Some?
    ensures |Apply(s, call).ordered| == |s.ordered| && Apply(s, call).ordered[i] == s.ordered[i]
  {
    match call
    case RootSuccess(id, results) =>
      if RootCurrent(s.root).Some? {
        KeptByStore(s.ordered, RootCurrent(s.root).value, id, results, i);
      }
    case RemoteSuccess(rank, id, results) =>
      if RemoteCurrent(s, rank).Ok? {
        KeptByStore(s.ordered, RemoteCurrent(s, rank).value, id, results, i);
      }
    case _ =>
  }

  lemma KeptByStore<U>(ordered: seq<Option<U>>, meta: Meta, id: nat, results: seq<ItemResult<U>>, i: nat)
    requires i < |ordered| && ordered[i].Some?
    ensures Validate(ordered, meta, id, results).None? ==>
              InRange(ordered, results) && Fill(ordered, results)[i] == ordered[i]
  {
    ValidateAccepts(ordered, meta, id, results);
    if Validate(ordered, meta, id, results).None? {
      FillStores(ordered, results);
    }
  }

  /** A finished run that did not fail has every result: `MissingResult` is unreachable. */
  lemma FinishedIsComplete<T, U>(s: State<T, U>)
    requires WellFormed(s) && Finished(s)
    ensures IntoResults(s).Ok? <==> !s.failed
    ensures !s.failed ==>
              |IntoResults(s).value| == |s.ordered| &&
              forall i :: 0 <= i < |s.ordered| ==> s.ordered[i] == Some(IntoResults(s).value[i])
  {
    CollectIsComplete(s.ordered);
    if !s.failed {
      forall i | 0 <= i < |s.ordered| ensures s.ordered[i].Some? {
        assert Placed(s, i);
        var p :| At(s, i, p);
        assert p == Filled;
      }
    }
  }
}
