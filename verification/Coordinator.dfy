/** The coordinator of src/scheduler.rs as it runs: fields updated in place, loops over results.

  Each method is proved against the function of the same name in `Scheduler`, so the invariant and
  the whole-run results of `SchedulerProofs` hold of the object after any sequence of calls.
 */
module CoordinatorObject {
  import opened Wrappers
  import opened Scheduler
  import SchedulerProofs

  /** Which rank, if any, makes construction fail: the first one that is negative, the root, or a repeat. */
  function RankError(root: int, ranks: seq<int>): Option<Error> {
    if ranks == [] then None
    else
      var front := ranks[..|ranks| - 1];
      var last := ranks[|ranks| - 1];
      if RankError(root, front).Some? then RankError(root, front)
      else if last < 0 then Some(InvalidRemote)
      else if last == root then Some(RootInRemotes)
      else if last in front then Some(DuplicateRemote)
      else None
  }

  lemma {:induction false} RankErrorExact(root: int, ranks: seq<int>)
    ensures RankError(root, ranks).None? <==>
            && (forall k :: 0 <= k < |ranks| ==> ranks[k] >= 0 && ranks[k] != root)
            && (forall j, k :: 0 <= j < k < |ranks| ==> ranks[j] != ranks[k])
  {
    if ranks != [] {
      RankErrorExact(root, ranks[..|ranks| - 1]);
    }
  }

  lemma {:induction false} RankErrorPrefix(root: int, ranks: seq<int>, k: nat)
    requires k <= |ranks|
    ensures RankError(root, ranks[..k]).Some? ==> RankError(root, ranks) == RankError(root, ranks[..k])
    decreases |ranks|
  {
    if k < |ranks| {
      RankErrorPrefix(root, ranks[..|ranks| - 1], k);
      assert ranks[..|ranks| - 1][..k] == ranks[..k];
    } else {
      assert ranks[..k] == ranks;
    }
  }

  method New<T, U>(root: int, ranks: seq<int>, items: seq<T>, batchSize: nat, prefetch: bool)
    returns (r: Result<Coordinator<T, U>, Error>)
    requires batchSize > 0 && |items| <= U64_MAX
    ensures root < 0 ==> r == Err(InvalidRoot)
    ensures root >= 0 && RankError(root, ranks).Some? ==> r == Err(RankError(root, ranks).value)
    ensures root >= 0 && RankError(root, ranks).None? ==>
              && r.Ok? && fresh(r.value) && WellFormed(r.value.Value())
              && r.value.Value() == Initial(set k | 0 <= k < |ranks| :: ranks[k], items, batchSize, prefetch)
  {
    if root < 0 { return Err(InvalidRoot); }
    var seen: set<int> := {};
    for k := 0 to |ranks|
      invariant RankError(root, ranks[..k]).None?
      invariant seen == set j | 0 <= j < k :: ranks[j]
    {
      assert ranks[..k + 1][..k] == ranks[..k];
      assert forall x :: x in ranks[..k] <==> x in seen;
      RankErrorPrefix(root, ranks, k + 1);
      if ranks[k] < 0 { return Err(InvalidRemote); }
      if ranks[k] == root { return Err(RootInRemotes); }
      if ranks[k] in seen { return Err(DuplicateRemote); }
      seen := seen + {ranks[k]};
    }
    assert ranks[..|ranks|] == ranks;
    SchedulerProofs.InitialWellFormed<T, U>(seen, items, batchSize, prefetch);
    var c := new Coordinator<T, U>(seen, items, batchSize, prefetch);
    return Ok(c);
  }

  class Coordinator<T, U> {
    var pending: seq<Item<T>>
    var ordered: seq<Option<U>>
    const batchSize: nat
    var nextId: nat
    var root: Lane
    var remotes: map<int, Lane>
    const prefetch: bool
    var failed: bool

    ghost function Value(): State<T, U>
      reads this
    {
      State(pending, ordered, batchSize, nextId, root, remotes, prefetch, failed)
    }

    constructor (ranks: set<int>, items: seq<T>, batchSize: nat, prefetch: bool)
      ensures Value() == Initial(ranks, items, batchSize, prefetch)
    {
      this.pending := Enumerate(items);
      this.ordered := seq(|items|, _ => None);
      this.batchSize := batchSize;
      this.nextId := 0;
      this.root := Idle;
      this.remotes := map r | r in ranks :: Idle;
      this.prefetch := prefetch;
      this.failed := false;
    }

    method TakeBatch() returns (r: Result<Batch<T>, Error>)
      requires !failed && pending != []
      modifies this`pending, this`nextId
      ensures match MakeBatch(old(Value()))
              case Err(error) => r == Err(error) && Value() == old(Value())
              case Ok((s, batch)) => r == Ok(batch) && Value() == s
    {
      if nextId >= U64_MAX { return Err(BatchIdOverflow); }
      var count := Min(batchSize, |pending|);
      r := Ok(Batch(nextId, pending[..count]));
      pending := pending[count..];
      nextId := nextId + 1;
    }

    method RemoteReady(rank: int) returns (r: Result<Dispatch<T>, Error>)
      modifies this
      ensures (Value(), r) == OnRemoteReady(old(Value()), rank)
      ensures old(WellFormed(Value())) ==> WellFormed(Value())
    {
      ghost var was := Value();
      if WellFormed(was) { SchedulerProofs.ReadyKeeps(was, rank); }
      if rank !in remotes { return Err(UnknownRank); }
      var lane := remotes[rank];
      var ahead := lane.Running? && lane.prefetched.None? && !lane.stopping && prefetch;
      if !lane.Idle? && !ahead { return Err(WrongLaneState); }
      if failed || pending == [] {
        remotes := remotes[rank := if ahead then lane.(stopping := true) else Stopped];
        return Ok(Stop);
      }
      var made := TakeBatch();
      if made.Err? { return Err(made.error); }
      var meta := MetaOf(made.value);
      remotes := remotes[rank := if ahead then lane.(prefetched := Some(meta)) else Running(meta, None, false)];
      return Ok(Task(made.value));
    }

    method RootBatch() returns (r: Result<Option<Batch<T>>, Error>)
      modifies this
      ensures (Value(), r) == NextRootBatch(old(Value()))
      ensures old(WellFormed(Value())) ==> WellFormed(Value())
    {
      ghost var was := Value();
      if WellFormed(was) { SchedulerProofs.NextRootKeeps(was); }
      if root.Running? { return Err(WrongLaneState); }
      if root.Stopped? { return Ok(None); }
      if failed || pending == [] {
        root := Stopped;
        return Ok(None);
      }
      var made := TakeBatch();
      if made.Err? { return Err(made.error); }
      root := Running(MetaOf(made.value), None, false);
      return Ok(Some(made.value));
    }

    /** The validation loop: a set of seen indices instead of a search for an earlier one. */
    method Check(meta: Meta, id: nat, results: seq<ItemResult<U>>) returns (r: Option<Error>)
      ensures r == Validate(ordered, meta, id, results)
      ensures r.None? <==> meta.id == id && Accepted(ordered, meta.indices, results)
    {
      ValidateAccepts(ordered, meta, id, results);
      if meta.id != id { return Some(BatchMismatch); }
      if |meta.indices| != |results| { return Some(ResultCount); }
      var seen: set<nat> := {};
      for k := 0 to |results|
        invariant seen == set j | 0 <= j < k :: results[j].index
        invariant Scan(ordered, meta.indices, results, 0) == Scan(ordered, meta.indices, results, k)
      {
        var index := results[k].index;
        if index >= |ordered| { return Some(IndexOutOfBounds); }
        if index in seen { return Some(DuplicateResultIndex); }
        seen := seen + {index};
        if meta.indices[k] != index { return Some(IndexSequence); }
        if ordered[index].Some? { return Some(AlreadyFilled); }
      }
      return None;
    }

    method StoreResults(results: seq<ItemResult<U>>)
      requires InRange(ordered, results)
      modifies this`ordered
      ensures Value() == Store(old(Value()), results)
    {
      if !failed {
        ghost var was := ordered;
        for k := 0 to |results|
          invariant |ordered| == |was| && InRange(was, results[..k])
          invariant ordered == Fill(was, results[..k])
        {
          assert results[..k + 1][..k] == results[..k];
          ordered := ordered[results[k].index := Some(results[k].value)];
        }
        assert results[..|results|] == results;
      }
    }

    method RootSuccess(id: nat, results: seq<ItemResult<U>>) returns (r: Result<(), Error>)
      modifies this
      ensures (Value(), r) == OnRootSuccess(old(Value()), id, results)
      ensures old(WellFormed(Value())) ==> WellFormed(Value())
    {
      ghost var was := Value();
      if WellFormed(was) { SchedulerProofs.RootSuccessKeeps(was, id, results); }
      var current := RootCurrent(root);
      if current.None? { return Err(WrongLaneState); }
      var checked := Check(current.value, id, results);
      if checked.Some? { return Err(checked.value); }
      root := Idle;
      StoreResults(results);
      return Ok(());
    }

    method Advance(rank: int) returns (r: Result<(), Error>)
      modifies this`remotes
      ensures (Value(), r) == AdvanceRemote(old(Value()), rank)
    {
      if rank !in remotes { return Err(UnknownRank); }
      var lane := AdvanceLane(remotes[rank]);
      if lane.None? { return Err(WrongLaneState); }
      remotes := remotes[rank := lane.value];
      return Ok(());
    }

    method RemoteSuccess(rank: int, id: nat, results: seq<ItemResult<U>>) returns (r: Result<(), Error>)
      modifies this
      ensures (Value(), r) == OnRemoteSuccess(old(Value()), rank, id, results)
      ensures old(WellFormed(Value())) ==> WellFormed(Value())
    {
      ghost var was := Value();
      if WellFormed(was) { SchedulerProofs.RemoteSuccessKeeps(was, rank, id, results); }
      if rank !in remotes { return Err(UnknownRank); }
      if !remotes[rank].Running? { return Err(WrongLaneState); }
      var checked := Check(remotes[rank].current, id, results);
      if checked.Some? { return Err(checked.value); }
      r := Advance(rank);
      if r.Ok? { StoreResults(results); }
    }

    method RootError(id: nat) returns (r: Result<(), Error>)
      modifies this
      ensures (Value(), r) == OnRootError(old(Value()), id)
      ensures old(WellFormed(Value())) ==> WellFormed(Value())
    {
      ghost var was := Value();
      if WellFormed(was) { SchedulerProofs.RootErrorKeeps(was, id); }
      var current := RootCurrent(root);
      if current.None? { return Err(WrongLaneState); }
      if current.value.id != id { return Err(BatchMismatch); }
      root, failed, pending := Idle, true, [];
      return Ok(());
    }

    method RemoteError(rank: int, id: nat) returns (r: Result<(), Error>)
      modifies this
      ensures (Value(), r) == OnRemoteError(old(Value()), rank, id)
      ensures old(WellFormed(Value())) ==> WellFormed(Value())
    {
      ghost var was := Value();
      if WellFormed(was) { SchedulerProofs.RemoteErrorKeeps(was, rank, id); }
      if rank !in remotes { return Err(UnknownRank); }
      if !remotes[rank].Running? { return Err(WrongLaneState); }
      if remotes[rank].current.id != id { return Err(BatchMismatch); }
      r := Advance(rank);
      if r.Ok? { failed, pending := true, []; }
    }

    method RemoteProtocolError(rank: int) returns (r: Result<(), Error>)
      modifies this
      ensures (Value(), r) == OnRemoteProtocolError(old(Value()), rank)
      ensures old(WellFormed(Value())) ==> WellFormed(Value())
    {
      ghost var was := Value();
      if WellFormed(was) { SchedulerProofs.RemoteErrorKeeps(was, rank, 0); }
      if rank !in remotes { return Err(UnknownRank); }
      if !remotes[rank].Running? { return Err(WrongLaneState); }
      r := Advance(rank);
      if r.Ok? { failed, pending := true, []; }
    }

    method RemoteDrain(rank: int) returns (r: Result<(), Error>)
      modifies this`remotes
      ensures (Value(), r) == OnRemoteDrain(old(Value()), rank)
      ensures old(WellFormed(Value())) ==> WellFormed(Value())
    {
      ghost var was := Value();
      if WellFormed(was) { SchedulerProofs.DrainKeeps(was, rank); }
      if rank !in remotes { return Err(UnknownRank); }
      if !remotes[rank].Stopped? { return Err(WrongLaneState); }
      remotes := remotes[rank := Drained];
      return Ok(());
    }

    method TakeResults() returns (r: Result<seq<U>, Error>)
      ensures r == IntoResults(Value())
      ensures WellFormed(Value()) && Finished(Value()) ==> r != Err(MissingResult)
    {
      if WellFormed(Value()) && Finished(Value()) { SchedulerProofs.FinishedIsComplete(Value()); }
      if failed { return Err(Failed); }
      var running := root.Running? || exists r :: r in remotes && remotes[r].Running?;
      if !(root.Stopped? && (forall r :: r in remotes ==> remotes[r].Drained?) && !running) {
        return Err(NotFinished);
      }
      var out: seq<U> := [];
      for k := |ordered| downto 0
        invariant Collect(ordered[k..]) == Ok(out)
      {
        assert ordered[k..][1..] == ordered[k + 1..];
        if ordered[k].None? {
          MissingFails(ordered, k);
          return Err(MissingResult);
        }
        out := [ordered[k].value] + out;
      }
      assert ordered[0..] == ordered;
      return Ok(out);
    }
  }

  lemma MissingFails<U>(ordered: seq<Option<U>>, k: nat)
    requires k < |ordered| && ordered[k].None?
    ensures Collect(ordered) == Err(MissingResult)
  {
    CollectIsComplete(ordered);
  }
}
