/** The `pmap` coordinator of src/scheduler.rs.

  `State` is the coordinator's value and the functions on it are its operations; the class
  `Coordinator` (file Coordinator.dfy) runs them in place. `WellFormed` is what every operation
  keeps: an index is pending, in one lane's current batch, in one lane's prefetched batch, or
  filled, and never in two of these places.
 */
module Scheduler {
  import opened Wrappers

  const U64_MAX: nat := 0xFFFF_FFFF_FFFF_FFFF

  datatype Item<T> = Item(index: nat, value: T)
  datatype Batch<T> = Batch(id: nat, items: seq<Item<T>>)
  datatype ItemResult<U> = ItemResult(index: nat, value: U)
  datatype Meta = Meta(id: nat, indices: seq<nat>)
  datatype Dispatch<T> = Task(batch: Batch<T>) | Stop

  datatype Lane =
    | Idle
    | Running(current: Meta, prefetched: Option<Meta>, stopping: bool)
    | Stopped
    | Drained

  datatype Error =
    | InvalidRoot
    | InvalidRemote
    | DuplicateRemote
    | RootInRemotes
    | UnknownRank
    | WrongLaneState
    | BatchIdOverflow
    | BatchMismatch
    | ResultCount
    | IndexSequence
    | IndexOutOfBounds
    | AlreadyFilled
    | DuplicateResultIndex
    | NotFinished
    | Failed
    | MissingResult

  datatype State<T, U> = State(
    pending: seq<Item<T>>,
    ordered: seq<Option<U>>,
    batchSize: nat,
    nextId: nat,
    root: Lane,
    remotes: map<int, Lane>,
    prefetch: bool,
    failed: bool)

  // ----- construction

  function Enumerate<T>(items: seq<T>): (r: seq<Item<T>>)
    ensures |r| == |items|
    ensures forall k :: 0 <= k < |r| ==> r[k] == Item(k, items[k])
  {
    seq(|items|, k requires 0 <= k < |items| => Item(k, items[k]))
  }

  function Initial<T, U>(ranks: set<int>, items: seq<T>, batchSize: nat, prefetch: bool): State<T, U> {
    State(Enumerate(items), seq(|items|, _ => None), batchSize, 0, Idle,
          map r | r in ranks :: Idle, prefetch, false)
  }

  // ----- batches

  function MetaOf<T>(batch: Batch<T>): (m: Meta)
    ensures m.id == batch.id && |m.indices| == |batch.items|
    ensures forall k :: 0 <= k < |batch.items| ==> m.indices[k] == batch.items[k].index
  {
    Meta(batch.id, seq(|batch.items|, k requires 0 <= k < |batch.items| => batch.items[k].index))
  }

  function Min(a: nat, b: nat): nat { if a <= b then a else b }

  /** Takes the next batch off the front of the queue; both callers first check that there is one. */
  function MakeBatch<T, U>(s: State<T, U>): Result<(State<T, U>, Batch<T>), Error>
    requires !s.failed && s.pending != []
  {
    if s.nextId >= U64_MAX then
      Err(BatchIdOverflow)
    else
      var count := Min(s.batchSize, |s.pending|);
      Ok((s.(pending := s.pending[count..], nextId := s.nextId + 1),
          Batch(s.nextId, s.pending[..count])))
  }

  // ----- requests

  function OnRemoteReady<T, U>(s: State<T, U>, rank: int): (State<T, U>, Result<Dispatch<T>, Error>) {
    if rank !in s.remotes then
      (s, Err(UnknownRank))
    else
      var lane := s.remotes[rank];
      var ahead := lane.Running? && lane.prefetched.None? && !lane.stopping && s.prefetch;
      if !lane.Idle? && !ahead then
        (s, Err(WrongLaneState))
      else if s.failed || s.pending == [] then
        var lane' := if ahead then lane.(stopping := true) else Stopped;
        (s.(remotes := s.remotes[rank := lane']), Ok(Stop))
      else
        match MakeBatch(s)
        case Err(error) => (s, Err(error))
        case Ok((s', batch)) =>
          var meta := MetaOf(batch);
          var lane' := if ahead then lane.(prefetched := Some(meta)) else Running(meta, None, false);
          (s'.(remotes := s'.remotes[rank := lane']), Ok(Task(batch)))
  }

  function NextRootBatch<T, U>(s: State<T, U>): (State<T, U>, Result<Option<Batch<T>>, Error>) {
    if s.root.Running? then
      (s, Err(WrongLaneState))
    else if s.root.Stopped? then
      (s, Ok(None))
    else if s.failed || s.pending == [] then
      (s.(root := Stopped), Ok(None))
    else
      match MakeBatch(s)
      case Err(error) => (s, Err(error))
      case Ok((s', batch)) =>
        (s'.(root := Running(MetaOf(batch), None, false)), Ok(Some(batch)))
  }

  // ----- completions

  /** The scan of validate_completion from position `k` on. */
  function Scan<U>(ordered: seq<Option<U>>, indices: seq<nat>, results: seq<ItemResult<U>>, k: nat): Option<Error>
    requires |indices| == |results| && k <= |results|
    decreases |results| - k
  {
    if k == |results| then
      None
    else
      var index := results[k].index;
      if index >= |ordered| then Some(IndexOutOfBounds)
      else if exists j :: 0 <= j < k && results[j].index == index then Some(DuplicateResultIndex)
      else if indices[k] != index then Some(IndexSequence)
      else if ordered[index].Some? then Some(AlreadyFilled)
      else Scan(ordered, indices, results, k + 1)
  }

  function Validate<U>(ordered: seq<Option<U>>, meta: Meta, id: nat, results: seq<ItemResult<U>>): Option<Error> {
    if meta.id != id then Some(BatchMismatch)
    else if |meta.indices| != |results| then Some(ResultCount)
    else Scan(ordered, meta.indices, results, 0)
  }

  predicate InRange<U>(ordered: seq<Option<U>>, results: seq<ItemResult<U>>) {
    forall k :: 0 <= k < |results| ==> results[k].index < |ordered|
  }

  /** Stores the results one after the other. */
  function Fill<U>(ordered: seq<Option<U>>, results: seq<ItemResult<U>>): (r: seq<Option<U>>)
    requires InRange(ordered, results)
    ensures |r| == |ordered|
  {
    if results == [] then ordered
    else
      var last := results[|results| - 1];
      Fill(ordered, results[..|results| - 1])[last.index := Some(last.value)]
  }

  function Store<T, U>(s: State<T, U>, results: seq<ItemResult<U>>): State<T, U>
    requires InRange(s.ordered, results)
  {
    if s.failed then s else s.(ordered := Fill(s.ordered, results))
  }

  function Fail<T, U>(s: State<T, U>): State<T, U> {
    s.(failed := true, pending := [])
  }

  function RemoteCurrent<T, U>(s: State<T, U>, rank: int): Result<Meta, Error> {
    if rank !in s.remotes then Err(UnknownRank)
    else if !s.remotes[rank].Running? then Err(WrongLaneState)
    else Ok(s.remotes[rank].current)
  }

  function AdvanceLane(lane: Lane): Option<Lane> {
    if !lane.Running? then None
    else if lane.prefetched.Some? then
      if lane.stopping then None else Some(Running(lane.prefetched.value, None, false))
    else if lane.stopping then Some(Stopped)
    else Some(Idle)
  }

  function AdvanceRemote<T, U>(s: State<T, U>, rank: int): (State<T, U>, Result<(), Error>) {
    if rank !in s.remotes then (s, Err(UnknownRank))
    else if AdvanceLane(s.remotes[rank]).None? then (s, Err(WrongLaneState))
    else (s.(remotes := s.remotes[rank := AdvanceLane(s.remotes[rank]).value]), Ok(()))
  }

  function RootCurrent(lane: Lane): Option<Meta> {
    if lane.Running? && lane.prefetched.None? && !lane.stopping then Some(lane.current) else None
  }

  function OnRootSuccess<T, U>(s: State<T, U>, id: nat, results: seq<ItemResult<U>>): (State<T, U>, Result<(), Error>) {
    match RootCurrent(s.root)
    case None => (s, Err(WrongLaneState))
    case Some(meta) =>
      match Validate(s.ordered, meta, id, results)
      case Some(error) => (s, Err(error))
      case None =>
        ValidateAccepts(s.ordered, meta, id, results);
        (Store(s.(root := Idle), results), Ok(()))
  }

  function OnRemoteSuccess<T, U>(s: State<T, U>, rank: int, id: nat, results: seq<ItemResult<U>>): (State<T, U>, Result<(), Error>) {
    match RemoteCurrent(s, rank)
    case Err(error) => (s, Err(error))
    case Ok(meta) =>
      match Validate(s.ordered, meta, id, results)
      case Some(error) => (s, Err(error))
      case None =>
        ValidateAccepts(s.ordered, meta, id, results);
        var (s', r) := AdvanceRemote(s, rank);
        if r.Err? then (s', r) else (Store(s', results), Ok(()))
  }

  function OnRootError<T, U>(s: State<T, U>, id: nat): (State<T, U>, Result<(), Error>) {
    match RootCurrent(s.root)
    case None => (s, Err(WrongLaneState))
    case Some(meta) =>
      if meta.id != id then (s, Err(BatchMismatch)) else (Fail(s.(root := Idle)), Ok(()))
  }

  function OnRemoteError<T, U>(s: State<T, U>, rank: int, id: nat): (State<T, U>, Result<(), Error>) {
    match RemoteCurrent(s, rank)
    case Err(error) => (s, Err(error))
    case Ok(meta) =>
      if meta.id != id then (s, Err(BatchMismatch)) else
      var (s', r) := AdvanceRemote(s, rank);
      if r.Err? then (s', r) else (Fail(s'), Ok(()))
  }

  function OnRemoteProtocolError<T, U>(s: State<T, U>, rank: int): (State<T, U>, Result<(), Error>) {
    match RemoteCurrent(s, rank)
    case Err(error) => (s, Err(error))
    case Ok(_) =>
      var (s', r) := AdvanceRemote(s, rank);
      if r.Err? then (s', r) else (Fail(s'), Ok(()))
  }

  function OnRemoteDrain<T, U>(s: State<T, U>, rank: int): (State<T, U>, Result<(), Error>) {
    if rank !in s.remotes then (s, Err(UnknownRank))
    else if !s.remotes[rank].Stopped? then (s, Err(WrongLaneState))
    else (s.(remotes := s.remotes[rank := Drained]), Ok(()))
  }

  // ----- the end of a run

  predicate AnyRunning<T, U>(s: State<T, U>) {
    s.root.Running? || exists r :: r in s.remotes && s.remotes[r].Running?
  }

  predicate Quiescent<T, U>(s: State<T, U>) {
    s.pending == [] && !AnyRunning(s)
  }

  predicate Finished<T, U>(s: State<T, U>) {
    s.root.Stopped? && (forall r :: r in s.remotes ==> s.remotes[r].Drained?) && !AnyRunning(s)
  }

  function Collect<U>(ordered: seq<Option<U>>): Result<seq<U>, Error> {
    if ordered == [] then Ok([])
    else if ordered[0].None? then Err(MissingResult)
    else
      var rest := Collect(ordered[1..]);
      if rest.Err? then rest else Ok([ordered[0].value] + rest.value)
  }

  function IntoResults<T, U>(s: State<T, U>): Result<seq<U>, Error> {
    if s.failed then Err(Failed)
    else if !Finished(s) then Err(NotFinished)
    else Collect(s.ordered)
  }

  // ----- what the scan accepts

  predicate Accepted<U>(ordered: seq<Option<U>>, indices: seq<nat>, results: seq<ItemResult<U>>) {
    && |indices| == |results|
    && (forall k :: 0 <= k < |results| ==>
          results[k].index == indices[k] && indices[k] < |ordered| && ordered[indices[k]].None?)
    && (forall j, k :: 0 <= j < k < |results| ==> results[j].index != results[k].index)
  }

  lemma {:induction false} ScanAccepts<U>(ordered: seq<Option<U>>, indices: seq<nat>, results: seq<ItemResult<U>>, k: nat)
    requires |indices| == |results| && k <= |results|
    ensures Scan(ordered, indices, results, k).None? <==>
            && (forall i :: k <= i < |results| ==>
                  results[i].index == indices[i] && indices[i] < |ordered| && ordered[indices[i]].None?)
            && (forall j, i :: 0 <= j < i < |results| && k <= i ==> results[j].index != results[i].index)
    decreases |results| - k
  {
    if k < |results| {
      ScanAccepts(ordered, indices, results, k + 1);
    }
  }

  /** Validation accepts exactly the results of the lane's current batch, in order, into empty slots. */
  lemma ValidateAccepts<U>(ordered: seq<Option<U>>, meta: Meta, id: nat, results: seq<ItemResult<U>>)
    ensures Validate(ordered, meta, id, results).None? <==>
            meta.id == id && Accepted(ordered, meta.indices, results)
    ensures Validate(ordered, meta, id, results).None? ==> InRange(ordered, results)
  {
    if meta.id == id && |meta.indices| == |results| {
      ScanAccepts(ordered, meta.indices, results, 0);
    }
  }

  /** After storing, each named slot holds its value and every other slot is as before. */
  lemma {:induction false} FillStores<U>(ordered: seq<Option<U>>, results: seq<ItemResult<U>>)
    requires InRange(ordered, results)
    requires forall j, k :: 0 <= j < k < |results| ==> results[j].index != results[k].index
    ensures forall k :: 0 <= k < |results| ==> Fill(ordered, results)[results[k].index] == Some(results[k].value)
    ensures forall i :: 0 <= i < |ordered| && (forall k :: 0 <= k < |results| ==> results[k].index != i) ==>
              Fill(ordered, results)[i] == ordered[i]
  {
    if results != [] {
      FillStores(ordered, results[..|results| - 1]);
    }
  }

  lemma {:induction false} CollectIsComplete<U>(ordered: seq<Option<U>>)
    ensures Collect(ordered).Ok? <==> forall i :: 0 <= i < |ordered| ==> ordered[i].Some?
    ensures Collect(ordered).Ok? ==>
              |Collect(ordered).value| == |ordered| &&
              forall i :: 0 <= i < |ordered| ==> ordered[i] == Some(Collect(ordered).value[i])
    ensures Collect(ordered).Err? ==> Collect(ordered).error == MissingResult
  {
    if ordered != [] {
      CollectIsComplete(ordered[1..]);
      assert forall i :: 1 <= i < |ordered| ==> ordered[i] == ordered[1..][i - 1];
    }
  }

  // ----- the invariant

  datatype Place = InPending | AtRoot | Current(rank: int) | Prefetched(rank: int) | Filled

  /** Index `i` is at place `p`. */
  predicate At<T, U>(s: State<T, U>, i: nat, p: Place) {
    match p
    case InPending => exists k :: 0 <= k < |s.pending| && s.pending[k].index == i
    case AtRoot => s.root.Running? && i in s.root.current.indices
    case Current(r) => r in s.remotes && s.remotes[r].Running? && i in s.remotes[r].current.indices
    case Prefetched(r) =>
      && r in s.remotes && s.remotes[r].Running? && s.remotes[r].prefetched.Some?
      && i in s.remotes[r].prefetched.value.indices
    case Filled => i < |s.ordered| && s.ordered[i].Some?
  }

  /** Nonempty, consecutive and within the input. */
  predicate GoodMeta(n: nat, m: Meta) {
    && m.indices != []
    && m.indices[0] + |m.indices| <= n
    && forall k :: 0 <= k < |m.indices| ==> m.indices[k] == m.indices[0] + k
  }

  predicate GoodLane(n: nat, lane: Lane) {
    lane.Running? ==>
      && GoodMeta(n, lane.current)
      && (lane.prefetched.Some? ==> GoodMeta(n, lane.prefetched.value) && !lane.stopping)
  }

  /** A lane that will take no more work. */
  predicate Ending(lane: Lane) {
    lane.Stopped? || lane.Drained? || (lane.Running? && lane.stopping)
  }

  /** No index is at two places. */
  ghost predicate AtMostOnePlace<T, U>(s: State<T, U>) {
    forall i: nat, p, q :: At(s, i, p) && At(s, i, q) ==> p == q
  }

  ghost predicate Placed<T, U>(s: State<T, U>, i: nat) {
    exists p :: At(s, i, p)
  }

  /** Every index is somewhere. */
  ghost predicate Covered<T, U>(s: State<T, U>) {
    forall i: nat :: i < |s.ordered| ==> Placed(s, i)
  }

  predicate PendingIsSuffix<T, U>(s: State<T, U>) {
    && |s.pending| <= |s.ordered|
    && forall k :: 0 <= k < |s.pending| ==> s.pending[k].index == |s.ordered| - |s.pending| + k
  }

  predicate LanesGood<T, U>(s: State<T, U>) {
    && GoodLane(|s.ordered|, s.root)
    && !s.root.Drained?
    && (s.root.Running? ==> s.root.prefetched.None? && !s.root.stopping)
    && (forall r :: r in s.remotes ==> GoodLane(|s.ordered|, s.remotes[r]))
    && (s.root.Stopped? ==> s.pending == [])
    && (forall r :: r in s.remotes && Ending(s.remotes[r]) ==> s.pending == [])
  }

  ghost predicate WellFormed<T, U>(s: State<T, U>) {
    && s.batchSize > 0
    && |s.ordered| <= U64_MAX
    && s.nextId <= |s.ordered| - |s.pending|
    && (s.failed ==> s.pending == [])
    && PendingIsSuffix(s)
    && LanesGood(s)
    && AtMostOnePlace(s)
    && (!s.failed ==> Covered(s))
  }
}
