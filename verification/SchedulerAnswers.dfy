/** Which calls the coordinator accepts, and which error each of the others gets. */
module SchedulerAnswers {
  import opened Wrappers
  import opened Scheduler
  import SP = SchedulerProofs

  /** A lane that may be given work: it is idle, or it runs one batch and the coordinator prefetches. */
  predicate TakesWork(lane: Lane, prefetch: bool) {
    lane.Idle? || (prefetch && lane.Running? && lane.prefetched.None? && !lane.stopping)
  }

  /** A ready worker is told to stop exactly when nothing is left to hand out, and otherwise gets work; only an unknown
      rank, or one whose lane takes no work, is refused. */
  lemma ReadyIsAnswered<T, U>(s: State<T, U>, rank: int)
    requires WellFormed(s)
    ensures match OnRemoteReady(s, rank).1
            case Ok(dispatch) => rank in s.remotes && TakesWork(s.remotes[rank], s.prefetch) && (dispatch.Stop? <==> s.pending == [])
            case Err(error) =>
              if rank in s.remotes then error == WrongLaneState && !TakesWork(s.remotes[rank], s.prefetch) else error == UnknownRank
  {
  }

  /** The root gets work exactly while something is left to hand out, and is refused exactly while it runs a batch. */
  lemma RootIsAnswered<T, U>(s: State<T, U>)
    requires WellFormed(s)
    ensures match NextRootBatch(s).1
            case Ok(batch) => !s.root.Running? && (batch.None? <==> s.pending == [])
            case Err(error) => error == WrongLaneState && s.root.Running?
  {
  }

  /** What is wrong with result `k`: its index is outside the input, was named before, is not the one expected there, or has
      its value already. */
  ghost predicate Offends<U>(ordered: seq<Option<U>>, indices: seq<nat>, results: seq<ItemResult<U>>, k: nat, error: Error)
    requires |indices| == |results| && k < |results|
  {
    var index := results[k].index;
    var repeated := exists j :: 0 <= j < k && results[j].index == index;
    match error
    case IndexOutOfBounds => index >= |ordered|
    case DuplicateResultIndex => index < |ordered| && repeated
    case IndexSequence => index < |ordered| && !repeated && indices[k] != index
    case AlreadyFilled => index < |ordered| && !repeated && indices[k] == index && ordered[index].Some?
    case _ => false
  }

  /** From position `k` on, result `i` is the first that offends, and this is how. */
  ghost predicate FirstOffence<U>(ordered: seq<Option<U>>, indices: seq<nat>, results: seq<ItemResult<U>>, k: nat, i: nat, error: Error)
    requires |indices| == |results|
  {
    && k <= i < |results| && Offends(ordered, indices, results, i, error)
    && forall j: nat, other :: k <= j < i ==> !Offends(ordered, indices, results, j, other)
  }

  /** The scan reports the first result that offends, from position `k` on. */
  lemma {:induction false} ScanNamesTheFirst<U>(ordered: seq<Option<U>>, indices: seq<nat>, results: seq<ItemResult<U>>, k: nat) returns (i: nat)
    requires |indices| == |results| && k <= |results|
    ensures var r := Scan(ordered, indices, results, k);
            if r.Some? then FirstOffence(ordered, indices, results, k, i, r.value)
            else forall j: nat, error :: k <= j < |results| ==> !Offends(ordered, indices, results, j, error)
    decreases |results| - k
  {
    i := k;
    if k < |results| {
      var rest := ScanNamesTheFirst(ordered, indices, results, k + 1);
      var r := Scan(ordered, indices, results, k);
      if r.Some? && !Offends(ordered, indices, results, k, r.value) { i := rest; }
    }
  }

  /** A completion of a batch by its lane. */
  ghost predicate Completes<U>(ordered: seq<Option<U>>, lane: Lane, id: nat, results: seq<ItemResult<U>>, answer: Result<(), Error>) {
    if !lane.Running? then answer == Err(WrongLaneState)
    else if lane.current.id != id then answer == Err(BatchMismatch)
    else if |results| != |lane.current.indices| then answer == Err(ResultCount)
    else if forall k: nat, error :: k < |results| ==> !Offends(ordered, lane.current.indices, results, k, error) then answer == Ok(())
    else answer.Err? && exists k: nat :: FirstOffence(ordered, lane.current.indices, results, 0, k, answer.error)
  }

  /** Results are accepted exactly when they are those of the lane's current batch, in order, none stored before; otherwise
      the answer names the first thing that is wrong. */
  lemma SuccessIsAnswered<T, U>(s: State<T, U>, rank: int, id: nat, results: seq<ItemResult<U>>)
    requires WellFormed(s)
    ensures Completes(s.ordered, s.root, id, results, OnRootSuccess(s, id, results).1)
    ensures if rank in s.remotes then Completes(s.ordered, s.remotes[rank], id, results, OnRemoteSuccess(s, rank, id, results).1)
            else OnRemoteSuccess(s, rank, id, results).1 == Err(UnknownRank)
  {
    if s.root.Running? && |s.root.current.indices| == |results| {
      var _ := ScanNamesTheFirst(s.ordered, s.root.current.indices, results, 0);
    }
    if rank in s.remotes && s.remotes[rank].Running? && |s.remotes[rank].current.indices| == |results| {
      var _ := ScanNamesTheFirst(s.ordered, s.remotes[rank].current.indices, results, 0);
    }
  }

  /** A callback error is accepted exactly for the lane's current batch, a reply that does not decode whatever batch the
      lane runs, and a drain exactly from a stopped lane. */
  lemma ErrorsAndDrainsAreAnswered<T, U>(s: State<T, U>, rank: int, id: nat)
    requires WellFormed(s)
    ensures OnRootError(s, id).1 == if !s.root.Running? then Err(WrongLaneState)
                                    else if s.root.current.id != id then Err(BatchMismatch) else Ok(())
    ensures rank !in s.remotes ==> OnRemoteError(s, rank, id).1 == Err(UnknownRank)
    ensures rank !in s.remotes ==> OnRemoteProtocolError(s, rank).1 == Err(UnknownRank) && OnRemoteDrain(s, rank).1 == Err(UnknownRank)
    ensures rank in s.remotes ==>
              OnRemoteError(s, rank, id).1 == if !s.remotes[rank].Running? then Err(WrongLaneState)
                                              else if s.remotes[rank].current.id != id then Err(BatchMismatch) else Ok(())
    ensures rank in s.remotes ==>
              && OnRemoteProtocolError(s, rank).1 == (if s.remotes[rank].Running? then Ok(()) else Err(WrongLaneState))
              && OnRemoteDrain(s, rank).1 == (if s.remotes[rank].Stopped? then Ok(()) else Err(WrongLaneState))
  {
  }

  /** The results are handed out exactly when the run has not failed and every lane has left its work; what they are then is
      every slot's value. */
  lemma ResultsAreAnswered<T, U>(s: State<T, U>)
    requires WellFormed(s)
    ensures match IntoResults(s)
            case Ok(values) => !s.failed && Finished(s) && |values| == |s.ordered|
                               && forall i :: 0 <= i < |values| ==> s.ordered[i] == Some(values[i])
            case Err(error) => if s.failed then error == Failed else !Finished(s) && error == NotFinished
  {
    CollectIsComplete(s.ordered);
    if !s.failed && Finished(s) { SP.FinishedIsComplete(s); }
  }
}
