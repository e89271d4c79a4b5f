/** What every run of collective `pmap` guarantees.

  All statements are over every run of the step system: any number of ranks, any interleaving, any
  payload that fails to decode, both worker loops, every batch size and local mode.
 */
module PmapTheorems {
  import opened Wrappers
  import opened Scheduler
  import SP = SchedulerProofs
  import opened SerialMap
  import opened Pmap
  import opened PmapInvariant
  import opened PmapSafety
  import opened PmapRootSteps
  import opened PmapProgress
  import opened PmapErrors
  import opened PmapMessages
  import opened PmapFirstError
  import opened RootLoop
  import EK = ErrorKeys

  // ----- at every moment

  /** No coordinator call the root makes ever fails. */
  lemma CoordinatorNeverFails<T, U, E>(c: Config<T, U, E>, actions: seq<Action>, states: seq<Sys<T, U>>, k: nat)
    requires Run(c, actions, states) && k < |states|
    ensures states[k].fault.None?
  {
    RunInv(c, actions, states, k);
  }

  /** A channel to a worker holds at most one message, only while that worker is at its receive and
      owes the root nothing. */
  lemma AnswersAreAwaited<T, U, E>(c: Config<T, U, E>, actions: seq<Action>, states: seq<Sys<T, U>>, k: nat, w: nat)
    requires Run(c, actions, states) && k < |states| && c.Worker(w)
    ensures var me := states[k].workers[w];
            |me.down| <= 1 && (me.down != [] ==> me.pc.Wait? && me.up == [])
  {
    RunInv(c, actions, states, k);
    assert WorkerOk(c, states[k], w);
    assert Channels(ViewOf(states[k], w));
  }

  /** No callback runs twice, on any rank. */
  lemma CalledAtMostOnce<T, U, E>(c: Config<T, U, E>, actions: seq<Action>, states: seq<Sys<T, U>>, k: nat)
    requires Run(c, actions, states) && k < |states|
    ensures forall i, j :: 0 <= i < j < |states[k].calls| ==> states[k].calls[i] != states[k].calls[j]
    ensures forall i :: 0 <= i < |states[k].calls| ==> states[k].calls[i] < |c.items|
  {
    RunInv(c, actions, states, k);
    var calls := states[k].calls;
    forall i | 0 <= i < |calls| ensures calls[i] < |c.items| { assert calls[i] in calls; }
  }

  /** Until every rank is done, some action can complete without buffering. */
  lemma NeverDeadlocks<T, U, E>(c: Config<T, U, E>, actions: seq<Action>, states: seq<Sys<T, U>>, k: nat)
    requires Run(c, actions, states) && k < |states|
    ensures Over(c, states[k]) || exists a :: Matched(c, states[k], a)
  {
    RunInv(c, actions, states, k);
    NoDeadlock(c, states[k]);
  }

  /** No run is longer than this. */
  lemma RunsAreBounded<T, U, E>(c: Config<T, U, E>, actions: seq<Action>, states: seq<Sys<T, U>>)
    requires Run(c, actions, states)
    ensures |actions| <= 7 * |c.items| + 6 * c.size + 1
  {
    RunsEnd(c, actions, states, |actions|);
  }

  // ----- the end of a run

  /** A run is over with an error recorded on some rank, or its results are those of `map` and every
      callback ran. */
  lemma OverIsMap<T, U, E>(c: Config<T, U, E>, s: Sys<T, U>)
    requires Inv(c, s) && Over(c, s)
    ensures s.sched.failed <==> SomeKey(c, s)
    ensures !s.sched.failed ==>
              && Map(c.items, c.f).Ok? && IntoResults(s.sched) == Ok(Map(c.items, c.f).value)
              && forall i: nat :: i < |c.items| ==> i in s.calls
  {
    if !s.sched.failed {
      SP.FinishedIsComplete(s.sched);
      var values := IntoResults(s.sched).value;
      assert forall i :: 0 <= i < |c.items| ==> c.f(c.items[i]) == Ok(values[i]);
      MapExact(c.items, c.f);
      assert values == Map(c.items, c.f).value;
      forall w: nat | c.Worker(w) ensures s.workers[w].key.None? {
        assert WorkerOk(c, s, w);
        assert ViewOf(s, w).up == [];
      }
    }
  }

  // ----- what each rank returns

  datatype Outcome_<U> = Failure(key: int, error: Option<LocalError>) | Success(values: seq<U>) | Nothing | Abort

  function KeyOr(key: Option<int>): int {
    if key.Some? then key.value else EK.NO_ERROR_KEY
  }

  function RankKey<T, U, E>(c: Config<T, U, E>, s: Sys<T, U>, rank: nat): Option<int>
    requires rank < |s.workers|
  {
    if rank == c.root then s.rootKey else s.workers[rank].key
  }

  function RankError<T, U, E>(c: Config<T, U, E>, s: Sys<T, U>, rank: nat): Option<LocalError>
    requires rank < |s.workers|
  {
    if rank == c.root then s.rootError else s.workers[rank].error
  }

  function Locals<T, U, E>(c: Config<T, U, E>, s: Sys<T, U>): (r: seq<EK.Local<LocalError>>)
    requires |s.workers| == c.size
    ensures |r| == c.size
  {
    seq(c.size, rank requires 0 <= rank < c.size => EK.Local(KeyOr(RankKey(c, s, rank)), RankError(c, s, rank)))
  }

  /** The return value of `pmap` on one rank. */
  function ResultAt<T, U, E>(c: Config<T, U, E>, s: Sys<T, U>, rank: nat): Outcome_<U>
    requires |s.workers| == c.size && rank < c.size
  {
    match EK.BroadcastError(Locals(c, s), rank)
    case Aborted => Abort
    case Agreed(key, error) => Failure(key, error)
    case NoError =>
      if rank != c.root then Nothing
      else if s.sched.failed then Success([])
      else match IntoResults(s.sched)
        case Ok(values) => Success(values)
        case Err(_) => Abort
  }

  lemma MadeFits<T, U, E>(c: Config<T, U, E>, rank: nat, key: Option<int>)
    requires c.Valid() && rank < c.size && KeyFits(c, rank, key)
    ensures key.Some? ==> 0 <= key.value < EK.NO_ERROR_KEY && key.value % c.size == rank
  {
    if key.Some? {
      var task, class_ :| Made(c, rank, key.value, task, class_);
      KeyFitsRank(c, task, class_, rank);
    }
  }

  lemma LocalsOwn<T, U, E>(c: Config<T, U, E>, s: Sys<T, U>)
    requires Inv(c, s)
    ensures EK.OwnKeys(Locals(c, s))
    ensures forall r: nat :: r < c.size ==> KeyFits(c, r, RankKey(c, s, r)) && KeyOr(RankKey(c, s, r)) == Locals(c, s)[r].key
    ensures (forall r :: 0 <= r < c.size ==> Locals(c, s)[r].key == EK.NO_ERROR_KEY) <==> !SomeKey(c, s)
  {
    forall r: nat | r < c.size
      ensures KeyFits(c, r, RankKey(c, s, r))
      ensures Locals(c, s)[r].key == EK.NO_ERROR_KEY <==> RankKey(c, s, r).None?
      ensures RankKey(c, s, r).Some? ==> 0 <= Locals(c, s)[r].key < EK.NO_ERROR_KEY && Locals(c, s)[r].key % c.size == r
    {
      if r != c.root { assert WorkerOk(c, s, r); }
      MadeFits(c, r, RankKey(c, s, r));
    }
    if s.rootKey.Some? {
      assert Locals(c, s)[c.root].key != EK.NO_ERROR_KEY;
    } else if SomeKey(c, s) {
      var w: nat :| c.Worker(w) && s.workers[w].key.Some?;
      assert Locals(c, s)[w].key != EK.NO_ERROR_KEY;
    }
  }

  /** Every rank returns the lowest key of all ranks, with the error held by the rank that made it. */
  ghost predicate Fails<T, U, E>(c: Config<T, U, E>, s: Sys<T, U>, rank: nat, key: int)
    requires |s.workers| == c.size
  {
    && rank < c.size && RankKey(c, s, rank) == Some(key)
    && (exists task, class_ :: Made(c, rank, key, task, class_))
    && (forall r: nat :: r < c.size ==> ResultAt(c, s, r) == Failure(key, RankError(c, s, rank)))
    && (forall r: nat :: r < c.size && RankKey(c, s, r).Some? ==> key <= RankKey(c, s, r).value)
  }

  ghost predicate Succeeds<T, U, E>(c: Config<T, U, E>, s: Sys<T, U>)
    requires c.root < |s.workers| == c.size
  {
    && Map(c.items, c.f).Ok?
    && ResultAt(c, s, c.root) == Success(Map(c.items, c.f).value)
    && (forall r: nat :: r < c.size && r != c.root ==> ResultAt(c, s, r) == Nothing)
    && (forall i: nat :: i < |c.items| ==> i in s.calls)
  }

  lemma OverAgrees<T, U, E>(c: Config<T, U, E>, s: Sys<T, U>) returns (rank: nat, key: int)
    requires Inv(c, s) && Over(c, s)
    ensures !s.sched.failed ==> Succeeds(c, s)
    ensures s.sched.failed ==> Fails(c, s, rank, key)
  {
    OverIsMap(c, s);
    LocalsOwn(c, s);
    var locals := Locals(c, s);
    forall r: nat | r < c.size ensures EK.BroadcastError(locals, r) == EK.BroadcastError(locals, 0) {
      EK.RanksAgree(locals, r);
    }
    EK.RanksAgree(locals, 0);
    rank, key := 0, 0;
    if s.sched.failed {
      key := EK.BroadcastError(locals, 0).key;
      rank := key % c.size;
      assert locals[rank] == EK.Local(key, EK.BroadcastError(locals, 0).error);
      assert RankKey(c, s, rank) == Some(key);
      forall r: nat | r < c.size && RankKey(c, s, r).Some? ensures key <= RankKey(c, s, r).value {
        assert key <= locals[r].key;
      }
    }
  }

  /** All ranks return together: every rank the same error, which some rank recorded, or the root the
      results of `map` and every other rank nothing. No rank aborts. */
  lemma PmapRefinesMap<T, U, E>(c: Config<T, U, E>, actions: seq<Action>, states: seq<Sys<T, U>>)
    requires Run(c, actions, states) && Over(c, states[|actions|])
    ensures Succeeds(c, states[|actions|]) || exists rank: nat, key :: Fails(c, states[|actions|], rank, key)
  {
    RunInv(c, actions, states, |actions|);
    var rank, key := OverAgrees(c, states[|actions|]);
  }

  /** Every rank that returns an error returns one, and key and message are those of one error exactly unless
      the root won and handled an undecodable reply after a callback error of its own. */
  lemma ReportsOneError<T, U, E>(c: Config<T, U, E>, actions: seq<Action>, states: seq<Sys<T, U>>, rank: nat, key: int)
    requires Run(c, actions, states) && Fails(c, states[|actions|], rank, key)
    ensures RankError(c, states[|actions|], rank).Some?
    ensures Whole(c, rank, Some(key), RankError(c, states[|actions|], rank)) <==>
            !(rank == c.root && Overwritten(c, actions, states, |actions|))
  {
    var n := |actions|;
    RunHolds(c, actions, states, n);
    MessagesFollowKeys(c, actions, states, n, rank);
  }

  // ----- runs in which every payload decodes

  lemma {:induction false} RunReported<T, U, E>(c: Config<T, U, E>, actions: seq<Action>, states: seq<Sys<T, U>>, k: nat)
    requires Run(c, actions, states) && k < |states|
    ensures Reported(c, states[k])
  {
    if k > 0 {
      RunReported(c, actions, states, k - 1);
      RunInv(c, actions, states, k - 1);
      StepReported(c, states[k - 1], actions[k - 1]);
    }
  }

  lemma {:induction false} RunClean<T, U, E>(c: Config<T, U, E>, actions: seq<Action>, states: seq<Sys<T, U>>, k: nat)
    requires Run(c, actions, states) && k < |states|
    requires forall i :: 0 <= i < |actions| ==> Decodes(actions[i])
    ensures Clean(c, states[k])
  {
    if k > 0 {
      RunClean(c, actions, states, k - 1);
      RunInv(c, actions, states, k - 1);
      StepClean(c, states[k - 1], actions[k - 1]);
    } else {
      StartClean(c, states[0]);
    }
  }

  lemma StartClean<T, U, E>(c: Config<T, U, E>, s: Sys<T, U>)
    requires c.Valid() && s == Start(c)
    ensures Clean(c, s)
  {
  }

  /** If every payload decodes, `pmap` does what `map` does: it succeeds with the same results, or every rank
      returns the error of the index that `map` stops at, key and message. */
  lemma CleanRunsAgreeWithMap<T, U, E>(c: Config<T, U, E>, actions: seq<Action>, states: seq<Sys<T, U>>)
    requires Run(c, actions, states) && Over(c, states[|actions|])
    requires forall i :: 0 <= i < |actions| ==> Decodes(actions[i])
    ensures match Map(c.items, c.f)
            case Ok(_) => Succeeds(c, states[|actions|])
            case Err(e) =>
              exists rank: nat :: rank < c.size
                && Fails(c, states[|actions|], rank, EK.Raw(e.index, EK.Callback, rank, c.size))
                && RankError(c, states[|actions|], rank) == Some(UserError(e.index))
                && TextOf(c, UserError(e.index)) == Some(e.error)
  {
    var n := |actions|;
    var s := states[n];
    forall k | 0 <= k < |states| ensures Clean(c, states[k]) { RunClean(c, actions, states, k); }
    RunInv(c, actions, states, n);
    RunReported(c, actions, states, n);
    MapExact(c.items, c.f);
    var rank, key := OverAgrees(c, s);
    if s.sched.failed {
      var i := CallbackTask(c, s, rank, key);
      var m := Map(c.items, c.f).error.index;
      RunReaches(c, actions, states, n, m);
      OverReached(c, s, m);
      NoneBelow(c, s, rank, key, i, m);
      assert i == m;
      NeverOverwritten(c, actions, states, n);
      ReportsOneError(c, actions, states, rank, key);
      SameTask(c, rank, RankError(c, s, rank).value, i);
    }
  }

  lemma CallbackTask<T, U, E>(c: Config<T, U, E>, s: Sys<T, U>, rank: nat, key: int) returns (i: nat)
    requires Inv(c, s) && Clean(c, s) && Fails(c, s, rank, key)
    ensures i < |c.items| && c.f(c.items[i]).Err? && key == EK.Raw(i, EK.Callback, rank, c.size)
  {
    assert CallbackKey(c, rank, RankKey(c, s, rank)) by {
      if rank != c.root { assert NoWire(s.workers[rank]); }
    }
    i :| Made(c, rank, key, i, EK.Callback);
  }

  /** No callback that ran and failed has an index below the one reported. */
  lemma NoneBelow<T, U, E>(c: Config<T, U, E>, s: Sys<T, U>, rank: nat, key: int, i: nat, j: nat)
    requires Inv(c, s) && Over(c, s) && Reported(c, s) && Fails(c, s, rank, key)
    requires key == EK.Raw(i, EK.Callback, rank, c.size)
    requires j in s.calls && j < |c.items| && c.f(c.items[j]).Err?
    ensures i <= j
  {
    assert Known(c, s, j);
    NoSmallerKey(c, s, key, j);
    if j < i { EK.BlockOrder(j * 3 + 1, c.size - 1, i * 3 + 1, rank, c.size); }
  }

  /** Without an undecodable reply nothing is overwritten. */
  lemma NeverOverwritten<T, U, E>(c: Config<T, U, E>, actions: seq<Action>, states: seq<Sys<T, U>>, k: nat)
    requires k <= |actions| < |states| && forall i :: 0 <= i < |actions| ==> Decodes(actions[i])
    ensures !Overwritten(c, actions, states, k)
  {
  }

  /** A callback key is whole only with the error of its own index. */
  lemma SameTask<T, U, E>(c: Config<T, U, E>, rank: nat, error: LocalError, i: nat)
    requires rank < c.size && i < |c.items| && c.f(c.items[i]).Err?
    requires Whole(c, rank, Some(EK.Raw(i, EK.Callback, rank, c.size)), Some(error))
    ensures error == UserError(i) && TextOf(c, error) == Some(c.f(c.items[i]).error)
  {
    var task := if error.UserError? then error.index else error.task;
    var class_ := if error.UserError? then EK.Callback else EK.WireProtocol;
    var a, b := i * 3 + 1, task * 3 + EK.Code(class_);
    if a < b { EK.BlockOrder(a, rank, b, rank, c.size); }
    if b < a { EK.BlockOrder(b, rank, a, rank, c.size); }
  }

  lemma NoSmallerKey<T, U, E>(c: Config<T, U, E>, s: Sys<T, U>, key: int, j: nat)
    requires c.Valid() && |s.workers| == c.size && Over(c, s) && Known(c, s, j)
    requires forall r: nat :: r < c.size && RankKey(c, s, r).Some? ==> key <= RankKey(c, s, r).value
    ensures key <= EK.Raw(j, EK.Callback, c.size - 1, c.size)
  {
    if Covers(c, s.rootKey, j) {
      assert RankKey(c, s, c.root) == s.rootKey;
    } else {
      var w: nat :| c.Worker(w) && (Covers(c, s.workers[w].key, j) || Pending(s.workers[w], j));
      assert RankKey(c, s, w) == s.workers[w].key;
    }
  }

  // ----- the blocking root

  function Acts(x: Control, m: Move, stopped: bool, size: nat, finished: bool): seq<Action> {
    match m
    case ByWorker(a) => [a]
    case Answer => [RootSend]
    case Turn => if size == 1 && !stopped then [RootStart] else []
    case Hit(w, ok) => [RootRecv(w, ok)]
    case Miss => if x.Probe? && !finished && !x.served && !stopped then [RootStart] else []
    case Complete => [RootFinish]
    case Wake(w, ok) => [RootRecv(w, ok)]
  }

  /** Each move of the loop is one action of the system or none. */
  lemma MoveIsAction<T, U, E>(c: Config<T, U, E>, x: Root<T, U>, m: Move)
    requires |x.sys.workers| == c.size && CanMove(c, x, m)
    ensures var acts := Acts(x.ctl, m, x.sys.sched.root.Stopped?, c.size, Finished(x.sys.sched));
            if acts == [] then MoveTo(c, x, m).sys == x.sys
            else |acts| == 1 && Enabled(c, x.sys, acts[0]) && MoveTo(c, x, m).sys == Step(c, x.sys, acts[0])
  {
  }

  lemma RunExtends<T, U, E>(c: Config<T, U, E>, actions: seq<Action>, states: seq<Sys<T, U>>, a: Action)
    requires Run(c, actions, states) && Enabled(c, states[|actions|], a)
    ensures Run(c, actions + [a], states + [Step(c, states[|actions|], a)])
  {
  }

  /** Every run of root_loop against the workers is a run of the system, so all of the above holds of it. */
  lemma {:induction false} LoopRunIsRun<T, U, E>(c: Config<T, U, E>, moves: seq<Move>, roots: seq<Root<T, U>>, k: nat)
    returns (actions: seq<Action>, states: seq<Sys<T, U>>)
    requires LoopRun(c, moves, roots) && k < |roots|
    ensures Run(c, actions, states) && states[|actions|] == roots[k].sys
  {
    if k == 0 {
      actions, states := [], [roots[0].sys];
    } else {
      actions, states := LoopRunIsRun(c, moves, roots, k - 1);
      var x := roots[k - 1];
      var acts := Acts(x.ctl, moves[k - 1], x.sys.sched.root.Stopped?, c.size, Finished(x.sys.sched));
      MoveIsAction(c, x, moves[k - 1]);
      if acts != [] {
        RunExtends(c, actions, states, acts[0]);
        actions, states := actions + acts, states + [Step(c, states[|actions|], acts[0])];
      }
    }
  }
}
