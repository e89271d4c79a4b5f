/** A run of two ranks in which the error that every rank returns has the key of one error and the message of
  another: the root's own callback fails, and then the worker's reply does not decode. */
module PmapMixedRun {
  import opened Wrappers
  import opened Scheduler
  import opened SerialMap
  import opened Pmap
  import opened PmapInvariant
  import opened PmapRootSteps
  import opened PmapMessages
  import opened PmapTheorems
  import EK = ErrorKeys

  /** Two items, one per batch; the callback fails on the second. The root is rank 0. */
  function Setup(): Config<int, int, string> {
    Config([0, 1], (x: int) => if x == 1 then Err("callback") else Ok(x), 2, 0, 1, false, Sequential)
  }

  const First: Batch<int> := Batch(0, [Item(0, 0)])
  const Second: Batch<int> := Batch(1, [Item(1, 1)])
  const Answer: Outcome<int> := Values([ItemResult(0, 0)])

  /** The state of the coordinator, with what is pending, the two lanes, and whether the run has failed. */
  function Sched(pending: seq<Item<int>>, nextId: nat, root: Lane, lane: Lane, failed: bool): State<int, int> {
    State(pending, [None, None], 1, nextId, root, map[1 := lane], false, failed)
  }

  function World(sched: State<int, int>, pc: Pc<int, int>, up: seq<Up<int, int>>, down: seq<Dispatch<int>>): Sys<int, int> {
    Sys(sched, [Worker(Done, [], [], None, None), Worker(pc, up, down, None, None)], None, None, None, None, [], None)
  }

  const Busy: Lane := Running(Meta(0, [0]), None, false)

  function StateAt(k: nat): Sys<int, int> {
    var root := Running(Meta(1, [1]), None, false);
    var wait: Pc<int, int> := Wait(None);
    if k == 0 then World(Sched([Item(0, 0), Item(1, 1)], 0, Idle, Idle, false), SendReady(None), [], [])
    else if k == 1 then World(Sched([Item(0, 0), Item(1, 1)], 0, Idle, Idle, false), wait, [Ready], [])
    else if k == 2 then World(Sched([Item(1, 1)], 1, Idle, Busy, false), wait, [], []).(outbox := Some((1, Task(First))))
    else if k == 3 then World(Sched([Item(1, 1)], 1, Idle, Busy, false), wait, [], [Task(First)])
    else if k == 4 then World(Sched([], 2, root, Busy, false), wait, [], [Task(First)]).(job := Some(Second))
    else if k == 5 then Failed(Busy, wait, [], [Task(First)], [1], UserError(1))
    else if k == 6 then Failed(Busy, Held(First, Loop), [], [], [1], UserError(1))
    else if k == 7 then Failed(Busy, SendOutcome(First, Answer, Loop), [], [], [1, 0], UserError(1))
    else if k == 8 then Failed(Busy, SendReady(None), [Reply(First, Answer)], [], [1, 0], UserError(1))
    else if k == 9 then Failed(Idle, SendReady(None), [], [], [1, 0], WireFailure(2))
    else if k == 10 then Failed(Idle, wait, [Ready], [], [1, 0], WireFailure(2))
    else if k == 11 then Failed(Stopped, wait, [], [], [1, 0], WireFailure(2)).(outbox := Some((1, Stop)))
    else if k == 12 then Failed(Stopped, wait, [], [Stop], [1, 0], WireFailure(2))
    else if k == 13 then Halted(Stopped, wait, [], [Stop])
    else if k == 14 then Halted(Stopped, SendDrain, [], [])
    else if k == 15 then Halted(Stopped, Done, [Drain], [])
    else Halted(Drained, Done, [], [])
  }

  /** After the root's callback error, which made key 8. */
  function Failed(lane: Lane, pc: Pc<int, int>, up: seq<Up<int, int>>, down: seq<Dispatch<int>>, calls: seq<nat>, error: LocalError): Sys<int, int> {
    World(Sched([], 2, Idle, lane, true), pc, up, down).(rootKey := Some(8), rootError := Some(error), calls := calls)
  }

  function Halted(lane: Lane, pc: Pc<int, int>, up: seq<Up<int, int>>, down: seq<Dispatch<int>>): Sys<int, int> {
    var s := Failed(lane, pc, up, down, [1, 0], WireFailure(2));
    s.(sched := s.sched.(root := Stopped))
  }

  const Script: seq<Action> :=
    [WorkerSend(1), RootRecv(1, true), RootSend, RootStart, RootFinish, WorkerRecv(1, true), WorkerEval(1), WorkerSend(1),
     RootRecv(1, false), WorkerSend(1), RootRecv(1, true), RootSend, RootStart, WorkerRecv(1, true), WorkerSend(1), RootRecv(1, true)]

  /** Two states with equal parts are equal. */
  lemma Same(t: Sys<int, int>, u: Sys<int, int>)
    requires |t.workers| == |u.workers| == 2 && t.workers[0] == u.workers[0]
    requires t.workers[1].pc == u.workers[1].pc && t.workers[1].up == u.workers[1].up && t.workers[1].down == u.workers[1].down
    requires t.workers[1].key == u.workers[1].key && t.workers[1].error == u.workers[1].error
    requires t.sched.pending == u.sched.pending && t.sched.ordered == u.sched.ordered && t.sched.batchSize == u.sched.batchSize
    requires t.sched.nextId == u.sched.nextId && t.sched.root == u.sched.root && t.sched.remotes == u.sched.remotes
    requires t.sched.prefetch == u.sched.prefetch && t.sched.failed == u.sched.failed
    requires t.job == u.job && t.outbox == u.outbox && t.rootKey == u.rootKey && t.rootError == u.rootError
    requires t.calls == u.calls && t.fault == u.fault
    ensures t == u
  {
    assert t.workers == u.workers;
  }

  lemma Starts()
    ensures Setup().Valid() && Start(Setup()) == StateAt(0)
  {
    var c := Setup();
    assert (set w | 0 <= w < c.size && c.Worker(w)) == {1};
    Same(Start(c), StateAt(0));
  }

  lemma Evaluations()
    ensures Evaluate(Setup(), First) == Answer && Calls(Setup(), First) == [0]
    ensures Evaluate(Setup(), Second) == CallbackError(1) && Calls(Setup(), Second) == [1]
  {
    var c := Setup();
    assert ValuesOf(First) == [0] && ValuesOf(Second) == [1];
    MapExact([0], c.f);
    MapExact([1], c.f);
    assert c.f([0][0]) == Ok(0) && c.f([1][0]) == Err("callback");
    assert Map([0], c.f).Ok? && Map([0], c.f).value == [0];
    assert Map([1], c.f).Err? && Map([1], c.f).error == MapError(0, "callback");
  }

  ghost predicate Follows(k: nat)
    requires k < 16
  {
    Enabled(Setup(), StateAt(k), Script[k]) && Step(Setup(), StateAt(k), Script[k]) == StateAt(k + 1)
  }

  lemma ReadySent()
    ensures Follows(0)
  {
    Same(Step(Setup(), StateAt(0), Script[0]), StateAt(1));
  }

  lemma TaskChosen()
    ensures Follows(1)
  {
    var queue := [Item(0, 0), Item(1, 1)];
    assert queue[..1] == [Item(0, 0)] && queue[1..] == [Item(1, 1)];
    assert MetaOf(First) == Meta(0, [0]);
    Same(Step(Setup(), StateAt(1), Script[1]), StateAt(2));
  }

  lemma TaskSent()
    ensures Follows(2)
  {
    Same(Step(Setup(), StateAt(2), Script[2]), StateAt(3));
  }

  lemma RootStarts()
    ensures Follows(3)
  {
    assert [Item(1, 1)][..1] == [Item(1, 1)] && [Item(1, 1)][1..] == [];
    assert MetaOf(Second) == Meta(1, [1]);
    Same(Step(Setup(), StateAt(3), Script[3]), StateAt(4));
  }

  lemma RootFails()
    ensures Follows(4)
  {
    Evaluations();
    Same(Step(Setup(), StateAt(4), Script[4]), StateAt(5));
  }

  lemma TaskReceived()
    ensures Follows(5)
  {
    Same(Step(Setup(), StateAt(5), Script[5]), StateAt(6));
  }

  lemma WorkerEvaluates()
    ensures Follows(6)
  {
    Evaluations();
    Same(Step(Setup(), StateAt(6), Script[6]), StateAt(7));
  }

  lemma WorkerAnswers()
    ensures Follows(7)
  {
    Same(Step(Setup(), StateAt(7), Script[7]), StateAt(8));
  }

  lemma ReplyDoesNotDecode()
    ensures Follows(8)
  {
    Same(Step(Setup(), StateAt(8), Script[8]), StateAt(9));
  }

  lemma ReadyAgain()
    ensures Follows(9)
  {
    Same(Step(Setup(), StateAt(9), Script[9]), StateAt(10));
  }

  lemma StopChosen()
    ensures Follows(10)
  {
    Same(Step(Setup(), StateAt(10), Script[10]), StateAt(11));
  }

  lemma StopSent()
    ensures Follows(11)
  {
    Same(Step(Setup(), StateAt(11), Script[11]), StateAt(12));
  }

  lemma RootStops()
    ensures Follows(12)
  {
    Same(Step(Setup(), StateAt(12), Script[12]), StateAt(13));
  }

  lemma StopReceived()
    ensures Follows(13)
  {
    Same(Step(Setup(), StateAt(13), Script[13]), StateAt(14));
  }

  lemma DrainSent()
    ensures Follows(14)
  {
    Same(Step(Setup(), StateAt(14), Script[14]), StateAt(15));
  }

  lemma AllDrained()
    ensures Follows(15)
  {
    Same(Step(Setup(), StateAt(15), Script[15]), StateAt(16));
  }

  lemma EveryStep(k: nat)
    requires k < 16
    ensures Follows(k)
  {
    if k == 0 { ReadySent(); } else if k == 1 { TaskChosen(); } else if k == 2 { TaskSent(); } else if k == 3 { RootStarts(); }
    else if k == 4 { RootFails(); } else if k == 5 { TaskReceived(); } else if k == 6 { WorkerEvaluates(); }
    else if k == 7 { WorkerAnswers(); } else if k == 8 { ReplyDoesNotDecode(); } else if k == 9 { ReadyAgain(); }
    else if k == 10 { StopChosen(); } else if k == 11 { StopSent(); } else if k == 12 { RootStops(); }
    else if k == 13 { StopReceived(); } else if k == 14 { DrainSent(); } else { AllDrained(); }
  }

  function States(): seq<Sys<int, int>> { seq(17, k => if k >= 0 then StateAt(k) else StateAt(0)) }

  /** The run is over, and both ranks return key 8, made by the callback on item 1, with the message of the reply
      that did not decode. */
  lemma KeyAndMessageOfTwoErrors()
    ensures Run(Setup(), Script, States()) && Over(Setup(), States()[16])
    ensures Overwritten(Setup(), Script, States(), 16)
    ensures EK.New(1, EK.Callback, 0, 2) == Ok(8)
    ensures ResultAt(Setup(), States()[16], 0) == Failure(8, Some(WireFailure(2))) == ResultAt(Setup(), States()[16], 1)
    ensures !Whole(Setup(), 0, Some(8), Some(WireFailure(2)))
  {
    IsRun();
    MessagesFollowKeys(Setup(), Script, States(), 16, 1);
    Agree();
  }

  lemma IsRun()
    ensures Run(Setup(), Script, States())
  {
    Starts();
    forall k | 0 <= k < 16
      ensures Enabled(Setup(), States()[k], Script[k]) && States()[k + 1] == Step(Setup(), States()[k], Script[k])
    {
      EveryStep(k);
    }
    forall k | 0 <= k < 17 ensures |States()[k].workers| == 2 { }
  }

  lemma Agree()
    ensures Over(Setup(), StateAt(16))
    ensures ResultAt(Setup(), StateAt(16), 0) == Failure(8, Some(WireFailure(2))) == ResultAt(Setup(), StateAt(16), 1)
  {
    var locals := Locals(Setup(), StateAt(16));
    assert locals[1..] == [locals[1]];
    assert EK.MinKey(locals) == 8;
  }
}
