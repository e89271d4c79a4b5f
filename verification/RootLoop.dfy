/** The blocking root of src/pmap.rs: root_loop's control flow over the `pmap` system.

  The root serves what a probe finds, computes one batch of its own when a probe round found nothing,
  and then blocks for the next message. It is blocked in that receive only while some worker has not
  drained, so the loop cannot hang, and it cannot spin either. The polling hybrid_root_loop never
  blocks in a receive; its steps are the root actions of `Pmap` without this control.
 */
module RootLoop {
  import opened Wrappers
  import opened Scheduler
  import SP = SchedulerProofs
  import opened Pmap
  import opened PmapInvariant
  import opened PmapSafety
  import opened PmapRootSteps
  import opened PmapProgress

  datatype Control = Top | Probe(served: bool) | Exec | Block | Exit

  datatype Root<T, U> = Root(sys: Sys<T, U>, ctl: Control)

  datatype Move =
    | ByWorker(action: Action)
    | Answer
    | Turn
    | Hit(w: nat, ok: bool)
    | Miss
    | Complete
    | Wake(w: nat, ok: bool)

  predicate CanMove<T, U, E>(c: Config<T, U, E>, x: Root<T, U>, m: Move)
    requires |x.sys.workers| == c.size
  {
    match m
    case ByWorker(a) => (a.WorkerSend? || a.WorkerRecv? || a.WorkerEval?) && Enabled(c, x.sys, a)
    case Answer => Enabled(c, x.sys, RootSend)
    case Turn => x.ctl.Top? && x.sys.outbox.None? && x.sys.job.None?
    case Hit(w, ok) => x.ctl.Probe? && Enabled(c, x.sys, RootRecv(w, ok))
    case Miss => x.ctl.Probe? && x.sys.outbox.None? && x.sys.job.None?
    case Complete => x.ctl.Exec? && Enabled(c, x.sys, RootFinish)
    case Wake(w, ok) => x.ctl.Block? && Enabled(c, x.sys, RootRecv(w, ok))
  }

  /** execute_root_batch up to the first callback: a batch to run, or nothing. */
  function Begin<T, U>(s: Sys<T, U>): Sys<T, U> {
    if s.sched.root.Stopped? then s else DoRootStart(s)
  }

  function MoveTo<T, U, E>(c: Config<T, U, E>, x: Root<T, U>, m: Move): (y: Root<T, U>)
    requires |x.sys.workers| == c.size && CanMove(c, x, m)
    ensures |y.sys.workers| == c.size
  {
    match m
    case ByWorker(a) => x.(sys := Step(c, x.sys, a))
    case Answer => x.(sys := DoRootSend(x.sys))
    case Turn =>
      if c.size == 1 then
        var s := Begin(x.sys);
        Root(s, if s.job.Some? then Exec else Exit)
      else if Finished(x.sys.sched) && Quiescent(x.sys.sched) then x.(ctl := Exit)
      else x.(ctl := Probe(false))
    case Hit(w, ok) => Root(DoRootRecv(c, x.sys, w, ok), Probe(true))
    case Miss =>
      if Finished(x.sys.sched) || x.ctl.served then x.(ctl := Top)
      else
        var s := Begin(x.sys);
        Root(s, if s.job.Some? then Exec else if Finished(s.sched) then Top else Block)
    case Complete =>
      var s := Finish(c, x.sys);
      Root(s, if c.size == 1 || Finished(s.sched) then Top else Block)
    case Wake(w, ok) => Root(DoRootRecv(c, x.sys, w, ok), Top)
  }

  ghost predicate Undrained<T, U, E>(c: Config<T, U, E>, s: Sys<T, U>) {
    exists w: nat :: c.Worker(w) && w in s.sched.remotes && !s.sched.remotes[w].Drained?
  }

  ghost predicate LoopInv<T, U, E>(c: Config<T, U, E>, x: Root<T, U>) {
    && Inv(c, x.sys)
    && (x.sys.job.Some? <==> x.ctl.Exec?)
    && (x.ctl.Exec? || x.ctl.Block? || x.ctl.Exit? ==> x.sys.outbox.None?)
    && (x.ctl.Exec? && c.size > 1 ==> Undrained(c, x.sys))
    && (x.ctl.Block? ==> Undrained(c, x.sys))
    && (x.ctl.Exit? ==> Finished(x.sys.sched))
  }

  lemma BeginKeeps<T, U, E>(c: Config<T, U, E>, s: Sys<T, U>)
    requires Inv(c, s) && s.outbox.None? && s.job.None?
    ensures Inv(c, Begin(s)) && Begin(s).outbox.None? && Begin(s).sched.remotes == s.sched.remotes
    ensures Begin(s).job.None? ==> Begin(s).sched.root.Stopped?
    ensures Begin(s).job.Some? && c.size > 1 ==> Undrained(c, Begin(s))
    ensures Begin(s) == s || Measure(Begin(s)) < Measure(s)
  {
    if !s.sched.root.Stopped? {
      RootStartKeeps(c, s);
      RootFalls(c, s);
      if Begin(s).job.Some? && c.size > 1 {
        var w: nat := if c.root == 0 then 1 else 0;
        assert c.Worker(w) && !Ending(s.sched.remotes[w]);
      }
    }
  }

  /** The root's lane is stopped and the coordinator is not finished: some worker is undrained. */
  lemma NotFinishedUndrained<T, U, E>(c: Config<T, U, E>, s: Sys<T, U>)
    requires Inv(c, s) && s.sched.root.Stopped? && !Finished(s.sched)
    ensures Undrained(c, s)
  {
    var r :| r in s.sched.remotes && !s.sched.remotes[r].Drained?;
    assert c.Worker(r);
  }

  lemma WorkersKeepLanes<T, U, E>(c: Config<T, U, E>, s: Sys<T, U>, a: Action)
    requires |s.workers| == c.size && (a.WorkerSend? || a.WorkerRecv? || a.WorkerEval?) && Enabled(c, s, a)
    ensures Step(c, s, a).sched == s.sched && Step(c, s, a).job == s.job && Step(c, s, a).outbox == s.outbox
  {
  }

  lemma MissKeeps<T, U, E>(c: Config<T, U, E>, x: Root<T, U>)
    requires LoopInv(c, x) && CanMove(c, x, Miss)
    ensures LoopInv(c, MoveTo(c, x, Miss))
  {
    BeginKeeps(c, x.sys);
    if Begin(x.sys).job.None? && !Finished(Begin(x.sys).sched) { NotFinishedUndrained(c, Begin(x.sys)); }
  }

  lemma CompleteKeeps<T, U, E>(c: Config<T, U, E>, x: Root<T, U>)
    requires LoopInv(c, x) && CanMove(c, x, Complete)
    ensures LoopInv(c, MoveTo(c, x, Complete))
  {
    RootFinishKeeps(c, x.sys);
    FinishAccepted(c, x.sys);
  }

  lemma MoveKeeps<T, U, E>(c: Config<T, U, E>, x: Root<T, U>, m: Move)
    requires LoopInv(c, x) && CanMove(c, x, m)
    ensures LoopInv(c, MoveTo(c, x, m))
  {
    match m
    case ByWorker(a) =>
      StepKeeps(c, x.sys, a);
      WorkersKeepLanes(c, x.sys, a);
    case Answer => RootSendKeeps(c, x.sys);
    case Hit(w, ok) =>
      RootRecvKeeps(c, x.sys, w, ok);
      ServeKeepsJob(c, x.sys, w, ok);
    case Wake(w, ok) =>
      RootRecvKeeps(c, x.sys, w, ok);
      ServeKeepsJob(c, x.sys, w, ok);
    case Turn =>
      if c.size == 1 { BeginKeeps(c, x.sys); }
    case Miss => MissKeeps(c, x);
    case Complete => CompleteKeeps(c, x);
  }

  lemma ServeKeepsJob<T, U, E>(c: Config<T, U, E>, s: Sys<T, U>, w: nat, ok: bool)
    requires w < |s.workers| && s.workers[w].up != []
    ensures DoRootRecv(c, s, w, ok).job == s.job
  {
  }

  // ----- runs of the loop

  ghost predicate LoopRun<T, U, E>(c: Config<T, U, E>, moves: seq<Move>, states: seq<Root<T, U>>) {
    && c.Valid()
    && |states| == |moves| + 1
    && states[0] == Root(Start(c), Top)
    && (forall k :: 0 <= k < |states| ==> |states[k].sys.workers| == c.size)
    && forall k :: 0 <= k < |moves| ==>
         CanMove(c, states[k], moves[k]) && states[k + 1] == MoveTo(c, states[k], moves[k])
  }

  lemma {:induction false} LoopRunInv<T, U, E>(c: Config<T, U, E>, moves: seq<Move>, states: seq<Root<T, U>>, k: nat)
    requires LoopRun(c, moves, states) && k < |states|
    ensures LoopInv(c, states[k])
  {
    if k == 0 {
      StartInv(c);
    } else {
      LoopRunInv(c, moves, states, k - 1);
      MoveKeeps(c, states[k - 1], moves[k - 1]);
    }
  }

  /** The move needs no buffering: a worker's send counts only when the root is at a receive. */
  ghost predicate CanComplete<T, U, E>(c: Config<T, U, E>, x: Root<T, U>, m: Move)
    requires |x.sys.workers| == c.size
  {
    && CanMove(c, x, m)
    && (m.ByWorker? && m.action.WorkerSend? ==> x.sys.outbox.None? && (x.ctl.Probe? || x.ctl.Block?))
    && (m.Answer? ==> x.sys.workers[x.sys.outbox.value.0].pc.Wait?)
  }

  /** In every state of every run the root has left its loop with every rank done, or some move can
      complete; and a blocked root always has an undrained worker to hear from. */
  lemma LoopNeverHangs<T, U, E>(c: Config<T, U, E>, moves: seq<Move>, states: seq<Root<T, U>>, k: nat)
    requires LoopRun(c, moves, states) && k < |states|
    ensures states[k].ctl.Block? ==> Undrained(c, states[k].sys)
    ensures if states[k].ctl.Exit? then Over(c, states[k].sys) else exists m :: CanComplete(c, states[k], m)
  {
    LoopRunInv(c, moves, states, k);
    var x := states[k];
    if x.ctl.Exit? {
      FinishedIsOver(c, x.sys);
    } else if x.sys.outbox.Some? {
      AnswerIsAwaited(c, x.sys);
      assert CanComplete(c, x, Answer);
    } else {
      match x.ctl
      case Top => assert CanComplete(c, x, Turn);
      case Probe(_) => assert CanComplete(c, x, Miss);
      case Exec => assert CanComplete(c, x, Complete);
      case Block =>
        var w: nat :| c.Worker(w) && w in x.sys.sched.remotes && !x.sys.sched.remotes[w].Drained?;
        UndrainedMoves(c, x.sys, w);
        var a := NextFor(x.sys, w);
        assert CanComplete(c, x, if a.RootRecv? then Wake(w, true) else ByWorker(a));
    }
  }

  // ----- the loop ends

  function Rank<T, U>(x: Root<T, U>): nat {
    match x.ctl
    case Top => if Finished(x.sys.sched) then 1 else 5
    case Probe(served) => if served then 6 else 4
    case Exec => 3
    case Block => 3
    case Exit => 0
  }

  function LoopMeasure<T, U>(x: Root<T, U>): nat {
    7 * Measure(x.sys) + Rank(x)
  }

  lemma LoopFalls<T, U, E>(c: Config<T, U, E>, x: Root<T, U>, m: Move)
    requires LoopInv(c, x) && CanMove(c, x, m)
    ensures LoopMeasure(MoveTo(c, x, m)) < LoopMeasure(x)
  {
    match m
    case ByWorker(a) => MeasureFalls(c, x.sys, a);
    case Answer => RootFalls(c, x.sys);
    case Turn =>
      if c.size == 1 { BeginKeeps(c, x.sys); }
      if Finished(x.sys.sched) { FinishedIsOver(c, x.sys); }
    case Hit(w, ok) => ServeFalls(c, x.sys, w, ok);
    case Miss =>
      BeginKeeps(c, x.sys);
    case Complete => RootFalls(c, x.sys);
    case Wake(w, ok) => ServeFalls(c, x.sys, w, ok);
  }

  /** Every run of the loop, with every probe result and interleaving, is bounded. */
  lemma {:induction false} LoopRunsEnd<T, U, E>(c: Config<T, U, E>, moves: seq<Move>, states: seq<Root<T, U>>, k: nat)
    requires LoopRun(c, moves, states) && k < |states|
    ensures LoopMeasure(states[k]) + k <= 7 * (7 * |c.items| + 6 * c.size + 1) + 6
  {
    if k == 0 {
      TotalStart(states[0].sys.workers);
    } else {
      LoopRunsEnd(c, moves, states, k - 1);
      LoopRunInv(c, moves, states, k - 1);
      LoopFalls(c, states[k - 1], moves[k - 1]);
    }
  }
}
