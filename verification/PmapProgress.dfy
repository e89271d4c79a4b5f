/** Progress of the `pmap` system: it never deadlocks, even when no send is buffered, and every run ends. */
module PmapProgress {
  import opened Wrappers
  import opened Scheduler
  import SP = SchedulerProofs
  import opened Pmap
  import opened PmapInvariant
  import opened PmapSafety
  import opened PmapSteps
  import opened PmapRootSteps

  // ----- deadlock

  /** The action can complete at once: a send counts only if its receiver is there to take it. */
  predicate Matched<T, U, E>(c: Config<T, U, E>, s: Sys<T, U>, a: Action)
    requires |s.workers| == c.size
  {
    && Enabled(c, s, a)
    && (a.WorkerSend? ==> s.outbox.None?)
    && (a.RootSend? ==> s.workers[s.outbox.value.0].pc.Wait?)
  }

  /** What an undrained worker, or the root on its behalf, can do next. */
  function NextFor<T, U>(s: Sys<T, U>, w: nat): Action
    requires w < |s.workers|
  {
    var me := s.workers[w];
    if me.up != [] then RootRecv(w, true)
    else match me.pc
      case Wait(_) => WorkerRecv(w, true)
      case Held(_, _) => WorkerEval(w)
      case _ => WorkerSend(w)
  }

  /** While the root is free, every undrained worker can move or be served. */
  lemma UndrainedMoves<T, U, E>(c: Config<T, U, E>, s: Sys<T, U>, w: nat)
    requires Inv(c, s) && s.outbox.None? && c.Worker(w) && !s.sched.remotes[w].Drained?
    ensures Matched(c, s, NextFor(s, w))
  {
    assert WorkerOk(c, s, w);
    var v := ViewOf(s, w);
    assert Channels(v);
    if v.pc.Done? { assert v.up != [] || LaneOf(v).Drained?; }
  }

  /** The answer the root is sending always finds its worker at the receive. */
  lemma AnswerIsAwaited<T, U, E>(c: Config<T, U, E>, s: Sys<T, U>)
    requires Inv(c, s) && s.outbox.Some?
    ensures Matched(c, s, RootSend)
  {
    var w := s.outbox.value.0;
    assert WorkerOk(c, s, w);
    assert Channels(ViewOf(s, w));
  }

  /** A finished coordinator means that every rank is done and every channel is empty. */
  lemma FinishedIsOver<T, U, E>(c: Config<T, U, E>, s: Sys<T, U>)
    requires Inv(c, s) && Finished(s.sched)
    ensures Over(c, s)
  {
    forall w | 0 <= w < c.size
      ensures s.workers[w].pc.Done? && s.workers[w].up == [] && s.workers[w].down == []
    {
      if c.Worker(w) {
        assert WorkerOk(c, s, w);
        assert Channels(ViewOf(s, w));
        assert LaneOf(ViewOf(s, w)).Drained?;
      }
    }
    if s.outbox.Some? { AnswerIsAwaited(c, s); }
  }

  /** In every reachable state that is not over, some action can complete without any buffering. */
  lemma NoDeadlock<T, U, E>(c: Config<T, U, E>, s: Sys<T, U>)
    requires Inv(c, s)
    ensures Over(c, s) || exists a :: Matched(c, s, a)
  {
    if s.outbox.Some? {
      AnswerIsAwaited(c, s);
    } else if s.job.Some? {
      assert Matched(c, s, RootFinish);
    } else if !s.sched.root.Stopped? {
      assert Matched(c, s, RootStart);
    } else if w: nat :| c.Worker(w) && !s.sched.remotes[w].Drained? {
      UndrainedMoves(c, s, w);
    } else {
      assert forall r :: r in s.sched.remotes ==> s.sched.remotes[r].Drained?;
      FinishedIsOver(c, s);
    }
  }

  // ----- termination

  function UpWeight<T, U>(up: seq<Up<T, U>>): nat {
    if up == [] then 0 else (if up[0].Ready? then 3 else 1) + UpWeight(up[1..])
  }

  function DownWeight<T>(down: seq<Dispatch<T>>): nat {
    if down == [] then 0 else (if down[0].Task? then 8 else 1) + DownWeight(down[1..])
  }

  /** Steps a worker still has to go if its next answer is a stop. */
  function PcWeight<T, U>(pc: Pc<T, U>): nat {
    match pc
    case SendReady(cur) => if cur.Some? then 9 else 6
    case Wait(cur) => if cur.Some? then 5 else 2
    case Held(_, next) => 1 + NextWeight(next)
    case SendOutcome(_, _, next) => NextWeight(next)
    case SendDrain => 2
    case Done => 0
  }

  function NextWeight<T>(next: Next<T>): nat {
    match next
    case Loop => 8
    case Work(_) => 11
    case Bad(_) => 10
    case Halt => 4
  }

  function WorkerWeight<T, U>(me: Worker<T, U>): nat {
    PcWeight(me.pc) + UpWeight(me.up) + DownWeight(me.down)
  }

  function Total<T, U>(workers: seq<Worker<T, U>>): nat {
    if workers == [] then 0 else WorkerWeight(workers[0]) + Total(workers[1..])
  }

  function RootWeight<T, U>(s: Sys<T, U>): nat {
    (if s.job.Some? then 1 else 0) + (if s.sched.root.Stopped? then 0 else 1)
    + (if s.outbox.None? then 0 else if s.outbox.value.1.Task? then 9 else 2)
  }

  function Measure<T, U>(s: Sys<T, U>): nat {
    7 * |s.sched.pending| + Total(s.workers) + RootWeight(s)
  }

  lemma {:induction false} TotalUpdate<T, U>(workers: seq<Worker<T, U>>, w: nat, me: Worker<T, U>)
    requires w < |workers|
    ensures Total(workers[w := me]) == Total(workers) - WorkerWeight(workers[w]) + WorkerWeight(me)
  {
    if w == 0 {
      assert workers[0 := me][1..] == workers[1..];
    } else {
      assert workers[w := me][1..] == workers[1..][w - 1 := me];
      TotalUpdate(workers[1..], w - 1, me);
    }
  }

  lemma {:induction false} UpWeightAppend<T, U>(up: seq<Up<T, U>>, m: Up<T, U>)
    ensures UpWeight(up + [m]) == UpWeight(up) + (if m.Ready? then 3 else 1)
  {
    if up == [] {
      assert (up + [m])[1..] == [];
    } else {
      assert (up + [m])[1..] == up[1..] + [m];
      UpWeightAppend(up[1..], m);
    }
  }

  lemma {:induction false} DownWeightAppend<T>(down: seq<Dispatch<T>>, m: Dispatch<T>)
    ensures DownWeight(down + [m]) == DownWeight(down) + (if m.Task? then 8 else 1)
  {
    if down == [] {
      assert (down + [m])[1..] == [];
    } else {
      assert (down + [m])[1..] == down[1..] + [m];
      DownWeightAppend(down[1..], m);
    }
  }

  lemma WorkerFalls<T, U, E>(c: Config<T, U, E>, w: nat, me: Worker<T, U>, ok: bool)
    ensures Sending(me.pc) ==> WorkerWeight(Send(c, w, me)) < WorkerWeight(me)
    ensures me.pc.Wait? && me.down != [] ==> WorkerWeight(Receive(c, me, ok)) < WorkerWeight(me)
  {
    if Sending(me.pc) { UpWeightAppend(me.up, Send(c, w, me).up[|me.up|]); }
  }

  /** What handling a message does to the quantities the measure counts. */
  lemma HandleEffect<T, U, E>(c: Config<T, U, E>, s: Sys<T, U>, w: nat, m: Up<T, U>, ok: bool)
    requires s.outbox.None? && s.sched.batchSize > 0
    requires m.Ready? ==> OnRemoteReady(s.sched, w).1.Ok?
    ensures var t := Handle(c, s, w, m, ok);
            && t.workers == s.workers && t.job == s.job && t.sched.root == s.sched.root
            && |t.sched.pending| <= |s.sched.pending|
            && (m.Ready? ==> t.outbox.Some?)
            && (m.Ready? && t.outbox.value.1.Task? ==> |t.sched.pending| < |s.sched.pending|)
            && (!m.Ready? ==> t.outbox.None?)
  {
  }

  lemma ServeFalls<T, U, E>(c: Config<T, U, E>, s: Sys<T, U>, w: nat, ok: bool)
    requires Inv(c, s) && c.Worker(w) && s.outbox.None? && s.workers[w].up != []
    ensures Measure(DoRootRecv(c, s, w, ok)) < Measure(s)
  {
    var me := s.workers[w];
    var s0 := SetWorker(s, w, me.(up := me.up[1..]));
    TotalUpdate(s.workers, w, s0.workers[w]);
    if me.up[0].Ready? { ReadyAccepted(c, s, w); }
    HandleEffect(c, s0, w, me.up[0], ok);
  }

  lemma LocalFalls<T, U, E>(c: Config<T, U, E>, s: Sys<T, U>, w: nat, ok: bool)
    requires w < |s.workers|
    ensures Sending(s.workers[w].pc) ==> Measure(DoSend(c, s, w)) < Measure(s)
    ensures s.workers[w].pc.Wait? && s.workers[w].down != [] ==> Measure(DoRecv(c, s, w, ok)) < Measure(s)
    ensures s.workers[w].pc.Held? ==> Measure(DoEval(c, s, w)) < Measure(s)
  {
    var me := s.workers[w];
    WorkerFalls(c, w, me, ok);
    TotalUpdate(s.workers, w, Send(c, w, me));
    if me.pc.Wait? && me.down != [] { TotalUpdate(s.workers, w, Receive(c, me, ok)); }
    if me.pc.Held? { TotalUpdate(s.workers, w, DoEval(c, s, w).workers[w]); }
  }

  lemma RootFalls<T, U, E>(c: Config<T, U, E>, s: Sys<T, U>)
    requires Inv(c, s)
    ensures s.outbox.Some? ==> Measure(DoRootSend(s)) < Measure(s)
    ensures s.outbox.None? && s.job.None? && !s.sched.root.Stopped? ==> Measure(DoRootStart(s)) < Measure(s)
    ensures s.outbox.None? && s.job.Some? ==> Measure(Finish(c, s)) < Measure(s)
  {
    if s.outbox.Some? {
      var (w, m) := s.outbox.value;
      DownWeightAppend(s.workers[w].down, m);
      TotalUpdate(s.workers, w, s.workers[w].(down := s.workers[w].down + [m]));
    } else if s.job.Some? {
      FinishAccepted(c, s);
    } else if !s.sched.failed && s.sched.pending != [] {
      SP.BatchFacts(s.sched);
    }
  }

  /** The measure falls on every step. */
  lemma MeasureFalls<T, U, E>(c: Config<T, U, E>, s: Sys<T, U>, a: Action)
    requires Inv(c, s) && Enabled(c, s, a)
    ensures Measure(Step(c, s, a)) < Measure(s)
  {
    match a
    case WorkerSend(w) => LocalFalls(c, s, w, true);
    case WorkerRecv(w, ok) => LocalFalls(c, s, w, ok);
    case WorkerEval(w) => LocalFalls(c, s, w, true);
    case RootRecv(w, ok) => ServeFalls(c, s, w, ok);
    case _ => RootFalls(c, s);
  }

  lemma {:induction false} TotalStart<T, U>(workers: seq<Worker<T, U>>)
    requires forall w :: 0 <= w < |workers| ==> WorkerWeight(workers[w]) <= 6
    ensures Total(workers) <= 6 * |workers|
  {
    if workers != [] { TotalStart(workers[1..]); }
  }

  /** Every run is at most as long as the measure it starts from. */
  lemma {:induction false} RunsEnd<T, U, E>(c: Config<T, U, E>, actions: seq<Action>, states: seq<Sys<T, U>>, k: nat)
    requires Run(c, actions, states) && k < |states|
    ensures Measure(states[k]) + k <= 7 * |c.items| + 6 * c.size + 1
  {
    if k == 0 {
      TotalStart(states[0].workers);
    } else {
      RunsEnd(c, actions, states, k - 1);
      RunInv(c, actions, states, k - 1);
      MeasureFalls(c, states[k - 1], actions[k - 1]);
    }
  }
}
