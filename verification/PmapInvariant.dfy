/** The invariant of the `pmap` system.

  A worker's batches form a pipeline: replies still in its channel, then what its program counter
  holds, then a task on its way down. Workers only move batches along it, so the coordinator's lane
  for a worker is a function (`LaneOf`) of the worker's own state, whatever the interleaving.
 */
module PmapInvariant {
  import opened Wrappers
  import opened Scheduler
  import opened SerialMap
  import opened Pmap
  import EK = ErrorKeys

  /** A worker together with what the root is about to send it. */
  datatype View<T, U> = View(pc: Pc<T, U>, up: seq<Up<T, U>>, down: seq<Dispatch<T>>)

  function ViewOf<T, U>(s: Sys<T, U>, w: nat): View<T, U>
    requires w < |s.workers|
  {
    var me := s.workers[w];
    View(me.pc, me.up,
         me.down + (if s.outbox.Some? && s.outbox.value.0 == w then [s.outbox.value.1] else []))
  }

  function UpBatches<T, U>(up: seq<Up<T, U>>): seq<Batch<T>> {
    if up == [] then []
    else (if up[0].Reply? then [up[0].batch] else []) + UpBatches(up[1..])
  }

  function NextBatches<T>(next: Next<T>): seq<Batch<T>> {
    match next
    case Work(b) => [b]
    case Bad(b) => [b]
    case _ => []
  }

  function PcBatches<T, U>(pc: Pc<T, U>): seq<Batch<T>> {
    match pc
    case SendReady(cur) => if cur.Some? then [cur.value] else []
    case Wait(cur) => if cur.Some? then [cur.value] else []
    case Held(b, next) => [b] + NextBatches(next)
    case SendOutcome(b, _, next) => [b] + NextBatches(next)
    case _ => []
  }

  function DownBatches<T>(down: seq<Dispatch<T>>): seq<Batch<T>> {
    if down == [] then []
    else (if down[0].Task? then [down[0].batch] else []) + DownBatches(down[1..])
  }

  /** All batches given to this worker whose reply the root has not handled, oldest first. */
  function Flow<T, U>(v: View<T, U>): seq<Batch<T>> {
    UpBatches(v.up) + PcBatches(v.pc) + DownBatches(v.down)
  }

  /** The worker has been, or is being, told to stop. */
  ghost predicate Told<T, U>(v: View<T, U>) {
    || v.pc.SendDrain? || v.pc.Done?
    || (v.pc.Held? && v.pc.next.Halt?) || (v.pc.SendOutcome? && v.pc.next.Halt?)
    || (v.down != [] && v.down[0].Stop?)
  }

  ghost function LaneOf<T, U>(v: View<T, U>): Lane {
    var flow := Flow(v);
    if flow == [] then
      if !Told(v) then Idle else if v.pc.Done? && v.up == [] then Drained else Stopped
    else
      Running(MetaOf(flow[0]), if |flow| > 1 then Some(MetaOf(flow[1])) else None, Told(v))
  }

  ghost predicate OnlyReplies<T, U>(up: seq<Up<T, U>>) {
    forall k :: 0 <= k < |up| ==> up[k].Reply?
  }

  ghost predicate EndsWith<T, U>(up: seq<Up<T, U>>, last: Up<T, U>) {
    up != [] && up[|up| - 1] == last && OnlyReplies(up[..|up| - 1])
  }

  /** Which messages can be in flight at each program counter. */
  ghost predicate Channels<T, U>(v: View<T, U>) {
    match v.pc
    case SendReady(_) => v.down == [] && OnlyReplies(v.up)
    case Wait(_) => (v.down == [] && EndsWith(v.up, Ready)) || (|v.down| == 1 && v.up == [])
    case Held(_, _) => v.down == [] && v.up == []
    case SendOutcome(_, _, next) => v.down == [] && OnlyReplies(v.up) && (next.Loop? || v.up == [])
    case SendDrain => v.down == [] && OnlyReplies(v.up)
    case Done => v.down == [] && (v.up == [] || EndsWith(v.up, Drain))
  }

  /** Which loop the worker runs. */
  ghost predicate LoopShape<T, U>(prefetch: bool, pc: Pc<T, U>) {
    match pc
    case SendReady(cur) => cur.Some? ==> prefetch
    case Wait(cur) => cur.Some? ==> prefetch
    case Held(_, next) => next.Loop? <==> !prefetch
    case SendOutcome(_, _, next) => !prefetch ==> next.Loop?
    case _ => true
  }

  ghost predicate Shape<T, U>(prefetch: bool, v: View<T, U>) {
    && Channels(v)
    && LoopShape(prefetch, v.pc)
    && |Flow(v)| <= (if prefetch && !Told(v) then 2 else 1)
  }

  // ----- data

  /** The batch holds input items under their own indices. */
  ghost predicate Genuine<T, U, E>(c: Config<T, U, E>, items: seq<Item<T>>) {
    forall k :: 0 <= k < |items| ==> items[k].index < |c.items| && items[k].value == c.items[items[k].index]
  }

  ghost predicate Truthful<T, U, E>(c: Config<T, U, E>, batch: Batch<T>, outcome: Outcome<U>) {
    outcome == Evaluate(c, batch) || outcome == WireError(|batch.items|)
  }

  ghost predicate Honest<T, U, E>(c: Config<T, U, E>, v: View<T, U>) {
    && (forall k :: 0 <= k < |Flow(v)| ==> Genuine(c, Flow(v)[k].items))
    && (forall k :: 0 <= k < |v.up| && v.up[k].Reply? ==> Truthful(c, v.up[k].batch, v.up[k].outcome))
    && (v.pc.SendOutcome? ==> Truthful(c, v.pc.batch, v.pc.outcome))
  }

  // ----- which callbacks have run

  ghost predicate Has<T>(batch: Batch<T>, i: nat) {
    i in MetaOf(batch).indices
  }

  /** Index `i` is in a batch this worker may still evaluate. */
  ghost predicate Unevaluated<T, U>(v: View<T, U>, i: nat) {
    || ((v.pc.SendReady? || v.pc.Wait?) && v.pc.cur.Some? && Has(v.pc.cur.value, i))
    || (v.pc.Held? && Has(v.pc.batch, i))
    || ((v.pc.Held? || v.pc.SendOutcome?) && v.pc.next.Work? && Has(v.pc.next.batch, i))
    || (exists k :: 0 <= k < |v.down| && v.down[k].Task? && Has(v.down[k].batch, i))
  }

  ghost predicate Waiting<T, U, E>(c: Config<T, U, E>, s: Sys<T, U>, i: nat)
    requires |s.workers| == c.size
  {
    || At(s.sched, i, InPending)
    || (s.job.Some? && Has(s.job.value, i))
    || exists w: nat :: c.Worker(w) && Unevaluated(ViewOf(s, w), i)
  }

  ghost predicate Distinct(xs: seq<nat>) {
    forall j, k :: 0 <= j < k < |xs| ==> xs[j] != xs[k]
  }

  /** Values in hand were computed: their callbacks are in the log. */
  ghost predicate ValuesLogged<T, U>(v: View<T, U>, calls: seq<nat>) {
    && (forall k, i: nat :: 0 <= k < |v.up| && v.up[k].Reply? && v.up[k].outcome.Values? && Has(v.up[k].batch, i) ==> i in calls)
    && (v.pc.SendOutcome? && v.pc.outcome.Values? ==> forall i: nat :: Has(v.pc.batch, i) ==> i in calls)
  }

  // ----- error keys

  ghost predicate HasError<T, U>(v: View<T, U>) {
    exists k :: 0 <= k < |v.up| && v.up[k].Reply? && !v.up[k].outcome.Values?
  }

  /** The key was made for this rank, for an input index or the end of the input, and a callback key
      only for an index whose callback fails. */
  ghost predicate Made<T, U, E>(c: Config<T, U, E>, rank: nat, key: int, task: nat, class_: EK.Class) {
    && task <= |c.items| && key == EK.Raw(task, class_, rank, c.size)
    && (class_.Callback? ==> task < |c.items| && c.f(c.items[task]).Err?)
  }

  ghost predicate KeyFits<T, U, E>(c: Config<T, U, E>, rank: nat, key: Option<int>) {
    key.Some? ==> exists task, class_ :: Made(c, rank, key.value, task, class_)
  }

  ghost predicate SomeKey<T, U, E>(c: Config<T, U, E>, s: Sys<T, U>)
    requires |s.workers| == c.size
  {
    s.rootKey.Some? || exists w: nat :: c.Worker(w) && s.workers[w].key.Some?
  }

  // ----- the invariant, worker by worker and then for the root

  /** What depends on the worker and its lane alone. */
  ghost predicate WorkerGood<T, U, E>(c: Config<T, U, E>, w: nat, v: View<T, U>, key: Option<int>, lane: Lane) {
    && Shape(c.prefetch, v)
    && lane == LaneOf(v)
    && Honest(c, v)
    && KeyFits(c, w, key)
    && (HasError(v) ==> key.Some?)
  }

  ghost predicate WorkerOk<T, U, E>(c: Config<T, U, E>, s: Sys<T, U>, w: nat)
    requires |s.workers| == c.size && c.Worker(w)
  {
    var v := ViewOf(s, w);
    && w in s.sched.remotes
    && WorkerGood(c, w, v, s.workers[w].key, s.sched.remotes[w])
    && ValuesLogged(v, s.calls)
    && (s.workers[w].key.Some? ==> s.sched.failed || HasError(v))
  }

  ghost predicate RootOk<T, U, E>(c: Config<T, U, E>, s: Sys<T, U>)
    requires c.Valid() && |s.workers| == c.size
  {
    && s.fault.None?
    && s.sched.prefetch == c.prefetch && s.sched.batchSize == c.batchSize
    && |s.sched.ordered| == |c.items|
    && Genuine(c, s.sched.pending)
    && (s.job.Some? ==> Genuine(c, s.job.value.items) && s.sched.root == Running(MetaOf(s.job.value), None, false))
    && (s.job.None? ==> s.sched.root.Idle? || s.sched.root.Stopped?)
    && (forall i :: 0 <= i < |c.items| && s.sched.ordered[i].Some? ==> c.f(c.items[i]) == Ok(s.sched.ordered[i].value))
    && (forall i :: 0 <= i < |c.items| && s.sched.ordered[i].Some? ==> i in s.calls)
    && (s.outbox.Some? ==> c.Worker(s.outbox.value.0))
    && KeyFits(c, c.root, s.rootKey)
    && (s.rootKey.Some? ==> s.sched.failed)
    && s.workers[c.root] == Worker(Done, [], [], None, None)
  }

  ghost predicate CallsOk<T, U, E>(c: Config<T, U, E>, s: Sys<T, U>)
    requires |s.workers| == c.size
  {
    && Distinct(s.calls)
    && forall i: nat :: i in s.calls ==> i < |c.items| && !Waiting(c, s, i)
  }

  ghost predicate Inv<T, U, E>(c: Config<T, U, E>, s: Sys<T, U>) {
    && c.Valid() && |s.workers| == c.size
    && WellFormed(s.sched)
    && (forall r :: r in s.sched.remotes <==> c.Worker(r))
    && RootOk(c, s)
    && (forall w: nat {:trigger WorkerOk(c, s, w)} :: c.Worker(w) ==> WorkerOk(c, s, w))
    && CallsOk(c, s)
    && (s.sched.failed ==> SomeKey(c, s))
  }
}
