/** The collective `pmap` of src/pmap.rs as one global step system.

  One root drives the coordinator; each other rank runs a worker loop. Every pair (root, worker) has
  a first-in first-out channel each way (non-overtaking, section 3.5 of MPI 4.0); a frame's header
  and payload travel as one message. `prefetch` selects hybrid_worker_loop_prefetch, otherwise the
  worker runs worker_loop / hybrid_worker_loop_no_prefetch, which exchange the same messages.

  An action is one step of one rank. `ok == false` in a receive means the payload did not decode.
  Messages carry the batch they answer; the root reads only its id and the outcome.
 */
module Pmap {
  import opened Wrappers
  import opened Scheduler
  import opened SerialMap
  import EK = ErrorKeys

  datatype Config<!T, !U, !E> = Config(
    items: seq<T>,
    f: T -> Result<U, E>,
    size: nat,
    root: nat,
    batchSize: nat,
    prefetch: bool,
    mode: LocalMode)
  {
    /** What a successful preflight establishes, and that no error key overflows. */
    predicate Valid() {
      && root < size && batchSize > 0
      && |items| <= U64_MAX
      && EK.Raw(|items|, EK.DrainFault, size - 1, size) < EK.NO_ERROR_KEY
    }

    predicate Worker(w: int) {
      0 <= w < size && w != root
    }
  }

  // ----- running one batch

  datatype Outcome<U> =
    | Values(results: seq<ItemResult<U>>)
    | CallbackError(index: nat)
    | WireError(index: nat)

  function ValuesOf<T>(batch: Batch<T>): (r: seq<T>)
    ensures |r| == |batch.items|
  {
    seq(|batch.items|, k requires 0 <= k < |batch.items| => batch.items[k].value)
  }

  function Evaluate<T, U, E>(c: Config<T, U, E>, batch: Batch<T>): Outcome<U> {
    match RunLocal(c.mode, ValuesOf(batch), c.f)
    case Ok(values) =>
      Values(seq(Min(|values|, |batch.items|), k requires 0 <= k < Min(|values|, |batch.items|) =>
        ItemResult(batch.items[k].index, values[k])))
    case Err(e) => CallbackError(if e.index < |batch.items| then batch.items[e.index].index else 0)
  }

  /** The indices whose callback runs when the batch is evaluated, in order. */
  function Calls<T, U, E>(c: Config<T, U, E>, batch: Batch<T>): seq<nat> {
    MetaOf(batch).indices[..Min(|batch.items|, Evaluated(c.mode, ValuesOf(batch), c.f))]
  }

  // ----- state

  /** What a worker does after it has sent the current outcome. */
  datatype Next<T> = Loop | Work(batch: Batch<T>) | Bad(batch: Batch<T>) | Halt

  datatype Pc<T, U> =
    | SendReady(cur: Option<Batch<T>>)
    | Wait(cur: Option<Batch<T>>)
    | Held(batch: Batch<T>, next: Next<T>)
    | SendOutcome(batch: Batch<T>, outcome: Outcome<U>, next: Next<T>)
    | SendDrain
    | Done

  datatype Up<T, U> = Ready | Reply(batch: Batch<T>, outcome: Outcome<U>) | Drain

  /** The kind of an error and where its message comes from: the callback on an item, or a payload that did
      not decode, under the task number of its key. */
  datatype LocalError = UserError(index: nat) | WireFailure(task: nat)

  datatype Worker<T, U> = Worker(
    pc: Pc<T, U>,
    up: seq<Up<T, U>>,
    down: seq<Dispatch<T>>,
    key: Option<int>,
    error: Option<LocalError>)

  datatype Sys<T, U> = Sys(
    sched: State<T, U>,
    workers: seq<Worker<T, U>>,
    job: Option<Batch<T>>,
    outbox: Option<(nat, Dispatch<T>)>,
    rootKey: Option<int>,
    rootError: Option<LocalError>,
    calls: seq<nat>,
    fault: Option<Error>)

  function Start<T, U, E>(c: Config<T, U, E>): Sys<T, U>
    requires c.Valid()
  {
    Sys(Initial((set w | 0 <= w < c.size && c.Worker(w)), c.items, c.batchSize, c.prefetch),
        seq(c.size, w => Worker(if w == c.root then Done else SendReady(None), [], [], None, None)),
        None, None, None, None, [], None)
  }

  // ----- error keys

  function Keep(old_: Option<int>, key: int): (r: Option<int>)
    ensures r.Some? && r.value <= key && (r.value == key || old_ == r)
  {
    if old_.Some? && old_.value <= key then old_ else Some(key)
  }

  function ErrorOf<U>(outcome: Outcome<U>): LocalError
    requires !outcome.Values?
  {
    match outcome
    case CallbackError(index) => UserError(index)
    case WireError(index) => WireFailure(index)
  }

  /** A worker's loop records the error of an outcome with its key. With prefetch the message is replaced only
      when the key gets smaller; without, always. */
  function KeepError<T, U, E>(c: Config<T, U, E>, me: Worker<T, U>, key: int, error: LocalError): Option<LocalError> {
    if c.prefetch && me.key.Some? && me.key.value <= key then me.error else Some(error)
  }

  function KeyOf<T, U, E>(c: Config<T, U, E>, rank: nat, outcome: Outcome<U>): int
    requires !outcome.Values?
  {
    match outcome
    case CallbackError(index) => EK.Raw(index, EK.Callback, rank, c.size)
    case WireError(index) => EK.Raw(index, EK.WireProtocol, rank, c.size)
  }

  // ----- actions

  datatype Action =
    | WorkerSend(w: nat)
    | WorkerRecv(w: nat, ok: bool)
    | WorkerEval(w: nat)
    | RootRecv(w: nat, ok: bool)
    | RootSend
    | RootStart
    | RootFinish

  predicate Enabled<T, U, E>(c: Config<T, U, E>, s: Sys<T, U>, a: Action)
    requires |s.workers| == c.size
  {
    match a
    case WorkerSend(w) =>
      c.Worker(w) && (s.workers[w].pc.SendReady? || s.workers[w].pc.SendOutcome? || s.workers[w].pc.SendDrain?)
    case WorkerRecv(w, _) => c.Worker(w) && s.workers[w].pc.Wait? && s.workers[w].down != []
    case WorkerEval(w) => c.Worker(w) && s.workers[w].pc.Held?
    case RootRecv(w, _) => c.Worker(w) && s.outbox.None? && s.workers[w].up != []
    case RootSend => s.outbox.Some? && s.outbox.value.0 < c.size
    case RootStart => s.outbox.None? && s.job.None? && !s.sched.root.Stopped?
    case RootFinish => s.outbox.None? && s.job.Some?
  }

  /** A worker hands its pending message to the channel. */
  function Send<T, U, E>(c: Config<T, U, E>, w: nat, me: Worker<T, U>): Worker<T, U> {
    match me.pc
    case SendReady(cur) => me.(up := me.up + [Ready], pc := Wait(cur))
    case SendOutcome(batch, outcome, next) =>
      var key := if outcome.Values? then me.key else Keep(me.key, KeyOf(c, w, outcome));
      var error := if outcome.Values? then me.error else KeepError(c, me, KeyOf(c, w, outcome), ErrorOf(outcome));
      var pc := match next
        case Loop => SendReady(None)
        case Work(b) => SendReady(Some(b))
        case Bad(b) => SendOutcome(b, WireError(|b.items|), Loop)
        case Halt => SendDrain;
      me.(up := me.up + [Reply(batch, outcome)], pc := pc, key := key, error := error)
    case SendDrain => me.(up := me.up + [Drain], pc := Done)
    case _ => me
  }

  /** A waiting worker takes the root's answer. */
  function Receive<T, U, E>(c: Config<T, U, E>, me: Worker<T, U>, ok: bool): Worker<T, U>
    requires me.pc.Wait? && me.down != []
  {
    var pc := match me.down[0]
      case Stop => if me.pc.cur.None? then SendDrain else Held(me.pc.cur.value, Halt)
      case Task(b) =>
        if me.pc.cur.None? then
          if !ok then SendOutcome(b, WireError(|b.items|), Loop)
          else if c.prefetch then SendReady(Some(b))
          else Held(b, Loop)
        else Held(me.pc.cur.value, if ok then Work(b) else Bad(b));
    me.(pc := pc, down := me.down[1..])
  }

  function SetWorker<T, U>(s: Sys<T, U>, w: nat, me: Worker<T, U>): Sys<T, U>
    requires w < |s.workers|
  {
    s.(workers := s.workers[w := me])
  }

  /** The coordinator call failed: the root aborts. */
  function Abort<T, U>(s: Sys<T, U>, r: Result<(), Error>): Sys<T, U> {
    if r.Err? then s.(fault := Some(r.error)) else s
  }

  /** The root handles one message; cf. process_remote_header. */
  function Handle<T, U, E>(c: Config<T, U, E>, s: Sys<T, U>, w: nat, message: Up<T, U>, ok: bool): Sys<T, U> {
    match message
    case Ready =>
      var (sched, r) := OnRemoteReady(s.sched, w);
      if r.Err? then s.(fault := Some(r.error)) else s.(sched := sched, outbox := Some((w, r.value)))
    case Drain =>
      var (sched, r) := OnRemoteDrain(s.sched, w);
      Abort(s.(sched := sched), r)
    case Reply(batch, outcome) =>
      if !ok then
        var (sched, r) := OnRemoteProtocolError(s.sched, w);
        Abort(s.(sched := sched, rootKey := Keep(s.rootKey, EK.Raw(|c.items|, EK.WireProtocol, c.root, c.size)),
                 rootError := Some(WireFailure(|c.items|))), r)
      else if outcome.Values? then
        var (sched, r) := OnRemoteSuccess(s.sched, w, batch.id, outcome.results);
        Abort(s.(sched := sched), r)
      else
        var (sched, r) := OnRemoteError(s.sched, w, batch.id);
        Abort(s.(sched := sched), r)
  }

  /** The root's own batch is done. */
  function Finish<T, U, E>(c: Config<T, U, E>, s: Sys<T, U>): Sys<T, U>
    requires s.job.Some?
  {
    var batch := s.job.value;
    var s1 := s.(job := None, calls := s.calls + Calls(c, batch));
    match Evaluate(c, batch)
    case Values(results) =>
      var (sched, r) := OnRootSuccess(s.sched, batch.id, results);
      Abort(s1.(sched := sched), r)
    case outcome =>
      var (sched, r) := OnRootError(s.sched, batch.id);
      Abort(s1.(sched := sched, rootKey := Keep(s.rootKey, KeyOf(c, c.root, outcome)), rootError := Some(ErrorOf(outcome))), r)
  }

  function DoSend<T, U, E>(c: Config<T, U, E>, s: Sys<T, U>, w: nat): (t: Sys<T, U>)
    requires w < |s.workers|
  {
    SetWorker(s, w, Send(c, w, s.workers[w]))
  }

  function DoRecv<T, U, E>(c: Config<T, U, E>, s: Sys<T, U>, w: nat, ok: bool): (t: Sys<T, U>)
    requires w < |s.workers| && s.workers[w].pc.Wait? && s.workers[w].down != []
  {
    SetWorker(s, w, Receive(c, s.workers[w], ok))
  }

  function DoEval<T, U, E>(c: Config<T, U, E>, s: Sys<T, U>, w: nat): (t: Sys<T, U>)
    requires w < |s.workers| && s.workers[w].pc.Held?
  {
    var pc := s.workers[w].pc;
    SetWorker(s, w, s.workers[w].(pc := SendOutcome(pc.batch, Evaluate(c, pc.batch), pc.next)))
      .(calls := s.calls + Calls(c, pc.batch))
  }

  function DoRootRecv<T, U, E>(c: Config<T, U, E>, s: Sys<T, U>, w: nat, ok: bool): (t: Sys<T, U>)
    requires w < |s.workers| && s.workers[w].up != []
  {
    var me := s.workers[w];
    Handle(c, SetWorker(s, w, me.(up := me.up[1..])), w, me.up[0], ok)
  }

  function DoRootSend<T, U>(s: Sys<T, U>): (t: Sys<T, U>)
    requires s.outbox.Some? && s.outbox.value.0 < |s.workers|
  {
    var (w, message) := s.outbox.value;
    SetWorker(s, w, s.workers[w].(down := s.workers[w].down + [message])).(outbox := None)
  }

  function DoRootStart<T, U>(s: Sys<T, U>): (t: Sys<T, U>) {
    var (sched, r) := NextRootBatch(s.sched);
    if r.Err? then s.(fault := Some(r.error)) else s.(sched := sched, job := r.value)
  }

  function Step<T, U, E>(c: Config<T, U, E>, s: Sys<T, U>, a: Action): (t: Sys<T, U>)
    requires |s.workers| == c.size && Enabled(c, s, a)
    ensures |t.workers| == c.size
  {
    match a
    case WorkerSend(w) => DoSend(c, s, w)
    case WorkerRecv(w, ok) => DoRecv(c, s, w, ok)
    case WorkerEval(w) => DoEval(c, s, w)
    case RootRecv(w, ok) => DoRootRecv(c, s, w, ok)
    case RootSend => DoRootSend(s)
    case RootStart => DoRootStart(s)
    case RootFinish => Finish(c, s)
  }

  // ----- runs

  /** The states a run passes through, one action at a time. */
  ghost predicate Run<T, U, E>(c: Config<T, U, E>, actions: seq<Action>, states: seq<Sys<T, U>>) {
    && c.Valid()
    && |states| == |actions| + 1
    && states[0] == Start(c)
    && (forall k :: 0 <= k < |states| ==> |states[k].workers| == c.size)
    && forall k :: 0 <= k < |actions| ==>
         Enabled(c, states[k], actions[k]) && states[k + 1] == Step(c, states[k], actions[k])
  }

  /** Every rank has left its loop: workers are done and the root sees the coordinator finished. */
  predicate Over<T, U, E>(c: Config<T, U, E>, s: Sys<T, U>)
    requires |s.workers| == c.size
  {
    && s.job.None? && s.outbox.None? && Finished(s.sched) && Quiescent(s.sched)
    && forall w :: 0 <= w < c.size ==> s.workers[w].pc.Done? && s.workers[w].up == [] && s.workers[w].down == []
  }
}
