/** The placement collectives of src/placement.rs, run by every rank of a communicator.

  Each rank runs its own code up to the next collective call, so the state of the system between two calls
  is one value per rank. A rank that leaves while another enters the next call would hang the system, and
  an abort kills it; both are outcomes here. Reductions and broadcasts give every rank the same value.
 */
module Placement {
  import opened Wrappers
  import opened Bytes
  import opened Texts
  import W = Wire

  datatype ErrorKind = Preflight | WireKind | Protocol

  datatype Failure = Failure(kind: ErrorKind, message: string)

  datatype PlacementError = PlacementError(kind: ErrorKind, rank: nat, message: string)

  /** What the ranks run with: the payload codec, which may fail differently on every rank, and UTF-8. */
  datatype Env<!T(!new)> = Env(enc: T -> Result<seq<byte>, string>, dec: (nat, seq<byte>) -> Result<T, string>, text: Utf8)
  {
    /** Decoding may fail, but what it yields is what was encoded; payloads respect the wire limit. */
    ghost predicate Good() {
      && text.Good()
      && (forall v :: enc(v).Ok? ==> |enc(v).value| <= W.MaxWireBytes)
      && (forall v, r, b :: enc(v) == Ok(b) && dec(r, b).Ok? ==> dec(r, b).value == v)
    }
  }

  /** `Failure::new` bounds its message. */
  function NewFailure(u: Utf8, kind: ErrorKind, message: string): Failure { Failure(kind, Shortened(u, message)) }

  predicate Bounded(u: Utf8, f: Failure) { |u.pack(f.message)| <= MaxErrorBytes }

  predicate AllBounded(u: Utf8, locals: seq<Option<Failure>>) {
    forall r :: 0 <= r < |locals| && locals[r].Some? ==> Bounded(u, locals[r].value)
  }

  // ----- convergence

  function Least(s: seq<int>): int
    requires s != []
  {
    if |s| == 1 then s[0]
    else
      var rest := Least(s[1..]);
      if s[0] < rest then s[0] else rest
  }

  function Greatest(s: seq<int>): int
    requires s != []
  {
    if |s| == 1 then s[0]
    else
      var rest := Greatest(s[1..]);
      if s[0] > rest then s[0] else rest
  }

  function Code(kind: ErrorKind): int { match kind case Preflight => 0 case WireKind => 1 case Protocol => 2 }

  function KindOf(code: int): Option<ErrorKind> {
    if code == 0 then Some(Preflight) else if code == 1 then Some(WireKind) else if code == 2 then Some(Protocol) else None
  }

  datatype Agreement = Clear | Fail(error: PlacementError) | Abort

  function Candidates(locals: seq<Option<Failure>>): seq<int> {
    seq(|locals|, r requires 0 <= r < |locals| => if locals[r].Some? then r else |locals|)
  }

  /** What one rank gets from `converge`; the broadcasts carry the variables of the winning rank. */
  function ConvergeAt(u: Utf8, locals: seq<Option<Failure>>, rank: nat): Agreement
    requires rank < |locals|
  {
    var winner := Least(Candidates(locals));
    if winner == |locals| then Clear
    else if winner < 0 || winner > |locals| then Abort
    else if rank == winner && locals[rank].None? then Abort
    else
      var sender := locals[winner];
      var kind := if sender.Some? then Code(sender.value.kind) else Code(Protocol);
      var bytes := if sender.Some? then u.pack(sender.value.message) else [];
      if |bytes| > MaxErrorBytes then Abort
      else
        match (KindOf(kind), u.unpack(bytes))
        case (Some(kind), Some(message)) => Fail(PlacementError(kind, winner, Shortened(u, message)))
        case _ => Abort
  }

  /** The lowest rank with a failure, told to everybody. */
  function Lowest(locals: seq<Option<Failure>>): Option<PlacementError> {
    if locals == [] then None
    else
      var front := Lowest(locals[..|locals| - 1]);
      if front.Some? then front
      else
        match locals[|locals| - 1]
        case Some(f) => Some(PlacementError(f.kind, |locals| - 1, f.message))
        case None => None
  }

  lemma {:induction false} LeastIsLeast(s: seq<int>)
    requires s != []
    ensures exists i :: 0 <= i < |s| && s[i] == Least(s)
    ensures forall i :: 0 <= i < |s| ==> Least(s) <= s[i]
  {
    if |s| > 1 {
      LeastIsLeast(s[1..]);
      assert forall i :: 1 <= i < |s| ==> s[i] == s[1..][i - 1];
      var i :| 0 <= i < |s[1..]| && s[1..][i] == Least(s[1..]);
      if s[0] < Least(s[1..]) { assert s[0] == Least(s); } else { assert s[i + 1] == Least(s); }
    } else {
      assert s[0] == Least(s);
    }
  }

  lemma {:induction false} GreatestIsGreatest(s: seq<int>)
    requires s != []
    ensures exists i :: 0 <= i < |s| && s[i] == Greatest(s)
    ensures forall i :: 0 <= i < |s| ==> s[i] <= Greatest(s)
  {
    if |s| > 1 {
      GreatestIsGreatest(s[1..]);
      assert forall i :: 1 <= i < |s| ==> s[i] == s[1..][i - 1];
      var i :| 0 <= i < |s[1..]| && s[1..][i] == Greatest(s[1..]);
      if s[0] > Greatest(s[1..]) { assert s[0] == Greatest(s); } else { assert s[i + 1] == Greatest(s); }
    } else {
      assert s[0] == Greatest(s);
    }
  }

  lemma {:induction false} LowestExact(locals: seq<Option<Failure>>)
    ensures Lowest(locals).None? <==> forall r :: 0 <= r < |locals| ==> locals[r].None?
    ensures Lowest(locals).Some? ==>
              var e := Lowest(locals).value;
              && e.rank < |locals| && locals[e.rank] == Some(Failure(e.kind, e.message))
              && forall r :: 0 <= r < e.rank ==> locals[r].None?
  {
    if locals != [] {
      var front := locals[..|locals| - 1];
      LowestExact(front);
      assert forall r :: 0 <= r < |front| ==> front[r] == locals[r];
    }
  }

  /** The reduction picks the lowest failing rank, or the size when there is none. */
  lemma WinnerIsLowest(locals: seq<Option<Failure>>)
    requires locals != []
    ensures Least(Candidates(locals)) == match Lowest(locals) case None => |locals| case Some(e) => e.rank
  {
    LowestExact(locals);
    var candidates := Candidates(locals);
    LeastIsLeast(candidates);
    var i :| 0 <= i < |candidates| && candidates[i] == Least(candidates);
    if Lowest(locals).Some? {
      var e := Lowest(locals).value;
      assert candidates[e.rank] == e.rank;
    }
  }

  /** Every rank gets the same answer: nothing when nobody failed, else the failure of the lowest failing rank.
      No abort branch is taken. */
  lemma ConvergeExact(u: Utf8, locals: seq<Option<Failure>>, rank: nat)
    requires u.Good() && rank < |locals| && AllBounded(u, locals)
    ensures ConvergeAt(u, locals, rank) == match Lowest(locals) case None => Clear case Some(e) => Fail(e)
  {
    WinnerIsLowest(locals);
    LowestExact(locals);
    if Lowest(locals).Some? {
      var e := Lowest(locals).value;
      assert Bounded(u, locals[e.rank].value);
      ShortenedIsLongestFit(u, e.message);
    }
  }

  // ----- the system of ranks

  datatype Output<T> = One(value: T) | Many(values: Option<seq<T>>)

  datatype Outcome<T> = Got(output: Output<T>) | Told(error: PlacementError)

  datatype Global<T> = Finished(outcomes: seq<Outcome<T>>) | Stuck | Killed

  function Agreements(u: Utf8, locals: seq<Option<Failure>>): seq<Agreement> {
    seq(|locals|, r requires 0 <= r < |locals| => ConvergeAt(u, locals, r))
  }

  /** All ranks converge; those that are told an error return it, the others go on to `next`. */
  function Then<T>(u: Utf8, locals: seq<Option<Failure>>, next: Global<T>): Global<T> {
    var a := Agreements(u, locals);
    if exists r :: 0 <= r < |a| && a[r].Abort? then Killed
    else if forall r :: 0 <= r < |a| ==> a[r].Clear? then next
    else if forall r :: 0 <= r < |a| ==> a[r].Fail? then
      Finished(seq(|a|, r requires 0 <= r < |a| && a[r].Fail? => Told(a[r].error)))
    else Stuck
  }

  /** Convergence is a common decision. */
  lemma ThenExact<T>(u: Utf8, locals: seq<Option<Failure>>, next: Global<T>)
    requires u.Good() && locals != [] && AllBounded(u, locals)
    ensures Then(u, locals, next) ==
            match Lowest(locals) case None => next case Some(e) => Finished(Everywhere(|locals|, Told(e)))
  {
    var a := Agreements(u, locals);
    forall r | 0 <= r < |a| ensures a[r] == match Lowest(locals) case None => Clear case Some(e) => Fail(e) {
      ConvergeExact(u, locals, r);
    }
    assert a[0] == ConvergeAt(u, locals, 0);
    if Lowest(locals).Some? {
      var e: PlacementError := Lowest(locals).value;
      assert Then(u, locals, next).outcomes == Everywhere(|locals|, Told(e));
    }
  }

  function Everywhere<T>(n: nat, outcome: Outcome<T>): seq<Outcome<T>> { seq(n, _ => outcome) }

  // ----- frames

  datatype Op = Broadcast | Scatter | Gather

  function MessageKind(op: Op): W.MessageKind {
    match op case Broadcast => W.Broadcast case Scatter => W.Scatter case Gather => W.Gather
  }

  datatype Frame = Frame(header: seq<byte>, payload: seq<byte>)

  /** `send_frame`; no frame means an abort. */
  function SendFrame(op: Op, payload: seq<byte>): Option<Frame> {
    match W.New(MessageKind(op), W.NoStatus, 0, 1, |payload|)
    case Err(_) => None
    case Ok(header) => Some(Frame(W.Encode(header), payload))
  }

  /** `decode_received`. */
  function Receive<T(!new)>(env: Env<T>, rank: nat, op: Op, frame: Frame): Result<T, Failure> {
    match W.Decode(frame.header)
    case Err(_) => Err(NewFailure(env.text, WireKind, "header"))
    case Ok(h) =>
      if h.kind != MessageKind(op) || h.status != W.NoStatus || h.batch != 0 || h.items != 1 then
        Err(NewFailure(env.text, Protocol, "invalid placement frame schema"))
      else if |frame.payload| != h.payload then
        Err(NewFailure(env.text, Protocol, "placement payload length does not match its header"))
      else
        match env.dec(rank, frame.payload)
        case Err(message) => Err(NewFailure(env.text, WireKind, message))
        case Ok(value) => Ok(value)
  }

  function Decoded<T(!new)>(env: Env<T>, rank: nat, payload: seq<byte>): Result<T, Failure> {
    match env.dec(rank, payload)
    case Err(message) => Err(NewFailure(env.text, WireKind, message))
    case Ok(value) => Ok(value)
  }

  /** A frame that was sent fails at the receiver only when its payload does not decode there. */
  lemma FramesArrive<T(!new)>(env: Env<T>, rank: nat, op: Op, payload: seq<byte>)
    requires |payload| <= W.MaxWireBytes
    ensures SendFrame(op, payload).Some?
    ensures Receive(env, rank, op, SendFrame(op, payload).value) == Decoded(env, rank, payload)
  {
    var h := W.New(MessageKind(op), W.NoStatus, 0, 1, |payload|).value;
    W.HeaderRoundTrip(h);
  }

  // ----- preflight

  datatype Input<T> = Broadcasting(value: Option<T>) | Scattering(shards: Option<seq<T>>) | Gathering(own: T)

  datatype Call<T> = Call(root: int, mainThread: bool, input: Input<T>)

  function OpOf<T>(input: Input<T>): Op {
    match input case Broadcasting(_) => Broadcast case Scattering(_) => Scatter case Gathering(_) => Gather
  }

  function OpCode(op: Op): int { match op case Broadcast => 0 case Scatter => 1 case Gather => 2 }

  /** Only the root supplies the input of a broadcast or a scatter, with one shard per rank. */
  predicate ShapeFits<T>(call: Call<T>, rank: nat, size: nat) {
    match call.input
    case Broadcasting(value) => (rank == call.root) == value.Some?
    case Scattering(shards) => (rank == call.root) == shards.Some? && (shards.Some? ==> |shards.value| == size)
    case Gathering(_) => true
  }

  function OpCodes<T>(calls: seq<Call<T>>): seq<int> {
    seq(|calls|, r requires 0 <= r < |calls| => OpCode(OpOf(calls[r].input)))
  }

  function Roots<T>(calls: seq<Call<T>>): seq<int> {
    seq(|calls|, r requires 0 <= r < |calls| => calls[r].root)
  }

  function PreflightAt<T>(u: Utf8, calls: seq<Call<T>>, rank: nat): Option<Failure>
    requires rank < |calls|
  {
    var call := calls[rank];
    if Least(OpCodes(calls)) != Greatest(OpCodes(calls)) then Some(NewFailure(u, Preflight, "placement operation mismatch"))
    else if Least(Roots(calls)) != Greatest(Roots(calls)) then Some(NewFailure(u, Preflight, "placement root mismatch"))
    else if call.root < 0 || call.root >= |calls| then Some(NewFailure(u, Preflight, "placement root is out of range"))
    else if !ShapeFits(call, rank, |calls|) then Some(NewFailure(u, Preflight, "placement input shape is invalid"))
    else if !call.mainThread then Some(NewFailure(u, Preflight, "placement helper must run on the MPI main thread"))
    else None
  }

  function PreflightAll<T>(u: Utf8, calls: seq<Call<T>>): seq<Option<Failure>> {
    seq(|calls|, r requires 0 <= r < |calls| => PreflightAt(u, calls, r))
  }

  /** The calls of one collective: the same operation and root everywhere, and inputs of the right shape. */
  ghost predicate Matching<T>(calls: seq<Call<T>>) {
    && calls != [] && 0 <= calls[0].root < |calls|
    && forall r :: 0 <= r < |calls| ==>
         && OpOf(calls[r].input) == OpOf(calls[0].input) && calls[r].root == calls[0].root
         && ShapeFits(calls[r], r, |calls|) && calls[r].mainThread
  }

  lemma SameEverywhere(s: seq<int>)
    requires s != []
    ensures Least(s) == Greatest(s) <==> forall r :: 0 <= r < |s| ==> s[r] == s[0]
  {
    LeastIsLeast(s);
    GreatestIsGreatest(s);
  }

  /** Preflight passes exactly when the calls match. */
  lemma PreflightExact<T>(u: Utf8, calls: seq<Call<T>>)
    requires calls != []
    ensures Lowest(PreflightAll(u, calls)).None? <==> Matching(calls)
  {
    SameEverywhere(OpCodes(calls));
    SameEverywhere(Roots(calls));
    LowestExact(PreflightAll(u, calls));
    if Lowest(PreflightAll(u, calls)).None? {
      forall r | 0 <= r < |calls|
        ensures OpOf(calls[r].input) == OpOf(calls[0].input) && calls[r].root == calls[0].root
        ensures ShapeFits(calls[r], r, |calls|) && calls[r].mainThread
      {
        assert PreflightAll(u, calls)[r].None? && PreflightAll(u, calls)[0].None?;
        assert OpCodes(calls)[r] == OpCodes(calls)[0] && Roots(calls)[r] == Roots(calls)[0];
      }
      assert PreflightAll(u, calls)[0].None?;
    }
    if Matching(calls) {
      assert forall r :: 0 <= r < |calls| ==> OpCodes(calls)[r] == OpCodes(calls)[0] && Roots(calls)[r] == Roots(calls)[0];
    }
  }
}
