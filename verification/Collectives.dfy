/** Broadcast, scatter and gather: what every rank returns, on any mix of local failures. */
module Collectives {
  import opened Wrappers
  import opened Bytes
  import opened Texts
  import opened Placement
  import W = Wire

  function Encode<T(!new)>(env: Env<T>, value: T): Result<seq<byte>, Failure> {
    match env.enc(value)
    case Ok(bytes) => Ok(bytes)
    case Err(message) => Err(NewFailure(env.text, WireKind, message))
  }

  function FailureOf<R>(r: Result<R, Failure>): Option<Failure> { if r.Err? then Some(r.error) else None }

  function Failures<R>(results: seq<Result<R, Failure>>): seq<Option<Failure>> {
    seq(|results|, r requires 0 <= r < |results| => FailureOf(results[r]))
  }

  /** The failure a loop over the ranks records: the first one it meets. */
  function First(failures: seq<Option<Failure>>): Option<Failure> {
    match Lowest(failures)
    case Some(e) => Some(Failure(e.kind, e.message))
    case None => None
  }

  function AtRoot(n: nat, root: nat, failure: Option<Failure>): seq<Option<Failure>> {
    seq(n, r requires 0 <= r < n => if r == root then failure else None)
  }

  // ----- from the root to everybody

  /** What the root encodes for each rank; it keeps its own value as it is. */
  function Payloads<T(!new)>(env: Env<T>, root: nat, shards: seq<T>): seq<Result<seq<byte>, Failure>> {
    seq(|shards|, d requires 0 <= d < |shards| => if d == root then Ok([]) else Encode(env, shards[d]))
  }

  /** `preencode_scatter`. */
  method PreencodeScatter<T(!new)>(env: Env<T>, root: nat, shards: seq<T>) returns (encoded: seq<Option<seq<byte>>>, failure: Option<Failure>)
    requires root < |shards|
    ensures |encoded| == |shards| && failure == First(Failures(Payloads(env, root, shards)))
    ensures forall d :: 0 <= d < |shards| && d != root ==>
              encoded[d] == match Encode(env, shards[d]) case Ok(bytes) => Some(bytes) case Err(_) => None
  {
    encoded, failure := seq(|shards|, _ => None), None;
    ghost var all := Failures(Payloads(env, root, shards));
    for d := 0 to |shards|
      invariant |encoded| == |shards| && failure == First(all[..d])
      invariant forall k :: d <= k < |shards| ==> encoded[k].None?
      invariant forall k :: 0 <= k < d && k != root ==>
        encoded[k] == match Encode(env, shards[k]) case Ok(bytes) => Some(bytes) case Err(_) => None
    {
      assert all[..d + 1][..d] == all[..d];
      if d != root {
        var bytes := Encode(env, shards[d]);
        if bytes.Ok? {
          encoded := encoded[d := Some(bytes.value)];
        } else if failure.None? {
          failure := Some(bytes.error);
        }
      }
    }
    assert all[..|shards|] == all;
  }

  function Sendable(op: Op, payload: Result<seq<byte>, Failure>): bool { payload.Ok? && SendFrame(op, payload.value).Some? }

  /** The root sends each rank its frame, every rank decodes its own, and all converge. */
  function Deliver<T(!new)>(env: Env<T>, op: Op, root: nat, own: T, payloads: seq<Result<seq<byte>, Failure>>): Global<T> {
    var n := |payloads|;
    if exists d :: 0 <= d < n && d != root && !Sendable(op, payloads[d]) then Killed
    else
      var received := Received(env, op, root, own, payloads);
      Then(env.text, Failures(received), Return(received))
  }

  function Received<T(!new)>(env: Env<T>, op: Op, root: nat, own: T, payloads: seq<Result<seq<byte>, Failure>>): seq<Result<T, Failure>>
    requires forall d :: 0 <= d < |payloads| && d != root ==> Sendable(op, payloads[d])
  {
    seq(|payloads|, r requires 0 <= r < |payloads| && (r != root ==> Sendable(op, payloads[r])) =>
      if r == root then Ok(own) else Receive(env, r, op, SendFrame(op, payloads[r].value).value))
  }

  function Return<T>(received: seq<Result<T, Failure>>): Global<T> {
    if exists r :: 0 <= r < |received| && received[r].Err? then Killed
    else Finished(seq(|received|, r requires 0 <= r < |received| && received[r].Ok? => Got(One(received[r].value))))
  }

  /** Scatter after preflight. Broadcast is the same with one value for everybody. */
  function FromRoot<T(!new)>(env: Env<T>, op: Op, root: nat, shards: seq<T>): Global<T>
    requires root < |shards|
  {
    if |shards| == 1 then Finished([Got(One(shards[0]))])
    else
      var payloads := Payloads(env, root, shards);
      Then(env.text, AtRoot(|shards|, root, First(Failures(payloads))), Deliver(env, op, root, shards[root], payloads))
  }

  // ----- from everybody to the root

  /** The loop of `gather` at the root: it stores what decodes and records the first failure. */
  method CollectAtRoot<T(!new)>(root: nat, own: T, incoming: seq<Result<T, Failure>>) returns (gathered: seq<Option<T>>, failure: Option<Failure>)
    requires root < |incoming| && incoming[root] == Ok(own)
    ensures |gathered| == |incoming| && failure == First(Failures(incoming))
    ensures forall r :: 0 <= r < |incoming| ==> gathered[r] == if incoming[r].Ok? then Some(incoming[r].value) else None
  {
    gathered, failure := seq(|incoming|, _ => None)[root := Some(own)], None;
    ghost var all := Failures(incoming);
    for source := 0 to |incoming|
      invariant |gathered| == |incoming| && failure == First(all[..source])
      invariant forall r :: 0 <= r < |incoming| ==>
        gathered[r] == if (r < source || r == root) && incoming[r].Ok? then Some(incoming[r].value) else None
    {
      assert all[..source + 1][..source] == all[..source];
      if source != root {
        if incoming[source].Ok? {
          gathered := gathered[source := Some(incoming[source].value)];
        } else if failure.None? {
          failure := Some(incoming[source].error);
        }
      }
    }
    assert all[..|incoming|] == all;
  }

  function Incoming<T(!new)>(env: Env<T>, root: nat, values: seq<T>, payloads: seq<Result<seq<byte>, Failure>>): seq<Result<T, Failure>>
    requires |values| == |payloads|
    requires forall d :: 0 <= d < |payloads| && d != root ==> Sendable(Gather, payloads[d])
  {
    seq(|payloads|, r requires 0 <= r < |payloads| && (r != root ==> Sendable(Gather, payloads[r])) =>
      if r == root then Ok(values[r]) else Receive(env, root, Gather, SendFrame(Gather, payloads[r].value).value))
  }

  function Assemble<T>(root: nat, incoming: seq<Result<T, Failure>>): Global<T> {
    if exists r :: 0 <= r < |incoming| && incoming[r].Err? then Killed
    else
      var values := seq(|incoming|, r requires 0 <= r < |incoming| && incoming[r].Ok? => incoming[r].value);
      Finished(seq(|incoming|, r requires 0 <= r < |incoming| => Got(Many(if r == root then Some(values) else None))))
  }

  function ToRoot<T(!new)>(env: Env<T>, root: nat, values: seq<T>): Global<T>
    requires root < |values|
  {
    if |values| == 1 then Finished([Got(Many(Some([values[0]])))])
    else
      var payloads := Payloads(env, root, values);
      Then(env.text, Failures(payloads),
           if exists d :: 0 <= d < |values| && d != root && !Sendable(Gather, payloads[d]) then Killed
           else
             var incoming := Incoming(env, root, values, payloads);
             Then(env.text, AtRoot(|values|, root, First(Failures(incoming))), Assemble(root, incoming)))
  }

  // ----- whole collectives

  function Owns<T>(calls: seq<Call<T>>): Option<seq<T>> {
    if forall r :: 0 <= r < |calls| ==> calls[r].input.Gathering? then
      Some(seq(|calls|, r requires 0 <= r < |calls| && calls[r].input.Gathering? => calls[r].input.own))
    else None
  }

  function Body<T(!new)>(env: Env<T>, calls: seq<Call<T>>): Global<T>
    requires calls != []
  {
    var n, root := |calls|, calls[0].root;
    if root < 0 || root >= n then Killed
    else
      match calls[root].input
      case Broadcasting(value) => if value.None? then Killed else FromRoot(env, Broadcast, root, seq(n, _ => value.value))
      case Scattering(shards) => if shards.None? || |shards.value| != n then Killed else FromRoot(env, Scatter, root, shards.value)
      case Gathering(_) => if Owns(calls).None? then Killed else ToRoot(env, root, Owns(calls).value)
  }

  /** Every rank calls a collective, each with its own arguments. */
  function Run<T(!new)>(env: Env<T>, calls: seq<Call<T>>): Global<T>
    requires calls != []
  {
    Then(env.text, PreflightAll(env.text, calls), Body(env, calls))
  }

  // ----- the reference

  /** Failures of the values that have to be encoded. */
  function EncodeFailures<T(!new)>(env: Env<T>, root: nat, values: seq<T>): seq<Option<Failure>> {
    seq(|values|, r requires 0 <= r < |values| => if r == root then None else FailureOf(Encode(env, values[r])))
  }

  /** Failures of decoding them again, each at the rank that `at` names. */
  function DecodeFailures<T(!new)>(env: Env<T>, root: nat, values: seq<T>, atRoot: bool): seq<Option<Failure>> {
    seq(|values|, r requires 0 <= r < |values| =>
      if r == root || env.enc(values[r]).Err? then None
      else FailureOf(Decoded(env, if atRoot then root else r, env.enc(values[r]).value)))
  }

  function OrElse<T>(failures: seq<Option<Failure>>, next: Result<T, PlacementError>): Result<T, PlacementError> {
    match Lowest(failures) case Some(e) => Err(e) case None => next
  }

  function ExpectedFromRoot<T(!new)>(env: Env<T>, root: nat, shards: seq<T>): Result<seq<Output<T>>, PlacementError> {
    var n := |shards|;
    var values := Ok(seq(n, r requires 0 <= r < n => One(shards[r])));
    if n == 1 then values
    else OrElse(AtRoot(n, root, First(EncodeFailures(env, root, shards))),
                OrElse(DecodeFailures(env, root, shards, false), values))
  }

  function ExpectedToRoot<T(!new)>(env: Env<T>, root: nat, owns: seq<T>): Result<seq<Output<T>>, PlacementError> {
    var n := |owns|;
    var values := Ok(seq(n, r requires 0 <= r < n => Many(if r == root then Some(owns) else None)));
    if n == 1 then values
    else OrElse(EncodeFailures(env, root, owns),
                OrElse(AtRoot(n, root, First(DecodeFailures(env, root, owns, true))), values))
  }

  function Everyone<T>(n: nat, expected: Result<seq<Output<T>>, PlacementError>): Global<T> {
    match expected
    case Err(e) => Finished(Everywhere(n, Told(e)))
    case Ok(outputs) => Finished(seq(|outputs|, r requires 0 <= r < |outputs| => Got(outputs[r])))
  }

  // ----- proofs

  lemma {:induction false} FirstBounded(u: Utf8, failures: seq<Option<Failure>>)
    requires AllBounded(u, failures)
    ensures First(failures).Some? ==> Bounded(u, First(failures).value)
  {
    LowestExact(failures);
  }

  lemma EncodeBounded<T(!new)>(env: Env<T>, value: T)
    requires env.Good()
    ensures Encode(env, value).Err? ==> Bounded(env.text, Encode(env, value).error)
  {
    if env.enc(value).Err? { ShortenedIsLongestFit(env.text, env.enc(value).error); }
  }

  lemma DecodeBounded<T(!new)>(env: Env<T>, rank: nat, payload: seq<byte>)
    requires env.Good()
    ensures Decoded(env, rank, payload).Err? ==> Bounded(env.text, Decoded(env, rank, payload).error)
  {
    if env.dec(rank, payload).Err? { ShortenedIsLongestFit(env.text, env.dec(rank, payload).error); }
  }

  lemma PreflightBounded<T>(u: Utf8, calls: seq<Call<T>>)
    requires u.Good()
    ensures AllBounded(u, PreflightAll(u, calls))
  {
    forall r | 0 <= r < |calls| && PreflightAll(u, calls)[r].Some? ensures Bounded(u, PreflightAll(u, calls)[r].value) {
      ShortenedIsLongestFit(u, "placement operation mismatch");
      ShortenedIsLongestFit(u, "placement root mismatch");
      ShortenedIsLongestFit(u, "placement root is out of range");
      ShortenedIsLongestFit(u, "placement input shape is invalid");
      ShortenedIsLongestFit(u, "placement helper must run on the MPI main thread");
    }
  }

  lemma PayloadFailures<T(!new)>(env: Env<T>, root: nat, values: seq<T>)
    requires env.Good()
    ensures Failures(Payloads(env, root, values)) == EncodeFailures(env, root, values)
    ensures AllBounded(env.text, EncodeFailures(env, root, values))
  {
    forall r | 0 <= r < |values| && EncodeFailures(env, root, values)[r].Some?
      ensures Bounded(env.text, EncodeFailures(env, root, values)[r].value)
    {
      EncodeBounded(env, values[r]);
    }
  }

  /** When nothing failed to encode, every frame can be sent. */
  lemma AllSendable<T(!new)>(env: Env<T>, op: Op, root: nat, values: seq<T>)
    requires env.Good() && Lowest(EncodeFailures(env, root, values)).None?
    ensures forall d :: 0 <= d < |values| && d != root ==>
              env.enc(values[d]).Ok? && Payloads(env, root, values)[d] == Ok(env.enc(values[d]).value) && Sendable(op, Payloads(env, root, values)[d])
  {
    LowestExact(EncodeFailures(env, root, values));
    forall d | 0 <= d < |values| && d != root ensures env.enc(values[d]).Ok? && Sendable(op, Payloads(env, root, values)[d]) {
      assert EncodeFailures(env, root, values)[d].None?;
      FramesArrive(env, d, op, env.enc(values[d]).value);
    }
  }

  lemma DeliverExact<T(!new)>(env: Env<T>, op: Op, root: nat, shards: seq<T>)
    requires env.Good() && root < |shards| && Lowest(EncodeFailures(env, root, shards)).None?
    ensures Deliver(env, op, root, shards[root], Payloads(env, root, shards)) ==
            Everyone(|shards|, OrElse(DecodeFailures(env, root, shards, false), Ok(seq(|shards|, r requires 0 <= r < |shards| => One(shards[r])))))
  {
    var n, payloads, failures := |shards|, Payloads(env, root, shards), DecodeFailures(env, root, shards, false);
    AllSendable(env, op, root, shards);
    var received := Received(env, op, root, shards[root], payloads);
    forall r | 0 <= r < n
      ensures Failures(received)[r] == failures[r] && (failures[r].Some? ==> Bounded(env.text, failures[r].value))
      ensures failures[r].None? ==> received[r] == Ok(shards[r])
    {
      if r != root {
        FramesArrive(env, r, op, env.enc(shards[r]).value);
        DecodeBounded(env, r, env.enc(shards[r]).value);
      }
    }
    assert Failures(received) == failures;
    ThenExact(env.text, failures, Return(received));
    LowestExact(failures);
    if Lowest(failures).None? {
      assert forall r :: 0 <= r < n ==> received[r] == Ok(shards[r]);
      var outputs := seq(n, r requires 0 <= r < n => One(shards[r]));
      assert Return(received).outcomes == Everyone(n, Ok(outputs)).outcomes;
    }
  }

  lemma FromRootExact<T(!new)>(env: Env<T>, op: Op, root: nat, shards: seq<T>)
    requires env.Good() && root < |shards|
    ensures FromRoot(env, op, root, shards) == Everyone(|shards|, ExpectedFromRoot(env, root, shards))
  {
    var n := |shards|;
    if n > 1 {
      PayloadFailures(env, root, shards);
      var failures := EncodeFailures(env, root, shards);
      var locals := AtRoot(n, root, First(failures));
      FirstBounded(env.text, failures);
      ThenExact(env.text, locals, Deliver(env, op, root, shards[root], Payloads(env, root, shards)));
      LowestExact(locals);
      if Lowest(locals).None? {
        assert locals[root].None?;
        DeliverExact(env, op, root, shards);
      }
    }
  }

  lemma AssembleExact<T(!new)>(env: Env<T>, root: nat, values: seq<T>)
    requires env.Good() && root < |values| && Lowest(EncodeFailures(env, root, values)).None?
    requires forall d :: 0 <= d < |values| && d != root ==> Sendable(Gather, Payloads(env, root, values)[d])
    ensures var incoming := Incoming(env, root, values, Payloads(env, root, values));
            && Failures(incoming) == DecodeFailures(env, root, values, true)
            && AllBounded(env.text, Failures(incoming))
            && (Lowest(Failures(incoming)).None? ==>
                Assemble(root, incoming) ==
                Everyone(|values|, Ok(seq(|values|, r requires 0 <= r < |values| => Many(if r == root then Some(values) else None)))))
  {
    var n, payloads, failures := |values|, Payloads(env, root, values), DecodeFailures(env, root, values, true);
    AllSendable(env, Gather, root, values);
    var incoming := Incoming(env, root, values, payloads);
    forall r | 0 <= r < n
      ensures Failures(incoming)[r] == failures[r] && (failures[r].Some? ==> Bounded(env.text, failures[r].value))
      ensures failures[r].None? ==> incoming[r] == Ok(values[r])
    {
      if r != root {
        FramesArrive(env, root, Gather, env.enc(values[r]).value);
        DecodeBounded(env, root, env.enc(values[r]).value);
      }
    }
    assert Failures(incoming) == failures;
    LowestExact(failures);
    if Lowest(failures).None? {
      var all := seq(n, r requires 0 <= r < n && incoming[r].Ok? => incoming[r].value);
      assert all == values;
      var outputs := seq(n, r requires 0 <= r < n => Many(if r == root then Some(values) else None));
      assert Assemble(root, incoming).outcomes == Everyone(n, Ok(outputs)).outcomes;
    }
  }

  lemma ToRootExact<T(!new)>(env: Env<T>, root: nat, values: seq<T>)
    requires env.Good() && root < |values|
    ensures ToRoot(env, root, values) == Everyone(|values|, ExpectedToRoot(env, root, values))
  {
    var n := |values|;
    if n == 1 {
      assert values == [values[0]];
    } else {
      PayloadFailures(env, root, values);
      var payloads, failures := Payloads(env, root, values), EncodeFailures(env, root, values);
      var next: Global<T> :=
        if exists d :: 0 <= d < |values| && d != root && !Sendable(Gather, payloads[d]) then Killed
        else
          var incoming := Incoming(env, root, values, payloads);
          Then(env.text, AtRoot(|values|, root, First(Failures(incoming))), Assemble(root, incoming));
      ThenExact(env.text, failures, next);
      if Lowest(failures).None? {
        AllSendable(env, Gather, root, values);
        AssembleExact(env, root, values);
        var incoming := Incoming(env, root, values, payloads);
        var first := First(Failures(incoming));
        var locals := AtRoot(n, root, first);
        FirstBounded(env.text, Failures(incoming));
        ThenExact(env.text, locals, Assemble(root, incoming));
        LowestExact(locals);
        if Lowest(locals).None? { assert locals[root].None?; }
      }
    }
  }

  // ----- theorems

  /** What all ranks get, by the operation that they agree on. */
  ghost function Expected<T(!new)>(env: Env<T>, calls: seq<Call<T>>): Result<seq<Output<T>>, PlacementError>
    requires Matching(calls)
  {
    var n, root := |calls|, calls[0].root;
    assert ShapeFits(calls[root], root, n) && OpOf(calls[root].input) == OpOf(calls[0].input);
    match calls[root].input
    case Broadcasting(value) => ExpectedFromRoot(env, root, seq(n, _ => value.value))
    case Scattering(shards) => ExpectedFromRoot(env, root, shards.value)
    case Gathering(_) =>
      assert forall r :: 0 <= r < n ==> OpOf(calls[r].input) == Gather;
      ExpectedToRoot(env, root, Owns(calls).value)
  }

  /** Calls that do not match fail everywhere with the error of the lowest offending rank; matching calls give
      every rank what the reference says. */
  lemma RunExact<T(!new)>(env: Env<T>, calls: seq<Call<T>>)
    requires env.Good() && calls != []
    ensures Matching(calls) ==> Run(env, calls) == Everyone(|calls|, Expected(env, calls))
    ensures !Matching(calls) ==>
              && Lowest(PreflightAll(env.text, calls)).Some?
              && Run(env, calls) == Finished(Everywhere(|calls|, Told(Lowest(PreflightAll(env.text, calls)).value)))
  {
    PreflightExact(env.text, calls);
    PreflightBounded(env.text, calls);
    ThenExact(env.text, PreflightAll(env.text, calls), Body(env, calls));
    if Matching(calls) {
      var n, root := |calls|, calls[0].root;
      assert ShapeFits(calls[root], root, n) && OpOf(calls[root].input) == OpOf(calls[0].input);
      match calls[root].input
      case Broadcasting(value) => FromRootExact(env, Broadcast, root, seq(n, _ => value.value));
      case Scattering(shards) => FromRootExact(env, Scatter, root, shards.value);
      case Gathering(_) =>
        assert forall r :: 0 <= r < n ==> OpOf(calls[r].input) == Gather;
        ToRootExact(env, root, Owns(calls).value);
    }
  }

  predicate AllGot<T>(outcomes: seq<Outcome<T>>) {
    forall r :: 0 <= r < |outcomes| ==> outcomes[r].Got?
  }

  /** On any number of ranks, any arguments and any mix of failures: no rank hangs or aborts, and either all ranks
      succeed or all return the same error. */
  lemma RanksNeverDisagree<T(!new)>(env: Env<T>, calls: seq<Call<T>>)
    requires env.Good() && calls != []
    ensures Run(env, calls).Finished? && |Run(env, calls).outcomes| == |calls|
    ensures AllGot(Run(env, calls).outcomes) || exists e :: Run(env, calls).outcomes == Everywhere(|calls|, Told(e))
  {
    RunExact(env, calls);
    if Matching(calls) && Expected(env, calls).Ok? {
      var n, root := |calls|, calls[0].root;
      assert ShapeFits(calls[root], root, n);
    }
  }

  ghost predicate Scatters<T>(calls: seq<Call<T>>, root: nat, shards: seq<T>) {
    && |calls| == |shards| && root < |shards|
    && forall r :: 0 <= r < |calls| ==> calls[r] == Call(root, true, Scattering(if r == root then Some(shards) else None))
  }

  ghost predicate Gathers<T>(calls: seq<Call<T>>, root: nat, values: seq<T>) {
    && |calls| == |values| && root < |values|
    && forall r :: 0 <= r < |calls| ==> calls[r] == Call(root, true, Gathering(values[r]))
  }

  /** A scatter that succeeds gives rank `r` shard `r`. */
  lemma ScatterGivesShards<T(!new)>(env: Env<T>, calls: seq<Call<T>>, root: nat, shards: seq<T>)
    requires env.Good() && Scatters(calls, root, shards)
    ensures var run := Run(env, calls);
            && run.Finished? && |run.outcomes| == |shards|
            && (AllGot(run.outcomes) ==> forall r :: 0 <= r < |shards| ==> run.outcomes[r] == Got(One(shards[r])))
  {
    assert Matching(calls);
    RunExact(env, calls);
  }

  lemma GatherGivesList<T(!new)>(env: Env<T>, calls: seq<Call<T>>, root: nat, values: seq<T>)
    requires env.Good() && Gathers(calls, root, values)
    ensures var run := Run(env, calls);
            && run.Finished? && |run.outcomes| == |values|
            && (AllGot(run.outcomes) ==>
                forall r :: 0 <= r < |values| ==> run.outcomes[r] == Got(Many(if r == root then Some(values) else None)))
  {
    assert Matching(calls);
    RunExact(env, calls);
    assert Owns(calls).value == values;
  }

  /** Gathering what was scattered gives back the root's list. */
  lemma GatherUndoesScatter<T(!new)>(env: Env<T>, out: seq<Call<T>>, root: nat, shards: seq<T>, back: seq<Call<T>>, other: nat, values: seq<T>)
    requires env.Good() && Scatters(out, root, shards) && Gathers(back, other, values) && |values| == |shards|
    requires Run(env, out).Finished? && AllGot(Run(env, out).outcomes) && |Run(env, out).outcomes| == |shards|
    requires forall r :: 0 <= r < |shards| ==> Run(env, out).outcomes[r].output == One(values[r])
    ensures var run := Run(env, back);
            && run.Finished? && |run.outcomes| == |shards|
            && (AllGot(run.outcomes) ==> run.outcomes[other] == Got(Many(Some(shards))))
  {
    ScatterGivesShards(env, out, root, shards);
    assert values == shards;
    GatherGivesList(env, back, other, values);
  }

  /** A broadcast that succeeds gives every rank the root's value. */
  lemma BroadcastGivesValue<T(!new)>(env: Env<T>, calls: seq<Call<T>>, root: nat, value: T)
    requires env.Good() && root < |calls|
    requires forall r :: 0 <= r < |calls| ==> calls[r] == Call(root, true, Broadcasting(if r == root then Some(value) else None))
    ensures var run := Run(env, calls);
            && run.Finished? && |run.outcomes| == |calls|
            && (AllGot(run.outcomes) ==> forall r :: 0 <= r < |calls| ==> run.outcomes[r] == Got(One(value)))
  {
    assert Matching(calls);
    RunExact(env, calls);
  }
}
