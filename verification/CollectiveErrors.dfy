/** When the collectives succeed, and which error of which rank everybody is told when they do not. */
module CollectiveErrors {
  import opened Wrappers
  import opened Bytes
  import opened Texts
  import opened Placement
  import opened Collectives
  import W = Wire

  // ----- frames

  /** Only a frame that was sent for the same operation is received; a header that is none is a wire failure, and one of
      another message, or of another length than the payload, a protocol failure. */
  lemma OnlySentFramesArrive<T(!new)>(env: Env<T>, rank: nat, op: Op, frame: Frame)
    ensures match Receive(env, rank, op, frame)
            case Ok(value) => SendFrame(op, frame.payload) == Some(frame) && env.dec(rank, frame.payload) == Ok(value)
            case Err(failure) =>
              if W.Decode(frame.header).Err? then failure.kind == WireKind
              else if SendFrame(op, frame.payload) != Some(frame) then failure.kind == Protocol
              else env.dec(rank, frame.payload).Err? && failure == Failure(WireKind, Shortened(env.text, env.dec(rank, frame.payload).error))
  {
    if W.Decode(frame.header).Ok? { SentHeader(op, frame); }
  }

  /** A frame was sent for the operation exactly when its header says so. */
  lemma SentHeader(op: Op, frame: Frame)
    requires W.Decode(frame.header).Ok?
    ensures SendFrame(op, frame.payload) == Some(frame) <==>
            W.Decode(frame.header).value == W.Header(MessageKind(op), W.NoStatus, 0, 1, |frame.payload|)
  {
    var h := W.Decode(frame.header).value;
    W.HeadersAreCanonical(frame.header);
    var sent := W.New(MessageKind(op), W.NoStatus, 0, 1, |frame.payload|);
    if sent.Ok? { W.HeaderRoundTrip(sent.value); }
    assert h.payload <= W.MaxWireBytes;
  }

  // ----- calls that do not match

  /** What is wrong with the call of rank `r`, told by all calls: that not all make the same operation, or name the same
      root, or that the root does not exist is wrong with every call; the shape of the input and the thread are its own. */
  ghost function Complaint<T>(calls: seq<Call<T>>, r: nat): Option<string>
    requires r < |calls|
  {
    if exists q :: 0 <= q < |calls| && OpOf(calls[q].input) != OpOf(calls[0].input) then Some("placement operation mismatch")
    else if exists q :: 0 <= q < |calls| && calls[q].root != calls[0].root then Some("placement root mismatch")
    else if calls[0].root < 0 || calls[0].root >= |calls| then Some("placement root is out of range")
    else if !ShapeFits(calls[r], r, |calls|) then Some("placement input shape is invalid")
    else if !calls[r].mainThread then Some("placement helper must run on the MPI main thread")
    else None
  }

  lemma PreflightComplains<T>(u: Utf8, calls: seq<Call<T>>, r: nat)
    requires r < |calls|
    ensures PreflightAll(u, calls)[r] ==
            match Complaint(calls, r) case None => None case Some(message) => Some(Failure(Preflight, Shortened(u, message)))
  {
    SameEverywhere(OpCodes(calls));
    SameEverywhere(Roots(calls));
    assert forall q :: 0 <= q < |calls| ==>
      OpCodes(calls)[q] == OpCode(OpOf(calls[q].input)) && Roots(calls)[q] == calls[q].root;
    assert forall q :: 0 <= q < |calls| ==> (OpCodes(calls)[q] == OpCodes(calls)[0] <==> OpOf(calls[q].input) == OpOf(calls[0].input));
  }

  /** Calls that do not match: everybody is told what is wrong with the call of the lowest rank that makes a wrong one, in
      the name of that rank. */
  lemma MismatchIsNamed<T(!new)>(env: Env<T>, calls: seq<Call<T>>) returns (r: nat)
    requires env.Good() && calls != [] && !Matching(calls)
    ensures r < |calls| && Complaint(calls, r).Some? && forall q: nat :: q < r ==> Complaint(calls, q).None?
    ensures Run(env, calls) ==
            Finished(Everywhere(|calls|, Told(PlacementError(Preflight, r, Shortened(env.text, Complaint(calls, r).value)))))
  {
    RunExact(env, calls);
    var locals := PreflightAll(env.text, calls);
    LowestExact(locals);
    r := Lowest(locals).value.rank;
    forall q: nat | q < |calls|
      ensures locals[q] == match Complaint(calls, q) case None => None case Some(message) => Some(Failure(Preflight, Shortened(env.text, message)))
    {
      PreflightComplains(env.text, calls, q);
    }
  }

  // ----- payloads that do not encode or decode

  /** Rank `r` has a payload that does not encode. */
  ghost predicate EncodeFails<T(!new)>(env: Env<T>, root: nat, values: seq<T>, r: nat) {
    r < |values| && r != root && env.enc(values[r]).Err?
  }

  /** The payload of rank `r` does not decode where it goes: at `r` itself, or at the root. */
  ghost predicate DecodeFails<T(!new)>(env: Env<T>, root: nat, values: seq<T>, r: nat, atRoot: bool) {
    r < |values| && r != root && env.enc(values[r]).Ok? && env.dec(if atRoot then root else r, env.enc(values[r]).value).Err?
  }

  lemma EncodeFailuresAre<T(!new)>(env: Env<T>, root: nat, values: seq<T>)
    ensures match Lowest(EncodeFailures(env, root, values))
            case None => forall r: nat :: !EncodeFails(env, root, values, r)
            case Some(e) =>
              && EncodeFails(env, root, values, e.rank) && (forall q: nat :: q < e.rank ==> !EncodeFails(env, root, values, q))
              && e.kind == WireKind && e.message == Shortened(env.text, env.enc(values[e.rank]).error)
  {
    LowestExact(EncodeFailures(env, root, values));
    forall r: nat | r < |values| ensures EncodeFails(env, root, values, r) <==> EncodeFailures(env, root, values)[r].Some? { }
  }

  lemma DecodeFailuresAre<T(!new)>(env: Env<T>, root: nat, values: seq<T>, atRoot: bool)
    ensures match Lowest(DecodeFailures(env, root, values, atRoot))
            case None => forall r: nat :: !DecodeFails(env, root, values, r, atRoot)
            case Some(e) =>
              && DecodeFails(env, root, values, e.rank, atRoot) && (forall q: nat :: q < e.rank ==> !DecodeFails(env, root, values, q, atRoot))
              && e.kind == WireKind
              && e.message == Shortened(env.text, env.dec(if atRoot then root else e.rank, env.enc(values[e.rank]).value).error)
  {
    LowestExact(DecodeFailures(env, root, values, atRoot));
    forall r: nat | r < |values| ensures DecodeFails(env, root, values, r, atRoot) <==> DecodeFailures(env, root, values, atRoot)[r].Some? { }
  }

  /** Everybody is told this error. */
  ghost predicate AllTold<T>(run: Global<T>, n: nat, kind: ErrorKind, rank: nat, message: string) {
    run == Finished(Everywhere(n, Told(PlacementError(kind, rank, message))))
  }

  ghost predicate NoneFails<T(!new)>(env: Env<T>, root: nat, values: seq<T>, atRoot: bool) {
    forall r: nat :: !EncodeFails(env, root, values, r) && !DecodeFails(env, root, values, r, atRoot)
  }

  ghost predicate FirstEncodeFails<T(!new)>(env: Env<T>, root: nat, values: seq<T>, r: nat) {
    EncodeFails(env, root, values, r) && forall q: nat :: q < r ==> !EncodeFails(env, root, values, q)
  }

  /** Every payload encodes, and that of rank `r` is the first that does not decode. */
  ghost predicate FirstDecodeFails<T(!new)>(env: Env<T>, root: nat, values: seq<T>, r: nat, atRoot: bool) {
    && (forall q: nat :: !EncodeFails(env, root, values, q))
    && DecodeFails(env, root, values, r, atRoot) && forall q: nat :: q < r ==> !DecodeFails(env, root, values, q, atRoot)
  }

  /** What comes of handing the shards out from the root: rank `r` gets shard `r` exactly when there is one rank or every
      payload encodes and then decodes where it goes. Otherwise everybody is told a wire failure: that of the first shard
      that does not encode, in the root's name, or else that of the lowest rank where its shard does not decode. */
  ghost predicate ShardsCome<T(!new)>(env: Env<T>, root: nat, shards: seq<T>, run: Global<T>, r: nat) {
    var n := |shards|;
    if n == 1 || NoneFails(env, root, shards, false)
    then run.Finished? && |run.outcomes| == n && forall q :: 0 <= q < n ==> run.outcomes[q] == Got(One(shards[q]))
    else
      || (FirstEncodeFails(env, root, shards, r) && AllTold(run, n, WireKind, root, Shortened(env.text, env.enc(shards[r]).error)))
      || (FirstDecodeFails(env, root, shards, r, false)
          && AllTold(run, n, WireKind, r, Shortened(env.text, env.dec(r, env.enc(shards[r]).value).error)))
  }

  /** What comes of bringing the values to the root: it gets them all, in rank order, exactly when there is one rank or every
      payload encodes and then decodes at the root. Otherwise everybody is told a wire failure: that of the lowest rank whose
      value does not encode, in its own name, or else that of the first that does not decode, in the root's name. */
  ghost predicate ValuesCome<T(!new)>(env: Env<T>, root: nat, values: seq<T>, run: Global<T>, r: nat) {
    var n := |values|;
    if n == 1 || NoneFails(env, root, values, true)
    then run.Finished? && |run.outcomes| == n && forall q :: 0 <= q < n ==> run.outcomes[q] == Got(Many(if q == root then Some(values) else None))
    else
      || (FirstEncodeFails(env, root, values, r) && AllTold(run, n, WireKind, r, Shortened(env.text, env.enc(values[r]).error)))
      || (FirstDecodeFails(env, root, values, r, true)
          && AllTold(run, n, WireKind, root, Shortened(env.text, env.dec(root, env.enc(values[r]).value).error)))
  }

  lemma OneAtRoot(n: nat, root: nat, failure: Option<Failure>)
    requires root < n
    ensures Lowest(AtRoot(n, root, failure))
            == match failure case None => None case Some(f) => Some(PlacementError(f.kind, root, f.message))
  {
    LowestExact(AtRoot(n, root, failure));
    assert AtRoot(n, root, failure)[root] == failure;
  }

  lemma ExpectedShards<T(!new)>(env: Env<T>, root: nat, shards: seq<T>) returns (r: nat)
    requires root < |shards|
    ensures ShardsCome(env, root, shards, Everyone(|shards|, ExpectedFromRoot(env, root, shards)), r)
  {
    EncodeFailuresAre(env, root, shards);
    DecodeFailuresAre(env, root, shards, false);
    var encoding := EncodeFailures(env, root, shards);
    OneAtRoot(|shards|, root, First(encoding));
    r := if Lowest(encoding).Some? then Lowest(encoding).value.rank
         else if Lowest(DecodeFailures(env, root, shards, false)).Some? then Lowest(DecodeFailures(env, root, shards, false)).value.rank
         else 0;
  }

  lemma ExpectedValues<T(!new)>(env: Env<T>, root: nat, values: seq<T>) returns (r: nat)
    requires root < |values|
    ensures ValuesCome(env, root, values, Everyone(|values|, ExpectedToRoot(env, root, values)), r)
  {
    EncodeFailuresAre(env, root, values);
    DecodeFailuresAre(env, root, values, true);
    var decoding := DecodeFailures(env, root, values, true);
    OneAtRoot(|values|, root, First(decoding));
    r := if Lowest(EncodeFailures(env, root, values)).Some? then Lowest(EncodeFailures(env, root, values)).value.rank
         else if Lowest(decoding).Some? then Lowest(decoding).value.rank
         else 0;
  }

  lemma ScatterComes<T(!new)>(env: Env<T>, calls: seq<Call<T>>, root: nat, shards: seq<T>) returns (r: nat)
    requires env.Good() && Scatters(calls, root, shards)
    ensures ShardsCome(env, root, shards, Run(env, calls), r)
  {
    assert Matching(calls);
    RunExact(env, calls);
    r := ExpectedShards(env, root, shards);
  }

  lemma BroadcastComes<T(!new)>(env: Env<T>, calls: seq<Call<T>>, root: nat, value: T) returns (r: nat)
    requires env.Good() && root < |calls|
    requires forall q :: 0 <= q < |calls| ==> calls[q] == Call(root, true, Broadcasting(if q == root then Some(value) else None))
    ensures ShardsCome(env, root, seq(|calls|, _ => value), Run(env, calls), r)
  {
    assert Matching(calls);
    RunExact(env, calls);
    r := ExpectedShards(env, root, seq(|calls|, _ => value));
  }

  lemma GatherComes<T(!new)>(env: Env<T>, calls: seq<Call<T>>, root: nat, values: seq<T>) returns (r: nat)
    requires env.Good() && Gathers(calls, root, values)
    ensures ValuesCome(env, root, values, Run(env, calls), r)
  {
    assert Matching(calls);
    RunExact(env, calls);
    assert Owns(calls).value == values;
    r := ExpectedValues(env, root, values);
  }
}
