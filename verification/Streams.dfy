/** Length-prefixed frames over a byte stream, crates/hataori-runtime-foundation/src/tcp.rs.

  The socket takes and gives any number of bytes at a time. The frame decoder and the check of a parcel
  against the connection's identity are parameters.
 */
module Streams {
  import opened Wrappers
  import opened Bytes
  import opened Protocol
  import opened ProtocolProofs

  type Decoder<P> = seq<byte> -> Result<P, ProtocolError>

  const LengthBytes: nat := 8

  datatype StreamError = FrameTooLong | Overrun | BadFrame(error: ProtocolError) | WrongPeer

  /** What `encode_submission` puts on the wire. */
  function Prefixed(frame: seq<byte>): seq<byte> { LE(|frame|, 8) + frame }

  // ----- the drain loop

  datatype Drained<P> = Drained(read: seq<byte>, parcels: seq<P>, error: Option<StreamError>)

  /** Takes whole frames from the front of the buffer while there is room for events. */
  function Drain<P>(read: seq<byte>, room: nat, maxFrame: nat, dec: Decoder<P>, mine: P -> bool): Drained<P> {
    if room == 0 || |read| < LengthBytes then Drained(read, [], None)
    else
      var length := UnLE(read[..8]);
      if length > maxFrame then Drained(read, [], Some(FrameTooLong))
      else if |read| < LengthBytes + length then Drained(read, [], None)
      else
        match dec(read[8..8 + length])
        case Err(e) => Drained(read, [], Some(BadFrame(e)))
        case Ok(p) =>
          if !mine(p) then Drained(read[8 + length..], [], Some(WrongPeer))
          else
            var rest := Drain(read[8 + length..], room - 1, maxFrame, dec, mine);
            rest.(parcels := [p] + rest.parcels)
  }

  // ----- the stream of what was sent

  datatype Sent<P> = Sent(parcel: P, frame: seq<byte>)

  ghost predicate Good<P>(s: Sent<P>, maxFrame: nat, dec: Decoder<P>, mine: P -> bool) {
    |s.frame| <= maxFrame && |s.frame| < U64 && dec(s.frame) == Ok(s.parcel) && mine(s.parcel)
  }

  ghost predicate AllGood<P>(sent: seq<Sent<P>>, maxFrame: nat, dec: Decoder<P>, mine: P -> bool) {
    forall i :: 0 <= i < |sent| ==> Good(sent[i], maxFrame, dec, mine)
  }

  function Stream<P>(sent: seq<Sent<P>>): seq<byte> {
    if sent == [] then [] else Prefixed(sent[0].frame) + Stream(sent[1..])
  }

  function Parcels<P>(sent: seq<Sent<P>>): seq<P> {
    seq(|sent|, i requires 0 <= i < |sent| => sent[i].parcel)
  }

  /** Reading the front frame of a stream of which `read` is a part. */
  lemma FrontFrame(read: seq<byte>, tail: seq<byte>, frame: seq<byte>, more: seq<byte>)
    requires read + tail == Prefixed(frame) + more && |frame| < U64 && |read| >= 8
    ensures UnLE(read[..8]) == |frame|
    ensures |read| >= 8 + |frame| ==> read[8..8 + |frame|] == frame && read[8 + |frame|..] + tail == more
  {
    Widths();
    ReadsWhatWasWritten(|frame|, 8);
    PrefixSlices(read, tail, LE(|frame|, 8), frame, more);
  }

  lemma PrefixSlices(read: seq<byte>, tail: seq<byte>, length: seq<byte>, frame: seq<byte>, more: seq<byte>)
    requires read + tail == length + frame + more && |length| == 8 && |read| >= 8
    ensures read[..8] == length
    ensures |read| >= 8 + |frame| ==> read[8..8 + |frame|] == frame && read[8 + |frame|..] + tail == more
  {
    var all := read + tail;
    assert all[..8] == read[..8] && all[..8] == length;
    if |read| >= 8 + |frame| {
      assert all[8..8 + |frame|] == read[8..8 + |frame|] && all[8..8 + |frame|] == frame;
      assert all[8 + |frame|..] == read[8 + |frame|..] + tail && all[8 + |frame|..] == more;
    }
  }

  /** One turn of the loop at a buffer that starts inside the frame of `s`. */
  lemma DrainFront<P>(read: seq<byte>, tail: seq<byte>, s: Sent<P>, more: seq<byte>, room: nat,
                      maxFrame: nat, dec: Decoder<P>, mine: P -> bool)
    requires read + tail == Prefixed(s.frame) + more && Good(s, maxFrame, dec, mine) && room > 0
    ensures var d := Drain(read, room, maxFrame, dec, mine);
            if |read| < 8 + |s.frame| then d == Drained(read, [], None)
            else
              && var rest := read[8 + |s.frame|..];
              && rest + tail == more
              && d == Emitted(s.parcel, Drain(rest, room - 1, maxFrame, dec, mine))
  {
    if |read| >= 8 { FrontFrame(read, tail, s.frame, more); }
  }

  function Emitted<P>(p: P, d: Drained<P>): Drained<P> { d.(parcels := [p] + d.parcels) }

  /** What draining a buffer that holds the front of a stream must give. */
  ghost predicate Splits<P>(d: Drained<P>, tail: seq<byte>, sent: seq<Sent<P>>, room: nat) {
    var k := |d.parcels|;
    && d.error == None && k <= |sent| && k <= room
    && d.parcels == Parcels(sent[..k])
    && d.read + tail == Stream(sent[k..])
    && (k < room && k < |sent| ==> |d.read| < 8 + |sent[k].frame|)
  }

  lemma SplitsNothing<P>(read: seq<byte>, tail: seq<byte>, sent: seq<Sent<P>>, room: nat)
    requires read + tail == Stream(sent)
    requires room == 0 || sent == [] || |read| < 8 + |sent[0].frame|
    ensures Splits(Drained(read, [], None), tail, sent, room)
  {
    assert sent[..0] == [] && sent[0..] == sent;
  }

  lemma SplitsAfter<P>(d: Drained<P>, tail: seq<byte>, sent: seq<Sent<P>>, room: nat)
    requires sent != [] && room > 0 && Splits(d, tail, sent[1..], room - 1)
    ensures Splits(Emitted(sent[0].parcel, d), tail, sent, room)
  {
    var k := |d.parcels|;
    assert sent[k + 1..] == sent[1..][k..];
    assert Parcels(sent[..k + 1]) == [sent[0].parcel] + Parcels(sent[1..][..k]);
  }

  /** Draining a buffer that holds the front of a stream emits the first parcels and leaves the front of the
      rest of the stream. It stops only when the room is used up or no whole frame is left. */
  lemma {:induction false} DrainSplits<P>(read: seq<byte>, tail: seq<byte>, sent: seq<Sent<P>>, room: nat,
                                          maxFrame: nat, dec: Decoder<P>, mine: P -> bool)
    requires read + tail == Stream(sent) && AllGood(sent, maxFrame, dec, mine)
    ensures Splits(Drain(read, room, maxFrame, dec, mine), tail, sent, room)
    decreases room
  {
    if room == 0 || sent == [] {
      assert Drain(read, room, maxFrame, dec, mine) == Drained(read, [], None);
      SplitsNothing(read, tail, sent, room);
    } else {
      var n := 8 + |sent[0].frame|;
      assert Good(sent[0], maxFrame, dec, mine);
      DrainFront(read, tail, sent[0], Stream(sent[1..]), room, maxFrame, dec, mine);
      if |read| < n {
        SplitsNothing(read, tail, sent, room);
      } else {
        TailGood(sent, maxFrame, dec, mine);
        DrainSplits(read[n..], tail, sent[1..], room - 1, maxFrame, dec, mine);
        SplitsAfter(Drain(read[n..], room - 1, maxFrame, dec, mine), tail, sent, room);
      }
    }
  }

  lemma TailGood<P>(sent: seq<Sent<P>>, maxFrame: nat, dec: Decoder<P>, mine: P -> bool)
    requires AllGood(sent, maxFrame, dec, mine) && sent != []
    ensures AllGood(sent[1..], maxFrame, dec, mine)
  {
  }

  /** The parse of a whole stream is the list of parcels it was made from. */
  lemma ParseReturnsWhatWasSent<P>(sent: seq<Sent<P>>, maxFrame: nat, dec: Decoder<P>, mine: P -> bool)
    requires AllGood(sent, maxFrame, dec, mine)
    ensures Drain(Stream(sent), |sent|, maxFrame, dec, mine) == Drained([], Parcels(sent), None)
  {
    assert Stream(sent) + [] == Stream(sent);
    DrainSplits(Stream(sent), [], sent, |sent|, maxFrame, dec, mine);
    var d := Drain(Stream(sent), |sent|, maxFrame, dec, mine);
    var k := |d.parcels|;
    assert d.read + [] == d.read;
    assert sent[..|sent|] == sent && sent[|sent|..] == [];
  }

  // ----- both ends of a connection

  datatype WriteFrame = WriteFrame(bytes: seq<byte>, offset: nat)

  /** `wire` holds the bytes written and not yet read. */
  datatype Link<P> = Link(writes: seq<WriteFrame>, wire: seq<byte>, read: seq<byte>, emitted: seq<P>)

  datatype Step<P> =
    | Submit(sent: Sent<P>)
    | Write(n: nat)
    | Read(n: nat, room: nat)

  function Unwritten(writes: seq<WriteFrame>): seq<byte>
    requires forall i :: 0 <= i < |writes| ==> writes[i].offset <= |writes[i].bytes|
  {
    if writes == [] then [] else writes[0].bytes[writes[0].offset..] + Unwritten(writes[1..])
  }

  /** One turn of `service_write` that moves `n` bytes of the front frame. */
  function Written<P>(l: Link<P>, n: nat): Link<P>
    requires l.writes != [] && l.writes[0].offset + n <= |l.writes[0].bytes|
  {
    var front := l.writes[0];
    var end := front.offset + n;
    var rest := if end == |front.bytes| then l.writes[1..] else [front.(offset := end)] + l.writes[1..];
    l.(writes := rest, wire := l.wire + front.bytes[front.offset..end])
  }

  /** One turn of `service_read`: `n` bytes arrive and the buffer is drained. */
  function ReadTurn<P>(l: Link<P>, n: nat, room: nat, maxFrame: nat, dec: Decoder<P>, mine: P -> bool): (Link<P>, Option<StreamError>)
    requires n <= |l.wire|
  {
    if |l.read| + n > maxFrame + LengthBytes then (l, Some(Overrun))
    else
      var d := Drain(l.read + l.wire[..n], room, maxFrame, dec, mine);
      (l.(wire := l.wire[n..], read := d.read, emitted := l.emitted + d.parcels), d.error)
  }

  /** A submitted frame decodes at the other side; a read stays within the retained bound. */
  ghost predicate Enabled<P>(l: Link<P>, step: Step<P>, maxFrame: nat, dec: Decoder<P>, mine: P -> bool) {
    match step
    case Submit(s) => Good(s, maxFrame, dec, mine)
    case Write(n) => l.writes != [] && 0 < n && l.writes[0].offset + n <= |l.writes[0].bytes|
    case Read(n, _) => n <= |l.wire| && |l.read| + n <= maxFrame + LengthBytes
  }

  ghost function Next<P>(l: Link<P>, step: Step<P>, maxFrame: nat, dec: Decoder<P>, mine: P -> bool): Link<P>
    requires Enabled(l, step, maxFrame, dec, mine)
  {
    match step
    case Submit(s) => l.(writes := l.writes + [WriteFrame(Prefixed(s.frame), 0)])
    case Write(n) => Written(l, n)
    case Read(n, room) => ReadTurn(l, n, room, maxFrame, dec, mine).0
  }

  function History<P>(sent: seq<Sent<P>>, step: Step<P>): seq<Sent<P>> {
    if step.Submit? then sent + [step.sent] else sent
  }

  ghost predicate Offsets(writes: seq<WriteFrame>) {
    forall i :: 0 <= i < |writes| ==> writes[i].offset < |writes[i].bytes|
  }

  /** What was emitted is the first part of what was sent, and the bytes held anywhere are, in order, exactly
      the frames of the rest. */
  ghost predicate Inv<P>(l: Link<P>, sent: seq<Sent<P>>, maxFrame: nat, dec: Decoder<P>, mine: P -> bool) {
    && AllGood(sent, maxFrame, dec, mine) && Offsets(l.writes)
    && |l.read| <= maxFrame + LengthBytes
    && |l.emitted| <= |sent| && l.emitted == Parcels(sent[..|l.emitted|])
    && l.read + (l.wire + Unwritten(l.writes)) == Stream(sent[|l.emitted|..])
  }

  lemma {:induction false} StreamAppend<P>(sent: seq<Sent<P>>, s: Sent<P>)
    ensures Stream(sent + [s]) == Stream(sent) + Prefixed(s.frame)
  {
    if sent == [] {
      assert Stream([s]) == Prefixed(s.frame) + Stream([s][1..]);
    } else {
      assert (sent + [s])[1..] == sent[1..] + [s];
      StreamAppend(sent[1..], s);
      AppendAssoc(Prefixed(sent[0].frame), Stream(sent[1..]), Prefixed(s.frame));
    }
  }

  lemma AppendAssoc(a: seq<byte>, b: seq<byte>, c: seq<byte>)
    ensures a + (b + c) == a + b + c
  {
  }

  lemma {:induction false} UnwrittenAppend(writes: seq<WriteFrame>, bytes: seq<byte>)
    requires Offsets(writes)
    ensures forall i :: 0 <= i < |writes + [WriteFrame(bytes, 0)]| ==>
              (writes + [WriteFrame(bytes, 0)])[i].offset <= |(writes + [WriteFrame(bytes, 0)])[i].bytes|
    ensures Unwritten(writes + [WriteFrame(bytes, 0)]) == Unwritten(writes) + bytes
  {
    var all := writes + [WriteFrame(bytes, 0)];
    if writes == [] {
      assert all[1..] == [];
    } else {
      assert all[1..] == writes[1..] + [WriteFrame(bytes, 0)];
      UnwrittenAppend(writes[1..], bytes);
      AppendAssoc(writes[0].bytes[writes[0].offset..], Unwritten(writes[1..]), bytes);
    }
  }

  lemma SubmitKeeps<P>(l: Link<P>, sent: seq<Sent<P>>, s: Sent<P>, maxFrame: nat, dec: Decoder<P>, mine: P -> bool)
    requires Inv(l, sent, maxFrame, dec, mine) && Good(s, maxFrame, dec, mine)
    ensures Inv(l.(writes := l.writes + [WriteFrame(Prefixed(s.frame), 0)]), sent + [s], maxFrame, dec, mine)
  {
    var k, bytes := |l.emitted|, Prefixed(s.frame);
    UnwrittenAppend(l.writes, bytes);
    StreamAppend(sent[k..], s);
    assert (sent + [s])[..k] == sent[..k] && (sent + [s])[k..] == sent[k..] + [s];
    AppendAssoc(l.wire, Unwritten(l.writes), bytes);
    AppendAssoc(l.read, l.wire + Unwritten(l.writes), bytes);
  }

  /** Writing moves bytes from the queue to the wire without changing their sequence. */
  lemma WriteMoves<P>(l: Link<P>, n: nat)
    requires Offsets(l.writes) && l.writes != [] && 0 < n && l.writes[0].offset + n <= |l.writes[0].bytes|
    ensures Offsets(Written(l, n).writes)
    ensures Written(l, n).wire + Unwritten(Written(l, n).writes) == l.wire + Unwritten(l.writes)
  {
    var front, others := l.writes[0], l.writes[1..];
    var end := front.offset + n;
    var part, rest := front.bytes[front.offset..end], front.bytes[end..];
    assert front.bytes[front.offset..] == part + rest;
    var w := Written(l, n);
    if end == |front.bytes| {
      assert rest == [];
      assert Unwritten(w.writes) == rest + Unwritten(others);
    } else {
      assert w.writes[1..] == others;
      assert Unwritten(w.writes) == rest + Unwritten(others);
    }
    Shift(l.wire, part, rest, Unwritten(others));
  }

  lemma Shift(wire: seq<byte>, part: seq<byte>, rest: seq<byte>, others: seq<byte>)
    ensures wire + part + (rest + others) == wire + (part + rest + others)
  {
  }

  /** A read emits the next parcels in order and never fails. */
  lemma ReadKeeps<P>(l: Link<P>, sent: seq<Sent<P>>, n: nat, room: nat, maxFrame: nat, dec: Decoder<P>, mine: P -> bool)
    requires Inv(l, sent, maxFrame, dec, mine) && n <= |l.wire| && |l.read| + n <= maxFrame + LengthBytes
    ensures var (next, error) := ReadTurn(l, n, room, maxFrame, dec, mine);
            && error == None && Inv(next, sent, maxFrame, dec, mine)
            && |l.emitted| <= |next.emitted| <= |l.emitted| + room
            && (|next.emitted| < |l.emitted| + room && |next.emitted| < |sent| ==>
                |next.read| < 8 + |sent[|next.emitted|].frame|)
  {
    var k := |l.emitted|;
    var read, tail := l.read + l.wire[..n], l.wire[n..] + Unwritten(l.writes);
    assert l.wire == l.wire[..n] + l.wire[n..];
    AppendAssoc(l.wire[..n], l.wire[n..], Unwritten(l.writes));
    AppendAssoc(l.read, l.wire[..n], tail);
    DrainSplits(read, tail, sent[k..], room, maxFrame, dec, mine);
    var d := Drain(read, room, maxFrame, dec, mine);
    var m := |d.parcels|;
    assert sent[k..][m..] == sent[k + m..];
    assert Parcels(sent[..k]) + Parcels(sent[k..][..m]) == Parcels(sent[..k + m]);
    DrainShrinks(read, room, maxFrame, dec, mine);
  }

  lemma {:induction false} DrainShrinks<P>(read: seq<byte>, room: nat, maxFrame: nat, dec: Decoder<P>, mine: P -> bool)
    ensures |Drain(read, room, maxFrame, dec, mine).read| <= |read|
    decreases room
  {
    if room > 0 && |read| >= 8 && |read| >= 8 + UnLE(read[..8]) {
      DrainShrinks(read[8 + UnLE(read[..8])..], room - 1, maxFrame, dec, mine);
    }
  }

  lemma StepKeeps<P>(l: Link<P>, sent: seq<Sent<P>>, step: Step<P>, maxFrame: nat, dec: Decoder<P>, mine: P -> bool)
    requires Inv(l, sent, maxFrame, dec, mine) && Enabled(l, step, maxFrame, dec, mine)
    ensures Inv(Next(l, step, maxFrame, dec, mine), History(sent, step), maxFrame, dec, mine)
  {
    match step
    case Submit(s) => SubmitKeeps(l, sent, s, maxFrame, dec, mine);
    case Write(n) => WriteMoves(l, n);
    case Read(n, room) => ReadKeeps(l, sent, n, room, maxFrame, dec, mine);
  }

  // ----- whole runs

  ghost predicate Legal<P>(l: Link<P>, steps: seq<Step<P>>, maxFrame: nat, dec: Decoder<P>, mine: P -> bool)
    decreases |steps|
  {
    steps == [] ||
    (Enabled(l, steps[0], maxFrame, dec, mine) && Legal(Next(l, steps[0], maxFrame, dec, mine), steps[1..], maxFrame, dec, mine))
  }

  ghost function After<P>(l: Link<P>, steps: seq<Step<P>>, maxFrame: nat, dec: Decoder<P>, mine: P -> bool): Link<P>
    requires Legal(l, steps, maxFrame, dec, mine)
    decreases |steps|
  {
    if steps == [] then l else After(Next(l, steps[0], maxFrame, dec, mine), steps[1..], maxFrame, dec, mine)
  }

  function AllSent<P>(sent: seq<Sent<P>>, steps: seq<Step<P>>): seq<Sent<P>>
    decreases |steps|
  {
    if steps == [] then sent else AllSent(History(sent, steps[0]), steps[1..])
  }

  lemma {:induction false} RunKeeps<P>(l: Link<P>, sent: seq<Sent<P>>, steps: seq<Step<P>>, maxFrame: nat, dec: Decoder<P>, mine: P -> bool)
    requires Inv(l, sent, maxFrame, dec, mine) && Legal(l, steps, maxFrame, dec, mine)
    ensures Inv(After(l, steps, maxFrame, dec, mine), AllSent(sent, steps), maxFrame, dec, mine)
    decreases |steps|
  {
    if steps != [] {
      StepKeeps(l, sent, steps[0], maxFrame, dec, mine);
      RunKeeps(Next(l, steps[0], maxFrame, dec, mine), History(sent, steps[0]), steps[1..], maxFrame, dec, mine);
    }
  }

  /** The parcels emitted, followed by the parse of the bytes still held anywhere, are those sent, in order. */
  ghost predicate EmittedThenHeld<P>(l: Link<P>, sent: seq<Sent<P>>, maxFrame: nat, dec: Decoder<P>, mine: P -> bool) {
    && Offsets(l.writes) && |l.emitted| <= |sent|
    && var held := Drain(l.read + (l.wire + Unwritten(l.writes)), |sent| - |l.emitted|, maxFrame, dec, mine);
    && held.error == None && held.read == [] && l.emitted + held.parcels == Parcels(sent)
  }

  lemma HeldIsRest<P>(l: Link<P>, sent: seq<Sent<P>>, maxFrame: nat, dec: Decoder<P>, mine: P -> bool)
    requires Inv(l, sent, maxFrame, dec, mine)
    ensures EmittedThenHeld(l, sent, maxFrame, dec, mine)
  {
    var k := |l.emitted|;
    ParseReturnsWhatWasSent(sent[k..], maxFrame, dec, mine);
    assert Parcels(sent[..k]) + Parcels(sent[k..]) == Parcels(sent);
  }

  /** However writes and reads are split and however little room there is for events, nothing is lost, added
      or reordered. */
  lemma EveryRunDelivers<P>(l: Link<P>, steps: seq<Step<P>>, maxFrame: nat, dec: Decoder<P>, mine: P -> bool)
    requires l == Link([], [], [], []) && Legal(l, steps, maxFrame, dec, mine)
    ensures EmittedThenHeld(After(l, steps, maxFrame, dec, mine), AllSent([], steps), maxFrame, dec, mine)
  {
    RunKeeps(l, [], steps, maxFrame, dec, mine);
    HeldIsRest(After(l, steps, maxFrame, dec, mine), AllSent([], steps), maxFrame, dec, mine);
  }

  /** Once every byte has arrived, one drain with enough room emits everything. */
  lemma LastDrainEmitsAll<P>(l: Link<P>, sent: seq<Sent<P>>, room: nat, maxFrame: nat, dec: Decoder<P>, mine: P -> bool)
    requires Inv(l, sent, maxFrame, dec, mine) && l.wire == [] && l.writes == []
    requires |l.emitted| + room > |sent|
    ensures ReadTurn(l, 0, room, maxFrame, dec, mine).0.emitted == Parcels(sent)
  {
    ReadKeeps(l, sent, 0, room, maxFrame, dec, mine);
    var next := ReadTurn(l, 0, room, maxFrame, dec, mine).0;
    var k := |next.emitted|;
    assert next.read + (next.wire + Unwritten(next.writes)) == next.read;
    if k == |sent| { assert sent[..k] == sent; }
  }

  /** The frames of valid parcels are good at a side with the same limits. */
  lemma ParcelsAreGood(p: Parcel, limits: Limits, mine: Parcel -> bool)
    requires Typed(p.envelope) && limits.maxPayload < U64 && limits.maxFrame < U64 && Encode(p, limits).Ok? && mine(p)
    ensures Good(Sent(p, Encode(p, limits).value), limits.maxFrame, (bytes: seq<byte>) => Decode(bytes, limits), mine)
  {
    ParcelRoundTrip(p, limits);
  }

  // ----- as it runs

  class StreamIo {
    var writes: seq<WriteFrame>
    var read: seq<byte>

    constructor ()
      ensures writes == [] && read == []
    {
      writes, read := [], [];
    }

    /** The socket takes `n` bytes of the front frame; `sent` are those bytes. */
    method ServiceWrite<P>(n: nat, ghost link: Link<P>) returns (sent: seq<byte>, completed: bool)
      requires writes != [] && writes[0].offset + n <= |writes[0].bytes| && link.writes == writes
      modifies this`writes
      ensures writes == Written(link, n).writes && link.wire + sent == Written(link, n).wire
      ensures completed <==> old(writes[0].offset + n == |writes[0].bytes|)
    {
      var frame := writes[0];
      sent := frame.bytes[frame.offset..frame.offset + n];
      frame := frame.(offset := frame.offset + n);
      completed := frame.offset == |frame.bytes|;
      writes := if completed then writes[1..] else [frame] + writes[1..];
    }

    /** The drain loop of `service_read`. */
    method DrainLoop<P>(room: nat, maxFrame: nat, dec: Decoder<P>, mine: P -> bool) returns (events: seq<P>, error: Option<StreamError>)
      modifies this`read
      ensures Drained(read, events, error) == Drain(old(read), room, maxFrame, dec, mine)
    {
      events := [];
      ghost var all := Drain(read, room, maxFrame, dec, mine);
      OntoNothing(all);
      while |events| < room
        invariant |events| <= room
        invariant all == Onto(events, Drain(read, room - |events|, maxFrame, dec, mine))
      {
        OntoEnd(events, read);
        if |read| < LengthBytes { return events, None; }
        var length := UnLE(read[..8]);
        if length > maxFrame { return events, Some(FrameTooLong); }
        if |read| < LengthBytes + length { return events, None; }
        var parcel := dec(read[8..8 + length]);
        if parcel.Err? { return events, Some(BadFrame(parcel.error)); }
        read := read[8 + length..];
        if !mine(parcel.value) {
          OntoEnd(events, read);
          return events, Some(WrongPeer);
        }
        OntoMore(events, parcel.value, Drain(read, room - |events| - 1, maxFrame, dec, mine));
        events := events + [parcel.value];
      }
      OntoEnd(events, read);
      return events, None;
    }
  }

  function Onto<P>(events: seq<P>, d: Drained<P>): Drained<P> { d.(parcels := events + d.parcels) }

  lemma OntoNothing<P>(d: Drained<P>)
    ensures Onto([], d) == d
  {
  }

  lemma OntoEnd<P>(events: seq<P>, read: seq<byte>)
    ensures forall e :: Onto(events, Drained(read, [], e)) == Drained(read, events, e)
  {
    assert events + [] == events;
  }

  lemma OntoMore<P>(events: seq<P>, p: P, d: Drained<P>)
    ensures Onto(events, d.(parcels := [p] + d.parcels)) == Onto(events + [p], d)
  {
    assert events + ([p] + d.parcels) == events + [p] + d.parcels;
  }
}
