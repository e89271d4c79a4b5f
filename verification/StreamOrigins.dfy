/** The drain loop makes nothing up: what it emits are the parcels of the frames at the front of the buffer, and it stops
  only for the reason it gives. */
module StreamOrigins {
  import opened Wrappers
  import opened Bytes
  import opened Protocol
  import opened Streams

  /** Why draining stops at this buffer, with `left` kept and `room` events to spare. */
  ghost predicate Stops<P>(buffer: seq<byte>, room: nat, left: seq<byte>, error: Option<StreamError>, maxFrame: nat, dec: Decoder<P>, mine: P -> bool) {
    if |buffer| < LengthBytes then error == None && left == buffer
    else
      var length := UnLE(buffer[..8]);
      var whole := |buffer| >= LengthBytes + length;
      match error
      case None => left == buffer && (room == 0 || (length <= maxFrame && !whole))
      case Some(FrameTooLong) => left == buffer && length > maxFrame
      case Some(BadFrame(e)) => left == buffer && length <= maxFrame && whole && dec(buffer[8..8 + length]) == Err(e)
      case Some(WrongPeer) =>
        && length <= maxFrame && whole && left == buffer[8 + length..]
        && dec(buffer[8..8 + length]).Ok? && !mine(dec(buffer[8..8 + length]).value)
      case Some(Overrun) => false
  }

  /** What draining gave: the buffer starts with the frames of the parcels emitted, and the loop stops at the rest. */
  ghost predicate Origins<P>(buffer: seq<byte>, d: Drained<P>, room: nat, sent: seq<Sent<P>>, rest: seq<byte>, maxFrame: nat, dec: Decoder<P>, mine: P -> bool) {
    && AllGood(sent, maxFrame, dec, mine) && d.parcels == Parcels(sent) && |sent| <= room
    && buffer == Stream(sent) + rest && Stops(rest, room - |sent|, d.read, d.error, maxFrame, dec, mine)
  }

  /** The next frame can be emitted. */
  predicate Ready<P>(buffer: seq<byte>, room: nat, maxFrame: nat, dec: Decoder<P>, mine: P -> bool) {
    && room > 0 && |buffer| >= LengthBytes && UnLE(buffer[..8]) <= maxFrame && |buffer| >= LengthBytes + UnLE(buffer[..8])
    && dec(buffer[8..8 + UnLE(buffer[..8])]).Ok? && mine(dec(buffer[8..8 + UnLE(buffer[..8])]).value)
  }

  lemma StopsAtOnce<P>(buffer: seq<byte>, room: nat, maxFrame: nat, dec: Decoder<P>, mine: P -> bool)
    requires !Ready(buffer, room, maxFrame, dec, mine)
    ensures Origins(buffer, Drain(buffer, room, maxFrame, dec, mine), room, [], buffer, maxFrame, dec, mine)
  {
    assert Drain(buffer, room, maxFrame, dec, mine).parcels == [];
    assert buffer == [] + buffer;
  }

  lemma EmitsOne<P>(buffer: seq<byte>, room: nat, maxFrame: nat, dec: Decoder<P>, mine: P -> bool)
    requires Ready(buffer, room, maxFrame, dec, mine)
    ensures var length := UnLE(buffer[..8]);
            Drain(buffer, room, maxFrame, dec, mine) ==
            Emitted(dec(buffer[8..8 + length]).value, Drain(buffer[8 + length..], room - 1, maxFrame, dec, mine))
  {
  }

  lemma OriginsOfMore<P>(buffer: seq<byte>, d: Drained<P>, room: nat, s: Sent<P>, others: seq<Sent<P>>, rest: seq<byte>, maxFrame: nat, dec: Decoder<P>, mine: P -> bool)
    requires room > 0 && |buffer| >= 8 + |s.frame| && Good(s, maxFrame, dec, mine)
    requires LE(|s.frame|, 8) == buffer[..8] && s.frame == buffer[8..8 + |s.frame|]
    requires Origins(buffer[8 + |s.frame|..], d, room - 1, others, rest, maxFrame, dec, mine)
    ensures Origins(buffer, Emitted(s.parcel, d), room, [s] + others, rest, maxFrame, dec, mine)
  {
    FrontIsFrame(buffer, |s.frame|, [s] + others, others, rest);
  }

  /** Whatever the buffer holds, and whoever filled it: the drained buffer starts with the frames of the parcels emitted,
      each of which decodes to its parcel and is for this connection; draining goes on until there is no room for events, no
      whole frame is left, or the next frame is too long, does not decode or is not for this connection. */
  lemma {:induction false} OnlyFramesAreEmitted<P>(buffer: seq<byte>, room: nat, maxFrame: nat, dec: Decoder<P>, mine: P -> bool)
    returns (sent: seq<Sent<P>>, rest: seq<byte>)
    ensures Origins(buffer, Drain(buffer, room, maxFrame, dec, mine), room, sent, rest, maxFrame, dec, mine)
    decreases room
  {
    if Ready(buffer, room, maxFrame, dec, mine) {
      var length := UnLE(buffer[..8]);
      var frame, tail := buffer[8..8 + length], buffer[8 + length..];
      sent, rest := OnlyFramesAreEmitted(tail, room - 1, maxFrame, dec, mine);
      EmitsOne(buffer, room, maxFrame, dec, mine);
      LengthIsPrefix(buffer);
      var s := Sent(dec(frame).value, frame);
      OriginsOfMore(buffer, Drain(tail, room - 1, maxFrame, dec, mine), room, s, sent, rest, maxFrame, dec, mine);
      sent := [s] + sent;
    } else {
      sent, rest := [], buffer;
      StopsAtOnce(buffer, room, maxFrame, dec, mine);
    }
  }

  lemma LengthIsPrefix(buffer: seq<byte>)
    requires |buffer| >= 8
    ensures LE(UnLE(buffer[..8]), 8) == buffer[..8] && UnLE(buffer[..8]) < U64
  {
    WritesWhatWasRead(buffer[..8]);
    Widths();
  }

  lemma FrontIsFrame<P>(buffer: seq<byte>, length: nat, sent: seq<Sent<P>>, others: seq<Sent<P>>, left: seq<byte>)
    requires |buffer| >= 8 + length && LE(length, 8) == buffer[..8]
    requires sent != [] && sent[1..] == others && sent[0].frame == buffer[8..8 + length]
    requires buffer[8 + length..] == Stream(others) + left
    ensures buffer == Stream(sent) + left && Parcels(sent) == [sent[0].parcel] + Parcels(others)
  {
    var frame := buffer[8..8 + length];
    assert buffer == buffer[..8] + frame + buffer[8 + length..];
    assert Stream(sent) == buffer[..8] + frame + Stream(others);
    AppendAssoc(buffer[..8] + frame, Stream(others), left);
  }

  /** A read fails for its size exactly when the buffer would hold more than one longest frame, and then the buffer and what
      was emitted stay as they were. */
  lemma OverrunIsRefused<P>(l: Link<P>, n: nat, room: nat, maxFrame: nat, dec: Decoder<P>, mine: P -> bool)
    requires n <= |l.wire|
    ensures var (next, error) := ReadTurn(l, n, room, maxFrame, dec, mine);
            && (error == Some(Overrun) <==> |l.read| + n > maxFrame + LengthBytes)
            && (error == Some(Overrun) ==> next.read == l.read && next.emitted == l.emitted)
  {
    if |l.read| + n <= maxFrame + LengthBytes {
      var sent, rest := OnlyFramesAreEmitted(l.read + l.wire[..n], room, maxFrame, dec, mine);
    }
  }
}
