/** Limits, parcels and their frames, crates/hataori-runtime-foundation/src/protocol.rs. */
module Protocol {
  import opened Wrappers
  import opened Bytes

  const FixedBytes: nat := 87
  const Magic: nat := 0x5250_5448  // "HTPR"
  const Version: nat := 1

  datatype ProtocolError =
    | InvalidMagic | InvalidVersion | InvalidLength | LengthOverflow | ZeroId | InvalidChannel | InvalidKind
    | InvalidTraceFlag | InvalidLimits | TooManySegments | PayloadTooLarge | FrameTooLarge
    | PayloadLengthMismatch | TrailingBytes

  // ----- limits

  datatype Limits = Limits(maxFrame: nat, maxPayload: nat, maxSegments: nat, maxQueued: nat, maxInflight: nat, reserve: nat)
  {
    predicate Valid() {
      && FixedBytes <= maxFrame && maxPayload > 0 && maxSegments > 0 && maxQueued > 0
      && 0 < reserve < maxInflight
    }
  }

  function Min(a: nat, b: nat): nat { if a <= b then a else b }

  function Negotiate(a: Limits, b: Limits): Result<Limits, ProtocolError> {
    if !a.Valid() || !b.Valid() then Err(InvalidLimits)
    else
      var both := Limits(Min(a.maxFrame, b.maxFrame), Min(a.maxPayload, b.maxPayload), Min(a.maxSegments, b.maxSegments),
                         Min(a.maxQueued, b.maxQueued), Min(a.maxInflight, b.maxInflight), Min(a.reserve, b.reserve));
      if both.Valid() then Ok(both) else Err(InvalidLimits)
  }

  // ----- parcels

  datatype Channel = Control | Action | Bulk

  datatype Kind = ControlKind | Data | Shutdown

  datatype Envelope = Envelope(run: nat, message: nat, channel: Channel, kind: Kind, source: nat, destination: nat, trace: Option<nat>)

  datatype Parcel = Parcel(envelope: Envelope, segments: seq<seq<byte>>)

  const U32: nat := 0x1_0000_0000
  const U128: nat := U64 * U64

  /** What the identifier types guarantee of every parcel. */
  predicate Typed(e: Envelope) {
    && 0 < e.run < U128 && 0 < e.message < U128 && e.source < U64 && e.destination < U64
    && (e.trace.Some? ==> 0 < e.trace.value < U128)
  }

  function Lengths(segments: seq<seq<byte>>): seq<nat> {
    seq(|segments|, i requires 0 <= i < |segments| => |segments[i]|)
  }

  function Total(numbers: seq<nat>): nat {
    if numbers == [] then 0 else numbers[0] + Total(numbers[1..])
  }

  function PayloadLen(p: Parcel): nat { Total(Lengths(p.segments)) }

  function EncodedLen(p: Parcel): nat { FixedBytes + 8 * |p.segments| + PayloadLen(p) }

  function Validate(p: Parcel, limits: Limits): Result<(), ProtocolError> {
    if !limits.Valid() then Err(InvalidLimits)
    else if |p.segments| > limits.maxSegments then Err(TooManySegments)
    else if PayloadLen(p) > limits.maxPayload then Err(PayloadTooLarge)
    else if EncodedLen(p) > limits.maxFrame then Err(FrameTooLarge)
    else Ok(())
  }

  // ----- encoding

  function ChannelCode(c: Channel): nat { match c case Control => 0 case Action => 1 case Bulk => 2 }

  function KindCode(k: Kind): nat { match k case ControlKind => 0 case Data => 1 case Shutdown => 2 }

  function PutTrace(trace: Option<nat>): seq<byte> {
    match trace
    case Some(id) => LE(1, 1) + LE(id, 16)
    case None => LE(0, 1) + LE(0, 16)
  }

  function PutIds(e: Envelope): seq<byte> { LE(Magic, 4) + LE(Version, 4) + LE(e.run, 16) + LE(e.message, 16) }

  function PutRoute(e: Envelope): seq<byte> {
    PutCodes(ChannelCode(e.channel), KindCode(e.kind)) + PutEnds(e.source, e.destination, e.trace)
  }

  function PutCodes(channel: nat, kind: nat): seq<byte> { LE(channel, 1) + LE(kind, 1) }

  function PutEnds(source: nat, destination: nat, trace: Option<nat>): seq<byte> {
    LE(source, 8) + LE(destination, 8) + PutTrace(trace)
  }

  function Concat(segments: seq<seq<byte>>): seq<byte> {
    if segments == [] then [] else segments[0] + Concat(segments[1..])
  }

  function PutBody(segments: seq<seq<byte>>): seq<byte> {
    LE(Total(Lengths(segments)), 8) + LE(|segments|, 4) + PutAll(Lengths(segments)) + Concat(segments)
  }

  function Frame(p: Parcel): seq<byte> { PutIds(p.envelope) + (PutRoute(p.envelope) + PutBody(p.segments)) }

  function Encode(p: Parcel, limits: Limits): Result<seq<byte>, ProtocolError> {
    var _ :- Validate(p, limits);
    if |p.segments| >= U32 then Err(LengthOverflow) else Ok(Frame(p))
  }

  // ----- decoding

  function Read(bytes: seq<byte>, width: nat): Result<(nat, seq<byte>), ProtocolError> {
    match Take(bytes, width)
    case None => Err(InvalidLength)
    case Some(r) => Ok(r)
  }

  function ReadId(bytes: seq<byte>): Result<(nat, seq<byte>), ProtocolError> {
    var (id, rest) :- Read(bytes, 16);
    if id == 0 then Err(ZeroId) else Ok((id, rest))
  }

  function ReadIds(bytes: seq<byte>): Result<(nat, nat, seq<byte>), ProtocolError> {
    var (magic, b1) :- Read(bytes, 4);
    if magic != Magic then Err(InvalidMagic)
    else
      var (version, b2) :- Read(b1, 4);
      if version != Version then Err(InvalidVersion)
      else
        var (run, b3) :- ReadId(b2);
        var (message, b4) :- ReadId(b3);
        Ok((run, message, b4))
  }

  function ReadTrace(bytes: seq<byte>): Result<(Option<nat>, seq<byte>), ProtocolError> {
    var (flag, b1) :- Read(bytes, 1);
    var (value, b2) :- Read(b1, 16);
    if flag == 0 && value == 0 then Ok((None, b2))
    else if flag == 1 then (if value == 0 then Err(ZeroId) else Ok((Some(value), b2)))
    else Err(InvalidTraceFlag)
  }

  function ReadEnds(bytes: seq<byte>): Result<(nat, nat, Option<nat>, seq<byte>), ProtocolError> {
    var (source, b1) :- Read(bytes, 8);
    var (destination, b2) :- Read(b1, 8);
    var (trace, b3) :- ReadTrace(b2);
    Ok((source, destination, trace, b3))
  }

  function ReadCodes(bytes: seq<byte>): Result<(nat, nat, seq<byte>), ProtocolError> {
    var (channel, b1) :- Read(bytes, 1);
    if channel > 2 then Err(InvalidChannel)
    else
      var (kind, b2) :- Read(b1, 1);
      if kind > 2 then Err(InvalidKind) else Ok((channel, kind, b2))
  }

  function ReadRoute(bytes: seq<byte>): Result<(Channel, Kind, nat, nat, Option<nat>, seq<byte>), ProtocolError> {
    var (channel, kind, b1) :- ReadCodes(bytes);
    var (source, destination, trace, b2) :- ReadEnds(b1);
    Ok((if channel == 0 then Control else if channel == 1 then Action else Bulk,
        if kind == 0 then ControlKind else if kind == 1 then Data else Shutdown,
        source, destination, trace, b2))
  }

  /** Reads the length table, keeping the running total within the payload limit. */
  function ReadLengths(bytes: seq<byte>, count: nat, total: nat, limit: nat): Result<(seq<nat>, seq<byte>), ProtocolError> {
    if count == 0 then Ok(([], bytes))
    else
      var (length, rest) :- Read(bytes, 8);
      if total + length >= U64 then Err(LengthOverflow)
      else if total + length > limit then Err(PayloadTooLarge)
      else
        var (lengths, left) :- ReadLengths(rest, count - 1, total + length, limit);
        Ok(([length] + lengths, left))
  }

  function ReadSegments(bytes: seq<byte>, lengths: seq<nat>): Result<(seq<seq<byte>>, seq<byte>), ProtocolError> {
    if lengths == [] then Ok(([], bytes))
    else if |bytes| < lengths[0] then Err(InvalidLength)
    else
      var (segments, left) :- ReadSegments(bytes[lengths[0]..], lengths[1..]);
      Ok(([bytes[..lengths[0]]] + segments, left))
  }

  function ReadBody(bytes: seq<byte>, limits: Limits): Result<seq<seq<byte>>, ProtocolError> {
    var (declared, b1) :- Read(bytes, 8);
    var (count, b2) :- Read(b1, 4);
    if count > limits.maxSegments then Err(TooManySegments)
    else if declared > limits.maxPayload then Err(PayloadTooLarge)
    else
      var (lengths, b3) :- ReadLengths(b2, count, 0, limits.maxPayload);
      if Total(lengths) != declared then Err(PayloadLengthMismatch)
      else
        var (segments, left) :- ReadSegments(b3, lengths);
        if left != [] then Err(TrailingBytes) else Ok(segments)
  }

  function Decode(bytes: seq<byte>, limits: Limits): Result<Parcel, ProtocolError> {
    if !limits.Valid() then Err(InvalidLimits)
    else if |bytes| > limits.maxFrame then Err(FrameTooLarge)
    else
      var (run, message, rest) :- ReadIds(bytes);
      DecodeRoute(run, message, rest, limits)
  }

  function DecodeRoute(run: nat, message: nat, bytes: seq<byte>, limits: Limits): Result<Parcel, ProtocolError> {
    var (channel, kind, source, destination, trace, rest) :- ReadRoute(bytes);
    DecodeBody(Envelope(run, message, channel, kind, source, destination, trace), rest, limits)
  }

  function DecodeBody(envelope: Envelope, bytes: seq<byte>, limits: Limits): Result<Parcel, ProtocolError> {
    var segments :- ReadBody(bytes, limits);
    var parcel := Parcel(envelope, segments);
    var _ :- Validate(parcel, limits);
    Ok(parcel)
  }
}
