/** Which bytes the parcel decoder refuses, and with which error: the header is checked at fixed offsets, no frame is the
  front of another, and what is cut short or goes on is refused. */
module ProtocolErrors {
  import opened Wrappers
  import opened Bytes
  import opened Protocol
  import opened ProtocolProofs

  // ----- reading on

  /** With more bytes behind, a reader that succeeds reads the same, and one that fails for another reason than a lack of
      bytes fails the same way. */
  lemma ReadOn(bytes: seq<byte>, more: seq<byte>, width: nat)
    ensures match Read(bytes, width)
            case Ok((n, rest)) => Read(bytes + more, width) == Ok((n, rest + more))
            case Err(error) => error == InvalidLength
  {
    if |bytes| >= width {
      assert (bytes + more)[..width] == bytes[..width];
      assert (bytes + more)[width..] == bytes[width..] + more;
    }
  }

  lemma ReadIdOn(bytes: seq<byte>, more: seq<byte>)
    ensures match ReadId(bytes)
            case Ok((id, rest)) => ReadId(bytes + more) == Ok((id, rest + more))
            case Err(error) => error == InvalidLength || ReadId(bytes + more) == Err(error)
  {
    ReadOn(bytes, more, 16);
  }

  lemma ReadIdsOn(bytes: seq<byte>, more: seq<byte>)
    ensures match ReadIds(bytes)
            case Ok((run, message, rest)) => ReadIds(bytes + more) == Ok((run, message, rest + more))
            case Err(error) => error == InvalidLength || ReadIds(bytes + more) == Err(error)
  {
    ReadOn(bytes, more, 4);
    if |bytes| >= 4 {
      var b1 := bytes[4..];
      ReadOn(b1, more, 4);
      if |b1| >= 4 {
        var b2 := b1[4..];
        ReadIdOn(b2, more);
        if ReadId(b2).Ok? { ReadIdOn(ReadId(b2).value.1, more); }
      }
    }
  }

  lemma ReadTraceOn(bytes: seq<byte>, more: seq<byte>)
    ensures match ReadTrace(bytes)
            case Ok((trace, rest)) => ReadTrace(bytes + more) == Ok((trace, rest + more))
            case Err(error) => error == InvalidLength || ReadTrace(bytes + more) == Err(error)
  {
    ReadOn(bytes, more, 1);
    if |bytes| >= 1 { ReadOn(bytes[1..], more, 16); }
  }

  lemma ReadEndsOn(bytes: seq<byte>, more: seq<byte>)
    ensures match ReadEnds(bytes)
            case Ok((source, destination, trace, rest)) => ReadEnds(bytes + more) == Ok((source, destination, trace, rest + more))
            case Err(error) => error == InvalidLength || ReadEnds(bytes + more) == Err(error)
  {
    ReadOn(bytes, more, 8);
    if |bytes| >= 8 {
      ReadOn(bytes[8..], more, 8);
      if |bytes| >= 16 { ReadTraceOn(bytes[8..][8..], more); }
    }
  }

  lemma ReadCodesOn(bytes: seq<byte>, more: seq<byte>)
    ensures match ReadCodes(bytes)
            case Ok((channel, kind, rest)) => ReadCodes(bytes + more) == Ok((channel, kind, rest + more))
            case Err(error) => error == InvalidLength || ReadCodes(bytes + more) == Err(error)
  {
    ReadOn(bytes, more, 1);
    if |bytes| >= 1 { ReadOn(bytes[1..], more, 1); }
  }

  lemma ReadRouteOn(bytes: seq<byte>, more: seq<byte>)
    ensures match ReadRoute(bytes)
            case Ok((channel, kind, source, destination, trace, rest)) =>
              ReadRoute(bytes + more) == Ok((channel, kind, source, destination, trace, rest + more))
            case Err(error) => error == InvalidLength || ReadRoute(bytes + more) == Err(error)
  {
    ReadCodesOn(bytes, more);
    if ReadCodes(bytes).Ok? { ReadEndsOn(ReadCodes(bytes).value.2, more); }
  }

  lemma {:induction false} ReadLengthsOn(bytes: seq<byte>, more: seq<byte>, count: nat, total: nat, limit: nat)
    ensures match ReadLengths(bytes, count, total, limit)
            case Ok((lengths, rest)) => ReadLengths(bytes + more, count, total, limit) == Ok((lengths, rest + more))
            case Err(error) => error == InvalidLength || ReadLengths(bytes + more, count, total, limit) == Err(error)
  {
    if count > 0 {
      ReadOn(bytes, more, 8);
      if |bytes| >= 8 { ReadLengthsOn(bytes[8..], more, count - 1, total + UnLE(bytes[..8]), limit); }
    }
  }

  lemma {:induction false} ReadSegmentsOn(bytes: seq<byte>, more: seq<byte>, lengths: seq<nat>)
    ensures match ReadSegments(bytes, lengths)
            case Ok((segments, rest)) => ReadSegments(bytes + more, lengths) == Ok((segments, rest + more))
            case Err(error) => error == InvalidLength
  {
    if lengths != [] && |bytes| >= lengths[0] {
      assert (bytes + more)[..lengths[0]] == bytes[..lengths[0]];
      assert (bytes + more)[lengths[0]..] == bytes[lengths[0]..] + more;
      ReadSegmentsOn(bytes[lengths[0]..], more, lengths[1..]);
    }
  }

  /** A body that is read to its end, or not, and what follows it. */
  lemma ReadBodyOn(bytes: seq<byte>, more: seq<byte>, limits: Limits)
    requires more != []
    ensures match ReadBody(bytes, limits)
            case Ok(_) => ReadBody(bytes + more, limits) == Err(TrailingBytes)
            case Err(error) => error == InvalidLength || ReadBody(bytes + more, limits) == Err(error)
  {
    ReadOn(bytes, more, 8);
    if |bytes| >= 8 {
      var b1 := bytes[8..];
      ReadOn(b1, more, 4);
      if |b1| >= 4 {
        var b2, count := b1[4..], UnLE(b1[..4]);
        ReadLengthsOn(b2, more, count, 0, limits.maxPayload);
        var table := ReadLengths(b2, count, 0, limits.maxPayload);
        if table.Ok? { ReadSegmentsOn(table.value.1, more, table.value.0); }
      }
    }
  }

  lemma DecodeOn(bytes: seq<byte>, more: seq<byte>, limits: Limits)
    requires more != [] && |bytes + more| <= limits.maxFrame
    ensures match Decode(bytes, limits)
            case Ok(_) => Decode(bytes + more, limits) == Err(TrailingBytes)
            case Err(error) => error == InvalidLength || Decode(bytes + more, limits).Err?
  {
    if limits.Valid() {
      ReadIdsOn(bytes, more);
      if ReadIds(bytes).Ok? {
        var b1 := ReadIds(bytes).value.2;
        ReadRouteOn(b1, more);
        if ReadRoute(b1).Ok? {
          ReadBodyOn(ReadRoute(b1).value.5, more, limits);
        }
      }
    }
  }

  /** What goes on behind a frame is refused. */
  lemma TrailingBytesAreRefused(bytes: seq<byte>, more: seq<byte>, limits: Limits)
    requires Decode(bytes, limits).Ok? && more != []
    ensures Decode(bytes + more, limits) == Err(if |bytes + more| > limits.maxFrame then FrameTooLarge else TrailingBytes)
  {
    if |bytes + more| <= limits.maxFrame { DecodeOn(bytes, more, limits); }
  }

  /** A frame that is cut short anywhere is refused for its length; so no frame is the front of another. */
  lemma CutFramesAreRefused(bytes: seq<byte>, limits: Limits, n: nat)
    requires Decode(bytes, limits).Ok? && n < |bytes|
    ensures Decode(bytes[..n], limits) == Err(InvalidLength)
  {
    assert bytes == bytes[..n] + bytes[n..];
    DecodeOn(bytes[..n], bytes[n..], limits);
  }

  // ----- the header at its offsets

  /** The number in the bytes from one offset to another. */
  function Number(bytes: seq<byte>, from: nat, to: nat): nat
    requires from <= to <= |bytes|
  {
    UnLE(bytes[from..to])
  }

  /** What is wrong with the fixed part of a frame: the first field that cannot be. */
  function HeaderError(bytes: seq<byte>): Option<ProtocolError>
    requires |bytes| >= FixedBytes
  {
    if Number(bytes, 0, 4) != Magic then Some(InvalidMagic)
    else if Number(bytes, 4, 8) != Version then Some(InvalidVersion)
    else if Number(bytes, 8, 24) == 0 || Number(bytes, 24, 40) == 0 then Some(ZeroId)
    else if Number(bytes, 40, 41) > 2 then Some(InvalidChannel)
    else if Number(bytes, 41, 42) > 2 then Some(InvalidKind)
    else if Number(bytes, 58, 59) > 1 then Some(InvalidTraceFlag)
    else if Number(bytes, 58, 59) == 0 && Number(bytes, 59, 75) != 0 then Some(InvalidTraceFlag)
    else if Number(bytes, 58, 59) == 1 && Number(bytes, 59, 75) == 0 then Some(ZeroId)
    else None
  }

  /** The envelope that the fixed part describes. */
  function EnvelopeAt(bytes: seq<byte>): Envelope
    requires |bytes| >= FixedBytes
  {
    Envelope(Number(bytes, 8, 24), Number(bytes, 24, 40),
             [Control, Action, Bulk][if Number(bytes, 40, 41) <= 2 then Number(bytes, 40, 41) else 0],
             [ControlKind, Data, Shutdown][if Number(bytes, 41, 42) <= 2 then Number(bytes, 41, 42) else 0],
             Number(bytes, 42, 50), Number(bytes, 50, 58), if Number(bytes, 58, 59) == 1 then Some(Number(bytes, 59, 75)) else None)
  }

  lemma IdsAtOffsets(bytes: seq<byte>)
    requires |bytes| >= 40
    ensures ReadIds(bytes) == if Number(bytes, 0, 4) != Magic then Err(InvalidMagic)
                              else if Number(bytes, 4, 8) != Version then Err(InvalidVersion)
                              else if Number(bytes, 8, 24) == 0 || Number(bytes, 24, 40) == 0 then Err(ZeroId)
                              else Ok((Number(bytes, 8, 24), Number(bytes, 24, 40), bytes[40..]))
  {
    assert bytes[4..][..4] == bytes[4..8] && bytes[4..][4..] == bytes[8..];
    assert bytes[8..][..16] == bytes[8..24] && bytes[8..][16..] == bytes[24..];
    assert bytes[24..][..16] == bytes[24..40] && bytes[24..][16..] == bytes[40..];
  }

  lemma RouteAtOffsets(bytes: seq<byte>)
    requires |bytes| >= 35
    ensures ReadRoute(bytes) == if Number(bytes, 0, 1) > 2 then Err(InvalidChannel)
                                else if Number(bytes, 1, 2) > 2 then Err(InvalidKind)
                                else if Number(bytes, 18, 19) > 1 || (Number(bytes, 18, 19) == 0 && Number(bytes, 19, 35) != 0) then Err(InvalidTraceFlag)
                                else if Number(bytes, 18, 19) == 1 && Number(bytes, 19, 35) == 0 then Err(ZeroId)
                                else Ok(([Control, Action, Bulk][Number(bytes, 0, 1)], [ControlKind, Data, Shutdown][Number(bytes, 1, 2)],
                                         Number(bytes, 2, 10), Number(bytes, 10, 18),
                                         if Number(bytes, 18, 19) == 1 then Some(Number(bytes, 19, 35)) else None, bytes[35..]))
  {
    assert bytes[1..][..1] == bytes[1..2] && bytes[1..][1..] == bytes[2..];
    assert bytes[2..][..8] == bytes[2..10] && bytes[2..][8..] == bytes[10..];
    assert bytes[10..][..8] == bytes[10..18] && bytes[10..][8..] == bytes[18..];
    assert bytes[18..][..1] == bytes[18..19] && bytes[18..][1..] == bytes[19..];
    assert bytes[19..][..16] == bytes[19..35] && bytes[19..][16..] == bytes[35..];
  }

  /** Once a frame is long enough for its fixed part, the decoder refuses it for the first field at its offset that cannot
      be, and otherwise reads the body under the envelope found at these offsets. */
  lemma HeaderIsChecked(bytes: seq<byte>, limits: Limits)
    requires limits.Valid() && FixedBytes <= |bytes| <= limits.maxFrame
    ensures match HeaderError(bytes)
            case Some(error) => Decode(bytes, limits) == Err(error)
            case None => Decode(bytes, limits) == DecodeBody(EnvelopeAt(bytes), bytes[75..], limits)
  {
    IdsAtOffsets(bytes);
    var rest := bytes[40..];
    RouteAtOffsets(rest);
    assert rest[0..1] == bytes[40..41] && rest[1..2] == bytes[41..42] && rest[2..10] == bytes[42..50] && rest[10..18] == bytes[50..58];
    assert rest[18..19] == bytes[58..59] && rest[19..35] == bytes[59..75] && rest[35..] == bytes[75..];
  }

  /** The limits come first: wrong limits, and a frame longer than they allow, are refused whatever the bytes are. */
  lemma LimitsComeFirst(bytes: seq<byte>, p: Parcel, limits: Limits)
    ensures !limits.Valid() ==> Decode(bytes, limits) == Err(InvalidLimits) && Encode(p, limits) == Err(InvalidLimits)
    ensures limits.Valid() && |bytes| > limits.maxFrame ==> Decode(bytes, limits) == Err(FrameTooLarge)
    ensures limits.Valid() && Encode(p, limits).Err? ==>
              match Encode(p, limits).error
              case TooManySegments => |p.segments| > limits.maxSegments
              case PayloadTooLarge => |p.segments| <= limits.maxSegments && PayloadLen(p) > limits.maxPayload
              case FrameTooLarge => PayloadLen(p) <= limits.maxPayload && EncodedLen(p) > limits.maxFrame
              case LengthOverflow => |p.segments| >= U32
              case _ => false
  {
  }

  /** The lengths that a body declares are checked against the limits before any segment is read. */
  lemma BodyIsChecked(bytes: seq<byte>, limits: Limits)
    requires |bytes| >= 12
    ensures Number(bytes, 8, 12) > limits.maxSegments ==> ReadBody(bytes, limits) == Err(TooManySegments)
    ensures Number(bytes, 8, 12) <= limits.maxSegments && Number(bytes, 0, 8) > limits.maxPayload ==>
              ReadBody(bytes, limits) == Err(PayloadTooLarge)
  {
    assert bytes[8..][..4] == bytes[8..12];
  }
}
