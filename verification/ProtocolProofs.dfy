/** Frames are canonical: encoding and decoding undo each other, both ways. */
module ProtocolProofs {
  import opened Wrappers
  import opened Bytes
  import opened Protocol

  // ----- what was written is read back

  lemma ReadAfterPut(n: nat, width: nat, rest: seq<byte>)
    requires n < Pow256(width)
    ensures Read(LE(n, width) + rest, width) == Ok((n, rest))
  {
    TakeAfterPut(n, width, rest);
  }

  lemma IdsAfterPut(e: Envelope, rest: seq<byte>)
    requires Typed(e)
    ensures ReadIds(PutIds(e) + rest) == Ok((e.run, e.message, rest))
  {
    Widths();
    var b3 := LE(e.message, 16) + rest;
    var b2 := LE(e.run, 16) + b3;
    var b1 := LE(Version, 4) + b2;
    assert PutIds(e) + rest == LE(Magic, 4) + b1;
    ReadAfterPut(Magic, 4, b1);
    ReadAfterPut(Version, 4, b2);
    ReadAfterPut(e.run, 16, b3);
    ReadAfterPut(e.message, 16, rest);
  }

  lemma TraceAfterPut(trace: Option<nat>, rest: seq<byte>)
    requires trace.Some? ==> 0 < trace.value < U128
    ensures ReadTrace(PutTrace(trace) + rest) == Ok((trace, rest))
  {
    Widths();
    var flag, id := if trace.Some? then 1 else 0, if trace.Some? then trace.value else 0;
    var b1 := LE(id, 16) + rest;
    assert PutTrace(trace) + rest == LE(flag, 1) + b1;
    ReadAfterPut(flag, 1, b1);
    ReadAfterPut(id, 16, rest);
  }

  lemma EndsAfterPut(source: nat, destination: nat, trace: Option<nat>, rest: seq<byte>)
    requires source < U64 && destination < U64 && (trace.Some? ==> 0 < trace.value < U128)
    ensures ReadEnds(PutEnds(source, destination, trace) + rest) == Ok((source, destination, trace, rest))
  {
    Widths();
    var b2 := PutTrace(trace) + rest;
    var b1 := LE(destination, 8) + b2;
    assert PutEnds(source, destination, trace) + rest == LE(source, 8) + b1;
    ReadAfterPut(source, 8, b1);
    ReadAfterPut(destination, 8, b2);
    TraceAfterPut(trace, rest);
  }

  lemma CodesAfterPut(channel: nat, kind: nat, rest: seq<byte>)
    requires channel <= 2 && kind <= 2
    ensures ReadCodes(PutCodes(channel, kind) + rest) == Ok((channel, kind, rest))
  {
    Widths();
    var b1 := LE(kind, 1) + rest;
    assert PutCodes(channel, kind) + rest == LE(channel, 1) + b1;
    ReadAfterPut(channel, 1, b1);
    ReadAfterPut(kind, 1, rest);
  }

  lemma RouteAfterPut(e: Envelope, rest: seq<byte>)
    requires Typed(e)
    ensures ReadRoute(PutRoute(e) + rest) == Ok((e.channel, e.kind, e.source, e.destination, e.trace, rest))
  {
    var codes, ends := PutCodes(ChannelCode(e.channel), KindCode(e.kind)), PutEnds(e.source, e.destination, e.trace);
    assert codes + ends + rest == codes + (ends + rest);
    CodesAfterPut(ChannelCode(e.channel), KindCode(e.kind), ends + rest);
    EndsAfterPut(e.source, e.destination, e.trace, rest);
  }

  lemma {:induction false} LengthsAfterPut(lengths: seq<nat>, rest: seq<byte>, total: nat, limit: nat)
    requires total + Total(lengths) <= limit < U64
    ensures ReadLengths(PutAll(lengths) + rest, |lengths|, total, limit) == Ok((lengths, rest))
  {
    if lengths == [] {
      assert PutAll(lengths) + rest == rest;
    } else {
      Widths();
      var more := PutAll(lengths[1..]) + rest;
      assert PutAll(lengths) + rest == LE(lengths[0], 8) + more;
      ReadAfterPut(lengths[0], 8, more);
      LengthsAfterPut(lengths[1..], rest, total + lengths[0], limit);
      assert [lengths[0]] + lengths[1..] == lengths;
    }
  }

  lemma {:induction false} SegmentsAfterConcat(segments: seq<seq<byte>>)
    ensures ReadSegments(Concat(segments), Lengths(segments)) == Ok((segments, []))
  {
    if segments != [] {
      var first, others := segments[0], Concat(segments[1..]);
      SegmentsAfterConcat(segments[1..]);
      assert (first + others)[..|first|] == first && (first + others)[|first|..] == others;
      assert Lengths(segments)[1..] == Lengths(segments[1..]);
      assert [first] + segments[1..] == segments;
    }
  }

  lemma BodyAfterPut(segments: seq<seq<byte>>, limits: Limits)
    requires |segments| <= limits.maxSegments && |segments| < U32 && Total(Lengths(segments)) <= limits.maxPayload < U64
    ensures ReadBody(PutBody(segments), limits) == Ok(segments)
  {
    Widths();
    var lengths := Lengths(segments);
    var b2 := PutAll(lengths) + Concat(segments);
    var b1 := LE(|segments|, 4) + b2;
    assert PutBody(segments) == LE(Total(lengths), 8) + b1;
    ReadAfterPut(Total(lengths), 8, b1);
    ReadAfterPut(|segments|, 4, b2);
    LengthsAfterPut(lengths, Concat(segments), 0, limits.maxPayload);
    SegmentsAfterConcat(segments);
  }

  lemma {:induction false} TableLength(numbers: seq<nat>)
    ensures |PutAll(numbers)| == 8 * |numbers|
  {
    if numbers != [] { TableLength(numbers[1..]); }
  }

  lemma {:induction false} ConcatLength(segments: seq<seq<byte>>)
    ensures |Concat(segments)| == Total(Lengths(segments))
  {
    if segments != [] {
      ConcatLength(segments[1..]);
      assert Lengths(segments)[1..] == Lengths(segments[1..]);
    }
  }

  lemma FrameLength(p: Parcel)
    ensures |Frame(p)| == EncodedLen(p)
  {
    TableLength(Lengths(p.segments));
    ConcatLength(p.segments);
  }

  lemma BodyDecodes(p: Parcel, limits: Limits)
    requires limits.maxPayload < U64 && Encode(p, limits).Ok?
    ensures DecodeBody(p.envelope, PutBody(p.segments), limits) == Ok(p)
  {
    BodyAfterPut(p.segments, limits);
  }

  lemma RouteDecodes(p: Parcel, body: seq<byte>, limits: Limits)
    requires Typed(p.envelope) && DecodeBody(p.envelope, body, limits) == Ok(p)
    ensures DecodeRoute(p.envelope.run, p.envelope.message, PutRoute(p.envelope) + body, limits) == Ok(p)
  {
    RouteAfterPut(p.envelope, body);
  }

  lemma IdsDecode(p: Parcel, rest: seq<byte>, limits: Limits)
    requires Typed(p.envelope) && limits.Valid() && |PutIds(p.envelope) + rest| <= limits.maxFrame
    requires DecodeRoute(p.envelope.run, p.envelope.message, rest, limits) == Ok(p)
    ensures Decode(PutIds(p.envelope) + rest, limits) == Ok(p)
  {
    IdsAfterPut(p.envelope, rest);
  }

  lemma RestDecodes(p: Parcel, limits: Limits)
    requires Typed(p.envelope) && limits.maxPayload < U64 && Encode(p, limits).Ok?
    ensures DecodeRoute(p.envelope.run, p.envelope.message, PutRoute(p.envelope) + PutBody(p.segments), limits) == Ok(p)
  {
    BodyDecodes(p, limits);
    RouteDecodes(p, PutBody(p.segments), limits);
  }

  /** A parcel that encodes decodes back, from a frame of exactly the announced length. */
  lemma ParcelRoundTrip(p: Parcel, limits: Limits)
    requires Typed(p.envelope) && limits.maxPayload < U64 && Encode(p, limits).Ok?
    ensures |Encode(p, limits).value| == EncodedLen(p) <= limits.maxFrame
    ensures Decode(Encode(p, limits).value, limits) == Ok(p)
  {
    FrameLength(p);
    RestDecodes(p, limits);
    IdsDecode(p, PutRoute(p.envelope) + PutBody(p.segments), limits);
  }

  // ----- what was read is what would be written

  lemma ReadIsPut(bytes: seq<byte>, width: nat)
    requires Read(bytes, width).Ok?
    ensures var (n, rest) := Read(bytes, width).value;
            n < Pow256(width) && bytes == LE(n, width) + rest
  {
    TakeIsPut(bytes, width);
  }

  lemma Nested(a: seq<byte>, b: seq<byte>, c: seq<byte>, d: seq<byte>, rest: seq<byte>)
    ensures a + (b + (c + (d + rest))) == a + b + c + d + rest
  {
  }

  lemma IdsArePut(bytes: seq<byte>, e: Envelope)
    requires ReadIds(bytes).Ok? && e.run == ReadIds(bytes).value.0 && e.message == ReadIds(bytes).value.1
    ensures bytes == PutIds(e) + ReadIds(bytes).value.2
    ensures 0 < e.run < U128 && 0 < e.message < U128
  {
    Widths();
    ReadIsPut(bytes, 4);
    var b1 := Read(bytes, 4).value.1;
    ReadIsPut(b1, 4);
    var b2 := Read(b1, 4).value.1;
    ReadIsPut(b2, 16);
    var b3 := Read(b2, 16).value.1;
    ReadIsPut(b3, 16);
    var b4 := Read(b3, 16).value.1;
    Nested(LE(Magic, 4), LE(Version, 4), LE(e.run, 16), LE(e.message, 16), b4);
  }

  lemma TraceIsPut(bytes: seq<byte>)
    requires ReadTrace(bytes).Ok?
    ensures var (trace, rest) := ReadTrace(bytes).value;
            bytes == PutTrace(trace) + rest && (trace.Some? ==> 0 < trace.value < U128)
  {
    Widths();
    ReadIsPut(bytes, 1);
    var (flag, b1) := Read(bytes, 1).value;
    ReadIsPut(b1, 16);
    var (value, b2) := Read(b1, 16).value;
    assert LE(flag, 1) + (LE(value, 16) + b2) == LE(flag, 1) + LE(value, 16) + b2;
  }

  lemma EndsArePut(bytes: seq<byte>)
    requires ReadEnds(bytes).Ok?
    ensures var (source, destination, trace, rest) := ReadEnds(bytes).value;
            && bytes == PutEnds(source, destination, trace) + rest
            && source < U64 && destination < U64 && (trace.Some? ==> 0 < trace.value < U128)
  {
    Widths();
    ReadIsPut(bytes, 8);
    var (source, b1) := Read(bytes, 8).value;
    ReadIsPut(b1, 8);
    var (destination, b2) := Read(b1, 8).value;
    TraceIsPut(b2);
    var (trace, b3) := ReadTrace(b2).value;
    assert LE(source, 8) + (LE(destination, 8) + (PutTrace(trace) + b3)) == PutEnds(source, destination, trace) + b3;
  }

  lemma CodesArePut(bytes: seq<byte>)
    requires ReadCodes(bytes).Ok?
    ensures var (channel, kind, rest) := ReadCodes(bytes).value;
            channel <= 2 && kind <= 2 && bytes == PutCodes(channel, kind) + rest
  {
    ReadIsPut(bytes, 1);
    var (channel, b1) := Read(bytes, 1).value;
    ReadIsPut(b1, 1);
    var (kind, b2) := Read(b1, 1).value;
    assert LE(channel, 1) + (LE(kind, 1) + b2) == PutCodes(channel, kind) + b2;
  }

  lemma RouteIsPut(bytes: seq<byte>, e: Envelope)
    requires ReadRoute(bytes).Ok?
    requires var r := ReadRoute(bytes).value;
             e.channel == r.0 && e.kind == r.1 && e.source == r.2 && e.destination == r.3 && e.trace == r.4
    ensures bytes == PutRoute(e) + ReadRoute(bytes).value.5
    ensures e.source < U64 && e.destination < U64 && (e.trace.Some? ==> 0 < e.trace.value < U128)
  {
    CodesArePut(bytes);
    var (channel, kind, b1) := ReadCodes(bytes).value;
    EndsArePut(b1);
    var codes, ends, b2 := PutCodes(channel, kind), PutEnds(e.source, e.destination, e.trace), ReadEnds(b1).value.3;
    assert codes + (ends + b2) == codes + ends + b2;
  }

  lemma {:induction false} LengthsArePut(bytes: seq<byte>, count: nat, total: nat, limit: nat)
    requires ReadLengths(bytes, count, total, limit).Ok? && total <= limit
    ensures var (lengths, rest) := ReadLengths(bytes, count, total, limit).value;
            && |lengths| == count && bytes == PutAll(lengths) + rest && total + Total(lengths) <= limit
    decreases count
  {
    if count > 0 {
      ReadIsPut(bytes, 8);
      var (length, rest) := Read(bytes, 8).value;
      LengthsArePut(rest, count - 1, total + length, limit);
      var (others, left) := ReadLengths(rest, count - 1, total + length, limit).value;
      assert ([length] + others)[1..] == others;
      assert LE(length, 8) + (PutAll(others) + left) == PutAll([length] + others) + left;
    }
  }

  lemma {:induction false} SegmentsAreCut(bytes: seq<byte>, lengths: seq<nat>)
    requires ReadSegments(bytes, lengths).Ok?
    ensures var (segments, rest) := ReadSegments(bytes, lengths).value;
            Lengths(segments) == lengths && bytes == Concat(segments) + rest
    decreases |lengths|
  {
    if lengths != [] {
      var n := lengths[0];
      SegmentsAreCut(bytes[n..], lengths[1..]);
      var (others, left) := ReadSegments(bytes[n..], lengths[1..]).value;
      var segments := [bytes[..n]] + others;
      assert segments[1..] == others;
      assert Lengths(segments) == [n] + Lengths(others) == lengths;
      assert bytes == bytes[..n] + bytes[n..];
      assert bytes[..n] + (Concat(others) + left) == Concat(segments) + left;
    }
  }

  lemma BodyIsPut(bytes: seq<byte>, limits: Limits)
    requires ReadBody(bytes, limits).Ok?
    ensures var segments := ReadBody(bytes, limits).value;
            && bytes == PutBody(segments)
            && |segments| <= limits.maxSegments && |segments| < U32 && Total(Lengths(segments)) <= limits.maxPayload
  {
    Widths();
    ReadIsPut(bytes, 8);
    var (declared, b1) := Read(bytes, 8).value;
    ReadIsPut(b1, 4);
    var (count, b2) := Read(b1, 4).value;
    LengthsArePut(b2, count, 0, limits.maxPayload);
    var (lengths, b3) := ReadLengths(b2, count, 0, limits.maxPayload).value;
    SegmentsAreCut(b3, lengths);
    var segments := ReadSegments(b3, lengths).value.0;
    assert b3 == Concat(segments);
    assert LE(declared, 8) + (LE(count, 4) + (PutAll(lengths) + b3)) == PutBody(segments);
  }

  /** The last validation of the decoder never fails, so a frame is refused only by what it spells. */
  lemma DecodedIsValid(bytes: seq<byte>, limits: Limits)
    requires limits.Valid() && |bytes| <= limits.maxFrame
    requires ReadIds(bytes).Ok? && ReadRoute(ReadIds(bytes).value.2).Ok?
    requires ReadBody(ReadRoute(ReadIds(bytes).value.2).value.5, limits).Ok?
    ensures Decode(bytes, limits).Ok? && Typed(Decode(bytes, limits).value.envelope)
    ensures bytes == Frame(Decode(bytes, limits).value)
  {
    var (run, message, b1) := ReadIds(bytes).value;
    var (channel, kind, source, destination, trace, b2) := ReadRoute(b1).value;
    var segments := ReadBody(b2, limits).value;
    var p := Parcel(Envelope(run, message, channel, kind, source, destination, trace), segments);
    IdsArePut(bytes, p.envelope);
    RouteIsPut(b1, p.envelope);
    BodyIsPut(b2, limits);
    assert bytes == PutIds(p.envelope) + (PutRoute(p.envelope) + PutBody(segments)) == Frame(p);
    FrameLength(p);
  }

  /** Every byte string that decodes is the encoding of what it decodes to. */
  lemma FramesAreCanonical(bytes: seq<byte>, limits: Limits)
    requires Decode(bytes, limits).Ok?
    ensures var p := Decode(bytes, limits).value;
            Typed(p.envelope) && Encode(p, limits) == Ok(bytes)
  {
    DecodedIsValid(bytes, limits);
    var (run, message, b1) := ReadIds(bytes).value;
    BodyIsPut(ReadRoute(b1).value.5, limits);
  }

  /** Two valid sets of limits always agree, on the smaller of each. */
  lemma NegotiatedIsSmallest(a: Limits, b: Limits)
    ensures Negotiate(a, b).Ok? <==> a.Valid() && b.Valid()
    ensures Negotiate(a, b).Err? ==> Negotiate(a, b).error == InvalidLimits
    ensures Negotiate(a, b).Ok? ==>
              var c := Negotiate(a, b).value;
              && c.Valid() && c.maxFrame <= a.maxFrame && c.maxFrame <= b.maxFrame && c.maxFrame in [a.maxFrame, b.maxFrame]
              && c.maxPayload <= a.maxPayload && c.maxPayload <= b.maxPayload && c.maxPayload in [a.maxPayload, b.maxPayload]
              && c.maxSegments <= a.maxSegments && c.maxSegments <= b.maxSegments && c.maxSegments in [a.maxSegments, b.maxSegments]
              && c.maxQueued <= a.maxQueued && c.maxQueued <= b.maxQueued && c.maxQueued in [a.maxQueued, b.maxQueued]
              && c.maxInflight <= a.maxInflight && c.maxInflight <= b.maxInflight && c.maxInflight in [a.maxInflight, b.maxInflight]
              && c.reserve <= a.reserve && c.reserve <= b.reserve && c.reserve in [a.reserve, b.reserve]
  {
  }

  /** Two valid sides always agree, on limits that each side's own limits allow. */
  lemma NegotiatedSuitsBoth(a: Limits, b: Limits, p: Parcel)
    requires a.Valid() && b.Valid()
    ensures Negotiate(a, b).Ok? && Negotiate(a, b) == Negotiate(b, a)
    ensures Validate(p, Negotiate(a, b).value).Ok? <==> Validate(p, a).Ok? && Validate(p, b).Ok?
  {
  }
}
