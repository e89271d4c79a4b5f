/** The parcel codec as it runs: a buffer that grows, and a reader that advances an offset. */
module ProtocolReader {
  import opened Wrappers
  import opened Bytes
  import opened Protocol

  method PutTable(segments: seq<seq<byte>>) returns (table: seq<byte>)
    ensures table == PutAll(Lengths(segments))
  {
    table := [];
    for i := 0 to |segments|
      invariant table == PutAll(Lengths(segments[..i]))
    {
      PutAllAppend(Lengths(segments[..i]), |segments[i]|);
      assert Lengths(segments[..i + 1]) == Lengths(segments[..i]) + [|segments[i]|];
      table := table + LE(|segments[i]|, 8);
    }
    assert segments[..|segments|] == segments;
  }

  method PutSegments(segments: seq<seq<byte>>) returns (payload: seq<byte>)
    ensures payload == Concat(segments)
  {
    payload := [];
    for i := 0 to |segments|
      invariant payload == Concat(segments[..i])
    {
      ConcatAppend(segments[..i], segments[i]);
      assert segments[..i + 1] == segments[..i] + [segments[i]];
      payload := payload + segments[i];
    }
    assert segments[..|segments|] == segments;
  }

  method EncodeParcel(p: Parcel, limits: Limits) returns (r: Result<seq<byte>, ProtocolError>)
    ensures r == Encode(p, limits)
  {
    var valid := Validate(p, limits);
    if valid.Err? { return Err(valid.error); }
    if |p.segments| >= U32 { return Err(LengthOverflow); }
    var output := PutIds(p.envelope);
    var route := PutRoute(p.envelope);
    var table := PutTable(p.segments);
    var payload := PutSegments(p.segments);
    var body := LE(PayloadLen(p), 8) + LE(|p.segments|, 4) + table + payload;
    return Ok(output + (route + body));
  }

  lemma {:induction false} ConcatAppend(segments: seq<seq<byte>>, segment: seq<byte>)
    ensures Concat(segments + [segment]) == Concat(segments) + segment
  {
    if segments == [] {
      assert Concat([segment]) == segment + Concat([]);
    } else {
      assert (segments + [segment])[1..] == segments[1..] + [segment];
      ConcatAppend(segments[1..], segment);
    }
  }

  class Reader {
    const bytes: seq<byte>
    var offset: nat

    ghost predicate Valid()
      reads this
    {
      offset <= |bytes|
    }

    ghost function Rest(): seq<byte>
      reads this
      requires Valid()
    {
      bytes[offset..]
    }

    constructor (bytes: seq<byte>)
      ensures Valid() && this.bytes == bytes && Rest() == bytes
    {
      this.bytes, offset := bytes, 0;
    }

    method TakeBytes(length: nat) returns (r: Result<seq<byte>, ProtocolError>)
      requires Valid()
      modifies this
      ensures Valid()
      ensures r.Err? ==> r.error == InvalidLength && old(|Rest()|) < length
      ensures r.Ok? ==> length <= old(|Rest()|) && r.value == old(Rest())[..length] && Rest() == old(Rest())[length..]
    {
      if offset + length > |bytes| { return Err(InvalidLength); }
      assert bytes[offset..][..length] == bytes[offset..offset + length];
      assert bytes[offset..][length..] == bytes[offset + length..];
      r := Ok(bytes[offset..offset + length]);
      offset := offset + length;
    }

    method Number(width: nat) returns (r: Result<nat, ProtocolError>)
      requires Valid()
      modifies this
      ensures Valid()
      ensures match Read(old(Rest()), width)
              case Err(e) => r == Err(e)
              case Ok((n, rest)) => r == Ok(n) && Rest() == rest
    {
      var taken := TakeBytes(width);
      if taken.Err? { return Err(taken.error); }
      return Ok(UnLE(taken.value));
    }

    method LengthTable(count: nat, limit: nat) returns (r: Result<(seq<nat>, nat), ProtocolError>)
      requires Valid()
      modifies this
      ensures Valid()
      ensures match ReadLengths(old(Rest()), count, 0, limit)
              case Err(e) => r == Err(e)
              case Ok((lengths, rest)) => r == Ok((lengths, Total(lengths))) && Rest() == rest
    {
      var lengths: seq<nat>, total := [], 0;
      ghost var all := ReadLengths(Rest(), count, 0, limit);
      assert all.Ok? ==> lengths + all.value.0 == all.value.0;
      for i := 0 to count
        invariant Valid() && total == Total(lengths)
        invariant all ==
          match ReadLengths(Rest(), count - i, total, limit)
          case Err(e) => Err(e)
          case Ok((others, rest)) => Ok((lengths + others, rest))
      {
        var length := Number(8);
        if length.Err? { return Err(length.error); }
        if total + length.value >= U64 { return Err(LengthOverflow); }
        ghost var more := ReadLengths(Rest(), count - i - 1, total + length.value, limit);
        total := total + length.value;
        if total > limit { return Err(PayloadTooLarge); }
        assert more.Ok? ==> lengths + ([length.value] + more.value.0) == lengths + [length.value] + more.value.0;
        TotalAppend(lengths, length.value);
        lengths := lengths + [length.value];
      }
      assert lengths + [] == lengths;
      return Ok((lengths, total));
    }

    method Segments(lengths: seq<nat>) returns (r: Result<seq<seq<byte>>, ProtocolError>)
      requires Valid()
      modifies this
      ensures Valid()
      ensures match ReadSegments(old(Rest()), lengths)
              case Err(e) => r == Err(e)
              case Ok((segments, rest)) => r == Ok(segments) && Rest() == rest
    {
      var segments: seq<seq<byte>> := [];
      ghost var all := ReadSegments(Rest(), lengths);
      assert all.Ok? ==> segments + all.value.0 == all.value.0;
      for i := 0 to |lengths|
        invariant Valid()
        invariant all ==
          match ReadSegments(Rest(), lengths[i..])
          case Err(e) => Err(e)
          case Ok((others, rest)) => Ok((segments + others, rest))
      {
        assert lengths[i..][0] == lengths[i] && lengths[i..][1..] == lengths[i + 1..];
        var segment := TakeBytes(lengths[i]);
        if segment.Err? { return Err(segment.error); }
        ghost var more := ReadSegments(Rest(), lengths[i + 1..]);
        assert more.Ok? ==> segments + ([segment.value] + more.value.0) == segments + [segment.value] + more.value.0;
        segments := segments + [segment.value];
      }
      assert segments + [] == segments;
      return Ok(segments);
    }

    method Ids() returns (r: Result<(nat, nat), ProtocolError>)
      requires Valid()
      modifies this
      ensures Valid()
      ensures match ReadIds(old(Rest()))
              case Err(e) => r == Err(e)
              case Ok((run, message, rest)) => r == Ok((run, message)) && Rest() == rest
    {
      var magic := Number(4);
      if magic.Err? { return Err(magic.error); }
      if magic.value != Magic { return Err(InvalidMagic); }
      var version := Number(4);
      if version.Err? { return Err(version.error); }
      if version.value != Version { return Err(InvalidVersion); }
      var run := Number(16);
      if run.Err? { return Err(run.error); }
      if run.value == 0 { return Err(ZeroId); }
      var message := Number(16);
      if message.Err? { return Err(message.error); }
      if message.value == 0 { return Err(ZeroId); }
      return Ok((run.value, message.value));
    }

    method Codes() returns (r: Result<(nat, nat), ProtocolError>)
      requires Valid()
      modifies this
      ensures Valid()
      ensures match ReadCodes(old(Rest()))
              case Err(e) => r == Err(e)
              case Ok((channel, kind, rest)) => r == Ok((channel, kind)) && Rest() == rest
    {
      var channel := Number(1);
      if channel.Err? { return Err(channel.error); }
      if channel.value > 2 { return Err(InvalidChannel); }
      var kind := Number(1);
      if kind.Err? { return Err(kind.error); }
      if kind.value > 2 { return Err(InvalidKind); }
      return Ok((channel.value, kind.value));
    }

    method Ends() returns (r: Result<(nat, nat, Option<nat>), ProtocolError>)
      requires Valid()
      modifies this
      ensures Valid()
      ensures match ReadEnds(old(Rest()))
              case Err(e) => r == Err(e)
              case Ok((source, destination, trace, rest)) => r == Ok((source, destination, trace)) && Rest() == rest
    {
      var source := Number(8);
      if source.Err? { return Err(source.error); }
      var destination := Number(8);
      if destination.Err? { return Err(destination.error); }
      var flag := Number(1);
      if flag.Err? { return Err(flag.error); }
      var value := Number(16);
      if value.Err? { return Err(value.error); }
      if flag.value == 0 && value.value == 0 { return Ok((source.value, destination.value, None)); }
      if flag.value != 1 { return Err(InvalidTraceFlag); }
      if value.value == 0 { return Err(ZeroId); }
      return Ok((source.value, destination.value, Some(value.value)));
    }

    method Body(limits: Limits) returns (r: Result<seq<seq<byte>>, ProtocolError>)
      requires Valid()
      modifies this
      ensures r == ReadBody(old(Rest()), limits)
    {
      var declared := Number(8);
      if declared.Err? { return Err(declared.error); }
      var count := Number(4);
      if count.Err? { return Err(count.error); }
      if count.value > limits.maxSegments { return Err(TooManySegments); }
      if declared.value > limits.maxPayload { return Err(PayloadTooLarge); }
      var table := LengthTable(count.value, limits.maxPayload);
      if table.Err? { return Err(table.error); }
      if table.value.1 != declared.value { return Err(PayloadLengthMismatch); }
      var segments := Segments(table.value.0);
      if segments.Err? { return Err(segments.error); }
      if offset != |bytes| { return Err(TrailingBytes); }
      return segments;
    }
  }

  lemma {:induction false} TotalAppend(numbers: seq<nat>, n: nat)
    ensures Total(numbers + [n]) == Total(numbers) + n
  {
    if numbers != [] {
      assert (numbers + [n])[1..] == numbers[1..] + [n];
      TotalAppend(numbers[1..], n);
    }
  }

  method DecodeParcel(bytes: seq<byte>, limits: Limits) returns (r: Result<Parcel, ProtocolError>)
    ensures r == Decode(bytes, limits)
  {
    if !limits.Valid() { return Err(InvalidLimits); }
    if |bytes| > limits.maxFrame { return Err(FrameTooLarge); }
    var reader := new Reader(bytes);
    var ids := reader.Ids();
    if ids.Err? { return Err(ids.error); }
    var codes := reader.Codes();
    if codes.Err? { return Err(codes.error); }
    var ends := reader.Ends();
    if ends.Err? { return Err(ends.error); }
    var body := reader.Body(limits);
    if body.Err? { return Err(body.error); }
    var channel := if codes.value.0 == 0 then Control else if codes.value.0 == 1 then Action else Bulk;
    var kind := if codes.value.1 == 0 then ControlKind else if codes.value.1 == 1 then Data else Shutdown;
    var p := Parcel(Envelope(ids.value.0, ids.value.1, channel, kind, ends.value.0, ends.value.1, ends.value.2), body.value);
    var valid := Validate(p, limits);
    if valid.Err? { return Err(valid.error); }
    return Ok(p);
  }
}
