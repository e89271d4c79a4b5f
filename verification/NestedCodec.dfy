/** The nested segment codec of crates/hataori-algorithms/src/batch.rs.

  A list of values travels as one header segment, holding the number of values and the segment lengths of
  each, followed by the segments of all values. The codec of the values themselves is a parameter.
 */
module NestedCodec {
  import opened Wrappers
  import opened Bytes
  import opened SerialMap

  type Segment = seq<byte>
  type Group = seq<Segment>

  const MaxBatchItems: nat := 1_048_576

  datatype CodecError =
    | MissingHeader | Truncated | ItemLimit | TrailingBytes | SegmentCount | SegmentLength
    | MissingMode | InvalidMode | MissingTag | InvalidTag | InvalidText | NotUtf8 | Value(code: nat)

  // ----- the frame of a list of encoded values

  function Lengths(group: Group): seq<nat> {
    seq(|group|, i requires 0 <= i < |group| => |group[i]|)
  }

  function PutShapes(shapes: seq<seq<nat>>): seq<byte> {
    if shapes == [] then [] else LE(|shapes[0]|, 8) + PutAll(shapes[0]) + PutShapes(shapes[1..])
  }

  function Shapes(groups: seq<Group>): seq<seq<nat>> {
    seq(|groups|, i requires 0 <= i < |groups| => Lengths(groups[i]))
  }

  function Flatten(groups: seq<Group>): seq<Segment> {
    if groups == [] then [] else groups[0] + Flatten(groups[1..])
  }

  function Header(prefix: seq<byte>, groups: seq<Group>): seq<byte> {
    prefix + LE(|groups|, 8) + PutShapes(Shapes(groups))
  }

  function Frame(prefix: seq<byte>, groups: seq<Group>): seq<Segment> {
    [Header(prefix, groups)] + Flatten(groups)
  }

  ghost predicate Small(shape: seq<nat>) {
    |shape| < U64 && forall j :: 0 <= j < |shape| ==> shape[j] < U64
  }

  /** Every count and length is one a 64-bit program can hold. */
  ghost predicate Fits(groups: seq<Group>) {
    |groups| <= MaxBatchItems && forall k :: 0 <= k < |groups| ==> Small(Lengths(groups[k]))
  }

  // ----- encoding

  lemma {:induction false} PutShapesAppend(shapes: seq<seq<nat>>, shape: seq<nat>)
    ensures PutShapes(shapes + [shape]) == PutShapes(shapes) + (LE(|shape|, 8) + PutAll(shape))
  {
    if shapes == [] {
      assert PutShapes([shape]) == LE(|shape|, 8) + PutAll(shape) + PutShapes([]);
    } else {
      assert (shapes + [shape])[1..] == shapes[1..] + [shape];
      PutShapesAppend(shapes[1..], shape);
    }
  }

  lemma {:induction false} FlattenAppend(groups: seq<Group>, group: Group)
    ensures Flatten(groups + [group]) == Flatten(groups) + group
  {
    if groups == [] {
      assert Flatten([group]) == group + Flatten([]);
    } else {
      assert (groups + [group])[1..] == groups[1..] + [group];
      FlattenAppend(groups[1..], group);
    }
  }

  function EncodeList<T>(values: seq<T>, prefix: seq<byte>, enc: T -> Result<Group, CodecError>): Result<seq<Segment>, CodecError> {
    if |values| > MaxBatchItems then Err(ItemLimit)
    else
      match Map(values, enc)
      case Ok(groups) => Ok(Frame(prefix, groups))
      case Err(e) => Err(e.error)
  }

  /** `encode_nested`: the header grows in `head` while the segments are collected in `tail`. */
  method EncodeNested<T>(values: seq<T>, prefix: seq<byte>, enc: T -> Result<Group, CodecError>)
    returns (r: Result<seq<Segment>, CodecError>)
    ensures r == EncodeList(values, prefix, enc)
  {
    if |values| > MaxBatchItems { return Err(ItemLimit); }
    var head: seq<byte>, tail: seq<Segment> := [], [];
    ghost var groups: seq<Group> := [];
    for k := 0 to |values|
      invariant |groups| == k && forall j :: 0 <= j < k ==> enc(values[j]) == Ok(groups[j])
      invariant head == PutShapes(Shapes(groups)) && tail == Flatten(groups)
    {
      var encoded := enc(values[k]);
      if encoded.Err? {
        FirstErrorDecides(values, enc, k);
        return Err(encoded.error);
      }
      var group := encoded.value;
      PutShapesAppend(Shapes(groups), Lengths(group));
      FlattenAppend(groups, group);
      assert Shapes(groups + [group]) == Shapes(groups) + [Lengths(group)];
      head, tail := PutLengths(head, tail, group);
      groups := groups + [group];
    }
    MapExact(values, enc);
    assert Map(values, enc).value == groups;
    return Ok([prefix + LE(|values|, 8) + head] + tail);
  }

  method PutLengths(head: seq<byte>, tail: seq<Segment>, group: Group) returns (h: seq<byte>, t: seq<Segment>)
    ensures h == head + (LE(|group|, 8) + PutAll(Lengths(group)))
    ensures t == tail + group
  {
    h, t := head + LE(|group|, 8), tail;
    for j := 0 to |group|
      invariant h == head + (LE(|group|, 8) + PutAll(Lengths(group[..j])))
      invariant t == tail + group[..j]
    {
      PutAllAppend(Lengths(group[..j]), |group[j]|);
      assert Lengths(group[..j + 1]) == Lengths(group[..j]) + [|group[j]|];
      h, t := h + LE(|group[j]|, 8), t + [group[j]];
    }
    assert group[..|group|] == group;
  }

  // ----- decoding

  function TakeShapes(bytes: seq<byte>, count: nat): Option<(seq<seq<nat>>, seq<byte>)>
    decreases count
  {
    if count == 0 then Some(([], bytes))
    else
      match Take(bytes, 8)
      case None => None
      case Some((n, rest)) =>
        match TakeAll(rest, n)
        case None => None
        case Some((shape, more)) =>
          match TakeShapes(more, count - 1)
          case None => None
          case Some((others, left)) => Some(([shape] + others, left))
  }

  function Total(shapes: seq<seq<nat>>): nat {
    if shapes == [] then 0 else |shapes[0]| + Total(shapes[1..])
  }

  function DecodeItems<T>(shapes: seq<seq<nat>>, segments: seq<Segment>, dec: Group -> Result<T, CodecError>): Result<seq<T>, CodecError>
    requires |segments| == Total(shapes)
    decreases |shapes|
  {
    if shapes == [] then Ok([])
    else
      var group := segments[..|shapes[0]|];
      if Lengths(group) != shapes[0] then Err(SegmentLength)
      else
        var value :- dec(group);
        var others :- DecodeItems(shapes[1..], segments[|shapes[0]|..], dec);
        Ok([value] + others)
  }

  function DecodeList<T>(segments: seq<Segment>, prefix: nat, dec: Group -> Result<T, CodecError>): Result<seq<T>, CodecError> {
    if segments == [] then Err(MissingHeader)
    else
      var header := segments[0];
      if prefix > |header| || Take(header[prefix..], 8).None? then Err(Truncated)
      else
        var (count, rest) := Take(header[prefix..], 8).value;
        if count > MaxBatchItems then Err(ItemLimit)
        else
          match TakeShapes(rest, count)
          case None => Err(Truncated)
          case Some((shapes, left)) =>
            if left != [] then Err(TrailingBytes)
            else if |segments| - 1 != Total(shapes) then Err(SegmentCount)
            else DecodeItems(shapes, segments[1..], dec)
  }

  /** `take`: reads one count at the cursor and moves it. */
  method TakeAt(bytes: seq<byte>, at: nat) returns (r: Option<nat>, next: nat)
    requires at <= |bytes|
    ensures r.Some? <==> Take(bytes[at..], 8).Some?
    ensures r.Some? ==> next == at + 8 <= |bytes| && Take(bytes[at..], 8) == Some((r.value, bytes[next..]))
  {
    if at + 8 > |bytes| { return None, at; }
    assert bytes[at..][..8] == bytes[at..at + 8] && bytes[at..][8..] == bytes[at + 8..];
    return Some(UnLE(bytes[at..at + 8])), at + 8;
  }

  /** Reads the `n` lengths of one value at the cursor. */
  method TakeShapeAt(bytes: seq<byte>, from: nat, n: nat) returns (r: Option<seq<nat>>, at: nat)
    requires from <= |bytes|
    ensures r.Some? <==> TakeAll(bytes[from..], n).Some?
    ensures r.Some? ==> at <= |bytes| && TakeAll(bytes[from..], n) == Some((r.value, bytes[at..]))
  {
    var item: seq<nat> := [];
    at := from;
    assert forall s: seq<nat> :: item + s == s;
    for j := 0 to n
      invariant at <= |bytes| && |item| == j
      invariant TakeAll(bytes[from..], n) ==
        match TakeAll(bytes[at..], n - j)
        case None => None
        case Some((others, left)) => Some((item + others, left))
    {
      var length, next := TakeAt(bytes, at);
      if length.None? { return None, at; }
      ghost var before, seen := TakeAll(bytes[next..], n - j - 1), item;
      assert before.Some? ==> seen + ([length.value] + before.value.0) == seen + [length.value] + before.value.0;
      item, at := item + [length.value], next;
    }
    assert item + [] == item;
    return Some(item), at;
  }

  method TakeShapesAt(bytes: seq<byte>, from: nat, count: nat) returns (r: Option<seq<seq<nat>>>, at: nat)
    requires from <= |bytes|
    ensures r.Some? <==> TakeShapes(bytes[from..], count).Some?
    ensures r.Some? ==> at <= |bytes| && TakeShapes(bytes[from..], count) == Some((r.value, bytes[at..]))
  {
    var shapes: seq<seq<nat>> := [];
    at := from;
    assert forall s: seq<seq<nat>> :: shapes + s == s;
    for k := 0 to count
      invariant at <= |bytes|
      invariant TakeShapes(bytes[from..], count) ==
        match TakeShapes(bytes[at..], count - k)
        case None => None
        case Some((others, left)) => Some((shapes + others, left))
    {
      var n, next := TakeAt(bytes, at);
      if n.None? { return None, at; }
      var shape, after := TakeShapeAt(bytes, next, n.value);
      if shape.None? { return None, at; }
      ghost var before, seen := TakeShapes(bytes[after..], count - k - 1), shapes;
      assert before.Some? ==> seen + ([shape.value] + before.value.0) == seen + [shape.value] + before.value.0;
      shapes, at := shapes + [shape.value], after;
    }
    assert shapes + [] == shapes;
    return Some(shapes), at;
  }

  method CountSegments(shapes: seq<seq<nat>>) returns (expected: nat)
    ensures expected == Total(shapes)
  {
    expected := 0;
    for k := 0 to |shapes|
      invariant expected + Total(shapes[k..]) == Total(shapes)
    {
      expected := expected + |shapes[k]|;
    }
  }

  /** `decode_nested`. */
  method DecodeNested<T>(segments: seq<Segment>, prefix: nat, dec: Group -> Result<T, CodecError>)
    returns (r: Result<seq<T>, CodecError>)
    ensures r == DecodeList(segments, prefix, dec)
  {
    if segments == [] { return Err(MissingHeader); }
    var header := segments[0];
    if prefix > |header| { return Err(Truncated); }
    var count, at := TakeAt(header, prefix);
    if count.None? { return Err(Truncated); }
    if count.value > MaxBatchItems { return Err(ItemLimit); }
    var shapes, end := TakeShapesAt(header, at, count.value);
    if shapes.None? { return Err(Truncated); }
    if end != |header| { return Err(TrailingBytes); }
    var expected := CountSegments(shapes.value);
    if |segments| - 1 != expected { return Err(SegmentCount); }
    r := DecodeValues(shapes.value, segments[1..], dec);
  }

  /** The last loop of `decode_nested`: cuts the segments into groups and decodes each. */
  method DecodeValues<T>(shapes: seq<seq<nat>>, source: seq<Segment>, dec: Group -> Result<T, CodecError>)
    returns (r: Result<seq<T>, CodecError>)
    requires |source| == Total(shapes)
    ensures r == DecodeItems(shapes, source, dec)
  {
    var values: seq<T>, at := [], 0;
    assert shapes[0..] == shapes && source[0..] == source;
    ghost var all := DecodeItems(shapes, source, dec);
    assert all.Ok? ==> values + all.value == all.value;
    for k := 0 to |shapes|
      invariant at <= |source| && |source| - at == Total(shapes[k..])
      invariant DecodeItems(shapes, source, dec) ==
        match DecodeItems(shapes[k..], source[at..], dec)
        case Err(e) => Err(e)
        case Ok(others) => Ok(values + others)
    {
      assert shapes[k..][0] == shapes[k] && shapes[k..][1..] == shapes[k + 1..];
      var next := at + |shapes[k]|;
      assert source[at..][..|shapes[k]|] == source[at..next] && source[at..][|shapes[k]|..] == source[next..];
      if Lengths(source[at..next]) != shapes[k] { return Err(SegmentLength); }
      var value := dec(source[at..next]);
      if value.Err? { return Err(value.error); }
      ghost var rest, seen := DecodeItems(shapes[k + 1..], source[next..], dec), values;
      assert rest.Ok? ==> seen + ([value.value] + rest.value) == seen + [value.value] + rest.value;
      values, at := values + [value.value], next;
    }
    assert values + [] == values;
    return Ok(values);
  }

  // ----- what is accepted

  lemma {:induction false} TakeShapesAfterPut(shapes: seq<seq<nat>>, rest: seq<byte>)
    requires forall k :: 0 <= k < |shapes| ==> Small(shapes[k])
    ensures TakeShapes(PutShapes(shapes) + rest, |shapes|) == Some((shapes, rest))
    decreases |shapes|
  {
    if shapes == [] {
      assert PutShapes(shapes) + rest == rest;
    } else {
      Widths();
      var more := PutShapes(shapes[1..]) + rest;
      assert PutShapes(shapes) + rest == LE(|shapes[0]|, 8) + (PutAll(shapes[0]) + more);
      TakeAfterPut(|shapes[0]|, 8, PutAll(shapes[0]) + more);
      TakeAllAfterPut(shapes[0], more);
      TakeShapesAfterPut(shapes[1..], rest);
      assert [shapes[0]] + shapes[1..] == shapes;
    }
  }

  lemma {:induction false} TakeShapesIsPut(bytes: seq<byte>, count: nat)
    requires TakeShapes(bytes, count).Some?
    ensures var (shapes, rest) := TakeShapes(bytes, count).value;
            && |shapes| == count && bytes == PutShapes(shapes) + rest
            && forall k :: 0 <= k < count ==> Small(shapes[k])
    decreases count
  {
    if count > 0 {
      Widths();
      TakeIsPut(bytes, 8);
      var (n, rest) := Take(bytes, 8).value;
      TakeAllIsPut(rest, n);
      var (shape, more) := TakeAll(rest, n).value;
      TakeShapesIsPut(more, count - 1);
      var (others, left) := TakeShapes(more, count - 1).value;
      assert ([shape] + others)[1..] == others;
      assert LE(n, 8) + (PutAll(shape) + (PutShapes(others) + left)) == PutShapes([shape] + others) + left;
    }
  }

  lemma {:induction false} DecodeItemsAfterFlatten<T>(groups: seq<Group>, values: seq<T>, dec: Group -> Result<T, CodecError>)
    requires |groups| == |values| && forall k :: 0 <= k < |groups| ==> dec(groups[k]) == Ok(values[k])
    ensures |Flatten(groups)| == Total(Shapes(groups))
    ensures DecodeItems(Shapes(groups), Flatten(groups), dec) == Ok(values)
    decreases |groups|
  {
    if groups != [] {
      var group, others, shapes := groups[0], Flatten(groups[1..]), Shapes(groups);
      DecodeItemsAfterFlatten(groups[1..], values[1..], dec);
      assert shapes[1..] == Shapes(groups[1..]) && shapes[0] == Lengths(group);
      var all := group + others;
      assert all[..|group|] == group && all[|group|..] == others;
      assert [values[0]] + values[1..] == values;
      assert DecodeItems(shapes, all, dec) == Ok(values);
    }
  }

  /** The groups that an accepted list of segments is cut into. */
  function Cut(shapes: seq<seq<nat>>, segments: seq<Segment>): seq<Group>
    requires |segments| == Total(shapes)
    decreases |shapes|
  {
    if shapes == [] then [] else [segments[..|shapes[0]|]] + Cut(shapes[1..], segments[|shapes[0]|..])
  }

  lemma {:induction false} DecodeItemsCuts<T>(shapes: seq<seq<nat>>, segments: seq<Segment>, dec: Group -> Result<T, CodecError>)
    requires |segments| == Total(shapes)
    requires DecodeItems(shapes, segments, dec).Ok?
    ensures var groups, values := Cut(shapes, segments), DecodeItems(shapes, segments, dec).value;
            && Shapes(groups) == shapes && Flatten(groups) == segments
            && |values| == |groups| && forall k :: 0 <= k < |groups| ==> dec(groups[k]) == Ok(values[k])
    decreases |shapes|
  {
    if shapes != [] {
      var n := |shapes[0]|;
      DecodeItemsCuts(shapes[1..], segments[n..], dec);
      var first, others := segments[..n], Cut(shapes[1..], segments[n..]);
      var tail := DecodeItems(shapes[1..], segments[n..], dec).value;
      assert ([first] + others)[1..] == others;
      ShapesCons(first, others);
      assert shapes == [shapes[0]] + shapes[1..];
      assert segments == first + segments[n..];
      var value := dec(first).value;
      assert DecodeItems(shapes, segments, dec) == Ok([value] + tail);
    }
  }

  lemma ShapesCons(group: Group, others: seq<Group>)
    ensures Shapes([group] + others) == [Lengths(group)] + Shapes(others)
  {
  }

  lemma HeaderParts(prefix: seq<byte>, groups: seq<Group>)
    requires |groups| <= MaxBatchItems
    ensures Header(prefix, groups)[..|prefix|] == prefix
    ensures Take(Header(prefix, groups)[|prefix|..], 8) == Some((|groups|, PutShapes(Shapes(groups))))
  {
    Widths();
    TakeAfterPut(|groups|, 8, PutShapes(Shapes(groups)));
    AfterPrefix(prefix, LE(|groups|, 8), PutShapes(Shapes(groups)));
  }

  lemma AfterPrefix(prefix: seq<byte>, count: seq<byte>, shapes: seq<byte>)
    ensures (prefix + count + shapes)[..|prefix|] == prefix
    ensures (prefix + count + shapes)[|prefix|..] == count + shapes
  {
  }

  /** Every frame of decodable groups is accepted, with the groups' values. */
  lemma FramesAreAccepted<T>(prefix: seq<byte>, groups: seq<Group>, values: seq<T>, dec: Group -> Result<T, CodecError>)
    requires Fits(groups)
    requires |groups| == |values| && forall k :: 0 <= k < |groups| ==> dec(groups[k]) == Ok(values[k])
    ensures DecodeList(Frame(prefix, groups), |prefix|, dec) == Ok(values)
  {
    HeaderParts(prefix, groups);
    assert PutShapes(Shapes(groups)) + [] == PutShapes(Shapes(groups));
    TakeShapesAfterPut(Shapes(groups), []);
    DecodeItemsAfterFlatten(groups, values, dec);
    assert Frame(prefix, groups)[1..] == Flatten(groups);
  }

  lemma Rejoin(header: seq<byte>, prefix: nat, count: seq<byte>, rest: seq<byte>, shapes: seq<byte>)
    requires prefix <= |header| && header[prefix..] == count + rest && rest == shapes + []
    ensures header == header[..prefix] + count + shapes
  {
  }

  /** Nothing else is accepted: an accepted list of segments is, byte for byte, the frame of groups that
      decode to the values returned. So no header with a missing, extra or mismatched length passes. */
  lemma OnlyFramesAreAccepted<T>(segments: seq<Segment>, prefix: nat, dec: Group -> Result<T, CodecError>) returns (groups: seq<Group>)
    requires DecodeList(segments, prefix, dec).Ok?
    ensures var values := DecodeList(segments, prefix, dec).value;
            && Fits(groups) && segments != [] && prefix <= |segments[0]|
            && segments == Frame(segments[0][..prefix], groups)
            && |groups| == |values| && forall k :: 0 <= k < |groups| ==> dec(groups[k]) == Ok(values[k])
  {
    var header := segments[0];
    var (count, rest) := Take(header[prefix..], 8).value;
    TakeIsPut(header[prefix..], 8);
    TakeShapesIsPut(rest, count);
    var (shapes, left) := TakeShapes(rest, count).value;
    DecodeItemsCuts(shapes, segments[1..], dec);
    groups := Cut(shapes, segments[1..]);
    assert forall k :: 0 <= k < |groups| ==> shapes[k] == Lengths(groups[k]);
    Rejoin(header, prefix, LE(count, 8), rest, PutShapes(shapes));
    assert segments == [header] + segments[1..];
  }

  /** Lists of values whose own codec round-trips round-trip. */
  lemma ListRoundTrip<T>(values: seq<T>, prefix: seq<byte>, enc: T -> Result<Group, CodecError>, dec: Group -> Result<T, CodecError>)
    requires |values| <= MaxBatchItems
    requires forall k :: 0 <= k < |values| ==>
               enc(values[k]).Ok? && Small(Lengths(enc(values[k]).value)) && dec(enc(values[k]).value) == Ok(values[k])
    ensures EncodeList(values, prefix, enc).Ok?
    ensures var segments := EncodeList(values, prefix, enc).value;
            && segments != [] && |prefix| <= |segments[0]| && segments[0][..|prefix|] == prefix
            && DecodeList(segments, |prefix|, dec) == Ok(values)
  {
    MapExact(values, enc);
    var groups := Map(values, enc).value;
    HeaderParts(prefix, groups);
    FramesAreAccepted(prefix, groups, values, dec);
  }

  /** When the values' own codec is canonical, so are lists: what decodes is the encoding of its values. */
  lemma ListsAreCanonical<T>(segments: seq<Segment>, prefix: nat, enc: T -> Result<Group, CodecError>, dec: Group -> Result<T, CodecError>)
    requires DecodeList(segments, prefix, dec).Ok?
    requires forall group :: dec(group).Ok? ==> enc(dec(group).value) == Ok(group)
    ensures segments != [] && prefix <= |segments[0]|
    ensures EncodeList(DecodeList(segments, prefix, dec).value, segments[0][..prefix], enc) == Ok(segments)
  {
    var values := DecodeList(segments, prefix, dec).value;
    var groups := OnlyFramesAreAccepted(segments, prefix, dec);
    assert forall k :: 0 <= k < |groups| ==> enc(values[k]) == Ok(groups[k]);
    MapExact(values, enc);
    assert Map(values, enc).value == groups;
  }
}
