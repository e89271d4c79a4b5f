/** The wire forms of a batch and of its reply, crates/hataori-algorithms/src/batch.rs.

  The codec of one value and the UTF-8 form of a text are parameters.
 */
module BatchCodec {
  import opened Wrappers
  import opened Bytes
  import opened SerialMap
  import opened NestedCodec
  import opened Texts

  datatype Codec<!T> = Codec(enc: T -> Result<Group, CodecError>, dec: Group -> Result<T, CodecError>)
  {
    /** The value survives its own codec, in groups whose sizes a 64-bit program can hold with a tag added. */
    ghost predicate Keeps(value: T) {
      && enc(value).Ok? && Small(Lengths(enc(value).value)) && |enc(value).value| + 1 < U64
      && dec(enc(value).value) == Ok(value)
    }

    /** The codec decodes nothing but its own encodings. */
    ghost predicate Canonical() {
      forall group :: dec(group).Ok? ==> enc(dec(group).value) == Ok(group)
    }
  }

  // ----- batches

  datatype BatchAction<T> = BatchAction(start: nat, mode: LocalMode, items: seq<T>)

  function ModeByte(mode: LocalMode): byte {
    match mode case Sequential => 0 case Outer => 1 case Inner => 2
  }

  function ActionPrefix(start: nat, mode: LocalMode): seq<byte> {
    LE(start, 8) + [ModeByte(mode)]
  }

  function EncodeAction<T>(c: Codec<T>, action: BatchAction<T>): Result<seq<Segment>, CodecError> {
    EncodeList(action.items, ActionPrefix(action.start, action.mode), c.enc)
  }

  function DecodeAction<T>(c: Codec<T>, segments: seq<Segment>): Result<BatchAction<T>, CodecError> {
    if segments == [] then Err(MissingHeader)
    else
      match Take(segments[0], 8)
      case None => Err(Truncated)
      case Some((start, rest)) =>
        if rest == [] then Err(MissingMode)
        else if rest[0] > 2 then Err(InvalidMode)
        else
          var items :- DecodeList(segments, 9, c.dec);
          Ok(BatchAction(start, if rest[0] == 0 then Sequential else if rest[0] == 1 then Outer else Inner, items))
  }

  lemma ActionRoundTrip<T>(c: Codec<T>, action: BatchAction<T>)
    requires action.start < U64 && |action.items| <= MaxBatchItems
    requires forall k :: 0 <= k < |action.items| ==> c.Keeps(action.items[k])
    ensures EncodeAction(c, action).Ok? && DecodeAction(c, EncodeAction(c, action).value) == Ok(action)
  {
    var prefix := ActionPrefix(action.start, action.mode);
    ListRoundTrip(action.items, prefix, c.enc, c.dec);
    var header := EncodeAction(c, action).value[0];
    var after := [ModeByte(action.mode)] + header[9..];
    assert header == prefix + header[9..] == LE(action.start, 8) + after;
    Widths();
    TakeAfterPut(action.start, 8, after);
  }

  /** A batch that decodes is the encoding of the batch it decodes to. */
  lemma ActionsAreCanonical<T>(c: Codec<T>, segments: seq<Segment>)
    requires c.Canonical() && DecodeAction(c, segments).Ok?
    ensures EncodeAction(c, DecodeAction(c, segments).value) == Ok(segments)
  {
    var action := DecodeAction(c, segments).value;
    ListsAreCanonical(segments, 9, c.enc, c.dec);
    var header := segments[0];
    TakeIsPut(header, 8);
    assert header[..9] == header[..8] + [header[8]] == ActionPrefix(action.start, action.mode);
  }

  // ----- replies

  datatype ItemReply<T> = Done(value: T) | Failed(message: string)

  datatype BatchReply<T> = BatchReply(start: nat, items: seq<ItemReply<T>>)

  /** What the reply is on the wire: long texts are cut, everything else is kept. */
  function WireItem<T>(u: Utf8, item: ItemReply<T>): ItemReply<T> {
    match item
    case Done(value) => item
    case Failed(message) => Failed(Shortened(u, message))
  }

  function WireItems<T>(u: Utf8, items: seq<ItemReply<T>>): seq<ItemReply<T>> {
    seq(|items|, k requires 0 <= k < |items| => WireItem(u, items[k]))
  }

  function EncodeItem<T>(c: Codec<T>, u: Utf8, item: ItemReply<T>): Result<Group, CodecError> {
    match item
    case Done(value) =>
      var group :- c.enc(value);
      Ok([[0]] + group)
    case Failed(message) => Ok([[1], u.pack(message)])
  }

  function DecodeItem<T>(c: Codec<T>, u: Utf8, group: Group): Result<ItemReply<T>, CodecError> {
    if group == [] then Err(MissingTag)
    else if group[0] == [0] then
      var value :- c.dec(group[1..]);
      Ok(Done(value))
    else if group[0] == [1] then
      if |group| != 2 || |group[1]| > MaxErrorBytes then Err(InvalidText)
      else
        match u.unpack(group[1])
        case None => Err(NotUtf8)
        case Some(message) => Ok(Failed(message))
    else Err(InvalidTag)
  }

  function ItemCodec<T>(c: Codec<T>, u: Utf8): Codec<ItemReply<T>> {
    Codec((item: ItemReply<T>) => EncodeItem(c, u, item), (group: Group) => DecodeItem(c, u, group))
  }

  function EncodeReply<T>(c: Codec<T>, u: Utf8, reply: BatchReply<T>): Result<seq<Segment>, CodecError> {
    EncodeList(WireItems(u, reply.items), LE(reply.start, 8), ItemCodec(c, u).enc)
  }

  function DecodeReply<T>(c: Codec<T>, u: Utf8, segments: seq<Segment>): Result<BatchReply<T>, CodecError> {
    if segments == [] then Err(MissingHeader)
    else
      match Take(segments[0], 8)
      case None => Err(Truncated)
      case Some((start, rest)) =>
        var items :- DecodeList(segments, 8, ItemCodec(c, u).dec);
        Ok(BatchReply(start, items))
  }

  lemma ItemRoundTrip<T>(c: Codec<T>, u: Utf8, item: ItemReply<T>)
    requires u.Good() && (item.Done? ==> c.Keeps(item.value))
    requires item.Failed? ==> |u.pack(item.message)| <= MaxErrorBytes
    ensures var group := EncodeItem(c, u, item);
            group.Ok? && Small(Lengths(group.value)) && DecodeItem(c, u, group.value) == Ok(item)
  {
    if item.Done? {
      var group := c.enc(item.value).value;
      assert ([[0]] + group)[1..] == group;
      assert Lengths([[0]] + group)[1..] == Lengths(group);
      assert forall j :: 1 <= j < |group| + 1 ==> Lengths([[0]] + group)[j] == Lengths(group)[j - 1];
    }
  }

  lemma ItemsAreCanonical<T>(c: Codec<T>, u: Utf8, group: Group)
    requires c.Canonical() && u.Good() && DecodeItem(c, u, group).Ok?
    ensures EncodeItem(c, u, DecodeItem(c, u, group).value) == Ok(group)
    ensures WireItem(u, DecodeItem(c, u, group).value) == DecodeItem(c, u, group).value
  {
    assert group == [group[0]] + group[1..];
    if group[0] == [1] { assert group == [[1], group[1]]; }
  }

  /** What arrives is the reply with its texts cut, so a reply round-trips exactly when every error text
      fits 4096 bytes. */
  lemma ReplyRoundTrip<T>(c: Codec<T>, u: Utf8, reply: BatchReply<T>)
    requires u.Good() && reply.start < U64 && |reply.items| <= MaxBatchItems
    requires forall k :: 0 <= k < |reply.items| && reply.items[k].Done? ==> c.Keeps(reply.items[k].value)
    ensures EncodeReply(c, u, reply).Ok?
    ensures var back := DecodeReply(c, u, EncodeReply(c, u, reply).value);
            && back == Ok(BatchReply(reply.start, WireItems(u, reply.items)))
            && (back == Ok(reply) <==>
                forall k :: 0 <= k < |reply.items| && reply.items[k].Failed? ==> |u.pack(reply.items[k].message)| <= MaxErrorBytes)
  {
    var items, item := WireItems(u, reply.items), ItemCodec(c, u);
    forall k | 0 <= k < |items|
      ensures item.enc(items[k]).Ok? && Small(Lengths(item.enc(items[k]).value)) && item.dec(item.enc(items[k]).value) == Ok(items[k])
      ensures items[k] == reply.items[k] <==> (reply.items[k].Failed? ==> |u.pack(reply.items[k].message)| <= MaxErrorBytes)
    {
      if reply.items[k].Failed? { ShortenedIsLongestFit(u, reply.items[k].message); }
      ItemRoundTrip(c, u, items[k]);
    }
    assert items == reply.items <==> forall k :: 0 <= k < |items| ==> items[k] == reply.items[k];
    ListRoundTrip(items, LE(reply.start, 8), item.enc, item.dec);
    var header := EncodeReply(c, u, reply).value[0];
    assert header == LE(reply.start, 8) + header[8..];
    Widths();
    TakeAfterPut(reply.start, 8, header[8..]);
  }

  /** A reply that decodes is the encoding of the reply it decodes to. */
  lemma RepliesAreCanonical<T>(c: Codec<T>, u: Utf8, segments: seq<Segment>)
    requires c.Canonical() && u.Good() && DecodeReply(c, u, segments).Ok?
    ensures EncodeReply(c, u, DecodeReply(c, u, segments).value) == Ok(segments)
  {
    var reply, item := DecodeReply(c, u, segments).value, ItemCodec(c, u);
    forall group | item.dec(group).Ok? ensures item.enc(item.dec(group).value) == Ok(group) {
      ItemsAreCanonical(c, u, group);
    }
    ListsAreCanonical(segments, 8, item.enc, item.dec);
    var groups := OnlyFramesAreAccepted(segments, 8, item.dec);
    forall k | 0 <= k < |groups| ensures WireItem(u, reply.items[k]) == reply.items[k] {
      assert item.dec(groups[k]) == Ok(reply.items[k]);
      ItemsAreCanonical(c, u, groups[k]);
    }
    assert WireItems(u, reply.items) == reply.items;
    TakeIsPut(segments[0], 8);
  }
}
