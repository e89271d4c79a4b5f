/** Which lists of values cannot be sent, and with which error a damaged frame of segments is refused. */
module CodecErrors {
  import opened Wrappers
  import opened Bytes
  import opened SerialMap
  import opened NestedCodec
  import opened Texts
  import opened BatchCodec

  /** A list is sent exactly when it is not too long and all its values encode; otherwise the error is its length, or that
      of the first value that does not encode. */
  lemma EncodingIsAnswered<T>(values: seq<T>, prefix: seq<byte>, enc: T -> Result<Group, CodecError>)
    ensures EncodeList(values, prefix, enc).Ok? <==> |values| <= MaxBatchItems && forall k :: 0 <= k < |values| ==> enc(values[k]).Ok?
    ensures |values| > MaxBatchItems ==> EncodeList(values, prefix, enc) == Err(ItemLimit)
    ensures forall k :: 0 <= k < |values| <= MaxBatchItems && enc(values[k]).Err? && (forall j :: 0 <= j < k ==> enc(values[j]).Ok?) ==>
              EncodeList(values, prefix, enc) == Err(enc(values[k]).error)
  {
    MapExact(values, enc);
  }

  // ----- reading on

  lemma TakeOn(bytes: seq<byte>, more: seq<byte>, width: nat)
    ensures Take(bytes, width).Some? ==>
              Take(bytes + more, width) == Some((Take(bytes, width).value.0, Take(bytes, width).value.1 + more))
  {
    if |bytes| >= width {
      assert (bytes + more)[..width] == bytes[..width] && (bytes + more)[width..] == bytes[width..] + more;
    }
  }

  lemma {:induction false} TakeAllOn(bytes: seq<byte>, more: seq<byte>, n: nat)
    ensures TakeAll(bytes, n).Some? ==>
              TakeAll(bytes + more, n) == Some((TakeAll(bytes, n).value.0, TakeAll(bytes, n).value.1 + more))
  {
    if n > 0 {
      TakeOn(bytes, more, 8);
      if |bytes| >= 8 { TakeAllOn(bytes[8..], more, n - 1); }
    }
  }

  lemma {:induction false} TakeShapesOn(bytes: seq<byte>, more: seq<byte>, count: nat)
    ensures TakeShapes(bytes, count).Some? ==>
              TakeShapes(bytes + more, count) == Some((TakeShapes(bytes, count).value.0, TakeShapes(bytes, count).value.1 + more))
    decreases count
  {
    if count > 0 {
      TakeOn(bytes, more, 8);
      if |bytes| >= 8 {
        var n, rest := UnLE(bytes[..8]), bytes[8..];
        TakeAllOn(rest, more, n);
        if TakeAll(rest, n).Some? { TakeShapesOn(TakeAll(rest, n).value.1, more, count - 1); }
      }
    }
  }

  // ----- damaged frames

  /** The shapes a header spells behind its prefix. */
  function ShapesOf(header: seq<byte>, prefix: nat): Option<(seq<seq<nat>>, seq<byte>)> {
    if prefix > |header| || |header| - prefix < 8 || UnLE(header[prefix..][..8]) > MaxBatchItems then None
    else TakeShapes(header[prefix..][8..], UnLE(header[prefix..][..8]))
  }

  /** A header that is cut short anywhere is refused as truncated, whatever segments follow it. */
  lemma CutHeaderIsTruncated<T>(segments: seq<Segment>, prefix: nat, dec: Group -> Result<T, CodecError>, n: nat, others: seq<Segment>)
    requires DecodeList(segments, prefix, dec).Ok? && n < |segments[0]|
    ensures DecodeList([segments[0][..n]] + others, prefix, dec) == Err(Truncated)
  {
    var header := segments[0];
    var cut, more := header[..n], header[n..];
    if n >= prefix + 8 {
      assert cut[prefix..][..8] == header[prefix..][..8];
      assert cut[prefix..][8..] + more == header[prefix..][8..];
      TakeShapesOn(cut[prefix..][8..], more, UnLE(header[prefix..][..8]));
    }
  }

  /** A header that goes on behind its shapes, and a frame with a segment too few or too many, are refused as such. */
  lemma ExtraPartsAreRefused<T>(segments: seq<Segment>, prefix: nat, dec: Group -> Result<T, CodecError>, more: seq<byte>, others: seq<Segment>)
    requires DecodeList(segments, prefix, dec).Ok?
    ensures more != [] ==> DecodeList([segments[0] + more] + others, prefix, dec) == Err(TrailingBytes)
    ensures |others| + 1 != |segments| ==> DecodeList([segments[0]] + others, prefix, dec) == Err(SegmentCount)
    ensures DecodeList<T>([], prefix, dec) == Err(MissingHeader)
  {
    var header := segments[0];
    assert (header + more)[prefix..][..8] == header[prefix..][..8];
    assert (header + more)[prefix..][8..] == header[prefix..][8..] + more;
    TakeShapesOn(header[prefix..][8..], more, UnLE(header[prefix..][..8]));
  }

  /** A header that announces too many values is refused before its shapes are read. */
  lemma TooManyValuesAreRefused<T>(segments: seq<Segment>, prefix: nat, dec: Group -> Result<T, CodecError>)
    requires segments != [] && prefix + 8 <= |segments[0]| && UnLE(segments[0][prefix..prefix + 8]) > MaxBatchItems
    ensures DecodeList(segments, prefix, dec) == Err(ItemLimit)
  {
    assert segments[0][prefix..][..8] == segments[0][prefix..prefix + 8];
  }

  /** Group `k` is the first whose lengths are not those announced, or that does not decode, and this is its error. */
  ghost predicate FirstWrong<T>(shapes: seq<seq<nat>>, groups: seq<Group>, dec: Group -> Result<T, CodecError>, k: nat, error: CodecError) {
    && k < |groups| == |shapes|
    && (forall j :: 0 <= j < k ==> Lengths(groups[j]) == shapes[j] && dec(groups[j]).Ok?)
    && if Lengths(groups[k]) != shapes[k] then error == SegmentLength else dec(groups[k]) == Err(error)
  }

  lemma LaterWrong<T>(shapes: seq<seq<nat>>, groups: seq<Group>, dec: Group -> Result<T, CodecError>, k: nat, error: CodecError)
    requires shapes != [] && groups != [] && Lengths(groups[0]) == shapes[0] && dec(groups[0]).Ok?
    requires FirstWrong(shapes[1..], groups[1..], dec, k, error)
    ensures FirstWrong(shapes, groups, dec, k + 1, error)
  {
    assert groups[k + 1] == groups[1..][k] && shapes[k + 1] == shapes[1..][k];
    forall j | 0 <= j < k + 1 ensures Lengths(groups[j]) == shapes[j] && dec(groups[j]).Ok? {
      if j > 0 { assert groups[j] == groups[1..][j - 1] && shapes[j] == shapes[1..][j - 1]; }
    }
  }

  /** Segments that do not have the lengths announced, or groups that do not decode: the first such group gives the error. */
  lemma {:induction false} WrongGroupsAreRefused<T>(shapes: seq<seq<nat>>, segments: seq<Segment>, dec: Group -> Result<T, CodecError>) returns (k: nat)
    requires |segments| == Total(shapes)
    ensures var r := DecodeItems(shapes, segments, dec);
            if r.Ok? then Shapes(Cut(shapes, segments)) == shapes else FirstWrong(shapes, Cut(shapes, segments), dec, k, r.error)
    decreases |shapes|
  {
    k := 0;
    if DecodeItems(shapes, segments, dec).Ok? {
      DecodeItemsCuts(shapes, segments, dec);
    } else {
      var n, error := |shapes[0]|, DecodeItems(shapes, segments, dec).error;
      var groups := Cut(shapes, segments);
      CutsAll(shapes, segments);
      if Lengths(groups[0]) == shapes[0] && dec(groups[0]).Ok? {
        k := WrongGroupsAreRefused(shapes[1..], segments[n..], dec);
        assert groups[1..] == Cut(shapes[1..], segments[n..]);
        LaterWrong(shapes, groups, dec, k, error);
        k := k + 1;
      }
    }
  }

  lemma {:induction false} CutsAll(shapes: seq<seq<nat>>, segments: seq<Segment>)
    requires |segments| == Total(shapes)
    ensures |Cut(shapes, segments)| == |shapes|
    decreases |shapes|
  {
    if shapes != [] { CutsAll(shapes[1..], segments[|shapes[0]|..]); }
  }

  // ----- batches and replies

  /** The fixed part of a batch: its start, then its mode. */
  lemma ActionHeaderIsChecked<T>(c: Codec<T>, segments: seq<Segment>)
    ensures segments == [] ==> DecodeAction(c, segments) == Err(MissingHeader)
    ensures segments != [] && |segments[0]| < 8 ==> DecodeAction(c, segments) == Err(Truncated)
    ensures segments != [] && |segments[0]| == 8 ==> DecodeAction(c, segments) == Err(MissingMode)
    ensures segments != [] && |segments[0]| > 8 && segments[0][8] > 2 ==> DecodeAction(c, segments) == Err(InvalidMode)
    ensures segments != [] && |segments[0]| > 8 && segments[0][8] <= 2 && DecodeList(segments, 9, c.dec).Err? ==>
              DecodeAction(c, segments) == Err(DecodeList(segments, 9, c.dec).error)
  {
    if segments != [] && |segments[0]| > 8 { assert segments[0][8..][0] == segments[0][8]; }
  }

  /** The items of a reply: a tag, then a value or a bounded text. */
  lemma ItemIsChecked<T>(c: Codec<T>, u: Utf8, group: Group)
    ensures match DecodeItem(c, u, group)
            case Ok(Done(value)) => group != [] && group[0] == [0] && c.dec(group[1..]) == Ok(value)
            case Ok(Failed(message)) =>
              |group| == 2 && group[0] == [1] && |group[1]| <= MaxErrorBytes && u.unpack(group[1]) == Some(message)
            case Err(error) =>
              if group == [] then error == MissingTag
              else if group[0] == [0] then c.dec(group[1..]) == Err(error)
              else if group[0] != [1] then error == InvalidTag
              else if |group| != 2 || |group[1]| > MaxErrorBytes then error == InvalidText
              else error == NotUtf8 && u.unpack(group[1]).None?
  {
  }
}
