/** Reassembly makes nothing up: chunks that are accepted without an error are those of whole frames, in order. */
module ChunkOrigins {
  import opened Wrappers
  import opened Bytes
  import opened Protocol
  import opened Chunks

  /** A header that reads is the header of its chunk. */
  lemma HeadIsCanonical(chunk: seq<byte>)
    requires ReadHead(chunk).Ok?
    ensures var h := ReadHead(chunk).value;
            && chunk == PutHead(h) + chunk[HeaderBytes..]
            && h.transfer < U64 && h.total < U64 && h.index < U32 && h.count < U32
  {
    WritesWhatWasRead(chunk[..4]);
    WritesWhatWasRead(chunk[4..5]);
    var fields := chunk[5..29];
    WritesWhatWasRead(fields[..8]);
    WritesWhatWasRead(fields[8..16]);
    WritesWhatWasRead(fields[16..20]);
    WritesWhatWasRead(fields[20..24]);
    Widths();
    FieldsJoin(fields);
    HeadJoins(chunk);
  }

  lemma FieldsJoin(fields: seq<byte>)
    requires |fields| == 24
    ensures fields[..8] + fields[8..16] + fields[16..20] + fields[20..24] == fields
  {
  }

  lemma HeadJoins(chunk: seq<byte>)
    requires |chunk| >= 29
    ensures chunk[..4] + chunk[4..5] + chunk[5..29] + chunk[29..] == chunk
  {
  }

  /** The first `n` chunks of a frame of `total` bytes that starts with these bytes; each of them is full. */
  function FullChunks(ticket: nat, total: nat, bytes: seq<byte>, n: nat): seq<seq<byte>>
    requires n * PayloadBytes <= |bytes|
  {
    if n == 0 then []
    else
      FullChunks(ticket, total, bytes, n - 1)
      + [PutHead(Head(ticket, total, n - 1, ChunkCount(total))) + bytes[(n - 1) * PayloadBytes..n * PayloadBytes]]
  }

  lemma {:induction false} FullChunksOfMore(ticket: nat, total: nat, bytes: seq<byte>, more: seq<byte>, n: nat)
    requires n * PayloadBytes <= |bytes|
    ensures FullChunks(ticket, total, bytes + more, n) == FullChunks(ticket, total, bytes, n)
  {
    if n > 0 {
      FullChunksOfMore(ticket, total, bytes, more, n - 1);
      SliceOfMore(bytes, more, (n - 1) * PayloadBytes, n * PayloadBytes);
    }
  }

  lemma SliceOfMore(bytes: seq<byte>, more: seq<byte>, from: nat, to: nat)
    requires from <= to <= |bytes|
    ensures (bytes + more)[from..to] == bytes[from..to]
  {
  }

  /** The slot holds what these chunks carried, and nothing else. */
  ghost predicate Holds(slot: Option<Reassembly>, seen: seq<seq<byte>>) {
    match slot
    case None => seen == []
    case Some(st) =>
      && |st.bytes| == st.nextChunk * PayloadBytes && st.count == ChunkCount(st.total) && st.transfer < U64
      && seen == FullChunks(st.transfer, st.total, st.bytes, st.nextChunk)
  }

  /** What an accepted chunk says about itself. */
  lemma AcceptedChunk<P>(slot: Option<Reassembly>, chunk: seq<byte>, maxFrame: nat, dec: Decoder<P>)
    requires Accept(slot, chunk, maxFrame, dec).1.Ok?
    ensures ReadHead(chunk).Ok?
    ensures var h := ReadHead(chunk).value;
            var st := if slot.None? then Fresh(h) else slot.value;
            && Continues(st, h) && CheckHead(h, |chunk| - HeaderBytes, maxFrame).Ok?
            && Accept(slot, chunk, maxFrame, dec) == Append(st, chunk[HeaderBytes..], dec)
  {
  }

  /** One more full chunk. */
  lemma OneMore(ticket: nat, total: nat, bytes: seq<byte>, payload: seq<byte>, n: nat)
    requires |bytes| == n * PayloadBytes && |payload| == PayloadBytes
    ensures FullChunks(ticket, total, bytes + payload, n + 1)
            == FullChunks(ticket, total, bytes, n) + [PutHead(Head(ticket, total, n, ChunkCount(total))) + payload]
  {
    FullChunksOfMore(ticket, total, bytes, payload, n);
    assert (bytes + payload)[n * PayloadBytes..(n + 1) * PayloadBytes] == payload;
  }

  lemma FullChunkIs(bytes: seq<byte>, ticket: nat, k: nat)
    requires (k + 1) * PayloadBytes <= |bytes| && k < ChunkCount(|bytes|)
    ensures ChunkAt(bytes, ticket, k)
            == PutHead(Head(ticket, |bytes|, k, ChunkCount(|bytes|))) + bytes[k * PayloadBytes..(k + 1) * PayloadBytes]
  {
  }

  lemma Associate<T>(first: seq<T>, one: T, rest: seq<T>)
    ensures first + [one] + rest == first + ([one] + rest)
  {
  }

  lemma {:induction false} FullChunksAreFirst(bytes: seq<byte>, ticket: nat, n: nat)
    requires n * PayloadBytes <= |bytes| && n <= ChunkCount(|bytes|)
    ensures FullChunks(ticket, |bytes|, bytes, n) + ChunksFrom(bytes, ticket, n) == ChunksFrom(bytes, ticket, 0)
  {
    if n > 0 {
      FullChunksAreFirst(bytes, ticket, n - 1);
      FullChunkIs(bytes, ticket, n - 1);
      Associate(FullChunks(ticket, |bytes|, bytes, n - 1), ChunkAt(bytes, ticket, n - 1), ChunksFrom(bytes, ticket, n));
    }
  }

  /** The chunks seen, with the last one, are those of the frame. */
  lemma LastCompletes(ticket: nat, bytes: seq<byte>, held: seq<byte>, payload: seq<byte>, n: nat)
    requires bytes == held + payload && |held| == n * PayloadBytes && ChunkCount(|bytes|) == n + 1
    ensures FullChunks(ticket, |bytes|, held, n) + [PutHead(Head(ticket, |bytes|, n, n + 1)) + payload] == ChunksFrom(bytes, ticket, 0)
  {
    FullChunksOfMore(ticket, |bytes|, held, payload, n);
    FullChunksAreFirst(bytes, ticket, n);
    ChunkBounds(|bytes|, n);
    assert bytes[n * PayloadBytes..EndOf(|bytes|, n)] == payload;
    assert ChunksFrom(bytes, ticket, n) == [ChunkAt(bytes, ticket, n)] + ChunksFrom(bytes, ticket, n + 1);
    assert ChunksFrom(bytes, ticket, n + 1) == [];
  }

  /** An accepted chunk either is held with the ones before it, or completes with them the chunks of one whole frame, which
      decodes to the parcel. */
  lemma AcceptOrigin<P>(slot: Option<Reassembly>, seen: seq<seq<byte>>, chunk: seq<byte>, maxFrame: nat, dec: Decoder<P>)
    returns (bytes: seq<byte>, ticket: nat)
    requires SlotGood(slot, maxFrame) && Holds(slot, seen) && Accept(slot, chunk, maxFrame, dec).1.Ok?
    ensures var (next, r) := Accept(slot, chunk, maxFrame, dec);
            match r.value
            case None => Holds(next, seen + [chunk])
            case Some(p) => next == None && Whole(bytes, p, ticket, maxFrame, dec) && seen + [chunk] == ChunksFrom(bytes, ticket, 0)
  {
    AcceptedChunk(slot, chunk, maxFrame, dec);
    HeadIsCanonical(chunk);
    var h, payload := ReadHead(chunk).value, chunk[HeaderBytes..];
    var st := if slot.None? then Fresh(h) else slot.value;
    bytes, ticket := st.bytes + payload, h.transfer;
    ChunkBounds(h.total, h.index);
    assert seen == FullChunks(h.transfer, h.total, st.bytes, h.index);
    if h.index + 1 == h.count {
      LastCompletes(ticket, bytes, st.bytes, payload, h.index);
    } else {
      OneMore(h.transfer, h.total, st.bytes, payload, h.index);
    }
  }

  ghost predicate AllWhole<P>(sent: seq<Sending<P>>, maxFrame: nat, dec: Decoder<P>) {
    forall i :: 0 <= i < |sent| ==> Whole(sent[i].bytes, sent[i].parcel, sent[i].ticket, maxFrame, dec)
  }

  /** What feeding gave: the chunks seen and fed are those of the frames, followed by what the slot holds at the end. */
  ghost predicate Explained<P(!new)>(all: seq<seq<byte>>, fed: (Option<Reassembly>, Result<seq<P>, ChunkError>), sent: seq<Sending<P>>,
                                     left: seq<seq<byte>>, maxFrame: nat, dec: Decoder<P>)
  {
    AllWhole(sent, maxFrame, dec) && all == AllChunks(sent) + left && fed.1 == Ok(Parcels(sent)) && Holds(fed.0, left)
  }

  lemma FrameIsExplained<P(!new)>(first: seq<seq<byte>>, more: seq<seq<byte>>, s: Sending<P>, rest: (Option<Reassembly>, Result<seq<P>, ChunkError>),
                                  others: seq<Sending<P>>, left: seq<seq<byte>>, maxFrame: nat, dec: Decoder<P>)
    requires Whole(s.bytes, s.parcel, s.ticket, maxFrame, dec) && first == ChunksFrom(s.bytes, s.ticket, 0)
    requires Explained(more, rest, others, left, maxFrame, dec)
    ensures Explained(first + more, Delivered(s.parcel, rest), [s] + others, left, maxFrame, dec)
  {
    FirstFrame([s] + others, others, first, more, left);
  }

  lemma FirstFrame<P(!new)>(sent: seq<Sending<P>>, others: seq<Sending<P>>, first: seq<seq<byte>>, more: seq<seq<byte>>, left: seq<seq<byte>>)
    requires sent != [] && sent[1..] == others && first == ChunksFrom(sent[0].bytes, sent[0].ticket, 0)
    requires more == AllChunks(others) + left
    ensures first + more == AllChunks(sent) + left && Parcels(sent) == [sent[0].parcel] + Parcels(others)
  {
    assert Cuts(sent)[1..] == Cuts(others);
    assert AllChunks(sent) == first + AllChunks(others);
    assert first + (AllChunks(others) + left) == first + AllChunks(others) + left;
  }

  /** One chunk of a feed that goes well. */
  lemma FeedOrigin<P(!new)>(slot: Option<Reassembly>, seen: seq<seq<byte>>, chunk: seq<byte>, more: seq<seq<byte>>, maxFrame: nat, dec: Decoder<P>)
    returns (next: Option<Reassembly>, parcel: Option<P>, bytes: seq<byte>, ticket: nat)
    requires SlotGood(slot, maxFrame) && Holds(slot, seen) && Feed(slot, [chunk] + more, maxFrame, dec).1.Ok?
    ensures SlotGood(next, maxFrame) && Feed(next, more, maxFrame, dec).1.Ok?
    ensures match parcel
            case None => Feed(slot, [chunk] + more, maxFrame, dec) == Feed(next, more, maxFrame, dec) && Holds(next, seen + [chunk])
            case Some(p) =>
              && Feed(slot, [chunk] + more, maxFrame, dec) == Delivered(p, Feed(next, more, maxFrame, dec))
              && next == None && Whole(bytes, p, ticket, maxFrame, dec) && seen + [chunk] == ChunksFrom(bytes, ticket, 0)
  {
    var r := Accept(slot, chunk, maxFrame, dec).1;
    next := Accept(slot, chunk, maxFrame, dec).0;
    assert ([chunk] + more)[0] == chunk;
    AcceptKeeps(slot, chunk, maxFrame, dec);
    bytes, ticket := AcceptOrigin(slot, seen, chunk, maxFrame, dec);
    FeedMore(slot, chunk, more, maxFrame, dec);
    parcel := r.value;
  }

  /** Whatever chunks are fed without an error: together with those already held they are exactly all chunks of a list of
      whole frames, each of which decodes to the parcel handed out for it, followed by those still held. */
  lemma {:induction false} OnlyFramesAreReassembled<P(!new)>(slot: Option<Reassembly>, seen: seq<seq<byte>>, chunks: seq<seq<byte>>, maxFrame: nat, dec: Decoder<P>)
    returns (sent: seq<Sending<P>>, left: seq<seq<byte>>)
    requires SlotGood(slot, maxFrame) && Holds(slot, seen) && Feed(slot, chunks, maxFrame, dec).1.Ok?
    ensures Explained(seen + chunks, Feed(slot, chunks, maxFrame, dec), sent, left, maxFrame, dec)
    decreases |chunks|
  {
    if chunks == [] {
      sent, left := [], seen;
      assert seen + chunks == [] + seen && Parcels(sent) == [];
    } else {
      var chunk, more := chunks[0], chunks[1..];
      assert chunks == [chunk] + more && seen + chunks == seen + [chunk] + more;
      var next, parcel, bytes, ticket := FeedOrigin(slot, seen, chunk, more, maxFrame, dec);
      sent, left := OnlyFramesAreReassembled(next, if parcel.None? then seen + [chunk] else [], more, maxFrame, dec);
      if parcel.Some? {
        var s := Sending(parcel.value, bytes, ticket);
        assert [] + more == more;
        FrameIsExplained(seen + [chunk], more, s, Feed(next, more, maxFrame, dec), sent, left, maxFrame, dec);
        sent := [s] + sent;
      }
    }
  }

  // ----- refused chunks

  /** The metadata belongs to a frame of `total` bytes within the limit and to one of its chunks. */
  predicate Possible(h: Head, maxFrame: nat) {
    h.transfer > 0 && h.count == ChunkCount(h.total) && h.index < h.count && h.total <= maxFrame
  }

  /** The bytes that chunk `index` of the frame carries. */
  function Share(h: Head): int {
    if h.index + 1 < h.count then PayloadBytes else h.total - h.index * PayloadBytes
  }

  /** The slot waits for this chunk. */
  predicate Awaits(slot: Option<Reassembly>, h: Head) {
    match slot
    case None => h.index == 0
    case Some(st) => h == Head(st.transfer, st.total, st.nextChunk, st.count)
  }

  /** Each chunk is refused for its own reason: a header that is too short or not one, metadata that belongs to no frame, a
      payload of the wrong length, a chunk that is not the next one, or a frame that does not decode; every other chunk is
      accepted. */
  lemma ChunkIsAnswered<P>(slot: Option<Reassembly>, chunk: seq<byte>, maxFrame: nat, dec: Decoder<P>)
    requires SlotGood(slot, maxFrame)
    ensures var r := Accept(slot, chunk, maxFrame, dec).1;
            if |chunk| < HeaderBytes then r == Err(TruncatedHeader)
            else if UnLE(chunk[..4]) != ChunkMagic || UnLE(chunk[4..5]) != ChunkVersion then r == Err(BadMagic)
            else
              var h := HeadOf(chunk[5..HeaderBytes]);
              if ChunkCount(h.total) >= U32 then r == Err(CountTooLarge)
              else if !Possible(h, maxFrame) then r == Err(BadMetadata)
              else if |chunk| - HeaderBytes != Share(h) then r == Err(PayloadLength)
              else if !Awaits(slot, h) then r == Err(if slot.None? then NotAtZero else OutOfSequence)
              else r.Ok? || (r.error.BadFrame? && h.index + 1 == h.count)
  {
    AcceptKeeps(slot, chunk, maxFrame, dec);
  }
}
