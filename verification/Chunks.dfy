/** Chunking and reassembly of frames, crates/hataori-runtime-foundation/src/mpi.rs. */
module Chunks {
  import opened Wrappers
  import opened Bytes
  import opened Protocol
  import opened ProtocolProofs

  const ChunkMagic: nat := 0x4350_4D48  // "HMPC"
  const ChunkVersion: nat := 1
  const HeaderBytes: nat := 29
  const PayloadBytes: nat := 4096

  datatype Head = Head(transfer: nat, total: nat, index: nat, count: nat)

  datatype ChunkError =
    | TruncatedHeader | BadMagic | CountTooLarge | BadMetadata | PayloadLength | NotAtZero | OutOfSequence
    | Overfull | LengthMismatch | BadFrame(error: ProtocolError)

  datatype Reassembly = Reassembly(transfer: nat, total: nat, nextChunk: nat, count: nat, bytes: seq<byte>)

  /** The frame decoder, with its limits. */
  type Decoder<P> = seq<byte> -> Result<P, ProtocolError>

  /** `div_ceil` by the chunk size. */
  function ChunkCount(total: nat): nat { (total + PayloadBytes - 1) / PayloadBytes }

  // ----- headers

  function PutHead(h: Head): seq<byte> {
    LE(ChunkMagic, 4) + LE(ChunkVersion, 1) + PutFields(h)
  }

  function PutFields(h: Head): seq<byte> {
    LE(h.transfer, 8) + LE(h.total, 8) + LE(h.index, 4) + LE(h.count, 4)
  }

  function HeadOf(fields: seq<byte>): Head
    requires |fields| == 24
  {
    Head(UnLE(fields[..8]), UnLE(fields[8..16]), UnLE(fields[16..20]), UnLE(fields[20..24]))
  }

  function ReadHead(chunk: seq<byte>): Result<Head, ChunkError> {
    if |chunk| < HeaderBytes then Err(TruncatedHeader)
    else if UnLE(chunk[..4]) != ChunkMagic || UnLE(chunk[4..5]) != ChunkVersion then Err(BadMagic)
    else Ok(HeadOf(chunk[5..29]))
  }

  // ----- the receiver

  /** What the metadata of a chunk must satisfy by itself. */
  function CheckHead(h: Head, payload: nat, maxFrame: nat): Result<(), ChunkError> {
    if ChunkCount(h.total) >= U32 then Err(CountTooLarge)
    else if h.transfer == 0 || h.count == 0 || h.count != ChunkCount(h.total) || h.index >= h.count || h.total > maxFrame
    then Err(BadMetadata)
    else if payload != (if h.index + 1 == h.count then h.total - h.index * PayloadBytes else PayloadBytes) then Err(PayloadLength)
    else Ok(())
  }

  function Fresh(h: Head): Reassembly { Reassembly(h.transfer, h.total, 0, h.count, []) }

  /** Appends the payload to the state it continues, and hands out the parcel when it is whole. */
  function Append<P>(state: Reassembly, payload: seq<byte>, dec: Decoder<P>): (Option<Reassembly>, Result<Option<P>, ChunkError>) {
    var bytes := state.bytes + payload;
    if |bytes| > state.total then (Some(state.(bytes := bytes)), Err(Overfull))
    else if state.nextChunk + 1 != state.count then (Some(state.(bytes := bytes, nextChunk := state.nextChunk + 1)), Ok(None))
    else if |bytes| != state.total then (None, Err(LengthMismatch))
    else
      match dec(bytes)
      case Err(e) => (None, Err(BadFrame(e)))
      case Ok(p) => (None, Ok(Some(p)))
  }

  predicate Continues(state: Reassembly, h: Head) {
    state.transfer == h.transfer && state.total == h.total && state.count == h.count && state.nextChunk == h.index
  }

  function Accept<P>(slot: Option<Reassembly>, chunk: seq<byte>, maxFrame: nat, dec: Decoder<P>): (Option<Reassembly>, Result<Option<P>, ChunkError>) {
    match ReadHead(chunk)
    case Err(e) => (slot, Err(e))
    case Ok(h) =>
      match CheckHead(h, |chunk| - HeaderBytes, maxFrame)
      case Err(e) => (slot, Err(e))
      case Ok(_) =>
        if slot.None? && h.index != 0 then (slot, Err(NotAtZero))
        else
          var state := if slot.None? then Fresh(h) else slot.value;
          if !Continues(state, h) then (Some(state), Err(OutOfSequence))
          else Append(state, chunk[HeaderBytes..], dec)
  }

  /** Retained bytes are whole chunks, fewer than the frame has, and within the frame limit. */
  ghost predicate SlotGood(slot: Option<Reassembly>, maxFrame: nat) {
    slot.Some? ==>
      var st := slot.value;
      && st.count == ChunkCount(st.total) && st.total <= maxFrame && st.transfer != 0
      && 0 < st.nextChunk < st.count
      && |st.bytes| == st.nextChunk * PayloadBytes < st.total
  }

  lemma ChunkBounds(total: nat, index: nat)
    requires index < ChunkCount(total)
    ensures index * PayloadBytes < total
    ensures index + 1 == ChunkCount(total) <==> total <= (index + 1) * PayloadBytes
  {
  }

  /** Whatever chunk arrives: the slot stays good, the two length checks after the append never fire, and a
      refused chunk leaves the slot as it was unless it completed a frame that does not decode. */
  lemma AcceptKeeps<P>(slot: Option<Reassembly>, chunk: seq<byte>, maxFrame: nat, dec: Decoder<P>)
    requires SlotGood(slot, maxFrame)
    ensures var (next, r) := Accept(slot, chunk, maxFrame, dec);
            && SlotGood(next, maxFrame)
            && r != Err(Overfull) && r != Err(LengthMismatch)
            && (r.Err? ==> next == slot || (next == None && r.error.BadFrame?))
            && (r.Ok? && r.value.Some? ==> next == None)
            && (r == Ok(None) ==> next.Some? && next.value.nextChunk == 1 + (if slot.Some? then slot.value.nextChunk else 0))
  {
    var h := ReadHead(chunk);
    if h.Ok? && CheckHead(h.value, |chunk| - HeaderBytes, maxFrame).Ok? {
      ChunkBounds(h.value.total, h.value.index);
    }
  }

  // ----- the sender

  /** The `k`th chunk of a frame. */
  function ChunkAt(bytes: seq<byte>, ticket: nat, k: nat): seq<byte>
    requires k < ChunkCount(|bytes|)
  {
    ChunkBounds(|bytes|, k);
    PutHead(Head(ticket, |bytes|, k, ChunkCount(|bytes|))) + bytes[k * PayloadBytes..EndOf(|bytes|, k)]
  }

  function EndOf(total: nat, k: nat): nat {
    if (k + 1) * PayloadBytes <= total then (k + 1) * PayloadBytes else total
  }

  function ChunksFrom(bytes: seq<byte>, ticket: nat, k: nat): seq<seq<byte>>
    requires k <= ChunkCount(|bytes|)
    decreases ChunkCount(|bytes|) - k
  {
    if k == ChunkCount(|bytes|) then [] else [ChunkAt(bytes, ticket, k)] + ChunksFrom(bytes, ticket, k + 1)
  }

  // ----- reading a chunk back

  lemma FieldsReadBack(h: Head)
    requires h.transfer < U64 && h.total < U64 && h.index < U32 && h.count < U32
    ensures HeadOf(PutFields(h)) == h
  {
    Widths();
    ReadsWhatWasWritten(h.transfer, 8);
    ReadsWhatWasWritten(h.total, 8);
    ReadsWhatWasWritten(h.index, 4);
    ReadsWhatWasWritten(h.count, 4);
    FieldSlices(LE(h.transfer, 8), LE(h.total, 8), LE(h.index, 4), LE(h.count, 4));
  }

  lemma FieldSlices(a: seq<byte>, b: seq<byte>, c: seq<byte>, d: seq<byte>)
    requires |a| == 8 && |b| == 8 && |c| == 4 && |d| == 4
    ensures var all := a + b + c + d;
            all[..8] == a && all[8..16] == b && all[16..20] == c && all[20..24] == d
  {
  }

  lemma HeadSlices(magic: seq<byte>, version: seq<byte>, fields: seq<byte>, payload: seq<byte>)
    requires |magic| == 4 && |version| == 1 && |fields| == 24
    ensures var chunk := magic + version + fields + payload;
            chunk[..4] == magic && chunk[4..5] == version && chunk[5..29] == fields && chunk[29..] == payload
  {
  }

  lemma HeadReadsBack(h: Head, payload: seq<byte>)
    requires h.transfer < U64 && h.total < U64 && h.index < U32 && h.count < U32
    ensures ReadHead(PutHead(h) + payload) == Ok(h)
    ensures (PutHead(h) + payload)[HeaderBytes..] == payload
  {
    Widths();
    FieldsReadBack(h);
    ReadsWhatWasWritten(ChunkMagic, 4);
    ReadsWhatWasWritten(ChunkVersion, 1);
    HeadSlices(LE(ChunkMagic, 4), LE(ChunkVersion, 1), PutFields(h), payload);
  }

  // ----- whole frames

  /** Feeds chunks in order, collecting the parcels they complete. */
  function Feed<P>(slot: Option<Reassembly>, chunks: seq<seq<byte>>, maxFrame: nat, dec: Decoder<P>): (Option<Reassembly>, Result<seq<P>, ChunkError>)
    decreases |chunks|
  {
    if chunks == [] then (slot, Ok([]))
    else
      var (next, r) := Accept(slot, chunks[0], maxFrame, dec);
      if r.Err? then (next, Err(r.error))
      else
        var (last, rest) := Feed(next, chunks[1..], maxFrame, dec);
        if rest.Err? then (last, rest)
        else (last, Ok((if r.value.Some? then [r.value.value] else []) + rest.value))
  }

  /** The slot after `k` chunks of a frame. */
  function Partial(bytes: seq<byte>, ticket: nat, k: nat): Option<Reassembly>
    requires k < ChunkCount(|bytes|)
  {
    ChunkBounds(|bytes|, k);
    if k == 0 then None
    else Some(Reassembly(ticket, |bytes|, k, ChunkCount(|bytes|), bytes[..k * PayloadBytes]))
  }

  /** The bytes are a frame of `p` that can be cut into chunks. */
  ghost predicate Whole<P>(bytes: seq<byte>, p: P, ticket: nat, maxFrame: nat, dec: Decoder<P>) {
    && dec(bytes) == Ok(p) && 0 < |bytes| <= maxFrame && |bytes| < U64
    && 0 < ticket < U64 && ChunkCount(|bytes|) < U32
  }

  lemma AcceptWellFormed<P>(slot: Option<Reassembly>, h: Head, payload: seq<byte>, maxFrame: nat, dec: Decoder<P>)
    requires h.transfer < U64 && h.total < U64 && h.index < U32 && h.count < U32
    requires CheckHead(h, |payload|, maxFrame).Ok? && (slot.None? ==> h.index == 0)
    requires Continues(if slot.None? then Fresh(h) else slot.value, h)
    ensures Accept(slot, PutHead(h) + payload, maxFrame, dec) == Append(if slot.None? then Fresh(h) else slot.value, payload, dec)
  {
    HeadReadsBack(h, payload);
  }

  lemma AppendNext<P>(bytes: seq<byte>, state: Reassembly, dec: Decoder<P>, k: nat)
    requires k < ChunkCount(|bytes|) && k * PayloadBytes < |bytes|
    requires state == Reassembly(state.transfer, |bytes|, k, ChunkCount(|bytes|), bytes[..k * PayloadBytes])
    requires dec(bytes).Ok?
    ensures Append(state, bytes[k * PayloadBytes..EndOf(|bytes|, k)], dec) ==
            if k + 1 == ChunkCount(|bytes|) then (None, Ok(Some(dec(bytes).value)))
            else (Partial(bytes, state.transfer, k + 1), Ok(None))
  {
    ChunkBounds(|bytes|, k);
    assert bytes[..k * PayloadBytes] + bytes[k * PayloadBytes..EndOf(|bytes|, k)] == bytes[..EndOf(|bytes|, k)];
    assert bytes[..|bytes|] == bytes;
  }

  /** One chunk moves the slot from `k` chunks to `k + 1`, or completes the parcel. */
  lemma AcceptNext<P>(bytes: seq<byte>, p: P, ticket: nat, maxFrame: nat, dec: Decoder<P>, k: nat)
    requires Whole(bytes, p, ticket, maxFrame, dec) && k < ChunkCount(|bytes|)
    ensures Accept(Partial(bytes, ticket, k), ChunkAt(bytes, ticket, k), maxFrame, dec) ==
            if k + 1 == ChunkCount(|bytes|) then (None, Ok(Some(p))) else (Partial(bytes, ticket, k + 1), Ok(None))
  {
    ChunkBounds(|bytes|, k);
    var h, payload := Head(ticket, |bytes|, k, ChunkCount(|bytes|)), bytes[k * PayloadBytes..EndOf(|bytes|, k)];
    var slot := Partial(bytes, ticket, k);
    AcceptWellFormed(slot, h, payload, maxFrame, dec);
    AppendNext(bytes, if slot.None? then Fresh(h) else slot.value, dec, k);
  }

  lemma FeedMore<P>(slot: Option<Reassembly>, chunk: seq<byte>, more: seq<seq<byte>>, maxFrame: nat, dec: Decoder<P>)
    requires Accept(slot, chunk, maxFrame, dec).1.Ok?
    ensures var (next, r) := Accept(slot, chunk, maxFrame, dec);
            var (last, rest) := Feed(next, more, maxFrame, dec);
            Feed(slot, [chunk] + more, maxFrame, dec) ==
            (last, if rest.Err? || r.value.None? then rest else Ok([r.value.value] + rest.value))
  {
    assert ([chunk] + more)[1..] == more;
    var (next, r) := Accept(slot, chunk, maxFrame, dec);
    var rest := Feed(next, more, maxFrame, dec).1;
    assert rest.Ok? ==> [] + rest.value == rest.value;
  }

  lemma FeedNext<P>(bytes: seq<byte>, p: P, ticket: nat, maxFrame: nat, dec: Decoder<P>, k: nat, more: seq<seq<byte>>)
    requires Whole(bytes, p, ticket, maxFrame, dec) && k < ChunkCount(|bytes|)
    ensures Feed(Partial(bytes, ticket, k), [ChunkAt(bytes, ticket, k)] + more, maxFrame, dec) ==
            if k + 1 == ChunkCount(|bytes|) then Delivered(p, Feed(None, more, maxFrame, dec))
            else Feed(Partial(bytes, ticket, k + 1), more, maxFrame, dec)
  {
    AcceptNext(bytes, p, ticket, maxFrame, dec, k);
    FeedMore(Partial(bytes, ticket, k), ChunkAt(bytes, ticket, k), more, maxFrame, dec);
  }

  function Delivered<P>(p: P, after: (Option<Reassembly>, Result<seq<P>, ChunkError>)): (Option<Reassembly>, Result<seq<P>, ChunkError>) {
    (after.0, if after.1.Ok? then Ok([p] + after.1.value) else after.1)
  }

  lemma {:induction false} FeedFrame<P>(bytes: seq<byte>, p: P, ticket: nat, maxFrame: nat, dec: Decoder<P>, k: nat, more: seq<seq<byte>>)
    requires Whole(bytes, p, ticket, maxFrame, dec) && k < ChunkCount(|bytes|)
    ensures Feed(Partial(bytes, ticket, k), ChunksFrom(bytes, ticket, k) + more, maxFrame, dec) ==
            Delivered(p, Feed(None, more, maxFrame, dec))
    decreases ChunkCount(|bytes|) - k
  {
    var chunk, others := ChunkAt(bytes, ticket, k), ChunksFrom(bytes, ticket, k + 1);
    Regroup(chunk, others, more);
    FeedNext(bytes, p, ticket, maxFrame, dec, k, others + more);
    if k + 1 < ChunkCount(|bytes|) {
      FeedFrame(bytes, p, ticket, maxFrame, dec, k + 1, more);
    } else {
      assert others + more == more;
    }
  }

  lemma Regroup<T>(first: T, others: seq<T>, more: seq<T>)
    ensures [first] + others + more == [first] + (others + more)
  {
  }

  datatype Sending<P> = Sending(parcel: P, bytes: seq<byte>, ticket: nat)

  function Parcels<P>(sent: seq<Sending<P>>): seq<P> {
    seq(|sent|, i requires 0 <= i < |sent| => sent[i].parcel)
  }

  /** Feeding these chunks to an empty slot delivers the parcel and leaves the slot empty. */
  ghost predicate Delivers<P(!new)>(chunks: seq<seq<byte>>, p: P, maxFrame: nat, dec: Decoder<P>) {
    forall more :: Feed(None, chunks + more, maxFrame, dec) == Delivered(p, Feed(None, more, maxFrame, dec))
  }

  function Join(cuts: seq<seq<seq<byte>>>): seq<seq<byte>> {
    if cuts == [] then [] else cuts[0] + Join(cuts[1..])
  }

  lemma {:induction false} FeedJoined<P(!new)>(cuts: seq<seq<seq<byte>>>, parcels: seq<P>, maxFrame: nat, dec: Decoder<P>)
    requires |cuts| == |parcels| && forall i :: 0 <= i < |cuts| ==> Delivers(cuts[i], parcels[i], maxFrame, dec)
    ensures Feed(None, Join(cuts), maxFrame, dec) == (None, Ok(parcels))
    decreases |cuts|
  {
    if cuts != [] {
      assert Delivers(cuts[0], parcels[0], maxFrame, dec);
      FeedJoined(cuts[1..], parcels[1..], maxFrame, dec);
      assert [parcels[0]] + parcels[1..] == parcels;
    }
  }

  function Cuts<P>(sent: seq<Sending<P>>): seq<seq<seq<byte>>> {
    seq(|sent|, i requires 0 <= i < |sent| => ChunksFrom(sent[i].bytes, sent[i].ticket, 0))
  }

  function AllChunks<P>(sent: seq<Sending<P>>): seq<seq<byte>> { Join(Cuts(sent)) }

  lemma FeedAll<P(!new)>(sent: seq<Sending<P>>, maxFrame: nat, dec: Decoder<P>)
    requires forall i :: 0 <= i < |sent| ==> Whole(sent[i].bytes, sent[i].parcel, sent[i].ticket, maxFrame, dec)
    ensures Feed(None, AllChunks(sent), maxFrame, dec) == (None, Ok(Parcels(sent)))
  {
    forall i | 0 <= i < |sent| ensures Delivers(Cuts(sent)[i], Parcels(sent)[i], maxFrame, dec) {
      var s := sent[i];
      assert Whole(s.bytes, s.parcel, s.ticket, maxFrame, dec);
      forall more ensures Feed(None, Cuts(sent)[i] + more, maxFrame, dec) == Delivered(s.parcel, Feed(None, more, maxFrame, dec)) {
        FeedFrame(s.bytes, s.parcel, s.ticket, maxFrame, dec, 0, more);
      }
    }
    FeedJoined(Cuts(sent), Parcels(sent), maxFrame, dec);
  }

  // ----- parcels

  function ParcelDecoder(limits: Limits): Decoder<Parcel> {
    (bytes: seq<byte>) => Decode(bytes, limits)
  }

  /** A parcel that `Outbound::new` takes. */
  ghost predicate Sendable(s: Sending<Parcel>, limits: Limits) {
    && Typed(s.parcel.envelope) && 0 < s.ticket < U64
    && Encode(s.parcel, limits) == Ok(s.bytes) && ChunkCount(|s.bytes|) < U32
  }

  /** The chunks of any list of parcels, fed in order, give back exactly those parcels in that order, and
      leave the slot empty. */
  lemma ReassemblyReturnsWhatWasSent(sent: seq<Sending<Parcel>>, limits: Limits)
    requires limits.maxPayload < U64 && limits.maxFrame < U64
    requires forall i :: 0 <= i < |sent| ==> Sendable(sent[i], limits)
    ensures Feed(None, AllChunks(sent), limits.maxFrame, ParcelDecoder(limits)) == (None, Ok(Parcels(sent)))
  {
    forall i | 0 <= i < |sent| ensures Whole(sent[i].bytes, sent[i].parcel, sent[i].ticket, limits.maxFrame, ParcelDecoder(limits)) {
      assert Sendable(sent[i], limits);
      ParcelRoundTrip(sent[i].parcel, limits);
    }
    FeedAll(sent, limits.maxFrame, ParcelDecoder(limits));
  }

  // ----- the two ends as they run

  class Outbound {
    const ticket: nat
    const bytes: seq<byte>
    const count: nat
    var offset: nat
    var index: nat

    ghost predicate Valid()
      reads this
    {
      && count == ChunkCount(|bytes|) && index <= count
      && offset == if index * PayloadBytes <= |bytes| then index * PayloadBytes else |bytes|
    }

    constructor (ticket: nat, bytes: seq<byte>)
      ensures Valid() && this.ticket == ticket && this.bytes == bytes && index == 0
    {
      this.ticket, this.bytes := ticket, bytes;
      this.count := ChunkCount(|bytes|);
      offset, index := 0, 0;
    }

    method NextChunk() returns (chunk: seq<byte>)
      requires Valid() && index < count
      modifies this
      ensures Valid() && index == old(index) + 1
      ensures chunk == ChunkAt(bytes, ticket, old(index))
    {
      ChunkBounds(|bytes|, index);
      var end := if offset + PayloadBytes <= |bytes| then offset + PayloadBytes else |bytes|;
      chunk := PutHead(Head(ticket, |bytes|, index, count)) + bytes[offset..end];
      offset := end;
      index := index + 1;
    }

    /** The sender stops exactly when every chunk has left. */
    predicate Complete()
      reads this
      requires Valid()
      ensures Complete() <==> index == count
    {
      if index < count then
        ChunkBounds(|bytes|, index);
        offset == |bytes|
      else offset == |bytes|
    }
  }

  class Inbound {
    var slot: Option<Reassembly>

    constructor ()
      ensures slot == None
    {
      slot := None;
    }

    method AcceptChunk<P>(chunk: seq<byte>, maxFrame: nat, dec: Decoder<P>) returns (r: Result<Option<P>, ChunkError>)
      modifies this
      ensures (slot, r) == Accept(old(slot), chunk, maxFrame, dec)
    {
      var head := ReadHead(chunk);
      if head.Err? { return Err(head.error); }
      var h := head.value;
      var checked := CheckHead(h, |chunk| - HeaderBytes, maxFrame);
      if checked.Err? { return Err(checked.error); }
      if slot.None? {
        if h.index != 0 { return Err(NotAtZero); }
        slot := Some(Reassembly(h.transfer, h.total, 0, h.count, []));
      }
      var state := slot.value;
      if state.transfer != h.transfer || state.total != h.total || state.count != h.count || state.nextChunk != h.index {
        return Err(OutOfSequence);
      }
      state := state.(bytes := state.bytes + chunk[HeaderBytes..]);
      slot := Some(state);
      if |state.bytes| > state.total { return Err(Overfull); }
      state := state.(nextChunk := state.nextChunk + 1);
      slot := Some(state);
      if state.nextChunk != state.count { return Ok(None); }
      slot := None;
      if |state.bytes| != state.total { return Err(LengthMismatch); }
      var parcel := dec(state.bytes);
      if parcel.Err? { return Err(BadFrame(parcel.error)); }
      return Ok(Some(parcel.value));
    }
  }
}
