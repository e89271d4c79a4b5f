/** The 28-byte message header of src/wire.rs. */
module Wire {
  import opened Wrappers
  import opened Bytes

  const WireVersion: nat := 1
  const HeaderLen: nat := 28
  const MaxWireBytes: nat := 0x7FFF_FFFF

  datatype MessageKind = Ready | Task | ResultKind | Stop | Drain | Broadcast | Scatter | Gather

  datatype Status = NoStatus | OkStatus | ErrorStatus

  datatype Header = Header(kind: MessageKind, status: Status, batch: nat, items: nat, payload: nat)

  datatype WireError =
    | HeaderSize | BadVersion | BadKind | BadStatus | StatusMismatch | PayloadTooLarge

  function KindCode(k: MessageKind): nat {
    match k
    case Ready => 0 case Task => 1 case ResultKind => 2 case Stop => 3
    case Drain => 4 case Broadcast => 5 case Scatter => 6 case Gather => 7
  }

  function KindOf(code: nat): Option<MessageKind> {
    if code == 0 then Some(Ready) else if code == 1 then Some(Task) else if code == 2 then Some(ResultKind)
    else if code == 3 then Some(Stop) else if code == 4 then Some(Drain) else if code == 5 then Some(Broadcast)
    else if code == 6 then Some(Scatter) else if code == 7 then Some(Gather) else None
  }

  function StatusCode(s: Status): nat { match s case NoStatus => 0 case OkStatus => 1 case ErrorStatus => 2 }

  function StatusOf(code: nat): Option<Status> {
    if code == 0 then Some(NoStatus) else if code == 1 then Some(OkStatus) else if code == 2 then Some(ErrorStatus) else None
  }

  /** A status goes with a result and with nothing else. */
  predicate StatusFits(kind: MessageKind, status: Status) { kind.ResultKind? <==> !status.NoStatus? }

  function New(kind: MessageKind, status: Status, batch: nat, items: nat, payload: nat): Result<Header, WireError> {
    if !StatusFits(kind, status) then Err(StatusMismatch)
    else if payload > MaxWireBytes then Err(PayloadTooLarge)
    else Ok(Header(kind, status, batch, items, payload))
  }

  function Encode(h: Header): seq<byte> {
    PutParts(LE(WireVersion, 2), LE(KindCode(h.kind), 1), LE(StatusCode(h.status), 1), LE(h.batch, 8), LE(h.items, 8), LE(h.payload, 8))
  }

  function PutParts(version: seq<byte>, kind: seq<byte>, status: seq<byte>, batch: seq<byte>, items: seq<byte>, payload: seq<byte>): seq<byte> {
    version + kind + status + batch + items + payload
  }

  function Decode(bytes: seq<byte>): Result<Header, WireError> {
    if |bytes| != HeaderLen then Err(HeaderSize)
    else if UnLE(bytes[..2]) != WireVersion then Err(BadVersion)
    else
      match KindOf(UnLE(bytes[2..3]))
      case None => Err(BadKind)
      case Some(kind) =>
        match StatusOf(UnLE(bytes[3..4]))
        case None => Err(BadStatus)
        case Some(status) => New(kind, status, UnLE(bytes[4..12]), UnLE(bytes[12..20]), UnLE(bytes[20..28]))
  }

  lemma PartSlices(version: seq<byte>, kind: seq<byte>, status: seq<byte>, batch: seq<byte>, items: seq<byte>, payload: seq<byte>)
    requires |version| == 2 && |kind| == 1 && |status| == 1 && |batch| == 8 && |items| == 8 && |payload| == 8
    ensures var all := PutParts(version, kind, status, batch, items, payload);
            && |all| == HeaderLen && all[..2] == version && all[2..3] == kind && all[3..4] == status
            && all[4..12] == batch && all[12..20] == items && all[20..28] == payload
  {
  }

  lemma NumberReadsBack(n: nat, width: nat)
    requires n < Pow256(width)
    ensures UnLE(LE(n, width)) == n
  {
    ReadsWhatWasWritten(n, width);
  }

  /** A header made by `new` decodes back from its encoding. */
  lemma HeaderRoundTrip(h: Header)
    requires New(h.kind, h.status, h.batch, h.items, h.payload) == Ok(h) && h.batch < U64 && h.items < U64
    ensures Decode(Encode(h)) == Ok(h)
  {
    Widths();
    assert Pow256(2) == 65536;
    var kind, status := KindCode(h.kind), StatusCode(h.status);
    NumberReadsBack(WireVersion, 2);
    NumberReadsBack(kind, 1);
    NumberReadsBack(status, 1);
    NumberReadsBack(h.batch, 8);
    NumberReadsBack(h.items, 8);
    NumberReadsBack(h.payload, 8);
    PartSlices(LE(WireVersion, 2), LE(kind, 1), LE(status, 1), LE(h.batch, 8), LE(h.items, 8), LE(h.payload, 8));
  }

  lemma PartsJoin(bytes: seq<byte>)
    requires |bytes| == HeaderLen
    ensures PutParts(bytes[..2], bytes[2..3], bytes[3..4], bytes[4..12], bytes[12..20], bytes[20..28]) == bytes
  {
  }

  /** The only bytes that decode to a header are its encoding. */
  lemma HeadersAreCanonical(bytes: seq<byte>)
    requires Decode(bytes).Ok?
    ensures Encode(Decode(bytes).value) == bytes
  {
    var h := Decode(bytes).value;
    WritesWhatWasRead(bytes[..2]);
    WritesWhatWasRead(bytes[2..3]);
    WritesWhatWasRead(bytes[3..4]);
    WritesWhatWasRead(bytes[4..12]);
    WritesWhatWasRead(bytes[12..20]);
    WritesWhatWasRead(bytes[20..28]);
    PartsJoin(bytes);
    assert KindCode(h.kind) == UnLE(bytes[2..3]) && StatusCode(h.status) == UnLE(bytes[3..4]);
  }
}
