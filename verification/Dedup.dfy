/** The callee's request table of crates/hataori-runtime/src/dedup.rs.

  A request is New once, Running until it completes, and then replayed until its record expires.
  Time is an ordered number; a table's calls happen at nondecreasing times.
 */
module Dedup {
  import opened Wrappers
  import opened Sums

  const USIZE_MAX: nat := 0xFFFF_FFFF_FFFF_FFFF

  datatype RequestId = RequestId(origin: nat, sequence: nat)

  datatype Kind = Request | Cancel | Success | Failure | Cancelled | DuplicateResultUnavailable | Moved

  type Segments = seq<seq<nat>>

  datatype Message = Message(kind: Kind, request: RequestId, action: nat, domain: nat, payload: Segments)

  datatype Entry =
    | Running(action: nat, domain: nat, cancelled: bool)
    | Completed(action: nat, domain: nat, response: Option<(Kind, Segments)>, bytes: nat, expires: nat)
    | Tombstone(action: nat, domain: nat, expires: nat)

  datatype Limits = Limits(maxEntries: nat, maxBytes: nat, ttl: nat)

  datatype Table = Table(entries: map<RequestId, Entry>, retained: nat)

  datatype Disposition =
    | New
    | AlreadyRunning
    | Replay(message: Message)
    | Unavailable(message: Message)
    | WasCancelled(message: Message)

  datatype Error =
    | ChangedMetadata
    | TooManyEntries
    | TooManyBytes
    | NotStarted
    | CompletedTwice

  // ----- bytes

  function Bytes(payload: Segments): nat {
    if payload == [] then 0 else |payload[0]| + Bytes(payload[1..])
  }

  function Held(entry: Entry): nat {
    if entry.Completed? then entry.bytes else 0
  }

  /** Response bytes of all live records. */
  ghost function LiveBytes(entries: map<RequestId, Entry>): nat { Sum(entries, Held) }

  lemma LiveBytesSplit(entries: map<RequestId, Entry>, r: RequestId)
    requires r in entries
    ensures LiveBytes(entries) == Held(entries[r]) + LiveBytes(entries - {r})
  {
    SumSplit(entries, Held, r);
  }

  lemma LiveBytesSet(entries: map<RequestId, Entry>, r: RequestId, entry: Entry)
    ensures LiveBytes(entries[r := entry]) == Held(entry) + LiveBytes(entries - {r})
  {
    SumSet(entries, Held, r, entry);
  }

  // ----- operations

  predicate Expired(entry: Entry, now: nat) {
    !entry.Running? && entry.expires <= now
  }

  function Sub(a: nat, b: nat): nat { if a >= b then a - b else 0 }

  /** Drops one record, returning its bytes. */
  function Drop(t: Table, r: RequestId): Table
    requires r in t.entries
  {
    Table(t.entries - {r}, Sub(t.retained, Held(t.entries[r])))
  }

  function ExpiredKeys(t: Table, now: nat): set<RequestId> {
    set r | r in t.entries && Expired(t.entries[r], now)
  }

  /** The records under these keys. */
  ghost function Part(entries: map<RequestId, Entry>, keys: set<RequestId>): map<RequestId, Entry>
    requires keys <= entries.Keys
  {
    map r | r in keys :: entries[r]
  }

  /** Drops every expired record. The order of removal does not matter to the result. */
  ghost function Expire(t: Table, now: nat): Table {
    Table(t.entries - ExpiredKeys(t, now),
          Sub(t.retained, LiveBytes(Part(t.entries, ExpiredKeys(t, now)))))
  }

  function Reply(kind: Kind, r: RequestId, action: nat, domain: nat, payload: Segments): Message {
    Message(kind, r, action, domain, payload)
  }

  function Answer(entry: Entry, r: RequestId): Disposition {
    match entry
    case Running(_, _, _) => AlreadyRunning
    case Completed(a, d, Some((kind, payload)), _, _) =>
      if kind.Moved? then AlreadyRunning else Replay(Reply(kind, r, a, d, payload))
    case Completed(a, d, None, _, _) => Unavailable(Reply(DuplicateResultUnavailable, r, a, d, []))
    case Tombstone(a, d, _) => WasCancelled(Reply(Cancelled, r, a, d, []))
  }

  ghost function Begin(l: Limits, t: Table, r: RequestId, action: nat, domain: nat, now: nat): (Table, Result<Disposition, Error>) {
    var t := Expire(t, now);
    if r in t.entries then
      if t.entries[r].action != action || t.entries[r].domain != domain then (t, Err(ChangedMetadata))
      else (t, Ok(Answer(t.entries[r], r)))
    else if |t.entries| >= l.maxEntries then (t, Err(TooManyEntries))
    else (t.(entries := t.entries[r := Running(action, domain, false)]), Ok(New))
  }

  ghost function CancelRequest(l: Limits, t: Table, r: RequestId, action: nat, domain: nat, now: nat): (Table, Result<(), Error>) {
    var t := Expire(t, now);
    if r in t.entries then
      if t.entries[r].action != action || t.entries[r].domain != domain then (t, Err(ChangedMetadata))
      else if t.entries[r].Running? then (t.(entries := t.entries[r := t.entries[r].(cancelled := true)]), Ok(()))
      else (t, Ok(()))
    else if |t.entries| < l.maxEntries then
      (t.(entries := t.entries[r := Tombstone(action, domain, now + l.ttl)]), Ok(()))
    else (t, Ok(()))
  }

  function Complete(l: Limits, t: Table, m: Message, now: nat): (Table, Result<(), Error>) {
    if m.request !in t.entries then (t, Err(NotStarted))
    else
      var entry := t.entries[m.request];
      if entry.Completed? then (t, Err(CompletedTwice))
      else if entry.action != m.action || entry.domain != m.domain then (t, Err(ChangedMetadata))
      else if Bytes(m.payload) > USIZE_MAX then (t, Err(TooManyBytes))
      else if t.retained + Bytes(m.payload) <= l.maxBytes then
        (Table(t.entries[m.request := Completed(m.action, m.domain, Some((m.kind, m.payload)), Bytes(m.payload), now + l.ttl)],
               t.retained + Bytes(m.payload)), Ok(()))
      else
        (t.(entries := t.entries[m.request := Completed(m.action, m.domain, None, 0, now + l.ttl)]), Ok(()))
  }

  predicate IsMoved(entry: Entry) {
    entry.Completed? && entry.response.Some? && entry.response.value.0.Moved?
  }

  /** Forgets a Moved record, without returning its bytes. */
  function ReleaseRedirect(t: Table, r: RequestId, action: nat, domain: nat): (Table, Result<(), Error>) {
    if r !in t.entries then (t, Ok(()))
    else
      var entry := t.entries[r];
      if IsMoved(entry) && entry.action == action && entry.domain == domain then (t.(entries := t.entries - {r}), Ok(()))
      else if entry.Running? || IsMoved(entry) then (t, Ok(()))
      else (t, Err(ChangedMetadata))
  }

  const Empty := Table(map[], 0)

  // ----- the invariant

  ghost predicate Valid(l: Limits, t: Table) {
    && |t.entries| <= l.maxEntries
    && LiveBytes(t.entries) <= t.retained <= l.maxBytes
  }

  /** Bytes counted as retained that no record holds. */
  ghost function Leak(t: Table): int {
    t.retained - LiveBytes(t.entries)
  }

  lemma {:induction false} LiveBytesPart(entries: map<RequestId, Entry>, keys: set<RequestId>)
    requires keys <= entries.Keys
    ensures LiveBytes(entries) == LiveBytes(Part(entries, keys)) + LiveBytes(entries - keys)
    decreases |keys|
  {
    var part := Part(entries, keys);
    if keys == {} {
      assert part == map[] && entries - keys == entries;
    } else {
      var q :| q in keys;
      LiveBytesSplit(entries, q);
      LiveBytesPart(entries - {q}, keys - {q});
      assert Part(entries - {q}, keys - {q}) == part - {q};
      assert entries - {q} - (keys - {q}) == entries - keys;
      LiveBytesSplit(part, q);
    }
  }

  /** Expiry removes exactly the expired records and gives back exactly their bytes. */
  lemma ExpireKeeps(l: Limits, t: Table, now: nat)
    requires Valid(l, t)
    ensures Valid(l, Expire(t, now)) && Leak(Expire(t, now)) == Leak(t)
    ensures forall r :: r in Expire(t, now).entries <==> r in t.entries && !Expired(t.entries[r], now)
    ensures forall r :: r in Expire(t, now).entries ==> Expire(t, now).entries[r] == t.entries[r]
  {
    LiveBytesPart(t.entries, ExpiredKeys(t, now));
    assert Expire(t, now).entries.Keys <= t.entries.Keys;
    SizeLe(Expire(t, now).entries.Keys, t.entries.Keys);
  }

  lemma {:induction false} SizeLe(a: set<RequestId>, b: set<RequestId>)
    requires a <= b
    ensures |a| <= |b|
    decreases |b|
  {
    if a != {} {
      var x :| x in a;
      SizeLe(a - {x}, b - {x});
    }
  }

  /** Writing a record that holds no bytes, over none or over one that held none. */
  lemma WriteKeeps(l: Limits, t: Table, r: RequestId, entry: Entry)
    requires Valid(l, t) && Held(entry) == 0
    requires if r in t.entries then Held(t.entries[r]) == 0 else |t.entries| < l.maxEntries
    ensures Valid(l, t.(entries := t.entries[r := entry]))
    ensures Leak(t.(entries := t.entries[r := entry])) == Leak(t)
  {
    LiveBytesSet(t.entries, r, entry);
    if r in t.entries {
      LiveBytesSplit(t.entries, r);
      assert t.entries[r := entry].Keys == t.entries.Keys;
    } else {
      assert t.entries - {r} == t.entries;
      assert t.entries[r := entry].Keys == t.entries.Keys + {r};
    }
  }

  lemma BeginKeeps(l: Limits, t: Table, r: RequestId, action: nat, domain: nat, now: nat)
    requires Valid(l, t)
    ensures Valid(l, Begin(l, t, r, action, domain, now).0)
    ensures Leak(Begin(l, t, r, action, domain, now).0) == Leak(t)
  {
    ExpireKeeps(l, t, now);
    var e := Expire(t, now);
    if r !in e.entries && |e.entries| < l.maxEntries { WriteKeeps(l, e, r, Running(action, domain, false)); }
  }

  lemma CancelKeeps(l: Limits, t: Table, r: RequestId, action: nat, domain: nat, now: nat)
    requires Valid(l, t)
    ensures Valid(l, CancelRequest(l, t, r, action, domain, now).0)
    ensures Leak(CancelRequest(l, t, r, action, domain, now).0) == Leak(t)
  {
    ExpireKeeps(l, t, now);
    var e := Expire(t, now);
    if r in e.entries {
      if e.entries[r].Running? { WriteKeeps(l, e, r, e.entries[r].(cancelled := true)); }
    } else if |e.entries| < l.maxEntries {
      WriteKeeps(l, e, r, Tombstone(action, domain, now + l.ttl));
    }
  }

  lemma CompleteKeeps(l: Limits, t: Table, m: Message, now: nat)
    requires Valid(l, t)
    ensures Valid(l, Complete(l, t, m, now).0)
    ensures Leak(Complete(l, t, m, now).0) == Leak(t)
  {
    var (u, r) := Complete(l, t, m, now);
    if r.Ok? {
      LiveBytesSplit(t.entries, m.request);
      LiveBytesSet(t.entries, m.request, u.entries[m.request]);
      assert u.entries == t.entries[m.request := u.entries[m.request]];
      assert u.entries.Keys == t.entries.Keys;
    }
  }

  /** Releasing a redirect leaks the record's bytes: they stay counted until the table is cleared. */
  lemma ReleaseLeaks(l: Limits, t: Table, r: RequestId, action: nat, domain: nat)
    requires Valid(l, t)
    ensures Valid(l, ReleaseRedirect(t, r, action, domain).0)
    ensures var u := ReleaseRedirect(t, r, action, domain).0;
            Leak(u) == Leak(t) + (if r in t.entries && r !in u.entries then Held(t.entries[r]) else 0)
  {
    var u := ReleaseRedirect(t, r, action, domain).0;
    if r in t.entries {
      LiveBytesSplit(t.entries, r);
      SizeLe(u.entries.Keys, t.entries.Keys);
    }
  }
}
