/** The request table as it runs: a mutable map and a byte counter, each method proved against `Dedup`. */
module DedupObject {
  import opened Wrappers
  import opened Dedup

  class DedupTable {
    var entries: map<RequestId, Entry>
    var retained: nat
    const limits: Limits

    ghost function Value(): Table
      reads this
    {
      Table(entries, retained)
    }

    ghost predicate Sound()
      reads this
    {
      Valid(limits, Value())
    }

    constructor (limits: Limits)
      ensures Value() == Dedup.Empty && this.limits == limits && Sound()
    {
      this.entries, this.retained, this.limits := map[], 0, limits;
    }

    method Sweep(now: nat)
      requires Sound()
      modifies this
      ensures Value() == Expire(old(Value()), now) && Sound()
    {
      ExpireKeeps(limits, Value(), now);
      var expired := set r | r in entries && Expired(entries[r], now);
      LiveBytesPart(entries, expired);
      entries, retained := RemoveAll(entries, retained, expired);
    }

    method TryBegin(r: RequestId, action: nat, domain: nat, now: nat) returns (answer: Result<Disposition, Error>)
      requires Sound()
      modifies this
      ensures (Value(), answer) == Begin(limits, old(Value()), r, action, domain, now) && Sound()
    {
      BeginKeeps(limits, Value(), r, action, domain, now);
      Sweep(now);
      if r in entries {
        var entry := entries[r];
        if entry.action != action || entry.domain != domain { return Err(ChangedMetadata); }
        return Ok(Answer(entry, r));
      }
      if |entries| >= limits.maxEntries { return Err(TooManyEntries); }
      entries := entries[r := Running(action, domain, false)];
      return Ok(New);
    }

    method TryCancel(r: RequestId, action: nat, domain: nat, now: nat) returns (answer: Result<(), Error>)
      requires Sound()
      modifies this
      ensures (Value(), answer) == CancelRequest(limits, old(Value()), r, action, domain, now) && Sound()
    {
      CancelKeeps(limits, Value(), r, action, domain, now);
      ghost var (next, told) := CancelRequest(limits, Value(), r, action, domain, now);
      Sweep(now);
      if r in entries {
        var entry := entries[r];
        if entry.action != action || entry.domain != domain { return Err(ChangedMetadata); }
        if entry.Running? { entries := entries[r := entry.(cancelled := true)]; }
      } else if |entries| < limits.maxEntries {
        entries := entries[r := Tombstone(action, domain, now + limits.ttl)];
      }
      assert entries == next.entries && retained == next.retained;
      return Ok(());
    }

    method TryComplete(m: Message, now: nat) returns (answer: Result<(), Error>)
      requires Sound()
      modifies this
      ensures (Value(), answer) == Complete(limits, old(Value()), m, now) && Sound()
    {
      CompleteKeeps(limits, Value(), m, now);
      if m.request !in entries { return Err(NotStarted); }
      var entry := entries[m.request];
      if entry.Completed? { return Err(CompletedTwice); }
      if entry.action != m.action || entry.domain != m.domain { return Err(ChangedMetadata); }
      var bytes := CountBytes(m.payload);
      if bytes > USIZE_MAX { return Err(TooManyBytes); }
      if retained + bytes <= limits.maxBytes {
        retained := retained + bytes;
        entries := entries[m.request := Completed(m.action, m.domain, Some((m.kind, m.payload)), bytes, now + limits.ttl)];
      } else {
        entries := entries[m.request := Completed(m.action, m.domain, None, 0, now + limits.ttl)];
      }
      return Ok(());
    }

    method TryRelease(r: RequestId, action: nat, domain: nat) returns (answer: Result<(), Error>)
      requires Sound()
      modifies this`entries
      ensures (Value(), answer) == ReleaseRedirect(old(Value()), r, action, domain) && Sound()
    {
      ReleaseLeaks(limits, Value(), r, action, domain);
      if r in entries {
        var entry := entries[r];
        if IsMoved(entry) && entry.action == action && entry.domain == domain {
          entries := entries - {r};
        } else if !entry.Running? && !IsMoved(entry) {
          return Err(ChangedMetadata);
        }
      }
      return Ok(());
    }

    method Clear()
      modifies this
      ensures Value() == Dedup.Empty && Sound()
    {
      entries, retained := map[], 0;
    }
  }

  /** Removes the records one by one, in any order, giving their bytes back as it goes. */
  method RemoveAll(entries: map<RequestId, Entry>, retained: nat, keys: set<RequestId>)
    returns (rest: map<RequestId, Entry>, left: nat)
    requires keys <= entries.Keys && LiveBytes(Part(entries, keys)) <= retained
    ensures rest == entries - keys
    ensures left == retained - LiveBytes(Part(entries, keys))
  {
    rest, left := entries, retained;
    var todo := keys;
    while todo != {}
      invariant todo <= rest.Keys && rest - todo == entries - keys
      invariant left - LiveBytes(Part(rest, todo)) == retained - LiveBytes(Part(entries, keys))
      decreases |todo|
    {
      var r :| r in todo;
      LiveBytesSplit(Part(rest, todo), r);
      assert Part(rest, todo) - {r} == Part(rest - {r}, todo - {r});
      left := Sub(left, Held(rest[r]));
      assert rest - {r} - (todo - {r}) == rest - todo;
      rest := rest - {r};
      todo := todo - {r};
    }
    assert Part(rest, todo) == map[];
    assert rest - todo == rest;
  }

  /** Adds up segment lengths. */
  method CountBytes(payload: Segments) returns (total: nat)
    ensures total == Bytes(payload)
  {
    total := 0;
    for k := |payload| downto 0
      invariant total == Bytes(payload[k..])
    {
      assert payload[k..][1..] == payload[k + 1..];
      total := total + |payload[k]|;
    }
    assert payload[0..] == payload;
  }
}
