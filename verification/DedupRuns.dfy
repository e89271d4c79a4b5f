/** What every sequence of calls on the request table guarantees. */
module DedupRuns {
  import opened Wrappers
  import opened Dedup

  datatype Op =
    | BeginOp(r: RequestId, action: nat, domain: nat)
    | CancelOp(r: RequestId, action: nat, domain: nat)
    | CompleteOp(m: Message)
    | ReleaseOp(r: RequestId, action: nat, domain: nat)
    | ExpireOp
    | ClearOp

  datatype Call = Call(op: Op, now: nat)

  ghost function After(l: Limits, t: Table, c: Call): Table {
    match c.op
    case BeginOp(r, a, d) => Begin(l, t, r, a, d, c.now).0
    case CancelOp(r, a, d) => CancelRequest(l, t, r, a, d, c.now).0
    case CompleteOp(m) => Complete(l, t, m, c.now).0
    case ReleaseOp(r, a, d) => ReleaseRedirect(t, r, a, d).0
    case ExpireOp => Expire(t, c.now)
    case ClearOp => Empty
  }

  /** The tables between the calls of a run, starting empty; time never goes back. */
  ghost predicate Run(l: Limits, calls: seq<Call>, tables: seq<Table>) {
    && |tables| == |calls| + 1
    && tables[0] == Empty
    && (forall k :: 0 <= k < |calls| ==> tables[k + 1] == After(l, tables[k], calls[k]))
    && forall j, k :: 0 <= j <= k < |calls| ==> calls[j].now <= calls[k].now
  }

  /** Call `k` answers that request `r` is new. */
  ghost predicate AnswersNew(l: Limits, tables: seq<Table>, calls: seq<Call>, k: nat, r: RequestId)
    requires k < |calls| && k < |tables|
  {
    && calls[k].op.BeginOp? && calls[k].op.r == r
    && Begin(l, tables[k], r, calls[k].op.action, calls[k].op.domain, calls[k].now).1 == Ok(New)
  }

  /** Call `k` completes request `r`. */
  ghost predicate Completes(l: Limits, tables: seq<Table>, calls: seq<Call>, k: nat, r: RequestId)
    requires k < |calls| && k < |tables|
  {
    && calls[k].op.CompleteOp? && calls[k].op.m.request == r
    && Complete(l, tables[k], calls[k].op.m, calls[k].now).1 == Ok(())
  }

  // ----- bounds and byte accounting

  /** Bytes of the Moved record that this call releases. */
  ghost function Loses(l: Limits, t: Table, c: Call): nat {
    if c.op.ReleaseOp? && c.op.r in t.entries && c.op.r !in After(l, t, c).entries then Held(t.entries[c.op.r]) else 0
  }

  /** Bytes of Moved records released since the last clear. */
  ghost function Leaked(l: Limits, calls: seq<Call>, tables: seq<Table>, k: nat): nat
    requires k <= |calls| < |tables|
  {
    if k == 0 || calls[k - 1].op.ClearOp? then 0
    else Leaked(l, calls, tables, k - 1) + Loses(l, tables[k - 1], calls[k - 1])
  }

  lemma CallKeeps(l: Limits, t: Table, c: Call)
    requires Valid(l, t)
    ensures Valid(l, After(l, t, c))
    ensures Leak(After(l, t, c)) == if c.op.ClearOp? then 0 else Leak(t) + Loses(l, t, c)
  {
    match c.op
    case BeginOp(r, a, d) => BeginKeeps(l, t, r, a, d, c.now);
    case CancelOp(r, a, d) => CancelKeeps(l, t, r, a, d, c.now);
    case CompleteOp(m) => CompleteKeeps(l, t, m, c.now);
    case ReleaseOp(r, a, d) => ReleaseLeaks(l, t, r, a, d);
    case ExpireOp => ExpireKeeps(l, t, c.now);
    case ClearOp =>
  }

  /** Entries and bytes stay within their limits, and the retained counter is exactly the live bytes
      plus what redirect releases have leaked. */
  lemma {:induction false} BytesAreAccounted(l: Limits, calls: seq<Call>, tables: seq<Table>, k: nat)
    requires Run(l, calls, tables) && k <= |calls|
    ensures Valid(l, tables[k])
    ensures tables[k].retained == LiveBytes(tables[k].entries) + Leaked(l, calls, tables, k)
  {
    if k > 0 {
      var j := k - 1;
      BytesAreAccounted(l, calls, tables, j);
      CallKeeps(l, tables[j], calls[j]);
      assert tables[j + 1] == After(l, tables[j], calls[j]);
    }
  }

  // ----- the life of a record

  /** Call `c` on a table that holds `r` either keeps the record, marks it cancelled, completes it, or
      (always, if it has expired) removes it for one of three reasons. */
  lemma Fate(l: Limits, t: Table, c: Call, r: RequestId)
    requires Valid(l, t) && r in t.entries
    ensures var u := After(l, t, c);
            var e := t.entries[r];
            if r in u.entries then
              || Expired(e, c.now)
              || u.entries[r] == e
              || (e.Running? && u.entries[r] == e.(cancelled := true))
              || (!e.Completed? && c.op.CompleteOp? && c.op.m.request == r && Complete(l, t, c.op.m, c.now).1.Ok?
                  && u.entries[r].Completed? && u.entries[r].expires == c.now + l.ttl)
            else
              c.op.ClearOp? || (c.op.ReleaseOp? && c.op.r == r && IsMoved(e)) || Expired(e, c.now)
  {
    match c.op
    case BeginOp(_, _, _) => ExpireKeeps(l, t, c.now);
    case CancelOp(_, _, _) => ExpireKeeps(l, t, c.now);
    case ExpireOp => ExpireKeeps(l, t, c.now);
    case _ =>
  }

  /** Between positions `i` and `k` the record of `r` could go: the table was cleared, a redirect was
      released, or its completion is at least `ttl` old. */
  ghost predicate Separated(l: Limits, calls: seq<Call>, tables: seq<Table>, i: nat, k: nat, r: RequestId)
    requires i < k < |calls| && |calls| < |tables|
  {
    || calls[k].op.ClearOp?
    || (calls[k].op.ReleaseOp? && calls[k].op.r == r && r in tables[k].entries && IsMoved(tables[k].entries[r]))
    || exists c: nat :: i < c < k && Completes(l, tables, calls, c, r) && calls[c].now + l.ttl <= calls[k].now
  }

  /** As long as nothing separates them, the request stays running, or completed by a call after `i`. */
  lemma {:induction false} StaysKnown(l: Limits, calls: seq<Call>, tables: seq<Table>, i: nat, k: nat, r: RequestId)
    requires Run(l, calls, tables) && i < k <= |calls| && AnswersNew(l, tables, calls, i, r)
    requires forall m :: i < m < k ==> !Separated(l, calls, tables, i, m, r)
    ensures r in tables[k].entries
    ensures tables[k].entries[r].Running? ||
            exists c: nat :: i < c < k && Completes(l, tables, calls, c, r)
              && tables[k].entries[r].Completed? && tables[k].entries[r].expires == calls[c].now + l.ttl
  {
    if k > i + 1 {
      StaysKnown(l, calls, tables, i, k - 1, r);
      BytesAreAccounted(l, calls, tables, k - 1);
      Fate(l, tables[k - 1], calls[k - 1], r);
      assert !Separated(l, calls, tables, i, k - 1, r);
      if r in tables[k].entries && !tables[k].entries[r].Running? {
        if tables[k - 1].entries[r].Running? {
          assert Completes(l, tables, calls, k - 1, r);
        } else {
          var c: nat :| i < c < k - 1 && Completes(l, tables, calls, c, r) && tables[k - 1].entries[r].expires == calls[c].now + l.ttl;
          assert i < c < k;
        }
      }
    }
  }

  /** Two `New` answers for one request are separated: by a clear, by the release of a Moved record, or
      by a completion whose time to live has run out. */
  lemma NewTwiceIsSeparated(l: Limits, calls: seq<Call>, tables: seq<Table>, i: nat, j: nat, r: RequestId)
    requires Run(l, calls, tables) && i < j < |calls|
    requires AnswersNew(l, tables, calls, i, r) && AnswersNew(l, tables, calls, j, r)
    ensures exists k: nat :: i < k <= j && Separated(l, calls, tables, i, k, r)
  {
    if forall m :: i < m < j ==> !Separated(l, calls, tables, i, m, r) {
      StaysKnown(l, calls, tables, i, j, r);
      BytesAreAccounted(l, calls, tables, j);
      ExpireKeeps(l, tables[j], calls[j].now);
      assert Separated(l, calls, tables, i, j, r);
    }
  }

  // ----- replay

  /** The table has just recorded this response for `r`, and nothing has cleared it since. */
  lemma {:induction false} ResponseStays(l: Limits, calls: seq<Call>, tables: seq<Table>, c: nat, k: nat)
    requires Run(l, calls, tables) && c < k <= |calls|
    requires calls[c].op.CompleteOp? && Completes(l, tables, calls, c, calls[c].op.m.request)
    requires tables[c].retained + Bytes(calls[c].op.m.payload) <= l.maxBytes && !calls[c].op.m.kind.Moved?
    requires forall m :: c < m < k ==> !calls[m].op.ClearOp? && calls[m].now < calls[c].now + l.ttl
    ensures var m := calls[c].op.m;
            && m.request in tables[k].entries
            && tables[k].entries[m.request]
               == Completed(m.action, m.domain, Some((m.kind, m.payload)), Bytes(m.payload), calls[c].now + l.ttl)
  {
    if k > c + 1 {
      ResponseStays(l, calls, tables, c, k - 1);
      BytesAreAccounted(l, calls, tables, k - 1);
      Fate(l, tables[k - 1], calls[k - 1], calls[c].op.m.request);
    }
  }

  /** Until its time to live is over, a retained response is replayed unchanged to every duplicate. */
  lemma RetainedIsReplayed(l: Limits, calls: seq<Call>, tables: seq<Table>, c: nat, j: nat)
    requires Run(l, calls, tables) && c < j < |calls|
    requires calls[c].op.CompleteOp? && Completes(l, tables, calls, c, calls[c].op.m.request)
    requires tables[c].retained + Bytes(calls[c].op.m.payload) <= l.maxBytes && !calls[c].op.m.kind.Moved?
    requires forall m :: c < m < j ==> !calls[m].op.ClearOp?
    requires calls[j].now < calls[c].now + l.ttl
    requires calls[j].op == BeginOp(calls[c].op.m.request, calls[c].op.m.action, calls[c].op.m.domain)
    ensures Begin(l, tables[j], calls[j].op.r, calls[j].op.action, calls[j].op.domain, calls[j].now).1
            == Ok(Replay(calls[c].op.m))
  {
    ResponseStays(l, calls, tables, c, j);
    BytesAreAccounted(l, calls, tables, j);
    ExpireKeeps(l, tables[j], calls[j].now);
  }

  ghost predicate Buried(l: Limits, calls: seq<Call>, tables: seq<Table>, c: nat)
    requires c < |calls| < |tables|
  {
    && calls[c].op.CancelOp?
    && calls[c].op.r !in Expire(tables[c], calls[c].now).entries
    && |Expire(tables[c], calls[c].now).entries| < l.maxEntries
  }

  lemma {:induction false} TombstoneStays(l: Limits, calls: seq<Call>, tables: seq<Table>, c: nat, k: nat)
    requires Run(l, calls, tables) && c < k <= |calls| && Buried(l, calls, tables, c)
    requires forall m :: c < m < k ==> !calls[m].op.ClearOp? && !Completes(l, tables, calls, m, calls[c].op.r)
    requires forall m :: c < m < k ==> calls[m].now < calls[c].now + l.ttl
    ensures calls[c].op.r in tables[k].entries
    ensures tables[k].entries[calls[c].op.r] == Tombstone(calls[c].op.action, calls[c].op.domain, calls[c].now + l.ttl)
  {
    if k > c + 1 {
      TombstoneStays(l, calls, tables, c, k - 1);
      BytesAreAccounted(l, calls, tables, k - 1);
      Fate(l, tables[k - 1], calls[k - 1], calls[c].op.r);
      assert !Completes(l, tables, calls, k - 1, calls[c].op.r);
    }
  }

  /** A cancellation that arrives before its request leaves a tombstone, and the request is then refused
      until the tombstone's time to live is over. */
  lemma TombstoneRefuses(l: Limits, calls: seq<Call>, tables: seq<Table>, c: nat, k: nat)
    requires Run(l, calls, tables) && c < k < |calls| && Buried(l, calls, tables, c)
    requires forall m :: c < m < k ==> !calls[m].op.ClearOp? && !Completes(l, tables, calls, m, calls[c].op.r)
    requires calls[k].now < calls[c].now + l.ttl
    ensures !AnswersNew(l, tables, calls, k, calls[c].op.r)
  {
    TombstoneStays(l, calls, tables, c, k);
    BytesAreAccounted(l, calls, tables, k);
    ExpireKeeps(l, tables[k], calls[k].now);
  }
}
