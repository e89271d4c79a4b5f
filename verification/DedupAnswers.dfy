/** What the request table answers, told by the calls made on it and not by the records it holds. */
module DedupAnswers {
  import opened Wrappers
  import opened Dedup
  import opened DedupRuns

  // ----- a request that is running

  /** The calls in [i, k) neither complete `r` nor clear the table. */
  ghost predicate Unfinished(l: Limits, calls: seq<Call>, tables: seq<Table>, i: nat, k: nat, r: RequestId)
    requires k <= |calls| < |tables|
  {
    forall m: nat :: i <= m < k ==> !calls[m].op.ClearOp? && !Completes(l, tables, calls, m, r)
  }

  /** A cancellation of `r` with this action and domain is among the calls in [i, k). */
  ghost predicate CancelledIn(calls: seq<Call>, i: nat, k: nat, r: RequestId, action: nat, domain: nat)
    requires k <= |calls|
  {
    exists m: nat :: i <= m < k && calls[m].op == CancelOp(r, action, domain)
  }

  /** One call on a running record: marked if it cancels it, and otherwise as it was. */
  lemma RunningStep(l: Limits, t: Table, c: Call, r: RequestId)
    requires Valid(l, t) && r in t.entries && t.entries[r].Running?
    requires !c.op.ClearOp? && !(c.op.CompleteOp? && c.op.m.request == r && Complete(l, t, c.op.m, c.now).1.Ok?)
    ensures var e := t.entries[r];
            && r in After(l, t, c).entries
            && After(l, t, c).entries[r]
               == Running(e.action, e.domain, e.cancelled || c.op == CancelOp(r, e.action, e.domain))
  {
    ExpireKeeps(l, t, c.now);
  }

  /** From the answer `New` until its completion a request is running under that action and domain, and it is
      marked as cancelled exactly when a cancellation of it has come since. */
  lemma {:induction false} RunningUntilCompleted(l: Limits, calls: seq<Call>, tables: seq<Table>, i: nat, k: nat, r: RequestId)
    requires Run(l, calls, tables) && i < k <= |calls| && AnswersNew(l, tables, calls, i, r)
    requires Unfinished(l, calls, tables, i + 1, k, r)
    ensures var (a, d) := (calls[i].op.action, calls[i].op.domain);
            && r in tables[k].entries
            && tables[k].entries[r] == Running(a, d, CancelledIn(calls, i + 1, k, r, a, d))
  {
    if k > i + 1 {
      RunningUntilCompleted(l, calls, tables, i, k - 1, r);
      BytesAreAccounted(l, calls, tables, k - 1);
      RunningStep(l, tables[k - 1], calls[k - 1], r);
    }
  }

  /** A cancellation that finds its request running marks it, and the mark stays until the request is completed
      or the table cleared. */
  lemma {:induction false} CancelMarks(l: Limits, calls: seq<Call>, tables: seq<Table>, c: nat, k: nat)
    requires Run(l, calls, tables) && c < k <= |calls| && calls[c].op.CancelOp?
    requires calls[c].op.r in tables[c].entries && tables[c].entries[calls[c].op.r].Running?
    requires tables[c].entries[calls[c].op.r].action == calls[c].op.action
    requires tables[c].entries[calls[c].op.r].domain == calls[c].op.domain
    requires Unfinished(l, calls, tables, c + 1, k, calls[c].op.r)
    ensures calls[c].op.r in tables[k].entries
    ensures tables[k].entries[calls[c].op.r] == Running(calls[c].op.action, calls[c].op.domain, true)
  {
    if k > c + 1 { CancelMarks(l, calls, tables, c, k - 1); }
    BytesAreAccounted(l, calls, tables, k - 1);
    RunningStep(l, tables[k - 1], calls[k - 1], calls[c].op.r);
  }

  /** What each call on a running request is told. */
  lemma WhileRunning(l: Limits, calls: seq<Call>, tables: seq<Table>, i: nat, k: nat, r: RequestId)
    requires Run(l, calls, tables) && i < k < |calls| && AnswersNew(l, tables, calls, i, r)
    requires Unfinished(l, calls, tables, i + 1, k, r)
    ensures var (a, d) := (calls[i].op.action, calls[i].op.domain);
            match calls[k].op
            case BeginOp(q, b, e) => q == r ==>
              Begin(l, tables[k], q, b, e, calls[k].now).1 == if (b, e) == (a, d) then Ok(AlreadyRunning) else Err(ChangedMetadata)
            case CancelOp(q, b, e) => q == r ==>
              CancelRequest(l, tables[k], q, b, e, calls[k].now).1 == if (b, e) == (a, d) then Ok(()) else Err(ChangedMetadata)
            case CompleteOp(m) => m.request == r ==>
              Complete(l, tables[k], m, calls[k].now).1
              == if (m.action, m.domain) != (a, d) then Err(ChangedMetadata)
                 else if Bytes(m.payload) > USIZE_MAX then Err(TooManyBytes) else Ok(())
            case ReleaseOp(q, b, e) => q == r ==> ReleaseRedirect(tables[k], q, b, e) == (tables[k], Ok(()))
            case _ => true
  {
    RunningUntilCompleted(l, calls, tables, i, k, r);
    BytesAreAccounted(l, calls, tables, k);
    ExpireKeeps(l, tables[k], calls[k].now);
  }

  // ----- a request that is completed

  /** What the completion at `c` leaves: the reply if there is room for its bytes, and only the fact otherwise. */
  ghost function Record(l: Limits, calls: seq<Call>, tables: seq<Table>, c: nat): Entry
    requires c < |calls| < |tables| && calls[c].op.CompleteOp?
  {
    var m := calls[c].op.m;
    if tables[c].retained + Bytes(m.payload) <= l.maxBytes
      then Completed(m.action, m.domain, Some((m.kind, m.payload)), Bytes(m.payload), calls[c].now + l.ttl)
      else Completed(m.action, m.domain, None, 0, calls[c].now + l.ttl)
  }

  /** The calls in [i, k) do not clear the table, do not release a redirect of `r`, and are made before `until`. */
  ghost predicate Undisturbed(calls: seq<Call>, i: nat, k: nat, r: RequestId, until: nat)
    requires k <= |calls|
  {
    forall m: nat :: i <= m < k ==>
      !calls[m].op.ClearOp? && !(calls[m].op.ReleaseOp? && calls[m].op.r == r) && calls[m].now < until
  }

  lemma {:induction false} CompletedStays(l: Limits, calls: seq<Call>, tables: seq<Table>, c: nat, k: nat, r: RequestId)
    requires Run(l, calls, tables) && c < k <= |calls| && Completes(l, tables, calls, c, r)
    requires Undisturbed(calls, c + 1, k, r, calls[c].now + l.ttl)
    ensures r in tables[k].entries && tables[k].entries[r] == Record(l, calls, tables, c)
  {
    if k > c + 1 {
      CompletedStays(l, calls, tables, c, k - 1, r);
      BytesAreAccounted(l, calls, tables, k - 1);
      Fate(l, tables[k - 1], calls[k - 1], r);
    }
  }

  /** Within the time to live of its completion, a duplicate of a request is told the recorded reply, or that it is
      gone, or, after a redirect, to wait; and a second completion is refused. */
  lemma WhileCompleted(l: Limits, calls: seq<Call>, tables: seq<Table>, c: nat, k: nat, r: RequestId)
    requires Run(l, calls, tables) && c < k < |calls| && Completes(l, tables, calls, c, r)
    requires Undisturbed(calls, c + 1, k, r, calls[c].now + l.ttl)
    ensures var done := calls[c].op.m;
            var kept := tables[c].retained + Bytes(done.payload) <= l.maxBytes;
            match calls[k].op
            case BeginOp(q, b, e) => q == r && calls[k].now < calls[c].now + l.ttl ==>
              Begin(l, tables[k], q, b, e, calls[k].now).1
              == if (b, e) != (done.action, done.domain) then Err(ChangedMetadata)
                 else if !kept then Ok(Unavailable(Message(DuplicateResultUnavailable, r, b, e, [])))
                 else if done.kind.Moved? then Ok(AlreadyRunning)
                 else Ok(Replay(done))
            case CompleteOp(m) => m.request == r ==> Complete(l, tables[k], m, calls[k].now) == (tables[k], Err(CompletedTwice))
            case ReleaseOp(q, b, e) => q == r ==>
              var (after, answer) := ReleaseRedirect(tables[k], q, b, e);
              if !(kept && done.kind.Moved?) then after == tables[k] && answer == Err(ChangedMetadata)
              else answer == Ok(()) && (r in after.entries <==> (b, e) != (done.action, done.domain))
            case _ => true
  {
    CompletedStays(l, calls, tables, c, k, r);
    BytesAreAccounted(l, calls, tables, k);
    ExpireKeeps(l, tables[k], calls[k].now);
  }

  /** Until its time to live is over, a tombstone tells every request of its action and domain that it is cancelled. */
  lemma TombstoneAnswers(l: Limits, calls: seq<Call>, tables: seq<Table>, c: nat, k: nat)
    requires Run(l, calls, tables) && c < k < |calls| && Buried(l, calls, tables, c)
    requires forall m :: c < m < k ==> !calls[m].op.ClearOp? && !Completes(l, tables, calls, m, calls[c].op.r)
    requires calls[k].now < calls[c].now + l.ttl && calls[k].op.BeginOp? && calls[k].op.r == calls[c].op.r
    ensures var BeginOp(r, a, d) := calls[k].op;
            Begin(l, tables[k], r, a, d, calls[k].now).1
            == if (a, d) == (calls[c].op.action, calls[c].op.domain) then Ok(WasCancelled(Message(Cancelled, r, a, d, [])))
               else Err(ChangedMetadata)
  {
    TombstoneStays(l, calls, tables, c, k);
    BytesAreAccounted(l, calls, tables, k);
    ExpireKeeps(l, tables[k], calls[k].now);
  }

  // ----- a request that is not known

  /** The call names `r` in a way that makes a record. */
  predicate Names(op: Op, r: RequestId) {
    (op.BeginOp? || op.CancelOp?) && op.r == r
  }

  /** The records that a call at time `now` still sees. */
  ghost function Live(t: Table, now: nat): set<RequestId> {
    set q | q in t.entries && (t.entries[q].Running? || now < t.entries[q].expires)
  }

  lemma LiveIsExpired(l: Limits, t: Table, now: nat)
    requires Valid(l, t)
    ensures Expire(t, now).entries.Keys == Live(t, now)
  {
    ExpireKeeps(l, t, now);
  }

  /** A call that does not name `r` makes no record of it, and changes one only by completing it. */
  lemma UnnamedStep(l: Limits, t: Table, c: Call, r: RequestId)
    requires Valid(l, t) && !Names(c.op, r)
    ensures var u := After(l, t, c);
            r in u.entries ==> r in t.entries && (t.entries[r].Completed? ==> u.entries[r] == t.entries[r])
  {
    ExpireKeeps(l, t, c.now);
  }

  /** An unknown request: no call that could make a record has named it since the table was last empty. */
  lemma {:induction false} NeverNamed(l: Limits, calls: seq<Call>, tables: seq<Table>, i: nat, k: nat, r: RequestId)
    requires Run(l, calls, tables) && i <= k <= |calls| && (i == 0 || calls[i - 1].op.ClearOp?)
    requires forall m: nat :: i <= m < k ==> !Names(calls[m].op, r)
    ensures r !in tables[k].entries
  {
    if k > i {
      NeverNamed(l, calls, tables, i, k - 1, r);
      BytesAreAccounted(l, calls, tables, k - 1);
      UnnamedStep(l, tables[k - 1], calls[k - 1], r);
    }
  }

  /** A request that nothing has named is new if there is room and refused otherwise, a cancellation of it leaves a
      record exactly when there is room, and its completion is refused. */
  lemma FirstCall(l: Limits, calls: seq<Call>, tables: seq<Table>, i: nat, k: nat, r: RequestId)
    requires Run(l, calls, tables) && i <= k < |calls| && (i == 0 || calls[i - 1].op.ClearOp?)
    requires forall m: nat :: i <= m < k ==> !Names(calls[m].op, r)
    ensures var room := |Live(tables[k], calls[k].now)| < l.maxEntries;
            match calls[k].op
            case BeginOp(q, b, e) => q == r ==>
              && Begin(l, tables[k], q, b, e, calls[k].now).1 == (if room then Ok(New) else Err(TooManyEntries))
              && (r in tables[k + 1].entries <==> room)
            case CancelOp(q, b, e) => q == r ==>
              && CancelRequest(l, tables[k], q, b, e, calls[k].now).1 == Ok(())
              && (r in tables[k + 1].entries <==> room) && (Buried(l, calls, tables, k) <==> room)
            case CompleteOp(m) => m.request == r ==> Complete(l, tables[k], m, calls[k].now) == (tables[k], Err(NotStarted))
            case ReleaseOp(q, b, e) => q == r ==> ReleaseRedirect(tables[k], q, b, e) == (tables[k], Ok(()))
            case _ => true
  {
    NeverNamed(l, calls, tables, i, k, r);
    BytesAreAccounted(l, calls, tables, k);
    ExpireKeeps(l, tables[k], calls[k].now);
    LiveIsExpired(l, tables[k], calls[k].now);
  }

  /** A record once completed is that record, or gone, as long as nothing names its request again. */
  lemma {:induction false} CompletedOrGone(l: Limits, calls: seq<Call>, tables: seq<Table>, c: nat, k: nat, r: RequestId)
    requires Run(l, calls, tables) && c < k <= |calls| && Completes(l, tables, calls, c, r)
    requires forall m: nat :: c < m < k ==> !Names(calls[m].op, r)
    ensures r in tables[k].entries ==> tables[k].entries[r] == Record(l, calls, tables, c)
  {
    if k > c + 1 {
      CompletedOrGone(l, calls, tables, c, k - 1, r);
      BytesAreAccounted(l, calls, tables, k - 1);
      UnnamedStep(l, tables[k - 1], calls[k - 1], r);
    }
  }

  /** After its time to live, a completed request is new again if there is room. */
  lemma AgedIsNew(l: Limits, calls: seq<Call>, tables: seq<Table>, c: nat, k: nat, r: RequestId)
    requires Run(l, calls, tables) && c < k < |calls| && Completes(l, tables, calls, c, r)
    requires forall m: nat :: c < m < k ==> !Names(calls[m].op, r)
    requires calls[c].now + l.ttl <= calls[k].now && calls[k].op.BeginOp? && calls[k].op.r == r
    ensures AnswersNew(l, tables, calls, k, r) <==> |Live(tables[k], calls[k].now)| < l.maxEntries
  {
    CompletedOrGone(l, calls, tables, c, k, r);
    BytesAreAccounted(l, calls, tables, k);
    ExpireKeeps(l, tables[k], calls[k].now);
    LiveIsExpired(l, tables[k], calls[k].now);
  }
}
