/** Which reservations are granted, and what commits, drops and releases undo. */
module TransportAnswers {
  import opened Wrappers
  import opened Bytes
  import opened Protocol
  import opened Sums
  import opened Transport

  /** A reservation in any run: refused exactly when the transport is closed, the slot is full of what is outstanding, the
      peer's outstanding bytes leave no room below the limit of the channel, or the tickets have run out, in this order. A
      refusal changes nothing. */
  lemma ReservationIsAnswered(limits: Limits, members: nat, states: seq<Sys>, steps: seq<Step>, k: nat, g: Grant)
    requires Run(limits, members, states, steps) && k <= |steps| && g.peer < |states[k].state.bytes|
    ensures Shaped(states[k].state)
    ensures var (s, out) := (states[k].state, states[k].out);
            var (t, r) := Reserve(limits, s, g);
            var limit := if g.channel.Control? then limits.maxInflight else limits.maxInflight - limits.reserve;
            && r == (if s.closed then Err(Closed)
                     else if Sum(out, InSlot(g.peer, g.channel)) >= limits.maxQueued then Err(QueueFull)
                     else if Sum(out, AtPeer(g.peer)) + g.bytes > limit then Err(ByteLimit)
                     else if s.nextTicket >= U64 - 1 then Err(TicketOverflow)
                     else Ok(s.nextTicket))
            && (r.Err? ==> t == s)
            && (r.Ok? ==> r.value !in out && t.permit == Some(r.value) && t.nextTicket == s.nextTicket + 1)
  {
    EveryRunKeepsAccounts(limits, members, states, steps, k);
    assert PeerGood(limits, states[k].state, states[k].out, g.peer);
    assert SlotGood(limits, states[k].state, states[k].out, g.peer, g.channel);
  }

  /** A permit that is dropped leaves the transport as it was before its reservation, but for the ticket. */
  lemma DropUndoesReserve(limits: Limits, s: Sys, g: Grant)
    requires Inv(limits, s) && Enabled(s, DoReserve(g)) && Reserve(limits, s.state, g).1.Ok?
    ensures var reserved := Next(limits, s, DoReserve(g));
            && Enabled(reserved, DoDrop)
            && Next(limits, reserved, DoDrop) == s.(state := s.state.(nextTicket := s.state.nextTicket + 1))
  {
    var reserved := Next(limits, s, DoReserve(g));
    var ticket := s.state.nextTicket;
    assert s.out[ticket := g] - {ticket} == s.out;
    var dropped := Next(limits, reserved, DoDrop);
    assert dropped.state.bytes == s.state.bytes && dropped.state.counts == s.state.counts;
  }

  /** A submission that is committed and then released leaves the counters as they were before its reservation, and is
      counted as submitted. */
  lemma ReleaseUndoesCommit(limits: Limits, s: Sys, g: Grant)
    requires Inv(limits, s) && Enabled(s, DoReserve(g)) && Reserve(limits, s.state, g).1.Ok?
    ensures var committed := Next(limits, Next(limits, s, DoReserve(g)), DoCommit);
            && committed.state.permit == None && Enabled(committed, DoRelease(s.state.nextTicket))
            && Next(limits, committed, DoRelease(s.state.nextTicket))
               == s.(state := s.state.(nextTicket := s.state.nextTicket + 1,
                                       submittedParcels := s.state.submittedParcels + 1,
                                       submittedBytes := s.state.submittedBytes + g.bytes))
  {
    var committed := Next(limits, Next(limits, s, DoReserve(g)), DoCommit);
    var ticket := s.state.nextTicket;
    assert s.out[ticket := g] - {ticket} == s.out;
    var released := Next(limits, committed, DoRelease(ticket));
    assert released.state.bytes == s.state.bytes && released.state.counts == s.state.counts;
  }

  // ----- over whole runs

  /** The bytes of the permits that the first `k` steps commit, and how many they are. */
  ghost function Committed(states: seq<Sys>, steps: seq<Step>, k: nat): (r: (nat, nat))
    requires k <= |steps| < |states|
  {
    if k == 0 then (0, 0)
    else
      var (parcels, bytes) := Committed(states, steps, k - 1);
      var s := states[k - 1];
      if steps[k - 1].DoCommit? && s.state.permit.Some? && s.state.permit.value in s.out
      then (parcels + 1, bytes + s.out[s.state.permit.value].bytes) else (parcels, bytes)
  }

  /** The statistics count exactly the committed permits and their bytes. */
  lemma {:induction false} SubmissionsAreCommits(limits: Limits, members: nat, states: seq<Sys>, steps: seq<Step>, k: nat)
    requires Run(limits, members, states, steps) && k <= |steps|
    ensures (states[k].state.submittedParcels, states[k].state.submittedBytes) == Committed(states, steps, k)
  {
    if k > 0 {
      var j := k - 1;
      SubmissionsAreCommits(limits, members, states, steps, j);
      EveryStepIsHeld(limits, members, states, steps, j);
      assert states[j + 1] == Next(limits, states[j], steps[j]);
    }
  }

  /** Once closed, a transport stays closed and grants nothing. */
  lemma {:induction false} ClosedForGood(limits: Limits, members: nat, states: seq<Sys>, steps: seq<Step>, i: nat, k: nat)
    requires Run(limits, members, states, steps) && i < k <= |steps| && steps[i].DoClose?
    ensures states[k].state.closed
    ensures k < |steps| && steps[k].DoReserve? ==> states[k + 1] == states[k]
  {
    assert states[i + 1] == Next(limits, states[i], steps[i]);
    if k > i + 1 {
      var j := k - 1;
      ClosedForGood(limits, members, states, steps, i, j);
      assert states[j + 1] == Next(limits, states[j], steps[j]);
    }
    if k < |steps| { assert states[k + 1] == Next(limits, states[k], steps[k]); }
  }

  /** No ticket is granted twice: a later reservation gets a larger one. */
  lemma {:induction false} TicketsRise(limits: Limits, members: nat, states: seq<Sys>, steps: seq<Step>, i: nat, k: nat)
    requires Run(limits, members, states, steps) && i <= k <= |steps|
    ensures states[i].state.nextTicket <= states[k].state.nextTicket
  {
    if k > i {
      var j := k - 1;
      TicketsRise(limits, members, states, steps, i, j);
      assert states[j + 1] == Next(limits, states[j], steps[j]);
    }
  }
}
