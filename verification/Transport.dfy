/** Byte and slot accounting of outgoing parcels, crates/hataori-runtime-foundation/src/transport.rs.

  A permit holds the gate until it is committed or dropped, so at most one permit is open at a time;
  releases of committed submissions do not take the gate.
 */
module Transport {
  import opened Wrappers
  import opened Bytes
  import opened Protocol
  import opened Sums

  datatype Grant = Grant(peer: nat, channel: Channel, bytes: nat)

  datatype TransportError = Closed | QueueFull | ByteLimit | TicketOverflow

  /** `counts` has three slots per peer. The counters are the atomics; `int` shows that they never go below zero. */
  datatype State = State(closed: bool, nextTicket: nat, counts: seq<int>, bytes: seq<int>, permit: Option<nat>,
                         submittedParcels: nat, submittedBytes: nat)

  function Slot(peer: nat, channel: Channel): nat { peer * 3 + ChannelCode(channel) }

  predicate Shaped(s: State) { |s.counts| == 3 * |s.bytes| }

  function ByteLimitFor(limits: Limits, channel: Channel): int {
    if channel.Control? then limits.maxInflight else limits.maxInflight - limits.reserve
  }

  function Release(s: State, g: Grant): State
    requires Shaped(s) && g.peer < |s.bytes|
  {
    var slot := Slot(g.peer, g.channel);
    s.(bytes := s.bytes[g.peer := s.bytes[g.peer] - g.bytes], counts := s.counts[slot := s.counts[slot] - 1])
  }

  function Reserve(limits: Limits, s: State, g: Grant): (State, Result<nat, TransportError>)
    requires Shaped(s) && g.peer < |s.bytes|
  {
    var slot := Slot(g.peer, g.channel);
    if s.closed then (s, Err(Closed))
    else if s.counts[slot] + 1 > limits.maxQueued then (s, Err(QueueFull))
    else if s.bytes[g.peer] + g.bytes > ByteLimitFor(limits, g.channel) then (s, Err(ByteLimit))
    else if s.nextTicket == 0 || s.nextTicket >= U64 - 1 then (s, Err(TicketOverflow))
    else
      (s.(counts := s.counts[slot := s.counts[slot] + 1], bytes := s.bytes[g.peer := s.bytes[g.peer] + g.bytes],
          nextTicket := s.nextTicket + 1, permit := Some(s.nextTicket)),
       Ok(s.nextTicket))
  }

  // ----- runs

  /** The state with what is outstanding: the grants of the open permit and of the submissions, by ticket. */
  datatype Sys = Sys(state: State, out: map<nat, Grant>)

  datatype Step = DoReserve(g: Grant) | DoCommit | DoDrop | DoRelease(ticket: nat) | DoClose

  ghost predicate Enabled(s: Sys, step: Step) {
    match step
    case DoReserve(g) => s.state.permit.None? && g.peer < |s.state.bytes|
    case DoCommit => s.state.permit.Some?
    case DoDrop => s.state.permit.Some?
    case DoRelease(ticket) => ticket in s.out && s.state.permit != Some(ticket)
    case DoClose => s.state.permit.None?
  }

  /** The ticket has a grant for a peer that exists. */
  predicate Held(s: Sys, ticket: nat) {
    Shaped(s.state) && ticket in s.out && s.out[ticket].peer < |s.state.bytes|
  }

  /** A step that refers to nothing held changes nothing; no run takes such a step. */
  function Next(limits: Limits, s: Sys, step: Step): Sys {
    match step
    case DoReserve(g) =>
      if !Shaped(s.state) || g.peer >= |s.state.bytes| then s
      else
        var (next, r) := Reserve(limits, s.state, g);
        Sys(next, if r.Ok? then s.out[r.value := g] else s.out)
    case DoCommit =>
      if s.state.permit.None? || !Held(s, s.state.permit.value) then s
      else
        var g := s.out[s.state.permit.value];
        s.(state := s.state.(permit := None, submittedParcels := s.state.submittedParcels + 1, submittedBytes := s.state.submittedBytes + g.bytes))
    case DoDrop =>
      if s.state.permit.None? || !Held(s, s.state.permit.value) then s
      else
        var ticket := s.state.permit.value;
        Sys(Release(s.state, s.out[ticket]).(permit := None), s.out - {ticket})
    case DoRelease(ticket) =>
      if !Held(s, ticket) then s else Sys(Release(s.state, s.out[ticket]), s.out - {ticket})
    case DoClose => s.(state := s.state.(closed := true))
  }

  // ----- what the counters count

  function AtPeer(p: nat): Grant -> nat { (g: Grant) => if g.peer == p then g.bytes else 0 }

  function ControlAt(p: nat): Grant -> nat { (g: Grant) => if g.peer == p && g.channel.Control? then g.bytes else 0 }

  function OthersAt(p: nat): Grant -> nat { (g: Grant) => if g.peer == p && !g.channel.Control? then g.bytes else 0 }

  function InSlot(p: nat, c: Channel): Grant -> nat { (g: Grant) => if g.peer == p && g.channel == c then 1 else 0 }

  ghost predicate PeerGood(limits: Limits, s: State, out: map<nat, Grant>, p: nat)
    requires p < |s.bytes|
  {
    && s.bytes[p] == Sum(out, AtPeer(p)) <= limits.maxInflight
    && Sum(out, OthersAt(p)) <= limits.maxInflight - limits.reserve
  }

  ghost predicate SlotGood(limits: Limits, s: State, out: map<nat, Grant>, p: nat, c: Channel)
    requires Shaped(s) && p < |s.bytes|
  {
    s.counts[Slot(p, c)] == Sum(out, InSlot(p, c)) <= limits.maxQueued
  }

  /** Bytes per peer and counts per slot are the sums over what is outstanding, and within their limits. */
  ghost predicate Inv(limits: Limits, s: Sys) {
    && limits.Valid() && Shaped(s.state) && s.state.nextTicket > 0
    && (forall t <- s.out :: 0 < t < s.state.nextTicket && s.out[t].peer < |s.state.bytes|)
    && (s.state.permit.Some? ==> s.state.permit.value in s.out)
    && (forall p: nat :: p < |s.state.bytes| ==> PeerGood(limits, s.state, s.out, p))
    && (forall p: nat, c :: p < |s.state.bytes| ==> SlotGood(limits, s.state, s.out, p, c))
  }

  lemma SlotsDiffer(p: nat, c: Channel, q: nat, d: Channel)
    requires (p, c) != (q, d)
    ensures Slot(p, c) != Slot(q, d)
  {
  }

  lemma ReserveKeeps(limits: Limits, s: Sys, g: Grant)
    requires Inv(limits, s) && Enabled(s, DoReserve(g))
    ensures Inv(limits, Next(limits, s, DoReserve(g)))
  {
    var (next, r) := Reserve(limits, s.state, g);
    if r.Ok? {
      var t := r.value;
      var out := s.out[t := g];
      assert t !in s.out;
      forall p: nat | p < |next.bytes| ensures PeerGood(limits, next, out, p) {
        assert PeerGood(limits, s.state, s.out, p);
        SumSet(s.out, AtPeer(p), t, g);
        SumSet(s.out, OthersAt(p), t, g);
        SplitBytes(s.out, p);
      }
      forall p: nat, c | p < |next.bytes| ensures SlotGood(limits, next, out, p, c) {
        assert SlotGood(limits, s.state, s.out, p, c);
        SumSet(s.out, InSlot(p, c), t, g);
        if (p, c) != (g.peer, g.channel) { SlotsDiffer(p, c, g.peer, g.channel); }
      }
    }
  }

  /** Control bytes and the others make up the bytes of a peer. */
  lemma SplitBytes(out: map<nat, Grant>, p: nat)
    ensures Sum(out, AtPeer(p)) == Sum(out, ControlAt(p)) + Sum(out, OthersAt(p))
  {
    SumAdd(out, ControlAt(p), OthersAt(p), AtPeer(p));
  }

  lemma ReleaseGood(limits: Limits, s: Sys, ticket: nat)
    requires Inv(limits, s) && ticket in s.out
    ensures forall p: nat :: p < |s.state.bytes| ==> PeerGood(limits, Release(s.state, s.out[ticket]), s.out - {ticket}, p)
    ensures forall p: nat, c :: p < |s.state.bytes| ==> SlotGood(limits, Release(s.state, s.out[ticket]), s.out - {ticket}, p, c)
  {
    var g, out := s.out[ticket], s.out - {ticket};
    var next := Release(s.state, g);
    forall p: nat | p < |next.bytes| ensures PeerGood(limits, next, out, p) {
      assert PeerGood(limits, s.state, s.out, p);
      SumSplit(s.out, AtPeer(p), ticket);
      SumSplit(s.out, OthersAt(p), ticket);
    }
    forall p: nat, c | p < |next.bytes| ensures SlotGood(limits, next, out, p, c) {
      assert SlotGood(limits, s.state, s.out, p, c);
      SumSplit(s.out, InSlot(p, c), ticket);
      if (p, c) != (g.peer, g.channel) { SlotsDiffer(p, c, g.peer, g.channel); }
    }
  }

  lemma StepKeeps(limits: Limits, s: Sys, step: Step)
    requires Inv(limits, s) && Enabled(s, step)
    ensures Inv(limits, Next(limits, s, step))
  {
    match step
    case DoReserve(g) => ReserveKeeps(limits, s, g);
    case DoDrop =>
      var ticket := s.state.permit.value;
      ReleaseGood(limits, s, ticket);
      var next := Release(s.state, s.out[ticket]);
      assert forall p: nat :: p < |next.bytes| ==> PeerGood(limits, next, s.out - {ticket}, p);
      assert forall p: nat, c :: p < |next.bytes| ==> SlotGood(limits, next, s.out - {ticket}, p, c);
      Same(limits, next, next.(permit := None), s.out - {ticket});
    case DoRelease(ticket) => ReleaseGood(limits, s, ticket);
    case DoCommit =>
      Same(limits, s.state, Next(limits, s, step).state, s.out);
    case DoClose =>
      Same(limits, s.state, Next(limits, s, step).state, s.out);
  }

  /** Steps that leave the counters alone leave the accounts good. */
  lemma Same(limits: Limits, s: State, next: State, out: map<nat, Grant>)
    requires Shaped(s) && next.bytes == s.bytes && next.counts == s.counts
    requires forall p: nat :: p < |s.bytes| ==> PeerGood(limits, s, out, p)
    requires forall p: nat, c :: p < |s.bytes| ==> SlotGood(limits, s, out, p, c)
    ensures forall p: nat :: p < |next.bytes| ==> PeerGood(limits, next, out, p)
    ensures forall p: nat, c :: p < |next.bytes| ==> SlotGood(limits, next, out, p, c)
  {
    forall p: nat | p < |next.bytes| ensures PeerGood(limits, next, out, p) { assert PeerGood(limits, s, out, p); }
    forall p: nat, c | p < |next.bytes| ensures SlotGood(limits, next, out, p, c) { assert SlotGood(limits, s, out, p, c); }
  }

  function Start(members: nat): Sys {
    Sys(State(false, 1, seq(3 * members, _ => 0), seq(members, _ => 0), None, 0, 0), map[])
  }

  lemma StartsGood(limits: Limits, members: nat)
    requires limits.Valid()
    ensures Inv(limits, Start(members))
  {
  }

  ghost predicate Run(limits: Limits, members: nat, states: seq<Sys>, steps: seq<Step>) {
    && limits.Valid() && |states| == |steps| + 1 && states[0] == Start(members)
    && forall k :: 0 <= k < |steps| ==> Enabled(states[k], steps[k]) && states[k + 1] == Next(limits, states[k], steps[k])
  }

  /** In every run of reserve, commit, permit drop, release and close, the accounts are exact. */
  lemma {:induction false} EveryRunKeepsAccounts(limits: Limits, members: nat, states: seq<Sys>, steps: seq<Step>, k: nat)
    requires Run(limits, members, states, steps) && k <= |steps|
    ensures Inv(limits, states[k])
  {
    if k == 0 {
      StartsGood(limits, members);
    } else {
      var j := k - 1;
      EveryRunKeepsAccounts(limits, members, states, steps, j);
      assert Enabled(states[j], steps[j]) && states[j + 1] == Next(limits, states[j], steps[j]);
      StepKeeps(limits, states[j], steps[j]);
    }
  }

  /** No step of a run refers to a grant that is not held. */
  lemma EveryStepIsHeld(limits: Limits, members: nat, states: seq<Sys>, steps: seq<Step>, k: nat)
    requires Run(limits, members, states, steps) && k < |steps|
    ensures steps[k].DoCommit? || steps[k].DoDrop? ==> states[k].state.permit.Some? && Held(states[k], states[k].state.permit.value)
    ensures steps[k].DoRelease? ==> Held(states[k], steps[k].ticket)
  {
    EveryRunKeepsAccounts(limits, members, states, steps, k);
    assert Enabled(states[k], steps[k]);
  }

  /** The reserve does its work: whatever else is outstanding, an open peer with a free control slot accepts a
      control parcel that keeps the control bytes within the reserve. */
  lemma ControlIsAccepted(limits: Limits, s: Sys, g: Grant)
    requires Inv(limits, s) && g.peer < |s.state.bytes| && g.channel == Control
    requires !s.state.closed && s.state.nextTicket < U64 - 1
    requires Sum(s.out, InSlot(g.peer, Control)) < limits.maxQueued
    requires Sum(s.out, ControlAt(g.peer)) + g.bytes <= limits.reserve
    ensures Reserve(limits, s.state, g).1.Ok?
  {
    assert PeerGood(limits, s.state, s.out, g.peer);
    assert SlotGood(limits, s.state, s.out, g.peer, Control);
    SplitBytes(s.out, g.peer);
  }

  /** When nothing is outstanding every counter is back at zero. */
  lemma IdleIsZero(limits: Limits, s: Sys, p: nat, c: Channel)
    requires Inv(limits, s) && s.out == map[] && p < |s.state.bytes|
    ensures s.state.bytes[p] == 0 && s.state.counts[Slot(p, c)] == 0
  {
    assert PeerGood(limits, s.state, s.out, p);
    assert SlotGood(limits, s.state, s.out, p, c);
  }

  // ----- as it runs

  class SubmissionState {
    const limits: Limits
    const members: nat
    var closed: bool
    var nextTicket: nat
    var counts: seq<int>
    var bytes: seq<int>
    var permit: Option<nat>
    var submittedParcels: nat
    var submittedBytes: nat

    ghost predicate Valid()
      reads this
    {
      |bytes| == members && |counts| == 3 * members
    }

    ghost function Now(): State
      reads this
    {
      State(closed, nextTicket, counts, bytes, permit, submittedParcels, submittedBytes)
    }

    constructor (members: nat, limits: Limits)
      ensures Valid() && this.members == members && this.limits == limits
      ensures Now() == State(false, 1, seq(3 * members, _ => 0), seq(members, _ => 0), None, 0, 0)
    {
      this.members, this.limits := members, limits;
      closed, nextTicket, permit := false, 1, None;
      counts, bytes := seq(3 * members, _ => 0), seq(members, _ => 0);
      submittedParcels, submittedBytes := 0, 0;
    }

    /** `reserve`: the counters go up first and come down again when a limit is passed. */
    method TryReserve(g: Grant) returns (r: Result<nat, TransportError>)
      requires Valid() && g.peer < members
      modifies this
      ensures Valid() && (Now(), r) == Reserve(limits, old(Now()), g)
    {
      if closed { return Err(Closed); }
      var slot := Slot(g.peer, g.channel);
      counts := counts[slot := counts[slot] + 1];
      if counts[slot] > limits.maxQueued {
        counts := counts[slot := counts[slot] - 1];
        assert counts == old(counts);
        return Err(QueueFull);
      }
      bytes := bytes[g.peer := bytes[g.peer] + g.bytes];
      var limit := if g.channel.Control? then limits.maxInflight else limits.maxInflight - limits.reserve;
      if bytes[g.peer] > limit {
        bytes := bytes[g.peer := bytes[g.peer] - g.bytes];
        counts := counts[slot := counts[slot] - 1];
        assert counts == old(counts) && bytes == old(bytes);
        return Err(ByteLimit);
      }
      if nextTicket == 0 || nextTicket >= U64 - 1 {
        Return(g);
        assert counts == old(counts) && bytes == old(bytes);
        return Err(TicketOverflow);
      }
      permit := Some(nextTicket);
      r := Ok(nextTicket);
      nextTicket := nextTicket + 1;
    }

    /** The permit is used: what it reserved stays reserved until the submission is released. */
    method Commit(g: Grant)
      modifies this
      ensures Now() == old(Now()).(permit := None, submittedParcels := old(submittedParcels) + 1, submittedBytes := old(submittedBytes) + g.bytes)
    {
      submittedParcels := submittedParcels + 1;
      submittedBytes := submittedBytes + g.bytes;
      permit := None;
    }

    /** The permit goes away unused and gives back what it reserved. */
    method DropPermit(g: Grant)
      requires Valid() && g.peer < members
      modifies this
      ensures Valid() && Now() == Release(old(Now()), g).(permit := None)
    {
      Return(g);
      permit := None;
    }

    method Close()
      modifies this
      ensures Now() == old(Now()).(closed := true)
    {
      closed := true;
    }

    method Return(g: Grant)
      requires Valid() && g.peer < members
      modifies this
      ensures Valid() && Now() == Release(old(Now()), g)
    {
      var slot := Slot(g.peer, g.channel);
      bytes := bytes[g.peer := bytes[g.peer] - g.bytes];
      counts := counts[slot := counts[slot] - 1];
    }
  }
}
