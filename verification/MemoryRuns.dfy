/** Runs of the in-memory network. */
module MemoryRuns {
  import opened Wrappers
  import opened Protocol
  import opened Memory
  import opened MemoryProofs

  // ----- sending

  /** Replacing one node, with its history unchanged. */
  lemma SetNodeOnly(L: Limits, s: State, i: nat, node: Node)
    requires Inv(L, s) && i < |s.nodes| && NodeOk(L, node, s.past[i], Waiting(s.delayed, i))
    ensures Inv(L, s.(nodes := s.nodes[i := node]))
  {
    SetNode(L, s.nodes, s.past, s.delayed, i, node, s.past[i]);
    assert s.past[i := s.past[i]] == s.past;
  }

  lemma PutOnceKeeps(L: Limits, s: State, copy: Copy, front: bool)
    requires Inv(L, s) && copy.dest < |s.nodes| && copy.channel < 3 && AllShaped(s.nodes)
    requires Room(L, s.nodes[copy.dest], copy.channel, copy.bytes, 1)
    ensures Inv(L, At(s, copy.dest, Enqueue(s.nodes[copy.dest], copy, front), Accepted(s.past[copy.dest], multiset{copy})))
  {
    var i := copy.dest;
    var node, past, w := s.nodes[i], s.past[i], Waiting(s.delayed, i);
    assert NodeOk(L, node, past, w);
    EnqueueOk(L, node, past, w, copy, front);
    SetNode(L, s.nodes, s.past, s.delayed, i, Enqueue(node, copy, front), Accepted(past, multiset{copy}));
  }

  lemma RoomForOneMore(L: Limits, node: Node, copy: Copy)
    requires Shaped(node) && copy.channel < 3 && Room(L, node, copy.channel, copy.bytes, 2)
    ensures Room(L, node, copy.channel, copy.bytes, 1) && Room(L, Enqueue(node, copy, false), copy.channel, copy.bytes, 1)
  {
  }

  lemma TwiceOk(L: Limits, node: Node, past: History, w: seq<seq<Copy>>, copy: Copy)
    requires NodeOk(L, node, past, w) && copy.channel < 3 && Room(L, node, copy.channel, copy.bytes, 2)
    ensures NodeOk(L, Enqueue(Enqueue(node, copy, false), copy, false), Accepted(Accepted(past, multiset{copy}), multiset{copy}), w)
  {
    var once := Enqueue(node, copy, false);
    EnqueueOk(L, node, past, w, copy, false);
    RoomForOneMore(L, node, copy);
    EnqueueOk(L, once, Accepted(past, multiset{copy}), w, copy, false);
  }

  lemma PutTwiceKeeps(L: Limits, s: State, copy: Copy)
    requires Inv(L, s) && copy.dest < |s.nodes| && copy.channel < 3 && AllShaped(s.nodes)
    requires Room(L, s.nodes[copy.dest], copy.channel, copy.bytes, 2)
    ensures Inv(L, Put(s, Duplicate, copy))
  {
    var i := copy.dest;
    var node, past, w := s.nodes[i], s.past[i], Waiting(s.delayed, i);
    assert NodeOk(L, node, past, w);
    TwiceOk(L, node, past, w, copy);
    SetNode(L, s.nodes, s.past, s.delayed, i, Enqueue(Enqueue(node, copy, false), copy, false), Accepted(Accepted(past, multiset{copy}), multiset{copy}));
  }

  lemma PutKeeps(L: Limits, s: State, fault: Fault, copy: Copy)
    requires Inv(L, s) && copy.dest < |s.nodes| && copy.channel < 3 && AllShaped(s.nodes)
    requires Copies(fault) > 0 ==> Room(L, s.nodes[copy.dest], copy.channel, copy.bytes, Copies(fault))
    ensures Inv(L, Put(s, fault, copy))
  {
    match fault
    case Pass => PutOnceKeeps(L, s, copy, false);
    case Reorder => PutOnceKeeps(L, s, copy, true);
    case Duplicate => PutTwiceKeeps(L, s, copy);
    case Delay(ticks) => HoldKeeps(L, s, Delayed(s.tick + (if ticks > 1 then ticks else 1), copy));
    case _ =>
  }

  /** A fault decides how many copies are accepted, and nothing else about the histories. */
  lemma PutAccepts(s: State, fault: Fault, copy: Copy, i: nat)
    requires i < |s.nodes| && copy.dest < |s.nodes| == |s.past| && copy.channel < 3 && AllShaped(s.nodes)
    ensures |Put(s, fault, copy).past| == |s.past|
    ensures Put(s, fault, copy).past[i].accepted == s.past[i].accepted + (if i == copy.dest then Times(copy, Copies(fault)) else multiset{})
  {
  }

  function Times(copy: Copy, n: nat): multiset<Copy> {
    if n == 0 then multiset{} else if n == 1 then multiset{copy} else multiset{copy, copy}
  }

  lemma HoldKeeps(L: Limits, s: State, item: Delayed)
    requires Inv(L, s) && item.copy.dest < |s.nodes| && item.copy.channel < 3 && AllShaped(s.nodes)
    requires Room(L, s.nodes[item.copy.dest], item.copy.channel, item.copy.bytes, 1)
    ensures var i := item.copy.dest;
            NetOk(L, s.nodes[i := Hold(s.nodes[i], item.copy)], s.past[i := Accepted(s.past[i], multiset{item.copy})], s.delayed + [item])
  {
    var i := item.copy.dest;
    var nodes, past := s.nodes[i := Hold(s.nodes[i], item.copy)], s.past[i := Accepted(s.past[i], multiset{item.copy})];
    forall k: nat | k < |nodes| ensures NodeOk(L, nodes[k], past[k], Waiting(s.delayed + [item], k)) {
      assert NodeOk(L, s.nodes[k], s.past[k], Waiting(s.delayed, k));
      WaitingOne(s.delayed, item, k);
      if k == i { HoldOk(L, s.nodes[i], s.past[i], Waiting(s.delayed, i), item.copy); }
    }
  }

  lemma NotifyKeeps(L: Limits, s: State, i: nat, events: nat)
    requires Inv(L, s) && i < |s.nodes|
    ensures Inv(L, Notify(s, i, events))
  {
    var node, w := s.nodes[i], Waiting(s.delayed, i);
    assert NodeOk(L, node, s.past[i], w);
    SystemOk(L, node, s.past[i], w, node.system + events, node.active);
    SetNodeOnly(L, s, i, node.(system := node.system + events, active := node.active));
  }

  lemma SendKeeps(L: Limits, s: State, source: nat, dest: nat, c: nat, bytes: nat)
    requires Inv(L, s) && source < |s.nodes| && c < 3
    ensures AllShaped(s.nodes) && Inv(L, Send(L, s, source, dest, c, bytes).0)
  {
    InvShapes(L, s.nodes, s.past, s.delayed);
    if Send(L, s, source, dest, c, bytes).1 {
      var fault, t, copy := NextFault(s), Drawn(s), Copy(s.nextTicket, source, dest, c, bytes);
      PutKeeps(L, t, fault, copy);
      NotifyKeeps(L, Put(t, fault, copy), source, if fault.Disconnect? then 2 else 1);
    }
  }

  // ----- shutdown

  /** All nodes are good except `l`, of which only the copies are accounted for. */
  ghost predicate HalfOk(L: Limits, nodes: seq<Node>, past: seq<History>, delayed: seq<Delayed>, l: nat) {
    && |nodes| == |past| && Addressed(delayed, |nodes|) && l < |nodes|
    && (forall i: nat {:trigger Waiting(delayed, i)} :: i < |nodes| && i != l ==> NodeOk(L, nodes[i], past[i], Waiting(delayed, i)))
    && Shaped(nodes[l]) && Conserved(nodes[l], past[l], Waiting(delayed, l))
  }

  lemma HalfShapes(L: Limits, nodes: seq<Node>, past: seq<History>, delayed: seq<Delayed>, l: nat)
    requires HalfOk(L, nodes, past, delayed, l)
    ensures AllShaped(nodes)
  {
    forall i | 0 <= i < |nodes| ensures Shaped(nodes[i]) {
      if i != l { assert NodeOk(L, nodes[i], past[i], Waiting(delayed, i)); }
    }
  }

  lemma WithdrawAt(L: Limits, node: Node, past: History, kept: seq<Delayed>, item: Delayed, more: seq<Delayed>, i: nat)
    requires NodeOk(L, node, past, Waiting(kept + ([item] + more), i)) && item.copy.channel < 3
    ensures if i == item.copy.dest
            then NodeOk(L, Withdraw(node, item.copy), past.(dropped := past.dropped + multiset{item.copy}), Waiting(kept + more, i))
            else NodeOk(L, node, past, Waiting(kept + more, i))
  {
    WaitingWithout(kept, item, more, i);
    if i == item.copy.dest {
      WithdrawOk(L, node, past, Waiting(kept + ([item] + more), i), item.copy, Waiting(kept + more, i)[item.copy.channel]);
    }
  }

  lemma DropAt(node: Node, past: History, kept: seq<Delayed>, item: Delayed, more: seq<Delayed>, l: nat)
    requires Shaped(node) && Conserved(node, past, Waiting(kept + ([item] + more), l)) && item.copy.channel < 3
    ensures Conserved(node, if l == item.copy.dest then past.(dropped := past.dropped + multiset{item.copy}) else past, Waiting(kept + more, l))
  {
    var before, after := Waiting(kept + ([item] + more), l), Waiting(kept + more, l);
    WaitingWithout(kept, item, more, l);
    if l == item.copy.dest { AllRemove(before, item.copy.channel, after[item.copy.channel], item.copy); }
  }

  lemma WithdrawKeeps(L: Limits, nodes: seq<Node>, past: seq<History>, kept: seq<Delayed>, item: Delayed, more: seq<Delayed>, l: nat)
    requires HalfOk(L, nodes, past, kept + ([item] + more), l) && AllShaped(nodes)
    requires item.copy.dest < |nodes| && item.copy.channel < 3
    ensures var i := item.copy.dest;
            HalfOk(L, if i == l then nodes else nodes[i := Withdraw(nodes[i], item.copy)],
                   past[i := past[i].(dropped := past[i].dropped + multiset{item.copy})], kept + more, l)
  {
    var copy := item.copy;
    var i, before := copy.dest, kept + ([item] + more);
    var after := if i == l then nodes else nodes[i := Withdraw(nodes[i], copy)];
    var h := past[i := past[i].(dropped := past[i].dropped + multiset{copy})];
    forall k: nat | k < |nodes| && k != l ensures NodeOk(L, after[k], h[k], Waiting(kept + more, k)) {
      assert NodeOk(L, nodes[k], past[k], Waiting(before, k));
      WithdrawAt(L, nodes[k], past[k], kept, item, more, k);
    }
    DropAt(nodes[l], past[l], kept, item, more, l);
    assert forall k :: 0 <= k < |kept + more| ==> (kept + more)[k] in before;
  }

  predicate Touches(item: Delayed, l: nat) { item.copy.source == l || item.copy.dest == l }

  /** No subtraction of `cancel_locality` goes below zero, and nothing from or to `l` stays delayed. */
  lemma {:induction false} CancelKeeps(L: Limits, l: nat, nodes: seq<Node>, past: seq<History>, kept: seq<Delayed>, rest: seq<Delayed>)
    requires HalfOk(L, nodes, past, kept + rest, l) && AllShaped(nodes) && Addressed(rest, |nodes|)
    requires forall k :: 0 <= k < |kept| ==> !Touches(kept[k], l)
    ensures var (after, h, left) := CancelFrom(l, nodes, past, kept, rest);
            && HalfOk(L, after, h, left, l) && |after| == |nodes|
            && forall k :: 0 <= k < |left| ==> !Touches(left[k], l)
    decreases |rest|
  {
    if rest == [] {
      assert kept + rest == kept;
    } else {
      var item, more := rest[0], rest[1..];
      assert rest == [item] + more;
      var i := item.copy.dest;
      if Touches(item, l) {
        WithdrawKeeps(L, nodes, past, kept, item, more, l);
        var after := if i == l then nodes else nodes[i := Withdraw(nodes[i], item.copy)];
        var h := past[i := past[i].(dropped := past[i].dropped + multiset{item.copy})];
        HalfShapes(L, after, h, kept + more, l);
        CancelKeeps(L, l, after, h, kept, more);
      } else {
        assert kept + rest == kept + [item] + more;
        CancelKeeps(L, l, nodes, past, kept + [item], more);
      }
    }
  }

  lemma {:induction false} NothingFor(delayed: seq<Delayed>, l: nat, c: nat)
    requires forall k :: 0 <= k < |delayed| ==> !Touches(delayed[k], l)
    ensures For(delayed, l, c) == []
  {
    if delayed != [] { NothingFor(delayed[1..], l, c); }
  }

  lemma CleanStart(L: Limits, l: nat, s: State)
    requires Inv(L, s) && l < |s.nodes|
    ensures AllShaped(s.nodes) && HalfOk(L, s.nodes, s.past, [] + s.delayed, l)
  {
    InvShapes(L, s.nodes, s.past, s.delayed);
    assert [] + s.delayed == s.delayed;
    assert NodeOk(L, s.nodes[l], s.past[l], Waiting(s.delayed, l));
  }

  lemma ShutdownReady(L: Limits, s: State, l: nat)
    requires Inv(L, s) && l < |s.nodes|
    ensures AllShaped(s.nodes)
    ensures var (nodes, past, left) := CancelFrom(l, s.nodes, s.past, [], s.delayed);
            && HalfOk(L, nodes, past, left, l) && AllShaped(nodes) && |nodes| == |past| == |s.nodes|
            && Waiting(left, l) == [[], [], []]
  {
    CleanStart(L, l, s);
    CancelKeeps(L, l, s.nodes, s.past, [], s.delayed);
    var (nodes, past, left) := CancelFrom(l, s.nodes, s.past, [], s.delayed);
    HalfShapes(L, nodes, past, left, l);
    NothingFor(left, l, 0);
    NothingFor(left, l, 1);
    NothingFor(left, l, 2);
  }

  /** After a shutdown the node holds nothing, and everything it had accepted was delivered or dropped. */
  lemma ShutdownKeeps(L: Limits, s: State, l: nat)
    requires Inv(L, s) && l < |s.nodes|
    ensures AllShaped(s.nodes)
    ensures var (nodes, past, left) := CancelFrom(l, s.nodes, s.past, [], s.delayed);
            AllShaped(nodes) && |nodes| == |past| == |s.nodes|
    ensures Inv(L, ShutDown(s, l))
    ensures var h := ShutDown(s, l).past[l]; h.accepted == h.delivered + h.dropped
  {
    ShutdownReady(L, s, l);
    var (nodes, past, left) := CancelFrom(l, s.nodes, s.past, [], s.delayed);
    var next := ShutDown(s, l);
    ClearedOk(L, nodes[l], past[l]);
    forall i: nat | i < |nodes| ensures NodeOk(L, next.nodes[i], next.past[i], Waiting(left, i)) {
      assert i != l ==> NodeOk(L, nodes[i], past[i], Waiting(left, i));
    }
  }

  lemma ClearedOk(L: Limits, node: Node, past: History)
    requires L.Valid() && Shaped(node) && Conserved(node, past, [[], [], []])
    ensures var h := past.(dropped := past.dropped + All(node.incoming));
            NodeOk(L, Cleared(node), h, [[], [], []]) && h.accepted == h.delivered + h.dropped
  {
    var w: seq<seq<Copy>> := [[], [], []];
    assert All(w) == multiset{};
  }

  // ----- whole runs

  datatype Step =
    | DoSend(source: nat, dest: nat, channel: nat, bytes: nat)
    | DoProgress(node: nat, room: nat)
    | DoFlush
    | DoDeactivate(node: nat)
    | DoShutdown(node: nat)

  predicate Enabled(s: State, step: Step) {
    match step
    case DoSend(source, _, c, _) => source < |s.nodes| && c < 3
    case DoProgress(i, _) => i < |s.nodes|
    case DoFlush => true
    case DoDeactivate(i) => i < |s.nodes|
    case DoShutdown(i) => i < |s.nodes|
  }

  ghost function Next(L: Limits, s: State, step: Step): State
    requires Inv(L, s) && Enabled(s, step)
  {
    InvShapes(L, s.nodes, s.past, s.delayed);
    match step
    case DoSend(source, dest, c, bytes) => Send(L, s, source, dest, c, bytes).0
    case DoProgress(i, room) =>
      ProgressKeeps(L, s, i, room);
      Progress(s, i, room).0
    case DoFlush => Tick(s)
    case DoDeactivate(i) => Deactivate(s, i)
    case DoShutdown(i) =>
      ShutdownKeeps(L, s, i);
      ShutDown(s, i)
  }

  lemma StepKeeps(L: Limits, s: State, step: Step)
    requires Inv(L, s) && Enabled(s, step)
    ensures Inv(L, Next(L, s, step))
  {
    match step
    case DoSend(source, dest, c, bytes) => SendKeeps(L, s, source, dest, c, bytes);
    case DoProgress(i, room) => ProgressKeeps(L, s, i, room);
    case DoFlush => TickKeeps(L, s);
    case DoDeactivate(i) =>
      assert NodeOk(L, s.nodes[i], s.past[i], Waiting(s.delayed, i));
      SystemOk(L, s.nodes[i], s.past[i], Waiting(s.delayed, i), s.nodes[i].system, false);
      SetNodeOnly(L, s, i, s.nodes[i].(system := s.nodes[i].system, active := false));
    case DoShutdown(i) => ShutdownKeeps(L, s, i);
  }

  ghost predicate Legal(L: Limits, s: State, steps: seq<Step>)
    requires Inv(L, s)
    decreases |steps|
  {
    steps == [] || (Enabled(s, steps[0]) && (StepKeeps(L, s, steps[0]); Legal(L, Next(L, s, steps[0]), steps[1..])))
  }

  /** The state after a run. In every reachable state each node's bytes are those of its queued and delayed
      copies, the delayed counts match the delayed list, the limits hold, and every accepted copy is in exactly
      one place. */
  ghost function After(L: Limits, s: State, steps: seq<Step>): (r: State)
    requires Inv(L, s) && Legal(L, s, steps)
    ensures Inv(L, r)
    decreases |steps|
  {
    if steps == [] then s
    else
      StepKeeps(L, s, steps[0]);
      After(L, Next(L, s, steps[0]), steps[1..])
  }

  function Start(n: nat, faults: seq<Fault>): State {
    State(0, 1, faults, [], seq(n, _ => NewNode), seq(n, _ => History(multiset{}, multiset{}, multiset{})))
  }

  lemma StartsGood(L: Limits, n: nat, faults: seq<Fault>)
    requires L.Valid()
    ensures Inv(L, Start(n, faults))
  {
  }

  /** The accounts hold in every state that a network of `n` nodes reaches, whatever faults are injected. */
  lemma EveryReachableState(L: Limits, n: nat, faults: seq<Fault>, steps: seq<Step>)
    requires L.Valid() && (StartsGood(L, n, faults); Legal(L, Start(n, faults), steps))
    ensures Inv(L, After(L, Start(n, faults), steps))
  {
    StartsGood(L, n, faults);
  }

  /** Nothing is delivered that was not accepted, or more often than it was accepted. */
  lemma DeliveredWasAccepted(L: Limits, s: State, i: nat, copy: Copy)
    requires Inv(L, s) && i < |s.nodes|
    ensures s.past[i].delivered[copy] + s.past[i].dropped[copy] <= s.past[i].accepted[copy]
  {
    assert NodeOk(L, s.nodes[i], s.past[i], Waiting(s.delayed, i));
  }

  // ----- how often a parcel is accepted

  /** Every copy accepted at node `i` carries a ticket already drawn, is at its own destination, and was accepted at
      most twice. */
  ghost predicate TicketedAt(accepted: multiset<Copy>, next: nat, i: nat) {
    forall copy :: copy in accepted ==> copy.ticket < next && copy.dest == i && accepted[copy] <= 2
  }

  ghost predicate Ticketed(s: State) {
    forall i: nat {:trigger s.past[i]} :: i < |s.past| ==> TicketedAt(s.past[i].accepted, s.nextTicket, i)
  }

  /** Adding a fresh copy at most twice. */
  lemma TicketedAdd(accepted: multiset<Copy>, next: nat, i: nat, copy: Copy, n: nat)
    requires TicketedAt(accepted, next, i) && copy.ticket == next && n <= 2 && (n > 0 ==> copy.dest == i)
    ensures TicketedAt(accepted + Times(copy, n), next + 1, i)
  {
    assert copy !in accepted;
    forall other | other in accepted + Times(copy, n)
      ensures other.ticket < next + 1 && other.dest == i && (accepted + Times(copy, n))[other] <= 2
    {
      assert other in accepted || other == copy;
    }
  }

  lemma PutTicketed(s: State, next: nat, fault: Fault, copy: Copy)
    requires AllShaped(s.nodes) && copy.dest < |s.nodes| == |s.past| && copy.channel < 3 && copy.ticket == next
    requires forall i: nat {:trigger s.past[i]} :: i < |s.past| ==> TicketedAt(s.past[i].accepted, next, i)
    ensures var put := Put(s, fault, copy);
            && |put.past| == |s.past|
            && forall i: nat {:trigger put.past[i]} :: i < |put.past| ==> TicketedAt(put.past[i].accepted, next + 1, i)
  {
    var put := Put(s, fault, copy);
    forall i: nat | i < |put.past| ensures TicketedAt(put.past[i].accepted, next + 1, i) {
      PutAccepts(s, fault, copy, i);
      var n := if i == copy.dest then Copies(fault) else 0;
      assert put.past[i].accepted == s.past[i].accepted + Times(copy, n);
      TicketedAdd(s.past[i].accepted, next, i, copy, n);
    }
  }

  lemma SendTicketed(L: Limits, s: State, source: nat, dest: nat, c: nat, bytes: nat)
    requires Inv(L, s) && Ticketed(s) && source < |s.nodes| && c < 3
    ensures AllShaped(s.nodes) && Ticketed(Send(L, s, source, dest, c, bytes).0)
  {
    InvShapes(L, s.nodes, s.past, s.delayed);
    if Send(L, s, source, dest, c, bytes).1 {
      PutTicketed(Drawn(s), s.nextTicket, NextFault(s), Copy(s.nextTicket, source, dest, c, bytes));
    }
  }

  lemma {:induction false} CancelAccepts(l: nat, nodes: seq<Node>, past: seq<History>, kept: seq<Delayed>, rest: seq<Delayed>)
    requires AllShaped(nodes) && |nodes| == |past| && Addressed(rest, |nodes|)
    ensures var h := CancelFrom(l, nodes, past, kept, rest).1;
            |h| == |past| && forall i :: 0 <= i < |past| ==> h[i].accepted == past[i].accepted
    decreases |rest|
  {
    if rest != [] {
      var copy, i := rest[0].copy, rest[0].copy.dest;
      if Touches(rest[0], l) {
        var after := if i == l then nodes else nodes[i := Withdraw(nodes[i], copy)];
        CancelAccepts(l, after, past[i := past[i].(dropped := past[i].dropped + multiset{copy})], kept, rest[1..]);
      } else {
        CancelAccepts(l, nodes, past, kept + [rest[0]], rest[1..]);
      }
    }
  }

  lemma StepTicketed(L: Limits, s: State, step: Step)
    requires Inv(L, s) && Enabled(s, step) && Ticketed(s)
    ensures Ticketed(Next(L, s, step))
  {
    InvShapes(L, s.nodes, s.past, s.delayed);
    match step
    case DoSend(source, dest, c, bytes) => SendTicketed(L, s, source, dest, c, bytes);
    case DoProgress(i, room) => ProgressKeeps(L, s, i, room);
    case DoFlush =>
    case DoDeactivate(_) =>
    case DoShutdown(l) => CancelAccepts(l, s.nodes, s.past, [], s.delayed);
  }

  lemma {:induction false} RunTicketed(L: Limits, s: State, steps: seq<Step>)
    requires Inv(L, s) && Legal(L, s, steps) && Ticketed(s)
    ensures Ticketed(After(L, s, steps))
    decreases |steps|
  {
    if steps != [] {
      StepTicketed(L, s, steps[0]);
      StepKeeps(L, s, steps[0]);
      RunTicketed(L, Next(L, s, steps[0]), steps[1..]);
    }
  }

  /** Whatever faults are injected, a parcel reaches only its own destination, and at most twice. */
  lemma DeliveredAtMostTwice(L: Limits, n: nat, faults: seq<Fault>, steps: seq<Step>, i: nat, copy: Copy)
    requires L.Valid() && (StartsGood(L, n, faults); Legal(L, Start(n, faults), steps))
    requires i < |After(L, Start(n, faults), steps).past|
    ensures After(L, Start(n, faults), steps).past[i].delivered[copy] <= 2
    ensures copy in After(L, Start(n, faults), steps).past[i].delivered ==> copy.dest == i
  {
    StartsGood(L, n, faults);
    RunTicketed(L, Start(n, faults), steps);
    DeliveredWasAccepted(L, After(L, Start(n, faults), steps), i, copy);
  }
}
