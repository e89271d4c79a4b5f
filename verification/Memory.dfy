/** The in-memory network with injected faults, crates/hataori-runtime-foundation/src/memory.rs. */
module Memory {
  import opened Wrappers
  import opened Protocol

  datatype Fault = Pass | Delay(ticks: nat) | Duplicate | Loss | Reorder | Saturate | Disconnect

  /** One accepted copy of a parcel. Channels are 0 (control), 1 (action) and 2 (bulk). */
  datatype Copy = Copy(ticket: nat, source: nat, dest: nat, channel: nat, bytes: nat)

  datatype Delayed = Delayed(releaseAt: nat, copy: Copy)

  /** `system` counts the waiting system events. Counters are `int` to show that no subtraction goes below zero. */
  datatype Node = Node(active: bool, system: nat, incoming: seq<seq<Copy>>, delayedCounts: seq<int>, queuedBytes: int)

  /** What has happened to the copies sent to one node. */
  datatype History = History(accepted: multiset<Copy>, delivered: multiset<Copy>, dropped: multiset<Copy>)

  datatype State = State(tick: nat, nextTicket: nat, faults: seq<Fault>, delayed: seq<Delayed>, nodes: seq<Node>, past: seq<History>)

  predicate Shaped(node: Node) { |node.incoming| == 3 && |node.delayedCounts| == 3 }

  predicate AllShaped(nodes: seq<Node>) { forall i :: 0 <= i < |nodes| ==> Shaped(nodes[i]) }

  const NewNode: Node := Node(true, 0, [[], [], []], [0, 0, 0], 0)

  // ----- loads

  function Load(queue: seq<Copy>): nat {
    if queue == [] then 0 else queue[0].bytes + Load(queue[1..])
  }

  /** The delayed copies for node `i` on channel `c`, in order. */
  function For(delayed: seq<Delayed>, i: nat, c: nat): seq<Copy> {
    if delayed == [] then []
    else
      var rest := For(delayed[1..], i, c);
      if delayed[0].copy.dest == i && delayed[0].copy.channel == c then [delayed[0].copy] + rest else rest
  }

  lemma {:induction false} LoadAppend(a: seq<Copy>, b: seq<Copy>)
    ensures Load(a + b) == Load(a) + Load(b)
  {
    if a == [] {
      assert a + b == b;
    } else {
      assert (a + b)[1..] == a[1..] + b;
      LoadAppend(a[1..], b);
    }
  }

  lemma {:induction false} ForAppend(a: seq<Delayed>, b: seq<Delayed>, i: nat, c: nat)
    ensures For(a + b, i, c) == For(a, i, c) + For(b, i, c)
  {
    if a == [] {
      assert a + b == b;
    } else {
      assert (a + b)[1..] == a[1..] + b;
      ForAppend(a[1..], b, i, c);
    }
  }

  // ----- sending

  function Limit(L: Limits, c: nat): int { if c == 0 then L.maxInflight else L.maxInflight - L.reserve }

  predicate Room(L: Limits, node: Node, c: nat, bytes: nat, copies: nat)
    requires Shaped(node) && c < 3
  {
    && node.active
    && |node.incoming[c]| + node.delayedCounts[c] + copies <= L.maxQueued
    && node.queuedBytes + bytes * copies <= Limit(L, c)
  }

  function Enqueue(node: Node, copy: Copy, front: bool): Node
    requires Shaped(node) && copy.channel < 3
  {
    var queue := node.incoming[copy.channel];
    node.(queuedBytes := node.queuedBytes + copy.bytes,
          incoming := node.incoming[copy.channel := if front then [copy] + queue else queue + [copy]])
  }

  function Hold(node: Node, copy: Copy): Node
    requires Shaped(node) && copy.channel < 3
  {
    node.(delayedCounts := node.delayedCounts[copy.channel := node.delayedCounts[copy.channel] + 1],
          queuedBytes := node.queuedBytes + copy.bytes)
  }

  function Accepted(h: History, copies: multiset<Copy>): History { h.(accepted := h.accepted + copies) }

  /** Adds system events at the sender. */
  function Notify(s: State, i: nat, events: nat): State
    requires i < |s.nodes|
  {
    s.(nodes := s.nodes[i := s.nodes[i].(system := s.nodes[i].system + events)])
  }

  function At(s: State, i: nat, node: Node, past: History): State
    requires i < |s.nodes| == |s.past|
  {
    s.(nodes := s.nodes[i := node], past := s.past[i := past])
  }

  /** How many copies a fault makes of a parcel. */
  function Copies(fault: Fault): nat {
    match fault case Pass => 1 case Reorder => 1 case Delay(_) => 1 case Duplicate => 2 case _ => 0
  }

  function Put(s: State, fault: Fault, copy: Copy): State
    requires copy.dest < |s.nodes| == |s.past| && copy.channel < 3 && AllShaped(s.nodes)
  {
    var node, past := s.nodes[copy.dest], s.past[copy.dest];
    match fault
    case Pass => At(s, copy.dest, Enqueue(node, copy, false), Accepted(past, multiset{copy}))
    case Reorder => At(s, copy.dest, Enqueue(node, copy, true), Accepted(past, multiset{copy}))
    case Duplicate =>
      At(s, copy.dest, Enqueue(Enqueue(node, copy, false), copy, false), Accepted(Accepted(past, multiset{copy}), multiset{copy}))
    case Delay(ticks) =>
      At(s, copy.dest, Hold(node, copy), Accepted(past, multiset{copy}))
      .(delayed := s.delayed + [Delayed(s.tick + (if ticks > 1 then ticks else 1), copy)])
    case _ => s
  }

  function NextFault(s: State): Fault { if s.faults == [] then Pass else s.faults[0] }

  /** A ticket and a fault are drawn before the parcel is placed. */
  function Drawn(s: State): State {
    s.(nextTicket := s.nextTicket + 1, faults := if s.faults == [] then [] else s.faults[1..])
  }

  /** `try_send`; a refused parcel may still use up a ticket and a fault. */
  function Send(L: Limits, s: State, source: nat, dest: nat, c: nat, bytes: nat): (State, bool)
    requires |s.nodes| == |s.past| && AllShaped(s.nodes) && source < |s.nodes| && c < 3
  {
    if !s.nodes[source].active || dest >= |s.nodes| || s.nodes[source].system >= L.maxQueued then (s, false)
    else
      var fault, t := NextFault(s), Drawn(s);
      if fault.Saturate? then (t, false)
      else if Copies(fault) > 0 && !Room(L, t.nodes[dest], c, bytes, Copies(fault)) then (t, false)
      else
        var put := Put(t, fault, Copy(s.nextTicket, source, dest, c, bytes));
        (Notify(put, source, if fault.Disconnect? then 2 else 1), true)
  }

  // ----- delayed copies

  /** A delayed copy comes due. */
  function Arrive(node: Node, copy: Copy): Node
    requires Shaped(node) && copy.channel < 3
  {
    node.(delayedCounts := node.delayedCounts[copy.channel := node.delayedCounts[copy.channel] - 1],
          incoming := node.incoming[copy.channel := node.incoming[copy.channel] + [copy]])
  }

  /** A delayed copy is cancelled. */
  function Withdraw(node: Node, copy: Copy): Node
    requires Shaped(node) && copy.channel < 3
  {
    node.(delayedCounts := node.delayedCounts[copy.channel := node.delayedCounts[copy.channel] - 1],
          queuedBytes := node.queuedBytes - copy.bytes)
  }

  predicate Addressed(delayed: seq<Delayed>, n: nat) {
    forall k :: 0 <= k < |delayed| ==> delayed[k].copy.dest < n && delayed[k].copy.channel < 3
  }

  /** The loop of `release_delayed`: `kept` are the items put back so far. */
  function ReleaseFrom(tick: nat, nodes: seq<Node>, kept: seq<Delayed>, rest: seq<Delayed>): (seq<Node>, seq<Delayed>)
    requires AllShaped(nodes) && Addressed(rest, |nodes|)
    decreases |rest|
  {
    if rest == [] then (nodes, kept)
    else
      var item := rest[0];
      var i := item.copy.dest;
      if item.releaseAt <= tick then ReleaseFrom(tick, nodes[i := Arrive(nodes[i], item.copy)], kept, rest[1..])
      else ReleaseFrom(tick, nodes, kept + [item], rest[1..])
  }

  function Tick(s: State): State
    requires AllShaped(s.nodes) && Addressed(s.delayed, |s.nodes|)
  {
    var (nodes, kept) := ReleaseFrom(s.tick + 1, s.nodes, [], s.delayed);
    s.(tick := s.tick + 1, nodes := nodes, delayed := kept)
  }

  // ----- progress

  /** One turn of the loop of `progress`: system events first, then the channels in order. */
  function Pop(node: Node): Option<(Node, Option<Copy>)>
    requires Shaped(node)
  {
    if node.system > 0 then Some((node.(system := node.system - 1), None))
    else if node.incoming[0] != [] then Some(PopFrom(node, 0))
    else if node.incoming[1] != [] then Some(PopFrom(node, 1))
    else if node.incoming[2] != [] then Some(PopFrom(node, 2))
    else None
  }

  function PopFrom(node: Node, c: nat): (Node, Option<Copy>)
    requires Shaped(node) && c < 3 && node.incoming[c] != []
  {
    var copy := node.incoming[c][0];
    (node.(incoming := node.incoming[c := node.incoming[c][1..]], queuedBytes := node.queuedBytes - copy.bytes), Some(copy))
  }

  /** `room` turns of the loop, with the copies handed out. */
  function PopMany(node: Node, room: nat): (Node, seq<Copy>)
    requires Shaped(node)
    decreases room
  {
    if room == 0 || Pop(node).None? then (node, [])
    else
      var (next, event) := Pop(node).value;
      var (last, copies) := PopMany(next, room - 1);
      (last, if event.Some? then [event.value] + copies else copies)
  }

  // ----- shutdown

  /** The loop of `cancel_locality`: copies from or to `l` go, and the other nodes give back what they hold for them. */
  function CancelFrom(l: nat, nodes: seq<Node>, past: seq<History>, kept: seq<Delayed>, rest: seq<Delayed>)
    : (seq<Node>, seq<History>, seq<Delayed>)
    requires AllShaped(nodes) && |nodes| == |past| && Addressed(rest, |nodes|)
    decreases |rest|
  {
    if rest == [] then (nodes, past, kept)
    else
      var copy := rest[0].copy;
      var i := copy.dest;
      if copy.source == l || i == l then
        CancelFrom(l, if i == l then nodes else nodes[i := Withdraw(nodes[i], copy)],
                   past[i := past[i].(dropped := past[i].dropped + multiset{copy})], kept, rest[1..])
      else CancelFrom(l, nodes, past, kept + [rest[0]], rest[1..])
  }

  /** All copies of three queues. */
  function All(queues: seq<seq<Copy>>): multiset<Copy>
    requires |queues| == 3
  {
    multiset(queues[0]) + multiset(queues[1]) + multiset(queues[2])
  }

  function Cleared(node: Node): Node {
    node.(active := false, system := 0, incoming := [[], [], []], delayedCounts := [0, 0, 0], queuedBytes := 0)
  }

  // ----- the steps of the network

  function Progress(s: State, i: nat, room: nat): (State, seq<Copy>)
    requires |s.nodes| == |s.past| && i < |s.nodes| && AllShaped(s.nodes) && Addressed(s.delayed, |s.nodes|)
    requires AllShaped(Tick(s).nodes) && |Tick(s).nodes| == |s.nodes|
  {
    var t := Tick(s);
    var (node, copies) := PopMany(t.nodes[i], room);
    (At(t, i, node, Delivered(t.past[i], copies)), copies)
  }

  function Delivered(past: History, copies: seq<Copy>): History { past.(delivered := past.delivered + multiset(copies)) }

  function Deactivate(s: State, i: nat): State
    requires i < |s.nodes|
  {
    s.(nodes := s.nodes[i := s.nodes[i].(active := false)])
  }

  /** The last part of `shutdown`: cancel what is delayed from or to `l`, then clear its queues. */
  function ShutDown(s: State, l: nat): State
    requires |s.nodes| == |s.past| && l < |s.nodes| && AllShaped(s.nodes) && Addressed(s.delayed, |s.nodes|)
    requires var (nodes, past, _) := CancelFrom(l, s.nodes, s.past, [], s.delayed);
             AllShaped(nodes) && |nodes| == |past| == |s.nodes|
  {
    var (nodes, past, kept) := CancelFrom(l, s.nodes, s.past, [], s.delayed);
    var h := past[l];
    s.(nodes := nodes[l := Cleared(nodes[l])], past := past[l := h.(dropped := h.dropped + All(nodes[l].incoming))], delayed := kept)
  }
}
