/** The shared state of the in-memory network as an object updated in place by its locked operations. */
module MemoryObject {
  import opened Wrappers
  import opened Protocol
  import opened Memory

  /** `release_delayed`: items that are due move to their queues, the others are kept in order. */
  method ReleaseDue(tick: nat, before: seq<Node>, delayed: seq<Delayed>) returns (nodes: seq<Node>, retained: seq<Delayed>)
    requires AllShaped(before) && Addressed(delayed, |before|)
    ensures (nodes, retained) == ReleaseFrom(tick, before, [], delayed) && AllShaped(nodes) && |nodes| == |before|
  {
    nodes, retained := before, [];
    var rest := delayed;
    while rest != []
      invariant AllShaped(nodes) && |nodes| == |before| && Addressed(rest, |nodes|)
      invariant ReleaseFrom(tick, nodes, retained, rest) == ReleaseFrom(tick, before, [], delayed)
      decreases |rest|
    {
      var item := rest[0];
      rest := rest[1..];
      if item.releaseAt <= tick {
        var i := item.copy.dest;
        nodes := nodes[i := Arrive(nodes[i], item.copy)];
      } else {
        retained := retained + [item];
      }
    }
  }

  /** `cancel_locality`. */
  method CancelDelayed(l: nat, before: seq<Node>, ghost past: seq<History>, delayed: seq<Delayed>)
    returns (nodes: seq<Node>, retained: seq<Delayed>, ghost after: seq<History>)
    requires AllShaped(before) && |before| == |past| && Addressed(delayed, |before|)
    ensures (nodes, after, retained) == CancelFrom(l, before, past, [], delayed)
    ensures AllShaped(nodes) && |nodes| == |after| == |before|
  {
    nodes, retained, after := before, [], past;
    var rest := delayed;
    while rest != []
      invariant AllShaped(nodes) && |nodes| == |before| == |after| && Addressed(rest, |nodes|)
      invariant CancelFrom(l, nodes, after, retained, rest) == CancelFrom(l, before, past, [], delayed)
      decreases |rest|
    {
      var item := rest[0];
      var copy := item.copy;
      rest := rest[1..];
      if copy.source == l || copy.dest == l {
        if copy.dest != l { nodes := nodes[copy.dest := Withdraw(nodes[copy.dest], copy)]; }
        after := after[copy.dest := after[copy.dest].(dropped := after[copy.dest].dropped + multiset{copy})];
      } else {
        retained := retained + [item];
      }
    }
  }

  /** The loop of `progress` at one node. */
  method TakeEvents(before: Node, room: nat) returns (node: Node, copies: seq<Copy>)
    requires Shaped(before)
    ensures (node, copies) == PopMany(before, room) && Shaped(node)
  {
    node, copies := before, [];
    var left := room;
    ghost var all := PopMany(before, room);
    assert [] + all.1 == all.1;
    while left > 0
      invariant Shaped(node) && all.0 == PopMany(node, left).0 && all.1 == copies + PopMany(node, left).1
    {
      var event := Pop(node);
      if event.None? { break; }
      ghost var more := PopMany(event.value.0, left - 1).1;
      node := event.value.0;
      left := left - 1;
      if event.value.1.Some? {
        assert copies + ([event.value.1.value] + more) == copies + [event.value.1.value] + more;
        copies := copies + [event.value.1.value];
      }
    }
    assert PopMany(node, left).1 == [] && copies + [] == copies;
  }

  class Network {
    const limits: Limits
    var tick: nat
    var nextTicket: nat
    var faults: seq<Fault>
    var delayed: seq<Delayed>
    var nodes: seq<Node>
    ghost var past: seq<History>

    ghost predicate Valid()
      reads this
    {
      |nodes| == |past| && AllShaped(nodes) && Addressed(delayed, |nodes|)
    }

    ghost function Now(): State
      reads this
    {
      State(tick, nextTicket, faults, delayed, nodes, past)
    }

    constructor (n: nat, limits: Limits, faults: seq<Fault>)
      ensures Valid() && this.limits == limits
      ensures Now() == State(0, 1, faults, [], seq(n, _ => NewNode), seq(n, _ => History(multiset{}, multiset{}, multiset{})))
    {
      this.limits, this.faults := limits, faults;
      tick, nextTicket, delayed := 0, 1, [];
      nodes, past := seq(n, _ => NewNode), seq(n, _ => History(multiset{}, multiset{}, multiset{}));
    }

    method TrySend(source: nat, dest: nat, c: nat, bytes: nat) returns (ok: bool)
      requires Valid() && source < |nodes| && c < 3
      modifies this
      ensures (Now(), ok) == Send(limits, old(Now()), source, dest, c, bytes)
    {
      if !nodes[source].active || dest >= |nodes| || nodes[source].system >= limits.maxQueued { return false; }
      var copy := Copy(nextTicket, source, dest, c, bytes);
      nextTicket := nextTicket + 1;
      var fault := Pass;
      if faults != [] { fault, faults := faults[0], faults[1..]; }
      if fault.Saturate? { return false; }
      if Copies(fault) > 0 && !Room(limits, nodes[dest], c, bytes, Copies(fault)) { return false; }
      ghost var put := Put(Now(), fault, copy);
      var node := nodes[dest];
      match fault {
        case Pass => node := Enqueue(node, copy, false);
        case Reorder => node := Enqueue(node, copy, true);
        case Duplicate =>
          node := Enqueue(node, copy, false);
          node := Enqueue(node, copy, false);
        case Delay(ticks) =>
          node := Hold(node, copy);
          delayed := delayed + [Delayed(tick + (if ticks > 1 then ticks else 1), copy)];
        case _ =>
      }
      nodes := nodes[dest := node];
      past := put.past;
      assert Now() == put;
      var events := if fault.Disconnect? then 2 else 1;
      nodes := nodes[source := nodes[source].(system := nodes[source].system + events)];
      return true;
    }

    method Advance()
      requires Valid()
      modifies this
      ensures Now() == Tick(old(Now())) && |nodes| == |old(nodes)| == |past| && AllShaped(nodes)
    {
      tick := tick + 1;
      nodes, delayed := ReleaseDue(tick, nodes, delayed);
    }

    /** `progress`: hands out at most `room` events of node `i`. */
    method Deliver(i: nat, room: nat) returns (copies: seq<Copy>)
      requires Valid() && i < |nodes|
      modifies this
      ensures AllShaped(Tick(old(Now())).nodes) && |Tick(old(Now())).nodes| == |old(nodes)|
      ensures (Now(), copies) == Progress(old(Now()), i, room)
    {
      Advance();
      var node;
      node, copies := TakeEvents(nodes[i], room);
      nodes := nodes[i := node];
      past := past[i := Delivered(past[i], copies)];
    }

    method FinishShutdown(l: nat)
      requires Valid() && l < |nodes|
      modifies this
      ensures var (left, kept, _) := CancelFrom(l, old(nodes), old(past), [], old(delayed));
              AllShaped(left) && |left| == |kept| == |old(nodes)|
      ensures Now() == ShutDown(old(Now()), l)
    {
      nodes, delayed, past := CancelDelayed(l, nodes, past, delayed);
      past := past[l := past[l].(dropped := past[l].dropped + All(nodes[l].incoming))];
      nodes := nodes[l := Cleared(nodes[l])];
    }
  }
}
