/** Accounting of the in-memory network: loads, limits, and what becomes of every accepted copy. */
module MemoryProofs {
  import opened Wrappers
  import opened Protocol
  import opened Memory

  // ----- one node

  /** The delayed copies for a node, by channel. */
  function Waiting(delayed: seq<Delayed>, i: nat): seq<seq<Copy>> {
    [For(delayed, i, 0), For(delayed, i, 1), For(delayed, i, 2)]
  }

  ghost predicate Counted(L: Limits, incoming: seq<seq<Copy>>, counts: seq<int>, w: seq<seq<Copy>>)
    requires |incoming| == |counts| == |w| == 3
  {
    forall c :: 0 <= c < 3 ==> counts[c] == |w[c]| && |incoming[c]| + |w[c]| <= L.maxQueued
  }

  /** The delayed counts match the delayed list, and each channel is within its queue limit. */
  ghost predicate CountsOk(L: Limits, node: Node, w: seq<seq<Copy>>)
    requires Shaped(node) && |w| == 3
  {
    Counted(L, node.incoming, node.delayedCounts, w)
  }

  function ChannelLoad(incoming: seq<seq<Copy>>, w: seq<seq<Copy>>, c: nat): nat
    requires |incoming| == |w| == 3 && c < 3
  {
    Load(incoming[c]) + Load(w[c])
  }

  ghost predicate Weighed(L: Limits, incoming: seq<seq<Copy>>, bytes: int, w: seq<seq<Copy>>)
    requires |incoming| == |w| == 3
  {
    && bytes == ChannelLoad(incoming, w, 0) + ChannelLoad(incoming, w, 1) + ChannelLoad(incoming, w, 2) <= L.maxInflight
    && ChannelLoad(incoming, w, 1) + ChannelLoad(incoming, w, 2) <= L.maxInflight - L.reserve
  }

  /** The queued bytes are those of the queued and delayed copies, within the limit and the control reserve. */
  ghost predicate BytesOk(L: Limits, node: Node, w: seq<seq<Copy>>)
    requires Shaped(node) && |w| == 3
  {
    Weighed(L, node.incoming, node.queuedBytes, w)
  }

  ghost predicate Balanced(incoming: seq<seq<Copy>>, past: History, w: seq<seq<Copy>>)
    requires |incoming| == |w| == 3
  {
    past.accepted == All(incoming) + All(w) + past.delivered + past.dropped
  }

  /** Every accepted copy is queued, delayed, delivered or dropped, and counted once. */
  ghost predicate Conserved(node: Node, past: History, w: seq<seq<Copy>>)
    requires Shaped(node) && |w| == 3
  {
    Balanced(node.incoming, past, w)
  }

  ghost predicate NodeOk(L: Limits, node: Node, past: History, w: seq<seq<Copy>>) {
    Shaped(node) && |w| == 3 && CountsOk(L, node, w) && BytesOk(L, node, w) && Conserved(node, past, w)
  }

  lemma AllSet(queues: seq<seq<Copy>>, c: nat, queue: seq<Copy>)
    requires |queues| == 3 && c < 3
    ensures All(queues[c := queue]) + multiset(queues[c]) == All(queues) + multiset(queue)
  {
  }

  lemma AddLoad(queue: seq<Copy>, copy: Copy, front: bool)
    ensures Load(if front then [copy] + queue else queue + [copy]) == Load(queue) + copy.bytes
    ensures multiset(if front then [copy] + queue else queue + [copy]) == multiset(queue) + multiset{copy}
  {
    LoadAppend([copy], queue);
    LoadAppend(queue, [copy]);
    assert Load([copy]) == copy.bytes + Load([copy][1..]);
  }

  /** One more copy in one of three queues. */
  lemma AllAdd(queues: seq<seq<Copy>>, c: nat, queue: seq<Copy>, copy: Copy)
    requires |queues| == 3 && c < 3 && multiset(queue) == multiset(queues[c]) + multiset{copy}
    ensures All(queues[c := queue]) == All(queues) + multiset{copy}
  {
    AllSet(queues, c, queue);
    var x, y, z := All(queues[c := queue]), All(queues), multiset(queues[c]);
    assert x == x + z - z && y + (z + multiset{copy}) - z == y + multiset{copy};
  }

  lemma EnqueueOk(L: Limits, node: Node, past: History, w: seq<seq<Copy>>, copy: Copy, front: bool)
    requires NodeOk(L, node, past, w) && copy.channel < 3 && Room(L, node, copy.channel, copy.bytes, 1)
    ensures NodeOk(L, Enqueue(node, copy, front), Accepted(past, multiset{copy}), w)
  {
    var next, queue := Enqueue(node, copy, front), node.incoming[copy.channel];
    AddLoad(queue, copy, front);
    assert copy.channel == 0 || copy.channel == 1 || copy.channel == 2;
    assert CountsOk(L, next, w);
    assert BytesOk(L, next, w);
    assert Conserved(next, Accepted(past, multiset{copy}), w) by {
      AllAdd(node.incoming, copy.channel, if front then [copy] + queue else queue + [copy], copy);
    }
  }

  lemma HoldOk(L: Limits, node: Node, past: History, w: seq<seq<Copy>>, copy: Copy)
    requires NodeOk(L, node, past, w) && copy.channel < 3 && Room(L, node, copy.channel, copy.bytes, 1)
    ensures NodeOk(L, Hold(node, copy), Accepted(past, multiset{copy}), w[copy.channel := w[copy.channel] + [copy]])
  {
    var next, queue := Hold(node, copy), w[copy.channel] + [copy];
    var u := w[copy.channel := queue];
    AddLoad(w[copy.channel], copy, false);
    assert copy.channel == 0 || copy.channel == 1 || copy.channel == 2;
    assert CountsOk(L, next, u);
    assert BytesOk(L, next, u);
    assert Conserved(next, Accepted(past, multiset{copy}), u) by { AllAdd(w, copy.channel, queue, copy); }
  }

  lemma SpliceLoad(a: seq<Copy>, copy: Copy, b: seq<Copy>)
    ensures Without(a + [copy] + b, copy, a + b)
  {
    LoadAppend(a + [copy], b);
    LoadAppend(a, b);
    AddLoad(a, copy, false);
  }

  /** One copy less in one of three queues. */
  lemma AllRemove(queues: seq<seq<Copy>>, c: nat, queue: seq<Copy>, copy: Copy)
    requires |queues| == 3 && c < 3 && multiset(queues[c]) == multiset(queue) + multiset{copy}
    ensures All(queues) == All(queues[c := queue]) + multiset{copy}
  {
    AllAdd(queues[c := queue], c, queues[c], copy);
    assert queues[c := queue][c := queues[c]] == queues;
  }

  /** `left` is the queue with one occurrence of the copy taken out. */
  ghost predicate Without(queue: seq<Copy>, copy: Copy, left: seq<Copy>) {
    |queue| == |left| + 1 && Load(queue) == Load(left) + copy.bytes && multiset(queue) == multiset(left) + multiset{copy}
  }

  lemma ArriveCounts(L: Limits, node: Node, w: seq<seq<Copy>>, copy: Copy, left: seq<Copy>)
    requires Shaped(node) && |w| == 3 && CountsOk(L, node, w) && BytesOk(L, node, w)
    requires copy.channel < 3 && Without(w[copy.channel], copy, left)
    ensures CountsOk(L, Arrive(node, copy), w[copy.channel := left]) && BytesOk(L, Arrive(node, copy), w[copy.channel := left])
  {
    AddLoad(node.incoming[copy.channel], copy, false);
    assert copy.channel == 0 || copy.channel == 1 || copy.channel == 2;
  }

  lemma ArriveOk(L: Limits, node: Node, past: History, w: seq<seq<Copy>>, copy: Copy, left: seq<Copy>)
    requires NodeOk(L, node, past, w) && copy.channel < 3 && Without(w[copy.channel], copy, left)
    ensures node.delayedCounts[copy.channel] > 0
    ensures NodeOk(L, Arrive(node, copy), past, w[copy.channel := left])
  {
    var c := copy.channel;
    ArriveCounts(L, node, w, copy, left);
    assert Conserved(Arrive(node, copy), past, w[c := left]) by {
      AddLoad(node.incoming[c], copy, false);
      AllAdd(node.incoming, c, node.incoming[c] + [copy], copy);
      AllRemove(w, c, left, copy);
    }
  }

  lemma WithdrawCounts(L: Limits, node: Node, w: seq<seq<Copy>>, copy: Copy, left: seq<Copy>)
    requires Shaped(node) && |w| == 3 && CountsOk(L, node, w) && BytesOk(L, node, w)
    requires copy.channel < 3 && Without(w[copy.channel], copy, left)
    ensures node.delayedCounts[copy.channel] > 0 && node.queuedBytes >= copy.bytes
    ensures CountsOk(L, Withdraw(node, copy), w[copy.channel := left]) && BytesOk(L, Withdraw(node, copy), w[copy.channel := left])
  {
  }

  lemma WithdrawOk(L: Limits, node: Node, past: History, w: seq<seq<Copy>>, copy: Copy, left: seq<Copy>)
    requires NodeOk(L, node, past, w) && copy.channel < 3 && Without(w[copy.channel], copy, left)
    ensures node.delayedCounts[copy.channel] > 0 && node.queuedBytes >= copy.bytes
    ensures NodeOk(L, Withdraw(node, copy), past.(dropped := past.dropped + multiset{copy}), w[copy.channel := left])
  {
    WithdrawCounts(L, node, w, copy, left);
    AllRemove(w, copy.channel, left, copy);
  }

  lemma PopCounts(L: Limits, node: Node, w: seq<seq<Copy>>, c: nat)
    requires Shaped(node) && |w| == 3 && CountsOk(L, node, w) && BytesOk(L, node, w) && c < 3 && node.incoming[c] != []
    ensures var next := PopFrom(node, c).0;
            node.queuedBytes >= node.incoming[c][0].bytes && CountsOk(L, next, w) && BytesOk(L, next, w)
  {
    assert c == 0 || c == 1 || c == 2;
  }

  lemma PopFromOk(L: Limits, node: Node, past: History, w: seq<seq<Copy>>, c: nat)
    requires NodeOk(L, node, past, w) && c < 3 && node.incoming[c] != []
    ensures var (next, copy) := PopFrom(node, c);
            && copy.Some? && node.queuedBytes >= copy.value.bytes
            && NodeOk(L, next, past.(delivered := past.delivered + multiset{copy.value}), w)
  {
    var queue := node.incoming[c];
    PopCounts(L, node, w, c);
    assert multiset(queue) == multiset(queue[1..]) + multiset{queue[0]} by {
      assert queue == [queue[0]] + queue[1..];
    }
    AllRemove(node.incoming, c, queue[1..], queue[0]);
  }

  lemma SystemOk(L: Limits, node: Node, past: History, w: seq<seq<Copy>>, system: nat, active: bool)
    requires NodeOk(L, node, past, w)
    ensures NodeOk(L, node.(system := system, active := active), past, w)
  {
  }

  lemma DeliveredMore(past: History, copy: Copy, copies: seq<Copy>)
    ensures Delivered(past, []) == past
    ensures Delivered(past.(delivered := past.delivered + multiset{copy}), copies) == Delivered(past, [copy] + copies)
  {
    assert multiset([copy] + copies) == multiset{copy} + multiset(copies);
  }

  lemma PopOk(L: Limits, node: Node, past: History, w: seq<seq<Copy>>)
    requires NodeOk(L, node, past, w) && Pop(node).Some?
    ensures var (next, event) := Pop(node).value;
            NodeOk(L, next, if event.Some? then past.(delivered := past.delivered + multiset{event.value}) else past, w)
  {
    if node.system > 0 {
      SystemOk(L, node, past, w, node.system - 1, node.active);
    } else {
      PopFromOk(L, node, past, w, if node.incoming[0] != [] then 0 else if node.incoming[1] != [] then 1 else 2);
    }
  }

  /** Handing out events delivers exactly the copies handed out. */
  lemma {:induction false} PopManyOk(L: Limits, node: Node, past: History, w: seq<seq<Copy>>, room: nat)
    requires NodeOk(L, node, past, w)
    ensures var (next, copies) := PopMany(node, room);
            NodeOk(L, next, Delivered(past, copies), w) && |copies| <= room
    decreases room
  {
    if room == 0 || Pop(node).None? {
      DeliveredMore(past, Copy(0, 0, 0, 0, 0), []);
    } else {
      var (next, event) := Pop(node).value;
      var after := if event.Some? then past.(delivered := past.delivered + multiset{event.value}) else past;
      PopOk(L, node, past, w);
      PopManyOk(L, next, after, w, room - 1);
      if event.Some? { DeliveredMore(past, event.value, PopMany(next, room - 1).1); }
    }
  }

  // ----- the network

  ghost predicate NetOk(L: Limits, nodes: seq<Node>, past: seq<History>, delayed: seq<Delayed>) {
    && |nodes| == |past| && Addressed(delayed, |nodes|)
    && forall i: nat {:trigger Waiting(delayed, i)} :: i < |nodes| ==> NodeOk(L, nodes[i], past[i], Waiting(delayed, i))
  }

  /** Queued bytes, delayed counts and the fate of every copy are exact at every node. */
  ghost predicate Inv(L: Limits, s: State) {
    L.Valid() && NetOk(L, s.nodes, s.past, s.delayed)
  }

  lemma InvShapes(L: Limits, nodes: seq<Node>, past: seq<History>, delayed: seq<Delayed>)
    requires NetOk(L, nodes, past, delayed)
    ensures AllShaped(nodes)
  {
    forall i | 0 <= i < |nodes| ensures Shaped(nodes[i]) { assert NodeOk(L, nodes[i], past[i], Waiting(delayed, i)); }
  }

  /** Replacing one node and its history by a good pair. */
  lemma SetNode(L: Limits, nodes: seq<Node>, past: seq<History>, delayed: seq<Delayed>, i: nat, node: Node, h: History)
    requires NetOk(L, nodes, past, delayed) && i < |nodes| && NodeOk(L, node, h, Waiting(delayed, i))
    ensures NetOk(L, nodes[i := node], past[i := h], delayed)
  {
    forall k: nat | k < |nodes| ensures NodeOk(L, nodes[i := node][k], past[i := h][k], Waiting(delayed, k)) {
      assert k != i ==> NodeOk(L, nodes[k], past[k], Waiting(delayed, k));
    }
  }

  lemma ForOne(item: Delayed, i: nat, c: nat)
    ensures For([item], i, c) == if item.copy.dest == i && item.copy.channel == c then [item.copy] else []
  {
    assert [item][1..] == [];
    assert For([], i, c) == [];
  }

  lemma ForHeld(delayed: seq<Delayed>, item: Delayed, i: nat, c: nat)
    ensures For(delayed + [item], i, c) ==
            if item.copy.dest == i && item.copy.channel == c then For(delayed, i, c) + [item.copy] else For(delayed, i, c)
  {
    ForAppend(delayed, [item], i, c);
    ForOne(item, i, c);
  }

  lemma WaitingOne(delayed: seq<Delayed>, item: Delayed, i: nat)
    requires item.copy.channel < 3
    ensures Waiting(delayed + [item], i) ==
            if item.copy.dest == i then Waiting(delayed, i)[item.copy.channel := Waiting(delayed, i)[item.copy.channel] + [item.copy]]
            else Waiting(delayed, i)
  {
    ForHeld(delayed, item, i, 0);
    ForHeld(delayed, item, i, 1);
    ForHeld(delayed, item, i, 2);
    var w, c := Waiting(delayed, i), item.copy.channel;
    if item.copy.dest == i {
      var u, v := w[c := w[c] + [item.copy]], Waiting(delayed + [item], i);
      assert u[0] == v[0] && u[1] == v[1] && u[2] == v[2];
    }
  }

  lemma ForWithout(kept: seq<Delayed>, item: Delayed, rest: seq<Delayed>, i: nat, c: nat)
    ensures if item.copy.dest == i && item.copy.channel == c
            then Without(For(kept + ([item] + rest), i, c), item.copy, For(kept + rest, i, c))
            else For(kept + ([item] + rest), i, c) == For(kept + rest, i, c)
  {
    ForAppend(kept, rest, i, c);
    ForAppend(kept, [item] + rest, i, c);
    ForAppend([item], rest, i, c);
    ForOne(item, i, c);
    var a, b := For(kept, i, c), For(rest, i, c);
    if item.copy.dest == i && item.copy.channel == c {
      assert a + ([item.copy] + b) == a + [item.copy] + b;
      SpliceLoad(a, item.copy, b);
    } else {
      assert [] + b == b;
    }
  }

  /** Taking one item out of the delayed list. */
  lemma WaitingWithout(kept: seq<Delayed>, item: Delayed, rest: seq<Delayed>, i: nat)
    requires item.copy.channel < 3
    ensures var before, after, c := Waiting(kept + ([item] + rest), i), Waiting(kept + rest, i), item.copy.channel;
            if item.copy.dest == i then Without(before[c], item.copy, after[c]) && after == before[c := after[c]]
            else after == before
  {
    ForWithout(kept, item, rest, i, 0);
    ForWithout(kept, item, rest, i, 1);
    ForWithout(kept, item, rest, i, 2);
    OneDiffers(Waiting(kept + ([item] + rest), i), Waiting(kept + rest, i), item.copy.channel);
  }

  lemma OneDiffers<T>(before: seq<T>, after: seq<T>, c: nat)
    requires |before| == |after| == 3 && c < 3
    ensures (forall k :: 0 <= k < 3 && k != c ==> before[k] == after[k]) ==> after == before[c := after[c]]
  {
  }

  // ----- release

  lemma {:induction false} ReleaseKeeps(L: Limits, tick: nat, nodes: seq<Node>, past: seq<History>, kept: seq<Delayed>, rest: seq<Delayed>)
    requires NetOk(L, nodes, past, kept + rest) && AllShaped(nodes) && Addressed(rest, |nodes|)
    ensures var (after, left) := ReleaseFrom(tick, nodes, kept, rest);
            NetOk(L, after, past, left) && |after| == |nodes|
    decreases |rest|
  {
    if rest == [] {
      assert kept + rest == kept;
    } else {
      var item, more := rest[0], rest[1..];
      assert rest == [item] + more;
      if item.releaseAt <= tick {
        ArriveKeeps(L, nodes, past, kept, item, more);
        var i := item.copy.dest;
        InvShapes(L, nodes[i := Arrive(nodes[i], item.copy)], past, kept + more);
        ReleaseKeeps(L, tick, nodes[i := Arrive(nodes[i], item.copy)], past, kept, more);
      } else {
        assert kept + rest == kept + [item] + more;
        ReleaseKeeps(L, tick, nodes, past, kept + [item], more);
      }
    }
  }

  lemma ArriveKeeps(L: Limits, nodes: seq<Node>, past: seq<History>, kept: seq<Delayed>, item: Delayed, more: seq<Delayed>)
    requires NetOk(L, nodes, past, kept + ([item] + more)) && AllShaped(nodes)
    requires item.copy.dest < |nodes| && item.copy.channel < 3
    ensures NetOk(L, nodes[item.copy.dest := Arrive(nodes[item.copy.dest], item.copy)], past, kept + more)
  {
    var copy := item.copy;
    var after := nodes[copy.dest := Arrive(nodes[copy.dest], copy)];
    forall i: nat | i < |nodes| ensures NodeOk(L, after[i], past[i], Waiting(kept + more, i)) {
      assert NodeOk(L, nodes[i], past[i], Waiting(kept + ([item] + more), i));
      WaitingWithout(kept, item, more, i);
      if i == copy.dest {
        ArriveOk(L, nodes[i], past[i], Waiting(kept + ([item] + more), i), copy, Waiting(kept + more, i)[copy.channel]);
      }
    }
    assert forall k :: 0 <= k < |kept + more| ==> (kept + more)[k] in kept + ([item] + more);
  }

  lemma TickKeeps(L: Limits, s: State)
    requires Inv(L, s)
    ensures AllShaped(s.nodes) && Inv(L, Tick(s)) && |Tick(s).nodes| == |s.nodes| && AllShaped(Tick(s).nodes)
  {
    InvShapes(L, s.nodes, s.past, s.delayed);
    assert [] + s.delayed == s.delayed;
    ReleaseKeeps(L, s.tick + 1, s.nodes, s.past, [], s.delayed);
    InvShapes(L, Tick(s).nodes, s.past, Tick(s).delayed);
  }

  lemma ProgressKeeps(L: Limits, s: State, i: nat, room: nat)
    requires Inv(L, s) && i < |s.nodes|
    ensures AllShaped(s.nodes) && AllShaped(Tick(s).nodes) && |Tick(s).nodes| == |s.nodes|
    ensures Inv(L, Progress(s, i, room).0) && |Progress(s, i, room).1| <= room
  {
    TickKeeps(L, s);
    var t := Tick(s);
    assert NodeOk(L, t.nodes[i], t.past[i], Waiting(t.delayed, i));
    PopManyOk(L, t.nodes[i], t.past[i], Waiting(t.delayed, i), room);
    var (node, copies) := PopMany(t.nodes[i], room);
    SetNode(L, t.nodes, t.past, t.delayed, i, node, Delivered(t.past[i], copies));
  }
}
