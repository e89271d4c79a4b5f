/** In which order the in-memory network delivers: the copies handed out for one node and channel, followed by those still
  queued there, are a line that copies join at its end, except for the faults that say otherwise. */
module MemoryOrder {
  import opened Wrappers
  import opened Protocol
  import opened Memory
  import opened MemoryProofs
  import opened MemoryRuns

  function Queue(s: State, i: nat, c: nat): seq<Copy>
    requires i < |s.nodes| && c < 3 && AllShaped(s.nodes)
  {
    s.nodes[i].incoming[c]
  }

  // ----- delayed copies come due

  function Ripe(delayed: seq<Delayed>, tick: nat): seq<Delayed> {
    if delayed == [] then []
    else if delayed[0].releaseAt <= tick then [delayed[0]] + Ripe(delayed[1..], tick) else Ripe(delayed[1..], tick)
  }

  function Unripe(delayed: seq<Delayed>, tick: nat): seq<Delayed> {
    if delayed == [] then []
    else if delayed[0].releaseAt <= tick then Unripe(delayed[1..], tick) else [delayed[0]] + Unripe(delayed[1..], tick)
  }

  lemma ForHead(item: Delayed, rest: seq<Delayed>, i: nat, c: nat)
    ensures For([item] + rest, i, c) ==
            (if item.copy.dest == i && item.copy.channel == c then [item.copy] else []) + For(rest, i, c)
  {
    assert ([item] + rest)[1..] == rest;
  }

  /** The copies whose time has come join their queues in the order in which they were sent, and the others stay delayed. */
  lemma {:induction false} ReleaseJoins(tick: nat, nodes: seq<Node>, kept: seq<Delayed>, rest: seq<Delayed>, i: nat, c: nat)
    requires AllShaped(nodes) && Addressed(rest, |nodes|) && i < |nodes| && c < 3
    ensures var (after, left) := ReleaseFrom(tick, nodes, kept, rest);
            && AllShaped(after) && |after| == |nodes| && left == kept + Unripe(rest, tick)
            && after[i].incoming[c] == nodes[i].incoming[c] + For(Ripe(rest, tick), i, c)
            && after[i].active == nodes[i].active && after[i].system == nodes[i].system
    decreases |rest|
  {
    if rest != [] {
      var item, more := rest[0], rest[1..];
      if item.releaseAt <= tick {
        ReleaseJoins(tick, nodes[item.copy.dest := Arrive(nodes[item.copy.dest], item.copy)], kept, more, i, c);
        ForHead(item, Ripe(more, tick), i, c);
      } else {
        ReleaseJoins(tick, nodes, kept + [item], more, i, c);
      }
    }
  }

  lemma TickJoins(s: State, i: nat, c: nat)
    requires AllShaped(s.nodes) && Addressed(s.delayed, |s.nodes|) && i < |s.nodes| && c < 3
    ensures var t := Tick(s);
            && AllShaped(t.nodes) && |t.nodes| == |s.nodes|
            && Queue(t, i, c) == Queue(s, i, c) + For(Ripe(s.delayed, s.tick + 1), i, c)
            && t.delayed == Unripe(s.delayed, s.tick + 1) && t.tick == s.tick + 1
            && t.nodes[i].active == s.nodes[i].active && t.nodes[i].system == s.nodes[i].system
  {
    ReleaseJoins(s.tick + 1, s.nodes, [], s.delayed, i, c);
    assert [] + Unripe(s.delayed, s.tick + 1) == Unripe(s.delayed, s.tick + 1);
  }

  // ----- events are handed out

  function Min(a: nat, b: nat): nat { if a <= b then a else b }

  /** What left the front of a queue. */
  function Gone(before: seq<Copy>, after: seq<Copy>): seq<Copy>
    requires |after| <= |before|
  {
    before[..|before| - |after|]
  }

  /** The next `r` copies of three queues, each from its front, an earlier queue before a later one; `rest` is left. */
  ghost predicate Takes(q: seq<seq<Copy>>, r: nat, copies: seq<Copy>, rest: seq<seq<Copy>>)
    requires |q| == 3
  {
    var a := Min(r, |q[0]|);
    var b := Min(r - a, |q[1]|);
    var d := Min(r - a - b, |q[2]|);
    copies == q[0][..a] + q[1][..b] + q[2][..d] && rest == [q[0][a..], q[1][b..], q[2][d..]]
  }

  lemma TakesNone(q: seq<seq<Copy>>, r: nat)
    requires |q| == 3 && (r == 0 || (q[0] == [] && q[1] == [] && q[2] == []))
    ensures Takes(q, r, [], q)
  {
    assert q == [q[0], q[1], q[2]];
  }

  lemma FrontAgain(queue: seq<Copy>, n: nat)
    requires 0 < n <= |queue|
    ensures queue[..n] == [queue[0]] + queue[1..][..n - 1] && queue[n..] == queue[1..][n - 1..]
  {
  }

  lemma Prepend(copy: Copy, x: seq<Copy>, y: seq<Copy>, z: seq<Copy>)
    ensures [copy] + (x + y + z) == [copy] + x + y + z
    ensures [] + x == x
  {
  }

  lemma TakesFirst(q: seq<seq<Copy>>, r: nat, copies: seq<Copy>, rest: seq<seq<Copy>>)
    requires |q| == 3 && r > 0 && q[0] != [] && Takes(q[0 := q[0][1..]], r - 1, copies, rest)
    ensures Takes(q, r, [q[0][0]] + copies, rest)
  {
    var a := Min(r, |q[0]|);
    var b := Min(r - a, |q[1]|);
    var d := Min(r - a - b, |q[2]|);
    assert Min(r - 1, |q[0]| - 1) == a - 1 && r - 1 - (a - 1) == r - a;
    FrontAgain(q[0], a);
    Prepend(q[0][0], q[0][1..][..a - 1], q[1][..b], q[2][..d]);
  }

  lemma TakesSecond(q: seq<seq<Copy>>, r: nat, copies: seq<Copy>, rest: seq<seq<Copy>>)
    requires |q| == 3 && r > 0 && q[0] == [] && q[1] != [] && Takes(q[1 := q[1][1..]], r - 1, copies, rest)
    ensures Takes(q, r, [q[1][0]] + copies, rest)
  {
    var b := Min(r, |q[1]|);
    var d := Min(r - b, |q[2]|);
    assert Min(r - 1, |q[1]| - 1) == b - 1 && r - 1 - (b - 1) == r - b;
    FrontAgain(q[1], b);
    Prepend(q[1][0], [], q[1][1..][..b - 1], q[2][..d]);
    Prepend(q[1][0], q[1][1..][..b - 1], [], []);
    Prepend(q[1][0], q[1][..b], [], []);
  }

  lemma TakesThird(q: seq<seq<Copy>>, r: nat, copies: seq<Copy>, rest: seq<seq<Copy>>)
    requires |q| == 3 && r > 0 && q[0] == [] && q[1] == [] && q[2] != [] && Takes(q[2 := q[2][1..]], r - 1, copies, rest)
    ensures Takes(q, r, [q[2][0]] + copies, rest)
  {
    var d := Min(r, |q[2]|);
    assert Min(r - 1, |q[2]| - 1) == d - 1;
    FrontAgain(q[2], d);
    Prepend(q[2][0], [], [], q[2][1..][..d - 1]);
    Prepend(q[2][0], q[2][..d], [], []);
  }

  lemma TakesFront(q: seq<seq<Copy>>, r: nat, copies: seq<Copy>, rest: seq<seq<Copy>>, c: nat)
    requires |q| == 3 && c < 3 && Takes(q, r, copies, rest)
    ensures |rest[c]| <= |q[c]| && Gone(q[c], rest[c]) + rest[c] == q[c]
  {
  }

  /** What one call hands out: system events first, then parcels. */
  ghost predicate HandsOut(node: Node, room: nat, next: Node, copies: seq<Copy>)
    requires Shaped(node)
  {
    var took := Min(room, node.system);
    next == node.(system := node.system - took, incoming := next.incoming, queuedBytes := next.queuedBytes)
    && Takes(node.incoming, room - took, copies, next.incoming)
  }

  lemma HandsOutSystem(node: Node, room: nat, last: Node, copies: seq<Copy>)
    requires Shaped(node) && room > 0 && node.system > 0
    requires HandsOut(node.(system := node.system - 1), room - 1, last, copies)
    ensures HandsOut(node, room, last, copies)
  {
    assert room - Min(room, node.system) == room - 1 - Min(room - 1, node.system - 1);
  }

  /** Without system events all the room is for parcels. */
  lemma HandsOutParcels(node: Node, room: nat, next: Node, copies: seq<Copy>)
    requires Shaped(node) && node.system == 0
    ensures HandsOut(node, room, next, copies) <==>
            next == node.(incoming := next.incoming, queuedBytes := next.queuedBytes) && Takes(node.incoming, room, copies, next.incoming)
  {
    assert Min(room, node.system) == 0;
  }

  lemma HandsOutFrom(node: Node, room: nat, c: nat, last: Node, copies: seq<Copy>)
    requires Shaped(node) && room > 0 && node.system == 0 && c < 3 && node.incoming[c] != []
    requires forall d :: 0 <= d < c ==> node.incoming[d] == []
    requires HandsOut(PopFrom(node, c).0, room - 1, last, copies)
    ensures HandsOut(node, room, last, [node.incoming[c][0]] + copies)
  {
    var q, next := node.incoming, PopFrom(node, c).0;
    HandsOutParcels(next, room - 1, last, copies);
    if c == 0 { TakesFirst(q, room, copies, last.incoming); }
    else if c == 1 { TakesSecond(q, room, copies, last.incoming); }
    else { TakesThird(q, room, copies, last.incoming); }
    HandsOutParcels(node, room, last, [q[c][0]] + copies);
  }

  lemma HandsOutNone(node: Node, room: nat)
    requires Shaped(node) && (room == 0 || Pop(node).None?)
    ensures HandsOut(node, room, node, [])
  {
    TakesNone(node.incoming, room - Min(room, node.system));
  }

  lemma HandsOutMore(node: Node, room: nat, last: Node, copies: seq<Copy>)
    requires Shaped(node) && room > 0 && Pop(node).Some? && Shaped(Pop(node).value.0)
    requires HandsOut(Pop(node).value.0, room - 1, last, copies)
    ensures var event := Pop(node).value.1;
            HandsOut(node, room, last, if event.Some? then [event.value] + copies else copies)
  {
    if node.system > 0 {
      HandsOutSystem(node, room, last, copies);
    } else {
      HandsOutFrom(node, room, if node.incoming[0] != [] then 0 else if node.incoming[1] != [] then 1 else 2, last, copies);
    }
  }

  /** One call hands out as many events as it has room for: system events first, then control, action and bulk parcels,
      each queue from its front. */
  lemma {:induction false} TakesInOrder(node: Node, room: nat)
    requires Shaped(node)
    ensures HandsOut(node, room, PopMany(node, room).0, PopMany(node, room).1)
    decreases room
  {
    if room == 0 || Pop(node).None? {
      HandsOutNone(node, room);
    } else {
      var next := Pop(node).value.0;
      TakesInOrder(next, room - 1);
      HandsOutMore(node, room, PopMany(next, room - 1).0, PopMany(next, room - 1).1);
    }
  }

  /** The line of each channel loses its front. */
  lemma FrontIsTaken(node: Node, room: nat, c: nat)
    requires Shaped(node) && c < 3
    ensures var next := PopMany(node, room).0;
            && Shaped(next) && |next.incoming[c]| <= |node.incoming[c]|
            && Gone(node.incoming[c], next.incoming[c]) + next.incoming[c] == node.incoming[c]
  {
    TakesInOrder(node, room);
    var (next, copies) := PopMany(node, room);
    TakesFront(node.incoming, room - Min(room, node.system), copies, next.incoming, c);
  }

  // ----- sending

  /** All copies queued or delayed for a node on one channel, and their bytes on all channels. */
  ghost function Held(s: State, i: nat, c: nat): nat
    requires i < |s.nodes| && c < 3 && AllShaped(s.nodes)
  {
    |Queue(s, i, c)| + |For(s.delayed, i, c)|
  }

  ghost function HeldBytes(s: State, i: nat): nat
    requires i < |s.nodes| && AllShaped(s.nodes)
  {
    Load(Queue(s, i, 0)) + Load(For(s.delayed, i, 0)) + Load(Queue(s, i, 1)) + Load(For(s.delayed, i, 1))
    + Load(Queue(s, i, 2)) + Load(For(s.delayed, i, 2))
  }

  /** A parcel is accepted exactly when its sender is active with room for the notice, its destination exists, the fault
      drawn for it is not a saturation, and the copies that the fault makes fit into what is really queued and delayed at
      an active destination. A refusal moves no parcel; it uses up a ticket and a fault exactly when they were drawn. */
  lemma SendIsAnswered(L: Limits, s: State, source: nat, dest: nat, c: nat, bytes: nat)
    requires Inv(L, s) && source < |s.nodes| && c < 3
    ensures AllShaped(s.nodes)
    ensures var (t, ok) := Send(L, s, source, dest, c, bytes);
            var fault := if s.faults == [] then Pass else s.faults[0];
            var n := if fault.Duplicate? then 2 else if fault.Pass? || fault.Reorder? || fault.Delay? then 1 else 0;
            var drawn := s.nodes[source].active && dest < |s.nodes| && s.nodes[source].system < L.maxQueued;
            var room := dest < |s.nodes| && s.nodes[dest].active && Held(s, dest, c) + n <= L.maxQueued
                        && HeldBytes(s, dest) + bytes * n <= (if c == 0 then L.maxInflight else L.maxInflight - L.reserve);
            && (ok <==> (drawn && !fault.Saturate? && (n > 0 ==> room)))
            && (!ok ==> t == s.(nextTicket := if drawn then s.nextTicket + 1 else s.nextTicket,
                                faults := if drawn && s.faults != [] then s.faults[1..] else s.faults))
            && (ok ==> t.nextTicket == s.nextTicket + 1 && t.faults == (if s.faults == [] then [] else s.faults[1..])
                       && |t.nodes| == |s.nodes| && t.tick == s.tick
                       && t.nodes[source].system == s.nodes[source].system + (if fault.Disconnect? then 2 else 1))
  {
    InvShapes(L, s.nodes, s.past, s.delayed);
    if dest < |s.nodes| { assert NodeOk(L, s.nodes[dest], s.past[dest], Waiting(s.delayed, dest)); }
  }

  // ----- the line of one node and channel

  /** Copies handed out by this step. */
  ghost function Out(L: Limits, s: State, step: Step, i: nat, c: nat): seq<Copy>
    requires Inv(L, s) && Enabled(s, step) && i < |s.nodes| && c < 3
  {
    TickKeeps(L, s);
    if step.DoProgress? && step.node == i then
      StepKeeps(L, s, step);
      InvShapes(L, Next(L, s, step).nodes, Next(L, s, step).past, Next(L, s, step).delayed);
      TickJoins(s, i, c);
      FrontIsTaken(Tick(s).nodes[i], step.room, c);
      Gone(Queue(Tick(s), i, c), Queue(Next(L, s, step), i, c))
    else []
  }

  /** The copy of a send that was accepted, if it goes to this node and channel. */
  ghost function Sent(L: Limits, s: State, step: Step, i: nat, c: nat, fault: Fault): seq<Copy>
    requires Inv(L, s) && Enabled(s, step)
  {
    InvShapes(L, s.nodes, s.past, s.delayed);
    if step.DoSend? && step.dest == i && step.channel == c && Send(L, s, step.source, i, c, step.bytes).1
       && fault == (if s.faults == [] then Pass else s.faults[0])
      then [Copy(s.nextTicket, step.source, i, c, step.bytes)] else []
  }

  /** The copies that join the end of the line in this step: a parcel that passes, a duplicated one twice, and the delayed
      ones that come due when the clock ticks. */
  ghost function Joining(L: Limits, s: State, step: Step, i: nat, c: nat): seq<Copy>
    requires Inv(L, s) && Enabled(s, step)
  {
    match step
    case DoSend(_, _, _, _) => Sent(L, s, step, i, c, Pass) + Sent(L, s, step, i, c, Duplicate) + Sent(L, s, step, i, c, Duplicate)
    case DoProgress(_, _) => For(Ripe(s.delayed, s.tick + 1), i, c)
    case DoFlush => For(Ripe(s.delayed, s.tick + 1), i, c)
    case _ => []
  }

  lemma SendMovesLine(L: Limits, s: State, step: Step, i: nat, c: nat)
    requires Inv(L, s) && Enabled(s, step) && step.DoSend? && i < |s.nodes| && c < 3
    ensures var t := Next(L, s, step);
            && AllShaped(s.nodes) && AllShaped(t.nodes) && |t.nodes| == |s.nodes|
            && Queue(t, i, c) == Sent(L, s, step, i, c, Reorder) + Queue(s, i, c) + Joining(L, s, step, i, c)
  {
    InvShapes(L, s.nodes, s.past, s.delayed);
    StepKeeps(L, s, step);
    var t := Next(L, s, step);
    InvShapes(L, t.nodes, t.past, t.delayed);
  }

  lemma ProgressMovesLine(L: Limits, s: State, step: Step, i: nat, c: nat)
    requires Inv(L, s) && Enabled(s, step) && step.DoProgress? && i < |s.nodes| && c < 3
    ensures var t := Next(L, s, step);
            && AllShaped(s.nodes) && AllShaped(t.nodes) && |t.nodes| == |s.nodes|
            && Out(L, s, step, i, c) + Queue(t, i, c) == Queue(s, i, c) + Joining(L, s, step, i, c)
  {
    InvShapes(L, s.nodes, s.past, s.delayed);
    StepKeeps(L, s, step);
    var t := Next(L, s, step);
    InvShapes(L, t.nodes, t.past, t.delayed);
    TickJoins(s, i, c);
    TickKeeps(L, s);
    if step.node == i {
      FrontIsTaken(Tick(s).nodes[i], step.room, c);
    } else {
      assert t.nodes[i] == Tick(s).nodes[i];
    }
  }

  lemma ShutdownMovesLine(L: Limits, s: State, l: nat, i: nat, c: nat)
    requires Inv(L, s) && l < |s.nodes| && i < |s.nodes| && c < 3
    ensures var t := Next(L, s, DoShutdown(l));
            && AllShaped(s.nodes) && AllShaped(t.nodes) && |t.nodes| == |s.nodes|
            && Queue(t, i, c) == if i == l then [] else Queue(s, i, c)
  {
    InvShapes(L, s.nodes, s.past, s.delayed);
    StepKeeps(L, s, DoShutdown(l));
    var t := Next(L, s, DoShutdown(l));
    InvShapes(L, t.nodes, t.past, t.delayed);
    CancelLeavesQueues(l, s.nodes, s.past, [], s.delayed, i);
  }

  /** Cancelling takes back delayed copies only, exactly those from or to the locality. */
  lemma {:induction false} CancelLeavesQueues(l: nat, nodes: seq<Node>, past: seq<History>, kept: seq<Delayed>, rest: seq<Delayed>, i: nat)
    requires AllShaped(nodes) && |nodes| == |past| && Addressed(rest, |nodes|) && i < |nodes|
    ensures var (after, _, left) := CancelFrom(l, nodes, past, kept, rest);
            && |after| == |nodes| && after[i].incoming == nodes[i].incoming && after[i].system == nodes[i].system
            && after[i].active == nodes[i].active && left == kept + Untouched(rest, l)
    decreases |rest|
  {
    if rest != [] {
      var item, more := rest[0], rest[1..];
      var d := item.copy.dest;
      if Touches(item, l) {
        var after := if d == l then nodes else nodes[d := Withdraw(nodes[d], item.copy)];
        CancelLeavesQueues(l, after, past[d := past[d].(dropped := past[d].dropped + multiset{item.copy})], kept, more, i);
      } else {
        CancelLeavesQueues(l, nodes, past, kept + [item], more, i);
      }
    }
  }

  function Untouched(delayed: seq<Delayed>, l: nat): seq<Delayed> {
    if delayed == [] then []
    else if Touches(delayed[0], l) then Untouched(delayed[1..], l) else [delayed[0]] + Untouched(delayed[1..], l)
  }

  /** One step of the line of node `i` and channel `c`, whatever the faults: what is handed out leaves its front, the
      joining copies its end, and a reordered parcel alone goes before what is queued; a shutdown of `i` empties it. */
  lemma StepMovesLine(L: Limits, s: State, step: Step, i: nat, c: nat)
    requires Inv(L, s) && Enabled(s, step) && i < |s.nodes| && c < 3
    ensures var t := Next(L, s, step);
            && AllShaped(s.nodes) && AllShaped(t.nodes) && |t.nodes| == |s.nodes|
            && if step == DoShutdown(i) then Queue(t, i, c) == []
               else Out(L, s, step, i, c) + Queue(t, i, c)
                    == Sent(L, s, step, i, c, Reorder) + Queue(s, i, c) + Joining(L, s, step, i, c)
  {
    InvShapes(L, s.nodes, s.past, s.delayed);
    match step
    case DoSend(_, _, _, _) => SendMovesLine(L, s, step, i, c);
    case DoProgress(_, _) => ProgressMovesLine(L, s, step, i, c);
    case DoFlush => TickJoins(s, i, c);
    case DoDeactivate(_) =>
    case DoShutdown(l) => ShutdownMovesLine(L, s, l, i, c);
  }

  /** What one call of progress hands out is what leaves the three lines of its node, control before action before bulk. */
  lemma HandedOutLeavesTheLines(L: Limits, s: State, i: nat, room: nat)
    requires Inv(L, s) && i < |s.nodes|
    ensures AllShaped(s.nodes) && AllShaped(Tick(s).nodes) && |Tick(s).nodes| == |s.nodes|
    ensures var step := DoProgress(i, room);
            Progress(s, i, room).1 == Out(L, s, step, i, 0) + Out(L, s, step, i, 1) + Out(L, s, step, i, 2)
  {
    ProgressKeeps(L, s, i, room);
    TakesInOrder(Tick(s).nodes[i], room);
    var q, copies, rest := Tick(s).nodes[i].incoming, Progress(s, i, room).1, Progress(s, i, room).0.nodes[i].incoming;
    TakesGone(q, room - Min(room, Tick(s).nodes[i].system), copies, rest);
  }

  lemma TakesGone(q: seq<seq<Copy>>, r: nat, copies: seq<Copy>, rest: seq<seq<Copy>>)
    requires |q| == 3 && Takes(q, r, copies, rest)
    ensures |rest| == 3 && forall c :: 0 <= c < 3 ==> |rest[c]| <= |q[c]|
    ensures copies == Gone(q[0], rest[0]) + Gone(q[1], rest[1]) + Gone(q[2], rest[2])
  {
  }

  /** A delayed parcel waits for at least one tick, and for as many as its fault says. */
  lemma StepDelays(L: Limits, s: State, step: Step)
    requires Inv(L, s) && Enabled(s, step)
    ensures var t := Next(L, s, step);
            var fault := if s.faults == [] then Pass else s.faults[0];
            match step
            case DoSend(source, dest, c, bytes) =>
              t.tick == s.tick &&
              t.delayed == s.delayed + (if fault.Delay? && Accepts(L, s, step)
                then [Delayed(s.tick + (if fault.ticks == 0 then 1 else fault.ticks), Copy(s.nextTicket, source, dest, c, bytes))] else [])
            case DoProgress(_, _) => t.tick == s.tick + 1 && t.delayed == Unripe(s.delayed, t.tick)
            case DoFlush => t.tick == s.tick + 1 && t.delayed == Unripe(s.delayed, t.tick)
            case DoDeactivate(_) => t.tick == s.tick && t.delayed == s.delayed
            case DoShutdown(l) => t.tick == s.tick && t.delayed == Untouched(s.delayed, l)
  {
    InvShapes(L, s.nodes, s.past, s.delayed);
    match step
    case DoSend(_, _, _, _) =>
    case DoProgress(i, room) => TickJoins(s, i, 0);
    case DoFlush =>
      assert [] + Unripe(s.delayed, s.tick + 1) == Unripe(s.delayed, s.tick + 1);
      if s.nodes != [] { TickJoins(s, 0, 0); } else { assert s.delayed == []; }
    case DoDeactivate(_) =>
    case DoShutdown(l) =>
      ShutdownKeeps(L, s, l);
      CancelLeavesQueues(l, s.nodes, s.past, [], s.delayed, l);
      assert [] + Untouched(s.delayed, l) == Untouched(s.delayed, l);
  }

  ghost predicate Accepts(L: Limits, s: State, step: Step)
    requires Inv(L, s) && Enabled(s, step) && step.DoSend?
  {
    InvShapes(L, s.nodes, s.past, s.delayed);
    Send(L, s, step.source, step.dest, step.channel, step.bytes).1
  }

  // ----- whole runs

  /** The copies handed out at node `i` on channel `c` over a run, in order. */
  ghost function HandedOut(L: Limits, s: State, steps: seq<Step>, i: nat, c: nat): seq<Copy>
    requires Inv(L, s) && Legal(L, s, steps) && i < |s.nodes| && c < 3
    decreases |steps|
  {
    if steps == [] then []
    else
      StepKeeps(L, s, steps[0]);
      StepMovesLine(L, s, steps[0], i, c);
      Out(L, s, steps[0], i, c) + HandedOut(L, Next(L, s, steps[0]), steps[1..], i, c)
  }

  /** The copies that join the line of node `i` and channel `c` over a run, in order. */
  ghost function Joined(L: Limits, s: State, steps: seq<Step>, i: nat, c: nat): seq<Copy>
    requires Inv(L, s) && Legal(L, s, steps)
    decreases |steps|
  {
    if steps == [] then []
    else
      StepKeeps(L, s, steps[0]);
      Joining(L, s, steps[0], i, c) + Joined(L, Next(L, s, steps[0]), steps[1..], i, c)
  }

  predicate NoReorder(faults: seq<Fault>) {
    forall k :: 0 <= k < |faults| ==> !faults[k].Reorder?
  }

  predicate NoDelay(faults: seq<Fault>) {
    forall k :: 0 <= k < |faults| ==> !faults[k].Delay?
  }

  predicate NoDuplicate(faults: seq<Fault>) {
    forall k :: 0 <= k < |faults| ==> !faults[k].Duplicate?
  }

  lemma FaultsShrink(L: Limits, s: State, step: Step)
    requires Inv(L, s) && Enabled(s, step)
    ensures Next(L, s, step).faults == s.faults || (s.faults != [] && Next(L, s, step).faults == s.faults[1..])
    ensures Next(L, s, step).nextTicket >= s.nextTicket
  {
    InvShapes(L, s.nodes, s.past, s.delayed);
  }

  /** First in, first out: in every run without reordered parcels, whatever other faults there are, what node `i` is handed
      on channel `c`, followed by what is still queued for it, is what joined the line, in that order. */
  lemma {:induction false} FirstInFirstOut(L: Limits, s: State, steps: seq<Step>, i: nat, c: nat)
    requires Inv(L, s) && Legal(L, s, steps) && i < |s.nodes| && c < 3 && AllShaped(s.nodes)
    requires NoReorder(s.faults) && DoShutdown(i) !in steps
    ensures var t := After(L, s, steps);
            && |t.nodes| == |s.nodes| && AllShaped(t.nodes)
            && HandedOut(L, s, steps, i, c) + Queue(t, i, c) == Queue(s, i, c) + Joined(L, s, steps, i, c)
    decreases |steps|
  {
    if steps != [] {
      var step, next := steps[0], Next(L, s, steps[0]);
      StepKeeps(L, s, step);
      StepMovesLine(L, s, step, i, c);
      FaultsShrink(L, s, step);
      FirstInFirstOut(L, next, steps[1..], i, c);
      assert Sent(L, s, step, i, c, Reorder) == [];
      var rest := steps[1..];
      Regroup(Out(L, s, step, i, c), Queue(next, i, c), Queue(s, i, c), Joining(L, s, step, i, c),
              HandedOut(L, next, rest, i, c), Queue(After(L, next, rest), i, c), Joined(L, next, rest, i, c));
    }
  }

  lemma Regroup(out: seq<Copy>, mid: seq<Copy>, first: seq<Copy>, j: seq<Copy>, more: seq<Copy>, last: seq<Copy>, js: seq<Copy>)
    requires out + mid == [] + first + j || out + mid == first + j
    requires more + last == mid + js
    ensures out + more + last == first + (j + js)
  {
    assert [] + first == first;
    calc {
      out + more + last;
      out + (more + last);
      out + (mid + js);
      (out + mid) + js;
      first + j + js;
      first + (j + js);
    }
  }

  // ----- ordered by ticket

  predicate Ordered(line: seq<Copy>) {
    forall j, k :: 0 <= j < k < |line| ==> line[j].ticket <= line[k].ticket
  }

  predicate Before(line: seq<Copy>, ticket: nat) {
    forall k :: 0 <= k < |line| ==> line[k].ticket < ticket
  }

  /** Each copy is one of these or is issued later. */
  predicate OldOrNew(line: seq<Copy>, known: seq<Copy>, ticket: nat) {
    forall k :: 0 <= k < |line| ==> line[k] in known || line[k].ticket >= ticket
  }

  lemma JoinKeepsOrder(queue: seq<Copy>, joining: seq<Copy>, ticket: nat)
    requires Ordered(queue) && Before(queue, ticket) && forall k :: 0 <= k < |joining| ==> joining[k].ticket == ticket
    ensures Ordered(queue + joining) && Before(queue + joining, ticket + 1) && OldOrNew(queue + joining, queue, ticket)
  {
  }

  /** Without reordering and delays what joins are copies of the parcel just sent. */
  lemma JoiningIsNew(L: Limits, s: State, step: Step, i: nat, c: nat)
    requires Inv(L, s) && Enabled(s, step) && s.delayed == []
    ensures forall k :: 0 <= k < |Joining(L, s, step, i, c)| ==> Joining(L, s, step, i, c)[k].ticket == s.nextTicket
    ensures Joining(L, s, step, i, c) != [] ==> Next(L, s, step).nextTicket == s.nextTicket + 1
  {
    InvShapes(L, s.nodes, s.past, s.delayed);
  }

  lemma StepKeepsOrder(L: Limits, s: State, step: Step, i: nat, c: nat)
    requires Inv(L, s) && Enabled(s, step) && i < |s.nodes| && c < 3 && AllShaped(s.nodes)
    requires NoReorder(s.faults) && s.delayed == [] && Ordered(Queue(s, i, c)) && Before(Queue(s, i, c), s.nextTicket)
    ensures var t := Next(L, s, step);
            && AllShaped(t.nodes) && |t.nodes| == |s.nodes|
            && var line := Out(L, s, step, i, c) + Queue(t, i, c);
            Ordered(line) && Before(line, t.nextTicket) && OldOrNew(line, Queue(s, i, c), s.nextTicket)
  {
    StepMovesLine(L, s, step, i, c);
    FaultsShrink(L, s, step);
    JoiningIsNew(L, s, step, i, c);
    if step != DoShutdown(i) {
      assert Sent(L, s, step, i, c, Reorder) == [];
      JoinKeepsOrder(Queue(s, i, c), Joining(L, s, step, i, c), s.nextTicket);
      assert Out(L, s, step, i, c) + Queue(Next(L, s, step), i, c) == Queue(s, i, c) + Joining(L, s, step, i, c);
    }
  }

  lemma ConcatKeepsOrder(out: seq<Copy>, mid: seq<Copy>, line: seq<Copy>, first: seq<Copy>, issued: nat, ticket: nat)
    requires Ordered(out + mid) && Before(out + mid, ticket) && OldOrNew(out + mid, first, issued) && issued <= ticket
    requires Ordered(line) && OldOrNew(line, mid, ticket)
    ensures Ordered(out + line) && OldOrNew(out + line, first, issued)
  {
    forall j, k | 0 <= j < |out| && 0 <= k < |line| ensures out[j].ticket <= line[k].ticket {
      assert (out + mid)[j] == out[j];
      if line[k] in mid {
        var m :| 0 <= m < |mid| && mid[m] == line[k];
        assert (out + mid)[|out| + m] == mid[m];
      }
    }
    forall j, k | 0 <= j < k < |out + line| ensures (out + line)[j].ticket <= (out + line)[k].ticket {
      if k < |out| { assert (out + mid)[j] == out[j] && (out + mid)[k] == out[k]; }
    }
    forall k | 0 <= k < |out + line| ensures (out + line)[k] in first || (out + line)[k].ticket >= issued {
      if k < |out| {
        assert (out + mid)[k] == out[k];
      } else if line[k - |out|] in mid {
        var m :| 0 <= m < |mid| && mid[m] == line[k - |out|];
        assert (out + mid)[|out| + m] == mid[m];
      }
    }
  }

  lemma TailKeepsOrder(out: seq<Copy>, queue: seq<Copy>, ticket: nat)
    requires Ordered(out + queue) && Before(out + queue, ticket)
    ensures Ordered(queue) && Before(queue, ticket)
  {
    assert forall k :: 0 <= k < |queue| ==> queue[k] == (out + queue)[|out| + k];
  }

  lemma {:induction false} RunKeepsOrder(L: Limits, s: State, steps: seq<Step>, i: nat, c: nat)
    requires Inv(L, s) && Legal(L, s, steps) && i < |s.nodes| && c < 3 && AllShaped(s.nodes)
    requires NoReorder(s.faults) && NoDelay(s.faults) && s.delayed == []
    requires Ordered(Queue(s, i, c)) && Before(Queue(s, i, c), s.nextTicket)
    ensures var t := After(L, s, steps);
            && |t.nodes| == |s.nodes| && AllShaped(t.nodes)
            && Ordered(HandedOut(L, s, steps, i, c) + Queue(t, i, c))
            && OldOrNew(HandedOut(L, s, steps, i, c) + Queue(t, i, c), Queue(s, i, c), s.nextTicket)
    decreases |steps|
  {
    if steps == [] {
      assert [] + Queue(s, i, c) == Queue(s, i, c);
    } else {
      var step, next, rest := steps[0], Next(L, s, steps[0]), steps[1..];
      StepKeeps(L, s, step);
      StepKeepsOrder(L, s, step, i, c);
      StepDelays(L, s, step);
      FaultsShrink(L, s, step);
      TailKeepsOrder(Out(L, s, step, i, c), Queue(next, i, c), next.nextTicket);
      RunKeepsOrder(L, next, rest, i, c);
      var line := HandedOut(L, next, rest, i, c) + Queue(After(L, next, rest), i, c);
      ConcatKeepsOrder(Out(L, s, step, i, c), Queue(next, i, c), line, Queue(s, i, c), s.nextTicket, next.nextTicket);
      Associate(Out(L, s, step, i, c), HandedOut(L, next, rest, i, c), Queue(After(L, next, rest), i, c));
    }
  }

  lemma Associate(a: seq<Copy>, b: seq<Copy>, c: seq<Copy>)
    ensures a + b + c == a + (b + c)
  {
  }

  /** In every run of the network whose faults reorder and delay nothing, what each node is handed on each channel,
      followed by what is still queued for it, comes in the order of the tickets. */
  lemma DeliveredInOrder(L: Limits, n: nat, faults: seq<Fault>, steps: seq<Step>, i: nat, c: nat)
    requires L.Valid() && (StartsGood(L, n, faults); Legal(L, Start(n, faults), steps))
    requires NoReorder(faults) && NoDelay(faults) && i < n && c < 3
    ensures var t := After(L, Start(n, faults), steps);
            && |t.nodes| == n && AllShaped(t.nodes)
            && Ordered(HandedOut(L, Start(n, faults), steps, i, c) + Queue(t, i, c))
  {
    StartsGood(L, n, faults);
    RunKeepsOrder(L, Start(n, faults), steps, i, c);
  }

  /** The parcels for node `i` on channel `c` that were accepted over a run and not lost, in the order of sending. */
  ghost function Passed(L: Limits, s: State, steps: seq<Step>, i: nat, c: nat): seq<Copy>
    requires Inv(L, s) && Legal(L, s, steps)
    decreases |steps|
  {
    if steps == [] then []
    else
      StepKeeps(L, s, steps[0]);
      Sent(L, s, steps[0], i, c, Pass) + Passed(L, Next(L, s, steps[0]), steps[1..], i, c)
  }

  lemma {:induction false} JoinedIsPassed(L: Limits, s: State, steps: seq<Step>, i: nat, c: nat)
    requires Inv(L, s) && Legal(L, s, steps)
    requires NoDuplicate(s.faults) && NoDelay(s.faults) && s.delayed == []
    ensures Joined(L, s, steps, i, c) == Passed(L, s, steps, i, c)
    decreases |steps|
  {
    if steps != [] {
      StepKeeps(L, s, steps[0]);
      StepDelays(L, s, steps[0]);
      FaultsShrink(L, s, steps[0]);
      JoinedIsPassed(L, Next(L, s, steps[0]), steps[1..], i, c);
      var none: seq<Copy> := [];
      assert Sent(L, s, steps[0], i, c, Duplicate) == none && Sent(L, s, steps[0], i, c, Pass) + none == Sent(L, s, steps[0], i, c, Pass);
    }
  }

  /** When moreover nothing is duplicated, it is exactly what was accepted and not lost, in the order of sending. */
  lemma DeliveredAsSent(L: Limits, n: nat, faults: seq<Fault>, steps: seq<Step>, i: nat, c: nat)
    requires L.Valid() && (StartsGood(L, n, faults); Legal(L, Start(n, faults), steps))
    requires NoReorder(faults) && NoDelay(faults) && NoDuplicate(faults) && i < n && c < 3 && DoShutdown(i) !in steps
    ensures var s, t := Start(n, faults), After(L, Start(n, faults), steps);
            && |t.nodes| == n && AllShaped(t.nodes)
            && HandedOut(L, s, steps, i, c) + Queue(t, i, c) == Passed(L, s, steps, i, c)
  {
    StartsGood(L, n, faults);
    FirstInFirstOut(L, Start(n, faults), steps, i, c);
    JoinedIsPassed(L, Start(n, faults), steps, i, c);
  }

  // ----- a node that is shut down

  /** The node sends and takes nothing any more, and holds nothing. */
  ghost predicate Closed(s: State, i: nat) {
    && i < |s.nodes| && Shaped(s.nodes[i]) && !s.nodes[i].active && s.nodes[i].system == 0
    && s.nodes[i].incoming == [[], [], []] && forall c: nat :: c < 3 ==> For(s.delayed, i, c) == []
  }

  /** From the start of its shutdown a node sends nothing, and what is sent to it is refused unless it is lost anyway. */
  lemma DeactivationStopsTraffic(L: Limits, s: State, i: nat, other: nat, c: nat, bytes: nat)
    requires Inv(L, s) && i < |s.nodes| && other < |s.nodes| && c < 3
    ensures var t := Deactivate(s, i);
            && AllShaped(t.nodes)
            && Send(L, t, i, other, c, bytes) == (t, false)
            && (Send(L, t, other, i, c, bytes).1 ==> Copies(NextFault(t)) == 0)
            && t == s.(nodes := s.nodes[i := s.nodes[i].(active := false)])
  {
    InvShapes(L, s.nodes, s.past, s.delayed);
  }

  lemma ShutdownCloses(L: Limits, s: State, i: nat)
    requires Inv(L, s) && i < |s.nodes|
    ensures Closed(Next(L, s, DoShutdown(i)), i)
  {
    InvShapes(L, s.nodes, s.past, s.delayed);
    ShutdownReady(L, s, i);
    var left := CancelFrom(i, s.nodes, s.past, [], s.delayed).2;
    assert Waiting(left, i) == [For(left, i, 0), For(left, i, 1), For(left, i, 2)];
  }

  lemma {:induction false} RipeOfNone(delayed: seq<Delayed>, tick: nat, i: nat, c: nat)
    requires For(delayed, i, c) == []
    ensures For(Ripe(delayed, tick), i, c) == [] && For(Unripe(delayed, tick), i, c) == []
  {
    if delayed != [] {
      RipeOfNone(delayed[1..], tick, i, c);
      ForHead(delayed[0], Ripe(delayed[1..], tick), i, c);
      ForHead(delayed[0], Unripe(delayed[1..], tick), i, c);
    }
  }

  lemma {:induction false} UntouchedOfNone(delayed: seq<Delayed>, l: nat, i: nat, c: nat)
    requires For(delayed, i, c) == []
    ensures For(Untouched(delayed, l), i, c) == []
  {
    if delayed != [] {
      UntouchedOfNone(delayed[1..], l, i, c);
      ForHead(delayed[0], Untouched(delayed[1..], l), i, c);
    }
  }

  lemma TickStaysClosed(s: State, i: nat)
    requires AllShaped(s.nodes) && Addressed(s.delayed, |s.nodes|) && Closed(s, i)
    ensures Closed(Tick(s), i)
  {
    TickJoins(s, i, 0);
    var queues := Tick(s).nodes[i].incoming;
    forall c: nat | c < 3 ensures queues[c] == [] && For(Tick(s).delayed, i, c) == [] {
      TickJoins(s, i, c);
      RipeOfNone(s.delayed, s.tick + 1, i, c);
    }
    assert queues == [queues[0], queues[1], queues[2]];
  }

  lemma SendStaysClosed(L: Limits, s: State, source: nat, dest: nat, c: nat, bytes: nat, i: nat)
    requires Inv(L, s) && source < |s.nodes| && c < 3 && Closed(s, i)
    ensures AllShaped(s.nodes) && Closed(Send(L, s, source, dest, c, bytes).0, i)
  {
    InvShapes(L, s.nodes, s.past, s.delayed);
    var t := Send(L, s, source, dest, c, bytes).0;
    forall d: nat | d < 3 ensures For(t.delayed, i, d) == [] {
      if t.delayed != s.delayed { ForHeld(s.delayed, t.delayed[|s.delayed|], i, d); }
    }
  }

  /** Whatever happens afterwards, a node that is shut down stays closed and is handed nothing. */
  lemma StaysClosed(L: Limits, s: State, step: Step, i: nat)
    requires Inv(L, s) && Enabled(s, step) && Closed(s, i)
    ensures Closed(Next(L, s, step), i)
    ensures step.DoProgress? && step.node == i ==>
              AllShaped(s.nodes) && AllShaped(Tick(s).nodes) && |Tick(s).nodes| == |s.nodes| && Progress(s, i, step.room).1 == []
  {
    InvShapes(L, s.nodes, s.past, s.delayed);
    match step
    case DoSend(source, dest, c, bytes) => SendStaysClosed(L, s, source, dest, c, bytes, i);
    case DoProgress(n, room) =>
      TickKeeps(L, s);
      TickStaysClosed(s, i);
      assert Pop(Tick(s).nodes[i]) == None;
    case DoFlush => TickStaysClosed(s, i);
    case DoDeactivate(_) =>
    case DoShutdown(l) =>
      if l == i {
        ShutdownCloses(L, s, i);
      } else {
        ShutdownKeeps(L, s, l);
        CancelLeavesQueues(l, s.nodes, s.past, [], s.delayed, i);
        assert [] + Untouched(s.delayed, l) == Untouched(s.delayed, l);
        forall c: nat | c < 3 ensures For(Untouched(s.delayed, l), i, c) == [] { UntouchedOfNone(s.delayed, l, i, c); }
      }
  }

  lemma {:induction false} ShutDownStaysEmpty(L: Limits, s: State, steps: seq<Step>, i: nat)
    requires Inv(L, s) && Legal(L, s, steps) && Closed(s, i)
    ensures Closed(After(L, s, steps), i)
    decreases |steps|
  {
    if steps != [] {
      StepKeeps(L, s, steps[0]);
      StaysClosed(L, s, steps[0], i);
      ShutDownStaysEmpty(L, Next(L, s, steps[0]), steps[1..], i);
    }
  }
}
