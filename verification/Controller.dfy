/** The initiator-side controller `PmapFuture` of crates/hataori-algorithms/src/batch.rs.

  A poll submits batches up to the in-flight limit, polls the batch futures in slot order, and stores
  the replies of the ready ones. Whether the runtime accepts a batch, and what a batch future says when it is
  polled, is decided by an arbitrary `World`, anew each time; the controller logs every answer it gets. A reply is the
  registered handler's reply to its batch.
 */
module Controller {
  import opened Wrappers
  import opened SerialMap

  datatype Chunk<A> = Chunk(start: nat, items: seq<A>)

  datatype AlgorithmError<E> = Callback(index: nat, message: E) | Protocol | Runtime

  datatype Poll<U, E> = Pending | Ready(result: Result<seq<U>, AlgorithmError<E>>)

  /** What a polled batch future says: not ready, failed by the runtime, or ready with a reply from here or elsewhere. */
  datatype Look = Waiting | Broken | Replied(remote: bool)

  /** What happens in a poll: a turn of the loop begins, a batch is submitted, a batch future is polled. Batches are told
      apart by their first index. */
  datatype Event = Turn | Asked(start: nat, accepted: bool) | Looked(start: nat, look: Look)

  /** The runtime's answer to a submission or a poll of this batch as the event with this number. */
  datatype World = World(accepts: (nat, nat) -> bool, look: (nat, nat) -> Look)

  predicate Answers(world: World, e: Event, k: nat) {
    match e
    case Turn => true
    case Asked(start, accepted) => accepted == world.accepts(start, k)
    case Looked(start, look) => look == world.look(start, k)
  }

  /** The log tells what the world answered. */
  ghost predicate Truthful(world: World, log: seq<Event>) {
    forall k: nat :: k < |log| ==> Answers(world, log[k], k)
  }

  predicate Favours(world: World, start: nat, k: nat) {
    world.accepts(start, k) && world.look(start, k).Replied?
  }

  /** From event number `from` on, every batch is accepted and every future is ready. */
  ghost predicate Prompt(world: World, from: nat) {
    forall start: nat, k: nat :: k >= from ==> Favours(world, start, k)
  }

  predicate Refusal(e: Event) {
    (e.Asked? && !e.accepted) || (e.Looked? && e.look.Broken?)
  }

  /** The log has grown by events of which none is a refusal. */
  ghost predicate Smooth(before: seq<Event>, after: seq<Event>) {
    && |before| <= |after| && after[..|before|] == before
    && forall k :: |before| <= k < |after| ==> !Refusal(after[k])
  }

  /** The log has grown by events of which the last one is a refusal. */
  ghost predicate Refused(before: seq<Event>, after: seq<Event>) {
    |before| < |after| && Smooth(before, after[..|after| - 1]) && Refusal(after[|after| - 1])
  }

  /** The log has grown, and its last turn polled exactly these batches, in order, and none was ready. */
  ghost predicate AllWaiting<A>(before: seq<Event>, log: seq<Event>, slots: seq<Chunk<A>>) {
    && |log| > |before| + |slots| && log[|log| - |slots| - 1] == Turn
    && forall k: nat :: k < |slots| ==> log[|log| - |slots| + k] == Looked(slots[k].start, Waiting)
  }

  /** A world that refuses, or keeps a future waiting, is not prompt. */
  lemma PromptAnswers<A>(world: World, before: seq<Event>, log: seq<Event>, slots: seq<Chunk<A>>)
    requires Truthful(world, log)
    ensures Refused(before, log) || (AllWaiting(before, log, slots) && slots != []) ==> !Prompt(world, |before|)
  {
    if Refused(before, log) {
      var k := |log| - 1;
      assert Answers(world, log[k], k);
      assert !Favours(world, log[k].start, k);
    } else if AllWaiting(before, log, slots) && slots != [] {
      var k := |log| - |slots|;
      assert log[k + 0] == Looked(slots[0].start, Waiting);
      assert Answers(world, log[k], k);
      assert !Favours(world, slots[0].start, k);
    }
  }

  /** One more event with the world's answer. */
  lemma LogMore(world: World, before: seq<Event>, log: seq<Event>, e: Event)
    requires Truthful(world, log) && Smooth(before, log) && Answers(world, e, |log|)
    ensures Truthful(world, log + [e])
    ensures if Refusal(e) then Refused(before, log + [e]) else Smooth(before, log + [e])
  {
    assert (log + [e])[..|log|] == log;
    assert (log + [e])[..|before|] == before;
  }

  predicate Within(start: nat, count: nat, i: nat) {
    start <= i < start + count
  }

  function Span(start: nat, count: nat): set<nat> {
    set i: nat | i < start + count && Within(start, count, i)
  }

  ghost predicate Covers<A>(chunk: Chunk<A>, i: nat) {
    Within(chunk.start, |chunk.items|, i)
  }

  /** The chunk is a nonempty stretch of the input. */
  ghost predicate Stretch<A>(items: seq<A>, chunk: Chunk<A>) {
    && chunk.items != [] && chunk.start + |chunk.items| <= |items|
    && forall k :: 0 <= k < |chunk.items| ==> chunk.items[k] == items[chunk.start + k]
  }

  /** The queue holds the rest of the input, from `start` on, in order. */
  ghost predicate Rest<A>(items: seq<A>, pending: seq<Chunk<A>>, start: nat)
    decreases |pending|
  {
    if pending == [] then start == |items|
    else pending[0].start == start && Stretch(items, pending[0]) && Rest(items, pending[1..], start + |pending[0].items|)
  }

  function RestStart<A>(n: nat, pending: seq<Chunk<A>>): nat {
    if pending == [] then n else pending[0].start
  }

  ghost predicate SlotsGood<A>(items: seq<A>, slots: seq<Chunk<A>>, bound: nat) {
    && (forall k :: 0 <= k < |slots| ==> Stretch(items, slots[k]) && slots[k].start + |slots[k].items| <= bound)
    && (forall j, k, i: nat :: 0 <= j < k < |slots| && Covers(slots[j], i) ==> !Covers(slots[k], i))
  }

  ghost predicate InSlots<A>(slots: seq<Chunk<A>>, i: nat) {
    exists k :: 0 <= k < |slots| && Covers(slots[k], i)
  }

  /** The outcome of index `i` has been stored. */
  ghost predicate Settled<A, U, E>(items: seq<A>, f: A -> Result<U, E>, outputs: seq<Option<U>>, firstError: Option<(nat, E)>, i: nat)
    requires i < |items| == |outputs|
  {
    match f(items[i])
    case Ok(value) => outputs[i] == Some(value)
    case Err(_) => firstError.Some? && firstError.value.0 <= i
  }

  /** The item that a reply holds for a callback's result: a reply that crossed the wire has its text cut, one
      from the own locality has not. */
  ghost predicate Says<U, E>(cut: E -> E, result: Result<U, E>, item: Result<U, E>) {
    item == result || (result.Err? && item == Err(cut(result.error)))
  }

  ghost predicate ErrorReal<A, U, E>(items: seq<A>, f: A -> Result<U, E>, cut: E -> E, firstError: Option<(nat, E)>) {
    firstError.Some? ==>
      && firstError.value.0 < |items| && f(items[firstError.value.0]).Err?
      && Says(cut, f(items[firstError.value.0]), Err(firstError.value.1))
  }

  /** The indices that have left the queue and are in no slot. */
  ghost function Answered<A(!new)>(slots: seq<Chunk<A>>, bound: nat): set<nat> {
    set i: nat | i < bound && !InSlots(slots, i)
  }

  /** The outcomes of the indices in `settled` are stored, and nothing is stored for any other. */
  ghost predicate Books<A, U, E>(items: seq<A>, f: A -> Result<U, E>, cut: E -> E, settled: set<nat>,
                                 outputs: seq<Option<U>>, firstError: Option<(nat, E)>) {
    && |outputs| == |items|
    && ErrorReal(items, f, cut, firstError)
    && forall i: nat :: i < |items| ==>
         if i in settled then Settled(items, f, outputs, firstError, i) else outputs[i].None?
  }

  /** What storing one item of a reply does to the outputs and the first error. */
  function StoreItem<U, E>(index: nat, item: Result<U, E>, outputs: seq<Option<U>>, firstError: Option<(nat, E)>)
    : (seq<Option<U>>, Option<(nat, E)>)
    requires index < |outputs|
  {
    match item
    case Ok(value) => (outputs[index := Some(value)], firstError)
    case Err(message) =>
      (outputs, if firstError.None? || index < firstError.value.0 then Some((index, message)) else firstError)
  }

  lemma StoreItemSettles<A, U, E>(items: seq<A>, f: A -> Result<U, E>, cut: E -> E, settled: set<nat>, index: nat,
                                  item: Result<U, E>, outputs: seq<Option<U>>, firstError: Option<(nat, E)>)
    requires index < |items| && index !in settled && Says(cut, f(items[index]), item)
    requires Books(items, f, cut, settled, outputs, firstError)
    ensures var next := StoreItem(index, item, outputs, firstError);
            Books(items, f, cut, settled + {index}, next.0, next.1)
  {
    var next := StoreItem(index, item, outputs, firstError);
    forall i: nat | i < |items|
      ensures if i in settled + {index} then Settled(items, f, next.0, next.1, i) else next.0[i].None?
    {
      if i in settled { assert Settled(items, f, outputs, firstError, i); }
    }
  }

  /** The error `map` reports, in the text a reply carries. */
  ghost predicate Reports<A, U, E>(items: seq<A>, f: A -> Result<U, E>, cut: E -> E, index: nat, message: E) {
    var m := Map(items, f);
    && m.Err? && m.error.index == index
    && (message == m.error.error || message == cut(m.error.error))
  }

  /** Books that are fully settled give the result of `map`. */
  lemma SettledIsMap<A, U, E>(items: seq<A>, f: A -> Result<U, E>, cut: E -> E, settled: set<nat>,
                              outputs: seq<Option<U>>, firstError: Option<(nat, E)>)
    requires Books(items, f, cut, settled, outputs, firstError)
    requires forall i: nat :: i < |items| ==> i in settled
    ensures firstError.Some? ==> Reports(items, f, cut, firstError.value.0, firstError.value.1)
    ensures firstError.None? ==>
              && Map(items, f).Ok? && |Map(items, f).value| == |items|
              && forall i :: 0 <= i < |items| ==> outputs[i] == Some(Map(items, f).value[i])
  {
    forall i: nat | i < |items| ensures Settled(items, f, outputs, firstError, i) { assert i in settled; }
    MapExact(items, f);
    if firstError.Some? {
      forall j: nat | j < firstError.value.0 ensures f(items[j]).Ok? {
        assert Settled(items, f, outputs, firstError, j);
      }
      FirstErrorDecides(items, f, firstError.value.0);
    } else {
      forall j: nat | j < |items| ensures f(items[j]).Ok? {
        assert Settled(items, f, outputs, firstError, j);
      }
      forall j: nat | j < |items| ensures outputs[j] == Some(Map(items, f).value[j]) {
        assert Settled(items, f, outputs, firstError, j);
      }
    }
  }

  lemma {:induction false} TakeNext<A(!new)>(items: seq<A>, pending: seq<Chunk<A>>, start: nat)
    requires Rest(items, pending, start)
    ensures start == RestStart(|items|, pending) <= |items|
    ensures pending != [] ==> Rest(items, pending[1..], RestStart(|items|, pending[1..]))
    ensures pending != [] ==> RestStart(|items|, pending[1..]) == start + |pending[0].items| <= |items|
  {
    if pending != [] {
      var rest, next := pending[1..], start + |pending[0].items|;
      assert Rest(items, rest, next);
      assert next == RestStart(|items|, rest);
    }
  }

  lemma {:induction false} RestAppend<A(!new)>(items: seq<A>, more: seq<A>, pending: seq<Chunk<A>>, start: nat)
    requires Rest(items, pending, start) && more != []
    ensures Rest(items + more, pending + [Chunk(|items|, more)], start)
    decreases |pending|
  {
    if pending == [] {
      assert (pending + [Chunk(|items|, more)])[1..] == [];
    } else {
      assert (pending + [Chunk(|items|, more)])[1..] == pending[1..] + [Chunk(|items|, more)];
      RestAppend(items, more, pending[1..], start + |pending[0].items|);
    }
  }

  /** Cuts the input into batches, in order. */
  method Cut<A(!new)>(items: seq<A>, batchSize: nat) returns (pending: seq<Chunk<A>>)
    requires batchSize > 0
    ensures Rest(items, pending, 0)
    ensures forall k :: 0 <= k < |pending| ==> |pending[k].items| <= batchSize
  {
    pending := [];
    var start := 0;
    while start < |items|
      invariant start <= |items| && Rest(items[..start], pending, 0)
      invariant forall k :: 0 <= k < |pending| ==> |pending[k].items| <= batchSize
    {
      var end := if start + batchSize <= |items| then start + batchSize else |items|;
      RestAppend(items[..start], items[start..end], pending, 0);
      assert items[..start] + items[start..end] == items[..end];
      pending := pending + [Chunk(start, items[start..end])];
      start := end;
    }
    assert items[..start] == items;
  }

  class PmapFuture<A(!new), U, E> {
    const items: seq<A>
    const f: A -> Result<U, E>
    const cut: E -> E
    const limit: nat
    const batches: nat
    const world: World
    var log: seq<Event>
    var pending: seq<Chunk<A>>
    var slots: seq<Chunk<A>>
    var outputs: seq<Option<U>>
    var firstError: Option<(nat, E)>
    var peak: nat
    var submissions: nat
    var done: bool

    ghost predicate Valid()
      reads this
    {
      var bound := RestStart(|items|, pending);
      && submissions + |pending| == batches && Truthful(world, log)
      && limit > 0 && |slots| <= limit && peak <= limit && |slots| <= peak
      && Rest(items, pending, bound)
      && SlotsGood(items, slots, bound)
      && bound <= |items| && Books(items, f, cut, Answered(slots, bound), outputs, firstError)
    }

    constructor (items: seq<A>, f: A -> Result<U, E>, cut: E -> E, limit: nat, pending: seq<Chunk<A>>, world: World)
      requires limit > 0 && Rest(items, pending, 0)
      ensures this.world == world && log == []
      ensures Valid() && !done && this.items == items && this.f == f && this.cut == cut && this.limit == limit
      ensures batches == |pending|
      ensures this.pending == pending && slots == [] && peak == 0
    {
      TakeNext(items, pending, 0);
      this.items, this.f, this.cut, this.limit, this.pending := items, f, cut, limit, pending;
      this.batches, this.world, this.log := |pending|, world, [];
      this.slots := [];
      this.outputs := seq(|items|, _ => None);
      this.firstError := None;
      this.peak, this.submissions, this.done := 0, 0, false;
    }

    /** Submits batches until the limit; `false` when the runtime refuses one. */
    method Submit() returns (ok: bool)
      requires Valid()
      modifies this`pending, this`slots, this`peak, this`submissions, this`log
      ensures Truthful(world, log) && if ok then Smooth(old(log), log) else Refused(old(log), log)
      ensures |slots| + |pending| <= old(|slots| + |pending|)
      ensures ok ==> Valid() && (|slots| == limit || pending == [])
      ensures ok ==> submissions == old(submissions) + |slots| - old(|slots|)
      ensures peak <= limit
    {
      while |slots| < limit && pending != []
        invariant Valid() && Smooth(old(log), log)
        invariant |slots| + |pending| == old(|slots| + |pending|)
        invariant submissions - |slots| == old(submissions - |slots|)
        decreases |pending|
      {
        ghost var bound := RestStart(|items|, pending);
        ghost var was := slots;
        TakeNext(items, pending, bound);
        var chunk := pending[0];
        pending := pending[1..];
        var accepted := world.accepts(chunk.start, |log|);
        LogMore(world, old(log), log, Asked(chunk.start, accepted));
        log := log + [Asked(chunk.start, accepted)];
        if !accepted { return false; }
        slots := slots + [chunk];
        if |slots| > peak { peak := |slots|; }
        submissions := submissions + 1;
        forall i: nat ensures InSlots(slots, i) <==> InSlots(was, i) || Covers(chunk, i) {
          if InSlots(was, i) {
            var k :| 0 <= k < |was| && Covers(was[k], i);
            assert slots[k] == was[k];
          }
          if Covers(chunk, i) { assert slots[|was|] == chunk; }
        }
        assert Answered(slots, bound + |chunk.items|) == Answered(was, bound);
      }
      return true;
    }

    /** Stores the reply to a batch that has just left its slot; the error branch for an index that is
        out of range or already stored is never taken. */
    method Store(chunk: Chunk<A>, reply: seq<Result<U, E>>, ghost settled: set<nat>) returns (ok: bool)
      requires Stretch(items, chunk)
      requires forall i: nat :: Covers(chunk, i) ==> i !in settled
      requires Books(items, f, cut, settled, outputs, firstError)
      requires |reply| == |chunk.items| && forall k :: 0 <= k < |reply| ==> Says(cut, f(chunk.items[k]), reply[k])
      modifies this`outputs, this`firstError
      ensures ok
      ensures Books(items, f, cut, settled + Span(chunk.start, |chunk.items|), outputs, firstError)
    {
      for offset := 0 to |chunk.items|
        invariant Books(items, f, cut, settled + Span(chunk.start, offset), outputs, firstError)
      {
        ghost var now := settled + Span(chunk.start, offset);
        var index := chunk.start + offset;
        assert Covers(chunk, index) && chunk.items[offset] == items[index];
        StoreItemSettles(items, f, cut, now, index, reply[offset], outputs, firstError);
        assert now + {index} == settled + Span(chunk.start, offset + 1);
        match reply[offset] {
          case Ok(value) =>
            if index >= |outputs| || outputs[index].Some? { return false; }
            outputs := outputs[index := Some(value)];
          case Err(message) =>
            if firstError.None? || index < firstError.value.0 { firstError := Some((index, message)); }
        }
      }
      return true;
    }

    /** The registered handler's reply to a batch, run here or elsewhere. */
    method Reply(chunk: Chunk<A>, remote: bool) returns (reply: seq<Result<U, E>>)
      ensures |reply| == |chunk.items| && forall k :: 0 <= k < |reply| ==> Says(cut, f(chunk.items[k]), reply[k])
    {
      reply := [];
      for k := 0 to |chunk.items|
        invariant |reply| == k && forall j :: 0 <= j < k ==> Says(cut, f(chunk.items[j]), reply[j])
      {
        var result := f(chunk.items[k]);
        reply := reply + [if remote && result.Err? then Err(cut(result.error)) else result];
      }
    }

    /** Takes a ready batch out of its slot and stores its reply. */
    method Settle(i: nat, remote: bool) returns (ok: bool)
      requires Valid() && i < |slots|
      modifies this`slots, this`outputs, this`firstError
      ensures ok && Valid() && |slots| == old(|slots|) - 1
    {
      ghost var before := slots;
      var chunk := slots[i];
      slots := slots[i := slots[|slots| - 1]][..|slots| - 1];
      ghost var bound := RestStart(|items|, pending);
      SwapRemoved(items, before, i, bound);
      var reply := Reply(chunk, remote);
      ok := Store(chunk, reply, Answered(before, bound));
    }

    /** Polls every slot once; a ready one is swapped out and its reply stored. */
    method Scan() returns (progress: bool, failure: Option<AlgorithmError<E>>)
      requires Valid()
      modifies this`slots, this`outputs, this`firstError, this`log
      ensures Truthful(world, log) && if failure.None? then Smooth(old(log), log) else Refused(old(log), log)
      ensures failure.None? && !progress ==> AllWaiting(old(log), log, slots)
      ensures failure.None? ==> Valid()
      ensures |slots| <= old(|slots|) && (failure.None? && progress ==> |slots| < old(|slots|))
      ensures failure != Some(Protocol)
      ensures failure.Some? ==> failure == Some(Runtime)
      ensures failure.None? && !progress ==> slots == old(slots)
    {
      progress, failure := false, None;
      log := log + [Turn];
      ghost var turn := log;
      var i := 0;
      while i < |slots|
        invariant Valid() && i <= |slots| <= old(|slots|)
        invariant if progress then |slots| < old(|slots|) else slots == old(slots)
        invariant Smooth(old(log), log) && |turn| <= |log| && log[..|turn|] == turn
        invariant !progress ==> |log| == |turn| + i && forall k: nat :: k < i ==> log[|turn| + k] == Looked(slots[k].start, Waiting)
        decreases |slots| - i
      {
        var look := world.look(slots[i].start, |log|);
        LogMore(world, old(log), log, Looked(slots[i].start, look));
        log := log + [Looked(slots[i].start, look)];
        if look.Waiting? {
          i := i + 1;
        } else if look.Broken? {
          return progress, Some(Runtime);
        } else {
          progress := true;
          var ok := Settle(i, look.remote);
          if !ok { return progress, Some(Protocol); }
        }
      }
    }

    /** The last part of a poll, when every batch has been answered. */
    method Finish() returns (result: Result<seq<U>, AlgorithmError<E>>)
      requires Valid() && pending == [] && slots == []
      ensures IsMap(items, f, cut, result)
    {
      SettledIsMap(items, f, cut, Answered(slots, |items|), outputs, firstError);
      if firstError.Some? { return Err(Callback(firstError.value.0, firstError.value.1)); }
      var out: seq<U> := [];
      for k := 0 to |outputs|
        invariant out == Map(items, f).value[..k]
      {
        if outputs[k].None? { return Err(Protocol); }
        out := out + [outputs[k].value];
      }
      assert out == Map(items, f).value;
      return Ok(out);
    }

    /** One poll of the controller. It ends with the runtime's error exactly when the runtime refuses a batch or fails a
        future in this poll. Otherwise it stays pending exactly when a batch is still out, with a full window, after a turn
        in which no polled future was ready, and else ends with the result of `map`; it does not stay pending when every
        batch is accepted and every future is ready. */
    method Advance() returns (r: Poll<U, E>)
      requires Valid() && !done
      modifies this
      ensures if r == Ready(Err(Runtime)) then Refused(old(log), log) else Smooth(old(log), log)
      ensures r.Pending? <==> !Refused(old(log), log) && slots != []
      ensures r.Pending? ==> Valid() && !done && AllWaiting(old(log), log, slots) && (|slots| == limit || pending == [])
      ensures r.Ready? ==> done
      ensures r.Ready? && r != Ready(Err(Runtime)) ==> pending == [] && submissions == batches && IsMap(items, f, cut, r.result)
      ensures Prompt(world, |old(log)|) ==> r.Ready? && IsMap(items, f, cut, r.result)
      ensures peak <= limit
    {
      while true
        invariant Valid() && !done && Smooth(old(log), log)
        decreases |slots| + |pending|
      {
        ghost var before := log;
        var ok := Submit();
        LogJoins(old(log), before, log);
        if !ok {
          done := true;
          PromptAnswers(world, old(log), log, slots);
          return Ready(Err(Runtime));
        }
        before := log;
        var progress, failure := Scan();
        LogJoins(old(log), before, log);
        PromptAnswers(world, old(log), log, slots);
        if failure.Some? {
          done := true;
          return Ready(Err(failure.value));
        }
        if pending == [] && slots == [] {
          done := true;
          var result := Finish();
          return Ready(result);
        }
        if !progress { return Pending; }
      }
    }
  }

  /** What happens after a smooth stretch decides. */
  lemma LogJoins(before: seq<Event>, middle: seq<Event>, after: seq<Event>)
    requires Smooth(before, middle) && (Smooth(middle, after) || Refused(middle, after))
    ensures Smooth(middle, after) ==> Smooth(before, after)
    ensures Refused(middle, after) ==> Refused(before, after)
  {
    if Smooth(middle, after) { SmoothJoins(before, middle, after); }
    if Refused(middle, after) { SmoothJoins(before, middle, after[..|after| - 1]); }
  }

  lemma SmoothJoins(before: seq<Event>, middle: seq<Event>, after: seq<Event>)
    requires Smooth(before, middle) && Smooth(middle, after)
    ensures Smooth(before, after)
  {
    assert after[..|before|] == after[..|middle|][..|before|];
    forall k | |before| <= k < |after| ensures !Refusal(after[k]) {
      if k < |middle| { assert after[k] == after[..|middle|][k]; }
    }
  }

  /** The result is that of `map`: its outputs, or the error it stops at in the text a reply carries. */
  ghost predicate IsMap<A, U, E>(items: seq<A>, f: A -> Result<U, E>, cut: E -> E, result: Result<seq<U>, AlgorithmError<E>>) {
    match result
    case Ok(outputs) => Map(items, f) == Ok(outputs)
    case Err(error) => error.Callback? && Reports(items, f, cut, error.index, error.message)
  }

  /** Swapping a slot out leaves exactly the others. */
  lemma SwapRemoved<A(!new)>(items: seq<A>, before: seq<Chunk<A>>, k: nat, bound: nat)
    requires k < |before| && SlotsGood(items, before, bound)
    ensures var slots := before[k := before[|before| - 1]][..|before| - 1];
            && SlotsGood(items, slots, bound)
            && (forall i: nat :: Covers(before[k], i) ==> i !in Answered(before, bound))
            && Answered(slots, bound) ==
               Answered(before, bound) + Span(before[k].start, |before[k].items|)
  {
    var last := |before| - 1;
    var slots := before[k := before[last]][..last];
    assert forall j :: 0 <= j < last ==> slots[j] == before[if j == k then last else j];
    forall i: nat ensures InSlots(before, i) <==> InSlots(slots, i) || Covers(before[k], i) {
      if InSlots(before, i) {
        var j :| 0 <= j < |before| && Covers(before[j], i);
        if j == last && k < last { assert slots[k] == before[last]; } else if j != k { assert slots[j] == before[j]; }
      }
    }
  }
}
