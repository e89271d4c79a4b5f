/** Error keys of src/wire.rs and the convergence of src/pmap.rs: how all ranks agree on one error. */
module ErrorKeys {
  import opened Wrappers

  const NO_ERROR_KEY: int := 0x7FFF_FFFF_FFFF_FFFF

  datatype Class = WireProtocol | Callback | DrainFault

  datatype WireError = InvalidWorldSize | InvalidRank | ErrorKeyOverflow

  function Code(class_: Class): (code: nat)
    ensures code < 3
  {
    match class_
    case WireProtocol => 0
    case Callback => 1
    case DrainFault => 2
  }

  /** The unchecked 128-bit value; all operands are below 2^64, so it never wraps. */
  function Raw(task: nat, class_: Class, rank: nat, size: nat): (raw: nat) {
    (task * 3 + Code(class_)) * size + rank
  }

  function New(task: nat, class_: Class, rank: int, size: int): Result<int, WireError> {
    if size <= 0 then Err(InvalidWorldSize)
    else if rank < 0 || rank >= size then Err(InvalidRank)
    else if Raw(task, class_, rank, size) >= NO_ERROR_KEY then Err(ErrorKeyOverflow)
    else Ok(Raw(task, class_, rank, size))
  }

  lemma MulAtLeast(k: int, d: int)
    requires k >= 1 && d >= 0
    ensures k * d >= d
  {
    var m := k - 1;
    assert m * d >= 0;
    assert (m + 1) * d == m * d + d;
  }

  lemma SmallMultiple(k: int, d: int)
    requires -d < k * d < d
    ensures k == 0
  {
    if k >= 1 { MulAtLeast(k, d); }
    if k <= -1 { MulAtLeast(-k, d); }
  }

  /** Division with remainder is unique. */
  lemma DivMod(q: int, r: int, d: int)
    requires 0 <= r < d
    ensures (q * d + r) % d == r && (q * d + r) / d == q
  {
    var n := q * d + r;
    var p := n / d;
    assert n == p * d + n % d;
    assert (q - p) * d == q * d - p * d;
    SmallMultiple(q - p, d);
  }

  /** A key gives its rank back by modulo and stays below the no-error key. */
  lemma KeyNamesRank(task: nat, class_: Class, rank: int, size: int)
    requires New(task, class_, rank, size).Ok?
    ensures 0 <= New(task, class_, rank, size).value < NO_ERROR_KEY
    ensures New(task, class_, rank, size).value % size == rank
  {
    DivMod(task * 3 + Code(class_), rank, size);
  }

  /** A key is made exactly for a rank of a nonempty world whose value stays below the no-error key. */
  lemma KeyIsMade(task: nat, class_: Class, rank: int, size: int)
    ensures New(task, class_, rank, size).Ok? <==>
            0 <= rank < size && (task * 3 + Code(class_)) * size + rank < NO_ERROR_KEY
    ensures New(task, class_, rank, size).Err? ==>
              New(task, class_, rank, size).error
              == if size <= 0 then InvalidWorldSize else if 0 <= rank < size then ErrorKeyOverflow else InvalidRank
  {
  }

  predicate Lexicographic(t1: nat, c1: Class, r1: int, t2: nat, c2: Class, r2: int) {
    t1 < t2 || (t1 == t2 && (Code(c1) < Code(c2) || (Code(c1) == Code(c2) && r1 < r2)))
  }

  lemma BlockOrder(a: int, r1: int, b: int, r2: int, size: int)
    requires 0 <= r1 < size && 0 <= r2 < size && a < b
    ensures a * size + r1 < b * size + r2
  {
    MulAtLeast(b - a, size);
    assert (b - a) * size == b * size - a * size;
  }

  /** Keys compare as (task, class, rank) does; in particular they are injective. */
  lemma KeyOrder(t1: nat, c1: Class, r1: int, t2: nat, c2: Class, r2: int, size: int)
    requires New(t1, c1, r1, size).Ok? && New(t2, c2, r2, size).Ok?
    ensures New(t1, c1, r1, size).value < New(t2, c2, r2, size).value <==> Lexicographic(t1, c1, r1, t2, c2, r2)
    ensures New(t1, c1, r1, size).value == New(t2, c2, r2, size).value <==> t1 == t2 && c1 == c2 && r1 == r2
  {
    var a, b := t1 * 3 + Code(c1), t2 * 3 + Code(c2);
    if a < b { BlockOrder(a, r1, b, r2, size); }
    if b < a { BlockOrder(b, r2, a, r1, size); }
  }

  // ----- convergence

  /** What one rank brings to the reduction: its key (NO_ERROR_KEY if none) and its recorded error. */
  datatype Local<M> = Local(key: int, error: Option<M>)

  /** The all-reduce minimum over the ranks. */
  function MinKey<M>(ranks: seq<Local<M>>): int
    requires ranks != []
  {
    if |ranks| == 1 then ranks[0].key
    else
      var rest := MinKey(ranks[1..]);
      if ranks[0].key <= rest then ranks[0].key else rest
  }

  lemma {:induction false} MinKeyIsLeast<M>(ranks: seq<Local<M>>)
    requires ranks != []
    ensures forall r :: 0 <= r < |ranks| ==> MinKey(ranks) <= ranks[r].key
    ensures exists r :: 0 <= r < |ranks| && ranks[r].key == MinKey(ranks)
  {
    if |ranks| > 1 {
      MinKeyIsLeast(ranks[1..]);
      var k :| 0 <= k < |ranks[1..]| && ranks[1..][k].key == MinKey(ranks[1..]);
      assert ranks[k + 1].key == MinKey(ranks[1..]);
      forall r | 0 <= r < |ranks| ensures MinKey(ranks) <= ranks[r].key {
        if r > 0 { assert ranks[r] == ranks[1..][r - 1]; }
      }
      assert MinKey(ranks) == ranks[0].key || MinKey(ranks) == ranks[k + 1].key;
    } else {
      assert ranks[0].key == MinKey(ranks);
    }
  }

  datatype Agreement<M> = NoError | Agreed(key: int, error: Option<M>) | Aborted

  /** What broadcast_error gives rank `rank`: the winner is read off the selected key, sends its
      error, and every rank takes that one. A winner that does not own the key aborts the run. */
  function BroadcastError<M>(ranks: seq<Local<M>>, rank: nat): Agreement<M>
    requires rank < |ranks|
  {
    var selected := MinKey(ranks);
    if selected == NO_ERROR_KEY then NoError
    else if selected < 0 then Aborted
    else
      var winner := selected % |ranks|;
      if ranks[winner].key != selected then Aborted
      else Agreed(selected, ranks[winner].error)
  }

  /** Each rank's key is its own: no error, or a key made for that rank. */
  predicate OwnKeys<M>(ranks: seq<Local<M>>) {
    forall r :: 0 <= r < |ranks| ==>
      ranks[r].key == NO_ERROR_KEY || (0 <= ranks[r].key < NO_ERROR_KEY && ranks[r].key % |ranks| == r)
  }

  /** All ranks get the same answer, no rank aborts, an error is reported exactly when some rank has
      one, and it is the lowest key, sent by the rank that recorded it. */
  lemma RanksAgree<M>(ranks: seq<Local<M>>, rank: nat)
    requires rank < |ranks| && OwnKeys(ranks)
    ensures BroadcastError(ranks, rank) != Aborted
    ensures BroadcastError(ranks, rank) == BroadcastError(ranks, 0)
    ensures BroadcastError(ranks, rank) == NoError <==> forall r :: 0 <= r < |ranks| ==> ranks[r].key == NO_ERROR_KEY
    ensures BroadcastError(ranks, rank).Agreed? ==>
              var a := BroadcastError(ranks, rank);
              && ranks[a.key % |ranks|] == Local(a.key, a.error)
              && forall r :: 0 <= r < |ranks| ==> a.key <= ranks[r].key
  {
    MinKeyIsLeast(ranks);
  }

  /** When the lowest key does not belong to the rank that it names, every rank aborts, and none takes a foreign error. */
  lemma ForeignKeyAborts<M>(ranks: seq<Local<M>>, rank: nat, holder: nat)
    requires rank < |ranks| && holder < |ranks| && ranks[holder].key != NO_ERROR_KEY
    requires forall q :: 0 <= q < |ranks| ==> ranks[holder].key <= ranks[q].key
    requires ranks[holder].key < 0 || ranks[ranks[holder].key % |ranks|].key != ranks[holder].key
    ensures BroadcastError(ranks, rank) == Aborted
  {
    MinKeyIsLeast(ranks);
  }
}
