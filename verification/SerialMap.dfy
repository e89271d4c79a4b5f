/** The sequential `map` of src/map.rs and the rank-local execution modes of src/local.rs. */
module SerialMap {
  import opened Wrappers

  datatype MapError<E> = MapError(index: nat, error: E)

  /** Result of applying `f` left to right and stopping at the first error. */
  function Map<T, U, E>(items: seq<T>, f: T -> Result<U, E>): Result<seq<U>, MapError<E>> {
    if items == [] then Ok([])
    else
      var front := Map(items[..|items| - 1], f);
      if front.Err? then front
      else
        match f(items[|items| - 1])
        case Ok(value) => Ok(front.value + [value])
        case Err(error) => Err(MapError(|items| - 1, error))
  }

  /** `map` as it runs: it pushes results and returns at the first error. */
  method MapLoop<T, U, E>(items: seq<T>, f: T -> Result<U, E>) returns (r: Result<seq<U>, MapError<E>>)
    ensures r == Map(items, f)
  {
    var output: seq<U> := [];
    for index := 0 to |items|
      invariant Map(items[..index], f) == Ok(output)
    {
      assert items[..index + 1][..index] == items[..index];
      match f(items[index]) {
        case Ok(value) => output := output + [value];
        case Err(error) =>
          MapExact(items[..index], f);
          assert forall j :: 0 <= j < index ==> items[j] == items[..index][j];
          FirstErrorDecides(items, f, index);
          return Err(MapError(index, error));
      }
    }
    assert items[..|items|] == items;
    return Ok(output);
  }

  lemma {:induction false} FirstErrorDecides<T, U, E>(items: seq<T>, f: T -> Result<U, E>, k: nat)
    requires k < |items| && f(items[k]).Err?
    requires forall j :: 0 <= j < k ==> f(items[j]).Ok?
    ensures Map(items, f) == Err(MapError(k, f(items[k]).error))
    decreases |items|
  {
    if k < |items| - 1 {
      FirstErrorDecides(items[..|items| - 1], f, k);
    } else {
      MapExact(items[..|items| - 1], f);
    }
  }

  /** `map` succeeds exactly when every call does, with the values in input order, and otherwise
      names the lowest failing index. */
  lemma {:induction false} MapExact<T, U, E>(items: seq<T>, f: T -> Result<U, E>)
    ensures Map(items, f).Ok? <==> forall k :: 0 <= k < |items| ==> f(items[k]).Ok?
    ensures Map(items, f).Ok? ==>
              |Map(items, f).value| == |items| &&
              forall k :: 0 <= k < |items| ==> f(items[k]) == Ok(Map(items, f).value[k])
    ensures Map(items, f).Err? ==>
              var e := Map(items, f).error;
              && e.index < |items| && f(items[e.index]) == Err(e.error)
              && forall k :: 0 <= k < e.index ==> f(items[k]).Ok?
  {
    if items != [] {
      MapExact(items[..|items| - 1], f);
      var front := items[..|items| - 1];
      assert forall k :: 0 <= k < |front| ==> items[k] == front[k];
    }
  }

  // ----- local modes

  datatype LocalMode = Sequential | Outer | Inner

  /** `Outer` calls `f` on every item first and then scans the results; the others run `map`. */
  function RunLocal<T, U, E>(mode: LocalMode, items: seq<T>, f: T -> Result<U, E>): Result<seq<U>, MapError<E>> {
    if mode.Outer? then
      Map(seq(|items|, k requires 0 <= k < |items| => f(items[k])), (r: Result<U, E>) => r)
    else
      Map(items, f)
  }

  /** How many items a run calls `f` on. */
  function Evaluated<T, U, E>(mode: LocalMode, items: seq<T>, f: T -> Result<U, E>): nat {
    match Map(items, f)
    case Ok(_) => |items|
    case Err(e) => if mode.Outer? then |items| else e.index + 1
  }

  /** The mode decides which callbacks run, never the outcome. */
  lemma ModesAgree<T, U, E>(mode: LocalMode, items: seq<T>, f: T -> Result<U, E>)
    ensures RunLocal(mode, items, f) == Map(items, f)
  {
    if mode.Outer? {
      var results := seq(|items|, k requires 0 <= k < |items| => f(items[k]));
      var id := (r: Result<U, E>) => r;
      MapExact(items, f);
      MapExact(results, id);
      if Map(items, f).Ok? {
        assert forall k :: 0 <= k < |items| ==> id(results[k]) == f(items[k]);
        assert Map(results, id).Ok?;
        assert Map(results, id).value == Map(items, f).value;
      } else {
        var e := Map(items, f).error;
        assert id(results[e.index]) == f(items[e.index]);
        FirstErrorDecides(results, id, e.index);
      }
    }
  }
}
