/** Fixed-width little-endian integers, written to and read from byte strings. */
module Bytes {
  import opened Wrappers

  type byte = x: int | 0 <= x < 256

  const U64: nat := 0x1_0000_0000_0000_0000

  function Pow256(width: nat): (r: nat)
    ensures r > 0
  {
    if width == 0 then 1 else 256 * Pow256(width - 1)
  }

  /** `to_le_bytes` for an integer of `width` bytes. */
  function LE(n: nat, width: nat): (r: seq<byte>)
    ensures |r| == width
  {
    if width == 0 then [] else [n % 256] + LE(n / 256, width - 1)
  }

  /** `from_le_bytes`. */
  function UnLE(bytes: seq<byte>): nat {
    if bytes == [] then 0 else bytes[0] + 256 * UnLE(bytes[1..])
  }

  lemma {:induction false} ReadsWhatWasWritten(n: nat, width: nat)
    requires n < Pow256(width)
    ensures UnLE(LE(n, width)) == n
  {
    if width > 0 {
      ReadsWhatWasWritten(n / 256, width - 1);
      assert LE(n, width)[1..] == LE(n / 256, width - 1);
    }
  }

  lemma {:induction false} WritesWhatWasRead(bytes: seq<byte>)
    ensures UnLE(bytes) < Pow256(|bytes|)
    ensures LE(UnLE(bytes), |bytes|) == bytes
  {
    if bytes != [] {
      WritesWhatWasRead(bytes[1..]);
      assert UnLE(bytes) / 256 == UnLE(bytes[1..]) && UnLE(bytes) % 256 == bytes[0];
      assert bytes == [bytes[0]] + bytes[1..];
    }
  }

  lemma Widths()
    ensures Pow256(1) == 0x100 && Pow256(4) == 0x1_0000_0000 && Pow256(8) == U64
    ensures Pow256(16) == U64 * U64
  {
    assert Pow256(1) == 256 && Pow256(2) == 65536 && Pow256(4) == 0x1_0000_0000;
    assert Pow256(6) == 0x1_0000_0000_0000 && Pow256(8) == U64;
    assert Pow256(10) == 0x1_0000 * U64 && Pow256(12) == 0x1_0000_0000 * U64;
    assert Pow256(14) == 0x1_0000_0000_0000 * U64;
  }

  /** Reads one integer and gives back the bytes after it. */
  function Take(bytes: seq<byte>, width: nat): Option<(nat, seq<byte>)> {
    if |bytes| < width then None else Some((UnLE(bytes[..width]), bytes[width..]))
  }

  lemma TakeAfterPut(n: nat, width: nat, rest: seq<byte>)
    requires n < Pow256(width)
    ensures Take(LE(n, width) + rest, width) == Some((n, rest))
  {
    ReadsWhatWasWritten(n, width);
    assert (LE(n, width) + rest)[..width] == LE(n, width);
    assert (LE(n, width) + rest)[width..] == rest;
  }

  lemma TakeIsPut(bytes: seq<byte>, width: nat)
    requires Take(bytes, width).Some?
    ensures var (n, rest) := Take(bytes, width).value;
            n < Pow256(width) && bytes == LE(n, width) + rest
  {
    WritesWhatWasRead(bytes[..width]);
    assert bytes == bytes[..width] + bytes[width..];
  }

  // ----- lists of 8-byte integers

  function PutAll(numbers: seq<nat>): seq<byte> {
    if numbers == [] then [] else LE(numbers[0], 8) + PutAll(numbers[1..])
  }

  lemma {:induction false} PutAllAppend(numbers: seq<nat>, n: nat)
    ensures PutAll(numbers + [n]) == PutAll(numbers) + LE(n, 8)
  {
    if numbers == [] {
      assert PutAll([n]) == LE(n, 8) + PutAll([]);
    } else {
      assert (numbers + [n])[1..] == numbers[1..] + [n];
      PutAllAppend(numbers[1..], n);
    }
  }

  function TakeAll(bytes: seq<byte>, n: nat): Option<(seq<nat>, seq<byte>)> {
    if n == 0 then Some(([], bytes))
    else
      match Take(bytes, 8)
      case None => None
      case Some((first, rest)) =>
        match TakeAll(rest, n - 1)
        case None => None
        case Some((others, left)) => Some(([first] + others, left))
  }

  lemma {:induction false} TakeAllAfterPut(numbers: seq<nat>, rest: seq<byte>)
    requires forall j :: 0 <= j < |numbers| ==> numbers[j] < U64
    ensures TakeAll(PutAll(numbers) + rest, |numbers|) == Some((numbers, rest))
  {
    if numbers == [] {
      assert PutAll(numbers) + rest == rest;
    } else {
      Widths();
      var more := PutAll(numbers[1..]) + rest;
      assert PutAll(numbers) + rest == LE(numbers[0], 8) + more;
      TakeAfterPut(numbers[0], 8, more);
      TakeAllAfterPut(numbers[1..], rest);
      assert [numbers[0]] + numbers[1..] == numbers;
    }
  }

  lemma {:induction false} TakeAllIsPut(bytes: seq<byte>, n: nat)
    requires TakeAll(bytes, n).Some?
    ensures var (numbers, rest) := TakeAll(bytes, n).value;
            && |numbers| == n && bytes == PutAll(numbers) + rest
            && forall j :: 0 <= j < n ==> numbers[j] < U64
    decreases n
  {
    if n > 0 {
      Widths();
      TakeIsPut(bytes, 8);
      var (first, rest) := Take(bytes, 8).value;
      TakeAllIsPut(rest, n - 1);
      var (others, left) := TakeAll(rest, n - 1).value;
      assert ([first] + others)[1..] == others;
      assert LE(first, 8) + (PutAll(others) + left) == PutAll([first] + others) + left;
    }
  }
}
