/** Shared vocabulary: machine-integer bounds, byte strings and the two
    failure-carrying datatypes used by every other module. */
module Common {

  /** One past the largest `u64`. */
  const U64: nat := 0x1_0000_0000_0000_0000
  /** One past the largest `u32`. */
  const U32: nat := 0x1_0000_0000

  type byte = x: int | 0 <= x < 256
  type Bytes = seq<byte>

  datatype Option<+T> = None | Some(value: T)

  datatype Result<+T, +E> = Ok(value: T) | Err(error: E)

  function Min(a: int, b: int): int {
    if a <= b then a else b
  }

  function Max(a: int, b: int): int {
    if a <= b then b else a
  }

  /** `a.saturating_sub(b)` on an unsigned type. */
  function SaturatingSub(a: nat, b: nat): nat {
    if b <= a then a - b else 0
  }

  /** `a.wrapping_sub(b)` on `u64`. */
  function WrappingSub(a: nat, b: nat): nat {
    (a - b) % U64
  }

  /** `a.wrapping_add(b)` on `u64`. */
  function WrappingAdd(a: nat, b: nat): nat {
    (a + b) % U64
  }

  function Zeros(n: nat): (z: Bytes)
    ensures |z| == n && forall i :: 0 <= i < n ==> z[i] == 0
  {
    seq(n, i => 0)
  }

  /** Position of the first entry equal to x. */
  function Position<T(==)>(s: seq<T>, x: T): (r: Option<nat>)
    ensures r.None? <==> x !in s
    ensures r.Some? ==> r.value < |s| && s[r.value] == x && x !in s[..r.value]
  {
    if s == [] then None
    else if s[0] == x then Some(0)
    else match Position(s[1..], x)
      case None => None
      case Some(i) => assert s[..i + 1] == [s[0]] + s[1..][..i]; Some(i + 1)
  }

  lemma {:induction false} PositionUnique<T>(s: seq<T>, x: T, i: nat)
    requires i < |s| && s[i] == x && x !in s[..i]
    ensures Position(s, x) == Some(i)
  {
    var j := Position(s, x).value;
    assert forall k :: 0 <= k < i ==> s[..i][k] != x;
    assert forall k :: 0 <= k < j ==> s[..j][k] != x;
  }
}
