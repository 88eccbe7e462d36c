/** `u64` words as naturals below 2^64: the shift and or operators of the
    source, and the one question the model asks of a word, "is bit j set". */
module Words {
  import opened Common
  import opened Quotients

  /** Logical right shift; for an unsigned word one position is one halving. */
  function ShiftRight(w: nat, n: nat): nat
    decreases n
  {
    if n == 0 then w else ShiftRight(w / 2, n - 1)
  }

  /** Left shift on `u64`: what leaves the top is dropped. */
  function ShiftLeft(w: nat, n: nat): nat
    decreases n
  {
    if n == 0 then w else ShiftLeft((2 * w) % U64, n - 1)
  }

  /** Bitwise or. */
  function Or(a: nat, b: nat): nat {
    if a == 0 then b
    else if b == 0 then a
    else 2 * Or(a / 2, b / 2) + Max(a % 2, b % 2)
  }

  /** `(w >> j) & 1 == 1`. */
  predicate Bit(w: nat, j: nat) {
    ShiftRight(w, j) % 2 == 1
  }

  function Pow2(n: nat): (p: nat)
    ensures p >= 1
  {
    if n == 0 then 1 else 2 * Pow2(n - 1)
  }

  lemma {:induction false} ShiftRightZero(n: nat)
    ensures ShiftRight(0, n) == 0
  {
    if n > 0 {
      ShiftRightZero(n - 1);
    }
  }

  lemma {:induction false} ShiftRightAdd(w: nat, s: nat, j: nat)
    ensures ShiftRight(ShiftRight(w, s), j) == ShiftRight(w, s + j)
    decreases s
  {
    if s > 0 {
      ShiftRightAdd(w / 2, s - 1, j);
    }
  }

  /** A word below 2^k has no bit at or past k. */
  lemma {:induction false} BitBeyond(w: nat, k: nat, j: nat)
    requires w < Pow2(k) && k <= j
    ensures !Bit(w, j)
    decreases k
  {
    if k == 0 {
      ShiftRightZero(j);
    } else {
      BitBeyond(w / 2, k - 1, j - 1);
    }
  }

  lemma {:induction false} U64IsPow2()
    ensures Pow2(64) == U64 && Pow2(63) == U64 / 2
  {
    assert Pow2(8) == 0x100;
    assert Pow2(16) == 0x1_0000;
    assert Pow2(24) == 0x100_0000;
    assert Pow2(32) == 0x1_0000_0000;
    assert Pow2(40) == 0x100_0000_0000;
    assert Pow2(48) == 0x1_0000_0000_0000;
    assert Pow2(56) == 0x100_0000_0000_0000;
    assert Pow2(63) == 0x8000_0000_0000_0000;
  }

  lemma {:induction false} BitOr(a: nat, b: nat, j: nat)
    ensures Bit(Or(a, b), j) <==> Bit(a, j) || Bit(b, j)
    decreases j
  {
    if a == 0 || b == 0 {
      ShiftRightZero(j);
    } else {
      OrHalves(a, b);
      if j > 0 {
        BitOr(a / 2, b / 2, j - 1);
      }
    }
  }

  lemma {:induction false} OrHalves(a: nat, b: nat)
    requires a != 0 && b != 0
    ensures Or(a, b) / 2 == Or(a / 2, b / 2)
    ensures Or(a, b) % 2 == 1 <==> a % 2 == 1 || b % 2 == 1
  {
  }

  lemma {:induction false} OrBelow(a: nat, b: nat, k: nat)
    requires a < Pow2(k) && b < Pow2(k)
    ensures Or(a, b) < Pow2(k)
    decreases k
  {
    if a != 0 && b != 0 {
      OrBelow(a / 2, b / 2, k - 1);
    }
  }

  lemma {:induction false} ModHalves(w: nat, q: nat)
    requires q >= 1
    ensures (w % (2 * q)) / 2 == (w / 2) % q && (w % (2 * q)) % 2 == w % 2
  {
    var d, r := w / (2 * q), w % (2 * q);
    assert w == (2 * q) * d + r == 2 * (q * d) + r;
    assert w / 2 == q * d + r / 2;
    assert 0 <= r / 2 < q;
    ModUnique(w / 2, q, d, r / 2);
  }

  /** Reducing mod 2^k keeps the bits below k. */
  lemma {:induction false} BitMod(w: nat, k: nat, j: nat)
    requires j < k
    ensures Bit(w % Pow2(k), j) <==> Bit(w, j)
    decreases j
  {
    ModHalves(w, Pow2(k - 1));
    if j > 0 {
      BitMod(w / 2, k - 1, j - 1);
    }
  }

  lemma {:induction false} BitDouble(w: nat, j: nat)
    requires j < 64
    ensures Bit((2 * w) % U64, j) <==> j > 0 && Bit(w, j - 1)
  {
    U64IsPow2();
    BitMod(2 * w, 64, j);
    assert (2 * w) / 2 == w;
  }

  /** What a right shift does to every bit. */
  lemma {:induction false} BitShiftRight(w: nat, s: nat, j: nat)
    ensures Bit(ShiftRight(w, s), j) <==> Bit(w, s + j)
  {
    ShiftRightAdd(w, s, j);
  }

  /** What a left shift does to every bit that survives. */
  lemma {:induction false} BitShiftLeft(w: nat, s: nat, j: nat)
    requires j < 64
    ensures Bit(ShiftLeft(w, s), j) <==> s <= j && Bit(w, j - s)
    decreases s
  {
    if s > 0 {
      BitShiftLeft((2 * w) % U64, s - 1, j);
      if s <= j + 1 {
        BitDouble(w, j - (s - 1));
      }
    }
  }

  lemma {:induction false} ShiftRightBelow(w: nat, s: nat)
    ensures ShiftRight(w, s) <= w
    decreases s
  {
    if s > 0 {
      ShiftRightBelow(w / 2, s - 1);
    }
  }

  lemma {:induction false} ShiftLeftBelow(w: nat, s: nat)
    requires w < U64
    ensures ShiftLeft(w, s) < U64
    decreases s
  {
    if s > 0 {
      ShiftLeftBelow((2 * w) % U64, s - 1);
    }
  }

  /** Two words with the same 64 bits are the same word. */
  lemma {:induction false} WordsWithSameBits(a: nat, b: nat, k: nat)
    requires a < Pow2(k) && b < Pow2(k)
    requires forall j :: 0 <= j < k ==> (Bit(a, j) <==> Bit(b, j))
    ensures a == b
    decreases k
  {
    if k > 0 {
      assert Bit(a, 0) <==> Bit(b, 0);
      forall j | 0 <= j < k - 1
        ensures Bit(a / 2, j) <==> Bit(b / 2, j)
      {
        assert Bit(a, j + 1) <==> Bit(b, j + 1);
      }
      WordsWithSameBits(a / 2, b / 2, k - 1);
    }
  }
}
