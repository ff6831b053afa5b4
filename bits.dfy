/**
 * Bytes as eight bits, most significant first: the view the firmware's masks
 * and the CRC's shift register work on. A byte is an int in 0..255 and its
 * bits are computed arithmetically, so bitwise and, or and xor are defined
 * bit by bit on this view.
 */
module ByteBits {
  import opened Common

  datatype Bits8 = Bits8(b7: bool, b6: bool, b5: bool, b4: bool, b3: bool, b2: bool, b1: bool, b0: bool)

  const Zero: Bits8 := Bits8(false, false, false, false, false, false, false, false)

  function Xor(a: Bits8, b: Bits8): Bits8
  {
    Bits8(a.b7 != b.b7, a.b6 != b.b6, a.b5 != b.b5, a.b4 != b.b4,
          a.b3 != b.b3, a.b2 != b.b2, a.b1 != b.b1, a.b0 != b.b0)
  }

  function Pow2(k: nat): nat
  {
    if k == 0 then 1 else 2 * Pow2(k - 1)
  }

  lemma Pow2Byte()
    ensures Pow2(8) == 256
  {
  }

  function Bit(b: bool): nat
  {
    if b then 1 else 0
  }

  /** Bit i of a register, counting from the least significant. */
  function Sel(x: Bits8, i: nat): bool
    requires i < 8
  {
    match i
    case 0 => x.b0
    case 1 => x.b1
    case 2 => x.b2
    case 3 => x.b3
    case 4 => x.b4
    case 5 => x.b5
    case 6 => x.b6
    case _ => x.b7
  }

  /** The register view of a byte. */
  function BitsOf(n: Byte): Bits8
  {
    Bits8(BitAt(n, 7), BitAt(n, 6), BitAt(n, 5), BitAt(n, 4), BitAt(n, 3), BitAt(n, 2), BitAt(n, 1), BitAt(n, 0))
  }

  /** The number the register's top k bits denote, built most significant bit first. */
  function Horner(x: Bits8, k: nat): (n: nat)
    requires k <= 8
    ensures n < Pow2(k)
  {
    if k == 0 then 0 else 2 * Horner(x, k - 1) + Bit(Sel(x, 8 - k))
  }

  /** The byte a register denotes. */
  function ByteOf(x: Bits8): Byte
  {
    Pow2Byte();
    Horner(x, 8)
  }

  /** Bit i of the number built from the top k bits is the register's bit 8 - k + i. */
  lemma {:induction false} HornerBits(x: Bits8, k: nat, i: nat)
    requires k <= 8
    ensures BitAt(Horner(x, k), i) == (i < k && Sel(x, 8 - k + i))
  {
    if k == 0 {
      BitAtZero(i);
    } else if i == 0 {
      HornerStep(x, k, 0);
    } else {
      HornerStep(x, k, i);
      HornerBits(x, k - 1, i - 1);
    }
  }

  /** The last bit appended is bit 0; the earlier ones move up by one. */
  lemma HornerStep(x: Bits8, k: nat, i: nat)
    requires 0 < k <= 8
    ensures BitAt(Horner(x, k), 0) == Sel(x, 8 - k)
    ensures i > 0 ==> BitAt(Horner(x, k), i) == BitAt(Horner(x, k - 1), i - 1)
  {
    Halves(Horner(x, k - 1), Sel(x, 8 - k));
  }

  /** Halving undoes appending a bit below a number. */
  lemma Halves(h: nat, b: bool)
    ensures (2 * h + Bit(b)) / 2 == h && ((2 * h + Bit(b)) % 2 == 1 <==> b)
  {
  }

  lemma BitsRoundTrip(x: Bits8)
    ensures BitsOf(ByteOf(x)) == x
  {
    HornerBits(x, 8, 0); HornerBits(x, 8, 1); HornerBits(x, 8, 2); HornerBits(x, 8, 3);
    HornerBits(x, 8, 4); HornerBits(x, 8, 5); HornerBits(x, 8, 6); HornerBits(x, 8, 7);
  }

  /** Byte and register views are inverse to each other. */
  lemma ByteRoundTrip(n: Byte)
    ensures ByteOf(BitsOf(n)) == n
  {
    BitsRoundTrip(BitsOf(n));
    BitsOfInjective(ByteOf(BitsOf(n)), n);
  }

  /** Bytes with the same register view are equal. */
  lemma BitsOfInjective(m: Byte, n: Byte)
    requires BitsOf(m) == BitsOf(n)
    ensures m == n
  {
    Pow2Byte();
    forall i | 0 <= i < 8
      ensures BitAt(m, i) == BitAt(n, i)
    {
      if i == 0 {
      } else if i == 1 {
      } else if i == 2 {
      } else if i == 3 {
      } else if i == 4 {
      } else if i == 5 {
      } else if i == 6 {
      } else {
      }
    }
    BitsEqual(m, n, 8);
  }

  /** Bit i of n, counting from the least significant. */
  function BitAt(n: nat, i: nat): bool
  {
    if i == 0 then n % 2 == 1 else BitAt(n / 2, i - 1)
  }

  /** Bitwise and of the k low bits of a and b. */
  function AndBits(a: nat, b: nat, k: nat): nat
  {
    if k == 0 then 0 else 2 * AndBits(a / 2, b / 2, k - 1) + (if a % 2 == 1 && b % 2 == 1 then 1 else 0)
  }

  /** Bitwise or of the k low bits of a and b. */
  function OrBits(a: nat, b: nat, k: nat): nat
  {
    if k == 0 then 0 else 2 * OrBits(a / 2, b / 2, k - 1) + (if a % 2 == 1 || b % 2 == 1 then 1 else 0)
  }

  lemma {:induction false} BitsBound(a: nat, b: nat, k: nat)
    ensures AndBits(a, b, k) < Pow2(k) && OrBits(a, b, k) < Pow2(k)
  {
    if k > 0 {
      BitsBound(a / 2, b / 2, k - 1);
    }
  }

  /** C's & on bytes. */
  function And8(a: Byte, b: Byte): Byte
  {
    BitsBound(a, b, 8);
    Pow2Byte();
    AndBits(a, b, 8)
  }

  /** C's | on bytes. */
  function Or8(a: Byte, b: Byte): Byte
  {
    BitsBound(a, b, 8);
    Pow2Byte();
    OrBits(a, b, 8)
  }

  lemma {:induction false} BitAtZero(i: nat)
    ensures !BitAt(0, i)
  {
    if i > 0 {
      BitAtZero(i - 1);
    }
  }

  /** A number below 2^k has no bit set at k or above. */
  lemma {:induction false} BitAtHigh(n: nat, k: nat, i: nat)
    requires n < Pow2(k) && i >= k
    ensures !BitAt(n, i)
  {
    if k == 0 {
      BitAtZero(i);
    } else {
      BitAtHigh(n / 2, k - 1, i - 1);
    }
  }

  /** Bit i of a and b is set exactly where it is set in both, below k. */
  lemma {:induction false} AndBitAt(a: nat, b: nat, k: nat, i: nat)
    ensures BitAt(AndBits(a, b, k), i) == (i < k && BitAt(a, i) && BitAt(b, i))
  {
    if k == 0 {
      BitAtZero(i);
    } else if i > 0 {
      AndBitAt(a / 2, b / 2, k - 1, i - 1);
    }
  }

  /** Bit i of a or b is set exactly where it is set in either, below k. */
  lemma {:induction false} OrBitAt(a: nat, b: nat, k: nat, i: nat)
    ensures BitAt(OrBits(a, b, k), i) == (i < k && (BitAt(a, i) || BitAt(b, i)))
  {
    if k == 0 {
      BitAtZero(i);
    } else if i > 0 {
      OrBitAt(a / 2, b / 2, k - 1, i - 1);
    }
  }

  /** Two numbers below 2^k with the same k low bits are equal. */
  lemma {:induction false} BitsEqual(m: nat, n: nat, k: nat)
    requires m < Pow2(k) && n < Pow2(k)
    requires forall i :: 0 <= i < k ==> BitAt(m, i) == BitAt(n, i)
    ensures m == n
  {
    if k > 0 {
      assert BitAt(m, 0) == BitAt(n, 0);
      forall i | 0 <= i < k - 1
        ensures BitAt(m / 2, i) == BitAt(n / 2, i)
      {
        assert BitAt(m, i + 1) == BitAt(n, i + 1);
      }
      BitsEqual(m / 2, n / 2, k - 1);
    }
  }

  /** Zero is the identity of or. */
  lemma {:induction false} OrBitsZero(a: nat, k: nat)
    requires a < Pow2(k)
    ensures OrBits(a, 0, k) == a && OrBits(0, a, k) == a
  {
    if k > 0 {
      OrBitsZero(a / 2, k - 1);
    }
  }

  lemma Or8Zero(a: Byte)
    ensures Or8(a, 0) == a && Or8(0, a) == a
  {
    Pow2Byte();
    OrBitsZero(a, 8);
  }
}
