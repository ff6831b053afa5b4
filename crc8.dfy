/**
 * The CRC-8 of LKAS11 (hyundai_checksum in selfdrive/car/hyundai/hyundaican.py):
 * generator 0x11D (the SAE J1850 polynomial), not reflected. crcmod's
 * initCrc 0xFD is the result for the empty message, so the shift register
 * starts at 0xFD xor 0xDF = 0x22 and the result is xored with 0xDF.
 *
 * The register is kept as eight bits, most significant first, so that the
 * shift-and-xor step is plain boolean algebra.
 */
module Crc8J1850Poly {
  import opened Common
  import opened ByteBits

  /** One shift step: shift left, and when the top bit falls out xor in 0x1D (bits 4, 3, 2 and 0). */
  function Shift(r: Bits8): Bits8
  {
    Bits8(r.b6, r.b5, r.b4, r.b3 != r.b7, r.b2 != r.b7, r.b1 != r.b7, r.b0, r.b7)
  }

  /** k shift steps; eight of them make the register update for one input byte. */
  function ShiftN(r: Bits8, k: nat): Bits8
  {
    if k == 0 then r else Shift(ShiftN(r, k - 1))
  }

  const CrcRegisterInit: Byte := 0x22
  const CrcXorOut: Byte := 0xDF

  function CrcByte(r: Bits8, b: Byte): Bits8
  {
    ShiftN(Xor(r, BitsOf(b)), 8)
  }

  function CrcRegister(data: seq<Byte>): Bits8
  {
    if data == [] then BitsOf(CrcRegisterInit) else CrcByte(CrcRegister(data[..|data| - 1]), data[|data| - 1])
  }

  /** hyundai_checksum of a message. */
  function Crc8(data: seq<Byte>): Byte
  {
    ByteOf(Xor(CrcRegister(data), BitsOf(CrcXorOut)))
  }

  /** crcmod's initCrc is indeed the checksum of the empty message. */
  lemma Crc8Empty()
    ensures Crc8([]) == 0xFD
  {
    assert BitsOf(0x22) == Bits8(false, false, true, false, false, false, true, false);
    assert BitsOf(0xDF) == Bits8(true, true, false, true, true, true, true, true);
  }

  /** The shift step is linear over GF(2) and, the generator's constant term being 1, injective. */
  lemma ShiftLinear(a: Bits8, b: Bits8)
    ensures Shift(Xor(a, b)) == Xor(Shift(a), Shift(b))
    ensures a != Zero ==> Shift(a) != Zero
  {
  }

  lemma {:induction false} ShiftNInjective(a: Bits8, b: Bits8, k: nat)
    requires a != b
    ensures ShiftN(a, k) != ShiftN(b, k)
  {
    if k > 0 {
      var x, y := ShiftN(a, k - 1), ShiftN(b, k - 1);
      ShiftNInjective(a, b, k - 1);
      ShiftLinear(x, y);
      ShiftLinear(Xor(x, y), Zero);
      assert Xor(x, y) != Zero;
    }
  }

  lemma {:induction false} CrcRegisterDiffers(d1: seq<Byte>, d2: seq<Byte>, i: int)
    requires |d1| == |d2| && 0 <= i < |d1|
    requires d1[i] != d2[i]
    requires forall k :: 0 <= k < |d1| && k != i ==> d1[k] == d2[k]
    ensures CrcRegister(d1) != CrcRegister(d2)
  {
    var n := |d1|;
    var p1, p2 := d1[..n - 1], d2[..n - 1];
    var b1, b2 := d1[n - 1], d2[n - 1];
    if i == n - 1 {
      assert p1 == p2 by {
        assert forall k :: 0 <= k < n - 1 ==> p1[k] == d1[k] && p2[k] == d2[k];
      }
      if BitsOf(b1) == BitsOf(b2) {
        BitsOfInjective(b1, b2);
      }
    } else {
      assert forall k :: 0 <= k < n - 1 ==> p1[k] == d1[k] && p2[k] == d2[k];
      CrcRegisterDiffers(p1, p2, i);
    }
    StepDiffers(CrcRegister(p1), CrcRegister(p2), b1, b2);
    assert d1 == p1 + [b1] && d2 == p2 + [b2];
  }

  /** One byte's register update keeps different (register, byte-bits) pairs apart. */
  lemma StepDiffers(r1: Bits8, r2: Bits8, b1: Byte, b2: Byte)
    requires (r1 == r2 && BitsOf(b1) != BitsOf(b2)) || (r1 != r2 && b1 == b2)
    ensures CrcByte(r1, b1) != CrcByte(r2, b2)
  {
    assert Xor(r1, BitsOf(b1)) != Xor(r2, BitsOf(b2));
    ShiftNInjective(Xor(r1, BitsOf(b1)), Xor(r2, BitsOf(b2)), 8);
  }

  /** The CRC detects every change confined to a single byte. */
  lemma Crc8DetectsSingleByteErrors(d1: seq<Byte>, d2: seq<Byte>, i: int)
    requires |d1| == |d2| && 0 <= i < |d1|
    requires d1[i] != d2[i]
    requires forall k :: 0 <= k < |d1| && k != i ==> d1[k] == d2[k]
    ensures Crc8(d1) != Crc8(d2)
  {
    CrcRegisterDiffers(d1, d2, i);
    var x := Xor(CrcRegister(d1), BitsOf(CrcXorOut));
    var y := Xor(CrcRegister(d2), BitsOf(CrcXorOut));
    assert x != y;
    BitsRoundTrip(x);
    BitsRoundTrip(y);
  }
}
