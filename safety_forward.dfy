/**
 * The panda's forwarding safety mode (panda/board/safety/safety_forward.h):
 * forwarding switches on when giraffe switch 2 shows the camera is cut off
 * and off for good once the camera is seen on bus 0; while forwarding, every
 * frame may be sent, and MDPS12 (593) frames past the 330th get a rewritten
 * steering column torque, a forced output torque of 2058 and a recomputed
 * byte-sum checksum.
 *
 * The mailbox's RDLR and RDHR registers are kept as the 8 payload bytes they
 * hold, little endian (RDLR is bytes 0-3, RDHR bytes 4-7), so each register
 * mask and or acts on the bytes it covers. C's int is taken to be wide enough
 * for the torque arithmetic, and its right shift of a negative value to round
 * down.
 */
module PandaSafetyForward {
  import opened Common
  import opened ByteBits
  import opened PandaSafetyDefaults
  import HyundaiCan

  const Mdps12Addr: int := 593
  /** The output torque the rewrite forces. */
  const OutTqForced: int := 2058
  /** MDPS12_cnt counts 0..344; frames counted 331..344 are rewritten. */
  const RewriteAfter: int := 330
  const CounterWrap: int := 344

  datatype ForwardState = ForwardState(enabled: int, detection: Detection)

  /**
   * forward_rx_hook: the shared detection rules, then forwarding is switched
   * on when no camera is detected and switch 2 is high, and off when the
   * camera is detected.
   */
  function ForwardRxStep(s: ForwardState, bus: int, addr: int): (ForwardState, CbCall)
  {
    var d := DetectStep(s.detection, bus, addr);
    var turnOn := s.enabled != 1 && d.cameraDetected != 1 && d.giraffeSwitch2 == 1;
    var enabled := if turnOn then 1 else s.enabled;
    if enabled == 1 && d.cameraDetected == 1 then (ForwardState(0, d), DisableAll)
    else (ForwardState(enabled, d), if turnOn then EnableAll else NoCall)
  }

  /**
   * Forwarding is on after the hook only while no camera is detected; it is
   * switched on exactly when switch 2 is high without a camera, and the
   * callbacks are told of each switch.
   */
  lemma ForwardRxRules(s: ForwardState, bus: int, addr: int)
    ensures var (t, call) := ForwardRxStep(s, bus, addr);
            var d := DetectStep(s.detection, bus, addr);
            t.detection == d &&
            (t.enabled == 1 ==> d.cameraDetected != 1) &&
            (d.cameraDetected == 1 ==> t.enabled != 1) &&
            (s.enabled != 1 ==> (t.enabled == 1 <==> d.cameraDetected != 1 && d.giraffeSwitch2 == 1)) &&
            (call == EnableAll <==> s.enabled != 1 && t.enabled == 1) &&
            (call == DisableAll <==> s.enabled == 1 && t.enabled != 1)
  {
  }

  function ForwardRxAfter(s: ForwardState, frames: seq<(int, int)>): ForwardState
  {
    if frames == [] then s
    else var f := frames[|frames| - 1]; ForwardRxStep(ForwardRxAfter(s, frames[..|frames| - 1]), f.0, f.1).0
  }

  /** Once the camera has been detected on bus 0, no later frame switches forwarding back on. */
  lemma {:induction false} ForwardNeverReenabled(s: ForwardState, frames: seq<(int, int)>, k: int)
    requires 0 <= k <= |frames|
    requires s.enabled == 1 ==> s.detection.cameraDetected != 1
    requires ForwardRxAfter(s, frames[..k]).detection.cameraDetected == 1
    ensures ForwardRxAfter(s, frames).detection.cameraDetected == 1
    ensures ForwardRxAfter(s, frames).enabled != 1
  {
    var n := |frames|;
    if k == n {
      assert frames[..k] == frames;
      if n > 0 {
        var f := frames[n - 1];
        ForwardRxRules(ForwardRxAfter(s, frames[..n - 1]), f.0, f.1);
      }
    } else {
      var p := frames[..n - 1];
      var f := frames[n - 1];
      assert frames[..k] == p[..k];
      ForwardNeverReenabled(s, p, k);
      DetectStepRules(ForwardRxAfter(s, p).detection, f.0, f.1);
      ForwardRxRules(ForwardRxAfter(s, p), f.0, f.1);
    }
  }

  /** forward_fwd_hook: while forwarding, bus 0 goes to the camera bus and the camera bus to 0. */
  function ForwardFwd(enabled: int, cameraBus: int, busNum: int): (r: int)
    ensures enabled != 1 ==> r == -1
    ensures busNum != 0 && busNum != cameraBus ==> r == -1
  {
    var busFwd := -1;
    var busFwd := if enabled == 1 && busNum == 0 then cameraBus else busFwd;
    if enabled == 1 && busNum == cameraBus then 0 else busFwd
  }

  /** With a nonzero camera bus, forwarding swaps bus 0 and the camera bus: forwarding twice returns home. */
  lemma ForwardFwdSwapsBuses(cameraBus: int, busNum: int)
    requires cameraBus != 0
    ensures ForwardFwd(1, cameraBus, 0) == cameraBus && ForwardFwd(1, cameraBus, cameraBus) == 0
    ensures ForwardFwd(1, cameraBus, busNum) != -1 ==>
              ForwardFwd(1, cameraBus, ForwardFwd(1, cameraBus, busNum)) == busNum
  {
  }

  /** The MDPS12 counter: one step per MDPS12 frame sent while forwarding, back to 0 after 344. */
  function CounterStep(cnt: int): (r: int)
    ensures 0 <= cnt <= CounterWrap ==> 0 <= r <= CounterWrap
    ensures cnt < CounterWrap ==> r == cnt + 1
  {
    var c := cnt + 1;
    if c > CounterWrap then 0 else c
  }

  /** Counted from 0, the counter after n steps is n mod 345: rewrites come in runs of 14 every 345 frames. */
  lemma {:induction false} CounterCycles(n: nat)
    ensures Iterate(0, n) == n % (CounterWrap + 1)
  {
    if n > 0 {
      CounterCycles(n - 1);
      CounterStepMod(n - 1);
    }
  }

  /** One counter step advances a residue mod 345. */
  lemma CounterStepMod(m: nat)
    ensures CounterStep(m % (CounterWrap + 1)) == (m + 1) % (CounterWrap + 1)
  {
    var r := m % (CounterWrap + 1);
    assert m == (CounterWrap + 1) * (m / (CounterWrap + 1)) + r;
    if r < CounterWrap {
      assert (m + 1) % (CounterWrap + 1) == r + 1;
    } else {
      assert (m + 1) % (CounterWrap + 1) == 0;
    }
  }

  function Iterate(cnt: int, n: nat): int
  {
    if n == 0 then cnt else CounterStep(Iterate(cnt, n - 1))
  }

  /**
   * The new StrColTq: on the 331st frame the frame's own 11-bit value
   * (byte 0, and the low three bits of byte 1 above it) less 164; afterwards
   * 34 more than the last value written.
   */
  function NextStrColTq(cnt: int, lastStrColT: int, dat: HyundaiCan.Frame): int
  {
    if cnt == RewriteAfter + 1 then dat[0] + 256 * And8(dat[1], 0x07) - 164 else lastStrColT + 34
  }

  /** The hook's working copy dat[] after the rewrite, with the checksum byte 3 zeroed. */
  function RewrittenBytes(dat: HyundaiCan.Frame, strColTq: int): HyundaiCan.Frame
  {
    [strColTq % 256, Or8(And8(dat[1], 0xF8), (strColTq / 256) % 256), dat[2], 0, dat[4], dat[5],
     Or8(And8(dat[6], 0x0F), (OutTqForced % 16) * 16), (OutTqForced / 16) % 256]
  }

  /**
   * The mailbox bytes after `RDLR &= 0xFFF800; RDLR |= StrColTq | chk << 24;
   * RDHR &= 0xFFFFF; RDHR |= OutTq << 20`: StrColTq's bytes are or-ed into
   * bytes 0-3, the checksum into byte 3, and OutTq into the top 12 bits.
   */
  function RewrittenFrame(frame: HyundaiCan.Frame, strColTq: int, chk: Byte): HyundaiCan.Frame
  {
    [strColTq % 256,
     Or8(And8(frame[1], 0xF8), (strColTq / 256) % 256),
     Or8(frame[2], (strColTq / 0x1_0000) % 256),
     Or8((strColTq / 0x100_0000) % 256, chk),
     frame[4], frame[5],
     Or8(And8(frame[6], 0x0F), (OutTqForced % 16) * 16),
     (OutTqForced / 16) % 256]
  }

  /** New_Chksum2: the byte sum of the rewritten dat[] (byte 3 zeroed), mod 256. */
  function RewriteChecksum(dat: HyundaiCan.Frame, strColTq: int): Byte
  {
    HyundaiCan.Sum(RewrittenBytes(dat, strColTq)) % 256
  }

  lemma SumSnoc(s: seq<Byte>, k: int)
    requires 0 <= k < |s|
    ensures HyundaiCan.Sum(s[..k + 1]) == HyundaiCan.Sum(s[..k]) + s[k]
  {
    assert s[..k + 1][..k] == s[..k];
  }

  lemma Sum8(s: seq<Byte>)
    requires |s| == 8
    ensures HyundaiCan.Sum(s) == s[0] as int + s[1] + s[2] + s[3] + s[4] + s[5] + s[6] + s[7]
  {
    SumSnoc(s, 0); SumSnoc(s, 1); SumSnoc(s, 2); SumSnoc(s, 3);
    SumSnoc(s, 4); SumSnoc(s, 5); SumSnoc(s, 6); SumSnoc(s, 7);
    assert s[..8] == s;
  }

  /**
   * For a StrColTq in 0..65535 the rewritten frame is one that HyundaiCan's
   * MDPS12 check accepts: byte 3 holds the sum of the other seven bytes,
   * mod 256.
   */
  lemma RewrittenChecksumByte(frame: HyundaiCan.Frame, strColTq: int)
    requires 0 <= strColTq < 0x1_0000
    ensures var f := RewrittenFrame(frame, strColTq, RewriteChecksum(frame, strColTq));
            f[3] == HyundaiCan.Mdps12Checksum(f)
  {
    var dat := RewrittenBytes(frame, strColTq);
    var chk := RewriteChecksum(frame, strColTq);
    RewrittenAgrees(frame, strColTq, chk);
    SumSkipsByte3(dat, RewrittenFrame(frame, strColTq, chk));
  }

  /** For a StrColTq in 0..65535 the mailbox bytes are dat[] with the checksum in byte 3. */
  lemma RewrittenAgrees(frame: HyundaiCan.Frame, strColTq: int, chk: Byte)
    requires 0 <= strColTq < 0x1_0000
    ensures var f := RewrittenFrame(frame, strColTq, chk);
            var dat := RewrittenBytes(frame, strColTq);
            f[3] == chk && dat[3] == 0 && forall i :: 0 <= i < 8 && i != 3 ==> f[i] == dat[i]
  {
    var dat := RewrittenBytes(frame, strColTq);
    var f := RewrittenFrame(frame, strColTq, chk);
    assert f[2] == dat[2] by {
      assert (strColTq / 0x1_0000) % 256 == 0;
      Or8Zero(frame[2]);
    }
    assert f[3] == chk by {
      assert (strColTq / 0x100_0000) % 256 == 0;
      Or8Zero(chk);
    }
    assert f[0] == dat[0] && f[1] == dat[1] && f[4] == dat[4] && f[5] == dat[5] && f[6] == dat[6] && f[7] == dat[7];
  }

  /** A frame that agrees with dat[] except in byte 3, which holds the sum of dat[] with byte 3 zeroed. */
  lemma SumSkipsByte3(dat: HyundaiCan.Frame, f: HyundaiCan.Frame)
    requires dat[3] == 0
    requires forall i :: 0 <= i < 8 && i != 3 ==> f[i] == dat[i]
    requires f[3] == HyundaiCan.Sum(dat) % 256
    ensures f[3] == HyundaiCan.Mdps12Checksum(f)
  {
    Sum8(dat);
  }

  /** Whatever StrColTq and checksum, the rewritten frame's OutTq field (top nibble of byte 6, then byte 7) reads 2058. */
  lemma RewrittenOutTq(frame: HyundaiCan.Frame, strColTq: int, chk: Byte)
    ensures var f := RewrittenFrame(frame, strColTq, chk);
            f[7] == 0x80 && f[6] / 16 == 0xA && f[6] / 16 + 16 * f[7] as int == OutTqForced
  {
    OutTqNibble(frame[6]);
  }

  /** For a StrColTq in 0..2047, the rewritten frame's 11-bit StrColTq field reads it back. */
  lemma RewrittenStrColTq(frame: HyundaiCan.Frame, strColTq: int, chk: Byte)
    requires 0 <= strColTq < 2048
    ensures var f := RewrittenFrame(frame, strColTq, chk);
            f[0] + 256 * And8(f[1], 0x07) == strColTq
  {
    var f := RewrittenFrame(frame, strColTq, chk);
    StrColTqField(f[0], f[1], frame[1], strColTq);
  }

  /**
   * Whatever the StrColTq, the rewritten frame's 11-bit field holds it
   * mod 2048: the reachable values below 0 read back as StrColTq + 2048 and
   * those from 2048 up (the 2325 that thirteen steps of 34 can reach) as
   * StrColTq - 2048, because `dat[1] |= StrColTq >> 8` lets the high bits
   * spill past the field.
   */
  lemma RewrittenStrColTqWraps(frame: HyundaiCan.Frame, strColTq: int, chk: Byte)
    ensures var f := RewrittenFrame(frame, strColTq, chk);
            f[0] + 256 * And8(f[1], 0x07) == strColTq % 2048
    ensures var f := RewrittenFrame(frame, strColTq, chk);
            (-2048 <= strColTq < 0 ==> f[0] + 256 * And8(f[1], 0x07) == strColTq + 2048) &&
            (2048 <= strColTq < 4096 ==> f[0] + 256 * And8(f[1], 0x07) == strColTq - 2048)
  {
    var f := RewrittenFrame(frame, strColTq, chk);
    var hi := (strColTq / 256) % 256;
    assert f[0] == strColTq % 256 && f[1] == Or8(And8(frame[1], 0xF8), hi);
    LowBitsMod(frame[1], hi);
    Mod2048Split(strColTq);
    Mod2048Near(strColTq);
  }

  /** Just below 0 and just above 2047, the residue mod 2048 is one period away. */
  lemma Mod2048Near(t: int)
    ensures -2048 <= t < 0 ==> t % 2048 == t + 2048
    ensures 2048 <= t < 4096 ==> t % 2048 == t - 2048
  {
  }

  /** An int's low byte and the low three bits of its next byte make up its residue mod 2048. */
  lemma Mod2048Split(t: int)
    ensures t % 256 + 256 * (((t / 256) % 256) % 8) == t % 2048
  {
    var a := t / 256;
    var b := t % 256;
    assert t == 256 * a + b;
    var e := a / 256;
    assert a == 8 * (32 * e) + a % 256;
    ModEightShift(32 * e, a % 256);
    var c := a / 8;
    var d := a % 8;
    assert a == 8 * c + d;
    assert t == 2048 * c + (256 * d + b);
  }

  /** Adding a multiple of 8 does not change the residue mod 8. */
  lemma ModEightShift(k: int, m: int)
    ensures (8 * k + m) % 8 == m % 8
  {
    assert m == 8 * (m / 8) + m % 8;
    assert 8 * k + m == 8 * (k + m / 8) + m % 8;
  }

  /** Or-ing any byte into 0xFF leaves 0xFF. */
  lemma Or8Ones(x: Byte)
    ensures Or8(0xFF, x) == 0xFF
  {
    Pow2Byte();
    forall i | 0 <= i < 8
      ensures BitAt(Or8(0xFF, x), i) == BitAt(0xFF, i)
    {
      OrBitAt(0xFF, x, 8, i);
      OnesBits(i);
    }
    BitsEqual(Or8(0xFF, x), 0xFF, 8);
  }

  /** The low eight bits of 0xFF are all set. */
  lemma OnesBits(i: nat)
    requires i < 8
    ensures BitAt(0xFF, i)
  {
    if i == 0 {
    } else if i == 1 {
    } else if i == 2 {
    } else if i == 3 {
    } else if i == 4 {
    } else if i == 5 {
    } else if i == 6 {
    } else {
    }
  }

  /**
   * A negative StrColTq, as the 331st frame gives when the received torque is
   * below 164, is or-ed into RDLR sign-extended: byte 3 leaves as 0xFF
   * whatever checksum was computed.
   */
  lemma RewrittenNegativeChecksumByte(frame: HyundaiCan.Frame, strColTq: int, chk: Byte)
    requires -0x100_0000 <= strColTq < 0
    ensures RewrittenFrame(frame, strColTq, chk)[3] == 0xFF
  {
    assert (strColTq / 0x100_0000) % 256 == 0xFF;
    Or8Ones(chk);
  }

  /**
   * A reachable frame the rewrite corrupts: an all-zero MDPS12 frame on the
   * 331st count gives StrColTq -164, and the rewritten frame's byte 3 is not
   * its MDPS12 checksum.
   */
  lemma NegativeTorqueBreaksChecksum()
    ensures var dat: HyundaiCan.Frame := [0, 0, 0, 0, 0, 0, 0, 0];
            var t := NextStrColTq(RewriteAfter + 1, 0, dat);
            var f := RewrittenFrame(dat, t, RewriteChecksum(dat, t));
            t == -164 && f[3] != HyundaiCan.Mdps12Checksum(f)
  {
    var dat: HyundaiCan.Frame := [0, 0, 0, 0, 0, 0, 0, 0];
    And8Zero(0x07);
    var t := NextStrColTq(RewriteAfter + 1, 0, dat);
    assert t == -164;
    NegativeZeroFrame(dat, t, RewriteChecksum(dat, t));
  }

  /** The all-zero frame rewritten with StrColTq -164, whatever the checksum. */
  lemma NegativeZeroFrame(dat: HyundaiCan.Frame, t: int, chk: Byte)
    requires forall i :: 0 <= i < 8 ==> dat[i] == 0
    requires t == -164
    ensures var f := RewrittenFrame(dat, t, chk);
            f[3] == 0xFF && HyundaiCan.Mdps12Checksum(f) == 122
  {
    var f := RewrittenFrame(dat, t, chk);
    RewrittenNegativeChecksumByte(dat, t, chk);
    var b1, b2, b6 := f[1], f[2], f[6];
    assert b1 == 0xFF by {
      var hi := (t / 256) % 256;
      assert hi == 0xFF;
      assert b1 == Or8(And8(dat[1], 0xF8), hi);
      And8Zero(0xF8);
      Or8Zero(hi);
    }
    assert b2 == 0xFF by {
      var hi := (t / 0x1_0000) % 256;
      assert hi == 0xFF;
      assert b2 == Or8(dat[2], hi);
      Or8Zero(hi);
    }
    assert b6 == 0xA0 by {
      var n := (OutTqForced % 16) * 16;
      assert n == 0xA0;
      assert b6 == Or8(And8(dat[6], 0x0F), n);
      And8Zero(0x0F);
      Or8Zero(n);
    }
    assert f[0] == 92 && f[4] == 0 && f[5] == 0 && f[7] == 0x80;
  }

  /** Zero and-ed with anything is zero. */
  lemma And8Zero(x: Byte)
    ensures And8(0, x) == 0
  {
    Pow2Byte();
    forall i | 0 <= i < 8
      ensures BitAt(And8(0, x), i) == BitAt(0, i)
    {
      AndBitAt(0, x, 8, i);
      BitAtZero(i);
    }
    BitsEqual(And8(0, x), 0, 8);
  }

  /** Clearing a byte's low three bits and or-ing in y leaves y's low three bits under the mask 7. */
  lemma LowBitsMod(x: Byte, y: Byte)
    ensures And8(Or8(And8(x, 0xF8), y), 0x07) == y % 8
  {
    var a := And8(x, 0xF8);
    var o := Or8(a, y);
    var r := And8(o, 0x07);
    Pow2Byte();
    assert Pow2(3) == 8;
    forall i | 0 <= i < 8
      ensures BitAt(r, i) == BitAt(y % 8, i)
    {
      AndBitAt(o, 0x07, 8, i);
      OrBitAt(a, y, 8, i);
      AndBitAt(x, 0xF8, 8, i);
      if i >= 3 {
        BitAtHigh(y % 8, 3, i);
        BitAtHigh(0x07, 3, i);
      } else {
        LowMaskBits(i);
        LowBitsOfMod8(y, i);
      }
    }
    BitsEqual(r, y % 8, 8);
  }

  /** The low three bits of n are those of n mod 8. */
  lemma LowBitsOfMod8(n: nat, i: nat)
    requires i < 3
    ensures BitAt(n % 8, i) == BitAt(n, i)
  {
    var q := n / 8;
    var r := n % 8;
    assert n == 8 * q + r;
    ModEightShift(4 * q, 0);
    assert n / 2 == 4 * q + r / 2;
    assert n / 2 / 2 == 2 * q + r / 2 / 2;
    if i == 0 {
      assert n % 2 == r % 2;
    } else if i == 1 {
      assert BitAt(n, 1) == BitAt(n / 2, 0);
      assert BitAt(r, 1) == BitAt(r / 2, 0);
      assert (n / 2) % 2 == (r / 2) % 2;
    } else {
      assert BitAt(n, 2) == BitAt(n / 2 / 2, 0);
      assert BitAt(r, 2) == BitAt(r / 2 / 2, 0);
      assert (n / 2 / 2) % 2 == (r / 2 / 2) % 2;
    }
  }

  lemma StrColTqField(b0: Byte, b1: Byte, x: Byte, strColTq: int)
    requires 0 <= strColTq < 2048
    requires b0 == strColTq % 256 && b1 == Or8(And8(x, 0xF8), (strColTq / 256) % 256)
    ensures b0 + 256 * And8(b1, 0x07) == strColTq
  {
    var hi := strColTq / 256;
    assert (strColTq / 256) % 256 == hi;
    LowBitsKept(x, hi);
    assert And8(b1, 0x07) == hi;
    assert b0 + 256 * hi == strColTq;
  }

  /** Clearing a byte's low three bits, or-ing in y < 8 and masking with 7 gives y back. */
  lemma LowBitsKept(x: Byte, y: Byte)
    requires y < 8
    ensures And8(Or8(And8(x, 0xF8), y), 0x07) == y
  {
    var a := And8(x, 0xF8);
    var o := Or8(a, y);
    var r := And8(o, 0x07);
    Pow2Byte();
    forall i | 0 <= i < 8
      ensures BitAt(r, i) == BitAt(y, i)
    {
      AndBitAt(o, 0x07, 8, i);
      OrBitAt(a, y, 8, i);
      AndBitAt(x, 0xF8, 8, i);
      if i >= 3 {
        BitAtHigh(y, 3, i);
        BitAtHigh(0x07, 3, i);
      } else {
        LowMaskBits(i);
      }
    }
    BitsEqual(r, y, 8);
  }

  /** 0xF8 has its low three bits clear. */
  lemma LowMaskBits(i: nat)
    requires i < 3
    ensures !BitAt(0xF8, i)
  {
    if i == 0 {
    } else if i == 1 {
    } else {
    }
  }

  /** Masking a byte to its low nibble and or-ing 0xA0 puts 0xA in the top nibble. */
  lemma OutTqNibble(x: Byte)
    ensures Or8(And8(x, 0x0F), (OutTqForced % 16) * 16) / 16 == 0xA
  {
    var a := And8(x, 0x0F);
    var o := Or8(a, 0xA0);
    assert (OutTqForced % 16) * 16 == 0xA0;
    Pow2Byte();
    forall i | 0 <= i < 4
      ensures BitAt(o / 16, i) == BitAt(0xA, i)
    {
      OrBitAt(a, 0xA0, 8, i + 4);
      AndBitAt(x, 0x0F, 8, i + 4);
      BitAtHigh(0x0F, 4, i + 4);
      HighNibbleBit(o, i);
      NibbleBits(i);
    }
    assert Pow2(4) == 16;
    BitsEqual(o / 16, 0xA, 4);
  }

  /** Bit i of n / 16 is bit i + 4 of n. */
  lemma HighNibbleBit(n: nat, i: nat)
    ensures BitAt(n / 16, i) == BitAt(n, i + 4)
  {
    assert n / 2 / 2 / 2 / 2 == n / 16;
    assert BitAt(n, i + 4) == BitAt(n / 2, i + 3) == BitAt(n / 2 / 2, i + 2) == BitAt(n / 2 / 2 / 2, i + 1);
  }

  /** Bits 4..7 of 0xA0 are those of 0xA. */
  lemma NibbleBits(i: nat)
    requires i < 4
    ensures BitAt(0xA0, i + 4) == BitAt(0xA, i)
  {
    if i == 0 {
      assert BitAt(0xA0, 4) == BitAt(0xA, 0);
    } else if i == 1 {
      assert BitAt(0xA0, 5) == BitAt(0xA, 1);
    } else if i == 2 {
      assert BitAt(0xA0, 6) == BitAt(0xA, 2);
    } else {
      assert BitAt(0xA0, 7) == BitAt(0xA, 3);
    }
  }

  /** A CAN mailbox: the frame's payload, RDLR and RDHR, as 8 bytes. */
  class CanMailbox {
    var data: HyundaiCan.Frame

    constructor(data: HyundaiCan.Frame)
      ensures this.data == data
    {
      this.data := data;
    }
  }

  /**
   * The globals of safety_forward.h. enabled starts at -1 here; the other
   * globals are declared outside this file and start from given values.
   */
  class ForwardSafety {
    var enabled: int
    var cameraDetected: int
    var cameraBus: int
    var giraffeSwitch2: int
    var mdps12Cnt: int
    var lastStrColT: int
    var controlsAllowed: int

    function State(): ForwardState
      reads this
    {
      ForwardState(enabled, Detection(cameraDetected, cameraBus, giraffeSwitch2))
    }

    constructor(detection: Detection, mdps12Cnt: int, lastStrColT: int, controlsAllowed: int)
      ensures State() == ForwardState(-1, detection)
      ensures this.mdps12Cnt == mdps12Cnt && this.lastStrColT == lastStrColT
      ensures this.controlsAllowed == controlsAllowed
    {
      enabled := -1;
      cameraDetected := detection.cameraDetected;
      cameraBus := detection.cameraBus;
      giraffeSwitch2 := detection.giraffeSwitch2;
      this.mdps12Cnt := mdps12Cnt;
      this.lastStrColT := lastStrColT;
      this.controlsAllowed := controlsAllowed;
    }

    /** forward_init: no controls allowed. */
    method Init(param: int)
      modifies this
      ensures controlsAllowed == 0
      ensures State() == old(State()) && mdps12Cnt == old(mdps12Cnt) && lastStrColT == old(lastStrColT)
    {
      controlsAllowed := 0;
    }

    method RxHook(bus: int, addr: int) returns (call: CbCall)
      modifies this
      ensures (State(), call) == ForwardRxStep(old(State()), bus, addr)
      ensures mdps12Cnt == old(mdps12Cnt) && lastStrColT == old(lastStrColT)
      ensures controlsAllowed == old(controlsAllowed)
    {
      call := NoCall;
      if bus == 0 && addr == LkasCmdAddr {
        cameraDetected := 1;
      }
      if bus != 0 && addr == LkasCmdAddr {
        cameraBus := bus;
      }
      if addr == LkasCmdAddr && bus == cameraBus && cameraDetected != 1 {
        giraffeSwitch2 := 1;
      }
      if enabled != 1 && cameraDetected != 1 && giraffeSwitch2 == 1 {
        call := EnableAll;
        enabled := 1;
      }
      if enabled == 1 && cameraDetected == 1 {
        enabled := 0;
        call := DisableAll;
      }
    }

    /** Copies the mailbox payload into a fresh dat[]. */
    static method CopyBytes(box: CanMailbox) returns (dat: array<Byte>)
      ensures fresh(dat) && dat[..] == box.data
    {
      dat := new Byte[8];
      for i := 0 to 8
        invariant dat[..i] == box.data[..i]
      {
        dat[i] := box.data[i];
      }
    }

    /** Sums dat[] byte by byte. */
    static method SumBytes(dat: array<Byte>) returns (sum: int)
      ensures sum == HyundaiCan.Sum(dat[..])
    {
      sum := 0;
      for i := 0 to dat.Length
        invariant sum == HyundaiCan.Sum(dat[..i])
      {
        assert dat[..i + 1][..i] == dat[..i];
        sum := sum + dat[i];
      }
      assert dat[..dat.Length] == dat[..];
    }

    /** Rewrites dat[] in place: StrColTq in bytes 0-1, byte 3 zeroed, OutTq in the top of bytes 6-7. */
    static method RewriteBytes(dat: array<Byte>, strColTq: int, outTq: int)
      requires dat.Length == 8 && outTq == OutTqForced
      modifies dat
      ensures dat[..] == RewrittenBytes(old(dat[..]), strColTq)
    {
      dat[0] := strColTq % 256;
      dat[1] := And8(dat[1], 0xF8);
      dat[1] := Or8(dat[1], (strColTq / 256) % 256);
      dat[3] := 0;
      dat[6] := And8(dat[6], 0x0F);
      dat[6] := Or8(dat[6], (outTq % 16) * 16);
      dat[7] := (outTq / 16) % 256;
    }

    /** The MDPS12 rewrite proper: copy the bytes, rewrite them, sum them, patch the registers. */
    method RewriteMdps12(box: CanMailbox)
      modifies this, box
      ensures var s := NextStrColTq(old(mdps12Cnt), old(lastStrColT), old(box.data));
              lastStrColT == s &&
              box.data == RewrittenFrame(old(box.data), s, RewriteChecksum(old(box.data), s))
      ensures State() == old(State()) && mdps12Cnt == old(mdps12Cnt) && controlsAllowed == old(controlsAllowed)
    {
      var dat := CopyBytes(box);
      var strColTq := dat[0] + 256 * And8(dat[1], 0x07);
      var newChksum2 := 0;
      var outTq;
      if mdps12Cnt == RewriteAfter + 1 {
        strColTq := strColTq - 164;
        outTq := OutTqForced;
        lastStrColT := strColTq;
      } else {
        strColTq := lastStrColT + 34;
        outTq := OutTqForced;
        lastStrColT := strColTq;
      }
      RewriteBytes(dat, strColTq, outTq);
      newChksum2 := SumBytes(dat);
      newChksum2 := newChksum2 % 256;
      box.data := RewrittenFrame(box.data, strColTq, newChksum2);
    }

    /**
     * forward_tx_hook: every frame may be sent while forwarding and none
     * otherwise; while forwarding, an MDPS12 frame steps the counter and,
     * past the 330th, is rewritten.
     */
    method TxHook(addr: int, box: CanMailbox) returns (r: int)
      modifies this, box
      ensures r == (if old(enabled) == 1 then 1 else 0)
      ensures State() == old(State()) && controlsAllowed == old(controlsAllowed)
      ensures mdps12Cnt == (if old(enabled) == 1 && addr == Mdps12Addr then CounterStep(old(mdps12Cnt))
                            else old(mdps12Cnt))
      ensures old(enabled) == 1 && addr == Mdps12Addr && old(mdps12Cnt) > RewriteAfter ==>
                var s := NextStrColTq(old(mdps12Cnt), old(lastStrColT), old(box.data));
                lastStrColT == s &&
                box.data == RewrittenFrame(old(box.data), s, RewriteChecksum(old(box.data), s))
      ensures !(old(enabled) == 1 && addr == Mdps12Addr && old(mdps12Cnt) > RewriteAfter) ==>
                box.data == old(box.data) && lastStrColT == old(lastStrColT)
    {
      r := 0;
      if enabled == 1 {
        if addr == Mdps12Addr {
          if mdps12Cnt > RewriteAfter {
            RewriteMdps12(box);
          }
          mdps12Cnt := mdps12Cnt + 1;
          if mdps12Cnt > CounterWrap {
            mdps12Cnt := 0;
          }
        }
        r := 1;
      }
    }
  }
}
