/**
 * The Hyundai CAN message builders (selfdrive/car/hyundai/hyundaican.py):
 * the LKAS11 field policy and its two-pass checksum in three variants, the
 * MDPS12 and CLU11 builders, and the fixed camera-replacement messages.
 *
 * The DBC-driven packer is a parameter: it maps a record of signal values to
 * an 8-byte frame. Properties that depend on where the packer puts the
 * checksum signal are stated under an explicit layout predicate.
 */
module HyundaiCan {
  import opened Common
  import opened Crc8J1850Poly

  type Frame = s: seq<Byte> | |s| == 8 witness [0, 0, 0, 0, 0, 0, 0, 0]

  /** make_can_msg's list [addr, 0, dat, bus]. */
  datatype CanMsg = CanMsg(addr: int, busTime: int, dat: seq<Byte>, src: int)

  function MakeCanMsg(addr: int, dat: seq<Byte>, alt: int): (r: CanMsg)
    ensures r.addr == addr && r.busTime == 0 && r.dat == dat && r.src == alt
  {
    CanMsg(addr, 0, dat, alt)
  }

  /** The LKAS11 signals, in the order the builder lists them. */
  datatype Lkas11 = Lkas11(
    icon: int, ldwsSysState: int, sysWarning: int, ldwsLHWarning: int, ldwsRHWarning: int,
    hbaLamp: int, fcwBasReq: int, strToqReq: int, actToi: int, toiFlt: int, hbaSysState: int,
    fcwOpt: int, hbaOpt: int, msgCount: int, fcwSysState: int, fcwCollisionWarning: int,
    fusionState: int, chksum: Byte, fcwOptUsm: int, ldwsOptUsm: int, unknown1: int, unknown2: int)

  /** The MDPS12 signals. */
  datatype Mdps12 = Mdps12(
    strColTq: int, def: int, toiActive: int, toiUnavail: int, msgCount2: int, chksum2: Byte,
    toiFlt: int, sErr: int, strTq: int, failStat: int, outTq: int)

  /** The CLU11 signals. */
  datatype Clu11 = Clu11(
    cruiseSwState: int, cruiseSwMain: int, sldMainSw: int, parityBit1: int, vanzDecimal: int,
    vanz: int, speedUnit: int, detentOut: int, rheostatLevel: int, cluInfo: int, ampInfo: int,
    aliveCnt1: int)

  /** The CAN packer for the car's DBC: one encoder and one address per message. */
  datatype Packer = Packer(
    lkas11Addr: int, lkas11: Lkas11 -> Frame,
    mdps12Addr: int, mdps12: Mdps12 -> Frame,
    clu11Addr: int, clu11: Clu11 -> Frame)

  /** The fingerprint sets of the three LKAS11 checksum variants (CHECKSUM in the car's values). */
  datatype ChecksumSets = ChecksumSets(crc8: set<string>, sum6: set<string>, sum7: set<string>)

  datatype ChecksumVariant = Crc8Variant | Sum6Variant | Sum7Variant

  /** Variant precedence: crc8, then 6B, then 7B; no variant for an unknown fingerprint. */
  function SelectVariant(sets: ChecksumSets, fingerprint: string): (r: ChecksumVariantChoice)
    ensures r.NoVariant? <==> fingerprint !in sets.crc8 && fingerprint !in sets.sum6 && fingerprint !in sets.sum7
    ensures r == Chosen(Crc8Variant) <==> fingerprint in sets.crc8
    ensures r == Chosen(Sum6Variant) <==> fingerprint !in sets.crc8 && fingerprint in sets.sum6
    ensures r == Chosen(Sum7Variant) <==> fingerprint !in sets.crc8 && fingerprint !in sets.sum6 && fingerprint in sets.sum7
  {
    if fingerprint in sets.crc8 then Chosen(Crc8Variant)
    else if fingerprint in sets.sum6 then Chosen(Sum6Variant)
    else if fingerprint in sets.sum7 then Chosen(Sum7Variant)
    else NoVariant
  }

  datatype ChecksumVariantChoice = NoVariant | Chosen(variant: ChecksumVariant)

  /**
   * The LKAS11 signal values: when engaged, the stock camera's lane icon,
   * state, warning, torque and ActToi are never used; the keep_stock fields
   * take the stock value or a fixed default; the checksum is zero.
   */
  function Lkas11Values(enabled: bool, useStock: bool, keepStock: bool, stock: Lkas11, applySteer: int,
                        steerReq: int, cnt: int, hudAlert: int): Lkas11
  {
    var useStock := useStock && !enabled;
    Lkas11(
      icon := if useStock then stock.icon else (if enabled then 2 else 0),
      ldwsSysState := if useStock then stock.ldwsSysState else (if steerReq != 0 then 3 else 1),
      sysWarning := if useStock then stock.sysWarning else hudAlert,
      ldwsLHWarning := if keepStock then stock.ldwsLHWarning else 0,
      ldwsRHWarning := if keepStock then stock.ldwsRHWarning else 0,
      hbaLamp := if keepStock then stock.hbaLamp else 0,
      fcwBasReq := if keepStock then stock.fcwBasReq else 0,
      strToqReq := if useStock then stock.strToqReq else applySteer,
      actToi := if useStock then stock.actToi else steerReq,
      toiFlt := 0,
      hbaSysState := if keepStock then stock.hbaSysState else 1,
      fcwOpt := if keepStock then stock.fcwOpt else 0,
      hbaOpt := if keepStock then stock.hbaOpt else 3,
      msgCount := cnt,
      fcwSysState := if keepStock then stock.fcwSysState else 0,
      fcwCollisionWarning := if keepStock then stock.fcwCollisionWarning else 0,
      fusionState := if keepStock then stock.fusionState else 0,
      chksum := 0,
      fcwOptUsm := if keepStock then stock.fcwOptUsm else (if enabled then 2 else 1),
      ldwsOptUsm := if keepStock then stock.ldwsOptUsm else 3,
      unknown1 := if keepStock then stock.unknown1 else 0,
      unknown2 := if keepStock then stock.unknown2 else 0)
  }

  /** When engaged, the lane-keeping fields come from openpilot whatever use_stock says. */
  lemma EngagedUsesComputedFields(useStock: bool, keepStock: bool, stock: Lkas11, applySteer: int,
                                  steerReq: int, cnt: int, hudAlert: int)
    ensures var v := Lkas11Values(true, useStock, keepStock, stock, applySteer, steerReq, cnt, hudAlert);
            v.icon == 2 && v.ldwsSysState == (if steerReq != 0 then 3 else 1) && v.sysWarning == hudAlert &&
            v.strToqReq == applySteer && v.actToi == steerReq
  {
  }

  /** Disengaged with use_stock, the lane-keeping fields are the stock camera's. */
  lemma DisengagedStockFields(keepStock: bool, stock: Lkas11, applySteer: int, steerReq: int, cnt: int, hudAlert: int)
    ensures var v := Lkas11Values(false, true, keepStock, stock, applySteer, steerReq, cnt, hudAlert);
            v.icon == stock.icon && v.ldwsSysState == stock.ldwsSysState && v.sysWarning == stock.sysWarning &&
            v.strToqReq == stock.strToqReq && v.actToi == stock.actToi
  {
  }

  /** keep_stock copies the assist fields from the stock frame; otherwise they take fixed defaults. */
  lemma KeepStockFields(enabled: bool, useStock: bool, stock: Lkas11, applySteer: int, steerReq: int,
                        cnt: int, hudAlert: int)
    ensures var v := Lkas11Values(enabled, useStock, true, stock, applySteer, steerReq, cnt, hudAlert);
            v.ldwsLHWarning == stock.ldwsLHWarning && v.ldwsRHWarning == stock.ldwsRHWarning &&
            v.hbaLamp == stock.hbaLamp && v.fcwBasReq == stock.fcwBasReq &&
            v.hbaSysState == stock.hbaSysState && v.fcwOpt == stock.fcwOpt && v.hbaOpt == stock.hbaOpt &&
            v.fcwSysState == stock.fcwSysState && v.fcwCollisionWarning == stock.fcwCollisionWarning &&
            v.fusionState == stock.fusionState && v.fcwOptUsm == stock.fcwOptUsm &&
            v.ldwsOptUsm == stock.ldwsOptUsm && v.unknown1 == stock.unknown1 && v.unknown2 == stock.unknown2
    ensures var v := Lkas11Values(enabled, useStock, false, stock, applySteer, steerReq, cnt, hudAlert);
            v.ldwsLHWarning == 0 && v.ldwsRHWarning == 0 && v.hbaLamp == 0 && v.fcwBasReq == 0 &&
            v.hbaSysState == 1 && v.fcwOpt == 0 && v.hbaOpt == 3 && v.fcwSysState == 0 &&
            v.fcwCollisionWarning == 0 && v.fusionState == 0 &&
            v.fcwOptUsm == (if enabled then 2 else 1) && v.ldwsOptUsm == 3 && v.unknown1 == 0 && v.unknown2 == 0
    ensures var v := Lkas11Values(enabled, useStock, false, stock, applySteer, steerReq, cnt, hudAlert);
            v.toiFlt == 0 && v.msgCount == cnt && v.chksum == 0
  {
  }

  /** The sum of a sequence of bytes, Python's sum() on the byte values. */
  function Sum(s: seq<Byte>): int
  {
    if s == [] then 0 else Sum(s[..|s| - 1]) + s[|s| - 1]
  }

  lemma {:induction false} SumUpdate(s: seq<Byte>, i: int, b: Byte)
    requires 0 <= i < |s|
    ensures Sum(s[i := b]) == Sum(s) - s[i] + b
  {
    var n := |s|;
    if i < n - 1 {
      assert s[i := b][..n - 1] == s[..n - 1][i := b];
      SumUpdate(s[..n - 1], i, b);
    } else {
      assert s[i := b][..n - 1] == s[..n - 1];
    }
  }

  /** Two different integers less than 256 apart differ modulo 256. */
  lemma ModDetectsSmallChange(a: int, b: int)
    requires a != b && -256 < a - b < 256
    ensures a % 256 != b % 256
  {
    var qa, qb := a / 256, b / 256;
    assert a == 256 * qa + a % 256;
    assert b == 256 * qb + b % 256;
    assert a % 256 - b % 256 == (a - b) - 256 * (qa - qb);
  }

  /** The checksum the LKAS11 variant computes from the first-pass frame. */
  function Lkas11Checksum(variant: ChecksumVariant, dat: Frame): Byte
  {
    match variant
    case Crc8Variant => Crc8(dat[..6] + [dat[7]])
    case Sum6Variant => Sum(dat[..6]) % 256
    case Sum7Variant => (Sum(dat[..6]) + dat[7]) % 256
  }

  /** Every variant reads bytes 0-5 and (except 6B) byte 7, never byte 6 where the checksum goes. */
  lemma Lkas11ChecksumSkipsByte6(variant: ChecksumVariant, dat: Frame, x: Byte)
    ensures Lkas11Checksum(variant, dat[6 := x]) == Lkas11Checksum(variant, dat)
  {
    assert dat[6 := x][..6] == dat[..6];
  }

  /** Each variant detects a change confined to one of the bytes it covers. */
  lemma Lkas11ChecksumDetectsSingleByteErrors(variant: ChecksumVariant, dat: Frame, i: int, x: Byte)
    requires 0 <= i < 8 && i != 6 && (variant == Sum6Variant ==> i < 6)
    requires dat[i] != x
    ensures Lkas11Checksum(variant, dat[i := x]) != Lkas11Checksum(variant, dat)
  {
    var d2: Frame := dat[i := x];
    match variant
    case Crc8Variant =>
      var j := if i == 7 then 6 else i;
      Crc8DetectsSingleByteErrors(d2[..6] + [d2[7]], dat[..6] + [dat[7]], j);
    case Sum6Variant =>
      assert d2[..6] == dat[..6][i := x];
      SumUpdate(dat[..6], i, x);
      ModDetectsSmallChange(Sum(d2[..6]), Sum(dat[..6]));
    case Sum7Variant =>
      if i < 6 {
        assert d2[..6] == dat[..6][i := x];
        SumUpdate(dat[..6], i, x);
      } else {
        assert d2[..6] == dat[..6];
      }
      ModDetectsSmallChange(Sum(d2[..6]) + d2[7], Sum(dat[..6]) + dat[7]);
  }

  /**
   * create_lkas11: pack the values with a zero checksum, compute the
   * fingerprint's checksum variant over that frame, and pack again with the
   * checksum filled in. A fingerprint in none of the checksum sets has no
   * checksum and yields no message.
   */
  function CreateLkas11(packer: Packer, sets: ChecksumSets, fingerprint: string, applySteer: int, steerReq: int,
                        cnt: int, enabled: bool, stock: Lkas11, hudAlert: int, useStock: bool,
                        keepStock: bool): (r: Option<CanMsg>)
    ensures r.None? <==> SelectVariant(sets, fingerprint).NoVariant?
    ensures r.Some? ==>
              var v := Lkas11Values(enabled, useStock, keepStock, stock, applySteer, steerReq, cnt, hudAlert);
              r.value.addr == packer.lkas11Addr && r.value.src == 0 &&
              r.value.dat == packer.lkas11(v.(chksum := Lkas11Checksum(SelectVariant(sets, fingerprint).variant,
                                                                      packer.lkas11(v))))
  {
    var v := Lkas11Values(enabled, useStock, keepStock, stock, applySteer, steerReq, cnt, hudAlert);
    var dat := packer.lkas11(v);
    match SelectVariant(sets, fingerprint)
    case NoVariant => None
    case Chosen(variant) =>
      Some(MakeCanMsg(packer.lkas11Addr, packer.lkas11(v.(chksum := Lkas11Checksum(variant, dat))), 0))
  }

  /**
   * The DBC layout of LKAS11's checksum: CF_Lkas_Chksum is byte 6, and no
   * other byte depends on it.
   */
  ghost predicate Lkas11ChecksumInByte6(enc: Lkas11 -> Frame)
  {
    forall v: Lkas11, c: Byte :: enc(v.(chksum := c)) == enc(v)[6 := c]
  }

  /**
   * Under that layout, the second pass differs from the first only in byte
   * 6, and a receiver recomputing the checksum from the final frame finds
   * the value carried in byte 6.
   */
  lemma Lkas11SelfConsistent(packer: Packer, sets: ChecksumSets, fingerprint: string, applySteer: int,
                             steerReq: int, cnt: int, enabled: bool, stock: Lkas11, hudAlert: int,
                             useStock: bool, keepStock: bool)
    requires Lkas11ChecksumInByte6(packer.lkas11)
    ensures var r := CreateLkas11(packer, sets, fingerprint, applySteer, steerReq, cnt, enabled, stock, hudAlert,
                                  useStock, keepStock);
            r.Some? ==> |r.value.dat| == 8 &&
                        r.value.dat[6] == Lkas11Checksum(SelectVariant(sets, fingerprint).variant, r.value.dat)
  {
    var r := CreateLkas11(packer, sets, fingerprint, applySteer, steerReq, cnt, enabled, stock, hudAlert,
                          useStock, keepStock);
    if r.Some? {
      var v := Lkas11Values(enabled, useStock, keepStock, stock, applySteer, steerReq, cnt, hudAlert);
      var variant := SelectVariant(sets, fingerprint).variant;
      var first := packer.lkas11(v);
      var c := Lkas11Checksum(variant, first);
      Lkas11ChecksumSkipsByte6(variant, first, c);
    }
  }

  /** The MDPS12 checksum: the byte sum of all bytes but byte 3 (where the checksum goes), mod 256. */
  function Mdps12Checksum(dat: Frame): Byte
  {
    (dat[0] as int + dat[1] + dat[2] + dat[4] + dat[5] + dat[6] + dat[7]) % 256
  }

  /** The checksum ignores byte 3 and detects a change confined to any other byte. */
  lemma Mdps12ChecksumProperties(dat: Frame, i: int, x: Byte)
    requires 0 <= i < 8
    ensures Mdps12Checksum(dat[3 := x]) == Mdps12Checksum(dat)
    ensures i != 3 && dat[i] != x ==> Mdps12Checksum(dat[i := x]) != Mdps12Checksum(dat)
  {
    var d2 := dat[i := x];
    if i != 3 && dat[i] != x {
      ModDetectsSmallChange(d2[0] as int + d2[1] + d2[2] + d2[4] + d2[5] + d2[6] + d2[7],
                            dat[0] as int + dat[1] + dat[2] + dat[4] + dat[5] + dat[6] + dat[7]);
    }
  }

  /** The MDPS12 values: the stock frame with ToiActive from LKAS11's ActToi, the counter, and zero checksum and ToiFlt. */
  function Mdps12Values(cnt: int, stock: Mdps12, lkas11: Lkas11): (v: Mdps12)
    ensures v.toiActive == lkas11.actToi && v.msgCount2 == cnt && v.chksum2 == 0 && v.toiFlt == 0
    ensures v.strColTq == stock.strColTq && v.def == stock.def && v.toiUnavail == stock.toiUnavail
    ensures v.sErr == stock.sErr && v.strTq == stock.strTq && v.failStat == stock.failStat && v.outTq == stock.outTq
  {
    stock.(toiActive := lkas11.actToi, msgCount2 := cnt, chksum2 := 0, toiFlt := 0)
  }

  /** create_mdps12: the same two-pass scheme as LKAS11, on bus camcan. */
  function CreateMdps12(packer: Packer, cnt: int, stock: Mdps12, lkas11: Lkas11, camcan: int): (r: CanMsg)
    ensures r.addr == packer.mdps12Addr && r.src == camcan
    ensures var v := Mdps12Values(cnt, stock, lkas11);
            r.dat == packer.mdps12(v.(chksum2 := Mdps12Checksum(packer.mdps12(v))))
  {
    var v := Mdps12Values(cnt, stock, lkas11);
    var dat := packer.mdps12(v);
    MakeCanMsg(packer.mdps12Addr, packer.mdps12(v.(chksum2 := Mdps12Checksum(dat))), camcan)
  }

  /** The DBC layout of MDPS12's checksum: CF_Mdps_Chksum2 is byte 3 and no other byte depends on it. */
  ghost predicate Mdps12ChecksumInByte3(enc: Mdps12 -> Frame)
  {
    forall v: Mdps12, c: Byte ::
      enc(v.(chksum2 := c)) == enc(v)[3 := c]
  }

  /** Under that layout, the final MDPS12 frame carries in byte 3 the checksum of its own bytes. */
  lemma Mdps12SelfConsistent(packer: Packer, cnt: int, stock: Mdps12, lkas11: Lkas11, camcan: int)
    requires Mdps12ChecksumInByte3(packer.mdps12)
    ensures var dat := CreateMdps12(packer, cnt, stock, lkas11, camcan).dat;
            |dat| == 8 && dat[3] == Mdps12Checksum(dat)
  {
    var v := Mdps12Values(cnt, stock, lkas11);
    var first := packer.mdps12(v);
    var c := Mdps12Checksum(first);
    Mdps12ChecksumProperties(first, 3, c);
  }

  /** The CLU11 values: every stock signal, with the cruise switch set to the button and the alive counter 0. */
  function Clu11Values(stock: Clu11, button: int): (v: Clu11)
    ensures v.cruiseSwState == button && v.aliveCnt1 == 0
    ensures v.cruiseSwMain == stock.cruiseSwMain && v.sldMainSw == stock.sldMainSw &&
            v.parityBit1 == stock.parityBit1 && v.vanzDecimal == stock.vanzDecimal && v.vanz == stock.vanz &&
            v.speedUnit == stock.speedUnit && v.detentOut == stock.detentOut &&
            v.rheostatLevel == stock.rheostatLevel && v.cluInfo == stock.cluInfo && v.ampInfo == stock.ampInfo
  {
    stock.(cruiseSwState := button, aliveCnt1 := 0)
  }

  /** Re-pressing a button on an already rewritten CLU11 is the same as pressing it on the stock one. */
  lemma Clu11ValuesLastButtonWins(stock: Clu11, b1: int, b2: int)
    ensures Clu11Values(Clu11Values(stock, b1), b2) == Clu11Values(stock, b2)
  {
  }

  function CreateClu11(packer: Packer, stock: Clu11, button: int): (r: CanMsg)
    ensures r.addr == packer.clu11Addr && r.src == 0 && r.dat == packer.clu11(Clu11Values(stock, button))
  {
    MakeCanMsg(packer.clu11Addr, packer.clu11(Clu11Values(stock, button)), 0)
  }

  /** The fixed messages sent in place of a disconnected camera. */
  function CreateLkas12(): (r: CanMsg)
    ensures r.addr == 1342 && r.src == 0 && r.dat == [0x00, 0x00, 0x00, 0x00, 0x60, 0x05]
  {
    MakeCanMsg(1342, [0x00, 0x00, 0x00, 0x00, 0x60, 0x05], 0)
  }

  function Create1191(): (r: CanMsg)
    ensures r.addr == 1191 && r.src == 0 && r.dat == [0x01, 0x00]
  {
    MakeCanMsg(1191, [0x01, 0x00], 0)
  }

  function Create1156(): (r: CanMsg)
    ensures r.addr == 1156 && r.src == 0 && r.dat == [0x08, 0x20, 0xfe, 0x3f, 0x00, 0xe0, 0xfd, 0x3f]
  {
    MakeCanMsg(1156, [0x08, 0x20, 0xfe, 0x3f, 0x00, 0xe0, 0xfd, 0x3f], 0)
  }
}
