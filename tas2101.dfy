/**
 * Tmax TAS2101/TAS2100 DVB-S/S2 demodulator: init by register tables, the
 * BER, strength and SNR readings, lock status, LNB voltage and tone, DiSEqC
 * messages and tone bursts with the LNB control backup, the i2c mux channel
 * cache, set_frontend, get_frontend and the five-poll search.
 */
module Tas2101 {
  import opened Common
  import opened Registers

  /** A calibration point of the strength or SNR table: a raw reading and the value it stands for. */
  datatype CalPoint = CalPoint(raw: int, value: int)

  /** One row of the modulation/FEC table get_frontend indexes. */
  datatype ModFec = ModFec(fec: nat, modulation: Modulation, system: DeliverySystem)

  /**
   * The register addresses, bits and tables of tas2101_priv.h, which is not
   * part of this model.
   */
  datatype Layout = Layout(
    demodStatus: int, statusMask: bv8, locked: bv8, reg04: int, reg06: int, reg30: int, reg34: int,
    lnbCtrl: int, lnbStatus: int, diseqcBuffer: int,
    s1Ber: int, s2Ber: int, sigStr: int, snr: int, modfec0: int, modfec1: int,
    setSrate: int, getSrate: int, freqOs: int,
    vsel: bv8, toneOn: bv8, toneOff: bv8, cmdMask: bv8, lenMask: bv8, sendMsg: bv8,
    burstA: bv8, burstB: bv8, busy: bv8, i2cGate: bv8,
    setfe: seq<RegEntry>, tas2101fe0: seq<RegEntry>, tas2101fe1: seq<RegEntry>,
    tas2100fe0: seq<RegEntry>, tas2100fe1: seq<RegEntry>, initfe2: seq<RegEntry>,
    dbmTable: seq<CalPoint>, snrTable: seq<CalPoint>, modfec: seq<ModFec>)

  /**
   * What the driver relies on in its header: both calibration tables have
   * strictly descending raw values, the modulation/FEC table covers index
   * 33, and the status registers are distinct from the ones written beside
   * them.
   */
  predicate LayoutOk(l: Layout)
  {
    Descending(l.dbmTable) && Descending(l.snrTable) && |l.modfec| >= 34
    && l.demodStatus != l.reg04 && l.lnbStatus != l.lnbCtrl
  }

  /** The chip the board configuration names. */
  datatype Chip = Tas2101Chip | Tas2100Chip

  /** priv->algo: TAS2101_TUNE while a tune is armed, TAS2101_NOTUNE otherwise. */
  datatype TuneState = Tune | NoTune

  /** The parts of the property cache the driver reads or fills in. */
  datatype Props = Props(system: DeliverySystem, modulation: Modulation, symbolRate: nat, fec: nat, inversionAuto: bool)

  // ------------------------------------------------------------ calibration

  /** Strictly descending raw values, at least two points. */
  predicate Descending(t: seq<CalPoint>)
  {
    |t| >= 2 && forall i :: 0 < i < |t| ==> t[i].raw < t[i - 1].raw
  }

  /** The 12-bit raw reading of the strength and SNR registers: the low nibble of the second byte above the first. */
  function RawLevel(b0: bv8, b1: bv8): (raw: nat)
    ensures raw < 4096
    ensures raw % 256 == b0 as int && raw / 256 == (b1 & 0x0f) as int
  {
    (b1 & 0x0f) as int * 256 + b0 as int
  }

  /** The search loop: the first index from i on, up to the one before last, whose raw value is below `raw`. */
  function SegmentFrom(t: seq<CalPoint>, raw: int, i: nat): (k: nat)
    requires i <= |t| - 1
    ensures i <= k <= |t| - 1
    decreases |t| - 1 - i
  {
    if i == |t| - 1 || t[i].raw < raw then i else SegmentFrom(t, raw, i + 1)
  }

  /** The value on the line through p and q at `raw`, divided as C divides. */
  function LineThrough(p: CalPoint, q: CalPoint, raw: int): int
    requires q.raw < p.raw
  {
    CDiv((raw - q.raw) * p.value + (p.raw - raw) * q.value, p.raw - q.raw)
  }

  /**
   * The table value for a raw reading: the first entry when its segment
   * index is 0, otherwise the line through the segment's two points.
   */
  function Interpolated(t: seq<CalPoint>, raw: int): int
    requires Descending(t)
  {
    var i := SegmentFrom(t, raw, 0);
    if i == 0 then t[0].value else LineThrough(t[i - 1], t[i], raw)
  }

  lemma {:induction false} SegmentFromIsFirst(t: seq<CalPoint>, raw: int, i: nat)
    requires i <= |t| - 1
    ensures var k := SegmentFrom(t, raw, i);
      (forall j :: i <= j < k ==> t[j].raw >= raw) && (k < |t| - 1 ==> t[k].raw < raw)
    decreases |t| - 1 - i
  {
    if i < |t| - 1 && t[i].raw >= raw {
      SegmentFromIsFirst(t, raw, i + 1);
    }
  }

  /** Descending raw values are ordered between any two indices. */
  lemma {:induction false} DescendingBetween(t: seq<CalPoint>, i: nat, j: nat)
    requires Descending(t) && i < j < |t|
    ensures t[j].raw < t[i].raw
    decreases j - i
  {
    if i + 1 < j {
      DescendingBetween(t, i, j - 1);
    }
  }

  /** At every calibration point, the first and the last included, the value is that point's value exactly. */
  lemma InterpolatedAtBreakpoint(t: seq<CalPoint>, k: nat)
    requires Descending(t) && k < |t|
    ensures Interpolated(t, t[k].raw) == t[k].value
  {
    var raw := t[k].raw;
    var i := SegmentFrom(t, raw, 0);
    SegmentFromIsFirst(t, raw, 0);
    if i <= k && i < |t| - 1 {
      if i < k {
        DescendingBetween(t, i, k);
      }
    }
    if k + 1 < |t| {
      assert t[k + 1].raw < raw;
    }
    assert i == k + 1 || (k == |t| - 1 && i == k);
    if i == k + 1 {
      LineAtLeft(t[k], t[k + 1]);
    } else {
      LineAtRight(t[k - 1], t[k]);
    }
  }

  lemma LineAtLeft(p: CalPoint, q: CalPoint)
    requires q.raw < p.raw
    ensures LineThrough(p, q, p.raw) == p.value
  {
    var d := p.raw - q.raw;
    assert (p.raw - q.raw) * p.value + (p.raw - p.raw) * q.value == d * p.value;
    CDivExact(p.value, d);
  }

  lemma LineAtRight(p: CalPoint, q: CalPoint)
    requires q.raw < p.raw
    ensures LineThrough(p, q, q.raw) == q.value
  {
    var d := p.raw - q.raw;
    assert (q.raw - q.raw) * p.value + (p.raw - q.raw) * q.value == d * q.value;
    CDivExact(q.value, d);
  }

  /** C division of an exact multiple gives the factor back. */
  lemma CDivExact(v: int, d: int)
    requires d > 0
    ensures CDiv(d * v, d) == v
  {
    if v >= 0 {
      MulDivCancel(v, d);
    } else {
      assert Abs(d * v) == d * -v;
      MulDivCancel(-v, d);
    }
  }

  lemma MulDivCancel(x: nat, d: nat)
    requires d > 0
    ensures (d * x) / d == x
  {
    var q := (d * x) / d;
    assert q * d <= d * x < q * d + d;
    assert 0 <= (x - q) * d < d;
    NonnegFactor(x - q, d);
  }

  lemma NonnegFactor(k: int, d: int)
    requires d > 0 && 0 <= k * d < d
    ensures k == 0
  {
  }

  /** a * d < b * d with d > 0 gives a < b. */
  lemma LtCancel(a: int, b: int, d: int)
    requires d > 0 && a * d < b * d
    ensures a < b
  {
  }

  /** a * d <= b * d with d > 0 gives a <= b. */
  lemma LeCancel(a: int, b: int, d: int)
    requires d > 0 && a * d <= b * d
    ensures a <= b
  {
    assert b * d < (b + 1) * d;
    LtCancel(a, b + 1, d);
  }

  /** At or above the first raw value the reading is clamped to the first value. */
  lemma InterpolatedClampsAtTop(t: seq<CalPoint>, raw: int)
    requires Descending(t) && raw >= t[0].raw
    ensures Interpolated(t, raw) == t[0].value
  {
    if raw == t[0].raw {
      InterpolatedAtBreakpoint(t, 0);
    }
  }

  /** Below the last raw value the last segment is used: the value is extrapolated, not clamped. */
  lemma InterpolatedExtrapolatesAtBottom(t: seq<CalPoint>, raw: int)
    requires Descending(t) && raw < t[|t| - 1].raw
    ensures SegmentFrom(t, raw, 0) == |t| - 1
    ensures Interpolated(t, raw) == LineThrough(t[|t| - 2], t[|t| - 1], raw)
  {
    var i := SegmentFrom(t, raw, 0);
    SegmentFromIsFirst(t, raw, 0);
    if i < |t| - 1 {
      DescendingBetween(t, i, |t| - 1);
    }
  }

  /**
   * Within the table's raw range the value lies between the values of the
   * two points around the reading.
   */
  lemma InterpolatedBetween(t: seq<CalPoint>, raw: int)
    requires Descending(t) && t[|t| - 1].raw <= raw < t[0].raw
    ensures var i := SegmentFrom(t, raw, 0);
      1 <= i && t[i].raw <= raw <= t[i - 1].raw
      && Min(t[i - 1].value, t[i].value) <= Interpolated(t, raw) <= Max(t[i - 1].value, t[i].value)
  {
    var i := SegmentFrom(t, raw, 0);
    SegmentFromIsFirst(t, raw, 0);
    assert i >= 1;
    var p, q := t[i - 1], t[i];
    WeightedAverageBetween(raw - q.raw, p.raw - raw, p.value, q.value);
  }

  function Min(a: int, b: int): int { if a <= b then a else b }
  function Max(a: int, b: int): int { if a <= b then b else a }

  /** A weighted average divided as C divides stays between the two values. */
  lemma WeightedAverageBetween(w1: nat, w2: nat, a: int, b: int)
    requires w1 + w2 > 0
    ensures Min(a, b) <= CDiv(w1 * a + w2 * b, w1 + w2) <= Max(a, b)
  {
    var lo, hi, d := Min(a, b), Max(a, b), w1 + w2;
    var n := w1 * a + w2 * b;
    MulLe(w1, lo, a);
    MulLe(w1, a, hi);
    MulLe(w2, lo, b);
    MulLe(w2, b, hi);
    assert d * lo == w1 * lo + w2 * lo && d * hi == w1 * hi + w2 * hi;
    CDivBetween(n, d, lo, hi);
  }

  lemma MulLe(w: nat, a: int, b: int)
    requires a <= b
    ensures w * a <= w * b
  {
  }

  /** d * lo <= n <= d * hi gives lo <= n / d <= hi for C division. */
  lemma CDivBetween(n: int, d: int, lo: int, hi: int)
    requires d > 0 && d * lo <= n <= d * hi
    ensures lo <= CDiv(n, d) <= hi
  {
    if n >= 0 {
      assert CDiv(n, d) == n / d;
      NatDivBetween(n, d, lo, hi);
    } else {
      assert CDiv(n, d) == -((-n) / d);
      NegMul(d, hi);
      NegMul(d, lo);
      NatDivBetween(-n, d, -hi, -lo);
    }
  }

  lemma NegMul(d: int, x: int)
    ensures d * -x == -(d * x)
  {
  }

  /** The same for a non-negative numerator, where C and Euclidean division agree. */
  lemma NatDivBetween(n: nat, d: int, lo: int, hi: int)
    requires d > 0 && d * lo <= n <= d * hi
    ensures lo <= n / d <= hi
  {
    var q := n / d;
    assert lo <= q by {
      DivBounds(n, d);
      LtCancel(lo, q + 1, d);
    }
    assert q <= hi by {
      DivBounds(n, d);
      LeCancel(q, hi, d);
    }
  }

  /** The segment search and the interpolation of read_signal_strength and read_snr, on any descending table. */
  method Interpolate(t: seq<CalPoint>, raw: int) returns (val: int)
    requires Descending(t)
    ensures val == Interpolated(t, raw)
  {
    var i := 0;
    while i < |t| - 1 && !(t[i].raw < raw)
      invariant i <= |t| - 1 && SegmentFrom(t, raw, i) == SegmentFrom(t, raw, 0)
      decreases |t| - 1 - i
    {
      i := i + 1;
    }
    if i == 0 {
      val := t[0].value;
    } else {
      val := (raw - t[i].raw) * t[i - 1].value;
      val := val + (t[i - 1].raw - raw) * t[i].value;
      val := CDiv(val, t[i - 1].raw - t[i].raw);
    }
  }

  // -------------------------------------------------------------------- BER

  /** The DVB-S bit error count: 26 bits, the low two bits of the fourth byte on top. */
  function Ber26(bs: seq<bv8>): (v: nat)
    requires |bs| == 4
    ensures v < 0x400_0000
  {
    (bs[3] & 3) as int * 0x100_0000 + bs[2] as int * 0x1_0000 + bs[1] as int * 0x100 + bs[0] as int
  }

  /** The DVB-S2 bit error count: 16 bits, little endian. */
  function Ber16(bs: seq<bv8>): (v: nat)
    requires |bs| == 2
    ensures v < 0x1_0000
  {
    bs[1] as int * 0x100 + bs[0] as int
  }

  /** Every 26-bit count is read back from its four little-endian bytes. */
  lemma Ber26RoundTrip(v: nat)
    requires v < 0x400_0000
    ensures Ber26([Lo8(v), Lo8(v / 0x100), Lo8(v / 0x1_0000), Lo8(v / 0x100_0000)]) == v
  {
    var bs := [Lo8(v), Lo8(v / 0x100), Lo8(v / 0x1_0000), Lo8(v / 0x100_0000)];
    LowTwoBits(bs[3]);
    assert (bs[3] & 3) as int == (v / 0x100_0000) % 0x100;
    assert Ber26(bs) == (v / 0x100_0000) % 0x100 * 0x100_0000 + (v / 0x1_0000) % 0x100 * 0x1_0000
                        + (v / 0x100) % 0x100 * 0x100 + v % 0x100;
    FourBytes(v);
  }

  lemma LowTwoBits(b: bv8)
    ensures (b & 3) as int == b as int % 4
  {
  }

  /** A 32-bit value is the sum of its four bytes at their weights. */
  lemma FourBytes(v: nat)
    requires v < 0x1_0000_0000
    ensures v == (v / 0x100_0000) % 0x100 * 0x100_0000 + (v / 0x1_0000) % 0x100 * 0x1_0000
                                 + (v / 0x100) % 0x100 * 0x100 + v % 0x100
  {
    var a, b, c := v / 0x100, v / 0x1_0000, v / 0x100_0000;
    assert a / 0x100 == b;
    assert b / 0x100 == c;
    assert v == 0x100 * a + v % 0x100;
    assert a == 0x100 * b + a % 0x100;
    assert b == 0x100 * c + b % 0x100;
    assert c < 0x100;
  }

  /** Every 16-bit count is read back from its two little-endian bytes. */
  lemma Ber16RoundTrip(v: nat)
    requires v < 0x1_0000
    ensures Ber16([Lo8(v), Lo8(v / 0x100)]) == v
  {
  }

  // --------------------------------------------------------- get_frontend

  /**
   * The modulation/FEC index: the low three bits of MODFEC_0 for DVB-S (its
   * top two bits clear), otherwise MODFEC_1 + 5 in u8 arithmetic; an index
   * above 33 becomes 0.
   */
  function ModFecIndex(m0: bv8, m1: bv8): (i: nat)
    ensures i <= 33
  {
    var raw := if m0 >> 6 == 0 then (m0 & 7) as int else (m1 as int + 5) % 256;
    if raw > 33 then 0 else raw
  }

  /**
   * DVB-S readings index rows 0-7; DVB-S2 readings up to 28 index rows
   * 5-33, readings 29-250 fall back to row 0, and readings 251-255 wrap
   * around to rows 0-4.
   */
  lemma ModFecIndexCases(m0: bv8, m1: bv8)
    ensures var i := ModFecIndex(m0, m1);
      (m0 >> 6 == 0 ==> i == (m0 & 7) as int && i <= 7)
      && (m0 >> 6 != 0 && m1 <= 28 ==> i == m1 as int + 5)
      && (m0 >> 6 != 0 && 29 <= m1 <= 250 ==> i == 0)
      && (m0 >> 6 != 0 && m1 >= 251 ==> i == m1 as int - 251)
  {
  }

  /** For DVB-S the index does not depend on MODFEC_1, which the driver then does not read. */
  lemma ModFecIndexIgnoresModfec1(m0: bv8, m1: bv8, m1': bv8)
    requires m0 >> 6 == 0
    ensures ModFecIndex(m0, m1) == ModFecIndex(m0, m1')
  {
  }

  /** The result of get_frontend and the properties it leaves. */
  datatype FrontendRead = FrontendRead(ret: int, props: Props)

  /**
   * get_frontend: MODFEC_0, then MODFEC_1 for DVB-S2; the row's FEC,
   * modulation and system with inversion AUTO are stored before the symbol
   * rate is read, so a failed rate read leaves them in place.
   */
  function FrontendOf(regs: map<int, bv8>, readFail: set<int>, l: Layout, c: Props): (r: FrontendRead)
    requires |l.modfec| >= 34
  {
    if l.modfec0 in readFail then FrontendRead(EREMOTEIO, c)
    else
      var m0 := Get(regs, l.modfec0);
      if m0 >> 6 != 0 && l.modfec1 in readFail then FrontendRead(EREMOTEIO, c)
      else
        var e := l.modfec[ModFecIndex(m0, Get(regs, l.modfec1))];
        var c1 := c.(fec := e.fec, modulation := e.modulation, system := e.system, inversionAuto := true);
        if l.getSrate in readFail then FrontendRead(EREMOTEIO, c1)
        else FrontendRead(0, c1.(symbolRate := (Get(regs, l.getSrate + 1) as int * 256 + Get(regs, l.getSrate) as int) * 1000))
  }

  /**
   * get_frontend reports a row of the table whenever MODFEC reads succeed,
   * whatever the rate read does; on success the symbol rate is a whole
   * number of kS/s below 65536 kS/s, and it is the one set_frontend writes
   * when the chip echoes those bytes.
   */
  lemma FrontendReportsTableRow(regs: map<int, bv8>, readFail: set<int>, l: Layout, c: Props)
    requires |l.modfec| >= 34
    ensures var r := FrontendOf(regs, readFail, l, c);
      (r.ret == 0 ==> r.props.symbolRate % 1000 == 0 && r.props.symbolRate < 0x1_0000 * 1000)
      && (r.ret == 0 <==> (l.modfec0 !in readFail && (Get(regs, l.modfec0) >> 6 == 0 || l.modfec1 !in readFail)
                          && l.getSrate !in readFail))
      && (l.modfec0 !in readFail && (Get(regs, l.modfec0) >> 6 == 0 || l.modfec1 !in readFail) ==>
            exists i :: 0 <= i <= 33 && r.props.fec == l.modfec[i].fec && r.props.modulation == l.modfec[i].modulation
                        && r.props.system == l.modfec[i].system && r.props.inversionAuto)
      && (r.ret != 0 ==> r.props.symbolRate == c.symbolRate)
  {
    if l.modfec0 !in readFail && (Get(regs, l.modfec0) >> 6 == 0 || l.modfec1 !in readFail) {
      var i := ModFecIndex(Get(regs, l.modfec0), Get(regs, l.modfec1));
      var r := FrontendOf(regs, readFail, l, c);
      assert r.props.fec == l.modfec[i].fec;
    }
  }

  /** The symbol rate bytes set_frontend writes give back the rate in kS/s when it fits 16 bits. */
  lemma SymbolRateEcho(sr: nat)
    requires sr / 1000 < 0x1_0000
    ensures var b := SymbolRateBytes(sr);
      (b.1 as int * 256 + b.0 as int) * 1000 == (sr / 1000) * 1000
  {
  }

  // ------------------------------------------------------------ read_status

  /** FE_HAS_SIGNAL | FE_HAS_CARRIER | FE_HAS_VITERBI | FE_HAS_SYNC | FE_HAS_LOCK. */
  const LOCKED_FLAGS: FeStatus := FeStatus(true, true, true, true, true, false)

  /** The SNR the chip reports, interpolated from its 12-bit raw reading. */
  function SnrValue(regs: map<int, bv8>, l: Layout): int
    requires Descending(l.snrTable)
  {
    Interpolated(l.snrTable, RawLevel(Get(regs, l.snr), Get(regs, l.snr + 1)))
  }

  /** The signal strength the chip reports, interpolated from its 12-bit raw reading. */
  function StrengthValue(regs: map<int, bv8>, l: Layout): int
    requires Descending(l.dbmTable)
  {
    Interpolated(l.dbmTable, RawLevel(Get(regs, l.sigStr), Get(regs, l.sigStr + 1)))
  }

  /** read_snr's effect on the CNR statistic: the SNR in 0.001 dB, or no change when the read fails. */
  function CnrAfter(regs: map<int, bv8>, readFail: set<int>, l: Layout, cnr: Stat): Stat
    requires Descending(l.snrTable)
  {
    if l.snr in readFail then cnr else Stat(Decibel, 100 * SnrValue(regs, l))
  }

  /** The result of read_status with the registers, log and CNR statistic it leaves. */
  datatype StatusResult = StatusResult(ret: int, status: FeStatus, regs: map<int, bv8>, log: seq<RegWrite>, cnr: Stat)

  /**
   * read_status: DEMOD_STATUS decides the five lock flags; when locked,
   * REG_04 is read and its bit 3 cleared by a write whose result is
   * returned, and read_snr runs with its result ignored.  FE_TIMEDOUT is
   * added while no tune is armed, except when a read failed.
   */
  function StatusOf(regs: map<int, bv8>, readFail: set<int>, writeFail: set<int>, log: seq<RegWrite>,
                    l: Layout, algo: TuneState, cnr: Stat): (r: StatusResult)
    requires Descending(l.snrTable)
  {
    if l.demodStatus in readFail then StatusResult(EREMOTEIO, NoStatus, regs, log, cnr)
    else if !LockedByte(Get(regs, l.demodStatus), l) then
      StatusResult(0, NoStatus.(timedOut := algo == NoTune), regs, log, cnr)
    else
      var a := LockAck(regs, readFail, writeFail, log, l, cnr);
      if l.reg04 in readFail then a else a.(status := LOCKED_FLAGS.(timedOut := algo == NoTune))
  }

  /**
   * The locked branch of read_status: REG_04 is read (a failure returns
   * at once), its bit 3 cleared by a write whose code is kept, and
   * read_snr run for the CNR statistic.
   */
  function LockAck(regs: map<int, bv8>, readFail: set<int>, writeFail: set<int>, log: seq<RegWrite>,
                   l: Layout, cnr: Stat): StatusResult
    requires Descending(l.snrTable)
  {
    if l.reg04 in readFail then StatusResult(EREMOTEIO, LOCKED_FLAGS, regs, log, cnr)
    else
      var b := Get(regs, l.reg04);
      var w := if b & 0x08 != 0 then WriteOne(regs, writeFail, log, l.reg04, b & !0x08) else BusResult(0, regs, log);
      StatusResult(w.ret, LOCKED_FLAGS, w.regs, w.log, CnrAfter(w.regs, readFail, l, cnr))
  }

  /** DEMOD_STATUS reads LOCKED: the condition for the five lock flags. */
  predicate DemodLocked(regs: map<int, bv8>, readFail: set<int>, l: Layout)
  {
    l.demodStatus !in readFail && LockedByte(Get(regs, l.demodStatus), l)
  }

  /** The DEMOD_STATUS byte, masked, reads LOCKED. */
  predicate LockedByte(b: bv8, l: Layout)
  {
    b & l.statusMask == l.locked
  }

  /**
   * The five lock flags are set together, exactly when DEMOD_STATUS reads
   * LOCKED; TIMEDOUT exactly when no tune is armed and no read failed.
   */
  lemma StatusFlags(regs: map<int, bv8>, readFail: set<int>, writeFail: set<int>, log: seq<RegWrite>,
                    l: Layout, algo: TuneState, cnr: Stat)
    requires Descending(l.snrTable)
    ensures var r := StatusOf(regs, readFail, writeFail, log, l, algo, cnr);
      (r.status.lock <==> DemodLocked(regs, readFail, l))
      && r.status.signal == r.status.carrier == r.status.viterbi == r.status.sync == r.status.lock
      && (r.status.timedOut <==> (algo == NoTune && l.demodStatus !in readFail
                                  && (!DemodLocked(regs, readFail, l) || l.reg04 !in readFail)))
  {
    if l.demodStatus !in readFail && DemodLocked(regs, readFail, l) && l.reg04 !in readFail {
      var r := StatusOf(regs, readFail, writeFail, log, l, algo, cnr);
      assert r.status == LOCKED_FLAGS.(timedOut := algo == NoTune);
    }
  }

  /**
   * read_status fails exactly when a read fails or bit 3 of REG_04 cannot
   * be cleared; after a locked success that bit is clear.
   */
  lemma StatusReturn(regs: map<int, bv8>, readFail: set<int>, writeFail: set<int>, log: seq<RegWrite>,
                     l: Layout, algo: TuneState, cnr: Stat)
    requires Descending(l.snrTable)
    ensures var r := StatusOf(regs, readFail, writeFail, log, l, algo, cnr);
      (r.ret == 0 || r.ret == EREMOTEIO)
      && (r.ret == 0 <==> (l.demodStatus !in readFail
                           && (!DemodLocked(regs, readFail, l)
                               || (l.reg04 !in readFail && (Get(regs, l.reg04) & 0x08 == 0 || l.reg04 !in writeFail)))))
      && (r.ret == 0 && DemodLocked(regs, readFail, l) ==> Get(r.regs, l.reg04) & 0x08 == 0)
  {
    var r := StatusOf(regs, readFail, writeFail, log, l, algo, cnr);
    if l.demodStatus in readFail {
      assert r.ret == EREMOTEIO;
    } else if !DemodLocked(regs, readFail, l) {
      assert r.ret == 0;
    } else if l.reg04 in readFail {
      assert r.ret == EREMOTEIO;
    } else {
      var b := Get(regs, l.reg04);
      if b & 0x08 == 0 {
        assert r.ret == 0 && r.regs == regs;
      } else if l.reg04 in writeFail {
        assert r.ret == EREMOTEIO;
      } else {
        assert r.ret == 0 && r.regs == regs[l.reg04 := b & !0x08];
        ClearBit3(b);
      }
    }
  }

  lemma ClearBit3(b: bv8)
    ensures (b & !0x08) & 0x08 == 0
  {
  }

  // ------------------------------------------------------------- voltage

  /** enum fe_sec_voltage as the driver sees it. */
  datatype Voltage = Voltage13 | Voltage18 | VoltageOff

  /** The regmask entry set_voltage applies to LNB_CTRL, or none when the LNB is switched off. */
  function VoltageEntry(l: Layout, v: Voltage): (e: Option<RegEntry>)
    ensures e.Some? <==> v != VoltageOff
  {
    match v
    case Voltage13 => Some(RegEntry(l.lnbCtrl, 0, l.vsel))
    case Voltage18 => Some(RegEntry(l.lnbCtrl, l.vsel, 0))
    case VoltageOff => None
  }

  /** After a successful set_voltage(13 V) the VSEL13_18 bits are clear and every other bit of LNB_CTRL is kept. */
  lemma Voltage13Clears(regs: map<int, bv8>, readFail: set<int>, writeFail: set<int>, log: seq<RegWrite>, l: Layout)
    ensures var r := TableRun(regs, readFail, writeFail, log, [VoltageEntry(l, Voltage13).value]);
      r.ret == 0 ==>
        Get(r.regs, l.lnbCtrl) & l.vsel == 0
        && Get(r.regs, l.lnbCtrl) & !l.vsel == Get(regs, l.lnbCtrl) & !l.vsel
  {
    SingleEntry(regs, readFail, writeFail, log, RegEntry(l.lnbCtrl, 0, l.vsel));
    ClearBits(Get(regs, l.lnbCtrl), l.vsel);
  }

  /** After a successful set_voltage(18 V) the VSEL13_18 bits are set and every other bit of LNB_CTRL is kept. */
  lemma Voltage18Sets(regs: map<int, bv8>, readFail: set<int>, writeFail: set<int>, log: seq<RegWrite>, l: Layout)
    ensures var r := TableRun(regs, readFail, writeFail, log, [VoltageEntry(l, Voltage18).value]);
      r.ret == 0 ==>
        Get(r.regs, l.lnbCtrl) & l.vsel == l.vsel
        && Get(r.regs, l.lnbCtrl) & !l.vsel == Get(regs, l.lnbCtrl) & !l.vsel
  {
    SingleEntry(regs, readFail, writeFail, log, RegEntry(l.lnbCtrl, l.vsel, 0));
    SetBits(Get(regs, l.lnbCtrl), l.vsel);
  }

  /** Clearing the selector bits by regmask keeps every other bit. */
  lemma ClearBits(b: bv8, vsel: bv8)
    ensures MaskedByte(b, 0, vsel) & vsel == 0
    ensures MaskedByte(b, 0, vsel) & !vsel == b & !vsel
  {
  }

  /** Setting the selector bits by regmask keeps every other bit. */
  lemma SetBits(b: bv8, vsel: bv8)
    ensures MaskedByte(b, vsel, 0) & vsel == vsel
    ensures MaskedByte(b, vsel, 0) & !vsel == b & !vsel
  {
  }

  /** enum fe_sec_tone_mode: on, off, or any other value a caller passes. */
  datatype ToneMode = ToneOn | ToneOff | ToneInvalid

  /**
   * After a successful set_tone the DiSEqC command field of LNB_CTRL holds
   * exactly the TONE_ON or TONE_OFF bits it covers, and the bits outside
   * the field and the tone code are as before.
   */
  lemma ToneSelects(regs: map<int, bv8>, readFail: set<int>, writeFail: set<int>, log: seq<RegWrite>,
                    l: Layout, on: bool)
    ensures var code := if on then l.toneOn else l.toneOff;
      var r := TableRun(regs, readFail, writeFail, log, [RegEntry(l.lnbCtrl, code, l.cmdMask)]);
      r.ret == 0 ==>
        Get(r.regs, l.lnbCtrl) & l.cmdMask == code & l.cmdMask
        && Get(r.regs, l.lnbCtrl) & !l.cmdMask & !code == Get(regs, l.lnbCtrl) & !l.cmdMask & !code
  {
    var code := if on then l.toneOn else l.toneOff;
    SingleEntry(regs, readFail, writeFail, log, RegEntry(l.lnbCtrl, code, l.cmdMask));
    var r := TableRun(regs, readFail, writeFail, log, [RegEntry(l.lnbCtrl, code, l.cmdMask)]);
    if r.ret == 0 {
      ToneBits(Get(regs, l.lnbCtrl), code, l.cmdMask);
    }
  }

  /** regmask with a command field: the field takes the code's bits, the rest is kept. */
  lemma ToneBits(b: bv8, code: bv8, mask: bv8)
    ensures MaskedByte(b, code, mask) & mask == code & mask
    ensures MaskedByte(b, code, mask) & !mask & !code == b & !mask & !code
  {
  }

  // ---------------------------------------------------------------- i2c mux

  /** The mux select callback's return code, registers and log, with the channel it caches. */
  datatype SelectResult = SelectResult(ret: int, regs: map<int, bv8>, log: seq<RegWrite>, ch: nat)

  /** REG_06 with the I2C gate bit cleared for channel 0 (the demodulator) and set for any other (the tuner). */
  function GateByte(b: bv8, gate: bv8, chan: nat): bv8
  {
    if chan == 0 then b & !gate else b | gate
  }

  /**
   * i2c_select: nothing happens when the cached channel is the one asked
   * for; otherwise REG_06 is read and written back with the gate bit for
   * the channel, and the cache follows only when both transfers succeed.
   */
  function SelectRun(regs: map<int, bv8>, readFail: set<int>, writeFail: set<int>, log: seq<RegWrite>,
                     l: Layout, ch: nat, chan: nat): SelectResult
  {
    if ch == chan then SelectResult(0, regs, log, ch)
    else if l.reg06 in readFail then SelectResult(EREMOTEIO, regs, log, ch)
    else
      var w := WriteOne(regs, writeFail, log, l.reg06, GateByte(Get(regs, l.reg06), l.i2cGate, chan));
      SelectResult(w.ret, w.regs, w.log, if w.ret == 0 then chan else ch)
  }

  /**
   * The cached channel becomes the one asked for exactly when select
   * succeeds, which it does unless a REG_06 transfer fails; a failed select
   * changes nothing, and selecting the cached channel again is free.
   */
  lemma SelectCaches(regs: map<int, bv8>, readFail: set<int>, writeFail: set<int>, log: seq<RegWrite>,
                     l: Layout, ch: nat, chan: nat)
    ensures var r := SelectRun(regs, readFail, writeFail, log, l, ch, chan);
      (r.ret == 0 || r.ret == EREMOTEIO)
      && (r.ret == 0 <==> r.ch == chan)
      && (r.ret == 0 <==> (ch == chan || (l.reg06 !in readFail && l.reg06 !in writeFail)))
      && (r.ret != 0 ==> r.regs == regs && r.log == log && r.ch == ch)
      && (r.ret == 0 ==> SelectRun(r.regs, readFail, writeFail, r.log, l, r.ch, chan)
                           == SelectResult(0, r.regs, r.log, chan))
  {
  }

  /**
   * After a select that went to the chip, the gate bit of REG_06 is clear
   * for the demodulator channel and set for the tuner channel, and the
   * other bits of REG_06 are kept.
   */
  lemma SelectSetsGate(regs: map<int, bv8>, readFail: set<int>, writeFail: set<int>, log: seq<RegWrite>,
                       l: Layout, ch: nat, chan: nat)
    requires ch != chan
    ensures var r := SelectRun(regs, readFail, writeFail, log, l, ch, chan);
      r.ret == 0 ==>
        Get(r.regs, l.reg06) & l.i2cGate == (if chan == 0 then 0 else l.i2cGate)
        && Get(r.regs, l.reg06) & !l.i2cGate == Get(regs, l.reg06) & !l.i2cGate
  {
    var b := Get(regs, l.reg06);
    if chan == 0 {
      GateOff(b, l.i2cGate);
    } else {
      GateOn(b, l.i2cGate);
    }
  }

  lemma GateOff(b: bv8, gate: bv8)
    ensures (b & !gate) & gate == 0 && (b & !gate) & !gate == b & !gate
  {
  }

  lemma GateOn(b: bv8, gate: bv8)
    ensures (b | gate) & gate == gate && (b | gate) & !gate == b & !gate
  {
  }

  // ----------------------------------------------------------------- DiSEqC

  /** enum fe_sec_mini_cmd: burst A, burst B, or any other value a caller passes. */
  datatype MiniCmd = MiniA | MiniB | MiniInvalid

  /** What goes out on the LNB line: a DiSEqC message, or a tone burst (A when `a`). */
  datatype Transmission = Message(msg: seq<bv8>) | Burst(a: bool)

  /**
   * The LNB_CTRL command for a message of n bytes: the backup with its
   * length and command fields cleared, the send code, and n - 1 shifted
   * into bit 3 on (a C int, truncated to the byte).
   */
  function MessageCommand(l: Layout, bck: bv8, n: nat): bv8
  {
    (bck & !(l.lenMask | l.cmdMask)) | l.sendMsg | Lo8((n - 1) * 8)
  }

  /**
   * For a message of one to six bytes the command carries n - 1 in bits 3
   * to 5, and every bit of the backup outside the length and command
   * fields, the send code and bits 3 to 5 is kept.
   */
  lemma MessageCommandFields(l: Layout, bck: bv8, n: nat)
    requires 1 <= n <= 6
    ensures Lo8((n - 1) * 8) >> 3 == (n - 1) as bv8 && Lo8((n - 1) * 8) & !0x38 == 0
    ensures var keep := !(l.lenMask | l.cmdMask | l.sendMsg | 0x38);
      MessageCommand(l, bck, n) & keep == bck & keep
  {
    var len := Lo8((n - 1) * 8);
    LengthField(n, len);
    KeepOutside(bck & !(l.lenMask | l.cmdMask), l.sendMsg, len, !(l.lenMask | l.cmdMask | l.sendMsg | 0x38));
  }

  lemma LengthField(n: nat, len: bv8)
    requires 1 <= n <= 6 && len as int == (n - 1) * 8
    ensures len >> 3 == (n - 1) as bv8 && len & !0x38 == 0
  {
    assert len == ((n - 1) as bv8) << 3;
  }

  lemma KeepOutside(b: bv8, code: bv8, len: bv8, keep: bv8)
    requires keep & code == 0 && len & !0x38 == 0 && keep & 0x38 == 0
    ensures (b | code | len) & keep == b & keep
  {
  }

  /**
   * The tone burst command as tas2101_diseqc_send_burst writes it: `|`
   * binds tighter than `?:`, so the choice tests the backup's bits outside
   * the command field or-ed with the burst being A, and the byte written is
   * one of the two burst codes alone.
   */
  function BurstCommandAsWritten(l: Layout, bck: bv8, a: bool): (r: bv8)
    ensures r == l.burstA || r == l.burstB
  {
    if bck & !l.cmdMask != 0 || a then l.burstA else l.burstB
  }

  /**
   * As written, burst B goes out as burst A whenever LNB_CTRL has any bit
   * set outside the command field, and the other LNB_CTRL bits are lost.
   */
  lemma BurstBSentAsA(l: Layout, bck: bv8)
    requires bck & !l.cmdMask != 0
    ensures BurstCommandAsWritten(l, bck, false) == l.burstA
    ensures BurstCommandAsWritten(l, bck, true) == BurstCommandAsWritten(l, bck, false)
  {
  }

  /** The burst command as intended: the backup's command field replaced by the burst code. */
  function BurstCommand(l: Layout, bck: bv8, a: bool): bv8
  {
    MaskedByte(bck, if a then l.burstA else l.burstB, l.cmdMask)
  }

  /**
   * The intended burst command carries the chosen code in the command
   * field and keeps the backup's other bits, so bursts A and B differ
   * whenever their codes differ in that field.
   */
  lemma BurstCommandSelects(l: Layout, bck: bv8, a: bool)
    ensures var code := if a then l.burstA else l.burstB;
      BurstCommand(l, bck, a) & l.cmdMask == code & l.cmdMask
      && BurstCommand(l, bck, a) & !l.cmdMask & !code == bck & !l.cmdMask & !code
    ensures l.burstA & l.cmdMask != l.burstB & l.cmdMask ==> BurstCommand(l, bck, true) != BurstCommand(l, bck, false)
  {
    ToneBits(bck, l.burstA, l.cmdMask);
    ToneBits(bck, l.burstB, l.cmdMask);
  }

  /** The LNB_CTRL command that starts a transmission, the burst byte as the driver computes it. */
  function TxCommand(l: Layout, bck: bv8, t: Transmission): bv8
  {
    match t
    case Message(msg) => MessageCommand(l, bck, |msg|)
    case Burst(a) => BurstCommandAsWritten(l, bck, a)
  }

  /** An LNB_STATUS byte with DISEQC_BUSY set. */
  predicate BusyByte(b: bv8, busy: bv8)
  {
    b & busy != 0
  }

  /** The first of the ten LNB_STATUS polls from i on with DISEQC_BUSY set, or 10 when there is none. */
  function FirstBusy(polls: seq<bv8>, busy: bv8, i: nat): (k: nat)
    requires |polls| >= 10 && i <= 10
    ensures i <= k <= 10
    decreases 10 - i
  {
    if i == 10 then 10 else if BusyByte(polls[i], busy) then i else FirstBusy(polls, busy, i + 1)
  }

  lemma {:induction false} FirstBusyIsFirst(polls: seq<bv8>, busy: bv8, i: nat)
    requires |polls| >= 10 && i <= 10
    ensures var k := FirstBusy(polls, busy, i);
      (forall j :: i <= j < k ==> !BusyByte(polls[j], busy)) && (k < 10 ==> BusyByte(polls[k], busy))
    decreases 10 - i
  {
    if i < 10 && !BusyByte(polls[i], busy) {
      FirstBusyIsFirst(polls, busy, i + 1);
    }
  }

  /**
   * The wait after the command: LNB_STATUS is polled up to ten times, the
   * chip presenting polls[i] at the i-th read.  A read failure ends the
   * wait at once and a set DISEQC_BUSY bit ends it early; either way the
   * backup goes back to LNB_CTRL, and only the early end returns the
   * restore's code, the others -ETIMEDOUT.
   */
  function AwaitRun(regs: map<int, bv8>, readFail: set<int>, writeFail: set<int>, log: seq<RegWrite>,
                    l: Layout, bck: bv8, polls: seq<bv8>): BusResult
    requires |polls| >= 10
  {
    var k := if l.lnbStatus in readFail then 0 else FirstBusy(polls, l.busy, 0);
    var w := WriteOne(regs[l.lnbStatus := polls[if k == 10 then 9 else k]], writeFail, log, l.lnbCtrl, bck);
    if l.lnbStatus !in readFail && k < 10 then w else w.(ret := ETIMEDOUT)
  }

  /**
   * After i polls of AwaitLine: nothing written, LNB_STATUS holding the last
   * poll (the reads so far succeeded), and no earlier poll busy.
   */
  ghost predicate AwaitProgress(regs0: map<int, bv8>, readFail: set<int>, log0: seq<RegWrite>,
                                regs: map<int, bv8>, log: seq<RegWrite>, l: Layout, polls: seq<bv8>, i: nat)
  {
    |polls| >= 10 && i <= 10 && log == log0
    && (i == 0 ==> regs == regs0)
    && (i > 0 ==> regs == regs0[l.lnbStatus := polls[i - 1]] && l.lnbStatus !in readFail)
    && FirstBusy(polls, l.busy, i) == FirstBusy(polls, l.busy, 0)
  }

  /** A second update of the same register overrides the first. */
  lemma UpdateTwice(m: map<int, bv8>, a: int, x: bv8, y: bv8)
    ensures m[a := x][a := y] == m[a := y]
  {
  }

  lemma AwaitStep(regs0: map<int, bv8>, readFail: set<int>, log0: seq<RegWrite>, l: Layout, polls: seq<bv8>, i: nat)
    requires |polls| >= 10 && i < 10 && FirstBusy(polls, l.busy, i) == FirstBusy(polls, l.busy, 0)
    requires l.lnbStatus !in readFail && !BusyByte(polls[i], l.busy)
    ensures AwaitProgress(regs0, readFail, log0, regs0[l.lnbStatus := polls[i]], log0, l, polls, i + 1)
  {
  }

  lemma AwaitEndsOnReadFailure(regs0: map<int, bv8>, readFail: set<int>, writeFail: set<int>, log0: seq<RegWrite>,
                               l: Layout, bck: bv8, polls: seq<bv8>)
    requires |polls| >= 10 && l.lnbStatus in readFail
    ensures AwaitRun(regs0, readFail, writeFail, log0, l, bck, polls)
      == WriteOne(regs0[l.lnbStatus := polls[0]], writeFail, log0, l.lnbCtrl, bck).(ret := ETIMEDOUT)
  {
  }

  lemma AwaitEndsOnBusy(regs0: map<int, bv8>, readFail: set<int>, writeFail: set<int>, log0: seq<RegWrite>,
                        l: Layout, bck: bv8, polls: seq<bv8>, i: nat)
    requires |polls| >= 10 && i < 10 && l.lnbStatus !in readFail
    requires FirstBusy(polls, l.busy, i) == FirstBusy(polls, l.busy, 0) && BusyByte(polls[i], l.busy)
    ensures AwaitRun(regs0, readFail, writeFail, log0, l, bck, polls)
      == WriteOne(regs0[l.lnbStatus := polls[i]], writeFail, log0, l.lnbCtrl, bck)
  {
  }

  lemma AwaitEndsOnTimeout(regs0: map<int, bv8>, readFail: set<int>, writeFail: set<int>, log0: seq<RegWrite>,
                           l: Layout, bck: bv8, polls: seq<bv8>)
    requires |polls| >= 10 && l.lnbStatus !in readFail && FirstBusy(polls, l.busy, 10) == FirstBusy(polls, l.busy, 0)
    ensures AwaitRun(regs0, readFail, writeFail, log0, l, bck, polls)
      == WriteOne(regs0[l.lnbStatus := polls[9]], writeFail, log0, l.lnbCtrl, bck).(ret := ETIMEDOUT)
  {
  }

  /**
   * send_diseqc_msg and diseqc_send_burst once the burst is valid: LNB_CTRL
   * is backed up (a failed read returns at once), bit 6 of REG_34 cleared,
   * the message written to the DiSEqC buffer, the command written, and the
   * line awaited; a failure after the backup restores LNB_CTRL and returns
   * the restore's code.
   */
  function TxRun(regs: map<int, bv8>, readFail: set<int>, writeFail: set<int>, log: seq<RegWrite>,
                 l: Layout, t: Transmission, polls: seq<bv8>): BusResult
    requires |polls| >= 10
  {
    if l.lnbCtrl in readFail then BusResult(EREMOTEIO, regs, log)
    else
      var bck := Get(regs, l.lnbCtrl);
      var m := TableRun(regs, readFail, writeFail, log, [RegEntry(l.reg34, 0, 0x40)]);
      if m.ret != 0 then WriteOne(m.regs, writeFail, m.log, l.lnbCtrl, bck)
      else
        var w := match t
          case Message(msg) => BlockWrite(m.regs, writeFail, m.log, l.diseqcBuffer, msg)
          case Burst(_) => BusResult(0, m.regs, m.log);
        if w.ret != 0 then WriteOne(w.regs, writeFail, w.log, l.lnbCtrl, bck)
        else
          var c := WriteOne(w.regs, writeFail, w.log, l.lnbCtrl, TxCommand(l, bck, t));
          if c.ret != 0 then WriteOne(c.regs, writeFail, c.log, l.lnbCtrl, bck)
          else AwaitRun(c.regs, readFail, writeFail, c.log, l, bck, polls)
  }

  /** A block write of `bs` from `a` on: -EREMOTEIO and no change when the bus refuses it. */
  function BlockWrite(regs: map<int, bv8>, writeFail: set<int>, log: seq<RegWrite>, a: int, bs: seq<bv8>): BusResult
  {
    if a in writeFail then BusResult(EREMOTEIO, regs, log) else BusResult(0, StoreBlock(regs, a, bs), log + BlockLog(a, bs))
  }

  /** Every step up to the command write gets through. */
  predicate CommandSent(readFail: set<int>, writeFail: set<int>, l: Layout, t: Transmission)
  {
    l.lnbCtrl !in readFail && EntryOk(readFail, writeFail, RegEntry(l.reg34, 0, 0x40))
    && (t.Message? ==> l.diseqcBuffer !in writeFail) && l.lnbCtrl !in writeFail
  }

  /**
   * Whatever happens after the backup, the last write is the backup going
   * back to LNB_CTRL, which then holds its old value; without a backup
   * nothing is written.
   */
  lemma TxRestores(regs: map<int, bv8>, readFail: set<int>, writeFail: set<int>, log: seq<RegWrite>,
                   l: Layout, t: Transmission, polls: seq<bv8>)
    requires |polls| >= 10
    ensures var r := TxRun(regs, readFail, writeFail, log, l, t, polls);
      (l.lnbCtrl in readFail ==> r == BusResult(EREMOTEIO, regs, log))
      && (l.lnbCtrl !in readFail && l.lnbCtrl !in writeFail ==>
            |r.log| > |log| && r.log[|r.log| - 1] == RegWrite(l.lnbCtrl, Get(regs, l.lnbCtrl))
            && Get(r.regs, l.lnbCtrl) == Get(regs, l.lnbCtrl))
  {
    if l.lnbCtrl !in readFail && l.lnbCtrl !in writeFail {
      SingleEntry(regs, readFail, writeFail, log, RegEntry(l.reg34, 0, 0x40));
    }
  }

  /**
   * A transmission returns -ETIMEDOUT exactly when the command went out
   * and no readable poll saw DISEQC_BUSY.  It returns 0 exactly when the
   * backup is read and LNB_CTRL is writable, unless the command went out
   * without a poll seeing DISEQC_BUSY: a failure of REG_34 or of the
   * message write is answered with the restore's code, so it is reported
   * as 0.  Everything else gives -EREMOTEIO.
   */
  lemma TxOutcome(regs: map<int, bv8>, readFail: set<int>, writeFail: set<int>, log: seq<RegWrite>,
                  l: Layout, t: Transmission, polls: seq<bv8>)
    requires |polls| >= 10
    ensures var r := TxRun(regs, readFail, writeFail, log, l, t, polls);
      var seen := l.lnbStatus !in readFail && exists k :: 0 <= k < 10 && BusyByte(polls[k], l.busy);
      (r.ret == 0 || r.ret == EREMOTEIO || r.ret == ETIMEDOUT)
      && (r.ret == ETIMEDOUT <==> CommandSent(readFail, writeFail, l, t) && !seen)
      && (r.ret == 0 <==> (l.lnbCtrl !in readFail && l.lnbCtrl !in writeFail
                           && (!CommandSent(readFail, writeFail, l, t) || seen)))
  {
    SingleEntry(regs, readFail, writeFail, log, RegEntry(l.reg34, 0, 0x40));
    if CommandSent(readFail, writeFail, l, t) {
      var bck := Get(regs, l.lnbCtrl);
      var m := TableRun(regs, readFail, writeFail, log, [RegEntry(l.reg34, 0, 0x40)]);
      var w := match t
        case Message(msg) => BlockWrite(m.regs, writeFail, m.log, l.diseqcBuffer, msg)
        case Burst(_) => BusResult(0, m.regs, m.log);
      var c := WriteOne(w.regs, writeFail, w.log, l.lnbCtrl, TxCommand(l, bck, t));
      assert TxRun(regs, readFail, writeFail, log, l, t, polls) == AwaitRun(c.regs, readFail, writeFail, c.log, l, bck, polls);
      AwaitOutcome(c.regs, readFail, writeFail, c.log, l, bck, polls);
    }
  }

  /**
   * A REG_34 failure after the backup is reported as success when the
   * restore goes through, and no command reaches LNB_CTRL.
   */
  lemma TxMasksSetupFailure(regs: map<int, bv8>, readFail: set<int>, writeFail: set<int>, log: seq<RegWrite>,
                            l: Layout, t: Transmission, polls: seq<bv8>)
    requires |polls| >= 10
    requires l.lnbCtrl !in readFail && l.lnbCtrl !in writeFail && l.reg34 in writeFail
    ensures var r := TxRun(regs, readFail, writeFail, log, l, t, polls);
      r.ret == 0 && r.log == log + [RegWrite(l.lnbCtrl, Get(regs, l.lnbCtrl))]
  {
    SingleEntry(regs, readFail, writeFail, log, RegEntry(l.reg34, 0, 0x40));
  }

  /** With LNB_CTRL writable, the wait returns 0 exactly when a readable poll sees DISEQC_BUSY, and -ETIMEDOUT otherwise. */
  lemma AwaitOutcome(regs: map<int, bv8>, readFail: set<int>, writeFail: set<int>, log: seq<RegWrite>,
                     l: Layout, bck: bv8, polls: seq<bv8>)
    requires |polls| >= 10 && l.lnbCtrl !in writeFail
    ensures var r := AwaitRun(regs, readFail, writeFail, log, l, bck, polls);
      var seen := l.lnbStatus !in readFail && exists k :: 0 <= k < 10 && BusyByte(polls[k], l.busy);
      (r.ret == 0 <==> seen) && (r.ret == ETIMEDOUT <==> !seen)
  {
    FirstBusyIsFirst(polls, l.busy, 0);
    var k := FirstBusy(polls, l.busy, 0);
    if k < 10 {
      assert BusyByte(polls[k], l.busy);
    }
  }

  // ------------------------------------------------------------------- init

  /** The chip's first and second init tables. */
  function InitTable0(l: Layout, chip: Chip): seq<RegEntry>
  {
    if chip == Tas2101Chip then l.tas2101fe0 else l.tas2100fe0
  }

  function InitTable1(l: Layout, chip: Chip): seq<RegEntry>
  {
    if chip == Tas2101Chip then l.tas2101fe1 else l.tas2100fe1
  }

  /**
   * initfe: the chip's first table, the six configuration bytes from 0xe6
   * on, the seventh written to 0xe0 (regmask with clrmask 0xff, so no
   * read), the chip's second table, and the optional third table, stopping
   * at the first failure.
   */
  function InitRun(regs: map<int, bv8>, readFail: set<int>, writeFail: set<int>, log: seq<RegWrite>,
                   l: Layout, chip: Chip, init: seq<bv8>, init2: bool): BusResult
    requires |init| == 7
  {
    var t0 := TableRun(regs, readFail, writeFail, log, InitTable0(l, chip));
    if t0.ret != 0 then BusResult(t0.ret, t0.regs, t0.log)
    else
      var b := BlockWrite(t0.regs, writeFail, t0.log, 0xe6, init[..6]);
      if b.ret != 0 then b
      else
        var m := TableRun(b.regs, readFail, writeFail, b.log, [RegEntry(0xe0, init[6], 0xff)]);
        if m.ret != 0 then BusResult(m.ret, m.regs, m.log)
        else
          var t1 := TableRun(m.regs, readFail, writeFail, m.log, InitTable1(l, chip));
          if t1.ret != 0 || !init2 then BusResult(t1.ret, t1.regs, t1.log)
          else
            var t2 := TableRun(t1.regs, readFail, writeFail, t1.log, l.initfe2);
            BusResult(t2.ret, t2.regs, t2.log)
  }

  /**
   * initfe succeeds exactly when every entry of the tables it runs gets
   * through and 0xe6 and 0xe0 accept their writes; it fails with
   * -EREMOTEIO otherwise.
   */
  lemma InitSucceedsIff(regs: map<int, bv8>, readFail: set<int>, writeFail: set<int>, log: seq<RegWrite>,
                        l: Layout, chip: Chip, init: seq<bv8>, init2: bool)
    requires |init| == 7
    ensures var r := InitRun(regs, readFail, writeFail, log, l, chip, init, init2);
      (r.ret == 0 || r.ret == EREMOTEIO)
      && (r.ret == 0 <==> (TableOk(readFail, writeFail, InitTable0(l, chip)) && 0xe6 !in writeFail && 0xe0 !in writeFail
                          && TableOk(readFail, writeFail, InitTable1(l, chip))
                          && (init2 ==> TableOk(readFail, writeFail, l.initfe2))))
  {
    var t0 := TableRun(regs, readFail, writeFail, log, InitTable0(l, chip));
    TableStopsAtFirstError(regs, readFail, writeFail, log, InitTable0(l, chip));
    if t0.ret == 0 && 0xe6 !in writeFail {
      var b := BlockWrite(t0.regs, writeFail, t0.log, 0xe6, init[..6]);
      SingleEntry(b.regs, readFail, writeFail, b.log, RegEntry(0xe0, init[6], 0xff));
      var m := TableRun(b.regs, readFail, writeFail, b.log, [RegEntry(0xe0, init[6], 0xff)]);
      if m.ret == 0 {
        TableStopsAtFirstError(m.regs, readFail, writeFail, m.log, InitTable1(l, chip));
        var t1 := TableRun(m.regs, readFail, writeFail, m.log, InitTable1(l, chip));
        TableStopsAtFirstError(t1.regs, readFail, writeFail, t1.log, l.initfe2);
      }
    }
  }

  /**
   * A successful initfe writes, right after the first table's entries,
   * the six configuration bytes to 0xe6-0xeb in order and then the seventh
   * to 0xe0.
   */
  lemma InitWritesConfig(regs: map<int, bv8>, readFail: set<int>, writeFail: set<int>, log: seq<RegWrite>,
                         l: Layout, chip: Chip, init: seq<bv8>, init2: bool)
    requires |init| == 7
    ensures var r := InitRun(regs, readFail, writeFail, log, l, chip, init, init2);
      var n := |log| + |InitTable0(l, chip)|;
      r.ret == 0 ==>
        |r.log| >= n + 7 && r.log[n..n + 7] == BlockLog(0xe6, init[..6]) + [RegWrite(0xe0, init[6])]
  {
    var r := InitRun(regs, readFail, writeFail, log, l, chip, init, init2);
    if r.ret == 0 {
      var t0 := TableRun(regs, readFail, writeFail, log, InitTable0(l, chip));
      var cfg := BlockLog(0xe6, init[..6]) + [RegWrite(0xe0, init[6])];
      assert |t0.log| == |log| + |InitTable0(l, chip)| by {
        TableStopsAtFirstError(regs, readFail, writeFail, log, InitTable0(l, chip));
        TableWritesInOrder(regs, readFail, writeFail, log, InitTable0(l, chip));
      }
      var b := BlockWrite(t0.regs, writeFail, t0.log, 0xe6, init[..6]);
      var m := TableRun(b.regs, readFail, writeFail, b.log, [RegEntry(0xe0, init[6], 0xff)]);
      assert m.log == t0.log + cfg by {
        SingleEntry(b.regs, readFail, writeFail, b.log, RegEntry(0xe0, init[6], 0xff));
      }
      var t1 := TableRun(m.regs, readFail, writeFail, m.log, InitTable1(l, chip));
      assert r.log[..|m.log|] == m.log by {
        TableWritesInOrder(m.regs, readFail, writeFail, m.log, InitTable1(l, chip));
        if init2 {
          TableWritesInOrder(t1.regs, readFail, writeFail, t1.log, l.initfe2);
          PrefixTrans(m.log, t1.log, r.log);
        }
      }
      assert r.log[|t0.log|..|m.log|] == r.log[..|m.log|][|t0.log|..];
    }
  }

  // ---------------------------------------------------------- set_frontend

  /** DVB-S with QPSK and DVB-S2 with any modulation: the only properties set_frontend accepts. */
  predicate Supported(c: Props)
  {
    (c.system == Dvbs && c.modulation == Qpsk) || c.system == Dvbs2
  }

  /**
   * set_frontend: unsupported properties give -EINVAL before any I/O;
   * otherwise the setfe table, the symbol rate in kS/s as two bytes at
   * SET_SRATE0, two zero bytes at FREQ_OS0 and bit 0 of REG_30, stopping at
   * the first failure.
   */
  function SetFeRun(regs: map<int, bv8>, readFail: set<int>, writeFail: set<int>, log: seq<RegWrite>,
                    l: Layout, c: Props): BusResult
  {
    if !Supported(c) then BusResult(EINVAL, regs, log)
    else
      var t := TableRun(regs, readFail, writeFail, log, l.setfe);
      if t.ret != 0 then BusResult(t.ret, t.regs, t.log)
      else
        var sr := SymbolRateBytes(c.symbolRate);
        var w := BlockWrite(t.regs, writeFail, t.log, l.setSrate, [sr.0, sr.1]);
        if w.ret != 0 then w
        else
          var f := BlockWrite(w.regs, writeFail, w.log, l.freqOs, [0, 0]);
          if f.ret != 0 then f
          else
            var g := TableRun(f.regs, readFail, writeFail, f.log, [RegEntry(l.reg30, 0x01, 0)]);
            BusResult(g.ret, g.regs, g.log)
  }

  /** set_frontend returns -EINVAL exactly for unsupported properties, and then changes nothing. */
  lemma SetFeRejects(regs: map<int, bv8>, readFail: set<int>, writeFail: set<int>, log: seq<RegWrite>,
                     l: Layout, c: Props)
    ensures var r := SetFeRun(regs, readFail, writeFail, log, l, c);
      (r.ret == 0 || r.ret == EINVAL || r.ret == EREMOTEIO)
      && (r.ret == EINVAL <==> !Supported(c))
      && (r.ret == EINVAL ==> r.regs == regs && r.log == log)
  {
  }

  /**
   * After a successful set_frontend, SET_SRATE0/1 hold the symbol rate in
   * kS/s, low byte first, when neither is REG_30 or FREQ_OS0/1.
   */
  lemma SetFeProgramsRate(regs: map<int, bv8>, readFail: set<int>, writeFail: set<int>, log: seq<RegWrite>,
                          l: Layout, c: Props)
    requires c.symbolRate / 1000 < 0x1_0000
    requires l.freqOs > l.setSrate + 1 || l.freqOs + 1 < l.setSrate
    requires l.reg30 != l.setSrate && l.reg30 != l.setSrate + 1
    ensures var r := SetFeRun(regs, readFail, writeFail, log, l, c);
      r.ret == 0 ==> Get(r.regs, l.setSrate) as int + 256 * Get(r.regs, l.setSrate + 1) as int == c.symbolRate / 1000
  {
    var r := SetFeRun(regs, readFail, writeFail, log, l, c);
    if r.ret == 0 {
      var t := TableRun(regs, readFail, writeFail, log, l.setfe);
      var sr := SymbolRateBytes(c.symbolRate);
      var r1 := StoreBlock(t.regs, l.setSrate, [sr.0, sr.1]);
      var r2 := StoreBlock(r1, l.freqOs, [0, 0]);
      SetFeSuccessRegs(regs, readFail, writeFail, log, l, c);
      assert Get(r2, l.setSrate) == sr.0 && Get(r2, l.setSrate + 1) == sr.1 by {
        StoreBlockReadsBack(t.regs, l.setSrate, [sr.0, sr.1], l.setSrate);
        StoreBlockReadsBack(t.regs, l.setSrate, [sr.0, sr.1], l.setSrate + 1);
        StoreBlockReadsBack(r1, l.freqOs, [0, 0], l.setSrate);
        StoreBlockReadsBack(r1, l.freqOs, [0, 0], l.setSrate + 1);
      }
      assert Get(r.regs, l.setSrate) == sr.0 && Get(r.regs, l.setSrate + 1) == sr.1;
    }
  }

  /** After a successful set_frontend, FREQ_OS0/1 are zero when neither is REG_30. */
  lemma SetFeClearsOffset(regs: map<int, bv8>, readFail: set<int>, writeFail: set<int>, log: seq<RegWrite>,
                          l: Layout, c: Props)
    requires l.reg30 != l.freqOs && l.reg30 != l.freqOs + 1
    ensures var r := SetFeRun(regs, readFail, writeFail, log, l, c);
      r.ret == 0 ==> Get(r.regs, l.freqOs) == 0 && Get(r.regs, l.freqOs + 1) == 0
  {
    var r := SetFeRun(regs, readFail, writeFail, log, l, c);
    if r.ret == 0 {
      var t := TableRun(regs, readFail, writeFail, log, l.setfe);
      var sr := SymbolRateBytes(c.symbolRate);
      var r1 := StoreBlock(t.regs, l.setSrate, [sr.0, sr.1]);
      SetFeSuccessRegs(regs, readFail, writeFail, log, l, c);
      StoreBlockReadsBack(r1, l.freqOs, [0, 0], l.freqOs);
      StoreBlockReadsBack(r1, l.freqOs, [0, 0], l.freqOs + 1);
    }
  }

  /** After a successful set_frontend, bit 0 of REG_30 is set. */
  lemma SetFeEnablesReg30(regs: map<int, bv8>, readFail: set<int>, writeFail: set<int>, log: seq<RegWrite>,
                          l: Layout, c: Props)
    ensures var r := SetFeRun(regs, readFail, writeFail, log, l, c);
      r.ret == 0 ==> Get(r.regs, l.reg30) & 1 == 1
  {
    var r := SetFeRun(regs, readFail, writeFail, log, l, c);
    if r.ret == 0 {
      var t := TableRun(regs, readFail, writeFail, log, l.setfe);
      var sr := SymbolRateBytes(c.symbolRate);
      var r2 := StoreBlock(StoreBlock(t.regs, l.setSrate, [sr.0, sr.1]), l.freqOs, [0, 0]);
      SetFeSuccessRegs(regs, readFail, writeFail, log, l, c);
      var m := MaskedByte(Get(r2, l.reg30), 0x01, 0);
      assert Get(r.regs, l.reg30) == m;
    }
  }

  /** The registers a successful set_frontend leaves: the two block writes after the setfe table, then REG_30's regmask. */
  lemma SetFeSuccessRegs(regs: map<int, bv8>, readFail: set<int>, writeFail: set<int>, log: seq<RegWrite>,
                         l: Layout, c: Props)
    ensures var r := SetFeRun(regs, readFail, writeFail, log, l, c);
      var t := TableRun(regs, readFail, writeFail, log, l.setfe);
      var sr := SymbolRateBytes(c.symbolRate);
      var r2 := StoreBlock(StoreBlock(t.regs, l.setSrate, [sr.0, sr.1]), l.freqOs, [0, 0]);
      r.ret == 0 ==> r.regs == r2[l.reg30 := MaskedByte(Get(r2, l.reg30), 0x01, 0)]
  {
    var r := SetFeRun(regs, readFail, writeFail, log, l, c);
    if r.ret == 0 {
      var t := TableRun(regs, readFail, writeFail, log, l.setfe);
      var sr := SymbolRateBytes(c.symbolRate);
      var r2 := StoreBlock(StoreBlock(t.regs, l.setSrate, [sr.0, sr.1]), l.freqOs, [0, 0]);
      var log2 := t.log + BlockLog(l.setSrate, [sr.0, sr.1]) + BlockLog(l.freqOs, [0, 0]);
      SingleEntry(r2, readFail, writeFail, log2, RegEntry(l.reg30, 0x01, 0));
    }
  }

  // ------------------------------------------------------------------ search

  /**
   * The kind of a search poll at which DEMOD_STATUS reads s, on the
   * registers as set_frontend left them (earlier unlocked polls change only
   * DEMOD_STATUS).  TIMEDOUT never shows: the search keeps a tune armed.
   */
  function KindAt(regs: map<int, bv8>, readFail: set<int>, writeFail: set<int>, l: Layout, s: bv8): PollKind
  {
    if l.demodStatus in readFail then PollError
    else if !LockedByte(s, l) then PollWaiting
    else if l.reg04 in readFail || (Get(regs, l.reg04) & 0x08 != 0 && l.reg04 in writeFail) then PollError
    else PollLocked
  }

  /** The kinds of the five polls. */
  function SearchKinds(regs: map<int, bv8>, readFail: set<int>, writeFail: set<int>, l: Layout, polls: seq<bv8>)
    : (ks: seq<PollKind>)
    requires |polls| >= 5
    ensures |ks| == 5 && forall j :: 0 <= j < 5 ==> ks[j] != PollTimedOut
  {
    seq(5, j requires 0 <= j < 5 => KindAt(regs, readFail, writeFail, l, polls[j]))
  }

  /** The verdict of a search with the registers, log and CNR statistic it leaves. */
  datatype SearchRun = SearchRun(verdict: SearchResult, regs: map<int, bv8>, log: seq<RegWrite>, cnr: Stat)

  /**
   * The search's polls from i on: DEMOD_STATUS presents polls[i], and
   * read_status (with a tune armed) runs; an error ends the search, a lock
   * succeeds, and five polls without one fail.
   */
  function PollLoop(regs: map<int, bv8>, readFail: set<int>, writeFail: set<int>, log: seq<RegWrite>,
                    l: Layout, cnr: Stat, polls: seq<bv8>, i: nat): SearchRun
    requires Descending(l.snrTable) && |polls| >= 5 && i <= 5
    decreases 5 - i
  {
    if i == 5 then SearchRun(SearchFailed, regs, log, cnr)
    else
      var s := StatusOf(regs[l.demodStatus := polls[i]], readFail, writeFail, log, l, Tune, cnr);
      if s.ret != 0 then SearchRun(SearchError, s.regs, s.log, s.cnr)
      else if s.status.lock then SearchRun(SearchSuccess, s.regs, s.log, s.cnr)
      else PollLoop(s.regs, readFail, writeFail, s.log, l, s.cnr, polls, i + 1)
  }

  /** search: set_frontend (an error ends it), then the polls. */
  function SearchOf(regs: map<int, bv8>, readFail: set<int>, writeFail: set<int>, log: seq<RegWrite>,
                    l: Layout, c: Props, cnr: Stat, polls: seq<bv8>): SearchRun
    requires Descending(l.snrTable) && |polls| >= 5
  {
    var f := SetFeRun(regs, readFail, writeFail, log, l, c);
    if f.ret != 0 then SearchRun(SearchError, f.regs, f.log, cnr)
    else PollLoop(f.regs, readFail, writeFail, f.log, l, cnr, polls, 0)
  }

  /** The verdict of the polls from i on is the polling verdict of their kinds. */
  lemma {:induction false} PollLoopVerdict(regs: map<int, bv8>, base: map<int, bv8>, readFail: set<int>,
                                           writeFail: set<int>, log: seq<RegWrite>, l: Layout, cnr: Stat,
                                           polls: seq<bv8>, i: nat)
    requires LayoutOk(l) && |polls| >= 5 && i <= 5 && Get(regs, l.reg04) == Get(base, l.reg04)
    ensures PollLoop(regs, readFail, writeFail, log, l, cnr, polls, i).verdict
            == PollVerdict(SearchKinds(base, readFail, writeFail, l, polls), i)
    decreases 5 - i
  {
    if i < 5 {
      var regs' := regs[l.demodStatus := polls[i]];
      StatusFlags(regs', readFail, writeFail, log, l, Tune, cnr);
      StatusReturn(regs', readFail, writeFail, log, l, Tune, cnr);
      var s := StatusOf(regs', readFail, writeFail, log, l, Tune, cnr);
      assert Get(regs', l.reg04) == Get(base, l.reg04);
      if s.ret == 0 && !s.status.lock {
        assert s.regs == regs';
        PollLoopVerdict(s.regs, base, readFail, writeFail, s.log, l, s.cnr, polls, i + 1);
      }
    }
  }

  /**
   * The search succeeds exactly when set_frontend succeeds and some poll
   * locks after error-free polls without lock, fails exactly when all five
   * polls are error-free without lock, and reports an error otherwise.
   */
  lemma SearchMeaning(regs: map<int, bv8>, readFail: set<int>, writeFail: set<int>, log: seq<RegWrite>,
                      l: Layout, c: Props, cnr: Stat, polls: seq<bv8>)
    requires LayoutOk(l) && |polls| >= 5
    ensures var f := SetFeRun(regs, readFail, writeFail, log, l, c);
      var ks := SearchKinds(f.regs, readFail, writeFail, l, polls);
      var v := SearchOf(regs, readFail, writeFail, log, l, c, cnr, polls).verdict;
      (v == SearchSuccess || v == SearchFailed || v == SearchError)
      && (v == SearchSuccess <==> f.ret == 0 && exists k :: 0 <= k < 5 && ks[k] == PollLocked && WaitingFrom(ks, 0, k))
      && (v == SearchFailed <==> f.ret == 0 && WaitingFrom(ks, 0, 5))
  {
    var f := SetFeRun(regs, readFail, writeFail, log, l, c);
    var ks := SearchKinds(f.regs, readFail, writeFail, l, polls);
    if f.ret == 0 {
      PollLoopVerdict(f.regs, f.regs, readFail, writeFail, f.log, l, cnr, polls, 0);
      PollVerdictMeaning(ks, 0);
    }
  }

  // ------------------------------------------------------------------ driver

  /** The seven configuration bytes of the board (cfg->init). */
  type InitBytes = s: seq<bv8> | |s| == 7 witness [0, 0, 0, 0, 0, 0, 0]

  /**
   * One demodulator as the driver keeps it: the chip's register file, the
   * header layout, the board configuration, the tune state (priv->algo),
   * the cached mux channel (priv->i2c_ch) and the CNR statistic of the
   * property cache.
   */
  class Demod {
    const rm: RegisterMap
    const layout: Layout
    const chip: Chip
    const initBytes: InitBytes
    const init2: bool
    var algo: TuneState
    var i2cCh: nat
    var cnr: Stat

    /**
     * attach, once the chip answers: the configuration is recorded and the
     * mux channel starts at 0.  priv is zero-filled, so the tune state is
     * whichever one tas2101_priv.h numbers 0, given here as `algo0`.
     */
    constructor (r: RegisterMap, l: Layout, c: Chip, init: InitBytes, withInit2: bool, algo0: TuneState)
      ensures rm == r && layout == l && chip == c && initBytes == init && init2 == withInit2
      ensures algo == algo0 && i2cCh == 0 && cnr == DefaultStat
    {
      rm, layout, chip, initBytes, init2 := r, l, c, init, withInit2;
      algo, i2cCh, cnr := algo0, 0, DefaultStat;
    }

    /** initfe (see InitRun); the tune state becomes NOTUNE first, whatever the result. */
    method InitFe() returns (ret: int)
      modifies rm, this`algo
      ensures var r := InitRun(old(rm.regs), rm.readFail, rm.writeFail, old(rm.log), layout, chip, initBytes, init2);
        ret == r.ret && rm.regs == r.regs && rm.log == r.log
      ensures algo == NoTune
    {
      algo := NoTune;
      ret := rm.WrTable(InitTable0(layout, chip));
      if ret != 0 {
        return;
      }
      ret := rm.WriteBlock(0xe6, initBytes[..6]);
      if ret != 0 {
        return;
      }
      ret := rm.RegMask(0xe0, initBytes[6], 0xff);
      if ret != 0 {
        return;
      }
      ret := rm.WrTable(InitTable1(layout, chip));
      if ret != 0 || !init2 {
        return;
      }
      ret := rm.WrTable(layout.initfe2);
    }

    /** sleep: the tune is disarmed and nothing goes to the chip. */
    method Sleep() returns (ret: int)
      modifies this`algo
      ensures ret == 0 && algo == NoTune
    {
      algo := NoTune;
      ret := 0;
    }

    /** dtv_tune: a tune is armed. */
    method DtvTune() returns (ret: int)
      modifies this`algo
      ensures ret == 0 && algo == Tune
    {
      algo := Tune;
      ret := 0;
    }

    /** get_frontend_algo: NOTUNE while no tune is armed, CUSTOM (the search callback) otherwise. */
    method GetAlgo() returns (a: FrontendAlgo)
      ensures a == AlgoNotune <==> algo == NoTune
      ensures a == AlgoNotune || a == AlgoCustom
    {
      a := if algo == NoTune then AlgoNotune else AlgoCustom;
    }

    /**
     * read_ber: the 26-bit DVB-S count or the 16-bit DVB-S2 count, 0 for
     * any other system; a failed read returns its code and leaves the
     * caller's value alone (None).
     */
    method ReadBer(sys: DeliverySystem) returns (ret: int, ber: Option<nat>)
      ensures sys == Dvbs && layout.s1Ber in rm.readFail ==> ret == EREMOTEIO && ber == None
      ensures sys == Dvbs && layout.s1Ber !in rm.readFail ==>
                ret == 0 && ber == Some(Ber26(LoadBlock(rm.regs, layout.s1Ber, 4)))
      ensures sys == Dvbs2 && layout.s2Ber in rm.readFail ==> ret == EREMOTEIO && ber == None
      ensures sys == Dvbs2 && layout.s2Ber !in rm.readFail ==>
                ret == 0 && ber == Some(Ber16(LoadBlock(rm.regs, layout.s2Ber, 2)))
      ensures sys != Dvbs && sys != Dvbs2 ==> ret == 0 && ber == Some(0)
    {
      var bs: seq<bv8>;
      if sys == Dvbs {
        ret, bs := rm.ReadBlock(layout.s1Ber, 4);
        ber := if ret != 0 then None else Some(Ber26(bs));
      } else if sys == Dvbs2 {
        ret, bs := rm.ReadBlock(layout.s2Ber, 2);
        ber := if ret != 0 then None else Some(Ber16(bs));
      } else {
        ret, ber := 0, Some(0);
      }
    }

    /** read_signal_strength: the interpolated strength truncated to u16, or the read's code. */
    method ReadSignalStrength() returns (ret: int, strength: Option<nat>)
      requires LayoutOk(layout)
      ensures layout.sigStr in rm.readFail ==> ret == EREMOTEIO && strength == None
      ensures layout.sigStr !in rm.readFail ==>
                ret == 0 && strength == Some(Wrap(StrengthValue(rm.regs, layout), U16_MOD))
    {
      var bs: seq<bv8>;
      ret, bs := rm.ReadBlock(layout.sigStr, 2);
      if ret != 0 {
        return ret, None;
      }
      var val := Interpolate(layout.dbmTable, RawLevel(bs[0], bs[1]));
      strength := Some(Wrap(val, U16_MOD));
    }

    /**
     * read_snr: the CNR statistic receives the interpolated SNR in 0.001 dB
     * and the result is that SNR truncated to u16, times 328, truncated
     * again; a failed read changes nothing.
     */
    method ReadSnr() returns (ret: int, snr: Option<nat>)
      requires LayoutOk(layout)
      modifies this`cnr
      ensures layout.snr in rm.readFail ==> ret == EREMOTEIO && snr == None
      ensures layout.snr !in rm.readFail ==>
                ret == 0 && snr == Some(Wrap(Wrap(SnrValue(rm.regs, layout), U16_MOD) * 328, U16_MOD))
      ensures cnr == CnrAfter(rm.regs, rm.readFail, layout, old(cnr))
    {
      var bs: seq<bv8>;
      ret, bs := rm.ReadBlock(layout.snr, 2);
      if ret != 0 {
        return ret, None;
      }
      var val := Interpolate(layout.snrTable, RawLevel(bs[0], bs[1]));
      cnr := Stat(Decibel, 100 * val);
      snr := Some(Wrap(Wrap(val, U16_MOD) * 328, U16_MOD));
    }

    /** read_status (see StatusOf). */
    method ReadStatus() returns (ret: int, status: FeStatus)
      requires LayoutOk(layout)
      modifies rm, this`cnr
      ensures var r := StatusOf(old(rm.regs), rm.readFail, rm.writeFail, old(rm.log), layout, algo, old(cnr));
        ret == r.ret && status == r.status && rm.regs == r.regs && rm.log == r.log && cnr == r.cnr
    {
      status := NoStatus;
      var reg: bv8;
      ret, reg := rm.Read(layout.demodStatus);
      if ret != 0 {
        return;
      }
      if LockedByte(reg, layout) {
        status := LOCKED_FLAGS;
        var readOk: bool;
        ret, readOk := AckLock();
        if !readOk {
          return;
        }
      }
      if algo == NoTune {
        status := status.(timedOut := true);
      }
    }

    /** The locked branch of read_status (see LockAck); `readOk` is false when REG_04 could not be read. */
    method AckLock() returns (ret: int, readOk: bool)
      requires LayoutOk(layout)
      modifies rm, this`cnr
      ensures var r := LockAck(old(rm.regs), rm.readFail, rm.writeFail, old(rm.log), layout, old(cnr));
        ret == r.ret && rm.regs == r.regs && rm.log == r.log && cnr == r.cnr
      ensures readOk <==> layout.reg04 !in rm.readFail
    {
      var reg: bv8;
      ret, reg := rm.Read(layout.reg04);
      if ret != 0 {
        return ret, false;
      }
      readOk := true;
      if reg & 0x08 != 0 {
        ret := rm.Write(layout.reg04, reg & !0x08);
      }
      var _, _ := ReadSnr();
    }

    /** set_voltage: 13 V clears and 18 V sets VSEL13_18 by regmask; off touches no register. */
    method SetVoltage(v: Voltage) returns (ret: int)
      modifies rm
      ensures v == VoltageOff ==> ret == 0 && rm.regs == old(rm.regs) && rm.log == old(rm.log)
      ensures v != VoltageOff ==>
        var r := TableRun(old(rm.regs), rm.readFail, rm.writeFail, old(rm.log), [VoltageEntry(layout, v).value]);
        ret == r.ret && rm.regs == r.regs && rm.log == r.log
    {
      ret := 0;
      if v != VoltageOff {
        var e := VoltageEntry(layout, v).value;
        ret := rm.RegMask(e.addr, e.setmask, e.clrmask);
      }
    }

    /** set_tone: the tone code goes into the DiSEqC command field; any other mode is -EINVAL without I/O. */
    method SetTone(t: ToneMode) returns (ret: int)
      modifies rm
      ensures t == ToneInvalid ==> ret == EINVAL && rm.regs == old(rm.regs) && rm.log == old(rm.log)
      ensures t != ToneInvalid ==>
        var code := if t == ToneOn then layout.toneOn else layout.toneOff;
        var r := TableRun(old(rm.regs), rm.readFail, rm.writeFail, old(rm.log), [RegEntry(layout.lnbCtrl, code, layout.cmdMask)]);
        ret == r.ret && rm.regs == r.regs && rm.log == r.log
    {
      if t == ToneInvalid {
        return EINVAL;
      }
      var code := if t == ToneOn then layout.toneOn else layout.toneOff;
      ret := rm.RegMask(layout.lnbCtrl, code, layout.cmdMask);
    }

    /** send_diseqc_msg for a message of at most six bytes (see TxRun); polls[i] is the i-th LNB_STATUS reading. */
    method SendDiseqcMsg(msg: seq<bv8>, polls: seq<bv8>) returns (ret: int)
      requires |msg| <= 6 && |polls| >= 10
      modifies rm
      ensures var r := TxRun(old(rm.regs), rm.readFail, rm.writeFail, old(rm.log), layout, Message(msg), polls);
        ret == r.ret && rm.regs == r.regs && rm.log == r.log
    {
      ret := Transmit(Message(msg), polls);
    }

    /** diseqc_send_burst: an invalid burst is -EINVAL without I/O; A and B go out as in TxRun. */
    method SendBurst(b: MiniCmd, polls: seq<bv8>) returns (ret: int)
      requires |polls| >= 10
      modifies rm
      ensures b == MiniInvalid ==> ret == EINVAL && rm.regs == old(rm.regs) && rm.log == old(rm.log)
      ensures b != MiniInvalid ==>
        var r := TxRun(old(rm.regs), rm.readFail, rm.writeFail, old(rm.log), layout, Burst(b == MiniA), polls);
        ret == r.ret && rm.regs == r.regs && rm.log == r.log
    {
      if b == MiniInvalid {
        return EINVAL;
      }
      ret := Transmit(Burst(b == MiniA), polls);
    }

    /** The steps the message and the burst share: backup, REG_34, payload, command, wait, restore. */
    method Transmit(t: Transmission, polls: seq<bv8>) returns (ret: int)
      requires |polls| >= 10
      modifies rm
      ensures var r := TxRun(old(rm.regs), rm.readFail, rm.writeFail, old(rm.log), layout, t, polls);
        ret == r.ret && rm.regs == r.regs && rm.log == r.log
    {
      var bck: bv8;
      ret, bck := rm.Read(layout.lnbCtrl);
      if ret != 0 {
        return;
      }
      ret := rm.RegMask(layout.reg34, 0, 0x40);
      if ret == 0 {
        if t.Message? {
          ret := rm.WriteBlock(layout.diseqcBuffer, t.msg);
        }
        if ret == 0 {
          ret := rm.Write(layout.lnbCtrl, TxCommand(layout, bck, t));
          if ret == 0 {
            ret := AwaitLine(bck, polls);
            return;
          }
        }
      }
      ret := rm.Write(layout.lnbCtrl, bck);
    }

    /** The polling loop of both transmissions (see AwaitRun). */
    method AwaitLine(bck: bv8, polls: seq<bv8>) returns (ret: int)
      requires |polls| >= 10
      modifies rm
      ensures var r := AwaitRun(old(rm.regs), rm.readFail, rm.writeFail, old(rm.log), layout, bck, polls);
        ret == r.ret && rm.regs == r.regs && rm.log == r.log
    {
      var l := layout;
      ghost var regs0, log0, readFail, writeFail := rm.regs, rm.log, rm.readFail, rm.writeFail;
      var i := 0;
      while i < 10
        invariant rm.readFail == readFail && rm.writeFail == writeFail
        invariant AwaitProgress(regs0, readFail, log0, rm.regs, rm.log, l, polls, i)
        decreases 10 - i
      {
        rm.Latch(l.lnbStatus, polls[i]);
        assert rm.regs == regs0[l.lnbStatus := polls[i]] by {
          if i > 0 {
            UpdateTwice(regs0, l.lnbStatus, polls[i - 1], polls[i]);
          }
        }
        var r: int, s: bv8 := rm.Read(l.lnbStatus);
        if r != 0 {
          AwaitEndsOnReadFailure(regs0, readFail, writeFail, log0, l, bck, polls);
          var _ := rm.Write(l.lnbCtrl, bck);
          return ETIMEDOUT;
        }
        if BusyByte(s, l.busy) {
          AwaitEndsOnBusy(regs0, readFail, writeFail, log0, l, bck, polls, i);
          ret := rm.Write(l.lnbCtrl, bck);
          return;
        }
        AwaitStep(regs0, readFail, log0, l, polls, i);
        i := i + 1;
      }
      AwaitEndsOnTimeout(regs0, readFail, writeFail, log0, l, bck, polls);
      var _ := rm.Write(l.lnbCtrl, bck);
      ret := ETIMEDOUT;
    }

    /** i2c_select (see SelectRun). */
    method I2cSelect(chan: nat) returns (ret: int)
      modifies rm, this`i2cCh
      ensures var r := SelectRun(old(rm.regs), rm.readFail, rm.writeFail, old(rm.log), layout, old(i2cCh), chan);
        ret == r.ret && rm.regs == r.regs && rm.log == r.log && i2cCh == r.ch
    {
      if i2cCh == chan {
        return 0;
      }
      var b: bv8;
      ret, b := rm.Read(layout.reg06);
      if ret != 0 {
        return EREMOTEIO;
      }
      ret := rm.Write(layout.reg06, GateByte(b, layout.i2cGate, chan));
      if ret != 0 {
        return EREMOTEIO;
      }
      i2cCh := chan;
    }

    /** set_frontend (see SetFeRun); the tuner's set_params callback is not part of this model. */
    method SetFrontend(c: Props) returns (ret: int)
      modifies rm
      ensures var r := SetFeRun(old(rm.regs), rm.readFail, rm.writeFail, old(rm.log), layout, c);
        ret == r.ret && rm.regs == r.regs && rm.log == r.log
    {
      if !Supported(c) {
        return EINVAL;
      }
      ret := rm.WrTable(layout.setfe);
      if ret != 0 {
        return;
      }
      var sr := SymbolRateBytes(c.symbolRate);
      ret := rm.WriteBlock(layout.setSrate, [sr.0, sr.1]);
      if ret != 0 {
        return;
      }
      ret := rm.WriteBlock(layout.freqOs, [0, 0]);
      if ret != 0 {
        return;
      }
      ret := rm.RegMask(layout.reg30, 0x01, 0);
    }

    /** get_frontend (see FrontendOf). */
    method GetFrontend(c: Props) returns (ret: int, c': Props)
      requires LayoutOk(layout)
      ensures var r := FrontendOf(rm.regs, rm.readFail, layout, c);
        ret == r.ret && c' == r.props
    {
      var m0: bv8;
      ret, m0 := rm.Read(layout.modfec0);
      if ret != 0 {
        return ret, c;
      }
      var m1: bv8 := 0;
      if m0 >> 6 != 0 {
        ret, m1 := rm.Read(layout.modfec1);
        if ret != 0 {
          return ret, c;
        }
      } else {
        ModFecIndexIgnoresModfec1(m0, m1, Get(rm.regs, layout.modfec1));
      }
      var e := layout.modfec[ModFecIndex(m0, m1)];
      c' := c.(fec := e.fec, modulation := e.modulation, system := e.system, inversionAuto := true);
      var bs: seq<bv8>;
      ret, bs := rm.ReadBlock(layout.getSrate, 2);
      if ret != 0 {
        return;
      }
      c' := c'.(symbolRate := (bs[1] as int * 256 + bs[0] as int) * 1000);
    }

    /**
     * tune: set_frontend first when asked to re-tune (its failure returns
     * without a status), then read_status.
     */
    method TuneOnce(reTune: bool, c: Props) returns (ret: int, status: Option<FeStatus>)
      requires LayoutOk(layout)
      modifies rm, this`cnr
      ensures var f := if reTune then SetFeRun(old(rm.regs), rm.readFail, rm.writeFail, old(rm.log), layout, c)
                       else BusResult(0, old(rm.regs), old(rm.log));
        var s := StatusOf(f.regs, rm.readFail, rm.writeFail, f.log, layout, algo, old(cnr));
        if f.ret != 0 then ret == f.ret && status == None && rm.regs == f.regs && rm.log == f.log && cnr == old(cnr)
        else ret == s.ret && status == Some(s.status) && rm.regs == s.regs && rm.log == s.log && cnr == s.cnr
    {
      if reTune {
        ret := SetFrontend(c);
        if ret != 0 {
          return ret, None;
        }
      }
      var st: FeStatus;
      ret, st := ReadStatus();
      status := Some(st);
    }

    /**
     * search (see SearchOf): a tune is armed, set_frontend runs, and up to
     * five polls follow, DEMOD_STATUS presenting polls[i] at the i-th; the
     * tune stays armed only on success.
     */
    method Search(c: Props, polls: seq<bv8>) returns (verdict: SearchResult)
      requires LayoutOk(layout) && |polls| >= 5
      modifies rm, this`algo, this`cnr
      ensures var r := SearchOf(old(rm.regs), rm.readFail, rm.writeFail, old(rm.log), layout, c, old(cnr), polls);
        verdict == r.verdict && rm.regs == r.regs && rm.log == r.log && cnr == r.cnr
      ensures algo == (if verdict == SearchSuccess then Tune else NoTune)
    {
      ghost var target := SearchOf(rm.regs, rm.readFail, rm.writeFail, rm.log, layout, c, cnr, polls);
      algo := Tune;
      var ret := SetFrontend(c);
      if ret != 0 {
        algo := NoTune;
        return SearchError;
      }
      var i := 0;
      while i < 5
        invariant 0 <= i <= 5 && algo == Tune
        invariant PollLoop(rm.regs, rm.readFail, rm.writeFail, rm.log, layout, cnr, polls, i) == target
        decreases 5 - i
      {
        rm.Latch(layout.demodStatus, polls[i]);
        var status: FeStatus;
        ret, status := ReadStatus();
        if ret != 0 {
          algo := NoTune;
          return SearchError;
        }
        if status.lock {
          return SearchSuccess;
        }
        i := i + 1;
      }
      algo := NoTune;
      verdict := SearchFailed;
    }
  }
}
