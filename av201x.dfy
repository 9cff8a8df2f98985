/**
 * Airoha AV2011/AV2012 satellite silicon tuner: init by register tables
 * with every failure collected, sleep, the baseband filter word, the PLL
 * words of set_params and the RF level interpolated from the IF AGC reading.
 */
module Av201x {
  import opened Common
  import opened Registers

  /**
   * The register addresses, bits and init tables of av201x_priv.h, which
   * is not part of this model: REG_FN, REG_BWFILTER, REG_FT_CTRL,
   * REG_TUNER_CTRL, AV201X_SLEEP, AV201X_FT_EN | AV201X_FT_BLK and the
   * tables av201x_inittuner0, 1a, 1b and 2.
   */
  datatype Layout = Layout(
    fn: int, bwFilter: int, ftCtrl: int, tunerCtrl: int, sleepBit: bv8, ftBits: bv8,
    init0: seq<RegEntry>, init1a: seq<RegEntry>, init1b: seq<RegEntry>, init2: seq<RegEntry>)

  /** The crystal frequency of the board configuration, in kHz; the PLL divides by it in MHz. */
  type XtalKHz = x: int | x >= 1000 witness 1000

  /** The tuner model the board configuration names; anything but the AV2011 gets the AV2012 table. */
  datatype ChipId = Av2011 | Av2012 | OtherChip

  /** The value REG_TUNER_CTRL receives at the end of init and set_params. */
  const TUNER_CTRL_RUN: bv8 := 0x96

  // ------------------------------------------------------------------ init

  /** The second init table: 1a for the AV2011, 1b otherwise. */
  function SecondTable(l: Layout, id: ChipId): seq<RegEntry>
  {
    if id == Av2011 then l.init1a else l.init1b
  }

  /**
   * init: the three tables and the final write of REG_TUNER_CTRL, each run
   * whatever the ones before returned, and the OR of their return codes.
   */
  function InitRun(regs: map<int, bv8>, readFail: set<int>, writeFail: set<int>, log: seq<RegWrite>,
                   l: Layout, id: ChipId): (r: BusResult)
    ensures r.ret == 0 || r.ret == EREMOTEIO
  {
    var t0 := TableRun(regs, readFail, writeFail, log, l.init0);
    var t1 := TableRun(t0.regs, readFail, writeFail, t0.log, SecondTable(l, id));
    var t2 := TableRun(t1.regs, readFail, writeFail, t1.log, l.init2);
    var w := WriteOne(t2.regs, writeFail, t2.log, l.tunerCtrl, TUNER_CTRL_RUN);
    BusResult(OrCodes(OrCodes(OrCodes(t0.ret, t1.ret), t2.ret), w.ret), w.regs, w.log)
  }

  /**
   * init succeeds exactly when every entry of the three tables and the
   * final write succeed: a failing table does not stop the later ones.
   */
  lemma InitSucceedsIff(regs: map<int, bv8>, readFail: set<int>, writeFail: set<int>, log: seq<RegWrite>,
                        l: Layout, id: ChipId)
    ensures var tbls := l.init0 + SecondTable(l, id) + l.init2;
      InitRun(regs, readFail, writeFail, log, l, id).ret == 0
      <==> (forall j :: 0 <= j < |tbls| ==> EntryOk(readFail, writeFail, tbls[j])) && l.tunerCtrl !in writeFail
  {
    var t0 := TableRun(regs, readFail, writeFail, log, l.init0);
    var t1 := TableRun(t0.regs, readFail, writeFail, t0.log, SecondTable(l, id));
    TableStopsAtFirstError(regs, readFail, writeFail, log, l.init0);
    TableStopsAtFirstError(t0.regs, readFail, writeFail, t0.log, SecondTable(l, id));
    TableStopsAtFirstError(t1.regs, readFail, writeFail, t1.log, l.init2);
    AllEntriesOk(readFail, writeFail, l.init0, SecondTable(l, id), l.init2);
  }

  /**
   * Whatever the tables returned, init keeps the writes already logged and,
   * when REG_TUNER_CTRL accepts writes, ends with the write of 0x96 there,
   * which the register then holds.
   */
  lemma InitEndsWithRunWrite(regs: map<int, bv8>, readFail: set<int>, writeFail: set<int>, log: seq<RegWrite>,
                             l: Layout, id: ChipId)
    ensures var r := InitRun(regs, readFail, writeFail, log, l, id);
      |log| <= |r.log| && r.log[..|log|] == log
      && (l.tunerCtrl !in writeFail ==>
            r.log[|r.log| - 1] == RegWrite(l.tunerCtrl, TUNER_CTRL_RUN) && Get(r.regs, l.tunerCtrl) == TUNER_CTRL_RUN)
  {
    var t0 := TableRun(regs, readFail, writeFail, log, l.init0);
    var t1 := TableRun(t0.regs, readFail, writeFail, t0.log, SecondTable(l, id));
    var t2 := TableRun(t1.regs, readFail, writeFail, t1.log, l.init2);
    TableWritesInOrder(regs, readFail, writeFail, log, l.init0);
    TableWritesInOrder(t0.regs, readFail, writeFail, t0.log, SecondTable(l, id));
    TableWritesInOrder(t1.regs, readFail, writeFail, t1.log, l.init2);
    PrefixTrans(log, t0.log, t1.log);
    PrefixTrans(log, t1.log, t2.log);
    var w := WriteOne(t2.regs, writeFail, t2.log, l.tunerCtrl, TUNER_CTRL_RUN);
    PrefixTrans(log, t2.log, w.log);
  }

  /** Every entry of three concatenated tables is fine exactly when every entry of each is. */
  lemma AllEntriesOk(readFail: set<int>, writeFail: set<int>, a: seq<RegEntry>, b: seq<RegEntry>, c: seq<RegEntry>)
    ensures (forall j :: 0 <= j < |a + b + c| ==> EntryOk(readFail, writeFail, (a + b + c)[j]))
      <==> (forall j :: 0 <= j < |a| ==> EntryOk(readFail, writeFail, a[j]))
           && (forall j :: 0 <= j < |b| ==> EntryOk(readFail, writeFail, b[j]))
           && (forall j :: 0 <= j < |c| ==> EntryOk(readFail, writeFail, c[j]))
  {
    var t := a + b + c;
    if forall j :: 0 <= j < |t| ==> EntryOk(readFail, writeFail, t[j]) {
      forall j | 0 <= j < |b| ensures EntryOk(readFail, writeFail, b[j]) {
        assert t[|a| + j] == b[j];
      }
      forall j | 0 <= j < |c| ensures EntryOk(readFail, writeFail, c[j]) {
        assert t[|a| + |b| + j] == c[j];
      }
      forall j | 0 <= j < |a| ensures EntryOk(readFail, writeFail, a[j]) {
        assert t[j] == a[j];
      }
    }
  }

  // -------------------------------------------------------- baseband filter

  /** The bandwidth (kHz) set_bandwidth programs: the request clamped to [4000, 40000]. */
  function ClampBandwidth(bw: nat): (c: nat)
    ensures 4000 <= c <= 40000
    ensures 4000 <= bw <= 40000 ==> c == bw
  {
    if bw > 40000 then 40000 else if bw < 4000 then 4000 else bw
  }

  /** The filter word: the clamped bandwidth in steps of 211 kHz / 1.27, rounded to the closest. */
  function FilterWord(bw: nat): (bf: nat)
    ensures 24 <= bf <= 241
  {
    (ClampBandwidth(bw) * 127 + 10550) / 21100
  }

  /** The filter word is the closest step count: it is off by at most half a step. */
  lemma FilterWordRounds(bw: nat)
    ensures var c, bf := ClampBandwidth(bw), FilterWord(bw);
      bf * 21100 <= c * 127 + 10550 < bf * 21100 + 21100
  {
  }

  /** A wider request never gets a narrower filter word. */
  lemma FilterWordMonotone(bw1: nat, bw2: nat)
    requires bw1 <= bw2
    ensures FilterWord(bw1) <= FilterWord(bw2)
  {
    var c1, c2 := ClampBandwidth(bw1), ClampBandwidth(bw2);
    assert c1 <= c2;
    DivMonotone(c1 * 127 + 10550, c2 * 127 + 10550, 21100);
  }

  lemma DivMonotone(a: nat, b: nat, d: nat)
    requires a <= b && d > 0
    ensures a / d <= b / d
  {
    DivBounds(b, d);
    DivBelow(a, d, b / d + 1);
  }

  // ------------------------------------------------------------ set_params

  /** The bandwidth set_params asks for before the margin: 0.675 of the rate in kS/s, plus 6 MHz below 6.5 MS/s, plus 2 MHz. */
  function BaseBandwidth(sr: nat): (bw: nat)
    ensures bw >= 2000
  {
    (sr / 1000) * 135 / 200 + (if sr < 6500000 then 6000 else 0) + 2000
  }

  /** The bandwidth as the driver computes it: `bw *= 108/100` multiplies by the integer quotient 1. */
  function FilterBandwidthAsWritten(sr: nat): nat
  {
    BaseBandwidth(sr) * (108 / 100)
  }

  /** The bandwidth with the 8 percent margin applied, rounded down. */
  function FilterBandwidth(sr: nat): (bw: nat)
    ensures BaseBandwidth(sr) < bw && 100 * bw <= 108 * BaseBandwidth(sr) < 100 * bw + 100
  {
    BaseBandwidth(sr) * 108 / 100
  }

  /** As written the margin is never applied: the filter gets the bare bandwidth, narrower than intended. */
  lemma MarginNeverApplied(sr: nat)
    ensures FilterBandwidthAsWritten(sr) == BaseBandwidth(sr) < FilterBandwidth(sr)
  {
  }

  /** At 27.5 MS/s the filter is programmed for 20562 kHz instead of 22206 kHz. */
  lemma MarginAt27500()
    ensures FilterBandwidthAsWritten(27500000) == 20562 && FilterBandwidth(27500000) == 22206
  {
    assert BaseBandwidth(27500000) == 20562;
  }

  /** The first PLL word: the frequency over the crystal, rounded to the closest in u32 arithmetic, saturated at 0xff. */
  function IntegerWord(f: nat, xtal: nat): (b: bv8)
    requires xtal > 0
    ensures var n := Wrap(f + xtal / 2, U32_MOD) / xtal;
      (n > 0xff ==> b == 0xff) && (n <= 0xff ==> b as int == n)
  {
    var n := Wrap(f + xtal / 2, U32_MOD) / xtal;
    if n > 0xff then 0xff else Lo8(n)
  }

  /** The fractional PLL value: (f/1000 << 17) over the crystal in MHz, rounded, in u32 arithmetic. */
  function FractionalValue(f: nat, xtal: nat): nat
    requires xtal >= 1000
  {
    var d := xtal / 1000;
    Wrap(Wrap((f / 1000) * 0x2_0000, U32_MOD) + d / 2, U32_MOD) / d
  }

  /** The three bytes that carry the fractional value: bits 9-16, bits 1-8, and bit 0 in bit 7 of 0x50. */
  function FractionalBytes(n: nat): (bs: seq<bv8>)
    ensures |bs| == 3 && bs[2] & 0x7f == 0x50
  {
    [Lo8(n / 0x200), Lo8(n / 2), if n % 2 == 1 then 0xd0 else 0x50]
  }

  /** The three bytes give back the low 17 bits of the fractional value. */
  lemma FractionalBytesRoundTrip(n: nat)
    ensures var bs := FractionalBytes(n);
      bs[0] as int * 0x200 + bs[1] as int * 2 + (bs[2] >> 7) as int == n % 0x2_0000
  {
    var bs := FractionalBytes(n);
    assert bs[0] as int == (n / 0x200) % 256;
    assert bs[1] as int == (n / 2) % 256;
    assert (bs[2] >> 7) as int == n % 2;
    SeventeenBits(n);
  }

  /** The low 17 bits of n as bits 9-16, bits 1-8 and bit 0. */
  lemma SeventeenBits(n: nat)
    ensures n % 0x2_0000 == ((n / 0x200) % 256) * 0x200 + ((n / 2) % 256) * 2 + n % 2
  {
    var h, m := n / 0x200, n / 2;
    assert m / 256 == h;
    var low := (h % 256) * 0x200 + (m % 256) * 2 + n % 2;
    var k := h / 256;
    assert n == k * 0x2_0000 + low by {
      assert m == 256 * h + m % 256;
      assert h == 256 * k + h % 256;
      assert n == 2 * m + n % 2;
    }
    assert 0 <= low < 0x2_0000;
  }

  /** The four bytes set_params writes from REG_FN on. */
  function PllWords(f: nat, xtal: nat): (bs: seq<bv8>)
    requires xtal >= 1000
    ensures |bs| == 4
  {
    [IntegerWord(f, xtal)] + FractionalBytes(FractionalValue(f, xtal))
  }

  /**
   * set_params: the PLL words in one block write, returning at once when it
   * fails; then set_bandwidth, whose result is ignored; then the fine-tune
   * control and REG_TUNER_CTRL, returning the OR of those two writes.
   */
  function ParamsRun(regs: map<int, bv8>, writeFail: set<int>, log: seq<RegWrite>, l: Layout,
                     xtal: nat, f: nat, sr: nat): (r: BusResult)
    requires xtal >= 1000
    ensures r.ret == 0 || r.ret == EREMOTEIO
  {
    var words := PllWords(f, xtal);
    if l.fn in writeFail then BusResult(EREMOTEIO, regs, log)
    else
      var b := WriteOne(StoreBlock(regs, l.fn, words), writeFail, log + BlockLog(l.fn, words),
                        l.bwFilter, Lo8(FilterWord(FilterBandwidthAsWritten(sr))));
      var t := WriteOne(b.regs, writeFail, b.log, l.ftCtrl, l.ftBits);
      var u := WriteOne(t.regs, writeFail, t.log, l.tunerCtrl, TUNER_CTRL_RUN);
      BusResult(OrCodes(t.ret, u.ret), u.regs, u.log)
  }

  /**
   * set_params fails exactly when the PLL block, the fine-tune control or
   * REG_TUNER_CTRL cannot be written: a refused filter write is not
   * reported.  After the PLL block the log holds the four PLL words in
   * register order.
   */
  lemma ParamsIgnoresFilterFailure(regs: map<int, bv8>, writeFail: set<int>, log: seq<RegWrite>, l: Layout,
                                   xtal: nat, f: nat, sr: nat)
    requires xtal >= 1000
    ensures var r := ParamsRun(regs, writeFail, log, l, xtal, f, sr);
      (r.ret == 0 <==> l.fn !in writeFail && l.ftCtrl !in writeFail && l.tunerCtrl !in writeFail)
      && (l.fn !in writeFail ==>
            |r.log| >= |log| + 4
            && forall k :: 0 <= k < 4 ==> r.log[|log| + k] == RegWrite(l.fn + k, PllWords(f, xtal)[k]))
  {
    var words := PllWords(f, xtal);
    if l.fn !in writeFail {
      var log1 := log + BlockLog(l.fn, words);
      var b := WriteOne(StoreBlock(regs, l.fn, words), writeFail, log1, l.bwFilter, Lo8(FilterWord(FilterBandwidthAsWritten(sr))));
      var t := WriteOne(b.regs, writeFail, b.log, l.ftCtrl, l.ftBits);
      var u := WriteOne(t.regs, writeFail, t.log, l.tunerCtrl, TUNER_CTRL_RUN);
      assert u.log[..|log1|] == log1 by {
        assert b.log[..|log1|] == log1;
        assert t.log[..|log1|] == b.log[..|log1|];
        assert u.log[..|log1|] == t.log[..|log1|];
      }
      forall k | 0 <= k < 4 ensures u.log[|log| + k] == RegWrite(l.fn + k, words[k]) {
        assert u.log[|log| + k] == u.log[..|log1|][|log| + k];
      }
    }
  }

  /**
   * When the PLL block and the filter write go through, the write after the
   * four PLL words programs the filter for the base bandwidth, without the
   * intended margin.
   */
  lemma ParamsProgramsBaseBandwidth(regs: map<int, bv8>, writeFail: set<int>, log: seq<RegWrite>, l: Layout,
                                    xtal: nat, f: nat, sr: nat)
    requires xtal >= 1000 && l.fn !in writeFail && l.bwFilter !in writeFail
    ensures var r := ParamsRun(regs, writeFail, log, l, xtal, f, sr);
      |r.log| > |log| + 4 && r.log[|log| + 4] == RegWrite(l.bwFilter, Lo8(FilterWord(BaseBandwidth(sr))))
  {
    var words := PllWords(f, xtal);
    var log1 := log + BlockLog(l.fn, words);
    var b := WriteOne(StoreBlock(regs, l.fn, words), writeFail, log1, l.bwFilter, Lo8(FilterWord(FilterBandwidthAsWritten(sr))));
    var t := WriteOne(b.regs, writeFail, b.log, l.ftCtrl, l.ftBits);
    var u := WriteOne(t.regs, writeFail, t.log, l.tunerCtrl, TUNER_CTRL_RUN);
    MarginNeverApplied(sr);
    assert b.log == log1 + [RegWrite(l.bwFilter, Lo8(FilterWord(BaseBandwidth(sr))))];
    assert u.log[..|b.log|] == b.log by {
      assert t.log[..|b.log|] == b.log;
      assert u.log[..|b.log|] == t.log[..|b.log|];
    }
    assert u.log[|log| + 4] == u.log[..|b.log|][|log| + 4];
  }

  // ------------------------------------------------------------ RF strength

  /** The IF AGC breakpoints of the RF level table. */
  const AgcTable: seq<int> := [0, 82, 100, 116, 140, 162, 173, 187, 210, 223, 254, 255]

  /** The RF level at each breakpoint, in 0.1 dBm. */
  const LevelTable: seq<int> := [90, -50, -263, -361, -463, -563, -661, -761, -861, -891, -904, -910]

  /** A calibration: AGC breakpoints ascending from 0, levels never rising, one level per breakpoint. */
  predicate Calibrated(x: seq<int>, y: seq<int>)
  {
    |x| == |y| >= 2 && x[0] == 0
    && (forall i :: 0 < i < |x| ==> x[i - 1] < x[i])
    && (forall i :: 0 < i < |y| ==> y[i] <= y[i - 1])
  }

  lemma TablesCalibrated()
    ensures Calibrated(AgcTable, LevelTable)
  {
  }

  /** The search loop: the first breakpoint from k on above the AGC value, or the table length. */
  function FirstAbove(x: seq<int>, agc: int, k: nat): (i: nat)
    requires k <= |x|
    ensures k <= i <= |x|
    decreases |x| - k
  {
    if k == |x| || x[k] > agc then k else FirstAbove(x, agc, k + 1)
  }

  lemma {:induction false} FirstAboveIsFirst(x: seq<int>, agc: int, k: nat)
    requires k <= |x|
    ensures var i := FirstAbove(x, agc, k);
      (forall j :: k <= j < i ==> x[j] <= agc) && (i < |x| ==> x[i] > agc)
    decreases |x| - k
  {
    if k < |x| && x[k] <= agc {
      FirstAboveIsFirst(x, agc, k + 1);
    }
  }

  /** Ascending breakpoints are ordered between any two indices. */
  lemma {:induction false} AscendingBetween(x: seq<int>, y: seq<int>, i: nat, j: nat)
    requires Calibrated(x, y) && i <= j < |x|
    ensures x[i] <= x[j] && y[j] <= y[i]
    ensures i < j ==> x[i] < x[j]
    decreases j - i
  {
    if i < j {
      AscendingBetween(x, y, i, j - 1);
    }
  }

  /**
   * The segment of an AGC value: 1 <= i <= |x| with x[i-1] <= agc, and
   * agc < x[i] unless the value is at or past the last breakpoint.
   */
  lemma SegmentBracket(x: seq<int>, y: seq<int>, agc: nat)
    requires Calibrated(x, y)
    ensures var i := FirstAbove(x, agc, 0);
      1 <= i <= |x| && x[i - 1] <= agc && (i < |x| ==> agc < x[i])
  {
    FirstAboveIsFirst(x, agc, 0);
  }

  /** The linear approximation in a segment: a slope in 0.001 units per AGC step, rounded, all in C division. */
  function Interp(x0: int, x1: int, y0: int, y1: int, agc: int): int
    requires x0 < x1
  {
    var slope := CDiv((y1 - y0) * 1000, x1 - x0);
    y0 + CDiv((agc - x0) * slope + 500, 1000)
  }

  /**
   * The level as the driver computes it, or None where it reads x[index]
   * and y[index] past the end of the tables: the search loop ends with
   * index == |x| for every value at or past the last breakpoint.
   */
  function LevelAsWritten(x: seq<int>, y: seq<int>, agc: nat): Option<int>
    requires Calibrated(x, y)
  {
    var i := FirstAbove(x, agc, 0);
    SegmentBracket(x, y, agc);
    if i == |x| then None else Some(Interp(x[i - 1], x[i], y[i - 1], y[i], agc))
  }

  /** AGC 255, a value an 8-bit reading reaches, makes the driver read past both 12-entry tables. */
  lemma LevelOverrunsAt255()
    ensures FirstAbove(AgcTable, 255, 0) == |AgcTable| == 12
    ensures LevelAsWritten(AgcTable, LevelTable, 255).None?
  {
    TablesCalibrated();
    SegmentBracket(AgcTable, LevelTable, 255);
  }

  /** The level with the end of the table handled: at or past the last breakpoint it is the last level. */
  function Level(x: seq<int>, y: seq<int>, agc: nat): int
    requires Calibrated(x, y)
  {
    var i := FirstAbove(x, agc, 0);
    SegmentBracket(x, y, agc);
    if i == |x| then y[|y| - 1] else Interp(x[i - 1], x[i], y[i - 1], y[i], agc)
  }

  /** Within a segment the approximation stays between the two breakpoint levels and starts at the left one. */
  lemma InterpBetween(x0: int, x1: int, y0: int, y1: int, agc: int)
    requires x0 <= agc < x1 && y1 <= y0
    ensures y1 <= Interp(x0, x1, y0, y1, agc) <= y0
    ensures agc == x0 ==> Interp(x0, x1, y0, y1, agc) == y0
  {
    var dy, dx, d := y0 - y1, x1 - x0, agc - x0;
    var q := (dy * 1000) / dx;
    var slope := CDiv((y1 - y0) * 1000, dx);
    assert slope == -q by {
      assert Abs((y1 - y0) * 1000) == dy * 1000;
    }
    assert q * dx <= dy * 1000;
    MulMonotone(d, dx, q);
    var term := d * slope + 500;
    assert term == 500 - d * q;
    assert -term < 1000 * (dy + 1);
    var c := CDiv(term, 1000);
    assert -dy <= c <= 0;
  }

  lemma MulMonotone(a: nat, b: nat, q: nat)
    requires a <= b
    ensures a * q <= b * q
  {
  }

  /** C division by a positive divisor is monotone. */
  lemma CDivMonotone(s: int, t: int, d: int)
    requires s <= t && d > 0
    ensures CDiv(s, d) <= CDiv(t, d)
  {
    if s >= 0 {
      DivMonotone(s, t, d);
    } else if t < 0 {
      DivMonotone(-t, -s, d);
    }
  }

  /** Within a segment a higher AGC value never gives a higher level. */
  lemma InterpMonotone(x0: int, x1: int, y0: int, y1: int, a: int, b: int)
    requires x0 <= a <= b < x1 && y1 <= y0
    ensures Interp(x0, x1, y0, y1, b) <= Interp(x0, x1, y0, y1, a)
  {
    var slope := CDiv((y1 - y0) * 1000, x1 - x0);
    assert slope <= 0;
    MulMonotone(a - x0, b - x0, -slope);
    CDivMonotone((b - x0) * slope + 500, (a - x0) * slope + 500, 1000);
  }

  /** At every breakpoint, the last one included, the level is that breakpoint's level exactly. */
  lemma LevelAtBreakpoint(x: seq<int>, y: seq<int>, k: nat)
    requires Calibrated(x, y) && k < |x| && x[k] >= 0
    ensures Level(x, y, x[k]) == y[k]
  {
    var i := FirstAbove(x, x[k], 0);
    SegmentBracket(x, y, x[k]);
    if i - 1 > k {
      AscendingBetween(x, y, k, i - 1);
    }
    if i < |x| && i <= k {
      AscendingBetween(x, y, i, k);
    }
    assert i == k + 1;
    if i < |x| {
      AscendingBetween(x, y, k, i);
      InterpBetween(x[k], x[i], y[k], y[i], x[k]);
    }
  }

  /** The level lies between the two breakpoint levels around the AGC value, and within the table's levels. */
  lemma LevelBracket(x: seq<int>, y: seq<int>, agc: nat)
    requires Calibrated(x, y)
    ensures var i := FirstAbove(x, agc, 0);
      1 <= i <= |x| && y[i - 1] >= Level(x, y, agc) && (i < |x| ==> Level(x, y, agc) >= y[i])
    ensures y[|y| - 1] <= Level(x, y, agc) <= y[0]
  {
    var i := FirstAbove(x, agc, 0);
    SegmentBracket(x, y, agc);
    AscendingBetween(x, y, 0, i - 1);
    AscendingBetween(x, y, i - 1, |x| - 1);
    if i < |x| {
      AscendingBetween(x, y, i - 1, i);
      AscendingBetween(x, y, i, |x| - 1);
      InterpBetween(x[i - 1], x[i], y[i - 1], y[i], agc);
    }
  }

  /** A higher AGC value (more gain, a weaker signal) never reports a higher RF level. */
  lemma LevelNonIncreasing(x: seq<int>, y: seq<int>, a: nat, b: nat)
    requires Calibrated(x, y) && a <= b
    ensures Level(x, y, b) <= Level(x, y, a)
  {
    var ia, ib := FirstAbove(x, a, 0), FirstAbove(x, b, 0);
    SegmentBracket(x, y, a);
    SegmentBracket(x, y, b);
    FirstAboveIsFirst(x, a, 0);
    LevelBracket(x, y, a);
    LevelBracket(x, y, b);
    if ia == ib && ia < |x| {
      AscendingBetween(x, y, ia - 1, ia);
      InterpMonotone(x[ia - 1], x[ia], y[ia - 1], y[ia], a, b);
    } else if ia < ib {
      AscendingBetween(x, y, ia, ib - 1);
    }
  }

  /** The u16 strength word: 1000 plus the level in dBm, both divisions truncating. */
  function StrengthWord(level: int): nat
  {
    Wrap(1000 + CDiv(level, 10), U16_MOD)
  }

  /** With the AV201x tables the strength word is 909 to 1009, so the u16 store never wraps. */
  lemma StrengthWordRange(agc: nat)
    ensures var level := Level(AgcTable, LevelTable, agc);
      -910 <= level <= 90 && StrengthWord(level) == 1000 + CDiv(level, 10) && 909 <= StrengthWord(level) <= 1009
  {
    TablesCalibrated();
    LevelBracket(AgcTable, LevelTable, agc);
  }

  /**
   * With the AV201x tables the driver's search runs off the end exactly for
   * AGC readings of 255 and more; below that it computes the level the
   * model reports.
   */
  lemma LevelAsWrittenBelow255(agc: nat)
    ensures Calibrated(AgcTable, LevelTable)
    ensures LevelAsWritten(AgcTable, LevelTable, agc).None? <==> agc >= 255
    ensures LevelAsWritten(AgcTable, LevelTable, agc).Some? ==>
      LevelAsWritten(AgcTable, LevelTable, agc).value == Level(AgcTable, LevelTable, agc)
  {
    TablesCalibrated();
    SegmentBracket(AgcTable, LevelTable, agc);
    assert forall j :: 0 <= j < |AgcTable| ==> AgcTable[j] <= 255;
  }

  /** The segment search and the linear approximation of get_rf_strength, on any calibration. */
  method InterpolateLevel(x: seq<int>, y: seq<int>, agc: nat) returns (level: int)
    requires Calibrated(x, y)
    ensures level == Level(x, y, agc)
  {
    var index := 0;
    while index < |x| && x[index] <= agc
      invariant index <= |x| && FirstAbove(x, agc, index) == FirstAbove(x, agc, 0)
      decreases |x| - index
    {
      index := index + 1;
    }
    SegmentBracket(x, y, agc);
    if index == |x| {
      level := y[|y| - 1];
    } else {
      var slope := CDiv((y[index] - y[index - 1]) * 1000, x[index] - x[index - 1]);
      level := y[index - 1] + CDiv((agc - x[index - 1]) * slope + 500, 1000);
    }
  }

  // ------------------------------------------------------------------ device

  /** One tuner: its register file, the board configuration, and the strength statistic it reports. */
  class Tuner {
    const regs: RegisterMap
    const layout: Layout
    const id: ChipId
    const xtal: XtalKHz
    var strength: Stat

    /** attach: the configuration is recorded; the chip is not touched. */
    constructor (rm: RegisterMap, l: Layout, chip: ChipId, xtalFreq: XtalKHz)
      ensures regs == rm && layout == l && id == chip && xtal == xtalFreq && strength == DefaultStat
    {
      regs, layout, id, xtal := rm, l, chip, xtalFreq;
      strength := DefaultStat;
    }

    /** init (see InitRun); the strength statistic is marked unavailable whatever the result. */
    method Init() returns (ret: int)
      modifies regs, this`strength
      ensures var r := InitRun(old(regs.regs), regs.readFail, regs.writeFail, old(regs.log), layout, id);
        ret == r.ret && regs.regs == r.regs && regs.log == r.log
      ensures strength == Stat(NotAvailable, 0)
    {
      ret := regs.WrTable(layout.init0);
      var r1 := regs.WrTable(SecondTable(layout, id));
      ret := OrCodes(ret, r1);
      var r2 := regs.WrTable(layout.init2);
      ret := OrCodes(ret, r2);
      var r3 := regs.Write(layout.tunerCtrl, TUNER_CTRL_RUN);
      ret := OrCodes(ret, r3);
      strength := Stat(NotAvailable, 0);
    }

    /** sleep: sets the sleep bit of REG_TUNER_CTRL by a read-modify-write. */
    method Sleep() returns (ret: int)
      modifies regs
      ensures var r := TableRun(old(regs.regs), regs.readFail, regs.writeFail, old(regs.log),
                                [RegEntry(layout.tunerCtrl, layout.sleepBit, 0)]);
        ret == r.ret && regs.regs == r.regs && regs.log == r.log
    {
      ret := regs.RegMask(layout.tunerCtrl, layout.sleepBit, 0);
    }

    /** set_bandwidth: one write of the filter word for the clamped bandwidth (kHz). */
    method SetBandwidth(bw: nat) returns (ret: int)
      modifies regs
      ensures var r := WriteOne(old(regs.regs), regs.writeFail, old(regs.log), layout.bwFilter, Lo8(FilterWord(bw)));
        ret == r.ret && regs.regs == r.regs && regs.log == r.log
    {
      var c := if bw > 40000 then 40000 else if bw < 4000 then 4000 else bw;
      var bf := (c * 127 + 10550) / 21100;
      ret := regs.Write(layout.bwFilter, Lo8(bf));
    }

    /** set_params (see ParamsRun) for a frequency in kHz and a symbol rate in symbols per second. */
    method SetParams(f: nat, sr: nat) returns (ret: int)
      modifies regs
      ensures var r := ParamsRun(old(regs.regs), regs.writeFail, old(regs.log), layout, xtal, f, sr);
        ret == r.ret && regs.regs == r.regs && regs.log == r.log
    {
      var words := PllWords(f, xtal);
      ret := regs.WriteBlock(layout.fn, words);
      if ret != 0 {
        return;
      }
      var _ := SetBandwidth(FilterBandwidthAsWritten(sr));
      var r1 := regs.Write(layout.ftCtrl, layout.ftBits);
      var r2 := regs.Write(layout.tunerCtrl, TUNER_CTRL_RUN);
      ret := OrCodes(r1, r2);
    }

    /**
     * get_rf_strength: the strength word carries the IF AGC reading in and
     * the strength word out; the statistic receives the level in 0.001 dB.
     */
    method GetRfStrength(st: nat) returns (ret: int, st': nat)
      requires st < U16_MOD
      modifies this`strength
      ensures ret == 0 && st' == StrengthWord(Level(AgcTable, LevelTable, st))
      ensures strength == Stat(Decibel, Level(AgcTable, LevelTable, st) * 100)
    {
      TablesCalibrated();
      var level := InterpolateLevel(AgcTable, LevelTable, st);
      st' := Wrap(1000 + CDiv(level, 10), U16_MOD);
      strength := Stat(Decibel, level * 100);
      ret := 0;
    }
  }
}
