/**
 * The STV0910 dual DVB-S/S2 demodulator: register fields addressed by a
 * packed label, the C/N and RF-level lookup tables, the symbol-rate and
 * carrier-offset arithmetic, the lock wait with its symbol-rate dependent
 * budget, the blind-search start with its frequency-offset restart, and the
 * driver's acquisition state.
 *
 * The register addresses and field labels live in a register header that is
 * not part of this model, so every label and register byte is a parameter.
 */
module Stv091x {
  import opened Common
  import opened Registers
  import opened Stv091xHeader
  import opened Stv091xTables

  // ---------------------------------------------------------------------
  // Register fields
  // ---------------------------------------------------------------------

  /** The register address of a field label: bits 16-31 of the 32-bit label. */
  function LabelAddr(field: nat): (a: nat)
    requires field < U32_MOD
    ensures a < U16_MOD
  {
    field / U16_MOD
  }

  /** The field mask of a label: its low byte. */
  function LabelMask(field: nat): bv8
  {
    Lo8(field)
  }

  /** Bit `q` of a register byte. */
  predicate BitSet(mask: bv8, q: bv8)
    requires q < 8
  {
    (mask >> q) & 1 == 1
  }

  /** The first set bit of `mask` at or above bit `i`; 7 when there is none. */
  function LowestSetBit(mask: bv8, i: bv8): (p: bv8)
    requires i <= 8
    ensures i <= p < 8 || (i == 8 && p == 7)
    decreases 8 - i as int
  {
    if i == 8 then 7
    else if BitSet(mask, i) then i
    else LowestSetBit(mask, i + 1)
  }

  /** No bit of `mask` below bit `p` is set. */
  predicate ClearBelow(mask: bv8, p: bv8)
    requires p <= 8
  {
    if p == 8 then mask == 0 else mask & ((1 << p) - 1) == 0
  }

  /**
   * The position extract_mask_pos derives from a mask is the index of its
   * lowest set bit, and 7 for the empty mask.
   */
  lemma {:induction false} LowestSetBitIsLowest(mask: bv8, i: bv8)
    requires i <= 8 && ClearBelow(mask, i)
    ensures var p := LowestSetBit(mask, i);
      (mask != 0 ==> p < 8 && BitSet(mask, p) && ClearBelow(mask, p))
      && (mask == 0 ==> p == 7)
    decreases 8 - i as int
  {
    if i < 8 && !BitSet(mask, i) {
      assert ClearBelow(mask, i + 1);
      LowestSetBitIsLowest(mask, i + 1);
    }
  }

  /** extract_mask_pos: the mask is the label's low byte, scanned upwards for its first set bit. */
  method ExtractMaskPos(field: nat) returns (mask: bv8, pos: bv8)
    ensures mask == LabelMask(field)
    ensures pos == LowestSetBit(mask, 0)
  {
    mask := Lo8(field);
    var position: bv8 := 0;
    var i: bv8 := 0;
    while position == 0 && i < 8
      invariant 0 <= i <= 8
      invariant position == 0 ==> LowestSetBit(mask, i) == LowestSetBit(mask, 0)
      invariant position != 0 ==> 1 <= i && LowestSetBit(mask, i - 1) == LowestSetBit(mask, 0)
                                  && BitSet(mask, i - 1)
      decreases 8 - i as int
    {
      position := (mask >> i) & 1;
      i := i + 1;
    }
    pos := i - 1;
  }

  /** The field value inside a register byte: the masked bits, shifted down to bit 0. */
  function FieldOf(reg: bv8, field: nat): bv8
  {
    MaskedField(reg, LabelMask(field))
  }

  function MaskedField(reg: bv8, mask: bv8): bv8
  {
    (reg & mask) >> LowestSetBit(mask, 0)
  }

  /** The register byte write_field computes: the field replaced by `data`, every other bit kept. */
  function FieldUpdate(reg: bv8, field: nat, data: bv8): bv8
  {
    MaskedUpdate(reg, LabelMask(field), data)
  }

  function MaskedUpdate(reg: bv8, mask: bv8, data: bv8): bv8
  {
    (reg & !mask) | ((data << LowestSetBit(mask, 0)) & mask)
  }

  /**
   * write_field keeps the bits outside the mask, and the field then reads
   * back as `data` restricted to the field's width.
   */
  lemma FieldUpdateReadsBack(reg: bv8, field: nat, data: bv8)
    ensures FieldUpdate(reg, field, data) & !LabelMask(field) == reg & !LabelMask(field)
    ensures FieldOf(FieldUpdate(reg, field, data), field) == data & (LabelMask(field) >> LowestSetBit(LabelMask(field), 0))
  {
    MaskedUpdateReadsBack(reg, LabelMask(field), data);
  }

  lemma MaskedUpdateReadsBack(reg: bv8, mask: bv8, data: bv8)
    ensures MaskedUpdate(reg, mask, data) & !mask == reg & !mask
    ensures MaskedField(MaskedUpdate(reg, mask, data), mask) == data & (mask >> LowestSetBit(mask, 0))
  {
    var p := LowestSetBit(mask, 0);
    LowestSetBitIsLowest(mask, 0);
    if mask != 0 {
      UpdateAtPosition(reg, mask, data, p);
    }
  }

  lemma UpdateAtPosition(reg: bv8, mask: bv8, data: bv8, p: bv8)
    requires p < 8 && ClearBelow(mask, p)
    ensures ((reg & !mask) | ((data << p) & mask)) & !mask == reg & !mask
    ensures ((((reg & !mask) | ((data << p) & mask)) & mask) >> p) == data & (mask >> p)
  {
  }

  /** read_reg: a failed read is ignored and yields the initial 0. */
  function ReadRegValue(regs: map<int, bv8>, readFail: set<int>, a: int): bv8
  {
    if a in readFail then 0 else Get(regs, a)
  }

  /** The extraction step of read_field: mask, then shift down by the mask's position. */
  method SelectField(reg: bv8, field: nat) returns (data: bv8)
    ensures data == FieldOf(reg, field)
  {
    var mask, pos := ExtractMaskPos(field);
    data := (reg & mask) >> pos;
  }

  /** read_field: the register named by the label, masked and shifted. */
  method ReadField(rm: RegisterMap, field: nat) returns (data: bv8)
    requires field < U32_MOD
    ensures data == FieldOf(ReadRegValue(rm.regs, rm.readFail, LabelAddr(field)), field)
  {
    var _, reg := rm.Read(LabelAddr(field));
    data := SelectField(reg, field);
  }

  /** The merge step of write_field, with the mask and position extracted from the label. */
  method MergeField(oldreg: bv8, field: nat, data: bv8) returns (newreg: bv8)
    ensures newreg == FieldUpdate(oldreg, field, data)
  {
    var mask, pos := ExtractMaskPos(field);
    var d := (data << pos) & mask;
    newreg := (oldreg & !mask) | d;
  }

  /**
   * What write_field does to the register map: read the register (0 if the
   * read fails), replace the field and write the byte back only when it
   * changed; an unchanged byte returns 1 with no write.
   */
  function WriteFieldOf(regs: map<int, bv8>, readFail: set<int>, writeFail: set<int>, log: seq<RegWrite>,
                        field: nat, data: bv8): (r: BusResult)
    requires field < U32_MOD
    ensures var a := LabelAddr(field);
      var oldreg := ReadRegValue(regs, readFail, a);
      var newreg := FieldUpdate(oldreg, field, data);
      (newreg == oldreg ==> r == BusResult(1, regs, log))
      && (newreg != oldreg && a in writeFail ==> r == BusResult(EREMOTEIO, regs, log))
      && (newreg != oldreg && a !in writeFail ==> r == BusResult(0, regs[a := newreg], log + [RegWrite(a, newreg)]))
  {
    var a := LabelAddr(field);
    var oldreg := ReadRegValue(regs, readFail, a);
    var newreg := FieldUpdate(oldreg, field, data);
    if newreg == oldreg then BusResult(1, regs, log) else WriteOne(regs, writeFail, log, a, newreg)
  }

  /** write_field on the register map, with the effect and result of WriteFieldOf. */
  method WriteField(rm: RegisterMap, field: nat, data: bv8) returns (ret: int)
    requires field < U32_MOD
    modifies rm`regs, rm`log
    ensures var r := WriteFieldOf(old(rm.regs), rm.readFail, rm.writeFail, old(rm.log), field, data);
      ret == r.ret && rm.regs == r.regs && rm.log == r.log
  {
    var a := LabelAddr(field);
    var _, oldreg := rm.Read(a);
    var newreg := MergeField(oldreg, field, data);
    if newreg != oldreg {
      ret := rm.Write(a, newreg);
    } else {
      ret := 1;
    }
  }

  /**
   * After a successful write_field the field reads back as the data written,
   * limited to the field's width; a write_field that finds the field already
   * holding that value leaves the register as it was.
   */
  lemma WriteFieldThenReadField(regs: map<int, bv8>, readFail: set<int>, field: nat, data: bv8)
    requires field < U32_MOD
    requires LabelAddr(field) !in readFail
    ensures var a := LabelAddr(field);
      var newreg := FieldUpdate(Get(regs, a), field, data);
      FieldOf(ReadRegValue(regs[a := newreg], readFail, a), field)
        == data & (LabelMask(field) >> LowestSetBit(LabelMask(field), 0))
  {
    var a := LabelAddr(field);
    FieldUpdateReadsBack(Get(regs, a), field, data);
  }

  /**
   * A failed read inside write_field is not reported: the field is merged
   * into 0, so every other field of the register is cleared by the write.
   */
  lemma WriteFieldAfterFailedRead(regs: map<int, bv8>, readFail: set<int>, field: nat, data: bv8)
    requires field < U32_MOD
    requires LabelAddr(field) in readFail
    ensures FieldUpdate(ReadRegValue(regs, readFail, LabelAddr(field)), field, data) & !LabelMask(field) == 0
  {
  }

  // ---------------------------------------------------------------------
  // Lookup tables
  // ---------------------------------------------------------------------

  /** The first index from `i` on whose reading exceeds `value`. */
  function FirstAbove(t: seq<Point>, max: nat, value: nat, i: nat): (j: nat)
    requires max < |t| && i <= max && value < t[max].val
    ensures i <= j <= max && value < t[j].val
    decreases max - i
  {
    if value < t[i].val then i else FirstAbove(t, max, value, i + 1)
  }

  lemma {:induction false} FirstAboveIsFirst(t: seq<Point>, max: nat, value: nat, i: nat)
    requires max < |t| && i <= max && value < t[max].val
    ensures forall j :: i <= j < FirstAbove(t, max, value, i) ==> t[j].val <= value
    decreases max - i
  {
    if value >= t[i].val {
      FirstAboveIsFirst(t, max, value, i + 1);
    }
  }

  /** The interpolation weight, in percent, of `value` between two readings. */
  function Correction(lo: Point, hi: Point, value: nat): int
    requires lo.val < hi.val
  {
    ((value - lo.val) * 100) / (hi.val - lo.val)
  }

  /**
   * stv091x_lookup over table[0..max]: the end results outside the table's
   * range, otherwise the left point's result moved towards the right one's
   * by the truncated percentage, with C division and an s16 result.
   */
  function LookupValue(t: seq<Point>, max: nat, value: nat): int
    requires WellFormedTable(t) && max < |t|
  {
    if value <= t[0].val then t[0].ret
    else if value >= t[max].val then t[max].ret
    else
      var i := FirstAbove(t, max, value, 0);
      assert i > 0;
      Interpolate(t[i - 1], t[i], value)
  }

  /**
   * The left point's result moved towards the right one's by the truncated
   * percentage, with C division and an s16 result.
   */
  function Interpolate(lo: Point, hi: Point, value: nat): int
    requires lo.val < hi.val
  {
    var diffRet := S16(hi.ret - lo.ret);
    S16(CDiv(diffRet * Correction(lo, hi, value), 100) + lo.ret)
  }

  /** stv091x_lookup: clamp at both ends, else walk up to the bracketing pair and interpolate. */
  method Lookup(t: seq<Point>, max: nat, value: nat) returns (r: int)
    requires WellFormedTable(t) && max < |t|
    ensures r == LookupValue(t, max, value)
  {
    if value <= t[0].val {
      return t[0].ret;
    }
    if value >= t[max].val {
      return t[max].ret;
    }
    var i := 0;
    while value >= t[i].val
      invariant 0 <= i <= max
      invariant FirstAbove(t, max, value, i) == FirstAbove(t, max, value, 0)
      decreases max - i
    {
      i := i + 1;
    }
    r := Interpolate(t[i - 1], t[i], value);
  }

  /** Outside the table's range the result is the nearest end's, with no extrapolation. */
  lemma LookupClamps(t: seq<Point>, max: nat, value: nat)
    requires WellFormedTable(t) && max < |t|
    ensures value <= t[0].val ==> LookupValue(t, max, value) == t[0].ret
    ensures t[0].val < value && t[max].val <= value ==> LookupValue(t, max, value) == t[max].ret
  {
  }

  /**
   * Inside the range: the bracketing pair holds `value` (lo.val <= value <
   * hi.val), the correction is a percentage in [0, 99], and the result lies
   * between the two points' results.
   */
  lemma LookupInterpolates(t: seq<Point>, max: nat, value: nat)
    requires WellFormedTable(t) && max < |t|
    requires t[0].val < value < t[max].val
    ensures var i := FirstAbove(t, max, value, 0);
      var r := LookupValue(t, max, value);
      1 <= i <= max && t[i - 1].val <= value < t[i].val
      && 0 <= Correction(t[i - 1], t[i], value) <= 99
      && (t[i - 1].ret <= r <= t[i].ret || t[i].ret <= r <= t[i - 1].ret)
  {
    var i := FirstAbove(t, max, value, 0);
    FirstAboveIsFirst(t, max, value, 0);
    var lo, hi := t[i - 1], t[i];
    assert lo.val <= value;
    assert -0x8000 <= lo.ret < 0x8000 && -0x8000 <= hi.ret < 0x8000 && -0x8000 <= hi.ret - lo.ret < 0x8000;
    assert LookupValue(t, max, value) == Interpolate(lo, hi, value);
    InterpolationBetween(lo, hi, value);
  }

  lemma InterpolationBetween(lo: Point, hi: Point, value: nat)
    requires lo.val <= value < hi.val
    requires -0x8000 <= lo.ret < 0x8000 && -0x8000 <= hi.ret < 0x8000
    requires -0x8000 <= hi.ret - lo.ret < 0x8000
    ensures var c := Correction(lo, hi, value);
      var r := Interpolate(lo, hi, value);
      0 <= c <= 99
      && (lo.ret <= r <= hi.ret || hi.ret <= r <= lo.ret)
      && (value == lo.val ==> r == lo.ret)
  {
    var c := Correction(lo, hi, value);
    CorrectionIsPercent(lo, hi, value);
    var diffRet := hi.ret - lo.ret;
    S16Identity(diffRet);
    var q := CDiv(diffRet * c, 100);
    ScaledBetween(diffRet, c);
    S16Identity(q + lo.ret);
  }

  /** The correction is a percentage below 100, and 0 at the left point. */
  lemma CorrectionIsPercent(lo: Point, hi: Point, value: nat)
    requires lo.val <= value < hi.val
    ensures 0 <= Correction(lo, hi, value) <= 99
    ensures value == lo.val ==> Correction(lo, hi, value) == 0
  {
    var n, d := value - lo.val, hi.val - lo.val;
    assert n * 100 < d * 100;
    DivBelow(n * 100, d, 100);
  }

  /** A truncated percentage of `d` lies between 0 and `d`. */
  lemma ScaledBetween(d: int, c: int)
    requires 0 <= c <= 99
    ensures var q := CDiv(d * c, 100);
      (d >= 0 ==> 0 <= q <= d) && (d < 0 ==> d <= q <= 0)
  {
    var m: nat := Abs(d);
    var n := m * c;
    PercentOf(m, c);
    if d >= 0 {
      assert d * c == n;
    } else {
      assert d * c == -n;
    }
  }

  /** Below 100 percent of m, rounded down, is between 0 and m. */
  lemma PercentOf(m: nat, c: nat)
    requires c <= 99
    ensures 0 <= (m * c) / 100 <= m
  {
    assert m * c <= m * 100;
    DivBelow(m * c, 100, m);
  }

  /** Conversion to s16 leaves a value that already fits unchanged. */
  lemma S16Identity(x: int)
    requires -0x8000 <= x < 0x8000
    ensures S16(x) == x
  {
  }

  /** At a breakpoint the lookup returns that point's result exactly. */
  lemma LookupAtBreakpoint(t: seq<Point>, max: nat, k: nat)
    requires WellFormedTable(t) && max < |t| && k <= max
    ensures LookupValue(t, max, t[k].val) == t[k].ret
  {
    var value := t[k].val;
    if 0 < k < max {
      AscendingFrom(t, 0, k);
      AscendingFrom(t, k, max);
      var i := FirstAbove(t, max, value, 0);
      FirstAboveIsFirst(t, max, value, 0);
      if i <= k {
        AscendingFrom(t, i, k);
      }
      AscendingFrom(t, k, k + 1);
      assert i == k + 1;
      InterpolationBetween(t[k], t[k + 1], value);
    } else if k == max && max > 0 {
      AscendingFrom(t, 0, max);
    }
  }

  /** In a well-formed table readings ascend between any two indices. */
  lemma {:induction false} AscendingFrom(t: seq<Point>, i: nat, j: nat)
    requires WellFormedTable(t) && i < j < |t|
    ensures t[i].val < t[j].val
    decreases j - i
  {
    if i + 1 < j {
      AscendingFrom(t, i, j - 1);
    }
  }

  // ---------------------------------------------------------------------
  // Arithmetic on register values
  // ---------------------------------------------------------------------

  /** comp2: a `width`-bit two's complement reading as a signed number. */
  function Comp2(x: int, width: nat): int
    requires 1 <= width <= 32
  {
    if width == 32 then x
    else if x >= Pow2(width - 1) then x - Pow2(width)
    else x
  }

  /**
   * For a `width`-bit reading with width < 32, comp2 lands in the signed
   * range of that width and differs from the reading by 0 or 2^width (it is
   * congruent to it modulo 2^width).
   */
  lemma Comp2Range(x: int, width: nat)
    requires 1 <= width < 32 && 0 <= x < Pow2(width)
    ensures Comp2(x, width) + Pow2(width - 1) >= 0 && Comp2(x, width) < Pow2(width - 1)
    ensures Comp2(x, width) == x || Comp2(x, width) == x - Pow2(width)
  {
    var half := Pow2(width - 1);
    assert Pow2(width) == 2 * half;
  }

  /** With width 32 the value is passed through unchanged. */
  lemma Comp2Width32(x: int)
    ensures Comp2(x, 32) == x
  {
  }

  /** Two values below m multiply to less than m * m. */
  lemma MulBelow(a: nat, b: nat, m: nat)
    requires a < m && b < m
    ensures a * b < m * m
  {
    assert a * b <= a * m;
    assert a * m < m * m;
  }

  /** A byte below a word: (hi * 256 + lo) splits back into hi and lo. */
  lemma Join256(hi: nat, lo: nat)
    requires lo < 256
    ensures (hi * 256 + lo) / 256 == hi && (hi * 256 + lo) % 256 == lo
  {
  }

  /** The four SFR bytes as one 32-bit number; the top byte below 0x80 keeps it below 2^31. */
  function SfrWord(b3: bv8, b2: bv8, b1: bv8, b0: bv8): (w: nat)
    ensures w < U32_MOD
    ensures b3 < 0x80 ==> w < 0x8000_0000
  {
    var h, m, l, z := b3 as int, b2 as int, b1 as int, b0 as int;
    ((h * 256 + m) * 256 + l) * 256 + z
  }

  /**
   * get_SR as written: SFR3 << 24 is computed in a signed int, so a top byte
   * of 0x80 or more sign-extends into the u64; the product with mclk then
   * wraps in 64 bits before the shift by 32.
   */
  function GetSrAsWritten(b3: bv8, b2: bv8, b1: bv8, b0: bv8, mclk: nat): (sr: nat)
    requires mclk < U32_MOD
    ensures sr < U32_MOD
  {
    var w := SfrWord(b3, b2, b1, b0);
    var sfr := if b3 >= 0x80 then w + (U64_MOD - U32_MOD) else w;
    Wrap(Wrap(sfr * mclk, U64_MOD) / U32_MOD, U32_MOD)
  }

  /** SR from a 32-bit SFR word: SFR * mclk / 2^32, which always fits 32 bits. */
  function SrFromWord(w: nat, mclk: nat): (sr: nat)
    requires w < U32_MOD && mclk < U32_MOD
    ensures sr < U32_MOD
  {
    var n: nat := w * mclk;
    MulBelow(w, mclk, U32_MOD);
    DivBelow(n, U32_MOD, U32_MOD);
    n / U32_MOD
  }

  /** get_SR with the four bytes joined unsigned. */
  function GetSr(b3: bv8, b2: bv8, b1: bv8, b0: bv8, mclk: nat): (sr: nat)
    requires mclk < U32_MOD
    ensures sr < U32_MOD
  {
    SrFromWord(SfrWord(b3, b2, b1, b0), mclk)
  }

  /** The symbol rate is SFR * mclk / 2^32 rounded down, and always fits a u32. */
  lemma GetSrBracket(b3: bv8, b2: bv8, b1: bv8, b0: bv8, mclk: nat)
    requires mclk < U32_MOD
    ensures var sr := GetSr(b3, b2, b1, b0, mclk);
      sr * U32_MOD <= SfrWord(b3, b2, b1, b0) * mclk < (sr + 1) * U32_MOD
  {
    SrFromWordBracket(SfrWord(b3, b2, b1, b0), mclk);
  }

  lemma SrFromWordBracket(w: nat, mclk: nat)
    requires w < U32_MOD && mclk < U32_MOD
    ensures SrFromWord(w, mclk) * U32_MOD <= w * mclk < (SrFromWord(w, mclk) + 1) * U32_MOD
  {
    DivBounds(w * mclk, U32_MOD);
  }

  /** Without sign extension the 64-bit product never wraps, so the shift gives SrFromWord. */
  lemma SrFromWordNoWrap(w: nat, mclk: nat)
    requires w < U32_MOD && mclk < U32_MOD
    ensures Wrap(Wrap(w * mclk, U64_MOD) / U32_MOD, U32_MOD) == SrFromWord(w, mclk)
  {
    var n := w * mclk;
    MulBelow(w, mclk, U32_MOD);
    assert Wrap(n, U64_MOD) == n;
    DivBelow(n, U32_MOD, U32_MOD);
  }

  /** Below a top byte of 0x80 the code as written computes the symbol rate correctly. */
  lemma GetSrAgrees(b3: bv8, b2: bv8, b1: bv8, b0: bv8, mclk: nat)
    requires mclk < U32_MOD && b3 < 0x80
    ensures GetSrAsWritten(b3, b2, b1, b0, mclk) == GetSr(b3, b2, b1, b0, mclk)
  {
    SrFromWordNoWrap(SfrWord(b3, b2, b1, b0), mclk);
  }

  /**
   * At the driver's maximum symbol rate, 67.5 Msps with a 135 MHz master
   * clock, SFR3 reads 0x80 and the code as written returns 4227467296
   * instead of 67500000.
   */
  lemma GetSrSignExtension()
    ensures GetSr(0x80, 0, 0, 0, 135000000) == 67500000
    ensures GetSrAsWritten(0x80, 0, 0, 0, 135000000) == 4227467296
  {
    assert SfrWord(0x80, 0, 0, 0) == 0x8000_0000;
    assert 0x8000_0000 * 135000000 / U32_MOD == 67500000;
    var sfr := 0x8000_0000 + (U64_MOD - U32_MOD);
    assert Wrap(sfr * 135000000, U64_MOD) == 18156833781229551616;
    assert 18156833781229551616 / U32_MOD == 4227467296;
  }

  /** The initial symbol-rate word: SR * 2^16 / mclk. */
  function SfrInit(sr: nat, mclk: nat): nat
    requires mclk > 0
  {
    (sr * U16_MOD) / mclk
  }

  /** The word is SR / mclk in units of 2^-16, rounded down. */
  lemma SfrInitBracket(sr: nat, mclk: nat)
    requires mclk > 0
    ensures SfrInit(sr, mclk) * mclk <= sr * U16_MOD < (SfrInit(sr, mclk) + 1) * mclk
  {
    DivBounds(sr * U16_MOD, mclk);
  }

  /** The SFRINIT1/SFRINIT0 bytes start writes: bits 8-14 and bits 0-7 of the word. */
  function SfrInitBytes(sfr: nat): (bytes: (bv8, bv8))
    ensures bytes.0 as int < 0x80
  {
    (Lo8((sfr / 256) % 0x80), Lo8(sfr))
  }

  /** A word below 2^15 is carried exactly by the two registers. */
  lemma SfrInitRoundTrip(sfr: nat)
    requires sfr < 0x8000
    ensures var b := SfrInitBytes(sfr); MakeWord16(b.0, b.1) == sfr
  {
    var hi, lo := sfr / 256, sfr % 256;
    assert hi < 0x80 && sfr == hi * 256 + lo;
    var b := SfrInitBytes(sfr);
    assert b.0 == Lo8(hi % 0x80) && hi % 0x80 == hi;
    assert b.0 as int == hi;
    assert b.1 as int == lo;
  }

  /** At 67.5 Msps with a 135 MHz master clock the word is 2^15 and both registers get 0. */
  lemma SfrInitAtMaximum()
    ensures SfrInit(67500000, 135000000) == 0x8000
    ensures SfrInitBytes(0x8000) == (0, 0)
  {
    assert 67500000 * U16_MOD == 0x8000 * 135000000;
  }
  /** The shared part of the two demodulators: the external clock and the master clock. */
  class Base {
    const extclk: nat
    var mclk: nat

    constructor (extclk: nat)
      ensures this.extclk == extclk && mclk == 0
    {
      this.extclk := extclk;
      mclk := 0;
    }

    /** set_mclock: the PLL reaches 2 * quartz * ndiv, divided by 8, in whole MHz. */
    method SetMclock(masterClock: nat)
      requires 1000000 <= extclk < U32_MOD && masterClock < U32_MOD
      modifies this`mclk
      ensures mclk == MasterClockFor(extclk, masterClock)
    {
      var idf := 1;
      var odf := 4;
      var quartz := extclk / 1000000;
      var fphi := masterClock / 1000000;
      var ndiv := (fphi * odf * idf) / quartz;
      var fvco := (quartz * 2 * ndiv) / idf;
      mclk := fvco / (2 * odf) * 1000000;
    }
  }

  /** The master clock set_mclock reaches for a requested clock. */
  function MasterClockFor(extclk: nat, masterClock: nat): nat
    requires extclk >= 1000000
  {
    var quartz := extclk / 1000000;
    var fphi := masterClock / 1000000;
    var ndiv := (fphi * 4) / quartz;
    (quartz * 2 * ndiv) / 8 * 1000000
  }

  /**
   * The master clock is a whole number of MHz and never exceeds the request;
   * when the quartz in MHz divides four times the request in MHz, the request
   * is met to the MHz (135 MHz from a 27 MHz quartz, say).
   */
  lemma MasterClockBelowRequest(extclk: nat, masterClock: nat)
    requires extclk >= 1000000
    ensures MasterClockFor(extclk, masterClock) % 1000000 == 0
    ensures MasterClockFor(extclk, masterClock) <= masterClock
    ensures (4 * (masterClock / 1000000)) % (extclk / 1000000) == 0 ==>
              MasterClockFor(extclk, masterClock) == masterClock / 1000000 * 1000000
  {
    var quartz := extclk / 1000000;
    var fphi := masterClock / 1000000;
    var ndiv := (fphi * 4) / quartz;
    assert quartz * ndiv <= fphi * 4;
    assert (quartz * 2 * ndiv) / 8 <= fphi by {
      assert quartz * 2 * ndiv <= 8 * fphi;
    }
    assert fphi * 1000000 <= masterClock;
    if (4 * fphi) % quartz == 0 {
      assert quartz * ndiv == fphi * 4;
      assert quartz * 2 * ndiv == 8 * fphi;
    }
  }

  /** The DiSEqC 22 kHz divider: mclk / (32 * 22 kHz), rounded, as a u8. */
  function DiseqcDivider(mclk: nat): bv8
    requires mclk < U32_MOD
  {
    Lo8(Wrap(mclk + 11000 * 32, U32_MOD) / (22000 * 32))
  }

  /**
   * init_diseqc: DISRXCFG = 0 (receiver off), DISTXCFG = 2, DISTX_RESET
   * pulsed, and the 22 kHz divider for the master clock written to
   * DISTXF22 last; every write's result is ignored.
   */
  function InitDiseqcOf(regs: map<int, bv8>, readFail: set<int>, writeFail: set<int>, log: seq<RegWrite>,
                        disrxcfg: int, distxcfg: int, distxReset: nat, distxf22: int, mclk: nat): (r: BusResult)
    requires distxReset < U32_MOD && mclk < U32_MOD
    ensures r.ret == 0 && |log| <= |r.log| <= |log| + 5 && r.log[..|log|] == log
    ensures distxf22 !in writeFail ==>
      |r.log| > |log| && Get(r.regs, distxf22) == DiseqcDivider(mclk)
      && r.log[|r.log| - 1] == RegWrite(distxf22, DiseqcDivider(mclk))
  {
    var r1 := WriteOne(regs, writeFail, log, disrxcfg, 0x00);
    var r2 := WriteOne(r1.regs, writeFail, r1.log, distxcfg, 0x02);
    var r3 := PulseOf(r2.regs, readFail, writeFail, r2.log, distxReset);
    var r4 := WriteOne(r3.regs, writeFail, r3.log, distxf22, DiseqcDivider(mclk));
    BusResult(0, r4.regs, r4.log)
  }

  /**
   * With every register of init_diseqc on distinct addresses and the bus
   * working: DISRXCFG holds 0, DISTXCFG 2, DISTXF22 the divider, the reset
   * field of its register is 0 with the register's other bits as the
   * DISTXCFG write left them, the log starts with the two configuration
   * writes and ends with the divider, and no other register changes.
   */
  lemma InitDiseqcWrites(regs: map<int, bv8>, readFail: set<int>, writeFail: set<int>, log: seq<RegWrite>,
                         disrxcfg: int, distxcfg: int, distxReset: nat, distxf22: int, mclk: nat)
    requires distxReset < U32_MOD && mclk < U32_MOD
    requires var a := LabelAddr(distxReset);
      disrxcfg != distxcfg && disrxcfg != distxf22 && distxcfg != distxf22 && a != disrxcfg && a != distxf22
      && a !in readFail && disrxcfg !in writeFail && distxcfg !in writeFail && a !in writeFail
      && distxf22 !in writeFail
    ensures var a := LabelAddr(distxReset);
      var r := InitDiseqcOf(regs, readFail, writeFail, log, disrxcfg, distxcfg, distxReset, distxf22, mclk);
      Get(r.regs, disrxcfg) == 0 && Get(r.regs, distxf22) == DiseqcDivider(mclk)
      && (a != distxcfg ==> Get(r.regs, distxcfg) == 2)
      && FieldOf(Get(r.regs, a), distxReset) == 0
      && Get(r.regs, a) & !LabelMask(distxReset)
         == Get(regs[disrxcfg := 0][distxcfg := 2], a) & !LabelMask(distxReset)
      && |r.log| >= |log| + 3
      && r.log[|log|] == RegWrite(disrxcfg, 0) && r.log[|log| + 1] == RegWrite(distxcfg, 2)
      && (forall b :: b != disrxcfg && b != distxcfg && b != a && b != distxf22 ==> Get(r.regs, b) == Get(regs, b))
  {
    var a := LabelAddr(distxReset);
    var r1 := WriteOne(regs, writeFail, log, disrxcfg, 0x00);
    var r2 := WriteOne(r1.regs, writeFail, r1.log, distxcfg, 0x02);
    assert r2.regs == regs[disrxcfg := 0][distxcfg := 2];
    assert r2.log == log + [RegWrite(disrxcfg, 0), RegWrite(distxcfg, 2)];
    var r3 := PulseOf(r2.regs, readFail, writeFail, r2.log, distxReset);
    PulseClearsField(r2.regs, readFail, writeFail, r2.log, distxReset);
    assert r3.log[..|r2.log|] == r2.log;
    assert r3.log[|log|] == r2.log[|log|] && r3.log[|log| + 1] == r2.log[|log| + 1];
    var r4 := WriteOne(r3.regs, writeFail, r3.log, distxf22, DiseqcDivider(mclk));
    assert r4.regs == r3.regs[distxf22 := DiseqcDivider(mclk)];
    assert r4.log == r3.log + [RegWrite(distxf22, DiseqcDivider(mclk))];
    var r := InitDiseqcOf(regs, readFail, writeFail, log, disrxcfg, distxcfg, distxReset, distxf22, mclk);
    assert r.regs == r4.regs && r.log == r4.log;
    assert Get(r.regs, a) == Get(r3.regs, a);
    assert Get(r.regs, disrxcfg) == Get(r3.regs, disrxcfg) == Get(r2.regs, disrxcfg);
    assert a != distxcfg ==> Get(r.regs, distxcfg) == Get(r3.regs, distxcfg) == Get(r2.regs, distxcfg);
    forall b | b != disrxcfg && b != distxcfg && b != a && b != distxf22
      ensures Get(r.regs, b) == Get(regs, b)
    {
      assert Get(r.regs, b) == Get(r3.regs, b) == Get(r2.regs, b);
    }
  }

  /**
   * Below 179,872,000 Hz the divider is mclk / 704000 rounded to nearest
   * (132 MHz to 135 MHz give 188 to 192); at and above that it wraps in the u8.
   */
  lemma DiseqcDividerRounds(mclk: nat)
    requires mclk < 179872000
    ensures var d := DiseqcDivider(mclk) as int;
      d * 704000 <= mclk + 352000 < (d + 1) * 704000
  {
    var q := (mclk + 352000) / 704000;
    assert q < 256;
  }

  lemma DiseqcDividerExamples()
    ensures DiseqcDivider(135000000) == 192
    ensures DiseqcDivider(179872000) == 0
  {
    assert Wrap(135000000 + 352000, U32_MOD) == 135352000;
    assert 135352000 / 704000 == 192;
    assert Wrap(179872000 + 352000, U32_MOD) == 180224000;
    assert 180224000 / 704000 == 256;
  }

  /** read_tbe: the 23-bit error count from ERRCNT12 (7 bits), ERRCNT11 and ERRCNT10. */
  function ErrorCount(b12: bv8, b11: bv8, b10: bv8): nat
  {
    Join3(Low7(b12), b11 as int, b10 as int)
  }

  /** The low seven bits of a byte, as a number. */
  function Low7(b: bv8): (n: nat)
    ensures n < 0x80
  {
    (b & 0x7f) as int
  }

  /** Three bytes, most significant first, as one number. */
  function Join3(hi: nat, mid: nat, lo: nat): nat
  {
    (hi * 256 + mid) * 256 + lo
  }

  /** Joining three bytes is undone by taking the bytes back out. */
  lemma Join3Bytes(hi: nat, mid: nat, lo: nat)
    requires mid < 256 && lo < 256
    ensures Join3(hi, mid, lo) / 256 / 256 == hi
    ensures (Join3(hi, mid, lo) / 256) % 256 == mid
    ensures Join3(hi, mid, lo) % 256 == lo
    ensures Join3(hi, mid, lo) < (hi + 1) * 0x1_0000
  {
    Join256(hi * 256 + mid, lo);
    Join256(hi, mid);
  }

  /** The count is below 2^23 and its three bytes come back out unchanged. */
  lemma ErrorCountBytes(b12: bv8, b11: bv8, b10: bv8)
    ensures ErrorCount(b12, b11, b10) < 0x80_0000
    ensures ErrorCount(b12, b11, b10) / 256 / 256 == Low7(b12)
    ensures (ErrorCount(b12, b11, b10) / 256) % 256 == b11 as int
    ensures ErrorCount(b12, b11, b10) % 256 == b10 as int
  {
    Join3Bytes(Low7(b12), b11 as int, b10 as int);
  }

  /**
   * read_ucblocks: in DVB-S2 the BB-frame and user-packet CRC error
   * counters, each two bytes; any other header mode reports 0.
   */
  function Ucblocks(headerMode: nat, bb1: bv8, bb0: bv8, up1: bv8, up0: bv8): (n: nat)
    ensures headerMode != FE_DVB_S2 ==> n == 0
    ensures headerMode == FE_DVB_S2 ==>
      n <= 2 * 0xffff && n >= MakeWord16(bb1, bb0) && n >= MakeWord16(up1, up0)
  {
    if headerMode == FE_DVB_S2 then MakeWord16(bb1, bb0) + MakeWord16(up1, up0) else 0
  }

  /** Writing 1 and then 0 into a field leaves it 0 and the rest of the byte as it was. */
  lemma PulseOutcome(reg: bv8, field: nat)
    ensures var r2 := FieldUpdate(FieldUpdate(reg, field, 1), field, 0);
      FieldOf(r2, field) == 0 && r2 & !LabelMask(field) == reg & !LabelMask(field)
  {
    var r1 := FieldUpdate(reg, field, 1);
    FieldUpdateReadsBack(reg, field, 1);
    FieldUpdateReadsBack(r1, field, 0);
  }

  /** Pulsing a reset field: write_field 1, then write_field 0, their results ignored. */
  function PulseOf(regs: map<int, bv8>, readFail: set<int>, writeFail: set<int>, log: seq<RegWrite>,
                   field: nat): (r: BusResult)
    requires field < U32_MOD
    ensures forall b :: b != LabelAddr(field) ==> Get(r.regs, b) == Get(regs, b)
    ensures |log| <= |r.log| <= |log| + 2 && r.log[..|log|] == log
  {
    var r1 := WriteFieldOf(regs, readFail, writeFail, log, field, 1);
    var r2 := WriteFieldOf(r1.regs, readFail, writeFail, r1.log, field, 0);
    BusResult(0, r2.regs, r2.log)
  }

  /**
   * When the register reads and writes go through, the pulse leaves the
   * field at 0 and the other bits of the register as they were, after one
   * or two writes to that register.
   */
  lemma PulseClearsField(regs: map<int, bv8>, readFail: set<int>, writeFail: set<int>, log: seq<RegWrite>,
                         field: nat)
    requires field < U32_MOD
    requires LabelAddr(field) !in readFail && LabelAddr(field) !in writeFail
    ensures var a := LabelAddr(field);
      var r := PulseOf(regs, readFail, writeFail, log, field);
      FieldOf(Get(r.regs, a), field) == 0
      && Get(r.regs, a) & !LabelMask(field) == Get(regs, a) & !LabelMask(field)
      && forall k :: |log| <= k < |r.log| ==> r.log[k].addr == a
  {
    var a := LabelAddr(field);
    var r0 := Get(regs, a);
    var r1 := WriteFieldOf(regs, readFail, writeFail, log, field, 1);
    WriteFieldOfAt(regs, readFail, writeFail, log, field, 1);
    WriteFieldOfAt(r1.regs, readFail, writeFail, r1.log, field, 0);
    PulseOutcome(r0, field);
  }

  /** With the register's read and write going through, write_field leaves it holding the merged byte. */
  lemma WriteFieldOfAt(regs: map<int, bv8>, readFail: set<int>, writeFail: set<int>, log: seq<RegWrite>,
                       field: nat, data: bv8)
    requires field < U32_MOD
    requires LabelAddr(field) !in readFail && LabelAddr(field) !in writeFail
    ensures var a := LabelAddr(field);
      var r := WriteFieldOf(regs, readFail, writeFail, log, field, data);
      Get(r.regs, a) == FieldUpdate(Get(regs, a), field, data)
      && |log| <= |r.log| <= |log| + 1 && r.log[..|log|] == log
      && forall k :: |log| <= k < |r.log| ==> r.log[k].addr == a
  {
  }

  /** The pulse on the register map, with the effect of PulseOf. */
  method PulseField(rm: RegisterMap, field: nat)
    requires field < U32_MOD
    modifies rm`regs, rm`log
    ensures var r := PulseOf(old(rm.regs), rm.readFail, rm.writeFail, old(rm.log), field);
      rm.regs == r.regs && rm.log == r.log
  {
    var _ := WriteField(rm, field, 1);
    var _ := WriteField(rm, field, 0);
  }

  // ---------------------------------------------------------------------
  // Lock indicators and status
  // ---------------------------------------------------------------------

  /** HEADER_MODE values: DVB-S2 frames and DVB-S (enum in the driver). */
  const FE_DVB_S2: nat := 2
  const FE_DVB_S: nat := 3

  /** The register fields a lock poll or read_status reads. */
  datatype LockFields = LockFields(carLock: bool, headerMode: nat, lockDefinitif: bool,
                                   lockedVit: bool, pktdelinLock: bool, tsfifoLineOk: bool)

  /** One poll of get_dmdlock: the nested field checks for the current header mode. */
  predicate PollLock(f: LockFields)
  {
    if f.headerMode == FE_DVB_S then
      f.lockDefinitif && f.lockedVit && f.tsfifoLineOk
    else if f.headerMode == FE_DVB_S2 then
      f.lockDefinitif && f.pktdelinLock && f.tsfifoLineOk
    else false
  }

  /** read_status: the status flags from one snapshot of the lock fields and the algo. */
  function StatusOf(f: LockFields, algo: Algo): (st: FeStatus)
    ensures st.timedOut <==> algo == NoTune
    ensures st.signal == f.carLock && st.carrier == f.carLock
  {
    var vit := (f.headerMode == FE_DVB_S || f.headerMode == FE_DVB_S2) && f.lockDefinitif
               && (if f.headerMode == FE_DVB_S then f.lockedVit else f.pktdelinLock);
    var sync := vit && f.tsfifoLineOk;
    FeStatus(f.carLock, f.carLock, vit, sync, sync, algo == NoTune)
  }

  /**
   * read_status reports FE_HAS_LOCK (and FE_HAS_SYNC) exactly when a
   * get_dmdlock poll of the same fields would stop with lock, reports
   * FE_HAS_VITERBI whenever it reports lock, and reports nothing past the
   * carrier for a header mode that is neither DVB-S nor DVB-S2.
   */
  lemma StatusLockIsPollLock(f: LockFields, algo: Algo)
    ensures StatusOf(f, algo).lock <==> PollLock(f)
    ensures StatusOf(f, algo).sync <==> PollLock(f)
    ensures StatusOf(f, algo).lock ==> StatusOf(f, algo).viterbi
    ensures f.headerMode != FE_DVB_S && f.headerMode != FE_DVB_S2 ==>
              !StatusOf(f, algo).viterbi && !StatusOf(f, algo).lock
  {
  }

  // ---------------------------------------------------------------------
  // Lock wait
  // ---------------------------------------------------------------------

  /** The lock-wait budget in milliseconds for a symbol rate. */
  function LockBudget(sr: nat): (ms: nat)
    ensures 1000 <= ms <= 5000 && ms % 100 == 0
  {
    if sr <= 1000000 then 5000
    else if sr <= 2000000 then 4500
    else if sr <= 5000000 then 3500
    else if sr <= 10000000 then 2500
    else if sr < 20000000 then 1500
    else 1000
  }

  /** A higher symbol rate never gets a longer wait; exactly 20 Msps already gets the shortest. */
  lemma LockBudgetMonotone(sr1: nat, sr2: nat)
    ensures sr1 <= sr2 ==> LockBudget(sr2) <= LockBudget(sr1)
    ensures LockBudget(20000000) == 1000 && LockBudget(19999999) == 1500
    ensures LockBudget(1000000) == 5000 && LockBudget(1000001) == 4500
  {
  }

  /** The index of the first locked poll among the first n, if any. */
  function FirstLock(polls: seq<LockFields>, n: nat, i: nat): (r: Option<nat>)
    requires n <= |polls| && i <= n
    ensures r.Some? ==> i <= r.value < n && PollLock(polls[r.value])
                        && forall j :: i <= j < r.value ==> !PollLock(polls[j])
    ensures r.None? ==> forall j :: i <= j < n ==> !PollLock(polls[j])
    decreases n - i
  {
    if i == n then None
    else if PollLock(polls[i]) then Some(i)
    else FirstLock(polls, n, i + 1)
  }

  /** The number of polls get_dmdlock may make: one per 100 ms of budget. */
  function PollLimit(sr: nat): (n: nat)
    ensures 10 <= n <= 50
  {
    LockBudget(sr) / 100
  }

  /**
   * get_dmdlock: poll the lock fields every 100 ms until they show lock or
   * the budget runs out.  `polls` are the successive field snapshots; the
   * sleeps are not modelled.
   */
  method GetDmdLock(sr: nat, polls: seq<LockFields>) returns (lock: bool, count: nat)
    requires PollLimit(sr) <= |polls|
    ensures count <= PollLimit(sr)
    ensures lock <==> FirstLock(polls, PollLimit(sr), 0).Some?
    ensures lock ==> count == FirstLock(polls, PollLimit(sr), 0).value + 1
    ensures !lock ==> count == PollLimit(sr)
  {
    var timeout := LockBudget(sr);
    var timer := 0;
    lock := false;
    while timer < timeout && !lock
      invariant timer % 100 == 0 && timer <= timeout
      invariant !lock ==> FirstLock(polls, PollLimit(sr), timer / 100) == FirstLock(polls, PollLimit(sr), 0)
      invariant lock ==> timer >= 100 && FirstLock(polls, PollLimit(sr), 0) == Some(timer / 100 - 1)
      decreases timeout - timer, !lock
    {
      lock := PollLock(polls[timer / 100]);
      timer := timer + 100;
    }
    count := timer / 100;
  }

  // ---------------------------------------------------------------------
  // Blind-search start
  // ---------------------------------------------------------------------

  /** The frontend limits of the driver (ops.info). */
  const SYMBOL_RATE_MIN: nat := 100000
  const SYMBOL_RATE_MAX: nat := 67500000
  /** The tuner bandwidth start programs first: 2 x 36 MHz. */
  const INITIAL_BANDWIDTH: nat := 72000000

  /** What start hands to the tuner and writes as the initial symbol-rate word. */
  datatype StartEvent =
    | TunerBandwidth(hz: nat)
    | TunerFrequency(freq: nat)
    | SymbolRateInit(hi: bv8, lo: bv8)

  /**
   * What the chip shows during one pass of start: the lock-poll snapshots,
   * then, after lock, the carrier-frequency bytes CFR2/CFR1, the symbol-rate
   * bytes SFR3..SFR0 and the ROLLOFF_STATUS field.
   */
  datatype Attempt = Attempt(polls: seq<LockFields>, cfr2: bv8, cfr1: bv8,
                             sfr3: bv8, sfr2: bv8, sfr1: bv8, sfr0: bv8, rolloffStatus: bv8)

  /** Every pass can answer the longest lock wait (50 polls). */
  predicate ScriptOk(script: seq<Attempt>)
  {
    forall k :: 0 <= k < |script| ==> |script[k].polls| >= 50
  }

  /**
   * The carrier offset in kHz: the signed 16-bit CFR times mclk / 1000,
   * shifted right by 16 (an arithmetic shift, so rounded down).
   */
  function CarrierOffset(cfr2: bv8, cfr1: bv8, mclk: nat): (offset: int)
  {
    (Comp2(MakeWord16(cfr2, cfr1), 16) * (mclk / 1000)) / U16_MOD
  }

  /**
   * The offset is the signed CFR reading, scaled by mclk / 1000 and divided
   * by 2^16, rounded down; its magnitude is at most about half of mclk / 1000.
   */
  lemma CarrierOffsetScaled(cfr2: bv8, cfr1: bv8, mclk: nat)
    ensures var c := Comp2(MakeWord16(cfr2, cfr1), 16);
      var offset := CarrierOffset(cfr2, cfr1, mclk);
      -0x8000 <= c < 0x8000
      && offset * U16_MOD <= c * (mclk / 1000) < (offset + 1) * U16_MOD
      && offset + (mclk / 1000) / 2 + 1 >= 0 && offset <= (mclk / 1000) / 2
  {
    var k := mclk / 1000;
    var c := Comp2(MakeWord16(cfr2, cfr1), 16);
    Pow2Sixteen();
    Comp2Range(MakeWord16(cfr2, cfr1), 16);
    ScaledShift(c, k);
  }

  lemma Pow2Sixteen()
    ensures Pow2(15) == 0x8000 && Pow2(16) == 0x1_0000
  {
    assert Pow2(1) == 2 && Pow2(2) == 4 && Pow2(3) == 8 && Pow2(4) == 16;
    assert Pow2(5) == 32 && Pow2(6) == 64 && Pow2(7) == 128 && Pow2(8) == 256;
    assert Pow2(9) == 512 && Pow2(10) == 1024 && Pow2(11) == 2048 && Pow2(12) == 4096;
    assert Pow2(13) == 8192 && Pow2(14) == 16384;
  }

  /** A signed 16-bit value times k, shifted right by 16: rounded down, within about k / 2. */
  lemma ScaledShift(c: int, k: nat)
    requires -0x8000 <= c < 0x8000
    ensures (c * k / U16_MOD) * U16_MOD <= c * k < (c * k / U16_MOD + 1) * U16_MOD
    ensures c * k / U16_MOD + k / 2 + 1 >= 0 && c * k / U16_MOD <= k / 2
  {
    ScaledRange(c, k);
    ShiftRange(c * k, k);
  }

  lemma ScaledRange(c: int, k: nat)
    requires -0x8000 <= c < 0x8000
    ensures -0x8000 * k <= c * k <= 0x8000 * k
  {
    if c >= 0 {
      assert c * k <= 0x8000 * k;
    } else {
      assert (-c) * k <= 0x8000 * k;
    }
  }

  lemma ShiftRange(n: int, k: nat)
    requires -0x8000 * k <= n <= 0x8000 * k
    ensures (n / U16_MOD) * U16_MOD <= n < (n / U16_MOD + 1) * U16_MOD
    ensures n / U16_MOD + k / 2 + 1 >= 0 && n / U16_MOD <= k / 2
  {
    var q := n / U16_MOD;
    assert q * U16_MOD <= n < (q + 1) * U16_MOD;
    assert 2 * q <= k;
    assert 2 * (q + 1) + k > 0;
  }

  /** The roll-off factor in percent for the ROLLOFF_STATUS field (0.35 for 0 and unknown values). */
  function RolloffPercent(status: bv8): (r: nat)
    ensures 115 <= r <= 135
    ensures status > 3 ==> r == 135
  {
    if status == 3 then 115
    else if status == 2 then 120
    else if status == 1 then 125
    else 135
  }

  /** The four statuses map to four different factors, 0.15 to 0.35 above 1. */
  lemma RolloffValues()
    ensures [RolloffPercent(0), RolloffPercent(1), RolloffPercent(2), RolloffPercent(3)] == [135, 125, 120, 115]
  {
  }

  /** The bandwidth start hands the tuner after lock, as written: SR * rolloff in u32, over 100. */
  function BandwidthAsWritten(sr: nat, rolloff: nat): (bw: nat)
    ensures bw < U32_MOD
  {
    Wrap(sr * rolloff, U32_MOD) / 100
  }

  /** The occupied bandwidth SR * (rolloff / 100), rounded down. */
  function Bandwidth(sr: nat, rolloff: nat): nat
  {
    (sr * rolloff) / 100
  }

  /** The bandwidth is SR * rolloff / 100 rounded down, with nothing lost to wrap-around. */
  lemma BandwidthBracket(sr: nat, rolloff: nat)
    ensures Bandwidth(sr, rolloff) * 100 <= sr * rolloff < (Bandwidth(sr, rolloff) + 1) * 100
  {
    DivBounds(sr * rolloff, 100);
  }

  /** The two agree while the product fits 32 bits (up to about 31.8 Msps at roll-off 0.35). */
  lemma BandwidthAgrees(sr: nat, rolloff: nat)
    requires sr * rolloff < U32_MOD
    ensures BandwidthAsWritten(sr, rolloff) == Bandwidth(sr, rolloff)
  {
  }

  /** At 45 Msps and roll-off 0.35 the u32 product wraps: 17.8 MHz instead of 60.75 MHz. */
  lemma BandwidthOverflow()
    ensures BandwidthAsWritten(45000000, RolloffPercent(0)) == 17800327
    ensures Bandwidth(45000000, RolloffPercent(0)) == 60750000
  {
    assert 45000000 * 135 == 6075000000;
    assert Wrap(6075000000, U32_MOD) == 1780032704;
  }

  /** The result of start: its return code and the property cache it leaves, or a script too short. */
  datatype StartResult =
    | Started(ret: int, frequency: nat, symbolRate: nat, events: seq<StartEvent>, passes: nat)
    | OutOfScript(events: seq<StartEvent>)

  /** A result seen from `k` passes earlier. */
  function StartShift(r: StartResult, k: nat): StartResult
  {
    if r.Started? then r.(passes := r.passes + k) else r
  }

  /** What one pass of start leaves: whether it locked, the offset, and the values it stores. */
  datatype Pass = Pass(locked: bool, offset: int, freq: nat, sr: nat, bw: nat, events: seq<StartEvent>)

  /**
   * One pass from the label `start`: hand the tuner `bw` and `freq`,
   * program the symbol-rate word for `sr` and wait for lock; on lock, read
   * the carrier offset, move the frequency by it (mod 2^32), read back the
   * symbol rate with get_SR as written and derive the occupied bandwidth in
   * u32 arithmetic, as the driver does.
   */
  function PassOf(freq: nat, sr: nat, bw: nat, mclk: nat, a: Attempt, events: seq<StartEvent>): (q: Pass)
    requires 0 < mclk < U32_MOD && |a.polls| >= 50
    ensures q.locked <==> FirstLock(a.polls, PollLimit(sr), 0).Some?
    ensures !q.locked ==> q.freq == freq && q.sr == sr
    ensures q.locked ==> q.freq < U32_MOD && q.sr < U32_MOD
    ensures |q.events| == |events| + 3 && q.events[..|events|] == events
  {
    var w := SfrInitBytes(SfrInit(sr, mclk));
    var ev := events + [TunerBandwidth(bw), TunerFrequency(freq), SymbolRateInit(w.0, w.1)];
    if FirstLock(a.polls, PollLimit(sr), 0).None? then Pass(false, 0, freq, sr, bw, ev)
    else
      var offset := CarrierOffset(a.cfr2, a.cfr1, mclk);
      var sr' := GetSrAsWritten(a.sfr3, a.sfr2, a.sfr1, a.sfr0, mclk);
      Pass(true, offset, Wrap(freq + offset, U32_MOD), sr', BandwidthAsWritten(sr', RolloffPercent(a.rolloffStatus)), ev)
  }

  /** A pass that locked but is more than 1 MHz off makes start begin again. */
  predicate Restarts(q: Pass)
  {
    q.locked && (q.offset > 1000 || q.offset < -1000)
  }

  /**
   * The passes of start until one fails to lock or locks within 1 MHz;
   * `cacheBw` is the cache's bandwidth_hz, which start reads but never
   * writes.  A script that runs out first gives OutOfScript.
   */
  function StartFrom(freq: nat, sr: nat, bw: nat, cacheBw: nat, mclk: nat,
                     script: seq<Attempt>, events: seq<StartEvent>): (r: StartResult)
    requires 0 < mclk < U32_MOD && ScriptOk(script)
    ensures r.Started? ==> (r.ret == 0 || r.ret == 1) && 1 <= r.passes <= |script|
    ensures r.Started? && r.ret == 1 ==> r.frequency < U32_MOD && r.symbolRate < U32_MOD
    decreases |script|
  {
    if script == [] then OutOfScript(events)
    else
      var q := PassOf(freq, sr, bw, mclk, script[0], events);
      if Restarts(q) then StartShift(StartFrom(q.freq, q.sr, q.bw, cacheBw, mclk, script[1..], q.events), 1)
      else PassEnd(freq, sr, cacheBw, q, 1)
  }

  /**
   * What start returns after a last pass, its `passes`-th: 0 with the
   * values unchanged when it did not lock, else 1 with the corrected values,
   * the tuner told the occupied bandwidth when the cache holds another.
   */
  function PassEnd(freq: nat, sr: nat, cacheBw: nat, q: Pass, passes: nat): StartResult
  {
    if !q.locked then Started(0, freq, sr, q.events, passes)
    else Started(1, q.freq, q.sr, if cacheBw != q.bw then q.events + [TunerBandwidth(q.bw)] else q.events, passes)
  }

  lemma ShiftShift(r: StartResult, a: nat, b: nat)
    ensures StartShift(StartShift(r, a), b) == StartShift(r, a + b)
  {
  }

  /** One step of StartFrom, in terms of the first pass. */
  lemma StartFromStep(freq: nat, sr: nat, bw: nat, cacheBw: nat, mclk: nat,
                      script: seq<Attempt>, events: seq<StartEvent>)
    requires 0 < mclk < U32_MOD && ScriptOk(script) && script != []
    ensures var q := PassOf(freq, sr, bw, mclk, script[0], events);
      var r := StartFrom(freq, sr, bw, cacheBw, mclk, script, events);
      (!q.locked ==> r == Started(0, freq, sr, q.events, 1))
      && (Restarts(q) ==> r == StartShift(StartFrom(q.freq, q.sr, q.bw, cacheBw, mclk, script[1..], q.events), 1))
      && (q.locked && !Restarts(q) ==>
            r == Started(1, q.freq, q.sr, if cacheBw != q.bw then q.events + [TunerBandwidth(q.bw)] else q.events, 1))
  {
  }

  /** start: a symbol rate outside the driver's limits is refused before any call. */
  function StartOf(freq: nat, sr: nat, cacheBw: nat, mclk: nat, script: seq<Attempt>,
                   events: seq<StartEvent>): StartResult
    requires 0 < mclk < U32_MOD && ScriptOk(script)
  {
    if sr < SYMBOL_RATE_MIN || sr > SYMBOL_RATE_MAX then Started(EINVAL, freq, sr, events, 0)
    else StartFrom(freq, sr, INITIAL_BANDWIDTH, cacheBw, mclk, script, events)
  }

  /**
   * start returns -EINVAL exactly for a symbol rate outside
   * [100 ksps, 67.5 Msps], and then it has neither tuned nor changed the
   * cache; otherwise it returns 0 or 1.
   */
  lemma StartRejectsRate(freq: nat, sr: nat, cacheBw: nat, mclk: nat, script: seq<Attempt>,
                         events: seq<StartEvent>)
    requires 0 < mclk < U32_MOD && ScriptOk(script)
    requires StartOf(freq, sr, cacheBw, mclk, script, events).Started?
    ensures var r := StartOf(freq, sr, cacheBw, mclk, script, events);
      (r.ret == EINVAL <==> sr < SYMBOL_RATE_MIN || sr > SYMBOL_RATE_MAX)
      && (r.ret == EINVAL ==> r.events == events && r.frequency == freq && r.symbolRate == sr)
      && (r.ret != EINVAL ==> r.ret == 0 || r.ret == 1)
  {
  }

  /**
   * No lock within the budget: start returns 0 after one pass that set the
   * 72 MHz bandwidth, tuned to the cached frequency and programmed the
   * symbol-rate word; frequency and symbol rate stay as they were.
   */
  lemma StartNoLock(freq: nat, sr: nat, cacheBw: nat, mclk: nat, script: seq<Attempt>,
                    events: seq<StartEvent>)
    requires 0 < mclk < U32_MOD && ScriptOk(script) && script != []
    requires SYMBOL_RATE_MIN <= sr <= SYMBOL_RATE_MAX
    requires FirstLock(script[0].polls, PollLimit(sr), 0).None?
    ensures var r := StartOf(freq, sr, cacheBw, mclk, script, events);
      var w := SfrInitBytes(SfrInit(sr, mclk));
      r == Started(0, freq, sr, events + [TunerBandwidth(INITIAL_BANDWIDTH), TunerFrequency(freq),
                                          SymbolRateInit(w.0, w.1)], 1)
  {
  }

  /**
   * Lock with an offset of at most 1 MHz: start returns 1, moves the cached
   * frequency by the offset (mod 2^32), replaces the symbol rate by get_SR's
   * reading as written, and hands the tuner the occupied bandwidth exactly
   * when it differs from the cached bandwidth_hz.
   */
  lemma StartLocksNearby(freq: nat, sr: nat, cacheBw: nat, mclk: nat, script: seq<Attempt>,
                         events: seq<StartEvent>)
    requires 0 < mclk < U32_MOD && ScriptOk(script) && script != []
    requires SYMBOL_RATE_MIN <= sr <= SYMBOL_RATE_MAX
    requires FirstLock(script[0].polls, PollLimit(sr), 0).Some?
    requires var a := script[0]; -1000 <= CarrierOffset(a.cfr2, a.cfr1, mclk) <= 1000
    ensures var r := StartOf(freq, sr, cacheBw, mclk, script, events);
      var a := script[0];
      var sr' := GetSrAsWritten(a.sfr3, a.sfr2, a.sfr1, a.sfr0, mclk);
      var bw' := BandwidthAsWritten(sr', RolloffPercent(a.rolloffStatus));
      r.Started? && r.ret == 1 && r.passes == 1
      && r.frequency == Wrap(freq + CarrierOffset(a.cfr2, a.cfr1, mclk), U32_MOD)
      && r.symbolRate == sr'
      && (r.events[|r.events| - 1] == TunerBandwidth(bw') <==> cacheBw != bw')
  {
    var q := PassOf(freq, sr, INITIAL_BANDWIDTH, mclk, script[0], events);
    assert q.locked && !Restarts(q);
    StartFromStep(freq, sr, INITIAL_BANDWIDTH, cacheBw, mclk, script, events);
  }

  /**
   * A lock at the driver's top symbol rate, 67.5 Msps with a 135 MHz master
   * clock and no carrier offset: SFR3 reads 0x80, so start stores the
   * sign-extended 4227467296 as the symbol rate and hands the tuner the
   * u32-wrapped 37724018 Hz as the occupied bandwidth.
   */
  lemma StartStoresSignExtendedRate(freq: nat, cacheBw: nat, script: seq<Attempt>, events: seq<StartEvent>)
    requires ScriptOk(script) && script != []
    requires FirstLock(script[0].polls, PollLimit(SYMBOL_RATE_MAX), 0).Some?
    requires var a := script[0];
      a.cfr2 == 0 && a.cfr1 == 0 && a.sfr3 == 0x80 && a.sfr2 == 0 && a.sfr1 == 0 && a.sfr0 == 0
      && a.rolloffStatus == 0
    requires cacheBw != 37724018
    ensures var r := StartOf(freq, SYMBOL_RATE_MAX, cacheBw, 135000000, script, events);
      r.Started? && r.ret == 1 && r.symbolRate == 4227467296
      && r.events[|r.events| - 1] == TunerBandwidth(37724018)
  {
    assert CarrierOffset(0, 0, 135000000) == 0 by {
      assert MakeWord16(0, 0) == 0;
    }
    StartLocksNearby(freq, SYMBOL_RATE_MAX, cacheBw, 135000000, script, events);
    GetSrSignExtension();
    assert BandwidthAsWritten(4227467296, RolloffPercent(0)) == 37724018 by {
      assert 4227467296 * 135 == 570708084960;
      assert Wrap(570708084960, U32_MOD) == 3772401888;
    }
  }

  /**
   * The restart has no bound: while every pass locks with an offset above
   * 1 MHz, start keeps restarting, so no finite script of such passes lets it
   * return.
   */
  lemma {:induction false} StartRestartsUnbounded(freq: nat, sr: nat, bw: nat, cacheBw: nat, mclk: nat,
                                                  script: seq<Attempt>, events: seq<StartEvent>)
    requires 0 < mclk < U32_MOD && ScriptOk(script)
    requires forall k :: 0 <= k < |script| ==> FirstLock(script[k].polls, 10, 0).Some?
    requires forall k :: 0 <= k < |script| ==>
      var a := script[k]; CarrierOffset(a.cfr2, a.cfr1, mclk) > 1000 || CarrierOffset(a.cfr2, a.cfr1, mclk) < -1000
    ensures StartFrom(freq, sr, bw, cacheBw, mclk, script, events).OutOfScript?
    decreases |script|
  {
    if script != [] {
      var a := script[0];
      FirstLockWithin(a.polls, 10, PollLimit(sr));
      var q := PassOf(freq, sr, bw, mclk, a, events);
      assert Restarts(q);
      forall k | 0 <= k < |script[1..]|
        ensures FirstLock(script[1..][k].polls, 10, 0).Some?
        ensures var b := script[1..][k];
          CarrierOffset(b.cfr2, b.cfr1, mclk) > 1000 || CarrierOffset(b.cfr2, b.cfr1, mclk) < -1000
      {
        assert script[1..][k] == script[k + 1];
      }
      StartRestartsUnbounded(q.freq, q.sr, q.bw, cacheBw, mclk, script[1..], q.events);
    }
  }

  /** A lock seen within the first n polls is seen within any longer wait. */
  lemma FirstLockWithin(polls: seq<LockFields>, n: nat, m: nat)
    requires n <= m <= |polls|
    requires FirstLock(polls, n, 0).Some?
    ensures FirstLock(polls, m, 0).Some?
  {
  }

  // ---------------------------------------------------------------------
  // Search verdict
  // ---------------------------------------------------------------------

  /** search as written: any non-zero result of start, -EINVAL included, counts as success. */
  function SearchVerdictAsWritten(ret: int): (v: SearchResult)
    ensures v == SearchSuccess <==> ret != 0
    ensures v == SearchSuccess || v == SearchFailed
  {
    if ret != 0 then SearchSuccess else SearchFailed
  }

  /** search as intended: only a start that locked (returned 1) is a success. */
  function SearchVerdict(ret: int): (v: SearchResult)
    ensures v == SearchSuccess <==> ret > 0
    ensures v == SearchSuccess || v == SearchFailed
  {
    if ret > 0 then SearchSuccess else SearchFailed
  }

  /**
   * A symbol rate below 100 ksps (50 ksps, say) makes start return -EINVAL
   * without tuning, and search as written reports that as a successful
   * search; the intended verdict is a failure.
   */
  lemma SearchReportsInvalidRate(freq: nat, cacheBw: nat, mclk: nat, script: seq<Attempt>)
    requires 0 < mclk < U32_MOD && ScriptOk(script)
    ensures var r := StartOf(freq, 50000, cacheBw, mclk, script, []);
      r.ret == EINVAL && r.events == []
      && SearchVerdictAsWritten(r.ret) == SearchSuccess
      && SearchVerdict(r.ret) == SearchFailed
  {
  }

  /** For a symbol rate within the limits both verdicts agree: success iff start locked. */
  lemma SearchVerdictsAgree(freq: nat, sr: nat, cacheBw: nat, mclk: nat, script: seq<Attempt>)
    requires 0 < mclk < U32_MOD && ScriptOk(script)
    requires SYMBOL_RATE_MIN <= sr <= SYMBOL_RATE_MAX
    requires StartOf(freq, sr, cacheBw, mclk, script, []).Started?
    ensures var r := StartOf(freq, sr, cacheBw, mclk, script, []);
      SearchVerdictAsWritten(r.ret) == SearchVerdict(r.ret)
      && (SearchVerdict(r.ret) == SearchSuccess <==> r.ret == 1)
  {
  }

  /** get_frontend_algo: the DVB core may tune only when the driver is not idle. */
  function AlgoFor(algo: Algo): (r: FrontendAlgo)
    ensures r == AlgoNotune <==> algo == NoTune
    ensures r == AlgoNotune || r == AlgoCustom
  {
    if algo == NoTune then AlgoNotune else AlgoCustom
  }

  /** fe_sec_tone_mode: SEC_TONE_ON = 0, SEC_TONE_OFF = 1. */
  const SEC_TONE_ON: int := 0
  const SEC_TONE_OFF: int := 1

  /** One pass of start, with the lock wait run as the driver runs it. */
  method RunPass(freq: nat, sr: nat, bw: nat, mclk: nat, a: Attempt, events: seq<StartEvent>) returns (q: Pass)
    requires 0 < mclk < U32_MOD && |a.polls| >= 50
    ensures q == PassOf(freq, sr, bw, mclk, a, events)
  {
    var w := SfrInitBytes(SfrInit(sr, mclk));
    var ev := events + [TunerBandwidth(bw), TunerFrequency(freq), SymbolRateInit(w.0, w.1)];
    var lock, _ := GetDmdLock(sr, a.polls);
    if !lock {
      return Pass(false, 0, freq, sr, bw, ev);
    }
    var offset := CarrierOffset(a.cfr2, a.cfr1, mclk);
    var sr' := GetSrAsWritten(a.sfr3, a.sfr2, a.sfr1, a.sfr0, mclk);
    var bw' := BandwidthAsWritten(sr', RolloffPercent(a.rolloffStatus));
    q := Pass(true, offset, Wrap(freq + offset, U32_MOD), sr', bw', ev);
  }

  /**
   * Where the `goto start` loop stands before pass i: start's result is
   * what the remaining passes give from the current frequency, symbol rate,
   * bandwidth and calls, counted from pass i.
   */
  ghost predicate PassesProgress(freq0: nat, sr0: nat, cacheBw: nat, mclk: nat, script: seq<Attempt>,
                                 events0: seq<StartEvent>, i: nat, freq: nat, sr: nat, bw: nat,
                                 ev: seq<StartEvent>)
    requires 0 < mclk < U32_MOD && ScriptOk(script)
  {
    i <= |script| && ScriptOk(script[i..])
    && StartFrom(freq0, sr0, INITIAL_BANDWIDTH, cacheBw, mclk, script, events0)
       == StartShift(StartFrom(freq, sr, bw, cacheBw, mclk, script[i..], ev), i)
  }

  /** Before the first pass nothing has been run. */
  lemma PassesBegin(freq0: nat, sr0: nat, cacheBw: nat, mclk: nat, script: seq<Attempt>,
                    events0: seq<StartEvent>)
    requires 0 < mclk < U32_MOD && ScriptOk(script)
    ensures PassesProgress(freq0, sr0, cacheBw, mclk, script, events0, 0, freq0, sr0, INITIAL_BANDWIDTH, events0)
  {
    assert script[0..] == script;
  }

  /** Pass i either restarts with the corrected values or decides start's result. */
  lemma PassesAdvance(freq0: nat, sr0: nat, cacheBw: nat, mclk: nat, script: seq<Attempt>,
                      events0: seq<StartEvent>, i: nat, freq: nat, sr: nat, bw: nat,
                      ev: seq<StartEvent>, q: Pass)
    requires 0 < mclk < U32_MOD && ScriptOk(script) && i < |script|
    requires PassesProgress(freq0, sr0, cacheBw, mclk, script, events0, i, freq, sr, bw, ev)
    requires q == PassOf(freq, sr, bw, mclk, script[i], ev)
    ensures Restarts(q) ==> PassesProgress(freq0, sr0, cacheBw, mclk, script, events0, i + 1,
                                           q.freq, q.sr, q.bw, q.events)
    ensures !Restarts(q) ==> StartFrom(freq0, sr0, INITIAL_BANDWIDTH, cacheBw, mclk, script, events0)
                             == PassEnd(freq, sr, cacheBw, q, i + 1)
  {
    assert script[i..][0] == script[i] && script[i..][1..] == script[i + 1..];
    StartFromStep(freq, sr, bw, cacheBw, mclk, script[i..], ev);
    if Restarts(q) {
      ShiftShift(StartFrom(q.freq, q.sr, q.bw, cacheBw, mclk, script[i + 1..], q.events), 1, i);
    }
  }

  /** A start that returns does so before its passes run out. */
  lemma PassesDone(freq0: nat, sr0: nat, cacheBw: nat, mclk: nat, script: seq<Attempt>,
                   events0: seq<StartEvent>, i: nat, freq: nat, sr: nat, bw: nat, ev: seq<StartEvent>)
    requires 0 < mclk < U32_MOD && ScriptOk(script)
    requires StartFrom(freq0, sr0, INITIAL_BANDWIDTH, cacheBw, mclk, script, events0).Started?
    requires PassesProgress(freq0, sr0, cacheBw, mclk, script, events0, i, freq, sr, bw, ev)
    ensures i < |script|
  {
  }

  /**
   * The `goto start` loop: one pass after another until a pass fails to
   * lock or locks within 1 MHz of the requested frequency.
   */
  method RunPasses(freq0: nat, sr0: nat, cacheBw: nat, mclk: nat, script: seq<Attempt>, events0: seq<StartEvent>)
    returns (r: StartResult)
    requires 0 < mclk < U32_MOD && ScriptOk(script)
    requires StartFrom(freq0, sr0, INITIAL_BANDWIDTH, cacheBw, mclk, script, events0).Started?
    ensures r == StartFrom(freq0, sr0, INITIAL_BANDWIDTH, cacheBw, mclk, script, events0)
  {
    var freq, sr, bw, ev := freq0, sr0, INITIAL_BANDWIDTH, events0;
    var i: nat := 0;
    PassesBegin(freq0, sr0, cacheBw, mclk, script, events0);
    while i < |script|
      invariant PassesProgress(freq0, sr0, cacheBw, mclk, script, events0, i, freq, sr, bw, ev)
      decreases |script| - i
    {
      var q := RunPass(freq, sr, bw, mclk, script[i], ev);
      PassesAdvance(freq0, sr0, cacheBw, mclk, script, events0, i, freq, sr, bw, ev, q);
      if !q.locked {
        return Started(0, freq, sr, q.events, i + 1);
      }
      if -1000 <= q.offset <= 1000 {
        var evs := q.events;
        if cacheBw != q.bw {
          evs := evs + [TunerBandwidth(q.bw)];
        }
        return Started(1, q.freq, q.sr, evs, i + 1);
      }
      freq, sr, bw, ev := q.freq, q.sr, q.bw, q.events;
      i := i + 1;
    }
    PassesDone(freq0, sr0, cacheBw, mclk, script, events0, i, freq, sr, bw, ev);
  }

  // ---------------------------------------------------------------------
  // The demodulator
  // ---------------------------------------------------------------------

  /**
   * One demodulator path: its acquisition state, the frequency and symbol
   * rate of the DVB property cache that start rewrites, the cache's
   * bandwidth_hz, the calls start made into the tuner, and the register file
   * shared through the base.
   */
  class Demod {
    var algo: Algo
    var frequency: nat
    var symbolRate: nat
    var bandwidthHz: nat
    var events: seq<StartEvent>
    const base: Base
    const rm: RegisterMap

    /** attach: the state is zero-allocated, so algo starts as BLIND_SEARCH (0). */
    constructor (base: Base, rm: RegisterMap, frequency: nat, symbolRate: nat, bandwidthHz: nat)
      ensures algo == BlindSearch && events == []
      ensures this.frequency == frequency && this.symbolRate == symbolRate && this.bandwidthHz == bandwidthHz
      ensures this.base == base && this.rm == rm
    {
      algo := BlindSearch;
      this.frequency, this.symbolRate, this.bandwidthHz := frequency, symbolRate, bandwidthHz;
      events := [];
      this.base, this.rm := base, rm;
    }

    /** init: only the acquisition state is reset, to NOTUNE. */
    method Init() returns (ret: int)
      modifies this`algo
      ensures ret == 0 && algo == NoTune
    {
      algo := NoTune;
      ret := 0;
    }

    /** dtv_tune: arm a blind search. */
    method DtvTune() returns (ret: int)
      modifies this`algo
      ensures ret == 0 && algo == BlindSearch
    {
      algo := BlindSearch;
      ret := 0;
    }

    /** set_frontend: arm a blind search, nothing else. */
    method SetFrontend() returns (ret: int)
      modifies this`algo
      ensures ret == 0 && algo == BlindSearch
    {
      algo := BlindSearch;
      ret := 0;
    }

    /** sleep: back to NOTUNE and stop the demodulator (DMDISTATE = 0x5c). */
    method Sleep(dmdistate: int) returns (ret: int)
      modifies this`algo, rm`regs, rm`log
      ensures ret == 0 && algo == NoTune
      ensures dmdistate !in rm.writeFail ==> rm.regs == old(rm.regs)[dmdistate := 0x5c]
      ensures dmdistate in rm.writeFail ==> rm.regs == old(rm.regs)
    {
      algo := NoTune;
      var _ := rm.Write(dmdistate, 0x5c);
      ret := 0;
    }

    function GetFrontendAlgo(): (r: FrontendAlgo)
      reads this
      ensures r == AlgoNotune <==> algo == NoTune
    {
      AlgoFor(algo)
    }

    /** read_status from one snapshot of the lock fields; FE_TIMEDOUT marks an idle driver. */
    function ReadStatus(f: LockFields): (st: FeStatus)
      reads this
      ensures st.timedOut <==> algo == NoTune
      ensures st.lock <==> PollLock(f)
    {
      StatusLockIsPollLock(f, algo);
      StatusOf(f, algo)
    }

    /**
     * set_tone: write_field of DISEQC_MODE with 0 for the continuous 22 kHz
     * tone and 2 for none, returning write_field's result (1 when the field
     * already held the value, 0 after the write, -EREMOTEIO when the write
     * fails); any other mode is -EINVAL and touches nothing.
     */
    method SetTone(diseqcMode: nat, tone: int) returns (ret: int)
      requires diseqcMode < U32_MOD
      modifies rm`regs, rm`log
      ensures tone != SEC_TONE_ON && tone != SEC_TONE_OFF ==>
                ret == EINVAL && rm.regs == old(rm.regs) && rm.log == old(rm.log)
      ensures tone == SEC_TONE_ON || tone == SEC_TONE_OFF ==>
        var r := WriteFieldOf(old(rm.regs), rm.readFail, rm.writeFail, old(rm.log), diseqcMode,
                              if tone == SEC_TONE_ON then 0 else 2);
        ret == r.ret && rm.regs == r.regs && rm.log == r.log
      ensures var a := LabelAddr(diseqcMode);
        (tone == SEC_TONE_ON || tone == SEC_TONE_OFF) && a !in rm.readFail && a !in rm.writeFail ==>
          ret != EINVAL
          && FieldOf(rm.Value(a), diseqcMode)
             == (if tone == SEC_TONE_ON then 0 else 2) & (LabelMask(diseqcMode) >> LowestSetBit(LabelMask(diseqcMode), 0))
    {
      var a := LabelAddr(diseqcMode);
      if tone == SEC_TONE_ON || tone == SEC_TONE_OFF {
        var data: bv8 := if tone == SEC_TONE_ON then 0 else 2;
        ghost var regs0, log0 := rm.regs, rm.log;
        ret := WriteField(rm, diseqcMode, data);
        if a !in rm.readFail && a !in rm.writeFail {
          WriteFieldOfAt(regs0, rm.readFail, rm.writeFail, log0, diseqcMode, data);
          FieldUpdateReadsBack(Get(regs0, a), diseqcMode, data);
        }
      } else {
        ret := EINVAL;
      }
    }

    /** init_diseqc on the register map, with the effect of InitDiseqcOf; it always returns 0. */
    method InitDiseqc(disrxcfg: int, distxcfg: int, distxReset: nat, distxf22: int) returns (ret: int)
      requires distxReset < U32_MOD && base.mclk < U32_MOD
      modifies rm`regs, rm`log
      ensures ret == 0
      ensures var r := InitDiseqcOf(old(rm.regs), rm.readFail, rm.writeFail, old(rm.log),
                                    disrxcfg, distxcfg, distxReset, distxf22, base.mclk);
        rm.regs == r.regs && rm.log == r.log
    {
      var freq := Lo8(Wrap(base.mclk + 11000 * 32, U32_MOD) / (22000 * 32));
      var _ := rm.Write(disrxcfg, 0x00);
      var _ := rm.Write(distxcfg, 0x02);
      PulseField(rm, distxReset);
      var _ := rm.Write(distxf22, freq);
      ret := 0;
    }

    /**
     * start (through set_parameters) on the property cache: refuse a symbol
     * rate outside the limits, then tune, program the symbol-rate word and
     * wait for lock, restarting from the corrected frequency while the
     * offset exceeds 1 MHz.  The script must cover every pass.
     */
    method Start(script: seq<Attempt>) returns (ret: int)
      requires 0 < base.mclk < U32_MOD && ScriptOk(script)
      requires StartOf(frequency, symbolRate, bandwidthHz, base.mclk, script, events).Started?
      modifies this`frequency, this`symbolRate, this`events
      ensures var r := StartOf(old(frequency), old(symbolRate), bandwidthHz, base.mclk, script, old(events));
        ret == r.ret && frequency == r.frequency && symbolRate == r.symbolRate && events == r.events
    {
      if symbolRate < SYMBOL_RATE_MIN || symbolRate > SYMBOL_RATE_MAX {
        return EINVAL;
      }
      var r := RunPasses(frequency, symbolRate, bandwidthHz, base.mclk, script, events);
      ret, frequency, symbolRate, events := r.ret, r.frequency, r.symbolRate, r.events;
    }

    /**
     * search: arm a blind search and run start; any non-zero result of start
     * (a lock, or -EINVAL for a rate out of limits) is reported as a success
     * with the blind search left armed, and 0 is a failure that leaves the
     * driver idle (NOTUNE).
     */
    method Search(script: seq<Attempt>) returns (r: SearchResult)
      requires 0 < base.mclk < U32_MOD && ScriptOk(script)
      requires StartOf(frequency, symbolRate, bandwidthHz, base.mclk, script, events).Started?
      modifies this`algo, this`frequency, this`symbolRate, this`events
      ensures var s := StartOf(old(frequency), old(symbolRate), bandwidthHz, base.mclk, script, old(events));
        r == SearchVerdictAsWritten(s.ret) && frequency == s.frequency && symbolRate == s.symbolRate && events == s.events
      ensures algo == (if r == SearchSuccess then BlindSearch else NoTune)
    {
      algo := BlindSearch;
      var ret := Start(script);
      if ret != 0 {
        r := SearchSuccess;
      } else {
        algo := NoTune;
        r := SearchFailed;
      }
    }
  }
}
