/**
 * Silicon Labs Si2168 DVB-T/T2/C demodulator: the transport-stream bus
 * mode, the status poll with its statistics counters, the tuning command
 * sequence, the bounded lock search, the firmware boot and the sleep rule
 * that decides whether the next init may resume warm.
 */
module Si2168 {
  import opened Common
  import opened FirmwareCmd

  /**
   * The argument buffer size SI2168_ARGLEN.  It is defined in si2168_priv.h,
   * which is not part of this model; the Si2183 driver's 30 bytes are used.
   */
  const ARGLEN: nat := DEMOD_ARGLEN
  const NO_STREAM_ID_FILTER: int := 0xFFFF_FFFF

  /** The driver's acquisition flag (SI2168_NOTUNE, SI2168_TUNE). */
  datatype Algo = NoTune | Tune

  /**
   * The board configuration (struct si2168_config and the fields copied
   * from it).  The TS tri-state value and the MP pin constants live in
   * si2168.h, which is not part of this model: `tsTristate` is that value
   * and `fefSlot` says which of SI2168_MP_A .. SI2168_MP_D (1 .. 4) the
   * FEF pin names, 0 for none of them.
   */
  datatype Config = Config(
    tsMode: bv8, tsTristate: bv8, tsClockGapped: bool, tsClockInv: bool,
    spectralInversion: bool, fefPin: bv8, fefInv: bool, fefSlot: nat, agcPin: bv8, agcInv: bool)

  // ------------------------------------------------------ command encoding

  /** Every command of the list is a well-formed full-size request. */
  predicate Sendable(cs: seq<Cmd>)
  {
    forall i :: 0 <= i < |cs| ==> ValidCmd(cs[i]) && |cs[i].args| == ARGLEN
  }

  const DspReset: Cmd := DemodCommand([0x85], 1)

  // ------------------------------------------------------------- TS bus

  /**
   * Byte 4 of the TS_MODE property (0x1001): 0x10 with the configured mode
   * when the bus is acquired or the tri-state value when it is released,
   * and bit 6 for a gapped clock.
   */
  function TsModeByte(acquire: bool, cfg: Config): (b: bv8)
    ensures b & 0x10 == 0x10
    ensures var mode := if acquire then cfg.tsMode else cfg.tsTristate;
      b & mode == mode && b & 0xaf == mode & 0xaf
      && (b & 0x40 != 0 <==> cfg.tsClockGapped || mode & 0x40 != 0)
  {
    0x10 | (if acquire then cfg.tsMode else cfg.tsTristate) | (if cfg.tsClockGapped then 0x40 else 0)
  }

  function TsBusCmd(acquire: bool, cfg: Config): (c: Cmd)
    ensures ValidCmd(c) && |c.args| == ARGLEN
    ensures c.args[..6] == [0x14, 0x00, 0x01, 0x10, TsModeByte(acquire, cfg), 0x00]
  {
    PropertyWrite(0x01, 0x10, TsModeByte(acquire, cfg), 0x00)
  }

  // --------------------------------------------------------------- status

  /** The status flags of read_status: the lock flags of reply byte 2, with FE_TIMEDOUT while no tune is armed. */
  function DecodeStatus(b: bv8, algo: Algo): (s: FeStatus)
    ensures s.signal == s.carrier == (b & 0x02 != 0)
    ensures s.viterbi == s.sync == s.lock == (b & 0x06 == 0x06)
    ensures s.timedOut <==> algo == NoTune
  {
    LockFlags(b).(timedOut := algo == NoTune)
  }

  /** The status query of each supported delivery system; None (-EINVAL) for the others. */
  function StatusCmd(sys: DeliverySystem): (c: Option<Cmd>)
    ensures c.Some? <==> sys in {Dvbt, DvbcAnnexA, DvbcAnnexB, Dvbt2}
    ensures c.Some? ==> (ValidCmd(c.value) && |c.value.args| == ARGLEN && c.value.wlen == 2
                         && c.value.args[1] == 0x01 && c.value.rlen >= 9)
  {
    match sys
    case Dvbt => Some(DemodCommand([0xa0, 0x01], 13))
    case DvbcAnnexA => Some(DemodCommand([0x90, 0x01], 9))
    case DvbcAnnexB => Some(DemodCommand([0x98, 0x01], 10))
    case Dvbt2 => Some(DemodCommand([0x50, 0x01], 14))
    case _ => None
  }

  const BerCmd: Cmd := DemodCommand([0x82, 0x00], 3)
  const UcbCmd: Cmd := DemodCommand([0x84, 0x01], 3)

  /** The decimal exponent of a BER reading: clamp(8 - args[1], 0, 8). */
  function BerExponent(e: bv8): (n: nat)
    ensures n <= 8
    ensures e as int <= 8 ==> n + e as int == 8
    ensures e as int >= 8 ==> n == 0
  {
    if e as int >= 8 then 0 else 8 - e as int
  }

  lemma {:induction false} Pow10Add(a: nat, b: nat)
    ensures Pow10(a + b) == Pow10(a) * Pow10(b)
  {
    if a > 0 {
      Pow10Add(a - 1, b);
    }
  }

  /**
   * Bit errors of one BER reading, mantissa m and exponent e: the firmware
   * reports a BER of m * 10^-e over 10^8 bits, so m * 10^(8 - e) errors
   * per 10^8 bits (an exponent above 8 counts as 8).
   */
  function BerErrors(e: bv8, m: bv8): (n: nat)
    ensures n <= 255 * 100000000
    ensures e as int <= 8 ==> n * Pow10(e as int) == m as int * 100000000
    ensures e as int >= 8 ==> n == m as int
  {
    var k := BerExponent(e);
    BerScale(e, m, k);
    m as int * Pow10(k)
  }

  lemma BerScale(e: bv8, m: bv8, k: nat)
    requires k == BerExponent(e)
    ensures m as int * Pow10(k) <= 255 * 100000000
    ensures e as int <= 8 ==> m as int * Pow10(k) * Pow10(e as int) == m as int * 100000000
  {
    Pow10Bound(k);
    MulMono(m as int, 255, Pow10(k));
    MulMono(Pow10(k), 100000000, 255);
    if e as int <= 8 {
      Pow10Add(k, e as int);
      assert Pow10(8) == 100000000 by { Pow10Eight(); }
      MulAssoc(m as int, Pow10(k), Pow10(e as int));
    }
  }

  lemma Pow10Eight()
    ensures Pow10(7) == 10000000 && Pow10(8) == 100000000
  {
    assert Pow10(1) == 10 && Pow10(2) == 100 && Pow10(3) == 1000 && Pow10(4) == 10000;
    assert Pow10(5) == 100000 && Pow10(6) == 1000000;
  }

  lemma MulMono(a: int, b: int, c: nat)
    requires a <= b
    ensures a * c <= b * c
  {
  }

  lemma MulAssoc(a: int, b: int, c: int)
    ensures a * b * c == a * (b * c)
  {
  }

  lemma {:induction false} Pow10Bound(k: nat)
    requires k <= 8
    ensures Pow10(k) <= 100000000
  {
    Pow10Mono(k, 8);
    Pow10Eight();
  }

  lemma {:induction false} Pow10Mono(a: nat, b: nat)
    requires a <= b
    ensures Pow10(a) <= Pow10(b)
    decreases b
  {
    if a < b {
      Pow10Mono(a, b - 1);
    }
  }

  /** The same product as read_status computes it: in 32-bit unsigned arithmetic. */
  function BerErrorsAsWritten(e: bv8, m: bv8): (n: nat)
    ensures n < U32_MOD
    ensures (n - BerErrors(e, m)) % U32_MOD == 0
  {
    Wrap(m as int * Pow10(BerExponent(e)), U32_MOD)
  }

  /**
   * The 32-bit product agrees with the bit-error count exactly when the
   * exponent is at least 1 or the mantissa at most 42.
   */
  lemma BerAsWrittenAgrees(e: bv8, m: bv8)
    ensures BerErrorsAsWritten(e, m) == BerErrors(e, m) <==> e as int >= 1 || m as int <= 42
  {
    var k := BerExponent(e);
    var n := m as int * Pow10(k);
    WrapExact(n, U32_MOD);
    Pow10Eight();
    if e as int >= 1 {
      Pow10Mono(k, 7);
      MulMono(m as int, 255, Pow10(k));
      MulMono(Pow10(k), 10000000, 255);
    } else {
      assert n == m as int * 100000000;
    }
  }

  /** Reduction modulo m changes exactly the values outside [0, m). */
  lemma WrapExact(x: int, m: int)
    requires m > 0
    ensures Wrap(x, m) == x <==> 0 <= x < m
  {
  }

  /** Mantissa 43 at exponent 0: 4 300 000 000 bit errors, reported as 5 032 704. */
  lemma BerWrapExample()
    ensures BerErrors(0, 43) == 4300000000
    ensures BerErrorsAsWritten(0, 43) == 5032704
  {
    Pow10Eight();
  }

  /** Uncorrected blocks of one reading: the little-endian 16-bit counter, the bogus 0xffff read as 0. */
  function UcbCount(lo: bv8, hi: bv8): (n: nat)
    ensures n < 0xffff
    ensures !(lo == 0xff && hi == 0xff) ==> n % 256 == lo as int && n / 256 == hi as int
    ensures lo == 0xff && hi == 0xff ==> n == 0
  {
    var v := hi as int * 256 + lo as int;
    if v == 0xffff then 0 else v
  }

  /** The four statistics of the property cache this driver maintains. */
  datatype Stats = Stats(cnr: Stat, postBitError: Stat, postBitCount: Stat, blockError: Stat)

  /** A u64 counter advanced by n. */
  function Count(s: Stat, n: nat): (r: Stat)
    ensures r.scale == Counter && 0 <= r.value < U64_MOD
    ensures 0 <= s.value && s.value + n < U64_MOD ==> r.value == s.value + n
  {
    Stat(Counter, Wrap(s.value + n, U64_MOD))
  }

  /** A statistic marked unavailable; its last value stays in the cache. */
  function Unavailable(s: Stat): (r: Stat)
    ensures r.scale == NotAvailable && r.value == s.value
  {
    s.(scale := NotAvailable)
  }

  /** The bus behaviour of one read_status call: the status query, the BER query and the UCB query. */
  datatype StatusPoll = StatusPoll(status: Exchange, ber: Exchange, ucb: Exchange)

  /**
   * What read_status reports: its return code, the status flags, whether
   * the flags were decoded (and stored), and the writes it issued.
   */
  datatype StatusRead = StatusRead(ret: int, status: FeStatus, decoded: bool, written: seq<seq<bv8>>)

  /**
   * read_status: -EAGAIN while inactive, -EINVAL for an unsupported system,
   * the status query's error, or the decoded flags followed by the BER query
   * (with VITERBI) and the UCB query (with SYNC), either of which can still
   * fail the call after the flags were decoded.
   */
  function StatusReadOf(active: bool, sys: DeliverySystem, algo: Algo, p: StatusPoll): (r: StatusRead)
    ensures !active ==> r == StatusRead(EAGAIN, NoStatus, false, [])
    ensures active && StatusCmd(sys).None? ==> r == StatusRead(EINVAL, NoStatus, false, [])
    ensures !r.decoded ==> r.status == NoStatus && r.ret != 0
    ensures r.decoded ==> (r.status.timedOut <==> algo == NoTune)
    ensures r.decoded && r.ret == 0 ==>
      (r.status.viterbi ==> Execute(ErrorBitChecked, BerCmd, p.ber).ret == 0)
      && (r.status.sync ==> Execute(ErrorBitChecked, UcbCmd, p.ucb).ret == 0)
  {
    if !active then StatusRead(EAGAIN, NoStatus, false, [])
    else match StatusCmd(sys)
      case None => StatusRead(EINVAL, NoStatus, false, [])
      case Some(c) =>
        var o := Execute(ErrorBitChecked, c, p.status);
        if o.ret != 0 then StatusRead(o.ret, NoStatus, false, Written(c))
        else
          ExecuteKeepsSize(ErrorBitChecked, c, p.status);
          var st := DecodeStatus(o.args[2], algo);
          var b := Execute(ErrorBitChecked, BerCmd, p.ber);
          var u := Execute(ErrorBitChecked, UcbCmd, p.ucb);
          if st.viterbi && b.ret != 0 then StatusRead(b.ret, st, true, Written(c) + Written(BerCmd))
          else
            var w := Written(c) + (if st.viterbi then Written(BerCmd) else []);
            if st.sync && u.ret != 0 then StatusRead(u.ret, st, true, w + Written(UcbCmd))
            else StatusRead(0, st, true, w + (if st.sync then Written(UcbCmd) else []))
  }

  /**
   * The statistics after read_status.  With a decoded status the CNR is a
   * decibel value of reply byte 3 in units of 0.25 dB exactly when LOCK is
   * set; with VITERBI a successful BER query adds the reading's bit errors,
   * as the driver's 32-bit product gives them, and 10^8 bits to the two bit counters (without VITERBI both are marked
   * unavailable); with SYNC a successful UCB query adds the reading's
   * uncorrected blocks (without SYNC the block counter is unavailable).
   * A failing query leaves every later statistic untouched.
   */
  function StatsAfter(active: bool, sys: DeliverySystem, algo: Algo, s: Stats, p: StatusPoll): (r: Stats)
    ensures !StatusReadOf(active, sys, algo, p).decoded ==> r == s
    ensures var q := StatusReadOf(active, sys, algo, p);
      q.decoded ==> ((r.cnr.scale == Decibel <==> q.status.lock)
                     && (!q.status.lock ==> r.cnr == Unavailable(s.cnr)))
    ensures var q := StatusReadOf(active, sys, algo, p);
      var b := Execute(ErrorBitChecked, BerCmd, p.ber);
      q.decoded && q.status.viterbi && b.ret == 0 ==>
        |b.args| == ARGLEN && r.postBitError == Count(s.postBitError, BerErrorsAsWritten(b.args[1], b.args[2]))
        && r.postBitCount == Count(s.postBitCount, 100000000)
    ensures var q := StatusReadOf(active, sys, algo, p);
      q.decoded && !q.status.viterbi ==>
        r.postBitError == Unavailable(s.postBitError) && r.postBitCount == Unavailable(s.postBitCount)
    ensures var q := StatusReadOf(active, sys, algo, p);
      q.ret != 0 ==> r.blockError == s.blockError
    ensures var q := StatusReadOf(active, sys, algo, p);
      var u := Execute(ErrorBitChecked, UcbCmd, p.ucb);
      q.decoded && q.ret == 0 ==>
        |u.args| == ARGLEN
        && r.blockError == (if q.status.sync then Count(s.blockError, UcbCount(u.args[1], u.args[2]))
                            else Unavailable(s.blockError))
  {
    if !active || StatusCmd(sys).None? then s
    else
      var c := StatusCmd(sys).value;
      var o := Execute(ErrorBitChecked, c, p.status);
      if o.ret != 0 then s
      else
        ExecuteKeepsSize(ErrorBitChecked, c, p.status);
        ExecuteKeepsSize(ErrorBitChecked, BerCmd, p.ber);
        ExecuteKeepsSize(ErrorBitChecked, UcbCmd, p.ucb);
        var st := DecodeStatus(o.args[2], algo);
        var s1 := s.(cnr := if st.lock then Stat(Decibel, o.args[3] as int * 1000 / 4) else Unavailable(s.cnr));
        var b := Execute(ErrorBitChecked, BerCmd, p.ber);
        if st.viterbi && b.ret != 0 then s1
        else
          var s2 := if st.viterbi
            then s1.(postBitError := Count(s1.postBitError, BerErrorsAsWritten(b.args[1], b.args[2])),
                     postBitCount := Count(s1.postBitCount, 100000000))
            else s1.(postBitError := Unavailable(s1.postBitError), postBitCount := Unavailable(s1.postBitCount));
          var u := Execute(ErrorBitChecked, UcbCmd, p.ucb);
          if st.sync && u.ret != 0 then s2
          else s2.(blockError := if st.sync then Count(s2.blockError, UcbCount(u.args[1], u.args[2]))
                                 else Unavailable(s2.blockError))
  }

  /** A locked reading's CNR is byte 3 of the reply in quarter decibels, kept in 1/1000 dB. */
  lemma CnrFromReply(active: bool, sys: DeliverySystem, algo: Algo, s: Stats, p: StatusPoll)
    requires StatusReadOf(active, sys, algo, p).decoded && StatusReadOf(active, sys, algo, p).status.lock
    ensures var o := Execute(ErrorBitChecked, StatusCmd(sys).value, p.status);
      |o.args| == ARGLEN && StatsAfter(active, sys, algo, s, p).cnr == Stat(Decibel, o.args[3] as int * 250)
  {
    ExecuteKeepsSize(ErrorBitChecked, StatusCmd(sys).value, p.status);
  }

  // ------------------------------------------------------- derived readings

  /** read_snr: the CNR (1/1000 dB) divided by 250 and scaled by 328, as a u16; 0 without a decibel reading. */
  function ReadSnr(cnr: Stat): (snr: nat)
    ensures snr < U16_MOD
    ensures cnr.scale != Decibel ==> snr == 0
  {
    if cnr.scale == Decibel then Wrap(CDiv(S32(cnr.value), 250) * 328, U16_MOD) else 0
  }

  /** A CNR of k quarter decibels reads as k * 328, which fits the u16 below k = 200. */
  lemma SnrOfReading(k: bv8)
    ensures ReadSnr(Stat(Decibel, k as int * 250)) == (k as int * 328) % U16_MOD
    ensures k as int < 200 ==> ReadSnr(Stat(Decibel, k as int * 250)) == k as int * 328
  {
    var v := k as int * 250;
    assert S32(v) == v;
    assert Abs(v) / Abs(250) == k as int;
    assert CDiv(v, 250) == k as int;
  }

  /** read_signal_strength: (100000 + strength) / 1000 scaled by 656, as a u16; 0 without a decibel reading. */
  function ReadSignalStrength(strength: Stat): (r: nat)
    ensures r < U16_MOD
    ensures strength.scale != Decibel ==> r == 0
  {
    if strength.scale == Decibel then Wrap(CDiv(100000 + S32(strength.value), 1000) * 656, U16_MOD) else 0
  }

  /** A strength of -100 dBm + d dB (in 1/1000 dB) reads as d * 656 for d below 100. */
  lemma StrengthOfReading(d: nat)
    requires d < 100
    ensures ReadSignalStrength(Stat(Decibel, 1000 * d - 100000)) == d * 656
  {
    var v := 1000 * d - 100000;
    assert S32(v) == v;
    assert Abs(100000 + v) / Abs(1000) == d;
    assert CDiv(100000 + v, 1000) == d;
  }

  // -------------------------------------------------------------- tuning

  /** The tuning parameters of the property cache that set_frontend reads and may rewrite. */
  datatype Tuning = Tuning(system: DeliverySystem, bandwidthHz: nat, symbolRate: nat, streamId: nat)

  /** The parameters to program: the (possibly rewritten) tuning, the system code and the bandwidth code. */
  datatype Setup = Setup(t: Tuning, sysCode: bv8, bwCode: bv8)

  /** DVB-C Annex A below 6 MS/s is tuned as Annex B. */
  predicate Narrow(t: Tuning)
  {
    t.system == DvbcAnnexA && t.symbolRate < 6000000
  }

  /**
   * The validation of set_frontend: the system code of property 0x100a
   * (Annex B 0x10, DVB-T 0x20, Annex A 0x30, DVB-T2 0x70), the Annex A
   * rewrite, and the bandwidth code; None (-EINVAL) for an unsupported
   * system or a zero bandwidth.
   */
  function Prepare(t: Tuning): (r: Option<Setup>)
    ensures r.None? <==> t.system !in {DvbcAnnexB, Dvbt, DvbcAnnexA, Dvbt2} || (t.bandwidthHz == 0 && !Narrow(t))
    ensures r.Some? && Narrow(t) ==>
      r.value.t == t.(system := DvbcAnnexB, bandwidthHz := 6000000) && r.value.sysCode == 0x10
    ensures r.Some? && !Narrow(t) ==> r.value.t == t
    ensures r.Some? ==> (r.value.t.system in {DvbcAnnexB, Dvbt, DvbcAnnexA, Dvbt2}
                         && r.value.t.bandwidthHz > 0 && BandwidthCode(r.value.t.bandwidthHz) == Some(r.value.bwCode)
                         && r.value.sysCode & 0x0f == 0 && r.value.bwCode & 0xf0 == 0)
  {
    var sc: Option<(bv8, Tuning)> := match t.system
      case DvbcAnnexB => Some((0x10, t))
      case Dvbt => Some((0x20, t))
      case DvbcAnnexA =>
        if t.symbolRate < 6000000 then Some((0x10, t.(system := DvbcAnnexB, bandwidthHz := 6000000)))
        else Some((0x30, t))
      case Dvbt2 => Some((0x70, t))
      case _ => None;
    match sc
    case None => None
    case Some((code, t')) =>
      match BandwidthCode(t'.bandwidthHz)
      case None => None
      case Some(bw) => Some(Setup(t', code, bw))
  }

  /** The system code and the bandwidth code share the property byte without overlapping. */
  lemma SystemByteSplits(s: Setup)
    requires s.sysCode & 0x0f == 0 && s.bwCode & 0xf0 == 0
    ensures (s.sysCode | s.bwCode) & 0xf0 == s.sysCode && (s.sysCode | s.bwCode) & 0x0f == s.bwCode
  {
  }

  const MpDefaultsCmd: Cmd := DemodCommand([0x88, 0x02, 0x02, 0x02, 0x02], 5)

  /**
   * The AGC command: fixed bytes for DVB-T, Annex A and DVB-T2.  For Annex B
   * the driver copies nothing, so the six bytes sent are whatever the
   * buffer holds after the previous command.
   */
  function AgcCommand(sys: DeliverySystem, stale: seq<bv8>): (c: Cmd)
    requires |stale| == ARGLEN
    ensures ValidCmd(c) && |c.args| == ARGLEN && c.wlen == 6 && c.rlen == 3
    ensures sys !in {Dvbt, DvbcAnnexA, Dvbt2} ==> c.args == stale
    ensures sys in {Dvbt, DvbcAnnexA, Dvbt2} ==> c.args[..4] == [0x89, 0x21, 0x06, 0x11]
  {
    if sys == Dvbt then DemodCommand([0x89, 0x21, 0x06, 0x11, 0xff, 0x98], 3)
    else if sys == DvbcAnnexA then DemodCommand([0x89, 0x21, 0x06, 0x11, 0x89, 0xf0], 3)
    else if sys == Dvbt2 then DemodCommand([0x89, 0x21, 0x06, 0x11, 0x89, 0x20], 3)
    else Cmd(stale, 6, 3)
  }

  /**
   * One configuration step of set_frontend: the AGC command, a request of
   * at most three bytes, or a property write.
   */
  datatype TuneStep =
    | Agc
    | Short(b0: bv8, b1: bv8, b2: bv8, wlen: ShortLen, rlen: ReplyLen)
    | SetProperty(lo: bv8, hi: bv8, v0: bv8, v1: bv8)

  type ShortLen = n: nat | 1 <= n <= 3 witness 1
  type ReplyLen = n: nat | n <= 30

  /** The bytes a step writes, when they do not depend on the buffer. */
  function StepBytes(st: TuneStep): (w: seq<bv8>)
    requires !st.Agc?
    ensures 0 < |w| <= 6
  {
    match st
    case Short(b0, b1, b2, wlen, _) => [b0, b1, b2][..wlen]
    case SetProperty(lo, hi, v0, v1) => [0x14, 0x00, lo, hi, v0, v1]
  }

  /** DVB-T2 only: select the PLP, the low byte of the stream id, and whether to filter at all. */
  function PlpSteps(t: Tuning): (sts: seq<TuneStep>)
    ensures |sts| == (if t.system == Dvbt2 then 1 else 0)
    ensures t.system == Dvbt2 ==>
      sts[0] == Short(0x52, ByteAt(t.streamId, 0), if t.streamId == NO_STREAM_ID_FILTER then 0 else 1, 3, 1)
  {
    if t.system == Dvbt2 then
      [Short(0x52, Lo8(t.streamId), if t.streamId == NO_STREAM_ID_FILTER then 0 else 1, 3, 1)]
    else []
  }

  /** DVB-C only: the symbol rate in kS/s, to property 0x1102 (Annex A) or 0x1602 (Annex B). */
  function SymbolRateSteps(t: Tuning): (sts: seq<TuneStep>)
    ensures |sts| == (if t.system in {DvbcAnnexA, DvbcAnnexB} then 1 else 0)
    ensures t.system in {DvbcAnnexA, DvbcAnnexB} ==>
      sts[0] == SetProperty(0x02, if t.system == DvbcAnnexA then 0x11 else 0x16,
                            SymbolRateBytes(t.symbolRate).0, SymbolRateBytes(t.symbolRate).1)
  {
    var sr := SymbolRateBytes(t.symbolRate);
    if t.system == DvbcAnnexA then [SetProperty(0x02, 0x11, sr.0, sr.1)]
    else if t.system == DvbcAnnexB then [SetProperty(0x02, 0x16, sr.0, sr.1)]
    else []
  }

  /** The number of configuration steps after the MP defaults. */
  function TuneCount(s: Setup): nat
  {
    13 + (if s.t.system == Dvbt2 then 1 else 0) + (if s.t.system in {DvbcAnnexA, DvbcAnnexB} then 1 else 0)
  }

  /** Where the delivery-system property sits among the steps. */
  function SystemPropertyIndex(s: Setup): nat
  {
    6 + (if s.t.system == Dvbt2 then 1 else 0)
  }

  /**
   * The configuration steps of set_frontend after the MP defaults: AGC,
   * PLP (DVB-T2), FEF, the fixed properties, the delivery-system and
   * bandwidth property with the spectral inversion bit, the symbol rate
   * (DVB-C), the TS parallel-mode and clock properties and a DSP reset.
   */
  function TuneSteps(s: Setup, cfg: Config): (sts: seq<TuneStep>)
    ensures |sts| == TuneCount(s) && sts[0] == Agc
    ensures sts[SystemPropertyIndex(s)] ==
      SetProperty(0x0a, 0x10, s.sysCode | s.bwCode, if cfg.spectralInversion then 1 else 0)
    ensures sts[|sts| - 1] == Short(0x85, 0, 0, 1, 1)
  {
    var mid := [Short(0x51, 0x03, 0, 2, 12), Short(0x12, 0x08, 0x04, 3, 3),
                SetProperty(0x0c, 0x10, 0x12, 0x00), SetProperty(0x06, 0x10, 0x24, 0x00),
                SetProperty(0x07, 0x10, 0x00, 0x24),
                SetProperty(0x0a, 0x10, s.sysCode | s.bwCode, if cfg.spectralInversion then 1 else 0)];
    var tail := [SetProperty(0x0f, 0x10, 0x10, 0x00),
                 SetProperty(0x09, 0x10, 0xe3, if cfg.tsClockInv then 0x08 else 0x18),
                 SetProperty(0x08, 0x10, if cfg.tsClockInv then 0xdf else 0xcf, if cfg.tsClockInv then 0x17 else 0x33),
                 SetProperty(0x01, 0x12, 0x00, 0x00), SetProperty(0x01, 0x03, 0x0c, 0x00), Short(0x85, 0, 0, 1, 1)];
    var sts := [Agc] + PlpSteps(s.t) + mid + SymbolRateSteps(s.t) + tail;
    assert sts[SystemPropertyIndex(s)] == mid[5];
    sts
  }

  /** The command of one step, sent from a buffer that holds `stale` after the MP defaults. */
  function StepCommand(st: TuneStep, sys: DeliverySystem, stale: seq<bv8>): (c: Cmd)
    requires |stale| == ARGLEN
    ensures ValidCmd(c) && |c.args| == ARGLEN
    ensures !st.Agc? ==> c.wlen == |StepBytes(st)| && c.args[..c.wlen] == StepBytes(st)
    ensures st.Agc? ==> c == AgcCommand(sys, stale)
  {
    match st
    case Agc => AgcCommand(sys, stale)
    case Short(_, _, _, _, rlen) => DemodCommand(StepBytes(st), rlen)
    case SetProperty(_, _, _, _) => DemodCommand(StepBytes(st), 4)
  }

  /** The commands of a list of steps, in order. */
  function StepCommands(sts: seq<TuneStep>, sys: DeliverySystem, stale: seq<bv8>): (cs: seq<Cmd>)
    requires |stale| == ARGLEN
    ensures Sendable(cs) && |cs| == |sts|
    decreases |sts|
  {
    if sts == [] then []
    else [StepCommand(sts[0], sys, stale)] + StepCommands(sts[1..], sys, stale)
  }

  /** The configuration commands of set_frontend after the MP defaults, one per step. */
  function TuneCommands(s: Setup, cfg: Config, stale: seq<bv8>): (cs: seq<Cmd>)
    requires |stale| == ARGLEN
    ensures Sendable(cs) && |cs| == TuneCount(s)
  {
    StepCommands(TuneSteps(s, cfg), s.t.system, stale)
  }

  /**
   * The first command is the AGC command, the delivery-system property
   * carries the system and bandwidth codes and the spectral inversion bit,
   * and the last command resets the DSP.
   */
  lemma TuneCommandsLayout(s: Setup, cfg: Config, stale: seq<bv8>)
    requires |stale| == ARGLEN
    ensures var cs := TuneCommands(s, cfg, stale);
      cs[0] == AgcCommand(s.t.system, stale)
      && cs[SystemPropertyIndex(s)].args[..6] ==
           [0x14, 0x00, 0x0a, 0x10, s.sysCode | s.bwCode, if cfg.spectralInversion then 1 else 0]
      && cs[|cs| - 1] == DspReset
  {
    var sts := TuneSteps(s, cfg);
    StepCommandsAt(sts, s.t.system, stale, 0);
    StepCommandsAt(sts, s.t.system, stale, SystemPropertyIndex(s));
    StepCommandsAt(sts, s.t.system, stale, |sts| - 1);
    assert StepBytes(sts[|sts| - 1]) == [0x85];
  }

  /** Command i of a list of steps is the command of step i. */
  lemma {:induction false} StepCommandsAt(sts: seq<TuneStep>, sys: DeliverySystem, stale: seq<bv8>, i: nat)
    requires |stale| == ARGLEN && i < |sts|
    ensures StepCommands(sts, sys, stale)[i] == StepCommand(sts[i], sys, stale)
    decreases |sts|
  {
    if i > 0 {
      StepCommandsAt(sts[1..], sys, stale, i - 1);
    }
  }

  /** The result of set_frontend: its return code, whether every configuration command succeeded, and the writes. */
  datatype TuneOutcome = TuneOutcome(ret: int, configured: bool, written: seq<seq<bv8>>)

  /**
   * The commands of set_frontend once the tuning is validated and the tuner
   * programmed: the MP defaults, then the configuration list until its
   * first failure; the TS bus is enabled only after all of them succeeded.
   */
  function ConfigureRun(sts: seq<TuneStep>, sys: DeliverySystem, cfg: Config,
                        mp: Exchange, envs: seq<Exchange>, ts: Exchange): (r: TuneOutcome)
    requires |envs| == |sts|
    ensures r.ret == 0 ==> r.configured
    ensures |r.written| >= 1 && r.written[0] == [0x88, 0x02, 0x02, 0x02, 0x02]
  {
    var o := Execute(ErrorBitChecked, MpDefaultsCmd, mp);
    assert MpDefaultsCmd.args[..5] == [0x88, 0x02, 0x02, 0x02, 0x02];
    if o.ret != 0 then TuneOutcome(o.ret, false, Written(MpDefaultsCmd))
    else
      ExecuteKeepsSize(ErrorBitChecked, MpDefaultsCmd, mp);
      var cs := StepCommands(sts, sys, o.args);
      var q := RunAll(ErrorBitChecked, cs, envs);
      var w := Written(MpDefaultsCmd) + WrittenAll(cs[..q.issued]);
      if q.ret != 0 then TuneOutcome(q.ret, false, w)
      else TuneOutcome(Execute(ErrorBitChecked, TsBusCmd(true, cfg), ts).ret, true, w + Written(TsBusCmd(true, cfg)))
  }

  /** set_frontend: -EAGAIN while inactive, -EINVAL for a tuning it rejects, the tuner's error, or the commands' outcome. */
  function SetFrontendRun(active: bool, t: Tuning, tunerRet: int, cfg: Config,
                          mp: Exchange, envs: seq<Exchange>, ts: Exchange): (r: TuneOutcome)
    requires Prepare(t).Some? ==> |envs| == TuneCount(Prepare(t).value)
    ensures !active ==> r == TuneOutcome(EAGAIN, false, [])
    ensures active && Prepare(t).None? ==> r == TuneOutcome(EINVAL, false, [])
    ensures active && Prepare(t).Some? && tunerRet != 0 ==> r == TuneOutcome(tunerRet, false, [])
    ensures r.ret == 0 ==> r.configured
    ensures r.written != [] <==> active && Prepare(t).Some? && tunerRet == 0
  {
    if !active then TuneOutcome(EAGAIN, false, [])
    else match Prepare(t)
      case None => TuneOutcome(EINVAL, false, [])
      case Some(s) =>
        if tunerRet != 0 then TuneOutcome(tunerRet, false, [])
        else ConfigureRun(TuneSteps(s, cfg), s.t.system, cfg, mp, envs, ts)
  }

  /**
   * The configuration completes exactly when the MP defaults and every
   * configuration command succeed; then every command was written and the
   * return code is that of enabling the TS bus.  Otherwise the return code
   * is that of the first failing command, after which nothing was written.
   */
  lemma ConfigureStopsAtFirstFailure(sts: seq<TuneStep>, sys: DeliverySystem, cfg: Config,
                                     mp: Exchange, envs: seq<Exchange>, ts: Exchange)
    requires |envs| == |sts|
    ensures var r := ConfigureRun(sts, sys, cfg, mp, envs, ts);
      var o := Execute(ErrorBitChecked, MpDefaultsCmd, mp);
      (o.ret != 0 ==> r == TuneOutcome(o.ret, false, Written(MpDefaultsCmd)))
      && (o.ret == 0 ==>
            |o.args| == ARGLEN &&
            var cs := StepCommands(sts, sys, o.args);
            (r.configured <==> Succeed(ErrorBitChecked, cs, envs, |cs|))
            && (r.configured ==>
                  r.ret == Execute(ErrorBitChecked, TsBusCmd(true, cfg), ts).ret
                  && r.written == Written(MpDefaultsCmd) + WrittenAll(cs) + Written(TsBusCmd(true, cfg)))
            && (!r.configured ==>
                  exists k :: (0 <= k < |cs| && Succeed(ErrorBitChecked, cs, envs, k)
                               && r.ret == Execute(ErrorBitChecked, cs[k], envs[k]).ret && r.ret != 0
                               && r.written == Written(MpDefaultsCmd) + WrittenAll(cs[..k + 1]))))
  {
    var o := Execute(ErrorBitChecked, MpDefaultsCmd, mp);
    if o.ret == 0 {
      ConfigureRunSteps(sts, sys, cfg, mp, envs, ts);
      var cs := StepCommands(sts, sys, o.args);
      RunAllSucceeds(ErrorBitChecked, cs, envs);
      RunAllFails(ErrorBitChecked, cs, envs);
      RunAllPrefixSucceeds(ErrorBitChecked, cs, envs);
      var q := RunAll(ErrorBitChecked, cs, envs);
      if q.ret == 0 {
        assert cs[..q.issued] == cs;
      } else {
        assert Succeed(ErrorBitChecked, cs, envs, q.issued - 1);
      }
    }
  }

  /** set_frontend once the MP defaults succeeded: the configuration list, then the TS bus. */
  lemma ConfigureRunSteps(sts: seq<TuneStep>, sys: DeliverySystem, cfg: Config,
                          mp: Exchange, envs: seq<Exchange>, ts: Exchange)
    requires |envs| == |sts|
    requires Execute(ErrorBitChecked, MpDefaultsCmd, mp).ret == 0
    ensures var o := Execute(ErrorBitChecked, MpDefaultsCmd, mp);
      |o.args| == ARGLEN &&
      var cs := StepCommands(sts, sys, o.args);
      var q := RunAll(ErrorBitChecked, cs, envs);
      var w := Written(MpDefaultsCmd) + WrittenAll(cs[..q.issued]);
      ConfigureRun(sts, sys, cfg, mp, envs, ts) ==
        if q.ret != 0 then TuneOutcome(q.ret, false, w)
        else TuneOutcome(Execute(ErrorBitChecked, TsBusCmd(true, cfg), ts).ret, true, w + Written(TsBusCmd(true, cfg)))
  {
    ExecuteKeepsSize(ErrorBitChecked, MpDefaultsCmd, mp);
  }

  // --------------------------------------------------------------- search

  /** The number of status polls search makes at most. */
  const SEARCH_POLLS: nat := 5

  /** The loop's view of a read_status result: an error, LOCK, TIMEDOUT, or none of them. */
  function KindOf(q: StatusRead): (k: PollKind)
    ensures k == PollError <==> q.ret != 0
    ensures k == PollLocked <==> q.ret == 0 && q.status.lock
    ensures k == PollWaiting <==> q.ret == 0 && !q.status.lock && !q.status.timedOut
  {
    if q.ret != 0 then PollError
    else if q.status.lock then PollLocked
    else if q.status.timedOut then PollTimedOut
    else PollWaiting
  }

  /** The five polls of the loop, each a read_status with the search armed; none of them reports TIMEDOUT. */
  function PollKinds(sys: DeliverySystem, polls: seq<StatusPoll>): (ks: seq<PollKind>)
    requires |polls| >= SEARCH_POLLS
    ensures |ks| == SEARCH_POLLS
    ensures forall k :: 0 <= k < SEARCH_POLLS ==> ks[k] == KindOf(StatusReadOf(true, sys, Tune, polls[k]))
    ensures forall k :: 0 <= k < SEARCH_POLLS ==> ks[k] != PollTimedOut
  {
    seq(SEARCH_POLLS, k requires 0 <= k < SEARCH_POLLS => KindOf(StatusReadOf(true, sys, Tune, polls[k])))
  }

  /** search: an error from set_frontend is a search error; otherwise the polling loop decides. */
  function SearchVerdict(setRet: int, sys: DeliverySystem, polls: seq<StatusPoll>): (r: SearchResult)
    requires |polls| >= SEARCH_POLLS
  {
    if setRet != 0 then SearchError else PollVerdict(PollKinds(sys, polls), 0)
  }

  /**
   * search succeeds exactly when set_frontend succeeds and, within five
   * polls, one reports LOCK after error-free polls without it; it fails
   * exactly when all five polls are error-free without LOCK.
   */
  lemma SearchMeaning(setRet: int, sys: DeliverySystem, polls: seq<StatusPoll>)
    requires |polls| >= SEARCH_POLLS
    ensures var r, ks := SearchVerdict(setRet, sys, polls), PollKinds(sys, polls);
      (r == SearchSuccess <==> setRet == 0 && exists k :: 0 <= k < SEARCH_POLLS && ks[k] == PollLocked && WaitingFrom(ks, 0, k))
      && (r == SearchFailed <==> setRet == 0 && WaitingFrom(ks, 0, SEARCH_POLLS))
      && (r == SearchError <==> !(r == SearchSuccess || r == SearchFailed))
  {
    PollVerdictMeaning(PollKinds(sys, polls), 0);
  }

  // ----------------------------------------------------------- boot

  /** How init reads the firmware image: 17-byte records, 8-byte records, or neither (-EINVAL). */
  function FirmwareFormat(fw: seq<bv8>): (f: Option<Format>)
    ensures f == Some(Framed17) <==> |fw| > 0 && |fw| % 17 == 0 && fw[0] > 5
    ensures f == Some(Raw8) <==> !(|fw| > 0 && |fw| % 17 == 0 && fw[0] > 5) && |fw| % 8 == 0
  {
    if |fw| > 0 && |fw| % 17 == 0 && fw[0] > 5 then Some(Framed17)
    else if |fw| % 8 == 0 then Some(Raw8)
    else None
  }

  /**
   * For an empty image the driver reads the first byte outside the image;
   * both readings of it lead to a download that sends nothing and succeeds.
   */
  lemma EmptyImageSendsNothing()
    ensures Image([], Framed17, ARGLEN) == Walk([], false)
    ensures Image([], Raw8, ARGLEN) == Walk([], false)
  {
  }

  const InitCmd: Cmd := DemodCommand([0xc0, 0x12, 0x00, 0x0c, 0x00, 0x0d, 0x16, 0x00, 0x00, 0x00, 0x00, 0x00, 0x00], 0)
  const ResumeCmd: Cmd := DemodCommand([0xc0, 0x06, 0x08, 0x0f, 0x00, 0x20, 0x21, 0x01], 1)
  const PowerUpCmd: Cmd := DemodCommand([0xc0, 0x06, 0x01, 0x0f, 0x00, 0x20, 0x20, 0x01], 1)
  const StartCmd: Cmd := DemodCommand([0x01, 0x01], 1)
  const VersionCmd: Cmd := DemodCommand([0x11], 10)

  /** TER FEF: the FEF pin in bits 0-2 and its inversion in bit 3. */
  function FefCmd(cfg: Config): (c: Cmd)
    ensures ValidCmd(c) && c.wlen == 2 && c.args[0] == 0x51
    ensures c.args[1] & 0x07 == cfg.fefPin & 0x07 && (c.args[1] & 0x08 != 0 <==> cfg.fefInv) && c.args[1] & 0xf0 == 0
  {
    DemodCommand([0x51, (if cfg.fefInv then 0x08 else 0x00) | (cfg.fefPin & 0x07)], 12)
  }

  /** MP defaults of init: every MP pin 1, except the FEF pin's slot, 3 when inverted and 2 otherwise. */
  function InitMpCmd(cfg: Config): (c: Cmd)
    ensures ValidCmd(c) && c.wlen == 5 && c.args[0] == 0x88
    ensures forall k :: 1 <= k <= 4 ==> c.args[k] == (if k == cfg.fefSlot then (if cfg.fefInv then 3 else 2) else 1)
  {
    var v: bv8 := if cfg.fefInv then 3 else 2;
    DemodCommand([0x88, if cfg.fefSlot == 1 then v else 1, if cfg.fefSlot == 2 then v else 1,
             if cfg.fefSlot == 3 then v else 1, if cfg.fefSlot == 4 then v else 1], 2)
  }

  /** Terrestrial AGC: the AGC pin in bits 4-6 and its inversion in bit 7 of 0x01. */
  function AgcInitCmd(cfg: Config): (c: Cmd)
    ensures ValidCmd(c) && c.wlen == 6 && c.args[0] == 0x89
    ensures c.args[1] & 0x0f == 0x01 && (c.args[1] >> 4) & 0x07 == cfg.agcPin & 0x07 && (c.args[1] & 0x80 != 0 <==> cfg.agcInv)
  {
    DemodCommand([0x89, 0x01 | (if cfg.agcInv then 0x80 else 0x00) | ((cfg.agcPin & 0x07) << 4), 0x06, 0x12, 0x00, 0x00], 3)
  }

  /**
   * The firmware version word: (args[9] + '@') << 24 | (args[6] - '0') << 16
   * | (args[7] - '0') << 8 | args[8], in C's int arithmetic stored to a u32:
   * 32-bit two's complement, so a byte below '0' borrows into the fields above.
   */
  function VersionWord(a6: bv8, a7: bv8, a8: bv8, a9: bv8): bv32
  {
    ((a9 as bv32 + 0x40) << 24) | ((a6 as bv32 - 0x30) << 16) | ((a7 as bv32 - 0x30) << 8) | a8 as bv32
  }

  /** For decimal digits in bytes 6 and 7 the word packs letter, major, minor and build, one byte each. */
  lemma VersionWordFields(a6: bv8, a7: bv8, a8: bv8, a9: bv8)
    requires 0x30 <= a6 <= 0x39 && 0x30 <= a7 <= 0x39
    ensures var v := VersionWord(a6, a7, a8, a9);
      v >> 24 == (a9 + 0x40) as bv32 && (v >> 16) & 0xff == (a6 - 0x30) as bv32
      && (v >> 8) & 0xff == (a7 - 0x30) as bv32 && v & 0xff == a8 as bv32
  {
  }

  /** Firmware later than B 4.0 build 11 loses its warm state during sleep. */
  predicate LosesWarmState(version: bv32)
  {
    version > 0x4204_000b
  }

  /**
   * For a well-formed version (decimal digits) the sleep rule compares
   * (letter, major, minor, build) lexicographically with ('B', 4, 0, 11).
   */
  lemma SleepRuleIsVersionOrder(a6: bv8, a7: bv8, a8: bv8, a9: bv8)
    requires 0x30 <= a6 <= 0x39 && 0x30 <= a7 <= 0x39
    ensures var letter, major, minor := a9 + 0x40, a6 - 0x30, a7 - 0x30;
      LosesWarmState(VersionWord(a6, a7, a8, a9)) <==>
        letter > 0x42 || (letter == 0x42 && (major > 4 || (major == 4 && (minor > 0 || a8 > 11))))
  {
  }

  /** What the chip answers during init: one exchange per command, the firmware request and image. */
  datatype Boot = Boot(
    init: Exchange, resume: Exchange, dspReset: Exchange, powerUp: Exchange,
    firmwareRet: int, fw: seq<bv8>, envs: seq<Exchange>,
    start: Exchange, version: Exchange, fef: Exchange, mp: Exchange, agc: Exchange, ts: Exchange)

  /** The download's bus script matches the image in the format init chooses. */
  predicate BootScripted(b: Boot)
  {
    FirmwareFormat(b.fw).Some? ==> Scripted(Image(b.fw, FirmwareFormat(b.fw).value, ARGLEN).cmds, b.envs)
  }

  /** The return code of init, the version it read (if it got that far) and whether it activated the device. */
  datatype InitOutcome = InitOutcome(ret: int, version: Option<bv32>, activated: bool)

  /**
   * init: the INIT command, then either the warm resume (resume and DSP
   * reset) or the cold boot: power up, the firmware image in the format its
   * size and first byte select, start, the version query, three settings
   * whose results are ignored (FEF, MP defaults, AGC) and the TS bus.
   */
  function InitRun(warm: bool, cfg: Config, b: Boot): (o: InitOutcome)
    requires BootScripted(b)
    ensures o.ret == 0 <==> o.activated
    ensures warm ==> o.version.None?
  {
    var i := Execute(ErrorBitChecked, InitCmd, b.init);
    if i.ret != 0 then InitOutcome(i.ret, None, false)
    else if warm then
      var r := Execute(ErrorBitChecked, ResumeCmd, b.resume);
      var d := Execute(ErrorBitChecked, DspReset, b.dspReset);
      if r.ret != 0 then InitOutcome(r.ret, None, false)
      else if d.ret != 0 then InitOutcome(d.ret, None, false)
      else InitOutcome(0, None, true)
    else
      var p := Execute(ErrorBitChecked, PowerUpCmd, b.powerUp);
      if p.ret != 0 then InitOutcome(p.ret, None, false) else LoadRun(cfg, b)
  }

  /**
   * The cold boot after power up: the firmware request, the image in the
   * format its size and first byte select, then the rest of the boot.
   */
  function LoadRun(cfg: Config, b: Boot): (o: InitOutcome)
    requires BootScripted(b)
    ensures o.ret == 0 <==> o.activated
    ensures FirmwareFormat(b.fw).None? ==> o.ret != 0
  {
    if b.firmwareRet != 0 then InitOutcome(b.firmwareRet, None, false)
    else match FirmwareFormat(b.fw)
      case None => InitOutcome(EINVAL, None, false)
      case Some(fmt) =>
        var dl := DownloadRet(ErrorBitChecked, Image(b.fw, fmt, ARGLEN), b.envs);
        if dl != 0 then InitOutcome(dl, None, false) else AfterDownloadRun(cfg, b)
  }

  /**
   * The end of a cold boot, after the download: start, the version query,
   * the settings whose results are ignored and the TS bus, whose result is
   * the outcome; the version is known once its query succeeded.
   */
  function AfterDownloadRun(cfg: Config, b: Boot): (o: InitOutcome)
    ensures o.ret == 0 <==> o.activated
    ensures o.version.Some? <==>
      Execute(ErrorBitChecked, StartCmd, b.start).ret == 0 && Execute(ErrorBitChecked, VersionCmd, b.version).ret == 0
  {
    var s := Execute(ErrorBitChecked, StartCmd, b.start);
    var v := Execute(ErrorBitChecked, VersionCmd, b.version);
    if s.ret != 0 then InitOutcome(s.ret, None, false)
    else if v.ret != 0 then InitOutcome(v.ret, None, false)
    else
      ExecuteKeepsSize(ErrorBitChecked, VersionCmd, b.version);
      var word := VersionWord(v.args[6], v.args[7], v.args[8], v.args[9]);
      var t := Execute(ErrorBitChecked, TsBusCmd(true, cfg), b.ts);
      InitOutcome(t.ret, Some(word), t.ret == 0)
  }

  /** The FEF, MP-defaults and AGC commands of init cannot change its outcome. */
  lemma InitIgnoresSettings(warm: bool, cfg: Config, b: Boot, fef: Exchange, mp: Exchange, agc: Exchange)
    requires BootScripted(b)
    ensures InitRun(warm, cfg, b) == InitRun(warm, cfg, b.(fef := fef, mp := mp, agc := agc))
  {
  }

  /** A cold boot with an image whose size fits neither format fails with -EINVAL before anything is downloaded. */
  lemma BadImageSizeRejected(cfg: Config, b: Boot)
    requires BootScripted(b) && |b.fw| % 8 != 0 && |b.fw| % 17 != 0
    requires Execute(ErrorBitChecked, InitCmd, b.init).ret == 0 && Execute(ErrorBitChecked, PowerUpCmd, b.powerUp).ret == 0
    requires b.firmwareRet == 0
    ensures InitRun(false, cfg, b) == InitOutcome(EINVAL, None, false)
  {
  }

  /**
   * A cold boot activates the device exactly when every checked step
   * succeeds: power up, the firmware request, a well-formed image whose
   * records all succeed, start, the version query and the TS bus.
   */
  lemma ColdBootSucceeds(cfg: Config, b: Boot)
    requires BootScripted(b)
    ensures InitRun(false, cfg, b).activated <==>
      Execute(ErrorBitChecked, InitCmd, b.init).ret == 0 && Execute(ErrorBitChecked, PowerUpCmd, b.powerUp).ret == 0
      && b.firmwareRet == 0 && FirmwareFormat(b.fw).Some?
      && !Image(b.fw, FirmwareFormat(b.fw).value, ARGLEN).bad
      && RunAll(ErrorBitChecked, Image(b.fw, FirmwareFormat(b.fw).value, ARGLEN).cmds, b.envs).ret == 0
      && Execute(ErrorBitChecked, StartCmd, b.start).ret == 0 && Execute(ErrorBitChecked, VersionCmd, b.version).ret == 0
      && Execute(ErrorBitChecked, TsBusCmd(true, cfg), b.ts).ret == 0
  {
  }

  /**
   * The writes the cold path of init puts on the bus after INIT, in order:
   * power up, the image records issued, start, the version query, then the
   * three settings and the TS bus; each failing checked step ends the list.
   */
  function ColdBootSent(cfg: Config, b: Boot): (w: seq<seq<bv8>>)
    requires BootScripted(b)
    ensures |w| >= 1 && w[0] == PowerUpCmd.args[..PowerUpCmd.wlen]
  {
    Written(PowerUpCmd) + (if Execute(ErrorBitChecked, PowerUpCmd, b.powerUp).ret != 0 then [] else LoadSent(cfg, b))
  }

  /** The writes after power up: nothing without an image, else the records issued and, after a download, the rest. */
  function LoadSent(cfg: Config, b: Boot): (w: seq<seq<bv8>>)
    requires BootScripted(b)
    ensures b.firmwareRet != 0 || FirmwareFormat(b.fw).None? ==> w == []
  {
    if b.firmwareRet != 0 || FirmwareFormat(b.fw).None? then []
    else
      var w := Image(b.fw, FirmwareFormat(b.fw).value, ARGLEN);
      WrittenAll(w.cmds[..RunAll(ErrorBitChecked, w.cmds, b.envs).issued])
      + (if DownloadRet(ErrorBitChecked, w, b.envs) != 0 then [] else AfterDownloadSent(cfg, b))
  }

  /** The writes after a successful download: start, the version query, then the settings and the TS bus. */
  function AfterDownloadSent(cfg: Config, b: Boot): (w: seq<seq<bv8>>)
    ensures |w| >= 1 && w[0] == StartCmd.args[..StartCmd.wlen]
  {
    var tail := if Execute(ErrorBitChecked, VersionCmd, b.version).ret != 0 then [] else SettingsSent(cfg);
    Written(StartCmd) + (if Execute(ErrorBitChecked, StartCmd, b.start).ret != 0 then [] else Written(VersionCmd) + tail)
  }

  /** The writes that close a cold boot: FEF, MP defaults, AGC and the TS bus, whatever their results. */
  function SettingsSent(cfg: Config): (w: seq<seq<bv8>>)
    ensures |w| == 4 && w[3] == TsBusCmd(true, cfg).args[..TsBusCmd(true, cfg).wlen]
  {
    Written(FefCmd(cfg)) + Written(InitMpCmd(cfg)) + Written(AgcInitCmd(cfg)) + Written(TsBusCmd(true, cfg))
  }

  /** The writes of init: INIT, then the warm resume and DSP reset or the cold path. */
  function InitSent(warm: bool, cfg: Config, b: Boot): (w: seq<seq<bv8>>)
    requires BootScripted(b)
    ensures |w| >= 1 && w[0] == InitCmd.args[..InitCmd.wlen]
  {
    Written(InitCmd) +
    if Execute(ErrorBitChecked, InitCmd, b.init).ret != 0 then []
    else if warm then ResumeSent(b)
    else ColdBootSent(cfg, b)
  }

  /** The writes of the warm path: resume and, when it succeeds, the DSP reset. */
  function ResumeSent(b: Boot): (w: seq<seq<bv8>>)
    ensures |w| >= 1 && w[0] == ResumeCmd.args[..ResumeCmd.wlen]
  {
    Written(ResumeCmd) + (if Execute(ErrorBitChecked, ResumeCmd, b.resume).ret != 0 then [] else Written(DspReset))
  }

  /**
   * A cold boot that activates the device has put every record of the
   * firmware image on the bus, between power up and start, and ends with the
   * settings and the TS bus.
   */
  lemma ColdBootSendsWholeImage(cfg: Config, b: Boot)
    requires BootScripted(b) && InitRun(false, cfg, b).activated
    ensures FirmwareFormat(b.fw).Some?
    ensures InitSent(false, cfg, b) == Written(InitCmd) + Written(PowerUpCmd)
      + WrittenAll(Image(b.fw, FirmwareFormat(b.fw).value, ARGLEN).cmds)
      + Written(StartCmd) + Written(VersionCmd) + SettingsSent(cfg)
  {
    assert InitRun(false, cfg, b).activated ==> LoadRun(cfg, b).activated;
    var w := Image(b.fw, FirmwareFormat(b.fw).value, ARGLEN);
    assert DownloadRet(ErrorBitChecked, w, b.envs) == 0 && AfterDownloadRun(cfg, b).activated;
    RunAllSucceeds(ErrorBitChecked, w.cmds, b.envs);
    assert w.cmds[..|w.cmds|] == w.cmds;
    var i, p, e, st, v, t := Written(InitCmd), Written(PowerUpCmd), WrittenAll(w.cmds), Written(StartCmd),
      Written(VersionCmd), SettingsSent(cfg);
    assert AfterDownloadSent(cfg, b) == st + (v + t);
    assert LoadSent(cfg, b) == e + (st + (v + t));
    assert InitSent(false, cfg, b) == i + (p + (e + (st + (v + t))));
    AppendAssoc(i, p, e + (st + (v + t)));
    AppendAssoc(i + p, e, st + (v + t));
    AppendAssoc(i + p + e, st, v + t);
    AppendAssoc(i + p + e + st, v, t);
  }

  // ------------------------------------------------------------- device

  /** The state of one Si2168 frontend: the driver's fields, the property cache it uses, and the chip channel. */
  class Demod {
    var algo: Algo
    var warm: bool
    var active: bool
    var version: bv32
    var deliverySystem: DeliverySystem
    var feStatus: FeStatus
    var statResp: bv8
    var props: Tuning
    var stats: Stats
    const cfg: Config
    const chan: Channel

    constructor (config: Config)
      ensures algo == NoTune && !warm && !active && version == 0 && statResp == 0 && cfg == config
      ensures fresh(chan) && !chan.held && chan.sent == []
    {
      algo, warm, active, version := NoTune, false, false, 0;
      deliverySystem, feStatus, statResp := SysUndefined, NoStatus, 0;
      props := Tuning(SysUndefined, 0, 0, 0);
      stats := Stats(DefaultStat, DefaultStat, DefaultStat, DefaultStat);
      cfg := config;
      chan := new Channel();
    }

    /** ts_bus_ctrl: writes the TS_MODE property for acquiring or releasing the bus. */
    method TsBusCtrl(acquire: bool, x: Exchange) returns (ret: int)
      requires !chan.held
      modifies chan
      ensures !chan.held && ret == Execute(ErrorBitChecked, TsBusCmd(acquire, cfg), x).ret
      ensures chan.sent == old(chan.sent) + Written(TsBusCmd(acquire, cfg))
    {
      var o := chan.Exec(ErrorBitChecked, TsBusCmd(acquire, cfg), x);
      ret := o.ret;
    }

    /** read_status: the status query and, depending on the flags, the BER and UCB queries. */
    method ReadStatus(p: StatusPoll) returns (ret: int, status: FeStatus)
      requires !chan.held
      modifies this`feStatus, this`stats, chan
      ensures !chan.held
      ensures var r := StatusReadOf(active, props.system, algo, p);
        ret == r.ret && status == r.status && chan.sent == old(chan.sent) + r.written
        && feStatus == (if r.decoded then r.status else old(feStatus))
      ensures stats == StatsAfter(active, props.system, algo, old(stats), p)
    {
      status := NoStatus;
      if !active {
        return EAGAIN, status;
      }
      var c := StatusCmd(props.system);
      if c.None? {
        return EINVAL, status;
      }
      var o := chan.Exec(ErrorBitChecked, c.value, p.status);
      if o.ret != 0 {
        return o.ret, status;
      }
      ExecuteKeepsSize(ErrorBitChecked, c.value, p.status);
      status := DecodeStatus(o.args[2], algo);
      feStatus := status;
      stats := stats.(cnr := if status.lock then Stat(Decibel, o.args[3] as int * 1000 / 4) else Unavailable(stats.cnr));
      ghost var w := Written(c.value);
      if status.viterbi {
        var b := chan.Exec(ErrorBitChecked, BerCmd, p.ber);
        AppendAssoc(old(chan.sent), w, Written(BerCmd));
        w := w + Written(BerCmd);
        if b.ret != 0 {
          return b.ret, status;
        }
        ExecuteKeepsSize(ErrorBitChecked, BerCmd, p.ber);
        stats := stats.(postBitError := Count(stats.postBitError, BerErrorsAsWritten(b.args[1], b.args[2])),
                        postBitCount := Count(stats.postBitCount, 100000000));
      } else {
        stats := stats.(postBitError := Unavailable(stats.postBitError),
                        postBitCount := Unavailable(stats.postBitCount));
      }
      if status.sync {
        var u := chan.Exec(ErrorBitChecked, UcbCmd, p.ucb);
        AppendAssoc(old(chan.sent), w, Written(UcbCmd));
        if u.ret != 0 {
          return u.ret, status;
        }
        ExecuteKeepsSize(ErrorBitChecked, UcbCmd, p.ucb);
        stats := stats.(blockError := Count(stats.blockError, UcbCount(u.args[1], u.args[2])));
      } else {
        stats := stats.(blockError := Unavailable(stats.blockError));
      }
      ret := 0;
    }

    /** read_snr of the cached CNR. */
    function Snr(): (snr: nat)
      reads this
      ensures snr < U16_MOD && (stats.cnr.scale != Decibel ==> snr == 0)
    {
      ReadSnr(stats.cnr)
    }

    /** read_ber: queries the BER registers only while the last status had LOCK. */
    method ReadBer(x: Exchange) returns (ret: int, ber: nat)
      requires !chan.held
      modifies chan
      ensures !chan.held
      ensures !feStatus.lock ==> ret == 0 && ber == 1 && chan.sent == old(chan.sent)
      ensures feStatus.lock ==> var o := Execute(ErrorBitChecked, BerCmd, x);
        ret == o.ret && chan.sent == old(chan.sent) + [[0x82, 0x00]]
        && (ret == 0 ==> |o.args| == ARGLEN && ber == BerValue(true, o.args[1], o.args[2]))
    {
      if !feStatus.lock {
        return 0, 1;
      }
      var o := chan.Exec(ErrorBitChecked, BerCmd, x);
      assert BerCmd.args[..2] == [0x82, 0x00];
      ret := o.ret;
      ber := 0;
      if ret == 0 {
        ExecuteKeepsSize(ErrorBitChecked, BerCmd, x);
        ber := BerValue(true, o.args[1], o.args[2]);
      }
    }

    /**
     * read_ucblocks: queries the counter only when bit 4 of stat_resp is
     * set; this driver never writes stat_resp, so it stays 0 and the
     * reading is 0.
     */
    method ReadUcblocks(x: Exchange) returns (ret: int, ucb: nat)
      requires !chan.held
      modifies chan
      ensures !chan.held
      ensures statResp & 0x10 == 0 ==> ret == 0 && ucb == 0 && chan.sent == old(chan.sent)
      ensures statResp & 0x10 != 0 ==> var o := Execute(ErrorBitChecked, DemodCommand([0x84, 0x00], 3), x);
        ret == o.ret && (ret == 0 ==> |o.args| == ARGLEN && ucb == o.args[2] as int * 256 + o.args[1] as int)
    {
      if statResp & 0x10 == 0 {
        return 0, 0;
      }
      var c := DemodCommand([0x84, 0x00], 3);
      var o := chan.Exec(ErrorBitChecked, c, x);
      ret := o.ret;
      ucb := 0;
      if ret == 0 {
        ExecuteKeepsSize(ErrorBitChecked, c, x);
        ucb := o.args[2] as int * 256 + o.args[1] as int;
      }
    }

    /** get_frontend_algo: the custom search is offered unless no tune is armed. */
    function GetFrontendAlgo(): (r: FrontendAlgo)
      reads this
      ensures r == AlgoNotune <==> algo == NoTune
      ensures r != AlgoNotune ==> r == AlgoCustom
    {
      if algo == NoTune then AlgoNotune else AlgoCustom
    }

    /** dtv_tune: arms the search. */
    method DtvTune() returns (ret: int)
      modifies this`algo
      ensures algo == Tune && ret == 0
    {
      algo := Tune;
      ret := 0;
    }

    /**
     * set_frontend: -EAGAIN while inactive; otherwise the search is armed,
     * the tuning validated (Annex A below 6 MS/s rewritten to Annex B in the
     * property cache), the tuner programmed and the configuration sent; the
     * delivery system is recorded only once every configuration command
     * succeeded, before the TS bus is enabled.
     */
    method SetFrontend(tunerRet: int, mp: Exchange, envs: seq<Exchange>, ts: Exchange) returns (ret: int)
      requires !chan.held
      requires Prepare(props).Some? ==> |envs| == TuneCount(Prepare(props).value)
      modifies this`algo, this`props, this`deliverySystem, chan
      ensures !chan.held
      ensures var r := SetFrontendRun(old(active), old(props), tunerRet, cfg, mp, envs, ts);
        ret == r.ret && chan.sent == old(chan.sent) + r.written
        && deliverySystem == (if r.configured then props.system else old(deliverySystem))
      ensures algo == (if old(active) then Tune else old(algo))
      ensures props == (if old(active) && Prepare(old(props)).Some? then Prepare(old(props)).value.t else old(props))
    {
      if !active {
        return EAGAIN;
      }
      algo := Tune;
      var prep := Prepare(props);
      if prep.None? {
        return EINVAL;
      }
      var s := prep.value;
      props := s.t;
      if tunerRet != 0 {
        return tunerRet;
      }
      ret := Configure(TuneSteps(s, cfg), s.t.system, mp, envs, ts);
    }

    /**
     * The commands of set_frontend after its checks; the delivery system is
     * recorded once every configuration command succeeded, just before the
     * TS bus is enabled.
     */
    method Configure(sts: seq<TuneStep>, sys: DeliverySystem, mp: Exchange, envs: seq<Exchange>, ts: Exchange)
      returns (ret: int)
      requires !chan.held && |envs| == |sts|
      modifies this`deliverySystem, chan
      ensures !chan.held
      ensures var r := ConfigureRun(sts, sys, cfg, mp, envs, ts);
        ret == r.ret && chan.sent == old(chan.sent) + r.written
        && deliverySystem == (if r.configured then sys else old(deliverySystem))
    {
      var o := chan.Exec(ErrorBitChecked, MpDefaultsCmd, mp);
      if o.ret != 0 {
        return o.ret;
      }
      ConfigureRunSteps(sts, sys, cfg, mp, envs, ts);
      var cs := StepCommands(sts, sys, o.args);
      var q := chan.RunSequence(ErrorBitChecked, cs, envs);
      AppendAssoc(old(chan.sent), Written(MpDefaultsCmd), WrittenAll(cs[..q.issued]));
      if q.ret != 0 {
        return q.ret;
      }
      deliverySystem := sys;
      ret := TsBusCtrl(true, ts);
      AppendAssoc(old(chan.sent), Written(MpDefaultsCmd) + WrittenAll(cs[..q.issued]), Written(TsBusCmd(true, cfg)));
    }

    /**
     * search: arms the search, runs set_frontend and polls read_status at
     * most five times; SUCCESS on LOCK leaves the search armed, and every
     * other exit disarms it.
     */
    method Search(tunerRet: int, mp: Exchange, envs: seq<Exchange>, ts: Exchange, polls: seq<StatusPoll>)
      returns (r: SearchResult)
      requires !chan.held && |polls| >= SEARCH_POLLS
      requires Prepare(props).Some? ==> |envs| == TuneCount(Prepare(props).value)
      modifies this`algo, this`props, this`deliverySystem, this`feStatus, this`stats, chan
      ensures !chan.held
      ensures r == SearchVerdict(SetFrontendRun(old(active), old(props), tunerRet, cfg, mp, envs, ts).ret,
                                 props.system, polls)
      ensures algo == (if r == SearchSuccess then Tune else NoTune)
      ensures props == (if old(active) && Prepare(old(props)).Some? then Prepare(old(props)).value.t else old(props))
    {
      algo := Tune;
      var setRet := SetFrontend(tunerRet, mp, envs, ts);
      if setRet != 0 {
        algo := NoTune;
        return SearchError;
      }
      r := AwaitLock(polls);
    }

    /**
     * One pass of the polling loop: read_status with the search armed,
     * classified as error, lock or still waiting (TIMEDOUT cannot come back
     * while the search is armed, so the driver's early exit on it never fires).
     */
    method Poll(polls: seq<StatusPoll>, i: nat) returns (k: PollKind)
      requires !chan.held && i < SEARCH_POLLS <= |polls| && active && algo == Tune
      modifies this`feStatus, this`stats, chan
      ensures !chan.held && k == PollKinds(props.system, polls)[i]
    {
      var ret, status := ReadStatus(polls[i]);
      k := if ret != 0 then PollError else if status.lock then PollLocked else PollWaiting;
    }

    /**
     * The polling loop of search: up to five read_status calls with the
     * search armed, ending at the first error or LOCK.  The search stays
     * armed only when it locked.
     */
    method AwaitLock(polls: seq<StatusPoll>) returns (r: SearchResult)
      requires !chan.held && |polls| >= SEARCH_POLLS && active && algo == Tune
      modifies this`algo, this`feStatus, this`stats, chan
      ensures !chan.held
      ensures r == PollVerdict(PollKinds(props.system, polls), 0)
      ensures algo == (if r == SearchSuccess then Tune else NoTune)
    {
      var i := 0;
      while i < SEARCH_POLLS
        invariant i <= SEARCH_POLLS && algo == Tune && !chan.held
        invariant PollVerdict(PollKinds(props.system, polls), 0) == PollVerdict(PollKinds(props.system, polls), i)
        decreases SEARCH_POLLS - i
      {
        var k := Poll(polls, i);
        if k == PollError {
          algo := NoTune;
          return SearchError;
        }
        if k == PollLocked {
          return SearchSuccess;
        }
        i := i + 1;
      }
      algo := NoTune;
      r := SearchFailed;
    }

    /**
     * init: disarms the search; the INIT command, then a warm resume or a
     * cold boot (see InitRun).  A successful boot marks every statistic
     * unavailable and activates the device; a cold one also marks it warm.
     * The version is recorded once the version query succeeded.
     */
    method Init(b: Boot) returns (ret: int)
      requires !chan.held && BootScripted(b)
      modifies this`algo, this`warm, this`active, this`version, this`stats, chan
      ensures !chan.held && algo == NoTune
      ensures chan.sent == old(chan.sent) + InitSent(old(warm), cfg, b)
      ensures var o := InitRun(old(warm), cfg, b);
        ret == o.ret
        && version == (if o.version.Some? then o.version.value else old(version))
        && warm == (old(warm) || o.activated)
        && active == (old(active) || o.activated)
        && stats == (if o.activated
                     then Stats(Unavailable(old(stats).cnr), Unavailable(old(stats).postBitError),
                                Unavailable(old(stats).postBitCount), Unavailable(old(stats).blockError))
                     else old(stats))
    {
      algo := NoTune;
      ghost var res := InitRun(warm, cfg, b);
      var o := chan.Exec(ErrorBitChecked, InitCmd, b.init);
      if o.ret != 0 {
        assert res == InitOutcome(o.ret, None, false) && InitSent(warm, cfg, b) == Written(InitCmd);
        return o.ret;
      }
      if !warm {
        assert res == InitRun(false, cfg, b);
        ret := ColdBoot(b);
        assert InitSent(false, cfg, b) == Written(InitCmd) + ColdBootSent(cfg, b);
        AppendAssoc(old(chan.sent), Written(InitCmd), ColdBootSent(cfg, b));
        if ret != 0 {
          assert !res.activated;
          return ret;
        }
        warm := true;
      } else {
        ret := Resume(b);
        assert InitSent(true, cfg, b) == Written(InitCmd) + ResumeSent(b);
        AppendAssoc(old(chan.sent), Written(InitCmd), ResumeSent(b));
        assert res.ret == ret && res.version.None?;
        if ret != 0 {
          return ret;
        }
      }
      assert res.activated;
      stats := Stats(Unavailable(stats.cnr), Unavailable(stats.postBitError),
                     Unavailable(stats.postBitCount), Unavailable(stats.blockError));
      active := true;
      ret := 0;
    }

    /** The warm path of init after the INIT command: resume, then the DSP reset; the first failure's code is returned. */
    method Resume(b: Boot) returns (ret: int)
      requires !chan.held
      modifies chan
      ensures !chan.held && chan.sent == old(chan.sent) + ResumeSent(b)
      ensures var r, d := Execute(ErrorBitChecked, ResumeCmd, b.resume), Execute(ErrorBitChecked, DspReset, b.dspReset);
        ret == (if r.ret != 0 then r.ret else d.ret)
    {
      var o := chan.Exec(ErrorBitChecked, ResumeCmd, b.resume);
      if o.ret != 0 {
        return o.ret;
      }
      o := chan.Exec(ErrorBitChecked, DspReset, b.dspReset);
      ret := o.ret;
    }

    /** The cold path of init after the INIT command: power up, firmware, start, version, settings, TS bus. */
    method ColdBoot(b: Boot) returns (ret: int)
      requires !chan.held && BootScripted(b) && Execute(ErrorBitChecked, InitCmd, b.init).ret == 0
      modifies this`version, chan
      ensures !chan.held && chan.sent == old(chan.sent) + ColdBootSent(cfg, b)
      ensures var o := InitRun(false, cfg, b);
        ret == o.ret && version == (if o.version.Some? then o.version.value else old(version))
    {
      var o := chan.Exec(ErrorBitChecked, PowerUpCmd, b.powerUp);
      if o.ret != 0 {
        return o.ret;
      }
      ret := LoadFirmware(b);
      AppendAssoc(old(chan.sent), Written(PowerUpCmd), LoadSent(cfg, b));
    }

    /** The cold path after power up: the firmware request, its format, the download, then the rest of the boot. */
    method LoadFirmware(b: Boot) returns (ret: int)
      requires !chan.held && BootScripted(b)
      modifies this`version, chan
      ensures !chan.held && chan.sent == old(chan.sent) + LoadSent(cfg, b)
      ensures var o := LoadRun(cfg, b);
        ret == o.ret && version == (if o.version.Some? then o.version.value else old(version))
    {
      if b.firmwareRet != 0 {
        return b.firmwareRet;
      }
      var fmt := FirmwareFormat(b.fw);
      if fmt.None? {
        return EINVAL;
      }
      var d, _ := chan.Download(ErrorBitChecked, b.fw, fmt.value, ARGLEN, b.envs);
      ghost var w := Image(b.fw, fmt.value, ARGLEN);
      ghost var issued := WrittenAll(w.cmds[..RunAll(ErrorBitChecked, w.cmds, b.envs).issued]);
      if d != 0 {
        return d;
      }
      ret := AfterDownload(b);
      AppendAssoc(old(chan.sent), issued, AfterDownloadSent(cfg, b));
    }

    /** The end of the cold path, after the download: start, version, settings, TS bus. */
    method AfterDownload(b: Boot) returns (ret: int)
      requires !chan.held
      modifies this`version, chan
      ensures !chan.held && chan.sent == old(chan.sent) + AfterDownloadSent(cfg, b)
      ensures var o := AfterDownloadRun(cfg, b);
        ret == o.ret && version == (if o.version.Some? then o.version.value else old(version))
    {
      var o := chan.Exec(ErrorBitChecked, StartCmd, b.start);
      if o.ret != 0 {
        return o.ret;
      }
      ghost var sent1 := chan.sent;
      o := chan.Exec(ErrorBitChecked, VersionCmd, b.version);
      if o.ret != 0 {
        return o.ret;
      }
      ExecuteKeepsSize(ErrorBitChecked, VersionCmd, b.version);
      version := VersionWord(o.args[6], o.args[7], o.args[8], o.args[9]);
      ret := SendSettings(b);
      AppendAssoc(sent1, Written(VersionCmd), SettingsSent(cfg));
      AppendAssoc(old(chan.sent), Written(StartCmd), Written(VersionCmd) + SettingsSent(cfg));
    }

    /** The close of a cold boot: FEF, MP defaults and AGC, results ignored, then the TS bus, whose result is returned. */
    method SendSettings(b: Boot) returns (ret: int)
      requires !chan.held
      modifies chan
      ensures !chan.held && chan.sent == old(chan.sent) + SettingsSent(cfg)
      ensures ret == Execute(ErrorBitChecked, TsBusCmd(true, cfg), b.ts).ret
    {
      var _ := chan.Exec(ErrorBitChecked, FefCmd(cfg), b.fef);
      ghost var s1 := chan.sent;
      var _ := chan.Exec(ErrorBitChecked, InitMpCmd(cfg), b.mp);
      ghost var s2 := chan.sent;
      var _ := chan.Exec(ErrorBitChecked, AgcInitCmd(cfg), b.agc);
      ghost var s3 := chan.sent;
      ret := TsBusCtrl(true, b.ts);
      assert chan.sent == old(chan.sent) + Written(FefCmd(cfg)) + Written(InitMpCmd(cfg)) + Written(AgcInitCmd(cfg))
        + Written(TsBusCmd(true, cfg));
    }

    /** sleep: disarms and deactivates; firmware later than B 4.0-11 also loses the warm state. */
    method Sleep() returns (ret: int)
      modifies this`algo, this`active, this`warm
      ensures algo == NoTune && !active && ret == 0
      ensures warm == (old(warm) && !LosesWarmState(version))
    {
      algo := NoTune;
      active := false;
      if LosesWarmState(version) {
        warm := false;
      }
      ret := 0;
    }
  }
}
