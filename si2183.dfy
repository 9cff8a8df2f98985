/**
 * Silicon Labs Si2183 multi-standard demodulator: status decoding, the
 * parameter encoders of each delivery system, the DVB-S2 PLS scrambling
 * code, DiSEqC chunking, the blind-scan symbol-rate schedule and the
 * per-device acquisition state.
 */
module Si2183 {
  import opened Common
  import opened FirmwareCmd

  const ARGLEN: nat := DEMOD_ARGLEN
  const NO_STREAM_ID_FILTER: int := 0xFFFF_FFFF

  /** The driver's acquisition flag (SI2183_NOTUNE, SI2183_TUNE, SI2183_FAILED). */
  datatype Algo = NoTune | Tune | Failed

  // ---------------------------------------------------------------- status

  /**
   * The status flags read from byte 2 of a parameter reply: bits 1-2 are
   * 0b01 (carrier) or 0b11 (locked); FE_TIMEDOUT reports a failed search.
   */
  function DecodeStatus(statResp: bv8, algo: Algo): (s: FeStatus)
    ensures s.signal == s.carrier == (statResp & 0x02 != 0)
    ensures s.viterbi == s.sync == s.lock == (statResp & 0x06 == 0x06)
    ensures s.timedOut <==> algo == Failed
  {
    LockFlags(statResp).(timedOut := algo == Failed)
  }

  /** Uncorrected blocks: a 16-bit little-endian counter, read only when bit 4 of the status byte is set. */
  function ReadUcblocks(statResp: bv8, a1: bv8, a2: bv8): (ucb: nat)
    ensures ucb < 0x1_0000
    ensures statResp & 0x10 == 0 ==> ucb == 0
    ensures statResp & 0x10 != 0 ==> ucb / 256 == a2 as int && ucb % 256 == a1 as int
  {
    if statResp & 0x10 != 0 then a2 as int * 256 + a1 as int else 0
  }

  // -------------------------------------------------------------- encoders

  /** The DVB-C (Annex A) modulation code; QAM_AUTO and anything unlisted select 0 (auto). */
  function DvbcModulationCode(m: Modulation): (code: bv8)
    ensures code == 0 <==> m !in {Qam16, Qam32, Qam64, Qam128, Qam256}
    ensures code != 0 ==> 0x07 <= code <= 0x0b
  {
    match m
    case Qam16 => 0x07
    case Qam32 => 0x08
    case Qam64 => 0x09
    case Qam128 => 0x0a
    case Qam256 => 0x0b
    case _ => 0x00
  }

  /** Distinct QAM orders get distinct codes. */
  lemma DvbcModulationCodeInjective(m1: Modulation, m2: Modulation)
    requires DvbcModulationCode(m1) != 0 && DvbcModulationCode(m1) == DvbcModulationCode(m2)
    ensures m1 == m2
  {
  }

  /** Annex B (MCNS) uses fixed symbol rates: 5087 kS/s for QAM64 (and default) and 5361 kS/s for QAM256. */
  function McnsSettings(m: Modulation): (r: (bv8, bv8, bv8))
    ensures r.0 as int + 256 * r.1 as int == (if m == Qam256 then 5361 else 5087)
    ensures r.2 == DvbcModulationCode(if m == Qam256 then Qam256 else Qam64)
  {
    if m == Qam256 then (0xf1, 0x14, 0x0b) else (0xdf, 0x13, 0x09)
  }

  // ------------------------------------------------- DVB-S2 PLS gold code

  /**
   * The x-sequence of the DVB-S2 physical-layer scrambler (section 5.5.4 of
   * ETSI EN 302 307-1): x(0) = 1, x(1..17) = 0 and
   * x(i + 18) = x(i + 7) + x(i) modulo 2.
   */
  function X(i: nat): (b: nat)
    ensures b < 2
  {
    if i < 18 then (if i == 0 then 1 else 0) else (X(i - 18) + X(i - 11)) % 2
  }

  /** One shift of the 18-stage register: drop x(k), append x(k + 18). */
  function GoldStep(s: seq<nat>): (t: seq<nat>)
    requires |s| == 18
    ensures |t| == 18
  {
    s[1..] + [(s[0] + s[7]) % 2]
  }

  /** The register after `k` shifts, starting from {1, 0, ..., 0}. */
  function GoldState(k: nat): (s: seq<nat>)
    ensures |s| == 18
  {
    if k == 0 then [1] + seq(17, _ => 0) else GoldStep(GoldState(k - 1))
  }

  /** Sum of s[j] * 2^j over the first `i` stages. */
  function Weighted(s: seq<nat>, i: nat): nat
    requires i <= |s|
  {
    if i == 0 then 0 else Weighted(s, i - 1) + s[i - 1] * Pow2(i - 1)
  }

  /** The scrambling code index for a gold code number (gold_code_index). */
  function GoldIndex(n: nat): nat
  {
    Weighted(GoldState(n), 18)
  }

  /** After `k` shifts the register holds the window x(k) ... x(k + 17) of the x-sequence. */
  lemma {:induction false} GoldStateIsWindow(k: nat)
    ensures forall j :: 0 <= j < 18 ==> GoldState(k)[j] == X(k + j)
  {
    if k > 0 {
      GoldStateIsWindow(k - 1);
      var prev := GoldState(k - 1);
      forall j | 0 <= j < 18 ensures GoldState(k)[j] == X(k + j) {
        if j == 17 {
          assert GoldState(k)[j] == (prev[0] + prev[7]) % 2;
          assert X(k + 17) == (X(k - 1) + X(k + 6)) % 2;
        } else {
          assert GoldState(k)[j] == prev[j + 1];
        }
      }
    }
  }

  lemma {:induction false} WeightedBound(s: seq<nat>, i: nat)
    requires i <= |s| && forall j :: 0 <= j < |s| ==> s[j] < 2
    ensures Weighted(s, i) < Pow2(i)
  {
    if i > 0 {
      WeightedBound(s, i - 1);
    }
  }

  lemma {:induction false} GoldStateBits(k: nat)
    ensures forall j :: 0 <= j < 18 ==> GoldState(k)[j] < 2
  {
    if k > 0 {
      GoldStateBits(k - 1);
    }
  }

  lemma Pow2Of18()
    ensures Pow2(18) == 0x4_0000
  {
    assert Pow2(6) == 64;
    Pow2Add(6, 6);
    Pow2Add(12, 6);
  }

  /**
   * The code index fits the 18-bit PLS field, and gold code 0 is the
   * register's initial state, index 1.
   */
  lemma GoldIndexRange(n: nat)
    ensures GoldIndex(n) < 0x4_0000
    ensures GoldIndex(0) == 1
  {
    GoldStateBits(n);
    WeightedBound(GoldState(n), 18);
    Pow2Of18();
    var s := GoldState(0);
    assert s[0] == 1 && forall j :: 1 <= j < 18 ==> s[j] == 0;
    WeightedOnlyFirst(s, 18);
  }

  lemma {:induction false} WeightedOnlyFirst(s: seq<nat>, i: nat)
    requires 1 <= i <= |s| && s[0] == 1 && forall j :: 1 <= j < |s| ==> s[j] == 0
    ensures Weighted(s, i) == 1
  {
    if i > 1 {
      WeightedOnlyFirst(s, i - 1);
    }
  }

  /** gold_code_index: shifts the register in place `n` times, then weighs its 18 stages. */
  method GoldCodeIndex(n: nat) returns (x: nat)
    ensures x == GoldIndex(n)
  {
    var prbs := new nat[19](i => if i == 0 then 1 else 0);
    assert prbs[..18] == GoldState(0);
    var k := 0;
    while k < n
      invariant 0 <= k <= n
      invariant prbs[..18] == GoldState(k)
      decreases n - k
    {
      ShiftRegister(prbs);
      k := k + 1;
    }
    x := WeighStages(prbs);
  }

  /** One shift of the register: stage 18 gets x0 + x7 mod 2, then every stage moves down by one. */
  method ShiftRegister(prbs: array<nat>)
    requires prbs.Length == 19
    modifies prbs
    ensures prbs[..18] == GoldStep(old(prbs[..18]))
  {
    prbs[18] := (prbs[0] + prbs[7]) % 2;
    ghost var before := prbs[..];
    var i := 0;
    while i < 18
      invariant 0 <= i <= 18
      invariant forall j :: 0 <= j < i ==> prbs[j] == before[j + 1]
      invariant forall j :: i <= j < 19 ==> prbs[j] == before[j]
      decreases 18 - i
    {
      prbs[i] := prbs[i + 1];
      i := i + 1;
    }
    assert prbs[..18] == before[1..18] + [before[18]];
  }

  /** The weighted sum of the first 18 stages, stage j weighing 2^j. */
  method WeighStages(prbs: array<nat>) returns (x: nat)
    requires prbs.Length == 19
    ensures x == Weighted(prbs[..18], 18)
  {
    x := 0;
    var i := 0;
    while i < 18
      invariant 0 <= i <= 18
      invariant x == Weighted(prbs[..18], i)
      decreases 18 - i
    {
      x := x + prbs[i] * Pow2(i);
      i := i + 1;
    }
  }

  // ----------------------------------------------------- DVB-S2 stream id

  /** The PLS mode (bits 26-27 of the stream id), 0 without a stream filter. */
  function PlsMode(sid: nat): (mode: nat)
    ensures mode < 4
  {
    if sid == NO_STREAM_ID_FILTER then 0 else (sid / 0x400_0000) % 4
  }

  /** The PLS code number (bits 8-25 of the stream id), 0 without a stream filter. */
  function PlsNumber(sid: nat): (code: nat)
    ensures code < 0x4_0000
  {
    if sid == NO_STREAM_ID_FILTER then 0 else (sid / 0x100) % 0x4_0000
  }

  /** The root code programmed: the PLS number itself, or its gold index for a non-zero mode. */
  function PlsRootCode(sid: nat): (code: nat)
    ensures code < 0x4_0000
  {
    GoldIndexRange(PlsNumber(sid));
    if PlsMode(sid) != 0 then GoldIndex(PlsNumber(sid)) else PlsNumber(sid)
  }

  /** The SET_PLSCODE command: enable flag, then the code as four little-endian bytes. */
  function PlsCommand(sid: nat): (w: seq<bv8>)
    ensures |w| == 8 && w[0] == 0x73 && w[2] == 0 && w[3] == 0
    ensures w[1] == (if PlsRootCode(sid) > 0 then 1 else 0)
  {
    var code := PlsRootCode(sid);
    [0x73, if code > 0 then 1 else 0, 0, 0] + Le32(code)
  }

  /** The last four bytes of SET_PLSCODE decode, little-endian, to the root code; the top byte is 0. */
  lemma PlsCommandCarriesCode(sid: nat)
    ensures var w := PlsCommand(sid);
      LittleEndian(w[4..8]) == PlsRootCode(sid) && w[7] == 0
  {
    var code := PlsRootCode(sid);
    Le32RoundTrip(code);
    assert PlsCommand(sid)[4..8] == Le32(code);
  }

  /** A u32 as four little-endian bytes: (u8)x, (u8)(x >> 8), (u8)(x >> 16), (u8)(x >> 24). */
  function Le32(x: nat): (b: seq<bv8>)
    ensures |b| == 4
  {
    [Lo8(x), Lo8(x / 0x100), Lo8(x / 0x100 / 0x100), Lo8(x / 0x100 / 0x100 / 0x100)]
  }

  /** The little-endian value of four bytes. */
  lemma LittleEndianFour(b: seq<bv8>)
    requires |b| == 4
    ensures LittleEndian(b) == b[0] as int + 256 * (b[1] as int + 256 * (b[2] as int + 256 * (b[3] as int)))
  {
    assert b[3..][1..] == [];
    assert LittleEndian(b[3..]) == b[3] as int;
    assert b[2..][1..] == b[3..];
    assert LittleEndian(b[2..]) == b[2] as int + 256 * (b[3] as int);
    assert b[1..][1..] == b[2..];
  }

  lemma Le32RoundTrip(x: nat)
    requires x < 0x4_0000
    ensures LittleEndian(Le32(x)) == x && Le32(x)[3] == 0
  {
    var b := Le32(x);
    var q1 := x / 0x100;
    var q2 := q1 / 0x100;
    assert x == 256 * q1 + x % 256;
    assert q1 == 256 * q2 + q1 % 256;
    assert q2 < 4;
    assert b[3] == 0 && b[2] as int == q2;
    assert b[1] as int == q1 % 256 && b[0] as int == x % 256;
    LittleEndianFour(b);
  }

  /**
   * The stream-id byte of SET_DVBS2_STREAMID as written: `stream_id && 0xff`
   * is a logical AND, so the byte is 1 for every non-zero stream id.
   */
  function StreamIdByteAsWritten(sid: nat): (b: bv8)
    ensures b == (if sid != 0 then 1 else 0)
  {
    if sid != 0 && 0xff != 0 then 1 else 0
  }

  /** The input stream id intended there: the low byte of the stream id, as the DVB-T2 setter sends it. */
  function StreamIdByte(sid: nat): (b: bv8)
    ensures b as int == sid % 256
  {
    Lo8(sid)
  }

  /** The two disagree for every stream id whose low byte is neither 0 nor 1 (e.g. input stream 5). */
  lemma StreamIdByteDiscrepancy()
    ensures StreamIdByteAsWritten(5) == 1 && StreamIdByte(5) == 5
    ensures forall sid: nat :: (StreamIdByteAsWritten(sid) == StreamIdByte(sid)) <==>
              (sid % 256 == (if sid != 0 then 1 else 0))
  {
  }

  /**
   * The SET_DVBS2_STREAMID command as the driver builds it: the logical-AND
   * byte, then whether filtering is on.
   */
  function StreamIdCommandAsWritten(sid: nat): (w: seq<bv8>)
    ensures |w| == 3 && w[0] == 0x71
    ensures w[1] == (if sid != 0 then 1 else 0)
    ensures w[2] == (if sid == NO_STREAM_ID_FILTER then 0 else 1)
  {
    [0x71, StreamIdByteAsWritten(sid), if sid == NO_STREAM_ID_FILTER then 0 else 1]
  }

  /** The SET_DVBS2_STREAMID command as intended: input stream id, then whether filtering is on. */
  function StreamIdCommand(sid: nat): (w: seq<bv8>)
    ensures |w| == 3 && w[0] == 0x71
    ensures w[1] as int == sid % 256
    ensures w[2] == (if sid == NO_STREAM_ID_FILTER then 0 else 1)
  {
    [0x71, StreamIdByte(sid), if sid == NO_STREAM_ID_FILTER then 0 else 1]
  }

  // ------------------------------------------------------ command encoding


  const SetAgcTer: Cmd := DemodCommand([0x89, 0x41, 0x06, 0x12, 0x00, 0x00], 3)
  const SetAgcSat: Cmd := DemodCommand([0x8a, 0x1d, 0x12, 0x00, 0x00, 0x00], 3)
  const DspReset: Cmd := DemodCommand([0x85], 1)
  const SleepCmd: Cmd := DemodCommand([0x13], 0)


  /** The delivery-system property byte (0x100a) of each system. */
  function SystemByte(sys: DeliverySystem): bv8
  {
    match sys
    case Dvbt => 0x20
    case Dvbt2 => 0x70
    case Isdbt => 0x40
    case DvbcAnnexA => 0x38
    case DvbcAnnexB => 0x18
    case Dvbs2 => 0x98
    case Dss => 0xa8
    case _ => 0x88
  }

  /** The tuning parameters of the property cache that the setters read. */
  datatype Params = Params(system: DeliverySystem, bandwidthHz: nat, symbolRate: nat,
                           modulation: Modulation, streamId: nat, hierarchyOne: bool)

  /** Every command of the list is a well-formed full-size request. */
  predicate Sendable(cs: seq<Cmd>)
  {
    forall i :: 0 <= i < |cs| ==> ValidCmd(cs[i]) && |cs[i].args| == ARGLEN
  }

  lemma SendableJoin(a: seq<Cmd>, b: seq<Cmd>)
    requires Sendable(a) && Sendable(b)
    ensures Sendable(a + b)
  {
    forall i | 0 <= i < |a + b| ensures ValidCmd((a + b)[i]) && |(a + b)[i].args| == ARGLEN {
      if i >= |a| { assert (a + b)[i] == b[i - |a|]; }
    }
  }

  /** si2183_set_dvbt: AGC, system and bandwidth, hierarchy, and for DVB-T2 stream id and mode. */
  function DvbtCommands(p: Params): (cs: seq<Cmd>)
    ensures Sendable(cs) && |cs| >= 1 && cs[0] == SetAgcTer
    ensures p.bandwidthHz == 0 <==> |cs| == 1
    ensures p.bandwidthHz != 0 ==>
      |cs| >= 3 && cs[1] == PropertyWrite(0x0a, 0x10, SystemByte(DvbtSystem(p)) | BandwidthCode(p.bandwidthHz).value, 0x00)
  {
    match BandwidthCode(p.bandwidthHz)
    case None => [SetAgcTer]
    case Some(bw) =>
      var head := DvbtHead(p, bw);
      var tail := Dvbt2Tail(p);
      SendableJoin(head, tail);
      head + tail
  }

  /** The three commands every DVB-T/T2 setup with a known bandwidth begins with. */
  function DvbtHead(p: Params, bw: bv8): (cs: seq<Cmd>)
    ensures Sendable(cs) && |cs| == 3 && cs[0] == SetAgcTer
  {
    [SetAgcTer, PropertyWrite(0x0a, 0x10, SystemByte(DvbtSystem(p)) | bw, 0x00),
     PropertyWrite(0x01, 0x12, if p.hierarchyOne then 1 else 0, 0x00)]
  }

  /** DVB-T2 only: SET_DVBT2_STREAMID with the low byte of the stream id, then the T2 mode "any". */
  function Dvbt2Tail(p: Params): (cs: seq<Cmd>)
    ensures Sendable(cs) && (|cs| == 2 <==> p.system == Dvbt2) && (|cs| == 0 <==> p.system != Dvbt2)
  {
    if p.system == Dvbt2 then
      [DemodCommand([0x52, Lo8(p.streamId), if p.streamId == NO_STREAM_ID_FILTER then 0 else 1], 1),
       PropertyWrite(0x04, 0x13, 0x00, 0x00)]
    else []
  }

  /** The system programmed by si2183_set_dvbt: DVB-T2 for DVB-T2, DVB-T otherwise. */
  function DvbtSystem(p: Params): DeliverySystem
  {
    if p.system == Dvbt2 then Dvbt2 else Dvbt
  }

  /** si2183_set_dvbt / si2183_set_isdbt return -EINVAL exactly for a zero bandwidth. */
  function BandwidthSetterRet(p: Params): (ret: int)
    ensures ret == 0 || ret == EINVAL
    ensures ret == EINVAL <==> BandwidthCode(p.bandwidthHz).None?
  {
    if p.bandwidthHz == 0 then EINVAL else 0
  }

  /** si2183_set_isdbt: AGC, then the ISDB-T system byte with the bandwidth code. */
  function IsdbtCommands(p: Params): (cs: seq<Cmd>)
    ensures Sendable(cs) && |cs| >= 1 && cs[0] == SetAgcTer && (p.bandwidthHz == 0 <==> |cs| == 1)
  {
    match BandwidthCode(p.bandwidthHz)
    case None => [SetAgcTer]
    case Some(bw) => [SetAgcTer, PropertyWrite(0x0a, 0x10, SystemByte(Isdbt) | bw, 0x00)]
  }

  /** si2183_set_dvbc: AGC, system, modulation code and symbol rate. */
  function DvbcCommands(p: Params): (cs: seq<Cmd>)
    ensures Sendable(cs)
    ensures |cs| == 4 && cs[2].args[..6] == [0x14, 0x00, 0x01, 0x11, DvbcModulationCode(p.modulation), 0x00]
  {
    var sr := SymbolRateBytes(p.symbolRate);
    [SetAgcTer, PropertyWrite(0x0a, 0x10, SystemByte(DvbcAnnexA), 0x00),
     PropertyWrite(0x01, 0x11, DvbcModulationCode(p.modulation), 0x00),
     PropertyWrite(0x02, 0x11, sr.0, sr.1)]
  }

  /** si2183_set_mcns: AGC, system, then the fixed symbol rate and the modulation. */
  function McnsCommands(p: Params): (cs: seq<Cmd>)
    ensures Sendable(cs) && |cs| == 4
  {
    var m := McnsSettings(p.modulation);
    [SetAgcTer, PropertyWrite(0x0a, 0x10, SystemByte(DvbcAnnexB), 0x00),
     PropertyWrite(0x02, 0x16, m.0, m.1), PropertyWrite(0x01, 0x16, m.2, 0x00)]
  }

  /** si2183_set_dvbs: AGC, system, symbol rate, and for DVB-S2 the stream id and PLS code. */
  function DvbsCommands(p: Params): (cs: seq<Cmd>)
    ensures Sendable(cs) && |cs| == (if p.system == Dvbs2 then 5 else 3)
    ensures p.system == Dvbs2 ==>
      cs[3].args[..3] == StreamIdCommandAsWritten(p.streamId) && cs[4].args[..8] == PlsCommand(p.streamId)
  {
    var head := DvbsHead(p);
    var tail := Dvbs2Tail(p);
    SendableJoin(head, tail);
    head + tail
  }

  /** AGC, system and symbol rate, common to DVB-S, DVB-S2 and DSS. */
  function DvbsHead(p: Params): (cs: seq<Cmd>)
    ensures Sendable(cs) && |cs| == 3
  {
    var sys := if p.system in {Dvbs2, Dss} then p.system else Dvbs;
    var sr := SymbolRateBytes(p.symbolRate);
    [SetAgcSat, PropertyWrite(0x0a, 0x10, SystemByte(sys), 0x00),
     PropertyWrite(0x01, if p.system == Dvbs2 then 0x14 else 0x15, sr.0, sr.1)]
  }

  /** DVB-S2 only: the stream id filter as the driver builds it, then the PLS scrambling code. */
  function Dvbs2Tail(p: Params): (cs: seq<Cmd>)
    ensures Sendable(cs) && |cs| == (if p.system == Dvbs2 then 2 else 0)
    ensures p.system == Dvbs2 ==>
      cs[0].args[..3] == StreamIdCommandAsWritten(p.streamId) && cs[1].args[..8] == PlsCommand(p.streamId)
  {
    if p.system == Dvbs2 then [DemodCommand(StreamIdCommandAsWritten(p.streamId), 1), DemodCommand(PlsCommand(p.streamId), 1)]
    else []
  }

  /** The setter chosen by si2183_set_frontend for a delivery system; None for an unsupported one. */
  function SetterCommands(p: Params): (r: Option<seq<Cmd>>)
    ensures r.Some? <==> p.system in {Dvbt, Dvbt2, DvbcAnnexA, DvbcAnnexB, Isdbt, Dvbs, Dvbs2, Dss}
    ensures r.Some? ==> |r.value| >= 1 && forall i :: 0 <= i < |r.value| ==> ValidCmd(r.value[i])
  {
    match p.system
    case Dvbt => Some(DvbtCommands(p))
    case Dvbt2 => Some(DvbtCommands(p))
    case DvbcAnnexA => Some(DvbcCommands(p))
    case DvbcAnnexB => Some(McnsCommands(p))
    case Isdbt => Some(IsdbtCommands(p))
    case Dvbs => Some(DvbsCommands(p))
    case Dvbs2 => Some(DvbsCommands(p))
    case Dss => Some(DvbsCommands(p))
    case _ => None
  }

  /** The return value of si2183_set_frontend. */
  function SetFrontendRet(active: bool, tunerRet: int, p: Params): (ret: int)
  {
    if !active then EAGAIN
    else if tunerRet != 0 then tunerRet
    else if SetterCommands(p).None? then EINVAL
    else 0
  }

  /**
   * set_frontend succeeds for every supported system once the device is
   * active and the tuner accepted its parameters, even when the setter itself
   * returned -EINVAL (a zero bandwidth), since that value is not checked.
   */
  lemma SetFrontendIgnoresSetter(active: bool, tunerRet: int, p: Params)
    ensures (SetFrontendRet(active, tunerRet, p) == 0) <==>
      (active && tunerRet == 0 && p.system in {Dvbt, Dvbt2, DvbcAnnexA, DvbcAnnexB, Isdbt, Dvbs, Dvbs2, Dss})
    ensures active && tunerRet == 0 && p.system == Dvbt && p.bandwidthHz == 0 ==>
      BandwidthSetterRet(p) == EINVAL && SetFrontendRet(active, tunerRet, p) == 0
  {
  }

  // --------------------------------------------------------------- DiSEqC

  /** The flag byte of the DiSEqC command: enable, tone, burst, burst select, end of sequence, length. */
  function DiseqcFlags(tone: bool, burst: bool, sel: bool, last: bool, len: nat): (f: bv8)
    requires len <= 7
    ensures f & 0x01 == 1
    ensures (f & 0x02 != 0) == tone && (f & 0x04 != 0) == burst
    ensures (f & 0x08 != 0) == sel && (f & 0x10 != 0) == last
    ensures (f >> 5) as int == len
  {
    var b := Lo8(len) << 5;
    0x01 | (if tone then 0x02 else 0) | (if burst then 0x04 else 0)
    | (if sel then 0x08 else 0) | (if last then 0x10 else 0) | b
  }

  /** The DiSEqC command (0x8c): flags and up to six message bytes in an eight-byte request. */
  function DiseqcCommand(flags: bv8, chunk: seq<bv8>): (c: Cmd)
    requires |chunk| <= 6
    ensures ValidCmd(c) && c.wlen == 8 && c.rlen == 1 && |c.args| == ARGLEN
    ensures c.args[0] == 0x8c && c.args[1] == flags && c.args[2..2 + |chunk|] == chunk
  {
    var w := [0x8c, flags] + chunk + seq(6 - |chunk|, _ => 0);
    var c := DemodCommand(w, 1);
    assert c.args[..8][2..2 + |chunk|] == chunk;
    assert c.args[0] == c.args[..8][0] && c.args[1] == c.args[..8][1];
    c
  }

  /** The command list of si2183_diseqc_send_msg: six-byte chunks, the last one flagged end of sequence. */
  function MessageCommands(msg: seq<bv8>): (cs: seq<Cmd>)
    decreases |msg|
  {
    if msg == [] then []
    else
      var len := if |msg| > 6 then 6 else |msg|;
      [DiseqcCommand(DiseqcFlags(false, false, false, len == |msg|, len), msg[..len])]
      + MessageCommands(msg[len..])
  }

  /** The chunk carried by a DiSEqC command built by MessageCommands. */
  function ChunkOf(c: Cmd): seq<bv8>
    requires |c.args| >= 8 && (c.args[1] >> 5) <= 6
  {
    c.args[2..2 + (c.args[1] >> 5) as int]
  }

  /** An n-byte message becomes ceil(n/6) commands. */
  lemma {:induction false} MessageChunkCount(msg: seq<bv8>)
    ensures |MessageCommands(msg)| == (|msg| + 5) / 6
    decreases |msg|
  {
    if msg != [] {
      var len := if |msg| > 6 then 6 else |msg|;
      MessageChunkCount(msg[len..]);
    }
  }

  /** What every DiSEqC command of a message looks like; only the last one ends the sequence. */
  predicate ChunkShape(c: Cmd, last: bool)
  {
    ValidCmd(c) && |c.args| == ARGLEN && c.args[0] == 0x8c && (c.args[1] >> 5) <= 6
    && ((c.args[1] & 0x10 != 0) <==> last)
  }

  predicate ChunksShaped(cs: seq<Cmd>)
  {
    forall i :: 0 <= i < |cs| ==> ChunkShape(cs[i], i == |cs| - 1)
  }

  /**
   * Each command carries at most six bytes, and only the last one has the
   * end-of-sequence bit.
   */
  lemma {:induction false} MessageChunkShape(msg: seq<bv8>)
    ensures ChunksShaped(MessageCommands(msg))
    decreases |msg|
  {
    if msg != [] {
      var len := if |msg| > 6 then 6 else |msg|;
      MessageChunkShape(msg[len..]);
      var cs := MessageCommands(msg);
      var rest := MessageCommands(msg[len..]);
      assert cs == [cs[0]] + rest;
      assert len == |msg| <==> rest == [];
      var f := DiseqcFlags(false, false, false, len == |msg|, len);
      assert cs[0] == DiseqcCommand(f, msg[..len]);
      assert ChunkShape(cs[0], 0 == |cs| - 1);
      forall i | 0 <= i < |cs| ensures ChunkShape(cs[i], i == |cs| - 1) {
        if i > 0 {
          assert cs[i] == rest[i - 1];
          assert ChunkShape(rest[i - 1], i - 1 == |rest| - 1) by { assert ChunksShaped(rest); }
        }
      }
    }
  }

  /** Together the commands carry the message, in order. */
  lemma {:induction false} MessageChunkPayloads(msg: seq<bv8>)
    ensures var cs := MessageCommands(msg);
      (forall i :: 0 <= i < |cs| ==> |cs[i].args| >= 8 && (cs[i].args[1] >> 5) <= 6)
      && Payloads(cs) == msg
    decreases |msg|
  {
    MessageChunkShape(msg);
    if msg != [] {
      var len := if |msg| > 6 then 6 else |msg|;
      MessageChunkPayloads(msg[len..]);
      var cs := MessageCommands(msg);
      var rest := MessageCommands(msg[len..]);
      assert cs[1..] == rest;
      assert ChunkOf(cs[0]) == msg[..len];
      assert msg == msg[..len] + msg[len..];
    }
  }

  /** The message bytes carried by a list of DiSEqC commands. */
  function Payloads(cs: seq<Cmd>): seq<bv8>
    requires forall i :: 0 <= i < |cs| ==> |cs[i].args| >= 8 && (cs[i].args[1] >> 5) <= 6
  {
    if cs == [] then [] else ChunkOf(cs[0]) + Payloads(cs[1..])
  }

  /** The chunk of the message from `pos` and the commands after it. */
  lemma ChunkStep(msg: seq<bv8>, pos: nat)
    requires pos < |msg|
    ensures var len := if |msg| - pos > 6 then 6 else |msg| - pos;
      MessageCommands(msg[pos..])
        == [DiseqcCommand(DiseqcFlags(false, false, false, pos + len == |msg|, len), msg[pos..pos + len])]
           + MessageCommands(msg[pos + len..])
  {
    var len := if |msg| - pos > 6 then 6 else |msg| - pos;
    assert msg[pos..][..len] == msg[pos..pos + len];
    assert msg[pos..][len..] == msg[pos + len..];
  }

  /** The chunking loop of si2183_diseqc_send_msg, on a u8 `remaining` count. */
  method ChunkMessage(msg: seq<bv8>) returns (cs: seq<Cmd>)
    requires |msg| < 256
    ensures cs == MessageCommands(msg)
  {
    var remaining := |msg|;
    var pos := 0;
    var len := 0;
    cs := [];
    while remaining > 0
      invariant 0 <= pos <= |msg| && remaining == |msg| - pos
      invariant cs + MessageCommands(msg[pos..]) == MessageCommands(msg)
      decreases remaining
    {
      pos := pos + len;
      len := if remaining > 6 then 6 else remaining;
      remaining := remaining - len;
      var c := DiseqcCommand(DiseqcFlags(false, false, false, remaining == 0, len), msg[pos..pos + len]);
      ChunkStep(msg, pos);
      AppendAssoc(cs, [c], MessageCommands(msg[pos + len..]));
      cs := cs + [c];
      pos := pos + len;
      len := 0;
    }
    assert msg[pos..] == [];
  }

  // ------------------------------------------------------------ blind scan

  const MAX_SR: int := 65000000
  const MIN_SR: int := 100000
  const POLLS: nat := 10

  /** The next symbol rate tried: 20 MS/s lower while above 5 MS/s, 2 MS/s lower below. */
  function NextSr(sr: int): (n: int)
    ensures n < sr
  {
    if sr > 5000000 then sr - 20000000 else sr - 2000000
  }

  /** The symbol rates tried from `sr` on when no attempt locks (a do/while on try_sr > 100000). */
  function Schedule(sr: int): (s: seq<int>)
    ensures |s| >= 1 && s[0] == sr
    decreases if sr > 0 then sr else 0
  {
    [sr] + (if NextSr(sr) > MIN_SR then Schedule(NextSr(sr)) else [])
  }

  /** At most six rates are tried: 65, 45, 25, 5, 3 and 1 MS/s. */
  lemma ScheduleFromMax()
    ensures Schedule(MAX_SR) == [65000000, 45000000, 25000000, 5000000, 3000000, 1000000]
  {
    assert Schedule(1000000) == [1000000];
    assert Schedule(3000000) == [3000000] + Schedule(1000000);
    assert Schedule(5000000) == [5000000] + Schedule(3000000);
    assert Schedule(25000000) == [25000000] + Schedule(5000000);
    assert Schedule(45000000) == [45000000] + Schedule(25000000);
  }

  /**
   * What the chip reports during one attempt, poll by poll: whether each of
   * the three acquisition stages' break condition held, and whether
   * read_status reported FE_HAS_LOCK.  Missing polls count as "not yet".
   */
  datatype Attempt = Attempt(stage1: seq<bool>, stage2: seq<bool>, stage3: seq<bool>, lockPolls: seq<bool>)

  /** An attempt on which the chip never answers a poll positively. */
  const Silent: Attempt := Attempt([], [], [], [])

  function AttemptAt(attempts: seq<Attempt>, k: nat): Attempt
  {
    if k < |attempts| then attempts[k] else Silent
  }

  predicate Hit(s: seq<bool>, i: nat)
  {
    i < |s| && s[i]
  }

  /** The loop counter after `for (i = 0; i < 10; i++) if (cond) break;`, from poll i on. */
  function FirstHit(s: seq<bool>, i: nat): (k: nat)
    requires i <= POLLS
    ensures i <= k <= POLLS
    decreases POLLS - i
  {
    if i == POLLS then POLLS else if Hit(s, i) then i else FirstHit(s, i + 1)
  }

  /** The loop stops at the first poll whose condition holds, and only there. */
  lemma {:induction false} FirstHitIsFirst(s: seq<bool>, i: nat)
    requires i <= POLLS
    ensures var k := FirstHit(s, i);
      (k < POLLS ==> Hit(s, k)) && forall j :: i <= j < k ==> !Hit(s, j)
    decreases POLLS - i
  {
    if i < POLLS && !Hit(s, i) {
      FirstHitIsFirst(s, i + 1);
    }
  }

  /** One bounded poll loop: stops at the first poll whose condition holds, after ten at most. */
  method PollStage(s: seq<bool>) returns (i: nat)
    ensures i == FirstHit(s, 0)
  {
    i := 0;
    while i < POLLS
      invariant 0 <= i <= POLLS
      invariant FirstHit(s, 0) == FirstHit(s, i)
      decreases POLLS - i
    {
      if Hit(s, i) {
        return;
      }
      i := i + 1;
    }
  }

  /** Some poll among the first ten answers positively. */
  predicate Answers(s: seq<bool>)
  {
    exists i :: 0 <= i < POLLS && Hit(s, i)
  }

  /** A poll loop runs out of polls exactly when none of the first ten answers. */
  lemma PollLoopRunsOut(s: seq<bool>)
    ensures FirstHit(s, 0) < POLLS <==> Answers(s)
  {
    FirstHitIsFirst(s, 0);
    if FirstHit(s, 0) < POLLS {
      assert Hit(s, FirstHit(s, 0));
    }
  }

  predicate Locked(a: Attempt)
  {
    Answers(a.lockPolls)
  }

  /** One of the three acquisition stages ran out of polls (the driver then sets SI2183_FAILED). */
  predicate Stalled(a: Attempt)
  {
    !Answers(a.stage1) || !Answers(a.stage2) || !Answers(a.stage3)
  }

  /** The outcome of a blind scan: the rates tried, whether the last one locked, whether any stage stalled. */
  datatype Scan = Scan(tried: seq<int>, locked: bool, stalled: bool)

  function ScanFrom(attempts: seq<Attempt>, k: nat, sr: int): (r: Scan)
    ensures |r.tried| >= 1
    decreases if sr > 0 then sr else 0
  {
    var a := AttemptAt(attempts, k);
    if Locked(a) || NextSr(sr) <= MIN_SR then Scan([sr], Locked(a), Stalled(a))
    else
      var rest := ScanFrom(attempts, k + 1, NextSr(sr));
      Scan([sr] + rest.tried, rest.locked, Stalled(a) || rest.stalled)
  }

  /** One step of the scan: either it stops at this attempt, or it goes on with the next rate. */
  lemma ScanStep(attempts: seq<Attempt>, k: nat, sr: int)
    ensures var a := AttemptAt(attempts, k);
      if Locked(a) || NextSr(sr) <= MIN_SR then ScanFrom(attempts, k, sr) == Scan([sr], Locked(a), Stalled(a))
      else ScanAfter(ScanFrom(attempts, k, sr), [sr], Stalled(a), ScanFrom(attempts, k + 1, NextSr(sr)))
  {
  }

  /** The scan tries the schedule's rates in order; without a lock it tries all of them. */
  lemma {:induction false} ScanFollowsSchedule(attempts: seq<Attempt>, k: nat, sr: int)
    ensures var r := ScanFrom(attempts, k, sr);
      |r.tried| <= |Schedule(sr)| && r.tried == Schedule(sr)[..|r.tried|]
      && (!r.locked ==> r.tried == Schedule(sr))
    decreases if sr > 0 then sr else 0
  {
    ScanStep(attempts, k, sr);
    var a := AttemptAt(attempts, k);
    var r := ScanFrom(attempts, k, sr);
    if !(Locked(a) || NextSr(sr) <= MIN_SR) {
      var rest := ScanFrom(attempts, k + 1, NextSr(sr));
      ScanFollowsSchedule(attempts, k + 1, NextSr(sr));
      assert Schedule(sr) == [sr] + Schedule(NextSr(sr));
      assert r.tried == [sr] + rest.tried;
    }
  }

  /** The scan locked iff its last attempt locked. */
  lemma {:induction false} ScanLockIsLast(attempts: seq<Attempt>, k: nat, sr: int)
    ensures var r := ScanFrom(attempts, k, sr);
      r.locked <==> Locked(AttemptAt(attempts, k + |r.tried| - 1))
    decreases if sr > 0 then sr else 0
  {
    ScanStep(attempts, k, sr);
    var a := AttemptAt(attempts, k);
    if !(Locked(a) || NextSr(sr) <= MIN_SR) {
      ScanLockIsLast(attempts, k + 1, NextSr(sr));
    }
  }

  /** The scan stops at the first attempt that locks: every attempt before the last failed to lock. */
  lemma {:induction false} ScanStopsAtFirstLock(attempts: seq<Attempt>, k: nat, sr: int)
    ensures var r := ScanFrom(attempts, k, sr);
      forall j :: k <= j < k + |r.tried| - 1 ==> !Locked(AttemptAt(attempts, j))
    decreases if sr > 0 then sr else 0
  {
    ScanStep(attempts, k, sr);
    var a := AttemptAt(attempts, k);
    if !(Locked(a) || NextSr(sr) <= MIN_SR) {
      ScanStopsAtFirstLock(attempts, k + 1, NextSr(sr));
    }
  }

  /** From 65 MS/s: one to six attempts, a prefix of 65, 45, 25, 5, 3, 1 MS/s; no lock means all six. */
  lemma BlindScanCandidates(attempts: seq<Attempt>)
    ensures var r := ScanFrom(attempts, 0, MAX_SR);
      1 <= |r.tried| <= 6
      && r.tried == [65000000, 45000000, 25000000, 5000000, 3000000, 1000000][..|r.tried|]
      && (forall j :: 0 <= j < |r.tried| - 1 ==> !Locked(AttemptAt(attempts, j)))
      && (r.locked <==> Locked(AttemptAt(attempts, |r.tried| - 1)))
      && (!r.locked ==> |r.tried| == 6)
  {
    ScheduleFromMax();
    ScanFollowsSchedule(attempts, 0, MAX_SR);
    ScanStopsAtFirstLock(attempts, 0, MAX_SR);
    ScanLockIsLast(attempts, 0, MAX_SR);
  }

  /** `whole` is the scan made of the attempts already `tried` followed by `rest`. */
  ghost predicate ScanAfter(whole: Scan, tried: seq<int>, stalled: bool, rest: Scan)
  {
    whole == Scan(tried + rest.tried, rest.locked, stalled || rest.stalled)
  }

  /**
   * One attempt of the scan loop: the three acquisition stages and the lock
   * poll, each a bounded poll loop of its own.
   */
  method TryAttempt(a: Attempt) returns (stall: bool, lock: bool)
    ensures stall == Stalled(a) && lock == Locked(a)
  {
    var i1 := PollStage(a.stage1);
    var i2 := PollStage(a.stage2);
    var i3 := PollStage(a.stage3);
    PollLoopRunsOut(a.stage1);
    PollLoopRunsOut(a.stage2);
    PollLoopRunsOut(a.stage3);
    stall := i1 == POLLS || i2 == POLLS || i3 == POLLS;
    var i4 := PollStage(a.lockPolls);
    PollLoopRunsOut(a.lockPolls);
    lock := i4 < POLLS;
  }

  /**
   * The do/while loop of si2183_search: one attempt per symbol rate, from
   * 65 MS/s down, until an attempt locks or the rate falls to 100 kS/s.
   */
  method BlindScan(attempts: seq<Attempt>) returns (tried: seq<int>, locked: bool, stalled: bool)
    ensures Scan(tried, locked, stalled) == ScanFrom(attempts, 0, MAX_SR)
  {
    ghost var scan := ScanFrom(attempts, 0, MAX_SR);
    var trySr := MAX_SR;
    var k := 0;
    var more := true;
    tried, locked, stalled := [], false, false;
    while more
      invariant more ==> trySr > MIN_SR
      invariant more ==> ScanAfter(scan, tried, stalled, ScanFrom(attempts, k, trySr))
      invariant !more ==> scan == Scan(tried, locked, stalled)
      decreases more, if trySr > 0 then trySr else 0
    {
      ScanAdvance(scan, tried, stalled, attempts, k, trySr);
      var stall, lock := TryAttempt(AttemptAt(attempts, k));
      tried := tried + [trySr];
      stalled := stalled || stall;
      locked := lock;
      trySr := if trySr > 5000000 then trySr - 20000000 else trySr - 2000000;
      k := k + 1;
      more := trySr > MIN_SR && !locked;
    }
  }

  /** The loop invariant of BlindScan carried across one attempt. */
  lemma ScanAdvance(scan: Scan, tried: seq<int>, stalled: bool, attempts: seq<Attempt>, k: nat, sr: int)
    requires ScanAfter(scan, tried, stalled, ScanFrom(attempts, k, sr))
    ensures var a := AttemptAt(attempts, k);
      if Locked(a) || NextSr(sr) <= MIN_SR then scan == Scan(tried + [sr], Locked(a), stalled || Stalled(a))
      else ScanAfter(scan, tried + [sr], stalled || Stalled(a), ScanFrom(attempts, k + 1, NextSr(sr)))
  {
    ScanStep(attempts, k, sr);
    var a := AttemptAt(attempts, k);
    if !(Locked(a) || NextSr(sr) <= MIN_SR) {
      AppendAssoc(tried, [sr], ScanFrom(attempts, k + 1, NextSr(sr)).tried);
    }
  }

  // ----------------------------------------------------- device lifecycle

  /** The bit of frontend `id` in the u8 active-frontend mask (`1 << fe->id` stored in a u8). */
  function FeBit(id: nat): (b: bv8)
    requires id < 32
    ensures id < 8 ==> b != 0 && b & (b - 1) == 0
    ensures id >= 8 ==> b == 0
  {
    if id < 8 then (1 as bv8) << id else 0
  }

  /** The chip id 'B', 83, '6', '0' of an Si2183-B60. */
  const SI2183_B60: int := 0x42533630

  /**
   * The results of a boot's steps: the return code of each checked command
   * in order, the chip id, the result of the firmware request, the firmware
   * image and the bus exchanges of its records.
   */
  datatype BootResults = BootResults(
    initRet: int, resumeRet: int, dspResetRet: int, powerOnRet: int, revisionRet: int,
    chipId: int, firmwareRet: int, fw: seq<bv8>, envs: seq<Exchange>, rebootRet: int, fwVerRet: int)

  /** The return code of init and whether it activated the chip and left the firmware loaded. */
  datatype InitOutcome = InitOutcome(ret: int, activated: bool, loaded: bool)

  predicate BootScripted(b: BootResults)
  {
    Scripted(Image(b.fw, Framed17, ARGLEN).cmds, b.envs)
  }

  /**
   * The boot as written: every `goto err` after a failed command returns
   * `ret`, which still holds 0 there, and a firmware record whose length
   * exceeds the argument buffer sets ret to -EINVAL but does not stop the
   * boot, because the check after the loop looks at the last command's
   * result instead; that -EINVAL surfaces only if reboot or the version
   * query then fails.
   */
  function InitResultAsWritten(fwLoaded: bool, b: BootResults): (o: InitOutcome)
    requires BootScripted(b)
    ensures o.ret != 0 ==> !o.activated && (o.ret == EINVAL || o.ret == b.firmwareRet)
  {
    if b.initRet != 0 then InitOutcome(0, false, fwLoaded)
    else if fwLoaded then
      if b.resumeRet != 0 || b.dspResetRet != 0 then InitOutcome(0, false, true)
      else InitOutcome(0, true, true)
    else ColdResultAsWritten(b)
  }

  /** The cold path of the boot as written, after a successful INIT; it loads the firmware iff it activates. */
  function ColdResultAsWritten(b: BootResults): (o: InitOutcome)
    requires BootScripted(b)
    ensures o.loaded == o.activated
  {
    if b.powerOnRet != 0 || b.revisionRet != 0 then InitOutcome(0, false, false)
    else if b.chipId != SI2183_B60 then InitOutcome(EINVAL, false, false)
    else if b.firmwareRet != 0 then InitOutcome(b.firmwareRet, false, false)
    else if RunAll(ErrorBitChecked, Image(b.fw, Framed17, ARGLEN).cmds, b.envs).ret != 0 then
      InitOutcome(0, false, false)
    else if b.rebootRet != 0 || b.fwVerRet != 0 then
      InitOutcome(if Image(b.fw, Framed17, ARGLEN).bad then EINVAL else 0, false, false)
    else InitOutcome(0, true, true)
  }

  /** The boot with the failing step's code returned and a bad firmware record treated as a failure. */
  function InitResult(fwLoaded: bool, b: BootResults): (o: InitOutcome)
    requires BootScripted(b)
  {
    if b.initRet != 0 then InitOutcome(b.initRet, false, fwLoaded)
    else if fwLoaded then
      if b.resumeRet != 0 then InitOutcome(b.resumeRet, false, true)
      else if b.dspResetRet != 0 then InitOutcome(b.dspResetRet, false, true)
      else InitOutcome(0, true, true)
    else if b.powerOnRet != 0 then InitOutcome(b.powerOnRet, false, false)
    else if b.revisionRet != 0 then InitOutcome(b.revisionRet, false, false)
    else if b.chipId != SI2183_B60 then InitOutcome(EINVAL, false, false)
    else if b.firmwareRet != 0 then InitOutcome(b.firmwareRet, false, false)
    else
      var d := DownloadRet(ErrorBitChecked, Image(b.fw, Framed17, ARGLEN), b.envs);
      if d != 0 then InitOutcome(d, false, false)
      else if b.rebootRet != 0 then InitOutcome(b.rebootRet, false, false)
      else if b.fwVerRet != 0 then InitOutcome(b.fwVerRet, false, false)
      else InitOutcome(0, true, true)
  }

  /** The steps of a boot that must succeed for the chip to come up. */
  predicate BootSucceeds(fwLoaded: bool, b: BootResults)
    requires BootScripted(b)
  {
    b.initRet == 0
    && (if fwLoaded then b.resumeRet == 0 && b.dspResetRet == 0
        else (b.powerOnRet == 0 && b.revisionRet == 0 && b.chipId == SI2183_B60 && b.firmwareRet == 0
              && DownloadRet(ErrorBitChecked, Image(b.fw, Framed17, ARGLEN), b.envs) == 0
              && b.rebootRet == 0 && b.fwVerRet == 0))
  }

  /**
   * The corrected boot reports success exactly when it activates the chip,
   * which is exactly when every step succeeded; the firmware counts as
   * loaded afterwards iff it was loaded before or the boot succeeded.
   */
  lemma InitResultReportsFailures(fwLoaded: bool, b: BootResults)
    requires BootScripted(b)
    ensures var o := InitResult(fwLoaded, b);
      (o.ret == 0 <==> o.activated) && (o.activated <==> BootSucceeds(fwLoaded, b))
      && (o.loaded <==> fwLoaded || o.activated)
  {
  }

  /**
   * The boot as written activates the chip only when the corrected boot
   * does, or when the only failure was a bad firmware record; and it
   * returns 0 on every failed command.
   */
  lemma InitAsWrittenHidesFailures(fwLoaded: bool, b: BootResults)
    requires BootScripted(b)
    ensures var o, c := InitResultAsWritten(fwLoaded, b), InitResult(fwLoaded, b);
      (c.activated ==> o.activated && o.ret == 0)
      && (o.activated && !c.activated ==> Image(b.fw, Framed17, ARGLEN).bad)
      && (b.initRet != 0 ==> o.ret == 0 && c.ret == b.initRet)
  {
  }

  /** A failing INIT command: the driver returns 0 and leaves the chip inactive. */
  lemma InitFailureReportedAsSuccess()
    ensures var b := BootResults(EREMOTEIO, 0, 0, 0, 0, SI2183_B60, 0, [], [], 0, 0);
      BootScripted(b)
      && InitResultAsWritten(false, b) == InitOutcome(0, false, false)
      && InitResult(false, b) == InitOutcome(EREMOTEIO, false, false)
  {
    var b := BootResults(EREMOTEIO, 0, 0, 0, 0, SI2183_B60, 0, [], [], 0, 0);
    assert Image(b.fw, Framed17, ARGLEN) == Walk([], false);
  }

  /** A first firmware record with length byte 31: the driver boots and marks the firmware loaded. */
  lemma BadRecordIgnored()
    ensures var b := BootResults(0, 0, 0, 0, 0, SI2183_B60, 0, [31], [], 0, 0);
      BootScripted(b)
      && InitResultAsWritten(false, b) == InitOutcome(0, true, true)
      && InitResult(false, b) == InitOutcome(EINVAL, false, false)
  {
    var b := BootResults(0, 0, 0, 0, 0, SI2183_B60, 0, [31], [], 0, 0);
    assert Image(b.fw, Framed17, ARGLEN) == Walk([], true);
  }

  /** The device options init uses: the clock start mode and the TS bus settings. */
  datatype Config = Config(startClkMode: int, tsMode: bv8, tsClockInv: bool, tsClockGapped: bool)

  const InitTemplate: seq<bv8> := [0xc0, 0x12, 0x00, 0x0c, 0x00, 0x0d, 0x16, 0x00, 0x00, 0x00, 0x00, 0x00, 0x00]

  /** SI2183_INIT as sent first, whatever the clock start mode. */
  const InitProbeCmd: Cmd := DemodCommand(InitTemplate, 0)

  /** SI2183_INIT as sent the second time: start_clk_mode 1 clears byte 3 and sets byte 5 to 6. */
  function InitCmd(cfg: Config): (c: Cmd)
    ensures ValidCmd(c) && c.wlen == 13 && c.rlen == 0
    ensures cfg.startClkMode != 1 ==> c == InitProbeCmd
    ensures cfg.startClkMode == 1 ==> c.args[..13] == InitTemplate[3 := 0][5 := 0x06]
  {
    if cfg.startClkMode == 1 then DemodCommand(InitTemplate[3 := 0][5 := 0x06], 0) else InitProbeCmd
  }

  /** SI2183_RESUME; start_clk_mode 1 sets byte 6 to 0x31. */
  function ResumeCmd(cfg: Config): (c: Cmd)
    ensures ValidCmd(c) && c.wlen == 8 && c.rlen == 1
    ensures c.args[..8] == [0xc0, 0x06, 0x08, 0x0f, 0x00, 0x20, if cfg.startClkMode == 1 then 0x31 else 0x21, 0x01]
  {
    DemodCommand([0xc0, 0x06, 0x08, 0x0f, 0x00, 0x20, if cfg.startClkMode == 1 then 0x31 else 0x21, 0x01], 1)
  }

  const PowerOnCmd: Cmd := DemodCommand([0xc0, 0x06, 0x01, 0x0f, 0x00, 0x20, 0x20, 0x01], 1)
  const RevisionCmd: Cmd := DemodCommand([0x02], 13)
  const RebootCmd: Cmd := DemodCommand([0x01, 0x01], 1)
  const FwVerCmd: Cmd := DemodCommand([0x11], 10)

  /**
   * The settings init sends after the version query, results ignored: TS
   * mode (with the configured mode and the gapped-clock bit 0x40), FER
   * resolution, DD interrupt enable, interrupt sense, SQI computation, then
   * the TS parallel and serial settings (bit 0x10 of byte 5 set unless the
   * TS clock is inverted) and their second words.
   */
  function SettingsCmds(cfg: Config): (cs: seq<Cmd>)
    ensures |cs| == 9 && forall i :: 0 <= i < 9 ==> ValidCmd(cs[i]) && cs[i].wlen == 6 && |cs[i].args| == ARGLEN && cs[i].args[0] == 0x14
    ensures cs[0].args[4] == 0x10 | cfg.tsMode | (if cfg.tsClockGapped then 0x40 else 0)
    ensures cs[5].args[5] & 0x10 != 0 <==> !cfg.tsClockInv
  {
    var clk: bv8 := if cfg.tsClockInv then 0x00 else 0x10;
    [PropertyWrite(0x01, 0x10, 0x10 | cfg.tsMode | (if cfg.tsClockGapped then 0x40 else 0), 0x00),
     PropertyWrite(0x0c, 0x10, 0x12, 0x00),
     PropertyWrite(0x06, 0x10, 0x00, 0x00),
     PropertyWrite(0x07, 0x10, 0x00, 0x20),
     PropertyWrite(0x0f, 0x10, 0x1e, 0x00),
     PropertyWrite(0x09, 0x10, 0x04, 0x01 | clk),
     PropertyWrite(0x08, 0x10, 0x0c, 0x23 | clk),
     PropertyWrite(0x15, 0x10, 0xe3, 0x08),
     PropertyWrite(0x16, 0x10, 0xc7, 0x01)]
  }

  /** Four bytes joined most significant first. */
  function JoinBytes(b1: nat, b2: nat, b3: nat, b4: nat): nat
  {
    ((b1 * 256 + b2) * 256 + b3) * 256 + b4
  }

  /** The lowest byte of a joined word and the word above it can be read back. */
  lemma SplitLowByte(hi: int, lo: int)
    requires 0 <= lo < 256
    ensures (hi * 256 + lo) % 256 == lo && (hi * 256 + lo) / 256 == hi
  {
  }

  /** Byte-wise comparison with the Si2183-B60 id: the joined word is it exactly when every byte is. */
  lemma JoinBytesIsB60(b1: nat, b2: nat, b3: nat, b4: nat)
    requires b1 < 256 && b2 < 256 && b3 < 256 && b4 < 256
    ensures JoinBytes(b1, b2, b3, b4) == SI2183_B60 <==> b1 == 0x42 && b2 == 83 && b3 == 0x36 && b4 == 0x30
  {
    SplitLowByte((b1 * 256 + b2) * 256 + b3, b4);
    SplitLowByte(b1 * 256 + b2, b3);
    SplitLowByte(b1, b2);
  }

  /** The chip id of a GET_REVISION reply: bytes 1 to 4, most significant first. */
  function ChipIdOf(a: seq<bv8>): (id: nat)
    requires |a| >= 5
    ensures id == SI2183_B60 <==> a[1] == 0x42 && a[2] == 83 && a[3] == 0x36 && a[4] == 0x30
  {
    var b1, b2, b3, b4 := a[1] as nat, a[2] as nat, a[3] as nat, a[4] as nat;
    JoinBytesIsB60(b1, b2, b3, b4);
    JoinBytes(b1, b2, b3, b4)
  }

  /**
   * What the chip answers during a boot: one exchange per command (INIT is
   * sent twice), the result of the firmware request, the firmware image, the
   * exchanges of its records and those of the nine settings.
   */
  datatype Boot = Boot(
    initProbe: Exchange, init: Exchange, resume: Exchange, dspReset: Exchange, powerOn: Exchange,
    revision: Exchange, firmwareRet: int, fw: seq<bv8>, envs: seq<Exchange>,
    reboot: Exchange, fwVer: Exchange, settings: seq<Exchange>)

  predicate BusScripted(b: Boot)
  {
    Scripted(Image(b.fw, Framed17, ARGLEN).cmds, b.envs) && |b.settings| == 9
  }

  /** The result of each checked step of a boot, read off the chip's answers. */
  function ResultsOf(cfg: Config, b: Boot): (r: BootResults)
    requires BusScripted(b)
    ensures BootScripted(r) && r.fw == b.fw && r.envs == b.envs && r.firmwareRet == b.firmwareRet
    ensures r.initRet == Execute(ErrorBitChecked, InitCmd(cfg), b.init).ret
  {
    var rv := Execute(ErrorBitChecked, RevisionCmd, b.revision);
    ExecuteKeepsSize(ErrorBitChecked, RevisionCmd, b.revision);
    BootResults(
      Execute(ErrorBitChecked, InitCmd(cfg), b.init).ret, Execute(ErrorBitChecked, ResumeCmd(cfg), b.resume).ret,
      Execute(ErrorBitChecked, DspReset, b.dspReset).ret, Execute(ErrorBitChecked, PowerOnCmd, b.powerOn).ret,
      rv.ret, ChipIdOf(rv.args), b.firmwareRet, b.fw, b.envs,
      Execute(ErrorBitChecked, RebootCmd, b.reboot).ret, Execute(ErrorBitChecked, FwVerCmd, b.fwVer).ret)
  }

  /**
   * The writes of a boot, in order: INIT twice, then the resume and DSP
   * reset of a loaded chip or the cold path; each failing checked step ends
   * the list.
   */
  function InitSent(cfg: Config, fwLoaded: bool, b: Boot): (w: seq<seq<bv8>>)
    requires BusScripted(b)
    ensures |w| >= 2 && w[0] == InitTemplate && w[1] == InitCmd(cfg).args[..13]
  {
    Written(InitProbeCmd) + Written(InitCmd(cfg)) + (if ResultsOf(cfg, b).initRet != 0 then [] else BootSent(cfg, fwLoaded, b))
  }

  /** The writes after INIT: the resume and DSP reset of a loaded chip, or the cold path. */
  function BootSent(cfg: Config, fwLoaded: bool, b: Boot): (w: seq<seq<bv8>>)
    requires BusScripted(b)
  {
    if !fwLoaded then ColdSent(cfg, b)
    else Written(ResumeCmd(cfg)) + (if ResultsOf(cfg, b).resumeRet != 0 then [] else Written(DspReset))
  }

  /**
   * The writes of a cold boot: power on, the revision query, the image
   * records issued, reboot, the version query and the nine settings.  A bad
   * record does not end the list; a failed record does.
   */
  function ColdSent(cfg: Config, b: Boot): (w: seq<seq<bv8>>)
    requires BusScripted(b)
    ensures |w| >= 1 && w[0] == PowerOnCmd.args[..8]
  {
    Written(PowerOnCmd) + (if ResultsOf(cfg, b).powerOnRet != 0 then [] else RevisionSent(cfg, b))
  }

  /** The writes from the revision query on; the image is requested only for an Si2183-B60. */
  function RevisionSent(cfg: Config, b: Boot): (w: seq<seq<bv8>>)
    requires BusScripted(b)
  {
    var r := ResultsOf(cfg, b);
    Written(RevisionCmd) + (if r.revisionRet != 0 || r.chipId != SI2183_B60 || r.firmwareRet != 0 then [] else ImageSent(cfg, b))
  }

  /** The image records issued, then, when none failed, the rest of the boot. */
  function ImageSent(cfg: Config, b: Boot): (w: seq<seq<bv8>>)
    requires BusScripted(b)
  {
    var cmds := Image(b.fw, Framed17, ARGLEN).cmds;
    var run := RunAll(ErrorBitChecked, cmds, b.envs);
    WrittenAll(cmds[..run.issued]) + (if run.ret != 0 then [] else AfterImageSent(cfg, ResultsOf(cfg, b)))
  }

  /** The writes after the image: reboot, the version query and the settings. */
  function AfterImageSent(cfg: Config, r: BootResults): (w: seq<seq<bv8>>)
    ensures |w| >= 1 && w[0] == RebootCmd.args[..2]
  {
    Written(RebootCmd) + (if r.rebootRet != 0 then [] else VersionSent(cfg, r))
  }

  /** The version query and, when it succeeds, the settings. */
  function VersionSent(cfg: Config, r: BootResults): (w: seq<seq<bv8>>)
  {
    Written(FwVerCmd) + (if r.fwVerRet != 0 then [] else WrittenAll(SettingsCmds(cfg)))
  }

  /**
   * A cold boot that activates the chip has sent INIT twice, powered on,
   * queried the revision, issued every record before the first bad one,
   * rebooted, queried the version and sent the nine settings.
   */
  lemma ColdBootSendsImage(cfg: Config, b: Boot)
    requires BusScripted(b) && InitResultAsWritten(false, ResultsOf(cfg, b)).activated
    ensures InitSent(cfg, false, b) == Written(InitProbeCmd) + Written(InitCmd(cfg)) + Written(PowerOnCmd)
      + Written(RevisionCmd) + WrittenAll(Image(b.fw, Framed17, ARGLEN).cmds) + Written(RebootCmd)
      + Written(FwVerCmd) + WrittenAll(SettingsCmds(cfg))
  {
    var r := ResultsOf(cfg, b);
    var cmds := Image(b.fw, Framed17, ARGLEN).cmds;
    assert r.initRet == 0 && r.powerOnRet == 0 && r.revisionRet == 0 && r.chipId == SI2183_B60 && r.firmwareRet == 0;
    assert RunAll(ErrorBitChecked, cmds, b.envs).ret == 0 && r.rebootRet == 0 && r.fwVerRet == 0;
    RunAllSucceeds(ErrorBitChecked, cmds, b.envs);
    assert cmds[..|cmds|] == cmds;
    var a, c, d, e := Written(InitProbeCmd) + Written(InitCmd(cfg)), Written(PowerOnCmd), Written(RevisionCmd), WrittenAll(cmds);
    var f, g, h := Written(RebootCmd), Written(FwVerCmd), WrittenAll(SettingsCmds(cfg));
    assert AfterImageSent(cfg, r) == f + (g + h);
    assert ImageSent(cfg, b) == e + (f + (g + h));
    assert ColdSent(cfg, b) == c + (d + (e + (f + (g + h))));
    assert InitSent(cfg, false, b) == a + ColdSent(cfg, b);
    AppendAssoc(a, c, d + (e + (f + (g + h))));
    AppendAssoc(a + c, d, e + (f + (g + h)));
    AppendAssoc(a + c + d, e, f + (g + h));
    AppendAssoc(a + c + d + e, f, g + h);
    AppendAssoc(a + c + d + e + f, g, h);
  }

  /** SEC_TONE_ON / SEC_TONE_OFF and SEC_MINI_A / SEC_MINI_B. */
  const SEC_TONE_ON: int := 0
  const SEC_TONE_OFF: int := 1
  const SEC_MINI_A: int := 0
  const SEC_MINI_B: int := 1

  /** The DiSEqC flag byte of si2183_set_tone; None (-EINVAL) for an unknown tone mode. */
  function ToneFlags(tone: int): (f: Option<bv8>)
    ensures f.Some? <==> tone in {SEC_TONE_ON, SEC_TONE_OFF}
    ensures f.Some? ==> ((f.value & 0x02 != 0) == (tone == SEC_TONE_ON) && f.value & 0x04 == 0
      && f.value & 0x10 != 0 && f.value >> 5 == 0)
  {
    if tone == SEC_TONE_ON then Some(DiseqcFlags(true, false, false, true, 0))
    else if tone == SEC_TONE_OFF then Some(DiseqcFlags(false, false, false, true, 0))
    else None
  }

  /** The DiSEqC flag byte of si2183_diseqc_send_burst; None (-EINVAL) for an unknown burst. */
  function BurstFlags(burst: int): (f: Option<bv8>)
    ensures f.Some? <==> burst in {SEC_MINI_A, SEC_MINI_B}
    ensures f.Some? ==> (f.value & 0x04 != 0 && (f.value & 0x08 != 0) == (burst == SEC_MINI_B)
      && f.value & 0x02 == 0 && f.value & 0x10 != 0 && f.value >> 5 == 0)
  {
    if burst == SEC_MINI_A then Some(DiseqcFlags(false, true, false, true, 0))
    else if burst == SEC_MINI_B then Some(DiseqcFlags(false, true, true, true, 0))
    else None
  }

  /** The state of one Si2183 frontend and the chip's command channel. */
  class Demod {
    var algo: Algo
    var warm: bool
    var active: bool
    var activeFe: bv8
    var deliverySystem: DeliverySystem
    var feStatus: FeStatus
    var statResp: bv8
    var cnr: Stat
    var strength: Stat
    var fwLoaded: bool
    const cfg: Config
    const chan: Channel

    constructor (config: Config)
      ensures algo == NoTune && !warm && !active && activeFe == 0 && !fwLoaded && cfg == config
      ensures fresh(chan) && !chan.held && chan.sent == []
    {
      cfg := config;
      algo, warm, active, activeFe := NoTune, false, false, 0;
      deliverySystem, feStatus, statResp := SysUndefined, NoStatus, 0;
      cnr, strength, fwLoaded := DefaultStat, DefaultStat, false;
      chan := new Channel();
    }

    /** si2183_get_frontend_algo: the custom search runs only after dtv_tune armed it. */
    function GetFrontendAlgo(): (r: FrontendAlgo)
      reads this
      ensures r == AlgoCustom <==> algo == Tune
      ensures r != AlgoCustom ==> r == AlgoNotune
    {
      if algo == Tune then AlgoCustom else AlgoNotune
    }

    /** si2183_dtv_tune: arms the search. */
    method DtvTune() returns (ret: int)
      modifies this`algo
      ensures algo == Tune && ret == 0
    {
      algo := Tune;
      ret := 0;
    }

    /**
     * si2183_init.  While another frontend of the chip is active only this
     * frontend's bit is added.  Otherwise the chip is booted: INIT (twice),
     * then a resume when its firmware is already loaded, else power on,
     * the revision query and the firmware image, reboot, the version query
     * and the settings.  The return code is the driver's (see
     * InitResultAsWritten): 0 after a failed command, -EINVAL for an
     * unknown chip, the firmware request's error, and -EINVAL after a bad
     * firmware record only when a later command fails.
     */
    method Init(id: nat, b: Boot) returns (ret: int)
      requires id < 32 && !chan.held && BusScripted(b)
      modifies this`algo, this`warm, this`active, this`activeFe, this`fwLoaded, chan
      ensures algo == NoTune && !warm && !chan.held
      ensures old(activeFe) != 0 ==> (ret == 0 && active == old(active) && fwLoaded == old(fwLoaded)
        && activeFe == old(activeFe) | FeBit(id) && chan.sent == old(chan.sent))
      ensures old(activeFe) == 0 ==>
        var o := InitResultAsWritten(old(fwLoaded), ResultsOf(cfg, b));
        ret == o.ret && fwLoaded == o.loaded
        && (o.activated ==> active && activeFe == FeBit(id))
        && (!o.activated ==> active == old(active) && activeFe == 0)
        && chan.sent == old(chan.sent) + InitSent(cfg, old(fwLoaded), b)
    {
      algo := NoTune;
      warm := false;
      if activeFe != 0 {
        activeFe := activeFe | FeBit(id);
        return 0;
      }
      ret := BootChip(id, b);
    }

    /** The boot of init, once no frontend of the chip is active. */
    method BootChip(id: nat, b: Boot) returns (ret: int)
      requires id < 32 && !chan.held && BusScripted(b) && activeFe == 0
      modifies this`active, this`activeFe, this`fwLoaded, chan
      ensures !chan.held
      ensures var o := InitResultAsWritten(old(fwLoaded), ResultsOf(cfg, b));
        ret == o.ret && fwLoaded == o.loaded
        && (o.activated ==> active && activeFe == FeBit(id))
        && (!o.activated ==> active == old(active) && activeFe == 0)
      ensures chan.sent == old(chan.sent) + InitSent(cfg, old(fwLoaded), b)
    {
      ghost var res := ResultsOf(cfg, b);
      var _ := chan.Exec(ErrorBitChecked, InitProbeCmd, b.initProbe);
      var o := chan.Exec(ErrorBitChecked, InitCmd(cfg), b.init);
      ghost var boot := Written(InitProbeCmd) + Written(InitCmd(cfg));
      AppendAssoc(old(chan.sent), Written(InitProbeCmd), Written(InitCmd(cfg)));
      if o.ret != 0 {
        assert InitSent(cfg, fwLoaded, b) == boot + [];
        return 0;
      }
      assert InitSent(cfg, fwLoaded, b) == boot + BootSent(cfg, fwLoaded, b);
      AppendAssoc(old(chan.sent), boot, BootSent(cfg, fwLoaded, b));
      if fwLoaded {
        var ok := Resume(b);
        if !ok {
          return 0;
        }
      } else {
        ret := ColdBoot(b);
        if !fwLoaded {
          return ret;
        }
      }
      active := true;
      activeFe := activeFe | FeBit(id);
      ret := 0;
    }

    /** The warm path of init after INIT: resume, then the DSP reset; the driver returns 0 when either fails. */
    method Resume(b: Boot) returns (ok: bool)
      requires !chan.held && BusScripted(b)
      modifies chan
      ensures !chan.held
      ensures var r := ResultsOf(cfg, b); ok == (r.resumeRet == 0 && r.dspResetRet == 0)
      ensures chan.sent == old(chan.sent) + BootSent(cfg, true, b)
    {
      ghost var res := ResultsOf(cfg, b);
      var o := chan.Exec(ErrorBitChecked, ResumeCmd(cfg), b.resume);
      if o.ret != 0 {
        assert res.resumeRet != 0;
        assert BootSent(cfg, true, b) == Written(ResumeCmd(cfg)) + [];
        return false;
      }
      AppendAssoc(old(chan.sent), Written(ResumeCmd(cfg)), Written(DspReset));
      o := chan.Exec(ErrorBitChecked, DspReset, b.dspReset);
      assert res.resumeRet == 0 && o.ret == res.dspResetRet;
      assert BootSent(cfg, true, b) == Written(ResumeCmd(cfg)) + Written(DspReset);
      ok := o.ret == 0;
    }

    /**
     * The cold path of init after INIT: power on, the revision query, the
     * chip check, the firmware request and image, reboot, the version query
     * and the settings; marks the firmware loaded when it gets to the end.
     */
    method ColdBoot(b: Boot) returns (ret: int)
      requires !chan.held && BusScripted(b) && !fwLoaded && ResultsOf(cfg, b).initRet == 0
      modifies this`fwLoaded, chan
      ensures !chan.held
      ensures var o := ColdResultAsWritten(ResultsOf(cfg, b)); ret == o.ret && fwLoaded == o.activated
      ensures chan.sent == old(chan.sent) + ColdSent(cfg, b)
    {
      ghost var res := ResultsOf(cfg, b);
      ghost var s0 := chan.sent;
      var o := chan.Exec(ErrorBitChecked, PowerOnCmd, b.powerOn);
      if o.ret != 0 {
        assert res.powerOnRet != 0;
        return 0;
      }
      ghost var s1 := chan.sent;
      AppendAssoc(s0, Written(PowerOnCmd), RevisionSent(cfg, b));
      o := chan.Exec(ErrorBitChecked, RevisionCmd, b.revision);
      ExecuteKeepsSize(ErrorBitChecked, RevisionCmd, b.revision);
      assert o.ret == res.revisionRet && ChipIdOf(o.args) == res.chipId;
      if o.ret != 0 {
        return 0;
      }
      if ChipIdOf(o.args) != SI2183_B60 {
        return EINVAL;
      }
      if b.firmwareRet != 0 {
        return b.firmwareRet;
      }
      AppendAssoc(s1, Written(RevisionCmd), ImageSent(cfg, b));
      ret := LoadFirmware(b);
    }

    /**
     * The firmware download and what follows it: every record up to the
     * first bad length or failed record, then reboot, the version query and
     * the settings; a bad record leaves -EINVAL pending for a later failure.
     */
    method LoadFirmware(b: Boot) returns (ret: int)
      requires !chan.held && BusScripted(b) && !fwLoaded
      requires var r := ResultsOf(cfg, b);
        r.powerOnRet == 0 && r.revisionRet == 0 && r.chipId == SI2183_B60 && r.firmwareRet == 0
      modifies this`fwLoaded, chan
      ensures !chan.held
      ensures var o := ColdResultAsWritten(ResultsOf(cfg, b)); ret == o.ret && fwLoaded == o.activated
      ensures chan.sent == old(chan.sent) + ImageSent(cfg, b)
    {
      ghost var res := ResultsOf(cfg, b);
      var w := ParseImage(b.fw, Framed17, ARGLEN);
      var r := chan.RunSequence(ErrorBitChecked, w.cmds, b.envs);
      if r.ret != 0 {
        return 0;
      }
      ghost var s3 := chan.sent;
      AppendAssoc(old(chan.sent), WrittenAll(w.cmds[..r.issued]), AfterImageSent(cfg, res));
      ret := if w.bad then EINVAL else 0;
      var o := chan.Exec(ErrorBitChecked, RebootCmd, b.reboot);
      if o.ret != 0 {
        assert res.rebootRet != 0;
        return ret;
      }
      ghost var s4 := chan.sent;
      AppendAssoc(s3, Written(RebootCmd), VersionSent(cfg, res));
      o := chan.Exec(ErrorBitChecked, FwVerCmd, b.fwVer);
      if o.ret != 0 {
        assert res.fwVerRet != 0;
        return ret;
      }
      AppendAssoc(s4, Written(FwVerCmd), WrittenAll(SettingsCmds(cfg)));
      chan.RunEach(ErrorBitChecked, SettingsCmds(cfg), b.settings);
      fwLoaded := true;
      ret := 0;
    }

    /**
     * si2183_sleep: clears this frontend's bit; only when no frontend of the
     * chip remains active is the chip deactivated and sent to sleep.
     */
    method Sleep(id: nat, x: Exchange) returns (ret: int)
      requires id < 32 && !chan.held
      modifies this`algo, this`active, this`activeFe, chan
      ensures algo == NoTune && activeFe == old(activeFe) & !FeBit(id) && !chan.held
      ensures activeFe != 0 ==> ret == 0 && active == old(active) && chan.sent == old(chan.sent)
      ensures activeFe == 0 ==> (!active && ret == Execute(ErrorBitChecked, SleepCmd, x).ret
        && chan.sent == old(chan.sent) + [[0x13]])
    {
      algo := NoTune;
      activeFe := activeFe & !FeBit(id);
      if activeFe != 0 {
        return 0;
      }
      active := false;
      var o := chan.Exec(ErrorBitChecked, SleepCmd, x);
      assert SleepCmd.args[..1] == [0x13];
      ret := o.ret;
    }

    /**
     * si2183_read_status, given the reply buffer of the last parameter query:
     * an inactive device reports -EAGAIN and no flags; otherwise the flags
     * are decoded from byte 2 and the CNR and strength come from bytes 3
     * and 6 in units of 0.25 dB.
     */
    method ReadStatus(reply: seq<bv8>) returns (ret: int, status: FeStatus)
      requires |reply| == ARGLEN
      modifies this`statResp, this`feStatus, this`cnr, this`strength
      ensures !active ==> (ret == EAGAIN && status == NoStatus && statResp == old(statResp)
        && feStatus == old(feStatus))
      ensures active ==> (ret == 0 && statResp == reply[2] && status == DecodeStatus(reply[2], algo)
        && feStatus == status
        && cnr == Stat(Decibel, reply[3] as int * 250) && strength == Stat(Decibel, reply[6] as int * 250))
    {
      status := NoStatus;
      if !active {
        return EAGAIN, status;
      }
      statResp := reply[2];
      status := DecodeStatus(statResp, algo);
      cnr := Stat(Decibel, reply[3] as int * 250);
      strength := Stat(Decibel, reply[6] as int * 250);
      feStatus := status;
      ret := 0;
    }

    /**
     * si2183_set_frontend: after the device and tuner checks, runs the
     * system's setter and a DSP reset, ignoring every command result, and
     * records the delivery system.
     */
    method SetFrontend(p: Params, tunerRet: int, envs: seq<Exchange>) returns (ret: int)
      requires !chan.held
      requires SetterCommands(p).Some? ==> Scripted(SetterCommands(p).value + [DspReset], envs)
      modifies this`deliverySystem, chan
      ensures !chan.held
      ensures ret == SetFrontendRet(old(active), tunerRet, p)
      ensures ret == 0 ==> (deliverySystem == p.system
        && chan.sent == old(chan.sent) + WrittenAll(SetterCommands(p).value + [DspReset]))
      ensures ret != 0 ==> deliverySystem == old(deliverySystem) && chan.sent == old(chan.sent)
    {
      if !active {
        return EAGAIN;
      }
      if tunerRet != 0 {
        return tunerRet;
      }
      match SetterCommands(p)
      case None =>
        ret := EINVAL;
      case Some(cmds) =>
        chan.RunEach(ErrorBitChecked, cmds + [DspReset], envs);
        deliverySystem := p.system;
        ret := 0;
    }

    /**
     * si2183_search: the blind scan runs only when armed by dtv_tune and
     * disarms at once; a scan without lock leaves SI2183_FAILED, and so does
     * any stalled acquisition stage even when the scan finally locks.
     */
    method Search(attempts: seq<Attempt>) returns (r: SearchResult, tried: seq<int>)
      modifies this`algo, this`warm
      ensures old(algo) != Tune ==> r == SearchFailed && tried == [] && algo == old(algo) && warm == old(warm)
      ensures old(algo) == Tune ==>
        var scan := ScanFrom(attempts, 0, MAX_SR);
        tried == scan.tried && warm
        && (r == SearchSuccess <==> scan.locked) && (r != SearchSuccess ==> r == SearchFailed)
        && algo == (if !scan.locked || scan.stalled then Failed else NoTune)
    {
      if algo != Tune {
        return SearchFailed, [];
      }
      algo := NoTune;
      var stalled, locked;
      tried, locked, stalled := BlindScan(attempts);
      warm := true;
      if stalled {
        algo := Failed;
      }
      if locked {
        r := SearchSuccess;
      } else {
        algo := Failed;
        r := SearchFailed;
      }
    }

    /** si2183_diseqc_send_msg: chunks the message and sends the chunks until the first failure. */
    method SendDiseqcMsg(msg: seq<bv8>, envs: seq<Exchange>) returns (ret: int)
      requires |msg| < 256 && !chan.held && Scripted(MessageCommands(msg), envs)
      modifies chan
      ensures !chan.held
      ensures var r := RunAll(ErrorBitChecked, MessageCommands(msg), envs);
        ret == r.ret && chan.sent == old(chan.sent) + WrittenAll(MessageCommands(msg)[..r.issued])
    {
      var cs := ChunkMessage(msg);
      var r := chan.RunSequence(ErrorBitChecked, cs, envs);
      ret := r.ret;
    }

    /** si2183_set_tone: one DiSEqC command with the continuous-tone bit, or -EINVAL. */
    method SetTone(tone: int, x: Exchange) returns (ret: int)
      requires !chan.held
      modifies chan
      ensures !chan.held
      ensures ToneFlags(tone).None? ==> ret == EINVAL && chan.sent == old(chan.sent)
      ensures ToneFlags(tone).Some? ==>
        ret == Execute(ErrorBitChecked, DiseqcCommand(ToneFlags(tone).value, []), x).ret
    {
      match ToneFlags(tone)
      case None =>
        ret := EINVAL;
      case Some(f) =>
        var o := chan.Exec(ErrorBitChecked, DiseqcCommand(f, []), x);
        ret := o.ret;
    }

    /** si2183_diseqc_send_burst: one DiSEqC command with the burst bits, or -EINVAL. */
    method SendBurst(burst: int, x: Exchange) returns (ret: int)
      requires !chan.held
      modifies chan
      ensures !chan.held
      ensures BurstFlags(burst).None? ==> ret == EINVAL && chan.sent == old(chan.sent)
      ensures BurstFlags(burst).Some? ==>
        ret == Execute(ErrorBitChecked, DiseqcCommand(BurstFlags(burst).value, []), x).ret
    {
      match BurstFlags(burst)
      case None =>
        ret := EINVAL;
      case Some(f) =>
        var o := chan.Exec(ErrorBitChecked, DiseqcCommand(f, []), x);
        ret := o.ret;
    }
  }
}
