/**
 * Shared vocabulary of the DVB frontend drivers: kernel error numbers,
 * C integer semantics (truncating division, unsigned wrap-around), byte
 * helpers, the frontend status flags and the search/algorithm results that
 * the DVB core exchanges with a demodulator driver.
 */
module Common {

  datatype Option<T> = None | Some(value: T)

  // Kernel error numbers, returned negated by the drivers.
  const EAGAIN: int := -11
  const EINVAL: int := -22
  const ETIMEDOUT: int := -110
  const EREMOTEIO: int := -121

  const U8_MOD: int := 0x100
  const U16_MOD: int := 0x1_0000
  const U32_MOD: int := 0x1_0000_0000
  const U64_MOD: int := 0x1_0000_0000_0000_0000

  function Abs(x: int): (r: nat)
    ensures r == x || r == -x
  {
    if x < 0 then -x else x
  }

  /**
   * C division on signed operands: the magnitude of the quotient is the
   * quotient of the magnitudes, and its sign is negative exactly when the
   * operands' signs differ (truncation toward zero).
   */
  function CDiv(a: int, b: int): (q: int)
    requires b != 0
    ensures Abs(q) == Abs(a) / Abs(b)
    ensures q != 0 ==> ((q < 0) <==> ((a < 0) != (b < 0)))
  {
    var n, d := Abs(a), Abs(b);
    DivNonneg(n, d);
    var m := n / d;
    if (a < 0) == (b < 0) then m else -m
  }

  lemma DivNonneg(n: nat, d: nat)
    requires d > 0
    ensures n / d >= 0
  {
  }

  /** n / d <= k whenever n <= d * k, strictly when n < d * k. */
  lemma DivBelow(n: nat, d: nat, k: nat)
    requires d > 0 && n <= d * k
    ensures n / d <= k
    ensures n < d * k ==> n / d < k
  {
  }

  /** The quotient n / d brackets n between two consecutive multiples of d. */
  lemma DivBounds(n: nat, d: nat)
    requires d > 0
    ensures (n / d) * d <= n < (n / d + 1) * d
  {
  }

  /** Conversion to an unsigned C type with `m` values: reduction modulo m. */
  function Wrap(x: int, m: int): (r: int)
    requires m > 0
    ensures 0 <= r < m
    ensures 0 <= x < m ==> r == x
  {
    x % m
  }

  /** Conversion to a signed 16-bit C type (two's complement). */
  function S16(x: int): (r: int)
    ensures -0x8000 <= r < 0x8000
    ensures (x - r) % U16_MOD == 0
  {
    var u := x % U16_MOD;
    if u >= 0x8000 then u - U16_MOD else u
  }

  /** Conversion to a signed 32-bit C type (two's complement). */
  function S32(x: int): (r: int)
    ensures -0x8000_0000 <= r < 0x8000_0000
    ensures (x - r) % U32_MOD == 0
    ensures -0x8000_0000 <= x < 0x8000_0000 ==> r == x
  {
    var u := x % U32_MOD;
    if u >= 0x8000_0000 then u - U32_MOD else u
  }

  /** Conversion of a byte to the signed 8-bit C type. */
  function S8(b: bv8): (r: int)
    ensures -0x80 <= r < 0x80
    ensures (r - b as int) % U8_MOD == 0
  {
    if b >= 0x80 then b as int - U8_MOD else b as int
  }

  /** The low byte of a natural number, as stored into a u8 register. */
  function Lo8(x: int): (b: bv8)
    ensures b as int == x % U8_MOD
    ensures 0 <= x < U8_MOD ==> b as int == x
  {
    var v := x % U8_MOD;
    assert 0 <= x < U8_MOD ==> v == x;
    ByteValue(v);
    var b: bv8 :| b as int == v; b
  }

  /** A number below 256 converts to the byte of the same value. */
  lemma ByteValue(v: nat)
    requires v < U8_MOD
    ensures (v as bv8) as int == v
  {
    Pow2Eight();
    var b := BitsToByte(v, 8);
    assert (b as int) as bv8 == b;
  }

  /** The byte whose value is v, built from v's n low bits, most significant first. */
  function BitsToByte(v: nat, n: nat): (b: bv8)
    requires n <= 8 && v < Pow2(n)
    ensures b as int == v
  {
    if n == 0 then 0
    else
      var c := BitsToByte(v / 2, n - 1);
      ShiftInBit(c, v % 2, n - 1);
      (c << 1) | (if v % 2 == 1 then 1 else 0)
  }

  /** Shifting a bit into a byte below 2^7 doubles its value and adds the bit. */
  lemma ShiftInBit(c: bv8, bit: nat, n: nat)
    requires n < 8 && c as int < Pow2(n) && bit < 2
    ensures ((c << 1) | (if bit == 1 then 1 else 0)) as int == 2 * (c as int) + bit
  {
    Pow2Mono(n, 7);
    Pow2Eight();
    assert c < 128;
  }

  lemma {:induction false} Pow2Mono(a: nat, b: nat)
    requires a <= b
    ensures Pow2(a) <= Pow2(b)
    decreases b
  {
    if a < b {
      Pow2Mono(a, b - 1);
    }
  }

  lemma Pow2Eight()
    ensures Pow2(7) == 128 && Pow2(8) == 256
  {
    assert Pow2(1) == 2 && Pow2(2) == 4 && Pow2(3) == 8 && Pow2(4) == 16;
    assert Pow2(5) == 32 && Pow2(6) == 64;
  }

  /** Byte `k` (0 = least significant) of a natural number. */
  function ByteAt(x: nat, k: nat): (b: bv8)
    ensures b as int == (x / Pow2(8 * k)) % U8_MOD
  {
    Lo8(x / Pow2(8 * k))
  }

  function Pow2(n: nat): (r: nat)
    ensures r >= 1
  {
    if n == 0 then 1 else 2 * Pow2(n - 1)
  }

  function Pow10(n: nat): (r: nat)
    ensures r >= 1
  {
    if n == 0 then 1 else 10 * Pow10(n - 1)
  }

  /** Bit `k` of a natural number. */
  function Bit(x: nat, k: nat): (r: bool)
  {
    (x / Pow2(k)) % 2 == 1
  }

  /** Little-endian value of a byte sequence. */
  function LittleEndian(s: seq<bv8>): (r: nat)
    ensures r < Pow2(8 * |s|)
  {
    if s == [] then 0
    else
      var rest := LittleEndian(s[1..]);
      assert Pow2(8 * |s|) == 256 * Pow2(8 * (|s| - 1)) by { Pow2Add(8, 8 * (|s| - 1)); }
      s[0] as int + 256 * rest
  }

  lemma {:induction false} Pow2Add(a: nat, b: nat)
    ensures Pow2(a + b) == Pow2(a) * Pow2(b)
  {
    if a > 0 {
      Pow2Add(a - 1, b);
    }
  }

  /** The frontend status flags of the DVB core (FE_HAS_SIGNAL ... FE_TIMEDOUT). */
  datatype FeStatus = FeStatus(signal: bool, carrier: bool, viterbi: bool,
                               sync: bool, lock: bool, timedOut: bool)

  const NoStatus: FeStatus := FeStatus(false, false, false, false, false, false)

  /** The delivery systems named by the drivers of this model. */
  datatype DeliverySystem =
    | SysUndefined | DvbcAnnexA | DvbcAnnexB | DvbcAnnexC | Dvbt | Dss | Dvbs | Dvbs2
    | Dvbh | Isdbt | Isdbs | Isdbc | Atsc | Atscmh | Dtmb | Cmmb | Dab | Dvbt2 | Turbo

  /** Modulations (enum fe_modulation) used by the drivers of this model. */
  datatype Modulation =
    | Qpsk | Qam16 | Qam32 | Qam64 | Qam128 | Qam256 | QamAuto | Vsb8 | Vsb16
    | Psk8 | Apsk16 | Apsk32 | Dqpsk | Qam4Nr | OtherModulation

  /** Result of a driver's custom search callback (enum dvbfe_search). */
  datatype SearchResult = SearchSuccess | SearchAsleep | SearchFailed | SearchInvalid
                        | SearchAgain | SearchError

  /** Result of get_frontend_algo (enum dvbfe_algo). */
  datatype FrontendAlgo = AlgoHw | AlgoSw | AlgoCustom | AlgoRecovery | AlgoNotune

  /** Scale of a statistics counter (enum fecap_scale_params). */
  datatype Scale = NotAvailable | Decibel | Relative | Counter

  /** One statistics cell of the property cache (struct dtv_stats). */
  datatype Stat = Stat(scale: Scale, value: int)

  const DefaultStat: Stat := Stat(NotAvailable, 0)

  // ------------------------------------- Silicon Labs demodulator encodings

  /** Upper bandwidth bounds (Hz) of the codes 0x02 ... 0x0a; anything wider is 0x0f. */
  const BandwidthSteps: seq<(int, bv8)> :=
    [(2000000, 0x02), (5000000, 0x05), (6000000, 0x06), (7000000, 0x07),
     (8000000, 0x08), (9000000, 0x09), (10000000, 0x0a)]

  /**
   * The bandwidth nibble ORed into the system property for DVB-T/T2 and
   * ISDB-T; a zero bandwidth is rejected.
   */
  function BandwidthCode(bw: int): (r: Option<bv8>)
    requires bw >= 0
    ensures r.None? <==> bw == 0
    ensures r.Some? && r.value != 0x0f ==> 0 < bw <= r.value as int * 1000000
    ensures r.Some? ==> (r.value == 0x0f <==> bw > 10000000)
    ensures r.Some? ==> r.value & 0xf0 == 0
  {
    if bw == 0 then None
    else if bw <= 2000000 then Some(0x02)
    else if bw <= 5000000 then Some(0x05)
    else if bw <= 6000000 then Some(0x06)
    else if bw <= 7000000 then Some(0x07)
    else if bw <= 8000000 then Some(0x08)
    else if bw <= 9000000 then Some(0x09)
    else if bw <= 10000000 then Some(0x0a)
    else Some(0x0f)
  }

  /**
   * The code is the smallest step whose bound covers the bandwidth: every
   * narrower step's bound is exceeded.  Wider bandwidths never get a smaller
   * code.
   */
  lemma BandwidthCodeIsTightest(bw: int)
    requires bw > 0
    ensures var c := BandwidthCode(bw).value;
      forall k :: 0 <= k < |BandwidthSteps| ==>
        (BandwidthSteps[k].1 < c ==> bw > BandwidthSteps[k].0)
        && (BandwidthSteps[k].1 >= c ==> bw <= BandwidthSteps[k].0 || c == 0x0f)
  {
  }

  lemma BandwidthCodeMonotone(bw1: int, bw2: int)
    requires 0 < bw1 <= bw2
    ensures BandwidthCode(bw1).value <= BandwidthCode(bw2).value
  {
  }

  /** The symbol rate in kS/s, split into the two property bytes (low byte, then bits 8-15). */
  function SymbolRateBytes(sr: nat): (b: (bv8, bv8))
    ensures sr / 1000 < 0x1_0000 ==> b.0 as int + 256 * b.1 as int == sr / 1000
  {
    (Lo8(sr / 1000), Lo8((sr / 1000) / 256))
  }

  /**
   * The lock flags of a Silicon Labs demodulator status reply: bits 1-2 of
   * the status byte read 0b01 (signal and carrier) or 0b11 (locked); the
   * other two values report nothing.
   */
  function LockFlags(b: bv8): (s: FeStatus)
    ensures s.signal == s.carrier == (b & 0x02 != 0)
    ensures s.viterbi == s.sync == s.lock == (b & 0x06 == 0x06)
    ensures !s.timedOut
  {
    match (b >> 1) & 0x03
    case 0x01 => FeStatus(true, true, false, false, false, false)
    case 0x03 => FeStatus(true, true, true, true, true, false)
    case _ => NoStatus
  }

  /**
   * The bit-error value read_ber reports on the Silicon Labs demodulators:
   * the product of the two reply bytes masked to 4 bits while locked, 1
   * otherwise.
   */
  function BerValue(locked: bool, a1: bv8, a2: bv8): (ber: nat)
    ensures ber < 16
    ensures !locked ==> ber == 1
    ensures locked ==> (a2 as int * a1 as int - ber) % 16 == 0
  {
    if locked then (a2 as int * a1 as int) % 16 else 1
  }

  /** How one status poll of the search loop ends. */
  datatype PollKind = PollError | PollLocked | PollTimedOut | PollWaiting

  /** The verdict of the polling loop from poll i on: an error ends it, LOCK succeeds, TIMEDOUT or the end of the budget fails. */
  function PollVerdict(ks: seq<PollKind>, i: nat): (r: SearchResult)
    requires i <= |ks|
    decreases |ks| - i
  {
    if i == |ks| then SearchFailed
    else match ks[i]
      case PollError => SearchError
      case PollLocked => SearchSuccess
      case PollTimedOut => SearchFailed
      case PollWaiting => PollVerdict(ks, i + 1)
  }

  /** Polls i .. k - 1 all answered without error and without lock. */
  predicate WaitingFrom(ks: seq<PollKind>, i: nat, k: nat)
    requires i <= k <= |ks|
  {
    forall j :: i <= j < k ==> ks[j] == PollWaiting
  }

  /**
   * Without TIMEDOUT the loop succeeds exactly when some poll reports LOCK
   * after error-free polls without it, fails exactly when every poll of the
   * budget is error-free without LOCK, and otherwise reports an error.
   */
  lemma {:induction false} PollVerdictMeaning(ks: seq<PollKind>, i: nat)
    requires i <= |ks|
    requires forall j :: i <= j < |ks| ==> ks[j] != PollTimedOut
    ensures var r := PollVerdict(ks, i);
      r in {SearchSuccess, SearchFailed, SearchError}
      && (r == SearchSuccess <==> exists k :: i <= k < |ks| && ks[k] == PollLocked && WaitingFrom(ks, i, k))
      && (r == SearchFailed <==> WaitingFrom(ks, i, |ks|))
    decreases |ks| - i
  {
    if i < |ks| {
      if ks[i] == PollWaiting {
        PollVerdictMeaning(ks, i + 1);
        if PollVerdict(ks, i + 1) == SearchSuccess {
          var k :| i + 1 <= k < |ks| && ks[k] == PollLocked && WaitingFrom(ks, i + 1, k);
          assert WaitingFrom(ks, i, k);
        }
        assert WaitingFrom(ks, i + 1, |ks|) ==> WaitingFrom(ks, i, |ks|);
      } else {
        assert !WaitingFrom(ks, i, |ks|);
        assert forall k :: i < k <= |ks| ==> !WaitingFrom(ks, i, k);
      }
    }
  }

  /** Being a prefix is transitive. */
  lemma PrefixTrans<T>(a: seq<T>, b: seq<T>, c: seq<T>)
    requires |a| <= |b| <= |c| && b[..|a|] == a && c[..|b|] == b
    ensures c[..|a|] == a
  {
    assert c[..|a|] == c[..|b|][..|a|];
  }

  /** Concatenation of sequences is associative. */
  lemma AppendAssoc<T>(a: seq<T>, b: seq<T>, c: seq<T>)
    ensures (a + b) + c == a + (b + c)
  {
  }
}
