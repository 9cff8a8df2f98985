/**
 * The public header of the STV0910 demodulator driver: the demodulator
 * mode, the driver's acquisition state and the MAKEWORD16 macro that joins
 * a high and a low register byte.
 */
module Stv091xHeader {

  /** enum stv091x_mode. */
  datatype Mode = Dual | Single

  function ModeValue(m: Mode): (v: nat)
    ensures v < 2
  {
    match m
    case Dual => 0
    case Single => 1
  }

  /** The enumerators are DUAL = 0 and SINGLE = 1, and the value names the mode. */
  lemma ModeValues(m: Mode, n: Mode)
    ensures ModeValue(Dual) == 0 && ModeValue(Single) == 1
    ensures ModeValue(m) == ModeValue(n) ==> m == n
  {
  }

  /** enum stv091x_algo: what the next search of the demodulator does. */
  datatype Algo = BlindSearch | ColdSearch | WarmSearch | NoTune

  function AlgoValue(a: Algo): (v: nat)
    ensures v < 4
  {
    match a
    case BlindSearch => 0
    case ColdSearch => 1
    case WarmSearch => 2
    case NoTune => 3
  }

  /** The four enumerators take the four distinct values 0..3, in declaration order. */
  lemma AlgoValues(a: Algo, b: Algo)
    ensures AlgoValue(a) == AlgoValue(b) ==> a == b
    ensures [AlgoValue(BlindSearch), AlgoValue(ColdSearch), AlgoValue(WarmSearch), AlgoValue(NoTune)] == [0, 1, 2, 3]
  {
  }

  /** MAKEWORD16(a, b): byte `a` above byte `b`. */
  function MakeWord16(a: bv8, b: bv8): (w: nat)
    ensures w == a as int * 256 + b as int
    ensures w < 0x1_0000
  {
    (((a as bv16) << 8) | (b as bv16)) as nat
  }

  /** The two bytes come back out of the word: `w >> 8` is `a` and `w & 0xff` is `b`. */
  lemma MakeWord16RoundTrip(a: bv8, b: bv8)
    ensures MakeWord16(a, b) / 256 == a as int
    ensures MakeWord16(a, b) % 256 == b as int
  {
  }
}
