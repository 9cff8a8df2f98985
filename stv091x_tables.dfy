/**
 * The lookup tables of the STV0910 driver: C/N against the DVB-S and
 * DVB-S2 noise estimates, and RF level against the AGC reading.
 */
module Stv091xTables {

  /** One table point: the value returned (`ret`) at the raw reading `val`. */
  datatype Point = Point(ret: int, val: int)

  /**
   * What stv091x_lookup relies on in a table: raw readings that fit a u16
   * and strictly ascend, results that fit an s16, and neighbouring results
   * whose difference fits an s16 as well.
   */
  predicate WellFormedTable(t: seq<Point>)
  {
    |t| >= 1
    && (forall i :: 0 <= i < |t| ==> 0 <= t[i].val < 0x1_0000 && -0x8000 <= t[i].ret < 0x8000)
    && (forall i :: 0 < i < |t| ==> t[i - 1].val < t[i].val)
    && (forall i :: 0 < i < |t| ==> -0x8000 <= t[i].ret - t[i - 1].ret < 0x8000)
  }

  /** C/N in 0.1 dB against the DVB-S noise estimate (stv091x_S1_SNR_lookup). */
  function S1SnrAt(i: nat): (p: Point)
    requires i < 54
  {
    match i
    case 0 => Point(510, 425)
    case 1 => Point(500, 426)
    case 2 => Point(450, 430)
    case 3 => Point(400, 445)
    case 4 => Point(350, 490)
    case 5 => Point(330, 526)
    case 6 => Point(320, 550)
    case 7 => Point(310, 579)
    case 8 => Point(300, 613)
    case 9 => Point(290, 653)
    case 10 => Point(280, 702)
    case 11 => Point(270, 758)
    case 12 => Point(260, 826)
    case 13 => Point(250, 900)
    case 14 => Point(240, 992)
    case 15 => Point(230, 1095)
    case 16 => Point(220, 1213)
    case 17 => Point(210, 1347)
    case 18 => Point(200, 1499)
    case 19 => Point(190, 1670)
    case 20 => Point(180, 1862)
    case 21 => Point(170, 2077)
    case 22 => Point(160, 2318)
    case 23 => Point(150, 2587)
    case 24 => Point(145, 2733)
    case 25 => Point(140, 2889)
    case 26 => Point(135, 3052)
    case 27 => Point(130, 3225)
    case 28 => Point(125, 3406)
    case 29 => Point(120, 3598)
    case 30 => Point(115, 3800)
    case 31 => Point(110, 4013)
    case 32 => Point(105, 4236)
    case 33 => Point(100, 4467)
    case 34 => Point(95, 4709)
    case 35 => Point(90, 4959)
    case 36 => Point(85, 5224)
    case 37 => Point(80, 5492)
    case 38 => Point(75, 5768)
    case 39 => Point(70, 6048)
    case 40 => Point(65, 6330)
    case 41 => Point(60, 6576)
    case 42 => Point(55, 6861)
    case 43 => Point(50, 7136)
    case 44 => Point(45, 7405)
    case 45 => Point(40, 7666)
    case 46 => Point(35, 7908)
    case 47 => Point(30, 8146)
    case 48 => Point(25, 8366)
    case 49 => Point(20, 8566)
    case 50 => Point(15, 8780)
    case 51 => Point(10, 8950)
    case 52 => Point(5, 9105)
    case 53 => Point(0, 9242)
    case _ => Point(0, 0)
  }

  const S1_SNR: seq<Point> := seq(54, i requires 0 <= i < 54 => S1SnrAt(i))

  /** C/N in 0.1 dB against the DVB-S2 noise estimate (stv091x_S2_SNR_lookup). */
  function S2SnrAt(i: nat): (p: Point)
    requires i < 60
  {
    match i
    case 0 => Point(510, 463)
    case 1 => Point(500, 464)
    case 2 => Point(450, 466)
    case 3 => Point(400, 480)
    case 4 => Point(350, 517)
    case 5 => Point(330, 550)
    case 6 => Point(320, 575)
    case 7 => Point(310, 602)
    case 8 => Point(300, 635)
    case 9 => Point(290, 671)
    case 10 => Point(280, 718)
    case 11 => Point(270, 772)
    case 12 => Point(260, 836)
    case 13 => Point(250, 910)
    case 14 => Point(240, 1000)
    case 15 => Point(230, 1100)
    case 16 => Point(220, 1212)
    case 17 => Point(210, 1340)
    case 18 => Point(200, 1485)
    case 19 => Point(190, 1650)
    case 20 => Point(180, 1825)
    case 21 => Point(170, 2035)
    case 22 => Point(160, 2270)
    case 23 => Point(150, 2535)
    case 24 => Point(145, 2670)
    case 25 => Point(140, 2820)
    case 26 => Point(135, 2980)
    case 27 => Point(130, 3140)
    case 28 => Point(125, 3315)
    case 29 => Point(120, 3570)
    case 30 => Point(115, 3765)
    case 31 => Point(110, 3980)
    case 32 => Point(105, 4210)
    case 33 => Point(100, 4425)
    case 34 => Point(95, 4680)
    case 35 => Point(90, 4930)
    case 36 => Point(85, 5200)
    case 37 => Point(80, 5480)
    case 38 => Point(75, 5760)
    case 39 => Point(70, 6060)
    case 40 => Point(65, 6320)
    case 41 => Point(60, 6720)
    case 42 => Point(55, 7080)
    case 43 => Point(50, 7430)
    case 44 => Point(45, 7800)
    case 45 => Point(40, 8180)
    case 46 => Point(35, 8575)
    case 47 => Point(30, 8970)
    case 48 => Point(25, 9390)
    case 49 => Point(20, 9790)
    case 50 => Point(15, 10210)
    case 51 => Point(10, 10630)
    case 52 => Point(5, 11080)
    case 53 => Point(0, 11520)
    case 54 => Point(-5, 11900)
    case 55 => Point(-10, 12345)
    case 56 => Point(-15, 12760)
    case 57 => Point(-20, 13150)
    case 58 => Point(-25, 13580)
    case 59 => Point(-30, 13950)
    case _ => Point(0, 0)
  }

  const S2_SNR: seq<Point> := seq(60, i requires 0 <= i < 60 => S2SnrAt(i))

  /** RF level in 0.01 dBm against the AGC reading (stv091x_dbm_lookup). */
  function DbmAt(i: nat): (p: Point)
    requires i < 14
  {
    match i
    case 0 => Point(-7000, 0x7aa)
    case 1 => Point(-6500, 0x114f)
    case 2 => Point(-6000, 0x210d)
    case 3 => Point(-5500, 0x2d11)
    case 4 => Point(-5000, 0x3a14)
    case 5 => Point(-4500, 0x59be)
    case 6 => Point(-4000, 0x8389)
    case 7 => Point(-3500, 0x98a8)
    case 8 => Point(-3000, 0xa298)
    case 9 => Point(-2500, 0xad5a)
    case 10 => Point(-2000, 0xb4bc)
    case 11 => Point(-1500, 0xbb08)
    case 12 => Point(-1000, 0xc229)
    case 13 => Point(-500, 0xcaa1)
    case _ => Point(0, 0)
  }

  const DBM: seq<Point> := seq(14, i requires 0 <= i < 14 => DbmAt(i))

  /** Each table meets what the lookup relies on; in particular its readings strictly ascend. */
  lemma S1TableWellFormed()
    ensures WellFormedTable(S1_SNR) && |S1_SNR| == 54
  {
    S1InRange();
    S1Ascending();
    S1Steps();
    assert forall i :: 0 <= i < 54 ==> S1_SNR[i] == S1SnrAt(i);
  }

  lemma S1InRange()
    ensures forall i :: 0 <= i < 54 ==> 0 <= S1SnrAt(i).val < 0x1_0000 && -0x8000 <= S1SnrAt(i).ret < 0x8000
  {
  }

  lemma S1Ascending()
    ensures forall i :: 0 < i < 54 ==> S1SnrAt(i - 1).val < S1SnrAt(i).val
  {
  }

  lemma S1Steps()
    ensures forall i :: 0 < i < 54 ==> -0x8000 <= S1SnrAt(i).ret - S1SnrAt(i - 1).ret < 0x8000
  {
    S1StepsDown();
    S1StepsUp();
  }

  lemma S1StepsDown()
    ensures forall i :: 0 < i < 54 ==> S1SnrAt(i - 1).ret - 0x8000 <= S1SnrAt(i).ret
  {
  }

  lemma S1StepsUp()
    ensures forall i :: 0 < i < 54 ==> S1SnrAt(i).ret < S1SnrAt(i - 1).ret + 0x8000
  {
  }

  lemma S2TableWellFormed()
    ensures WellFormedTable(S2_SNR) && |S2_SNR| == 60
  {
    S2InRange();
    S2Ascending();
    S2Steps();
    assert forall i :: 0 <= i < 60 ==> S2_SNR[i] == S2SnrAt(i);
  }

  lemma S2InRange()
    ensures forall i :: 0 <= i < 60 ==> 0 <= S2SnrAt(i).val < 0x1_0000 && -0x8000 <= S2SnrAt(i).ret < 0x8000
  {
  }

  lemma S2Ascending()
    ensures forall i :: 0 < i < 60 ==> S2SnrAt(i - 1).val < S2SnrAt(i).val
  {
  }

  lemma S2Steps()
    ensures forall i :: 0 < i < 60 ==> -0x8000 <= S2SnrAt(i).ret - S2SnrAt(i - 1).ret < 0x8000
  {
    S2StepsDown();
    S2StepsUp();
  }

  lemma S2StepsDown()
    ensures forall i :: 0 < i < 60 ==> S2SnrAt(i - 1).ret - 0x8000 <= S2SnrAt(i).ret
  {
  }

  lemma S2StepsUp()
    ensures forall i :: 0 < i < 60 ==> S2SnrAt(i).ret < S2SnrAt(i - 1).ret + 0x8000
  {
  }

  lemma DbmTableWellFormed()
    ensures WellFormedTable(DBM) && |DBM| == 14
  {
    DbmInRange();
    DbmAscending();
    DbmSteps();
    assert forall i :: 0 <= i < 14 ==> DBM[i] == DbmAt(i);
  }

  lemma DbmInRange()
    ensures forall i :: 0 <= i < 14 ==> 0 <= DbmAt(i).val < 0x1_0000 && -0x8000 <= DbmAt(i).ret < 0x8000
  {
  }

  lemma DbmAscending()
    ensures forall i :: 0 < i < 14 ==> DbmAt(i - 1).val < DbmAt(i).val
  {
  }

  lemma DbmSteps()
    ensures forall i :: 0 < i < 14 ==> -0x8000 <= DbmAt(i).ret - DbmAt(i - 1).ret < 0x8000
  {
    DbmStepsDown();
    DbmStepsUp();
  }

  lemma DbmStepsDown()
    ensures forall i :: 0 < i < 14 ==> DbmAt(i - 1).ret - 0x8000 <= DbmAt(i).ret
  {
  }

  lemma DbmStepsUp()
    ensures forall i :: 0 < i < 14 ==> DbmAt(i).ret < DbmAt(i - 1).ret + 0x8000
  {
  }
}
