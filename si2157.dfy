/**
 * Silicon Labs Si2141/Si2146/Si2147/Si2148/Si2157/Si2158 silicon tuner: the
 * boot with its warm-start shortcut and firmware download, the tuning
 * command sequence with its cached IF frequency, and the RF strength read.
 * All commands go through the ready-only copy of the firmware command
 * channel, which does not look at the reply's error bit.
 */
module Si2157 {
  import opened Common
  import opened FirmwareCmd

  /**
   * The argument buffer size SI2157_ARGLEN.  It is defined in si2157_priv.h,
   * which is not part of this model; the 30 bytes of the demodulators are used.
   */
  const ARGLEN: nat := 30

  /** The chip type the I2C id table gives the driver (SI2157_CHIPTYPE_*). */
  datatype ChipType = Si2157Type | Si2146Type | Si2141Type

  function Command(w: seq<bv8>, rlen: nat): (c: Cmd)
    requires 0 < |w| <= ARGLEN && rlen <= ARGLEN
    ensures ValidCmd(c) && c.wlen == |w| && c.rlen == rlen && c.args[..|w|] == w && |c.args| == ARGLEN
  {
    Request(w, rlen, ARGLEN)
  }

  // ------------------------------------------------------------------ init

  /** Reads property 0x0706, the IF frequency in kHz; the answer is garbage while no firmware runs. */
  const IfQueryCmd: Cmd := Command([0x15, 0x00, 0x06, 0x07], 4)

  /** The IF frequency (kHz) in bytes 2 and 3 of the property reply, little-endian. */
  function ReportedIf(args: seq<bv8>): (khz: nat)
    requires |args| >= 4
    ensures khz < 0x1_0000
    ensures khz % 256 == args[2] as int && khz / 256 == args[3] as int
  {
    args[2] as int + 256 * args[3] as int
  }

  /** The power-up command, which differs per chip type. */
  function PowerUpCmd(chip: ChipType): (c: Cmd)
    ensures ValidCmd(c) && c.rlen == 1 && c.args[0] == 0xc0
    ensures c.wlen == (match chip case Si2146Type => 9 case Si2141Type => 10 case Si2157Type => 15)
  {
    match chip
    case Si2146Type => Command([0xc0, 0x05, 0x01, 0x00, 0x00, 0x0b, 0x00, 0x00, 0x01], 1)
    case Si2141Type => Command([0xc0, 0x00, 0x0d, 0x0e, 0x00, 0x01, 0x01, 0x01, 0x01, 0x03], 1)
    case Si2157Type =>
      Command([0xc0, 0x00, 0x0c, 0x00, 0x00, 0x01, 0x01, 0x01, 0x01, 0x01, 0x01, 0x02, 0x00, 0x00, 0x01], 1)
  }

  /** The second wake-up command the Si2141 needs before it answers the revision query. */
  const Si2141WakeCmd: Cmd := Command([0xc0, 0x08, 0x01, 0x02, 0x00, 0x00, 0x01], 1)

  /** The part-information query; the reply carries the chip id in bytes 1 to 4. */
  const RevisionCmd: Cmd := Command([0x02], 13)

  /** Boots the downloaded (or built-in) firmware. */
  const RebootCmd: Cmd := Command([0x01, 0x01], 1)

  /** The firmware-version query. */
  const VersionCmd: Cmd := Command([0x11], 10)

  /** The chip id: bytes 1 to 4 of the part-information reply, most significant first. */
  function ChipId(a1: bv8, a2: bv8, a3: bv8, a4: bv8): bv32
  {
    (a1 as bv32 << 24) | (a2 as bv32 << 16) | (a3 as bv32 << 8) | a4 as bv32
  }

  // Revision letter, part number and firmware major/minor digits ('A', 58, '2', '0' ...).
  const SI2158_A20: bv32 := 0x413a_3230
  const SI2148_A20: bv32 := 0x4130_3230
  const SI2157_A30: bv32 := 0x4139_3330
  const SI2147_A30: bv32 := 0x412f_3330
  const SI2146_A10: bv32 := 0x412e_3130
  const SI2141_A10: bv32 := 0x4129_3130

  /** The firmware a chip needs: none for an unknown id, the built-in one, or one of two files. */
  datatype FwChoice = UnknownChip | Builtin | Fw2158 | Fw2141

  /**
   * The firmware file init requests for a chip id: the Si2158 image for the
   * Si2158/Si2148 A20, the Si2141 image for the Si2141 A10, none for the
   * Si2157/Si2147 A30 and Si2146 A10; any other id is rejected.
   */
  function FirmwareFor(id: bv32): (f: FwChoice)
    ensures f == Fw2158 <==> id == SI2158_A20 || id == SI2148_A20
    ensures f == Fw2141 <==> id == SI2141_A10
    ensures f == Builtin <==> id == SI2157_A30 || id == SI2147_A30 || id == SI2146_A10
  {
    if id == SI2158_A20 || id == SI2148_A20 then Fw2158
    else if id == SI2141_A10 then Fw2141
    else if id == SI2157_A30 || id == SI2147_A30 || id == SI2146_A10 then Builtin
    else UnknownChip
  }

  /** The packed id keeps its four bytes apart, so the id comparisons are comparisons of the reply bytes. */
  lemma ChipIdFields(a1: bv8, a2: bv8, a3: bv8, a4: bv8)
    ensures var id := ChipId(a1, a2, a3, a4);
      id >> 24 == a1 as bv32 && (id >> 16) & 0xff == a2 as bv32
      && (id >> 8) & 0xff == a3 as bv32 && id & 0xff == a4 as bv32
  {
  }

  /** A chip needs the Si2158 image exactly when it reports revision A, part 58 or 48, firmware 2.0. */
  lemma Si2158ImageChips(a1: bv8, a2: bv8, a3: bv8, a4: bv8)
    ensures FirmwareFor(ChipId(a1, a2, a3, a4)) == Fw2158 <==>
      a1 == 0x41 && (a2 == 58 || a2 == 48) && a3 == 0x32 && a4 == 0x30
  {
    ChipIdFields(a1, a2, a3, a4);
  }

  /** What the chip answers during init: one exchange per command, the firmware request and image. */
  datatype Boot = Boot(
    ifQuery: Exchange, powerUp: Exchange, wake: Exchange, revision: Exchange,
    firmwareRet: int, fw: seq<bv8>, envs: seq<Exchange>, reboot: Exchange, version: Exchange)

  /** The download's bus script matches the image's records. */
  predicate BootScripted(b: Boot)
  {
    Scripted(Image(b.fw, Framed17, ARGLEN).cmds, b.envs)
  }

  /** The return code of init and whether it took the warm path. */
  datatype InitOutcome = InitOutcome(ret: int, warm: bool)

  /**
   * The firmware stage of a cold init: nothing for a chip with built-in
   * firmware; otherwise the firmware request's error, -EINVAL for an image
   * that is not made of 17-byte records, or the download's outcome.
   */
  function FirmwareStage(f: FwChoice, b: Boot): (ret: int)
    requires BootScripted(b) && f != UnknownChip
    ensures f == Builtin ==> ret == 0
    ensures f != Builtin && b.firmwareRet == 0 && |b.fw| % 17 != 0 ==> ret == EINVAL
  {
    if f == Builtin then 0
    else if b.firmwareRet != 0 then b.firmwareRet
    else if |b.fw| % 17 != 0 then EINVAL
    else DownloadRet(ReadyOnly, Image(b.fw, Framed17, ARGLEN), b.envs)
  }

  /**
   * init: the IF query; a reported IF equal to the configured one (in kHz)
   * means the firmware already runs and the boot is skipped.  Otherwise
   * power up (and the Si2141's wake-up), the part query, the firmware the
   * chip id selects, reboot and the version query.
   */
  function InitRun(chip: ChipType, ifFrequency: nat, b: Boot): (o: InitOutcome)
    requires BootScripted(b)
    ensures o.warm ==> o.ret == 0
  {
    var q := Execute(ReadyOnly, IfQueryCmd, b.ifQuery);
    if q.ret != 0 then InitOutcome(q.ret, false)
    else
      ExecuteKeepsSize(ReadyOnly, IfQueryCmd, b.ifQuery);
      if ReportedIf(q.args) == ifFrequency / 1000 then InitOutcome(0, true)
      else InitOutcome(ColdRun(chip, b), false)
  }

  /** The cold path's return: power up, the Si2141's wake-up, then the part query on. */
  function ColdRun(chip: ChipType, b: Boot): (ret: int)
    requires BootScripted(b)
    ensures Execute(ReadyOnly, PowerUpCmd(chip), b.powerUp).ret != 0 ==> ret == Execute(ReadyOnly, PowerUpCmd(chip), b.powerUp).ret
  {
    var p := Execute(ReadyOnly, PowerUpCmd(chip), b.powerUp);
    var k := Execute(ReadyOnly, Si2141WakeCmd, b.wake);
    if p.ret != 0 then p.ret
    else if chip == Si2141Type && k.ret != 0 then k.ret
    else PartQueryRun(b)
  }

  /** The return from the part query on: the chip id selects the firmware, then reboot and the version query. */
  function PartQueryRun(b: Boot): (ret: int)
    requires BootScripted(b)
  {
    var r := Execute(ReadyOnly, RevisionCmd, b.revision);
    if r.ret != 0 then r.ret
    else
      ExecuteKeepsSize(ReadyOnly, RevisionCmd, b.revision);
      var f := FirmwareFor(ChipId(r.args[1], r.args[2], r.args[3], r.args[4]));
      if f == UnknownChip then EINVAL
      else
        var d := FirmwareStage(f, b);
        if d != 0 then d else RebootRun(b)
  }

  /** The return of the reboot and the version query that end a cold init. */
  function RebootRun(b: Boot): (ret: int)
    ensures ret == 0 <==> Execute(ReadyOnly, RebootCmd, b.reboot).ret == 0 && Execute(ReadyOnly, VersionCmd, b.version).ret == 0
  {
    var s := Execute(ReadyOnly, RebootCmd, b.reboot);
    if s.ret != 0 then s.ret else Execute(ReadyOnly, VersionCmd, b.version).ret
  }

  /**
   * The warm path is taken exactly when the IF query succeeds and reports
   * the configured IF frequency in kHz; it succeeds whatever the rest of
   * the chip would answer.
   */
  lemma WarmStartSkipsBoot(chip: ChipType, ifFrequency: nat, b: Boot, b': Boot)
    requires BootScripted(b) && BootScripted(b') && b'.ifQuery == b.ifQuery
    ensures var q := Execute(ReadyOnly, IfQueryCmd, b.ifQuery);
      InitRun(chip, ifFrequency, b).warm <==>
        q.ret == 0 && |q.args| >= 4 && ReportedIf(q.args) == ifFrequency / 1000
    ensures InitRun(chip, ifFrequency, b).warm ==> InitRun(chip, ifFrequency, b') == InitOutcome(0, true)
  {
    ExecuteKeepsSize(ReadyOnly, IfQueryCmd, b.ifQuery);
  }

  /** A chip whose id the driver does not know is rejected with -EINVAL before any firmware is requested. */
  lemma UnknownChipRejected(chip: ChipType, ifFrequency: nat, b: Boot)
    requires BootScripted(b)
    requires var q := Execute(ReadyOnly, IfQueryCmd, b.ifQuery);
      q.ret == 0 && |q.args| >= 4 && ReportedIf(q.args) != ifFrequency / 1000
    requires Execute(ReadyOnly, PowerUpCmd(chip), b.powerUp).ret == 0
    requires chip == Si2141Type ==> Execute(ReadyOnly, Si2141WakeCmd, b.wake).ret == 0
    requires var r := Execute(ReadyOnly, RevisionCmd, b.revision);
      r.ret == 0 && |r.args| >= 5 && FirmwareFor(ChipId(r.args[1], r.args[2], r.args[3], r.args[4])) == UnknownChip
    ensures InitRun(chip, ifFrequency, b) == InitOutcome(EINVAL, false)
  {
  }

  /**
   * A cold init of a chip that needs a firmware file succeeds exactly when
   * every step succeeds: the power up, the part query, the firmware request,
   * an image of whole 17-byte records whose length bytes fit and whose
   * records all succeed, the reboot and the version query.
   */
  lemma ColdBootWithImage(chip: ChipType, ifFrequency: nat, b: Boot)
    requires BootScripted(b) && chip != Si2141Type
    requires var q := Execute(ReadyOnly, IfQueryCmd, b.ifQuery);
      q.ret == 0 && |q.args| >= 4 && ReportedIf(q.args) != ifFrequency / 1000
    requires var r := Execute(ReadyOnly, RevisionCmd, b.revision);
      |r.args| >= 5 && FirmwareFor(ChipId(r.args[1], r.args[2], r.args[3], r.args[4])) == Fw2158
    ensures InitRun(chip, ifFrequency, b).ret == 0 <==>
      Execute(ReadyOnly, PowerUpCmd(chip), b.powerUp).ret == 0
      && Execute(ReadyOnly, RevisionCmd, b.revision).ret == 0
      && b.firmwareRet == 0 && |b.fw| % 17 == 0
      && !Image(b.fw, Framed17, ARGLEN).bad && RunAll(ReadyOnly, Image(b.fw, Framed17, ARGLEN).cmds, b.envs).ret == 0
      && Execute(ReadyOnly, RebootCmd, b.reboot).ret == 0 && Execute(ReadyOnly, VersionCmd, b.version).ret == 0
  {
  }

  /**
   * The writes a cold init puts on the bus after the IF query, in order:
   * power up, the Si2141's wake-up, the part query, the firmware records
   * issued, reboot and the version query; each failing step ends the list.
   */
  function ColdBootSent(chip: ChipType, b: Boot): (w: seq<seq<bv8>>)
    requires BootScripted(b)
    ensures |w| >= 1 && w[0] == PowerUpCmd(chip).args[..PowerUpCmd(chip).wlen]
  {
    Written(PowerUpCmd(chip))
    + if Execute(ReadyOnly, PowerUpCmd(chip), b.powerUp).ret != 0 then []
      else if chip != Si2141Type then PartQuerySent(b)
      else Written(Si2141WakeCmd) + (if Execute(ReadyOnly, Si2141WakeCmd, b.wake).ret != 0 then [] else PartQuerySent(b))
  }

  /** The writes from the part query on: the query, the firmware records issued, reboot and the version query. */
  function PartQuerySent(b: Boot): (w: seq<seq<bv8>>)
    requires BootScripted(b)
    ensures |w| >= 1 && w[0] == RevisionCmd.args[..RevisionCmd.wlen]
  {
    var r := Execute(ReadyOnly, RevisionCmd, b.revision);
    Written(RevisionCmd)
    + if r.ret != 0 then []
      else
        ExecuteKeepsSize(ReadyOnly, RevisionCmd, b.revision);
        var f := FirmwareFor(ChipId(r.args[1], r.args[2], r.args[3], r.args[4]));
        if f == UnknownChip then []
        else
          FirmwareSent(f, b) + if FirmwareStage(f, b) != 0 then [] else RebootSent(b)
  }

  /** The writes that end a cold init: reboot and, when it succeeds, the version query. */
  function RebootSent(b: Boot): (w: seq<seq<bv8>>)
    ensures |w| >= 1 && w[0] == RebootCmd.args[..RebootCmd.wlen]
  {
    Written(RebootCmd) + (if Execute(ReadyOnly, RebootCmd, b.reboot).ret != 0 then [] else Written(VersionCmd))
  }

  /** The firmware records a cold init issues: none for built-in firmware or when no image of 17-byte records was loaded. */
  function FirmwareSent(f: FwChoice, b: Boot): (w: seq<seq<bv8>>)
    requires BootScripted(b)
    ensures f == Builtin || b.firmwareRet != 0 || |b.fw| % 17 != 0 ==> w == []
  {
    if f == Builtin || b.firmwareRet != 0 || |b.fw| % 17 != 0 then []
    else
      var cmds := Image(b.fw, Framed17, ARGLEN).cmds;
      WrittenAll(cmds[..RunAll(ReadyOnly, cmds, b.envs).issued])
  }

  /** The writes of init: the IF query, then nothing more on the warm path, or the cold path. */
  function InitSent(chip: ChipType, ifFrequency: nat, b: Boot): (w: seq<seq<bv8>>)
    requires BootScripted(b)
    ensures |w| >= 1 && w[0] == IfQueryCmd.args[..IfQueryCmd.wlen]
    ensures InitRun(chip, ifFrequency, b).warm ==> w == Written(IfQueryCmd)
  {
    var q := Execute(ReadyOnly, IfQueryCmd, b.ifQuery);
    ExecuteKeepsSize(ReadyOnly, IfQueryCmd, b.ifQuery);
    Written(IfQueryCmd)
    + if q.ret != 0 || ReportedIf(q.args) == ifFrequency / 1000 then [] else ColdBootSent(chip, b)
  }

  /**
   * A successful cold init of a chip that needs the Si2158 image has put
   * every record of the image on the bus, between the part query and the
   * reboot.
   */
  lemma ColdBootSendsWholeImage(chip: ChipType, ifFrequency: nat, b: Boot)
    requires BootScripted(b) && chip != Si2141Type
    requires var q := Execute(ReadyOnly, IfQueryCmd, b.ifQuery);
      q.ret == 0 && |q.args| >= 4 && ReportedIf(q.args) != ifFrequency / 1000
    requires var r := Execute(ReadyOnly, RevisionCmd, b.revision);
      |r.args| >= 5 && FirmwareFor(ChipId(r.args[1], r.args[2], r.args[3], r.args[4])) == Fw2158
    requires InitRun(chip, ifFrequency, b).ret == 0
    ensures InitSent(chip, ifFrequency, b) == Written(IfQueryCmd) + Written(PowerUpCmd(chip)) + Written(RevisionCmd)
      + WrittenAll(Image(b.fw, Framed17, ARGLEN).cmds) + Written(RebootCmd) + Written(VersionCmd)
  {
    var cmds := Image(b.fw, Framed17, ARGLEN).cmds;
    ColdBootWithImage(chip, ifFrequency, b);
    RunAllSucceeds(ReadyOnly, cmds, b.envs);
    assert cmds[..|cmds|] == cmds;
    var q, p, r, e, s, v := Written(IfQueryCmd), Written(PowerUpCmd(chip)), Written(RevisionCmd), WrittenAll(cmds),
      Written(RebootCmd), Written(VersionCmd);
    assert FirmwareSent(Fw2158, b) == e && RebootSent(b) == s + v;
    assert PartQuerySent(b) == r + (e + (s + v));
    assert InitSent(chip, ifFrequency, b) == q + (p + (r + (e + (s + v))));
    AppendAssoc(q, p, r + (e + (s + v)));
    AppendAssoc(q + p, r, e + (s + v));
    AppendAssoc(q + p + r, e, s + v);
    AppendAssoc(q + p + r + e, s, v);
  }

  // ------------------------------------------------------------ set_params

  /** The tuning parameters set_params reads from the property cache. */
  datatype TunerParams = TunerParams(system: DeliverySystem, bandwidthHz: nat, frequency: nat)

  /** The bandwidth nibble: 6, 7 or 8 MHz, and 0x0f for anything wider. */
  function BandwidthByte(bw: nat): (b: bv8)
    ensures b == 0x06 <==> bw <= 6000000
    ensures b == 0x07 <==> 6000000 < bw <= 7000000
    ensures b == 0x08 <==> 7000000 < bw <= 8000000
    ensures b == 0x0f <==> bw > 8000000
  {
    if bw <= 6000000 then 0x06
    else if bw <= 7000000 then 0x07
    else if bw <= 8000000 then 0x08
    else 0x0f
  }

  /** The delivery-system code of the tuner and the IF frequency (Hz) it implies. */
  datatype SystemSetting = SystemSetting(code: bv8, ifHz: nat)

  /**
   * ATSC is 0x00 at 3.25 MHz IF, DVB-C Annex B 0x10 at 4 MHz; DVB-T/T2 0x20,
   * Annex A 0x30, ISDB-T 0x40 and DTMB 0x60 use 5 MHz; every other system
   * is rejected.
   */
  function SystemSettingFor(sys: DeliverySystem): (r: Option<SystemSetting>)
    ensures r.Some? <==> sys in {Atsc, DvbcAnnexB, Dvbt, Dvbt2, DvbcAnnexA, Isdbt, Dtmb}
    ensures r.Some? ==> r.value.code & 0x0f == 0 && (r.value.ifHz == 5000000 <==> sys !in {Atsc, DvbcAnnexB})
    ensures sys == Atsc ==> r == Some(SystemSetting(0x00, 3250000))
    ensures sys == DvbcAnnexB ==> r == Some(SystemSetting(0x10, 4000000))
  {
    match sys
    case Atsc => Some(SystemSetting(0x00, 3250000))
    case DvbcAnnexB => Some(SystemSetting(0x10, 4000000))
    case Dvbt => Some(SystemSetting(0x20, 5000000))
    case Dvbt2 => Some(SystemSetting(0x20, 5000000))
    case DvbcAnnexA => Some(SystemSetting(0x30, 5000000))
    case Isdbt => Some(SystemSetting(0x40, 5000000))
    case Dtmb => Some(SystemSetting(0x60, 5000000))
    case _ => None
  }

  /** Property 0x0703: the system code ORed with the bandwidth, and the spectral inversion. */
  function SystemCmd(s: SystemSetting, bw: nat, inversion: bool): (c: Cmd)
    ensures ValidCmd(c) && c.wlen == 6 && c.rlen == 4
    ensures c.args[..6] == [0x14, 0x00, 0x03, 0x07, s.code | BandwidthByte(bw), if inversion then 0x01 else 0x00]
  {
    Command([0x14, 0x00, 0x03, 0x07, s.code | BandwidthByte(bw), if inversion then 0x01 else 0x00], 4)
  }

  /** Property 0x0702: the IF output port, with the Si2146's different second value byte. */
  function PortCmd(chip: ChipType, ifPort: bv8): (c: Cmd)
    ensures ValidCmd(c) && c.wlen == 6 && c.rlen == 4
    ensures c.args[..6] == [0x14, 0x00, 0x02, 0x07, ifPort, if chip == Si2146Type then 0x01 else 0x00]
  {
    Command([0x14, 0x00, 0x02, 0x07, ifPort, if chip == Si2146Type then 0x01 else 0x00], 4)
  }

  /** Property 0x0706: the IF frequency in kHz, low byte first. */
  function IfCmd(ifHz: nat): (c: Cmd)
    ensures ValidCmd(c) && c.wlen == 6 && c.rlen == 4 && c.args[..4] == [0x14, 0x00, 0x06, 0x07]
    ensures ifHz / 1000 < 0x1_0000 ==> c.args[4] as int + 256 * c.args[5] as int == ifHz / 1000
  {
    var khz := ifHz / 1000;
    Command([0x14, 0x00, 0x06, 0x07, Lo8(khz), Lo8(khz / 256)], 4)
  }

  /** The tune command 0x41: the frequency as four bytes, least significant first. */
  function FrequencyCmd(f: nat): (c: Cmd)
    ensures ValidCmd(c) && c.wlen == 8 && c.rlen == 1 && c.args[..4] == [0x41, 0x00, 0x00, 0x00]
    ensures LittleEndian(c.args[4..8]) == f % U32_MOD
  {
    var c := Command([0x41, 0x00, 0x00, 0x00, ByteAt(f, 0), ByteAt(f, 1), ByteAt(f, 2), ByteAt(f, 3)], 1);
    assert c.args[4..8] == c.args[..8][4..8];
    FrequencyBytes(f);
    c
  }

  /** The four low bytes of a number, least significant first, give it back modulo 2^32. */
  lemma FrequencyBytes(f: nat)
    ensures LittleEndian([ByteAt(f, 0), ByteAt(f, 1), ByteAt(f, 2), ByteAt(f, 3)]) == f % U32_MOD
  {
    var b0, b1, b2, b3 := ByteAt(f, 0), ByteAt(f, 1), ByteAt(f, 2), ByteAt(f, 3);
    LittleEndianFour(b0, b1, b2, b3);
    ByteAtLow(f);
    ByteSplit(f);
  }

  /** The byte positions of a 32-bit number as divisions by powers of 256. */
  lemma ByteAtLow(f: nat)
    ensures ByteAt(f, 0) as int == f % 0x100 && ByteAt(f, 1) as int == (f / 0x100) % 0x100
    ensures ByteAt(f, 2) as int == (f / 0x1_0000) % 0x100 && ByteAt(f, 3) as int == (f / 0x100_0000) % 0x100
  {
    Pow2Eight();
    Pow2Add(8, 8);
    Pow2Add(16, 8);
  }

  /** Splitting a number into bytes: the four low bytes recombine to its residue modulo 2^32. */
  lemma ByteSplit(f: nat)
    ensures f % 0x100 + 0x100 * ((f / 0x100) % 0x100 + 0x100 * ((f / 0x1_0000) % 0x100 + 0x100 * ((f / 0x100_0000) % 0x100)))
      == f % U32_MOD
  {
    var q1, q2, q3 := f / 0x100, f / 0x1_0000, f / 0x100_0000;
    assert q2 == q1 / 0x100 && q3 == q2 / 0x100;
    assert f == f % 0x100 + 0x100 * q1;
    assert q1 == q1 % 0x100 + 0x100 * q2;
    assert q2 == q2 % 0x100 + 0x100 * q3;
    assert q3 == q3 % 0x100 + 0x100 * (f / U32_MOD);
  }

  /** The little-endian value of four bytes. */
  lemma LittleEndianFour(b0: bv8, b1: bv8, b2: bv8, b3: bv8)
    ensures LittleEndian([b0, b1, b2, b3]) == b0 as int + 0x100 * (b1 as int + 0x100 * (b2 as int + 0x100 * b3 as int))
  {
    assert [b3][1..] == [];
    assert LittleEndian([b3]) == b3 as int;
    assert [b2, b3][1..] == [b3];
    assert LittleEndian([b2, b3]) == b2 as int + 0x100 * b3 as int;
    assert [b1, b2, b3][1..] == [b2, b3];
    assert LittleEndian([b1, b2, b3]) == b1 as int + 0x100 * LittleEndian([b2, b3]);
    assert [b0, b1, b2, b3][1..] == [b1, b2, b3];
  }

  /** The bus behaviour for the commands of set_params, one exchange each. */
  datatype ParamsBus = ParamsBus(system: Exchange, port: Exchange, ifFreq: Exchange, tune: Exchange)

  /** The commands of set_params in bus order; the IF property only when the cached IF differs. */
  function ParamsCmds(s: SystemSetting, chip: ChipType, inversion: bool, ifPort: bv8,
                      t: TunerParams, needIf: bool): (cs: seq<Cmd>)
    ensures |cs| == (if needIf then 4 else 3)
    ensures forall i :: 0 <= i < |cs| ==> ValidCmd(cs[i])
    ensures cs[0] == SystemCmd(s, t.bandwidthHz, inversion) && cs[1] == PortCmd(chip, ifPort)
    ensures cs[|cs| - 1] == FrequencyCmd(t.frequency) && (needIf ==> cs[2] == IfCmd(s.ifHz))
  {
    var c1, c2, c3, c4 := SystemCmd(s, t.bandwidthHz, inversion), PortCmd(chip, ifPort), IfCmd(s.ifHz), FrequencyCmd(t.frequency);
    if needIf then [c1, c2, c3, c4] else [c1, c2, c4]
  }

  /** The exchanges of the commands ParamsCmds lists, in the same order. */
  function ParamsEnvs(bus: ParamsBus, needIf: bool): (es: seq<Exchange>)
    ensures |es| == (if needIf then 4 else 3)
  {
    if needIf then [bus.system, bus.port, bus.ifFreq, bus.tune] else [bus.system, bus.port, bus.tune]
  }

  /** The return code of set_params, the cached IF frequency afterwards and how many commands it issued. */
  datatype ParamsOutcome = ParamsOutcome(ret: int, ifFrequency: nat, issued: nat)

  /**
   * set_params: -EAGAIN while inactive and -EINVAL for an unsupported
   * system, both before any command; then the system and port properties,
   * the IF property only when the IF differs from the cached one, and the
   * tune command, stopping at the first failure.  The cache takes the new
   * IF once its command succeeded, which is when the tune command is
   * issued.
   */
  function ParamsRun(active: bool, chip: ChipType, inversion: bool, ifPort: bv8, cachedIf: nat,
                     t: TunerParams, bus: ParamsBus): (r: ParamsOutcome)
    ensures !active ==> r == ParamsOutcome(EAGAIN, cachedIf, 0)
    ensures active && SystemSettingFor(t.system).None? ==> r == ParamsOutcome(EINVAL, cachedIf, 0)
  {
    if !active then ParamsOutcome(EAGAIN, cachedIf, 0)
    else match SystemSettingFor(t.system)
      case None => ParamsOutcome(EINVAL, cachedIf, 0)
      case Some(s) =>
        var needIf := s.ifHz != cachedIf;
        var cs := ParamsCmds(s, chip, inversion, ifPort, t, needIf);
        var q := RunAll(ReadyOnly, cs, ParamsEnvs(bus, needIf));
        ParamsOutcome(q.ret, if q.issued == |cs| then s.ifHz else cachedIf, q.issued)
  }

  /**
   * set_params stops at the first failing command: it succeeds exactly when
   * it issues every command and each succeeds, and a failure is the code of
   * the last command issued, all those before it having succeeded.
   */
  lemma ParamsStopsAtFirstFailure(chip: ChipType, inversion: bool, ifPort: bv8, cachedIf: nat,
                                  t: TunerParams, bus: ParamsBus)
    requires SystemSettingFor(t.system).Some?
    ensures var s := SystemSettingFor(t.system).value;
      var needIf := s.ifHz != cachedIf;
      var cs, es := ParamsCmds(s, chip, inversion, ifPort, t, needIf), ParamsEnvs(bus, needIf);
      var r := ParamsRun(true, chip, inversion, ifPort, cachedIf, t, bus);
      1 <= r.issued <= |cs|
      && Succeed(ReadyOnly, cs, es, r.issued - 1)
      && (r.ret == 0 <==> r.issued == |cs| && Succeed(ReadyOnly, cs, es, |cs|))
      && (r.ret != 0 ==> r.ret == Execute(ReadyOnly, cs[r.issued - 1], es[r.issued - 1]).ret)
  {
    var s := SystemSettingFor(t.system).value;
    var needIf := s.ifHz != cachedIf;
    var cs, es := ParamsCmds(s, chip, inversion, ifPort, t, needIf), ParamsEnvs(bus, needIf);
    RunAllIssuesOne(ReadyOnly, cs, es);
    RunAllPrefixSucceeds(ReadyOnly, cs, es);
    RunAllSucceeds(ReadyOnly, cs, es);
    RunAllFails(ReadyOnly, cs, es);
  }

  /** A non-empty command list issues at least its first command. */
  lemma RunAllIssuesOne(v: Variant, cmds: seq<Cmd>, envs: seq<Exchange>)
    requires Scripted(cmds, envs) && cmds != []
    ensures RunAll(v, cmds, envs).issued >= 1
  {
  }

  /**
   * The IF property is issued exactly when the system and port properties
   * succeeded and the IF the system needs differs from the cached one.  The
   * cache only ever takes that IF, and only once its command succeeded;
   * after a successful set_params it holds the IF of the system tuned.
   */
  lemma IfCacheRule(chip: ChipType, inversion: bool, ifPort: bv8, cachedIf: nat, t: TunerParams, bus: ParamsBus)
    requires SystemSettingFor(t.system).Some?
    ensures var s := SystemSettingFor(t.system).value;
      var r := ParamsRun(true, chip, inversion, ifPort, cachedIf, t, bus);
      (r.ifFrequency == cachedIf || r.ifFrequency == s.ifHz)
      && (r.ret == 0 ==> r.ifFrequency == s.ifHz)
      && (r.ifFrequency != cachedIf ==> Execute(ReadyOnly, IfCmd(s.ifHz), bus.ifFreq).ret == 0)
      && (s.ifHz != cachedIf && r.issued >= 3 <==>
            s.ifHz != cachedIf
            && Execute(ReadyOnly, SystemCmd(s, t.bandwidthHz, inversion), bus.system).ret == 0
            && Execute(ReadyOnly, PortCmd(chip, ifPort), bus.port).ret == 0)
  {
    var s := SystemSettingFor(t.system).value;
    var needIf := s.ifHz != cachedIf;
    var cs, es := ParamsCmds(s, chip, inversion, ifPort, t, needIf), ParamsEnvs(bus, needIf);
    RunAllPrefixSucceeds(ReadyOnly, cs, es);
    RunAllSucceeds(ReadyOnly, cs, es);
    if needIf && Succeed(ReadyOnly, cs, es, 2) {
      RunAllSkip(ReadyOnly, cs, es, 2);
      RunAllIssuesOne(ReadyOnly, cs[2..], es[2..]);
    }
  }

  // ------------------------------------------------------------ RF strength

  /** The RSSI query; byte 3 of the reply is the level in dBm as a signed byte. */
  const RssiCmd: Cmd := Command([0x42, 0x00], 12)

  /** The strength statistic of a successful RSSI query: the signed dBm reading in 0.001 dB. */
  function StrengthOfReply(b: bv8): (s: Stat)
    ensures s.scale == Decibel && -128000 <= s.value < 128000 && s.value % 1000 == 0
    ensures b < 0x80 ==> s.value == b as int * 1000
    ensures b >= 0x80 ==> s.value == (b as int - 256) * 1000
  {
    Stat(Decibel, S8(b) * 1000)
  }

  // ------------------------------------------------------------------ device

  /** The state of one tuner: the driver's fields, the strength statistic it owns, and the chip channel. */
  class Tuner {
    var active: bool
    var ifFrequency: nat
    var strength: Stat
    const chip: ChipType
    const inversion: bool
    const ifPort: bv8
    const chan: Channel

    /** probe: the device starts inactive with the chip's default IF frequency of 5 MHz. */
    constructor (chipType: ChipType, inv: bool, port: bv8)
      ensures !active && ifFrequency == 5000000 && strength == DefaultStat
      ensures chip == chipType && inversion == inv && ifPort == port
      ensures fresh(chan) && !chan.held && chan.sent == []
    {
      active, ifFrequency, strength := false, 5000000, DefaultStat;
      chip, inversion, ifPort := chipType, inv, port;
      chan := new Channel();
    }

    /**
     * init: a warm start or a cold boot (see InitRun); on success the
     * strength statistic is marked unavailable and the device activated.
     */
    method Init(b: Boot) returns (ret: int)
      requires !chan.held && BootScripted(b)
      modifies this`active, this`strength, chan
      ensures !chan.held && chan.sent == old(chan.sent) + InitSent(chip, ifFrequency, b)
      ensures ret == InitRun(chip, ifFrequency, b).ret
      ensures active == (old(active) || ret == 0)
      ensures strength == (if ret == 0 then old(strength).(scale := NotAvailable) else old(strength))
    {
      var q := chan.Exec(ReadyOnly, IfQueryCmd, b.ifQuery);
      if q.ret != 0 {
        assert InitRun(chip, ifFrequency, b).ret == q.ret && InitSent(chip, ifFrequency, b) == Written(IfQueryCmd);
        return q.ret;
      }
      ExecuteKeepsSize(ReadyOnly, IfQueryCmd, b.ifQuery);
      if ReportedIf(q.args) != ifFrequency / 1000 {
        assert InitSent(chip, ifFrequency, b) == Written(IfQueryCmd) + ColdBootSent(chip, b);
        AppendAssoc(old(chan.sent), Written(IfQueryCmd), ColdBootSent(chip, b));
        ret := ColdBoot(b);
        if ret != 0 {
          return ret;
        }
      } else {
        assert InitRun(chip, ifFrequency, b).ret == 0 && InitSent(chip, ifFrequency, b) == Written(IfQueryCmd);
      }
      strength := strength.(scale := NotAvailable);
      active := true;
      ret := 0;
    }

    /** The cold path of init: power up, part query, firmware, reboot and version query. */
    method ColdBoot(b: Boot) returns (ret: int)
      requires !chan.held && BootScripted(b)
      requires var q := Execute(ReadyOnly, IfQueryCmd, b.ifQuery);
        q.ret == 0 && |q.args| >= 4 && ReportedIf(q.args) != ifFrequency / 1000
      modifies chan
      ensures !chan.held && ret == InitRun(chip, ifFrequency, b).ret
      ensures chan.sent == old(chan.sent) + ColdBootSent(chip, b)
    {
      assert InitRun(chip, ifFrequency, b).ret == ColdRun(chip, b);
      var o := chan.Exec(ReadyOnly, PowerUpCmd(chip), b.powerUp);
      if o.ret != 0 {
        return o.ret;
      }
      ghost var sent1 := chan.sent;
      if chip == Si2141Type {
        o := chan.Exec(ReadyOnly, Si2141WakeCmd, b.wake);
        if o.ret != 0 {
          return o.ret;
        }
        ret := PartQuery(b);
        AppendAssoc(sent1, Written(Si2141WakeCmd), PartQuerySent(b));
      } else {
        ret := PartQuery(b);
      }
      AppendAssoc(old(chan.sent), Written(PowerUpCmd(chip)), chan.sent[|sent1|..]);
    }

    /** The part query and what follows it: the firmware the chip id selects, reboot and the version query. */
    method PartQuery(b: Boot) returns (ret: int)
      requires !chan.held && BootScripted(b)
      modifies chan
      ensures !chan.held && ret == PartQueryRun(b)
      ensures chan.sent == old(chan.sent) + PartQuerySent(b)
    {
      var o := chan.Exec(ReadyOnly, RevisionCmd, b.revision);
      if o.ret != 0 {
        assert PartQueryRun(b) == o.ret && PartQuerySent(b) == Written(RevisionCmd);
        return o.ret;
      }
      ExecuteKeepsSize(ReadyOnly, RevisionCmd, b.revision);
      var f := FirmwareFor(ChipId(o.args[1], o.args[2], o.args[3], o.args[4]));
      if f == UnknownChip {
        assert PartQueryRun(b) == EINVAL && PartQuerySent(b) == Written(RevisionCmd);
        return EINVAL;
      }
      ghost var sent1 := chan.sent;
      ghost var tail := if FirmwareStage(f, b) != 0 then [] else RebootSent(b);
      assert PartQuerySent(b) == Written(RevisionCmd) + (FirmwareSent(f, b) + tail);
      AppendAssoc(old(chan.sent), Written(RevisionCmd), FirmwareSent(f, b) + tail);
      ret := LoadFirmware(f, b);
      if ret != 0 {
        assert PartQueryRun(b) == ret && tail == [];
        return ret;
      }
      assert PartQueryRun(b) == RebootRun(b) && tail == RebootSent(b);
      ret := Reboot(b);
      AppendAssoc(sent1, FirmwareSent(f, b), RebootSent(b));
    }

    /** The firmware stage: nothing for built-in firmware, else the request, the size check and the download. */
    method LoadFirmware(f: FwChoice, b: Boot) returns (ret: int)
      requires !chan.held && BootScripted(b) && f != UnknownChip
      modifies chan
      ensures !chan.held && ret == FirmwareStage(f, b)
      ensures chan.sent == old(chan.sent) + FirmwareSent(f, b)
    {
      if f == Builtin || b.firmwareRet != 0 || |b.fw| % 17 != 0 {
        return if f == Builtin then 0 else if b.firmwareRet != 0 then b.firmwareRet else EINVAL;
      }
      var issued;
      ret, issued := chan.Download(ReadyOnly, b.fw, Framed17, ARGLEN, b.envs);
    }

    /** Reboot, then the version query when the reboot succeeded; the first failure's code is returned. */
    method Reboot(b: Boot) returns (ret: int)
      requires !chan.held
      modifies chan
      ensures !chan.held && ret == RebootRun(b)
      ensures chan.sent == old(chan.sent) + RebootSent(b)
    {
      var o := chan.Exec(ReadyOnly, RebootCmd, b.reboot);
      if o.ret != 0 {
        return o.ret;
      }
      o := chan.Exec(ReadyOnly, VersionCmd, b.version);
      ret := o.ret;
    }

    /** sleep: only marks the device inactive; the standby command is commented out in the driver. */
    method Sleep() returns (ret: int)
      modifies this`active
      ensures !active && ret == 0
    {
      active := false;
      ret := 0;
    }

    /** set_params (see ParamsRun); exactly the issued commands reach the bus. */
    method SetParams(t: TunerParams, bus: ParamsBus) returns (ret: int)
      requires !chan.held
      modifies this`ifFrequency, chan
      ensures !chan.held
      ensures var r := ParamsRun(active, chip, inversion, ifPort, old(ifFrequency), t, bus);
        ret == r.ret && ifFrequency == r.ifFrequency
      ensures match SystemSettingFor(t.system)
        case None => chan.sent == old(chan.sent)
        case Some(s) =>
          var cs := ParamsCmds(s, chip, inversion, ifPort, t, s.ifHz != old(ifFrequency));
          chan.sent == old(chan.sent) + WrittenAll(cs[..ParamsRun(active, chip, inversion, ifPort, old(ifFrequency), t, bus).issued])
    {
      if !active {
        assert WrittenAll([]) == [] && chan.sent + [] == chan.sent;
        return EAGAIN;
      }
      var setting := SystemSettingFor(t.system);
      if setting.None? {
        return EINVAL;
      }
      var s := setting.value;
      var needIf := s.ifHz != ifFrequency;
      var cmds := ParamsCmds(s, chip, inversion, ifPort, t, needIf);
      var q := chan.RunSequence(ReadyOnly, cmds, ParamsEnvs(bus, needIf));
      if q.issued == |cmds| {
        ifFrequency := s.ifHz;
      }
      ret := q.ret;
    }

    /** get_if_frequency: the IF frequency the tuner was last programmed with. */
    method GetIfFrequency() returns (ret: int, frequency: nat)
      ensures ret == 0 && frequency == ifFrequency
    {
      return 0, ifFrequency;
    }

    /**
     * get_rf_strength: the RSSI query; a failure returns -1 and leaves the
     * statistic and the caller's strength alone, a success records the
     * signed dBm reading and returns the raw byte as the strength.
     */
    method GetRfStrength(x: Exchange, st: nat) returns (ret: int, signal: nat)
      requires !chan.held
      modifies this`strength, chan
      ensures !chan.held && chan.sent == old(chan.sent) + Written(RssiCmd)
      ensures var o := Execute(ReadyOnly, RssiCmd, x);
        (o.ret != 0 ==> ret == -1 && strength == old(strength) && signal == st)
        && (o.ret == 0 ==> |o.args| == ARGLEN && ret == 0 && strength == StrengthOfReply(o.args[3])
                           && signal == o.args[3] as int)
    {
      var o := chan.Exec(ReadyOnly, RssiCmd, x);
      if o.ret != 0 {
        return -1, st;
      }
      ExecuteKeepsSize(ReadyOnly, RssiCmd, x);
      strength := StrengthOfReply(o.args[3]);
      return 0, o.args[3] as int;
    }
  }
}
