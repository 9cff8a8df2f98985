# Verified model of the Silicon Labs, ST, Tamsemi and Airoha DVB frontend drivers

This project models the integer and bit-level logic of six Linux DVB
frontend drivers, together with the header they share:

- the Si2183, Si2168 and TAS2101 demodulators;
- the STV0910 demodulator (stv091x.c and stv091x.h);
- the Si2157 and AV201x silicon tuners.

Every hardware access in these drivers goes over I2C. The model replaces
the bus by one of two deterministic stand-ins, so that each driver
operation becomes a function or a method whose behaviour is fully stated:

- **Firmware command channel** (`FirmwareCmd`, fwcmd.dfy). It is shared by
  the Silicon Labs chips. A command is the value the send returns plus a
  finite script of the replies the chip gives while the driver polls. The
  length of that script is the driver's time budget. The demodulator copy
  checks the error bit (bit 6) and the tuner copy does not.
- **Register map** (`Registers.RegisterMap`, registers.dfy). It is used by
  the ST, Tamsemi and Airoha drivers. It is a class whose fields are the
  byte of each register, the addresses whose reads or writes fail, and a
  log of the writes that reached the chip.

On top of these stand-ins the model covers:

- **Register-field access:** stv091x labels, and `regmask`/`wrtable`.
- **The three lookup interpolators:**
  - `stv091x_lookup` with its three tables;
  - the TAS2101 strength and SNR tables;
  - the AV201x RF level.
- **Parameter encoders and decoders:**
  - bandwidth, delivery-system and modulation codes;
  - little-endian frequency and symbol-rate bytes;
  - the DVB-S2 PLS scrambling code, computed by the gold-sequence shift
    register of section 5.5.4 of ETSI EN 302 307-1;
  - DiSEqC chunking;
  - the AV201x PLL and filter words;
  - the STV0910 SFR, master-clock and DiSEqC-divider arithmetic.
- **Acquisition state:**
  - each driver's `algo` flag and the operations that set and read it;
  - the bounded lock searches;
  - the Si2183 blind-scan symbol-rate schedule;
  - the STV0910 lock wait and its frequency-offset restart.
- **Statistics:** the counters read with the status.

C semantics are written out explicitly:

- `Common.CDiv` is C's truncating division. Dafny's own `/` is Euclidean.
- `Common.Wrap`, `Common.S16`, `Common.S32` and `Common.S8` are the
  unsigned and signed conversions.
- Register bytes are `bv8`.

Where a driver loops or updates state, the model is a method with the same
loop, proved equal to a specification function. The properties are lemmas
about those functions.

The device methods follow the code as written, including where it departs
from its evident intent (see "## Findings"). For each such place the model
has two definitions side by side. One is the behaviour as written, which the
device methods use, together with a lemma exhibiting the discrepancy. The
other is the corrected definition, with the intended property proved about
it. No device method uses the corrected one.

## Model

| member | source | states |
|---|---|---|
| Common.CDiv | drivers/media/dvb-frontends/stv091x.c:484 | C division truncates toward zero: the quotient's magnitude is the quotient of the magnitudes and its sign is negative exactly when the operands' signs differ |
| Common.Wrap | drivers/media/dvb-frontends/stv091x.c:910 | storing into an unsigned C type lands in its range and keeps a value that fits |
| Common.S16 | drivers/media/dvb-frontends/stv091x.c:484 | the s16 conversion lands in [-0x8000, 0x8000) and agrees with the value modulo 2^16 |
| Common.S32 | drivers/media/dvb-frontends/si2168.c:253 | the s32 conversion lands in the signed 32-bit range, agrees modulo 2^32 and keeps a value that fits |
| Common.S8 | drivers/media/tuners/si2157.c:409 | the s8 conversion of a byte lands in [-128, 128) and agrees with it modulo 256 |
| Common.Lo8 | drivers/media/tuners/si2157.c:353-354 | the u8 store keeps the value modulo 256, exactly when it fits |
| Common.ByteAt | drivers/media/tuners/si2157.c:366-369 | shifting by 8k and masking with 0xff gives byte k of the value |
| Common.LittleEndian | drivers/media/dvb-frontends/si2183.c:667-670 | a little-endian byte string's value fits its width |
| Common.BandwidthCode | drivers/media/dvb-frontends/si2168.c:383-401 | a zero bandwidth is rejected; otherwise the code is 0x0f exactly above 10 MHz, every other code in MHz covers the bandwidth, and the code fits the low nibble |
| Common.BandwidthCodeIsTightest | drivers/media/dvb-frontends/si2183.c:697-714 | the code is the narrowest step covering the bandwidth: every narrower step is exceeded |
| Common.BandwidthCodeMonotone | drivers/media/dvb-frontends/si2183.c:697-714 | a wider bandwidth never gets a smaller code |
| Common.SymbolRateBytes | drivers/media/dvb-frontends/si2183.c:560-561 | a rate below 65536 kS/s is carried exactly by the two property bytes, low byte first |
| Common.LockFlags | drivers/media/dvb-frontends/si2168.c:164-172 | bit 1 of the status byte gives SIGNAL and CARRIER, bits 1 and 2 together give VITERBI, SYNC and LOCK, and TIMEDOUT is never set |
| Common.PollVerdictMeaning | drivers/media/dvb-frontends/si2168.c:583-607 | the lock loop succeeds exactly when a poll reports LOCK after error-free polls, fails exactly when the whole budget passes error-free without it, and otherwise reports the error |
| FirmwareCmd.Received | drivers/media/dvb-frontends/si2168.c:51 | a read of rlen bytes leaves rlen bytes |
| FirmwareCmd.ReceivedKeeps | drivers/media/dvb-frontends/si2168.c:51 | a long enough reply is cut to rlen bytes and a short one is kept whole and padded with zeros |
| FirmwareCmd.Overlay | drivers/media/dvb-frontends/si2168.c:51 | reading into the argument buffer keeps its size |
| FirmwareCmd.OverlayKeeps | drivers/media/dvb-frontends/si2168.c:51 | the read's bytes come first in the buffer and the rest of the buffer is kept |
| FirmwareCmd.Poll | drivers/media/dvb-frontends/si2168.c:46-62 | the polling loop uses at most the replies available; a failed read ends it with a negative code after at least one read; a finished poll keeps the buffer size |
| FirmwareCmd.ExecuteKeepsSize | drivers/media/dvb-frontends/si2168.c:24-92 | executing a command leaves an argument buffer of the command's size |
| FirmwareCmd.PollReplies | drivers/media/dvb-frontends/si2168.c:50-62 | the while loop computes Poll |
| FirmwareCmd.PollFacts | drivers/media/dvb-frontends/si2168.c:50-62 | the poll stops at the first ready reply or failed read, and runs out only after every reply was read without the ready bit |
| FirmwareCmd.ExecuteClassification | drivers/media/dvb-frontends/si2183.c:185-217 | success needs an accepted write and, when a reply is expected, a final buffer with the ready bit set and, for the demodulators, the error bit clear; the error bit is checked before readiness, and a missing ready bit is -ETIMEDOUT |
| FirmwareCmd.ExecuteTransport | drivers/media/dvb-frontends/si2183.c:172-196 | a failed send returns its code and a short one -EREMOTEIO, both without a read; an accepted write with nothing to read succeeds; a short read becomes -EREMOTEIO |
| FirmwareCmd.VariantsDiffer | drivers/media/tuners/si2157.c:44-66 | the tuner accepts a ready reply with the error bit set where the demodulators return -EREMOTEIO; otherwise the two agree |
| FirmwareCmd.ErrorReplyExample | drivers/media/tuners/si2157.c:57-66 | a 0xC0 reply to a one-byte read succeeds for the tuner and is -EREMOTEIO for the demodulators |
| FirmwareCmd.Request | drivers/media/dvb-frontends/si2168.c:765-767 | a command built by the drivers is well formed, its request bytes start a buffer of ARGLEN bytes, with the given wlen and rlen |
| FirmwareCmd.Written | drivers/media/dvb-frontends/si2168.c:34-44 | a command with a non-zero wlen puts exactly its first wlen argument bytes on the bus, and one without puts nothing |
| FirmwareCmd.RunAll | drivers/media/dvb-frontends/si2168.c:738-740 | a command list issues at most its commands |
| FirmwareCmd.RunAllPrefixSucceeds | drivers/media/dvb-frontends/si2168.c:738-740 | every command before the last one issued succeeded |
| FirmwareCmd.RunAllSucceeds | drivers/media/dvb-frontends/si2168.c:738-740 | a command list succeeds exactly when every command succeeds, all of them issued |
| FirmwareCmd.RunAllFails | drivers/media/dvb-frontends/si2168.c:738-740 | a failing list returns the code of its first failing command, which is the last one issued |
| FirmwareCmd.WrittenAll | drivers/media/dvb-frontends/si2168.c:34-44 | a list's writes are at most one per command |
| FirmwareCmd.Channel.constructor | drivers/media/dvb-frontends/si2168.c:1008 | the channel starts with its mutex free, no acquisition and nothing sent |
| FirmwareCmd.Channel.Exec | drivers/media/dvb-frontends/si2168.c:24-92 | the mutex is taken once and released on every exit, the outcome is Execute's and the bus receives the command's write |
| FirmwareCmd.Channel.RunSequence | drivers/media/dvb-frontends/si2168.c:738-740 | running a list until the first failure releases the mutex, gives RunAll's outcome and sends exactly the issued commands' writes |
| FirmwareCmd.Channel.ExecAt | drivers/media/dvb-frontends/si2168.c:738-740 | executing command i is one step of RunAll, and the bus receives its write |
| FirmwareCmd.Channel.RunEach | drivers/media/dvb-frontends/si2183.c:812-837 | a run of commands whose results are discarded sends every command's write |
| FirmwareCmd.Channel.Download | drivers/media/dvb-frontends/si2168.c:727-756 | the download replays the image's records in order until the first failure, a length byte above ARGLEN ends it with -EINVAL before sending, and the result is DownloadRet |
| FirmwareCmd.RecordSize | drivers/media/dvb-frontends/si2168.c:727-744 | a record is 17 bytes in the framed format and 8 in the raw one |
| FirmwareCmd.BytesInImage | drivers/media/dvb-frontends/si2168.c:735 | inside the image the bytes copied are the image's own |
| FirmwareCmd.RecordCmd | drivers/media/dvb-frontends/si2168.c:735-737 | a record command is well formed, writes exactly the payload and waits for a one-byte reply |
| FirmwareCmd.RecordPayload | drivers/media/dvb-frontends/si2168.c:730-735 | the payload has the record's length |
| FirmwareCmd.LastRecordOverruns | drivers/media/dvb-frontends/si2168.c:727-735 | in an image of whole 17-byte records the last record's payload stays inside the image exactly when its length byte is at most 16; lengths 17 up to ARGLEN pass the length check and read past the image end |
| FirmwareCmd.RawRecordInImage | drivers/media/dvb-frontends/si2168.c:742-746 | in an image of whole 8-byte records every raw record lies inside the image |
| FirmwareCmd.OverrunReadsZeros | drivers/media/tuners/si2157.c:191-207 | a single 17-byte record with length byte 20 is sent as a 20-byte command whose last four bytes lie past the image and are read as zeros in the model |
| FirmwareCmd.RecordsFrom | drivers/media/dvb-frontends/si2168.c:729-752 | the raw format never meets a bad record, and every record visited lies in the image with a length that fits ARGLEN |
| FirmwareCmd.RecordCmds | drivers/media/dvb-frontends/si2168.c:729-752 | one command per record visited |
| FirmwareCmd.Image | drivers/media/dvb-frontends/si2168.c:729-752 | the raw format never meets a bad record |
| FirmwareCmd.RecordCmdsAt | drivers/media/dvb-frontends/si2168.c:729-752 | command j sends the j-th record visited |
| FirmwareCmd.RecordAtSends | drivers/media/dvb-frontends/si2168.c:730-737 | the command built for a record with a good length byte sends exactly that record |
| FirmwareCmd.RecordsInOrder | drivers/media/dvb-frontends/si2168.c:729-752 | the walk visits the records back to back, the j-th at j record sizes from the start |
| FirmwareCmd.ImageSendsRecords | drivers/media/dvb-frontends/si2168.c:727-752 | the download replays the image's records in order: command j sends the j-th record |
| FirmwareCmd.WalkEndsBad | drivers/media/dvb-frontends/si2168.c:730-733 | a walk cut short stops at a record inside the image whose length byte exceeds ARGLEN |
| FirmwareCmd.WalkEndsClean | drivers/media/dvb-frontends/si2168.c:729 | a walk not cut short goes on to the image end |
| FirmwareCmd.FramedImageCount | drivers/media/dvb-frontends/si2168.c:727-741 | a framed image of 17-byte records gives one command per record unless a length byte is too large |
| FirmwareCmd.ParseImage | drivers/media/dvb-frontends/si2168.c:729-752 | the record walk computes Image |
| FirmwareCmd.WalkImage | drivers/media/dvb-frontends/si2168.c:729-752 | the loop over the records computes RecordsFrom from offset 0 |
| FirmwareCmd.DownloadRet | drivers/media/dvb-frontends/si2168.c:727-761 | the download returns 0 exactly when no record is bad and every command succeeds |
| Registers.MaskedByte | drivers/media/tuners/av201x.c:77-88 | the byte regmask writes has every setmask bit set, no clrmask bit outside setmask, the read byte's other bits, and is setmask alone when clrmask is 0xff |
| Registers.TableRun | drivers/media/dvb-frontends/tas2101.c:120-133 | wrtable attempts at most the table's entries and returns 0 or -EREMOTEIO |
| Registers.SingleEntry | drivers/media/dvb-frontends/tas2101.c:107-118 | a one-entry table is one regmask: the register takes the masked byte and one write is logged when the entry's read and write succeed, and nothing changes otherwise |
| Registers.TableStopsAtFirstError | drivers/media/tuners/av201x.c:90-103 | wrtable succeeds exactly when every entry succeeds; otherwise the last entry attempted is the first failing one |
| Registers.TableWritesInOrder | drivers/media/dvb-frontends/tas2101.c:124-128 | each entry before the failing one writes once, to its own register and in table order, after the earlier log; the failing entry and the later ones write nothing |
| Registers.TableLeavesOthers | drivers/media/dvb-frontends/tas2101.c:120-133 | a register no entry names keeps its value and its presence |
| Registers.WriteOne | drivers/media/dvb-frontends/tas2101.c:75-79 | a one-register write fails with -EREMOTEIO and changes nothing when refused, and otherwise sets the register and logs the write |
| Registers.BlockLog | drivers/media/dvb-frontends/tas2101.c:57-72 | a block write logs one write per byte, byte k to address a + k |
| Registers.StoreBlockReadsBack | drivers/media/dvb-frontends/tas2101.c:57-72 | after a block write each written register reads back its byte and every other register is unchanged |
| Registers.LoadBlock | drivers/media/dvb-frontends/tas2101.c:82-99 | a block read of n registers returns n bytes, byte k being register a + k |
| Registers.RegisterMap.constructor | drivers/media/dvb-frontends/tas2101.c:57-105 | the register map starts from the given contents and bus failures, with an empty write log |
| Registers.RegisterMap.Read | drivers/media/dvb-frontends/tas2101.c:102-105 | a one-byte read returns -EREMOTEIO and the zero byte when refused, and 0 with the register's value otherwise |
| Registers.RegisterMap.Write | drivers/media/dvb-frontends/tas2101.c:75-79 | a one-byte write changes nothing when refused, and otherwise sets the register and appends the write to the log |
| Registers.RegisterMap.ReadBlock | drivers/media/dvb-frontends/tas2101.c:82-99 | a multi-byte read returns -EREMOTEIO and zeroes when refused, and otherwise the n consecutive registers |
| Registers.RegisterMap.WriteBlock | drivers/media/dvb-frontends/tas2101.c:57-72 | a multi-byte write changes nothing when refused, and otherwise stores the bytes at consecutive registers and logs them in order |
| Registers.RegisterMap.Latch | drivers/media/dvb-frontends/tas2101.c:384-391 | the chip sets one of its own registers; nothing is logged |
| Registers.RegisterMap.RegMask | drivers/media/dvb-frontends/tas2101.c:107-118 | regmask has the effect and result of a one-entry wrtable |
| Registers.RegisterMap.WrTable | drivers/media/dvb-frontends/tas2101.c:120-133 | the loop over the table has the registers, log and result of TableRun |
| Registers.OrCodes | drivers/media/tuners/av201x.c:120-134 | or-ing two codes that are each 0 or -EREMOTEIO gives 0 exactly when both are 0, and -EREMOTEIO otherwise |
| Si2183.DecodeStatus | drivers/media/dvb-frontends/si2183.c:456-471 | SIGNAL and CARRIER are set exactly when bit 1 of the status byte is set, VITERBI, SYNC and LOCK exactly when bits 1 and 2 both are, and TIMEDOUT exactly after a failed search |
| Common.BerValue | drivers/media/dvb-frontends/si2183.c:492-505 | read_ber, alike in the Si2183 and Si2168 drivers, gives 1 without lock and otherwise the product of the two reply bytes reduced to its low 4 bits |
| Si2183.ReadUcblocks | drivers/media/dvb-frontends/si2183.c:507-520 | the block count is 0 unless bit 4 of the status byte is set, and then the little-endian 16-bit counter of reply bytes 1 and 2 |
| Si2183.DvbcModulationCode | drivers/media/dvb-frontends/si2183.c:535-556 | the modulation code is 0 exactly for QAM_AUTO and unlisted modulations, and 0x07-0x0b for QAM16 to QAM256 |
| Si2183.DvbcModulationCodeInjective | drivers/media/dvb-frontends/si2183.c:535-556 | distinct QAM orders get distinct codes |
| Si2183.McnsSettings | drivers/media/dvb-frontends/si2183.c:579-593 | Annex B programs 5361 kS/s and the QAM256 code for QAM256, and 5087 kS/s and the QAM64 code for everything else |
| Si2183.X | drivers/media/dvb-frontends/si2183.c:600-614 | the scrambler's x-sequence is binary |
| Si2183.GoldStep | drivers/media/dvb-frontends/si2183.c:604-609 | one shift keeps the 18 stages |
| Si2183.GoldState | drivers/media/dvb-frontends/si2183.c:603-609 | the register always has 18 stages |
| Si2183.GoldStateIsWindow | drivers/media/dvb-frontends/si2183.c:603-609 | after k shifts the register holds x(k) ... x(k + 17) of the x-sequence |
| Si2183.GoldIndexRange | drivers/media/dvb-frontends/si2183.c:600-614 | the code index fits 18 bits and gold code 0 has index 1 |
| Si2183.GoldCodeIndex | drivers/media/dvb-frontends/si2183.c:600-614 | gold_code_index returns the weighted sum of the register after n shifts |
| Si2183.ShiftRegister | drivers/media/dvb-frontends/si2183.c:605-608 | one shift of the array computes the next register state |
| Si2183.WeighStages | drivers/media/dvb-frontends/si2183.c:610-611 | the loop returns the weighted sum of the 18 stages, stage j weighing 2^j |
| Si2183.PlsMode | drivers/media/dvb-frontends/si2183.c:660 | the PLS mode is below 4 |
| Si2183.PlsNumber | drivers/media/dvb-frontends/si2183.c:661 | the PLS number fits 18 bits |
| Si2183.PlsRootCode | drivers/media/dvb-frontends/si2183.c:660-663 | the root code programmed fits 18 bits |
| Si2183.PlsCommand | drivers/media/dvb-frontends/si2183.c:664-670 | SET_PLSCODE is eight bytes starting 0x73, with the enable byte 1 exactly for a non-zero code and bytes 2-3 zero |
| Si2183.PlsCommandCarriesCode | drivers/media/dvb-frontends/si2183.c:664-670 | the last four bytes of SET_PLSCODE decode, little-endian, to the root code |
| Si2183.Le32 | drivers/media/dvb-frontends/si2183.c:667-670 | a u32 is four bytes |
| Si2183.LittleEndianFour | drivers/media/dvb-frontends/si2183.c:667-670 | the little-endian value of four bytes is their positional sum |
| Si2183.Le32RoundTrip | drivers/media/dvb-frontends/si2183.c:667-670 | the four bytes of an 18-bit code decode back to it, with a zero top byte |
| Si2183.StreamIdByteAsWritten | drivers/media/dvb-frontends/si2183.c:656 | the stream-id byte as written is 1 for every non-zero stream id and 0 otherwise |
| Si2183.StreamIdByte | drivers/media/dvb-frontends/si2183.c:724 | the intended stream-id byte is the low byte of the stream id |
| Si2183.StreamIdByteDiscrepancy | drivers/media/dvb-frontends/si2183.c:656 | input stream 5 is sent as 1, and the two bytes agree exactly when the low byte is 1 for a non-zero id or the id is 0 |
| Si2183.StreamIdCommandAsWritten | drivers/media/dvb-frontends/si2183.c:654-658 | SET_DVBS2_STREAMID as the driver sends it: byte 1 is 1 for every non-zero stream id and 0 otherwise, byte 2 is 0 exactly without a stream filter |
| Si2183.StreamIdCommand | drivers/media/dvb-frontends/si2183.c:655-658 | the corrected SET_DVBS2_STREAMID carries the low byte of the stream id and 0 exactly without a stream filter |
| FirmwareCmd.DemodCommand | drivers/media/dvb-frontends/si2183.c:230-237 | a demodulator command built from request bytes is well formed, starts with those bytes, has their length as wlen and a 30-byte argument buffer |
| FirmwareCmd.PropertyWrite | drivers/media/dvb-frontends/si2183.c:559-561 | a property write is the six bytes 0x14 0x00, the property code and the two value bytes, waiting for a 4-byte reply |
| Si2183.DvbtCommands | drivers/media/dvb-frontends/si2183.c:677-734 | DVB-T/T2 setup starts with the terrestrial AGC, stops there exactly for a zero bandwidth, and otherwise programs the system byte with the tightest bandwidth code |
| Si2183.DvbtHead | drivers/media/dvb-frontends/si2183.c:685-720 | a DVB-T/T2 setup with a known bandwidth begins with three commands, the first the terrestrial AGC |
| Si2183.Dvbt2Tail | drivers/media/dvb-frontends/si2183.c:722-731 | only DVB-T2 adds the stream id and the T2 mode, two commands |
| Si2183.BandwidthSetterRet | drivers/media/dvb-frontends/si2183.c:697-698 | the DVB-T and ISDB-T setters return -EINVAL exactly for a zero bandwidth, 0 otherwise |
| Si2183.IsdbtCommands | drivers/media/dvb-frontends/si2183.c:736-769 | ISDB-T setup starts with the terrestrial AGC and stops there exactly for a zero bandwidth |
| Si2183.DvbcCommands | drivers/media/dvb-frontends/si2183.c:523-565 | DVB-C setup is four commands, the third writing the modulation code |
| Si2183.McnsCommands | drivers/media/dvb-frontends/si2183.c:567-598 | Annex B setup is four commands |
| Si2183.DvbsCommands | drivers/media/dvb-frontends/si2183.c:616-675 | satellite setup is three commands, five for DVB-S2: the fourth is SET_DVBS2_STREAMID as written (StreamIdCommandAsWritten) and the last SET_PLSCODE with the stream's root code |
| Si2183.DvbsHead | drivers/media/dvb-frontends/si2183.c:625-652 | satellite setup begins with AGC, system and symbol rate |
| Si2183.Dvbs2Tail | drivers/media/dvb-frontends/si2183.c:654-672 | only DVB-S2 adds commands: SET_DVBS2_STREAMID as written (StreamIdCommandAsWritten), then SET_PLSCODE |
| Si2183.SetterCommands | drivers/media/dvb-frontends/si2183.c:812-834 | a setter exists exactly for DVB-T, T2, C Annex A and B, ISDB-T, DVB-S, S2 and DSS, and sends at least one well-formed command; the satellite setters send DvbsCommands, with the stream-id byte as written |
| Si2183.SetFrontendIgnoresSetter | drivers/media/dvb-frontends/si2183.c:771-844 | set_frontend succeeds exactly when the device is active, the tuner accepted and the system is supported, even when the DVB-T setter rejected a zero bandwidth |
| Si2183.DiseqcFlags | drivers/media/dvb-frontends/si2183.c:1435-1440 | the flag byte has the enable bit, the tone, burst, burst select and end-of-sequence bits as given, and the length in bits 5-7 |
| Si2183.DiseqcCommand | drivers/media/dvb-frontends/si2183.c:1437-1443 | the DiSEqC command is 0x8c, the flag byte and the message chunk, in an eight-byte request |
| Si2183.MessageChunkCount | drivers/media/dvb-frontends/si2183.c:1510-1519 | an n-byte message becomes ceil(n/6) commands |
| Si2183.MessageChunkShape | drivers/media/dvb-frontends/si2183.c:1510-1519 | each command carries at most six bytes and only the last one ends the sequence |
| Si2183.MessageChunkPayloads | drivers/media/dvb-frontends/si2183.c:1510-1519 | together the commands carry the message, in order |
| Si2183.ChunkStep | drivers/media/dvb-frontends/si2183.c:1511-1515 | the commands from a position are the chunk there followed by the commands after it |
| Si2183.ChunkMessage | drivers/media/dvb-frontends/si2183.c:1502-1525 | the chunking loop builds exactly the message's command list |
| Si2183.NextSr | drivers/media/dvb-frontends/si2183.c:1319-1323 | each step lowers the symbol rate |
| Si2183.Schedule | drivers/media/dvb-frontends/si2183.c:1151-1324 | the schedule starts at the given rate |
| Si2183.ScheduleFromMax | drivers/media/dvb-frontends/si2183.c:1113-1324 | from 65 MS/s the rates tried are 65, 45, 25, 5, 3 and 1 MS/s |
| Si2183.FirstHit | drivers/media/dvb-frontends/si2183.c:1221-1229 | the poll loop's counter lies between its start and ten |
| Si2183.FirstHitIsFirst | drivers/media/dvb-frontends/si2183.c:1221-1229 | the loop stops at the first poll whose condition holds, and runs to ten only when none does |
| Si2183.PollStage | drivers/media/dvb-frontends/si2183.c:1221-1234 | one poll loop stops at the first poll whose condition holds |
| Si2183.PollLoopRunsOut | drivers/media/dvb-frontends/si2183.c:1230-1234 | a poll loop runs out exactly when none of its ten polls answers |
| Si2183.ScanFrom | drivers/media/dvb-frontends/si2183.c:1153-1324 | the scan tries at least one rate |
| Si2183.ScanStep | drivers/media/dvb-frontends/si2183.c:1153-1324 | the scan either stops at this attempt or goes on at the next rate |
| Si2183.ScanFollowsSchedule | drivers/media/dvb-frontends/si2183.c:1153-1324 | the scan tries the schedule's rates in order, and all of them without a lock |
| Si2183.ScanLockIsLast | drivers/media/dvb-frontends/si2183.c:1307-1324 | the scan locked exactly when its last attempt locked |
| Si2183.ScanStopsAtFirstLock | drivers/media/dvb-frontends/si2183.c:1307-1324 | every attempt before the last failed to lock |
| Si2183.BlindScanCandidates | drivers/media/dvb-frontends/si2183.c:1113-1324 | from 65 MS/s the scan makes one to six attempts, a prefix of 65, 45, 25, 5, 3, 1 MS/s, all six without lock |
| Si2183.TryAttempt | drivers/media/dvb-frontends/si2183.c:1215-1317 | one attempt reports whether an acquisition stage ran out of polls and whether the lock poll locked |
| Si2183.BlindScan | drivers/media/dvb-frontends/si2183.c:1151-1324 | the do/while loop's rates, lock and stall flags are those of the scan from 65 MS/s |
| Si2183.ScanAdvance | drivers/media/dvb-frontends/si2183.c:1153-1324 | the scan loop's invariant holds across one attempt |
| Si2183.FeBit | drivers/media/dvb-frontends/si2183.c:864 | a frontend id below 8 has exactly one bit in the u8 mask, and larger ids none |
| Si2183.InitResultAsWritten | drivers/media/dvb-frontends/si2183.c:846-1003 | the boot as written returns a non-zero code only for an unknown chip, a missing firmware file, or a bad firmware record followed by a failed reboot or version query, and then activates nothing |
| Si2183.ColdResultAsWritten | drivers/media/dvb-frontends/si2183.c:903-1003 | the cold path as written leaves the firmware marked loaded exactly when it activates the chip |
| Si2183.InitResultReportsFailures | drivers/media/dvb-frontends/si2183.c:846-1003 | the corrected boot reports success exactly when it activates the chip, exactly when every step succeeded, and the firmware counts as loaded afterwards exactly when it was before or the boot succeeded |
| Si2183.InitAsWrittenHidesFailures | drivers/media/dvb-frontends/si2183.c:871-957 | the boot as written activates whenever the corrected one does, otherwise only after a bad firmware record, and returns 0 on a failed INIT command |
| Si2183.InitFailureReportedAsSuccess | drivers/media/dvb-frontends/si2183.c:880-882 | a failing INIT command returns 0 as written but its error when corrected, with the chip inactive |
| Si2183.BadRecordIgnored | drivers/media/dvb-frontends/si2183.c:940-957 | a first record with length byte 31 boots the chip as written and is -EINVAL when corrected |
| Si2183.ToneFlags | drivers/media/dvb-frontends/si2183.c:1449-1473 | a flag byte exists exactly for tone on and off, with the tone bit exactly for on and the end-of-sequence bit |
| Si2183.BurstFlags | drivers/media/dvb-frontends/si2183.c:1475-1500 | a flag byte exists exactly for burst A and B, with the burst bit, the select bit exactly for B and the end-of-sequence bit |
| Si2183.InitCmd | drivers/media/dvb-frontends/si2183.c:871-880 | the second INIT is the first one unchanged, except that clock start mode 1 clears byte 3 and sets byte 5 to 6 |
| Si2183.ResumeCmd | drivers/media/dvb-frontends/si2183.c:885-890 | RESUME carries 0x31 in byte 6 for clock start mode 1 and 0x21 otherwise |
| Si2183.SettingsCmds | drivers/media/dvb-frontends/si2183.c:970-992 | the nine property writes after the version query; TS_MODE ors in the configured mode and 0x40 for a gapped clock, and the TS parallel setting has bit 4 of byte 5 exactly for a non-inverted TS clock |
| Si2183.JoinBytesIsB60 | drivers/media/dvb-frontends/si2183.c:911-916 | four bytes joined most significant first give the Si2183-B60 id exactly when each byte is that id's byte |
| Si2183.ChipIdOf | drivers/media/dvb-frontends/si2183.c:911-916 | the reply's chip id is Si2183-B60 exactly when bytes 1 to 4 are 'B', 83, '6', '0' |
| Si2183.ResultsOf | drivers/media/dvb-frontends/si2183.c:871-967 | the result of every checked boot step is read off the chip's answers, with the firmware request and image as given |
| Si2183.InitSent | drivers/media/dvb-frontends/si2183.c:871-999 | a boot's writes begin with the INIT template and then the second INIT as the clock mode leaves it |
| Si2183.ColdSent | drivers/media/dvb-frontends/si2183.c:903-993 | the cold path's writes begin with POWER_ON |
| Si2183.AfterImageSent | drivers/media/dvb-frontends/si2183.c:959-993 | the writes after the image begin with the reboot command |
| Si2183.ColdBootSendsImage | drivers/media/dvb-frontends/si2183.c:871-999 | a cold boot that activates the chip has written INIT twice, POWER_ON, the revision query, the image, reboot, the version query and the nine settings, in that order, with every command the image parses to between the revision query and reboot |
| Si2183.Demod.constructor | drivers/media/dvb-frontends/si2183.c:1635-1703 | a new device has no tune armed, is cold and inactive with no active frontend and no firmware loaded, records its configuration, and has a fresh idle channel |
| Si2183.Demod.GetFrontendAlgo | drivers/media/dvb-frontends/si2183.c:1081-1091 | CUSTOM exactly when dtv_tune armed the search, NOTUNE otherwise |
| Si2183.Demod.DtvTune | drivers/media/dvb-frontends/si2183.c:1093-1103 | dtv_tune arms the search and returns 0 |
| Si2183.Demod.Init | drivers/media/dvb-frontends/si2183.c:846-1003 | init disarms the search; with another frontend active it only adds this frontend's bit and sends nothing; otherwise its return and firmware flag are those of the boot as written (InitResultAsWritten), which alone activates the chip with this frontend's bit, and the channel receives exactly InitSent |
| Si2183.Demod.BootChip | drivers/media/dvb-frontends/si2183.c:869-1003 | the boot's return, firmware flag and activation are InitResultAsWritten's, and the channel receives exactly InitSent |
| Si2183.Demod.Resume | drivers/media/dvb-frontends/si2183.c:884-901 | the warm path succeeds exactly when RESUME and the DSP reset both do, and sends RESUME and, after its success, the DSP reset |
| Si2183.Demod.ColdBoot | drivers/media/dvb-frontends/si2183.c:903-994 | the cold path's return and firmware flag are ColdResultAsWritten's, and the channel receives exactly ColdSent |
| Si2183.Demod.LoadFirmware | drivers/media/dvb-frontends/si2183.c:940-994 | the download, reboot, version query and settings return what the boot as written returns from that point, mark the firmware loaded exactly on activation, and put exactly the issued records and following commands on the channel |
| Si2183.Demod.Sleep | drivers/media/dvb-frontends/si2183.c:1005-1027 | sleep disarms and clears this frontend's bit; only when no frontend remains is the chip deactivated and sent the SLEEP command, whose result is returned |
| Si2183.Demod.ReadStatus | drivers/media/dvb-frontends/si2183.c:283-485 | while inactive -EAGAIN and nothing changes; otherwise the status byte, the decoded flags, and the CNR and strength from reply bytes 3 and 6 in quarter decibels |
| Si2183.Demod.SetFrontend | drivers/media/dvb-frontends/si2183.c:771-844 | the return is SetFrontendRet; on success the delivery system is recorded and the setter's commands (for DVB-S2 with the stream-id byte as written) and a DSP reset sent, otherwise nothing is sent |
| Si2183.Demod.Search | drivers/media/dvb-frontends/si2183.c:1105-1335 | without an armed search it fails at once; otherwise it succeeds exactly when the scan locks, and the search ends FAILED after no lock or a stalled stage |
| Si2183.Demod.SendDiseqcMsg | drivers/media/dvb-frontends/si2183.c:1502-1525 | the message's chunk commands are sent until the first failure, whose code is returned |
| Si2183.Demod.SetTone | drivers/media/dvb-frontends/si2183.c:1449-1473 | an unknown tone mode is -EINVAL with nothing sent, otherwise the tone command's result |
| Si2183.Demod.SendBurst | drivers/media/dvb-frontends/si2183.c:1475-1500 | an unknown burst is -EINVAL with nothing sent, otherwise the burst command's result |
| Si2168.TsModeByte | drivers/media/dvb-frontends/si2168.c:103-110 | the TS_MODE byte always keeps 0x10, carries the configured mode when acquiring and the tri-state value when releasing, and bit 6 exactly for a gapped clock |
| Si2168.TsBusCmd | drivers/media/dvb-frontends/si2168.c:103-112 | the TS bus command writes property 0x1001 with the TS_MODE byte |
| Si2168.DecodeStatus | drivers/media/dvb-frontends/si2168.c:164-175 | SIGNAL and CARRIER are set exactly when bit 1 of reply byte 2 is set, VITERBI, SYNC and LOCK exactly when bits 1 and 2 both are, and TIMEDOUT exactly while no tune is armed |
| Si2168.StatusCmd | drivers/media/dvb-frontends/si2168.c:134-158 | a status query exists exactly for DVB-T, DVB-C Annex A and B and DVB-T2, with the per-system command byte and reply length |
| Si2168.BerExponent | drivers/media/dvb-frontends/si2168.c:201 | the decimal exponent is at most 8, is 8 minus the reported exponent when that is at most 8, and 0 otherwise |
| Si2168.Pow10Add | drivers/media/dvb-frontends/si2168.c:202-203 | powers of ten multiply by adding exponents |
| Si2168.BerErrors | drivers/media/dvb-frontends/si2168.c:197-205 | the bit errors of a reading are at most 255 * 10^8 and times 10^e equal the mantissa times 10^8, an exponent of 8 or more giving the mantissa itself |
| Si2168.BerErrorsAsWritten | drivers/media/dvb-frontends/si2168.c:201-205 | the product as the driver computes it is below 2^32 and congruent to the true bit-error count modulo 2^32 |
| Si2168.BerAsWrittenAgrees | drivers/media/dvb-frontends/si2168.c:201-205 | the 32-bit product equals the true count exactly when the exponent is at least 1 or the mantissa at most 42 |
| Si2168.BerWrapExample | drivers/media/dvb-frontends/si2168.c:201-205 | mantissa 43 at exponent 0 means 4 300 000 000 bit errors but the driver adds 5 032 704 |
| Si2168.UcbCount | drivers/media/dvb-frontends/si2168.c:230-235 | the block count is the little-endian 16-bit counter of reply bytes 1 and 2, with the bogus 0xffff read as 0 |
| Si2168.Count | drivers/media/dvb-frontends/si2168.c:212-215 | advancing a u64 counter marks it a counter and adds n while the sum fits |
| Si2168.Unavailable | drivers/media/dvb-frontends/si2168.c:217-218 | marking a statistic unavailable keeps its last value |
| Si2168.StatusReadOf | drivers/media/dvb-frontends/si2168.c:118-247 | read_status is -EAGAIN while inactive and -EINVAL for an unsupported system with no flags decoded; decoded flags carry TIMEDOUT exactly while no tune is armed; success implies the BER query succeeded when VITERBI is set and the UCB query when SYNC is set |
| Si2168.StatsAfter | drivers/media/dvb-frontends/si2168.c:176-241 | without decoded flags the statistics are unchanged; with them the CNR is a decibel value exactly under LOCK, the bit counters advance under VITERBI by the reading's errors as the driver's 32-bit product gives them (BerErrorsAsWritten) and by 10^8 bits, and the block counter advances under SYNC, each marked unavailable otherwise |
| Si2168.CnrFromReply | drivers/media/dvb-frontends/si2168.c:179-182 | a locked reading's CNR is reply byte 3 in quarter decibels, kept in 1/1000 dB |
| Si2168.ReadSnr | drivers/media/dvb-frontends/si2168.c:249-256 | the SNR fits a u16 and is 0 without a decibel CNR |
| Si2168.SnrOfReading | drivers/media/dvb-frontends/si2168.c:253 | a CNR of k quarter decibels reads as k * 328 modulo 2^16, exactly k * 328 below k = 200 |
| Si2168.ReadSignalStrength | drivers/media/dvb-frontends/si2168.c:258-265 | the strength fits a u16 and is 0 without a decibel reading |
| Si2168.StrengthOfReading | drivers/media/dvb-frontends/si2168.c:262 | a strength of -100 dBm plus d dB reads as d * 656 |
| Si2168.Prepare | drivers/media/dvb-frontends/si2168.c:360-401 | the tuning is rejected exactly for an unsupported system or a zero bandwidth; Annex A below 6 MS/s becomes Annex B at 6 MHz with code 0x10; an accepted tuning carries the tightest bandwidth code and a system code in the high nibble |
| Si2168.SystemByteSplits | drivers/media/dvb-frontends/si2168.c:478 | the system code and the bandwidth code share property byte 4 without overlapping and each can be read back |
| Si2168.AgcCommand | drivers/media/dvb-frontends/si2168.c:417-425 | the AGC command starts 0x89 0x21 0x06 0x11 for DVB-T, Annex A and DVB-T2, and for Annex B sends the buffer left by the previous command unchanged |
| Si2168.StepBytes | drivers/media/dvb-frontends/si2168.c:449-552 | every fixed configuration step writes between one and six bytes |
| Si2168.PlpSteps | drivers/media/dvb-frontends/si2168.c:430-440 | only DVB-T2 selects a PLP, with the low byte of the stream id and 0 exactly for no stream filter |
| Si2168.SymbolRateSteps | drivers/media/dvb-frontends/si2168.c:487-507 | only DVB-C programs the symbol rate in kS/s, to property 0x1102 for Annex A and 0x1602 for Annex B |
| Si2168.TuneSteps | drivers/media/dvb-frontends/si2168.c:417-552 | the configuration starts with the AGC command, carries the system and bandwidth property with the spectral inversion bit, and ends with the DSP reset |
| Si2168.StepCommand | drivers/media/dvb-frontends/si2168.c:417-552 | each step's command writes exactly that step's bytes, the AGC step being the AGC command |
| Si2168.StepCommands | drivers/media/dvb-frontends/si2168.c:417-552 | the commands of a step list are well formed, one per step |
| Si2168.TuneCommands | drivers/media/dvb-frontends/si2168.c:417-552 | the configuration commands are well formed, one per step |
| Si2168.TuneCommandsLayout | drivers/media/dvb-frontends/si2168.c:417-552 | the first command is AGC, the system property carries both codes and the inversion bit, and the last command resets the DSP |
| Si2168.StepCommandsAt | drivers/media/dvb-frontends/si2168.c:417-552 | command i of a step list is the command of step i |
| Si2168.ConfigureRun | drivers/media/dvb-frontends/si2168.c:410-561 | the MP defaults are always written first, and a zero return means the configuration completed |
| Si2168.SetFrontendRun | drivers/media/dvb-frontends/si2168.c:342-565 | set_frontend is -EAGAIN while inactive, -EINVAL for a rejected tuning and the tuner's error when programming fails, writing nothing in each case; success means configured |
| Si2168.ConfigureStopsAtFirstFailure | drivers/media/dvb-frontends/si2168.c:410-561 | the configuration completes exactly when every command succeeds, then returns the TS bus result having written everything; otherwise it returns the first failure's code having written up to it |
| Si2168.ConfigureRunSteps | drivers/media/dvb-frontends/si2168.c:410-561 | after the MP defaults succeed, the outcome is the configuration list followed by the TS bus |
| Si2168.KindOf | drivers/media/dvb-frontends/si2168.c:587-596 | a poll is an error exactly for a nonzero return, locked exactly for LOCK, waiting exactly with neither LOCK nor TIMEDOUT |
| Si2168.PollKinds | drivers/media/dvb-frontends/si2168.c:584-597 | the loop makes five read_status polls with the search armed, none of which reports TIMEDOUT |
| Si2168.SearchMeaning | drivers/media/dvb-frontends/si2168.c:567-613 | search succeeds exactly when set_frontend succeeds and a poll reports LOCK after error-free waiting polls, fails exactly when all five polls wait, and errs otherwise |
| Si2168.FirmwareFormat | drivers/media/dvb-frontends/si2168.c:727-756 | the image is read as 17-byte records exactly when its size is a nonzero multiple of 17 with a first byte above 5, as 8-byte records exactly when otherwise its size is a multiple of 8 |
| Si2168.EmptyImageSendsNothing | drivers/media/dvb-frontends/si2168.c:727-752 | an empty image sends nothing and succeeds whichever format its missing first byte selects |
| Si2168.FefCmd | drivers/media/dvb-frontends/si2168.c:786-790 | the FEF command carries the FEF pin in bits 0-2 and its inversion in bit 3, nothing above |
| Si2168.InitMpCmd | drivers/media/dvb-frontends/si2168.c:797-815 | every MP slot is 1 except the FEF pin's slot, 3 when inverted and 2 otherwise |
| Si2168.AgcInitCmd | drivers/media/dvb-frontends/si2168.c:822-826 | the AGC byte keeps 0x01 in its low nibble, the AGC pin in bits 4-6 and its inversion in bit 7 |
| Si2168.VersionWordFields | drivers/media/dvb-frontends/si2168.c:780-781 | for decimal digits the version word packs letter, major, minor and build, one byte each |
| Si2168.SleepRuleIsVersionOrder | drivers/media/dvb-frontends/si2168.c:877-879 | for a well-formed version the sleep rule is the lexicographic comparison of (letter, major, minor, build) with ('B', 4, 0, 11) |
| Si2168.InitRun | drivers/media/dvb-frontends/si2168.c:652-858 | init succeeds exactly when it activates the device, and the warm path records no version |
| Si2168.InitIgnoresSettings | drivers/media/dvb-frontends/si2168.c:786-831 | the answers to the FEF, MP-defaults and AGC commands cannot change the outcome of init |
| Si2168.BadImageSizeRejected | drivers/media/dvb-frontends/si2168.c:753-756 | a cold boot whose image fits neither format fails with -EINVAL and activates nothing |
| Si2168.ColdBootSucceeds | drivers/media/dvb-frontends/si2168.c:694-838 | a cold boot activates the device exactly when INIT, power up, the firmware request, a well-formed image and all its records, start, the version query and the TS bus succeed |
| Si2168.LoadRun | drivers/media/dvb-frontends/si2168.c:703-838 | after power up, an image of neither format fails, and the boot succeeds exactly when it activates the device |
| Si2168.AfterDownloadRun | drivers/media/dvb-frontends/si2168.c:765-838 | the end of the boot succeeds exactly when it activates the device, and the version is known exactly when start and the version query succeeded |
| Si2168.ColdBootSent | drivers/media/dvb-frontends/si2168.c:694-836 | the cold path's writes begin with POWER_UP |
| Si2168.LoadSent | drivers/media/dvb-frontends/si2168.c:703-836 | nothing is written after power up when the firmware request fails or the image fits neither format |
| Si2168.AfterDownloadSent | drivers/media/dvb-frontends/si2168.c:765-836 | the writes after the firmware begin with the start command |
| Si2168.SettingsSent | drivers/media/dvb-frontends/si2168.c:786-836 | after the version query come four writes, the last the TS bus command with the TS enabled |
| Si2168.ResumeSent | drivers/media/dvb-frontends/si2168.c:673-692 | the warm path's writes begin with RESUME |
| Si2168.InitSent | drivers/media/dvb-frontends/si2168.c:652-858 | a boot's writes begin with INIT |
| Si2168.ColdBootSendsWholeImage | drivers/media/dvb-frontends/si2168.c:652-858 | a cold init that activates the device had a recognised firmware format and wrote INIT, POWER_UP, every command of the image, start, the version query and the four settings, in that order |
| Si2168.Demod.constructor | drivers/media/dvb-frontends/si2168.c:1001-1008 | a new device has no tune armed, is cold, inactive, with version 0, and a fresh idle channel |
| Si2168.Demod.TsBusCtrl | drivers/media/dvb-frontends/si2168.c:94-116 | ts_bus_ctrl writes the TS_MODE command and returns its outcome |
| Si2168.Demod.ReadStatus | drivers/media/dvb-frontends/si2168.c:118-247 | the return, flags, bytes written and statistics are those of StatusReadOf and StatsAfter, the bit-error counter advancing by the 32-bit product as the driver computes it |
| Si2168.Demod.Snr | drivers/media/dvb-frontends/si2168.c:249-256 | the cached CNR's SNR fits a u16 and is 0 without a decibel reading |
| Si2168.Demod.ReadBer | drivers/media/dvb-frontends/si2168.c:267-290 | while unlocked nothing is sent and the result is 1; while locked the query's error or the masked product |
| Si2168.Demod.ReadUcblocks | drivers/media/dvb-frontends/si2168.c:292-316 | without bit 4 of stat_resp nothing is sent and the count is 0; with it the query's error or the 16-bit counter |
| Si2168.Demod.GetFrontendAlgo | drivers/media/dvb-frontends/si2168.c:318-328 | NOTUNE exactly when no tune is armed, CUSTOM otherwise |
| Si2168.Demod.DtvTune | drivers/media/dvb-frontends/si2168.c:330-340 | dtv_tune arms the search and returns 0 |
| Si2168.Demod.SetFrontend | drivers/media/dvb-frontends/si2168.c:342-565 | the outcome is SetFrontendRun; the search is armed and the tuning rewritten in the cache only when active, and the delivery system recorded only after a complete configuration |
| Si2168.Demod.Configure | drivers/media/dvb-frontends/si2168.c:410-561 | the outcome is ConfigureRun, recording the delivery system exactly when configured |
| Si2168.Demod.Search | drivers/media/dvb-frontends/si2168.c:567-613 | the verdict is that of set_frontend and the polls, and the search stays armed exactly on SUCCESS |
| Si2168.Demod.Poll | drivers/media/dvb-frontends/si2168.c:587-596 | one pass of the lock loop is the armed read_status classified as error, lock or waiting, never TIMEDOUT, with the I2C gate left released |
| Si2168.Demod.AwaitLock | drivers/media/dvb-frontends/si2168.c:583-607 | the verdict is the poll verdict of the five polls, and the search stays armed exactly on SUCCESS |
| Si2168.Demod.Init | drivers/media/dvb-frontends/si2168.c:652-858 | init disarms the search and its outcome is InitRun; success marks every statistic unavailable and activates the device, a cold success also marks it warm; the channel receives exactly InitSent |
| Si2168.Demod.Resume | drivers/media/dvb-frontends/si2168.c:673-692 | the warm path returns the first failure of RESUME and the DSP reset, and the channel receives exactly ResumeSent |
| Si2168.Demod.LoadFirmware | drivers/media/dvb-frontends/si2168.c:703-838 | the firmware stage and the rest of the boot return LoadRun's code and record its version, and the channel receives exactly LoadSent |
| Si2168.Demod.AfterDownload | drivers/media/dvb-frontends/si2168.c:765-838 | start, the version query, settings and TS bus return AfterDownloadRun's code and record its version, and the channel receives exactly AfterDownloadSent |
| Si2168.Demod.SendSettings | drivers/media/dvb-frontends/si2168.c:786-836 | the four closing writes are sent whatever their results, and the TS bus command's result is returned |
| Si2168.Demod.ColdBoot | drivers/media/dvb-frontends/si2168.c:694-838 | the cold path's outcome is InitRun of a cold device, and the channel receives exactly ColdBootSent |
| Si2168.Demod.Sleep | drivers/media/dvb-frontends/si2168.c:860-892 | sleep disarms and deactivates, and keeps the warm state unless the firmware is later than B 4.0-11 |
| Si2157.Command | drivers/media/tuners/si2157.c:101-103 | a tuner command is well formed, starts with the request bytes, has the given wlen and rlen and an ARGLEN-byte buffer |
| Si2157.ReportedIf | drivers/media/tuners/si2157.c:108 | the IF reported in kHz is below 65536, with reply byte 2 as its low byte and byte 3 as its high byte |
| Si2157.PowerUpCmd | drivers/media/tuners/si2157.c:113-124 | the power-up command starts with 0xc0, waits for one byte and is 9 bytes for the Si2146, 10 for the Si2141 and 15 otherwise |
| Si2157.FirmwareFor | drivers/media/tuners/si2157.c:156-175 | the Si2158 image is chosen exactly for the Si2158/Si2148 A20, the Si2141 image exactly for the Si2141 A10, no image exactly for the Si2157/Si2147 A30 and Si2146 A10, and any other id is rejected |
| Si2157.ChipIdFields | drivers/media/tuners/si2157.c:146-147 | the packed id keeps its four reply bytes apart, each recoverable from it |
| Si2157.Si2158ImageChips | drivers/media/tuners/si2157.c:149-159 | a chip needs the Si2158 image exactly when it reports revision 'A', part 58 or 48, firmware '2' '0' |
| Si2157.FirmwareStage | drivers/media/tuners/si2157.c:179-218 | a chip with built-in firmware skips the stage, and an image that is not a whole number of 17-byte records is -EINVAL |
| Si2157.ColdRun | drivers/media/tuners/si2157.c:113-136 | a failed power up ends the cold path with its code |
| Si2157.RebootRun | drivers/media/tuners/si2157.c:220-236 | the end of a cold init succeeds exactly when reboot and the version query both do |
| Si2157.ColdBootSent | drivers/media/tuners/si2157.c:113-227 | the cold path's writes begin with POWER_UP for the chip |
| Si2157.PartQuerySent | drivers/media/tuners/si2157.c:138-227 | the writes after power-up (and the Si2141 wake) begin with the revision query |
| Si2157.RebootSent | drivers/media/tuners/si2157.c:220-236 | the writes that end a cold init begin with the reboot command |
| Si2157.FirmwareSent | drivers/media/tuners/si2157.c:179-218 | nothing is written for built-in firmware, a failed firmware request, or an image that is not a whole number of 17-byte records |
| Si2157.InitSent | drivers/media/tuners/si2157.c:87-251 | init's writes begin with the IF query, and a warm tuner writes nothing else |
| Si2157.ColdBootSendsWholeImage | drivers/media/tuners/si2157.c:87-251 | a successful cold init of a chip needing the Si2158 image wrote the IF query, POWER_UP, the revision query, every command of the image, reboot and the version query, in that order |
| Si2157.InitRun | drivers/media/tuners/si2157.c:87-251 | the warm path always succeeds |
| Si2157.WarmStartSkipsBoot | drivers/media/tuners/si2157.c:100-111 | the warm path is taken exactly when the IF query succeeds and reports the configured IF in kHz, and then init succeeds whatever the rest of the chip would answer |
| Si2157.UnknownChipRejected | drivers/media/tuners/si2157.c:169-174 | a cold init of a chip whose id is unknown returns -EINVAL before any firmware is requested |
| Si2157.ColdBootWithImage | drivers/media/tuners/si2157.c:113-238 | a cold init of a chip that needs a firmware file succeeds exactly when the power up, the part query, the firmware request, an image of whole 17-byte records whose length bytes fit and whose records all succeed, the reboot and the version query all succeed |
| Si2157.BandwidthByte | drivers/media/tuners/si2157.c:293-300 | the bandwidth nibble is 6, 7 or 8 exactly for bandwidths up to 6, 7 and 8 MHz, and 0x0f exactly for anything wider |
| Si2157.SystemSettingFor | drivers/media/tuners/si2157.c:302-327 | exactly ATSC, DVB-C Annex A/B, DVB-T/T2, ISDB-T and DTMB are accepted, each with its code, with ATSC at 3.25 MHz IF, Annex B at 4 MHz and the others at 5 MHz |
| Si2157.SystemCmd | drivers/media/tuners/si2157.c:329-334 | property 0x0703 carries the system code ORed with the bandwidth nibble and the inversion flag |
| Si2157.PortCmd | drivers/media/tuners/si2157.c:339-345 | property 0x0702 carries the IF port and the Si2146's different second value byte |
| Si2157.IfCmd | drivers/media/tuners/si2157.c:352-356 | property 0x0706 carries the IF in kHz, low byte first |
| Si2157.FrequencyCmd | drivers/media/tuners/si2157.c:365-371 | the tune command 0x41 carries the frequency's four bytes, least significant first, which give it back modulo 2^32 |
| Si2157.FrequencyBytes | drivers/media/tuners/si2157.c:366-369 | the four low bytes of a number, least significant first, give it back modulo 2^32 |
| Si2157.ParamsCmds | drivers/media/tuners/si2157.c:329-375 | set_params sends the system and port properties, the IF property only when the IF differs from the cached one, then the tune command, all well formed |
| Si2157.ParamsEnvs | drivers/media/tuners/si2157.c:329-375 | one bus exchange per command of ParamsCmds |
| Si2157.ParamsRun | drivers/media/tuners/si2157.c:288-327 | an inactive tuner returns -EAGAIN and an unsupported system -EINVAL, both before any command and with the cache kept |
| Si2157.ParamsStopsAtFirstFailure | drivers/media/tuners/si2157.c:335-376 | set_params succeeds exactly when it issues every command and each succeeds; a failure is the code of the last command issued, all those before it having succeeded |
| Si2157.IfCacheRule | drivers/media/tuners/si2157.c:350-362 | the IF property is issued exactly when the two properties before it succeeded and the needed IF differs from the cached one; the cache only takes that IF, once its command succeeded, and holds the tuned system's IF after a successful set_params |
| Si2157.StrengthOfReply | drivers/media/tuners/si2157.c:408-409 | the statistic is in dB, is byte 3 read as a signed 8-bit value times 1000, and lies in [-128000, 128000) |
| Si2157.Tuner.constructor | drivers/media/tuners/si2157.c:429-502 | probe leaves the tuner inactive with the default IF of 5 MHz, its configuration recorded and a free command channel |
| Si2157.Tuner.Init | drivers/media/tuners/si2157.c:87-251 | the result is InitRun's; on success the tuner becomes active and the strength statistic is marked not available, and a failure leaves both alone; the channel receives exactly InitSent |
| Si2157.Tuner.ColdBoot | drivers/media/tuners/si2157.c:113-238 | the cold path returns InitRun's result, releases the channel, and the channel receives exactly ColdBootSent |
| Si2157.Tuner.PartQuery | drivers/media/tuners/si2157.c:138-236 | the part query and what follows return PartQueryRun's code, and the channel receives exactly PartQuerySent |
| Si2157.Tuner.LoadFirmware | drivers/media/tuners/si2157.c:179-218 | the firmware stage returns FirmwareStage's code, and the channel receives exactly FirmwareSent |
| Si2157.Tuner.Reboot | drivers/media/tuners/si2157.c:220-236 | reboot and the version query return RebootRun's code, and the channel receives exactly RebootSent |
| Si2157.Tuner.Sleep | drivers/media/tuners/si2157.c:253-276 | sleep only marks the tuner inactive and returns 0 |
| Si2157.Tuner.SetParams | drivers/media/tuners/si2157.c:278-380 | the result and the cached IF become those of ParamsRun, and exactly the issued commands reach the bus |
| Si2157.Tuner.GetIfFrequency | drivers/media/tuners/si2157.c:382-389 | get_if_frequency returns 0 and the cached IF |
| Si2157.Tuner.GetRfStrength | drivers/media/tuners/si2157.c:391-413 | the RSSI query is sent; a failure returns -1 and leaves the statistic and the caller's strength alone; a success stores StrengthOfReply and returns byte 3 as the strength |
| Tas2101.RawLevel | drivers/media/dvb-frontends/tas2101.c:180 | the raw reading is below 4096, with the first byte as its low byte and the low nibble of the second as its high bits |
| Tas2101.SegmentFrom | drivers/media/dvb-frontends/tas2101.c:182-184 | the search index stays between its start and the last index of the table |
| Tas2101.SegmentFromIsFirst | drivers/media/dvb-frontends/tas2101.c:182-184 | the search stops at the first point whose raw value is below the reading, or at the last point; every earlier point is at or above the reading |
| Tas2101.InterpolatedAtBreakpoint | drivers/media/dvb-frontends/tas2101.c:182-196 | at every calibration point, the first and the last included, the reported value is that point's value |
| Tas2101.InterpolatedClampsAtTop | drivers/media/dvb-frontends/tas2101.c:186-187 | at or above the first raw value the reading is the first value |
| Tas2101.InterpolatedExtrapolatesAtBottom | drivers/media/dvb-frontends/tas2101.c:182-193 | below the last raw value the last segment is used, so the value is extrapolated past the table rather than clamped |
| Tas2101.InterpolatedBetween | drivers/media/dvb-frontends/tas2101.c:188-193 | inside the table's raw range the value lies between the values of the two points around the reading |
| Tas2101.WeightedAverageBetween | drivers/media/dvb-frontends/tas2101.c:191-193 | the weighted average, divided as C divides, stays between the two calibration values |
| Tas2101.CDivBetween | drivers/media/dvb-frontends/tas2101.c:193 | C's truncating division of a value bracketed by d * lo and d * hi lies in [lo, hi] |
| Tas2101.Interpolate | drivers/media/dvb-frontends/tas2101.c:182-196 | the loop's segment search and interpolation compute Interpolated on any descending table |
| Tas2101.Ber26 | drivers/media/dvb-frontends/tas2101.c:148-149 | the DVB-S error count has 26 bits |
| Tas2101.Ber16 | drivers/media/dvb-frontends/tas2101.c:157 | the DVB-S2 error count has 16 bits |
| Tas2101.Ber26RoundTrip | drivers/media/dvb-frontends/tas2101.c:148-149 | every 26-bit count is read back from its four little-endian bytes |
| Tas2101.Ber16RoundTrip | drivers/media/dvb-frontends/tas2101.c:157 | every 16-bit count is read back from its two little-endian bytes |
| Tas2101.ModFecIndex | drivers/media/dvb-frontends/tas2101.c:698-712 | the table index is at most 33 |
| Tas2101.ModFecIndexCases | drivers/media/dvb-frontends/tas2101.c:698-712 | DVB-S readings index rows 0-7; DVB-S2 readings up to 28 index rows 5-33, 29-250 fall back to row 0, and 251-255 wrap around in u8 to rows 0-4 |
| Tas2101.FrontendReportsTableRow | drivers/media/dvb-frontends/tas2101.c:688-726 | when the MODFEC reads succeed a table row's FEC, modulation and system are reported with inversion AUTO whatever the rate read does; on success the rate is a whole number of kS/s below 65536 kS/s |
| Tas2101.SymbolRateEcho | drivers/media/dvb-frontends/tas2101.c:661-664 | the two bytes set_frontend writes give back the rate in kS/s when it fits 16 bits, which get_frontend turns back into that rate times 1000 |
| Tas2101.StatusFlags | drivers/media/dvb-frontends/tas2101.c:256-277 | the five lock flags are set together, exactly when DEMOD_STATUS masked reads LOCKED; TIMEDOUT is set exactly when no tune is armed and no read failed |
| Tas2101.StatusReturn | drivers/media/dvb-frontends/tas2101.c:258-280 | read_status fails exactly when a read fails or bit 3 of REG_04 cannot be cleared; after a locked success that bit is clear |
| Tas2101.VoltageEntry | drivers/media/dvb-frontends/tas2101.c:308-326 | a regmask entry exists exactly for 13 V and 18 V |
| Tas2101.Voltage13Clears | drivers/media/dvb-frontends/tas2101.c:309-313 | after a successful set_voltage(13 V) the VSEL13_18 bits of LNB_CTRL are clear and its other bits are kept |
| Tas2101.Voltage18Sets | drivers/media/dvb-frontends/tas2101.c:315-319 | after a successful set_voltage(18 V) the VSEL13_18 bits of LNB_CTRL are set and its other bits are kept |
| Tas2101.ToneSelects | drivers/media/dvb-frontends/tas2101.c:335-343 | after a successful set_tone the DiSEqC command field of LNB_CTRL holds the TONE_ON or TONE_OFF bits it covers, and the bits outside the field and the code are kept |
| Tas2101.SelectCaches | drivers/media/dvb-frontends/tas2101.c:473-495 | the cached channel becomes the requested one exactly when select succeeds, which it does unless a REG_06 transfer fails; a failed select changes nothing and selecting the cached channel is free |
| Tas2101.SelectSetsGate | drivers/media/dvb-frontends/tas2101.c:476-490 | after a select that reached the chip the I2C gate bit of REG_06 is clear for channel 0 and set for any other, and the other bits of REG_06 are kept |
| Tas2101.MessageCommandFields | drivers/media/dvb-frontends/tas2101.c:374-375 | for one to six bytes the command carries the length minus one in bits 3-5 and keeps every backup bit outside the length and command fields, the send code and bits 3-5 |
| Tas2101.BurstCommandAsWritten | drivers/media/dvb-frontends/tas2101.c:423 | as written the burst command is one of the two burst codes alone |
| Tas2101.BurstBSentAsA | drivers/media/dvb-frontends/tas2101.c:423 | as written burst B goes out as burst A whenever LNB_CTRL has a bit set outside the command field, and the other LNB_CTRL bits are lost |
| Tas2101.BurstCommandSelects | drivers/media/dvb-frontends/tas2101.c:423 | the intended command carries the chosen burst code in the command field and keeps the other backup bits, so A and B differ whenever their codes do in that field |
| Tas2101.FirstBusy | drivers/media/dvb-frontends/tas2101.c:384-391 | the busy poll index lies between its start and 10 |
| Tas2101.FirstBusyIsFirst | drivers/media/dvb-frontends/tas2101.c:384-391 | the index found is the first poll with DISEQC_BUSY set, every earlier one having it clear |
| Tas2101.TxRestores | drivers/media/dvb-frontends/tas2101.c:351-400 | a failed backup read writes nothing; otherwise, with LNB_CTRL writable, the last write is the backup going back to LNB_CTRL, which then holds its old value |
| Tas2101.TxOutcome | drivers/media/dvb-frontends/tas2101.c:351-446 | a transmission returns -ETIMEDOUT exactly when the command went out and no readable poll saw DISEQC_BUSY, 0 exactly when the backup was read, LNB_CTRL is writable and the command failed to go out or a poll saw busy, and -EREMOTEIO otherwise |
| Tas2101.TxMasksSetupFailure | drivers/media/dvb-frontends/tas2101.c:362-364 | a REG_34 failure after the backup is reported as 0 when the restore succeeds, and only the restore reaches LNB_CTRL |
| Tas2101.AwaitOutcome | drivers/media/dvb-frontends/tas2101.c:384-399 | with LNB_CTRL writable the wait returns 0 exactly when a readable poll sees DISEQC_BUSY and -ETIMEDOUT otherwise |
| Tas2101.InitSucceedsIff | drivers/media/dvb-frontends/tas2101.c:563-615 | initfe succeeds exactly when every entry of the tables it runs gets through and 0xe6 and 0xe0 accept their writes, and fails with -EREMOTEIO otherwise |
| Tas2101.InitWritesConfig | drivers/media/dvb-frontends/tas2101.c:585-593 | a successful initfe writes, right after the first table's entries, the six configuration bytes to 0xe6-0xeb in order and then the seventh to 0xe0 |
| Tas2101.SetFeRejects | drivers/media/dvb-frontends/tas2101.c:638-654 | set_frontend returns -EINVAL exactly for properties other than DVB-S QPSK and DVB-S2, and then changes nothing; its other results are 0 and -EREMOTEIO |
| Tas2101.SetFeProgramsRate | drivers/media/dvb-frontends/tas2101.c:660-667 | after a successful set_frontend SET_SRATE0/1 hold the symbol rate in kS/s, low byte first |
| Tas2101.SetFeClearsOffset | drivers/media/dvb-frontends/tas2101.c:669-675 | after a successful set_frontend FREQ_OS0/1 are zero |
| Tas2101.SetFeEnablesReg30 | drivers/media/dvb-frontends/tas2101.c:681-683 | after a successful set_frontend bit 0 of REG_30 is set |
| Tas2101.SetFeSuccessRegs | drivers/media/dvb-frontends/tas2101.c:656-685 | a successful set_frontend leaves the setfe table's registers with the two block writes and then REG_30's regmask applied |
| Tas2101.SearchKinds | drivers/media/dvb-frontends/tas2101.c:773-786 | there are five polls and none reports TIMEDOUT, because the search keeps a tune armed |
| Tas2101.PollLoopVerdict | drivers/media/dvb-frontends/tas2101.c:773-796 | the verdict of the polls from any point on is the polling verdict of their kinds |
| Tas2101.SearchMeaning | drivers/media/dvb-frontends/tas2101.c:759-802 | search succeeds exactly when set_frontend succeeds and some poll locks after error-free polls without lock, fails exactly when all five polls are error-free without lock, and reports an error otherwise |
| Tas2101.Demod.constructor | drivers/media/dvb-frontends/tas2101.c:509-515 | attach records the configuration and starts the mux channel at 0 with the zero-filled tune state |
| Tas2101.Demod.InitFe | drivers/media/dvb-frontends/tas2101.c:563-615 | the registers, log and result become those of InitRun, and the tune state is NOTUNE whatever the result |
| Tas2101.Demod.Sleep | drivers/media/dvb-frontends/tas2101.c:617-626 | sleep returns 0 and disarms the tune without touching the chip |
| Tas2101.Demod.DtvTune | drivers/media/dvb-frontends/tas2101.c:750-757 | dtv_tune returns 0 and arms a tune |
| Tas2101.Demod.GetAlgo | drivers/media/dvb-frontends/tas2101.c:739-748 | get_frontend_algo is NOTUNE exactly while no tune is armed and CUSTOM otherwise |
| Tas2101.Demod.ReadBer | drivers/media/dvb-frontends/tas2101.c:135-167 | read_ber returns the 26-bit DVB-S count or the 16-bit DVB-S2 count of the registers read, 0 for other systems, and a failed read's -EREMOTEIO with no value |
| Tas2101.Demod.ReadSignalStrength | drivers/media/dvb-frontends/tas2101.c:169-200 | read_signal_strength returns the interpolated strength truncated to u16, or -EREMOTEIO with no value |
| Tas2101.Demod.ReadSnr | drivers/media/dvb-frontends/tas2101.c:202-240 | read_snr returns the interpolated SNR truncated to u16 times 328, truncated again, and stores the SNR in 0.001 dB as the CNR statistic; a failed read changes nothing |
| Tas2101.Demod.ReadStatus | drivers/media/dvb-frontends/tas2101.c:249-281 | the result, status, registers, log and CNR statistic become those of StatusOf |
| Tas2101.Demod.AckLock | drivers/media/dvb-frontends/tas2101.c:266-272 | the locked branch has the effect of LockAck and reports whether REG_04 could be read |
| Tas2101.Demod.SetVoltage | drivers/media/dvb-frontends/tas2101.c:303-328 | switching off touches no register and returns 0; 13 V and 18 V run the VoltageEntry regmask with its result |
| Tas2101.Demod.SetTone | drivers/media/dvb-frontends/tas2101.c:330-349 | an invalid mode returns -EINVAL without I/O; on and off run one regmask of LNB_CTRL's command field with the tone code |
| Tas2101.Demod.SendDiseqcMsg | drivers/media/dvb-frontends/tas2101.c:351-400 | the registers, log and result become those of TxRun for the message |
| Tas2101.Demod.SendBurst | drivers/media/dvb-frontends/tas2101.c:402-446 | an invalid burst returns -EINVAL without I/O; A and B have the effect of TxRun for the burst, whose LNB_CTRL byte is the burst command as written (BurstCommandAsWritten) |
| Tas2101.Demod.Transmit | drivers/media/dvb-frontends/tas2101.c:357-378 | the shared steps have the registers, log and result of TxRun; a burst's start command is BurstCommandAsWritten |
| Tas2101.Demod.AwaitLine | drivers/media/dvb-frontends/tas2101.c:383-399 | the polling loop has the registers, log and result of AwaitRun |
| Tas2101.Demod.I2cSelect | drivers/media/dvb-frontends/tas2101.c:459-496 | the registers, log, result and cached channel become those of SelectRun |
| Tas2101.Demod.SetFrontend | drivers/media/dvb-frontends/tas2101.c:628-686 | the registers, log and result become those of SetFeRun |
| Tas2101.Demod.GetFrontend | drivers/media/dvb-frontends/tas2101.c:688-726 | the result and properties become those of FrontendOf, with nothing written |
| Tas2101.Demod.TuneOnce | drivers/media/dvb-frontends/tas2101.c:728-737 | tune runs set_frontend when asked to re-tune and returns its failure without a status; otherwise it has the effect and result of read_status after it |
| Tas2101.Demod.Search | drivers/media/dvb-frontends/tas2101.c:759-802 | the verdict, registers, log and CNR statistic become those of SearchOf, and the tune stays armed exactly on success |
| Av201x.InitRun | drivers/media/tuners/av201x.c:113-144 | init returns 0 or -EREMOTEIO: the OR of the three tables' and the final write's codes |
| Av201x.InitSucceedsIff | drivers/media/tuners/av201x.c:120-134 | init returns 0 exactly when every entry of inittuner0, the chip's second table and inittuner2 and the REG_TUNER_CTRL write go through; a failing table does not stop the later ones |
| Av201x.InitEndsWithRunWrite | drivers/media/tuners/av201x.c:134 | whatever the tables returned, init keeps the writes logged before it and ends with 0x96 written to REG_TUNER_CTRL, which then holds it |
| Av201x.ClampBandwidth | drivers/media/tuners/av201x.c:164-168 | the programmed bandwidth lies in [4000, 40000] kHz and equals the request inside that range |
| Av201x.FilterWord | drivers/media/tuners/av201x.c:170-172 | the filter word lies in [24, 241], so the u8 cast keeps it |
| Av201x.FilterWordRounds | drivers/media/tuners/av201x.c:171 | the filter word is the step count closest to bw * 127 / 21100, off by at most half a step |
| Av201x.FilterWordMonotone | drivers/media/tuners/av201x.c:164-171 | a wider request never gives a narrower filter word |
| Av201x.BaseBandwidth | drivers/media/tuners/av201x.c:208-211 | the bandwidth before the margin is at least 2 MHz |
| Av201x.FilterBandwidth | drivers/media/tuners/av201x.c:212 | the intended bandwidth is the base bandwidth with 8 percent added, rounded down, and strictly wider than the base |
| Av201x.MarginNeverApplied | drivers/media/tuners/av201x.c:212 | as written (`bw *= 108/100`) the filter gets exactly the base bandwidth, narrower than the intended one |
| Av201x.MarginAt27500 | drivers/media/tuners/av201x.c:208-213 | at 27.5 MS/s the filter is set for 20562 kHz instead of 22206 kHz |
| Av201x.IntegerWord | drivers/media/tuners/av201x.c:195-196 | the first PLL byte is the frequency over the crystal, rounded in u32 arithmetic, saturated at 0xff |
| Av201x.FractionalBytes | drivers/media/tuners/av201x.c:197-200 | three bytes come out and the third carries the constant 0x50 in its low seven bits |
| Av201x.FractionalBytesRoundTrip | drivers/media/tuners/av201x.c:198-200 | the three bytes give back exactly the low 17 bits of the fractional value |
| Av201x.PllWords | drivers/media/tuners/av201x.c:194-200 | set_params writes four bytes from REG_FN on |
| Av201x.ParamsRun | drivers/media/tuners/av201x.c:177-223 | set_params returns 0 or -EREMOTEIO (what it writes to the filter is stated by ParamsProgramsBaseBandwidth) |
| Av201x.ParamsProgramsBaseBandwidth | drivers/media/tuners/av201x.c:201-217 | when the PLL and filter writes go through, the fifth write of set_params puts the low byte of the filter word for the base bandwidth, without margin, into the filter register |
| Av201x.ParamsIgnoresFilterFailure | drivers/media/tuners/av201x.c:201-217 | set_params fails exactly when the PLL block, REG_FT_CTRL or REG_TUNER_CTRL refuses a write, never because of the bandwidth filter; after the PLL block the log holds the four PLL bytes in register order |
| Av201x.TablesCalibrated | drivers/media/tuners/av201x.c:225-226 | the AGC breakpoints ascend from 0 and the levels never rise, one level per breakpoint |
| Av201x.FirstAbove | drivers/media/tuners/av201x.c:239-240 | the segment search ends at an index between its start and the table length |
| Av201x.FirstAboveIsFirst | drivers/media/tuners/av201x.c:239-240 | the search stops at the first breakpoint above the AGC value, and every breakpoint before it is at or below the value |
| Av201x.SegmentBracket | drivers/media/tuners/av201x.c:239-243 | the segment found satisfies x[i-1] <= agc, and agc < x[i] unless the value is at or past the last breakpoint |
| Av201x.LevelOverrunsAt255 | drivers/media/tuners/av201x.c:239-245 | for AGC 255 the search ends at index 12, past both 12-entry tables, so the driver reads x[12] and y[12] |
| Av201x.InterpBetween | drivers/media/tuners/av201x.c:243-245 | within a segment the approximation stays between the two breakpoint levels and equals the left one at the left breakpoint |
| Av201x.InterpMonotone | drivers/media/tuners/av201x.c:243-245 | within a segment a higher AGC value never gives a higher level |
| Av201x.LevelAsWrittenBelow255 | drivers/media/tuners/av201x.c:238-249 | the tables are calibrated, and the lookup as written stays inside both tables exactly for AGC readings below 255, where it is the interpolated level |
| Av201x.LevelAtBreakpoint | drivers/media/tuners/av201x.c:239-249 | at every breakpoint, the last included, the level is that breakpoint's table level |
| Av201x.LevelBracket | drivers/media/tuners/av201x.c:239-249 | the level lies between the levels of the two breakpoints around the AGC value and within the table's range |
| Av201x.LevelNonIncreasing | drivers/media/tuners/av201x.c:228-252 | a higher AGC value never reports a higher RF level |
| Av201x.StrengthWordRange | drivers/media/tuners/av201x.c:245 | with the AV201x tables the strength word is 909 to 1009, so the u16 store never wraps |
| Av201x.InterpolateLevel | drivers/media/tuners/av201x.c:238-249 | the loop's segment search and interpolation compute the corrected level on any calibration |
| Av201x.Tuner.constructor | drivers/media/tuners/av201x.c:271-291 | attach records the register map, layout, chip id and crystal, touches no register and leaves the strength statistic at its default |
| Av201x.Tuner.Init | drivers/media/tuners/av201x.c:113-144 | the registers and log become those of InitRun, the result is its code, and the strength statistic is marked not available |
| Av201x.Tuner.Sleep | drivers/media/tuners/av201x.c:146-156 | sleep is one regmask setting AV201X_SLEEP in REG_TUNER_CTRL, with that entry's result |
| Av201x.Tuner.SetBandwidth | drivers/media/tuners/av201x.c:158-175 | set_bandwidth is one write of the filter word for the clamped bandwidth to REG_BWFILTER |
| Av201x.Tuner.SetParams | drivers/media/tuners/av201x.c:177-223 | the registers, log and result become those of ParamsRun, so the filter gets the base bandwidth without margin |
| Av201x.Tuner.GetRfStrength | drivers/media/tuners/av201x.c:228-252 | the result is 0, the strength word is 1000 plus the level in dBm, and the statistic holds the level in 0.001 dB |
| Stv091xHeader.ModeValue | drivers/media/dvb-frontends/stv091x.h:8-11 | a mode's value is 0 or 1 |
| Stv091xHeader.ModeValues | drivers/media/dvb-frontends/stv091x.h:8-11 | DUAL is 0, SINGLE is 1, and the value names the mode |
| Stv091xHeader.AlgoValue | drivers/media/dvb-frontends/stv091x.h:34-39 | an algo's value is below 4 |
| Stv091xHeader.AlgoValues | drivers/media/dvb-frontends/stv091x.h:34-39 | the four enumerators take the distinct values 0 to 3 in declaration order |
| Stv091xHeader.MakeWord16 | drivers/media/dvb-frontends/stv091x.h:41 | MAKEWORD16 is byte a times 256 plus byte b, below 65536 |
| Stv091xHeader.MakeWord16RoundTrip | drivers/media/dvb-frontends/stv091x.h:41 | both bytes come back out of the word |
| Stv091xTables.S1TableWellFormed | drivers/media/dvb-frontends/stv091x.c:321-376 | the DVB-S C/N table has 54 entries with ascending readings and s16 results and steps |
| Stv091xTables.S1InRange | drivers/media/dvb-frontends/stv091x.c:321-376 | every DVB-S reading fits a u16 and every result an s16 |
| Stv091xTables.S1Ascending | drivers/media/dvb-frontends/stv091x.c:321-376 | the DVB-S readings strictly ascend |
| Stv091xTables.S1Steps | drivers/media/dvb-frontends/stv091x.c:321-376 | neighbouring DVB-S results differ by an s16 |
| Stv091xTables.S1StepsDown | drivers/media/dvb-frontends/stv091x.c:321-376 | no DVB-S result falls more than 0x8000 below its predecessor |
| Stv091xTables.S1StepsUp | drivers/media/dvb-frontends/stv091x.c:321-376 | no DVB-S result rises 0x8000 or more above its predecessor |
| Stv091xTables.S2TableWellFormed | drivers/media/dvb-frontends/stv091x.c:378-439 | the DVB-S2 C/N table has 60 entries with ascending readings and s16 results and steps |
| Stv091xTables.S2InRange | drivers/media/dvb-frontends/stv091x.c:378-439 | every DVB-S2 reading fits a u16 and every result an s16 |
| Stv091xTables.S2Ascending | drivers/media/dvb-frontends/stv091x.c:378-439 | the DVB-S2 readings strictly ascend |
| Stv091xTables.S2Steps | drivers/media/dvb-frontends/stv091x.c:378-439 | neighbouring DVB-S2 results differ by an s16 |
| Stv091xTables.S2StepsDown | drivers/media/dvb-frontends/stv091x.c:378-439 | no DVB-S2 result falls more than 0x8000 below its predecessor |
| Stv091xTables.S2StepsUp | drivers/media/dvb-frontends/stv091x.c:378-439 | no DVB-S2 result rises 0x8000 or more above its predecessor |
| Stv091xTables.DbmTableWellFormed | drivers/media/dvb-frontends/stv091x.c:442-457 | the RF level table has 14 entries with ascending readings and s16 results and steps |
| Stv091xTables.DbmInRange | drivers/media/dvb-frontends/stv091x.c:442-457 | every AGC reading fits a u16 and every level an s16 |
| Stv091xTables.DbmAscending | drivers/media/dvb-frontends/stv091x.c:442-457 | the AGC readings strictly ascend |
| Stv091xTables.DbmSteps | drivers/media/dvb-frontends/stv091x.c:442-457 | neighbouring levels differ by an s16 |
| Stv091xTables.DbmStepsDown | drivers/media/dvb-frontends/stv091x.c:442-457 | no level falls more than 0x8000 below its predecessor |
| Stv091xTables.DbmStepsUp | drivers/media/dvb-frontends/stv091x.c:442-457 | no level rises 0x8000 or more above its predecessor |
| Stv091x.LabelAddr | drivers/media/dvb-frontends/stv091x.c:195 | the register address of a label fits 16 bits |
| Stv091x.LowestSetBit | drivers/media/dvb-frontends/stv091x.c:156-161 | the scan position stays within the byte |
| Stv091x.LowestSetBitIsLowest | drivers/media/dvb-frontends/stv091x.c:150-162 | the position derived from a mask is the index of its lowest set bit, and 7 for the empty mask |
| Stv091x.ExtractMaskPos | drivers/media/dvb-frontends/stv091x.c:150-162 | extract_mask_pos returns the label's low byte as the mask and the index of its lowest set bit as the position |
| Stv091x.FieldUpdateReadsBack | drivers/media/dvb-frontends/stv091x.c:238-239 | the merged byte keeps every bit outside the field, and the field reads back as the data limited to its width |
| Stv091x.MaskedUpdateReadsBack | drivers/media/dvb-frontends/stv091x.c:238-239 | merging data under a mask keeps the bits outside it, and the masked bits read back as the data limited to the mask's width |
| Stv091x.UpdateAtPosition | drivers/media/dvb-frontends/stv091x.c:238-239 | merging at a position keeps the other bits and reads back the data limited to the mask |
| Stv091x.SelectField | drivers/media/dvb-frontends/stv091x.c:196 | the extraction step masks the register byte and shifts it down to the field |
| Stv091x.ReadField | drivers/media/dvb-frontends/stv091x.c:189-199 | read_field returns the labelled field of the register, read as 0 when the read fails |
| Stv091x.MergeField | drivers/media/dvb-frontends/stv091x.c:236-239 | the merge step computes the field update of the old byte |
| Stv091x.WriteField | drivers/media/dvb-frontends/stv091x.c:231-246 | write_field on the register map has the result, registers and log of WriteFieldOf |
| Stv091x.WriteFieldOf | drivers/media/dvb-frontends/stv091x.c:231-246 | an unchanged byte returns 1 with no write; otherwise the merged byte is written and 0 returned, or -EREMOTEIO with nothing changed when the write fails |
| Stv091x.WriteFieldOfAt | drivers/media/dvb-frontends/stv091x.c:231-246 | with the register's read and write working, write_field leaves it holding the merged byte after at most one write to it |
| Stv091x.WriteFieldThenReadField | drivers/media/dvb-frontends/stv091x.c:189-246 | after write_field the field reads back as the data written, limited to the field's width |
| Stv091x.WriteFieldAfterFailedRead | drivers/media/dvb-frontends/stv091x.c:181-187 | after a failed read write_field clears every other field of the register |
| Stv091x.FirstAbove | drivers/media/dvb-frontends/stv091x.c:474-476 | the lookup's scan index lies within the table and its reading exceeds the value |
| Stv091x.FirstAboveIsFirst | drivers/media/dvb-frontends/stv091x.c:474-476 | every reading the scan passes is at most the value |
| Stv091x.Lookup | drivers/media/dvb-frontends/stv091x.c:459-485 | stv091x_lookup computes the table's clamped, interpolated result |
| Stv091x.LookupClamps | drivers/media/dvb-frontends/stv091x.c:467-472 | at or below the first reading the result is the first point's, at or above the last reading the last point's |
| Stv091x.LookupInterpolates | drivers/media/dvb-frontends/stv091x.c:474-484 | inside the range the bracketing pair holds the value, the correction is a percentage in [0, 99] and the result lies between the two points' results |
| Stv091x.InterpolationBetween | drivers/media/dvb-frontends/stv091x.c:480-484 | an interpolated result lies between the two points' results |
| Stv091x.CorrectionIsPercent | drivers/media/dvb-frontends/stv091x.c:481 | the correction is between 0 and 99, and 0 at the left point |
| Stv091x.ScaledBetween | drivers/media/dvb-frontends/stv091x.c:484 | a truncated percentage of a difference lies between 0 and the difference |
| Stv091x.PercentOf | drivers/media/dvb-frontends/stv091x.c:481 | below 100 percent of m, rounded down, lies between 0 and m |
| Stv091x.S16Identity | drivers/media/dvb-frontends/stv091x.c:459 | the s16 result keeps a value that fits |
| Stv091x.LookupAtBreakpoint | drivers/media/dvb-frontends/stv091x.c:459-485 | at a breakpoint the lookup returns that point's result exactly |
| Stv091x.AscendingFrom | drivers/media/dvb-frontends/stv091x.c:321-457 | in a well-formed table readings ascend between any two indices |
| Stv091x.Comp2Range | drivers/media/dvb-frontends/stv091x.c:487-493 | for widths below 32, comp2 lands in the signed range of that width and differs from the reading by 0 or 2^width |
| Stv091x.Comp2Width32 | drivers/media/dvb-frontends/stv091x.c:489-490 | width 32 passes the value through |
| Stv091x.SfrWord | drivers/media/dvb-frontends/stv091x.c:499 | the four SFR bytes form a 32-bit number, below 2^31 when the top byte is below 0x80 |
| Stv091x.SrFromWord | drivers/media/dvb-frontends/stv091x.c:500 | the symbol rate from a 32-bit word always fits 32 bits |
| Stv091x.GetSr | drivers/media/dvb-frontends/stv091x.c:495-504 | the corrected get_SR always fits a u32 |
| Stv091x.GetSrBracket | drivers/media/dvb-frontends/stv091x.c:495-504 | the symbol rate is SFR * mclk / 2^32 rounded down |
| Stv091x.SrFromWordBracket | drivers/media/dvb-frontends/stv091x.c:500 | the symbol rate brackets the product SFR * mclk between consecutive multiples of 2^32 |
| Stv091x.SrFromWordNoWrap | drivers/media/dvb-frontends/stv091x.c:500 | without sign extension the 64-bit product never wraps |
| Stv091x.GetSrAgrees | drivers/media/dvb-frontends/stv091x.c:495-504 | below a top byte of 0x80 the code as written computes the symbol rate correctly |
| Stv091x.GetSrSignExtension | drivers/media/dvb-frontends/stv091x.c:499-500 | at 67.5 Msps with a 135 MHz master clock SFR3 reads 0x80 and the code as written returns 4227467296 instead of 67500000 |
| Stv091x.SfrInitBracket | drivers/media/dvb-frontends/stv091x.c:829 | the initial word is SR / mclk in units of 2^-16, rounded down |
| Stv091x.SfrInitBytes | drivers/media/dvb-frontends/stv091x.c:830-831 | SFRINIT1 gets at most 7 bits |
| Stv091x.SfrInitRoundTrip | drivers/media/dvb-frontends/stv091x.c:830-831 | a word below 2^15 is carried exactly by the two registers |
| Stv091x.SfrInitAtMaximum | drivers/media/dvb-frontends/stv091x.c:829-831 | at 67.5 Msps with a 135 MHz master clock the word is 2^15 and both registers get 0 |
| Stv091x.Base.constructor | drivers/media/dvb-frontends/stv091x.c:1482-1492 | a new shared state keeps the external clock and has no master clock yet |
| Stv091x.Base.SetMclock | drivers/media/dvb-frontends/stv091x.c:677-740 | set_mclock stores the master clock the PLL reaches for the request |
| Stv091x.MasterClockBelowRequest | drivers/media/dvb-frontends/stv091x.c:677-740 | the master clock is a whole number of MHz, never exceeds the request, and meets it when the quartz in MHz divides four times the request in MHz |
| Stv091x.DiseqcDividerRounds | drivers/media/dvb-frontends/stv091x.c:933 | below 179.872 MHz the divider is mclk / 704000 rounded to nearest |
| Stv091x.DiseqcDividerExamples | drivers/media/dvb-frontends/stv091x.c:933 | 135 MHz gives 192, and 179.872 MHz wraps to 0 in the u8 |
| Stv091x.Low7 | drivers/media/dvb-frontends/stv091x.c:1193 | the low seven bits of ERRCNT12 are below 128 |
| Stv091x.Join3Bytes | drivers/media/dvb-frontends/stv091x.c:1193-1195 | joining three bytes is undone by taking them back out |
| Stv091x.ErrorCountBytes | drivers/media/dvb-frontends/stv091x.c:1188-1198 | read_tbe's count is below 2^23 and its three bytes come back out as the seven low bits of ERRCNT12, ERRCNT11 and ERRCNT10 |
| Stv091x.Ucblocks | drivers/media/dvb-frontends/stv091x.c:1209-1227 | read_ucblocks reports 0 outside DVB-S2, and in DVB-S2 at least each of the two 16-bit CRC counters and at most twice 0xffff |
| Stv091x.PulseOutcome | drivers/media/dvb-frontends/stv091x.c:1219-1220 | writing 1 and then 0 into a field leaves it 0 and the rest of the byte unchanged |
| Stv091x.PulseField | drivers/media/dvb-frontends/stv091x.c:940-941 | the pulse on the register map has the registers and log of PulseOf |
| Stv091x.PulseOf | drivers/media/dvb-frontends/stv091x.c:940-941 | write_field 1 then 0 touches no other register and logs at most two writes after the earlier log |
| Stv091x.PulseClearsField | drivers/media/dvb-frontends/stv091x.c:940-941 | with the bus working the pulsed field ends at 0, the rest of its register as it was, and only that register is written |
| Stv091x.StatusOf | drivers/media/dvb-frontends/stv091x.c:1296-1343 | SIGNAL and CARRIER follow CAR_LOCK, and TIMEDOUT is set exactly when the driver is idle |
| Stv091x.StatusLockIsPollLock | drivers/media/dvb-frontends/stv091x.c:1304-1333 | read_status reports LOCK and SYNC exactly when a get_dmdlock poll of the same fields would lock, VITERBI whenever LOCK, and nothing past the carrier for other header modes |
| Stv091x.LockBudget | drivers/media/dvb-frontends/stv091x.c:752-764 | the wait budget is between 1000 and 5000 ms, in steps of 100 |
| Stv091x.LockBudgetMonotone | drivers/media/dvb-frontends/stv091x.c:752-764 | a higher symbol rate never gets a longer wait; 20 Msps gets 1000 ms and just below 1500 ms; 1 Msps gets 5000 ms and just above 4500 ms |
| Stv091x.FirstLock | drivers/media/dvb-frontends/stv091x.c:766-793 | a found index is within the budget and locked, and no earlier poll locked; none found means no poll in the budget locked |
| Stv091x.PollLimit | drivers/media/dvb-frontends/stv091x.c:766-793 | the loop makes between 10 and 50 polls |
| Stv091x.GetDmdLock | drivers/media/dvb-frontends/stv091x.c:742-796 | get_dmdlock reports lock exactly when a poll within the budget locks, after exactly the polls up to the first one, and otherwise uses the whole budget |
| Stv091x.CarrierOffsetScaled | drivers/media/dvb-frontends/stv091x.c:886-889 | the offset is the signed CFR scaled by mclk / 1000 over 2^16, rounded down, with a magnitude of at most about half of mclk / 1000 |
| Stv091x.ScaledShift | drivers/media/dvb-frontends/stv091x.c:888-889 | a signed 16-bit value times k, shifted right by 16, is rounded down and within about k / 2 |
| Stv091x.RolloffPercent | drivers/media/dvb-frontends/stv091x.c:894-908 | the roll-off factor is between 1.15 and 1.35, and 1.35 for unknown statuses |
| Stv091x.RolloffValues | drivers/media/dvb-frontends/stv091x.c:894-908 | the four statuses give 135, 125, 120 and 115 percent |
| Stv091x.BandwidthBracket | drivers/media/dvb-frontends/stv091x.c:910 | the corrected bandwidth is SR * rolloff / 100 rounded down |
| Stv091x.BandwidthAgrees | drivers/media/dvb-frontends/stv091x.c:910 | the code as written agrees while the product fits 32 bits |
| Stv091x.BandwidthOverflow | drivers/media/dvb-frontends/stv091x.c:910 | at 45 Msps and roll-off 1.35 the u32 product wraps: 17 800 327 Hz instead of 60 750 000 Hz |
| Stv091x.PassOf | drivers/media/dvb-frontends/stv091x.c:814-911 | a pass locks exactly when a poll within the budget locks; without lock frequency and symbol rate are unchanged; after lock it stores get_SR as written and the u32 bandwidth, both below 2^32; each pass records three tuner and symbol-rate events |
| Stv091x.StartFrom | drivers/media/dvb-frontends/stv091x.c:814-928 | a finished start returns 0 or 1 within the script's passes, with u32 frequency and symbol rate after a lock |
| Stv091x.ShiftShift | drivers/media/dvb-frontends/stv091x.c:814-928 | shifting a pass count twice adds the shifts |
| Stv091x.StartFromStep | drivers/media/dvb-frontends/stv091x.c:912-915 | a pass that restarts continues from the frequency, symbol rate and bandwidth that pass stored, with no new range check; any other pass decides the result |
| Stv091x.StartRejectsRate | drivers/media/dvb-frontends/stv091x.c:811-812 | start returns -EINVAL exactly outside [100 ksps, 67.5 Msps], without tuning or changing the cache, and 0 or 1 otherwise |
| Stv091x.StartNoLock | drivers/media/dvb-frontends/stv091x.c:814-928 | without lock start returns 0 after one pass at 72 MHz bandwidth, with frequency and symbol rate unchanged |
| Stv091x.StartLocksNearby | drivers/media/dvb-frontends/stv091x.c:885-925 | lock within 1 MHz returns 1, moves the frequency by the offset mod 2^32, stores get_SR's reading as written, and re-tunes to the u32 bandwidth exactly when it differs from the cached one |
| Stv091x.StartStoresSignExtendedRate | drivers/media/dvb-frontends/stv091x.c:499-500 | a lock at 67.5 Msps with a 135 MHz clock leaves symbol_rate 4227467296 in the cache and hands the tuner 37724018 Hz |
| Stv091x.StartRestartsUnbounded | drivers/media/dvb-frontends/stv091x.c:912-915 | while every pass locks more than 1 MHz off, start never returns within any finite script |
| Stv091x.FirstLockWithin | drivers/media/dvb-frontends/stv091x.c:766-793 | a lock seen within a shorter wait is seen within a longer one |
| Stv091x.SearchVerdictAsWritten | drivers/media/dvb-frontends/stv091x.c:1096-1101 | search as written succeeds exactly when start returns non-zero, -EINVAL included |
| Stv091x.SearchVerdict | drivers/media/dvb-frontends/stv091x.c:1088-1102 | the corrected search succeeds exactly when start locked and fails otherwise |
| Stv091x.SearchReportsInvalidRate | drivers/media/dvb-frontends/stv091x.c:1096-1097 | a 50 ksps rate makes start return -EINVAL untuned, which search as written reports as success and the corrected verdict as failure |
| Stv091x.SearchVerdictsAgree | drivers/media/dvb-frontends/stv091x.c:1088-1102 | within the rate limits both verdicts agree: success exactly when start locked |
| Stv091x.AlgoFor | drivers/media/dvb-frontends/stv091x.c:1051-1060 | NOTUNE exactly when the driver is idle, CUSTOM otherwise |
| Stv091x.RunPass | drivers/media/dvb-frontends/stv091x.c:814-911 | one pass as the driver runs it, with get_SR as written and the u32 bandwidth, computes PassOf |
| Stv091x.PassesBegin | drivers/media/dvb-frontends/stv091x.c:814 | before the first pass nothing has been run |
| Stv091x.PassesAdvance | drivers/media/dvb-frontends/stv091x.c:912-928 | pass i either restarts with the values it stored or decides start's result |
| Stv091x.PassesDone | drivers/media/dvb-frontends/stv091x.c:814-928 | a start that returns does so before its passes run out |
| Stv091x.RunPasses | drivers/media/dvb-frontends/stv091x.c:814-928 | the goto-start loop computes the result of the passes, StartFrom |
| Stv091x.Demod.constructor | drivers/media/dvb-frontends/stv091x.c:1462-1512 | a new frontend starts in BLIND_SEARCH with no events, the given cache and the shared state |
| Stv091x.Demod.Init | drivers/media/dvb-frontends/stv091x.c:666-675 | init sets NOTUNE and returns 0 |
| Stv091x.Demod.DtvTune | drivers/media/dvb-frontends/stv091x.c:1062-1069 | dtv_tune arms a blind search and returns 0 |
| Stv091x.Demod.SetFrontend | drivers/media/dvb-frontends/stv091x.c:1104-1113 | set_frontend arms a blind search and returns 0 |
| Stv091x.Demod.Sleep | drivers/media/dvb-frontends/stv091x.c:1169-1178 | sleep sets NOTUNE and writes 0x5c to DMDISTATE when the write succeeds |
| Stv091x.Demod.GetFrontendAlgo | drivers/media/dvb-frontends/stv091x.c:1051-1060 | NOTUNE exactly when the driver is idle |
| Stv091x.Demod.ReadStatus | drivers/media/dvb-frontends/stv091x.c:1296-1343 | TIMEDOUT exactly when idle, and LOCK exactly when a lock poll of the same fields would lock |
| Stv091x.Demod.SetTone | drivers/media/dvb-frontends/stv091x.c:1071-1086 | an unknown tone is -EINVAL with nothing touched; otherwise the result, registers and log are write_field's of DISEQC_MODE with 0 for the tone and 2 without it (1 when already set, 0 after the write, -EREMOTEIO), and the field reads back that value when the bus works |
| Stv091x.Demod.InitDiseqc | drivers/media/dvb-frontends/stv091x.c:931-944 | init_diseqc returns 0 with the registers and log of InitDiseqcOf |
| Stv091x.InitDiseqcOf | drivers/media/dvb-frontends/stv091x.c:931-944 | init_diseqc always returns 0, logs at most five writes, and when DISTXF22 accepts writes ends by writing the 22 kHz divider there |
| Stv091x.InitDiseqcWrites | drivers/media/dvb-frontends/stv091x.c:936-942 | with distinct registers and the bus working, DISRXCFG holds 0, DISTXCFG 2, DISTXF22 the divider, DISTX_RESET is 0 with its register's other bits kept, the log starts with the two configuration writes, and no other register changes |
| Stv091x.Demod.Start | drivers/media/dvb-frontends/stv091x.c:798-929 | start's return, frequency, symbol rate and tuner calls are those of StartOf, with the driver's get_SR and u32 bandwidth |
| Stv091x.Demod.Search | drivers/media/dvb-frontends/stv091x.c:1088-1102 | the verdict is search's as written: success for any non-zero start result, -EINVAL included, with the blind search left armed; idle exactly on failure |

## Left out

- The I2C transport is not modelled. `si2183_i2c_master_send/recv_unlocked`, `stv091x_read_regs/write_regs`, `tas2101_wrm/rdm`, `av201x_wrm/rdm` and `i2c_master_send/recv` are replaced by the scripted exchange or the register map.
- Mutexes are tracked only as a held/free flag in `FirmwareCmd.Channel`, because the rest is concurrency. This covers `i2c_mutex`, the per-base `i2c_lock`, and the gate locking of `stv091x_i2c_gate_ctrl`.
- Time is not modelled: `jiffies`, `msleep`, `usleep_range` and `udelay`. A timeout is the length of a reply or poll script.
- Firmware files are not fetched or released. `request_firmware` and `release_firmware` are foreign calls, so the image is a parameter.
- Module and lifecycle glue is not modelled: probe, remove, attach and release, the `silist`/`stvlist` base lists and `match_base`, base reference counts, I2C mux creation, the frontend ops tables and the module macros. Probe is modelled only as far as the class constructors set up driver state.
- Spectrum-scan and constellation-sample loops are not modelled, because they are I/O with no logic of interest. Neither are the `spi_read`/`spi_write` pass-throughs.
- Board callbacks are opaque. `RF_switch`, `TS_switch`, `LED_switch`, `lnb_power`, `reset_demod`, `i2c_gate_ctrl` and the tuner ops (`set_params`, `set_bandwidth`, `set_frequency`, `get_rf_strength`) become arbitrary result parameters or recorded events.
- Debug output (`fprintk`/`dprintk`) and the commented-out `S2CarLoop` table are not modelled.
- Several headers are not part of this model: stv091x_regs.h, si2168_priv.h, si2157_priv.h, tas2101_priv.h and av201x_priv.h. Register addresses, field labels and their tables are parameters, and the models require them to be well formed, for example strictly descending TAS2101 calibration tables and a modfec table of at least 34 rows.
- si2183 `read_signal_strength` (si2183.c:261-281) is not modelled. It forwards to the tuner's callback; the AV201x side of it is `Av201x.Level`.
- si2183 `read_snr` (si2183.c:487-490) is not modelled. It only copies a cached value.
- si2183 `read_status` is modelled only as the status bits. Its decoding of the delivery system, FEC, modulation, pilot and roll-off reply fields into the property cache (si2183.c:298-454) is a table-driven copy with no property beyond the table.
- si2183 `select`, `deselect` and `tune` (si2183.c:1037-1079) are not modelled. They are mux and base-lock glue around `set_frontend`.
- si2183 `get_tune_settings` is not modelled. It only copies constants.
- The si2183 blind search is modelled as its candidate schedule and its per-candidate lock outcomes. The command stream sent at each candidate is not modelled.
- stv091x `get_signal_parameters` (stv091x.c:506-645) is not modelled. It is a register-to-cache decode whose arithmetic parts are already modelled by `Stv091x.GetSr` and `Stv091x.CarrierOffsetScaled`.
- stv091x `send_master_cmd` and `send_burst` (stv091x.c:1115-1167) are not modelled, because they spin on GAP_BURST/TX_IDLE with no bound. The reply callback `recv_slave_reply` is not modelled either.
- stv091x `read_snr`, `read_ber`, `read_dbm`, `read_signal_strength` and `get_stats` (stv091x.c:1180-1294) are not modelled as compositions. Their parts are modelled: `Stv091x.Lookup` with its three tables, `Stv091x.ErrorCountBytes` and `Stv091x.Ucblocks`.
- stv091x `probe` (stv091x.c:946-1025) and its init register table are not modelled. Only the master-clock setting and the DiSEqC init are.
- stv091x `set_parameters` (stv091x.c:1041-1049) is `Stv091x.Demod.Start`, which it merely calls.
- Stv091x.Ucblocks: the contract states the DVB-S2 count's bounds rather than the exact sum of the two CRC counters, because that exact sum is the function's body. The reset pulse that follows the reads is `Stv091x.PulseField`.
- Stv091x.StartFrom: the unbounded `goto start` restart is followed over a finite script of passes. A start that is still restarting when the script ends gives no result; `Stv091x.StartRestartsUnbounded` shows that no finite script bounds it.
- si2168 `get_spectrum_scan` and `get_tune_settings` are not modelled, nor `select`/`deselect` (si2168.c:902-940), which are mux glue.
- The si2168 firmware fallback to a second file name is not modelled, because it is the firmware-file call again.
- tas2101 `read_ucblocks` (tas2101.c:243-247) is not modelled, because it returns 0 without I/O.
- tas2101 `get_i2c_adapter`, `release` and the chip ID check and mux allocation of `attach` are not modelled, because they are lifecycle glue.
- The tas2101 `tune` delay is not modelled. `set_frontend`'s tuner `set_params` callback is an arbitrary result.
- si2157 `remove` and the ops table are not modelled, because they are lifecycle glue.
- The AV201x `release` and ops table are not modelled, because they are lifecycle glue.
- FirmwareCmd.Bytes: a firmware record whose payload runs past the image end is copied by the drivers' `memcpy` from beyond `fw->data`, which C leaves undefined; the model reads zeros there instead. The si2168 and si2157 drivers check only that the size is a multiple of 17 (or 8), so a last record with a length byte of 17 to 30 does this (`FirmwareCmd.LastRecordOverruns`, `FirmwareCmd.OverrunReadsZeros`); the si2183 driver checks no size at all, so a trailing partial record does it too. Raw 8-byte records never overrun (`FirmwareCmd.RawRecordInImage`).
- Av201x.Tuner.GetRfStrength: for an AGC reading of 255 or more the driver's lookup reads `x[12]` and `y[12]`, one past both 12-entry tables, which C leaves undefined; the model reports the last table level there instead. `Av201x.LevelAsWrittenBelow255` shows the two agree on every reading below 255, and `Av201x.LevelOverrunsAt255` shows the overrun.
- Av201x.InterpolateLevel: the loop is the driver's, but past the last breakpoint it stops at the last table entry instead of reading past the tables, for the reason given for `Av201x.Tuner.GetRfStrength`.

## Findings

| source | as written | input that shows it | evidently intended | confidence | as-written member | corrected member |
|---|---|---|---|---|---|---|
| drivers/media/dvb-frontends/stv091x.c:499-500 | `get_SR` joins the four SFR bytes in a signed `int`, which is then sign-extended into the `u64` product | SFR3 = 0x80 at 67.5 Msps with a 135 MHz master clock returns 4227467296 | the unsigned word, giving 67500000 | not executed | Stv091x.GetSrSignExtension | Stv091x.GetSrBracket |
| drivers/media/dvb-frontends/stv091x.c:910 | the bandwidth `SR * rolloff / 100` is computed in `u32` and wraps | 45 Msps at roll-off 1.35 gives 17800327 Hz | 60750000 Hz | not executed | Stv091x.BandwidthOverflow | Stv091x.BandwidthBracket |
| drivers/media/dvb-frontends/stv091x.c:1096-1097 | `search` treats any non-zero `start` result as success, including `-EINVAL` | a 50 ksps symbol rate: `start` returns `-EINVAL` without tuning and `search` reports success | failure, with the driver left idle | not executed | Stv091x.SearchReportsInvalidRate | Stv091x.SearchVerdict |
| drivers/media/dvb-frontends/si2183.c:656 | the stream-id byte is `stream_id && 0xff`, which is 1 for every non-zero id | input stream 5 is sent as 1 | the low byte of the stream id, as the DVB-T2 setter sends it | not executed | Si2183.StreamIdByteDiscrepancy | Si2183.StreamIdCommand |
| drivers/media/dvb-frontends/si2183.c:880-882 | after a failed boot command `goto err` returns `ret`, which still holds 0 | an INIT command answered with `-EREMOTEIO` returns 0 and leaves the chip inactive | the failing step's error code | not executed | Si2183.InitFailureReportedAsSuccess | Si2183.InitResultReportsFailures |
| drivers/media/dvb-frontends/si2183.c:940-957 | a firmware record longer than the argument buffer sets `ret` to `-EINVAL`, but the check after the loop looks at the last command's result, so the boot goes on and the `-EINVAL` surfaces only if reboot or the version query fails | a first record with length byte 31 boots the chip and marks the firmware loaded | `-EINVAL` with no boot | not executed | Si2183.BadRecordIgnored | Si2183.InitResultReportsFailures |
| drivers/media/dvb-frontends/si2168.c:201-205 | the BER error count `mantissa * 10^exponent` is computed in `u32` and wraps | mantissa 43 at exponent 0 adds 5032704 errors | 4300000000 errors | not executed | Si2168.BerWrapExample | Si2168.BerErrors |
| drivers/media/dvb-frontends/tas2101.c:423 | `?:` binds weaker than `\|`, so the burst byte is a bare burst code chosen by `backup \| (burst == A)` | burst B with any other LNB_CTRL bit set is sent as burst A | the backup's command field replaced by the chosen burst code | not executed | Tas2101.BurstBSentAsA | Tas2101.BurstCommandSelects |
| drivers/media/tuners/av201x.c:212 | `bw *= 108/100` multiplies by the integer 1 | every symbol rate, for example 27.5 Msps, gets no margin | an 8 percent margin | not executed | Av201x.MarginNeverApplied | Av201x.FilterBandwidth |
| drivers/media/tuners/av201x.c:239-245 | the segment search can end at index 12 and then reads `x[12]` and `y[12]` | AGC 255, which the 8-bit reading reaches | the last level for readings at or past the last breakpoint | not executed | Av201x.LevelOverrunsAt255 | Av201x.LevelBracket |
