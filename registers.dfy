/**
 * The register file of a chip reached over I2C, as the ST, Tamsemi and
 * Airoha drivers see it: one byte per register address.  The bus is
 * replaced by a map from address to byte plus the sets of addresses whose
 * reads and writes fail; every successful write is also logged, so that
 * the order of writes and the registers left untouched can be stated.
 */
module Registers {
  import opened Common

  /** One write that reached the chip. */
  datatype RegWrite = RegWrite(addr: int, val: bv8)

  /** One entry of a register table: the register, the bits to set and the bits to clear. */
  datatype RegEntry = RegEntry(addr: int, setmask: bv8, clrmask: bv8)

  /**
   * The byte that regmask writes: with clrmask 0xff the register is not read
   * and setmask is written as it is; otherwise the clrmask bits of the byte
   * read are cleared and the setmask bits set.
   */
  function MaskedByte(old_: bv8, setmask: bv8, clrmask: bv8): (b: bv8)
    ensures b & setmask == setmask
    ensures clrmask == 0xff ==> b == setmask
    ensures clrmask != 0xff ==> b & !setmask & !clrmask == old_ & !setmask & !clrmask
    ensures b & clrmask & !setmask == 0
  {
    (if clrmask == 0xff then 0 else old_ & !clrmask) | setmask
  }

  /** The registers and write log after a table run, with the return code and the entries attempted. */
  datatype TableResult = TableResult(ret: int, regs: map<int, bv8>, log: seq<RegWrite>, done: nat)

  function Get(regs: map<int, bv8>, a: int): bv8
  {
    if a in regs then regs[a] else 0
  }

  /** Whether one regmask on entry `e` succeeds: its read (if any) and its write must go through. */
  predicate EntryOk(readFail: set<int>, writeFail: set<int>, e: RegEntry)
  {
    (e.clrmask == 0xff || e.addr !in readFail) && e.addr !in writeFail
  }

  /** wrtable: the entries in order, stopping at the first whose regmask fails. */
  function TableRun(regs: map<int, bv8>, readFail: set<int>, writeFail: set<int>, log: seq<RegWrite>,
                    tbl: seq<RegEntry>): (r: TableResult)
    ensures r.done <= |tbl| && (r.ret == 0 || r.ret == EREMOTEIO)
    decreases |tbl|
  {
    if tbl == [] then TableResult(0, regs, log, 0)
    else
      var e := tbl[0];
      if !EntryOk(readFail, writeFail, e) then TableResult(EREMOTEIO, regs, log, 1)
      else
        var b := MaskedByte(Get(regs, e.addr), e.setmask, e.clrmask);
        var r := TableRun(regs[e.addr := b], readFail, writeFail, log + [RegWrite(e.addr, b)], tbl[1..]);
        TableResult(r.ret, r.regs, r.log, r.done + 1)
  }

  /** A one-entry table is a single regmask: written when the entry's bus steps succeed, untouched otherwise. */
  lemma SingleEntry(regs: map<int, bv8>, readFail: set<int>, writeFail: set<int>, log: seq<RegWrite>, e: RegEntry)
    ensures var r := TableRun(regs, readFail, writeFail, log, [e]);
      var b := MaskedByte(Get(regs, e.addr), e.setmask, e.clrmask);
      if EntryOk(readFail, writeFail, e) then r == TableResult(0, regs[e.addr := b], log + [RegWrite(e.addr, b)], 1)
      else r == TableResult(EREMOTEIO, regs, log, 1)
  {
    assert [e][1..] == [];
  }

  /**
   * wrtable stops at the first failing entry: it succeeds iff every entry
   * succeeds; otherwise the last entry attempted is the first that failed.
   */
  lemma {:induction false} TableStopsAtFirstError(regs: map<int, bv8>, readFail: set<int>, writeFail: set<int>,
                                                  log: seq<RegWrite>, tbl: seq<RegEntry>)
    ensures var r := TableRun(regs, readFail, writeFail, log, tbl);
      (r.ret == 0 <==> r.done == |tbl| && forall j :: 0 <= j < |tbl| ==> EntryOk(readFail, writeFail, tbl[j]))
      && (r.ret != 0 ==> (r.done >= 1 && !EntryOk(readFail, writeFail, tbl[r.done - 1])
                          && forall j :: 0 <= j < r.done - 1 ==> EntryOk(readFail, writeFail, tbl[j])))
    decreases |tbl|
  {
    if tbl != [] && EntryOk(readFail, writeFail, tbl[0]) {
      var e := tbl[0];
      var b := MaskedByte(Get(regs, e.addr), e.setmask, e.clrmask);
      var log' := log + [RegWrite(e.addr, b)];
      TableStopsAtFirstError(regs[e.addr := b], readFail, writeFail, log', tbl[1..]);
      var r := TableRun(regs[e.addr := b], readFail, writeFail, log', tbl[1..]);
      if r.ret == 0 {
        forall j | 0 <= j < |tbl| ensures EntryOk(readFail, writeFail, tbl[j]) {
          if j > 0 {
            assert tbl[1..][j - 1] == tbl[j];
          }
        }
      } else {
        assert tbl[1..][r.done - 1] == tbl[r.done];
        forall j | 0 <= j < r.done ensures EntryOk(readFail, writeFail, tbl[j]) {
          if j > 0 {
            assert tbl[1..][j - 1] == tbl[j];
          }
        }
      }
    }
  }

  /**
   * Each entry before the failing one wrote exactly once, to its own
   * register and in table order, after the writes already logged; the
   * failing entry and every later one wrote nothing.
   */
  lemma {:induction false} TableWritesInOrder(regs: map<int, bv8>, readFail: set<int>, writeFail: set<int>,
                                              log: seq<RegWrite>, tbl: seq<RegEntry>)
    ensures var r := TableRun(regs, readFail, writeFail, log, tbl);
      |r.log| == |log| + (if r.ret == 0 then r.done else r.done - 1)
      && r.log[..|log|] == log
      && forall j :: 0 <= j < |r.log| - |log| ==> r.log[|log| + j].addr == tbl[j].addr
    decreases |tbl|
  {
    if tbl != [] && EntryOk(readFail, writeFail, tbl[0]) {
      var e := tbl[0];
      var b := MaskedByte(Get(regs, e.addr), e.setmask, e.clrmask);
      var log' := log + [RegWrite(e.addr, b)];
      TableWritesInOrder(regs[e.addr := b], readFail, writeFail, log', tbl[1..]);
      var r := TableRun(regs[e.addr := b], readFail, writeFail, log', tbl[1..]);
      assert r.log[..|log|] == r.log[..|log'|][..|log|];
      forall j | 0 <= j < |r.log| - |log| ensures r.log[|log| + j].addr == tbl[j].addr {
        if j > 0 {
          assert r.log[|log'| + (j - 1)].addr == tbl[1..][j - 1].addr;
        } else {
          assert r.log[|log|] == r.log[..|log'|][|log|];
        }
      }
    }
  }

  /** A register that no table entry names keeps its value (and its presence). */
  lemma {:induction false} TableLeavesOthers(regs: map<int, bv8>, readFail: set<int>, writeFail: set<int>,
                                             log: seq<RegWrite>, tbl: seq<RegEntry>, a: int)
    requires forall j :: 0 <= j < |tbl| ==> tbl[j].addr != a
    ensures var r := TableRun(regs, readFail, writeFail, log, tbl);
      (a in r.regs <==> a in regs) && Get(r.regs, a) == Get(regs, a)
    decreases |tbl|
  {
    if tbl != [] && EntryOk(readFail, writeFail, tbl[0]) {
      var e := tbl[0];
      var b := MaskedByte(Get(regs, e.addr), e.setmask, e.clrmask);
      TableLeavesOthers(regs[e.addr := b], readFail, writeFail, log + [RegWrite(e.addr, b)], tbl[1..], a);
    }
  }

  /** A return code with the register file and write log it leaves. */
  datatype BusResult = BusResult(ret: int, regs: map<int, bv8>, log: seq<RegWrite>)

  /** A one-register write: -EREMOTEIO and no change when the bus refuses it. */
  function WriteOne(regs: map<int, bv8>, writeFail: set<int>, log: seq<RegWrite>, a: int, v: bv8): (r: BusResult)
    ensures a in writeFail ==> r == BusResult(EREMOTEIO, regs, log)
    ensures a !in writeFail ==> r == BusResult(0, regs[a := v], log + [RegWrite(a, v)])
  {
    if a in writeFail then BusResult(EREMOTEIO, regs, log) else BusResult(0, regs[a := v], log + [RegWrite(a, v)])
  }

  /** The registers after a block write of `bs` from address `a` on, the chip advancing the address per byte. */
  function StoreBlock(regs: map<int, bv8>, a: int, bs: seq<bv8>): (r: map<int, bv8>)
    decreases |bs|
  {
    if bs == [] then regs else StoreBlock(regs[a := bs[0]], a + 1, bs[1..])
  }

  /** The bytes of a block write, one logged write per register. */
  function BlockLog(a: int, bs: seq<bv8>): (w: seq<RegWrite>)
    ensures |w| == |bs| && forall k :: 0 <= k < |bs| ==> w[k] == RegWrite(a + k, bs[k])
  {
    seq(|bs|, k requires 0 <= k < |bs| => RegWrite(a + k, bs[k]))
  }

  /** After a block write each written register reads back its byte and every other register is unchanged. */
  lemma {:induction false} StoreBlockReadsBack(regs: map<int, bv8>, a: int, bs: seq<bv8>, b: int)
    ensures a <= b < a + |bs| ==> Get(StoreBlock(regs, a, bs), b) == bs[b - a]
    ensures !(a <= b < a + |bs|) ==> Get(StoreBlock(regs, a, bs), b) == Get(regs, b)
    decreases |bs|
  {
    if bs != [] {
      StoreBlockReadsBack(regs[a := bs[0]], a + 1, bs[1..], b);
      if a + 1 <= b < a + |bs| {
        assert bs[1..][b - (a + 1)] == bs[b - a];
      }
    }
  }

  /** The bytes a block read of n registers from `a` on returns. */
  function LoadBlock(regs: map<int, bv8>, a: int, n: nat): (bs: seq<bv8>)
    ensures |bs| == n && forall k :: 0 <= k < n ==> bs[k] == Get(regs, a + k)
  {
    seq(n, k => Get(regs, a + k))
  }

  /**
   * The register file of one chip.  Reads and writes at the addresses in
   * `readFail` and `writeFail` fail with -EREMOTEIO; a failed write changes
   * nothing.  `log` records every write that reached the chip.
   */
  class RegisterMap {
    var regs: map<int, bv8>
    var log: seq<RegWrite>
    const readFail: set<int>
    const writeFail: set<int>

    constructor (initial: map<int, bv8>, rf: set<int>, wf: set<int>)
      ensures regs == initial && log == [] && readFail == rf && writeFail == wf
    {
      regs, log := initial, [];
      readFail, writeFail := rf, wf;
    }

    function Value(a: int): bv8
      reads this
    {
      Get(regs, a)
    }

    /** A one-byte register read; a failed read leaves the caller's zero-initialised byte. */
    method Read(a: int) returns (ret: int, v: bv8)
      ensures a in readFail ==> ret == EREMOTEIO && v == 0
      ensures a !in readFail ==> ret == 0 && v == Value(a)
    {
      if a in readFail {
        return EREMOTEIO, 0;
      }
      ret, v := 0, Get(regs, a);
    }

    /** A one-byte register write. */
    method Write(a: int, v: bv8) returns (ret: int)
      modifies this`regs, this`log
      ensures a in writeFail ==> ret == EREMOTEIO && regs == old(regs) && log == old(log)
      ensures a !in writeFail ==> ret == 0 && regs == old(regs)[a := v] && log == old(log) + [RegWrite(a, v)]
    {
      if a in writeFail {
        return EREMOTEIO;
      }
      regs := regs[a := v];
      log := log + [RegWrite(a, v)];
      ret := 0;
    }

    /**
     * A multi-byte read from `a` on in one transfer (tas2101_rdm,
     * av201x_rdm); a failed transfer returns -EREMOTEIO and the caller's
     * zeroed buffer.
     */
    method ReadBlock(a: int, n: nat) returns (ret: int, bs: seq<bv8>)
      ensures a in readFail ==> ret == EREMOTEIO && bs == seq(n, _ => 0)
      ensures a !in readFail ==> ret == 0 && bs == LoadBlock(regs, a, n)
    {
      if a in readFail {
        return EREMOTEIO, seq(n, _ => 0);
      }
      ret, bs := 0, LoadBlock(regs, a, n);
    }

    /** A multi-byte write from `a` on in one transfer (tas2101_wrm, av201x_wrm); a failed one changes nothing. */
    method WriteBlock(a: int, bs: seq<bv8>) returns (ret: int)
      modifies this`regs, this`log
      ensures a in writeFail ==> ret == EREMOTEIO && regs == old(regs) && log == old(log)
      ensures a !in writeFail ==> ret == 0 && regs == StoreBlock(old(regs), a, bs) && log == old(log) + BlockLog(a, bs)
    {
      if a in writeFail {
        return EREMOTEIO;
      }
      regs := StoreBlock(regs, a, bs);
      log := log + BlockLog(a, bs);
      ret := 0;
    }

    /**
     * The chip itself changes one of its registers (a status bit it sets or
     * clears); nothing goes over the bus and nothing is logged.
     */
    method Latch(a: int, v: bv8)
      modifies this`regs
      ensures regs == old(regs)[a := v]
    {
      regs := regs[a := v];
    }

    /**
     * regmask (tas2101_regmask, av201x_regmask): with clrmask 0xff setmask is
     * written without a read; otherwise the register is read, its clrmask
     * bits cleared and the setmask bits set, and a failed read returns before
     * any write.
     */
    method RegMask(a: int, setmask: bv8, clrmask: bv8) returns (ret: int)
      modifies this`regs, this`log
      ensures var r := TableRun(old(regs), readFail, writeFail, old(log), [RegEntry(a, setmask, clrmask)]);
        ret == r.ret && regs == r.regs && log == r.log
    {
      var v: bv8 := 0;
      if clrmask != 0xff {
        ret, v := Read(a);
        if ret != 0 {
          return;
        }
      }
      ret := Write(a, MaskedByte(v, setmask, clrmask));
    }

    /** wrtable: regmask on each entry in order, returning the first non-zero code. */
    method WrTable(tbl: seq<RegEntry>) returns (ret: int)
      modifies this`regs, this`log
      ensures var r := TableRun(old(regs), readFail, writeFail, old(log), tbl);
        ret == r.ret && regs == r.regs && log == r.log
    {
      var i := 0;
      while i < |tbl|
        invariant 0 <= i <= |tbl|
        invariant TableRun(old(regs), readFail, writeFail, old(log), tbl)
          == TableShift(TableRun(regs, readFail, writeFail, log, tbl[i..]), i)
        decreases |tbl| - i
      {
        assert tbl[i..][0] == tbl[i] && tbl[i..][1..] == tbl[i + 1..];
        ret := RegMask(tbl[i].addr, tbl[i].setmask, tbl[i].clrmask);
        if ret != 0 {
          return;
        }
        i := i + 1;
      }
      ret := 0;
    }
  }

  /** Every entry of a table gets through its regmask. */
  predicate TableOk(readFail: set<int>, writeFail: set<int>, tbl: seq<RegEntry>)
  {
    forall j :: 0 <= j < |tbl| ==> EntryOk(readFail, writeFail, tbl[j])
  }

  /** A table result seen from `k` entries earlier. */
  function TableShift(r: TableResult, k: nat): TableResult
  {
    TableResult(r.ret, r.regs, r.log, r.done + k)
  }

  /**
   * The C expression `a | b` on two return codes, each 0 or -EREMOTEIO (the
   * only failure the bus model produces): or-ing a negative code with
   * itself or with 0 gives that code back.
   */
  function OrCodes(a: int, b: int): (r: int)
    requires a == 0 || a == EREMOTEIO
    requires b == 0 || b == EREMOTEIO
    ensures r == 0 || r == EREMOTEIO
    ensures r == 0 <==> a == 0 && b == 0
  {
    if a == 0 then b else a
  }
}
