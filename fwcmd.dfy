/**
 * The firmware command channel of the Silicon Labs demodulators (Si2183,
 * Si2168) and tuners (Si2157).  A command is written to the chip, then the
 * reply is polled until bit 7 of its first byte (CTS, "clear to send")
 * reports that the firmware finished.  The demodulators additionally treat
 * bit 6 (ERR) as a failure; the tuner variant does not look at it.
 *
 * The I2C bus is replaced by an Exchange: the value the send returns and the
 * scripted list of replies the chip gives within the 500 ms budget; the
 * length of that list is the time budget.
 */
module FirmwareCmd {
  import opened Common

  /** One I2C read as seen by the driver: the return value and the bytes delivered. */
  datatype Reply = Reply(ret: int, data: seq<bv8>)

  /** The bus behaviour for one command: the send's return value and the replies. */
  datatype Exchange = Exchange(sendRet: int, replies: seq<Reply>)

  /** The two copies of the channel: the demodulators check the error bit, the tuner does not. */
  datatype Variant = ErrorBitChecked | ReadyOnly

  /** A command buffer: `args` holds the request and receives the reply. */
  datatype Cmd = Cmd(args: seq<bv8>, wlen: nat, rlen: nat)

  /** What executing a command leaves behind: the return code, the buffer and the number of reads. */
  datatype Outcome = Outcome(ret: int, args: seq<bv8>, polls: nat)

  /** End of the polling loop: a failed read, or the buffer after the last read. */
  datatype PollEnd = ReadFailed(err: int, n: nat) | PollDone(buf: seq<bv8>, n: nat)

  predicate Ready(b: bv8) { b & 0x80 != 0 }

  predicate ErrorBit(b: bv8) { b & 0x40 != 0 }

  predicate ValidCmd(c: Cmd)
  {
    c.wlen <= |c.args| && c.rlen <= |c.args| && |c.args| > 0
  }

  /**
   * The bytes a read of `rlen` bytes leaves in the buffer: the reply's first
   * `rlen` bytes, zero past the end of a reply that is too short.
   */
  function Received(data: seq<bv8>, rlen: nat): (r: seq<bv8>)
    ensures |r| == rlen
  {
    if |data| >= rlen then data[..rlen] else data + Zeros(rlen - |data|)
  }

  /** A long enough reply is cut to `rlen` bytes; a short one is kept whole and padded. */
  lemma ReceivedKeeps(data: seq<bv8>, rlen: nat)
    ensures |data| >= rlen ==> Received(data, rlen) == data[..rlen]
    ensures |data| <= rlen ==> Received(data, rlen)[..|data|] == data
  {
    if |data| < rlen {
      assert (data + Zeros(rlen - |data|))[..|data|] == data;
    }
  }

  function Zeros(n: nat): (z: seq<bv8>)
    ensures |z| == n
  {
    if n == 0 then [] else [0] + Zeros(n - 1)
  }

  /** The buffer after a read of `rlen` bytes: the reply overwrites the first `rlen` bytes. */
  function Overlay(buf: seq<bv8>, data: seq<bv8>, rlen: nat): (r: seq<bv8>)
    requires rlen <= |buf|
    ensures |r| == |buf|
  {
    Received(data, rlen) + buf[rlen..]
  }

  /** The read's bytes come first and the rest of the buffer is kept. */
  lemma OverlayKeeps(buf: seq<bv8>, data: seq<bv8>, rlen: nat)
    requires rlen <= |buf|
    ensures var r := Overlay(buf, data, rlen);
      r[..rlen] == Received(data, rlen) && r[rlen..] == buf[rlen..]
  {
  }

  /** The polling loop: read until the ready bit shows, a read fails, or the budget is used up. */
  function Poll(rlen: nat, buf: seq<bv8>, replies: seq<Reply>): (e: PollEnd)
    requires 0 < rlen <= |buf|
    ensures e.n <= |replies|
    ensures e.ReadFailed? ==> e.err < 0 && e.n >= 1
    ensures e.PollDone? ==> |e.buf| == |buf|
    decreases |replies|
  {
    if replies == [] then PollDone(buf, 0)
    else if replies[0].ret < 0 then ReadFailed(replies[0].ret, 1)
    else if replies[0].ret != rlen then ReadFailed(EREMOTEIO, 1)
    else
      var b := Overlay(buf, replies[0].data, rlen);
      if Ready(b[0]) then PollDone(b, 1)
      else
        match Poll(rlen, b, replies[1..])
        case ReadFailed(e, n) => ReadFailed(e, n + 1)
        case PollDone(b', n) => PollDone(b', n + 1)
  }

  /** The result of executing one command (cmd_execute). */
  function Execute(v: Variant, c: Cmd, x: Exchange): (o: Outcome)
    requires ValidCmd(c)
  {
    if c.wlen > 0 && x.sendRet < 0 then Outcome(x.sendRet, c.args, 0)
    else if c.wlen > 0 && x.sendRet != c.wlen then Outcome(EREMOTEIO, c.args, 0)
    else if c.rlen == 0 then Outcome(0, c.args, 0)
    else
      match Poll(c.rlen, c.args, x.replies)
      case ReadFailed(e, n) => Outcome(e, c.args, n)
      case PollDone(b, n) =>
        if v == ErrorBitChecked && ErrorBit(b[0]) then Outcome(EREMOTEIO, b, n)
        else if !Ready(b[0]) then Outcome(ETIMEDOUT, b, n)
        else Outcome(0, b, n)
  }

  /** Executing a command leaves a buffer of the command's size. */
  lemma ExecuteKeepsSize(v: Variant, c: Cmd, x: Exchange)
    requires ValidCmd(c)
    ensures |Execute(v, c, x).args| == |c.args|
  {
  }

  /** The polling loop as the drivers run it. */
  method PollReplies(rlen: nat, buf: seq<bv8>, replies: seq<Reply>) returns (e: PollEnd)
    requires 0 < rlen <= |buf|
    ensures e == Poll(rlen, buf, replies)
  {
    var args := buf;
    var i := 0;
    while i < |replies|
      invariant 0 <= i <= |replies| && |args| == |buf|
      invariant i > 0 ==> !Ready(args[0])
      invariant Poll(rlen, buf, replies) == PollShift(Poll(rlen, args, replies[i..]), i)
      decreases |replies| - i
    {
      PollAdvance(rlen, buf, args, replies, i);
      var r := replies[i];
      if r.ret < 0 {
        e := ReadFailed(r.ret, i + 1);
        return;
      } else if r.ret != rlen {
        e := ReadFailed(EREMOTEIO, i + 1);
        return;
      }
      args := Overlay(args, r.data, rlen);
      if Ready(args[0]) {
        e := PollDone(args, i + 1);
        return;
      }
      i := i + 1;
    }
    e := PollDone(args, i);
  }

  /** One read of the polling loop, on the replies from the i-th on. */
  lemma PollStepAt(rlen: nat, buf: seq<bv8>, replies: seq<Reply>, i: nat)
    requires 0 < rlen <= |buf| && i < |replies|
    ensures var r := replies[i];
      Poll(rlen, buf, replies[i..])
        == if r.ret < 0 then ReadFailed(r.ret, 1)
           else if r.ret != rlen then ReadFailed(EREMOTEIO, 1)
           else
             var b := Overlay(buf, r.data, rlen);
             if Ready(b[0]) then PollDone(b, 1) else PollShift(Poll(rlen, b, replies[i + 1..]), 1)
  {
    assert replies[i..][0] == replies[i] && replies[i..][1..] == replies[i + 1..];
  }

  /** The loop invariant of PollReplies carried across the i-th read. */
  lemma PollAdvance(rlen: nat, buf: seq<bv8>, args: seq<bv8>, replies: seq<Reply>, i: nat)
    requires 0 < rlen <= |args| && rlen <= |buf| && i < |replies|
    requires Poll(rlen, buf, replies) == PollShift(Poll(rlen, args, replies[i..]), i)
    ensures var r := replies[i];
      Poll(rlen, buf, replies)
        == if r.ret < 0 then ReadFailed(r.ret, i + 1)
           else if r.ret != rlen then ReadFailed(EREMOTEIO, i + 1)
           else
             var b := Overlay(args, r.data, rlen);
             if Ready(b[0]) then PollDone(b, i + 1) else PollShift(Poll(rlen, b, replies[i + 1..]), i + 1)
  {
    PollStepAt(rlen, args, replies, i);
  }

  /** Adds `k` earlier reads to the count of a polling result. */
  function PollShift(e: PollEnd, k: nat): PollEnd
  {
    match e
    case ReadFailed(err, n) => ReadFailed(err, n + k)
    case PollDone(b, n) => PollDone(b, n + k)
  }

  /** Facts about the polling loop, by induction on the reply script. */
  lemma {:induction false} PollFacts(rlen: nat, buf: seq<bv8>, replies: seq<Reply>)
    requires 0 < rlen <= |buf|
    decreases |replies|
    ensures var e := Poll(rlen, buf, replies);
      // every read before the last one was complete and not ready
      (forall j :: 0 <= j < e.n - 1 ==> replies[j].ret == rlen && !Ready(Received(replies[j].data, rlen)[0]))
      // a failed read is the last read, and reports the read's own code or -EREMOTEIO
      && (e.ReadFailed? ==>
            replies[e.n - 1].ret != rlen
            && e.err == (if replies[e.n - 1].ret < 0 then replies[e.n - 1].ret else EREMOTEIO))
      // after at least one read the buffer starts with that read's bytes
      && (e.PollDone? && e.n > 0 ==> e.buf[..rlen] == Received(replies[e.n - 1].data, rlen))
      // with no read at all the buffer is the request itself
      && (e.PollDone? && e.n == 0 ==> e.buf == buf && replies == [])
      // the loop gives up without readiness only when the budget is spent
      && (e.PollDone? && !Ready(e.buf[0]) ==> e.n == |replies|)
  {
    if replies != [] && replies[0].ret == rlen {
      var b := Overlay(buf, replies[0].data, rlen);
      OverlayKeeps(buf, replies[0].data, rlen);
      assert b[0] == b[..rlen][0];
      if !Ready(b[0]) {
        PollFacts(rlen, b, replies[1..]);
        var e' := Poll(rlen, b, replies[1..]);
        forall j | 0 <= j < e'.n + 1 - 1
          ensures replies[j].ret == rlen && !Ready(Received(replies[j].data, rlen)[0])
        {
          if j > 0 {
            assert replies[1..][j - 1] == replies[j];
          }
        }
      }
    }
  }

  /** A write is attempted iff wlen is non-zero; it was accepted iff it moved all wlen bytes. */
  predicate WriteOk(c: Cmd, x: Exchange)
  {
    c.wlen == 0 || x.sendRet == c.wlen
  }

  /**
   * Classification of a command's result: success needs an accepted write and,
   * when a reply is expected, a final buffer whose ready bit is set and (for
   * the demodulators) whose error bit is clear.  The error bit is checked before
   * readiness, and a missing ready bit means the budget ran out.
   */
  lemma ExecuteClassification(v: Variant, c: Cmd, x: Exchange)
    requires ValidCmd(c)
    ensures var o := Execute(v, c, x);
      (o.ret == 0 <==>
         (WriteOk(c, x) && (c.rlen == 0 ||
            (Poll(c.rlen, c.args, x.replies).PollDone? && Ready(o.args[0])
             && (v == ErrorBitChecked ==> !ErrorBit(o.args[0]))))))
      && (WriteOk(c, x) && c.rlen > 0 && Poll(c.rlen, c.args, x.replies).PollDone? ==>
            (v == ErrorBitChecked && ErrorBit(o.args[0]) ==> o.ret == EREMOTEIO)
            && (!Ready(o.args[0]) && !(v == ErrorBitChecked && ErrorBit(o.args[0])) ==>
                  o.ret == ETIMEDOUT && o.polls == |x.replies|))
      && (o.ret == 0 && o.polls > 0 ==> o.args[..c.rlen] == Received(x.replies[o.polls - 1].data, c.rlen))
  {
    if WriteOk(c, x) && c.rlen > 0 {
      PollFacts(c.rlen, c.args, x.replies);
    }
  }

  /**
   * Transport failures: a failed send is returned unchanged and a short send
   * becomes -EREMOTEIO, in both cases without any read; with nothing to read
   * an accepted write is a success; a short read becomes -EREMOTEIO.
   */
  lemma ExecuteTransport(v: Variant, c: Cmd, x: Exchange)
    requires ValidCmd(c)
    ensures var o := Execute(v, c, x);
      (c.wlen > 0 && x.sendRet < 0 ==> o.ret == x.sendRet && o.polls == 0)
      && (c.wlen > 0 && x.sendRet >= 0 && x.sendRet != c.wlen ==> o.ret == EREMOTEIO && o.polls == 0)
      && (WriteOk(c, x) && c.rlen == 0 ==> o.ret == 0 && o.polls == 0)
      && (WriteOk(c, x) && c.rlen > 0 && x.replies != [] && 0 <= x.replies[0].ret != c.rlen ==>
            o.ret == EREMOTEIO && o.polls == 1)
      && o.polls <= |x.replies|
      && (o.ret != 0 ==> o.ret < 0)
  {
  }

  /**
   * The tuner's copy of the channel accepts a ready reply whose error bit is
   * set, where the demodulators' copy reports -EREMOTEIO; otherwise the two
   * agree.
   */
  lemma {:induction false} VariantsDiffer(c: Cmd, x: Exchange)
    requires ValidCmd(c)
    ensures var d, t := Execute(ErrorBitChecked, c, x), Execute(ReadyOnly, c, x);
      d.args == t.args && d.polls == t.polls
      && ((d.ret != t.ret) <==>
            (WriteOk(c, x) && c.rlen > 0 && Poll(c.rlen, c.args, x.replies).PollDone?
             && ErrorBit(t.args[0])))
      && (d.ret != t.ret ==> d.ret == EREMOTEIO && (t.ret == 0 <==> Ready(t.args[0])))
  {
  }

  /** A concrete instance: a ready reply 0xC0 (ready and error) to a one-byte read. */
  lemma ErrorReplyExample()
    ensures var c, x := Cmd([0x42, 0x00], 2, 1), Exchange(2, [Reply(1, [0xC0])]);
      Execute(ReadyOnly, c, x).ret == 0 && Execute(ErrorBitChecked, c, x).ret == EREMOTEIO
  {
    var c, x := Cmd([0x42, 0x00], 2, 1), Exchange(2, [Reply(1, [0xC0])]);
    assert Overlay(c.args, [0xC0], 1) == [0xC0, 0x00];
  }

  /** A command as the drivers build it: the request bytes at the start of a zeroed buffer of `arglen` bytes. */
  function Request(w: seq<bv8>, rlen: nat, arglen: nat): (c: Cmd)
    requires 0 < |w| <= arglen && rlen <= arglen
    ensures ValidCmd(c) && c.wlen == |w| && c.rlen == rlen && c.args[..|w|] == w && |c.args| == arglen
  {
    Cmd(w + seq(arglen - |w|, _ => 0), |w|, rlen)
  }

  /**
   * The argument buffer of the demodulators, SI2183_ARGLEN.  The Si2168
   * driver's SI2168_ARGLEN is defined in si2168_priv.h, which is not part of
   * this model, and is taken to be the same 30 bytes.
   */
  const DEMOD_ARGLEN: nat := 30

  /** A demodulator command: the request bytes at the start of the argument buffer. */
  function DemodCommand(w: seq<bv8>, rlen: nat): (c: Cmd)
    requires 0 < |w| <= DEMOD_ARGLEN && rlen <= DEMOD_ARGLEN
    ensures ValidCmd(c) && c.wlen == |w| && c.args[..|w|] == w && |c.args| == DEMOD_ARGLEN
  {
    Request(w, rlen, DEMOD_ARGLEN)
  }

  /** A property write (command 0x14): the property code bytes, then the two value bytes. */
  function PropertyWrite(lo: bv8, hi: bv8, v0: bv8, v1: bv8): (c: Cmd)
    ensures ValidCmd(c) && c.wlen == 6 && c.rlen == 4 && |c.args| == DEMOD_ARGLEN
    ensures c.args[..6] == [0x14, 0x00, lo, hi, v0, v1]
  {
    DemodCommand([0x14, 0x00, lo, hi, v0, v1], 4)
  }

  /** The write a command puts on the bus, if any. */
  function Written(c: Cmd): (w: seq<seq<bv8>>)
    ensures |w| == (if c.wlen > 0 then 1 else 0)
    ensures ValidCmd(c) && c.wlen > 0 ==> w[0] == c.args[..c.wlen]
  {
    if c.wlen > 0 then [c.args[..if c.wlen <= |c.args| then c.wlen else |c.args|]] else []
  }

  /** The bus environment matches the command list, one exchange per command. */
  predicate Scripted(cmds: seq<Cmd>, envs: seq<Exchange>)
  {
    |envs| == |cmds|
    && forall i :: 0 <= i < |cmds| ==> ValidCmd(cmds[i])
  }

  /** The outcome of a command list run until its first failure. */
  datatype SeqOutcome = SeqOutcome(ret: int, issued: nat)

  /** Runs commands in order and stops at the first non-zero return code. */
  function RunAll(v: Variant, cmds: seq<Cmd>, envs: seq<Exchange>): (r: SeqOutcome)
    requires Scripted(cmds, envs)
    ensures r.issued <= |cmds|
    decreases |cmds|
  {
    if cmds == [] then SeqOutcome(0, 0)
    else
      var o := Execute(v, cmds[0], envs[0]);
      if o.ret != 0 then SeqOutcome(o.ret, 1)
      else
        var rest := RunAll(v, cmds[1..], envs[1..]);
        SeqOutcome(rest.ret, rest.issued + 1)
  }

  /** The first n commands of a list succeed. */
  predicate Succeed(v: Variant, cmds: seq<Cmd>, envs: seq<Exchange>, n: int)
    requires Scripted(cmds, envs) && n <= |cmds|
  {
    forall i :: 0 <= i < n ==> Execute(v, cmds[i], envs[i]).ret == 0
  }

  /** A scripted list without its first command: its successes are the list's successes from the second on. */
  lemma SucceedTail(v: Variant, cmds: seq<Cmd>, envs: seq<Exchange>, n: nat)
    requires Scripted(cmds, envs) && cmds != [] && n < |cmds|
    ensures Scripted(cmds[1..], envs[1..])
    ensures Succeed(v, cmds, envs, n + 1)
      <==> Execute(v, cmds[0], envs[0]).ret == 0 && Succeed(v, cmds[1..], envs[1..], n)
  {
    ScriptedTail(cmds, envs);
    if Execute(v, cmds[0], envs[0]).ret == 0 && Succeed(v, cmds[1..], envs[1..], n) {
      forall i | 0 < i < n + 1 ensures Execute(v, cmds[i], envs[i]).ret == 0 {
        assert cmds[1..][i - 1] == cmds[i] && envs[1..][i - 1] == envs[i];
      }
    }
    if Succeed(v, cmds, envs, n + 1) {
      forall i | 0 <= i < n ensures Execute(v, cmds[1..][i], envs[1..][i]).ret == 0 {
        assert cmds[1..][i] == cmds[i + 1] && envs[1..][i] == envs[i + 1];
      }
    }
  }

  /** Every command before the last one issued succeeded. */
  lemma {:induction false} RunAllPrefixSucceeds(v: Variant, cmds: seq<Cmd>, envs: seq<Exchange>)
    requires Scripted(cmds, envs)
    ensures var r := RunAll(v, cmds, envs); r.issued >= 1 ==> Succeed(v, cmds, envs, r.issued - 1)
    decreases |cmds|
  {
    if cmds != [] && Execute(v, cmds[0], envs[0]).ret == 0 {
      ScriptedTail(cmds, envs);
      var rest := RunAll(v, cmds[1..], envs[1..]);
      RunAllPrefixSucceeds(v, cmds[1..], envs[1..]);
      if rest.issued >= 1 {
        SucceedTail(v, cmds, envs, rest.issued - 1);
      }
    }
  }

  /** A command list succeeds iff every command succeeds, all of them issued. */
  lemma {:induction false} RunAllSucceeds(v: Variant, cmds: seq<Cmd>, envs: seq<Exchange>)
    requires Scripted(cmds, envs)
    ensures var r := RunAll(v, cmds, envs);
      r.ret == 0 <==> r.issued == |cmds| && Succeed(v, cmds, envs, |cmds|)
    decreases |cmds|
  {
    if cmds != [] {
      ScriptedTail(cmds, envs);
      RunAllSucceeds(v, cmds[1..], envs[1..]);
      SucceedTail(v, cmds, envs, |cmds| - 1);
    }
  }

  /** A failing list returns the code of its first failing command, which is the last one issued. */
  lemma {:induction false} RunAllFails(v: Variant, cmds: seq<Cmd>, envs: seq<Exchange>)
    requires Scripted(cmds, envs)
    ensures var r := RunAll(v, cmds, envs);
      r.ret != 0 ==> r.issued >= 1 && r.ret == Execute(v, cmds[r.issued - 1], envs[r.issued - 1]).ret
    decreases |cmds|
  {
    if cmds != [] && Execute(v, cmds[0], envs[0]).ret == 0 {
      ScriptedTail(cmds, envs);
      RunAllFails(v, cmds[1..], envs[1..]);
      var rest := RunAll(v, cmds[1..], envs[1..]);
      if rest.ret != 0 {
        assert cmds[1..][rest.issued - 1] == cmds[rest.issued];
        assert envs[1..][rest.issued - 1] == envs[rest.issued];
      }
    }
  }

  /** The writes issued by a prefix of a command list, in order. */
  function WrittenAll(cmds: seq<Cmd>): (w: seq<seq<bv8>>)
    ensures |w| <= |cmds|
  {
    if cmds == [] then [] else Written(cmds[0]) + WrittenAll(cmds[1..])
  }

  /**
   * The I2C client of one chip: its mutex and the log of every write it
   * put on the bus.
   */
  class Channel {
    var held: bool
    var acquisitions: nat
    var sent: seq<seq<bv8>>

    constructor ()
      ensures !held && acquisitions == 0 && sent == []
    {
      held, acquisitions, sent := false, 0, [];
    }

    /**
     * Executes one command under the mutex: the mutex is taken on entry and
     * released on every exit, success, write error and read error alike.
     */
    method Exec(v: Variant, c: Cmd, x: Exchange) returns (o: Outcome)
      requires !held && ValidCmd(c)
      modifies this
      ensures !held && acquisitions == old(acquisitions) + 1
      ensures o == Execute(v, c, x)
      ensures sent == old(sent) + Written(c)
    {
      held := true;
      acquisitions := acquisitions + 1;
      if c.wlen > 0 {
        sent := sent + [c.args[..c.wlen]];
        if x.sendRet < 0 {
          held := false;
          return Outcome(x.sendRet, c.args, 0);
        } else if x.sendRet != c.wlen {
          held := false;
          return Outcome(EREMOTEIO, c.args, 0);
        }
      }
      if c.rlen == 0 {
        held := false;
        return Outcome(0, c.args, 0);
      }
      var e := PollReplies(c.rlen, c.args, x.replies);
      match e
      case ReadFailed(err, n) =>
        held := false;
        o := Outcome(err, c.args, n);
      case PollDone(b, n) =>
        held := false;
        if v == ErrorBitChecked && ErrorBit(b[0]) {
          o := Outcome(EREMOTEIO, b, n);
        } else if !Ready(b[0]) {
          o := Outcome(ETIMEDOUT, b, n);
        } else {
          o := Outcome(0, b, n);
        }
    }

    /**
     * Executes a command list until the first failure; exactly the writes of
     * the issued commands reach the bus.
     */
    method RunSequence(v: Variant, cmds: seq<Cmd>, envs: seq<Exchange>) returns (r: SeqOutcome)
      requires !held && Scripted(cmds, envs)
      modifies this
      ensures !held
      ensures r == RunAll(v, cmds, envs)
      ensures sent == old(sent) + WrittenAll(cmds[..r.issued])
    {
      var i, ret := 0, 0;
      ghost var s0 := sent;
      assert cmds[..0] == [] && s0 + [] == s0;
      assert cmds[0..] == cmds && envs[0..] == envs;
      while i < |cmds| && ret == 0
        invariant 0 <= i <= |cmds| && !held
        invariant RunProgress(v, cmds, envs, i, ret)
        invariant sent == s0 + WrittenAll(cmds[..i])
        decreases |cmds| - i
      {
        ret := ExecAt(v, cmds, envs, i);
        RunAdvance(v, cmds, envs, i, ret);
        SentGrows(s0, cmds, i);
        i := i + 1;
      }
      if ret == 0 {
        assert cmds[i..] == [];
      }
      r := SeqOutcome(ret, i);
    }

    /** Executes command i of a list: one step of RunAll. */
    method ExecAt(v: Variant, cmds: seq<Cmd>, envs: seq<Exchange>, i: nat) returns (ret: int)
      requires !held && i < |cmds| && i < |envs| && Scripted(cmds[i..], envs[i..])
      modifies this
      ensures !held && Scripted(cmds[i + 1..], envs[i + 1..])
      ensures RunAll(v, cmds[i..], envs[i..])
        == if ret != 0 then SeqOutcome(ret, 1) else SeqShift(RunAll(v, cmds[i + 1..], envs[i + 1..]), 1)
      ensures sent == old(sent) + Written(cmds[i])
    {
      RunAllStepAt(v, cmds, envs, i);
      var o := Exec(v, cmds[i], envs[i]);
      ret := o.ret;
    }

    /**
     * Executes every command of a list whose results the driver discards
     * (a run of `si2183_CMD(client, ...);` statements): all writes are issued.
     */
    method RunEach(v: Variant, cmds: seq<Cmd>, envs: seq<Exchange>)
      requires !held && Scripted(cmds, envs)
      modifies this
      ensures !held
      ensures sent == old(sent) + WrittenAll(cmds)
    {
      var i := 0;
      ghost var s0 := sent;
      assert cmds[..0] == [] && s0 + [] == s0;
      while i < |cmds|
        invariant 0 <= i <= |cmds| && !held
        invariant sent == s0 + WrittenAll(cmds[..i])
        decreases |cmds| - i
      {
        var _ := Exec(v, cmds[i], envs[i]);
        SentGrows(s0, cmds, i);
        i := i + 1;
      }
      assert cmds[..i] == cmds;
    }

    /**
     * The firmware download loop: the records of the image are replayed in
     * order until the first failing command, and a record whose length byte
     * exceeds the argument buffer ends the download with -EINVAL before it
     * is sent.
     */
    method Download(v: Variant, fw: seq<bv8>, fmt: Format, arglen: nat, envs: seq<Exchange>)
      returns (ret: int, issued: nat)
      requires !held && 8 <= arglen && Scripted(Image(fw, fmt, arglen).cmds, envs)
      modifies this
      ensures !held
      ensures var w := Image(fw, fmt, arglen);
        ret == DownloadRet(v, w, envs) && issued == RunAll(v, w.cmds, envs).issued
        && sent == old(sent) + WrittenAll(w.cmds[..issued])
    {
      var w := ParseImage(fw, fmt, arglen);
      var r := RunSequence(v, w.cmds, envs);
      issued := r.issued;
      ret := if r.ret != 0 then r.ret else if w.bad then EINVAL else 0;
    }
  }

  /** An outcome seen from `k` commands earlier. */
  function SeqShift(r: SeqOutcome, k: nat): SeqOutcome
  {
    SeqOutcome(r.ret, r.issued + k)
  }

  /** A scripted list stays scripted without its first command. */
  lemma ScriptedTail(cmds: seq<Cmd>, envs: seq<Exchange>)
    requires Scripted(cmds, envs) && cmds != []
    ensures Scripted(cmds[1..], envs[1..])
  {
    forall i | 0 <= i < |cmds| - 1
      ensures ValidCmd(cmds[1..][i])
    {
      assert cmds[1..][i] == cmds[i + 1] && envs[1..][i] == envs[i + 1];
    }
  }

  /** A scripted list stays scripted from any command on. */
  lemma ScriptedFrom(cmds: seq<Cmd>, envs: seq<Exchange>, k: nat)
    requires Scripted(cmds, envs) && k <= |cmds|
    ensures Scripted(cmds[k..], envs[k..])
  {
    forall i | 0 <= i < |cmds| - k
      ensures ValidCmd(cmds[k..][i])
    {
      assert cmds[k..][i] == cmds[k + i] && envs[k..][i] == envs[k + i];
    }
  }

  /** One step of a command list: the first command either fails and ends it, or the rest runs. */
  lemma RunAllStep(v: Variant, cmds: seq<Cmd>, envs: seq<Exchange>)
    requires Scripted(cmds, envs) && cmds != []
    ensures Scripted(cmds[1..], envs[1..])
    ensures var o := Execute(v, cmds[0], envs[0]);
      RunAll(v, cmds, envs)
        == if o.ret != 0 then SeqOutcome(o.ret, 1) else SeqShift(RunAll(v, cmds[1..], envs[1..]), 1)
  {
    ScriptedTail(cmds, envs);
  }

  /** RunAllStep on the suffix from command i. */
  lemma RunAllStepAt(v: Variant, cmds: seq<Cmd>, envs: seq<Exchange>, i: nat)
    requires i < |cmds| && i < |envs| && Scripted(cmds[i..], envs[i..])
    ensures Scripted(cmds[i + 1..], envs[i + 1..]) && ValidCmd(cmds[i])
    ensures var o := Execute(v, cmds[i], envs[i]);
      RunAll(v, cmds[i..], envs[i..])
        == if o.ret != 0 then SeqOutcome(o.ret, 1) else SeqShift(RunAll(v, cmds[i + 1..], envs[i + 1..]), 1)
  {
    RunAllStep(v, cmds[i..], envs[i..]);
    assert cmds[i..][0] == cmds[i] && envs[i..][0] == envs[i];
    assert cmds[i..][1..] == cmds[i + 1..] && envs[i..][1..] == envs[i + 1..];
  }

  /** After k commands that succeeded, a failing command ends the list with its code. */
  lemma RunAllStopsAt(v: Variant, cmds: seq<Cmd>, envs: seq<Exchange>, k: nat)
    requires Scripted(cmds, envs) && k < |cmds|
    requires forall j :: 0 <= j < k ==> Execute(v, cmds[j], envs[j]).ret == 0
    requires Execute(v, cmds[k], envs[k]).ret != 0
    ensures RunAll(v, cmds, envs) == SeqOutcome(Execute(v, cmds[k], envs[k]).ret, k + 1)
  {
    RunAllSkip(v, cmds, envs, k);
    RunAllStep(v, cmds[k..], envs[k..]);
    assert cmds[k..][0] == cmds[k] && envs[k..][0] == envs[k];
  }

  /** Skipping k leading commands that all succeeded shifts the outcome by k. */
  lemma {:induction false} RunAllSkip(v: Variant, cmds: seq<Cmd>, envs: seq<Exchange>, k: nat)
    requires Scripted(cmds, envs) && k <= |cmds|
    requires forall j :: 0 <= j < k ==> Execute(v, cmds[j], envs[j]).ret == 0
    ensures Scripted(cmds[k..], envs[k..])
    ensures var r, r' := RunAll(v, cmds, envs), RunAll(v, cmds[k..], envs[k..]);
      r.ret == r'.ret && r.issued == r'.issued + k
  {
    ScriptedFrom(cmds, envs, k);
    if k > 0 {
      ScriptedTail(cmds, envs);
      forall j | 0 <= j < k - 1 ensures Execute(v, cmds[1..][j], envs[1..][j]).ret == 0 {
        assert cmds[1..][j] == cmds[j + 1] && envs[1..][j] == envs[j + 1];
      }
      RunAllSkip(v, cmds[1..], envs[1..], k - 1);
      assert cmds[1..][k - 1..] == cmds[k..] && envs[1..][k - 1..] == envs[k..];
    }
  }

  /**
   * After i commands of a list: the rest is still scripted, and the outcome
   * of the whole list is the outcome of the rest shifted by i, or, once a
   * command failed with `ret`, that failure.
   */
  ghost predicate RunProgress(v: Variant, cmds: seq<Cmd>, envs: seq<Exchange>, i: nat, ret: int)
  {
    i <= |cmds| && i <= |envs| && Scripted(cmds, envs) && Scripted(cmds[i..], envs[i..])
    && (ret == 0 ==> RunAll(v, cmds, envs) == SeqShift(RunAll(v, cmds[i..], envs[i..]), i))
    && (ret != 0 ==> RunAll(v, cmds, envs) == SeqOutcome(ret, i))
  }

  /** The loop invariant of RunSequence carried across command i, whose result was `ret`. */
  lemma RunAdvance(v: Variant, cmds: seq<Cmd>, envs: seq<Exchange>, i: nat, ret: int)
    requires i < |cmds| && RunProgress(v, cmds, envs, i, 0)
    requires Scripted(cmds[i + 1..], envs[i + 1..])
    requires RunAll(v, cmds[i..], envs[i..])
      == if ret != 0 then SeqOutcome(ret, 1) else SeqShift(RunAll(v, cmds[i + 1..], envs[i + 1..]), 1)
    ensures RunProgress(v, cmds, envs, i + 1, ret)
  {
  }

  /** The bus log after one more command of a list. */
  lemma SentGrows(s0: seq<seq<bv8>>, cmds: seq<Cmd>, i: nat)
    requires i < |cmds|
    ensures (s0 + WrittenAll(cmds[..i])) + Written(cmds[i]) == s0 + WrittenAll(cmds[..i + 1])
  {
    WrittenAllPrefix(cmds, i);
    AppendAssoc(s0, WrittenAll(cmds[..i]), Written(cmds[i]));
  }

  /** The writes of one more command of a list follow those of the commands before it. */
  lemma WrittenAllPrefix(cmds: seq<Cmd>, i: nat)
    requires i < |cmds|
    ensures WrittenAll(cmds[..i + 1]) == WrittenAll(cmds[..i]) + Written(cmds[i])
  {
    assert cmds[..i + 1] == cmds[..i] + [cmds[i]];
    WrittenAllSnoc(cmds[..i], cmds[i]);
  }

  lemma {:induction false} WrittenAllSnoc(cmds: seq<Cmd>, c: Cmd)
    ensures WrittenAll(cmds + [c]) == WrittenAll(cmds) + Written(c)
  {
    if cmds != [] {
      assert (cmds + [c])[1..] == cmds[1..] + [c];
      WrittenAllSnoc(cmds[1..], c);
    } else {
      assert cmds + [c] == [c];
    }
  }

  // ------------------------------------------------------------ firmware images

  /**
   * The two image layouts: records of 17 bytes holding a length byte and up
   * to 16 command bytes, or (Si2168 only) raw 8-byte commands.
   */
  datatype Format = Framed17 | Raw8

  function RecordSize(fmt: Format): (n: nat)
    ensures n == 17 || n == 8
  {
    if fmt == Framed17 then 17 else 8
  }

  /** `len` bytes of the image from `from`; bytes past the image end read as zero. */
  function Bytes(fw: seq<bv8>, from: nat, len: nat): (r: seq<bv8>)
    ensures |r| == len
  {
    Received(if from <= |fw| then fw[from..] else [], len)
  }

  /** Within the image, the bytes read are the image's own. */
  lemma BytesInImage(fw: seq<bv8>, from: nat, len: nat)
    requires from + len <= |fw|
    ensures Bytes(fw, from, len) == fw[from..from + len]
  {
    ReceivedKeeps(fw[from..], len);
    assert fw[from..][..len] == fw[from..from + len];
  }

  /** The payload of the record at `off` lies inside the image; otherwise the drivers' copy reads past its end. */
  predicate PayloadInImage(fw: seq<bv8>, fmt: Format, off: nat)
    requires off < |fw|
  {
    if fmt == Framed17 then off + 1 + fw[off] as int <= |fw| else off + 8 <= |fw|
  }

  /**
   * The last record of an image of whole 17-byte records stays inside the
   * image exactly when its length byte is at most 16: a length of 17 up to
   * the argument buffer's size passes the length check and reads past the
   * image end, where `Bytes` gives zeros.
   */
  lemma LastRecordOverruns(fw: seq<bv8>, off: nat)
    requires off < |fw| && off + 17 == |fw|
    ensures PayloadInImage(fw, Framed17, off) <==> fw[off] as int <= 16
  {
  }

  /** A raw record at a multiple of 8 in an image of whole raw records lies inside the image. */
  lemma RawRecordInImage(fw: seq<bv8>, off: nat)
    requires |fw| % 8 == 0 && off % 8 == 0 && off < |fw|
    ensures PayloadInImage(fw, Raw8, off)
  {
    var m, k := |fw| / 8, off / 8;
    assert |fw| == 8 * m && off == 8 * k;
    assert k < m;
  }

  /**
   * One 17-byte record with length byte 20 and payload bytes 0x11: the walk
   * sends it as a 20-byte command whose last four bytes lie past the image,
   * read as zeros here.
   */
  lemma OverrunReadsZeros()
    ensures var fw := [20 as bv8] + seq(16, _ => 0x11 as bv8);
      var w := Image(fw, Framed17, 30);
      !PayloadInImage(fw, Framed17, 0) && !w.bad && |w.cmds| == 1
      && w.cmds[0].wlen == 20 && w.cmds[0].args[..16] == fw[1..]
      && w.cmds[0].args[16..20] == [0, 0, 0, 0]
  {
    var fw := [20 as bv8] + seq(16, _ => 0x11 as bv8);
    var rs := RecordsFrom(fw, Framed17, 30, 17);
    assert rs == Records([], false);
    assert RecordsFrom(fw, Framed17, 30, 0) == Records([0], false);
    var p := RecordPayload(fw, Framed17, 0);
    assert p == fw[1..] + Zeros(4);
    var c := RecordAt(fw, Framed17, 30, 0);
    assert Image(fw, Framed17, 30).cmds == [c];
    assert c.args[..20] == p;
    assert c.args[..16] == p[..16] == fw[1..];
    assert c.args[16..20] == p[16..20] == Zeros(4);
  }

  /** A firmware command: the payload copied into an argument buffer of `arglen` bytes, one reply byte. */
  function RecordCmd(payload: seq<bv8>, arglen: nat): (c: Cmd)
    requires 1 <= arglen && |payload| <= arglen
    ensures ValidCmd(c) && c.wlen == |payload| && c.rlen == 1 && |c.args| == arglen
    ensures c.args[..|payload|] == payload
  {
    ReceivedKeeps(payload, arglen);
    Cmd(Received(payload, arglen), |payload|, 1)
  }

  /** The commands an image replays, and whether a record whose length byte is too large stopped it. */
  datatype Walk = Walk(cmds: seq<Cmd>, bad: bool)

  /** The offsets of the records replayed, and whether a record with a bad length byte stopped the walk. */
  datatype Records = Records(offs: seq<nat>, bad: bool)

  /** The offset of the j-th record after `off`. */
  function RecordOffset(fmt: Format, off: nat, j: nat): nat
  {
    if fmt == Framed17 then off + 17 * j else off + 8 * j
  }

  /** The length byte of a 17-byte record, or 8 for a raw record. */
  function RecordLen(fw: seq<bv8>, fmt: Format, off: nat): nat
    requires off < |fw|
  {
    if fmt == Framed17 then fw[off] as int else 8
  }

  function RecordPayload(fw: seq<bv8>, fmt: Format, off: nat): (p: seq<bv8>)
    requires off < |fw|
    ensures |p| == RecordLen(fw, fmt, off)
  {
    if fmt == Framed17 then Bytes(fw, off + 1, fw[off] as int) else Bytes(fw, off, 8)
  }

  /** The record at `off` lies in the image and its length fits the argument buffer. */
  predicate Fits(fw: seq<bv8>, fmt: Format, arglen: nat, off: nat)
  {
    off < |fw| && RecordLen(fw, fmt, off) <= arglen
  }

  /** The command that sends the record at `off`. */
  function RecordAt(fw: seq<bv8>, fmt: Format, arglen: nat, off: nat): Cmd
    requires 8 <= arglen && Fits(fw, fmt, arglen, off)
  {
    RecordCmd(RecordPayload(fw, fmt, off), arglen)
  }

  /**
   * The download loop's walk over the image from offset `off`: every record
   * in order, up to the image end or a record whose length byte is too large.
   */
  function RecordsFrom(fw: seq<bv8>, fmt: Format, arglen: nat, off: nat): (rs: Records)
    requires 8 <= arglen
    ensures fmt == Raw8 ==> !rs.bad
    ensures forall j :: 0 <= j < |rs.offs| ==> Fits(fw, fmt, arglen, rs.offs[j])
    decreases |fw| - off
  {
    if off >= |fw| then Records([], false)
    else if RecordLen(fw, fmt, off) > arglen then Records([], true)
    else
      var rs := RecordsFrom(fw, fmt, arglen, off + RecordSize(fmt));
      Records([off] + rs.offs, rs.bad)
  }

  /** The commands sending the records at `offs`, in order. */
  function RecordCmds(fw: seq<bv8>, fmt: Format, arglen: nat, offs: seq<nat>): (cs: seq<Cmd>)
    requires 8 <= arglen && forall j :: 0 <= j < |offs| ==> Fits(fw, fmt, arglen, offs[j])
    ensures |cs| == |offs|
    decreases |offs|
  {
    if offs == [] then [] else [RecordAt(fw, fmt, arglen, offs[0])] + RecordCmds(fw, fmt, arglen, offs[1..])
  }

  /** The download loop as a function of the image: the commands it sends and whether it met a bad record. */
  function Image(fw: seq<bv8>, fmt: Format, arglen: nat): (w: Walk)
    requires 8 <= arglen
    ensures fmt == Raw8 ==> !w.bad
  {
    var rs := RecordsFrom(fw, fmt, arglen, 0);
    Walk(RecordCmds(fw, fmt, arglen, rs.offs), rs.bad)
  }

  /** Command j of a record list sends record j. */
  lemma {:induction false} RecordCmdsAt(fw: seq<bv8>, fmt: Format, arglen: nat, offs: seq<nat>, j: nat)
    requires 8 <= arglen && forall k :: 0 <= k < |offs| ==> Fits(fw, fmt, arglen, offs[k])
    requires j < |offs|
    ensures RecordCmds(fw, fmt, arglen, offs)[j] == RecordAt(fw, fmt, arglen, offs[j])
    decreases j
  {
    if j > 0 {
      RecordCmdsAt(fw, fmt, arglen, offs[1..], j - 1);
    }
  }

  /**
   * Command `c` sends the record at offset `at`: the record lies in the
   * image, its length fits the argument buffer, and the command is well
   * formed, waits for a one-byte reply and writes exactly the payload.
   */
  predicate SendsRecord(fw: seq<bv8>, fmt: Format, arglen: nat, c: Cmd, at: nat)
  {
    Fits(fw, fmt, arglen, at) && ValidCmd(c) && c.rlen == 1 && c.args[..c.wlen] == RecordPayload(fw, fmt, at)
  }

  /** The command built for a record with a good length byte sends exactly that record. */
  lemma RecordAtSends(fw: seq<bv8>, fmt: Format, arglen: nat, off: nat)
    requires 8 <= arglen && Fits(fw, fmt, arglen, off)
    ensures SendsRecord(fw, fmt, arglen, RecordAt(fw, fmt, arglen, off), off)
  {
  }

  /** The walk visits the records back to back: the j-th one at RecordOffset(fmt, off, j). */
  lemma {:induction false} RecordsInOrder(fw: seq<bv8>, fmt: Format, arglen: nat, off: nat)
    requires 8 <= arglen
    ensures var rs := RecordsFrom(fw, fmt, arglen, off);
      forall j :: 0 <= j < |rs.offs| ==> rs.offs[j] == RecordOffset(fmt, off, j)
    decreases |fw| - off
  {
    if off < |fw| && RecordLen(fw, fmt, off) <= arglen {
      var n := RecordSize(fmt);
      RecordsInOrder(fw, fmt, arglen, off + n);
      var rs' := RecordsFrom(fw, fmt, arglen, off + n);
      forall j | 0 < j < 1 + |rs'.offs| ensures rs'.offs[j - 1] == RecordOffset(fmt, off, j) {
        assert RecordOffset(fmt, off, j) == RecordOffset(fmt, off + n, j - 1);
      }
    }
  }

  /** The download replays the image's records in order: command j sends the j-th record. */
  lemma ImageSendsRecords(fw: seq<bv8>, fmt: Format, arglen: nat)
    requires 8 <= arglen
    ensures var w := Image(fw, fmt, arglen);
      forall j :: 0 <= j < |w.cmds| ==> SendsRecord(fw, fmt, arglen, w.cmds[j], RecordOffset(fmt, 0, j))
  {
    var rs := RecordsFrom(fw, fmt, arglen, 0);
    RecordsInOrder(fw, fmt, arglen, 0);
    forall j | 0 <= j < |rs.offs|
      ensures SendsRecord(fw, fmt, arglen, RecordCmds(fw, fmt, arglen, rs.offs)[j], RecordOffset(fmt, 0, j))
    {
      RecordCmdsAt(fw, fmt, arglen, rs.offs, j);
      RecordAtSends(fw, fmt, arglen, rs.offs[j]);
    }
  }

  /** A walk cut short stops at a record that lies in the image and whose length byte exceeds the buffer. */
  lemma {:induction false} WalkEndsBad(fw: seq<bv8>, fmt: Format, arglen: nat, off: nat)
    requires 8 <= arglen
    ensures var rs := RecordsFrom(fw, fmt, arglen, off);
      rs.bad ==> var at := RecordOffset(fmt, off, |rs.offs|); at < |fw| && RecordLen(fw, fmt, at) > arglen
    decreases |fw| - off
  {
    if off < |fw| && RecordLen(fw, fmt, off) <= arglen {
      WalkEndsBad(fw, fmt, arglen, off + RecordSize(fmt));
    }
  }

  /** A walk that is not cut short goes on to the image end. */
  lemma {:induction false} WalkEndsClean(fw: seq<bv8>, fmt: Format, arglen: nat, off: nat)
    requires 8 <= arglen
    ensures var rs := RecordsFrom(fw, fmt, arglen, off);
      !rs.bad ==> RecordOffset(fmt, off, |rs.offs|) >= |fw|
    decreases |fw| - off
  {
    if off < |fw| && RecordLen(fw, fmt, off) <= arglen {
      WalkEndsClean(fw, fmt, arglen, off + RecordSize(fmt));
    }
  }

  /** A framed image of 17-byte records has one command per record, unless a length byte is too large. */
  lemma FramedImageCount(fw: seq<bv8>, arglen: nat)
    requires 8 <= arglen && |fw| % 17 == 0
    ensures var w := Image(fw, Framed17, arglen);
      |w.cmds| <= |fw| / 17 && (!w.bad ==> |w.cmds| == |fw| / 17)
  {
    var rs := RecordsFrom(fw, Framed17, arglen, 0);
    RecordsInOrder(fw, Framed17, arglen, 0);
    WalkEndsClean(fw, Framed17, arglen, 0);
    var m := |fw| / 17;
    assert |fw| == 17 * m;
    if |rs.offs| > 0 {
      var last := |rs.offs| - 1;
      assert Fits(fw, Framed17, arglen, rs.offs[last]);
      assert 17 * last < 17 * m;
    }
  }

  /** The records already visited, followed by the rest of a walk. */
  function RecordsJoin(seen: seq<nat>, rs: Records): Records
  {
    Records(seen + rs.offs, rs.bad)
  }

  /** The walk adds nothing past the image end, and ends at a record with a bad length. */
  lemma WalkStops(fw: seq<bv8>, fmt: Format, arglen: nat, off: nat, seen: seq<nat>)
    requires 8 <= arglen && (off >= |fw| || RecordLen(fw, fmt, off) > arglen)
    ensures RecordsJoin(seen, RecordsFrom(fw, fmt, arglen, off)) == Records(seen, off < |fw|)
  {
    assert seen + [] == seen;
  }

  /** A record with a good length is visited before the rest of the walk. */
  lemma WalkAdvances(fw: seq<bv8>, fmt: Format, arglen: nat, off: nat, seen: seq<nat>)
    requires 8 <= arglen && Fits(fw, fmt, arglen, off)
    ensures RecordsJoin(seen, RecordsFrom(fw, fmt, arglen, off))
      == RecordsJoin(seen + [off], RecordsFrom(fw, fmt, arglen, off + RecordSize(fmt)))
  {
    AppendAssoc(seen, [off], RecordsFrom(fw, fmt, arglen, off + RecordSize(fmt)).offs);
  }

  /** The record walk of the download loop: one command per record, in image order. */
  method ParseImage(fw: seq<bv8>, fmt: Format, arglen: nat) returns (w: Walk)
    requires 8 <= arglen
    ensures w == Image(fw, fmt, arglen)
  {
    var rs := WalkImage(fw, fmt, arglen);
    w := Walk(RecordCmds(fw, fmt, arglen, rs.offs), rs.bad);
  }

  /** The loop over the image's records: `off` advances one record at a time until the end or a bad length. */
  method WalkImage(fw: seq<bv8>, fmt: Format, arglen: nat) returns (rs: Records)
    requires 8 <= arglen
    ensures rs == RecordsFrom(fw, fmt, arglen, 0)
  {
    var seen: seq<nat> := [];
    var off: nat := 0;
    var bad := false;
    assert [] + RecordsFrom(fw, fmt, arglen, 0).offs == RecordsFrom(fw, fmt, arglen, 0).offs;
    while off < |fw| && !bad
      invariant WalkProgress(fw, fmt, arglen, seen, off, bad)
      decreases |fw| - off, !bad
    {
      WalkStep(fw, fmt, arglen, seen, off);
      if RecordLen(fw, fmt, off) > arglen {
        bad := true;
      } else {
        seen := seen + [off];
        off := off + RecordSize(fmt);
      }
    }
    WalkDone(fw, fmt, arglen, seen, off, bad);
    rs := Records(seen, bad);
  }

  /**
   * After visiting the records at `seen`: the walk of the whole image is
   * `seen` followed by the walk from `off`, or, once a bad record was met,
   * exactly `seen`.
   */
  ghost predicate WalkProgress(fw: seq<bv8>, fmt: Format, arglen: nat, seen: seq<nat>, off: nat, bad: bool)
    requires 8 <= arglen
  {
    if bad then RecordsFrom(fw, fmt, arglen, 0) == Records(seen, true)
    else RecordsFrom(fw, fmt, arglen, 0) == RecordsJoin(seen, RecordsFrom(fw, fmt, arglen, off))
  }

  /** One record of the loop: a bad length byte ends the walk, a good one is visited. */
  lemma WalkStep(fw: seq<bv8>, fmt: Format, arglen: nat, seen: seq<nat>, off: nat)
    requires 8 <= arglen && off < |fw| && WalkProgress(fw, fmt, arglen, seen, off, false)
    ensures RecordLen(fw, fmt, off) > arglen ==> WalkProgress(fw, fmt, arglen, seen, off, true)
    ensures RecordLen(fw, fmt, off) <= arglen ==>
      WalkProgress(fw, fmt, arglen, seen + [off], off + RecordSize(fmt), false)
  {
    if RecordLen(fw, fmt, off) > arglen {
      WalkStops(fw, fmt, arglen, off, seen);
    } else {
      WalkAdvances(fw, fmt, arglen, off, seen);
    }
  }

  /** When the loop ends, the records visited are the whole walk. */
  lemma WalkDone(fw: seq<bv8>, fmt: Format, arglen: nat, seen: seq<nat>, off: nat, bad: bool)
    requires 8 <= arglen && (off >= |fw| || bad) && WalkProgress(fw, fmt, arglen, seen, off, bad)
    ensures RecordsFrom(fw, fmt, arglen, 0) == Records(seen, bad)
  {
    if !bad {
      WalkStops(fw, fmt, arglen, off, seen);
    }
  }

  /** The download's return code: the first failing command's code, else -EINVAL for a bad record. */
  function DownloadRet(v: Variant, w: Walk, envs: seq<Exchange>): (ret: int)
    requires Scripted(w.cmds, envs)
    ensures ret == 0 <==> !w.bad && RunAll(v, w.cmds, envs).ret == 0
  {
    var r := RunAll(v, w.cmds, envs);
    if r.ret != 0 then r.ret else if w.bad then EINVAL else 0
  }
}
