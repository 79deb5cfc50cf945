/** The condition of NoOverrun is exact: every read request that does not meet it has a reply
    for which a byte outside the read buffer is written. */
module EngineOverrun {
  import opened Bytes
  import opened BlockStatus
  import opened Nbd
  import opened Reply
  import opened Engine
  import opened EngineSend
  import opened EngineParser
  import opened ReadData
  import opened EngineReads

  /** The command with the first cookie. */
  function Numbered(cmd: Command): Command { cmd.(req := cmd.req.(cookie := 1)) }

  /** `cmd` is the only command that is queued. */
  predicate Only(ls: seq<Label>, cmd: Command) { forall k | 0 <= k < |ls| && ls[k].Submit? :: ls[k].cmd == cmd }

  /** A run from a new connection in which only `cmd` is queued. */
  predicate OnlyRun(u: User, hs: seq<Handle>, ls: seq<Label>, cmd: Command)
  {
    IsRun(u, hs, ls) && |hs| == |ls| + 1 && hs[0] == NEW && Only(ls, cmd)
  }

  lemma More(u: User, hs: seq<Handle>, ls: seq<Label>, l: Label, cmd: Command)
    returns (hs': seq<Handle>, ls': seq<Label>)
    requires OnlyRun(u, hs, ls, cmd) && Enabled(hs[|ls|], l) && (l.Submit? ==> l.cmd == cmd)
    ensures OnlyRun(u, hs', ls', cmd) && |hs'| == |ls'| + 1 && hs'[|ls'|] == Step(u, hs[|ls|], l)
  {
    hide IsRun, Step, Enabled;
    hs', ls' := Extend(u, hs, ls, l);
  }

  /** A read of a program on a new connection. */
  predicate IsRead(cmd: Command) { cmd.req.kind.Read? && Acceptable(NEW, cmd) }

  /** The read is in flight and nothing else is going on. */
  predicate InFlight(h: Handle, cmd: Command)
  {
    && !h.failed && !h.overrun && h.n == NEW.n
    && h.q.toIssue == [] && h.q.inFlight == [Numbered(cmd)] && h.q.done == [] && h.q.inFlightCount == 1
  }

  lemma HeaderOut(u: User, cmd: Command) returns (hs: seq<Handle>, ls: seq<Label>)
    requires IsRead(cmd)
    ensures OnlyRun(u, hs, ls, cmd) && |hs| == |ls| + 1
    ensures var h := hs[|ls|];
      && h.state.PrepareWritePayload? && !h.blocked && !h.failed && h.n == NEW.n && h.r == NEW.r
      && h.q.toIssue == [Numbered(cmd)]
      && h.q.inFlight == [] && h.q.done == [] && h.q.inFlightCount == 1 && !h.overrun
      && h.w.req == Header(false, Numbered(cmd)) && h.w.wbuf == []
  {
    hide OnlyRun, Header, Field, EnterEnd, EnterReply;
    hs, ls := [NEW], [];
    assert OnlyRun(u, hs, ls, cmd) by { NoneYet(u, cmd); }
    HeaderCookie(false, Numbered(cmd));
    hs, ls := More(u, hs, ls, Submit(cmd), cmd);
    hs, ls := More(u, hs, ls, Run(Again), cmd);
    hs, ls := More(u, hs, ls, Run(Sent(28)), cmd);
  }

  lemma Issued(u: User, cmd: Command) returns (hs: seq<Handle>, ls: seq<Label>)
    requires IsRead(cmd)
    ensures OnlyRun(u, hs, ls, cmd) && |hs| == |ls| + 1
    ensures var h := hs[|ls|]; InFlight(h, cmd) && h.state.Ready? && h.blocked && h.r == NEW.r
  {
    hide OnlyRun, Header, Field, EnterEnd, EnterReply, Acceptable;
    hs, ls := HeaderOut(u, cmd);
    HeaderCookie(false, Numbered(cmd));
    hs, ls := More(u, hs, ls, Run(Again), cmd);
    hs, ls := More(u, hs, ls, Run(Again), cmd);
    hs, ls := More(u, hs, ls, Run(Again), cmd);
  }

  lemma NoneYet(u: User, cmd: Command)
    ensures OnlyRun(u, [NEW], [], cmd)
  {
    NoSteps(u, NEW);
  }

  // ---- the reply ----

  /** The first 16 bytes of the header of the last chunk, of type `t`, for cookie 1. */
  function Preamble(t: nat): seq<byte> { BE(NBD_STRUCTURED_REPLY_MAGIC, 4) + BE(1, 2) + BE(t, 2) + BE(1, 8) }

  lemma PreambleFields(h: Handle, t: nat)
    requires h.r.hdr == Preamble(t) && t < U16
    ensures |Preamble(t)| == 16 && Magic(h) == NBD_STRUCTURED_REPLY_MAGIC && Cookie(h) == 1 && ReplyType(h) == t
    ensures LastChunk(h)
  {
    hide BE, Val;
    var s := Preamble(t);
    Pow256Values();
    assert s[0..4] == BE(NBD_STRUCTURED_REPLY_MAGIC, 4);
    ValBE(NBD_STRUCTURED_REPLY_MAGIC, 4);
    assert s[4..6] == BE(1, 2);
    ValBE(1, 2);
    assert s[6..8] == BE(t, 2);
    ValBE(t, 2);
    assert s[8..16] == BE(1, 8);
    ValBE(1, 8);
  }

  lemma HeaderFields(h: Handle, t: nat, length: nat)
    requires h.r.hdr == Preamble(t) + BE(length, 4) && t < U16 && length < U32 && !h.n.extended
    ensures ReplyType(h) == t && ReplyLength(h) == length && Cookie(h) == 1 && LastChunk(h)
  {
    hide BE, Val, Preamble;
    var k := h.(r := h.r.(hdr := Preamble(t)));
    PreambleFields(k, t);
    FieldPrefix(Preamble(t), BE(length, 4), 4, 6);
    FieldPrefix(Preamble(t), BE(length, 4), 6, 8);
    FieldPrefix(Preamble(t), BE(length, 4), 8, 16);
    assert h.r.hdr[16..20] == BE(length, 4);
    Pow256Values();
    ValBE(length, 4);
  }

  lemma GotPreamble(u: User, cmd: Command, t: nat) returns (hs: seq<Handle>, ls: seq<Label>)
    requires IsRead(cmd) && t < U16
    ensures OnlyRun(u, hs, ls, cmd) && |hs| == |ls| + 1
    ensures var h := hs[|ls|];
      && InFlight(h, cmd) && h.state.RecvReply? && !h.blocked && h.r.rlen == 0 && h.r.hdr == Preamble(t)
      && h.r.payloadLeft == 0 && h.r.replyState.None? && h.r.replyCmd.None?
  {
    hide OnlyRun, BE, Preamble, Field, EnterEnd, Act;
    hs, ls := Issued(u, cmd);
    hs, ls := More(u, hs, ls, Notify(true), cmd);
    var h := hs[|ls|];
    PreambleFields(h.(r := h.r.(hdr := Preamble(t))), t);
    assert [] + Preamble(t) == Preamble(t);
    hs, ls := More(u, hs, ls, Run(Got(Preamble(t))), cmd);
  }

  lemma GotMagic(u: User, cmd: Command, t: nat) returns (hs: seq<Handle>, ls: seq<Label>)
    requires IsRead(cmd) && t < U16
    ensures OnlyRun(u, hs, ls, cmd) && |hs| == |ls| + 1
    ensures var h := hs[|ls|];
      && InFlight(h, cmd) && h.state.RecvStructuredRemaining? && !h.blocked && h.r.rlen == 4 && h.r.target.ToHdr?
      && h.r.hdr == Preamble(t) && h.r.replyState.None? && h.r.replyCmd == Some(1)
  {
    hide OnlyRun, BE, Preamble, Field, EnterEnd, Acts, Acceptable, Deliver;
    hs, ls := GotPreamble(u, cmd, t);
    PreambleFields(hs[|ls|], t);
    hs, ls := More(u, hs, ls, Run(Again), cmd);
    hs, ls := More(u, hs, ls, Run(Again), cmd);
  }

  lemma GotHeader(u: User, cmd: Command, t: nat, length: nat) returns (hs: seq<Handle>, ls: seq<Label>)
    requires IsRead(cmd) && t < U16 && length < U32
    ensures OnlyRun(u, hs, ls, cmd) && |hs| == |ls| + 1
    ensures var h := hs[|ls|];
      && InFlight(h, cmd) && h.state.ChunkStart? && !h.blocked && h.r.hdr == Preamble(t) + BE(length, 4)
      && h.r.replyState.None? && h.r.replyCmd == Some(1)
  {
    hide OnlyRun, BE, Preamble, Field, EnterEnd, OnChunkStart, Acts, Acceptable;
    hs, ls := GotMagic(u, cmd, t);
    hs, ls := More(u, hs, ls, Run(Got(BE(length, 4))), cmd);
  }

  // ---- a hole, if the buffer was not zeroed before ----

  /** The payload of a hole chunk. */
  function HolePayload(offset: nat, length: nat): seq<byte> { BE(offset, 8) + BE(length, 4) }

  lemma HoleFields(s: seq<byte>, offset: nat, length: nat)
    requires s == HolePayload(offset, length) && offset < U64 && length < U32
    ensures |s| == 12 && Field(s, 0, 8) == offset && Field(s, 8, 12) == length
  {
    hide BE, Val;
    Pow256Values();
    assert s[0..8] == BE(offset, 8);
    assert s[8..12] == BE(length, 4);
    ValBE(offset, 8);
    ValBE(length, 4);
  }

  lemma HoleHeader(u: User, cmd: Command) returns (hs: seq<Handle>, ls: seq<Label>)
    requires IsRead(cmd)
    ensures OnlyRun(u, hs, ls, cmd) && |hs| == |ls| + 1
    ensures var h := hs[|ls|];
      && InFlight(h, cmd) && h.state.RecvOffsetHole? && !h.blocked && h.r.rlen == 12 && h.r.target.ToPay?
      && h.r.pay == []
      && h.r.replyCmd == Some(1) && h.r.payloadLeft == 0 && Cookie(h) == 1 && LastChunk(h)
  {
    hide OnlyRun, Preamble, Field, EnterEnd, Acts, BE;
    hs, ls := GotHeader(u, cmd, NBD_REPLY_TYPE_OFFSET_HOLE, 12);
    HeaderFields(hs[|ls|], NBD_REPLY_TYPE_OFFSET_HOLE, 12);
    hs, ls := More(u, hs, ls, Run(Again), cmd);
  }

  lemma HoleOverruns(u: User, cmd: Command) returns (hs: seq<Handle>, ls: seq<Label>)
    requires IsRead(cmd) && !cmd.req.initialized && !WriteSafe(cmd.req)
    ensures OnlyRun(u, hs, ls, cmd) && |hs| == |ls| + 1 && hs[|ls|].overrun
  {
    hide OnlyRun, Field, EnterEnd, Acts, HolePayload, InBounds, ChunkCallback, Overlay;
    hs, ls := HoleHeader(u, cmd);
    var end := cmd.req.offset + cmd.req.count;
    WrapsAround(Numbered(cmd), U32 - 1);
    HoleFields(HolePayload(end - 1, U32 - 1), end - 1, U32 - 1);
    assert [] + HolePayload(end - 1, U32 - 1) == HolePayload(end - 1, U32 - 1);
    hs, ls := More(u, hs, ls, Run(Got(HolePayload(end - 1, U32 - 1))), cmd);
  }

  // ---- data, if it was ----

  lemma DataHeader(u: User, cmd: Command) returns (hs: seq<Handle>, ls: seq<Label>)
    requires IsRead(cmd)
    ensures OnlyRun(u, hs, ls, cmd) && |hs| == |ls| + 1
    ensures var h := hs[|ls|];
      && InFlight(h, cmd) && h.state.RecvOffsetData? && !h.blocked && h.r.rlen == 8 && h.r.target.ToPay?
      && h.r.pay == []
      && h.r.replyCmd == Some(1) && h.r.payloadLeft == MAX_REQUEST_SIZE && h.r.replyState.None?
  {
    hide OnlyRun, Preamble, Field, EnterEnd, Acts, BE;
    hs, ls := GotHeader(u, cmd, NBD_REPLY_TYPE_OFFSET_DATA, MAX_REQUEST_SIZE + 8);
    HeaderFields(hs[|ls|], NBD_REPLY_TYPE_OFFSET_DATA, MAX_REQUEST_SIZE + 8);
    hs, ls := More(u, hs, ls, Run(Again), cmd);
  }

  lemma OffsetField(offset: nat)
    requires offset < U64
    ensures |BE(offset, 8)| == 8 && Field(BE(offset, 8), 0, 8) == offset
  {
    hide BE, Val;
    Pow256Values();
    assert BE(offset, 8)[0..8] == BE(offset, 8);
    ValBE(offset, 8);
  }

  /** The chunk has been accepted and claims a part that leaves the buffer. */
  lemma DataClaimed(u: User, cmd: Command) returns (hs: seq<Handle>, ls: seq<Label>)
    requires IsRead(cmd) && cmd.req.initialized && !WriteSafe(cmd.req)
    ensures OnlyRun(u, hs, ls, cmd) && |hs| == |ls| + 1
    ensures var h := hs[|ls|];
      && h.state.RecvOffsetDataData? && !h.blocked && !h.failed && h.r.rlen == MAX_REQUEST_SIZE && h.r.target.ToData?
      && h.r.replyCmd == Some(1) && |h.q.inFlight| == 1 && h.q.inFlight[0].req.cookie == 1
      && h.q.inFlight[0].pieces == [Piece(cmd.req.count - 1, MAX_REQUEST_SIZE, [], false)]
      && |h.q.inFlight[0].data| == cmd.req.count > 0
  {
    hide OnlyRun, Field, EnterEnd, Acts, InBounds, BE, Seen, OnRecvOffsetDataData, Acceptable;
    hs, ls := DataHeader(u, cmd);
    assert cmd.pieces == [] && |cmd.data| == cmd.req.count && cmd.req.offset < U64 && cmd.req.count < U64 by {
      NewRead(cmd);
    }
    var end := cmd.req.offset + cmd.req.count;
    WrapsAround(Numbered(cmd), MAX_REQUEST_SIZE);
    OffsetField(end - 1);
    assert [] + BE(end - 1, 8) == BE(end - 1, 8);
    hs, ls := More(u, hs, ls, Run(Got(BE(end - 1, 8))), cmd);
  }

  lemma NewRead(cmd: Command)
    requires IsRead(cmd)
    ensures cmd.pieces == [] && |cmd.data| == cmd.req.count && cmd.req.offset < U64 && cmd.req.count < U64
  {
    hide HasPayload;
  }

  lemma DataOverruns(u: User, cmd: Command) returns (hs: seq<Handle>, ls: seq<Label>)
    requires IsRead(cmd) && cmd.req.initialized && !WriteSafe(cmd.req)
    ensures OnlyRun(u, hs, ls, cmd) && |hs| == |ls| + 1 && hs[|ls|].overrun
  {
    hide OnlyRun, EnterEnd, Acts, Overlay, Act, Acceptable, WriteSafe;
    hs, ls := DataClaimed(u, cmd);
    hs, ls := More(u, hs, ls, Run(Got([0, 0])), cmd);
  }

  /** For every read request that a program can queue: in some run in which it is the only
      command a byte outside its buffer is written, if and only if it is not WriteSafe. */
  lemma OverrunExact(u: User, cmd: Command)
    requires IsRead(cmd)
    ensures (exists hs: seq<Handle>, ls: seq<Label> :: OnlyRun(u, hs, ls, cmd) && hs[|ls|].overrun)
            <==> !WriteSafe(cmd.req)
  {
    hide WriteSafe, Acceptable;
    if !WriteSafe(cmd.req) {
      var hs, ls;
      if cmd.req.initialized { hs, ls := DataOverruns(u, cmd); } else { hs, ls := HoleOverruns(u, cmd); }
      assert OnlyRun(u, hs, ls, cmd) && hs[|ls|].overrun;
    } else {
      forall hs: seq<Handle>, ls: seq<Label> | OnlyRun(u, hs, ls, cmd) ensures !hs[|ls|].overrun {
        assert Fresh(hs[0]);
        NoOverrun(u, hs, ls, |ls|);
      }
    }
  }
}
