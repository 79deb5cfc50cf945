/** What data, hole and error replies mean, told with the bytes of the reply, in every run. */
module EngineReplyData {
  import opened Bytes
  import opened BlockStatus
  import opened Nbd
  import opened Reply
  import opened Engine
  import opened EngineQuiet
  import opened EngineLedger
  import opened EngineSend
  import opened EngineParser
  import opened EngineSafety
  import opened EngineContent
  import opened ReadData
  import opened EngineReads
  import opened EngineReplies

  /** The last part of the buffer that was claimed. */
  function LastPiece(cmd: Command): Piece
    requires cmd.pieces != []
  {
    cmd.pieces[|cmd.pieces| - 1]
  }

  /** The part of the buffer that the last piece covers shows what the piece received. */
  lemma LastOnTop(cmd: Command, late: bool)
    requires cmd.req.kind.Read? && CmdOk(cmd, true, 0, late) && LastPiece(cmd).at + LastPiece(cmd).len <= cmd.req.count
    ensures |cmd.data| == cmd.req.count && |LastPiece(cmd).bytes| == LastPiece(cmd).len
    ensures cmd.data[LastPiece(cmd).at..LastPiece(cmd).at + LastPiece(cmd).len] == LastPiece(cmd).bytes
  {
    hide Fit, AllZero, Total, Overlay, AllWhole;
    var p := LastPiece(cmd);
    var below := Paint(cmd.req.before, cmd.pieces[..|cmd.pieces| - 1], cmd.req.initialized);
    assert cmd.data == Overlay(below, p.at, p.bytes);
    OverlayShows(below, p.at, p.bytes);
  }

  lemma OverlayShows(data: seq<byte>, at: nat, bytes: seq<byte>)
    requires at + |bytes| <= |data|
    ensures Overlay(data, at, bytes)[at..at + |bytes|] == bytes
  {
  }

  /** A data callback, if the command has one: the log after it. */
  predicate Shown(h: Handle, g: Handle, cmd: Command, bytes: seq<byte>, offset: nat, status: ChunkStatus)
  {
    g.log == if cmd.req.hasChunk then h.log + [ChunkCb(cmd.req.cookie, bytes, offset, status, cmd.error)] else h.log
  }

  /** The error after a data callback: it counts when the callback fails, unless `keep` and
      there is one already. */
  predicate Judged(u: User, g: Handle, cmd: Command, after: Command, keep: bool)
  {
    after.error ==
      if cmd.req.hasChunk && u(g.log).ret == -1 && (cmd.error == 0 || !keep) then
        (if u(g.log).err != 0 then u(g.log).err else EPROTO)
      else cmd.error
  }

  lemma CallbackSays(u: User, h: Handle, i: nat, bytes: seq<byte>, offset: nat, status: ChunkStatus, keep: bool)
    requires i < |h.q.inFlight|
    ensures var g := ChunkCallback(u, h, i, bytes, offset, status, keep);
      && |g.q.inFlight| == |h.q.inFlight| && g.q.inFlight[i] == h.q.inFlight[i].(error := g.q.inFlight[i].error)
      && Shown(h, g, h.q.inFlight[i], bytes, offset, status) && Judged(u, g, h.q.inFlight[i], g.q.inFlight[i], keep)
  {
  }

  // ---- data chunks ----

  lemma DataBuffers(d: Handle)
    requires Parse(d) && Content(d) && FlightOk(d) && d.state.RecvOffsetDataData? && d.r.rlen == 0
    ensures Current(d).Some? && CurCmd(d).Some? && |d.r.hdr| == (if d.n.extended then 32 else 20)
    ensures d.r.hdr <= d.r.reply && CurCmd(d).value == d.q.inFlight[Current(d).value]
    ensures var cmd, pay := CurCmd(d).value, Payload(d.n.extended, d.r.reply);
      && cmd.req.kind.Read? && cmd.pieces != [] && CmdOk(cmd, true, 0, false) && |pay| >= 8 && |d.r.pay| == 8
      && d.r.payloadLeft + 8 == |pay| && pay[..8] == d.r.pay
      && cmd.req.offset <= Val(pay[..8])
      && LastPiece(cmd) == Piece(Val(pay[..8]) - cmd.req.offset, |pay| - 8, pay[8..], false)
  {
    hide Field, Lookup, Matched, EarlyResync, BsLengthOk, Taken, AtEnd, AtHeader, AtPreamble, Painted, Counted, Val;
    var cmd := CurCmd(d).value;
    var pay := Payload(d.n.extended, d.r.reply);
    var p := LastPiece(cmd);
    assert (d.r.hdr + d.r.pay) + p.bytes == d.r.hdr + (d.r.pay + p.bytes);
    assert pay == d.r.pay + p.bytes;
    assert pay[..8] == d.r.pay && pay[8..] == p.bytes;
    assert CmdOk(cmd, Busy(d), d.r.rlen, Late(d));
  }

  /** In every run, when a data chunk is complete: the last part of the command's buffer that
      was claimed begins where the first eight bytes of the payload say and is the rest of the
      payload; the buffer holds these bytes there; and the chunk callback is shown them. */
  lemma DataStored(u: User, hs: seq<Handle>, ls: seq<Label>, m: nat) returns (i: nat)
    requires IsRun(u, hs, ls) && Fresh(hs[0]) && m < |ls| && hs[m].state.RecvOffsetDataData? && Completes(hs[m], ls[m])
    ensures var h, g, s := hs[m], hs[m + 1], ReplyAt(hs[m], ls[m]); var pay := Payload(h.n.extended, s);
      && i < |h.q.inFlight| == |g.q.inFlight| && |pay| >= 8 && h.q.inFlight[i].req.cookie == Num(s, 8, 16)
      && var was, cmd, offset := h.q.inFlight[i], g.q.inFlight[i], Val(pay[..8]);
      && cmd.req == was.req && cmd.pieces != [] && cmd.req.offset <= offset
      && LastPiece(cmd) == Piece(offset - cmd.req.offset, |pay| - 8, pay[8..], false)
      && Judged(u, g, was, cmd, true)
      && (offset + |pay| - 8 <= cmd.req.offset + cmd.req.count ==>
            && |cmd.data| == cmd.req.count
            && cmd.data[offset - cmd.req.offset..offset - cmd.req.offset + |pay| - 8] == pay[8..]
            && Shown(h, g, was, pay[8..], offset, DataChunk))
  {
    hide Step, Fresh, Field, Lookup, Ledger, FlightOk, Acts, Content, Parse, Payload, Act, Num, Val, CmdOk, Shown,
         Judged, CurCmd;
    ActingFacts(u, hs, ls, m);
    var d := Handed(hs[m], ls[m].io);
    DataBuffers(d);
    HeaderNumbers(d);
    i := Current(d).value;
    CurrentCookie(d);
    DataActs(u, d, i, Payload(d.n.extended, d.r.reply));
    SameEvent(u, hs[m], d, i, hs[m + 1]);
  }

  /** The callback's part of the command is the same before and after the bytes arrived. */
  lemma SameEvent(u: User, h: Handle, d: Handle, i: nat, g: Handle)
    requires SameReqs(h.q.inFlight, d.q.inFlight) && d.log == h.log && i < |h.q.inFlight|
    requires d.q.inFlight[i].error == h.q.inFlight[i].error
    ensures forall bytes: seq<byte>, offset: nat, status: ChunkStatus ::
      Shown(d, g, d.q.inFlight[i], bytes, offset, status) == Shown(h, g, h.q.inFlight[i], bytes, offset, status)
    ensures forall after: Command, keep: bool ::
      Judged(u, g, d.q.inFlight[i], after, keep) == Judged(u, g, h.q.inFlight[i], after, keep)
  {
  }

  lemma DataActs(u: User, d: Handle, i: nat, pay: seq<byte>)
    requires d.state.RecvOffsetDataData? && Current(d) == Some(i) && |pay| >= 8 && d.r.payloadLeft + 8 == |pay|
    requires d.r.pay == pay[..8]
    requires var cmd := d.q.inFlight[i];
      && cmd.req.kind.Read? && CmdOk(cmd, true, 0, false) && cmd.pieces != [] && cmd.req.offset <= Val(pay[..8])
      && LastPiece(cmd) == Piece(Val(pay[..8]) - cmd.req.offset, |pay| - 8, pay[8..], false)
    ensures var g := Act(u, d); var was, offset := d.q.inFlight[i], Val(pay[..8]);
      && |g.q.inFlight| == |d.q.inFlight|
      && var cmd := g.q.inFlight[i];
      && cmd == was.(error := cmd.error) && Judged(u, g, was, cmd, true)
      && (offset + |pay| - 8 <= was.req.offset + was.req.count ==>
            && |cmd.data| == cmd.req.count
            && cmd.data[offset - cmd.req.offset..offset - cmd.req.offset + |pay| - 8] == pay[8..]
            && Shown(d, g, was, pay[8..], offset, DataChunk))
  {
    hide Acts, Lookup, Val, CmdOk, Shown, Judged, ChunkCallback;
    var was, offset := d.q.inFlight[i], Val(pay[..8]);
    assert pay[..8][0..8] == pay[..8];
    var at := offset - was.req.offset;
    CallbackSays(u, d, i, Slice(was.data, at, d.r.payloadLeft), offset, DataChunk, true);
    assert Field(d.r.pay, 0, 8) == offset;
    var k := ChunkCallback(u, d, i, Slice(was.data, at, d.r.payloadLeft), offset, DataChunk, true);
    var g := Act(u, d);
    assert g.q == k.q && g.log == k.log;
    SameLog(u, k, g, d, was, k.q.inFlight[i]);
    if offset + |pay| - 8 <= was.req.offset + was.req.count {
      LastOnTop(was, false);
      assert Slice(was.data, at, d.r.payloadLeft) == pay[8..];
    }
  }

  lemma SameLog(u: User, k: Handle, g: Handle, d: Handle, was: Command, after: Command)
    requires g.log == k.log
    ensures forall bytes: seq<byte>, offset: nat, status: ChunkStatus ::
      Shown(d, g, was, bytes, offset, status) == Shown(d, k, was, bytes, offset, status)
    ensures forall keep: bool :: Judged(u, g, was, after, keep) == Judged(u, k, was, after, keep)
  {
  }

  // ---- the data of a simple reply ----

  lemma SimpleBuffers(d: Handle)
    requires Parse(d) && Content(d) && FlightOk(d) && d.state.RecvReadPayload? && d.r.rlen == 0
    ensures Current(d).Some? && CurCmd(d).Some? && CurCmd(d).value == d.q.inFlight[Current(d).value]
    ensures |d.r.hdr| == 16 && d.r.hdr <= d.r.reply
    ensures var cmd := CurCmd(d).value;
      && cmd.req.kind.Read? && cmd.pieces != [] && CmdOk(cmd, true, 0, true)
      && LastPiece(cmd) == Piece(0, cmd.req.count, d.r.reply[16..], false)
  {
    hide Field, Lookup, Matched, EarlyResync, BsLengthOk, Taken, AtEnd, AtPayload, AtPreamble, Painted, Counted, Val;
    var cmd := CurCmd(d).value;
    assert d.r.reply[16..] == LastPiece(cmd).bytes;
    assert CmdOk(cmd, Busy(d), d.r.rlen, Late(d));
  }

  /** In every run, when the data of a simple reply is complete: the buffer of the command is
      what followed the 16 bytes of the header, and the chunk callback is shown it. */
  lemma SimpleStored(u: User, hs: seq<Handle>, ls: seq<Label>, m: nat) returns (i: nat)
    requires IsRun(u, hs, ls) && Fresh(hs[0]) && m < |ls| && hs[m].state.RecvReadPayload? && Completes(hs[m], ls[m])
    ensures var h, g, s := hs[m], hs[m + 1], ReplyAt(hs[m], ls[m]);
      && i < |h.q.inFlight| == |g.q.inFlight| && |s| >= 16 && h.q.inFlight[i].req.cookie == Num(s, 8, 16)
      && var was, cmd := h.q.inFlight[i], g.q.inFlight[i];
      && cmd.req == was.req && cmd.data == s[16..] && cmd.pieces != []
      && LastPiece(cmd) == Piece(0, cmd.req.count, s[16..], false)
      && Judged(u, g, was, cmd, false) && Shown(h, g, was, s[16..], was.req.offset, DataChunk)
  {
    hide Step, Fresh, Field, Lookup, Ledger, FlightOk, Acts, Content, Parse, Act, Num, Val, CmdOk, Shown, Judged,
         CurCmd;
    ActingFacts(u, hs, ls, m);
    var d := Handed(hs[m], ls[m].io);
    SimpleBuffers(d);
    HeaderNumbers(d);
    i := Current(d).value;
    CurrentCookie(d);
    SimpleActs(u, d, i);
    SameEvent(u, hs[m], d, i, hs[m + 1]);
  }

  lemma SimpleActs(u: User, d: Handle, i: nat)
    requires d.state.RecvReadPayload? && Current(d) == Some(i) && |d.r.reply| >= 16
    requires var cmd := d.q.inFlight[i];
      && cmd.req.kind.Read? && CmdOk(cmd, true, 0, true) && cmd.pieces != []
      && LastPiece(cmd) == Piece(0, cmd.req.count, d.r.reply[16..], false)
    ensures var g := Act(u, d); var was := d.q.inFlight[i];
      && |g.q.inFlight| == |d.q.inFlight|
      && var cmd := g.q.inFlight[i];
      && cmd == was.(error := cmd.error) && cmd.data == d.r.reply[16..]
      && Judged(u, g, was, cmd, false) && Shown(d, g, was, d.r.reply[16..], was.req.offset, DataChunk)
  {
    hide Acts, Lookup, CmdOk, Shown, Judged, ChunkCallback;
    var was := d.q.inFlight[i];
    LastOnTop(was, true);
    assert was.data[0..|was.data|] == was.data;
    CallbackSays(u, d, i, was.data, was.req.offset, DataChunk, false);
    var k := ChunkCallback(u, d, i, was.data, was.req.offset, DataChunk, false);
    SameLog(u, k, Act(u, d), d, was, k.q.inFlight[i]);
  }

  // ---- where a chunk may lie ----

  /** The chunk lies in the request. */
  predicate Inside(req: Request, offset: nat, length: nat)
  {
    req.offset <= offset < req.offset + req.count < U64 && offset + length <= req.offset + req.count
  }

  /** It begins outside. */
  predicate Outlying(req: Request, offset: nat)
  {
    offset < req.offset || (req.offset + req.count < U64 && offset >= req.offset + req.count)
  }

  lemma BoundsDecide(cmd: Command, offset: nat, length: nat)
    ensures Inside(cmd.req, offset, length) ==> InBounds(offset, length, cmd)
    ensures Outlying(cmd.req, offset) ==> !InBounds(offset, length, cmd)
  {
    var end := cmd.req.offset + cmd.req.count;
    assert end < U64 ==> end % U64 == end;
    assert offset + length < U64 ==> (offset + length) % U64 == offset + length;
  }

  lemma ChunkBuffers(d: Handle)
    requires Parse(d) && Content(d) && d.r.rlen == 0 && (d.state.RecvOffsetData? || d.state.RecvOffsetHole?)
    ensures Current(d).Some? && |d.r.hdr| == (if d.n.extended then 32 else 20) && d.r.hdr <= d.r.reply
    ensures Payload(d.n.extended, d.r.reply) == d.r.pay && |d.r.pay| == (if d.state.RecvOffsetData? then 8 else 12)
    ensures d.q.inFlight[Current(d).value].req.kind.Read?
    ensures d.state.RecvOffsetData? ==> d.r.payloadLeft + 8 == ReplyLength(d)
  {
    hide Field, Lookup, Matched, EarlyResync, BsLengthOk, Taken, AtEnd, AtHeader, AtPreamble;
  }

  /** In every run, when the offset of a data chunk is there: the chunk is accepted if it lies
      in the request, and the connection is given up if it begins outside. */
  lemma DataAccepted(u: User, hs: seq<Handle>, ls: seq<Label>, m: nat) returns (i: nat)
    requires IsRun(u, hs, ls) && Fresh(hs[0]) && m < |ls| && hs[m].state.RecvOffsetData? && Completes(hs[m], ls[m])
    ensures var h, g, s := hs[m], hs[m + 1], ReplyAt(hs[m], ls[m]);
      var offset := Num(Payload(h.n.extended, s), 0, 8);
      var length := if h.n.extended then Num(s, 24, 32) else Num(s, 16, 20);
      && i < |h.q.inFlight| && h.q.inFlight[i].req.cookie == Num(s, 8, 16) && length >= 8
      && (Inside(h.q.inFlight[i].req, offset, length - 8) ==> g.state.RecvOffsetDataData?)
      && (Outlying(h.q.inFlight[i].req, offset) ==> g.state.Dead?)
  {
    hide Step, Fresh, Lookup, Ledger, FlightOk, Acts, Content, Parse, Payload, Val, Act;
    ActingFacts(u, hs, ls, m);
    var d := Handed(hs[m], ls[m].io);
    ChunkBuffers(d);
    HeaderNumbers(d);
    i := Current(d).value;
    CurrentCookie(d);
    BoundsDecide(d.q.inFlight[i], Field(d.r.pay, 0, 8), d.r.payloadLeft);
    DataMoves(u, d, i);
  }

  lemma DataMoves(u: User, d: Handle, i: nat)
    requires d.state.RecvOffsetData? && Current(d) == Some(i) && d.q.inFlight[i].req.kind.Read?
    ensures var s := Act(u, d).state;
      if InBounds(Field(d.r.pay, 0, 8), d.r.payloadLeft, d.q.inFlight[i]) then s.RecvOffsetDataData? else s.Dead?
  {
    hide Acts, Lookup, Field, InBounds, Seen;
  }

  // ---- holes ----

  /** In every run, when a hole chunk is complete: if it lies in the request the connection
      lasts, that part of the buffer is claimed and reads as zeroes unless it was zeroed
      before, nothing else changes in the buffer, and the chunk callback is shown it; if it
      begins outside, the connection is given up. */
  lemma HolePunched(u: User, hs: seq<Handle>, ls: seq<Label>, m: nat) returns (i: nat)
    requires IsRun(u, hs, ls) && Fresh(hs[0]) && m < |ls| && hs[m].state.RecvOffsetHole? && Completes(hs[m], ls[m])
    ensures var h, g, s := hs[m], hs[m + 1], ReplyAt(hs[m], ls[m]); var pay := Payload(h.n.extended, s);
      var offset, length := Num(pay, 0, 8), Num(pay, 8, 12);
      && |pay| == 12 && i < |h.q.inFlight| && h.q.inFlight[i].req.cookie == Num(s, 8, 16)
      && var was := h.q.inFlight[i];
      && (Outlying(was.req, offset) ==> g.state.Dead?)
      && (Inside(was.req, offset, length) ==>
            && g.state.ChunkFinish? && |g.q.inFlight| == |h.q.inFlight|
            && Punched(u, h, g, was, g.q.inFlight[i], offset - was.req.offset, length))
  {
    hide Step, Fresh, Lookup, Ledger, FlightOk, Acts, Content, Parse, Payload, Val, Act, Punched, Deliver;
    ActingFacts(u, hs, ls, m);
    var d := Handed(hs[m], ls[m].io);
    ChunkBuffers(d);
    HeaderNumbers(d);
    i := Current(d).value;
    CurrentCookie(d);
    assert d.q.inFlight[i] == hs[m].q.inFlight[i] by { HoleUntouched(hs[m], ls[m].io, i); }
    var was := d.q.inFlight[i];
    var offset, length := Field(d.r.pay, 0, 8), Field(d.r.pay, 8, 12);
    BoundsDecide(was, offset, length);
    assert CmdOk(was, false, 0, false) by { HoleIdle(d, i); }
    HoleActs(u, d, i, offset, length);
    if Inside(was.req, offset, length) {
      PunchedFrom(u, hs[m], d, hs[m + 1], was, hs[m + 1].q.inFlight[i], offset - was.req.offset, length);
    }
  }

  /** The part [at, at + length) of the buffer has become a hole. */
  predicate Punched(u: User, h: Handle, g: Handle, was: Command, cmd: Command, at: nat, length: nat)
  {
    && cmd.req == was.req && cmd.pieces == was.pieces + [Piece(at, length, [], true)]
    && |cmd.data| == |was.data| == cmd.req.count >= at + length
    && (forall x | 0 <= x < |was.data| ::
          cmd.data[x] == if at <= x < at + length && !was.req.initialized then 0 else was.data[x])
    && Shown(h, g, was, cmd.data[at..at + length], was.req.offset + at, HoleChunk) && Judged(u, g, was, cmd, true)
  }

  lemma PunchedFrom(u: User, h: Handle, d: Handle, g: Handle, was: Command, cmd: Command, at: nat, length: nat)
    requires Punched(u, d, g, was, cmd, at, length) && d.log == h.log
    ensures Punched(u, h, g, was, cmd, at, length)
  {
  }

  lemma HoleUntouched(h: Handle, io: Io, i: nat)
    requires h.state.RecvOffsetHole? && IoOk(h, io) && Parse(h) && i < |h.q.inFlight|
    ensures i < |Handed(h, io).q.inFlight| && Handed(h, io).q.inFlight[i] == h.q.inFlight[i]
  {
    hide Field, Parse, Fill, FillsOutside, Lookup;
    Targets(h);
  }

  lemma HoleIdle(d: Handle, i: nat)
    requires FlightOk(d) && d.state.RecvOffsetHole? && Current(d) == Some(i)
    ensures CmdOk(d.q.inFlight[i], false, 0, false)
  {
    hide CmdOk, Lookup;
    IdleCurrent(d, i);
  }

  /** The command after the hole, before the callback. */
  function Holed(was: Command, at: nat, length: nat): Command
  {
    was.(dataSeen := Seen(was, length), pieces := was.pieces + [Piece(at, length, [], true)],
         data := if was.req.initialized then was.data else Overlay(was.data, at, Zeros(length)))
  }

  /** The buffer as the hole leaves it, before the callback. */
  function Cleared(d: Handle, i: nat, c: Command, at: nat, length: nat): Handle
    requires i < |d.q.inFlight|
  {
    var was := d.q.inFlight[i];
    Put(d, i, c).(overrun := d.overrun || (!was.req.initialized && at + length > |was.data|))
  }

  lemma HoleStep(u: User, d: Handle, i: nat, offset: nat, length: nat)
    requires d.state.RecvOffsetHole? && Current(d) == Some(i) && d.q.inFlight[i].req.kind.Read?
    requires offset == Field(d.r.pay, 0, 8) && length == Field(d.r.pay, 8, 12)
    requires InBounds(offset, length, d.q.inFlight[i]) ==> offset >= d.q.inFlight[i].req.offset
    ensures var g, was := Act(u, d), d.q.inFlight[i];
      if !InBounds(offset, length, was) then g.state.Dead?
      else
        var at := offset - was.req.offset;
        var c := Holed(was, at, length);
        g == Go(ChunkCallback(u, Cleared(d, i, c, at, length), i, Slice(c.data, at, length), offset, HoleChunk, true),
                ChunkFinish)
  {
    hide Acts, Lookup, Field, InBounds, Seen, ChunkCallback, Overlay, Slice, OnCheckReplyMagic, OnSimpleStart,
         OnRecvReadPayload, OnChunkStart, OnRecvError, OnRecvErrorMessage, OnRecvErrorTail, OnRecvOffsetData,
         OnRecvOffsetDataData, OnRecvBsHeader, OnRecvBsEntries, OnResync, OnChunkFinish, OnFinishCommand;
  }

  lemma HoleActs(u: User, d: Handle, i: nat, offset: nat, length: nat)
    requires d.state.RecvOffsetHole? && Current(d) == Some(i) && d.q.inFlight[i].req.kind.Read?
    requires offset == Field(d.r.pay, 0, 8) && length == Field(d.r.pay, 8, 12)
    requires CmdOk(d.q.inFlight[i], false, 0, false)
    requires InBounds(offset, length, d.q.inFlight[i]) ==> offset >= d.q.inFlight[i].req.offset
    ensures var g, was := Act(u, d), d.q.inFlight[i];
      && (!InBounds(offset, length, was) ==> g.state.Dead?)
      && (InBounds(offset, length, was) && Inside(was.req, offset, length) ==>
            && g.state.ChunkFinish? && |g.q.inFlight| == |d.q.inFlight|
            && Punched(u, d, g, was, g.q.inFlight[i], offset - was.req.offset, length))
  {
    hide Act, Lookup, Field, InBounds, Seen, ChunkCallback, CmdOk, Overlay, Punched, Slice;
    HoleStep(u, d, i, offset, length);
    var was := d.q.inFlight[i];
    if InBounds(offset, length, was) && Inside(was.req, offset, length) {
      var at := offset - was.req.offset;
      var c := Holed(was, at, length);
      var k := Cleared(d, i, c, at, length);
      var e := ChunkCallback(u, k, i, Slice(c.data, at, length), offset, HoleChunk, true);
      CallbackSays(u, k, i, Slice(c.data, at, length), offset, HoleChunk, true);
      HoleShows(u, k, d, e, Act(u, d), was, e.q.inFlight[i], at, length);
    }
  }

  lemma HoleShows(u: User, k: Handle, d: Handle, e: Handle, g: Handle, was: Command, after: Command, at: nat,
                  length: nat)
    requires k.log == d.log && g.log == e.log && CmdOk(was, false, 0, false) && was.req.kind.Read?
    requires at + length <= was.req.count
    requires var c := Holed(was, at, length);
      && after == c.(error := after.error) && Judged(u, e, c, after, true)
      && Shown(k, e, c, Slice(c.data, at, length), was.req.offset + at, HoleChunk)
    ensures Punched(u, d, g, was, after, at, length)
  {
    hide Seen, Shown, Judged, Fit, Total, AllZero, Arrived, Counted;
    HoleEvent(u, k, d, e, g, Holed(was, at, length), was, after);
  }

  /** The callback does not depend on what the hole did to the buffer. */
  lemma HoleEvent(u: User, k: Handle, d: Handle, e: Handle, g: Handle, c: Command, was: Command, after: Command)
    requires k.log == d.log && g.log == e.log && c.req == was.req && c.error == was.error
    ensures forall bytes: seq<byte>, offset: nat, status: ChunkStatus ::
      Shown(k, e, c, bytes, offset, status) == Shown(d, g, was, bytes, offset, status)
    ensures forall keep: bool :: Judged(u, e, c, after, keep) == Judged(u, g, was, after, keep)
  {
  }

  // ---- error chunks ----

  /** The error that an error chunk stands for: EPROTO if it says that there is none. */
  function ChunkError(pay: seq<byte>): nat
  {
    var e := ErrnoNumber(Num(pay, 0, 4));
    if e == 0 then 71 else e
  }

  /** The last eight bytes of a payload. */
  function Tail(pay: seq<byte>): nat { if |pay| >= 8 then Num(pay, |pay| - 8, |pay|) else 0 }

  /** The chunk callback is told about an error with an offset that begins in the request. */
  predicate TellsOffset(req: Request, t: nat, pay: seq<byte>)
  {
    && t == 0x8002 && |pay| == 6 + Num(pay, 4, 6) + 8 && req.kind.Read? && req.hasChunk
    && Inside(req, Tail(pay), 0)
  }

  lemma TailBuffers(d: Handle)
    requires Parse(d) && Content(d) && d.state.RecvErrorTail? && d.r.rlen == 0
    ensures Current(d).Some? && |d.r.hdr| == (if d.n.extended then 32 else 20) && d.r.hdr <= d.r.reply
    ensures var pay := Payload(d.n.extended, d.r.reply);
      && |pay| >= 6 && d.r.pay == pay[..6] && |d.r.pay| == 6
      && (d.r.target.ToAux? <==> ReplyType(d) == 0x8002 && |pay| == 6 + Field(d.r.pay, 4, 6) + 8)
      && (d.r.target.ToAux? ==> |pay| >= 8 && d.r.aux == pay[|pay| - 8..])
  {
    hide Field, Lookup, Matched, EarlyResync, BsLengthOk, Taken, AtEnd, AtHeader, AtPreamble, ReplyType;
    var s := d.r.reply;
    var pay := s[|d.r.hdr|..];
    assert (d.r.hdr + d.r.pay)[|d.r.hdr|..] == d.r.pay;
    assert s[..|d.r.hdr| + 6] == d.r.hdr + d.r.pay;
    assert pay[..6] == s[|d.r.hdr|..|d.r.hdr| + 6] == d.r.pay;
    if d.r.target.ToAux? {
      assert s[|s| - 8..] == pay[|pay| - 8..];
    }
  }

  /** In every run, when an error chunk is complete: a command without an error gets the errno
      of the number in the first four bytes of the payload (or what a failing chunk callback
      says), an error it has stays, and the command is marked as failed. */
  lemma ErrorTold(u: User, hs: seq<Handle>, ls: seq<Label>, m: nat) returns (i: nat)
    requires IsRun(u, hs, ls) && Fresh(hs[0]) && m < |ls| && hs[m].state.RecvErrorTail? && Completes(hs[m], ls[m])
    ensures var h, g, s := hs[m], hs[m + 1], ReplyAt(hs[m], ls[m]); var pay := Payload(h.n.extended, s);
      && i < |h.q.inFlight| == |g.q.inFlight| && h.q.inFlight[i].req.cookie == Num(s, 8, 16)
      && var was, error := h.q.inFlight[i], ChunkError(pay);
      && g.q.inFlight[i].req == was.req && g.state.ChunkFinish?
      && ErrorSaid(u, h, g, was, g.q.inFlight[i].error, error, TellsOffset(was.req, Num(s, 6, 8), pay), Tail(pay))
  {
    hide Step, Fresh, Lookup, Ledger, FlightOk, Acts, Content, Parse, Payload, Val, Act, Deliver, Field, ErrnoNumber,
         ErrnoOf, ErrorSaid, TellsOffset, Num, Tail;
    ActingFacts(u, hs, ls, m);
    var d := Handed(hs[m], ls[m].io);
    TailBuffers(d);
    HeaderNumbers(d);
    i := Current(d).value;
    CurrentCookie(d);
    if d.q.inFlight[i].req.kind.Read? { RequestRange(u, d, i); }
    var pay := Payload(d.n.extended, d.r.reply);
    TailNumbers(d, pay);
    ErrorActs(u, d, i, pay);
    SaidSame(u, hs[m], d, hs[m + 1], i);
  }

  /** What an error chunk does to the log and to the error of its command. */
  predicate ErrorSaid(u: User, h: Handle, g: Handle, was: Command, after: nat, error: nat, tells: bool, offset: nat)
  {
    var told := if tells then h.log + [ChunkCb(was.req.cookie, [], offset, ErrorChunk, error)] else h.log;
    && g.log == told + [Flagged(was.req.cookie)]
    && after == if was.error != 0 then was.error
                else if tells && u(told).ret == -1 && u(told).err != 0 then u(told).err
                else error
  }

  lemma SaidSame(u: User, h: Handle, d: Handle, g: Handle, i: nat)
    requires SameReqs(h.q.inFlight, d.q.inFlight) && d.log == h.log && i < |h.q.inFlight|
    requires d.q.inFlight[i].error == h.q.inFlight[i].error
    ensures forall after: nat, error: nat, tells: bool, offset: nat ::
      ErrorSaid(u, d, g, d.q.inFlight[i], after, error, tells, offset) ==
      ErrorSaid(u, h, g, h.q.inFlight[i], after, error, tells, offset)
  {
  }

  lemma RequestRange(u: User, d: Handle, i: nat)
    requires FlightOk(d) && i < |d.q.inFlight| && d.q.inFlight[i].req.kind.Read?
    ensures d.q.inFlight[i].req.offset < U64 && d.q.inFlight[i].req.count < U64
  {
    hide Fit, Total, AllZero, Arrived, Counted, Pos, Lookup;
    assert CmdOk(d.q.inFlight[i], Busy(d) && Current(d) == Some(i), d.r.rlen, Late(d) && Current(d) == Some(i));
  }

  /** An error number and an offset where the parser looks for them. */
  lemma TailNumbers(d: Handle, pay: seq<byte>)
    requires |pay| >= 6 && d.r.pay == pay[..6] && (d.r.target.ToAux? ==> |pay| >= 8 && d.r.aux == pay[|pay| - 8..])
    ensures Field(d.r.pay, 0, 4) == Num(pay, 0, 4) && Field(d.r.pay, 4, 6) == Num(pay, 4, 6)
    ensures d.r.target.ToAux? ==> Field(d.r.aux, 0, 8) == Tail(pay) && Tail(pay) < U64
  {
    hide Val;
    assert pay[..6][0..4] == pay[0..4] && pay[..6][4..6] == pay[4..6];
    if d.r.target.ToAux? {
      assert pay[|pay| - 8..][0..8] == pay[|pay| - 8..|pay|];
      FieldBound(d.r.aux, 0, 8);
      Pow256Values();
    }
  }

  lemma SameErrno(e: nat)
    ensures ErrnoOf(e) == ErrnoNumber(e)
  {
  }

  lemma InsideExactly(cmd: Command, offset: nat)
    requires cmd.req.offset < U64 && cmd.req.count < U64 && offset < U64
    ensures InBounds(offset, 0, cmd) <==> Inside(cmd.req, offset, 0)
  {
    var end := cmd.req.offset + cmd.req.count;
    assert end < U64 ==> end % U64 == end;
    assert end >= U64 ==> end % U64 == end - U64;
  }

  /** The step, with the error and the offset as the payload has them. */
  lemma ErrorStep(u: User, d: Handle, i: nat, pay: seq<byte>)
    requires d.state.RecvErrorTail? && Current(d) == Some(i)
    requires (d.q.inFlight[i].req.kind.Read? ==> d.q.inFlight[i].req.offset < U64 && d.q.inFlight[i].req.count < U64)
    requires Field(d.r.pay, 0, 4) == Num(pay, 0, 4)
    requires d.r.target.ToAux? <==> ReplyType(d) == 0x8002 && |pay| == 6 + Num(pay, 4, 6) + 8
    requires d.r.target.ToAux? ==> Field(d.r.aux, 0, 8) == Tail(pay) && Tail(pay) < U64
    ensures var was := d.q.inFlight[i];
      var k := if TellsOffset(was.req, ReplyType(d), pay)
        then ErrorCallback(u, d, i, Tail(pay), ChunkError(pay)) else d;
      Act(u, d) == Go(FlagCmd(k, i, ChunkError(pay)), ChunkFinish)
  {
    hide Acts, Lookup, Field, InBounds, Num, Tail, ErrnoOf, ErrnoNumber, Inside, ReplyType, FlagCmd, ErrorCallback,
         OnCheckReplyMagic, OnSimpleStart, OnRecvReadPayload, OnChunkStart, OnRecvError, OnRecvErrorMessage,
         OnRecvOffsetData, OnRecvOffsetDataData, OnRecvOffsetHole, OnRecvBsHeader, OnRecvBsEntries, OnResync,
         OnChunkFinish, OnFinishCommand;
    SameErrno(Num(pay, 0, 4));
    var was := d.q.inFlight[i];
    if d.r.target.ToAux? && was.req.kind.Read? { InsideExactly(was, Tail(pay)); }
  }

  lemma ErrorActs(u: User, d: Handle, i: nat, pay: seq<byte>)
    requires d.state.RecvErrorTail? && Current(d) == Some(i)
    requires (d.q.inFlight[i].req.kind.Read? ==> d.q.inFlight[i].req.offset < U64 && d.q.inFlight[i].req.count < U64)
    requires Field(d.r.pay, 0, 4) == Num(pay, 0, 4)
    requires d.r.target.ToAux? <==> ReplyType(d) == 0x8002 && |pay| == 6 + Num(pay, 4, 6) + 8
    requires d.r.target.ToAux? ==> Field(d.r.aux, 0, 8) == Tail(pay) && Tail(pay) < U64
    ensures var g, was := Act(u, d), d.q.inFlight[i];
      && |g.q.inFlight| == |d.q.inFlight| && g.q.inFlight[i].req == was.req && g.state.ChunkFinish?
      && ErrorSaid(u, d, g, was, g.q.inFlight[i].error, ChunkError(pay), TellsOffset(was.req, ReplyType(d), pay),
                     Tail(pay))
  {
    hide Act, Lookup, Field, Num, Tail, ChunkError, ReplyType;
    ErrorStep(u, d, i, pay);
  }
}
