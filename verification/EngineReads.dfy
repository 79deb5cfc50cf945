/** Read buffers over whole runs: what the pieces claim is what the buffer holds, nothing is
    written outside it, and a successful read is complete. */
module EngineReads {
  import opened Bytes
  import opened BlockStatus
  import opened Nbd
  import opened Reply
  import opened Engine
  import opened EngineQuiet
  import opened EngineLedger
  import opened EngineSend
  import opened EngineParser
  import opened EngineSafety
  import opened EngineRequests
  import opened ReadData

  // ---- one command ----

  ghost predicate AllWhole(ps: seq<Piece>) { forall i | 0 <= i < |ps| :: Whole(ps[i]) }

  /** The piece lies in the buffer, or its end has wrapped around the 64-bit range. */
  predicate Lies(p: Piece, req: Request)
  {
    || p.at + p.len <= req.count
    || (p.at < req.count && req.offset + req.count < U64 <= req.offset + p.at + p.len)
  }

  /** No more was received for the pieces than asked for, and they lie where the bounds check
      allows. */
  ghost predicate Fit(ps: seq<Piece>, req: Request)
  {
    forall i | 0 <= i < |ps| ::
      && Lies(ps[i], req) && ps[i].len < U32 && (!ps[i].hole ==> ps[i].len <= MAX_REQUEST_SIZE)
      && |ps[i].bytes| <= ps[i].len && (ps[i].hole ==> ps[i].bytes == [])
  }

  /** The buffer is what it was, painted with the pieces. */
  ghost predicate Painted(cmd: Command)
  {
    && cmd.req.count <= MAX_REQUEST_SIZE && cmd.req.offset < U64 && |cmd.req.before| == cmd.req.count
    && (cmd.req.initialized ==> AllZero(cmd.req.before))
    && Fit(cmd.pieces, cmd.req) && cmd.data == Paint(cmd.req.before, cmd.pieces, cmd.req.initialized)
  }

  /** data_seen adds up the pieces in 32 bits until it exceeds the count; the last simple reply
      may add to it even then. */
  ghost predicate Counted(cmd: Command, late: bool)
  {
    && cmd.dataSeen < U32
    && (|| cmd.dataSeen == Total(cmd.pieces) % U32
        || if late then cmd.dataSeen != cmd.req.count else cmd.dataSeen > cmd.req.count)
  }

  /** All pieces are complete, except the last if the buffer still wants `rlen` bytes. */
  ghost predicate Arrived(ps: seq<Piece>, busy: bool, rlen: nat)
  {
    if busy then
      var last := |ps| - 1;
      ps != [] && !ps[last].hole && |ps[last].bytes| + rlen == ps[last].len && AllWhole(ps[..last])
    else AllWhole(ps)
  }

  ghost predicate CmdOk(cmd: Command, busy: bool, rlen: nat, late: bool)
  {
    cmd.req.kind.Read? ==>
      Painted(cmd) && Arrived(cmd.pieces, busy, rlen) && Counted(cmd, late)
  }

  /** A read that has just been queued. */
  predicate NewOk(cmd: Command)
  {
    cmd.req.kind.Read? ==>
      && cmd.pieces == [] && cmd.dataSeen == 0 && cmd.data == cmd.req.before
      && |cmd.data| == cmd.req.count <= MAX_REQUEST_SIZE
      && cmd.req.offset < U64 && (cmd.req.initialized ==> AllZero(cmd.data))
  }

  ghost predicate DoneOk(cmd: Command) { cmd.error == 0 ==> CmdOk(cmd, false, 0, true) }

  // ---- the handle ----

  /** Data is being received into a read buffer. */
  predicate Busy(h: Handle) { Pos(h).RecvReadPayload? || Pos(h).RecvOffsetDataData? }

  /** A simple reply may have been counted. */
  predicate Late(h: Handle) { Pos(h).RecvReadPayload? || Pos(h).FinishCommand? }

  ghost predicate FlightOk(h: Handle)
  {
    forall i | 0 <= i < |h.q.inFlight| ::
      CmdOk(h.q.inFlight[i], Busy(h) && Current(h) == Some(i), h.r.rlen, Late(h) && Current(h) == Some(i))
  }

  ghost predicate RestOk(h: Handle)
  {
    && (forall i | 0 <= i < |h.q.toIssue| :: NewOk(h.q.toIssue[i]))
    && (forall i | 0 <= i < |h.q.done| :: DoneOk(h.q.done[i]))
  }

  ghost predicate ReadInv(h: Handle) { RestOk(h) && (h.state.Dead? || h.state.Closed? || FlightOk(h)) }

  // ---- steps that only change errors ----

  ghost predicate OnlyErrors(a: seq<Command>, b: seq<Command>)
  {
    |a| == |b| && forall i | 0 <= i < |a| :: b[i] == a[i].(error := b[i].error)
  }

  lemma CmdOkError(cmd: Command, e: nat, busy: bool, rlen: nat, late: bool)
    requires CmdOk(cmd, busy, rlen, late)
    ensures CmdOk(cmd.(error := e), busy, rlen, late)
  {
    hide Fit, Paint, Total, Arrived, AllZero;
  }

  /** The buffer is full, the state moves on. */
  lemma CmdOkSettles(cmd: Command, busy: bool, late: bool)
    requires CmdOk(cmd, busy, 0, late)
    ensures CmdOk(cmd, false, 0, late) && CmdOk(cmd, false, 0, true)
  {
    hide Painted, Total;
    if cmd.req.kind.Read? && busy {
      var ps := cmd.pieces;
      forall i | 0 <= i < |ps| ensures Whole(ps[i]) { assert i < |ps| - 1 ==> ps[i] == ps[..|ps| - 1][i]; }
    }
  }

  lemma CmdOkIdle(cmd: Command, rlen: nat, rlen': nat, late: bool, late': bool)
    requires CmdOk(cmd, false, rlen, late) && (late ==> late')
    ensures CmdOk(cmd, false, rlen', late')
  {
    hide Painted, Total, AllWhole;
  }

  lemma CmdOkBusy(cmd: Command, busy: bool, rlen: nat, late: bool, late': bool)
    requires CmdOk(cmd, busy, rlen, late) && (late ==> late')
    ensures CmdOk(cmd, busy, rlen, late')
  {
    hide Painted, Total, AllWhole;
  }

  /** What a step that leaves the buffers alone may do to the position. */
  predicate Shifts(h: Handle, g: Handle)
  {
    && (g.r.replyCmd == h.r.replyCmd || (!Busy(h) && !Late(h) && !Busy(g) && !Late(g)))
    && (Busy(g) ==> Busy(h) && g.r.rlen == h.r.rlen)
    && (Busy(h) && !Busy(g) ==> h.r.rlen == 0)
    && (Late(h) ==> Late(g))
  }

  lemma FrameFlight(h: Handle, g: Handle)
    requires FlightOk(h) && OnlyErrors(h.q.inFlight, g.q.inFlight) && Shifts(h, g)
    ensures FlightOk(g)
  {
    hide CmdOk, Pos, Lookup;
    forall i | 0 <= i < |g.q.inFlight| ensures
        CmdOk(g.q.inFlight[i], Busy(g) && Current(g) == Some(i), g.r.rlen, Late(g) && Current(g) == Some(i)) {
      var c, d := h.q.inFlight[i], g.q.inFlight[i];
      var busy, late := Busy(h) && Current(h) == Some(i), Late(h) && Current(h) == Some(i);
      assert CmdOk(c, busy, h.r.rlen, late);
      CmdOkError(c, d.error, busy, h.r.rlen, late);
      assert d == c.(error := d.error);
      SameIndex(h, g);
      var busy', late' := Busy(g) && Current(g) == Some(i), Late(g) && Current(g) == Some(i);
      if busy' {
        CmdOkBusy(d, busy, h.r.rlen, late, late');
      } else {
        if busy { CmdOkSettles(d, busy, late); }
        CmdOkIdle(d, h.r.rlen, g.r.rlen, late, late');
      }
    }
  }

  lemma SameIndex(h: Handle, g: Handle)
    requires OnlyErrors(h.q.inFlight, g.q.inFlight)
    ensures g.r.replyCmd == h.r.replyCmd ==> Current(g) == Current(h)
  {
    if h.r.replyCmd.Some? { LookupSame(h.q.inFlight, g.q.inFlight, h.r.replyCmd.value); }
  }

  lemma FrameReads(h: Handle, g: Handle)
    requires ReadInv(h) && !h.state.Dead? && !h.state.Closed? && OnlyErrors(h.q.inFlight, g.q.inFlight)
    requires g.q.toIssue == h.q.toIssue && g.q.done == h.q.done
    requires g.state.Dead? || g.state.Closed? || Shifts(h, g)
    ensures ReadInv(g)
  {
    hide FlightOk, Shifts, OnlyErrors, NewOk, DoneOk;
    if !g.state.Dead? && !g.state.Closed? { FrameFlight(h, g); }
  }

  // ---- callbacks ----

  lemma OnlyErrorsPut(h: Handle, i: nat, e: nat)
    requires i < |h.q.inFlight|
    ensures OnlyErrors(h.q.inFlight, Put(h, i, h.q.inFlight[i].(error := e)).q.inFlight)
  {
  }

  lemma ChunkCallbackErrors(u: User, h: Handle, i: nat, bytes: seq<byte>, offset: nat, status: ChunkStatus, keep: bool)
    requires i < |h.q.inFlight|
    ensures OnlyErrors(h.q.inFlight, ChunkCallback(u, h, i, bytes, offset, status, keep).q.inFlight)
  {
  }

  lemma FlagErrors(h: Handle, i: nat, e: nat)
    requires i < |h.q.inFlight|
    ensures OnlyErrors(h.q.inFlight, FlagCmd(h, i, e).q.inFlight)
  {
  }

  lemma ErrorCallbackErrors(u: User, h: Handle, i: nat, offset: nat, error: nat)
    requires i < |h.q.inFlight|
    ensures OnlyErrors(h.q.inFlight, ErrorCallback(u, h, i, offset, error).q.inFlight)
  {
  }

  lemma ExtentCallbackErrors(u: User, h: Handle, i: nat, name: nat, cooked: Cooked)
    requires i < |h.q.inFlight|
    ensures OnlyErrors(h.q.inFlight, ExtentCallback(u, h, i, name, cooked).q.inFlight)
  {
  }

  lemma OnlyErrorsTrans(a: seq<Command>, b: seq<Command>, c: seq<Command>)
    requires OnlyErrors(a, b) && OnlyErrors(b, c)
    ensures OnlyErrors(a, c)
  {
    forall i | 0 <= i < |a| ensures c[i] == a[i].(error := c[i].error) {
      assert b[i] == a[i].(error := b[i].error) && c[i] == b[i].(error := c[i].error);
    }
  }

  lemma OnlyErrorsRefl(a: seq<Command>)
    ensures OnlyErrors(a, a)
  {
  }

  // ---- the states that leave the buffers alone ----

  /** The effect of a state that only changes errors. */
  ghost predicate Plain(h: Handle, g: Handle)
  {
    OnlyErrors(h.q.inFlight, g.q.inFlight) && g.overrun == h.overrun && (g.state.Dead? || Shifts(h, g) || g.failed)
  }

  lemma ReadPayloadPlain(u: User, h: Handle)
    requires h.state.RecvReadPayload? && h.r.rlen == 0
    ensures Plain(h, OnRecvReadPayload(u, h))
  {
    hide Current, Acts, OnlyErrors, ChunkCallback;
    OnlyErrorsRefl(h.q.inFlight);
    match Current(h)
    case None =>
    case Some(i) => ChunkCallbackErrors(u, h, i, h.q.inFlight[i].data, h.q.inFlight[i].req.offset, DataChunk, false);
  }

  lemma ChunkTypePlain(h: Handle, i: nat, length: nat, t: nat)
    requires h.state.ChunkStart? && i < |h.q.inFlight| && h.r.payloadLeft == length
    ensures Plain(h, OnChunkType(h, i, length, t))
  {
    hide Acts, OnlyErrors, BsLengthOk, IsErrorType, LastChunk;
    OnlyErrorsRefl(h.q.inFlight);
    OnlyErrorsPut(h, i, h.q.inFlight[i].FailWith(EPROTO).error);
  }

  lemma ChunkStartPlain(h: Handle)
    requires h.state.ChunkStart?
    ensures Plain(h, OnChunkStart(h))
  {
    hide Acts, OnlyErrors, OnChunkType, ReplyLength, Current, ReplyOffset, ReplyType;
    OnlyErrorsRefl(h.q.inFlight);
    if !EarlyResync(h) {
      ChunkTypePlain(h.(r := h.r.(payloadLeft := ReplyLength(h))), Current(h).value, ReplyLength(h), ReplyType(h));
    }
  }

  lemma ErrorPlain(h: Handle)
    requires h.state.RecvError?
    ensures Plain(h, OnRecvError(h))
  {
    hide Acts, OnlyErrors, Current, Field, ErrnoOf;
    OnlyErrorsRefl(h.q.inFlight);
    match Current(h)
    case None =>
    case Some(i) => OnlyErrorsPut(h, i, h.q.inFlight[i].FailWith(ErrnoOf(Field(h.r.pay, 0, 4))).error);
  }

  lemma ErrorTailPlain(u: User, h: Handle)
    requires h.state.RecvErrorTail?
    ensures Plain(h, OnRecvErrorTail(u, h))
  {
    hide Acts, OnlyErrors, Current, Field, ErrnoOf, InBounds, ErrorCallback, FlagCmd, ReplyType;
    OnlyErrorsRefl(h.q.inFlight);
    match Current(h)
    case None =>
    case Some(i) =>
      var raw := ErrnoOf(Field(h.r.pay, 0, 4));
      var error := if raw == 0 then EPROTO else raw;
      FlagErrors(h, i, error);
      ErrorCallbackErrors(u, h, i, Field(h.r.aux, 0, 8), error);
      var g := ErrorCallback(u, h, i, Field(h.r.aux, 0, 8), error);
      FlagErrors(g, i, error);
      OnlyErrorsTrans(h.q.inFlight, g.q.inFlight, FlagCmd(g, i, error).q.inFlight);
  }

  lemma OffsetDataDataPlain(u: User, h: Handle)
    requires h.state.RecvOffsetDataData? && h.r.rlen == 0
    ensures Plain(h, OnRecvOffsetDataData(u, h))
  {
    hide Acts, OnlyErrors, Current, Field, ChunkCallback, Slice;
    OnlyErrorsRefl(h.q.inFlight);
    match Current(h)
    case None =>
    case Some(i) =>
      var cmd := h.q.inFlight[i];
      var offset := Field(h.r.pay, 0, 8);
      var at := if offset >= cmd.req.offset then offset - cmd.req.offset else 0;
      ChunkCallbackErrors(u, h, i, Slice(cmd.data, at, h.r.payloadLeft), offset, DataChunk, true);
  }

  lemma BsEntriesPlain(u: User, h: Handle)
    requires h.state.RecvBsEntries?
    ensures Plain(h, OnRecvBsEntries(u, h))
  {
    hide Acts, OnlyErrors, Current, Field, ExtentCallback, CookedFor, Context;
    OnlyErrorsRefl(h.q.inFlight);
    match Current(h)
    case None =>
    case Some(i) =>
      match Context(h.n.contexts, Field(h.r.pay, 0, 4))
      case None =>
      case Some(name) => ExtentCallbackErrors(u, h, i, name, CookedFor(h, h.q.inFlight[i]));
  }

  lemma ResyncPlain(h: Handle)
    requires h.state.Resync?
    ensures Plain(h, OnResync(h))
  {
    hide Acts, OnlyErrors, Current, FlagCmd;
    OnlyErrorsRefl(h.q.inFlight);
    match Current(h)
    case None =>
    case Some(i) => FlagErrors(h, i, EPROTO);
  }

  /** States that do not look at the commands at all. */
  lemma HeaderPlain(u: User, h: Handle)
    requires h.state.RecvReply? || h.state.CheckReplyMagic? || h.state.RecvStructuredRemaining?
             || h.state.RecvErrorMessage?
             || h.state.RecvBsHeader? || h.state.ChunkFinish?
    requires h.state.ChunkFinish? ==> h.r.rlen == 0
    ensures Plain(h, Act(u, h))
  {
    hide Acts, OnlyErrors, Field, Current, Lookup, OnSimpleStart, OnChunkStart, OnRecvError, OnRecvErrorTail,
         OnRecvBsEntries, OnRecvOffsetData, OnRecvOffsetHole, OnResync, OnFinishCommand, OnRecvReadPayload,
         OnRecvOffsetDataData, BsLengthOk, Magic;
    OnlyErrorsRefl(h.q.inFlight);
  }

  /** Does the state write to a read buffer or complete a command? */
  predicate Writes(s: State) { s.SimpleStart? || s.RecvOffsetData? || s.RecvOffsetHole? || s.FinishCommand? }

  lemma PlainAct(u: User, h: Handle)
    requires IsReplyState(h.state) && !h.state.ReplyStart? && !Writes(h.state)
    requires IsRecvState(h.state) || h.state.ChunkFinish? ==> h.r.rlen == 0
    ensures Plain(h, Act(u, h))
  {
    hide Plain, OnCheckReplyMagic, OnRecvErrorMessage, OnRecvBsHeader, OnChunkFinish, OnSimpleStart, OnChunkStart,
         OnRecvError, OnRecvErrorTail, OnRecvBsEntries, OnRecvOffsetData, OnRecvOffsetHole, OnResync, OnFinishCommand,
         OnRecvReadPayload, OnRecvOffsetDataData;
    match h.state
    case RecvReadPayload => ReadPayloadPlain(u, h);
    case ChunkStart => ChunkStartPlain(h);
    case RecvError => ErrorPlain(h);
    case RecvErrorTail => ErrorTailPlain(u, h);
    case RecvOffsetDataData => OffsetDataDataPlain(u, h);
    case RecvBsEntries => BsEntriesPlain(u, h);
    case Resync => ResyncPlain(h);
    case _ => HeaderPlain(u, h);
  }

  // ---- the states that write to a buffer, one command at a time ----

  lemma FitAppend(ps: seq<Piece>, p: Piece, req: Request)
    requires Fit(ps, req) && Lies(p, req) && p.len < U32 && (!p.hole ==> p.len <= MAX_REQUEST_SIZE)
    requires |p.bytes| <= p.len && (p.hole ==> p.bytes == [])
    ensures Fit(ps + [p], req)
  {
  }

  lemma ModAdd(a: nat, b: nat)
    ensures (a % U32 + b) % U32 == (a + b) % U32
  {
    assert a == U32 * (a / U32) + a % U32;
    assert a + b == U32 * (a / U32) + (a % U32 + b);
    ModMultiple(a / U32, a % U32 + b);
  }

  lemma {:induction false} ModMultiple(k: nat, x: nat)
    ensures (U32 * k + x) % U32 == x % U32
  {
    if k > 0 {
      ModMultiple(k - 1, x);
      assert U32 * k + x == (U32 * (k - 1) + x) + U32;
    }
  }

  /** A chunk claims a part of the buffer. */
  lemma ClaimOk(cmd: Command, at: nat, len: nat)
    requires cmd.req.kind.Read? && CmdOk(cmd, false, 0, false) && Lies(Piece(at, len, [], false), cmd.req)
    requires len <= MAX_REQUEST_SIZE
    ensures CmdOk(cmd.(dataSeen := Seen(cmd, len), pieces := cmd.pieces + [Piece(at, len, [], false)]),
                  true, len, false)
  {
    hide Paint, Total, Fit, AllZero, Lies;
    var p := Piece(at, len, [], false);
    FitAppend(cmd.pieces, p, cmd.req);
    PaintClaim(cmd.req.before, cmd.pieces, p, cmd.req.initialized);
    PaintAppend(cmd.req.before, cmd.pieces, p, cmd.req.initialized);
    ModAdd(Total(cmd.pieces), len);
    assert (cmd.pieces + [p])[..|cmd.pieces|] == cmd.pieces;
  }

  /** A simple reply claims the whole buffer. */
  lemma SimpleOk(cmd: Command)
    requires cmd.req.kind.Read? && CmdOk(cmd, false, 0, false)
    ensures CmdOk(cmd.(dataSeen := (cmd.dataSeen + cmd.req.count) % U32,
                       pieces := cmd.pieces + [Piece(0, cmd.req.count, [], false)]), true, cmd.req.count, true)
  {
    hide Paint, Total, Fit, AllZero;
    var p := Piece(0, cmd.req.count, [], false);
    FitAppend(cmd.pieces, p, cmd.req);
    PaintClaim(cmd.req.before, cmd.pieces, p, cmd.req.initialized);
    PaintAppend(cmd.req.before, cmd.pieces, p, cmd.req.initialized);
    ModAdd(Total(cmd.pieces), cmd.req.count);
    assert (cmd.pieces + [p])[..|cmd.pieces|] == cmd.pieces;
  }

  lemma HoleOk(cmd: Command, at: nat, len: nat)
    requires cmd.req.kind.Read? && CmdOk(cmd, false, 0, false) && Lies(Piece(at, len, [], true), cmd.req) && len < U32
    ensures CmdOk(cmd.(dataSeen := Seen(cmd, len), pieces := cmd.pieces + [Piece(at, len, [], true)],
                       data := if cmd.req.initialized then cmd.data else Overlay(cmd.data, at, Zeros(len))),
                  false, 0, false)
    ensures WriteSafe(cmd.req) ==> cmd.req.initialized || at + len <= |cmd.data|
  {
    hide Total, Fit, AllZero, Overlay;
    var p := Piece(at, len, [], true);
    FitAppend(cmd.pieces, p, cmd.req);
    PaintAppend(cmd.req.before, cmd.pieces, p, cmd.req.initialized);
    ModAdd(Total(cmd.pieces), len);
  }

  lemma FillOk(cmd: Command, bytes: seq<byte>, rlen: nat, late: bool)
    requires cmd.req.kind.Read? && CmdOk(cmd, true, rlen, late) && |bytes| <= rlen
    ensures cmd.pieces != [] && CmdOk(Fill(cmd, bytes), true, rlen - |bytes|, late)
    ensures WriteSafe(cmd.req) ==> !FillsOutside(cmd, bytes)
  {
    hide Paint, Total, AllZero, Overlay, AllWhole, Fit, WriteSafe;
    PaintFill(cmd.req.before, cmd.pieces, bytes, cmd.req.initialized);
    FitFill(cmd.pieces, bytes, rlen, cmd.req);
  }

  lemma FitFill(ps: seq<Piece>, bytes: seq<byte>, rlen: nat, req: Request)
    requires Fit(ps, req) && ps != [] && !ps[|ps| - 1].hole
    requires |ps[|ps| - 1].bytes| + rlen == ps[|ps| - 1].len && |bytes| <= rlen
    ensures var k := |ps| - 1; Fit(ps[k := ps[k].(bytes := ps[k].bytes + bytes)], req)
    ensures var k := |ps| - 1; WriteSafe(req) ==> ps[k].at + ps[k].len <= req.count
  {
  }

  /** One command of the list is replaced, the current one. */
  lemma PutFlight(h: Handle, g: Handle, i: nat, c: Command)
    requires FlightOk(h) && i < |h.q.inFlight| && Current(h) == Some(i) && Current(g) == Some(i)
    requires g.q.inFlight == h.q.inFlight[i := c] && CmdOk(c, Busy(g), g.r.rlen, Late(g))
    ensures FlightOk(g)
  {
    hide CmdOk, Current, Pos;
    forall j | 0 <= j < |g.q.inFlight| ensures
        CmdOk(g.q.inFlight[j], Busy(g) && Current(g) == Some(j), g.r.rlen, Late(g) && Current(g) == Some(j)) {
      if j != i {
        assert CmdOk(h.q.inFlight[j], false, h.r.rlen, false);
        CmdOkIdle(h.q.inFlight[j], h.r.rlen, g.r.rlen, false, false);
      }
    }
  }

  lemma PutCurrent(h: Handle, g: Handle, i: nat, c: Command)
    requires Current(h) == Some(i) && g.r.replyCmd == h.r.replyCmd && g.q.inFlight == h.q.inFlight[i := c]
    requires c.req == h.q.inFlight[i].req
    ensures Current(g) == Some(i)
  {
    LookupSame(h.q.inFlight, g.q.inFlight, h.r.replyCmd.value);
  }

  /** The current command as FlightOk describes it outside the data states. */
  lemma IdleCurrent(h: Handle, i: nat)
    requires FlightOk(h) && Current(h) == Some(i) && !Busy(h) && !Late(h)
    ensures CmdOk(h.q.inFlight[i], false, 0, false)
  {
    hide CmdOk, Pos, Current;
    CmdOkIdle(h.q.inFlight[i], h.r.rlen, 0, false, false);
  }

  /** A simple reply that is followed by data. */
  predicate BringsData(h: Handle, i: nat)
    requires i < |h.q.inFlight|
  {
    ErrnoOf(SimpleError(h)) == 0 && h.q.inFlight[i].req.kind.Read?
  }

  lemma SimpleDataReads(h: Handle, i: nat)
    requires h.state.SimpleStart? && FlightOk(h) && Current(h) == Some(i) && BringsData(h, i)
    ensures var g := OnSimpleStart(h); g.overrun == h.overrun && FlightOk(g)
  {
    hide CmdOk, Current, FlightOk, Acts, ErrnoOf, SimpleError;
    var g := OnSimpleStart(h);
    IdleCurrent(h, i);
    var cmd := h.q.inFlight[i];
    var cmd1 := if h.n.structured then cmd.FailWith(EPROTO) else cmd;
    CmdOkError(cmd, cmd1.FailWith(0).error, false, 0, false);
    SimpleOk(cmd1.FailWith(0));
    PutCurrent(h, g, i, g.q.inFlight[i]);
    PutFlight(h, g, i, g.q.inFlight[i]);
  }

  lemma SimpleBareReads(h: Handle, i: nat)
    requires h.state.SimpleStart? && FlightOk(h) && Current(h) == Some(i) && !BringsData(h, i)
    ensures var g := OnSimpleStart(h); g.overrun == h.overrun && FlightOk(g)
  {
    hide CmdOk, Current, FlightOk, Acts, ErrnoOf, SimpleError;
    var g := OnSimpleStart(h);
    IdleCurrent(h, i);
    var cmd := h.q.inFlight[i];
    CmdOkError(cmd, g.q.inFlight[i].error, false, 0, false);
    CmdOkIdle(g.q.inFlight[i], 0, g.r.rlen, false, true);
    PutCurrent(h, g, i, g.q.inFlight[i]);
    PutFlight(h, g, i, g.q.inFlight[i]);
  }

  lemma SimpleStartReads(h: Handle)
    requires h.state.SimpleStart? && FlightOk(h)
    ensures var g := OnSimpleStart(h); g.overrun == h.overrun && (g.state.Dead? || FlightOk(g))
  {
    hide Current, FlightOk, BringsData, Acts;
    match Current(h)
    case None => NoneFlight(h, OnSimpleStart(h));
    case Some(i) => if BringsData(h, i) { SimpleDataReads(h, i); } else { SimpleBareReads(h, i); }
  }

  lemma NoneFlight(h: Handle, g: Handle)
    requires FlightOk(h) && g.q.inFlight == h.q.inFlight && Current(h).None? && g.r.replyCmd == h.r.replyCmd
    ensures FlightOk(g)
  {
    hide CmdOk, Lookup, Pos;
    forall j | 0 <= j < |g.q.inFlight| ensures
        CmdOk(g.q.inFlight[j], Busy(g) && Current(g) == Some(j), g.r.rlen, Late(g) && Current(g) == Some(j)) {
      assert CmdOk(h.q.inFlight[j], false, h.r.rlen, false);
      CmdOkIdle(h.q.inFlight[j], h.r.rlen, g.r.rlen, false, false);
    }
  }

  lemma OffsetDataReads(h: Handle)
    requires h.state.RecvOffsetData? && FlightOk(h) && Parse(h) && h.r.rlen == 0
    ensures var g := OnRecvOffsetData(h); g.overrun == h.overrun && (g.state.Dead? || g.failed || FlightOk(g))
  {
    hide CmdOk, Current, FlightOk, Acts, Field, InBounds, Seen, Parse;
    var g := OnRecvOffsetData(h);
    OffsetDataLength(h);
    match Current(h)
    case None =>
    case Some(i) =>
      var cmd := h.q.inFlight[i];
      var offset := Field(h.r.pay, 0, 8);
      if cmd.req.kind.Read? && InBounds(offset, h.r.payloadLeft, cmd) {
        IdleCurrent(h, i);
        PieceLies(h, cmd, offset, h.r.payloadLeft, false);
        ClaimOk(cmd, offset - cmd.req.offset, h.r.payloadLeft);
        PutCurrent(h, g, i, g.q.inFlight[i]);
        PutFlight(h, g, i, g.q.inFlight[i]);
      }
  }

  lemma OffsetDataLength(h: Handle)
    requires h.state.RecvOffsetData? && Parse(h)
    ensures h.r.payloadLeft <= MAX_REQUEST_SIZE
  {
    hide Taken, Matched, AtHeader, AtPreamble, AtEnd, CurReq, EarlyResync, ReplyLength;
  }

  /** A chunk that passed the bounds check lies in the buffer or has wrapped around. */
  lemma PieceLies(h: Handle, cmd: Command, offset: nat, length: nat, hole: bool)
    requires cmd.req.kind.Read? && CmdOk(cmd, false, 0, false) && offset == Field(h.r.pay, 0, 8) && length < U32
    requires InBounds(offset, length, cmd)
    ensures cmd.req.offset <= offset && Lies(Piece(offset - cmd.req.offset, length, [], hole), cmd.req)
  {
    hide Paint, Total, Fit, AllZero, Counted, Arrived, Field;
    FieldBound(h.r.pay, 0, 8);
    Pow256Values();
    var end := cmd.req.offset + cmd.req.count;
    assert end < U64 ==> end % U64 == end;
  }

  /** The command of the reply, if it is a read, can have no chunk that writes outside. */
  predicate CurSafe(h: Handle) { ForRead(h) ==> WriteSafe(CurReq(h).value) }

  lemma OffsetHoleReads(u: User, h: Handle)
    requires h.state.RecvOffsetHole? && FlightOk(h) && h.r.rlen == 0
    ensures var g := OnRecvOffsetHole(u, h); g.state.Dead? || g.failed || FlightOk(g)
    ensures CurSafe(h) ==> OnRecvOffsetHole(u, h).overrun == h.overrun
  {
    hide WriteSafe, CmdOk, Current, FlightOk, Acts, Field, InBounds, Seen, Overlay, ChunkCallback, OnlyErrors, Slice;
    match Current(h)
    case None =>
    case Some(i) =>
      var cmd := h.q.inFlight[i];
      var offset, length := Field(h.r.pay, 0, 8), Field(h.r.pay, 8, 12);
      if cmd.req.kind.Read? && InBounds(offset, length, cmd) {
        IdleCurrent(h, i);
        assert length < U32 by { FieldBound(h.r.pay, 8, 12); Pow256Values(); }
        PieceLies(h, cmd, offset, length, true);
        var at := offset - cmd.req.offset;
        HoleOk(cmd, at, length);
        var data := if cmd.req.initialized then cmd.data else Overlay(cmd.data, at, Zeros(length));
        var c := cmd.(dataSeen := Seen(cmd, length), data := data,
                      pieces := cmd.pieces + [Piece(at, length, [], true)]);
        var k := Put(h, i, c).(overrun := h.overrun || (!cmd.req.initialized && at + length > |cmd.data|));
        PutCurrent(h, k, i, c);
        PutFlight(h, k, i, c);
        ChunkCallbackErrors(u, k, i, Slice(data, at, length), offset, HoleChunk, true);
        FrameFlight(k, OnRecvOffsetHole(u, h));
      }
  }

  lemma DeliverReads(h: Handle, bytes: seq<byte>)
    requires FlightOk(h) && Parse(h) && IsRecvState(h.state) && |bytes| <= h.r.rlen
    ensures var g := Deliver(h, bytes); FlightOk(g) && (CurSafe(h) ==> g.overrun == h.overrun)
  {
    hide WriteSafe, CmdOk, Current, FlightOk, Overlay, FillsOutside, Fill, Parse, OnlyErrors;
    var g := Deliver(h, bytes);
    DataTarget(h);
    if h.r.target.ToData? {
      var i := Current(h).value;
      var cmd := h.q.inFlight[i];
      assert CmdOk(cmd, true, h.r.rlen, Late(h)) by { BusyCurrent(h, i); }
      FillOk(cmd, bytes, h.r.rlen, Late(h));
      FillReq(cmd, bytes);
      PutCurrent(h, g, i, Fill(cmd, bytes));
      PutFlight(h, g, i, Fill(cmd, bytes));
    } else {
      OnlyErrorsRefl(h.q.inFlight);
      FrameFlight(h, g);
    }
  }

  lemma BusyCurrent(h: Handle, i: nat)
    requires FlightOk(h) && Current(h) == Some(i) && Busy(h)
    ensures CmdOk(h.q.inFlight[i], true, h.r.rlen, Late(h))
  {
    hide CmdOk, Pos, Current;
  }

  lemma FillReq(cmd: Command, bytes: seq<byte>)
    requires cmd.pieces != []
    ensures Fill(cmd, bytes).req == cmd.req
  {
    hide Overlay;
  }

  /** Only the two data states receive into a read buffer, and they know their command. */
  lemma DataTarget(h: Handle)
    requires Parse(h) && IsRecvState(h.state)
    ensures h.r.target.ToData? <==> Busy(h)
    ensures Busy(h) ==> Current(h).Some? && h.q.inFlight[Current(h).value].req.kind.Read?
  {
    hide Taken, Matched, EarlyResync, ReplyLength, SimpleSize, Current, Lookup, Simple, BsLengthOk, BsExtent, BsPrefix;
  }

  // ---- every step ----

  lemma {:induction false} RemoveFlight(h: Handle, g: Handle, i: nat)
    requires FlightOk(h) && i < |h.q.inFlight| && Current(h) == Some(i) && Current(g).None?
    requires g.q.inFlight == h.q.inFlight[..i] + h.q.inFlight[i + 1..]
    ensures FlightOk(g)
  {
    hide CmdOk, Current, Pos;
    forall j | 0 <= j < |g.q.inFlight| ensures
        CmdOk(g.q.inFlight[j], Busy(g) && Current(g) == Some(j), g.r.rlen, Late(g) && Current(g) == Some(j)) {
      var k := if j < i then j else j + 1;
      assert g.q.inFlight[j] == h.q.inFlight[k];
      assert CmdOk(h.q.inFlight[k], false, h.r.rlen, false);
      CmdOkIdle(h.q.inFlight[k], h.r.rlen, g.r.rlen, false, false);
    }
  }

  lemma DoneAppend(done: seq<Command>, c: Command)
    requires (forall i | 0 <= i < |done| :: DoneOk(done[i])) && DoneOk(c)
    ensures forall i | 0 <= i < |done + [c]| :: DoneOk((done + [c])[i])
  {
    hide DoneOk;
  }

  lemma FinishAtReads(u: User, h: Handle, i: nat)
    requires i < |h.q.inFlight| && RestOk(h) && CmdOk(h.q.inFlight[i], false, 0, true)
    ensures RestOk(FinishAt(u, h, i))
  {
    hide CmdOk, NewOk, Complete;
    var cmd := h.q.inFlight[i];
    var c := Complete(u, h, cmd, cmd.error).1;
    CmdOkError(cmd, c.error, false, 0, true);
    DoneAppend(h.q.done, c);
  }

  lemma FinishReads(u: User, h: Handle)
    requires h.state.FinishCommand? && RestOk(h) && FlightOk(h) && Parse(h)
    ensures var g := OnFinishCommand(u, h); g.failed || (RestOk(g) && FlightOk(g))
  {
    hide CmdOk, NewOk, DoneOk, FinishAt, Acts, Parse, FlightOk;
    var g := OnFinishCommand(u, h);
    match Lookup(h.q.inFlight, Cookie(h))
    case None => if !g.failed { NoneFlight(h, g); }
    case Some(i) =>
      if !g.failed {
        assert Current(h) == Some(i);
        assert CmdOk(h.q.inFlight[i], false, h.r.rlen, true) by { LateCurrent(h, i); }
        CmdOkIdle(h.q.inFlight[i], h.r.rlen, 0, true, true);
        var h1 := h.(r := h.r.(replyCmd := None));
        FinishAtReads(u, h1, i);
        RemoveFlight(h, g, i);
      }
  }

  lemma LateCurrent(h: Handle, i: nat)
    requires FlightOk(h) && Current(h) == Some(i) && h.state.FinishCommand?
    ensures CmdOk(h.q.inFlight[i], false, h.r.rlen, true)
  {
    hide CmdOk, Current;
  }

  lemma PlainReads(h: Handle, g: Handle)
    requires ReadInv(h) && !h.state.Dead? && !h.state.Closed? && Plain(h, g) && !g.failed
    requires g.q.toIssue == h.q.toIssue && g.q.done == h.q.done
    ensures ReadInv(g)
  {
    hide ReadInv, OnlyErrors, Shifts;
    FrameReads(h, g);
  }

  lemma ActReads(u: User, h: Handle)
    requires ReadInv(h) && Parse(h) && IsReplyState(h.state) && !h.state.ReplyStart?
             && (IsRecvState(h.state) ==> h.r.rlen == 0)
    requires !Act(u, h).failed
    ensures ReadInv(Act(u, h))
  {
    hide FlightOk, Plain, Quiet, Parse, OnCheckReplyMagic, OnRecvErrorMessage, OnRecvBsHeader, OnChunkFinish,
         OnSimpleStart, OnChunkStart, OnRecvError, OnRecvErrorTail, OnRecvBsEntries, OnRecvOffsetData, OnRecvOffsetHole,
         OnResync, OnFinishCommand, OnRecvReadPayload, OnRecvOffsetDataData, Acts, NewOk, DoneOk;
    var g := Act(u, h);
    if h.state.FinishCommand? {
      FinishReads(u, h);
    } else {
      ActQuiet(u, h);
      QuietLists(h, g);
      if h.state.SimpleStart? {
        SimpleStartReads(h);
      } else if h.state.RecvOffsetData? {
        OffsetDataReads(h);
      } else if h.state.RecvOffsetHole? {
        OffsetHoleReads(u, h);
      } else {
        if h.state.ChunkFinish? { ChunkFinishDrained(h); }
        PlainAct(u, h);
        PlainReads(h, g);
      }
    }
  }

  lemma ChunkFinishDrained(h: Handle)
    requires Parse(h) && h.state.ChunkFinish?
    ensures h.r.rlen == 0
  {
    hide Taken, Matched, AtHeader, AtPreamble, AtPayload, CurReq;
  }

  lemma QuietLists(h: Handle, g: Handle)
    requires Quiet(h, g)
    ensures g.q.toIssue == h.q.toIssue && g.q.done == h.q.done
  {
    hide AllProgress, QuietLog;
  }

  lemma PauseReads(h: Handle)
    requires ReadInv(h) && IsRecvState(h.state) && h.r.rlen > 0 && Parse(h) && !h.failed
    ensures ReadInv(Pause(h))
  {
    hide ReadInv, OnlyErrors, Parse;
    var g := Pause(h);
    PauseParse(h);
    SavedNone(h);
    OnlyErrorsRefl(h.q.inFlight);
    FrameReads(h, g);
  }

  lemma SavedNone(h: Handle)
    requires Parse(h) && IsReplyState(h.state) && !h.state.ReplyStart?
    ensures h.r.replyState.None?
  {
    hide At, Matched;
  }

  lemma ReplyStartReads(h: Handle, io: Io)
    requires ReadInv(h) && h.state.ReplyStart? && IoOk(h, io) && Parse(h) && !EnterReplyStart(h, io).failed
    ensures ReadInv(EnterReplyStart(h, io))
  {
    hide ReadInv, OnlyErrors, At, Matched, PreambleLen;
    var g := EnterReplyStart(h, io);
    OnlyErrorsRefl(h.q.inFlight);
    FrameReads(h, g);
  }

  lemma ReplyReads(u: User, h: Handle, io: Io)
    requires ReadInv(h) && Parse(h) && IsReplyState(h.state) && !h.blocked && !h.failed && IoOk(h, io)
    requires !EnterReply(u, h, io).failed
    ensures ReadInv(EnterReply(u, h, io))
  {
    hide FlightOk, RestOk, Parse, Act, Pause, Deliver, EnterReplyStart;
    if h.state.ReplyStart? {
      ReplyStartReads(h, io);
    } else {
      if IsRecvState(h.state) && h.r.rlen > 0 {
        if io.Got? {
          var g := Deliver(h, io.bytes);
          DeliverFields(h, io.bytes);
          DeliverParse(h, io.bytes);
          DeliverReads(h, io.bytes);
          DeliverQuiet(h, io.bytes);
          QuietRest(h, g);
          if g.r.rlen == 0 { ActReads(u, g); } else { PauseReads(g); }
        } else if io.Again? {
          PauseReads(h);
        } else {
          RestSame(h, Go(h, Dead));
        }
      } else {
        ActReads(u, h);
      }
    }
  }

  lemma QuietRest(h: Handle, g: Handle)
    requires RestOk(h) && Quiet(h, g)
    ensures RestOk(g)
  {
    hide AllProgress, QuietLog, NewOk, DoneOk;
  }

  lemma RestSame(h: Handle, g: Handle)
    requires RestOk(h) && g.q.toIssue == h.q.toIssue && g.q.done == h.q.done
    ensures RestOk(g)
  {
    hide NewOk, DoneOk;
  }

  lemma {:induction false} AbortReads(u: User, h: Handle, list: seq<Command>)
    requires RestOk(h)
    ensures RestOk(Abort(u, h, list))
    decreases |list|
  {
    hide CmdOk, NewOk, Complete, Leave;
    if list != [] {
      var cmd := list[0];
      var (g, cmd', retire) := Complete(u, h, cmd, if cmd.error != 0 then cmd.error else ENOTCONN);
      var k := Leave(g, cmd'.FailWith(ENOTCONN), retire);
      LeaveReads(g, cmd'.FailWith(ENOTCONN), retire);
      if !(cmd.req.hasCompletion && cmd.req.kind.Disc?) { AbortReads(u, k, list[1..]); }
    }
  }

  lemma LeaveReads(h: Handle, c: Command, retire: bool)
    requires RestOk(h) && c.error != 0
    ensures RestOk(Leave(h, c, retire))
  {
    hide CmdOk, NewOk;
    if !retire { DoneAppend(h.q.done, c); }
  }

  lemma EndReads(u: User, h: Handle)
    requires RestOk(h)
    ensures RestOk(EnterEnd(u, h))
  {
    hide NewOk, DoneOk, Abort;
    AbortReads(u, h.(q := h.q.(toIssue := [])), h.q.toIssue);
    var g := Abort(u, h.(q := h.q.(toIssue := [])), h.q.toIssue);
    RestSame(g, g.(q := g.q.(inFlight := [])));
    AbortReads(u, g.(q := g.q.(inFlight := [])), h.q.inFlight);
  }

  lemma NewIsOk(cmd: Command, rlen: nat)
    requires NewOk(cmd)
    ensures CmdOk(cmd, false, rlen, false)
  {
    hide AllZero;
  }

  lemma IssueFinishReads(h: Handle)
    requires ReadInv(h) && h.state.IssueFinish? && Parse(h) && Ledger(h) && Outside(h.state)
    ensures EnterIssueFinish(h).failed || ReadInv(EnterIssueFinish(h))
  {
    hide CmdOk, NewOk, DoneOk, Parse, Ledger, Field, Lookup, Pos;
    var g := EnterIssueFinish(h);
    if !g.failed {
      var cmd := h.q.toIssue[0];
      NewIsOk(cmd, h.r.rlen);
      NotInFlight(h);
      ConsCurrent(h, g, cmd);
      assert Pos(g) == Pos(h) by { PosOutside(h, g); }
      forall j | 0 <= j < |g.q.inFlight| ensures
          CmdOk(g.q.inFlight[j], Busy(g) && Current(g) == Some(j), g.r.rlen, Late(g) && Current(g) == Some(j)) {
        if j > 0 {
          assert g.q.inFlight[j] == h.q.inFlight[j - 1];
          assert CmdOk(h.q.inFlight[j - 1], Busy(h) && Current(h) == Some(j - 1), h.r.rlen,
                       Late(h) && Current(h) == Some(j - 1));
        }
      }
    }
  }

  lemma PosOutside(h: Handle, g: Handle)
    requires Outside(h.state) && Outside(g.state) && g.r == h.r
    ensures Pos(g) == Pos(h)
  {
  }

  /** The current command moves back by one place. */
  lemma ConsCurrent(h: Handle, g: Handle, cmd: Command)
    requires Parse(h) && g.q.inFlight == [cmd] + h.q.inFlight && g.r == h.r
             && Lookup(h.q.inFlight, cmd.req.cookie).None?
    ensures if Current(h).None? then Current(g).None? else Current(g) == Some(Current(h).value + 1)
  {
    hide At, Lookup, Cookie, Pos;
    if h.r.replyCmd.Some? { LookupCons(cmd, h.q.inFlight, h.r.replyCmd.value); }
  }

  lemma QueueReads(h: Handle, cmd: Command)
    requires ReadInv(h) && Enabled(h, Submit(cmd)) && Outside(h.state)
    ensures ReadInv(Queue(h, cmd))
  {
    hide CmdOk, DoneOk, OnlyErrors, HasPayload, FlightOk;
    var g := Queue(h, cmd);
    OnlyErrorsRefl(h.q.inFlight);
    FrameFlight(h, g);
    QueueNew(h, cmd);
  }

  lemma QueueNew(h: Handle, cmd: Command)
    requires RestOk(h) && Acceptable(h, cmd)
    ensures RestOk(Queue(h, cmd))
  {
    hide DoneOk, HasPayload;
  }

  lemma RetireReads(h: Handle, cookie: nat)
    requires ReadInv(h) && h.blocked && Outside(h.state)
    ensures ReadInv(CommandCompleted(h, cookie).0)
  {
    hide CmdOk, NewOk, OnlyErrors, FlightOk, Lookup;
    var g := CommandCompleted(h, cookie).0;
    OnlyErrorsRefl(h.q.inFlight);
    if FlightOk(h) { FrameFlight(h, g); }
    match Lookup(h.q.done, cookie)
    case None =>
    case Some(i) => if g.q.done != h.q.done { DoneRemove(h.q.done, i); }
  }

  lemma DoneRemove(done: seq<Command>, i: nat)
    requires i < |done| && forall j | 0 <= j < |done| :: DoneOk(done[j])
    ensures var d := done[..i] + done[i + 1..]; forall j | 0 <= j < |d| :: DoneOk(d[j])
  {
    hide DoneOk;
    var d := done[..i] + done[i + 1..];
    forall j | 0 <= j < |d| ensures DoneOk(d[j]) { assert d[j] == if j < i then done[j] else done[j + 1]; }
  }

  /** Every step keeps the buffers right. */
  lemma StepReads(u: User, h: Handle, l: Label)
    requires ReadInv(h) && Sound(h) && Ledger(h) && Steady(h) && Waits(h) && (Over(h) || SendSafe(h))
    requires Enabled(h, l)
    ensures ReadInv(Step(u, h, l))
  {
    hide RestOk, FlightOk, Parse, Ledger, Steady, SendSafe, Enter, Queue, CommandCompleted, Doomed;
    SoundStep(u, h, l);
    if Breaks(h) {
      FailReads(h);
    } else {
      match l
      case Run(io) => EnterReads(u, h, io);
      case Notify(read) => NotifyReads(h, read);
      case Submit(cmd) => QueueReads(h, cmd);
      case Retire(cookie) => RetireReads(h, cookie);
    }
  }

  /** A failing assertion writes nothing. */
  lemma FailReads(h: Handle)
    requires ReadInv(h) && h.state.FinishCommand?
    ensures ReadInv(Fail(h))
  {
    hide ReadInv, OnlyErrors;
    OnlyErrorsRefl(h.q.inFlight);
    assert !h.state.Dead?;
    FrameReads(h, Fail(h));
  }

  lemma NotifyReads(h: Handle, read: bool)
    requires ReadInv(h) && Enabled(h, Notify(read)) && Outside(h.state) && !h.state.Dead? && !h.state.Closed?
    ensures ReadInv(Go(h, OnNotify(h.state, read).value))
  {
    hide ReadInv, OnlyErrors;
    OnlyErrorsRefl(h.q.inFlight);
    FrameReads(h, Go(h, OnNotify(h.state, read).value));
  }

  lemma EnterReads(u: User, h: Handle, io: Io)
    requires ReadInv(h) && Fine(h) && Ledger(h) && !h.failed && !h.blocked && EventOk(h, io) && !Enter(u, h, io).failed
    ensures ReadInv(Enter(u, h, io))
  {
    hide FlightOk, RestOk, Parse, Ledger, EnterReply, EnterEnd, EnterIssueFinish, EnterReady, EnterSend,
         EnterIssueStart, EnterPrepareWritePayload, EnterPause, OnlyErrors;
    if h.state.Dead? || h.state.Closed? {
      EndReads(u, h);
      EnterEndState(u, h);
    } else if IsReplyState(h.state) {
      ReplyReads(u, h, io);
    } else if h.state.IssueFinish? {
      IssueFinishReads(h);
    } else {
      EnterOther(u, h, io);
      OtherState(u, h, io);
      PosOutside(h, Enter(u, h, io));
      OnlyErrorsRefl(h.q.inFlight);
      FrameReads(h, Enter(u, h, io));
    }
  }

  lemma FreshReads(h: Handle)
    requires Fresh(h)
    ensures ReadInv(h)
  {
  }

  /** In every run every read buffer is what it was, painted with the pieces claimed so far. */
  lemma {:induction false} RunReads(u: User, hs: seq<Handle>, ls: seq<Label>, n: nat)
    requires IsRun(u, hs, ls) && Fresh(hs[0]) && n < |hs|
    ensures ReadInv(hs[n])
  {
    hide ReadInv, Sound, Ledger, SendSafe, Steady, Waits, Step, Fresh;
    if n == 0 {
      FreshReads(hs[0]);
    } else {
      RunReads(u, hs, ls, n - 1);
      RunParse(u, hs, ls, n - 1);
      RunLedger(u, hs, ls, n - 1);
      RunSend(u, hs, ls, n - 1);
      RunWaits(u, hs, ls, n - 1);
      StepReads(u, hs[n - 1], ls[n - 1]);
    }
  }

  // ---- nothing is written outside ----

  /** A request that is not a read, or safe. */
  predicate SafeRequest(req: Request) { req.kind.Read? ==> WriteSafe(req) }

  lemma CurrentSafe(h: Handle)
    requires Each(h.q.inFlight, SafeRequest)
    ensures CurSafe(h)
  {
    hide WriteSafe, Lookup;
  }

  lemma ActOverrun(u: User, h: Handle)
    requires ReadInv(h) && Parse(h) && IsReplyState(h.state) && !h.state.ReplyStart? && CurSafe(h)
    requires (IsRecvState(h.state) ==> h.r.rlen == 0) && !h.state.Dead? && !h.state.Closed?
    ensures Act(u, h).overrun == h.overrun
  {
    hide FlightOk, RestOk, Parse, OnCheckReplyMagic, OnRecvErrorMessage, OnRecvBsHeader, OnChunkFinish, OnSimpleStart,
         OnChunkStart, OnRecvError, OnRecvErrorTail, OnRecvBsEntries, OnRecvOffsetData, OnRecvOffsetHole, OnResync,
         OnFinishCommand, OnRecvReadPayload, OnRecvOffsetDataData, Acts, OnlyErrors, Shifts, CurSafe;
    match h.state
    case FinishCommand =>
    case SimpleStart => SimpleStartReads(h);
    case RecvOffsetData => OffsetDataReads(h);
    case RecvOffsetHole => OffsetHoleReads(u, h);
    case _ =>
      if h.state.ChunkFinish? { ChunkFinishDrained(h); }
      PlainAct(u, h);
  }

  lemma ReplyOverrun(u: User, h: Handle, io: Io)
    requires ReadInv(h) && Parse(h) && IsReplyState(h.state) && !h.blocked && IoOk(h, io) && CurSafe(h)
    ensures EnterReply(u, h, io).overrun == h.overrun
  {
    hide FlightOk, RestOk, Parse, Act, Pause, Deliver, EnterReplyStart, CurSafe, Quiet;
    if !h.state.ReplyStart? {
      if IsRecvState(h.state) && h.r.rlen > 0 {
        if io.Got? {
          var g := Deliver(h, io.bytes);
          DeliverFields(h, io.bytes);
          DeliverParse(h, io.bytes);
          DeliverReads(h, io.bytes);
          DeliverQuiet(h, io.bytes);
          QuietRest(h, g);
          assert CurSafe(g) by { QuietCur(h, g); SameSafe(h, g); }
          if g.r.rlen == 0 { ActOverrun(u, g); }
        }
      } else {
        ActOverrun(u, h);
      }
    }
  }

  lemma SameSafe(h: Handle, g: Handle)
    requires CurSafe(h) && CurReq(g) == CurReq(h)
    ensures CurSafe(g)
  {
    hide CurReq;
  }

  /** A step writes outside no buffer if the reads are safe. */
  lemma StepOverrun(u: User, h: Handle, l: Label)
    requires ReadInv(h) && Sound(h) && Waits(h) && Enabled(h, l) && Every(h.q, SafeRequest)
    ensures Step(u, h, l).overrun == h.overrun
  {
    hide ReadInv, Parse, EnterReply, EnterEnd, EnterReady, EnterSend, EnterIssueStart, EnterPrepareWritePayload,
         EnterPause, Lookup, Field, Each, CurSafe;
    if l.Run? {
      EnterEndState(u, h);
      if IsReplyState(h.state) {
        CurrentSafe(h);
        ReplyOverrun(u, h, l.io);
      }
    }
  }

  lemma {:induction false} RunSafe(u: User, hs: seq<Handle>, ls: seq<Label>, n: nat)
    requires IsRun(u, hs, ls) && Fresh(hs[0]) && n < |hs|
    requires forall k | 0 <= k < n :: ls[k].Submit? && ls[k].cmd.req.kind.Read? ==> WriteSafe(ls[k].cmd.req)
    ensures !hs[n].overrun
  {
    hide ReadInv, Sound, Every, Waits, Step, WriteSafe;
    if n > 0 {
      RunSafe(u, hs, ls, n - 1);
      RunReads(u, hs, ls, n - 1);
      RunParse(u, hs, ls, n - 1);
      RunWaits(u, hs, ls, n - 1);
      forall k {:trigger ls[k]} | 0 <= k < n - 1 ensures Brings(hs[k], ls[k], SafeRequest) {
        if ls[k].Submit? { AnyCookie(ls[k].cmd.req, hs[k].q.unique); }
      }
      RunEvery(u, hs, ls, n - 1, SafeRequest);
      StepOverrun(u, hs[n - 1], ls[n - 1]);
    }
  }

  lemma AnyCookie(req: Request, cookie: nat)
    ensures WriteSafe(req.(cookie := cookie)) == WriteSafe(req)
  {
  }

  /** In every run with safe requests, no byte outside a read buffer is ever written. */
  lemma NoOverrun(u: User, hs: seq<Handle>, ls: seq<Label>, n: nat)
    requires IsRun(u, hs, ls) && Fresh(hs[0]) && n < |hs|
    requires forall k | 0 <= k < n :: ls[k].Submit? && ls[k].cmd.req.kind.Read? ==> WriteSafe(ls[k].cmd.req)
    ensures !hs[n].overrun
  {
    hide IsRun, Fresh, WriteSafe;
    RunSafe(u, hs, ls, n);
  }

  // ---- successful reads ----

  /** Byte `x` of the buffer belongs to one piece alone and is the byte that it brought. */
  ghost predicate FromOnePiece(cmd: Command, x: nat)
    requires x < |cmd.data|
  {
    var ps := cmd.pieces;
    exists j | 0 <= j < |ps| ::
      && Covers(ps[j], x) && Whole(ps[j]) && cmd.data[x] == ByteOf(ps[j], x)
      && forall k | 0 <= k < |ps| && k != j :: !Covers(ps[k], x)
  }

  /** Everything that the chunks for the read asked for has arrived, they add up to its
      buffer, and every byte is the one that a single chunk brought. */
  ghost predicate CompleteRead(cmd: Command)
  {
    && |cmd.data| == cmd.req.count && AllWhole(cmd.pieces) && Total(cmd.pieces) == cmd.req.count
    && forall x | 0 <= x < |cmd.data| :: FromOnePiece(cmd, x)
  }

  /** In every run, if nbd_aio_command_completed reports a read as a success, the server's
      chunks for it did not overlap, and the request is not so near the end of the 64-bit range
      that a chunk of its own length can wrap around, then every byte of the buffer lies in
      exactly one chunk and is the byte received for it, or zero in a hole. */
  lemma SuccessfulReadComplete(u: User, hs: seq<Handle>, ls: seq<Label>, n: nat, cookie: nat, i: nat)
    requires IsRun(u, hs, ls) && Fresh(hs[0]) && n < |hs|
    requires CommandCompleted(hs[n], cookie).1 == 1 && Lookup(hs[n].q.done, cookie) == Some(i)
    requires hs[n].q.done[i].req.kind.Read? && CountSafe(hs[n].q.done[i].req) && Disjoint(hs[n].q.done[i].pieces)
    ensures CompleteRead(hs[n].q.done[i])
  {
    hide IsRun, Fresh, CountSafe;
    RunReads(u, hs, ls, n);
    assert DoneOk(hs[n].q.done[i]);
    WholeRead(hs[n].q.done[i]);
  }

  /** No piece has wrapped around: it would be longer than the read, and data_seen could not
      come to the count. */
  lemma NoneWraps(cmd: Command)
    requires cmd.req.kind.Read? && CmdOk(cmd, false, 0, true) && cmd.dataSeen == cmd.req.count && Disjoint(cmd.pieces)
    requires CountSafe(cmd.req)
    ensures Within(cmd.pieces, cmd.req.count) && Total(cmd.pieces) == cmd.req.count
  {
    hide Paint, Total, AllZero, Disjoint;
    var ps, n := cmd.pieces, cmd.req.count;
    if j :| 0 <= j < |ps| && ps[j].at + ps[j].len > n {
      assert Covers(ps[j], n) && n < ps[j].len < U32;
      OthersWithin(cmd, j);
      DisjointOthers(ps, j);
      TotalWithin(Others(ps, j), n);
      TotalOthers(ps, j);
      assert n < Total(ps) < n + U32;
      NotAgain(Total(ps), n);
      assert false;
    }
    TotalWithin(ps, n);
  }

  lemma NotAgain(total: nat, n: nat)
    requires n < total < n + U32
    ensures total % U32 != n
  {
    if total < U32 {
      assert total % U32 == total;
    } else {
      assert total == U32 * (total / U32) + total % U32;
    }
  }

  /** Two pieces that leave the buffer overlap. */
  lemma OthersWithin(cmd: Command, j: nat)
    requires Fit(cmd.pieces, cmd.req) && Disjoint(cmd.pieces) && j < |cmd.pieces|
             && Covers(cmd.pieces[j], cmd.req.count)
    ensures Within(Others(cmd.pieces, j), cmd.req.count)
  {
    var ps, n := cmd.pieces, cmd.req.count;
    var o := Others(ps, j);
    forall k | 0 <= k < |o| ensures o[k].at + o[k].len <= n {
      var x := if k < j then k else k + 1;
      assert o[k] == ps[x] && Lies(ps[x], cmd.req);
      assert ps[x].at + ps[x].len > n ==> Covers(ps[x], n);
    }
  }

  lemma WholeRead(cmd: Command)
    requires cmd.req.kind.Read? && CmdOk(cmd, false, 0, true) && cmd.dataSeen == cmd.req.count && Disjoint(cmd.pieces)
    requires CountSafe(cmd.req)
    ensures CompleteRead(cmd)
  {
    hide Paint, Total, CountSafe, AllZero, FromOnePiece, Disjoint;
    NoneWraps(cmd);
    forall x | 0 <= x < |cmd.data| ensures FromOnePiece(cmd, x) { WholeByte(cmd, x); }
  }

  lemma WholeByte(cmd: Command, x: nat)
    requires cmd.req.kind.Read? && CmdOk(cmd, false, 0, true) && x < |cmd.data|
    requires Within(cmd.pieces, cmd.req.count) && Total(cmd.pieces) == cmd.req.count && Disjoint(cmd.pieces)
    ensures FromOnePiece(cmd, x)
  {
    hide Paint, Total, AllZero;
    var ps := cmd.pieces;
    FullCover(ps, cmd.req.count, x);
    var j :| 0 <= j < |ps| && Covers(ps[j], x);
    assert Whole(ps[j]);
    PaintInside(cmd.req.before, ps, cmd.req.initialized, j, x);
    forall k | 0 <= k < |ps| && k != j ensures !Covers(ps[k], x) { assert k < j || j < k; }
  }
}
