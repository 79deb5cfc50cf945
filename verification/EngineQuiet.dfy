/** What the reply states leave alone: only the parser's own fields, the data and error of
    commands in flight, and the log change, and errors never go away. */
module EngineQuiet {
  import opened Bytes
  import opened BlockStatus
  import opened Nbd
  import opened Reply
  import opened Engine

  /** The command is the same request, its error has not gone away, and outside
      RECV_READ_PAYLOAD the first error is kept. */
  predicate Progress(c: Command, d: Command, keep: bool)
  {
    && c.req == d.req && (c.error != 0 ==> d.error != 0)
    && (keep && c.error != 0 ==> d.error == c.error)
  }

  /** The commands of a list have progressed, in place. */
  ghost predicate AllProgress(a: seq<Command>, b: seq<Command>, keep: bool)
  {
    |a| == |b| && forall i | 0 <= i < |a| :: Progress(a[i], b[i], keep)
  }

  /** The events that a reply state can log: data callbacks, and that a command was flagged,
      which only happens to a command that now has an error. */
  ghost predicate QuietEvent(e: Event, inFlight: seq<Command>)
  {
    || e.ChunkCb? || e.ExtentCb?
    || (e.Flagged? && exists i | 0 <= i < |inFlight| :: inFlight[i].req.cookie == e.cookie && inFlight[i].error != 0)
  }

  ghost predicate QuietLog(a: seq<Event>, b: seq<Event>, inFlight: seq<Command>)
  {
    a <= b && forall j | |a| <= j < |b| :: QuietEvent(b[j], inFlight)
  }

  ghost predicate Quiet(h: Handle, g: Handle)
  {
    && g.n == h.n && g.w == h.w && g.q == h.q.(inFlight := g.q.inFlight)
    && AllProgress(h.q.inFlight, g.q.inFlight, !h.state.RecvReadPayload?) && QuietLog(h.log, g.log, g.q.inFlight)
  }

  lemma QuietRefl(h: Handle, g: Handle)
    requires g.n == h.n && g.w == h.w && g.q == h.q && g.log == h.log
    ensures Quiet(h, g)
  {
  }

  lemma PutQuiet(h: Handle, i: nat, cmd: Command)
    requires i < |h.q.inFlight| && Progress(h.q.inFlight[i], cmd, !h.state.RecvReadPayload?)
    ensures Quiet(h, Put(h, i, cmd))
  {
  }

  lemma QuietTrans(h: Handle, g: Handle, k: Handle)
    requires Quiet(h, g) && Quiet(g, k) && g.state == h.state
    ensures Quiet(h, k)
  {
    forall i | 0 <= i < |h.q.inFlight| ensures Progress(h.q.inFlight[i], k.q.inFlight[i], !h.state.RecvReadPayload?) {
      assert Progress(h.q.inFlight[i], g.q.inFlight[i], !h.state.RecvReadPayload?);
      assert Progress(g.q.inFlight[i], k.q.inFlight[i], !h.state.RecvReadPayload?);
    }
    forall j | |h.log| <= j < |k.log| ensures QuietEvent(k.log[j], k.q.inFlight) {
      if j < |g.log| {
        assert k.log[j] == g.log[j] && QuietEvent(g.log[j], g.q.inFlight);
        if g.log[j].Flagged? {
          var i :| 0 <= i < |g.q.inFlight| && g.q.inFlight[i].req.cookie == g.log[j].cookie
            && g.q.inFlight[i].error != 0;
          assert Progress(g.q.inFlight[i], k.q.inFlight[i], !h.state.RecvReadPayload?);
        }
      }
    }
  }

  lemma LogQuiet(h: Handle, e: Event)
    requires QuietEvent(e, h.q.inFlight)
    ensures Quiet(h, Log(h, e))
  {
  }

  lemma ChunkCallbackQuiet(u: User, h: Handle, i: nat, bytes: seq<byte>, offset: nat, status: ChunkStatus, keep: bool)
    requires i < |h.q.inFlight| && (keep || h.state.RecvReadPayload?)
    ensures Quiet(h, ChunkCallback(u, h, i, bytes, offset, status, keep))
    ensures ChunkCallback(u, h, i, bytes, offset, status, keep).state == h.state
  {
    var cmd := h.q.inFlight[i];
    if cmd.req.hasChunk {
      var g := Log(h, ChunkCb(cmd.req.cookie, bytes, offset, status, cmd.error));
      LogQuiet(h, ChunkCb(cmd.req.cookie, bytes, offset, status, cmd.error));
      var a := u(g.log);
      if a.ret == -1 && (cmd.error == 0 || !keep) {
        var cmd' := cmd.(error := if a.err != 0 then a.err else EPROTO);
        PutQuiet(g, i, cmd');
        QuietTrans(h, g, Put(g, i, cmd'));
      }
    }
  }

  lemma DeliverQuiet(h: Handle, bytes: seq<byte>)
    requires |bytes| <= h.r.rlen
    ensures Quiet(h, Deliver(h, bytes)) && Deliver(h, bytes).state == h.state
  {
    hide AllProgress, QuietLog, Current, Overlay, FillsOutside;
    QuietRefl(h, h);
    match Current(h)
    case None =>
    case Some(i) =>
      if h.q.inFlight[i].pieces != [] { PutQuiet(h, i, Fill(h.q.inFlight[i], bytes)); }
  }

  lemma FlagCmdQuiet(h: Handle, i: nat, error: nat)
    requires i < |h.q.inFlight| && error != 0
    ensures Quiet(h, FlagCmd(h, i, error))
  {
    var cmd := h.q.inFlight[i].FailWith(error);
    var k := Put(h, i, cmd);
    PutQuiet(h, i, cmd);
    assert k.q.inFlight[i].req.cookie == cmd.req.cookie && k.q.inFlight[i].error != 0;
    LogQuiet(k, Flagged(cmd.req.cookie));
    QuietTrans(h, k, Log(k, Flagged(cmd.req.cookie)));
  }

  lemma ErrorCallbackQuiet(u: User, h: Handle, i: nat, offset: nat, error: nat)
    requires i < |h.q.inFlight|
    ensures Quiet(h, ErrorCallback(u, h, i, offset, error)) && ErrorCallback(u, h, i, offset, error).state == h.state
  {
    hide AllProgress, QuietLog;
    var cmd := h.q.inFlight[i];
    var e := ChunkCb(cmd.req.cookie, [], offset, ErrorChunk, error);
    LogQuiet(h, e);
    var g := Log(h, e);
    PutQuiet(g, i, cmd.FailWith(u(g.log).err));
    QuietTrans(h, g, Put(g, i, cmd.FailWith(u(g.log).err)));
  }

  lemma OnRecvErrorTailQuiet(u: User, h: Handle)
    requires h.state.RecvErrorTail?
    ensures Quiet(h, OnRecvErrorTail(u, h))
  {
    hide AllProgress, QuietLog, Current, Field, InBounds, ErrorCallback, FlagCmd;
    QuietRefl(h, h);
    match Current(h)
    case None =>
    case Some(i) =>
      var raw := ErrnoOf(Field(h.r.pay, 0, 4));
      var error := if raw == 0 then EPROTO else raw;
      var offset := Field(h.r.aux, 0, 8);
      FlagCmdQuiet(h, i, error);
      ErrorCallbackQuiet(u, h, i, offset, error);
      var g := ErrorCallback(u, h, i, offset, error);
      QuietLength(h, g);
      FlagCmdQuiet(g, i, error);
      QuietTrans(h, g, FlagCmd(g, i, error));
  }

  lemma QuietLength(h: Handle, g: Handle)
    requires Quiet(h, g)
    ensures |g.q.inFlight| == |h.q.inFlight|
  {
  }

  lemma ExtentCallbackQuiet(u: User, h: Handle, i: nat, name: nat, cooked: Cooked)
    requires i < |h.q.inFlight| && (h.q.inFlight[i].error != 0 ==> cooked.err == h.q.inFlight[i].error)
    ensures Quiet(h, ExtentCallback(u, h, i, name, cooked))
  {
    hide AllProgress, QuietLog;
    var cmd := h.q.inFlight[i].(error := cooked.err);
    var k := Put(h, i, cmd);
    PutQuiet(h, i, cmd);
    var e := ExtentCb(cmd.req.cookie, name, cmd.req.offset, cooked.list, cooked.err);
    LogQuiet(k, e);
    var g := Log(k, e);
    QuietTrans(h, k, g);
    var a := u(g.log);
    var cmd' := cmd.FailWith(if a.err != 0 then a.err else EPROTO);
    PutQuiet(g, i, cmd');
    QuietTrans(h, g, Put(g, i, cmd'));
  }

  lemma OnRecvBsEntriesQuiet(u: User, h: Handle)
    requires h.state.RecvBsEntries?
    ensures Quiet(h, OnRecvBsEntries(u, h))
  {
    hide AllProgress, QuietLog, Current, Field, Context, ExtentCallback, CookedFor;
    QuietRefl(h, h);
    match Current(h)
    case None =>
    case Some(i) =>
      var cmd := h.q.inFlight[i];
      CookedKeepsError(h, cmd);
      match Context(h.n.contexts, Field(h.r.pay, 0, 4))
      case None =>
      case Some(name) => ExtentCallbackQuiet(u, h, i, name, CookedFor(h, cmd));
  }

  lemma CookedKeepsError(h: Handle, cmd: Command)
    ensures cmd.error != 0 ==> CookedFor(h, cmd).err == cmd.error
  {
    var narrow := ReplyType(h) == NBD_REPLY_TYPE_BLOCK_STATUS;
    var cap := if cmd.req.offset <= h.n.exportsize then h.n.exportsize - cmd.req.offset else 0;
    var m := Mode(narrow, cmd.req.wide, cap);
    DescsOnWire(h.r.aux, m, 0, h.r.bsCount);
    CookFromBounds(m, Descs(h.r.aux, narrow, 0, h.r.bsCount), 0, 0, cmd.error);
  }

  lemma FieldBound(s: seq<byte>, lo: nat, hi: nat)
    requires lo <= hi
    ensures Field(s, lo, hi) < Pow256(hi - lo)
  {
  }

  lemma {:induction false} DescsOnWire(raw: seq<byte>, m: Mode, i: nat, n: nat)
    requires i <= n
    ensures OnWire(m, Descs(raw, m.wire32, i, n))
    decreases n - i
  {
    if i < n {
      DescsOnWire(raw, m, i + 1, n);
      Pow256Values();
      FieldBound(raw, 8 * i, 8 * i + 4);
      FieldBound(raw, 8 * i + 4, 8 * i + 8);
      FieldBound(raw, 16 * i, 16 * i + 8);
      FieldBound(raw, 16 * i + 8, 16 * i + 16);
      var ds := Descs(raw, m.wire32, i, n);
      forall k | 0 <= k < |ds| ensures
          if m.wire32 then ds[k].length < U32 && ds[k].flags < U32 else ds[k].length < U64 && ds[k].flags < U64 {
        if k > 0 { assert ds[k] == Descs(raw, m.wire32, i + 1, n)[k - 1]; }
      }
    }
  }

  lemma OnRecvOffsetHoleQuiet(u: User, h: Handle)
    requires h.state.RecvOffsetHole?
    ensures Quiet(h, OnRecvOffsetHole(u, h))
  {
    hide AllProgress, QuietLog, Current, Field, Seen, Overlay, Slice, Acts;
    QuietRefl(h, h);
    match Current(h)
    case None =>
    case Some(i) =>
      var cmd := h.q.inFlight[i];
      var offset, length := Field(h.r.pay, 0, 8), Field(h.r.pay, 8, 12);
      if cmd.req.kind.Read? && InBounds(offset, length, cmd) {
        var at := offset - cmd.req.offset;
        var data := if cmd.req.initialized then cmd.data else Overlay(cmd.data, at, Zeros(length));
        var cmd' := cmd.(dataSeen := Seen(cmd, length), data := data,
                         pieces := cmd.pieces + [Piece(at, length, [], true)]);
        var g := Put(h, i, cmd').(overrun := h.overrun || (!cmd.req.initialized && at + length > |cmd.data|));
        PutQuiet(h, i, cmd');
        ChunkCallbackQuiet(u, g, i, Slice(data, at, length), offset, HoleChunk, true);
        QuietTrans(h, g, ChunkCallback(u, g, i, Slice(data, at, length), offset, HoleChunk, true));
      }
  }

  /** Every reply state except FINISH_COMMAND is quiet. */
  lemma ActQuiet(u: User, h: Handle)
    requires !h.state.FinishCommand?
    ensures Quiet(h, Act(u, h))
  {
    hide AllProgress, QuietLog, Current, Field, InBounds, OnRecvErrorTail, OnRecvBsEntries, OnRecvOffsetHole,
         OnChunkStart, OnSimpleStart, OnRecvOffsetData, OnRecvError, OnResync, ChunkCallback, Slice, Lookup,
         OnCheckReplyMagic, OnRecvErrorMessage, OnRecvBsHeader, OnChunkFinish, OnFinishCommand;
    QuietRefl(h, h);
    match h.state
    case RecvReadPayload =>
      match Current(h) {
        case None =>
        case Some(i) =>
          ChunkCallbackQuiet(u, h, i, h.q.inFlight[i].data, h.q.inFlight[i].req.offset, DataChunk, false);
      }
    case RecvOffsetDataData =>
      match Current(h) {
        case None =>
        case Some(i) =>
          var cmd := h.q.inFlight[i];
          var offset := Field(h.r.pay, 0, 8);
          var at := if offset >= cmd.req.offset then offset - cmd.req.offset else 0;
          ChunkCallbackQuiet(u, h, i, Slice(cmd.data, at, h.r.payloadLeft), offset, DataChunk, true);
      }
    case RecvErrorTail => OnRecvErrorTailQuiet(u, h);
    case RecvOffsetHole => OnRecvOffsetHoleQuiet(u, h);
    case RecvBsEntries => OnRecvBsEntriesQuiet(u, h);
    case RecvError => OnRecvErrorQuiet(h);
    case Resync => OnResyncQuiet(h);
    case ChunkStart => OnChunkStartQuiet(h);
    case SimpleStart => OnSimpleStartQuiet(h);
    case RecvOffsetData => OnRecvOffsetDataQuiet(h);
    case _ => QuietRefl(h, Act(u, h));
  }

  lemma OnSimpleStartQuiet(h: Handle)
    requires h.state.SimpleStart?
    ensures Quiet(h, OnSimpleStart(h))
  {
    hide AllProgress, QuietLog, Current, Field, Lookup, ErrnoOf, Acts;
    QuietRefl(h, h);
    match Current(h)
    case None =>
    case Some(i) =>
      var cmd := OnSimpleStart(h).q.inFlight[i];
      PutQuiet(h, i, cmd);
  }

  lemma OnRecvOffsetDataQuiet(h: Handle)
    requires h.state.RecvOffsetData?
    ensures Quiet(h, OnRecvOffsetData(h))
  {
    hide AllProgress, QuietLog, Current, Field, InBounds, Seen, Acts;
    QuietRefl(h, h);
    match Current(h)
    case None =>
    case Some(i) =>
      var cmd := OnRecvOffsetData(h).q.inFlight[i];
      PutQuiet(h, i, cmd);
  }

  lemma OnRecvErrorQuiet(h: Handle)
    requires h.state.RecvError?
    ensures Quiet(h, OnRecvError(h))
  {
    hide AllProgress, QuietLog, Current, Field;
    QuietRefl(h, h);
    match Current(h)
    case None =>
    case Some(i) => PutQuiet(h, i, h.q.inFlight[i].FailWith(ErrnoOf(Field(h.r.pay, 0, 4))));
  }

  lemma OnResyncQuiet(h: Handle)
    requires h.state.Resync?
    ensures Quiet(h, OnResync(h))
  {
    hide AllProgress, QuietLog, Current, FlagCmd;
    QuietRefl(h, h);
    match Current(h)
    case None =>
    case Some(i) => FlagCmdQuiet(h, i, EPROTO);
  }

  lemma OnChunkTypeQuiet(h: Handle, i: nat, length: nat, t: nat)
    requires i < |h.q.inFlight| && h.r.payloadLeft == length && !h.state.RecvReadPayload?
    ensures Quiet(h, OnChunkType(h, i, length, t))
  {
    hide Quiet, Field, BsLengthOk, IsErrorType, Magic;
    var g := OnChunkType(h, i, length, t);
    var k := Put(h, i, h.q.inFlight[i].FailWith(EPROTO));
    if g.q == h.q {
      QuietRefl(h, g);
    } else {
      PutQuiet(h, i, h.q.inFlight[i].FailWith(EPROTO));
      QuietRefl(k, g);
      QuietTrans(h, k, g);
    }
  }

  lemma OnChunkStartQuiet(h: Handle)
    requires h.state.ChunkStart?
    ensures Quiet(h, OnChunkStart(h))
  {
    hide AllProgress, QuietLog, Current, Field, OnChunkType;
    QuietRefl(h, h);
    if !EarlyResync(h) {
      var length := ReplyLength(h);
      OnChunkTypeQuiet(h.(r := h.r.(payloadLeft := length)), Current(h).value, length, ReplyType(h));
    }
  }

  lemma PauseQuiet(h: Handle)
    ensures Quiet(h, Pause(h))
  {
    hide Quiet, Pause;
    QuietRefl(h, Pause(h));
  }

  lemma EnterReplyStartQuiet(h: Handle, io: Io)
    requires IoOk(h, io)
    ensures Quiet(h, EnterReplyStart(h, io))
  {
    hide EnterReplyStart;
    QuietRefl(h, EnterReplyStart(h, io));
  }

  /** Entering a reply state other than FINISH_COMMAND is quiet, whatever recv gives. */
  lemma EnterReplyQuiet(u: User, h: Handle, io: Io)
    requires IoOk(h, io) && !h.state.FinishCommand?
    ensures Quiet(h, EnterReply(u, h, io))
  {
    hide AllProgress, QuietLog, Act, Pause, Deliver, EnterReplyStart;
    QuietRefl(h, h);
    if h.state.ReplyStart? {
      EnterReplyStartQuiet(h, io);
    } else if io.Got? && IsRecvState(h.state) && h.r.rlen > 0 {
      var g := Deliver(h, io.bytes);
      DeliverQuiet(h, io.bytes);
      ActQuiet(u, g);
      PauseQuiet(g);
      QuietTrans(h, g, Act(u, g));
      QuietTrans(h, g, Pause(g));
    } else {
      ActQuiet(u, h);
      PauseQuiet(h);
    }
  }
}
