/** The handle as an object: one method per state, which does to the fields what the state's
    function says, and the calls of a program, with what the run theorems promise it. */
module NbdHandle {
  import opened Bytes
  import opened BlockStatus
  import opened Nbd
  import opened Reply
  import opened Engine
  import opened EngineLedger
  import opened EngineSend
  import opened EngineResend
  import opened EngineAsserts
  import opened EngineErrors
  import opened EngineHistory
  import opened ReadData
  import opened EngineReads

  /** The search loops over a command list. */
  method FindCommand(list: seq<Command>, cookie: nat) returns (r: Option<nat>)
    ensures r == Lookup(list, cookie)
  {
    var i := 0;
    while i < |list|
      invariant i <= |list|
      invariant Lookup(list, cookie) ==
                match Lookup(list[i..], cookie) case None => None case Some(k) => Some(i + k)
    {
      if list[i].req.cookie == cookie { return Some(i); }
      assert list[i..][1..] == list[i + 1..];
      i := i + 1;
    }
    return None;
  }

  class NbdHandle {
    const user: User
    const n: Negotiated
    var state: State
    var blocked: bool
    var r: Receiver
    var w: Sender
    var q: Queues
    var log: seq<Event>
    var overrun: bool
    var failed: bool
    /** The run so far. */
    ghost var hs: seq<Handle>
    ghost var ls: seq<Label>

    /** The fields are the last state of a run that began with a new connection. */
    ghost predicate Valid()
      reads this
    {
      IsRun(user, hs, ls) && Fresh(hs[0]) && hs[|ls|] == Model()
    }

    function Model(): Handle
      reads this
    {
      Handle(state, blocked, n, r, w, q, log, overrun, failed)
    }

    constructor (user: User, n: Negotiated)
      requires (n.extended ==> n.structured) && n.exportsize < U64
      ensures Valid() && this.user == user && this.n == n && ls == []
    {
      this.user, this.n := user, n;
      state, blocked := Ready, true;
      r := Receiver(0, Discard, [], [], [], 0, 0, None, None, []);
      w := Sender([], [], false, false, [], []);
      q := Queues([], [], [], 0, 1, false);
      log, overrun, failed := [], false, false;
      new;
      hs, ls := [Model()], [];
      NoSteps(user, Model());
    }

    // ---- helpers ----

    method SetNextState(s: State)
      modifies this`state, this`blocked
      ensures Model() == Go(old(Model()), s)
    {
      state := s;
      blocked := false;
    }

    /** An assertion of the original fails. */
    method AssertFails()
      modifies this`failed, this`blocked
      ensures Model() == Fail(old(Model()))
    {
      failed := true;
      blocked := true;
    }

    method SetRbuf(t: Target, len: nat, left: nat)
      modifies this`r
      ensures Model() == Expect(old(Model()), t, len, left)
    {
      if t.ToPay? { r := r.(pay := []); }
      if t.ToAux? { r := r.(aux := []); }
      r := r.(target := t, rlen := len, payloadLeft := left);
    }

    method FindCurrent() returns (c: Option<nat>)
      ensures c == Current(Model())
    {
      if r.replyCmd.None? { return None; }
      c := FindCommand(q.inFlight, r.replyCmd.value);
    }

    method StoreCmd(i: nat, cmd: Command)
      requires i < |q.inFlight|
      modifies this`q
      ensures Model() == Put(old(Model()), i, cmd)
    {
      q := q.(inFlight := q.inFlight[i := cmd]);
    }

    /** recv_into_rbuf: 0 when the buffer is full, 1 when more is to come, -1 on an error. */
    method RecvIntoRbuf(io: Io) returns (res: int)
      requires IoOk(Model(), io)
      modifies this`r, this`q, this`overrun
      ensures Model() == if old(r.rlen) > 0 && io.Got? then Deliver(old(Model()), io.bytes) else old(Model())
      ensures res ==
              if old(r.rlen) == 0 then 0
              else if io.Got? then (if r.rlen == 0 then 0 else 1)
              else if io.Again? then 1
              else -1
    {
      hide Fill, FillsOutside;
      if r.rlen == 0 { return 0; }
      match io
      case Got(bytes) =>
        if r.target.ToData? {
          var c := FindCurrent();
          if c.None? || q.inFlight[c.value].pieces == [] {
            overrun := true;
          } else {
            overrun := overrun || FillsOutside(q.inFlight[c.value], bytes);
            StoreCmd(c.value, Fill(q.inFlight[c.value], bytes));
          }
        } else if r.target.ToHdr? {
          r := r.(hdr := r.hdr + bytes);
        } else if r.target.ToPay? {
          r := r.(pay := r.pay + bytes);
        } else if r.target.ToAux? {
          r := r.(aux := r.aux + bytes);
        }
        r := r.(rlen := r.rlen - |bytes|, reply := r.reply + bytes);
        return if r.rlen == 0 then 0 else 1;
      case Again => return 1;
      case _ => return -1;
    }

    /** save_reply_state, or what RECV_REPLY does instead. */
    method SaveReplyState()
      modifies this`state, this`blocked, this`r, this`failed
      ensures Model() == Reply.Pause(old(Model()))
    {
      hide Magic;
      if state.RecvReply? {
        if n.extended && |r.hdr| >= 4 && Magic(Model()) != NBD_EXTENDED_REPLY_MAGIC {
          SetNextState(Dead);
        } else {
          SetNextState(Ready);
        }
      } else if r.rlen == 0 || r.replyState.Some? {
        AssertFails();
      } else {
        r := r.(replyState := Some(state));
        SetNextState(Ready);
      }
    }

    // ---- REPLY ----

    method ReplyStart(io: Io)
      requires state.ReplyStart? && IoOk(Model(), io)
      modifies this`state, this`blocked, this`r, this`w, this`q, this`log, this`overrun, this`failed
      ensures Model() == EnterReplyStart(old(Model()), io)
    {
      hide Fill, FillsOutside;
      if r.rlen > 0 {
        if r.replyState.Some? {
          var s := r.replyState.value;
          r := r.(replyState := None);
          SetNextState(s);
        } else {
          SetNextState(State.RecvReply);
        }
        return;
      }
      if r.replyCmd.Some? { AssertFails(); return; }
      r := r.(target := ToHdr, hdr := [], rlen := if n.extended then 32 else 16, reply := []);
      match io
      case Got(bytes) =>
        r := r.(hdr := bytes, rlen := r.rlen - |bytes|, reply := bytes);
        assert [] + bytes == bytes;
        SetNextState(State.RecvReply);
      case Again => blocked := true;
      case Eof => SetNextState(Closed);
      case _ => SetNextState(Dead);
    }

    method CheckReplyMagic()
      modifies this`state, this`blocked, this`r, this`w, this`q, this`log, this`overrun, this`failed
      ensures Model() == OnCheckReplyMagic(old(Model()))
    {
      hide Field, Acts;
      var h := Model();
      var magic, cookie := Magic(h), Cookie(h);
      var found := FindCommand(q.inFlight, cookie);
      var reply := if found.None? then None else Some(cookie);
      if magic == NBD_SIMPLE_REPLY_MAGIC && !n.extended {
        r := r.(replyCmd := reply);
        SetNextState(State.SimpleStart);
      } else if magic == NBD_STRUCTURED_REPLY_MAGIC && !n.extended {
        if |r.hdr| != 16 { AssertFails(); return; }
        r := r.(replyCmd := reply, target := ToHdr, rlen := 4);
        SetNextState(State.RecvStructuredRemaining);
      } else if magic == NBD_EXTENDED_REPLY_MAGIC && n.extended {
        r := r.(replyCmd := reply);
        SetNextState(State.ChunkStart);
      } else {
        SetNextState(Dead);
      }
    }

    // ---- SIMPLE_REPLY ----

    method SimpleStart()
      modifies this`state, this`blocked, this`r, this`w, this`q, this`log, this`overrun, this`failed
      ensures Model() == OnSimpleStart(old(Model()))
    {
      hide Field, Acts, Lookup, ErrnoOf;
      var i := FindCurrent();
      var raw := SimpleError(Model());
      if i.None? {
        if raw != 0 || n.structured { SetNextState(State.FinishCommand); } else { SetNextState(Dead); }
        return;
      }
      var cmd := q.inFlight[i.value];
      var error := ErrnoOf(raw);
      if cmd.req.kind.Read? && n.structured && cmd.error == 0 { cmd := cmd.(error := EPROTO); }
      if cmd.error == 0 { cmd := cmd.(error := error); }
      if error == 0 && cmd.req.kind.Read? {
        cmd := cmd.(dataSeen := (cmd.dataSeen + cmd.req.count) % U32,
                    pieces := cmd.pieces + [Piece(0, cmd.req.count, [], false)]);
        StoreCmd(i.value, cmd);
        SetRbuf(ToData, cmd.req.count, r.payloadLeft);
        SetNextState(State.RecvReadPayload);
      } else {
        StoreCmd(i.value, cmd);
        SetNextState(State.FinishCommand);
      }
    }

    /** The chunk callback of a read, if there is one. */
    method CallChunk(i: nat, bytes: seq<byte>, offset: nat, status: ChunkStatus, keep: bool)
      requires i < |q.inFlight|
      modifies this`q, this`log
      ensures Model() == ChunkCallback(user, old(Model()), i, bytes, offset, status, keep)
    {
      var cmd := q.inFlight[i];
      if !cmd.req.hasChunk { return; }
      log := log + [ChunkCb(cmd.req.cookie, bytes, offset, status, cmd.error)];
      var a := user(log);
      if a.ret == -1 && (cmd.error == 0 || !keep) {
        StoreCmd(i, cmd.(error := if a.err != 0 then a.err else EPROTO));
      }
    }

    method RecvReadPayload()
      modifies this`state, this`blocked, this`r, this`w, this`q, this`log, this`overrun, this`failed
      ensures Model() == OnRecvReadPayload(user, old(Model()))
    {
      hide Acts, Lookup, ChunkCallback;
      var i := FindCurrent();
      if i.None? { AssertFails(); return; }
      var cmd := q.inFlight[i.value];
      CallChunk(i.value, cmd.data, cmd.req.offset, DataChunk, false);
      SetNextState(State.FinishCommand);
    }

    // ---- CHUNK_REPLY ----

    /** The resync: labels. */
    method SkipPayload()
      modifies this`state, this`blocked, this`r, this`w, this`q, this`log, this`overrun, this`failed
      ensures Model() == SkipRest(old(Model()))
    {
      SetRbuf(Discard, r.payloadLeft, 0);
      SetNextState(State.Resync);
    }

    method ChunkStart()
      modifies this`state, this`blocked, this`r, this`w, this`q, this`log, this`overrun, this`failed
      ensures Model() == OnChunkStart(old(Model()))
    {
      hide Field, Acts, Lookup, OnChunkType;
      var length := ReplyLength(Model());
      if length > MAX_REQUEST_SIZE + 8 { SetNextState(Dead); return; }
      var i := FindCurrent();
      if i.None? || !n.structured || (n.extended && ReplyOffset(Model()) != q.inFlight[i.value].req.offset) {
        SkipPayload();
        return;
      }
      r := r.(payloadLeft := length);
      ChunkType(i.value, length, ReplyType(Model()));
    }

    method ChunkType(i: nat, length: nat, t: nat)
      requires i < |q.inFlight| && r.payloadLeft == length
      modifies this`state, this`blocked, this`r, this`w, this`q, this`log, this`overrun, this`failed
      ensures Model() == OnChunkType(old(Model()), i, length, t)
    {
      hide Field, Acts, BsLengthOk, IsErrorType;
      var cmd := q.inFlight[i];
      if t == NBD_REPLY_TYPE_NONE {
        if length != 0 || !LastChunk(Model()) { SkipPayload(); } else { SetNextState(State.ChunkFinish); }
      } else if t == NBD_REPLY_TYPE_OFFSET_DATA {
        if !cmd.req.kind.Read? || length < 8 { SkipPayload(); return; }
        SetRbuf(ToPay, 8, length - 8);
        SetNextState(State.RecvOffsetData);
      } else if t == NBD_REPLY_TYPE_OFFSET_HOLE {
        if !cmd.req.kind.Read? || length != 12 { SkipPayload(); return; }
        SetRbuf(ToPay, 12, 0);
        SetNextState(State.RecvOffsetHole);
      } else if t == NBD_REPLY_TYPE_BLOCK_STATUS || t == NBD_REPLY_TYPE_BLOCK_STATUS_EXT {
        if !cmd.req.kind.BlockStatusCmd? || !n.metaValid || n.contexts == [] || !BsLengthOk(t, length) {
          SkipPayload();
          return;
        }
        if n.extended != (t == NBD_REPLY_TYPE_BLOCK_STATUS_EXT) { StoreCmd(i, cmd.FailWith(EPROTO)); }
        SetRbuf(ToPay, if t == NBD_REPLY_TYPE_BLOCK_STATUS then 4 else 8, length);
        SetNextState(State.RecvBsHeader);
      } else if IsErrorType(t) && length >= 4 {
        SetRbuf(ToPay, Min(length, 6), length);
        SetNextState(State.RecvError);
      } else {
        SkipPayload();
      }
    }

    method RecvError()
      modifies this`state, this`blocked, this`r, this`w, this`q, this`log, this`overrun, this`failed
      ensures Model() == OnRecvError(old(Model()))
    {
      hide Field, Acts, Lookup, ErrnoOf;
      var i := FindCurrent();
      if i.None? || r.payloadLeft < 4 { AssertFails(); return; }
      var length := r.payloadLeft;
      var error, msglen := ErrnoOf(Field(r.pay, 0, 4)), Field(r.pay, 4, 6);
      r := r.(payloadLeft := length - Min(length, 6));
      if length < 6 || msglen > r.payloadLeft || msglen > NBD_MAX_STRING {
        StoreCmd(i.value, q.inFlight[i.value].FailWith(error));
        SkipPayload();
      } else {
        SetRbuf(ToAux, msglen, r.payloadLeft - msglen);
        SetNextState(State.RecvErrorMessage);
      }
    }

    method RecvErrorMessage()
      modifies this`state, this`blocked, this`r, this`w, this`q, this`log, this`overrun, this`failed
      ensures Model() == OnRecvErrorMessage(old(Model()))
    {
      hide Field, Acts;
      var t := if ReplyType(Model()) == NBD_REPLY_TYPE_ERROR_OFFSET && r.payloadLeft == 8 then ToAux else Discard;
      SetRbuf(t, r.payloadLeft, 0);
      SetNextState(State.RecvErrorTail);
    }

    /** The command is marked as failed. */
    method FlagCommand(i: nat, error: nat)
      requires i < |q.inFlight|
      modifies this`q, this`log
      ensures Model() == FlagCmd(old(Model()), i, error)
    {
      StoreCmd(i, q.inFlight[i].FailWith(error));
      log := log + [Flagged(q.inFlight[i].req.cookie)];
    }

    method RecvErrorTail()
      modifies this`state, this`blocked, this`r, this`w, this`q, this`log, this`overrun, this`failed
      ensures Model() == OnRecvErrorTail(user, old(Model()))
    {
      hide Field, Acts, Lookup, ErrnoOf, InBounds;
      var i := FindCurrent();
      if i.None? { AssertFails(); return; }
      var cmd := q.inFlight[i.value];
      var error := ErrnoOf(Field(r.pay, 0, 4));
      if error == 0 { error := EPROTO; }
      var offset := Field(r.aux, 0, 8);
      if ReplyType(Model()) == NBD_REPLY_TYPE_ERROR_OFFSET && r.target.ToAux? && InBounds(offset, 0, cmd)
         && cmd.req.kind.Read? && cmd.req.hasChunk
      {
        log := log + [ChunkCb(cmd.req.cookie, [], offset, ErrorChunk, error)];
        var a := user(log);
        if a.ret == -1 { StoreCmd(i.value, cmd.FailWith(a.err)); }
      }
      FlagCommand(i.value, error);
      SetNextState(State.ChunkFinish);
    }

    method RecvOffsetData()
      modifies this`state, this`blocked, this`r, this`w, this`q, this`log, this`overrun, this`failed
      ensures Model() == OnRecvOffsetData(old(Model()))
    {
      hide Field, Acts, Lookup, Seen;
      var i := FindCurrent();
      if i.None? || !q.inFlight[i.value].req.kind.Read? { AssertFails(); return; }
      var cmd := q.inFlight[i.value];
      var offset, length := Field(r.pay, 0, 8), r.payloadLeft;
      if !InBounds(offset, length, cmd) { SetNextState(Dead); return; }
      cmd := cmd.(dataSeen := Seen(cmd, length),
                  pieces := cmd.pieces + [Piece(offset - cmd.req.offset, length, [], false)]);
      StoreCmd(i.value, cmd);
      SetRbuf(ToData, length, length);
      SetNextState(State.RecvOffsetDataData);
    }

    method RecvOffsetDataData()
      modifies this`state, this`blocked, this`r, this`w, this`q, this`log, this`overrun, this`failed
      ensures Model() == OnRecvOffsetDataData(user, old(Model()))
    {
      hide Field, Acts, Lookup, Slice, ChunkCallback;
      var i := FindCurrent();
      if i.None? { AssertFails(); return; }
      var cmd := q.inFlight[i.value];
      var offset := Field(r.pay, 0, 8);
      var at := if offset >= cmd.req.offset then offset - cmd.req.offset else 0;
      CallChunk(i.value, Slice(cmd.data, at, r.payloadLeft), offset, DataChunk, true);
      r := r.(payloadLeft := 0);
      SetNextState(State.ChunkFinish);
    }

    method RecvOffsetHole()
      modifies this`state, this`blocked, this`r, this`w, this`q, this`log, this`overrun, this`failed
      ensures Model() == OnRecvOffsetHole(user, old(Model()))
    {
      hide Field, Acts, Lookup, Seen, Slice, ChunkCallback, Overlay;
      var i := FindCurrent();
      if i.None? || !q.inFlight[i.value].req.kind.Read? { AssertFails(); return; }
      var cmd := q.inFlight[i.value];
      var offset, length := Field(r.pay, 0, 8), Field(r.pay, 8, 12);
      if !InBounds(offset, length, cmd) { SetNextState(Dead); return; }
      var at := offset - cmd.req.offset;
      var seen := Seen(cmd, length);
      if !cmd.req.initialized {
        overrun := overrun || at + length > |cmd.data|;
        cmd := cmd.(data := Overlay(cmd.data, at, Zeros(length)));
      }
      cmd := cmd.(dataSeen := seen, pieces := cmd.pieces + [Piece(at, length, [], true)]);
      StoreCmd(i.value, cmd);
      CallChunk(i.value, Slice(cmd.data, at, length), offset, HoleChunk, true);
      SetNextState(State.ChunkFinish);
    }

    method RecvBsHeader()
      modifies this`state, this`blocked, this`r, this`w, this`q, this`log, this`overrun, this`failed
      ensures Model() == OnRecvBsHeader(old(Model()))
    {
      hide Field, Acts, Lookup;
      var i := FindCurrent();
      var t := ReplyType(Model());
      if i.None? || !q.inFlight[i.value].req.kind.BlockStatusCmd? || !BsLengthOk(t, r.payloadLeft) {
        AssertFails();
        return;
      }
      var narrow := t == NBD_REPLY_TYPE_BLOCK_STATUS;
      var left := r.payloadLeft - if narrow then 4 else 8;
      r := r.(payloadLeft := left, bsCount := left / if narrow then 8 else 16);
      if !narrow && r.bsCount != Field(r.pay, 4, 8) { SkipPayload(); return; }
      SetRbuf(ToAux, left, 0);
      SetNextState(State.RecvBsEntries);
    }

    /** The descriptors that were received, cooked. */
    method CookEntries(cmd: Command) returns (cooked: Cooked)
      requires r.bsCount > 0
      ensures cooked == CookedFor(Model(), cmd)
    {
      hide Field, Cook, OnWire;
      var narrow := ReplyType(Model()) == NBD_REPLY_TYPE_BLOCK_STATUS;
      var cap := if cmd.req.offset <= n.exportsize then n.exportsize - cmd.req.offset else 0;
      var m := Mode(narrow, cmd.req.wide, cap);
      EngineQuiet.DescsOnWire(r.aux, m, 0, r.bsCount);
      var list, error := CookLoop(m, Descs(r.aux, narrow, 0, r.bsCount), cmd.error);
      return Cooked(list, error);
    }

    method RecvBsEntries()
      modifies this`state, this`blocked, this`r, this`w, this`q, this`log, this`overrun, this`failed
      ensures Model() == OnRecvBsEntries(user, old(Model()))
    {
      hide Field, Acts, Lookup, CookedFor, Context;
      var i := FindCurrent();
      if i.None? || !q.inFlight[i.value].req.kind.BlockStatusCmd? || r.bsCount == 0 || !n.metaValid {
        AssertFails();
        return;
      }
      var cmd := q.inFlight[i.value];
      var name := Context(n.contexts, Field(r.pay, 0, 4));
      if name.Some? {
        var cooked := CookEntries(cmd);
        cmd := cmd.(error := cooked.err);
        StoreCmd(i.value, cmd);
        log := log + [ExtentCb(cmd.req.cookie, name.value, cmd.req.offset, cooked.list, cooked.err)];
        var a := user(log);
        if a.ret == -1 { StoreCmd(i.value, cmd.FailWith(if a.err != 0 then a.err else EPROTO)); }
      }
      SetNextState(State.ChunkFinish);
    }

    method Resync()
      modifies this`state, this`blocked, this`r, this`w, this`q, this`log, this`overrun, this`failed
      ensures Model() == OnResync(old(Model()))
    {
      hide Acts, Lookup, FlagCmd;
      var i := FindCurrent();
      if i.None? { SetNextState(State.FinishCommand); return; }
      FlagCommand(i.value, EPROTO);
      SetNextState(State.ChunkFinish);
    }

    method ChunkFinish()
      modifies this`state, this`blocked, this`r, this`w, this`q, this`log, this`overrun, this`failed
      ensures Model() == OnChunkFinish(old(Model()))
    {
      hide Field, Acts;
      if r.payloadLeft != 0 { AssertFails(); return; }
      if LastChunk(Model()) { SetNextState(State.FinishCommand); return; }
      r := r.(replyCmd := None);
      SetNextState(Ready);
    }

    // ---- FINISH_COMMAND ----

    /** The completion callback: what it makes of the command's error, and whether it retires
        the command. */
    method CallCompletion(cmd: Command, error: nat) returns (cmd': Command, retire: bool)
      modifies this`log
      ensures Complete(user, old(Model()), cmd, error) == (Model(), cmd', retire)
    {
      cmd', retire := cmd, cmd.req.kind.Disc?;
      if cmd.req.hasCompletion {
        log := log + [CompletionCb(cmd.req.cookie, error)];
        var a := user(log);
        if a.ret == -1 && a.err != 0 { cmd' := cmd.(error := a.err); }
        if a.ret == 1 { retire := true; }
      }
    }

    /** Free the command, or append it to the done queue. */
    method Dispose(cmd: Command, retire: bool)
      modifies this`q, this`log
      ensures Model() == Leave(old(Model()), cmd, retire)
    {
      if retire {
        log := log + [Retired(cmd.req.cookie)];
      } else {
        q := q.(done := q.done + [cmd]);
      }
    }

    /** Unlink the command at position `i` and hand it on. */
    method CompleteAt(i: nat)
      requires i < |q.inFlight|
      modifies this`q, this`log
      ensures Model() == FinishAt(user, old(Model()), i)
    {
      hide Complete, Leave;
      var cmd := q.inFlight[i];
      var cmd', retire := CallCompletion(cmd, cmd.error);
      q := q.(inFlight := q.inFlight[..i] + q.inFlight[i + 1..]);
      Dispose(cmd', retire);
    }

    method FinishCommand()
      modifies this`state, this`blocked, this`r, this`w, this`q, this`log, this`overrun, this`failed
      ensures Model() == OnFinishCommand(user, old(Model()))
    {
      hide Field, Acts, FinishAt, Lookup;
      var cookie := Cookie(Model());
      var i := FindCommand(q.inFlight, cookie);
      if i.None? {
        if r.replyCmd.Some? { AssertFails(); } else { SetNextState(Ready); }
        return;
      }
      var cmd := q.inFlight[i.value];
      if r.replyCmd != Some(cookie) || (cmd.req.hasCompletion && cmd.req.kind.Disc?) || q.inFlightCount < 1 {
        AssertFails();
        return;
      }
      r := r.(replyCmd := None);
      CompleteAt(i.value);
      q := q.(inFlightCount := q.inFlightCount - 1);
      SetNextState(Ready);
    }

    // ---- ISSUE_COMMAND ----

    /** send_from_wbuf: 0 when all is sent, 1 when not, -1 on an error. */
    method SendFromWbuf(io: Io) returns (res: int)
      requires io.Sent? ==> io.n <= |w.wbuf|
      modifies this`w
      ensures Model() == old(Model()).(w := w)
      ensures w ==
              if io.Sent? then old(w).(sent := old(w.sent) + old(w.wbuf)[..io.n], wbuf := old(w.wbuf)[io.n..])
              else old(w)
      ensures res == if w.wbuf == [] then 0 else if io.Error? then -1 else 1
    {
      if io.Sent? {
        w := w.(sent := w.sent + w.wbuf[..io.n], wbuf := w.wbuf[io.n..]);
      }
      return if w.wbuf == [] then 0 else if io.Error? then -1 else 1;
    }

    method IssueStart()
      modifies this`state, this`blocked, this`r, this`w, this`q, this`log, this`overrun, this`failed
      ensures Model() == EnterIssueStart(old(Model()))
    {
      hide Header;
      if q.toIssue == [] { AssertFails(); return; }
      if !w.inWriteShutdown && w.wbuf != [] {
        state := if w.inWritePayload then SendWritePayload else SendRequest;
        blocked := true;
        return;
      }
      var cmd := q.toIssue[0];
      if !n.extended && cmd.req.count >= U32 { AssertFails(); return; }
      var req := Header(n.extended, cmd);
      w := w.(req := req, wbuf := req);
      SetNextState(SendRequest);
    }

    /** SEND_REQUEST and SEND_WRITE_PAYLOAD. */
    method SendPart(io: Io, next: State)
      requires io.Sent? ==> io.n <= |w.wbuf|
      modifies this`state, this`blocked, this`r, this`w, this`q, this`log, this`overrun, this`failed
      ensures Model() == EnterSend(old(Model()), io, next)
    {
      if w.wbuf == [] { SetNextState(next); return; }
      var res := SendFromWbuf(io);
      if res == -1 { SetNextState(Dead); } else if res == 0 { SetNextState(next); } else { blocked := true; }
    }

    /** PAUSE_SEND_REQUEST and PAUSE_WRITE_PAYLOAD. */
    method PausePart(payload: bool)
      modifies this`state, this`blocked, this`r, this`w, this`q, this`log, this`overrun, this`failed
      ensures Model() == EnterPause(old(Model()), payload)
    {
      if w.wbuf == [] || q.toIssue == [] { AssertFails(); return; }
      w := w.(inWritePayload := payload);
      SetNextState(State.ReplyStart);
    }

    method PrepareWritePayload()
      modifies this`state, this`blocked, this`r, this`w, this`q, this`log, this`overrun, this`failed
      ensures Model() == EnterPrepareWritePayload(old(Model()))
    {
      hide Field;
      if q.toIssue == [] || q.toIssue[0].req.cookie != Field(w.req, 8, 16) { AssertFails(); return; }
      var cmd := q.toIssue[0];
      if HasPayload(n.extended, cmd) {
        w := w.(wbuf := cmd.data);
        SetNextState(SendWritePayload);
      } else if cmd.req.kind.Disc? {
        w := w.(inWriteShutdown := true);
        SetNextState(SendWriteShutdown);
      } else {
        SetNextState(State.IssueFinish);
      }
    }

    method IssueFinish()
      modifies this`state, this`blocked, this`r, this`w, this`q, this`log, this`overrun, this`failed
      ensures Model() == EnterIssueFinish(old(Model()))
    {
      hide Field;
      if w.wbuf != [] || q.toIssue == [] || q.toIssue[0].req.cookie != Field(w.req, 8, 16) { AssertFails(); return; }
      var cmd := q.toIssue[0];
      q := q.(toIssue := q.toIssue[1..], inFlight := [cmd] + q.inFlight);
      w := w.(issued := w.issued + [cmd]);
      SetNextState(Ready);
    }

    // ---- READY, DEAD, CLOSED ----

    /** nbd_internal_abort_commands, on a list that has been taken off the handle. */
    method AbortCommands(list: seq<Command>)
      modifies this`q, this`log, this`failed, this`blocked
      ensures Model() == Abort(user, old(Model()), list)
    {
      hide Complete, Leave;
      var i := 0;
      while i < |list|
        invariant i <= |list| && Abort(user, Model(), list[i..]) == Abort(user, old(Model()), list)
      {
        var cmd := list[i];
        if cmd.req.hasCompletion && cmd.req.kind.Disc? { AssertFails(); return; }
        var cmd', retire := CallCompletion(cmd, if cmd.error != 0 then cmd.error else ENOTCONN);
        Dispose(cmd'.FailWith(ENOTCONN), retire);
        assert list[i..][1..] == list[i + 1..];
        i := i + 1;
      }
    }

    /** DEAD and CLOSED. */
    method End()
      modifies this`state, this`blocked, this`r, this`w, this`q, this`log, this`overrun, this`failed
      ensures Model() == EnterEnd(user, old(Model()))
    {
      hide Abort;
      var list := q.toIssue;
      q := q.(toIssue := []);
      AbortCommands(list);
      AbortKeepsLists(user, old(Model()).(q := old(q).(toIssue := [])), list);
      list := q.inFlight;
      q := q.(inFlight := []);
      AbortCommands(list);
      q := q.(inFlightCount := 0);
      blocked := true;
    }

    method WhenReady(io: Io)
      modifies this`state, this`blocked, this`r, this`w, this`q, this`log, this`overrun, this`failed
      ensures Model() == EnterReady(old(Model()), io)
    {
      if q.toIssue != [] {
        SetNextState(State.IssueStart);
      } else if io == Flag(true) {
        SetNextState(State.ReplyStart);
      } else {
        blocked := true;
      }
    }

    // ---- the machine and its callers ----

    /** What a reply state does once its input is there. */
    method ActOn()
      requires IsReplyState(state) && !state.ReplyStart?
      modifies this`state, this`blocked, this`r, this`w, this`q, this`log, this`overrun, this`failed
      ensures Model() == Act(user, old(Model()))
    {
      hide Acts, OnCheckReplyMagic, OnSimpleStart, OnRecvReadPayload, OnChunkStart, OnRecvError, OnRecvErrorMessage,
           OnRecvErrorTail, OnRecvOffsetData, OnRecvOffsetDataData, OnRecvOffsetHole, OnRecvBsHeader, OnRecvBsEntries,
           OnResync, OnChunkFinish, OnFinishCommand;
      if state.RecvReply? {
        SetNextState(State.CheckReplyMagic);
      } else if state.CheckReplyMagic? {
        CheckReplyMagic();
      } else if state.RecvStructuredRemaining? {
        SetNextState(State.ChunkStart);
      } else if state.SimpleStart? {
        SimpleStart();
      } else if state.RecvReadPayload? {
        RecvReadPayload();
      } else if state.ChunkStart? {
        ChunkStart();
      } else if state.ChunkFinish? {
        ChunkFinish();
      } else if state.FinishCommand? {
        FinishCommand();
      } else {
        ActOnPayload();
      }
    }

    method ActOnPayload()
      requires state.RecvError? || state.RecvErrorMessage? || state.RecvErrorTail? || state.RecvOffsetData?
               || state.Resync?
               || state.RecvOffsetDataData? || state.RecvOffsetHole? || state.RecvBsHeader? || state.RecvBsEntries?
      modifies this`state, this`blocked, this`r, this`w, this`q, this`log, this`overrun, this`failed
      ensures Model() == Act(user, old(Model()))
    {
      hide Acts, OnCheckReplyMagic, OnSimpleStart, OnRecvReadPayload, OnChunkStart, OnRecvError, OnRecvErrorMessage,
           OnRecvErrorTail, OnRecvOffsetData, OnRecvOffsetDataData, OnRecvOffsetHole, OnRecvBsHeader, OnRecvBsEntries,
           OnResync, OnChunkFinish, OnFinishCommand;
      match state
      case RecvError => RecvError();
      case RecvErrorMessage => RecvErrorMessage();
      case RecvErrorTail => RecvErrorTail();
      case RecvOffsetData => RecvOffsetData();
      case RecvOffsetDataData => RecvOffsetDataData();
      case RecvOffsetHole => RecvOffsetHole();
      case RecvBsHeader => RecvBsHeader();
      case RecvBsEntries => RecvBsEntries();
      case Resync => Resync();
    }

    method RunReply(io: Io)
      requires IsReplyState(state) && IoOk(Model(), io)
      modifies this`state, this`blocked, this`r, this`w, this`q, this`log, this`overrun, this`failed
      ensures Model() == EnterReply(user, old(Model()), io)
    {
      hide Act, Pause, Deliver, EnterReplyStart;
      if state.ReplyStart? { ReplyStart(io); return; }
      if state.Resync? && !r.target.Discard? { AssertFails(); return; }
      if IsRecvState(state) && r.rlen > 0 {
        DeliverState(Model(), io);
        var res := RecvIntoRbuf(io);
        if res == -1 { SetNextState(Dead); return; }
        if res == 1 { SaveReplyState(); return; }
      }
      ActOn();
    }

    /** The states that send. */
    method EnterSending(io: Io)
      requires EventOk(Model(), io) && !IsReplyState(state) && !state.Ready? && !state.Dead? && !state.Closed?
      modifies this`state, this`blocked, this`r, this`w, this`q, this`log, this`overrun, this`failed
      ensures Model() == Enter(user, old(Model()), io)
    {
      hide EnterReply, EnterEnd, EnterIssueFinish, EnterReady, EnterSend, EnterIssueStart, EnterPrepareWritePayload,
           EnterPause;
      match state
      case IssueStart => IssueStart();
      case SendRequest => SendPart(io, State.PrepareWritePayload);
      case PauseSendRequest => PausePart(false);
      case PrepareWritePayload => PrepareWritePayload();
      case SendWritePayload => SendPart(io, State.IssueFinish);
      case PauseWritePayload => PausePart(true);
      case SendWriteShutdown => if io == Flag(true) { SetNextState(State.IssueFinish); } else { blocked := true; }
      case PauseWriteShutdown => if !w.inWriteShutdown { AssertFails(); } else { SetNextState(State.ReplyStart); }
      case IssueFinish => IssueFinish();
    }

    /** The code of the current state. */
    method EnterState(io: Io)
      requires EventOk(Model(), io)
      modifies this`state, this`blocked, this`r, this`w, this`q, this`log, this`overrun, this`failed
      ensures Model() == Enter(user, old(Model()), io)
    {
      hide EnterReply, EnterEnd, EnterIssueFinish, EnterReady, EnterSend, EnterIssueStart, EnterPrepareWritePayload,
           EnterPause;
      if IsReplyState(state) {
        RunReply(io);
      } else if state.Ready? {
        WhenReady(io);
      } else if state.Dead? || state.Closed? {
        End();
      } else {
        EnterSending(io);
      }
    }

    /** Queue a command at the back with the next cookie, if it is accepted. */
    method Enqueue(cmd: Command)
      modifies this`state, this`blocked, this`r, this`w, this`q, this`log, this`overrun, this`failed
      ensures Model() == Queue(old(Model()), cmd)
    {
      if q.disconnecting || q.inFlightCount == 0x7fff_ffff { return; }
      if q.toIssue != [] && state.Ready? { AssertFails(); return; }
      var wake := state.Ready? && q.toIssue == [];
      var cookie := q.unique;
      q := q.(toIssue := q.toIssue + [cmd.(req := cmd.req.(cookie := cookie))], unique := q.unique + 1,
              inFlightCount := q.inFlightCount + 1, disconnecting := cmd.req.kind.Disc?);
      log := log + [Queued(cookie, cmd.req.hasCompletion)];
      if wake { SetNextState(State.IssueStart); }
    }

    /** The body of nbd_aio_command_completed. */
    method TakeResult(cookie: nat) returns (res: int)
      modifies this`state, this`blocked, this`r, this`w, this`q, this`log, this`overrun, this`failed
      ensures (Model(), res) == CommandCompleted(old(Model()), cookie)
    {
      hide Lookup;
      var i := FindCommand(q.done, cookie);
      if cookie < 1 { return -1; }
      if i.None? { return 0; }
      var cmd := q.done[i.value];
      if cmd.req.kind.Disc? { AssertFails(); return 0; }
      var error := cmd.error;
      if cmd.req.kind.Read? && cmd.dataSeen != cmd.req.count && error == 0 { error := EPROTO; }
      q := q.(done := q.done[..i.value] + q.done[i.value + 1..]);
      log := log + [Retired(cookie)] + [Reported(cookie, error == 0)];
      return if error == 0 then 1 else -1;
    }

    // ---- what a program sees ----

    /** The step that led to the present fields is recorded. */
    ghost method Record(l: Label)
      requires IsRun(user, hs, ls) && Fresh(hs[0]) && Enabled(hs[|ls|], l) && Model() == Step(user, hs[|ls|], l)
      modifies this`hs, this`ls
      ensures Valid() && hs == old(hs) + [Model()] && ls == old(ls) + [l]
    {
      hide Step, Enabled, Fresh;
      var hs', ls' := Extend(user, hs, ls, l);
      hs, ls := hs', ls';
    }

    /** The machine runs the code of its state.  Whatever the server has sent: with extended
        headers no assertion of the original has failed; if the reads are safe no byte was
        written outside a read buffer; and as long as the connection lasts, what was sent is
        the commands' messages in order, unless a disconnect request was sent again. */
    method Run(io: Io)
      requires Valid() && Enabled(Model(), Label.Run(io))
      modifies this
      ensures Valid() && hs == old(hs) + [Model()] && ls == old(ls) + [Label.Run(io)]
      ensures n.extended ==> !failed
      ensures SafeReads(ls) ==> !overrun
      ensures !Over(Model()) ==> InOrder(Model()) && (SentFits(Model()) <==> !Resent(hs, ls, |ls|))
      ensures Ended(Model()) ==>
        q.toIssue == [] && q.inFlight == [] && forall k: nat :: Tally(TCompletion, log, k) == Tally(TNotify, log, k)
    {
      hide Enter, Fresh, SentFits, InOrder, Resent, SafeReads, IsRun, Over, Ended, Tally;
      EnterState(io);
      Record(Label.Run(io));
      SeenFromOutside();
    }

    /** What holds in every state that a program can see. */
    lemma SeenFromOutside()
      requires Valid()
      ensures |hs| == |ls| + 1
      ensures n.extended ==> !failed
      ensures SafeReads(ls) ==> !overrun
      ensures !Over(Model()) ==> InOrder(Model()) && (SentFits(Model()) <==> !Resent(hs, ls, |ls|))
      ensures Ended(Model()) ==>
        q.toIssue == [] && q.inFlight == [] && forall k: nat :: Tally(TCompletion, log, k) == Tally(TNotify, log, k)
    {
      hide Fresh, Step, SentFits, InOrder, Resent, Over;
      var k := |ls|;
      SameNegotiated(user, hs, ls, k);
      if n.extended { ExtendedNeverFails(user, hs, ls, k); }
      if SafeReads(ls) { NoOverrun(user, hs, ls, k); }
      if !Over(Model()) { SentInOrder(user, hs, ls, k); }
      if Ended(Model()) {
        RunLedger(user, hs, ls, k);
        forall x: nat ensures Tally(TCompletion, log, x) == Tally(TNotify, log, x) { CallbackOnce(user, hs, ls, k, x); }
      }
    }

    /** nbd_aio_notify_read and nbd_aio_notify_write. */
    method Notify(read: bool)
      requires Valid() && Enabled(Model(), Label.Notify(read))
      modifies this
      ensures Valid() && hs == old(hs) + [Model()] && ls == old(ls) + [Label.Notify(read)]
    {
      hide IsRun, Fresh;
      SetNextState(OnNotify(state, read).value);
      Record(Label.Notify(read));
    }

    /** nbd_internal_command_common: the cookie of the queued command, which no other command
        has or had, or -1 if it is refused. */
    method Submit(cmd: Command) returns (cookie: int)
      requires Valid() && Enabled(Model(), Label.Submit(cmd))
      modifies this
      ensures Valid() && hs == old(hs) + [Model()] && ls == old(ls) + [Label.Submit(cmd)] && failed == old(failed)
      ensures cookie == -1 || cookie > 0
      ensures cookie == -1 <==> old(q.disconnecting) || old(q.inFlightCount) == 0x7fff_ffff
      ensures cookie == -1 ==> Model() == old(Model())
      ensures cookie != -1 ==>
        && old(Tally(TQueued, log, cookie)) == 0 && Tally(TQueued, log, cookie) == 1
        && q.toIssue == old(q.toIssue) + [cmd.(req := cmd.req.(cookie := cookie))]
    {
      hide Step, Fresh, Acceptable, Law;
      ghost var k := |ls|;
      NewCookie(user, hs, ls, k);
      SubmitStep(user, Model(), cmd);
      cookie := q.unique;
      var refused := q.disconnecting || q.inFlightCount == 0x7fff_ffff;
      Enqueue(cmd);
      Record(Label.Submit(cmd));
      NewCookie(user, hs, ls, k + 1);
      if refused { cookie := -1; }
    }

    /** nbd_aio_command_completed: 1 and -1 are the one verdict on a command, which is then
        retired.  Success is never reported of a command that got an error chunk or went
        through RESYNC; and if it is reported of a read whose chunks did not overlap and none
        of whose length can wrap around, every byte of its buffer is the byte that one chunk
        brought. */
    method AioCommandCompleted(cookie: nat) returns (res: int)
      requires Valid() && Enabled(Model(), Label.Retire(cookie))
      modifies this
      ensures Valid() && hs == old(hs) + [Model()] && ls == old(ls) + [Label.Retire(cookie)] && !failed
      ensures res == 0 || res == 1 || res == -1
      ensures res == 0 ==> Model() == old(Model())
      ensures cookie == 0 ==> res == -1 && Model() == old(Model())
      ensures cookie > 0 ==> (res == 0 <==> forall i | 0 <= i < |old(q.done)| :: old(q.done)[i].req.cookie != cookie)
      ensures cookie > 0 && res != 0 ==> Settled(old(q.done), cookie, res == 1, q.done)
      ensures res != 0 && cookie > 0 ==> old(Tally(TReported, log, cookie)) == 0 && Tally(TReported, log, cookie) == 1
      ensures res == 1 ==> Flagged(cookie) !in log && Lookup(old(q.done), cookie).Some?
      ensures res == 1 ==> ReadFits(old(q.done)[Lookup(old(q.done), cookie).value])
    {
      hide IsRun, Fresh, Lookup, ReadFits, Tally, CommandCompleted, Settled;
      Verdict(user, hs, ls, cookie);
      res := TakeResult(cookie);
      Record(Label.Retire(cookie));
    }

    /** nbd_aio_peek_command_completed: -1 if every command ever queued has been retired;
        otherwise 0 if none has completed, or a command on which nbd_aio_command_completed has
        a verdict, and whose completion callback came before that of any other such. */
    method AioPeekCommandCompleted() returns (res: int)
      requires Valid() && !failed
      ensures res == -1 <==> forall k: nat | 1 <= k < q.unique :: Tally(TRetired, log, k) == 1
      ensures res == 0 <==> q.done == [] && (q.inFlight != [] || q.toIssue != [])
      ensures res > 0 ==> CommandCompleted(Model(), res).1 != 0
      ensures res > 0 ==>
        forall i | 0 < i < |q.done| && q.done[0].req.hasCompletion && q.done[i].req.hasCompletion ::
          RangBefore(log, res, q.done[i].req.cookie)
    {
      hide Fresh, Step, RangBefore, Tally, CommandCompleted;
      AllRetired(user, hs, ls);
      DoneInOrder(user, hs, ls, |ls|);
      if q.done != [] { return q.done[0].req.cookie; }
      return if q.inFlight != [] || q.toIssue != [] then 0 else -1;
    }
  }

  /** No chunk can write outside the buffer of a read that was queued. */
  predicate SafeReads(ls: seq<Label>)
  {
    forall k | 0 <= k < |ls| :: ls[k].Submit? && ls[k].cmd.req.kind.Read? ==> WriteSafe(ls[k].cmd.req)
  }

  /** If it is a read whose chunks did not overlap, and no chunk of its length can wrap around,
      it is complete. */
  ghost predicate ReadFits(cmd: Command)
  {
    cmd.req.kind.Read? && CountSafe(cmd.req) && Disjoint(cmd.pieces) ==> CompleteRead(cmd)
  }

  /** A done command with the cookie is taken out; it was a success if and only if it has no
      error and, if it is a read, its chunks brought as many bytes as it asked for. */
  ghost predicate Settled(done: seq<Command>, cookie: nat, success: bool, rest: seq<Command>)
  {
    exists i | 0 <= i < |done| && done[i].req.cookie == cookie ::
      && rest == done[..i] + done[i + 1..]
      && (success <==> done[i].error == 0 && (done[i].req.kind.Read? ==> done[i].dataSeen == done[i].req.count))
  }

  lemma VerdictSettled(h: Handle, cookie: nat)
    requires !CommandCompleted(h, cookie).0.failed && !h.failed
    ensures var (g, res) := CommandCompleted(h, cookie);
      && (cookie == 0 ==> res == -1 && g == h)
      && (cookie > 0 ==> (res == 0 <==> forall i | 0 <= i < |h.q.done| :: h.q.done[i].req.cookie != cookie))
      && (cookie > 0 && res != 0 ==> Settled(h.q.done, cookie, res == 1, g.q.done))
  {
  }

  lemma SubmitStep(u: User, h: Handle, cmd: Command)
    requires Enabled(h, Label.Submit(cmd))
    ensures Step(u, h, Label.Submit(cmd)) == Queue(h, cmd)
  {
    hide Queue;
  }

  /** The next cookie is new. */
  lemma NewCookie(u: User, hs: seq<Handle>, ls: seq<Label>, n: nat)
    requires IsRun(u, hs, ls) && Fresh(hs[0]) && n < |hs|
    ensures hs[n].q.unique >= 1
    ensures forall k: nat :: Tally(TQueued, hs[n].log, k) == if 1 <= k < hs[n].q.unique then 1 else 0
    ensures hs[n].state.Ready? && hs[n].blocked ==> hs[n].q.toIssue == []
  {
    hide Tally, Occ, Step, Fresh;
    RunLedger(u, hs, ls, n);
    forall k: nat ensures Tally(TQueued, hs[n].log, k) == if 1 <= k < hs[n].q.unique then 1 else 0 {
      assert Law(hs[n], [], k);
    }
  }

  /** What a verdict means. */
  lemma Verdict(u: User, hs: seq<Handle>, ls: seq<Label>, cookie: nat)
    requires IsRun(u, hs, ls) && Fresh(hs[0]) && Enabled(hs[|ls|], Label.Retire(cookie))
    ensures var h := hs[|ls|]; var (g, res) := CommandCompleted(h, cookie);
      && (res == 0 || res == 1 || res == -1) && !g.failed && (res == 0 ==> g == h)
      && (cookie == 0 ==> res == -1 && g == h)
      && (cookie > 0 ==> (res == 0 <==> forall i | 0 <= i < |h.q.done| :: h.q.done[i].req.cookie != cookie))
      && (cookie > 0 && res != 0 ==> Settled(h.q.done, cookie, res == 1, g.q.done))
      && (res != 0 && cookie > 0 ==> Tally(TReported, h.log, cookie) == 0 && Tally(TReported, g.log, cookie) == 1)
      && (res == 1 ==> Flagged(cookie) !in g.log && Lookup(h.q.done, cookie).Some?)
      && (res == 1 ==> ReadFits(h.q.done[Lookup(h.q.done, cookie).value]))
  {
    hide Step, Fresh, Lookup, Tally, ReadFits, Settled;
    var h := hs[|ls|];
    RunLedger(u, hs, ls, |ls|);
    CommandCompletedLedger(h, cookie);
    if Flagged(cookie) in h.log { FlaggedNeverSucceeds(u, hs, ls, |ls|, cookie); }
    var res := CommandCompleted(h, cookie).1;
    VerdictSettled(h, cookie);
    if res != 0 && cookie > 0 { OnlyVerdict(h, cookie); }
    if res == 1 { ReadComplete(u, hs, ls, cookie); }
  }

  lemma OnlyVerdict(h: Handle, cookie: nat)
    requires Ledger(h) && cookie > 0 && CommandCompleted(h, cookie).1 != 0
    ensures Tally(TReported, h.log, cookie) == 0 && Tally(TReported, CommandCompleted(h, cookie).0.log, cookie) == 1
  {
    hide Tally, Occ, Lookup;
    var i := Lookup(h.q.done, cookie).value;
    assert Law(h, [], cookie);
    OccMember(h.q.done, i, cookie);
    var e := Reported(cookie, CommandCompleted(h, cookie).1 == 1);
    TallyLog(TReported, h.log, Retired(cookie), cookie);
    TallyLog(TReported, h.log + [Retired(cookie)], e, cookie);
  }

  lemma ReadComplete(u: User, hs: seq<Handle>, ls: seq<Label>, cookie: nat)
    requires IsRun(u, hs, ls) && Fresh(hs[0]) && CommandCompleted(hs[|ls|], cookie).1 == 1
    requires Lookup(hs[|ls|].q.done, cookie).Some?
    ensures ReadFits(hs[|ls|].q.done[Lookup(hs[|ls|].q.done, cookie).value])
  {
    hide Step, Fresh, Lookup, CommandCompleted, CompleteRead, Disjoint;
    var i := Lookup(hs[|ls|].q.done, cookie).value;
    var cmd := hs[|ls|].q.done[i];
    if cmd.req.kind.Read? && CountSafe(cmd.req) && Disjoint(cmd.pieces) {
      SuccessfulReadComplete(u, hs, ls, |ls|, cookie, i);
    }
  }

  /** Every command has been retired if and only if the lists are empty; and the first of the
      done queue has its verdict. */
  lemma AllRetired(u: User, hs: seq<Handle>, ls: seq<Label>)
    requires IsRun(u, hs, ls) && Fresh(hs[0])
    ensures var h := hs[|ls|];
      && ((forall k: nat | 1 <= k < h.q.unique :: Tally(TRetired, h.log, k) == 1) <==>
            h.q.toIssue == [] && h.q.inFlight == [] && h.q.done == [])
      && (h.q.done != [] ==> h.q.done[0].req.cookie > 0 && CommandCompleted(h, h.q.done[0].req.cookie).1 != 0)
  {
    hide Tally, Step, Fresh;
    var h := hs[|ls|];
    RunLedger(u, hs, ls, |ls|);
    if h.q.toIssue == [] && h.q.inFlight == [] && h.q.done == [] {
      forall k: nat | 1 <= k < h.q.unique ensures Tally(TRetired, h.log, k) == 1 { assert Law(h, [], k); }
    }
    if h.q.done != [] { InList(h, h.q.done, 0); FirstDone(h); }
    if h.q.inFlight != [] { InList(h, h.q.inFlight, 0); }
    if h.q.toIssue != [] { InList(h, h.q.toIssue, 0); }
  }

  /** A command in a list is not retired. */
  lemma InList(h: Handle, list: seq<Command>, i: nat)
    requires Ledger(h) && (list == h.q.toIssue || list == h.q.inFlight || list == h.q.done) && i < |list|
    ensures 1 <= list[i].req.cookie < h.q.unique && Tally(TRetired, h.log, list[i].req.cookie) == 0
  {
    hide Tally, Occ;
    assert Law(h, [], list[i].req.cookie);
    OccMember(list, i, list[i].req.cookie);
  }

  lemma FirstDone(h: Handle)
    requires Ledger(h) && h.q.done != [] && h.q.done[0].req.cookie > 0
    ensures CommandCompleted(h, h.q.done[0].req.cookie).1 != 0
  {
    hide Laws;
    assert Lookup(h.q.done, h.q.done[0].req.cookie) == Some(0);
  }

  lemma DeliverState(h: Handle, io: Io)
    requires IoOk(h, io) && (io.Got? ==> |io.bytes| <= h.r.rlen)
    ensures io.Got? ==> Deliver(h, io.bytes).state == h.state && Deliver(h, io.bytes).r.rlen == h.r.rlen - |io.bytes|
  {
    hide Current, Fill, FillsOutside;
  }

  lemma {:induction false} AbortKeepsLists(u: User, h: Handle, list: seq<Command>)
    ensures Abort(u, h, list).q == h.q.(done := Abort(u, h, list).q.done)
    decreases |list|
  {
    hide Complete, Leave;
    if list != [] {
      var cmd := list[0];
      var (g, cmd', retire) := Complete(u, h, cmd, if cmd.error != 0 then cmd.error else ENOTCONN);
      AbortKeepsLists(u, Leave(g, cmd'.FailWith(ENOTCONN), retire), list[1..]);
    }
  }
}
