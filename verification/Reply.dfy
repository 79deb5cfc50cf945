/** The REPLY states: one function per state, from the handle to the handle. */
module Reply {
  import opened Bytes
  import opened BlockStatus
  import opened Nbd

  // ---- helpers ----

  /** Only the receiving half and the state have changed. */
  predicate OnlyReceives(h: Handle, g: Handle)
  {
    g == h.(state := g.state, blocked := g.blocked, r := g.r, failed := g.failed)
  }

  /** Set rbuf, rlen and payload_left; a buffer that is set up is empty. */
  function Expect(h: Handle, t: Target, n: nat, left: nat): (g: Handle)
    ensures g == h.(r := g.r)
  {
    h.(r := h.r.(target := t, rlen := n, payloadLeft := left, pay := if t.ToPay? then [] else h.r.pay,
                 aux := if t.ToAux? then [] else h.r.aux))
  }

  /** The resync: labels: throw away what is left of the payload. */
  function SkipRest(h: Handle): Handle { Go(Expect(h, Discard, h.r.payloadLeft, 0), Resync) }

  function StartPreamble(h: Handle): Handle
  {
    h.(r := h.r.(target := ToHdr, hdr := [], rlen := PreambleLen(h), reply := []))
  }

  /** save_reply_state, then READY. */
  function Suspend(h: Handle): (g: Handle)
    ensures OnlyReceives(h, g)
  {
    if h.r.rlen == 0 || h.r.replyState.Some? then Fail(h) else Go(h.(r := h.r.(replyState := Some(h.state))), Ready)
  }

  /** RECV_REPLY after a short read: READY, unless the magic already received is wrong. */
  function SuspendPreamble(h: Handle): (g: Handle)
    ensures OnlyReceives(h, g)
  {
    if h.n.extended && |h.r.hdr| >= 4 && Magic(h) != NBD_EXTENDED_REPLY_MAGIC then Go(h, Dead) else Go(h, Ready)
  }

  /** Only the commands in flight and the log have changed. */
  predicate TouchesInFlight(h: Handle, g: Handle)
  {
    g == h.(q := h.q.(inFlight := g.q.inFlight), log := g.log) && |g.q.inFlight| == |h.q.inFlight|
  }

  /** A callback that reports data or a hole: its failure becomes the command's error. */
  function ChunkCallback(u: User, h: Handle, i: nat, bytes: seq<byte>, offset: nat, status: ChunkStatus, keep: bool)
    : (g: Handle)
    requires i < |h.q.inFlight|
    ensures TouchesInFlight(h, g)
  {
    var cmd := h.q.inFlight[i];
    if !cmd.req.hasChunk then h
    else
      var g := Log(h, ChunkCb(cmd.req.cookie, bytes, offset, status, cmd.error));
      var a := u(g.log);
      if a.ret == -1 && (cmd.error == 0 || !keep) then Put(g, i, cmd.(error := if a.err != 0 then a.err else EPROTO))
      else g
  }

  /** The part of a read buffer that a callback is shown. */
  function Slice(data: seq<byte>, at: nat, len: nat): seq<byte>
  {
    if at + len <= |data| then data[at..at + len] else []
  }

  /** Where a reply state can lead: on to a reply state or back to the top level without
      blocking, or nowhere if an assertion fails. */
  predicate Moves(h: Handle, g: Handle)
  {
    && (IsReplyState(g.state) || g.state.Ready? || g.state.Dead? || g.state.Closed?)
    && (g.blocked ==> g.state == h.state && g.failed)
  }

  /** As above, without touching what is saved of an earlier reply. */
  predicate Acts(h: Handle, g: Handle)
  {
    Moves(h, g) && g.r.replyState == h.r.replyState && (g.failed ==> h.failed || g.blocked)
  }

  // ---- REPLY.START, RECV_REPLY, CHECK_REPLY_MAGIC ----

  function EnterReplyStart(h: Handle, io: Io): (g: Handle)
    requires IoOk(h, io)
    ensures OnlyReceives(h, g)
  {
    if h.r.rlen > 0 then
      if h.r.replyState.Some? then Go(h.(r := h.r.(replyState := None)), h.r.replyState.value) else Go(h, RecvReply)
    else if h.r.replyCmd.Some? then Fail(h)
    else
      var g := StartPreamble(h);
      match io
      case Got(bytes) => Go(Deliver(g, bytes), RecvReply)
      case Again => Block(g)
      case Eof => Go(g, Closed)
      case _ => Go(g, Dead)
  }

  function OnCheckReplyMagic(h: Handle): (g: Handle)
    ensures OnlyReceives(h, g)
    ensures IsReplyState(h.state) && !h.blocked ==> Acts(h, g)
  {
    var found := Lookup(h.q.inFlight, Cookie(h));
    var g := h.(r := h.r.(replyCmd := if found.None? then None else Some(Cookie(h))));
    if Magic(h) == NBD_SIMPLE_REPLY_MAGIC && !h.n.extended then Go(g, SimpleStart)
    else if Magic(h) == NBD_STRUCTURED_REPLY_MAGIC && !h.n.extended then
      if |h.r.hdr| != PreambleLen(h) then Fail(h) else
      Go(g.(r := g.r.(target := ToHdr, rlen := ChunkHeaderLen(h) - PreambleLen(h))), RecvStructuredRemaining)
    else if Magic(h) == NBD_EXTENDED_REPLY_MAGIC && h.n.extended then Go(g, ChunkStart)
    else Go(h, Dead)
  }

  // ---- SIMPLE_REPLY ----

  function OnSimpleStart(h: Handle): (g: Handle)
    ensures IsReplyState(h.state) && !h.blocked ==> Acts(h, g)
  {
    match Current(h)
    case None => if SimpleError(h) != 0 || h.n.structured then Go(h, FinishCommand) else Go(h, Dead)
    case Some(i) =>
      var cmd := h.q.inFlight[i];
      var error := ErrnoOf(SimpleError(h));
      var cmd1 := if cmd.req.kind.Read? && h.n.structured then cmd.FailWith(EPROTO) else cmd;
      var cmd2 := cmd1.FailWith(error);
      if error == 0 && cmd.req.kind.Read? then
        var cmd3 := cmd2.(dataSeen := (cmd2.dataSeen + cmd.req.count) % U32,
                          pieces := cmd2.pieces + [Piece(0, cmd.req.count, [], false)]);
        Go(Expect(Put(h, i, cmd3), ToData, cmd.req.count, h.r.payloadLeft), RecvReadPayload)
      else Go(Put(h, i, cmd2), FinishCommand)
  }

  function OnRecvReadPayload(u: User, h: Handle): (g: Handle)
    ensures IsReplyState(h.state) && !h.blocked ==> Acts(h, g)
  {
    match Current(h)
    case None => Fail(h)
    case Some(i) =>
      var cmd := h.q.inFlight[i];
      Go(ChunkCallback(u, h, i, cmd.data, cmd.req.offset, DataChunk, false), FinishCommand)
  }

  // ---- CHUNK_REPLY ----

  /** structured_reply_in_bounds, with 64-bit wrap-around. */
  predicate InBounds(offset: nat, length: nat, cmd: Command)
  {
    !(offset < cmd.req.offset || offset >= (cmd.req.offset + cmd.req.count) % U64 ||
      (offset + length) % U64 > (cmd.req.offset + cmd.req.count) % U64)
  }

  /** bs_reply_length_ok. */
  predicate BsLengthOk(t: nat, length: nat)
  {
    var prefix := if t == NBD_REPLY_TYPE_BLOCK_STATUS then 4 else 8;
    var extent := if t == NBD_REPLY_TYPE_BLOCK_STATUS then 8 else 16;
    length >= prefix + extent && (length - prefix) % extent == 0
  }

  /** The tests before payload_left is assigned. */
  predicate EarlyResync(h: Handle)
  {
    match Current(h)
    case None => true
    case Some(i) => !h.n.structured || (h.n.extended && ReplyOffset(h) != h.q.inFlight[i].req.offset)
  }

  function OnChunkStart(h: Handle): (g: Handle)
    ensures IsReplyState(h.state) && !h.blocked ==> Acts(h, g)
  {
    var length := ReplyLength(h);
    if length > MAX_REQUEST_SIZE + 8 then Go(h, Dead)
    else if EarlyResync(h) then SkipRest(h)
    else OnChunkType(h.(r := h.r.(payloadLeft := length)), Current(h).value, length, ReplyType(h))
  }

  function OnChunkType(h: Handle, i: nat, length: nat, t: nat): (g: Handle)
    requires i < |h.q.inFlight| && h.r.payloadLeft == length
    ensures IsReplyState(h.state) && !h.blocked ==> Acts(h, g)
  {
    var cmd := h.q.inFlight[i];
    if t == NBD_REPLY_TYPE_NONE then
      if length != 0 || !LastChunk(h) then SkipRest(h) else Go(h, ChunkFinish)
    else if t == NBD_REPLY_TYPE_OFFSET_DATA then
      if !cmd.req.kind.Read? || length < 8 then SkipRest(h)
      else Go(Expect(h, ToPay, 8, length - 8), RecvOffsetData)
    else if t == NBD_REPLY_TYPE_OFFSET_HOLE then
      if !cmd.req.kind.Read? || length != 12 then SkipRest(h)
      else Go(Expect(h, ToPay, 12, 0), RecvOffsetHole)
    else if t == NBD_REPLY_TYPE_BLOCK_STATUS || t == NBD_REPLY_TYPE_BLOCK_STATUS_EXT then
      if !cmd.req.kind.BlockStatusCmd? || !h.n.metaValid || h.n.contexts == []
         || !BsLengthOk(t, length) then SkipRest(h)
      else
        var wrong := h.n.extended != (t == NBD_REPLY_TYPE_BLOCK_STATUS_EXT);
        var g := if wrong then Put(h, i, cmd.FailWith(EPROTO)) else h;
        Go(Expect(g, ToPay, if t == NBD_REPLY_TYPE_BLOCK_STATUS then 4 else 8, length), RecvBsHeader)
    else if IsErrorType(t) && length >= 4 then Go(Expect(h, ToPay, Min(length, 6), length), RecvError)
    else SkipRest(h)
  }

  function OnRecvError(h: Handle): (g: Handle)
    ensures IsReplyState(h.state) && !h.blocked ==> Acts(h, g)
  {
    match Current(h)
    case None => Fail(h)
    case Some(i) =>
      var length := h.r.payloadLeft;
      if length < 4 then Fail(h)
      else
        var g := h.(r := h.r.(payloadLeft := length - Min(length, 6)));
        var msglen := Field(h.r.pay, 4, 6);
        if length < 6 || msglen > g.r.payloadLeft || msglen > NBD_MAX_STRING then
          SkipRest(Put(g, i, h.q.inFlight[i].FailWith(ErrnoOf(Field(h.r.pay, 0, 4)))))
        else Go(Expect(g, ToAux, msglen, g.r.payloadLeft - msglen), RecvErrorMessage)
  }

  function OnRecvErrorMessage(h: Handle): (g: Handle)
    ensures OnlyReceives(h, g)
    ensures IsReplyState(h.state) && !h.blocked ==> Acts(h, g)
  {
    var t := if ReplyType(h) == NBD_REPLY_TYPE_ERROR_OFFSET && h.r.payloadLeft == 8 then ToAux else Discard;
    Go(Expect(h, t, h.r.payloadLeft, 0), RecvErrorTail)
  }

  /** The command gets an error, if it has none, and is marked as flagged. */
  function FlagCmd(h: Handle, i: nat, error: nat): (g: Handle)
    requires i < |h.q.inFlight|
    ensures TouchesInFlight(h, g)
  {
    Log(Put(h, i, h.q.inFlight[i].FailWith(error)), Flagged(h.q.inFlight[i].req.cookie))
  }

  /** Tell the chunk callback about an error with an offset. */
  function ErrorCallback(u: User, h: Handle, i: nat, offset: nat, error: nat): (g: Handle)
    requires i < |h.q.inFlight|
    ensures TouchesInFlight(h, g)
  {
    var cmd := h.q.inFlight[i];
    var g := Log(h, ChunkCb(cmd.req.cookie, [], offset, ErrorChunk, error));
    var a := u(g.log);
    if a.ret == -1 then Put(g, i, cmd.FailWith(a.err)) else g
  }

  function OnRecvErrorTail(u: User, h: Handle): (g: Handle)
    ensures IsReplyState(h.state) && !h.blocked ==> Acts(h, g)
  {
    match Current(h)
    case None => Fail(h)
    case Some(i) =>
      var cmd := h.q.inFlight[i];
      var raw := ErrnoOf(Field(h.r.pay, 0, 4));
      var error := if raw == 0 then EPROTO else raw;
      var offset := Field(h.r.aux, 0, 8);
      var g :=
        if ReplyType(h) == NBD_REPLY_TYPE_ERROR_OFFSET && h.r.target.ToAux? && InBounds(offset, 0, cmd)
           && cmd.req.kind.Read? && cmd.req.hasChunk then ErrorCallback(u, h, i, offset, error)
        else h;
      Go(FlagCmd(g, i, error), ChunkFinish)
  }

  /** data_seen grows only until it exceeds the count. */
  function Seen(cmd: Command, n: nat): nat
  {
    if cmd.dataSeen <= cmd.req.count then (cmd.dataSeen + n) % U32 else cmd.dataSeen
  }

  function OnRecvOffsetData(h: Handle): (g: Handle)
    ensures IsReplyState(h.state) && !h.blocked ==> Acts(h, g)
  {
    match Current(h)
    case None => Fail(h)
    case Some(i) =>
      var cmd := h.q.inFlight[i];
      var offset := Field(h.r.pay, 0, 8);
      if !cmd.req.kind.Read? then Fail(h)
      else if !InBounds(offset, h.r.payloadLeft, cmd) then Go(h, Dead)
      else
        var cmd' := cmd.(dataSeen := Seen(cmd, h.r.payloadLeft),
                         pieces := cmd.pieces + [Piece(offset - cmd.req.offset, h.r.payloadLeft, [], false)]);
        Go(Expect(Put(h, i, cmd'), ToData, h.r.payloadLeft, h.r.payloadLeft), RecvOffsetDataData)
  }

  function OnRecvOffsetDataData(u: User, h: Handle): (g: Handle)
    ensures IsReplyState(h.state) && !h.blocked ==> Acts(h, g)
  {
    match Current(h)
    case None => Fail(h)
    case Some(i) =>
      var cmd := h.q.inFlight[i];
      var offset := Field(h.r.pay, 0, 8);
      var at := if offset >= cmd.req.offset then offset - cmd.req.offset else 0;
      var g := ChunkCallback(u, h, i, Slice(cmd.data, at, h.r.payloadLeft), offset, DataChunk, true);
      Go(g.(r := g.r.(payloadLeft := 0)), ChunkFinish)
  }

  function OnRecvOffsetHole(u: User, h: Handle): (g: Handle)
    ensures IsReplyState(h.state) && !h.blocked ==> Acts(h, g)
  {
    match Current(h)
    case None => Fail(h)
    case Some(i) =>
      var cmd := h.q.inFlight[i];
      var offset, length := Field(h.r.pay, 0, 8), Field(h.r.pay, 8, 12);
      if !cmd.req.kind.Read? then Fail(h)
      else if !InBounds(offset, length, cmd) then Go(h, Dead)
      else
        var at := offset - cmd.req.offset;
        var data := if cmd.req.initialized then cmd.data else Overlay(cmd.data, at, Zeros(length));
        var cmd' := cmd.(dataSeen := Seen(cmd, length), data := data,
                         pieces := cmd.pieces + [Piece(at, length, [], true)]);
        var g := Put(h, i, cmd').(overrun := h.overrun || (!cmd.req.initialized && at + length > |cmd.data|));
        Go(ChunkCallback(u, g, i, Slice(data, at, length), offset, HoleChunk, true), ChunkFinish)
  }

  function OnRecvBsHeader(h: Handle): (g: Handle)
    ensures OnlyReceives(h, g)
    ensures IsReplyState(h.state) && !h.blocked ==> Acts(h, g)
  {
    match Current(h)
    case None => Fail(h)
    case Some(i) =>
      var t := ReplyType(h);
      if !h.q.inFlight[i].req.kind.BlockStatusCmd? || !BsLengthOk(t, h.r.payloadLeft) then Fail(h)
      else
        var narrow := t == NBD_REPLY_TYPE_BLOCK_STATUS;
        var left := h.r.payloadLeft - if narrow then 4 else 8;
        var g := h.(r := h.r.(payloadLeft := left, bsCount := left / if narrow then 8 else 16));
        if !narrow && g.r.bsCount != Field(h.r.pay, 4, 8) then SkipRest(g)
        else Go(Expect(g, ToAux, left, 0), RecvBsEntries)
  }

  /** The descriptors in bs_raw, from number `i` on. */
  function Descs(raw: seq<byte>, narrow: bool, i: nat, n: nat): (ds: seq<Desc>)
    requires i <= n
    ensures |ds| == n - i
    decreases n - i
  {
    if i == n then []
    else
      var d := if narrow then Desc(Field(raw, 8 * i, 8 * i + 4), Field(raw, 8 * i + 4, 8 * i + 8))
               else Desc(Field(raw, 16 * i, 16 * i + 8), Field(raw, 16 * i + 8, 16 * i + 16));
      [d] + Descs(raw, narrow, i + 1, n)
  }

  /** The position of a context among those negotiated. */
  function Context(ids: seq<nat>, id: nat): (r: Option<nat>)
    ensures r.Some? ==> r.value < |ids|
  {
    if ids == [] then None
    else if ids[0] == id then Some(0)
    else match Context(ids[1..], id)
      case None => None
      case Some(i) => Some(i + 1)
  }

  /** Pass the cooked list on; a failing callback is an error of the command. */
  function ExtentCallback(u: User, h: Handle, i: nat, name: nat, cooked: Cooked): (g: Handle)
    requires i < |h.q.inFlight|
    ensures TouchesInFlight(h, g)
  {
    var cmd := h.q.inFlight[i].(error := cooked.err);
    var g := Log(Put(h, i, cmd), ExtentCb(cmd.req.cookie, name, cmd.req.offset, cooked.list, cooked.err));
    var a := u(g.log);
    if a.ret == -1 then Put(g, i, cmd.FailWith(if a.err != 0 then a.err else EPROTO)) else g
  }

  function OnRecvBsEntries(u: User, h: Handle): (g: Handle)
    ensures IsReplyState(h.state) && !h.blocked ==> Acts(h, g)
  {
    match Current(h)
    case None => Fail(h)
    case Some(i) =>
      var cmd := h.q.inFlight[i];
      if !cmd.req.kind.BlockStatusCmd? || h.r.bsCount == 0 || !h.n.metaValid then Fail(h)
      else
        match Context(h.n.contexts, Field(h.r.pay, 0, 4))
        case None => Go(h, ChunkFinish)
        case Some(name) => Go(ExtentCallback(u, h, i, name, CookedFor(h, cmd)), ChunkFinish)
  }

  /** The server's descriptors, cooked for this command's callback. */
  function CookedFor(h: Handle, cmd: Command): Cooked
  {
    var narrow := ReplyType(h) == NBD_REPLY_TYPE_BLOCK_STATUS;
    var cap := if cmd.req.offset <= h.n.exportsize then h.n.exportsize - cmd.req.offset else 0;
    Cook(Mode(narrow, cmd.req.wide, cap), Descs(h.r.aux, narrow, 0, h.r.bsCount), cmd.error)
  }

  function OnResync(h: Handle): (g: Handle)
    ensures IsReplyState(h.state) && !h.blocked ==> Acts(h, g)
  {
    match Current(h)
    case None => Go(h, FinishCommand)
    case Some(i) => Go(FlagCmd(h, i, EPROTO), ChunkFinish)
  }

  function OnChunkFinish(h: Handle): (g: Handle)
    ensures OnlyReceives(h, g)
    ensures IsReplyState(h.state) && !h.blocked ==> Acts(h, g)
  {
    if h.r.payloadLeft != 0 then Fail(h)
    else if LastChunk(h) then Go(h, FinishCommand)
    else Go(h.(r := h.r.(replyCmd := None)), Ready)
  }

  // ---- FINISH_COMMAND ----

  /** The completion callback, if there is one: its verdict on the command and whether it
      retires it. */
  function Complete(u: User, h: Handle, cmd: Command, error: nat): (r: (Handle, Command, bool))
    ensures r.0 == h.(log := r.0.log) && r.1 == cmd.(error := r.1.error) && (cmd.error != 0 ==> r.1.error != 0)
    ensures cmd.req.kind.Disc? ==> r.2
  {
    if !cmd.req.hasCompletion then (h, cmd, cmd.req.kind.Disc?)
    else
      var g := Log(h, CompletionCb(cmd.req.cookie, error));
      var a := u(g.log);
      (g, if a.ret == -1 && a.err != 0 then cmd.(error := a.err) else cmd, cmd.req.kind.Disc? || a.ret == 1)
  }

  /** A command leaves the in-flight lists: it is retired, or joins the back of the done
      queue. */
  function Leave(h: Handle, cmd: Command, retire: bool): (g: Handle)
    ensures g == h.(q := h.q.(done := g.q.done), log := g.log)
  {
    if retire then Log(h, Retired(cmd.req.cookie)) else h.(q := h.q.(done := h.q.done + [cmd]))
  }

  /** The command at position `i` of the in-flight list completes. */
  function FinishAt(u: User, h: Handle, i: nat): (g: Handle)
    requires i < |h.q.inFlight|
    ensures g == h.(q := g.q, log := g.log)
    ensures g.q == h.q.(inFlight := h.q.inFlight[..i] + h.q.inFlight[i + 1..], done := g.q.done)
  {
    var cmd := h.q.inFlight[i];
    var (k, cmd', retire) := Complete(u, h, cmd, cmd.error);
    Leave(k.(q := k.q.(inFlight := h.q.inFlight[..i] + h.q.inFlight[i + 1..])), cmd', retire)
  }

  function OnFinishCommand(u: User, h: Handle): (g: Handle)
    ensures g.n == h.n && g.w == h.w && g.overrun == h.overrun
    ensures g.q == h.q.(inFlight := g.q.inFlight, done := g.q.done, inFlightCount := g.q.inFlightCount)
    ensures IsReplyState(h.state) && !h.blocked ==> Acts(h, g)
  {
    match Lookup(h.q.inFlight, Cookie(h))
    case None => if h.r.replyCmd.Some? then Fail(h) else Go(h, Ready)
    case Some(i) =>
      if h.r.replyCmd != Some(Cookie(h)) then Fail(h)
      else if h.q.inFlight[i].req.hasCompletion && h.q.inFlight[i].req.kind.Disc? then Fail(h)
      else if h.q.inFlightCount < 1 then Fail(h)
      else
        var k := FinishAt(u, h.(r := h.r.(replyCmd := None)), i);
        Go(k.(q := k.q.(inFlightCount := h.q.inFlightCount - 1)), Ready)
  }

  // ---- one entry of a reply state ----

  /** A state that begins with recv_into_rbuf. */
  predicate IsRecvState(s: State)
  {
    || s.RecvReply? || s.RecvStructuredRemaining? || s.RecvReadPayload? || s.RecvError? || s.RecvErrorMessage?
    || s.RecvErrorTail? || s.RecvOffsetData? || s.RecvOffsetDataData? || s.RecvOffsetHole? || s.RecvBsHeader?
    || s.RecvBsEntries? || s.Resync?
  }

  predicate IsReplyState(s: State)
  {
    || IsRecvState(s) || s.ReplyStart? || s.CheckReplyMagic? || s.SimpleStart? || s.ChunkStart? || s.ChunkFinish?
    || s.FinishCommand?
  }

  /** recv returns between one byte and as many as were asked for. */
  predicate IoOk(h: Handle, io: Io)
  {
    io.Got? ==> 0 < |io.bytes| <= if h.r.rlen > 0 then h.r.rlen else PreambleLen(h)
  }

  /** What a receiving state does once its buffer is full, and what the other states do. */
  function Act(u: User, h: Handle): (g: Handle)
    ensures IsReplyState(h.state) && !h.blocked ==> Acts(h, g)
  {
    match h.state
    case RecvReply => Go(h, CheckReplyMagic)
    case CheckReplyMagic => OnCheckReplyMagic(h)
    case RecvStructuredRemaining => Go(h, ChunkStart)
    case SimpleStart => OnSimpleStart(h)
    case RecvReadPayload => OnRecvReadPayload(u, h)
    case ChunkStart => OnChunkStart(h)
    case RecvError => OnRecvError(h)
    case RecvErrorMessage => OnRecvErrorMessage(h)
    case RecvErrorTail => OnRecvErrorTail(u, h)
    case RecvOffsetData => OnRecvOffsetData(h)
    case RecvOffsetDataData => OnRecvOffsetDataData(u, h)
    case RecvOffsetHole => OnRecvOffsetHole(u, h)
    case RecvBsHeader => OnRecvBsHeader(h)
    case RecvBsEntries => OnRecvBsEntries(u, h)
    case Resync => OnResync(h)
    case ChunkFinish => OnChunkFinish(h)
    case FinishCommand => OnFinishCommand(u, h)
    case _ => h
  }

  /** Too few bytes to go on: back to READY, to resume here. */
  function Pause(h: Handle): (g: Handle)
    ensures OnlyReceives(h, g)
    ensures IsReplyState(h.state) && !h.blocked ==> Moves(h, g)
  {
    if h.state.RecvReply? then SuspendPreamble(h) else Suspend(h)
  }

  function EnterReply(u: User, h: Handle, io: Io): Handle
    requires IoOk(h, io)
  {
    if h.state.ReplyStart? then EnterReplyStart(h, io)
    else if h.state.Resync? && !h.r.target.Discard? then Fail(h)
    else if !IsRecvState(h.state) || h.r.rlen == 0 then Act(u, h)
    else
      match io
      case Got(bytes) =>
        var g := Deliver(h, bytes);
        if g.r.rlen == 0 then Act(u, g) else Pause(g)
      case Again => Pause(h)
      case _ => Go(h, Dead)
  }
}
