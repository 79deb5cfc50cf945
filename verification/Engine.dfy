/** Sending commands, the top-level states, the calls a program makes, and runs of the
    whole transmission engine. */
module Engine {
  import opened Bytes
  import opened BlockStatus
  import opened Nbd
  import opened Reply

  // ---- the request on the wire ----

  function Header(extended: bool, cmd: Command): seq<byte>
  {
    BE(if extended then NBD_EXTENDED_REQUEST_MAGIC else NBD_REQUEST_MAGIC, 4) + BE(cmd.req.flags, 2) +
    BE(cmd.req.kind.Code(), 2) + BE(cmd.req.cookie, 8) + BE(cmd.req.offset, 8) +
      BE(cmd.req.count, if extended then 8 else 4)
  }

  predicate HasPayload(extended: bool, cmd: Command)
  {
    cmd.req.kind.Write? ||
    (extended && cmd.req.kind.BlockStatusCmd? && cmd.req.flags / NBD_CMD_FLAG_PAYLOAD_LEN % 2 == 1)
  }

  /** The whole message of a command: its header and, for some, its payload. */
  function Message(extended: bool, cmd: Command): seq<byte>
  {
    Header(extended, cmd) + if HasPayload(extended, cmd) then cmd.data else []
  }

  // ---- ISSUE_COMMAND ----

  /** Only the sending half and the state have changed. */
  predicate OnlySends(h: Handle, g: Handle)
  {
    g == h.(state := g.state, blocked := g.blocked, w := g.w, failed := g.failed)
  }

  /** The rest of ISSUE_COMMAND.START: prepare the header. */
  function PrepareHeader(h: Handle): (g: Handle)
    requires h.q.toIssue != []
    ensures OnlySends(h, g) && (g.state.SendRequest? || g.state == h.state)
  {
    var cmd := h.q.toIssue[0];
    if !h.n.extended && cmd.req.count >= U32 then Fail(h)
    else
      var req := Header(h.n.extended, cmd);
      Go(h.(w := h.w.(req := req, wbuf := req)), SendRequest)
  }

  /** ISSUE_COMMAND.START.  The test of in_write_shutdown does not return, so its choice of
      state is overwritten by what follows it. */
  function EnterIssueStart(h: Handle): (g: Handle)
    ensures OnlySends(h, g) && (g.state.SendRequest? || g.state.SendWritePayload? || g.state == h.state)
  {
    if h.q.toIssue == [] then Fail(h)
    else if !h.w.inWriteShutdown && h.w.wbuf != [] then
      Block(h.(state := if h.w.inWritePayload then SendWritePayload else SendRequest))
    else PrepareHeader(h)
  }

  /** send_from_wbuf, then the state to go on with. */
  function EnterSend(h: Handle, io: Io, next: State): (g: Handle)
    requires io.Sent? ==> io.n <= |h.w.wbuf|
    ensures OnlySends(h, g) && (g.state == h.state || ((g.state == next || g.state.Dead?) && !g.blocked))
  {
    if h.w.wbuf == [] then Go(h, next)
    else
      match io
      case Sent(n) =>
        var g := h.(w := h.w.(sent := h.w.sent + h.w.wbuf[..n], wbuf := h.w.wbuf[n..]));
        if g.w.wbuf == [] then Go(g, next) else Block(g)
      case Error => Go(h, Dead)
      case _ => Block(h)
  }

  function EnterPause(h: Handle, payload: bool): (g: Handle)
    ensures OnlySends(h, g) && (g.state.ReplyStart? || g.state == h.state)
  {
    if h.w.wbuf == [] || h.q.toIssue == [] then Fail(h) else Go(h.(w := h.w.(inWritePayload := payload)), ReplyStart)
  }

  function EnterPrepareWritePayload(h: Handle): (g: Handle)
    ensures OnlySends(h, g)
    ensures g.state.SendWritePayload? || g.state.SendWriteShutdown? || g.state.IssueFinish? || g.state == h.state
  {
    if h.q.toIssue == [] || h.q.toIssue[0].req.cookie != Field(h.w.req, 8, 16) then Fail(h)
    else
      var cmd := h.q.toIssue[0];
      if HasPayload(h.n.extended, cmd) then Go(h.(w := h.w.(wbuf := cmd.data)), SendWritePayload)
      else if cmd.req.kind.Disc? then Go(h.(w := h.w.(inWriteShutdown := true)), SendWriteShutdown)
      else Go(h, IssueFinish)
  }

  /** ISSUE_COMMAND.FINISH: the head of the queue goes to the front of the in-flight list. */
  function EnterIssueFinish(h: Handle): Handle
  {
    if h.w.wbuf != [] || h.q.toIssue == [] || h.q.toIssue[0].req.cookie != Field(h.w.req, 8, 16) then Fail(h)
    else
      var cmd := h.q.toIssue[0];
      Go(h.(q := h.q.(toIssue := h.q.toIssue[1..], inFlight := [cmd] + h.q.inFlight),
            w := h.w.(issued := h.w.issued + [cmd])), Ready)
  }

  // ---- READY, DEAD, CLOSED ----

  function EnterReady(h: Handle, io: Io): (g: Handle)
    ensures OnlySends(h, g) && (g.state.IssueStart? || g.state.ReplyStart? || (g.state == h.state && h.q.toIssue == []))
  {
    if h.q.toIssue != [] then Go(h, IssueStart) else if io == Flag(true) then Go(h, ReplyStart) else Block(h)
  }

  /** nbd_internal_abort_commands on a list that has been detached. */
  function Abort(u: User, h: Handle, list: seq<Command>): Handle
    decreases |list|
  {
    if list == [] then h
    else
      var cmd := list[0];
      if cmd.req.hasCompletion && cmd.req.kind.Disc? then Fail(h)
      else
        var (g, cmd', retire) := Complete(u, h, cmd, if cmd.error != 0 then cmd.error else ENOTCONN);
        Abort(u, Leave(g, cmd'.FailWith(ENOTCONN), retire), list[1..])
  }

  /** DEAD and CLOSED: fail everything that has not completed. */
  function EnterEnd(u: User, h: Handle): Handle
  {
    var g := Abort(u, h.(q := h.q.(toIssue := [])), h.q.toIssue);
    var k := Abort(u, g.(q := g.q.(inFlight := [])), h.q.inFlight);
    Block(k.(q := k.q.(inFlightCount := 0)))
  }

  // ---- the machine ----

  predicate EventOk(h: Handle, io: Io)
  {
    IoOk(h, io) && (io.Sent? ==> io.n <= |h.w.wbuf|)
  }

  /** Run the code of the current state once. */
  function Enter(u: User, h: Handle, io: Io): Handle
    requires EventOk(h, io)
  {
    match h.state
    case Ready => EnterReady(h, io)
    case Dead => EnterEnd(u, h)
    case Closed => EnterEnd(u, h)
    case IssueStart => EnterIssueStart(h)
    case SendRequest => EnterSend(h, io, PrepareWritePayload)
    case PauseSendRequest => EnterPause(h, false)
    case PrepareWritePayload => EnterPrepareWritePayload(h)
    case SendWritePayload => EnterSend(h, io, IssueFinish)
    case PauseWritePayload => EnterPause(h, true)
    case SendWriteShutdown => if io == Flag(true) then Go(h, IssueFinish) else Block(h)
    case PauseWriteShutdown => if !h.w.inWriteShutdown then Fail(h) else Go(h, ReplyStart)
    case IssueFinish => EnterIssueFinish(h)
    case _ => EnterReply(u, h, io)
  }

  /** The state that a read or write notification leads to from a blocked state; None if
      the event is not expected there. */
  function OnNotify(s: State, read: bool): Option<State>
  {
    match s
    case Ready => if read then Some(ReplyStart) else None
    case ReplyStart => if read then Some(ReplyStart) else None
    case SendRequest => Some(if read then PauseSendRequest else SendRequest)
    case SendWritePayload => Some(if read then PauseWritePayload else SendWritePayload)
    case SendWriteShutdown => Some(if read then PauseWriteShutdown else SendWriteShutdown)
    case _ => None
  }

  /** A command as nbd_internal_command_common accepts it; the library chooses the cookie. */
  predicate Acceptable(h: Handle, cmd: Command)
  {
    && cmd.dataSeen == 0 && cmd.error == 0 && cmd.pieces == [] && cmd.req.before == cmd.data
    && cmd.req.flags < U16 && cmd.req.offset < U64 && cmd.req.count < U64 && (h.n.extended || cmd.req.count < U32)
    && (cmd.req.kind.Read? || cmd.req.kind.Write? ==> cmd.req.count <= MAX_REQUEST_SIZE && |cmd.data| == cmd.req.count)
    && (HasPayload(h.n.extended, cmd) ==> |cmd.data| == cmd.req.count)
    && (cmd.req.kind.Read? && cmd.req.initialized ==> AllZero(cmd.data))
    && (cmd.req.kind.Disc? ==> !cmd.req.hasCompletion) && h.q.unique < INT64_MAX
  }

  /** nbd_internal_command_common: queue at the back with the next cookie, and wake the
      machine if it waits in READY; no more commands after a disconnect, or beyond the
      largest count. */
  function Queue(h: Handle, cmd: Command): Handle
  {
    if h.q.disconnecting || h.q.inFlightCount == 0x7fff_ffff then h
    else if h.q.toIssue != [] && h.state.Ready? then Fail(h)
    else
      var g := Log(h.(q := h.q.(toIssue := h.q.toIssue + [cmd.(req := cmd.req.(cookie := h.q.unique))],
                                unique := h.q.unique + 1, inFlightCount := h.q.inFlightCount + 1,
                                disconnecting := cmd.req.kind.Disc?)),
                   Queued(h.q.unique, cmd.req.hasCompletion));
      if h.state.Ready? && h.q.toIssue == [] then Go(g, IssueStart) else g
  }

  /** nbd_aio_command_completed: 1 and -1 retire the command, 0 says "not yet". */
  function CommandCompleted(h: Handle, cookie: nat): (r: (Handle, int))
  {
    match Lookup(h.q.done, cookie)
    case None => (h, if cookie < 1 then -1 else 0)
    case Some(i) =>
      var cmd := h.q.done[i];
      if cookie < 1 then (h, -1)
      else if cmd.req.kind.Disc? then (Fail(h), 0)
      else
        var error := if cmd.req.kind.Read? && cmd.dataSeen != cmd.req.count && cmd.error == 0 then EPROTO
          else cmd.error;
        var g := h.(q := h.q.(done := h.q.done[..i] + h.q.done[i + 1..]));
        (Log(Log(g, Retired(cookie)), Reported(cookie, error == 0)), if error == 0 then 1 else -1)
  }

  /** One step of a run: the machine runs a state, or an event arrives while it waits. */
  datatype Label = Run(io: Io) | Notify(read: bool) | Submit(cmd: Command) | Retire(cookie: nat)

  predicate Enabled(h: Handle, l: Label)
  {
    match l
    case Run(io) => !h.blocked && EventOk(h, io)
    case Notify(read) => h.blocked && !h.failed && OnNotify(h.state, read).Some?
    case Submit(cmd) => h.blocked && !h.failed && !h.state.Dead? && !h.state.Closed? && Acceptable(h, cmd)
    case Retire(_) => h.blocked && !h.failed
  }

  function Step(u: User, h: Handle, l: Label): Handle
    requires Enabled(h, l)
  {
    match l
    case Run(io) => Enter(u, h, io)
    case Notify(read) => Go(h, OnNotify(h.state, read).value)
    case Submit(cmd) => Queue(h, cmd)
    case Retire(cookie) => CommandCompleted(h, cookie).0
  }

  /** A connection that has just become READY. */
  predicate Fresh(h: Handle)
  {
    && h.state.Ready? && h.blocked && h.r.rlen == 0 && h.r.payloadLeft == 0 && h.r.replyCmd.None?
    && h.r.replyState.None?
    && h.w.wbuf == [] && !h.w.inWritePayload && !h.w.inWriteShutdown && !h.q.disconnecting
    && h.q.toIssue == [] && h.q.inFlight == [] && h.q.done == [] && h.q.inFlightCount == 0 && h.q.unique == 1
    && h.w.sent == [] && h.w.issued == [] && h.log == [] && !h.overrun && !h.failed
    && (h.n.extended ==> h.n.structured) && h.n.exportsize < U64
  }

  /** `hs` and `ls` are a run: each handle follows from the one before by its label. */
  predicate IsRun(u: User, hs: seq<Handle>, ls: seq<Label>)
  {
    && |hs| == |ls| + 1
    && forall k {:trigger ls[k]} | 0 <= k < |ls| :: Enabled(hs[k], ls[k]) && hs[k + 1] == Step(u, hs[k], ls[k])
  }

  // ---- building runs ----

  /** A run can be continued by any step that is enabled. */
  lemma Extend(u: User, hs: seq<Handle>, ls: seq<Label>, l: Label) returns (hs': seq<Handle>, ls': seq<Label>)
    requires IsRun(u, hs, ls) && Enabled(hs[|ls|], l)
    ensures IsRun(u, hs', ls') && |hs'| == |ls'| + 1 && hs'[0] == hs[0] && hs'[|ls'|] == Step(u, hs[|ls|], l)
    ensures hs' == hs + [Step(u, hs[|ls|], l)] && ls' == ls + [l]
  {
    hide Step, Enabled;
    hs', ls' := hs + [Step(u, hs[|ls|], l)], ls + [l];
    forall k {:trigger ls'[k]} | 0 <= k < |ls'|
      ensures Enabled(hs'[k], ls'[k]) && hs'[k + 1] == Step(u, hs'[k], ls'[k])
    {
      if k < |ls| { assert Enabled(hs[k], ls[k]) && hs[k + 1] == Step(u, hs[k], ls[k]); }
    }
  }

  lemma NoSteps(u: User, h: Handle)
    ensures IsRun(u, [h], [])
  {
  }

  /** A new connection to a server with structured replies. */
  const NEW: Handle :=
    Handle(Ready, true, Negotiated(false, true, false, [], 0), Receiver(0, Discard, [], [], [], 0, 0, None, None, []),
           Sender([], [], false, false, [], []), Queues([], [], [], 0, 1, false), [], false, false)
}
