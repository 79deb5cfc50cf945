/** What goes out on the wire: whole messages in queue order, whatever is interrupted. */
module EngineSend {
  import opened Bytes
  import opened BlockStatus
  import opened Nbd
  import opened Reply
  import opened Engine
  import opened EngineQuiet
  import opened EngineLedger

  /** The messages of a list of commands, one after the other. */
  function Stream(extended: bool, cmds: seq<Command>): seq<byte>
  {
    if cmds == [] then [] else Stream(extended, cmds[..|cmds| - 1]) + Message(extended, cmds[|cmds| - 1])
  }

  lemma StreamAppend(extended: bool, cmds: seq<Command>, cmd: Command)
    ensures Stream(extended, cmds + [cmd]) == Stream(extended, cmds) + Message(extended, cmd)
  {
    assert (cmds + [cmd])[..|cmds|] == cmds;
  }

  /** How far the head of the queue has been sent. */
  datatype Phase = NotStarted | InHeader | HeaderSent | InPayload | AllSent

  function PhaseOf(h: Handle): Phase
  {
    match h.state
    case SendRequest => InHeader
    case PauseSendRequest => InHeader
    case PrepareWritePayload => HeaderSent
    case SendWritePayload => InPayload
    case PauseWritePayload => InPayload
    case SendWriteShutdown => AllSent
    case PauseWriteShutdown => AllSent
    case IssueFinish => AllSent
    case _ => if h.w.wbuf == [] then NotStarted else if h.w.inWritePayload then InPayload else InHeader
  }

  /** The part of the head's message that is sent or in wbuf. */
  function Committed(h: Handle): seq<byte>
  {
    if h.q.toIssue == [] then []
    else
      var cmd := h.q.toIssue[0];
      match PhaseOf(h)
      case NotStarted => []
      case InHeader => Header(h.n.extended, cmd)
      case HeaderSent => Header(h.n.extended, cmd)
      case InPayload => Header(h.n.extended, cmd) + cmd.data
      case AllSent => Message(h.n.extended, cmd)
  }

  /** Commands leave in the order in which they got their cookies. */
  ghost predicate InOrder(h: Handle)
  {
    && (forall i | 0 <= i < |h.w.issued| :: h.w.issued[i].req.cookie == i + 1)
    && (forall i | 0 <= i < |h.q.toIssue| :: h.q.toIssue[i].req.cookie == |h.w.issued| + 1 + i)
    && h.q.unique == |h.w.issued| + |h.q.toIssue| + 1 && h.q.unique <= INT64_MAX
  }

  predicate Interrupted(s: State) { s.PauseSendRequest? || s.PauseWritePayload? }

  predicate Sendable(extended: bool, cmd: Command)
  {
    (extended || cmd.req.count < U32) && (HasPayload(extended, cmd) ==> |cmd.data| == cmd.req.count)
  }

  /** In every run: the header prepared is that of the head of the queue, wbuf is empty
      between the parts of a message, and nothing is started on an empty queue. */
  predicate Wired(h: Handle)
  {
    && (PhaseOf(h).NotStarted? || (h.q.toIssue != [] && h.w.req == Header(h.n.extended, h.q.toIssue[0])))
    && (PhaseOf(h).NotStarted? || PhaseOf(h).HeaderSent? || PhaseOf(h).AllSent? ==> h.w.wbuf == [])
    && (PhaseOf(h).InHeader? ==> |h.w.wbuf| <= |h.w.req|)
    && (PhaseOf(h).InPayload? ==> HasPayload(h.n.extended, h.q.toIssue[0]) && |h.w.wbuf| <= |h.q.toIssue[0].data|)
    && ((h.state.SendRequest? || h.state.SendWritePayload?) && h.blocked ==> h.w.wbuf != [])
    && (Interrupted(h.state) ==> h.w.wbuf != [])
    && (h.state.IssueStart? ==> h.q.toIssue != [])
    && (h.state.SendWriteShutdown? || h.state.PauseWriteShutdown? ==> h.w.inWriteShutdown)
  }

  /** A disconnect request is the last of the queue, and the write shutdown is its own. */
  ghost predicate LastWords(h: Handle)
  {
    && (forall i | 0 <= i < |h.q.toIssue| && h.q.toIssue[i].req.kind.Disc? ::
          i == |h.q.toIssue| - 1 && h.q.disconnecting)
    && (h.w.inWriteShutdown ==> h.q.disconnecting && |h.q.toIssue| <= 1)
    && (h.w.inWriteShutdown && h.q.toIssue != [] ==> h.q.toIssue[0].req.kind.Disc?)
  }

  /** What the sender keeps in every run. */
  ghost predicate SendSafe(h: Handle)
  {
    && InOrder(h) && Wired(h) && LastWords(h)
    && forall i | 0 <= i < |h.q.toIssue| :: Sendable(h.n.extended, h.q.toIssue[i])
  }

  /** What it keeps besides, until a write shutdown is interrupted: what has been sent, with
      what waits in wbuf, is the messages of the issued commands and the committed part of
      the next one. */
  ghost predicate Exact(h: Handle)
  {
    && h.w.sent + h.w.wbuf == Stream(h.n.extended, h.w.issued) + Committed(h)
    && (h.w.inWriteShutdown && h.q.toIssue != [] ==> h.state.SendWriteShutdown? || h.state.IssueFinish?)
  }

  predicate Over(h: Handle) { h.state.Dead? || h.state.Closed? || h.failed }

  lemma HeaderCookie(extended: bool, cmd: Command)
    requires cmd.req.cookie < U64
    ensures Field(Header(extended, cmd), 8, 16) == cmd.req.cookie
    ensures |Header(extended, cmd)| == if extended then 32 else 28
  {
    var h := Header(extended, cmd);
    assert h[8..16] == BE(cmd.req.cookie, 8);
    Pow256Values();
    ValBE(cmd.req.cookie, 8);
  }

  // ---- every step keeps SendSafe ----

  /** Steps that leave the sender where it is. */
  lemma SendKeeps(h: Handle, g: Handle)
    requires SendSafe(h) && PhaseOf(g) == PhaseOf(h) && g.n == h.n && g.w == h.w
    requires g.q.toIssue == h.q.toIssue && g.q.unique == h.q.unique && g.q.disconnecting == h.q.disconnecting
    requires !(g.state.SendRequest? || g.state.SendWritePayload? || Interrupted(g.state))
    requires g.state.IssueStart? ==> g.q.toIssue != []
    requires g.state.SendWriteShutdown? || g.state.PauseWriteShutdown? ==> h.state.SendWriteShutdown?
    ensures SendSafe(g)
  {
    hide Header, HasPayload, Sendable;
  }

  /** A reply that was suspended was suspended in a receiving state. */
  predicate ResumeOk(h: Handle) { h.r.replyState.Some? ==> IsRecvState(h.r.replyState.value) }

  lemma SendReply(u: User, h: Handle, io: Io)
    requires SendSafe(h) && ResumeOk(h) && EventOk(h, io) && IsReplyState(h.state) && !h.blocked
    ensures var g := EnterReply(u, h, io); Over(g) || SendSafe(g)
    ensures Exact(h) && !Over(EnterReply(u, h, io)) ==> Exact(EnterReply(u, h, io))
  {
    hide SendSafe, Act, Deliver, Pause, EnterReplyStart, AllProgress, QuietLog, OnFinishCommand, Stream, Header,
         Message;
    var g := EnterReply(u, h, io);
    if h.state.FinishCommand? {
      ActFinish(u, h);
    } else {
      EnterReplyQuiet(u, h, io);
    }
    ReplyStays(u, h, io);
    if !Over(g) { SendKeeps(h, g); }
  }

  lemma ReplyStays(u: User, h: Handle, io: Io)
    requires IoOk(h, io) && IsReplyState(h.state) && !h.blocked
             && (h.r.replyState.Some? ==> IsRecvState(h.r.replyState.value))
    ensures var s := EnterReply(u, h, io).state; IsReplyState(s) || s.Ready? || s.Dead? || s.Closed?
  {
    hide Act, Deliver, Pause, PreambleLen;
    if io.Got? && h.r.rlen > 0 {
      DeliverKeeps(h, io.bytes);
    }
  }

  lemma SameOrder(h: Handle, g: Handle)
    requires InOrder(h) && g.w.issued == h.w.issued && g.q.toIssue == h.q.toIssue && g.q.unique == h.q.unique
    ensures InOrder(g)
  {
  }

  lemma StartSafe(h: Handle)
    requires SendSafe(h) && h.state.IssueStart?
    ensures SendSafe(EnterIssueStart(h)) && !(EnterIssueStart(h).failed && !h.failed)
  {
    hide HasPayload, Header, InOrder;
    SameOrder(h, EnterIssueStart(h));
  }

  lemma StartExact(h: Handle)
    requires SendSafe(h) && Exact(h) && h.state.IssueStart?
    ensures Exact(EnterIssueStart(h))
  {
    hide HasPayload, Header, Message, Stream, InOrder, LastWords;
    if h.w.wbuf == [] {
      var st := Stream(h.n.extended, h.w.issued);
      assert h.w.sent + h.w.wbuf == h.w.sent && st + [] == st;
    }
  }

  lemma MoreSafe(h: Handle, io: Io, next: State)
    requires SendSafe(h) && (io.Sent? ==> io.n <= |h.w.wbuf|)
    requires (h.state.SendRequest? && next.PrepareWritePayload?) || (h.state.SendWritePayload? && next.IssueFinish?)
    ensures var g := EnterSend(h, io, next); Over(g) || SendSafe(g)
  {
    hide Sendable, InOrder, Header, HasPayload;
    SameOrder(h, EnterSend(h, io, next));
  }

  lemma MoreExact(h: Handle, io: Io, next: State)
    requires SendSafe(h) && Exact(h) && (io.Sent? ==> io.n <= |h.w.wbuf|)
    requires (h.state.SendRequest? && next.PrepareWritePayload?) || (h.state.SendWritePayload? && next.IssueFinish?)
    ensures var g := EnterSend(h, io, next); Over(g) || Exact(g)
  {
    hide Sendable, InOrder, LastWords, Header, HasPayload, Stream, Committed;
    var g := EnterSend(h, io, next);
    assert g.w.sent + g.w.wbuf == h.w.sent + h.w.wbuf;
    if !Over(g) { MoreCommitted(h, g, next); }
  }

  /** Sending more of a part does not change what is committed. */
  lemma MoreCommitted(h: Handle, g: Handle, next: State)
    requires Wired(h) && g.n == h.n && g.q == h.q && (g.state == h.state || g.state == next)
    requires (h.state.SendRequest? && next.PrepareWritePayload?) || (h.state.SendWritePayload? && next.IssueFinish?)
    ensures Committed(g) == Committed(h)
  {
    hide Header, HasPayload;
  }

  lemma PrepareSafe(h: Handle)
    requires SendSafe(h) && h.state.PrepareWritePayload?
    ensures SendSafe(EnterPrepareWritePayload(h)) && !(EnterPrepareWritePayload(h).failed && !h.failed)
  {
    hide Header, InOrder, HasPayload, Sendable, Field;
    var g := EnterPrepareWritePayload(h);
    HeadCookie(h);
    SameOrder(h, g);
  }

  /** The header prepared carries the cookie of the head of the queue. */
  lemma HeadCookie(h: Handle)
    requires SendSafe(h) && !PhaseOf(h).NotStarted?
    ensures Field(h.w.req, 8, 16) == h.q.toIssue[0].req.cookie
  {
    hide Header, HasPayload, Sendable, Field;
    HeaderCookie(h.n.extended, h.q.toIssue[0]);
  }

  lemma PrepareExact(h: Handle)
    requires SendSafe(h) && Exact(h) && h.state.PrepareWritePayload?
    ensures Exact(EnterPrepareWritePayload(h))
  {
    hide Stream, Header, Field, HasPayload, InOrder, LastWords;
    HeadCookie(h);
    var g := EnterPrepareWritePayload(h);
    var st, hd := Stream(h.n.extended, h.w.issued), Header(h.n.extended, h.q.toIssue[0]);
    if g.state.SendWritePayload? {
      assert h.w.sent + h.w.wbuf == h.w.sent;
      assert (st + hd) + h.q.toIssue[0].data == st + (hd + h.q.toIssue[0].data);
    }
  }

  lemma FinishSafe(h: Handle)
    requires SendSafe(h) && h.state.IssueFinish?
    ensures SendSafe(EnterIssueFinish(h)) && !(EnterIssueFinish(h).failed && !h.failed)
  {
    hide Header, Field, HasPayload, Sendable;
    HeadCookie(h);
  }

  lemma FinishExact(h: Handle)
    requires SendSafe(h) && Exact(h) && h.state.IssueFinish?
    ensures Exact(EnterIssueFinish(h))
  {
    hide Stream, Header, Field, HasPayload, Message, InOrder;
    HeadCookie(h);
    StreamAppend(h.n.extended, h.w.issued, h.q.toIssue[0]);
  }

  lemma QueueSafe(h: Handle, cmd: Command)
    requires SendSafe(h) && h.blocked && Acceptable(h, cmd)
    ensures SendSafe(Queue(h, cmd))
    ensures Exact(h) ==> Exact(Queue(h, cmd))
  {
    hide Stream, Header, InOrder, Wired;
    QueueWired(h, cmd);
    QueueOrder(h, cmd);
  }

  lemma QueueWired(h: Handle, cmd: Command)
    requires Wired(h) && h.blocked
    ensures Wired(Queue(h, cmd)) && Committed(Queue(h, cmd)) == Committed(h)
  {
    hide Wired, Committed;
    WiredFrame(h, Queue(h, cmd));
  }

  lemma WiredFrame(h: Handle, g: Handle)
    requires Wired(h) && h.blocked && g.w == h.w && g.n == h.n && h.q.toIssue <= g.q.toIssue
    requires g.state == h.state || (h.state.Ready? && g.state.IssueStart? && g.q.toIssue != [])
    requires h.q.toIssue == [] && g.q.toIssue != [] ==> g.blocked || h.state.Ready?
    ensures Wired(g) && Committed(g) == Committed(h)
  {
    hide Header, HasPayload, Message;
  }

  lemma QueueOrder(h: Handle, cmd: Command)
    requires InOrder(h) && h.q.unique < INT64_MAX
    ensures InOrder(Queue(h, cmd))
  {
  }

  /** A read notification that interrupts the write shutdown of a disconnect. */
  predicate PausesShutdown(h: Handle, l: Label) { l == Notify(true) && h.state.SendWriteShutdown? }

  lemma NotifySafe(h: Handle, read: bool)
    requires SendSafe(h) && h.blocked && OnNotify(h.state, read).Some?
    ensures SendSafe(Go(h, OnNotify(h.state, read).value))
    ensures Exact(h) && !PausesShutdown(h, Notify(read)) ==> Exact(Go(h, OnNotify(h.state, read).value))
  {
    hide Stream, Header, HasPayload, InOrder, Message, Sendable;
    SameOrder(h, Go(h, OnNotify(h.state, read).value));
  }

  lemma PauseSafe(h: Handle, payload: bool)
    requires SendSafe(h) && (if payload then h.state.PauseWritePayload? else h.state.PauseSendRequest?)
    ensures SendSafe(EnterPause(h, payload)) && !(EnterPause(h, payload).failed && !h.failed)
    ensures Exact(h) ==> Exact(EnterPause(h, payload))
  {
    hide Stream, Header, HasPayload, InOrder, Message, Sendable;
    SameOrder(h, EnterPause(h, payload));
  }

  lemma ShutdownSafe(u: User, h: Handle, io: Io)
    requires SendSafe(h) && EventOk(h, io) && (h.state.SendWriteShutdown? || h.state.PauseWriteShutdown?)
    ensures SendSafe(Enter(u, h, io)) && !(Enter(u, h, io).failed && !h.failed)
    ensures Exact(h) && h.state.SendWriteShutdown? ==> Exact(Enter(u, h, io))
  {
    hide Stream, Header, HasPayload, InOrder, Message, Sendable;
    SameOrder(h, Enter(u, h, io));
  }

  lemma ReadySafe(h: Handle, io: Io)
    requires SendSafe(h) && h.state.Ready?
    ensures SendSafe(EnterReady(h, io)) && EnterReady(h, io).failed == h.failed
    ensures Exact(h) ==> Exact(EnterReady(h, io))
  {
    hide Stream, Header, HasPayload, InOrder, Message, Sendable;
    SameOrder(h, EnterReady(h, io));
  }

  /** Entering any state keeps the sender safe; in the sending states and READY no assertion
      of the original can fail. */
  lemma EnterSafe(u: User, h: Handle, io: Io)
    requires SendSafe(h) && !Over(h) && ResumeOk(h) && !h.blocked && EventOk(h, io)
    ensures var g := Enter(u, h, io);
      (Over(g) || SendSafe(g)) && (Exact(h) && !h.state.PauseWriteShutdown? ==> Over(g) || Exact(g))
    ensures Enter(u, h, io).failed ==> IsReplyState(h.state)
  {
    hide SendSafe, Exact, EnterReply, EnterEnd, EnterIssueFinish, EnterSend, EnterIssueStart, EnterPrepareWritePayload,
         EnterPause, EnterReady;
    match h.state
    case IssueStart => StartSafe(h); if Exact(h) { StartExact(h); }
    case SendRequest =>
      MoreSafe(h, io, PrepareWritePayload);
      if Exact(h) { MoreExact(h, io, PrepareWritePayload); }
      SendNoFail(h, io, PrepareWritePayload);
    case PauseSendRequest => PauseSafe(h, false);
    case PrepareWritePayload => PrepareSafe(h); if Exact(h) { PrepareExact(h); }
    case SendWritePayload =>
      MoreSafe(h, io, IssueFinish);
      if Exact(h) { MoreExact(h, io, IssueFinish); }
      SendNoFail(h, io, IssueFinish);
    case PauseWritePayload => PauseSafe(h, true);
    case SendWriteShutdown => ShutdownSafe(u, h, io);
    case PauseWriteShutdown => ShutdownSafe(u, h, io);
    case IssueFinish => FinishSafe(h); if Exact(h) { FinishExact(h); }
    case Ready => ReadySafe(h, io);
    case _ => SendReply(u, h, io);
  }

  lemma SendNoFail(h: Handle, io: Io, next: State)
    requires io.Sent? ==> io.n <= |h.w.wbuf|
    ensures EnterSend(h, io, next).failed == h.failed
  {
    hide OnlySends;
    if io.Sent? && h.w.wbuf != [] {
      var g := h.(w := h.w.(sent := h.w.sent + h.w.wbuf[..io.n], wbuf := h.w.wbuf[io.n..]));
      assert EnterSend(h, io, next) == if g.w.wbuf == [] then Go(g, next) else Block(g);
    }
  }

  lemma {:induction false} AbortKeeps(u: User, h: Handle, list: seq<Command>)
    ensures var g := Abort(u, h, list);
      g.state == h.state && g.n == h.n && g.w == h.w && g.r == h.r && g.overrun == h.overrun
    decreases |list|
  {
    hide Complete, Leave;
    if list != [] {
      var cmd := list[0];
      var (g, cmd', retire) := Complete(u, h, cmd, if cmd.error != 0 then cmd.error else ENOTCONN);
      AbortKeeps(u, Leave(g, cmd'.FailWith(ENOTCONN), retire), list[1..]);
    }
  }

  lemma EnterEndState(u: User, h: Handle)
    ensures var g := EnterEnd(u, h);
      g.state == h.state && g.n == h.n && g.w == h.w && g.r == h.r && g.overrun == h.overrun && g.blocked
  {
    hide Abort;
    AbortKeeps(u, h.(q := h.q.(toIssue := [])), h.q.toIssue);
    var g := Abort(u, h.(q := h.q.(toIssue := [])), h.q.toIssue);
    AbortKeeps(u, g.(q := g.q.(inFlight := [])), h.q.inFlight);
  }

  lemma RetireSafe(h: Handle, cookie: nat)
    requires SendSafe(h) && h.blocked
    ensures var g := CommandCompleted(h, cookie).0; SendSafe(g) && (Exact(h) ==> Exact(g)) && g.state == h.state
  {
    hide SendSafe, Exact, Lookup;
    RetireFrame(h, CommandCompleted(h, cookie).0);
  }

  lemma RetireFrame(h: Handle, g: Handle)
    requires SendSafe(h) && h.blocked && g.blocked && g.state == h.state && g.n == h.n && g.w == h.w
    requires g.q == h.q.(done := g.q.done)
    ensures SendSafe(g) && (Exact(h) ==> Exact(g))
  {
    hide Stream, Header, HasPayload, Message, Sendable;
  }

  // ---- whole runs ----

  /** What was saved of a reply, and that a failed handle stands still. */
  predicate Steady(h: Handle) { ResumeOk(h) && (h.failed ==> h.blocked) }

  lemma DeliverSteady(h: Handle, bytes: seq<byte>)
    requires |bytes| <= h.r.rlen
    ensures Deliver(h, bytes).r.replyState == h.r.replyState
  {
    hide Current, Fill, FillsOutside;
  }

  lemma ReplySteady(u: User, h: Handle, io: Io)
    requires Steady(h) && !h.blocked && IoOk(h, io) && IsReplyState(h.state)
    ensures Steady(EnterReply(u, h, io))
  {
    hide Act, Deliver, PreambleLen;
    if h.state.ReplyStart? && io.Got? && h.r.rlen == 0 {
      DeliverKeeps(StartPreamble(h), io.bytes);
      DeliverSteady(StartPreamble(h), io.bytes);
    }
    if io.Got? && h.r.rlen > 0 {
      DeliverKeeps(h, io.bytes);
      DeliverSteady(h, io.bytes);
    }
  }

  lemma StepSteady(u: User, h: Handle, l: Label)
    requires Steady(h) && Enabled(h, l)
    ensures Steady(Step(u, h, l))
  {
    hide EnterReply, EnterEnd, CommandCompleted;
    match l
    case Run(io) =>
      if IsReplyState(h.state) {
        ReplySteady(u, h, io);
      } else if h.state.Dead? || h.state.Closed? {
        EnterEndState(u, h);
      }
    case Retire(cookie) => RetireSteady(h, cookie);
    case _ =>
  }

  lemma RetireSteady(h: Handle, cookie: nat)
    requires Steady(h)
    ensures Steady(CommandCompleted(h, cookie).0)
  {
    hide Lookup;
  }

  /** Every step keeps the sender safe, and exact unless it interrupts a write shutdown. */
  lemma StepSend(u: User, h: Handle, l: Label)
    requires Steady(h) && (Over(h) || SendSafe(h)) && Enabled(h, l)
    ensures var g := Step(u, h, l); Over(g) || SendSafe(g)
    ensures (Over(h) || Exact(h)) && !h.state.PauseWriteShutdown? && !PausesShutdown(h, l)
            ==> var g := Step(u, h, l); Over(g) || (Exact(g) && !g.state.PauseWriteShutdown?)
  {
    hide SendSafe, Exact, Enter, Queue, CommandCompleted;
    var g := Step(u, h, l);
    if Over(h) {
      StepOver(u, h, l);
    } else {
      match l
      case Run(io) => EnterSafe(u, h, io); if !h.state.PauseWriteShutdown? { NoShutdownPause(u, h, io); }
      case Notify(read) => NotifySafe(h, read);
      case Submit(cmd) => QueueSafe(h, cmd); QueueState(h, cmd);
      case Retire(cookie) => RetireSafe(h, cookie);
    }
  }

  lemma StepOver(u: User, h: Handle, l: Label)
    requires Steady(h) && Over(h) && Enabled(h, l)
    ensures Over(Step(u, h, l))
  {
    hide EnterEnd, Lookup;
    if l.Run? { EnterEndState(u, h); }
  }

  lemma QueueState(h: Handle, cmd: Command)
    ensures Queue(h, cmd).state == h.state || Queue(h, cmd).state.IssueStart?
  {
  }

  lemma NoShutdownPause(u: User, h: Handle, io: Io)
    requires EventOk(h, io) && !h.blocked && !h.state.PauseWriteShutdown? && ResumeOk(h)
    ensures !Enter(u, h, io).state.PauseWriteShutdown?
  {
    hide EnterReply, EnterEnd, EnterSend, EnterIssueStart, EnterPrepareWritePayload, EnterPause, EnterReady;
    if IsReplyState(h.state) { ReplyStays(u, h, io); }
    EnterEndState(u, h);
  }

  lemma FreshSend(h: Handle)
    requires Fresh(h)
    ensures Steady(h) && SendSafe(h) && Exact(h)
  {
  }

  /** In every reachable state of a connection that lasts, the sender is safe. */
  lemma {:induction false} RunSend(u: User, hs: seq<Handle>, ls: seq<Label>, n: nat)
    requires IsRun(u, hs, ls) && Fresh(hs[0]) && n < |hs|
    ensures Steady(hs[n]) && (Over(hs[n]) || SendSafe(hs[n]))
  {
    hide Steady, SendSafe, Step, Fresh;
    if n == 0 {
      FreshSend(hs[0]);
    } else {
      RunSend(u, hs, ls, n - 1);
      StepSteady(u, hs[n - 1], ls[n - 1]);
      StepSend(u, hs[n - 1], ls[n - 1]);
    }
  }

  lemma {:induction false} RunExact(u: User, hs: seq<Handle>, ls: seq<Label>, n: nat)
    requires IsRun(u, hs, ls) && Fresh(hs[0]) && n < |hs|
    requires forall k | 0 <= k < n :: !PausesShutdown(hs[k], ls[k])
    ensures Over(hs[n]) || (Exact(hs[n]) && !hs[n].state.PauseWriteShutdown?)
  {
    hide Steady, SendSafe, Step, Exact, Fresh;
    if n == 0 {
      FreshSend(hs[0]);
      assert hs[0].state.Ready? by { FreshReady(hs[0]); }
    } else {
      RunSend(u, hs, ls, n - 1);
      RunExact(u, hs, ls, n - 1);
      if Over(hs[n - 1]) { StepOver(u, hs[n - 1], ls[n - 1]); } else { StepSend(u, hs[n - 1], ls[n - 1]); }
    }
  }

  lemma FreshReady(h: Handle)
    requires Fresh(h)
    ensures h.state.Ready?
  {
  }

  /** What is still to be sent of the current part of a message of which `p` has gone out. */
  predicate Remainder(h: Handle, p: seq<byte>)
    requires h.q.toIssue != []
  {
    var cmd := h.q.toIssue[0];
    var hd := Header(h.n.extended, cmd);
    if |p| <= |hd| && h.w.wbuf != [] && !PhaseOf(h).InPayload? then p + h.w.wbuf == hd
    else if h.w.wbuf != [] then HasPayload(h.n.extended, cmd) && hd <= p && p + h.w.wbuf == hd + cmd.data
    else p == [] || p == hd || p == Message(h.n.extended, cmd)
  }

  /** The bytes sent are the whole messages of the commands issued, followed by a prefix of
      the message of the head of the queue, and wbuf is the rest of its current part. */
  predicate SentFits(h: Handle)
  {
    var st := Stream(h.n.extended, h.w.issued);
    && st <= h.w.sent
    && (h.q.toIssue == [] ==> h.w.sent == st && h.w.wbuf == [])
    && (h.q.toIssue != [] ==>
          h.w.sent[|st|..] <= Message(h.n.extended, h.q.toIssue[0]) && Remainder(h, h.w.sent[|st|..]))
  }

  lemma SentSplit(h: Handle)
    requires Wired(h) && Exact(h)
    ensures SentFits(h)
  {
    hide Stream, Header, HasPayload;
    var st := Stream(h.n.extended, h.w.issued);
    var c := Committed(h);
    if h.q.toIssue == [] {
      assert h.w.sent == h.w.sent + h.w.wbuf == st + [] == st;
    } else {
      CommittedSplit(h.w.sent, h.w.wbuf, st, c);
    }
  }

  lemma CommittedSplit(sent: seq<byte>, wbuf: seq<byte>, st: seq<byte>, c: seq<byte>)
    requires sent + wbuf == st + c && |wbuf| <= |c|
    ensures st <= sent && sent[|st|..] + wbuf == c && sent[|st|..] <= c
  {
    assert |sent| >= |st|;
    assert sent == (st + c)[..|sent|];
    assert sent[|st|..] == c[..|sent| - |st|];
    assert wbuf == (st + c)[|sent|..];
  }
}
