/** The outgoing stream in every run: it is right up to the moment when a disconnect request
    whose write shutdown was interrupted is sent a second time, and never again after. */
module EngineResend {
  import opened Bytes
  import opened BlockStatus
  import opened Nbd
  import opened Reply
  import opened Engine
  import opened EngineQuiet
  import opened EngineLedger
  import opened EngineSend

  function HeaderLen(extended: bool): nat { if extended then 32 else 28 }

  lemma HeaderLength(extended: bool, cmd: Command)
    requires cmd.req.cookie <= INT64_MAX
    ensures |Header(extended, cmd)| == HeaderLen(extended)
    ensures cmd.req.kind.Disc? ==> Message(extended, cmd) == Header(extended, cmd)
  {
    hide Header;
    HeaderCookie(extended, cmd);
    assert Header(extended, cmd) + [] == Header(extended, cmd);
  }

  /** A disconnect request is the head of the queue and on its way. */
  predicate Parting(h: Handle)
  {
    |h.q.toIssue| == 1 && h.q.toIssue[0].req.kind.Disc? && h.w.inWriteShutdown
  }

  /** The write shutdown was interrupted: the request has been sent, once. */
  predicate Paused(h: Handle)
  {
    && Parting(h) && h.w.wbuf == []
    && (h.state.PauseWriteShutdown? || IsReplyState(h.state) || h.state.Ready? || h.state.IssueStart?)
    && h.w.sent == Stream(h.n.extended, h.w.issued) + Header(h.n.extended, h.q.toIssue[0])
  }

  /** More has gone out, or will, than the messages of the commands. */
  predicate Surplus(h: Handle)
  {
    var st, hl := Stream(h.n.extended, h.w.issued), HeaderLen(h.n.extended);
    && h.w.inWriteShutdown
    && (h.q.toIssue == [] ==> |h.w.sent| > |st|)
    && (h.q.toIssue != [] ==> Parting(h) && |h.w.sent| >= |st| + hl && |h.w.sent| + |h.w.wbuf| >= |st| + 2 * hl)
  }

  lemma HeadLength(h: Handle)
    requires SendSafe(h) && h.q.toIssue != []
    ensures |Header(h.n.extended, h.q.toIssue[0])| == HeaderLen(h.n.extended)
    ensures h.q.toIssue[0].req.kind.Disc?
            ==> Message(h.n.extended, h.q.toIssue[0]) == Header(h.n.extended, h.q.toIssue[0])
    ensures h.n.extended || h.q.toIssue[0].req.count < U32
  {
    hide Header, Wired, Message;
    HeaderLength(h.n.extended, h.q.toIssue[0]);
  }

  lemma PausedFits(h: Handle)
    requires SendSafe(h) && Paused(h)
    ensures SentFits(h)
  {
    hide SendSafe, Stream, Header, Message;
    HeadLength(h);
    var st, hd := Stream(h.n.extended, h.w.issued), Header(h.n.extended, h.q.toIssue[0]);
    assert (st + hd)[|st|..] == hd;
  }

  lemma SurplusUnfit(h: Handle)
    requires SendSafe(h) && Surplus(h)
    ensures !SentFits(h)
  {
    hide SendSafe, Stream, Header, Message;
    if h.q.toIssue != [] { HeadLength(h); }
  }

  // ---- steps ----

  /** The write shutdown is interrupted. */
  lemma PauseStep(u: User, h: Handle, l: Label)
    requires SendSafe(h) && Exact(h) && PausesShutdown(h, l) && Enabled(h, l)
    ensures Paused(Step(u, h, l))
  {
    hide InOrder, Stream, Header, Message;
    HeadLength(h);
    assert h.w.sent + h.w.wbuf == h.w.sent;
    ShutdownHead(h);
  }

  /** Only a disconnect request shuts writes down. */
  lemma ShutdownHead(h: Handle)
    requires SendSafe(h) && h.state.SendWriteShutdown?
    ensures Parting(h)
  {
    hide InOrder, Header, Sendable;
  }

  /** Steps that neither send nor move the queue. */
  lemma PausedFrame(h: Handle, g: Handle)
    requires Paused(h) && g.n == h.n && g.w == h.w && g.q.toIssue == h.q.toIssue
    requires IsReplyState(g.state) || g.state.Ready? || g.state.IssueStart? || g.state.PauseWriteShutdown?
    ensures Paused(g)
  {
    hide Stream, Header;
  }

  lemma SurplusFrame(h: Handle, g: Handle)
    requires Surplus(h) && g.n == h.n && g.q.toIssue == h.q.toIssue && g.w.inWriteShutdown && g.w.issued == h.w.issued
    requires |g.w.sent| >= |h.w.sent| && |g.w.sent| + |g.w.wbuf| >= |h.w.sent| + |h.w.wbuf|
    ensures Surplus(g)
  {
    hide Stream;
  }

  /** ISSUE_COMMAND.START begins again with a request that has been sent. */
  lemma StartAgain(h: Handle)
    requires SendSafe(h) && h.state.IssueStart? && (Paused(h) || Surplus(h)) && !h.failed
    ensures Surplus(EnterIssueStart(h))
  {
    hide SendSafe, Stream, Header;
    if h.q.toIssue != [] {
      HeadLength(h);
    } else {
      assert false by { StartNonEmpty(h); }
    }
  }

  lemma StartNonEmpty(h: Handle)
    requires SendSafe(h) && h.state.IssueStart?
    ensures h.q.toIssue != []
  {
    hide Header, HasPayload, InOrder, LastWords;
  }

  lemma FinishSurplus(h: Handle)
    requires SendSafe(h) && h.state.IssueFinish? && Surplus(h) && !h.failed && !EnterIssueFinish(h).failed
    ensures Surplus(EnterIssueFinish(h))
  {
    hide SendSafe, Stream, Header, Message, Field;
    HeadLength(h);
    StreamAppend(h.n.extended, h.w.issued, h.q.toIssue[0]);
  }

  /** The reply states leave the sender and the queue alone. */
  lemma ReplyFrame(u: User, h: Handle, io: Io)
    requires IoOk(h, io) && !h.blocked && IsReplyState(h.state) && ResumeOk(h)
    ensures var g := EnterReply(u, h, io);
      && g.n == h.n && g.w == h.w && g.q.toIssue == h.q.toIssue
      && (IsReplyState(g.state) || g.state.Ready? || g.state.Dead? || g.state.Closed?)
  {
    hide Act, Deliver, Pause, EnterReplyStart, AllProgress, QuietLog, OnFinishCommand;
    if h.state.FinishCommand? {
      ActFinish(u, h);
    } else {
      EnterReplyQuiet(u, h, io);
    }
    ReplyStays(u, h, io);
  }

  lemma PausedStep(u: User, h: Handle, l: Label)
    requires SendSafe(h) && Paused(h) && !Over(h) && Steady(h) && Ledger(h) && Enabled(h, l)
    ensures var g := Step(u, h, l); Over(g) || (if h.state.IssueStart? && l.Run? then Surplus(g) else Paused(g))
  {
    hide SendSafe, Ledger, Paused, Surplus, EnterReply, EnterEnd, EnterIssueFinish, EnterSend, EnterIssueStart,
         EnterPrepareWritePayload, EnterPause, Lookup;
    var g := Step(u, h, l);
    assert h.q.disconnecting && h.q.toIssue != [] && h.w.inWriteShutdown by { PausedQueue(h); }
    assert !(h.state.Ready? && h.blocked) by { ReadyEmpty(h); }
    assert h.state.PauseWriteShutdown? || IsReplyState(h.state) || h.state.Ready? || h.state.IssueStart? by {
      PausedState(h);
    }
    if h.state.IssueStart? && l.Run? {
      StartAgain(h);
    } else {
      if l.Run? && IsReplyState(h.state) { ReplyFrame(u, h, l.io); }
      if !Over(g) { PausedFrame(h, g); }
    }
  }

  lemma PausedState(h: Handle)
    requires Paused(h)
    ensures h.state.PauseWriteShutdown? || IsReplyState(h.state) || h.state.Ready? || h.state.IssueStart?
  {
    hide Stream, Header;
  }

  lemma PausedQueue(h: Handle)
    requires SendSafe(h) && (Paused(h) || Surplus(h))
    ensures h.q.disconnecting && h.w.inWriteShutdown && (Paused(h) ==> h.q.toIssue != [])
  {
    hide Stream, Header, InOrder, Wired, Sendable;
  }

  lemma ReadyEmpty(h: Handle)
    requires Ledger(h)
    ensures h.state.Ready? && h.blocked ==> h.q.toIssue == []
  {
    hide Laws;
  }

  lemma SendMore(h: Handle, io: Io, next: State)
    requires io.Sent? ==> io.n <= |h.w.wbuf|
    ensures var g := EnterSend(h, io, next);
      && g.w == h.w.(sent := g.w.sent, wbuf := g.w.wbuf) && |g.w.sent| >= |h.w.sent|
      && |g.w.sent| + |g.w.wbuf| == |h.w.sent| + |h.w.wbuf|
  {
    hide OnlySends;
    if io.Sent? && h.w.wbuf != [] {
      var g := EnterSend(h, io, next);
      assert g.w == h.w.(sent := h.w.sent + h.w.wbuf[..io.n], wbuf := h.w.wbuf[io.n..]);
    }
  }

  /** Preparing the payload of a disconnect request prepares none. */
  lemma PrepareNone(h: Handle)
    requires Surplus(h)
    ensures var g := EnterPrepareWritePayload(h); g.failed || (g.w == h.w && g.q == h.q && g.n == h.n)
  {
    hide Stream, Header, Field;
  }

  lemma EnterSurplus(u: User, h: Handle, io: Io)
    requires SendSafe(h) && Surplus(h) && !Over(h) && Steady(h) && EventOk(h, io) && !h.blocked
    ensures var g := Enter(u, h, io); Over(g) || Surplus(g)
  {
    hide SendSafe, Surplus, EnterReply, EnterEnd, EnterIssueFinish, EnterSend, EnterIssueStart,
         EnterPrepareWritePayload, EnterPause, EnterReady;
    var g := Enter(u, h, io);
    PausedQueue(h);
    if !Over(g) {
      if h.state.IssueStart? {
        StartAgain(h);
      } else if h.state.IssueFinish? {
        FinishSurplus(h);
      } else {
        if IsReplyState(h.state) { ReplyFrame(u, h, io); }
        if h.state.SendRequest? { SendMore(h, io, PrepareWritePayload); }
        if h.state.SendWritePayload? { SendMore(h, io, IssueFinish); }
        if h.state.PrepareWritePayload? { PrepareNone(h); }
        if h.state.PauseSendRequest? || h.state.PauseWritePayload? || h.state.Ready? { OtherFrame(u, h, io); }
        SurplusFrame(h, g);
      }
    }
  }

  lemma OtherFrame(u: User, h: Handle, io: Io)
    requires EventOk(h, io) && (h.state.PauseSendRequest? || h.state.PauseWritePayload? || h.state.Ready?)
    ensures var g := Enter(u, h, io); g.n == h.n && g.q == h.q && g.w == h.w.(inWritePayload := g.w.inWritePayload)
  {
  }

  lemma SurplusStep(u: User, h: Handle, l: Label)
    requires SendSafe(h) && Surplus(h) && !Over(h) && Steady(h) && Enabled(h, l)
    ensures var g := Step(u, h, l); Over(g) || Surplus(g)
  {
    hide SendSafe, Surplus, Enter, Lookup;
    PausedQueue(h);
    if l.Run? { EnterSurplus(u, h, l.io); } else { SurplusFrame(h, Step(u, h, l)); }
  }

  // ---- whole runs ----

  /** A write shutdown has been interrupted before `n`. */
  ghost predicate Broken(hs: seq<Handle>, ls: seq<Label>, n: nat)
    requires n < |hs| == |ls| + 1
  {
    exists j | 0 <= j < n :: PausesShutdown(hs[j], ls[j])
  }

  /** ISSUE_COMMAND.START runs at `k`, after a write shutdown was interrupted. */
  ghost predicate ResendsAt(hs: seq<Handle>, ls: seq<Label>, k: nat)
    requires k < |hs| == |ls| + 1 && k < |ls|
  {
    hs[k].state.IssueStart? && ls[k].Run? && Broken(hs, ls, k)
  }

  ghost predicate Resent(hs: seq<Handle>, ls: seq<Label>, n: nat)
    requires n < |hs| == |ls| + 1
  {
    exists k | 0 <= k < n :: ResendsAt(hs, ls, k)
  }

  lemma {:induction false} RunSurplus(u: User, hs: seq<Handle>, ls: seq<Label>, n: nat)
    requires IsRun(u, hs, ls) && Fresh(hs[0]) && n < |hs| && !Over(hs[n])
    ensures Resent(hs, ls, n) ==> Surplus(hs[n])
    ensures Broken(hs, ls, n) && !Resent(hs, ls, n) ==> Paused(hs[n])
    ensures !Broken(hs, ls, n) ==> Exact(hs[n]) && !Resent(hs, ls, n)
  {
    hide SendSafe, Ledger, Steady, Exact, Surplus, Paused, Step, Fresh, Over;
    if n == 0 {
      FreshSend(hs[0]);
    } else {
      var h, l := hs[n - 1], ls[n - 1];
      assert Enabled(h, l) && hs[n] == Step(u, h, l);
      RunSend(u, hs, ls, n - 1);
      RunLedger(u, hs, ls, n - 1);
      if Over(h) { StepOver(u, h, l); }
      RunSurplus(u, hs, ls, n - 1);
      if Resent(hs, ls, n - 1) {
        SurplusStep(u, h, l);
        var k :| 0 <= k < n - 1 && ResendsAt(hs, ls, k);
        var j :| 0 <= j < k && PausesShutdown(hs[j], ls[j]);
      } else if Broken(hs, ls, n - 1) {
        PausedStep(u, h, l);
        var j :| 0 <= j < n - 1 && PausesShutdown(hs[j], ls[j]);
        if h.state.IssueStart? && l.Run? { assert ResendsAt(hs, ls, n - 1); }
      } else if PausesShutdown(h, l) {
        PauseStep(u, h, l);
      } else {
        RunExact(u, hs, ls, n);
      }
    }
  }

  /** In every run of a connection that lasts, short writes and pauses for replies
      notwithstanding: commands are issued in the order queued, with cookies 1, 2, 3, ...;
      and the bytes sent are the whole messages of those issued followed by a prefix of the
      message of the head of the queue, with wbuf the rest of its current part -- if and only
      if ISSUE_COMMAND.START has not run since a write shutdown was interrupted. */
  lemma SentInOrder(u: User, hs: seq<Handle>, ls: seq<Label>, n: nat)
    requires IsRun(u, hs, ls) && Fresh(hs[0]) && n < |hs| && !Over(hs[n])
    ensures InOrder(hs[n]) && (SentFits(hs[n]) <==> !Resent(hs, ls, n))
  {
    hide InOrder, Step, Fresh, Exact, Paused, Surplus, Resent, Broken, SentFits;
    RunSend(u, hs, ls, n);
    RunSurplus(u, hs, ls, n);
    if Resent(hs, ls, n) {
      SurplusUnfit(hs[n]);
    } else if Broken(hs, ls, n) {
      PausedFits(hs[n]);
    } else {
      SentSplit(hs[n]);
    }
  }

  /** The step that ends the connection sends nothing, and nothing is sent after it. */
  lemma DeadSendsNothing(u: User, h: Handle, l: Label)
    requires Steady(h) && (Over(h) || SendSafe(h)) && Ledger(h) && Enabled(h, l) && Over(Step(u, h, l))
    ensures Step(u, h, l).w == h.w
  {
    hide SendSafe, Ledger, EnterReply, EnterEnd, EnterIssueFinish, EnterSend, EnterIssueStart, EnterPrepareWritePayload,
         EnterPause, EnterReady, Lookup;
    if l.Run? {
      EnterEndState(u, h);
      if !Over(h) {
        EnterSafe(u, h, l.io);
        if IsReplyState(h.state) { ReplyFrame(u, h, l.io); }
        if h.state.SendRequest? { DeadSend(h, l.io, PrepareWritePayload); }
        if h.state.SendWritePayload? { DeadSend(h, l.io, IssueFinish); }
        if h.state.IssueFinish? { FinishState(h); }
      }
    }
  }

  lemma FinishState(h: Handle)
    ensures EnterIssueFinish(h).state.Ready? || EnterIssueFinish(h).state == h.state
  {
    hide Field;
  }

  lemma DeadSend(h: Handle, io: Io, next: State)
    requires (io.Sent? ==> io.n <= |h.w.wbuf|) && !next.Dead? && !next.Closed?
    requires !h.state.Dead? && !h.state.Closed? && !h.failed
    ensures Over(EnterSend(h, io, next)) ==> EnterSend(h, io, next).w == h.w
  {
    hide OnlySends;
    if io.Sent? && h.w.wbuf != [] {
      var g := h.(w := h.w.(sent := h.w.sent + h.w.wbuf[..io.n], wbuf := h.w.wbuf[io.n..]));
      assert EnterSend(h, io, next) == if g.w.wbuf == [] then Go(g, next) else Block(g);
    }
  }

  /** When the connection is over, too, what has gone out is what had gone out when it was last
      alive, for which SentInOrder says what it is. */
  lemma {:induction false} SentInTheEnd(u: User, hs: seq<Handle>, ls: seq<Label>, n: nat) returns (m: nat)
    requires IsRun(u, hs, ls) && Fresh(hs[0]) && n < |hs|
    ensures m <= n && !Over(hs[m]) && hs[n].w == hs[m].w && (forall k | m < k <= n :: Over(hs[k]))
    ensures SentFits(hs[m]) <==> !Resent(hs, ls, m)
  {
    hide SendSafe, Ledger, Steady, Step, SentFits, Resent, InOrder, Over;
    if n == 0 || !Over(hs[n]) {
      m := n;
      if n == 0 { assert !Over(hs[0]) by { FreshLives(hs[0]); } }
      SentInOrder(u, hs, ls, m);
    } else {
      m := SentInTheEnd(u, hs, ls, n - 1);
      RunSend(u, hs, ls, n - 1);
      RunLedger(u, hs, ls, n - 1);
      assert Enabled(hs[n - 1], ls[n - 1]) && hs[n] == Step(u, hs[n - 1], ls[n - 1]);
      DeadSendsNothing(u, hs[n - 1], ls[n - 1]);
    }
  }

  lemma FreshLives(h: Handle)
    requires Fresh(h)
    ensures !Over(h)
  {
  }

  // ---- a run that sends a disconnect request twice ----

  /** A disconnect request, as it is queued and with its cookie. */
  const BYE: Command := Command(Request(Disc, 0, 0, 0, 0, false, false, false, false, []), [], 0, 0, [])
  const BYE1: Command := BYE.(req := BYE.req.(cookie := 1))

  /** The request has been sent, and the shutdown waits. */
  lemma SaysBye(u: User) returns (hs: seq<Handle>, ls: seq<Label>)
    ensures IsRun(u, hs, ls) && |hs| == |ls| + 1 && hs[0] == NEW
    ensures var h := hs[|ls|];
      && h.state.SendWriteShutdown? && h.blocked && !h.failed && h.n == NEW.n && h.r == NEW.r && h.q.toIssue == [BYE1]
      && h.w.sent == Header(false, BYE1) && h.w.wbuf == [] && h.w.inWriteShutdown && h.w.issued == []
  {
    hide IsRun, Header, Field, EnterEnd, EnterReply;
    hs, ls := [NEW], [];
    NoSteps(u, NEW);
    HeaderCookie(false, BYE1);
    assert [] + Header(false, BYE1) == Header(false, BYE1);
    hs, ls := Extend(u, hs, ls, Submit(BYE));
    hs, ls := Extend(u, hs, ls, Run(Again));
    hs, ls := Extend(u, hs, ls, Run(Sent(28)));
    hs, ls := Extend(u, hs, ls, Run(Again));
    hs, ls := Extend(u, hs, ls, Run(Flag(false)));
  }

  /** A byte of a reply interrupts it, and the machine is back in READY. */
  lemma IsInterrupted(u: User) returns (hs: seq<Handle>, ls: seq<Label>)
    ensures IsRun(u, hs, ls) && |hs| == |ls| + 1 && hs[0] == NEW
    ensures var h := hs[|ls|];
      && h.state.Ready? && !h.blocked && !h.failed && h.n == NEW.n && h.q.toIssue == [BYE1]
      && h.w.sent == Header(false, BYE1) && h.w.wbuf == [] && h.w.inWriteShutdown && h.w.issued == []
  {
    hide IsRun, Header, Field, EnterEnd, Act, Acts;
    hs, ls := SaysBye(u);
    hs, ls := Extend(u, hs, ls, Notify(true));
    hs, ls := Extend(u, hs, ls, Run(Again));
    hs, ls := Extend(u, hs, ls, Run(Got([0])));
    hs, ls := Extend(u, hs, ls, Run(Again));
  }

  /** A run in which the write shutdown is interrupted by the first byte of a reply, and the
      disconnect request is sent a second time. */
  lemma InterruptedShutdownResends(u: User) returns (hs: seq<Handle>, ls: seq<Label>)
    ensures IsRun(u, hs, ls) && Fresh(hs[0])
    ensures var h := hs[|ls|];
      && h.q.toIssue == [BYE1] && h.w.issued == [] && h.w.sent == Header(false, BYE1) == h.w.wbuf && !SentFits(h)
  {
    hide IsRun, Header, Field, EnterEnd, EnterReply;
    hs, ls := IsInterrupted(u);
    HeaderCookie(false, BYE1);
    hs, ls := Extend(u, hs, ls, Run(Again));
    hs, ls := Extend(u, hs, ls, Run(Again));
    assert Message(false, BYE1) == Header(false, BYE1) + [] == Header(false, BYE1);
  }
}
