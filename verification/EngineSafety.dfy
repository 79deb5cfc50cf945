/** Whole runs of the parser: replies are consumed whole, and reply_cmd is the right
    command. */
module EngineSafety {
  import opened Bytes
  import opened BlockStatus
  import opened Nbd
  import opened Reply
  import opened Engine
  import opened EngineQuiet
  import opened EngineLedger
  import opened EngineSend
  import opened EngineParser

  // ---- steps outside the reply states ----

  /** A state that is not in the middle of a reply. */
  predicate Outside(s: State) { !IsReplyState(s) || s.ReplyStart? }

  lemma OutsideParse(h: Handle, g: Handle)
    requires Parse(h) && Outside(h.state) && Outside(g.state) && !g.failed
    requires g.n == h.n && g.q.inFlight == h.q.inFlight && g.r == h.r
    ensures Fine(g)
  {
    hide At, Matched;
    SamePos(h, g);
  }

  lemma OtherState(u: User, h: Handle, io: Io)
    requires EventOk(h, io) && !IsReplyState(h.state) && !h.state.Dead? && !h.state.Closed?
    ensures Outside(Enter(u, h, io).state)
  {
    hide EnterReply, EnterEnd, EnterReady, EnterSend, EnterIssueStart, EnterPrepareWritePayload, EnterPause, Field;
  }

  lemma LookupCons(cmd: Command, list: seq<Command>, c: nat)
    ensures var l := Lookup([cmd] + list, c);
      if cmd.req.cookie == c then l == Some(0)
      else l.Some? == Lookup(list, c).Some? && (l.Some? ==> l.value == Lookup(list, c).value + 1)
  {
    assert ([cmd] + list)[1..] == list;
  }

  /** No command is both waiting and in flight. */
  lemma NotInFlight(h: Handle)
    requires Ledger(h) && h.q.toIssue != []
    ensures Lookup(h.q.inFlight, h.q.toIssue[0].req.cookie).None?
  {
    hide Tally;
    var c := h.q.toIssue[0].req.cookie;
    assert Law(h, [], c);
    OccMember(h.q.toIssue, 0, c);
    match Lookup(h.q.inFlight, c)
    case None =>
    case Some(i) => OccMember(h.q.inFlight, i, c);
  }

  lemma IssueFinishParse(h: Handle)
    requires Parse(h) && h.state.IssueFinish? && Ledger(h) && SendSafe(h) && !h.failed
    ensures Fine(EnterIssueFinish(h))
  {
    hide Ledger, SendSafe, Lookup, Field, At, Cookie;
    FinishSafe(h);
    var g := EnterIssueFinish(h);
    if h.q.toIssue != [] {
      NotInFlight(h);
      LookupCons(h.q.toIssue[0], h.q.inFlight, Cookie(h));
      assert Cookie(g) == Cookie(h) by { SameCookie(h, g); }
      assert CurReq(g) == CurReq(h);
      IssueFinishAt(h, g);
    } else {
      SamePos(h, g);
    }
  }

  lemma SameCookie(h: Handle, g: Handle)
    requires g.r.hdr == h.r.hdr
    ensures Cookie(g) == Cookie(h)
  {
    hide Field;
  }

  lemma IssueFinishAt(h: Handle, g: Handle)
    requires At(h) && g.n == h.n && g.r == h.r && CurReq(g) == CurReq(h) && Outside(h.state) && Outside(g.state)
    ensures At(g)
  {
    hide Field, Lookup, EarlyResync, InChunk, ForRead, PayloadDue, SimpleSize, Taken, ReplyLength, ReplyType,
         BsLengthOk, CurReq, Current, BsExtent, BsPrefix, Simple;
    View(h, g);
  }

  lemma EnterParse(u: User, h: Handle, io: Io)
    requires Parse(h) && !Over(h) && Ledger(h) && SendSafe(h) && ResumeOk(h)
    requires !h.blocked && EventOk(h, io) && !(h.state.FinishCommand? && Doomed(h))
    ensures Fine(Enter(u, h, io))
  {
    hide Parse, Doomed, Ledger, SendSafe, Fine, EnterReply, EnterIssueFinish, EnterReady, EnterSend, EnterIssueStart,
         EnterPrepareWritePayload, EnterPause;
    if IsReplyState(h.state) {
      ReplyParse(u, h, io);
    } else if h.state.IssueFinish? {
      IssueFinishParse(h);
    } else {
      EnterSafe(u, h, io);
      EnterOther(u, h, io);
      OtherState(u, h, io);
      OutsideParse(h, Enter(u, h, io));
    }
  }

  lemma QueueParse(h: Handle, cmd: Command)
    requires Parse(h) && Ledger(h) && Enabled(h, Submit(cmd)) && Outside(h.state)
    ensures Fine(Queue(h, cmd))
  {
    hide Parse, Laws, Fine;
    OutsideParse(h, Queue(h, cmd));
  }

  lemma RetireParse(h: Handle, cookie: nat)
    requires Parse(h) && Ledger(h) && !h.failed && h.blocked && Outside(h.state)
    ensures Fine(CommandCompleted(h, cookie).0)
  {
    hide Parse, Ledger, Fine, Lookup;
    CommandCompletedLedger(h, cookie);
    OutsideParse(h, CommandCompleted(h, cookie).0);
  }

  /** A blocked handle that has not failed is not in the middle of a reply state. */
  predicate Waits(h: Handle) { h.blocked ==> h.failed || Outside(h.state) }

  lemma StepWaits(u: User, h: Handle, l: Label)
    requires Waits(h) && Enabled(h, l)
    ensures Waits(Step(u, h, l))
  {
    hide EnterReply, EnterEnd, EnterReady, EnterSend, EnterIssueStart, EnterPrepareWritePayload, EnterPause, Lookup,
         Field;
    if l.Run? {
      if IsReplyState(h.state) { ReplyWaits(u, h, l.io); }
      EnterEndState(u, h);
    }
  }

  lemma ReplyWaits(u: User, h: Handle, io: Io)
    requires IsReplyState(h.state) && !h.blocked && IoOk(h, io)
    ensures Waits(EnterReply(u, h, io))
  {
    hide Act, Pause, Deliver, PreambleLen;
    if h.state.ReplyStart? && io.Got? && h.r.rlen == 0 {
      DeliverKeeps(StartPreamble(h), io.bytes);
    }
    if io.Got? && h.r.rlen > 0 {
      DeliverKeeps(h, io.bytes);
    }
  }

  /** The step of FINISH_COMMAND that runs into its assertion. */
  predicate Breaks(h: Handle) { h.state.FinishCommand? && Doomed(h) }

  /** Every step keeps the parser right and fails no assertion, unless FINISH_COMMAND comes
      upon a command that was unknown when its cookie was read. */
  lemma StepParse(u: User, h: Handle, l: Label)
    requires Parse(h) && !Over(h) && Ledger(h) && SendSafe(h) && Steady(h) && Waits(h) && Enabled(h, l)
    ensures if Breaks(h) then Step(u, h, l) == Fail(h) else Fine(Step(u, h, l))
  {
    hide Parse, Ledger, SendSafe, Fine, Enter, Queue, CommandCompleted, Doomed;
    if Breaks(h) {
      BreakFails(u, h, l);
    } else {
      match l
      case Run(io) => EnterParse(u, h, io);
      case Notify(read) => OutsideParse(h, Step(u, h, l));
      case Submit(cmd) => QueueParse(h, cmd);
      case Retire(cookie) => RetireParse(h, cookie);
    }
  }

  lemma BreakFails(u: User, h: Handle, l: Label)
    requires Parse(h) && !Over(h) && Ledger(h) && Waits(h) && Enabled(h, l) && Breaks(h)
    ensures Step(u, h, l) == Fail(h)
  {
    hide Parse, Ledger, OnFinishCommand, Doomed;
    FinishParse(u, h);
    ActFinish(u, h);
  }

  lemma EndParse(u: User, h: Handle, l: Label)
    requires (h.state.Dead? || h.state.Closed?) && !h.failed && Ledger(h) && Enabled(h, l)
    ensures Fine(Step(u, h, l))
  {
    hide Parse, Ledger, EnterEnd, CommandCompleted;
    match l
    case Run(io) => EnterEndLedger(u, h); EnterEndState(u, h);
    case Retire(cookie) => CommandCompletedLedger(h, cookie); RetireState(h, cookie);
    case _ =>
  }

  lemma RetireState(h: Handle, cookie: nat)
    ensures CommandCompleted(h, cookie).0.state == h.state
  {
    hide Lookup;
  }

  lemma FreshParse(h: Handle)
    requires Fresh(h)
    ensures Fine(h) && Waits(h)
  {
    hide Lookup, Cookie;
  }

  lemma {:induction false} RunWaits(u: User, hs: seq<Handle>, ls: seq<Label>, n: nat)
    requires IsRun(u, hs, ls) && Fresh(hs[0]) && n < |hs|
    ensures Waits(hs[n])
  {
    hide Waits, Step, Fresh;
    if n == 0 {
      FreshParse(hs[0]);
    } else {
      RunWaits(u, hs, ls, n - 1);
      StepWaits(u, hs[n - 1], ls[n - 1]);
    }
  }

  /** In every run the parser is always where its state says. */
  lemma {:induction false} RunParse(u: User, hs: seq<Handle>, ls: seq<Label>, n: nat)
    requires IsRun(u, hs, ls) && Fresh(hs[0]) && n < |hs|
    ensures Sound(hs[n])
  {
    hide Sound, Ledger, SendSafe, Steady, Waits, Step, Fresh;
    if n == 0 {
      FreshParse(hs[0]);
    } else {
      RunParse(u, hs, ls, n - 1);
      RunLedger(u, hs, ls, n - 1);
      RunSend(u, hs, ls, n - 1);
      RunWaits(u, hs, ls, n - 1);
      SoundStep(u, hs[n - 1], ls[n - 1]);
    }
  }

  lemma FailParse(h: Handle)
    requires Parse(h)
    ensures Parse(Fail(h))
  {
    hide At, Matched;
    SamePos(h, Fail(h));
  }

  lemma SoundStep(u: User, h: Handle, l: Label)
    requires Sound(h) && Ledger(h) && (Over(h) || SendSafe(h)) && Steady(h) && Waits(h) && Enabled(h, l)
    ensures var g := Step(u, h, l); !h.failed && Sound(g) && (if Breaks(h) then g == Fail(h) else !g.failed)
  {
    hide Parse, Ledger, SendSafe, Waits, Step, Doomed;
    if Parse(h) { FailParse(h); }
    if h.state.Dead? || h.state.Closed? {
      EndParse(u, h, l);
    } else {
      StepParse(u, h, l);
    }
  }

  /** At the end of every chunk, on every path: payload_left is 0, a non-NULL reply_cmd is
      the in-flight command with the header's cookie, and exactly the header and `length`
      payload bytes have been consumed -- if and only if the header was not refused before
      payload_left was set, or the chunk had no payload. */
  lemma ChunkConsumed(u: User, hs: seq<Handle>, ls: seq<Label>, n: nat)
    requires IsRun(u, hs, ls) && Fresh(hs[0]) && n < |hs|
    requires hs[n].state.ChunkFinish? || (hs[n].state.FinishCommand? && !Simple(hs[n]))
    ensures var h := hs[n];
      && h.r.payloadLeft == 0 && h.r.rlen == 0
      && (|h.r.reply| == ChunkHeaderLen(h) + ReplyLength(h) <==> !EarlyResync(h) || ReplyLength(h) == 0)
      && (h.r.replyCmd.Some? ==>
            Current(h).Some? && h.q.inFlight[Current(h).value].req.cookie == Cookie(h) == h.r.replyCmd.value)
  {
    hide IsRun, Fresh, EarlyResync, ReplyLength, Field, Simple;
    RunParse(u, hs, ls, n);
  }

  /** While a reply is being received, also across suspensions, a non-NULL reply_cmd is the
      in-flight command with the header's cookie. */
  lemma ReplyCmdMatches(u: User, hs: seq<Handle>, ls: seq<Label>, n: nat)
    requires IsRun(u, hs, ls) && Fresh(hs[0]) && n < |hs| && hs[n].r.replyCmd.Some?
    requires !hs[n].state.Dead? && !hs[n].state.Closed?
    ensures var h := hs[n];
      Current(h).Some? && h.q.inFlight[Current(h).value].req.cookie == Cookie(h) == h.r.replyCmd.value
  {
    hide IsRun, Fresh, Field, At;
    RunParse(u, hs, ls, n);
  }
}
