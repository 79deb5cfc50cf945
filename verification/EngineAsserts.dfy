/** Exactly when an assertion of the original fails: a server that answers a request before
    all of it has been sent can bring that about, and nothing else can. */
module EngineAsserts {
  import opened Bytes
  import opened BlockStatus
  import opened Nbd
  import opened Reply
  import opened Engine
  import opened EngineQuiet
  import opened EngineLedger
  import opened EngineSend
  import opened EngineParser
  import opened EngineSafety

  /** The server has replied to a request that has not been sent to its end: the reply is
      suspended after its cookie was looked up in vain, and now the command with that
      cookie joins the list. */
  predicate Foretold(h: Handle, l: Label)
  {
    && l.Run? && h.state.IssueFinish? && h.r.replyState.Some? && h.r.replyCmd.None?
    && h.q.toIssue != [] && h.q.toIssue[0].req.cookie == Cookie(h)
  }

  // ---- what the reply states do to the header and to reply_cmd ----

  lemma HeaderHdr(u: User, h: Handle)
    requires h.state.RecvReply? || h.state.CheckReplyMagic? || h.state.RecvStructuredRemaining?
             || h.state.RecvErrorMessage?
             || h.state.RecvBsHeader? || h.state.ChunkFinish?
    ensures var g := Act(u, h); g.r.hdr == h.r.hdr && g.q.inFlight == h.q.inFlight
    ensures h.state.CheckReplyMagic? || h.state.ChunkFinish? || Act(u, h).r.replyCmd == h.r.replyCmd
  {
    hide Acts, Field, Current, Lookup, OnSimpleStart, OnChunkStart, OnRecvError, OnRecvErrorTail, OnRecvBsEntries,
         OnRecvOffsetData, OnRecvOffsetHole, OnResync, OnFinishCommand, OnRecvReadPayload, OnRecvOffsetDataData,
         BsLengthOk, Magic;
  }

  lemma ChunkStartHdr(h: Handle)
    ensures var g := OnChunkStart(h); g.r.hdr == h.r.hdr && g.r.replyCmd == h.r.replyCmd
  {
    hide Acts, OnChunkType, ReplyLength, Current, ReplyOffset, ReplyType;
    if !EarlyResync(h) {
      ChunkTypeHdr(h.(r := h.r.(payloadLeft := ReplyLength(h))), Current(h).value, ReplyLength(h), ReplyType(h));
    }
  }

  lemma ChunkTypeHdr(h: Handle, i: nat, length: nat, t: nat)
    requires i < |h.q.inFlight| && h.r.payloadLeft == length
    ensures var g := OnChunkType(h, i, length, t); g.r.hdr == h.r.hdr && g.r.replyCmd == h.r.replyCmd
  {
    hide OnChunkType;
    if t <= NBD_REPLY_TYPE_OFFSET_HOLE { LowTypeHdr(h, i, length, t); } else { HighTypeHdr(h, i, length, t); }
  }

  lemma LowTypeHdr(h: Handle, i: nat, length: nat, t: nat)
    requires i < |h.q.inFlight| && h.r.payloadLeft == length && t <= NBD_REPLY_TYPE_OFFSET_HOLE
    ensures var g := OnChunkType(h, i, length, t); g.r.hdr == h.r.hdr && g.r.replyCmd == h.r.replyCmd
  {
    hide Acts, BsLengthOk, IsErrorType, LastChunk;
  }

  lemma HighTypeHdr(h: Handle, i: nat, length: nat, t: nat)
    requires i < |h.q.inFlight| && h.r.payloadLeft == length && t > NBD_REPLY_TYPE_OFFSET_HOLE
    ensures var g := OnChunkType(h, i, length, t); g.r.hdr == h.r.hdr && g.r.replyCmd == h.r.replyCmd
  {
    hide Acts, BsLengthOk, IsErrorType, LastChunk;
  }

  lemma BodyHdr(u: User, h: Handle)
    requires h.state.SimpleStart? || h.state.RecvError?
    ensures var g := Act(u, h); g.r.hdr == h.r.hdr && g.r.replyCmd == h.r.replyCmd
  {
    hide Acts, Field, Current, Lookup, OnChunkStart, OnRecvErrorTail, OnRecvBsEntries, OnRecvOffsetHole,
         OnRecvReadPayload, OnRecvOffsetDataData, OnRecvOffsetData, OnResync, FlagCmd, SimpleError, ErrnoOf,
         OnFinishCommand;
  }

  lemma LateHdr(u: User, h: Handle)
    requires h.state.RecvOffsetData? || h.state.Resync?
    ensures var g := Act(u, h); g.r.hdr == h.r.hdr && g.r.replyCmd == h.r.replyCmd
  {
    hide Acts, Field, Current, Lookup, OnChunkStart, OnRecvErrorTail, OnRecvBsEntries, OnRecvOffsetHole,
         OnRecvReadPayload, OnRecvOffsetDataData, OnSimpleStart, OnRecvError, InBounds, Seen, FlagCmd, OnFinishCommand;
  }

  lemma CallbackHdr(u: User, h: Handle)
    requires h.state.RecvReadPayload? || h.state.RecvErrorTail? || h.state.RecvOffsetDataData?
             || h.state.RecvOffsetHole?
             || h.state.RecvBsEntries?
    ensures var g := Act(u, h); g.r.hdr == h.r.hdr && g.r.replyCmd == h.r.replyCmd
  {
    hide Acts, Field, Current, Lookup, OnChunkStart, OnSimpleStart, OnRecvError, OnRecvOffsetData, OnResync,
         OnFinishCommand, InBounds, Seen, FlagCmd, ErrorCallback, ChunkCallback, ExtentCallback, CookedFor, Context,
         Slice, Overlay, ErrnoOf, ReplyType;
  }

  /** Only three states touch reply_cmd, and none of them the header. */
  lemma ActHdr(u: User, h: Handle)
    requires IsReplyState(h.state) && !h.state.ReplyStart? && !h.state.FinishCommand?
    ensures Act(u, h).r.hdr == h.r.hdr
    ensures h.state.CheckReplyMagic? || h.state.ChunkFinish? || Act(u, h).r.replyCmd == h.r.replyCmd
  {
    hide Acts, OnChunkStart, OnSimpleStart, OnRecvError, OnRecvErrorTail, OnRecvBsEntries, OnRecvOffsetData,
         OnRecvOffsetHole, OnResync, OnFinishCommand, OnRecvReadPayload, OnRecvOffsetDataData, OnCheckReplyMagic,
         OnRecvErrorMessage, OnRecvBsHeader, OnChunkFinish;
    match h.state
    case ChunkStart => ChunkStartHdr(h);
    case SimpleStart => BodyHdr(u, h);
    case RecvError => BodyHdr(u, h);
    case RecvOffsetData => LateHdr(u, h);
    case Resync => LateHdr(u, h);
    case RecvReadPayload => CallbackHdr(u, h);
    case RecvErrorTail => CallbackHdr(u, h);
    case RecvOffsetDataData => CallbackHdr(u, h);
    case RecvOffsetHole => CallbackHdr(u, h);
    case RecvBsEntries => CallbackHdr(u, h);
    case _ => HeaderHdr(u, h);
  }

  // ---- a doomed reply ----

  /** As long as the reply goes on, it is doomed after the step if it was before. */
  predicate SameDoom(h: Handle, g: Handle) { Unmatched(g) ==> (Doomed(g) <==> Doomed(h)) }

  lemma DoomFrame(h: Handle, g: Handle)
    requires forall c: nat :: Lookup(g.q.inFlight, c) == Lookup(h.q.inFlight, c)
    requires Cookie(g) == Cookie(h) && Unmatched(h)
    ensures SameDoom(h, g)
  {
    hide Pos, Cookie;
  }

  lemma DoomSamePos(h: Handle, g: Handle)
    requires g.q.inFlight == h.q.inFlight && g.r == h.r.(replyState := g.r.replyState) && Pos(g) == Pos(h)
    ensures SameDoom(h, g) && Unmatched(g) == Unmatched(h)
  {
    hide Pos, Lookup, Field;
  }

  lemma ActDoom(u: User, h: Handle)
    requires Parse(h) && IsReplyState(h.state) && !h.state.ReplyStart? && (IsRecvState(h.state) ==> h.r.rlen == 0)
    requires !h.blocked && !h.failed && !Breaks(h)
    ensures var g := Act(u, h); g.state.Dead? || SameDoom(h, g)
  {
    hide Act, Parse, Quiet, Lookup, Field, Doomed;
    var g := Act(u, h);
    if h.state.FinishCommand? || h.state.ChunkFinish? {
      EndMatched(u, h);
    } else if h.state.RecvReply? {
      assert g == Go(h, CheckReplyMagic) by { RecvReplyActs(u, h); }
    } else if h.state.CheckReplyMagic? {
      MagicDoom(u, h);
    } else {
      ActQuiet(u, h);
      QuietCur(h, g);
      ActHdr(u, h);
      SameCookie(h, g);
      if Unmatched(g) { DoomFrame(h, g); }
    }
  }

  lemma RecvReplyActs(u: User, h: Handle)
    requires h.state.RecvReply?
    ensures Act(u, h) == Go(h, CheckReplyMagic)
  {
  }

  lemma MagicDoom(u: User, h: Handle)
    requires h.state.CheckReplyMagic?
    ensures var g := Act(u, h); !Doomed(h) && (!g.state.Dead? ==> !Doomed(g))
  {
    hide Lookup, Field, Acts, Magic;
  }

  lemma EndMatched(u: User, h: Handle)
    requires Parse(h) && (h.state.ChunkFinish? || h.state.FinishCommand?) && !h.blocked && !h.failed && !Breaks(h)
    ensures SameDoom(h, Act(u, h))
  {
    hide Taken, AtHeader, AtPreamble, AtPayload, CurReq, FinishAt, Lookup, Acts, Field;
  }

  lemma PauseDoom(h: Handle)
    requires Parse(h) && IsRecvState(h.state) && h.r.rlen > 0
    ensures Pause(h).state.Dead? || SameDoom(h, Pause(h))
  {
    hide At, Matched, Doomed, Unmatched, Field;
    if !Pause(h).state.Dead? { DoomSamePos(h, Pause(h)); }
  }

  lemma HdrTarget(h: Handle)
    requires Parse(h) && IsRecvState(h.state) && h.r.target.ToHdr?
    ensures h.state.RecvReply? || h.state.RecvStructuredRemaining?
  {
    hide Taken, Matched, EarlyResync, ReplyLength, SimpleSize, Current, Lookup, Simple, BsLengthOk, BsExtent, BsPrefix;
  }

  lemma DeliverDoom(h: Handle, bytes: seq<byte>)
    requires Parse(h) && IsRecvState(h.state) && |bytes| <= h.r.rlen
    ensures SameDoom(h, Deliver(h, bytes)) && Unmatched(Deliver(h, bytes)) == Unmatched(h)
  {
    hide Deliver, Field, Lookup, Taken, CurReq, Matched, AtPayload, AtEnd, AtPreamble, Simple, Quiet;
    var g := Deliver(h, bytes);
    DeliverFields(h, bytes);
    DeliverQuiet(h, bytes);
    QuietCur(h, g);
    if Unmatched(h) {
      if h.r.target.ToHdr? { HdrTarget(h); }
      if h.state.RecvStructuredRemaining? { HeaderGrows(h, g, bytes); } else { SameCookie(h, g); }
      DoomFrame(h, g);
    }
  }

  lemma ReplyDoom(u: User, h: Handle, io: Io)
    requires Parse(h) && IsReplyState(h.state) && !h.blocked && !h.failed && IoOk(h, io) && Ledger(h) && !Breaks(h)
    ensures var g := EnterReply(u, h, io); Over(g) || SameDoom(h, g)
  {
    hide At, Matched, Doomed, Unmatched, Ledger, Act, Pause, Deliver, EnterReplyStart;
    if h.state.ReplyStart? {
      StartDoom(h, io);
    } else {
      if h.state.Resync? { ResyncDiscards(h); }
      if IsRecvState(h.state) && h.r.rlen > 0 {
        if io.Got? {
          var d := Deliver(h, io.bytes);
          DeliverFields(h, io.bytes);
          DeliverParse(h, io.bytes);
          DeliverDoom(h, io.bytes);
          if d.r.rlen == 0 { ActDoom(u, d); } else { PauseDoom(d); }
          TwoDooms(h, d, EnterReply(u, h, io));
        } else if io.Again? {
          PauseDoom(h);
        }
      } else {
        ActDoom(u, h);
      }
    }
  }

  lemma TwoDooms(h: Handle, d: Handle, g: Handle)
    requires SameDoom(h, d) && Unmatched(d) == Unmatched(h)
    ensures SameDoom(d, g) ==> SameDoom(h, g)
  {
    hide Pos, Lookup, Field;
  }

  lemma StartDoom(h: Handle, io: Io)
    requires Parse(h) && h.state.ReplyStart? && IoOk(h, io)
    ensures var g := EnterReplyStart(h, io); Over(g) || SameDoom(h, g)
  {
    hide Lookup, Field, Matched, AtHeader, AtPayload, AtEnd, PreambleLen;
    if h.r.rlen > 0 { DoomSamePos(h, EnterReplyStart(h, io)); }
  }

  /** A step outside the reply dooms it if and only if the step is foretold. */
  lemma IssueDoom(h: Handle)
    requires Parse(h) && h.state.IssueFinish? && !h.failed && SendSafe(h) && Ledger(h)
    ensures var g := EnterIssueFinish(h); Unmatched(g) ==> (Doomed(g) <==> Doomed(h) || Foretold(h, Run(Again)))
    ensures Foretold(h, Run(Again)) ==> Unmatched(EnterIssueFinish(h))
  {
    hide At, Matched, SendSafe, Ledger, Lookup, Field;
    FinishSafe(h);
    var g := EnterIssueFinish(h);
    SameCookie(h, g);
    if h.q.toIssue != [] { LookupCons(h.q.toIssue[0], h.q.inFlight, Cookie(h)); }
  }

  /** Along a reply that goes on, only a foretold step changes whether it is doomed. */
  lemma StepDoom(u: User, h: Handle, l: Label)
    requires Parse(h) && !Over(h) && Ledger(h) && SendSafe(h) && Steady(h) && Waits(h) && Enabled(h, l) && !Breaks(h)
    ensures var g := Step(u, h, l); Over(g) || (Unmatched(g) ==> (Doomed(g) <==> Doomed(h) || Foretold(h, l)))
  {
    hide Parse, Ledger, SendSafe, Doomed, Unmatched, EnterReply, EnterEnd, EnterIssueFinish, EnterReady, EnterSend,
         EnterIssueStart, EnterPrepareWritePayload, EnterPause, Queue, CommandCompleted, Cookie;
    var g := Step(u, h, l);
    match l
    case Run(io) =>
      if IsReplyState(h.state) {
        ReplyDoom(u, h, io);
      } else if h.state.IssueFinish? {
        IssueDoom(h);
      } else {
        EnterOther(u, h, io);
        OtherState(u, h, io);
        DoomOutside(h, g);
      }
    case Notify(read) => DoomOutside(h, g);
    case Submit(cmd) => QueueFrame(h, cmd); DoomOutside(h, g);
    case Retire(cookie) => RetireFrame(h, cookie); DoomOutside(h, g);
  }

  lemma DoomOutside(h: Handle, g: Handle)
    requires Outside(h.state) && Outside(g.state) && g.q.inFlight == h.q.inFlight && g.r == h.r
    ensures SameDoom(h, g)
  {
    hide Lookup, Cookie;
    DoomSamePos(h, g);
  }

  lemma QueueFrame(h: Handle, cmd: Command)
    ensures var g := Queue(h, cmd);
      g.q.inFlight == h.q.inFlight && g.r == h.r && (g.state == h.state || g.state.IssueStart?)
  {
  }

  lemma RetireFrame(h: Handle, cookie: nat)
    ensures var g := CommandCompleted(h, cookie).0; g.q.inFlight == h.q.inFlight && g.r == h.r && g.state == h.state
  {
    hide Lookup;
  }

  // ---- whole runs ----

  /** Step `k` is foretold, and the reply that it dooms still goes on at `n`. */
  predicate Hangs(hs: seq<Handle>, ls: seq<Label>, k: nat, n: nat)
    requires k < n < |hs| == |ls| + 1
  {
    Foretold(hs[k], ls[k]) && forall i | k < i <= n :: Unmatched(hs[i])
  }

  /** A foretold step has doomed the reply that goes on at `n`. */
  ghost predicate Caught(hs: seq<Handle>, ls: seq<Label>, n: nat)
    requires n < |hs| == |ls| + 1
  {
    exists k | 0 <= k < n :: Hangs(hs, ls, k, n)
  }

  /** A reply is doomed if and only if a foretold step has doomed it. */
  lemma {:induction false} RunDoom(u: User, hs: seq<Handle>, ls: seq<Label>, n: nat)
    requires IsRun(u, hs, ls) && Fresh(hs[0]) && n < |hs| && !Over(hs[n])
    ensures Doomed(hs[n]) <==> Caught(hs, ls, n)
  {
    hide Ledger, SendSafe, Waits, Step, Fresh, Doomed, Unmatched, Foretold, Parse, Over, Breaks;
    if n == 0 {
      FreshMatched(hs[0]);
    } else {
      var h, l := hs[n - 1], ls[n - 1];
      assert Enabled(h, l) && hs[n] == Step(u, h, l);
      RunLedger(u, hs, ls, n - 1);
      RunSend(u, hs, ls, n - 1);
      RunWaits(u, hs, ls, n - 1);
      RunParse(u, hs, ls, n - 1);
      NotYetOver(u, h, l);
      RunDoom(u, hs, ls, n - 1);
      StepDoom(u, h, l);
      assert Doomed(hs[n]) ==> Unmatched(hs[n]) by { DoomedUnmatched(hs[n]); }
      if Caught(hs, ls, n) {
        var k :| 0 <= k < n && Hangs(hs, ls, k, n);
        assert Unmatched(hs[n]);
        if k < n - 1 { assert Hangs(hs, ls, k, n - 1); }
      }
      if Doomed(hs[n]) {
        if Foretold(h, l) {
          assert Hangs(hs, ls, n - 1, n);
        } else {
          var k :| 0 <= k < n - 1 && Hangs(hs, ls, k, n - 1);
          assert Hangs(hs, ls, k, n);
        }
      }
    }
  }

  lemma DoomedUnmatched(h: Handle)
    ensures Doomed(h) ==> Unmatched(h)
  {
    hide Unmatched;
  }

  lemma FreshMatched(h: Handle)
    requires Fresh(h)
    ensures !Doomed(h) && Sound(h)
  {
    hide Lookup, Cookie;
  }

  /** Before a step that leaves the connection alive it was alive, and nothing broke. */
  lemma NotYetOver(u: User, h: Handle, l: Label)
    requires Sound(h) && Ledger(h) && (Over(h) || SendSafe(h)) && Steady(h) && Waits(h) && Enabled(h, l)
    requires !Over(Step(u, h, l))
    ensures !Over(h) && Parse(h) && !Breaks(h)
  {
    hide Parse, Ledger, SendSafe, Waits, Step, Breaks;
    SoundStep(u, h, l);
    if Over(h) { StepOver(u, h, l); }
  }

  /** An assertion of the original fails at a step if and only if that step is
      FINISH_COMMAND and the reply it ends was doomed: before, the server had been replying
      to a request of which it had not yet received all, the reply was suspended after its
      cookie had been looked up in vain, and the command joined the list before the reply
      went on. */
  lemma AssertionExact(u: User, hs: seq<Handle>, ls: seq<Label>, n: nat)
    requires IsRun(u, hs, ls) && Fresh(hs[0]) && n < |hs|
    ensures hs[n].failed <==> n > 0 && hs[n - 1].state.FinishCommand? && Caught(hs, ls, n - 1)
  {
    hide Ledger, SendSafe, Waits, Step, Fresh, Doomed, Parse, Hangs;
    if n == 0 {
      FreshAlive(hs[0]);
    } else {
      var h, l := hs[n - 1], ls[n - 1];
      assert Enabled(h, l) && hs[n] == Step(u, h, l);
      RunLedger(u, hs, ls, n - 1);
      RunSend(u, hs, ls, n - 1);
      RunWaits(u, hs, ls, n - 1);
      RunParse(u, hs, ls, n - 1);
      SoundStep(u, h, l);
      if h.state.FinishCommand? { RunDoom(u, hs, ls, n - 1); }
    }
  }

  lemma FreshAlive(h: Handle)
    requires Fresh(h)
    ensures !h.failed
  {
  }

  /** A foretold step finds a structured reply suspended before the last four bytes of its
      header. */
  lemma ForetoldWhere(h: Handle, l: Label)
    requires Parse(h) && Foretold(h, l)
    ensures h.r.replyState == Some(RecvStructuredRemaining) && !h.n.extended && 16 <= |h.r.hdr| < 20
  {
    hide Field, Lookup, BsLengthOk, BsExtent, BsPrefix, Simple;
  }

  lemma {:induction false} SameNegotiated(u: User, hs: seq<Handle>, ls: seq<Label>, n: nat)
    requires IsRun(u, hs, ls) && n < |hs|
    ensures hs[n].n == hs[0].n
  {
    hide Step;
    if n > 0 {
      SameNegotiated(u, hs, ls, n - 1);
      StepNegotiated(u, hs[n - 1], ls[n - 1]);
    }
  }

  lemma StepNegotiated(u: User, h: Handle, l: Label)
    requires Enabled(h, l)
    ensures Step(u, h, l).n == h.n
  {
    hide EnterReply, EnterEnd, EnterReady, EnterSend, EnterIssueStart, EnterPrepareWritePayload, EnterPause, Lookup,
         Field, OnFinishCommand, AllProgress, QuietLog;
    if l.Run? {
      EnterEndState(u, h);
      if h.state.FinishCommand? {
        ActFinish(u, h);
        assert EnterReply(u, h, l.io) == OnFinishCommand(u, h) by { FinishEntered(u, h, l.io); }
      } else {
        EnterReplyQuiet(u, h, l.io);
      }
    }
  }

  lemma FinishEntered(u: User, h: Handle, io: Io)
    requires h.state.FinishCommand? && IoOk(h, io)
    ensures EnterReply(u, h, io) == OnFinishCommand(u, h)
  {
    hide OnFinishCommand;
  }

  /** With extended headers no assertion of the original ever fails, whatever the server
      does: the whole header is there before the cookie is looked up. */
  lemma ExtendedNeverFails(u: User, hs: seq<Handle>, ls: seq<Label>, n: nat)
    requires IsRun(u, hs, ls) && Fresh(hs[0]) && n < |hs| && hs[0].n.extended
    ensures !hs[n].failed
  {
    hide Fresh, Step, Parse, Foretold, Unmatched;
    AssertionExact(u, hs, ls, n);
    if hs[n].failed {
      var k :| 0 <= k < n - 1 && Hangs(hs, ls, k, n - 1);
      assert Enabled(hs[k], ls[k]);
      RunParse(u, hs, ls, k);
      SameNegotiated(u, hs, ls, k);
      assert Parse(hs[k]) by { ForetoldAlive(hs[k], ls[k]); }
      ForetoldWhere(hs[k], ls[k]);
      assert false;
    }
  }

  lemma ForetoldAlive(h: Handle, l: Label)
    requires Foretold(h, l) && Sound(h)
    ensures Parse(h)
  {
    hide Parse;
  }

  // ---- a run that fails ----

  /** A flush request, as a program queues it. */
  const FLUSH: Command :=
    Command(Request(Flush, 0, 0, 0, 0, false, false, false, false, []), [], 0, 0, [])

  /** The first 16 bytes of a final chunk of type NBD_REPLY_TYPE_NONE for cookie 1. */
  function Early(): seq<byte> { BE(NBD_STRUCTURED_REPLY_MAGIC, 4) + BE(1, 2) + BE(0, 2) + BE(1, 8) }

  lemma EarlyFields(h: Handle)
    requires h.r.hdr == Early()
    ensures |Early()| == 16 && Magic(h) == NBD_STRUCTURED_REPLY_MAGIC && Cookie(h) == 1
  {
    hide BE, Val;
    var s := Early();
    Pow256Values();
    assert s[0..4] == BE(NBD_STRUCTURED_REPLY_MAGIC, 4);
    ValBE(NBD_STRUCTURED_REPLY_MAGIC, 4);
    assert s[8..16] == BE(1, 8);
    ValBE(1, 8);
  }

  /** The flush is being sent; one byte of it has gone out. */
  lemma SendsOneByte(u: User) returns (hs: seq<Handle>, ls: seq<Label>)
    ensures IsRun(u, hs, ls) && |hs| == |ls| + 1 && hs[0] == NEW
    ensures var h := hs[|ls|]; var cmd := FLUSH.(req := FLUSH.req.(cookie := 1));
      && h.state.SendRequest? && h.blocked && !h.failed && h.n == NEW.n && h.r == NEW.r && h.w.req == Header(false, cmd)
      && h.w.wbuf == h.w.req[1..] && !h.w.inWritePayload && !h.w.inWriteShutdown
      && h.q == NEW.q.(toIssue := [cmd], inFlightCount := 1, unique := 2)
  {
    hide IsRun, Header;
    hs, ls := [NEW], [];
    NoSteps(u, NEW);
    HeaderCookie(false, FLUSH.(req := FLUSH.req.(cookie := 1)));
    hs, ls := Extend(u, hs, ls, Submit(FLUSH));
    hs, ls := Extend(u, hs, ls, Run(Again));
    hs, ls := Extend(u, hs, ls, Run(Sent(1)));
  }

  /** The flush waits while a reply is served. */
  predicate Sending(h: Handle)
  {
    var cmd := FLUSH.(req := FLUSH.req.(cookie := 1));
    && !h.failed && h.n == NEW.n && h.w.req == Header(false, cmd) && h.w.wbuf == h.w.req[1..]
    && !h.w.inWritePayload && !h.w.inWriteShutdown && h.q == NEW.q.(toIssue := [cmd], inFlightCount := 1, unique := 2)
  }

  /** The server replies to it at once. */
  lemma RepliesEarly(u: User) returns (hs: seq<Handle>, ls: seq<Label>)
    ensures IsRun(u, hs, ls) && |hs| == |ls| + 1 && hs[0] == NEW
    ensures var h := hs[|ls|];
      && Sending(h) && h.state.RecvReply? && !h.blocked && h.r.rlen == 0 && h.r.hdr == Early()
      && h.r.payloadLeft == 0 && h.r.replyState.None?
  {
    hide IsRun, Header, BE, Early, Field, EnterEnd, Acts, EnterReply;
    hs, ls := SendsOneByte(u);
    HeaderCookie(false, FLUSH.(req := FLUSH.req.(cookie := 1)));
    hs, ls := Extend(u, hs, ls, Notify(true));
    hs, ls := Extend(u, hs, ls, Run(Again));
    var h := hs[|ls|];
    EarlyFields(h.(r := h.r.(hdr := Early())));
    assert [] + Early() == Early();
    hs, ls := Extend(u, hs, ls, Run(Got(Early())));
    assert EnterReply(u, h, Got(Early())) == EnterReplyStart(h, Got(Early())) by { StartEntered(u, h, Got(Early())); }
  }

  lemma StartEntered(u: User, h: Handle, io: Io)
    requires h.state.ReplyStart? && IoOk(h, io)
    ensures EnterReply(u, h, io) == EnterReplyStart(h, io)
  {
    hide EnterReplyStart;
  }

  /** The reply is suspended after its cookie was looked up in vain. */
  lemma Suspends(u: User) returns (hs: seq<Handle>, ls: seq<Label>)
    ensures IsRun(u, hs, ls) && |hs| == |ls| + 1 && hs[0] == NEW
    ensures var h := hs[|ls|];
      && Sending(h) && h.state.Ready? && !h.blocked && h.r.replyState == Some(RecvStructuredRemaining)
      && h.r.replyCmd.None? && h.r.rlen == 4 && h.r.target.ToHdr? && h.r.hdr == Early() && h.r.payloadLeft == 0
  {
    hide IsRun, Header, BE, Early, Field, EnterEnd, Acts, Deliver;
    hs, ls := RepliesEarly(u);
    EarlyFields(hs[|ls|]);
    hs, ls := Extend(u, hs, ls, Run(Again));
    hs, ls := Extend(u, hs, ls, Run(Again));
    hs, ls := Extend(u, hs, ls, Run(Again));
  }

  /** Now the rest of the request goes out. */
  lemma ThenSends(u: User) returns (hs: seq<Handle>, ls: seq<Label>)
    ensures IsRun(u, hs, ls) && |hs| == |ls| + 1 && hs[0] == NEW
    ensures var h := hs[|ls|]; var cmd := FLUSH.(req := FLUSH.req.(cookie := 1));
      && h.state.PrepareWritePayload? && !h.blocked && !h.failed && h.n == NEW.n && h.w.req == Header(false, cmd)
      && h.w.wbuf == [] && h.q.toIssue == [cmd] && h.q.inFlight == []
      && h.r.replyState == Some(RecvStructuredRemaining) && h.r.replyCmd.None? && h.r.rlen == 4 && h.r.target.ToHdr?
      && h.r.hdr == Early() && h.r.payloadLeft == 0
  {
    hide IsRun, Header, Early, Field, EnterReply, EnterEnd;
    hs, ls := Suspends(u);
    HeaderCookie(false, FLUSH.(req := FLUSH.req.(cookie := 1)));
    hs, ls := Extend(u, hs, ls, Run(Again));
    hs, ls := Extend(u, hs, ls, Run(Again));
    hs, ls := Extend(u, hs, ls, Notify(false));
    hs, ls := Extend(u, hs, ls, Run(Sent(27)));
  }

  /** The command joins the in-flight list. */
  lemma ThenIssues(u: User) returns (hs: seq<Handle>, ls: seq<Label>)
    ensures IsRun(u, hs, ls) && |hs| == |ls| + 1 && hs[0] == NEW
    ensures var h := hs[|ls|]; var cmd := FLUSH.(req := FLUSH.req.(cookie := 1));
      && h.state.Ready? && !h.blocked && !h.failed && h.n == NEW.n && h.q.toIssue == [] && h.q.inFlight == [cmd]
      && h.r.replyState == Some(RecvStructuredRemaining) && h.r.replyCmd.None? && h.r.rlen == 4 && h.r.target.ToHdr?
      && h.r.hdr == Early() && h.r.payloadLeft == 0
  {
    hide IsRun, Header, Early, Field, EnterReply, EnterEnd;
    hs, ls := ThenSends(u);
    HeaderCookie(false, FLUSH.(req := FLUSH.req.(cookie := 1)));
    hs, ls := Extend(u, hs, ls, Run(Again));
    hs, ls := Extend(u, hs, ls, Run(Again));
  }

  /** The header of the reply is complete. */
  lemma ThenGoesOn(u: User) returns (hs: seq<Handle>, ls: seq<Label>)
    ensures IsRun(u, hs, ls) && |hs| == |ls| + 1 && hs[0] == NEW
    ensures var h := hs[|ls|];
      && h.state.ChunkStart? && !h.blocked && !h.failed && !h.n.extended && |h.q.inFlight| == 1
      && h.q.inFlight[0].req.cookie == 1 && h.r.replyCmd.None? && h.r.payloadLeft == 0 && h.r.hdr == Early() + BE(0, 4)
  {
    hide IsRun, Early, Field, BE, EnterEnd, OnChunkStart, OnFinishCommand, Current, Acts;
    hs, ls := ThenIssues(u);
    hs, ls := Extend(u, hs, ls, Run(Again));
    hs, ls := Extend(u, hs, ls, Notify(true));
    hs, ls := Extend(u, hs, ls, Run(Again));
    hs, ls := Extend(u, hs, ls, Run(Got(BE(0, 4))));
  }

  /** A run in which a server brings about a failing assertion: it replies to a request of
      which it has one byte, pauses after the cookie, and goes on when it has the rest. */
  lemma AssertionCanFail(u: User) returns (hs: seq<Handle>, ls: seq<Label>)
    ensures IsRun(u, hs, ls) && Fresh(hs[0]) && hs[|ls|].failed
  {
    hide IsRun, Early, Field, BE, EnterEnd, Acts, FinishAt, Lookup;
    hs, ls := ThenSkips(u);
    assert Lookup(hs[|ls|].q.inFlight, 1) == Some(0) by { FirstFound(hs[|ls|].q.inFlight, 1); }
    hs, ls := Extend(u, hs, ls, Run(Again));
  }

  lemma FirstFound(list: seq<Command>, cookie: nat)
    requires list != [] && list[0].req.cookie == cookie
    ensures Lookup(list, cookie) == Some(0)
  {
  }

  /** There is no payload to skip, and the reply is at its end. */
  lemma ThenSkips(u: User) returns (hs: seq<Handle>, ls: seq<Label>)
    ensures IsRun(u, hs, ls) && |hs| == |ls| + 1 && hs[0] == NEW
    ensures var h := hs[|ls|];
      && h.state.FinishCommand? && !h.blocked && !h.failed && |h.q.inFlight| == 1
      && h.q.inFlight[0].req.cookie == 1 && h.r.replyCmd.None? && Cookie(h) == 1
  {
    hide IsRun, Early, Field, BE, EnterEnd, Acts, OnChunkType, OnFinishCommand;
    hs, ls := ThenGoesOn(u);
    LateFields(hs[|ls|]);
    hs, ls := Extend(u, hs, ls, Run(Again));
    hs, ls := Extend(u, hs, ls, Run(Again));
  }

  lemma LateFields(h: Handle)
    requires h.r.hdr == Early() + BE(0, 4) && !h.n.extended
    ensures Cookie(h) == 1 && ReplyLength(h) == 0
  {
    hide BE, Val, Early;
    var k := h.(r := h.r.(hdr := Early()));
    EarlyFields(k);
    FieldPrefix(Early(), BE(0, 4), 8, 16);
    assert h.r.hdr[16..20] == BE(0, 4);
    Pow256Values();
    ValBE(0, 4);
  }

  // ---- a run that loses its place in the stream ----

  /** A chunk for a command that does not exist has come in as far as its cookie. */
  lemma UnknownCookie(u: User) returns (hs: seq<Handle>, ls: seq<Label>)
    ensures IsRun(u, hs, ls) && |hs| == |ls| + 1 && hs[0] == NEW
    ensures var h := hs[|ls|];
      && h.state.CheckReplyMagic? && !h.blocked && !h.failed && h.n == NEW.n && h.q == NEW.q && h.r.rlen == 0
      && h.r.hdr == Early() && h.r.payloadLeft == 0 && |h.r.reply| == 16
  {
    hide IsRun, BE, Early, Field, EnterEnd, Acts;
    hs, ls := [NEW], [];
    NoSteps(u, NEW);
    hs, ls := Extend(u, hs, ls, Notify(true));
    var h := hs[|ls|];
    EarlyFields(h.(r := h.r.(hdr := Early())));
    assert [] + Early() == Early();
    hs, ls := Extend(u, hs, ls, Run(Got(Early())));
    hs, ls := Extend(u, hs, ls, Run(Again));
  }

  /** Its header is complete and announces a payload of four bytes. */
  lemma UnknownHeader(u: User) returns (hs: seq<Handle>, ls: seq<Label>)
    ensures IsRun(u, hs, ls) && |hs| == |ls| + 1 && hs[0] == NEW
    ensures var h := hs[|ls|];
      && h.state.ChunkStart? && !h.blocked && !h.failed && h.n == NEW.n && h.q == NEW.q && h.r.rlen == 0
      && h.r.hdr == Early() + BE(4, 4) && h.r.payloadLeft == 0 && |h.r.reply| == 20 && h.r.replyCmd.None?
  {
    hide IsRun, BE, Early, Field, EnterEnd, Acts, OnChunkStart;
    hs, ls := UnknownCookie(u);
    EarlyFields(hs[|ls|]);
    hs, ls := Extend(u, hs, ls, Run(Again));
    hs, ls := Extend(u, hs, ls, Run(Got(BE(4, 4))));
  }

  /** A run in which a chunk ends with its payload still in the stream: the header was refused
      before payload_left was set. */
  lemma PayloadLeftBehind(u: User) returns (hs: seq<Handle>, ls: seq<Label>)
    ensures IsRun(u, hs, ls) && Fresh(hs[0])
    ensures var h := hs[|ls|];
      h.state.FinishCommand? && !h.failed && ReplyLength(h) == 4 && |h.r.reply| == ChunkHeaderLen(h) && h.r.rlen == 0
  {
    hide IsRun, BE, Early, Field, EnterEnd, Acts, OnChunkType, OnFinishCommand;
    hs, ls := UnknownHeader(u);
    LengthField(hs[|ls|], 4);
    hs, ls := Extend(u, hs, ls, Run(Again));
    hs, ls := Extend(u, hs, ls, Run(Again));
  }

  lemma LengthField(h: Handle, length: nat)
    requires h.r.hdr == Early() + BE(length, 4) && !h.n.extended && length < U32
    ensures ReplyLength(h) == length
  {
    hide BE, Val, Early;
    EarlyFields(h.(r := h.r.(hdr := Early())));
    assert h.r.hdr[16..20] == BE(length, 4);
    Pow256Values();
    ValBE(length, 4);
  }
}
