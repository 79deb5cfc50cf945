/** The buffers of the parser hold the bytes of the reply, each where the protocol has it, and
    so do the read buffers. */
module EngineContent {
  import opened Bytes
  import opened BlockStatus
  import opened Nbd
  import opened Reply
  import opened Engine
  import opened EngineQuiet
  import opened EngineLedger
  import opened EngineSend
  import opened EngineParser
  import opened EngineSafety

  /** The command that the reply is about. */
  function CurCmd(h: Handle): Option<Command>
  {
    match Current(h)
    case None => None
    case Some(i) => Some(h.q.inFlight[i])
  }

  /** The last piece of the reply's command has received what the reply brought after `head`. */
  predicate Receives(h: Handle, head: seq<byte>)
  {
    match CurCmd(h)
    case None => false
    case Some(cmd) => cmd.pieces != [] && h.r.reply == head + cmd.pieces[|cmd.pieces| - 1].bytes
  }

  /** It was claimed for the whole buffer, or for the chunk whose offset is in `pay`. */
  predicate Claimed(h: Handle, simple: bool)
  {
    match CurCmd(h)
    case None => false
    case Some(cmd) =>
      cmd.pieces != [] &&
      var p := cmd.pieces[|cmd.pieces| - 1];
      && !p.hole
      && (if simple then p.at == 0 && p.len == cmd.req.count
          else |h.r.pay| == 8 && p.at + cmd.req.offset == Val(h.r.pay) && p.len + 8 == ReplyLength(h))
  }

  /** Where the bytes of the reply are. */
  predicate Content(h: Handle)
  {
    match Pos(h)
    case RecvReply => h.r.reply == h.r.hdr
    case CheckReplyMagic => h.r.reply == h.r.hdr
    case SimpleStart => h.r.reply == h.r.hdr
    case RecvStructuredRemaining => h.r.reply == h.r.hdr
    case ChunkStart => h.r.reply == h.r.hdr
    case RecvReadPayload => Receives(h, h.r.hdr) && Claimed(h, true)
    case RecvError => h.r.reply == h.r.hdr + h.r.pay
    case RecvErrorMessage =>
      && h.r.reply == h.r.hdr + h.r.pay + h.r.aux
      && |h.r.pay| == 6 && |h.r.aux| + h.r.rlen == Field(h.r.pay, 4, 6)
    case RecvErrorTail =>
      && h.r.hdr + h.r.pay <= h.r.reply && |h.r.pay| == 6
      && (h.r.target.ToAux? <==> ReplyType(h) == NBD_REPLY_TYPE_ERROR_OFFSET
                                 && |h.r.reply| + h.r.rlen == |h.r.hdr| + 6 + Field(h.r.pay, 4, 6) + 8)
      && (h.r.target.ToAux? ==> |h.r.aux| + h.r.rlen == 8)
      && (h.r.target.ToAux? ==> |h.r.aux| <= |h.r.reply| && h.r.aux == h.r.reply[|h.r.reply| - |h.r.aux|..])
    case RecvOffsetData => h.r.reply == h.r.hdr + h.r.pay
    case RecvOffsetDataData => Receives(h, h.r.hdr + h.r.pay) && Claimed(h, false)
    case RecvOffsetHole => h.r.reply == h.r.hdr + h.r.pay
    case RecvBsHeader => h.r.reply == h.r.hdr + h.r.pay
    case RecvBsEntries => h.r.reply == h.r.hdr + h.r.pay + h.r.aux
    case ReplyStart => true
    case _ => h.r.hdr <= h.r.reply
  }

  // ---- steps that leave it alone ----

  lemma SameContent(h: Handle, g: Handle)
    requires Content(h) && Pos(g) == Pos(h) && g.n == h.n && CurCmd(g) == CurCmd(h)
    requires g.r == h.r.(replyState := g.r.replyState)
    ensures Content(g)
  {
    hide Pos, CurCmd, Field;
  }

  lemma SameCur(h: Handle, g: Handle)
    requires g.q.inFlight == h.q.inFlight && g.r.replyCmd == h.r.replyCmd
    ensures CurCmd(g) == CurCmd(h)
  {
    hide Lookup;
  }

  lemma PauseContent(h: Handle)
    requires Content(h) && Parse(h) && IsRecvState(h.state) && h.r.rlen > 0
    ensures Pause(h).state.Dead? || Content(Pause(h))
  {
    hide Content, Field, At, Matched;
    var g := Pause(h);
    if !g.state.Dead? {
      SameCur(h, g);
      assert Pos(g) == Pos(h);
      SameContent(h, g);
    }
  }

  lemma OutsideContent(h: Handle, g: Handle)
    requires Content(h) && Outside(h.state) && Outside(g.state) && g.n == h.n && g.r == h.r && CurCmd(g) == CurCmd(h)
    ensures Content(g)
  {
    hide Content, CurCmd;
    SameContent(h, g);
  }

  // ---- receiving ----

  lemma DeliverContent(h: Handle, bytes: seq<byte>)
    requires Content(h) && Parse(h) && IsRecvState(h.state) && |bytes| <= h.r.rlen
    ensures Content(Deliver(h, bytes))
  {
    hide Field, Parse, Deliver, Receives, Claimed, CurCmd;
    DeliverFields(h, bytes);
    Targets(h);
    if h.state.RecvReadPayload? || h.state.RecvOffsetDataData? {
      DeliverData(h, bytes, if h.state.RecvReadPayload? then h.r.hdr else h.r.hdr + h.r.pay, h.state.RecvReadPayload?);
    } else {
      if h.state.Resync? { ResyncDiscards(h); }
      Assoc3(h.r.hdr, h.r.pay, h.r.aux, bytes);
      if h.state.RecvErrorTail? {
        SameType(h, Deliver(h, bytes));
        if h.r.target.ToAux? { Suffix(h.r.reply, h.r.aux, bytes); }
      }
    }
  }

  lemma SameType(h: Handle, g: Handle)
    requires g.r.hdr == h.r.hdr
    ensures ReplyType(g) == ReplyType(h)
  {
    hide Field;
  }

  lemma Assoc3(a: seq<byte>, b: seq<byte>, c: seq<byte>, d: seq<byte>)
    ensures (a + b) + d == a + (b + d) && (a + b + c) + d == a + b + (c + d)
  {
  }

  lemma Suffix(s: seq<byte>, t: seq<byte>, more: seq<byte>)
    requires |t| <= |s| && t == s[|s| - |t|..]
    ensures var u := s + more; |t + more| <= |u| && t + more == u[|u| - |t + more|..]
  {
  }

  /** Which buffer each state fills. */
  lemma Targets(h: Handle)
    requires Parse(h) && IsRecvState(h.state)
    ensures h.state.RecvReply? || h.state.RecvStructuredRemaining? ==> h.r.target.ToHdr?
    ensures h.state.RecvError? || h.state.RecvOffsetData? || h.state.RecvOffsetHole? || h.state.RecvBsHeader?
            ==> h.r.target.ToPay?
    ensures h.state.RecvErrorMessage? || h.state.RecvBsEntries? ==> h.r.target.ToAux?
    ensures h.state.RecvErrorTail? ==> h.r.target.ToAux? || h.r.target.Discard?
    ensures h.state.RecvReadPayload? || h.state.RecvOffsetDataData? ==> h.r.target.ToData?
  {
    hide Taken, Matched, EarlyResync, ReplyLength, SimpleSize, Current, Lookup, Simple, BsLengthOk, BsExtent, BsPrefix;
  }

  lemma DeliverData(h: Handle, bytes: seq<byte>, head: seq<byte>, simple: bool)
    requires Receives(h, head) && Claimed(h, simple) && h.r.target.ToData? && |bytes| <= h.r.rlen
    ensures var g := Deliver(h, bytes); Receives(g, head) && Claimed(g, simple)
  {
    hide Lookup, Overlay, Val;
    var i := Current(h).value;
    var cmd := h.q.inFlight[i];
    var g := Deliver(h, bytes);
    var k := |cmd.pieces| - 1;
    assert Current(g) == Current(h) by {
      DeliverQuiet(h, bytes);
      QuietCur(h, g);
    }
    assert g.q.inFlight[i].pieces[k].bytes == cmd.pieces[k].bytes + bytes;
    assert (head + cmd.pieces[k].bytes) + bytes == head + (cmd.pieces[k].bytes + bytes);
    SameLength(h, g);
  }

  lemma SameLength(h: Handle, g: Handle)
    requires g.n == h.n && g.r.hdr == h.r.hdr
    ensures ReplyLength(g) == ReplyLength(h)
  {
    hide Field;
  }

  // ---- the states ----

  lemma HeaderContent(u: User, h: Handle)
    requires Content(h) && (h.state.RecvReply? || h.state.CheckReplyMagic? || h.state.RecvStructuredRemaining?)
    ensures Act(u, h).state.Dead? || Content(Act(u, h))
  {
    hide Acts, Field, Lookup, Current, Magic, Receives, Claimed;
  }

  lemma SimpleContent(h: Handle)
    requires Content(h) && h.state.SimpleStart? && Parse(h)
    ensures OnSimpleStart(h).state.Dead? || Content(OnSimpleStart(h))
  {
    hide Acts, Field, Lookup, ErrnoOf, Parse, Val;
    var g := OnSimpleStart(h);
    match Current(h)
    case None =>
    case Some(i) =>
      OnSimpleStartQuiet(h);
      QuietCur(h, g);
      assert Current(g) == Some(i);
      assert h.r.hdr + [] == h.r.hdr;
  }

  lemma ChunkContent(h: Handle)
    requires Content(h) && h.state.ChunkStart?
    ensures OnChunkStart(h).state.Dead? || Content(OnChunkStart(h))
  {
    hide Acts, Field, Lookup, Current, OnChunkType, ReplyLength, ReplyOffset, ReplyType;
    if !EarlyResync(h) {
      TypeContent(h.(r := h.r.(payloadLeft := ReplyLength(h))), Current(h).value, ReplyLength(h), ReplyType(h));
    }
  }

  lemma TypeContent(h: Handle, i: nat, length: nat, t: nat)
    requires i < |h.q.inFlight| && h.r.payloadLeft == length && h.r.reply == h.r.hdr && h.state.ChunkStart?
    ensures Content(OnChunkType(h, i, length, t))
  {
    hide OnChunkType, Content;
    if t <= NBD_REPLY_TYPE_OFFSET_HOLE { LowTypeContent(h, i, length, t); } else { HighTypeContent(h, i, length, t); }
  }

  lemma LowTypeContent(h: Handle, i: nat, length: nat, t: nat)
    requires i < |h.q.inFlight| && h.r.payloadLeft == length && h.r.reply == h.r.hdr && h.state.ChunkStart?
    requires t <= NBD_REPLY_TYPE_OFFSET_HOLE
    ensures Content(OnChunkType(h, i, length, t))
  {
    hide Acts, BsLengthOk, IsErrorType, LastChunk, Receives, Claimed;
    assert h.r.hdr + [] == h.r.hdr;
  }

  lemma HighTypeContent(h: Handle, i: nat, length: nat, t: nat)
    requires i < |h.q.inFlight| && h.r.payloadLeft == length && h.r.reply == h.r.hdr && h.state.ChunkStart?
    requires t > NBD_REPLY_TYPE_OFFSET_HOLE
    ensures Content(OnChunkType(h, i, length, t))
  {
    hide Acts, BsLengthOk, IsErrorType, LastChunk, Receives, Claimed;
    assert h.r.hdr + [] == h.r.hdr;
  }

  lemma ErrorContent(h: Handle)
    requires Content(h) && h.state.RecvError? && Parse(h) && h.r.rlen == 0
    ensures Content(OnRecvError(h))
  {
    hide Acts, Field, Lookup, Current, ErrnoOf, Parse, ReplyLength;
    ErrorPayload(h);
    assert h.r.hdr + h.r.pay + [] == h.r.hdr + h.r.pay;
  }

  lemma ErrorPayload(h: Handle)
    requires Parse(h) && h.state.RecvError? && h.r.rlen == 0
    ensures |h.r.pay| == Min(h.r.payloadLeft, 6)
  {
    hide Taken, Matched, AtHeader, AtPreamble, AtEnd, CurReq, EarlyResync, ReplyLength;
  }

  lemma MessageContent(h: Handle)
    requires Content(h) && h.state.RecvErrorMessage? && h.r.rlen == 0
    ensures Content(OnRecvErrorMessage(h))
  {
    hide Acts, Field;
    assert h.r.reply[|h.r.reply|..] == [];
  }

  lemma OffsetContent(h: Handle)
    requires Content(h) && h.state.RecvOffsetData? && Parse(h) && h.r.rlen == 0
    ensures OnRecvOffsetData(h).state.Dead? || Content(OnRecvOffsetData(h))
  {
    hide Acts, Lookup, InBounds, Seen, Parse, Val, ReplyLength, Quiet, Receives, Claimed, Field;
    OffsetPayload(h);
    var g := OnRecvOffsetData(h);
    match Current(h)
    case None =>
    case Some(i) =>
      if g.state.RecvOffsetDataData? {
        assert Current(g) == Some(i) by {
          OnRecvOffsetDataQuiet(h);
          QuietCur(h, g);
        }
        BoundsStart(Field(h.r.pay, 0, 8), h.r.payloadLeft, h.q.inFlight[i]);
        ClaimMade(h, g, i);
      }
  }

  lemma ClaimMade(h: Handle, g: Handle, i: nat)
    requires Content(h) && h.state.RecvOffsetData? && Current(h) == Some(i) && Current(g) == Some(i)
    requires |h.r.pay| == 8 && h.r.payloadLeft + 8 == ReplyLength(h) && g == OnRecvOffsetData(h)
    requires g.state.RecvOffsetDataData? && h.q.inFlight[i].req.offset <= Field(h.r.pay, 0, 8)
    ensures Receives(g, g.r.hdr + g.r.pay) && Claimed(g, false)
  {
    hide Acts, Lookup, InBounds, Seen, Val, ReplyLength;
    assert h.r.pay[0..8] == h.r.pay;
    assert h.r.hdr + h.r.pay + [] == h.r.hdr + h.r.pay;
    SameLength(h, g);
  }

  lemma BoundsStart(offset: nat, length: nat, cmd: Command)
    requires InBounds(offset, length, cmd)
    ensures cmd.req.offset <= offset
  {
  }

  lemma OffsetPayload(h: Handle)
    requires Parse(h) && h.state.RecvOffsetData? && h.r.rlen == 0
    ensures |h.r.pay| == 8 && h.r.payloadLeft + 8 == ReplyLength(h)
  {
    hide Taken, Matched, AtHeader, AtPreamble, AtEnd, CurReq, EarlyResync, ReplyLength;
  }

  lemma BsContent(h: Handle)
    requires Content(h) && h.state.RecvBsHeader?
    ensures Content(OnRecvBsHeader(h))
  {
    hide Acts, Field, Lookup, Current, BsLengthOk;
    assert h.r.hdr + h.r.pay + [] == h.r.hdr + h.r.pay;
  }

  /** The other states lead to the end of the chunk, or to READY between replies. */
  lemma EndContent(u: User, h: Handle)
    requires Content(h) && Parse(h) && (IsRecvState(h.state) ==> h.r.rlen == 0) && !h.blocked
    requires h.state.RecvReadPayload? || h.state.RecvErrorTail? || h.state.RecvOffsetDataData?
             || h.state.RecvOffsetHole?
             || h.state.RecvBsEntries? || h.state.Resync? || h.state.ChunkFinish? || h.state.FinishCommand?
    ensures var g := Act(u, h); g.state.Dead? || g.failed || Content(g)
  {
    hide Acts, Field, Current, Lookup, InBounds, Seen, FlagCmd, ErrorCallback, ChunkCallback, ExtentCallback, CookedFor,
         Context, Slice, Overlay, ErrnoOf, FinishAt, Parse, Receives, Claimed;
    ActKeepsReply(u, h);
    assert h.r.hdr <= h.r.reply by { HeadFirst(h); }
    if h.state.ChunkFinish? || h.state.FinishCommand? { EndDrained(h); }
  }

  lemma HeadFirst(h: Handle)
    requires Content(h) && IsReplyState(h.state) && !h.state.ReplyStart?
    ensures h.r.hdr <= h.r.reply
  {
    hide Lookup, Claimed;
  }

  lemma ActKeepsReply(u: User, h: Handle)
    requires h.state.RecvReadPayload? || h.state.RecvErrorTail? || h.state.RecvOffsetDataData?
             || h.state.RecvOffsetHole?
             || h.state.RecvBsEntries? || h.state.Resync? || h.state.ChunkFinish? || h.state.FinishCommand?
    ensures var g := Act(u, h); g.r.hdr == h.r.hdr && g.r.reply == h.r.reply
  {
    hide Act;
    if h.state.RecvReadPayload? || h.state.RecvOffsetDataData? || h.state.RecvOffsetHole? {
      ReadKeepsReply(u, h);
    } else {
      OtherKeepsReply(u, h);
    }
  }

  lemma ReadKeepsReply(u: User, h: Handle)
    requires h.state.RecvReadPayload? || h.state.RecvOffsetDataData? || h.state.RecvOffsetHole?
    ensures var g := Act(u, h); g.r.hdr == h.r.hdr && g.r.reply == h.r.reply
  {
    hide Acts, Field, Current, Lookup, InBounds, Seen, ChunkCallback, Slice, Overlay, OnCheckReplyMagic, OnSimpleStart,
         OnChunkStart, OnRecvError, OnRecvErrorMessage, OnRecvErrorTail, OnRecvOffsetData, OnRecvBsHeader,
         OnRecvBsEntries, OnResync, OnChunkFinish, OnFinishCommand;
  }

  lemma OtherKeepsReply(u: User, h: Handle)
    requires h.state.RecvErrorTail? || h.state.RecvBsEntries? || h.state.Resync? || h.state.ChunkFinish?
             || h.state.FinishCommand?
    ensures var g := Act(u, h); g.r.hdr == h.r.hdr && g.r.reply == h.r.reply
  {
    hide Acts, Field, Current, Lookup, InBounds, FlagCmd, ErrorCallback, ExtentCallback, CookedFor, Context, ErrnoOf,
         FinishAt, OnCheckReplyMagic, OnSimpleStart, OnRecvReadPayload, OnChunkStart, OnRecvError, OnRecvErrorMessage,
         OnRecvOffsetData, OnRecvOffsetDataData, OnRecvOffsetHole, OnRecvBsHeader;
  }

  lemma EndDrained(h: Handle)
    requires Parse(h) && (h.state.ChunkFinish? || h.state.FinishCommand?)
    ensures h.r.rlen == 0
  {
    hide Taken, Matched, AtHeader, AtPreamble, AtPayload, CurReq;
  }

  lemma ActContent(u: User, h: Handle)
    requires Content(h) && Parse(h) && IsReplyState(h.state) && !h.state.ReplyStart? && !h.blocked
    requires IsRecvState(h.state) ==> h.r.rlen == 0
    ensures var g := Act(u, h); g.state.Dead? || g.failed || Content(g)
  {
    hide Content, Parse, OnCheckReplyMagic, OnRecvErrorMessage, OnRecvBsHeader, OnChunkFinish, OnSimpleStart,
         OnChunkStart, OnRecvError, OnRecvErrorTail, OnRecvBsEntries, OnRecvOffsetData, OnRecvOffsetHole, OnResync,
         OnFinishCommand, OnRecvReadPayload, OnRecvOffsetDataData, Acts;
    match h.state
    case RecvReply => HeaderContent(u, h);
    case CheckReplyMagic => HeaderContent(u, h);
    case RecvStructuredRemaining => HeaderContent(u, h);
    case SimpleStart => SimpleContent(h);
    case ChunkStart => ChunkContent(h);
    case RecvError => ErrorContent(h);
    case RecvErrorMessage => MessageContent(h);
    case RecvOffsetData => OffsetContent(h);
    case RecvBsHeader => BsContent(h);
    case _ => EndContent(u, h);
  }

  lemma StartContent(h: Handle, io: Io)
    requires Content(h) && Parse(h) && h.state.ReplyStart? && IoOk(h, io)
    ensures var g := EnterReplyStart(h, io); g.state.Dead? || g.state.Closed? || g.failed || Content(g)
  {
    hide At, Matched, Field, PreambleLen, Receives, Claimed;
    if h.r.rlen > 0 {
      SameCur(h, EnterReplyStart(h, io));
      SameContent(h, EnterReplyStart(h, io));
    }
  }

  lemma ReplyContent(u: User, h: Handle, io: Io)
    requires Content(h) && Parse(h) && IsReplyState(h.state) && !h.blocked && IoOk(h, io)
    ensures var g := EnterReply(u, h, io); Over(g) || Content(g)
  {
    hide Content, Parse, Act, Pause, Deliver, EnterReplyStart;
    if h.state.ReplyStart? {
      StartContent(h, io);
    } else if IsRecvState(h.state) && h.r.rlen > 0 {
      if io.Got? {
        var d := Deliver(h, io.bytes);
        DeliverFields(h, io.bytes);
        DeliverParse(h, io.bytes);
        DeliverContent(h, io.bytes);
        if d.r.rlen == 0 { ActContent(u, d); } else { PauseContent(d); }
      } else {
        PauseContent(h);
      }
    } else {
      ActContent(u, h);
    }
  }

  // ---- runs ----

  lemma IssueContent(h: Handle)
    requires Content(h) && h.state.IssueFinish? && Parse(h) && Ledger(h)
    ensures EnterIssueFinish(h).failed || Content(EnterIssueFinish(h))
  {
    hide Content, Field, Ledger, Parse, Lookup;
    var g := EnterIssueFinish(h);
    if !g.failed {
      NotInFlight(h);
      CurMoves(h, g, h.q.toIssue[0]);
      OutsideContent(h, g);
    }
  }

  lemma CurMoves(h: Handle, g: Handle, cmd: Command)
    requires Parse(h) && g.q.inFlight == [cmd] + h.q.inFlight && g.r == h.r
    requires Lookup(h.q.inFlight, cmd.req.cookie).None?
    ensures CurCmd(g) == CurCmd(h)
  {
    hide At, Lookup, Cookie, Pos;
    if h.r.replyCmd.Some? { LookupCons(cmd, h.q.inFlight, h.r.replyCmd.value); }
  }

  lemma StepContent(u: User, h: Handle, l: Label)
    requires Content(h) && Parse(h) && !Over(h) && Ledger(h) && SendSafe(h) && Waits(h) && Enabled(h, l)
    ensures Over(Step(u, h, l)) || Content(Step(u, h, l))
  {
    hide Content, Parse, Ledger, SendSafe, EnterReply, EnterEnd, EnterIssueFinish, EnterReady, EnterSend,
         EnterIssueStart, EnterPrepareWritePayload, EnterPause, Queue, CommandCompleted, CurCmd;
    var g := Step(u, h, l);
    match l
    case Run(io) =>
      if IsReplyState(h.state) {
        ReplyContent(u, h, io);
      } else if h.state.IssueFinish? {
        IssueContent(h);
      } else {
        EnterOther(u, h, io);
        OtherState(u, h, io);
        SameCur(h, g);
        OutsideContent(h, g);
      }
    case Notify(read) => SameCur(h, g); OutsideContent(h, g);
    case Submit(cmd) => QueueSame(h, cmd); SameCur(h, g); OutsideContent(h, g);
    case Retire(cookie) => RetireSame(h, cookie); SameCur(h, g); OutsideContent(h, g);
  }

  lemma QueueSame(h: Handle, cmd: Command)
    ensures var g := Queue(h, cmd);
      && g.q.inFlight == h.q.inFlight && g.r == h.r && g.n == h.n
      && (g.state == h.state || g.state.IssueStart?)
  {
  }

  lemma RetireSame(h: Handle, cookie: nat)
    ensures var g := CommandCompleted(h, cookie).0;
      g.q.inFlight == h.q.inFlight && g.r == h.r && g.n == h.n && g.state == h.state
  {
    hide Lookup;
  }

  /** In every run the parser's buffers hold the bytes of the reply. */
  lemma {:induction false} RunContent(u: User, hs: seq<Handle>, ls: seq<Label>, n: nat)
    requires IsRun(u, hs, ls) && Fresh(hs[0]) && n < |hs| && !Over(hs[n])
    ensures Content(hs[n]) && Parse(hs[n])
  {
    hide Content, Parse, Ledger, SendSafe, Steady, Waits, Step, Fresh, Over, Breaks;
    if n == 0 {
      FreshContent(hs[0]);
    } else {
      var h, l := hs[n - 1], ls[n - 1];
      assert Enabled(h, l) && hs[n] == Step(u, h, l);
      RunLedger(u, hs, ls, n - 1);
      RunSend(u, hs, ls, n - 1);
      RunWaits(u, hs, ls, n - 1);
      RunParse(u, hs, ls, n);
      if Over(h) { StepOver(u, h, l); }
      RunContent(u, hs, ls, n - 1);
      StepContent(u, h, l);
      assert Parse(hs[n]) by { AliveParse(hs[n]); }
    }
  }

  lemma AliveParse(h: Handle)
    requires Sound(h) && !Over(h)
    ensures Parse(h)
  {
    hide Parse;
  }

  lemma FreshContent(h: Handle)
    requires Fresh(h)
    ensures Content(h) && Parse(h)
  {
    hide Lookup, Cookie;
  }
}
