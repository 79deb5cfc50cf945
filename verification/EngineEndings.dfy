/** When the connection is given up: for these causes, and no other. */
module EngineEndings {
  import opened Bytes
  import opened BlockStatus
  import opened Nbd
  import opened Reply
  import opened Engine
  import opened EngineQuiet
  import opened EngineLedger
  import opened EngineSend
  import opened EngineParser
  import opened EngineSafety
  import opened EngineErrors
  import opened EngineHistory
  import opened EngineContent
  import opened ReadData
  import opened EngineReads
  import opened EngineReplies
  import opened EngineReplyData
  import opened EngineVerdicts
  import opened EngineRefusals

  predicate AtEndState(s: State) { s.Dead? || s.Closed? }

  /** What structured_reply_in_bounds refuses, which adds in 64 bits. */
  predicate Refused(req: Request, offset: nat, length: nat)
  {
    var end := (req.offset + req.count) % 0x1_0000_0000_0000_0000;
    offset < req.offset || offset >= end || (offset + length) % 0x1_0000_0000_0000_0000 > end
  }

  /** It refuses it for the command with the cookie. */
  predicate RefusedFor(list: seq<Command>, cookie: nat, offset: nat, length: nat)
  {
    exists i | 0 <= i < |list| :: list[i].req.cookie == cookie && Refused(list[i].req, offset, length)
  }

  /** The bytes of a reply that nothing can be done with: a magic that was not negotiated; a
      simple reply without an error to no command in flight, which could be followed by data; a
      chunk that is too long; data or a hole outside the request. */
  predicate Hopeless(h: Handle, s: seq<byte>)
  {
    var magic := Num(s, 0, 4);
    var pay := Payload(h.n.extended, s);
    var length := if h.n.extended then Num(s, 24, 32) else Num(s, 16, 20);
    match h.state
    case CheckReplyMagic => magic !in (if h.n.extended then {0x6e8a278c} else {0x67446698, 0x668e33ef})
    case SimpleStart => h.r.replyCmd.None? && Num(s, 4, 8) == 0 && !h.n.structured
    case ChunkStart => length > 0x400_0008
    case RecvOffsetData =>
      length >= 8 && RefusedFor(h.q.inFlight, Num(s, 8, 16), Num(pay, 0, 8), length - 8)
    case RecvOffsetHole => RefusedFor(h.q.inFlight, Num(s, 8, 16), Num(pay, 0, 8), Num(pay, 8, 12))
    case _ => false
  }

  // ---- a state that acts ----

  predicate IsFrontState(s: State)
  {
    s.RecvReply? || s.CheckReplyMagic? || s.RecvStructuredRemaining? || s.SimpleStart? || s.ChunkStart?
  }

  predicate IsDataState(s: State)
  {
    s.RecvOffsetData? || s.RecvOffsetDataData? || s.RecvOffsetHole? || s.RecvBsHeader? || s.RecvBsEntries?
  }

  /** The same, in terms of the parser's fields. */
  predicate Stuck(d: Handle)
  {
    match d.state
    case CheckReplyMagic =>
      Magic(d) !in (if d.n.extended then {0x6e8a278c} else {0x67446698, 0x668e33ef})
    case SimpleStart => Current(d).None? && SimpleError(d) == 0 && !d.n.structured
    case ChunkStart => ReplyLength(d) > 0x400_0008
    case RecvOffsetData =>
      Current(d).Some? && !InBounds(Field(d.r.pay, 0, 8), d.r.payloadLeft, d.q.inFlight[Current(d).value])
    case RecvOffsetHole =>
      Current(d).Some? && !InBounds(Field(d.r.pay, 0, 8), Field(d.r.pay, 8, 12), d.q.inFlight[Current(d).value])
    case _ => false
  }

  lemma FrontEnds(u: User, d: Handle)
    requires IsFrontState(d.state) && !Act(u, d).failed
    ensures AtEndState(Act(u, d).state) <==> Stuck(d)
  {
    hide Acts, Lookup, Current, Field, Magic, SimpleError, ErrnoOf, OnChunkType, ReplyLength, EarlyResync, ReplyType,
         OnRecvReadPayload, OnRecvError, OnRecvErrorMessage, OnRecvErrorTail, OnRecvOffsetData, OnRecvOffsetDataData,
         OnRecvOffsetHole, OnRecvBsHeader, OnRecvBsEntries, OnResync, OnChunkFinish, OnFinishCommand;
    if d.state.ChunkStart? && ReplyLength(d) <= 0x400_0008 && !EarlyResync(d) {
      assert Current(d).Some? by { EarlyCurrent(d); }
      TypeGoes(d.(r := d.r.(payloadLeft := ReplyLength(d))), Current(d).value, ReplyLength(d), ReplyType(d));
    }
  }

  lemma EarlyCurrent(d: Handle)
    requires !EarlyResync(d)
    ensures Current(d).Some?
  {
  }

  lemma TypeGoes(h: Handle, i: nat, length: nat, t: nat)
    requires i < |h.q.inFlight| && h.r.payloadLeft == length
    ensures !AtEndState(OnChunkType(h, i, length, t).state)
  {
    hide Acts, BsLengthOk, IsErrorType, LastChunk;
  }

  lemma DataEnds(u: User, d: Handle)
    requires IsDataState(d.state) && !Act(u, d).failed
    ensures AtEndState(Act(u, d).state) <==> Stuck(d)
  {
    hide Acts, Lookup, Current, Field, InBounds, Seen, ChunkCallback, ExtentCallback, CookedFor, Context, Slice,
         Overlay, BsLengthOk, ReplyType, OnCheckReplyMagic, OnSimpleStart, OnRecvReadPayload, OnChunkStart, OnRecvError,
         OnRecvErrorMessage, OnRecvErrorTail, OnResync, OnChunkFinish, OnFinishCommand;
  }

  lemma RestGoes(u: User, d: Handle)
    requires IsReplyState(d.state) && !d.state.ReplyStart? && !IsFrontState(d.state) && !IsDataState(d.state)
    ensures !AtEndState(Act(u, d).state)
  {
    hide Acts, Lookup, Current, Field, FlagCmd, ErrorCallback, ChunkCallback, ErrnoOf, FinishAt, InBounds, LastChunk,
         Cookie, ReplyType, OnCheckReplyMagic, OnSimpleStart, OnChunkStart, OnRecvOffsetData, OnRecvOffsetDataData,
         OnRecvOffsetHole, OnRecvBsHeader, OnRecvBsEntries;
  }

  lemma ActEnds(u: User, d: Handle)
    requires IsReplyState(d.state) && !d.state.ReplyStart? && !Act(u, d).failed
    ensures AtEndState(Act(u, d).state) <==> Stuck(d)
  {
    hide Act, Stuck;
    if IsFrontState(d.state) { FrontEnds(u, d); }
    else if IsDataState(d.state) { DataEnds(u, d); }
    else { RestGoes(u, d); NotStuck(d); }
  }

  lemma NotStuck(d: Handle)
    requires !IsFrontState(d.state) && !IsDataState(d.state)
    ensures !Stuck(d)
  {
  }

  // ---- the same in terms of the bytes ----

  lemma RefusedExactly(cmd: Command, offset: nat, length: nat)
    ensures Refused(cmd.req, offset, length) <==> !InBounds(offset, length, cmd)
  {
  }

  /** There is one command with the cookie. */
  lemma RefusedCurrent(h: Handle, d: Handle, i: nat, offset: nat, length: nat)
    requires Ledger(h) && SameReqs(h.q.inFlight, d.q.inFlight) && i < |d.q.inFlight|
    ensures RefusedFor(h.q.inFlight, d.q.inFlight[i].req.cookie, offset, length) <==>
              !InBounds(offset, length, d.q.inFlight[i])
  {
    hide Ledger, InBounds, Refused;
    RefusedExactly(d.q.inFlight[i], offset, length);
    assert h.q.inFlight[i].req == d.q.inFlight[i].req;
    if RefusedFor(h.q.inFlight, d.q.inFlight[i].req.cookie, offset, length) {
      var j :| 0 <= j < |h.q.inFlight| && h.q.inFlight[j].req.cookie == d.q.inFlight[i].req.cookie
               && Refused(h.q.inFlight[j].req, offset, length);
      Alone(h, i, j);
    }
  }

  lemma HopelessExactly(h: Handle, d: Handle)
    requires Parse(d) && Content(d) && Ledger(h) && d.state == h.state && d.n == h.n && d.r.replyCmd == h.r.replyCmd
    requires SameReqs(h.q.inFlight, d.q.inFlight) && IsReplyState(d.state) && (IsRecvState(d.state) ==> d.r.rlen == 0)
    ensures Hopeless(h, d.r.reply) <==> Stuck(d)
  {
    hide Parse, Content, Ledger, Field, Num, Lookup, InBounds, RefusedFor, Payload, Current;
    match d.state
    case CheckReplyMagic => PreambleThere(d); PreambleReply(d); HeaderNumbers(d);
    case SimpleStart => SimpleHeader(d); HeaderNumbers(d); SimpleCommand(d);
    case ChunkStart => ChunkHeader(d); HeaderNumbers(d);
    case RecvOffsetData => PieceHopeless(h, d);
    case RecvOffsetHole => PieceHopeless(h, d);
    case _ =>
  }

  lemma PreambleReply(d: Handle)
    requires Parse(d) && Content(d) && d.state.CheckReplyMagic?
    ensures d.r.hdr == d.r.reply && |d.r.hdr| >= 16
  {
    hide AtHeader, AtPayload, AtEnd, Matched, Receives, Claimed, Field;
  }

  lemma SimpleCommand(d: Handle)
    requires Parse(d) && d.state.SimpleStart?
    ensures Current(d).None? <==> d.r.replyCmd.None?
  {
    hide At, Saved, Cookie;
  }

  lemma PieceHopeless(h: Handle, d: Handle)
    requires Parse(d) && Content(d) && Ledger(h) && d.state == h.state && d.n == h.n
    requires SameReqs(h.q.inFlight, d.q.inFlight) && d.r.rlen == 0
    requires d.state.RecvOffsetData? || d.state.RecvOffsetHole?
    ensures Hopeless(h, d.r.reply) <==> Stuck(d)
  {
    hide Parse, Content, Ledger, Lookup, InBounds, RefusedFor, Payload, Val, Current;
    ChunkBuffers(d);
    HeaderNumbers(d);
    CurrentCookie(d);
    var i := Current(d).value;
    if d.state.RecvOffsetData? {
      RefusedCurrent(h, d, i, Field(d.r.pay, 0, 8), d.r.payloadLeft);
    } else {
      RefusedCurrent(h, d, i, Field(d.r.pay, 0, 8), Field(d.r.pay, 8, 12));
    }
  }

  // ---- steps ----

  /** recv fails, or the server has closed the connection. */
  predicate NothingComes(io: Io) { !io.Got? && !io.Again? }

  /** The bytes of a reply that is to be suspended already have the wrong magic. */
  predicate Foreign(h: Handle, s: seq<byte>) { h.n.extended && |s| >= 4 && Num(s, 0, 4) != 0x6e8a278c }

  /** The step ends the connection. */
  predicate GivesUp(h: Handle, l: Label)
  {
    && l.Run? && IoOk(h, l.io)
    && if h.state.SendRequest? || h.state.SendWritePayload? then h.w.wbuf != [] && l.io == Error
       else if h.state.ReplyStart? then h.r.rlen == 0 && NothingComes(l.io)
       else if !IsReplyState(h.state) then false
       else if Completes(h, l) then Hopeless(h, ReplyAt(h, l))
       else NothingComes(l.io) || (h.state.RecvReply? && Foreign(h, Handed(h, l.io).r.reply))
  }

  lemma PauseEnds(h: Handle)
    requires Parse(h) && Content(h) && IsRecvState(h.state) && !Pause(h).failed
    ensures AtEndState(Pause(h).state) <==> h.state.RecvReply? && Foreign(h, h.r.reply)
  {
    hide At, Saved, Receives, Claimed;
  }

  /** The states that send, and those above. */
  lemma OtherEnds(u: User, h: Handle, io: Io)
    requires EventOk(h, io) && !IsReplyState(h.state) && !AtEndState(h.state)
    ensures AtEndState(Enter(u, h, io).state) <==> GivesUp(h, Run(io))
  {
    hide EnterReply, EnterEnd, Header, HasPayload, Field, Parse, Hopeless, Foreign, OnlySends;
  }

  lemma StartEnds(h: Handle, io: Io)
    requires IoOk(h, io) && h.state.ReplyStart? && ResumeOk(h) && !EnterReplyStart(h, io).failed
    ensures AtEndState(EnterReplyStart(h, io).state) <==> GivesUp(h, Run(io))
  {
    hide Deliver, PreambleLen;
  }

  /** A receiving state whose buffer is not full afterwards. */
  lemma PartEnds(u: User, h: Handle, io: Io)
    requires Parse(h) && Content(h) && IsRecvState(h.state) && IoOk(h, io) && Handed(h, io).r.rlen != 0
    requires !EnterReply(u, h, io).failed
    ensures AtEndState(EnterReply(u, h, io).state) <==> GivesUp(h, Run(io))
  {
    hide Parse, Content, Deliver, Pause, Hopeless, Foreign;
    if h.state.Resync? { ResyncDiscards(h); }
    if io.Got? {
      var d := Deliver(h, io.bytes);
      DeliverFields(h, io.bytes);
      DeliverParse(h, io.bytes);
      DeliverContent(h, io.bytes);
      PauseEnds(d);
      SameForeign(h, d);
    } else if io.Again? {
      PauseEnds(h);
    }
  }

  lemma SameForeign(h: Handle, d: Handle)
    requires d.n == h.n
    ensures Foreign(h, d.r.reply) == Foreign(d, d.r.reply)
  {
  }

  lemma ActingEnds(u: User, hs: seq<Handle>, ls: seq<Label>, m: nat)
    requires IsRun(u, hs, ls) && Fresh(hs[0]) && m < |ls| && Completes(hs[m], ls[m]) && !hs[m + 1].failed
    ensures AtEndState(hs[m + 1].state) <==> GivesUp(hs[m], ls[m])
  {
    hide Step, Fresh, Lookup, FlightOk, Acts, Content, Parse, Act, Ledger, Hopeless, Stuck, Deliver;
    ActingFacts(u, hs, ls, m);
    var d := Handed(hs[m], ls[m].io);
    ActEnds(u, d);
    HopelessExactly(hs[m], d);
  }

  lemma EventEnds(u: User, h: Handle, l: Label)
    requires Enabled(h, l) && !l.Run? && !AtEndState(h.state)
    ensures !AtEndState(Step(u, h, l).state) && !GivesUp(h, l)
  {
    hide Lookup, Acceptable;
  }

  /** In every run, as long as no assertion has failed: a step gives the connection up if and
      only if there is a cause for it. */
  lemma GivenUpForCause(u: User, hs: seq<Handle>, ls: seq<Label>, m: nat)
    requires IsRun(u, hs, ls) && Fresh(hs[0]) && m < |ls| && !AtEndState(hs[m].state) && !hs[m + 1].failed
    ensures AtEndState(hs[m + 1].state) <==> GivesUp(hs[m], ls[m])
  {
    hide Step, Fresh, GivesUp, Enter, EnterReply, EnterReplyStart, Content, Parse, SendSafe, Steady, Completes, Queue;
    var h, l := hs[m], ls[m];
    assert Enabled(h, l) && hs[m + 1] == Step(u, h, l);
    if !l.Run? {
      EventEnds(u, h, l);
    } else if !IsReplyState(h.state) {
      assert hs[m + 1] == Enter(u, h, l.io) by { StepRuns(u, h, l); }
      OtherEnds(u, h, l.io);
    } else {
      RunIs(u, h, l);
      RunSend(u, hs, ls, m);
      if h.state.ReplyStart? {
        StartIs(u, h, l.io);
        SteadyResumes(h);
        StartEnds(h, l.io);
      } else if Completes(h, l) {
        ActingEnds(u, hs, ls, m);
      } else {
        assert !Over(h) by { RunningNotOver(h); }
        RunContent(u, hs, ls, m);
        NotFull(h, l);
        PartEnds(u, h, l.io);
      }
    }
  }

  lemma StepRuns(u: User, h: Handle, l: Label)
    requires Enabled(h, l) && l.Run?
    ensures Step(u, h, l) == Enter(u, h, l.io)
  {
    hide Enter;
  }

  lemma StartIs(u: User, h: Handle, io: Io)
    requires IoOk(h, io) && h.state.ReplyStart?
    ensures EnterReply(u, h, io) == EnterReplyStart(h, io)
  {
    hide EnterReplyStart;
  }

  lemma SteadyResumes(h: Handle)
    requires Steady(h)
    ensures ResumeOk(h)
  {
  }

  lemma RunningNotOver(h: Handle)
    requires Steady(h) && !h.blocked && IsReplyState(h.state)
    ensures !Over(h)
  {
  }

  lemma NotFull(h: Handle, l: Label)
    requires !Completes(h, l) && l.Run? && IoOk(h, l.io) && IsReplyState(h.state) && !h.state.ReplyStart?
    ensures IsRecvState(h.state) && Handed(h, l.io).r.rlen != 0
  {
  }
}
