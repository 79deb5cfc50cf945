/** Where the reply parser stands: what each of its positions promises about the bytes
    received so far, that a reply is consumed whole, and that no assertion fails. */
module EngineParser {
  import opened Bytes
  import opened BlockStatus
  import opened Nbd
  import opened Reply
  import opened Engine
  import opened EngineQuiet
  import opened EngineLedger
  import opened EngineSend

  // ---- the command that the reply is about ----

  ghost predicate SameReqs(a: seq<Command>, b: seq<Command>)
  {
    |a| == |b| && forall i | 0 <= i < |a| :: a[i].req == b[i].req
  }

  lemma {:induction false} LookupSame(a: seq<Command>, b: seq<Command>, cookie: nat)
    requires SameReqs(a, b)
    ensures Lookup(a, cookie) == Lookup(b, cookie)
  {
    if a != [] {
      LookupSame(a[1..], b[1..], cookie);
    }
  }

  /** The request of the command that h->reply_cmd points to. */
  function CurReq(h: Handle): Option<Request>
  {
    match Current(h)
    case None => None
    case Some(i) => Some(h.q.inFlight[i].req)
  }

  lemma QuietCur(h: Handle, g: Handle)
    requires Quiet(h, g)
    ensures SameReqs(h.q.inFlight, g.q.inFlight)
    ensures g.r.replyCmd == h.r.replyCmd ==> CurReq(g) == CurReq(h)
    ensures forall c: nat :: Lookup(g.q.inFlight, c) == Lookup(h.q.inFlight, c)
  {
    hide QuietLog;
    forall i | 0 <= i < |h.q.inFlight| ensures h.q.inFlight[i].req == g.q.inFlight[i].req {
      assert Progress(h.q.inFlight[i], g.q.inFlight[i], !h.state.RecvReadPayload?);
    }
    forall c: nat ensures Lookup(g.q.inFlight, c) == Lookup(h.q.inFlight, c) {
      LookupSame(h.q.inFlight, g.q.inFlight, c);
    }
  }

  // ---- positions ----

  /** The state in which the parser is, or will be when it resumes; REPLY.START between
      replies. */
  function Pos(h: Handle): State
  {
    if IsReplyState(h.state) && !h.state.ReplyStart? then h.state
    else if h.r.rlen == 0 then ReplyStart
    else if h.r.replyState.Some? then h.r.replyState.value
    else RecvReply
  }

  /** A chunk header is complete and leads to a payload for a known command. */
  predicate InChunk(h: Handle)
  {
    && CurReq(h).Some? && |h.r.hdr| == ChunkHeaderLen(h) && !EarlyResync(h) && ReplyLength(h) <= MAX_REQUEST_SIZE + 8
  }

  predicate ForRead(h: Handle) { CurReq(h).Some? && CurReq(h).value.kind.Read? }

  /** How much of a chunk's payload is going to be read: none of it when the header was
      refused before payload_left was set. */
  function PayloadDue(h: Handle): nat { if EarlyResync(h) then 0 else ReplyLength(h) }

  predicate Simple(h: Handle) { !h.n.extended && Magic(h) == NBD_SIMPLE_REPLY_MAGIC }

  /** The size of a simple reply. */
  function SimpleSize(h: Handle): nat
  {
    PreambleLen(h) + if ForRead(h) && ErrnoOf(SimpleError(h)) == 0 then CurReq(h).value.count else 0
  }

  /** The number of bytes the parser takes for the current reply. */
  function Taken(h: Handle): nat { if Simple(h) then SimpleSize(h) else ChunkHeaderLen(h) + PayloadDue(h) }

  function BsPrefix(t: nat): nat { if t == NBD_REPLY_TYPE_BLOCK_STATUS then 4 else 8 }
  function BsExtent(t: nat): nat { if t == NBD_REPLY_TYPE_BLOCK_STATUS then 8 else 16 }

  /** `have` bytes of the payload are in, and the buffer wants the rest of the first `upto`. */
  predicate Filling(h: Handle, t: Target, have: nat, upto: nat, left: nat)
  {
    && h.r.target == t && have + h.r.rlen == upto && h.r.payloadLeft == left
    && |h.r.reply| + h.r.rlen == ChunkHeaderLen(h) + upto
  }

  /** The parser reads up to the end of the payload. */
  predicate ToTheEnd(h: Handle, left: nat)
  {
    h.r.payloadLeft == left && |h.r.reply| + h.r.rlen == ChunkHeaderLen(h) + ReplyLength(h)
  }

  predicate AtPreamble(h: Handle)
  {
    && h.r.replyCmd.None? && h.r.payloadLeft == 0
    && match Pos(h)
       case ReplyStart => h.r.rlen == 0
       case RecvReply => h.r.target.ToHdr? && |h.r.hdr| + h.r.rlen == PreambleLen(h) && |h.r.reply| == |h.r.hdr|
       case CheckReplyMagic => h.r.rlen == 0 && |h.r.hdr| == PreambleLen(h) == |h.r.reply|
       case _ => false
  }

  predicate AtHeader(h: Handle)
  {
    && h.r.payloadLeft == 0
    && match Pos(h)
       case SimpleStart => Simple(h) && h.r.rlen == 0 && |h.r.hdr| == PreambleLen(h) == |h.r.reply|
       case RecvReadPayload =>
         && Simple(h) && ForRead(h) && h.r.target.ToData? && |h.r.hdr| == PreambleLen(h)
         && |h.r.reply| + h.r.rlen == SimpleSize(h)
       case RecvStructuredRemaining =>
         && !h.n.extended && !Simple(h) && h.r.target.ToHdr? && PreambleLen(h) <= |h.r.hdr| == |h.r.reply|
         && |h.r.hdr| + h.r.rlen == ChunkHeaderLen(h)
       case ChunkStart => !Simple(h) && h.r.rlen == 0 && |h.r.hdr| == ChunkHeaderLen(h) == |h.r.reply|
       case _ => false
  }

  predicate AtPayload(h: Handle)
  {
    var length := ReplyLength(h);
    && InChunk(h) && !Simple(h)
    && match Pos(h)
       case RecvError => length >= 4 && Filling(h, ToPay, |h.r.pay|, Min(length, 6), length)
       case RecvErrorMessage =>
         h.r.target.ToAux? && |h.r.reply| + h.r.rlen + h.r.payloadLeft == ChunkHeaderLen(h) + length
       case RecvErrorTail => (h.r.target.ToAux? || h.r.target.Discard?) && ToTheEnd(h, 0)
       case RecvOffsetData => ForRead(h) && length >= 8 && Filling(h, ToPay, |h.r.pay|, 8, length - 8)
       case RecvOffsetDataData =>
         ForRead(h) && length >= 8 && h.r.target.ToData? && |h.r.pay| == 8 && ToTheEnd(h, length - 8)
       case RecvOffsetHole => ForRead(h) && length == 12 && Filling(h, ToPay, |h.r.pay|, 12, 0)
       case RecvBsHeader =>
         && CurReq(h).value.kind.BlockStatusCmd? && h.n.metaValid && BsLengthOk(ReplyType(h), length)
         && Filling(h, ToPay, |h.r.pay|, BsPrefix(ReplyType(h)), length)
       case RecvBsEntries =>
         && CurReq(h).value.kind.BlockStatusCmd? && h.n.metaValid && h.r.bsCount > 0 && h.r.target.ToAux?
         && h.r.bsCount * BsExtent(ReplyType(h)) == length - BsPrefix(ReplyType(h)) == |h.r.aux| + h.r.rlen
         && ToTheEnd(h, 0)
       case _ => false
  }

  predicate AtEnd(h: Handle)
  {
    && h.r.payloadLeft == 0 && |h.r.hdr| >= PreambleLen(h)
    && match Pos(h)
       case Resync =>
         !Simple(h) && h.r.target.Discard? && ChunkHeaderLen(h) <= |h.r.reply| && |h.r.reply| + h.r.rlen == Taken(h)
       case ChunkFinish => !Simple(h) && CurReq(h).Some? && h.r.rlen == 0 && |h.r.reply| == Taken(h)
       case FinishCommand => h.r.rlen == 0 && |h.r.reply| == Taken(h)
       case _ => false
  }

  predicate IsPreambleState(s: State) { s.ReplyStart? || s.RecvReply? || s.CheckReplyMagic? }
  predicate IsHeaderState(s: State)
  {
    s.SimpleStart? || s.RecvReadPayload? || s.RecvStructuredRemaining? || s.ChunkStart?
  }
  predicate IsEndState(s: State) { s.Resync? || s.ChunkFinish? || s.FinishCommand? }

  predicate At(h: Handle)
  {
    var p := Pos(h);
    if IsPreambleState(p) then AtPreamble(h)
    else if IsHeaderState(p) then AtHeader(h)
    else if IsEndState(p) then AtEnd(h)
    else AtPayload(h)
  }

  /** A non-NULL reply_cmd is the in-flight command with the header's cookie. */
  predicate Matched(h: Handle)
  {
    h.r.replyCmd.Some? ==> |h.r.hdr| >= 16 && h.r.replyCmd.value == Cookie(h) && Current(h).Some?
  }

  /** The command of the reply was looked up in vain. */
  predicate Unmatched(h: Handle) { h.r.replyCmd.None? && !IsPreambleState(Pos(h)) }

  /** It was looked up in vain and yet is in flight by now. */
  predicate Doomed(h: Handle) { Unmatched(h) && Lookup(h.q.inFlight, Cookie(h)).Some? }

  /** A reply is resumed only between its own states. */
  predicate Saved(h: Handle)
  {
    && (IsReplyState(h.state) && !h.state.ReplyStart? ==> h.r.replyState.None?)
    && (h.r.replyState.Some? ==> h.r.rlen > 0 && IsRecvState(h.r.replyState.value) && !h.r.replyState.value.RecvReply?)
  }

  predicate Parse(h: Handle) { At(h) && Matched(h) && Saved(h) }

  /** The parser is where its state says, or the connection is given up. */
  predicate Sound(g: Handle) { g.state.Dead? || g.state.Closed? || Parse(g) }

  /** And no assertion has failed. */
  predicate Fine(g: Handle) { !g.failed && Sound(g) }

  // ---- what does not depend on the state ----

  /** Everything that depends only on the header and on the command it is about. */
  lemma View(h: Handle, g: Handle)
    requires g.n == h.n && g.r.hdr == h.r.hdr && CurReq(g) == CurReq(h)
    ensures EarlyResync(g) == EarlyResync(h) && ReplyLength(g) == ReplyLength(h) && ReplyType(g) == ReplyType(h)
    ensures InChunk(g) == InChunk(h) && ForRead(g) == ForRead(h) && PayloadDue(g) == PayloadDue(h)
    ensures Simple(g) == Simple(h) && SimpleSize(g) == SimpleSize(h) && Taken(g) == Taken(h) && Cookie(g) == Cookie(h)
    ensures PreambleLen(g) == PreambleLen(h) && ChunkHeaderLen(g) == ChunkHeaderLen(h) && LastChunk(g) == LastChunk(h)
  {
    hide Field, Lookup;
  }

  /** After a quiet step that keeps the header and reply_cmd the view is the same. */
  lemma Onward(h: Handle, g: Handle)
    requires Quiet(h, g) && g.r.hdr == h.r.hdr && g.r.replyCmd == h.r.replyCmd
    ensures CurReq(g) == CurReq(h) && Current(g).Some? == Current(h).Some?
    ensures Matched(h) && !IsPreambleState(Pos(h)) && !IsPreambleState(Pos(g)) ==> Matched(g)
    ensures EarlyResync(g) == EarlyResync(h) && ReplyLength(g) == ReplyLength(h) && ReplyType(g) == ReplyType(h)
    ensures InChunk(g) == InChunk(h) && ForRead(g) == ForRead(h) && PayloadDue(g) == PayloadDue(h)
    ensures Simple(g) == Simple(h) && SimpleSize(g) == SimpleSize(h) && Taken(g) == Taken(h) && Cookie(g) == Cookie(h)
    ensures PreambleLen(g) == PreambleLen(h) && ChunkHeaderLen(g) == ChunkHeaderLen(h) && LastChunk(g) == LastChunk(h)
  {
    hide AllProgress, QuietLog, Field, Lookup, EarlyResync, InChunk, ForRead, PayloadDue, Simple, SimpleSize, Taken,
         ReplyLength, ReplyType, Pos;
    QuietCur(h, g);
    View(h, g);
  }

  lemma FieldPrefix(s: seq<byte>, more: seq<byte>, lo: nat, hi: nat)
    requires lo <= hi <= |s|
    ensures Field(s + more, lo, hi) == Field(s, lo, hi)
  {
    assert (s + more)[lo..hi] == s[lo..hi];
  }

  // ---- receiving ----

  lemma DeliverFields(h: Handle, bytes: seq<byte>)
    requires |bytes| <= h.r.rlen
    ensures var g := Deliver(h, bytes);
      && g.r == h.r.(rlen := h.r.rlen - |bytes|, reply := h.r.reply + bytes,
                     hdr := if h.r.target.ToHdr? then h.r.hdr + bytes else h.r.hdr,
                     pay := if h.r.target.ToPay? then h.r.pay + bytes else h.r.pay,
                     aux := if h.r.target.ToAux? then h.r.aux + bytes else h.r.aux)
      && g.state == h.state && g.blocked == h.blocked && g.failed == h.failed && g.n == h.n
  {
    hide Current, Fill, FillsOutside;
  }

  /** More of the header: what was already there stands. */
  lemma HeaderGrows(h: Handle, g: Handle, bytes: seq<byte>)
    requires g.n == h.n && g.r.hdr == h.r.hdr + bytes && |h.r.hdr| >= 16 && !h.n.extended
    ensures Magic(g) == Magic(h) && Cookie(g) == Cookie(h)
  {
    FieldPrefix(h.r.hdr, bytes, 0, 4);
    FieldPrefix(h.r.hdr, bytes, 8, 16);
  }

  lemma DeliverParse(h: Handle, bytes: seq<byte>)
    requires Parse(h) && IsRecvState(h.state) && |bytes| <= h.r.rlen
    ensures Parse(Deliver(h, bytes))
  {
    hide Deliver, Field, Lookup, EarlyResync, InChunk, ForRead, PayloadDue, SimpleSize, Taken, ReplyLength, ReplyType,
         BsLengthOk, AllProgress, QuietLog, CurReq, Current, BsExtent, BsPrefix;
    var g := Deliver(h, bytes);
    DeliverFields(h, bytes);
    DeliverQuiet(h, bytes);
    QuietCur(h, g);
    if h.state.RecvReply? {
    } else if h.state.RecvStructuredRemaining? {
      HeaderGrows(h, g, bytes);
      SameCurrent(h, g);
    } else {
      Onward(h, g);
    }
  }

  lemma SameCurrent(h: Handle, g: Handle)
    requires g.r.replyCmd == h.r.replyCmd && forall c: nat :: Lookup(g.q.inFlight, c) == Lookup(h.q.inFlight, c)
    ensures Current(g) == Current(h)
  {
  }

  /** The same, when neither the lists nor reply_cmd have changed. */
  lemma SameView(h: Handle, g: Handle)
    requires g.n == h.n && g.q.inFlight == h.q.inFlight && g.r.hdr == h.r.hdr && g.r.replyCmd == h.r.replyCmd
    ensures CurReq(g) == CurReq(h) && Current(g) == Current(h)
    ensures EarlyResync(g) == EarlyResync(h) && ReplyLength(g) == ReplyLength(h) && ReplyType(g) == ReplyType(h)
    ensures InChunk(g) == InChunk(h) && ForRead(g) == ForRead(h) && PayloadDue(g) == PayloadDue(h)
    ensures Simple(g) == Simple(h) && SimpleSize(g) == SimpleSize(h) && Taken(g) == Taken(h) && Cookie(g) == Cookie(h)
    ensures PreambleLen(g) == PreambleLen(h) && ChunkHeaderLen(g) == ChunkHeaderLen(h) && LastChunk(g) == LastChunk(h)
  {
    hide Field, Lookup, EarlyResync, InChunk, ForRead, PayloadDue, Simple, SimpleSize, Taken, ReplyLength, ReplyType;
    View(h, g);
  }

  /** Going from one state to another without changing the position. */
  lemma SamePos(h: Handle, g: Handle)
    requires Parse(h) && Pos(g) == Pos(h) && Saved(g)
    requires g.n == h.n && g.q.inFlight == h.q.inFlight && g.r == h.r.(replyState := g.r.replyState)
    ensures Parse(g)
  {
    hide EarlyResync, InChunk, ForRead, PayloadDue, SimpleSize, Taken, ReplyLength, ReplyType, BsLengthOk, CurReq,
         Current, BsExtent, BsPrefix, Cookie, Simple, Pos, Lookup;
    SameView(h, g);
  }

  lemma PauseParse(h: Handle)
    requires Parse(h) && IsRecvState(h.state) && h.r.rlen > 0 && !h.failed
    ensures Fine(Pause(h))
  {
    hide At, Matched, Magic;
    var g := Pause(h);
    if !g.state.Dead? { SamePos(h, g); }
  }

  lemma ReplyStartParse(h: Handle, io: Io)
    requires Parse(h) && h.state.ReplyStart? && IoOk(h, io) && !h.failed
    ensures Fine(EnterReplyStart(h, io))
  {
    hide At, Matched;
    var g := EnterReplyStart(h, io);
    if h.r.rlen > 0 {
      SamePos(h, g);
    } else {
      NewReplyParse(h, io);
    }
  }

  lemma NewReplyParse(h: Handle, io: Io)
    requires Parse(h) && h.state.ReplyStart? && IoOk(h, io) && !h.failed && h.r.rlen == 0
    ensures Fine(EnterReplyStart(h, io))
  {
    hide Lookup, AtHeader, AtPayload, AtEnd, Current, Cookie;
  }

  // ---- the states ----

  lemma CheckMagicParse(h: Handle)
    requires Parse(h) && h.state.CheckReplyMagic? && !h.failed
    ensures Fine(OnCheckReplyMagic(h))
  {
    hide Field, EarlyResync, InChunk, ForRead, PayloadDue, SimpleSize, Taken, ReplyLength, ReplyType, BsLengthOk,
         CurReq, BsExtent, BsPrefix, Lookup, AtEnd, AtPayload, Acts;
  }

  lemma SimpleStartParse(h: Handle)
    requires Parse(h) && h.state.SimpleStart? && !h.failed
    ensures Fine(OnSimpleStart(h))
  {
    hide Field, EarlyResync, InChunk, PayloadDue, ReplyLength, ReplyType, BsLengthOk, BsExtent, BsPrefix, Lookup,
         AllProgress, QuietLog, ErrnoOf, Magic, AtPreamble, AtPayload, Acts;
    var g := OnSimpleStart(h);
    OnSimpleStartQuiet(h);
    Onward(h, g);
  }

  lemma ReadPayloadParse(u: User, h: Handle)
    requires Parse(h) && h.state.RecvReadPayload? && h.r.rlen == 0 && !h.failed
    ensures Fine(OnRecvReadPayload(u, h))
  {
    hide Field, EarlyResync, InChunk, PayloadDue, ReplyLength, ReplyType, BsLengthOk, BsExtent, BsPrefix, Lookup,
         AllProgress, QuietLog, SimpleSize, Magic, ChunkCallback, Current;
    var g := OnRecvReadPayload(u, h);
    ReadPayloadQuiet(u, h);
    Onward(h, g);
  }

  lemma ReadPayloadQuiet(u: User, h: Handle)
    requires h.state.RecvReadPayload?
    ensures Quiet(h, OnRecvReadPayload(u, h))
  {
    hide Quiet;
    ActQuiet(u, h);
  }

  lemma ChunkTypeParse(h: Handle, i: nat)
    requires h.state.ChunkStart? && !h.failed && Current(h) == Some(i) && InChunk(h) && !Simple(h)
    requires Matched(h) && Saved(h) && h.r.rlen == 0 && h.r.payloadLeft == ReplyLength(h)
             && |h.r.reply| == ChunkHeaderLen(h)
    ensures Fine(OnChunkType(h, i, ReplyLength(h), ReplyType(h)))
  {
    hide Field, EarlyResync, PayloadDue, ReplyLength, ReplyType, BsLengthOk, Lookup, AllProgress, QuietLog, Magic,
         Simple, LastChunk, IsErrorType, Current, InChunk, ForRead, Taken, Matched, At, Acts;
    var g := OnChunkType(h, i, ReplyLength(h), ReplyType(h));
    OnChunkTypeQuiet(h, i, ReplyLength(h), ReplyType(h));
    Onward(h, g);
    InChunkFacts(h, i);
    ChunkTypeAt(h, i);
  }

  lemma InChunkFacts(h: Handle, i: nat)
    requires Current(h) == Some(i) && InChunk(h) && !Simple(h)
    ensures Taken(h) == ChunkHeaderLen(h) + ReplyLength(h) && CurReq(h) == Some(h.q.inFlight[i].req)
    ensures ForRead(h) == h.q.inFlight[i].req.kind.Read? && |h.r.hdr| == ChunkHeaderLen(h)
  {
    hide Current, ReplyLength, Simple;
  }

  /** A chunk header has just been accepted for the command at position `i`. */
  predicate Accepted(h: Handle, i: nat)
  {
    && h.state.ChunkStart? && Current(h) == Some(i) && InChunk(h) && !Simple(h)
    && ForRead(h) == h.q.inFlight[i].req.kind.Read?
    && h.r.rlen == 0 && h.r.payloadLeft == ReplyLength(h) && |h.r.reply| == ChunkHeaderLen(h)
    && CurReq(h) == Some(h.q.inFlight[i].req) && |h.r.hdr| == ChunkHeaderLen(h)
    && Taken(h) == ChunkHeaderLen(h) + ReplyLength(h)
  }

  lemma ChunkTypeAtNone(h: Handle, i: nat)
    requires Accepted(h, i) && ReplyType(h) == NBD_REPLY_TYPE_NONE
    ensures At(OnChunkType(h, i, ReplyLength(h), ReplyType(h)))
  {
    hide Field, EarlyResync, ReplyLength, ReplyType, BsLengthOk, Lookup, Quiet, Magic, Simple, LastChunk, IsErrorType,
         Current, InChunk, ForRead, Taken, Matched, AtPreamble, AtHeader, Acts;
    var g := OnChunkType(h, i, ReplyLength(h), ReplyType(h));
    OnChunkTypeQuiet(h, i, ReplyLength(h), ReplyType(h));
    Onward(h, g);
  }

  lemma ChunkTypeAtData(h: Handle, i: nat)
    requires Accepted(h, i) && ReplyType(h) == NBD_REPLY_TYPE_OFFSET_DATA
    ensures At(OnChunkType(h, i, ReplyLength(h), ReplyType(h)))
  {
    hide Field, EarlyResync, ReplyLength, ReplyType, BsLengthOk, Lookup, Quiet, Magic, Simple, LastChunk, IsErrorType,
         Current, InChunk, ForRead, Taken, Matched, AtPreamble, AtHeader, Acts;
    var g := OnChunkType(h, i, ReplyLength(h), ReplyType(h));
    OnChunkTypeQuiet(h, i, ReplyLength(h), ReplyType(h));
    Onward(h, g);
  }

  lemma ChunkTypeAtHole(h: Handle, i: nat)
    requires Accepted(h, i) && ReplyType(h) == NBD_REPLY_TYPE_OFFSET_HOLE
    ensures At(OnChunkType(h, i, ReplyLength(h), ReplyType(h)))
  {
    hide Field, EarlyResync, ReplyLength, ReplyType, BsLengthOk, Lookup, Quiet, Magic, Simple, LastChunk, IsErrorType,
         Current, InChunk, ForRead, Taken, Matched, AtPreamble, AtHeader, Acts;
    var g := OnChunkType(h, i, ReplyLength(h), ReplyType(h));
    OnChunkTypeQuiet(h, i, ReplyLength(h), ReplyType(h));
    Onward(h, g);
  }

  /** A block status chunk that the command cannot take. */
  predicate StatusRefused(h: Handle, i: nat)
    requires i < |h.q.inFlight|
  {
    !h.q.inFlight[i].req.kind.BlockStatusCmd? || !h.n.metaValid || h.n.contexts == []
      || !BsLengthOk(ReplyType(h), ReplyLength(h))
  }

  lemma ChunkTypeAtRefused(h: Handle, i: nat)
    requires Accepted(h, i)
    requires ReplyType(h) == NBD_REPLY_TYPE_BLOCK_STATUS || ReplyType(h) == NBD_REPLY_TYPE_BLOCK_STATUS_EXT
    requires StatusRefused(h, i)
    ensures At(OnChunkType(h, i, ReplyLength(h), ReplyType(h)))
  {
    hide Field, EarlyResync, ReplyLength, ReplyType, BsLengthOk, Lookup, Quiet, Magic, Simple, LastChunk, IsErrorType,
         Current, InChunk, ForRead, Taken, Matched, AtPreamble, AtHeader, Acts;
    var g := OnChunkType(h, i, ReplyLength(h), ReplyType(h));
    OnChunkTypeQuiet(h, i, ReplyLength(h), ReplyType(h));
    Onward(h, g);
  }

  lemma ChunkTypeAtStatus(h: Handle, i: nat)
    requires Accepted(h, i)
    requires ReplyType(h) == NBD_REPLY_TYPE_BLOCK_STATUS || ReplyType(h) == NBD_REPLY_TYPE_BLOCK_STATUS_EXT
    requires !StatusRefused(h, i)
    ensures At(OnChunkType(h, i, ReplyLength(h), ReplyType(h)))
  {
    hide Field, EarlyResync, ReplyLength, ReplyType, BsLengthOk, Lookup, Quiet, Magic, Simple, LastChunk, IsErrorType,
         Current, InChunk, ForRead, Taken, Matched, AtPreamble, AtHeader, Acts;
    var g := OnChunkType(h, i, ReplyLength(h), ReplyType(h));
    OnChunkTypeQuiet(h, i, ReplyLength(h), ReplyType(h));
    Onward(h, g);
  }

  lemma ChunkTypeAtOther(h: Handle, i: nat)
    requires Accepted(h, i) && ReplyType(h) > NBD_REPLY_TYPE_OFFSET_HOLE
    requires ReplyType(h) != NBD_REPLY_TYPE_BLOCK_STATUS && ReplyType(h) != NBD_REPLY_TYPE_BLOCK_STATUS_EXT
    ensures At(OnChunkType(h, i, ReplyLength(h), ReplyType(h)))
  {
    hide Field, EarlyResync, ReplyLength, ReplyType, BsLengthOk, Lookup, Quiet, Magic, Simple, LastChunk, IsErrorType,
         Current, InChunk, ForRead, Taken, Matched, AtPreamble, AtHeader, Acts;
    var g := OnChunkType(h, i, ReplyLength(h), ReplyType(h));
    OnChunkTypeQuiet(h, i, ReplyLength(h), ReplyType(h));
    Onward(h, g);
  }

  /** The position that the chunk's type leads to. */
  lemma ChunkTypeAt(h: Handle, i: nat)
    requires Accepted(h, i)
    ensures At(OnChunkType(h, i, ReplyLength(h), ReplyType(h)))
  {
    hide At, OnChunkType, ReplyType, ReplyLength, StatusRefused, InChunk, Simple, Taken, CurReq, ForRead, Current;
    if ReplyType(h) == NBD_REPLY_TYPE_NONE {
      ChunkTypeAtNone(h, i);
    } else if ReplyType(h) == NBD_REPLY_TYPE_OFFSET_DATA {
      ChunkTypeAtData(h, i);
    } else if ReplyType(h) == NBD_REPLY_TYPE_OFFSET_HOLE {
      ChunkTypeAtHole(h, i);
    } else if ReplyType(h) == NBD_REPLY_TYPE_BLOCK_STATUS || ReplyType(h) == NBD_REPLY_TYPE_BLOCK_STATUS_EXT {
      if StatusRefused(h, i) { ChunkTypeAtRefused(h, i); } else { ChunkTypeAtStatus(h, i); }
    } else {
      ChunkTypeAtOther(h, i);
    }
  }

  lemma ChunkStartParse(h: Handle)
    requires Parse(h) && h.state.ChunkStart? && !h.failed
    ensures Fine(OnChunkStart(h))
  {
    hide Field, ReplyLength, ReplyType, BsLengthOk, Lookup, Magic, Simple, LastChunk, OnChunkType, Current, ForRead,
         Matched;
    if ReplyLength(h) <= MAX_REQUEST_SIZE + 8 {
      if EarlyResync(h) {
        EarlyParse(h);
      } else {
        var k := h.(r := h.r.(payloadLeft := ReplyLength(h)));
        SameView(h, k);
        assert Matched(k) by { SameMatched(h, k); }
        ChunkTypeParse(k, Current(h).value);
      }
    }
  }

  lemma SameMatched(h: Handle, k: Handle)
    requires Matched(h) && k.q == h.q && k.r.hdr == h.r.hdr && k.r.replyCmd == h.r.replyCmd && Pos(k) == Pos(h)
    ensures Matched(k)
  {
    hide Lookup, Pos, Field;
  }

  lemma EarlyParse(h: Handle)
    requires Parse(h) && h.state.ChunkStart? && !h.failed && EarlyResync(h)
    ensures Fine(SkipRest(h))
  {
    hide Field, ReplyLength, ReplyType, BsLengthOk, Lookup, Magic, Simple, LastChunk, Current, ForRead, EarlyResync,
         InChunk;
    SameView(h, SkipRest(h));
  }

  /** An error chunk without a message, or whose message does not fit. */
  predicate NoMessage(h: Handle)
  {
    var msglen := Field(h.r.pay, 4, 6);
    h.r.payloadLeft < 6 || msglen > h.r.payloadLeft - 6 || msglen > NBD_MAX_STRING
  }

  lemma BareErrorParse(h: Handle)
    requires Parse(h) && h.state.RecvError? && h.r.rlen == 0 && !h.failed && NoMessage(h)
    ensures Fine(OnRecvError(h))
  {
    hide Field, EarlyResync, PayloadDue, ReplyLength, ReplyType, BsLengthOk, Lookup, Quiet, Magic, Simple, Current,
         ForRead, InChunk, Taken, ErrnoOf, Cookie, AtPreamble, AtHeader, Acts;
    var g := OnRecvError(h);
    OnRecvErrorQuiet(h);
    Onward(h, g);
    ChunkKnown(h);
  }

  lemma ErrorParse(h: Handle)
    requires Parse(h) && h.state.RecvError? && h.r.rlen == 0 && !h.failed && !NoMessage(h)
    ensures Fine(OnRecvError(h))
  {
    hide Field, EarlyResync, PayloadDue, ReplyLength, ReplyType, BsLengthOk, Lookup, Quiet, Magic, Simple, Current,
         ForRead, InChunk, Taken, ErrnoOf, Cookie, AtPreamble, AtHeader, Acts;
    var g := OnRecvError(h);
    OnRecvErrorQuiet(h);
    Onward(h, g);
    ChunkKnown(h);
  }

  /** In a payload the command is known and the whole payload is due. */
  lemma ChunkKnown(h: Handle)
    requires InChunk(h) && !Simple(h)
    ensures Current(h).Some? && CurReq(h) == Some(h.q.inFlight[Current(h).value].req) && |h.r.hdr| == ChunkHeaderLen(h)
    ensures Taken(h) == ChunkHeaderLen(h) + ReplyLength(h)
  {
    InChunkFacts(h, Current(h).value);
  }

  lemma ErrorMessageParse(h: Handle)
    requires Parse(h) && h.state.RecvErrorMessage? && h.r.rlen == 0 && !h.failed
    ensures Fine(OnRecvErrorMessage(h))
  {
    hide Field, EarlyResync, PayloadDue, ReplyLength, ReplyType, BsLengthOk, Lookup, Magic, Simple, Current, ForRead,
         InChunk, Taken, Cookie, AtPreamble, AtHeader, Acts;
    SameView(h, OnRecvErrorMessage(h));
  }

  lemma ErrorTailParse(u: User, h: Handle)
    requires Parse(h) && h.state.RecvErrorTail? && h.r.rlen == 0 && !h.failed
    ensures Fine(OnRecvErrorTail(u, h))
  {
    hide Field, EarlyResync, PayloadDue, ReplyLength, ReplyType, BsLengthOk, Lookup, Quiet, Magic, Simple, Current,
         ForRead, InChunk, Taken, ErrnoOf, Cookie, ErrorCallback, FlagCmd, InBounds, AtPreamble, AtHeader, Acts;
    var g := OnRecvErrorTail(u, h);
    OnRecvErrorTailQuiet(u, h);
    Onward(h, g);
    ChunkKnown(h);
  }

  lemma OffsetDataParse(h: Handle)
    requires Parse(h) && h.state.RecvOffsetData? && h.r.rlen == 0 && !h.failed
    ensures Fine(OnRecvOffsetData(h))
  {
    hide Field, EarlyResync, PayloadDue, ReplyLength, ReplyType, BsLengthOk, Lookup, Quiet, Magic, Simple, Current,
         InChunk, Taken, Cookie, InBounds, Seen, AtPreamble, AtHeader, Acts;
    var g := OnRecvOffsetData(h);
    OnRecvOffsetDataQuiet(h);
    Onward(h, g);
    ChunkKnown(h);
  }

  lemma OffsetDataDataParse(u: User, h: Handle)
    requires Parse(h) && h.state.RecvOffsetDataData? && h.r.rlen == 0 && !h.failed
    ensures Fine(OnRecvOffsetDataData(u, h))
  {
    hide Field, EarlyResync, PayloadDue, ReplyLength, ReplyType, BsLengthOk, Lookup, Quiet, Magic, Simple, Current,
         InChunk, Taken, Cookie, ChunkCallback, Slice, ForRead, AtPreamble, AtHeader, Acts;
    var g := OnRecvOffsetDataData(u, h);
    OffsetDataDataQuiet(u, h);
    Onward(h, g);
    ChunkKnown(h);
  }

  lemma OffsetDataDataQuiet(u: User, h: Handle)
    requires h.state.RecvOffsetDataData?
    ensures Quiet(h, OnRecvOffsetDataData(u, h))
  {
    hide Quiet, OnRecvOffsetDataData;
    ActQuiet(u, h);
  }

  lemma OffsetHoleParse(u: User, h: Handle)
    requires Parse(h) && h.state.RecvOffsetHole? && h.r.rlen == 0 && !h.failed
    ensures Fine(OnRecvOffsetHole(u, h))
  {
    hide Field, EarlyResync, PayloadDue, ReplyLength, ReplyType, BsLengthOk, Lookup, Quiet, Magic, Simple, Current,
         InChunk, Taken, Cookie, ChunkCallback, Slice, InBounds, Seen, Overlay, AtPreamble, AtHeader, Acts;
    var g := OnRecvOffsetHole(u, h);
    OnRecvOffsetHoleQuiet(u, h);
    Onward(h, g);
    ChunkKnown(h);
  }

  /** The count in an extended block status header does not fit its length. */
  predicate WrongCount(h: Handle)
  {
    ReplyType(h) != NBD_REPLY_TYPE_BLOCK_STATUS && h.r.payloadLeft >= 8
      && (h.r.payloadLeft - 8) / 16 != Field(h.r.pay, 4, 8)
  }

  lemma BadBsHeaderParse(h: Handle)
    requires Parse(h) && h.state.RecvBsHeader? && h.r.rlen == 0 && !h.failed && WrongCount(h)
    ensures Fine(OnRecvBsHeader(h))
  {
    hide Field, EarlyResync, PayloadDue, ReplyLength, ReplyType, Lookup, Magic, Simple, Current, InChunk, Taken, Cookie,
         ForRead, AtPreamble, AtHeader, Acts;
    SameView(h, OnRecvBsHeader(h));
    ChunkKnown(h);
  }

  lemma BsHeaderParse(h: Handle)
    requires Parse(h) && h.state.RecvBsHeader? && h.r.rlen == 0 && !h.failed && !WrongCount(h)
    ensures Fine(OnRecvBsHeader(h))
  {
    hide Field, EarlyResync, PayloadDue, ReplyLength, ReplyType, Lookup, Magic, Simple, Current, InChunk, Taken, Cookie,
         ForRead, AtPreamble, AtHeader, Acts;
    SameView(h, OnRecvBsHeader(h));
    ChunkKnown(h);
  }

  lemma BsEntriesParse(u: User, h: Handle)
    requires Parse(h) && h.state.RecvBsEntries? && h.r.rlen == 0 && !h.failed
    ensures Fine(OnRecvBsEntries(u, h))
  {
    hide Field, EarlyResync, PayloadDue, ReplyLength, ReplyType, BsLengthOk, Lookup, Quiet, Magic, Simple, Current,
         InChunk, Taken, Cookie, ExtentCallback, CookedFor, Context, ForRead, BsExtent, BsPrefix, AtPreamble, AtHeader,
         Acts;
    var g := OnRecvBsEntries(u, h);
    OnRecvBsEntriesQuiet(u, h);
    Onward(h, g);
    ChunkKnown(h);
  }

  lemma ResyncParse(h: Handle)
    requires Parse(h) && h.state.Resync? && h.r.rlen == 0 && !h.failed
    ensures Fine(OnResync(h))
  {
    hide Field, EarlyResync, PayloadDue, ReplyLength, ReplyType, BsLengthOk, Lookup, Quiet, Magic, Simple, Current,
         InChunk, Taken, Cookie, FlagCmd, ForRead, AtPreamble, AtHeader, Acts, AtPayload;
    var g := OnResync(h);
    OnResyncQuiet(h);
    Onward(h, g);
  }

  lemma ChunkFinishParse(h: Handle)
    requires Parse(h) && h.state.ChunkFinish? && !h.failed
    ensures Fine(OnChunkFinish(h))
  {
    hide Field, EarlyResync, PayloadDue, ReplyLength, ReplyType, BsLengthOk, Lookup, Magic, Simple, InChunk, Taken,
         Cookie, ForRead, LastChunk, Current, AtHeader, AtPayload, Acts;
    if LastChunk(h) { SameView(h, OnChunkFinish(h)); }
  }

  /** The assertions of FINISH_COMMAND hold if and only if the command was known, or still
      is not. */
  lemma FinishParse(u: User, h: Handle)
    requires Parse(h) && h.state.FinishCommand? && !h.failed && !h.blocked && Ledger(h)
    ensures if Doomed(h) then OnFinishCommand(u, h) == Fail(h) else Fine(OnFinishCommand(u, h))
  {
    hide Law, FinishAt, AtHeader, AtPayload, Cookie, Taken, Acts;
  }

  lemma ActParse(u: User, h: Handle)
    requires Parse(h) && IsReplyState(h.state) && !h.state.ReplyStart? && (IsRecvState(h.state) ==> h.r.rlen == 0)
    requires !h.failed && (h.state.FinishCommand? ==> Ledger(h) && !h.blocked && !Doomed(h))
    ensures Fine(Act(u, h))
  {
    hide Fine, At, Matched, Doomed, Ledger, OnRecvErrorTail, OnRecvBsEntries, OnRecvOffsetHole, OnChunkStart,
         OnSimpleStart, OnRecvOffsetData, OnRecvError, OnResync, OnCheckReplyMagic, OnRecvErrorMessage, OnRecvBsHeader,
         OnChunkFinish, OnFinishCommand, OnRecvReadPayload, OnRecvOffsetDataData, NoMessage, WrongCount;
    match h.state
    case RecvReply => FullPreamble(h);
    case CheckReplyMagic => CheckMagicParse(h);
    case RecvStructuredRemaining => FullHeader(h);
    case SimpleStart => SimpleStartParse(h);
    case RecvReadPayload => ReadPayloadParse(u, h);
    case ChunkStart => ChunkStartParse(h);
    case RecvError => if NoMessage(h) { BareErrorParse(h); } else { ErrorParse(h); }
    case RecvErrorMessage => ErrorMessageParse(h);
    case RecvErrorTail => ErrorTailParse(u, h);
    case RecvOffsetData => OffsetDataParse(h);
    case RecvOffsetDataData => OffsetDataDataParse(u, h);
    case RecvOffsetHole => OffsetHoleParse(u, h);
    case RecvBsHeader => if WrongCount(h) { BadBsHeaderParse(h); } else { BsHeaderParse(h); }
    case RecvBsEntries => BsEntriesParse(u, h);
    case Resync => ResyncParse(h);
    case ChunkFinish => ChunkFinishParse(h);
    case FinishCommand => FinishParse(u, h);
  }

  lemma FullPreamble(h: Handle)
    requires Parse(h) && h.state.RecvReply? && h.r.rlen == 0 && !h.failed
    ensures Fine(Go(h, CheckReplyMagic))
  {
    hide Lookup, Cookie, AtHeader, AtPayload, AtEnd;
  }

  lemma FullHeader(h: Handle)
    requires Parse(h) && h.state.RecvStructuredRemaining? && h.r.rlen == 0 && !h.failed
    ensures Fine(Go(h, ChunkStart))
  {
    hide Lookup, Cookie, AtPreamble, AtPayload, AtEnd, Simple;
    SameView(h, Go(h, ChunkStart));
  }

  lemma ReplyParse(u: User, h: Handle, io: Io)
    requires Parse(h) && IsReplyState(h.state) && !h.blocked && !h.failed && IoOk(h, io) && Ledger(h)
    requires h.state.FinishCommand? ==> !Doomed(h)
    ensures Fine(EnterReply(u, h, io))
  {
    hide At, Matched, Doomed, Ledger, Act, Pause, Deliver, EnterReplyStart;
    if h.state.ReplyStart? {
      ReplyStartParse(h, io);
    } else {
      if h.state.Resync? { ResyncDiscards(h); }
      if IsRecvState(h.state) && h.r.rlen > 0 {
        if io.Got? {
          var g := Deliver(h, io.bytes);
          DeliverFields(h, io.bytes);
          DeliverParse(h, io.bytes);
          if g.r.rlen == 0 { ActParse(u, g); } else { PauseParse(g); }
        } else if io.Again? {
          PauseParse(h);
        }
      } else {
        ActParse(u, h);
      }
    }
  }

  lemma ResyncDiscards(h: Handle)
    requires Parse(h) && h.state.Resync?
    ensures h.r.target.Discard?
  {
    hide Taken, Matched, AtHeader, AtPreamble, AtPayload;
  }
}
