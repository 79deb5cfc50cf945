/** The reply parser does not depend on how the incoming stream is cut into pieces. */
module Fragmentation {
  import opened Bytes
  import opened BlockStatus
  import opened Nbd
  import opened Reply
  import opened Engine
  import opened EngineQuiet
  import opened EngineLedger
  import opened EngineSend
  import opened EngineParser
  import opened EngineSafety
  import opened ReadData

  // ---- the parser runs until it needs input ----

  /** How far a state is from waiting for input. */
  function Rank(s: State): nat
  {
    match s
    case ReplyStart => 20
    case RecvReply => 19
    case CheckReplyMagic => 18
    case RecvStructuredRemaining => 17
    case SimpleStart => 17
    case RecvReadPayload => 16
    case ChunkStart => 16
    case RecvError => 15
    case RecvErrorMessage => 14
    case RecvErrorTail => 13
    case RecvOffsetData => 15
    case RecvOffsetDataData => 14
    case RecvOffsetHole => 15
    case RecvBsHeader => 15
    case RecvBsEntries => 14
    case Resync => 12
    case ChunkFinish => 11
    case FinishCommand => 10
    case Ready => 3
    case _ => 1
  }

  /** A state that acts without waiting. */
  predicate Acting(h: Handle)
  {
    IsReplyState(h.state) && !h.state.ReplyStart? && !(IsRecvState(h.state) && h.r.rlen > 0)
  }

  /** The magic received so far cannot be that of an extended reply. */
  predicate BadMagic(h: Handle) { h.n.extended && |h.r.hdr| >= 4 && Magic(h) != NBD_EXTENDED_REPLY_MAGIC }

  lemma HeaderRank(u: User, h: Handle)
    requires h.state.RecvReply? || h.state.CheckReplyMagic? || h.state.RecvStructuredRemaining?
             || h.state.RecvErrorMessage?
             || h.state.RecvBsHeader? || h.state.ChunkFinish?
    ensures var g := Act(u, h); g.failed || (Rank(g.state) < Rank(h.state) && !g.state.Closed?)
    ensures Act(u, h).state.Ready? ==> h.state.ChunkFinish? || h.state.FinishCommand?
  {
    hide Acts, Field, Current, Lookup, OnSimpleStart, OnChunkStart, OnRecvError, OnRecvErrorTail, OnRecvBsEntries,
         OnRecvOffsetData, OnRecvOffsetHole, OnResync, OnFinishCommand, OnRecvReadPayload, OnRecvOffsetDataData,
         BsLengthOk, Magic;
  }

  lemma ChunkStartRank(h: Handle)
    requires h.state.ChunkStart?
    ensures Rank(OnChunkStart(h).state) < Rank(h.state) && !OnChunkStart(h).state.Closed?
            && !OnChunkStart(h).state.Ready?
  {
    hide Acts, OnChunkType, ReplyLength, Current, ReplyOffset, ReplyType;
    if !EarlyResync(h) {
      ChunkTypeRank(h.(r := h.r.(payloadLeft := ReplyLength(h))), Current(h).value, ReplyLength(h), ReplyType(h));
    }
  }

  lemma ChunkTypeRank(h: Handle, i: nat, length: nat, t: nat)
    requires h.state.ChunkStart? && i < |h.q.inFlight| && h.r.payloadLeft == length
    ensures var g := OnChunkType(h, i, length, t); Rank(g.state) < Rank(h.state) && !g.state.Closed? && !g.state.Ready?
  {
    hide Acts, BsLengthOk, IsErrorType, LastChunk;
  }

  lemma BodyRank(u: User, h: Handle)
    requires h.state.SimpleStart? || h.state.RecvError?
    ensures var g := Act(u, h); g.failed || (Rank(g.state) < Rank(h.state) && !g.state.Closed?)
    ensures Act(u, h).state.Ready? ==> h.state.ChunkFinish? || h.state.FinishCommand?
  {
    hide Acts, Field, Current, Lookup, OnChunkStart, OnRecvErrorTail, OnRecvBsEntries, OnRecvOffsetHole,
         OnRecvReadPayload, OnRecvOffsetDataData, InBounds, Seen, FlagCmd, FinishAt, Cookie, SimpleError, ErrnoOf,
         OnFinishCommand, OnResync, OnRecvOffsetData;
  }

  lemma LateRank(u: User, h: Handle)
    requires h.state.RecvOffsetData? || h.state.Resync? || h.state.FinishCommand?
    ensures var g := Act(u, h); g.failed || (Rank(g.state) < Rank(h.state) && !g.state.Closed?)
    ensures Act(u, h).state.Ready? ==> h.state.ChunkFinish? || h.state.FinishCommand?
  {
    hide Acts, Field, Current, Lookup, OnChunkStart, OnRecvErrorTail, OnRecvBsEntries, OnRecvOffsetHole,
         OnRecvReadPayload, OnRecvOffsetDataData, InBounds, Seen, FlagCmd, FinishAt, Cookie, SimpleError, ErrnoOf,
         OnSimpleStart, OnRecvError;
  }

  lemma CallbackRank(u: User, h: Handle)
    requires h.state.RecvReadPayload? || h.state.RecvErrorTail? || h.state.RecvOffsetDataData?
             || h.state.RecvOffsetHole?
             || h.state.RecvBsEntries?
    ensures var g := Act(u, h); g.failed || (Rank(g.state) < Rank(h.state) && !g.state.Closed?)
    ensures Act(u, h).state.Ready? ==> h.state.ChunkFinish? || h.state.FinishCommand?
  {
    hide Acts, Field, Current, Lookup, OnChunkStart, OnSimpleStart, OnRecvError, OnRecvOffsetData, OnResync,
         OnFinishCommand, InBounds, Seen, FlagCmd, ErrorCallback, ChunkCallback, ExtentCallback, CookedFor, Context,
         Slice, Overlay, ErrnoOf, ReplyType;
  }

  lemma ActRank(u: User, h: Handle)
    requires IsReplyState(h.state) && !h.state.ReplyStart?
    ensures var g := Act(u, h); g.failed || (Rank(g.state) < Rank(h.state) && !g.state.Closed?)
    ensures Act(u, h).state.Ready? ==> h.state.ChunkFinish? || h.state.FinishCommand?
  {
    hide Acts, OnChunkStart, OnSimpleStart, OnRecvError, OnRecvErrorTail, OnRecvBsEntries, OnRecvOffsetData,
         OnRecvOffsetHole, OnResync, OnFinishCommand, OnRecvReadPayload, OnRecvOffsetDataData, OnCheckReplyMagic,
         OnRecvErrorMessage, OnRecvBsHeader, OnChunkFinish;
    match h.state
    case ChunkStart => ChunkStartRank(h);
    case SimpleStart => BodyRank(u, h);
    case RecvError => BodyRank(u, h);
    case RecvOffsetData => LateRank(u, h);
    case Resync => LateRank(u, h);
    case FinishCommand => LateRank(u, h);
    case RecvReadPayload => CallbackRank(u, h);
    case RecvErrorTail => CallbackRank(u, h);
    case RecvOffsetDataData => CallbackRank(u, h);
    case RecvOffsetHole => CallbackRank(u, h);
    case RecvBsEntries => CallbackRank(u, h);
    case _ => HeaderRank(u, h);
  }

  // ---- normal forms ----

  const BLANK: Receiver := Receiver(0, Discard, [], [], [], 0, 0, None, None, [])

  /** The connection is given up, and what the parser held is forgotten. */
  function Grave(u: User, h: Handle): Handle { EnterEnd(u, h.(state := Dead, blocked := false, r := BLANK)) }

  /** The receiving state in which the parser will go on. */
  function Wake(h: Handle): Handle
  {
    if h.r.rlen == 0 then Go(StartPreamble(h), RecvReply)
    else if h.r.replyState.Some? then Go(h.(r := h.r.(replyState := None)), h.r.replyState.value)
    else Go(h, RecvReply)
  }

  function Vet(u: User, h: Handle): Handle { if h.state.RecvReply? && BadMagic(h) then Grave(u, h) else h }

  /** Where a handle ends up without further input: waiting for bytes in a receiving state,
      or dead. */
  function Norm(u: User, h: Handle): Handle
    decreases if h.failed then 0 else Rank(h.state)
  {
    if h.failed then h
    else if h.state.Dead? then (if h.blocked then h.(r := BLANK) else Grave(u, h))
    else if Acting(h) then
      ActRank(u, h);
      Norm(u, Act(u, h))
    else if h.state.Ready? || h.state.ReplyStart? then Vet(u, Wake(h))
    else Vet(u, h)
  }

  predicate Waiting(c: Handle)
  {
    !c.failed && IsRecvState(c.state) && c.r.rlen > 0 && !c.blocked && !(c.state.RecvReply? && BadMagic(c))
  }

  /** One byte arrives. */
  function Feed(u: User, c: Handle, b: byte): Handle
  {
    if Waiting(c) then Norm(u, Deliver(c, [b])) else c
  }

  /** Bytes arrive one at a time: the parser that knows nothing of fragments. */
  function FeedAll(u: User, c: Handle, bytes: seq<byte>): Handle
    decreases |bytes|
  {
    if bytes == [] then c else FeedAll(u, Feed(u, c, bytes[0]), bytes[1..])
  }

  lemma {:induction false} FeedConcat(u: User, c: Handle, a: seq<byte>, b: seq<byte>)
    ensures FeedAll(u, c, a + b) == FeedAll(u, FeedAll(u, c, a), b)
    decreases |a|
  {
    hide Feed;
    if a == [] {
      assert a + b == b;
    } else {
      assert (a + b)[1..] == a[1..] + b;
      FeedConcat(u, Feed(u, c, a[0]), a[1..], b);
    }
  }

  lemma {:induction false} FeedStuck(u: User, c: Handle, bytes: seq<byte>)
    requires !Waiting(c)
    ensures FeedAll(u, c, bytes) == c
    decreases |bytes|
  {
    hide Waiting;
    if bytes != [] { FeedStuck(u, c, bytes[1..]); }
  }

  // ---- what dying forgets ----

  lemma {:induction false} AbortBlank(u: User, h: Handle, list: seq<Command>, r: Receiver)
    ensures Abort(u, h.(r := r), list) == Abort(u, h, list).(r := r)
    decreases |list|
  {
    hide Complete, Leave;
    if list != [] {
      var cmd := list[0];
      var e := if cmd.error != 0 then cmd.error else ENOTCONN;
      var (g, cmd', retire) := Complete(u, h, cmd, e);
      LeaveBlank(u, h, cmd, e, r);
      AbortBlank(u, Leave(g, cmd'.FailWith(ENOTCONN), retire), list[1..], r);
    }
  }

  lemma LeaveBlank(u: User, h: Handle, cmd: Command, e: nat, r: Receiver)
    ensures var (g, cmd', retire) := Complete(u, h, cmd, e);
      var (g', cmd'', retire') := Complete(u, h.(r := r), cmd, e);
      && cmd'' == cmd' && retire' == retire
      && Leave(g', cmd''.FailWith(ENOTCONN), retire') == Leave(g, cmd'.FailWith(ENOTCONN), retire).(r := r)
  {
  }

  lemma EndBlank(u: User, h: Handle, r: Receiver)
    ensures EnterEnd(u, h.(r := r)) == EnterEnd(u, h).(r := r)
  {
    hide Abort;
    var h1 := h.(q := h.q.(toIssue := []));
    AbortBlank(u, h1, h.q.toIssue, r);
    var g := Abort(u, h1, h.q.toIssue);
    AbortBlank(u, g.(q := g.q.(inFlight := [])), h.q.inFlight, r);
  }

  /** Handles that differ in the parser alone have the same grave. */
  lemma GraveSame(u: User, h: Handle, g: Handle)
    requires g.n == h.n && g.w == h.w && g.q == h.q && g.log == h.log && g.overrun == h.overrun && g.failed == h.failed
    ensures Grave(u, g) == Grave(u, h)
  {
    hide EnterEnd;
  }

  // ---- receiving in two parts ----

  lemma FillTwice(cmd: Command, a: seq<byte>, b: seq<byte>)
    requires cmd.pieces != []
    ensures Fill(cmd, a).pieces != [] && Fill(Fill(cmd, a), b) == Fill(cmd, a + b)
    ensures FillsOutside(cmd, a) || FillsOutside(Fill(cmd, a), b) <==> FillsOutside(cmd, a + b)
  {
    hide Overlay;
    var n := |cmd.pieces| - 1;
    var p := cmd.pieces[n];
    OverlayMore(cmd.data, p.at + |p.bytes|, a, b);
    assert (p.bytes + a) + b == p.bytes + (a + b);
    assert Fill(Fill(cmd, a), b).pieces == Fill(cmd, a + b).pieces;
  }

  lemma DeliverPlain(h: Handle, bytes: seq<byte>)
    requires |bytes| <= h.r.rlen && !h.r.target.ToData?
    ensures Deliver(h, bytes) == h.(r := h.r.(
      rlen := h.r.rlen - |bytes|, reply := h.r.reply + bytes,
      hdr := if h.r.target.ToHdr? then h.r.hdr + bytes else h.r.hdr,
      pay := if h.r.target.ToPay? then h.r.pay + bytes else h.r.pay,
      aux := if h.r.target.ToAux? then h.r.aux + bytes else h.r.aux))
  {
  }

  lemma Assoc(s: seq<byte>, a: seq<byte>, b: seq<byte>)
    ensures (s + a) + b == s + (a + b)
  {
  }

  lemma DeliverTwice(h: Handle, a: seq<byte>, b: seq<byte>)
    requires |a| + |b| <= h.r.rlen
    ensures Deliver(h, a).r.rlen == h.r.rlen - |a| && Deliver(Deliver(h, a), b) == Deliver(h, a + b)
  {
    hide Deliver;
    if h.r.target.ToData? {
      DeliverTwiceData(h, a, b);
    } else {
      DeliverPlain(h, a);
      DeliverPlain(Deliver(h, a), b);
      DeliverPlain(h, a + b);
      Assoc(h.r.reply, a, b);
      Assoc(h.r.hdr, a, b);
      Assoc(h.r.pay, a, b);
      Assoc(h.r.aux, a, b);
    }
  }

  lemma DeliverTwiceData(h: Handle, a: seq<byte>, b: seq<byte>)
    requires |a| + |b| <= h.r.rlen && h.r.target.ToData?
    ensures Deliver(h, a).r.rlen == h.r.rlen - |a| && Deliver(Deliver(h, a), b) == Deliver(h, a + b)
  {
    hide Fill, FillsOutside, Lookup;
    var g := Deliver(h, a);
    assert Current(g) == Current(h) by {
      DeliverQuiet(h, a);
      QuietCur(h, g);
    }
    match Current(h)
    case None =>
    case Some(i) =>
      if h.q.inFlight[i].pieces != [] {
        FillTwice(h.q.inFlight[i], a, b);
        var both := Fill(h.q.inFlight[i], a + b);
        assert h.q.inFlight[i := Fill(h.q.inFlight[i], a)][i := both] == h.q.inFlight[i := both];
      }
  }

  lemma BadMagicStays(h: Handle, bytes: seq<byte>)
    requires BadMagic(h) && h.r.target.ToHdr? && |bytes| <= h.r.rlen
    ensures BadMagic(Deliver(h, bytes))
  {
    FieldPrefix(h.r.hdr, bytes, 0, 4);
  }

  /** A reply with the wrong magic is the end, at once or when its header is complete. */
  lemma BadMagicDies(u: User, h: Handle)
    requires h.state.RecvReply? && BadMagic(h) && !h.failed
    ensures Norm(u, h) == Grave(u, h)
  {
    hide Grave, Field;
    if h.r.rlen == 0 {
      var g := Go(h, CheckReplyMagic);
      assert Act(u, h) == g;
      assert OnCheckReplyMagic(g) == Go(g, Dead);
      assert Norm(u, g) == Norm(u, Go(g, Dead));
      GraveSame(u, h, Go(g, Dead));
    }
  }

  /** Bytes that arrive together do what they do one by one. */
  lemma {:induction false} FeedTogether(u: User, c: Handle, bytes: seq<byte>)
    requires Waiting(c) && 0 < |bytes| <= c.r.rlen && (c.state.RecvReply? ==> c.r.target.ToHdr?)
    ensures FeedAll(u, c, bytes) == Norm(u, Deliver(c, bytes))
    decreases |bytes|
  {
    hide Norm, Deliver, Field, Grave;
    var b, rest := bytes[0], bytes[1..];
    var d := Deliver(c, [b]);
    assert bytes == [b] + rest;
    DeliverFields(c, [b]);
    DeliverTwice(c, [b], rest);
    if rest == [] {
      assert bytes == [b];
    } else {
      NormWaiting(u, d);
      if d.state.RecvReply? && BadMagic(d) {
        FeedDead(u, d, c, bytes);
      } else {
        FeedTogether(u, d, rest);
      }
    }
  }

  lemma NormWaiting(u: User, d: Handle)
    requires !d.failed && IsRecvState(d.state) && d.r.rlen > 0
    ensures Norm(u, d) == Vet(u, d)
  {
  }

  lemma FeedDead(u: User, d: Handle, c: Handle, bytes: seq<byte>)
    requires |bytes| > 1 && |bytes| <= c.r.rlen && d == Deliver(c, [bytes[0]]) && d.state.RecvReply? && BadMagic(d)
             && !d.failed
    requires c.r.target.ToHdr? && Feed(u, c, bytes[0]) == Grave(u, d)
    ensures FeedAll(u, c, bytes) == Norm(u, Deliver(c, bytes))
  {
    hide Norm, Grave, Feed, Magic, Waiting, Deliver;
    var rest := bytes[1..];
    DeliverFields(c, [bytes[0]]);
    DeliverFields(d, rest);
    assert bytes == [bytes[0]] + rest;
    DeliverTwice(c, [bytes[0]], rest);
    assert BadMagic(Deliver(d, rest)) by { BadMagicStays(d, rest); }
    BadMagicDies(u, Deliver(d, rest));
    HeaderOnly(d, rest);
    GraveSame(u, d, Deliver(d, rest));
    GraveDead(u, d);
    FeedStuck(u, Grave(u, d), rest);
  }

  lemma HeaderOnly(h: Handle, bytes: seq<byte>)
    requires h.r.target.ToHdr? && |bytes| <= h.r.rlen
    ensures var g := Deliver(h, bytes); g == h.(r := g.r)
  {
  }

  lemma GraveDead(u: User, h: Handle)
    ensures Grave(u, h).state.Dead? && Grave(u, h).blocked && Grave(u, h).r == BLANK && !Waiting(Grave(u, h))
  {
    hide EnterEnd;
    EnterEndState(u, h.(state := Dead, blocked := false, r := BLANK));
  }

  // ---- one step ----

  /** The steps of a connection on which nothing is sent: input, no input, or a
      notification that there is some. */
  predicate Listens(h: Handle, l: Label)
  {
    match l
    case Run(io) => io.Got? || io.Again? || (io.Flag? && h.state.Ready?)
    case Notify(read) => read
    case _ => false
  }

  /** The bytes that a step takes from the stream. */
  function Eats(h: Handle, l: Label): seq<byte>
  {
    if l.Run? && l.io.Got? && (if h.state.ReplyStart? then h.r.rlen == 0 else IsRecvState(h.state) && h.r.rlen > 0)
    then l.io.bytes else []
  }

  /** Nothing waits to be sent, and the parser's magic has been checked as far as it goes. */
  predicate Listening(h: Handle)
  {
    && h.q.toIssue == [] && !h.failed && (h.state.Ready? || h.state.Dead? || IsReplyState(h.state))
    && (Outside(h.state) && !h.state.Dead? && h.r.rlen > 0 && h.r.replyState.None? ==> !BadMagic(h))
    && (h.blocked ==> Outside(h.state))
  }

  lemma RestingNorm(u: User, h: Handle)
    requires Listening(h) && (h.state.Ready? || h.state.ReplyStart?) && Saved(h)
    ensures Norm(u, h) == Wake(h)
  {
    hide Grave, Field;
    FreshPreamble(h);
  }

  lemma FreshPreamble(h: Handle)
    ensures !BadMagic(Go(StartPreamble(h), RecvReply))
  {
    hide Field;
  }

  lemma ReadyNorm(u: User, h: Handle, io: Io)
    requires Listening(h) && h.state.Ready? && Parse(h)
    ensures Norm(u, EnterReady(h, io)) == Norm(u, h) && Listening(EnterReady(h, io))
  {
    hide Norm, At, Matched, Field;
    RestingNorm(u, h);
    RestingNorm(u, EnterReady(h, io));
  }

  lemma NotifyNorm(u: User, h: Handle)
    requires Listening(h) && Enabled(h, Notify(true)) && Parse(h)
    ensures Norm(u, Go(h, ReplyStart)) == Norm(u, h) && Listening(Go(h, ReplyStart))
            && OnNotify(h.state, true) == Some(ReplyStart)
  {
    hide Norm, At, Matched, Field;
    RestingNorm(u, h);
    RestingNorm(u, Go(h, ReplyStart));
  }

  lemma StartNorm(u: User, h: Handle, io: Io)
    requires Listening(h) && h.state.ReplyStart? && !h.blocked && IoOk(h, io) && (io.Got? || io.Again?) && Parse(h)
    ensures var g := EnterReplyStart(h, io);
      Norm(u, g) == FeedAll(u, Norm(u, h), Eats(h, Run(io))) && Listening(g)
  {
    hide Norm, At, Matched, Field, FeedAll, Deliver;
    var g := EnterReplyStart(h, io);
    RestingNorm(u, h);
    if h.r.rlen > 0 {
      NormWaiting(u, g);
      ParseStart(h);
      assert FeedAll(u, Norm(u, h), []) == Norm(u, h) by { FeedNone(u, Norm(u, h)); }
    } else {
      ParseStart(h);
      StartFresh(u, h, io);
    }
  }

  lemma FeedNone(u: User, c: Handle)
    ensures FeedAll(u, c, []) == c
  {
  }

  lemma ParseStart(h: Handle)
    requires Parse(h) && h.state.ReplyStart?
    ensures h.r.rlen == 0 ==> h.r.replyCmd.None? && h.r.replyState.None?
  {
    hide AtHeader, AtEnd, AtPayload, Matched;
  }

  lemma StartFresh(u: User, h: Handle, io: Io)
    requires Listening(h) && h.state.ReplyStart? && !h.blocked && IoOk(h, io) && (io.Got? || io.Again?)
    requires h.r.rlen == 0 && h.r.replyCmd.None? && h.r.replyState.None? && Norm(u, h) == Wake(h)
    ensures var g := EnterReplyStart(h, io);
      Norm(u, g) == FeedAll(u, Norm(u, h), Eats(h, Run(io))) && Listening(g)
  {
    hide Norm, Field, FeedAll, Deliver;
    var g := EnterReplyStart(h, io);
    var c := Wake(h);
    FreshPreamble(h);
    if io.Got? {
      FeedTogether(u, c, io.bytes);
      DeliverMoves(StartPreamble(h), io.bytes, RecvReply);
    } else {
      FeedNone(u, c);
      RestingNorm(u, g);
    }
  }

  lemma DeliverMoves(h: Handle, bytes: seq<byte>, s: State)
    requires |bytes| <= h.r.rlen && h.r.target.ToHdr?
    ensures Go(Deliver(h, bytes), s) == Deliver(Go(h, s), bytes)
    ensures Deliver(h, bytes).q == h.q && Deliver(h, bytes).failed == h.failed && Deliver(h, bytes).n == h.n
  {
  }

  lemma PauseNorm(u: User, h: Handle)
    requires IsRecvState(h.state) && h.r.rlen > 0 && !h.failed && !h.blocked && h.r.replyState.None?
    ensures Norm(u, Pause(h)) == Norm(u, h) && !Pause(h).failed
  {
    hide Grave, Field;
    NormWaiting(u, h);
    if h.state.RecvReply? && BadMagic(h) {
      GraveSame(u, h, Go(h, Dead));
    }
  }

  lemma PauseListens(u: User, h: Handle)
    requires IsRecvState(h.state) && h.r.rlen > 0 && !h.failed && !h.blocked && h.r.replyState.None?
             && h.q.toIssue == []
    ensures Listening(Pause(h))
  {
    hide Field;
  }

  lemma ActNorm(u: User, h: Handle)
    requires Acting(h) && !h.failed
    ensures Norm(u, Act(u, h)) == Norm(u, h)
  {
    hide Act, Grave, Vet, Wake;
  }

  lemma ActListens(u: User, h: Handle)
    requires Acting(h) && !h.failed && !h.blocked && Parse(h) && h.q.toIssue == [] && !Act(u, h).failed
    ensures Listening(Act(u, h))
  {
    hide Act, Parse, Quiet, Magic;
    var g := Act(u, h);
    ActRank(u, h);
    assert g.q.toIssue == [] by {
      if h.state.FinishCommand? { ActFinish(u, h); } else { ActQuiet(u, h); QuietNone(h, g); }
    }
    if g.state.Ready? { ActDrained(u, h); }
  }

  lemma QuietNone(h: Handle, g: Handle)
    requires Quiet(h, g)
    ensures g.q.toIssue == h.q.toIssue
  {
    hide AllProgress, QuietLog;
  }

  lemma ActChunkFinish(u: User, h: Handle)
    requires h.state.ChunkFinish?
    ensures Act(u, h) == OnChunkFinish(h)
  {
    hide OnChunkFinish;
  }

  lemma ActDrained(u: User, h: Handle)
    requires Parse(h) && (h.state.ChunkFinish? || h.state.FinishCommand?)
    ensures Act(u, h).r.rlen == 0
  {
    hide Taken, Matched, AtHeader, AtPreamble, AtPayload, CurReq, FinishAt, Lookup, Acts, Act;
    if h.state.FinishCommand? { ActFinish(u, h); } else { ActChunkFinish(u, h); }
  }

  /** A receiving state with `bytes` received, before it pauses or acts. */
  lemma AfterDelivery(u: User, h: Handle, g: Handle)
    requires IsRecvState(h.state) && !h.failed && !h.blocked && Parse(h) && h.q.toIssue == []
    requires g == (if h.r.rlen == 0 then Act(u, h) else Pause(h)) && !g.failed
    ensures Norm(u, g) == Norm(u, h) && Listening(g)
  {
    hide Norm, Act, Pause, At, Matched, Listening;
    if h.r.rlen == 0 {
      ActNorm(u, h);
      ActListens(u, h);
    } else {
      PauseNorm(u, h);
      PauseListens(u, h);
    }
  }

  lemma RecvNorm(u: User, h: Handle, io: Io)
    requires Listening(h) && IsRecvState(h.state) && h.r.rlen > 0 && !h.blocked && Parse(h) && EventOk(h, io)
    requires (io.Got? || io.Again?) && !EnterReply(u, h, io).failed
    ensures var g := EnterReply(u, h, io); Norm(u, g) == FeedAll(u, Norm(u, h), Eats(h, Run(io))) && Listening(g)
  {
    hide Norm, Act, Pause, Parse, FeedAll, Deliver, Field;
    if h.state.Resync? { ResyncDiscards(h); }
    if io.Again? {
      AfterDelivery(u, h, EnterReply(u, h, io));
      FeedNone(u, Norm(u, h));
    } else {
      var d := Deliver(h, io.bytes);
      DeliverFields(h, io.bytes);
      DeliverParse(h, io.bytes);
      assert d.q.toIssue == [] by { DeliverQuiet(h, io.bytes); QuietNone(h, d); }
      AfterDelivery(u, d, EnterReply(u, h, io));
      DeliverNorm(u, h, io.bytes);
    }
  }

  lemma DeliverNorm(u: User, h: Handle, bytes: seq<byte>)
    requires IsRecvState(h.state) && 0 < |bytes| <= h.r.rlen && !h.blocked && !h.failed && Parse(h)
    ensures Norm(u, Deliver(h, bytes)) == FeedAll(u, Norm(u, h), bytes)
  {
    hide Norm, Parse, FeedAll, Deliver, Field, Grave;
    NormWaiting(u, h);
    if h.state.RecvReply? { PreambleTarget(h); }
    if h.state.RecvReply? && BadMagic(h) {
      BadMagicStays(h, bytes);
      DeliverFields(h, bytes);
      HeaderOnly(h, bytes);
      BadMagicDies(u, Deliver(h, bytes));
      GraveSame(u, h, Deliver(h, bytes));
      GraveDead(u, h);
      FeedStuck(u, Grave(u, h), bytes);
    } else {
      FeedTogether(u, h, bytes);
    }
  }

  lemma PreambleTarget(h: Handle)
    requires Parse(h) && h.state.RecvReply?
    ensures h.r.target.ToHdr?
  {
    hide AtHeader, AtEnd, AtPayload, Matched;
  }

  lemma DeadNorm(u: User, h: Handle)
    requires h.state.Dead? && !h.blocked && !h.failed && Listening(h) && Ledger(h)
    ensures Norm(u, EnterEnd(u, h)) == Norm(u, h) && Listening(EnterEnd(u, h))
  {
    hide EnterEnd, Ledger;
    EnterEndLedger(u, h);
    EnterEndState(u, h);
    EndBlank(u, h, BLANK);
    LedgerEmpty(EnterEnd(u, h));
  }

  lemma LedgerEmpty(h: Handle)
    requires Ledger(h) && Ended(h)
    ensures h.q.toIssue == []
  {
    hide Laws;
  }

  /** Everything that holds in every reachable state. */
  ghost predicate Good(h: Handle)
  {
    Sound(h) && Ledger(h) && (Over(h) || SendSafe(h)) && Steady(h) && Waits(h)
  }

  lemma GoodStep(u: User, h: Handle, l: Label)
    requires Good(h) && Enabled(h, l)
    ensures Good(Step(u, h, l)) && !h.failed
    ensures if Breaks(h) then Step(u, h, l) == Fail(h) else !Step(u, h, l).failed
  {
    hide Sound, Ledger, SendSafe, Steady, Waits, Step, Breaks;
    SoundStep(u, h, l);
    StepLedger(u, h, l);
    StepSend(u, h, l);
    StepSteady(u, h, l);
    StepWaits(u, h, l);
  }

  lemma EnterNorm(u: User, h: Handle, io: Io)
    requires Good(h) && Listening(h) && Enabled(h, Run(io)) && Listens(h, Run(io)) && !Enter(u, h, io).failed
    ensures var g := Enter(u, h, io); Norm(u, g) == FeedAll(u, Norm(u, h), Eats(h, Run(io))) && Listening(g)
  {
    hide Norm, Act, Parse, FeedAll, Ledger, SendSafe, Steady, EnterEnd, EnterReady, EnterReplyStart, Magic, Deliver,
         Pause;
    if h.state.Dead? {
      DeadNorm(u, h);
      FeedNone(u, Norm(u, h));
    } else if h.state.Ready? {
      ReadyNorm(u, h, io);
      FeedNone(u, Norm(u, h));
    } else if h.state.ReplyStart? {
      StartNorm(u, h, io);
    } else if Acting(h) {
      if h.state.Resync? { ResyncDiscards(h); }
      ActNorm(u, h);
      ActListens(u, h);
      FeedNone(u, Norm(u, h));
    } else {
      RecvNorm(u, h, io);
    }
  }

  /** A step moves the normal form by the bytes it takes, and by nothing else. */
  lemma StepNorm(u: User, h: Handle, l: Label)
    requires Good(h) && Listening(h) && Enabled(h, l) && Listens(h, l)
    ensures var g := Step(u, h, l);
      Norm(u, g) == FeedAll(u, Norm(u, h), Eats(h, l)) && (g.failed || Listening(g)) && Good(g)
  {
    hide Norm, Parse, FeedAll, Ledger, SendSafe, Steady, Enter, Magic, Doomed;
    GoodStep(u, h, l);
    if Breaks(h) {
      BreakNorm(u, h, l);
    } else {
      match l
      case Run(io) => EnterNorm(u, h, io);
      case Notify(read) => NotifyNorm(u, h); FeedNone(u, Norm(u, h));
    }
  }

  /** A reply that runs into an assertion does so without more input. */
  lemma BreakNorm(u: User, h: Handle, l: Label)
    requires Enabled(h, l) && h.state.FinishCommand? && !h.failed && !h.blocked && Step(u, h, l) == Fail(h)
    ensures Norm(u, Fail(h)) == FeedAll(u, Norm(u, h), Eats(h, l))
  {
    hide Act, Grave, Vet, Wake, OnFinishCommand;
    ActFinish(u, h);
    ActNorm(u, h);
    FeedNone(u, Norm(u, h));
  }

  // ---- whole streams ----

  /** The pieces of a stream, put together. */
  function Joined(cuts: seq<seq<byte>>): seq<byte>
  {
    if cuts == [] then [] else Joined(cuts[..|cuts| - 1]) + cuts[|cuts| - 1]
  }

  /** A run on which nothing is sent; cuts[k] is what step k takes from the stream. */
  predicate IsListening(u: User, hs: seq<Handle>, ls: seq<Label>, cuts: seq<seq<byte>>)
  {
    && IsRun(u, hs, ls) && |cuts| == |ls|
    && forall k {:trigger ls[k]} | 0 <= k < |ls| :: Listens(hs[k], ls[k]) && cuts[k] == Eats(hs[k], ls[k])
  }

  /** Every run is the byte-at-a-time parser on the bytes it took. */
  lemma {:induction false} RunNorm(u: User, hs: seq<Handle>, ls: seq<Label>, cuts: seq<seq<byte>>, n: nat)
    requires IsListening(u, hs, ls, cuts) && Good(hs[0]) && Listening(hs[0]) && n < |hs|
    ensures Norm(u, hs[n]) == FeedAll(u, Norm(u, hs[0]), Joined(cuts[..n])) && (hs[n].failed || Listening(hs[n]))
            && Good(hs[n])
  {
    hide Norm, FeedAll, Good, Listening, Step, Listens, Eats, Enabled;
    if n == 0 {
      FeedNone(u, Norm(u, hs[0]));
    } else {
      RunNorm(u, hs, ls, cuts, n - 1);
      assert Listens(hs[n - 1], ls[n - 1]) && cuts[n - 1] == Eats(hs[n - 1], ls[n - 1]);
      assert Enabled(hs[n - 1], ls[n - 1]);
      GoodStep(u, hs[n - 1], ls[n - 1]);
      StepNorm(u, hs[n - 1], ls[n - 1]);
      FeedConcat(u, Norm(u, hs[0]), Joined(cuts[..n - 1]), cuts[n - 1]);
      assert cuts[..n][..n - 1] == cuts[..n - 1];
    }
  }

  /** The run has taken the whole stream, or has died on it or failed, and waits. */
  predicate Drained(h: Handle, cuts: seq<seq<byte>>, stream: seq<byte>)
  {
    h.blocked && Joined(cuts) <= stream && (h.state.Dead? || h.failed || Joined(cuts) == stream)
  }

  lemma DrainedNorm(u: User, hs: seq<Handle>, ls: seq<Label>, cuts: seq<seq<byte>>, stream: seq<byte>)
    requires IsListening(u, hs, ls, cuts) && Good(hs[0]) && Listening(hs[0]) && Drained(hs[|ls|], cuts, stream)
    ensures Norm(u, hs[|ls|]) == FeedAll(u, Norm(u, hs[0]), stream)
  {
    hide Norm, FeedAll, Good, Listening, Step, Listens, Eats, Joined;
    var n := |ls|;
    RunNorm(u, hs, ls, cuts, n);
    assert cuts[..n] == cuts;
    if hs[n].state.Dead? || hs[n].failed {
      var eaten := Joined(cuts);
      assert stream == eaten + stream[|eaten|..];
      FeedConcat(u, Norm(u, hs[0]), eaten, stream[|eaten|..]);
      assert !Waiting(Norm(u, hs[n])) by { if hs[n].failed { FailedStuck(u, hs[n]); } else { DeadStuck(u, hs[n]); } }
      FeedStuck(u, Norm(u, hs[n]), stream[|eaten|..]);
    }
  }

  lemma DeadStuck(u: User, h: Handle)
    requires h.state.Dead? && h.blocked && Listening(h)
    ensures Norm(u, h) == h.(r := BLANK) && !Waiting(Norm(u, h))
  {
    hide Grave;
  }

  lemma FailedStuck(u: User, h: Handle)
    requires h.failed
    ensures Norm(u, h) == h && !Waiting(h)
  {
  }

  /** What a user can see of a handle. */
  predicate LooksLike(h: Handle, g: Handle)
  {
    && g.q == h.q && g.log == h.log && g.overrun == h.overrun && g.n == h.n && g.w == h.w && g.failed == h.failed
    && (g.state.Dead? <==> h.state.Dead?)
  }

  lemma NormShows(u: User, h: Handle)
    requires Listening(h) && h.blocked && Saved(h)
    ensures LooksLike(h, Norm(u, h))
  {
    hide Norm, Field;
    if h.state.Dead? { DeadStuck(u, h); } else { RestingNorm(u, h); }
  }

  /** The theorem for any handle that satisfies the invariants. */
  lemma SameOutcome(u: User, hs: seq<Handle>, ls: seq<Label>, cuts: seq<seq<byte>>,
                    hs': seq<Handle>, ls': seq<Label>, cuts': seq<seq<byte>>, stream: seq<byte>)
    requires IsListening(u, hs, ls, cuts) && IsListening(u, hs', ls', cuts') && hs'[0] == hs[0] && Good(hs[0])
             && Listening(hs[0])
    requires Drained(hs[|ls|], cuts, stream) && Drained(hs'[|ls'|], cuts', stream)
    ensures LooksLike(hs[|ls|], hs'[|ls'|]) && Norm(u, hs[|ls|]) == Norm(u, hs'[|ls'|])
  {
    hide Norm, FeedAll, Good, Listening, Step, Enabled, Listens, Eats, Joined;
    DrainedNorm(u, hs, ls, cuts, stream);
    DrainedNorm(u, hs', ls', cuts', stream);
    RunNorm(u, hs, ls, cuts, |ls|);
    RunNorm(u, hs', ls', cuts', |ls'|);
    GoodSaved(u, hs[|ls|]);
    GoodSaved(u, hs'[|ls'|]);
  }

  lemma GoodSaved(u: User, h: Handle)
    requires Good(h) && (h.failed || Listening(h)) && h.blocked
    ensures LooksLike(h, Norm(u, h))
  {
    hide Ledger, SendSafe, Norm, At, Matched, Field;
    if h.failed { FailedStuck(u, h); } else if h.state.Dead? { DeadStuck(u, h); } else { NormShows(u, h); }
  }

  // ---- every reachable state is a starting point ----

  lemma {:induction false} RunGood(u: User, hs: seq<Handle>, ls: seq<Label>, n: nat)
    requires IsRun(u, hs, ls) && Fresh(hs[0]) && n < |hs|
    ensures Good(hs[n])
  {
    hide Sound, Ledger, SendSafe, Steady, Waits, Fresh, IsRun;
    RunParse(u, hs, ls, n);
    RunLedger(u, hs, ls, n);
    RunSend(u, hs, ls, n);
    RunWaits(u, hs, ls, n);
  }

  /** A parser at rest has not accepted a wrong magic. */
  predicate Vetted(h: Handle)
  {
    Outside(h.state) && !h.state.Dead? && !h.state.Closed? && h.r.rlen > 0 && h.r.replyState.None? ==> !BadMagic(h)
  }

  lemma PauseVetted(h: Handle)
    requires IsRecvState(h.state) && h.r.rlen > 0
    ensures Pause(h).failed || Vetted(Pause(h))
  {
    hide Field;
  }

  lemma ActVetted(u: User, h: Handle)
    requires Acting(h) && !h.blocked && !h.failed && Parse(h)
    ensures Act(u, h).failed || Vetted(Act(u, h))
  {
    hide Act, Parse, Magic;
    ActRank(u, h);
    if Act(u, h).state.Ready? { ActDrained(u, h); }
  }

  lemma ReplyVetted(u: User, h: Handle, io: Io)
    requires Parse(h) && IsReplyState(h.state) && !h.blocked && !h.failed && IoOk(h, io)
    ensures EnterReply(u, h, io).failed || Vetted(EnterReply(u, h, io))
  {
    hide Act, Pause, Parse, Deliver, Field, EnterReplyStart;
    if h.state.ReplyStart? {
      StartVetted(h, io);
    } else if IsRecvState(h.state) && h.r.rlen > 0 {
      if io.Got? {
        DeliverFields(h, io.bytes);
        DeliverParse(h, io.bytes);
        var d := Deliver(h, io.bytes);
        if d.r.rlen == 0 { ActVetted(u, d); } else { PauseVetted(d); }
      } else {
        PauseVetted(h);
      }
    } else {
      ActVetted(u, h);
    }
  }

  lemma StartVetted(h: Handle, io: Io)
    requires Parse(h) && h.state.ReplyStart? && IoOk(h, io)
    ensures EnterReplyStart(h, io).failed || Vetted(EnterReplyStart(h, io))
  {
    hide At, Matched, Field, Deliver, PreambleLen;
  }

  lemma StepVetted(u: User, h: Handle, l: Label)
    requires Vetted(h) && Good(h) && Enabled(h, l)
    ensures Vetted(Step(u, h, l))
  {
    hide Parse, Ledger, SendSafe, Steady, EnterReply, EnterEnd, EnterIssueFinish, EnterReady, EnterSend,
         EnterIssueStart, EnterPrepareWritePayload, EnterPause, Field, CommandCompleted, Doomed;
    GoodStep(u, h, l);
    match l
    case Run(io) =>
      if h.state.Dead? || h.state.Closed? {
        EnterEndState(u, h);
      } else if IsReplyState(h.state) {
        ReplyVetted(u, h, io);
      } else {
        RestVetted(u, h, io);
      }
    case Retire(cookie) => RetireFrameR(h, cookie);
    case _ =>
  }

  lemma RetireFrameR(h: Handle, cookie: nat)
    ensures var g := CommandCompleted(h, cookie).0; g.r == h.r && g.n == h.n && g.state == h.state
  {
    hide Lookup;
  }

  lemma RestVetted(u: User, h: Handle, io: Io)
    requires Vetted(h) && !h.blocked && EventOk(h, io) && !IsReplyState(h.state) && !h.state.Dead? && !h.state.Closed?
    ensures Vetted(Enter(u, h, io))
  {
    hide EnterReply, EnterEnd, EnterReady, EnterSend, EnterIssueStart, EnterPrepareWritePayload, EnterPause, Field,
         EnterIssueFinish;
    if h.state.IssueFinish? {
      IssueFinishR(h);
    } else {
      EnterOther(u, h, io);
    }
  }

  lemma IssueFinishR(h: Handle)
    ensures EnterIssueFinish(h).r == h.r && EnterIssueFinish(h).n == h.n
  {
    hide Field;
  }

  lemma {:induction false} RunVetted(u: User, hs: seq<Handle>, ls: seq<Label>, n: nat)
    requires IsRun(u, hs, ls) && Fresh(hs[0]) && n < |hs|
    ensures Vetted(hs[n])
  {
    hide Good, Step;
    if n > 0 {
      RunVetted(u, hs, ls, n - 1);
      RunGood(u, hs, ls, n - 1);
      StepVetted(u, hs[n - 1], ls[n - 1]);
    }
  }

  /** Only FINISH_COMMAND fails. */
  lemma FailsAtFinish(u: User, hs: seq<Handle>, ls: seq<Label>, n: nat)
    requires IsRun(u, hs, ls) && Fresh(hs[0]) && n < |hs| && !hs[n].state.FinishCommand?
    ensures !hs[n].failed
  {
    hide Good, Step, Doomed;
    if n > 0 {
      RunGood(u, hs, ls, n - 1);
      GoodStep(u, hs[n - 1], ls[n - 1]);
    }
  }

  /** The theorem applies to every reachable handle that waits in READY with nothing to
      send: between replies, or wherever a reply was interrupted. */
  lemma ReachableListens(u: User, hs: seq<Handle>, ls: seq<Label>, n: nat)
    requires IsRun(u, hs, ls) && Fresh(hs[0]) && n < |hs|
    requires hs[n].state.Ready? && hs[n].blocked
    ensures Good(hs[n]) && Listening(hs[n])
  {
    hide IsRun, Fresh, Laws, SendSafe, Steady, Parse, Field;
    RunGood(u, hs, ls, n);
    RunVetted(u, hs, ls, n);
    FailsAtFinish(u, hs, ls, n);
  }

  /** Take any run of a connection, whatever the server did, up to a handle that waits in
      READY with nothing to send: between replies, or wherever a reply was interrupted.  From
      there, any two ways of cutting one incoming stream into recv results, with EAGAIN and
      polling anywhere in between, lead to the same buffers, callbacks, errors and
      completions, to the same outcome (DEAD, a failed assertion, or neither), and to parsers
      that will go on in the same way. */
  lemma FragmentationIndependent(u: User, past: seq<Handle>, before: seq<Label>,
                                 hs: seq<Handle>, ls: seq<Label>, cuts: seq<seq<byte>>,
                                 hs': seq<Handle>, ls': seq<Label>, cuts': seq<seq<byte>>, stream: seq<byte>)
    requires IsRun(u, past, before) && Fresh(past[0])
    requires past[|before|].state.Ready? && past[|before|].blocked
    requires IsListening(u, hs, ls, cuts) && IsListening(u, hs', ls', cuts') && hs[0] == past[|before|] == hs'[0]
    requires Drained(hs[|ls|], cuts, stream) && Drained(hs'[|ls'|], cuts', stream)
    ensures LooksLike(hs[|ls|], hs'[|ls'|]) && Norm(u, hs[|ls|]) == Norm(u, hs'[|ls'|])
  {
    hide Norm, Good, Listening, Joined, Step, Enabled, Listens, Eats, Fresh, LooksLike;
    ReachableListens(u, past, before, |before|);
    SameOutcome(u, hs, ls, cuts, hs', ls', cuts', stream);
  }
}
