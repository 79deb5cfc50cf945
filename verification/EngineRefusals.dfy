/** Simple replies, and chunks that are refused: which command fails, and how. */
module EngineRefusals {
  import opened Bytes
  import opened BlockStatus
  import opened Nbd
  import opened Reply
  import opened Engine
  import opened EngineQuiet
  import opened EngineLedger
  import opened EngineSend
  import opened EngineParser
  import opened EngineSafety
  import opened EngineErrors
  import opened EngineHistory
  import opened EngineContent
  import opened ReadData
  import opened EngineReads
  import opened EngineReplies
  import opened EngineVerdicts

  /** The error that a command keeps, or gets. */
  function FirstError(was: Command, error: nat): nat { if was.error != 0 then was.error else error }

  // ---- RESYNC ----

  lemma ResyncHeader(d: Handle)
    requires Parse(d) && Content(d) && d.state.Resync?
    ensures d.r.hdr <= d.r.reply && |d.r.hdr| >= 16
  {
    hide AtPreamble, AtPayload, AtHeader, Matched, Receives, Claimed, Field, Taken;
  }

  lemma ResyncActs(u: User, d: Handle)
    requires d.state.Resync?
    ensures var g := Act(u, d);
      match Current(d)
      case None => g.state.FinishCommand? && g.q == d.q && g.log == d.log
      case Some(i) =>
        && g.state.ChunkFinish? && g.log == d.log + [Flagged(d.q.inFlight[i].req.cookie)]
        && |g.q.inFlight| == |d.q.inFlight| && g.q.inFlight[i].req == d.q.inFlight[i].req
        && g.q.inFlight[i].error == FirstError(d.q.inFlight[i], 71)
  {
    hide Acts, Lookup, Current, OnCheckReplyMagic, OnSimpleStart, OnRecvReadPayload, OnChunkStart, OnRecvError,
         OnRecvErrorMessage, OnRecvErrorTail, OnRecvOffsetData, OnRecvOffsetDataData, OnRecvOffsetHole, OnRecvBsHeader,
         OnRecvBsEntries, OnChunkFinish, OnFinishCommand;
  }

  /** In every run, when a chunk has been skipped: the command in flight with its cookie has an
      error, its own or 71, which is EPROTO, and is never reported as a success. */
  lemma ResyncFails(u: User, hs: seq<Handle>, ls: seq<Label>, m: nat, n: nat) returns (i: nat)
    requires IsRun(u, hs, ls) && Fresh(hs[0]) && m < n < |hs| && hs[m].state.Resync? && Completes(hs[m], ls[m])
    requires hs[m].r.replyCmd.Some?
    ensures var h, g, k := hs[m], hs[m + 1], Num(ReplyAt(hs[m], ls[m]), 8, 16);
      && i < |h.q.inFlight| == |g.q.inFlight| && h.q.inFlight[i].req.cookie == k == g.q.inFlight[i].req.cookie
      && g.state.ChunkFinish? && g.log == h.log + [Flagged(k)]
      && g.q.inFlight[i].error == FirstError(h.q.inFlight[i], 71) && Reported(k, true) !in hs[n].log
  {
    hide Step, Fresh, Lookup, FlightOk, Acts, Content, Parse, Act, Ledger, Num, Field;
    ActingFacts(u, hs, ls, m);
    var d := Handed(hs[m], ls[m].io);
    ResyncHeader(d);
    HeaderNumbers(d);
    KnownCurrent(d);
    i := Current(d).value;
    CurrentCookie(d);
    ResyncActs(u, d);
    SimpleNever(u, hs, ls, m + 1, n, i);
  }

  // ---- malformed error chunks ----

  lemma ErrorHeader(d: Handle)
    requires Parse(d) && Content(d) && d.state.RecvError? && d.r.rlen == 0
    ensures Current(d).Some? && d.r.hdr <= d.r.reply && |d.r.hdr| == (if d.n.extended then 32 else 20)
    ensures Payload(d.n.extended, d.r.reply) == d.r.pay && |d.r.pay| == Min(ReplyLength(d), 6)
    ensures d.r.payloadLeft == ReplyLength(d) >= 4
  {
    hide Field, Lookup, Matched, EarlyResync, BsLengthOk, Taken, AtEnd, AtHeader, AtPreamble;
  }

  lemma ErrorDecides(u: User, d: Handle, i: nat)
    requires d.state.RecvError? && Current(d) == Some(i) && d.r.payloadLeft >= 4
    ensures var g, length, msglen := Act(u, d), d.r.payloadLeft, Field(d.r.pay, 4, 6);
      && |g.q.inFlight| == |d.q.inFlight| && g.log == d.log
      && if length < 6 || msglen > length - 6 || msglen > 4096 then
           g.state.Resync? && g.q.inFlight[i].req == d.q.inFlight[i].req
           && g.q.inFlight[i].error == FirstError(d.q.inFlight[i], ErrnoOf(Field(d.r.pay, 0, 4)))
         else g.state.RecvErrorMessage? && g.q == d.q
  {
    hide Acts, Lookup, Current, Field, ErrnoOf, OnCheckReplyMagic, OnSimpleStart, OnRecvReadPayload, OnChunkStart,
         OnRecvErrorMessage, OnRecvErrorTail, OnRecvOffsetData, OnRecvOffsetDataData, OnRecvOffsetHole, OnRecvBsHeader,
         OnRecvBsEntries, OnResync, OnChunkFinish, OnFinishCommand;
  }

  /** In every run, when the first part of an error chunk is there: if the message does not fit
      in the chunk, or is too long, the command gets the errno of the error number and the chunk
      is skipped. */
  lemma ErrorRefused(u: User, hs: seq<Handle>, ls: seq<Label>, m: nat) returns (i: nat)
    requires IsRun(u, hs, ls) && Fresh(hs[0]) && m < |ls| && hs[m].state.RecvError? && Completes(hs[m], ls[m])
    ensures var h, g, s := hs[m], hs[m + 1], ReplyAt(hs[m], ls[m]); var pay := Payload(h.n.extended, s);
      var length := if h.n.extended then Num(s, 24, 32) else Num(s, 16, 20);
      && i < |h.q.inFlight| == |g.q.inFlight| && h.q.inFlight[i].req.cookie == Num(s, 8, 16)
      && length >= 4 && |pay| == Min(length, 6) && g.log == h.log
      && if length < 6 || Num(pay, 4, 6) > length - 6 || Num(pay, 4, 6) > 4096 then
           && g.state.Resync? && g.q.inFlight[i].req == h.q.inFlight[i].req
           && g.q.inFlight[i].error == FirstError(h.q.inFlight[i], ErrnoNumber(Num(pay, 0, 4)))
         else g.state.RecvErrorMessage? && g.q.inFlight[i].error == h.q.inFlight[i].error
  {
    hide Step, Fresh, Lookup, FlightOk, Acts, Content, Parse, Payload, Act, Ledger, ErrnoNumber, ErrnoOf, Val;
    ActingFacts(u, hs, ls, m);
    var d := Handed(hs[m], ls[m].io);
    ErrorHeader(d);
    HeaderNumbers(d);
    i := Current(d).value;
    CurrentCookie(d);
    ErrorDecides(u, d, i);
    KnownErrno(Num(d.r.pay, 0, 4));
  }

  lemma KnownErrno(e: nat)
    ensures ErrnoOf(e) == ErrnoNumber(e)
  {
  }

  // ---- block status ----

  lemma StatusHeader(d: Handle)
    requires Parse(d) && Content(d) && d.state.RecvBsHeader? && d.r.rlen == 0
    ensures Current(d).Some? && d.r.hdr <= d.r.reply && |d.r.hdr| == (if d.n.extended then 32 else 20)
    ensures Payload(d.n.extended, d.r.reply) == d.r.pay && |d.r.pay| == (if ReplyType(d) == 5 then 4 else 8)
    ensures d.r.payloadLeft == ReplyLength(d) && BsLengthOk(ReplyType(d), ReplyLength(d))
    ensures d.q.inFlight[Current(d).value].req.kind.BlockStatusCmd?
  {
    hide Field, Lookup, Matched, EarlyResync, Taken, AtEnd, AtHeader, AtPreamble;
  }

  lemma CountDecides(u: User, d: Handle, i: nat)
    requires d.state.RecvBsHeader? && Current(d) == Some(i) && d.q.inFlight[i].req.kind.BlockStatusCmd?
    requires BsLengthOk(ReplyType(d), d.r.payloadLeft)
    ensures var g := Act(u, d);
      && g.q == d.q && g.log == d.log
      && (if ReplyType(d) == 5 || 16 * Field(d.r.pay, 4, 8) == d.r.payloadLeft - 8 then g.state.RecvBsEntries?
          else g.state.Resync?)
  {
    hide Acts, Lookup, Current, Field, ReplyType, OnCheckReplyMagic, OnSimpleStart, OnRecvReadPayload, OnChunkStart,
         OnRecvError, OnRecvErrorMessage, OnRecvErrorTail, OnRecvOffsetData, OnRecvOffsetDataData, OnRecvOffsetHole,
         OnRecvBsEntries, OnResync, OnChunkFinish, OnFinishCommand;
  }

  /** In every run, when the first part of a block status chunk is there: a wide one whose number
      of descriptors is not what follows is skipped. */
  lemma CountRefused(u: User, hs: seq<Handle>, ls: seq<Label>, m: nat)
    requires IsRun(u, hs, ls) && Fresh(hs[0]) && m < |ls| && hs[m].state.RecvBsHeader? && Completes(hs[m], ls[m])
    ensures var h, g, s := hs[m], hs[m + 1], ReplyAt(hs[m], ls[m]); var pay := Payload(h.n.extended, s);
      var length, narrow := (if h.n.extended then Num(s, 24, 32) else Num(s, 16, 20)), Num(s, 6, 8) == 5;
      && |pay| == (if narrow then 4 else 8) && g.log == h.log
      && (if narrow || 16 * Num(pay, 4, 8) == length - 8 then g.state.RecvBsEntries? else g.state.Resync?)
  {
    hide Step, Fresh, Lookup, FlightOk, Acts, Content, Parse, Payload, Act, Ledger, Val, BsLengthOk;
    ActingFacts(u, hs, ls, m);
    var d := Handed(hs[m], ls[m].io);
    StatusHeader(d);
    HeaderNumbers(d);
    CountDecides(u, d, Current(d).value);
  }

  // ---- simple replies ----

  lemma SimpleActs(u: User, d: Handle)
    requires d.state.SimpleStart?
    ensures var g := Act(u, d);
      match Current(d)
      case None => SimpleError(d) != 0 || d.n.structured ==> g.state.FinishCommand? && g.q == d.q && g.log == d.log
      case Some(i) =>
        var was := d.q.inFlight[i];
        && |g.q.inFlight| == |d.q.inFlight| && g.q.inFlight[i].req == was.req && g.log == d.log
        && g.q.inFlight[i].error ==
             FirstError(was, if was.req.kind.Read? && d.n.structured then 71 else ErrnoOf(SimpleError(d)))
        && if was.req.kind.Read? && ErrnoOf(SimpleError(d)) == 0 then g.state.RecvReadPayload?
           else g.state.FinishCommand?
  {
    hide Acts, Lookup, Current, SimpleError, ErrnoOf, OnCheckReplyMagic, OnRecvReadPayload, OnChunkStart, OnRecvError,
         OnRecvErrorMessage, OnRecvErrorTail, OnRecvOffsetData, OnRecvOffsetDataData, OnRecvOffsetHole, OnRecvBsHeader,
         OnRecvBsEntries, OnResync, OnChunkFinish, OnFinishCommand;
  }

  /** In every run, when a simple reply to a command in flight is there: data follows if it is a
      read and there is no error, and otherwise the command ends; without an error before it has
      the errno of the error number, or 71, EPROTO, if it is a read that should have been answered
      by chunks. */
  lemma SimpleDecides(u: User, hs: seq<Handle>, ls: seq<Label>, m: nat) returns (i: nat)
    requires IsRun(u, hs, ls) && Fresh(hs[0]) && m < |ls| && hs[m].state.SimpleStart? && Completes(hs[m], ls[m])
    requires hs[m].r.replyCmd.Some?
    ensures var h, g, s := hs[m], hs[m + 1], ReplyAt(hs[m], ls[m]); var error := ErrnoNumber(Num(s, 4, 8));
      && i < |h.q.inFlight| == |g.q.inFlight| && h.q.inFlight[i].req.cookie == Num(s, 8, 16)
      && var was := h.q.inFlight[i]; var wrong := was.req.kind.Read? && h.n.structured;
      && g.q.inFlight[i].req == was.req && g.q.inFlight[i].error == FirstError(was, if wrong then 71 else error)
      && if was.req.kind.Read? && error == 0 then g.state.RecvReadPayload? else g.state.FinishCommand?
  {
    hide Step, Fresh, Lookup, FlightOk, Acts, Content, Parse, Act, Ledger, ErrnoNumber, ErrnoOf, Num, Field;
    ActingFacts(u, hs, ls, m);
    var d := Handed(hs[m], ls[m].io);
    SimpleHeader(d);
    HeaderNumbers(d);
    KnownCurrent(d);
    i := Current(d).value;
    CurrentCookie(d);
    SimpleActs(u, d);
    KnownErrno(SimpleError(d));
  }

  /** In every run, unless an assertion fails: a reply to no command in flight changes no command
      when it ends. */
  lemma StrayIgnored(u: User, hs: seq<Handle>, ls: seq<Label>, m: nat)
    requires IsRun(u, hs, ls) && Fresh(hs[0]) && m < |ls| && hs[m].state.FinishCommand? && Completes(hs[m], ls[m])
    requires hs[m].r.replyCmd.None? && !hs[m + 1].failed
    ensures hs[m + 1].state.Ready? && hs[m + 1].q == hs[m].q && hs[m + 1].log == hs[m].log
  {
    hide Step, Fresh, Lookup, FlightOk, Acts, Content, Parse, Act, Ledger, FinishAt;
    ActingFacts(u, hs, ls, m);
    ActFinish(u, hs[m]);
  }
}
