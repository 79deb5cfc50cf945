/** Verdicts: errors that the server reports count, and a command has no error without a
    cause. */
module EngineVerdicts {
  import opened Bytes
  import opened BlockStatus
  import opened Nbd
  import opened Reply
  import opened Engine
  import opened EngineQuiet
  import opened EngineLedger
  import opened EngineSend
  import opened EngineParser
  import opened EngineSafety
  import opened EngineErrors
  import opened EngineHistory
  import opened EngineContent
  import opened ReadData
  import opened EngineReads
  import opened EngineReplies

  // ---- an error is never forgotten ----

  /** In every run, a command that has an error and has not been reported as a success never
      will be. */
  lemma {:induction false} DirtyNeverSucceeds(u: User, hs: seq<Handle>, ls: seq<Label>, m: nat, n: nat, k: nat)
    requires IsRun(u, hs, ls) && Fresh(hs[0]) && m <= n < |hs| && k < hs[m].q.unique && !Clean(All(hs[m].q), k)
    requires Reported(k, true) !in hs[m].log
    ensures Reported(k, true) !in hs[n].log
    decreases n
  {
    hide Fresh, All, Clean, Step;
    if m < n {
      DirtyNeverSucceeds(u, hs, ls, m, n - 1, k);
      ErrorsStay(u, hs, ls, m, n - 1, k);
      assert Enabled(hs[n - 1], ls[n - 1]) && hs[n] == Step(u, hs[n - 1], ls[n - 1]);
      StepErrors(u, hs[n - 1], ls[n - 1]);
      NotReported(hs[n - 1], hs[n], k);
    }
  }

  lemma NotReported(h: Handle, g: Handle, k: nat)
    requires Adds(h, g) && !Clean(All(h.q), k) && Reported(k, true) !in h.log
    ensures Reported(k, true) !in g.log
  {
    hide Clean, All;
    if Reported(k, true) in g.log {
      var j :| 0 <= j < |g.log| && g.log[j] == Reported(k, true);
      assert j >= |h.log|;
      assert EventOf(h, g, g.log[j]);
      CleanParts(h.q, k);
    }
  }

  // ---- simple replies ----

  lemma SimpleSays(u: User, d: Handle, i: nat)
    requires d.state.SimpleStart? && Current(d) == Some(i) && SimpleError(d) != 0
    ensures var g, was := Act(u, d), d.q.inFlight[i];
      && g.state.FinishCommand? && !g.blocked && |g.q.inFlight| == |d.q.inFlight| && g.r == d.r
      && g.q.inFlight[i].req == was.req && g.log == d.log && g.q.unique == d.q.unique && (g.failed <==> d.failed)
      && g.q.inFlight[i].error ==
           if was.error != 0 then was.error
           else if was.req.kind.Read? && d.n.structured then 71
           else ErrnoNumber(SimpleError(d))
  {
    hide Acts, Lookup, Field;
  }

  lemma SimpleCurrent(u: User, d: Handle, i: nat)
    requires d.state.SimpleStart? && Current(d) == Some(i)
    ensures Act(u, d).r.replyCmd == d.r.replyCmd ==> Current(Act(u, d)) == Some(i)
  {
    hide Lookup, Act;
    ActQuiet(u, d);
    QuietCur(d, Act(u, d));
    if Act(u, d).r.replyCmd == d.r.replyCmd { SameCurrent(d, Act(u, d)); }
  }

  /** The command of a simple reply is ended by the next step. */
  lemma SimpleEnds(u: User, h: Handle, i: nat)
    requires Parse(h) && h.state.FinishCommand? && Current(h) == Some(i) && Ledger(h) && !h.failed && !h.blocked
    ensures var g := OnFinishCommand(u, h); !Stands(g.q.inFlight, h.q.inFlight[i])
  {
    hide At, Saved, Ledger, Lookup, FinishAt, Acts;
    CurrentCookie(h);
    assert Lookup(h.q.inFlight, Cookie(h)) == Some(i);
    FinishParse(u, h);
    var g := OnFinishCommand(u, h);
    var rest := h.q.inFlight[..i] + h.q.inFlight[i + 1..];
    assert g.q.inFlight == rest by { FinishRemoves(u, h, i); }
    forall j | 0 <= j < |rest| ensures rest[j].req.cookie != h.q.inFlight[i].req.cookie {
      var x := if j < i then j else j + 1;
      assert rest[j] == h.q.inFlight[x];
      if rest[j].req.cookie == h.q.inFlight[i].req.cookie { Alone(h, x, i); }
    }
  }

  lemma FinishRemoves(u: User, h: Handle, i: nat)
    requires Lookup(h.q.inFlight, Cookie(h)) == Some(i) && !OnFinishCommand(u, h).failed
    ensures OnFinishCommand(u, h).q.inFlight == h.q.inFlight[..i] + h.q.inFlight[i + 1..]
  {
    hide Lookup, Complete, Acts, Field;
  }

  /** In every run, if a simple reply has a non-zero error and its cookie is that of a command
      in flight, then that command is never reported as a success; and unless it had an error
      before, or is a read that should have been answered by chunks, its error is the errno of
      that number, which its completion callback is given. */
  lemma SimpleErrorCounts(u: User, hs: seq<Handle>, ls: seq<Label>, m: nat, n: nat) returns (i: nat)
    requires IsRun(u, hs, ls) && Fresh(hs[0]) && m < n < |hs| && hs[m].state.SimpleStart? && Completes(hs[m], ls[m])
    requires hs[m].r.replyCmd.Some? && Num(ReplyAt(hs[m], ls[m]), 4, 8) != 0
    ensures var h, s := hs[m], ReplyAt(hs[m], ls[m]);
      && i < |h.q.inFlight| && h.q.inFlight[i].req.cookie == Num(s, 8, 16)
      && Reported(Num(s, 8, 16), true) !in hs[n].log
      && var was := h.q.inFlight[i];
      && (was.error == 0 && !(was.req.kind.Read? && h.n.structured) ==>
            var c := was.(error := ErrnoNumber(Num(s, 4, 8)));
            if n == m + 1 then Stands(hs[n].q.inFlight, c) else Told(hs[n], c))
  {
    hide Step, Fresh, Lookup, FlightOk, Acts, Content, Parse, Val, Act, Stands, Told, All, Ledger, ErrnoNumber, Num;
    ActingFacts(u, hs, ls, m);
    var d := Handed(hs[m], ls[m].io);
    SimpleHeader(d);
    HeaderNumbers(d);
    assert Current(d).Some? by { KnownCurrent(d); }
    i := Current(d).value;
    CurrentCookie(d);
    SimpleSays(u, d, i);
    SimpleCurrent(u, d, i);
    NonZero(SimpleError(d));
    RunLedger(u, hs, ls, m + 1);
    SimpleNever(u, hs, ls, m + 1, n, i);
    var was := hs[m].q.inFlight[i];
    if was.error == 0 && !(was.req.kind.Read? && hs[m].n.structured) {
      var c := was.(error := ErrnoNumber(SimpleError(d)));
      StandsAt(hs[m + 1].q.inFlight, i, c);
      if n > m + 1 { SimpleTold(u, hs, ls, m + 1, n, i, c); }
    }
  }

  lemma NonZero(e: nat)
    ensures e != 0 ==> ErrnoNumber(e) != 0
  {
  }

  lemma KnownCurrent(d: Handle)
    requires Parse(d) && d.r.replyCmd.Some?
    ensures Current(d).Some?
  {
    hide At, Saved, Cookie;
  }

  lemma SimpleHeader(d: Handle)
    requires Parse(d) && Content(d) && d.state.SimpleStart?
    ensures d.r.hdr <= d.r.reply && |d.r.hdr| == 16
  {
    hide AtPreamble, AtPayload, AtEnd, Matched, Receives, Claimed, Field;
  }

  lemma SimpleNever(u: User, hs: seq<Handle>, ls: seq<Label>, m: nat, n: nat, i: nat)
    requires IsRun(u, hs, ls) && Fresh(hs[0]) && m <= n < |hs|
    requires i < |hs[m].q.inFlight| && hs[m].q.inFlight[i].error != 0
    ensures Reported(hs[m].q.inFlight[i].req.cookie, true) !in hs[n].log
  {
    hide Step, Fresh, Ledger, All, Clean;
    RunLedger(u, hs, ls, m);
    var k := hs[m].q.inFlight[i].req.cookie;
    OnlyOne(hs[m], i, k);
    DirtyNeverSucceeds(u, hs, ls, m, n, k);
  }

  lemma {:induction false} SimpleTold(u: User, hs: seq<Handle>, ls: seq<Label>, m: nat, n: nat, i: nat, c: Command)
    requires IsRun(u, hs, ls) && Fresh(hs[0]) && m < n < |hs| && hs[m].state.FinishCommand? && !hs[m].blocked
    requires i < |hs[m].q.inFlight| && Current(hs[m]) == Some(i) && c.error != 0 && !hs[m].failed
    requires hs[m].q.inFlight[i].req == c.req && hs[m].q.inFlight[i].error == c.error
    ensures Told(hs[n], c)
    decreases n
  {
    hide Fresh, Lookup, Parse, Told, Stands, Ledger, Step;
    var h := hs[n - 1];
    assert Enabled(h, ls[n - 1]) && hs[n] == Step(u, h, ls[n - 1]);
    if n == m + 1 {
      RunLedger(u, hs, ls, m);
      RunParse(u, hs, ls, m);
      StandsAt(h.q.inFlight, i, c);
      FinishRuns(u, h, ls[m]);
      FinishTells(u, h, c);
      SimpleEnds(u, h, i);
      StandsSame(hs[n].q.inFlight, h.q.inFlight[i], c);
    } else {
      SimpleTold(u, hs, ls, m, n - 1, i, c);
      StepTold(u, h, ls[n - 1], c);
    }
  }

  lemma StandsSame(list: seq<Command>, b: Command, c: Command)
    requires b.req == c.req && b.error == c.error
    ensures Stands(list, b) == Stands(list, c)
  {
  }

  lemma FinishRuns(u: User, h: Handle, l: Label)
    requires Enabled(h, l) && h.state.FinishCommand? && !h.blocked
    ensures l.Run? && Step(u, h, l) == OnFinishCommand(u, h)
  {
    hide OnFinishCommand, EnterReply;
    if l.Run? { ReplyIsFinish(u, h, l.io); }
  }

  // ---- the end of a command ----

  /** In every run, when FINISH_COMMAND ends a command: its completion callback is given its
      error, zero or not; then it is retired if the callback says so, or joins the back of the
      done queue with that error, or the one that a failing callback sets. */
  lemma EndTold(u: User, hs: seq<Handle>, ls: seq<Label>, m: nat) returns (i: nat)
    requires IsRun(u, hs, ls) && Fresh(hs[0]) && m < |ls| && hs[m].state.FinishCommand? && Completes(hs[m], ls[m])
    requires hs[m].r.replyCmd.Some?
    ensures var h, g := hs[m], hs[m + 1];
      && i < |h.q.inFlight| && h.q.inFlight[i].req.cookie == h.r.replyCmd.value && g.state.Ready?
      && g.q.inFlight == h.q.inFlight[..i] + h.q.inFlight[i + 1..]
      && Completed(u, h, g, h.q.inFlight[i])
  {
    hide Step, Fresh, Lookup, FlightOk, Acts, Content, Parse, Act, Ledger, Completed;
    ActingFacts(u, hs, ls, m);
    var d := Handed(hs[m], ls[m].io);
    KnownCurrent(d);
    i := Current(d).value;
    CurrentCookie(d);
    ActFinish(u, d);
    assert Matched(d) by { ParseMatches(d); }
    FinishParse(u, d);
    FinishSays(u, d, i);
  }

  lemma ParseMatches(d: Handle)
    requires Parse(d)
    ensures Matched(d)
  {
    hide At, Saved, Matched;
  }

  /** What becomes of a command that ends. */
  predicate Completed(u: User, h: Handle, g: Handle, cmd: Command)
  {
    var told := if cmd.req.hasCompletion then h.log + [CompletionCb(cmd.req.cookie, cmd.error)] else h.log;
    var a := u(told);
    var retire := cmd.req.kind.Disc? || (cmd.req.hasCompletion && a.ret == 1);
    var error := if cmd.req.hasCompletion && a.ret == -1 && a.err != 0 then a.err else cmd.error;
    && g.log == (if retire then told + [Retired(cmd.req.cookie)] else told)
    && g.q.done == if retire then h.q.done else h.q.done + [cmd.(error := error)]
  }

  lemma FinishSays(u: User, h: Handle, i: nat)
    requires h.state.FinishCommand? && Current(h) == Some(i) && Matched(h) && !OnFinishCommand(u, h).failed
    ensures var g := OnFinishCommand(u, h);
      && g.state.Ready? && g.q.inFlight == h.q.inFlight[..i] + h.q.inFlight[i + 1..]
      && Completed(u, h, g, h.q.inFlight[i])
  {
    hide Lookup, Acts, Cookie;
  }

  // ---- the end of the connection ----

  /** The command with the error that it ends with when the connection is over: its own, or
      107, which is ENOTCONN. */
  function Lost(cmd: Command): Command { cmd.(error := if cmd.error != 0 then cmd.error else 107) }

  /** The command was retired by its callback, or is in the done queue with an error. */
  predicate Fallen(h: Handle, req: Request)
  {
    Retired(req.cookie) in h.log || exists i | 0 <= i < |h.q.done| :: h.q.done[i].req == req && h.q.done[i].error != 0
  }

  lemma StaysFallen(h: Handle, g: Handle, req: Request)
    requires Fallen(h, req) && h.log <= g.log && h.q.done <= g.q.done
    ensures Fallen(g, req)
  {
    if Retired(req.cookie) !in h.log {
      var i :| 0 <= i < |h.q.done| && h.q.done[i].req == req && h.q.done[i].error != 0;
      assert g.q.done[i] == h.q.done[i];
    }
  }

  lemma {:induction false} AbortLoses(u: User, h: Handle, list: seq<Command>, j: nat)
    requires j < |list| && Sane(list)
    ensures Told(Abort(u, h, list), Lost(list[j])) && Fallen(Abort(u, h, list), list[j].req)
    decreases |list|
  {
    hide Told, Complete, Leave, Fallen;
    var cmd := list[0];
    var (g, cmd', retire) := Complete(u, h, cmd, if cmd.error != 0 then cmd.error else ENOTCONN);
    var k := Leave(g, cmd'.FailWith(ENOTCONN), retire);
    assert Abort(u, h, list) == Abort(u, k, list[1..]);
    if j == 0 {
      LeaveLost(u, h, cmd);
      AbortTold(u, k, list[1..], Lost(cmd));
      StaysAborted(u, k, list[1..], cmd.req);
    } else {
      AbortLoses(u, k, list[1..], j - 1);
    }
  }

  lemma LeaveLost(u: User, h: Handle, cmd: Command)
    ensures var (g, cmd', retire) := Complete(u, h, cmd, if cmd.error != 0 then cmd.error else ENOTCONN);
      var k := Leave(g, cmd'.FailWith(ENOTCONN), retire);
      Told(k, Lost(cmd)) && Fallen(k, cmd.req)
  {
    var (g, cmd', retire) := Complete(u, h, cmd, if cmd.error != 0 then cmd.error else ENOTCONN);
    var k := Leave(g, cmd'.FailWith(ENOTCONN), retire);
    if retire {
      assert k.log[|g.log|] == Retired(cmd.req.cookie);
    } else {
      assert k.q.done[|g.q.done|].req == cmd.req && k.q.done[|g.q.done|].error != 0;
    }
    if cmd.req.hasCompletion {
      assert g.log[|h.log|] == CompletionCb(cmd.req.cookie, Lost(cmd).error);
      assert g.log[|h.log|] in k.log;
    } else if !retire {
      StandsAt(k.q.done, |g.q.done|, Lost(cmd));
    } else {
      assert k.log[|g.log|] == Retired(cmd.req.cookie);
    }
  }

  lemma StaysAborted(u: User, h: Handle, list: seq<Command>, req: Request)
    requires Fallen(h, req)
    ensures Fallen(Abort(u, h, list), req)
  {
    hide Abort, Fallen;
    AbortErrors(u, h, list);
    AbortAppends(u, h, list);
    StaysFallen(h, Abort(u, h, list), req);
  }

  /** In every run, when the connection is over: every command that has not ended, sent or not,
      is told its error, or ENOTCONN if it has none, and ends with an error. */
  lemma ConnectionLost(u: User, hs: seq<Handle>, ls: seq<Label>, m: nat, cmd: Command)
    requires IsRun(u, hs, ls) && Fresh(hs[0]) && m < |ls| && (hs[m].state.Dead? || hs[m].state.Closed?)
    requires !hs[m].blocked && cmd in hs[m].q.toIssue + hs[m].q.inFlight
    ensures Told(hs[m + 1], Lost(cmd)) && Fallen(hs[m + 1], cmd.req)
    ensures hs[m + 1].q.toIssue == [] && hs[m + 1].q.inFlight == []
  {
    hide Fresh, Ledger, EnterEnd;
    assert Enabled(hs[m], ls[m]) && hs[m + 1] == Step(u, hs[m], ls[m]);
    RunLedger(u, hs, ls, m);
    EndLoses(u, hs[m], cmd);
    EnterEndLedger(u, hs[m]);
    NoneLeft(hs[m + 1]);
  }

  lemma NoneLeft(h: Handle)
    requires Ledger(h) && Ended(h)
    ensures h.q.toIssue == [] && h.q.inFlight == []
  {
  }

  lemma EndLoses(u: User, h: Handle, cmd: Command)
    requires Ledger(h) && cmd in h.q.toIssue + h.q.inFlight
    ensures Told(EnterEnd(u, h), Lost(cmd)) && Fallen(EnterEnd(u, h), cmd.req)
  {
    hide Abort, Told, Lost, Fallen;
    var g := Abort(u, h.(q := h.q.(toIssue := [])), h.q.toIssue);
    var k := Abort(u, g.(q := g.q.(inFlight := [])), h.q.inFlight);
    assert Sane(h.q.toIssue) && Sane(h.q.inFlight);
    if cmd in h.q.toIssue {
      var j :| 0 <= j < |h.q.toIssue| && h.q.toIssue[j] == cmd;
      AbortLoses(u, h.(q := h.q.(toIssue := [])), h.q.toIssue, j);
      SameTold(g, g.(q := g.q.(inFlight := [])), Lost(cmd), Lost(cmd));
      AbortTold(u, g.(q := g.q.(inFlight := [])), h.q.inFlight, Lost(cmd));
      StaysFallen(g, g.(q := g.q.(inFlight := [])), cmd.req);
      StaysAborted(u, g.(q := g.q.(inFlight := [])), h.q.inFlight, cmd.req);
    } else {
      var j :| 0 <= j < |h.q.inFlight| && h.q.inFlight[j] == cmd;
      AbortLoses(u, g.(q := g.q.(inFlight := [])), h.q.inFlight, j);
    }
    SameTold(k, EnterEnd(u, h), Lost(cmd), Lost(cmd));
    StaysFallen(k, EnterEnd(u, h), cmd.req);
  }

  // ---- what a chunk's header decides ----

  /** Where a chunk for a command leads, by its type and length: 0 none, 1 data, 2 hole, 5 and 6
      block status, from 0x8000 on errors; anything else is skipped. */
  function Leads(n: Negotiated, cmd: Command, flags: nat, t: nat, length: nat): State
  {
    if t == 0 && length == 0 && flags % 2 == 1 then ChunkFinish
    else if t == 1 && cmd.req.kind == Kind.Read && length >= 8 then RecvOffsetData
    else if t == 2 && cmd.req.kind == Kind.Read && length == 12 then RecvOffsetHole
    else if t == 5 && cmd.req.kind == Kind.BlockStatusCmd && n.metaValid && n.contexts != []
            && length >= 12 && (length - 4) % 8 == 0 then RecvBsHeader
    else if t == 6 && cmd.req.kind == Kind.BlockStatusCmd && n.metaValid && n.contexts != []
            && length >= 24 && (length - 8) % 16 == 0 then RecvBsHeader
    else if t >= 0x8000 && length >= 4 then RecvError
    else Resync
  }

  /** A block status chunk of the wrong width for the connection is an error, 71 or EPROTO. */
  function ErrorThen(n: Negotiated, cmd: Command, t: nat, next: State): nat
  {
    if next.RecvBsHeader? && n.extended != (t == 6) && cmd.error == 0 then 71 else cmd.error
  }

  lemma ChunkHeader(d: Handle)
    requires Parse(d) && Content(d) && d.state.ChunkStart?
    ensures d.r.hdr == d.r.reply && |d.r.hdr| == ChunkHeaderLen(d)
  {
    hide AtPreamble, AtPayload, AtEnd, Matched, Receives, Claimed, Field, Simple;
  }

  lemma StartLeads(u: User, d: Handle)
    requires d.state.ChunkStart? && ReplyType(d) < U16
    ensures var g := Act(u, d);
      if ReplyLength(d) > 0x400_0008 then g.state.Dead?
      else match Current(d)
        case None => g.state.Resync?
        case Some(i) =>
          var cmd := d.q.inFlight[i];
          if !d.n.structured || (d.n.extended && ReplyOffset(d) != cmd.req.offset) then g.state.Resync?
          else
            && g.state == Leads(d.n, cmd, ReplyFlags(d), ReplyType(d), ReplyLength(d))
            && |g.q.inFlight| == |d.q.inFlight|
            && g.q.inFlight[i].error == ErrorThen(d.n, cmd, ReplyType(d), g.state)
  {
    hide Acts, Lookup, Current, Field, ReplyOffset, OnChunkType, Leads;
    if ReplyLength(d) <= MAX_REQUEST_SIZE + 8 && !EarlyResync(d) {
      TypeLeads(d.(r := d.r.(payloadLeft := ReplyLength(d))), Current(d).value, ReplyLength(d), ReplyType(d));
    }
  }

  lemma TypeLeads(h: Handle, i: nat, length: nat, t: nat)
    requires i < |h.q.inFlight| && h.r.payloadLeft == length && t < U16
    ensures var g := OnChunkType(h, i, length, t);
      && g.state == Leads(h.n, h.q.inFlight[i], ReplyFlags(h), t, length)
      && |g.q.inFlight| == |h.q.inFlight|
      && g.q.inFlight[i].error == ErrorThen(h.n, h.q.inFlight[i], t, g.state)
  {
    hide Acts, Field, LastChunk, ReplyFlags, OnChunkType, Leads;
    if t == 5 || t == 6 { StatusLeads(h, i, length, t); } else { OtherLeads(h, i, length, t); }
  }

  lemma StatusLeads(h: Handle, i: nat, length: nat, t: nat)
    requires i < |h.q.inFlight| && h.r.payloadLeft == length && (t == 5 || t == 6)
    ensures var g := OnChunkType(h, i, length, t);
      && g.state == Leads(h.n, h.q.inFlight[i], ReplyFlags(h), t, length)
      && |g.q.inFlight| == |h.q.inFlight|
      && g.q.inFlight[i].error == ErrorThen(h.n, h.q.inFlight[i], t, g.state)
  {
    hide Acts, Field, LastChunk, ReplyFlags, IsErrorType;
  }

  lemma OtherLeads(h: Handle, i: nat, length: nat, t: nat)
    requires i < |h.q.inFlight| && h.r.payloadLeft == length && t < U16 && t != 5 && t != 6
    ensures var g := OnChunkType(h, i, length, t);
      && g.state == Leads(h.n, h.q.inFlight[i], ReplyFlags(h), t, length) && g.q == h.q
      && !g.state.RecvBsHeader?
  {
    hide Acts, Field, BsLengthOk;
    assert IsErrorType(t) <==> t >= 0x8000;
  }

  /** In every run, when the header of a chunk is complete: a length beyond the limit ends the
      connection, a chunk that was not asked for is skipped, and otherwise type, length and
      kind of command decide; the command gets an error if the width is wrong. */
  lemma HeaderDecides(u: User, hs: seq<Handle>, ls: seq<Label>, m: nat)
    requires IsRun(u, hs, ls) && Fresh(hs[0]) && m < |ls| && hs[m].state.ChunkStart? && Completes(hs[m], ls[m])
    ensures var h, g, s := hs[m], hs[m + 1], ReplyAt(hs[m], ls[m]);
      var length := if h.n.extended then Num(s, 24, 32) else Num(s, 16, 20);
      && |s| == (if h.n.extended then 32 else 20)
      && if length > 0x400_0008 then g.state.Dead?
         else if h.r.replyCmd.None? then g.state.Resync?
         else exists i | 0 <= i < |h.q.inFlight| && h.q.inFlight[i].req.cookie == Num(s, 8, 16) ::
           var cmd := h.q.inFlight[i];
           if !h.n.structured || (h.n.extended && Num(s, 16, 24) != cmd.req.offset) then g.state.Resync?
           else
             && g.state == Leads(h.n, cmd, Num(s, 4, 6), Num(s, 6, 8), length) && |g.q.inFlight| == |h.q.inFlight|
             && g.q.inFlight[i].error == ErrorThen(h.n, cmd, Num(s, 6, 8), g.state)
  {
    hide Step, Fresh, Lookup, FlightOk, Acts, Content, Parse, Act, Ledger, Leads, Num, Field;
    ActingFacts(u, hs, ls, m);
    var d := Handed(hs[m], ls[m].io);
    ChunkHeader(d);
    HeaderNumbers(d);
    TypeFits(d);
    EchoedOffset(d);
    StartLeads(u, d);
    if d.r.replyCmd.Some? {
      KnownCurrent(d);
      CurrentCookie(d);
    }
  }

  lemma TypeFits(d: Handle)
    ensures ReplyType(d) < U16
  {
    FieldBound(d.r.hdr, 6, 8);
    Pow256Values();
  }

  lemma EchoedOffset(d: Handle)
    requires d.r.hdr == d.r.reply && |d.r.hdr| == ChunkHeaderLen(d)
    ensures d.n.extended ==> ReplyOffset(d) == Num(d.r.reply, 16, 24)
  {
    hide Val;
  }

  /** In every run, after a chunk: the last one of a reply ends the command, any other gives
      the connection back until the next. */
  lemma LastEnds(u: User, hs: seq<Handle>, ls: seq<Label>, m: nat)
    requires IsRun(u, hs, ls) && Fresh(hs[0]) && m < |ls| && hs[m].state.ChunkFinish? && Completes(hs[m], ls[m])
    ensures var h, g, s := hs[m], hs[m + 1], ReplyAt(hs[m], ls[m]);
      && (if Num(s, 4, 6) % 2 == 1 then g.state.FinishCommand? && g.r.replyCmd == h.r.replyCmd
          else g.state.Ready? && g.r.replyCmd.None?)
      && g.q == h.q && g.log == h.log
  {
    hide Step, Fresh, Lookup, FlightOk, Acts, Content, Parse, Act, Ledger, Num, Field;
    ActingFacts(u, hs, ls, m);
    var d := Handed(hs[m], ls[m].io);
    FinishHeader(d);
    HeaderNumbers(d);
    FinishLeads(u, d);
  }

  lemma FinishHeader(d: Handle)
    requires Parse(d) && Content(d) && d.state.ChunkFinish?
    ensures d.r.hdr <= d.r.reply && |d.r.hdr| >= 16 && d.r.payloadLeft == 0
  {
    hide AtPreamble, AtPayload, AtHeader, Matched, Receives, Claimed, Field, Taken;
  }

  lemma FinishLeads(u: User, d: Handle)
    requires d.state.ChunkFinish? && d.r.payloadLeft == 0
    ensures var g := Act(u, d);
      && (if ReplyFlags(d) % 2 == 1 then g.state.FinishCommand? && g.r.replyCmd == d.r.replyCmd
          else g.state.Ready? && g.r.replyCmd.None?)
      && g.q == d.q && g.log == d.log
  {
    hide Acts, ReplyFlags;
  }
}
