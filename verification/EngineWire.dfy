/** The outgoing stream as a server reads it: with the numbers and the layout of the NBD
    protocol, it finds the requests that the program made, in order. */
module EngineWire {
  import opened Bytes
  import opened BlockStatus
  import opened Nbd
  import opened Reply
  import opened Engine
  import opened EngineQuiet
  import opened EngineLedger
  import opened EngineSend
  import opened EngineResend
  import opened EngineErrors

  // ---- the server's reader ----

  /** A request as the server sees it. */
  datatype Asked = Asked(flags: nat, code: nat, cookie: nat, offset: nat, count: nat, payload: seq<byte>)

  /** A write, or a block status request that brings a list of contexts, has a payload. */
  function PayloadLen(extended: bool, code: nat, flags: nat, count: nat): nat
  {
    if code == 1 || (extended && code == 7 && flags / 32 % 2 == 1) then count else 0
  }

  /** Read one request from the front of a stream: 4 bytes of magic, 2 of flags, 2 of type, 8 of
      cookie, 8 of offset, and 4 of length or, with extended headers, 8; then the payload. */
  function ReadOne(extended: bool, s: seq<byte>): (r: Option<(Asked, seq<byte>)>)
    ensures r.Some? ==> |r.value.1| < |s|
  {
    var head := if extended then 32 else 28;
    if |s| < head || s[..4] != (if extended then [0x21, 0xe4, 0x1c, 0x71] else [0x25, 0x60, 0x95, 0x13]) then None
    else
      var flags, code, cookie := Val(s[4..6]), Val(s[6..8]), Val(s[8..16]);
      var offset, count := Val(s[16..24]), Val(s[24..head]);
      var n := PayloadLen(extended, code, flags, count);
      if |s| < head + n then None
      else Some((Asked(flags, code, cookie, offset, count, s[head..head + n]), s[head + n..]))
  }

  /** Read as many requests as there are; what is left is not a whole request. */
  function ReadAll(extended: bool, s: seq<byte>): (r: (seq<Asked>, seq<byte>))
    ensures ReadOne(extended, r.1).None?
    decreases |s|
  {
    match ReadOne(extended, s)
    case None => ([], s)
    case Some((a, rest)) =>
      var (more, left) := ReadAll(extended, rest);
      ([a] + more, left)
  }

  // ---- what the program asked for ----

  /** The type numbers of the protocol. */
  function TypeNumber(k: Kind): nat
  {
    if k == Kind.Read then 0 else if k == Kind.Write then 1 else if k == Kind.Disc then 2 else if k == Kind.Flush then 3
    else if k == Kind.Trim then 4 else if k == Kind.Cache then 5 else if k == Kind.WriteZeroes then 6 else 7
  }

  function Wish(extended: bool, cmd: Command): Asked
  {
    var code := TypeNumber(cmd.req.kind);
    var pays := PayloadLen(extended, code, cmd.req.flags, 1) == 1;
    Asked(cmd.req.flags, code, cmd.req.cookie, cmd.req.offset, cmd.req.count, if pays then cmd.data else [])
  }

  function Wishes(extended: bool, cmds: seq<Command>): (r: seq<Asked>)
    ensures |r| == |cmds| && forall i | 0 <= i < |cmds| :: r[i] == Wish(extended, cmds[i])
  {
    seq(|cmds|, i requires 0 <= i < |cmds| => Wish(extended, cmds[i]))
  }

  /** The fields fit their places on the wire. */
  predicate Fits(extended: bool, cmd: Command)
  {
    && cmd.req.flags < U16 && cmd.req.cookie < U64 && cmd.req.offset < U64
    && cmd.req.count < (if extended then U64 else U32)
    && (PayloadLen(extended, TypeNumber(cmd.req.kind), cmd.req.flags, 1) == 1 ==> |cmd.data| == cmd.req.count)
  }

  // ---- one message ----

  lemma MagicBytes()
    ensures BE(0x25609513, 4) == [0x25, 0x60, 0x95, 0x13] && BE(0x21e41c71, 4) == [0x21, 0xe4, 0x1c, 0x71]
  {
    assert BE(0x25609513, 4) == BE(0x25609513 / 256, 3) + [0x13];
    assert BE(0x256095, 3) == BE(0x2560, 2) + [0x95];
    assert BE(0x2560, 2) == BE(0x25, 1) + [0x60];
    assert BE(0x25, 1) == BE(0, 0) + [0x25];
    assert BE(0x21e41c71, 4) == BE(0x21e41c, 3) + [0x71];
    assert BE(0x21e41c, 3) == BE(0x21e4, 2) + [0x1c];
    assert BE(0x21e4, 2) == BE(0x21, 1) + [0xe4];
    assert BE(0x21, 1) == BE(0, 0) + [0x21];
  }

  lemma HeaderParts(extended: bool, cmd: Command, rest: seq<byte>)
    requires Fits(extended, cmd)
    ensures var s := Header(extended, cmd) + rest;
      var head := if extended then 32 else 28;
      && |Header(extended, cmd)| == head && s[head..] == rest
      && s[..4] == (if extended then [0x21, 0xe4, 0x1c, 0x71] else [0x25, 0x60, 0x95, 0x13])
      && Val(s[4..6]) == cmd.req.flags && Val(s[6..8]) == TypeNumber(cmd.req.kind) && Val(s[8..16]) == cmd.req.cookie
      && Val(s[16..24]) == cmd.req.offset && Val(s[24..head]) == cmd.req.count
  {
    hide BE, Val;
    MagicBytes();
    Pow256Values();
    var s := Header(extended, cmd) + rest;
    var head := if extended then 32 else 28;
    assert s[4..6] == BE(cmd.req.flags, 2) && s[6..8] == BE(cmd.req.kind.Code(), 2);
    assert s[8..16] == BE(cmd.req.cookie, 8);
    assert s[16..24] == BE(cmd.req.offset, 8) && s[24..head] == BE(cmd.req.count, head - 24);
    ValBE(cmd.req.flags, 2);
    ValBE(cmd.req.kind.Code(), 2);
    ValBE(cmd.req.cookie, 8);
    ValBE(cmd.req.offset, 8);
    ValBE(cmd.req.count, head - 24);
  }

  /** A server reads a whole message as what was asked for, and stops at its end. */
  lemma MessageRead(extended: bool, cmd: Command, rest: seq<byte>)
    requires Fits(extended, cmd)
    ensures ReadOne(extended, Message(extended, cmd) + rest) == Some((Wish(extended, cmd), rest))
  {
    hide Header, Val;
    var hd := Header(extended, cmd);
    var tail := if HasPayload(extended, cmd) then cmd.data else [];
    assert Message(extended, cmd) + rest == hd + (tail + rest);
    HeaderParts(extended, cmd, tail + rest);
    var s := hd + (tail + rest);
    assert s[|hd|..|hd| + |tail|] == tail && s[|hd| + |tail|..] == rest;
  }

  /** Of a message that is not all there the server reads nothing. */
  lemma PartUnread(extended: bool, cmd: Command, part: seq<byte>)
    requires Fits(extended, cmd) && part <= Message(extended, cmd) && part != Message(extended, cmd)
    ensures ReadOne(extended, part).None?
  {
    hide Header, Val;
    var m := Message(extended, cmd);
    var hd := Header(extended, cmd);
    var head := if extended then 32 else 28;
    assert m == m + [];
    HeaderParts(extended, cmd, m[|hd|..]);
    assert hd + m[|hd|..] == m;
    assert |part| < |m|;
    if |part| >= head {
      assert part == m[..|part|];
      assert part[4..6] == m[4..6] && part[6..8] == m[6..8] && part[24..head] == m[24..head];
    }
  }

  /** A server that reads on. */
  lemma MoreRead(extended: bool, cmd: Command, rest: seq<byte>)
    requires Fits(extended, cmd)
    ensures var (more, left) := ReadAll(extended, rest);
      ReadAll(extended, Message(extended, cmd) + rest) == ([Wish(extended, cmd)] + more, left)
  {
    hide Message, ReadOne, Fits;
    MessageRead(extended, cmd, rest);
  }

  lemma {:induction false} StreamRead(extended: bool, cmds: seq<Command>, rest: seq<byte>)
    requires forall i | 0 <= i < |cmds| :: Fits(extended, cmds[i])
    ensures var (more, left) := ReadAll(extended, rest);
      ReadAll(extended, Stream(extended, cmds) + rest) == (Wishes(extended, cmds) + more, left)
    decreases |cmds|
  {
    hide Message, ReadAll, Fits;
    if cmds == [] {
      assert Stream(extended, cmds) + rest == rest;
      assert Wishes(extended, cmds) + ReadAll(extended, rest).0 == ReadAll(extended, rest).0;
    } else {
      var n := |cmds| - 1;
      var last := cmds[n];
      var tail := Message(extended, last) + rest;
      assert Stream(extended, cmds) + rest == Stream(extended, cmds[..n]) + tail;
      StreamRead(extended, cmds[..n], tail);
      MoreRead(extended, last, rest);
      var (more, left) := ReadAll(extended, rest);
      assert Wishes(extended, cmds[..n]) + ([Wish(extended, last)] + more) == Wishes(extended, cmds) + more;
    }
  }

  // ---- what was queued ----

  /** Step `k` queues a command. */
  predicate Accepts(hs: seq<Handle>, ls: seq<Label>, k: nat)
    requires k < |ls| && |hs| == |ls| + 1
  {
    ls[k].Submit? && !hs[k].q.disconnecting && hs[k].q.inFlightCount != 0x7fff_ffff
  }

  /** The commands that the program has queued, each with the next cookie. */
  function Accepted(hs: seq<Handle>, ls: seq<Label>, n: nat): seq<Command>
    requires n <= |ls| && |hs| == |ls| + 1
  {
    if n == 0 then []
    else
      var before := Accepted(hs, ls, n - 1);
      if Accepts(hs, ls, n - 1) then
        var cmd := ls[n - 1].cmd;
        before + [cmd.(req := cmd.req.(cookie := |before| + 1))]
      else before
  }

  /** What was issued and what still waits is what was queued, in order. */
  ghost predicate Kept(h: Handle, asked: seq<Command>)
  {
    h.q.unique == |asked| + 1 && (if Over(h) then h.w.issued <= asked else h.w.issued + h.q.toIssue == asked)
  }

  lemma QueueKept(h: Handle, cmd: Command, asked: seq<Command>)
    requires Kept(h, asked) && !Over(h) && !(h.q.toIssue != [] && h.state.Ready?)
    ensures var more := [cmd.(req := cmd.req.(cookie := |asked| + 1))];
      Kept(Queue(h, cmd), if !h.q.disconnecting && h.q.inFlightCount != 0x7fff_ffff then asked + more else asked)
  {
    var more := [cmd.(req := cmd.req.(cookie := |asked| + 1))];
    assert h.w.issued + (h.q.toIssue + more) == (h.w.issued + h.q.toIssue) + more;
  }

  lemma IssueKept(h: Handle, asked: seq<Command>)
    requires Kept(h, asked) && !Over(h) && h.state.IssueFinish?
    ensures Kept(EnterIssueFinish(h), asked)
  {
    hide Field;
    if h.q.toIssue != [] {
      assert h.w.issued + h.q.toIssue == (h.w.issued + [h.q.toIssue[0]]) + h.q.toIssue[1..];
    }
  }

  /** Steps that leave both alone. */
  lemma SameKept(h: Handle, g: Handle, asked: seq<Command>)
    requires Kept(h, asked) && g.w.issued == h.w.issued && g.q.unique == h.q.unique
    requires Over(h) ==> Over(g)
    requires !Over(g) ==> g.q.toIssue == h.q.toIssue
    ensures Kept(g, asked)
  {
  }

  lemma {:induction false} AbortUnique(u: User, h: Handle, list: seq<Command>)
    ensures Abort(u, h, list).q == h.q.(done := Abort(u, h, list).q.done)
  {
    hide Clean;
    AbortErrors(u, h, list);
  }

  lemma EndUnique(u: User, h: Handle)
    ensures EnterEnd(u, h).q.unique == h.q.unique
  {
    hide Abort;
    AbortUnique(u, h.(q := h.q.(toIssue := [])), h.q.toIssue);
    var g := Abort(u, h.(q := h.q.(toIssue := [])), h.q.toIssue);
    AbortUnique(u, g.(q := g.q.(inFlight := [])), h.q.inFlight);
  }

  lemma EnterKept(u: User, h: Handle, io: Io, asked: seq<Command>)
    requires Kept(h, asked) && EventOk(h, io) && !h.blocked && Steady(h)
    ensures Kept(Enter(u, h, io), asked)
  {
    hide Kept, EnterReply, EnterEnd, EnterIssueFinish, EnterReady, EnterSend, EnterIssueStart, EnterPrepareWritePayload,
         EnterPause;
    var g := Enter(u, h, io);
    if h.state.Dead? || h.state.Closed? {
      EndUnique(u, h);
      EnterEndState(u, h);
      SameKept(h, g, asked);
    } else if IsReplyState(h.state) {
      ReplyFrame(u, h, io);
      ReplyUnique(u, h, io);
      SameKept(h, g, asked);
    } else if h.state.IssueFinish? {
      IssueKept(h, asked);
    } else {
      EnterOther(u, h, io);
      OtherIssued(u, h, io);
      SameKept(h, g, asked);
    }
  }

  lemma OtherIssued(u: User, h: Handle, io: Io)
    requires !h.blocked && EventOk(h, io) && !IsReplyState(h.state)
    requires !h.state.Dead? && !h.state.Closed? && !h.state.IssueFinish?
    ensures Enter(u, h, io).w.issued == h.w.issued
  {
    hide EnterReply, EnterEnd, EnterIssueFinish, EnterSend, Header, HasPayload, Field, OnlySends;
    if h.state.SendRequest? { SendIssued(h, io, PrepareWritePayload); }
    if h.state.SendWritePayload? { SendIssued(h, io, IssueFinish); }
  }

  lemma SendIssued(h: Handle, io: Io, next: State)
    requires io.Sent? ==> io.n <= |h.w.wbuf|
    ensures EnterSend(h, io, next).w.issued == h.w.issued
  {
    hide EnterSend, OnlySends;
    SendMore(h, io, next);
  }

  lemma ReplyUnique(u: User, h: Handle, io: Io)
    requires IoOk(h, io) && !h.blocked && IsReplyState(h.state)
    ensures EnterReply(u, h, io).q.unique == h.q.unique
  {
    hide EnterReply, AllProgress, QuietLog, OnFinishCommand;
    if h.state.FinishCommand? {
      ReplyIsFinish(u, h, io);
    } else {
      EnterReplyQuiet(u, h, io);
    }
  }

  lemma {:induction false} RunKept(u: User, hs: seq<Handle>, ls: seq<Label>, n: nat)
    requires IsRun(u, hs, ls) && Fresh(hs[0]) && n < |hs|
    ensures Kept(hs[n], Accepted(hs, ls, n))
  {
    hide Kept, Ledger, Enter, Queue, CommandCompleted, SendSafe;
    if n == 0 {
      FreshKept(hs[0]);
    } else {
      var h, l := hs[n - 1], ls[n - 1];
      assert Enabled(h, l) && hs[n] == Step(u, h, l);
      RunKept(u, hs, ls, n - 1);
      RunLedger(u, hs, ls, n - 1);
      RunSend(u, hs, ls, n - 1);
      match l
      case Run(io) => EnterKept(u, h, io, Accepted(hs, ls, n - 1));
      case Notify(read) => SameKept(h, hs[n], Accepted(hs, ls, n - 1));
      case Submit(cmd) =>
        assert h.state.Ready? ==> h.q.toIssue == [] by { ReadyEmpty(h); }
        QueueKept(h, cmd, Accepted(hs, ls, n - 1));
      case Retire(cookie) =>
        RetireKept(h, cookie);
        SameKept(h, hs[n], Accepted(hs, ls, n - 1));
    }
  }

  lemma RetireKept(h: Handle, cookie: nat)
    ensures var g := CommandCompleted(h, cookie).0;
      && g.w == h.w && g.q.unique == h.q.unique && g.q.toIssue == h.q.toIssue && g.state == h.state
      && (h.failed ==> g.failed)
  {
    hide Lookup;
  }

  lemma FreshKept(h: Handle)
    requires Fresh(h)
    ensures Kept(h, [])
  {
  }

  lemma {:induction false} AcceptedFit(u: User, hs: seq<Handle>, ls: seq<Label>, n: nat)
    requires IsRun(u, hs, ls) && Fresh(hs[0]) && n < |hs|
    ensures forall i | 0 <= i < |Accepted(hs, ls, n)| :: Fits(hs[0].n.extended, Accepted(hs, ls, n)[i])
  {
    hide Step, Fits, Fresh, SendSafe, Kept;
    if n > 0 {
      AcceptedFit(u, hs, ls, n - 1);
      if Accepts(hs, ls, n - 1) {
        assert Enabled(hs[n - 1], ls[n - 1]);
        RunKept(u, hs, ls, n - 1);
        KeptUnique(hs[n - 1], Accepted(hs, ls, n - 1));
        SameExtended(u, hs, ls, n - 1);
        AcceptableFits(hs[n - 1], ls[n - 1].cmd);
      }
    }
  }

  lemma KeptUnique(h: Handle, asked: seq<Command>)
    requires Kept(h, asked)
    ensures h.q.unique == |asked| + 1
  {
  }

  lemma AcceptableFits(h: Handle, cmd: Command)
    requires Acceptable(h, cmd)
    ensures Fits(h.n.extended, cmd.(req := cmd.req.(cookie := h.q.unique)))
  {
  }

  lemma {:induction false} SameExtended(u: User, hs: seq<Handle>, ls: seq<Label>, n: nat)
    requires IsRun(u, hs, ls) && n < |hs|
    ensures hs[n].n == hs[0].n
  {
    hide Step;
    if n > 0 {
      SameExtended(u, hs, ls, n - 1);
      StepNegotiated(u, hs[n - 1], ls[n - 1]);
    }
  }

  lemma StepNegotiated(u: User, h: Handle, l: Label)
    requires Enabled(h, l)
    ensures Step(u, h, l).n == h.n
  {
    hide EnterReply, EnterEnd, EnterReady, EnterSend, EnterIssueStart, EnterPrepareWritePayload, EnterPause, Lookup,
         Field, OnFinishCommand, AllProgress, QuietLog;
    if l.Run? {
      EnterEndState(u, h);
      if h.state.FinishCommand? { ReplyIsFinish(u, h, l.io); } else { EnterReplyQuiet(u, h, l.io); }
    }
  }

  /** In every run of a connection that lasts, until a disconnect request is sent again: a
      server that reads what has been sent finds the first requests that the program queued,
      in order, with their flags, types, cookies 1, 2, 3, ..., offsets, counts and payloads;
      those that were issued, and the next one if all of it is out. */
  lemma ServerReads(u: User, hs: seq<Handle>, ls: seq<Label>, n: nat) returns (k: nat)
    requires IsRun(u, hs, ls) && Fresh(hs[0]) && n < |hs| && !Over(hs[n]) && !Resent(hs, ls, n)
    ensures var asked := Accepted(hs, ls, n); var extended := hs[0].n.extended;
      && |hs[n].w.issued| <= k <= |hs[n].w.issued| + 1 && k <= |asked|
      && ReadAll(extended, hs[n].w.sent).0 == Wishes(extended, asked[..k])
  {
    hide Step, Fresh, Over, Resent, Message, Fits, Kept, ReadAll, Wishes, Remainder, Stream;
    var h, asked := hs[n], Accepted(hs, ls, n);
    var extended := hs[0].n.extended;
    SentInOrder(u, hs, ls, n);
    RunKept(u, hs, ls, n);
    SameExtended(u, hs, ls, n);
    AcceptedFit(u, hs, ls, n);
    assert h.w.issued + h.q.toIssue == asked by { AliveKept(h, asked); }
    var st := Stream(extended, h.w.issued);
    var rest := h.w.sent[|st|..];
    assert h.w.sent == st + rest;
    assert forall i | 0 <= i < |h.w.issued| :: h.w.issued[i] == asked[i];
    StreamRead(extended, h.w.issued, rest);
    k := |h.w.issued|;
    assert asked[..k] == h.w.issued;
    if h.q.toIssue == [] {
      NothingRead(extended);
    } else {
      var cmd := h.q.toIssue[0];
      assert asked[k] == cmd;
      if rest == Message(extended, cmd) {
        WholeRead(extended, cmd);
        assert Wishes(extended, asked[..k]) + [Wish(extended, cmd)] == Wishes(extended, asked[..k + 1]) by {
          OneMore(extended, asked, k);
        }
        k := k + 1;
      } else {
        PartUnread(extended, cmd, rest);
        NoneRead(extended, rest);
      }
    }
  }

  lemma AliveKept(h: Handle, asked: seq<Command>)
    requires Kept(h, asked) && !Over(h)
    ensures h.w.issued + h.q.toIssue == asked
  {
  }

  lemma OneMore(extended: bool, cmds: seq<Command>, k: nat)
    requires k < |cmds|
    ensures Wishes(extended, cmds[..k]) + [Wish(extended, cmds[k])] == Wishes(extended, cmds[..k + 1])
  {
  }

  lemma NothingRead(extended: bool)
    ensures ReadAll(extended, []).0 == []
  {
  }

  lemma NoneRead(extended: bool, rest: seq<byte>)
    requires ReadOne(extended, rest).None?
    ensures ReadAll(extended, rest).0 == []
  {
  }

  lemma WholeRead(extended: bool, cmd: Command)
    requires Fits(extended, cmd)
    ensures ReadAll(extended, Message(extended, cmd)).0 == [Wish(extended, cmd)]
  {
    hide Message, ReadOne, Fits;
    assert Message(extended, cmd) + [] == Message(extended, cmd);
    MessageRead(extended, cmd, []);
    NoneLeft(extended);
  }

  lemma NoneLeft(extended: bool)
    ensures ReadAll(extended, []) == ([], [])
  {
  }
}
