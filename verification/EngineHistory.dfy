/** What becomes of a command: it keeps its first error until its completion callback, and
    the done queue keeps the order of the callbacks. */
module EngineHistory {
  import opened Bytes
  import opened BlockStatus
  import opened Nbd
  import opened Reply
  import opened Engine
  import opened EngineQuiet
  import opened EngineLedger
  import opened EngineSend
  import opened EngineErrors

  // ---- the order of the done queue ----

  lemma {:induction false} AbortAppends(u: User, h: Handle, list: seq<Command>)
    ensures h.q.done <= Abort(u, h, list).q.done
    decreases |list|
  {
    hide Complete;
    if list != [] {
      var cmd := list[0];
      var (g, cmd', retire) := Complete(u, h, cmd, if cmd.error != 0 then cmd.error else ENOTCONN);
      AbortAppends(u, Leave(g, cmd'.FailWith(ENOTCONN), retire), list[1..]);
    }
  }

  lemma EnterAppends(u: User, h: Handle, io: Io)
    requires EventOk(h, io) && !h.blocked
    ensures h.q.done <= Enter(u, h, io).q.done
  {
    hide EnterReply, Abort, EnterReady, EnterSend, EnterIssueStart, EnterPrepareWritePayload, EnterPause,
         OnFinishCommand, AllProgress, QuietLog, Field;
    if h.state.Dead? || h.state.Closed? {
      AbortAppends(u, h.(q := h.q.(toIssue := [])), h.q.toIssue);
      var g := Abort(u, h.(q := h.q.(toIssue := [])), h.q.toIssue);
      AbortAppends(u, g.(q := g.q.(inFlight := [])), h.q.inFlight);
    } else if h.state.FinishCommand? {
      ReplyIsFinish(u, h, io);
      FinishAppends(u, h);
    } else if IsReplyState(h.state) {
      EnterReplyQuiet(u, h, io);
    } else if !h.state.IssueFinish? {
      EnterOther(u, h, io);
    }
  }

  lemma FinishAppends(u: User, h: Handle)
    ensures h.q.done <= OnFinishCommand(u, h).q.done
  {
    hide Lookup, Complete, Acts;
  }

  /** The done queue keeps the order of completion: commands join it at the back, and only
      nbd_aio_command_completed takes one out, the one it was asked for. */
  lemma DoneKeepsOrder(u: User, h: Handle, l: Label)
    requires Enabled(h, l)
    ensures var d, d' := h.q.done, Step(u, h, l).q.done;
      d <= d' || (l.Retire? && exists i | 0 <= i < |d| :: d[i].req.cookie == l.cookie && d' == d[..i] + d[i + 1..])
  {
    hide Enter, Lookup;
    if l.Run? { EnterAppends(u, h, l.io); }
  }

  /** The completion callback of the command with cookie `k` is event `a` of the log. */
  predicate Rings(log: seq<Event>, k: nat, a: nat) { a < |log| && log[a].CompletionCb? && log[a].cookie == k }

  ghost predicate Rang(log: seq<Event>, k: nat) { exists a: nat :: Rings(log, k, a) }

  /** The callback for `k` came before that for `m`. */
  ghost predicate RangBefore(log: seq<Event>, k: nat, m: nat)
  {
    exists a: nat, b: nat :: a < b && Rings(log, k, a) && Rings(log, m, b)
  }

  /** The done queue is in the order of the completion callbacks. */
  ghost predicate Chronicle(done: seq<Command>, log: seq<Event>)
  {
    && (forall i | 0 <= i < |done| && done[i].req.hasCompletion :: Rang(log, done[i].req.cookie))
    && (forall i, j | 0 <= i < j < |done| && done[i].req.hasCompletion && done[j].req.hasCompletion ::
          RangBefore(log, done[i].req.cookie, done[j].req.cookie))
  }

  lemma LongerLog(done: seq<Command>, a: seq<Event>, b: seq<Event>)
    requires Chronicle(done, a) && a <= b
    ensures Chronicle(done, b)
  {
    hide Rang, RangBefore;
    forall i | 0 <= i < |done| && done[i].req.hasCompletion ensures Rang(b, done[i].req.cookie) {
      RangStays(a, b, done[i].req.cookie);
    }
    forall i, j | 0 <= i < j < |done| && done[i].req.hasCompletion && done[j].req.hasCompletion
      ensures RangBefore(b, done[i].req.cookie, done[j].req.cookie)
    {
      BeforeStays(a, b, done[i].req.cookie, done[j].req.cookie);
    }
  }

  lemma RangStays(a: seq<Event>, b: seq<Event>, k: nat)
    requires Rang(a, k) && a <= b
    ensures Rang(b, k)
  {
    var x: nat :| Rings(a, k, x);
    assert Rings(b, k, x);
  }

  lemma BeforeStays(a: seq<Event>, b: seq<Event>, k: nat, m: nat)
    requires RangBefore(a, k, m) && a <= b
    ensures RangBefore(b, k, m)
  {
    var x: nat, y: nat :| x < y && Rings(a, k, x) && Rings(a, m, y);
    assert Rings(b, k, x) && Rings(b, m, y);
  }

  lemma Removed(done: seq<Command>, i: nat, log: seq<Event>)
    requires Chronicle(done, log) && i < |done|
    ensures Chronicle(done[..i] + done[i + 1..], log)
  {
    hide Rang, RangBefore;
    var d := done[..i] + done[i + 1..];
    assert forall j | 0 <= j < |d| :: d[j] == done[if j < i then j else j + 1];
  }

  /** A command is completed and joins the queue. */
  lemma LeaveChronicle(u: User, h: Handle, cmd: Command, error: nat, fix: nat)
    requires Chronicle(h.q.done, h.log)
    ensures var (g, cmd', retire) := Complete(u, h, cmd, error);
      var k := Leave(g, cmd'.FailWith(fix), retire); Chronicle(k.q.done, k.log)
  {
    hide Rang, RangBefore;
    var (g, cmd', retire) := Complete(u, h, cmd, error);
    var c := cmd'.FailWith(fix);
    LongerLog(h.q.done, h.log, Leave(g, c, retire).log);
    if !retire && cmd.req.hasCompletion {
      var log := h.log + [CompletionCb(cmd.req.cookie, error)];
      assert g.log == log;
      NewestRings(h.log, cmd.req.cookie, error);
      var done := h.q.done + [c];
      forall i | 0 <= i < |done| - 1 && done[i].req.hasCompletion
        ensures RangBefore(log, done[i].req.cookie, c.req.cookie) {
        assert done[i] == h.q.done[i];
        NewestLast(h.log, done[i].req.cookie, c.req.cookie, error);
      }
    }
  }

  lemma NewestRings(log: seq<Event>, k: nat, error: nat)
    ensures Rang(log + [CompletionCb(k, error)], k)
  {
    assert Rings(log + [CompletionCb(k, error)], k, |log|);
  }

  lemma NewestLast(log: seq<Event>, k: nat, m: nat, error: nat)
    requires Rang(log, k)
    ensures RangBefore(log + [CompletionCb(m, error)], k, m)
  {
    var a: nat :| Rings(log, k, a);
    var log' := log + [CompletionCb(m, error)];
    assert a < |log| && Rings(log', k, a) && Rings(log', m, |log|);
  }

  lemma {:induction false} AbortChronicle(u: User, h: Handle, list: seq<Command>)
    requires Chronicle(h.q.done, h.log)
    ensures var g := Abort(u, h, list); Chronicle(g.q.done, g.log)
    decreases |list|
  {
    hide Complete, Leave, Chronicle;
    if list != [] {
      var cmd := list[0];
      var e := if cmd.error != 0 then cmd.error else ENOTCONN;
      var (g, cmd', retire) := Complete(u, h, cmd, e);
      LeaveChronicle(u, h, cmd, e, ENOTCONN);
      AbortChronicle(u, Leave(g, cmd'.FailWith(ENOTCONN), retire), list[1..]);
    }
  }

  lemma FinishChronicle(u: User, h: Handle)
    requires Chronicle(h.q.done, h.log)
    ensures var g := OnFinishCommand(u, h); Chronicle(g.q.done, g.log)
  {
    hide Lookup, Complete, Leave, Acts, Chronicle;
    match Lookup(h.q.inFlight, Cookie(h))
    case None =>
    case Some(i) =>
      var cmd := h.q.inFlight[i];
      var h1 := h.(r := h.r.(replyCmd := None));
      FinishAtChronicle(u, h1, i);
  }

  lemma FinishAtChronicle(u: User, h: Handle, i: nat)
    requires i < |h.q.inFlight| && Chronicle(h.q.done, h.log)
    ensures var g := FinishAt(u, h, i); Chronicle(g.q.done, g.log)
  {
    hide Chronicle;
    LeaveChronicle(u, h, h.q.inFlight[i], h.q.inFlight[i].error, 0);
  }

  lemma EnterChronicle(u: User, h: Handle, io: Io)
    requires EventOk(h, io) && !h.blocked && Chronicle(h.q.done, h.log)
    ensures var g := Enter(u, h, io); Chronicle(g.q.done, g.log)
  {
    hide EnterReply, Abort, EnterReady, EnterSend, EnterIssueStart, EnterPrepareWritePayload, EnterPause,
         OnFinishCommand, AllProgress, Field, Chronicle;
    if h.state.Dead? || h.state.Closed? {
      AbortChronicle(u, h.(q := h.q.(toIssue := [])), h.q.toIssue);
      var g := Abort(u, h.(q := h.q.(toIssue := [])), h.q.toIssue);
      AbortChronicle(u, g.(q := g.q.(inFlight := [])), h.q.inFlight);
    } else if h.state.FinishCommand? {
      ReplyIsFinish(u, h, io);
      FinishChronicle(u, h);
    } else if IsReplyState(h.state) {
      EnterReplyQuiet(u, h, io);
      LongerLog(h.q.done, h.log, EnterReply(u, h, io).log);
    } else if !h.state.IssueFinish? {
      EnterOther(u, h, io);
    }
  }

  lemma StepChronicle(u: User, h: Handle, l: Label)
    requires Enabled(h, l) && Chronicle(h.q.done, h.log)
    ensures var g := Step(u, h, l); Chronicle(g.q.done, g.log)
  {
    hide Enter, Lookup, Chronicle;
    match l
    case Run(io) => EnterChronicle(u, h, io);
    case Notify(read) =>
    case Submit(cmd) => LongerLog(h.q.done, h.log, Queue(h, cmd).log);
    case Retire(cookie) =>
      match Lookup(h.q.done, cookie) {
        case None =>
        case Some(i) =>
          var g := CommandCompleted(h, cookie).0;
          Removed(h.q.done, i, h.log);
          LongerLog(g.q.done, h.log, g.log);
          LongerLog(h.q.done, h.log, g.log);
      }
  }

  /** In every run the done queue is in the order in which the completion callbacks were
      made: of any two commands in it that have one, the callback of the first was earlier
      (and, by CallbackOnce, each was made once). */
  lemma {:induction false} DoneInOrder(u: User, hs: seq<Handle>, ls: seq<Label>, n: nat)
    requires IsRun(u, hs, ls) && Fresh(hs[0]) && n < |hs|
    ensures Chronicle(hs[n].q.done, hs[n].log)
  {
    hide Step;
    if n > 0 {
      DoneInOrder(u, hs, ls, n - 1);
      StepChronicle(u, hs[n - 1], ls[n - 1]);
    }
  }

  // ---- the order in which commands join the done queue ----

  /** A command with cookie `k` stands before one with cookie `m`. */
  ghost predicate StandsBefore(list: seq<Command>, k: nat, m: nat)
  {
    exists i, j | 0 <= i < j < |list| :: list[i].req.cookie == k && list[j].req.cookie == m
  }

  ghost predicate Present(list: seq<Command>, k: nat) { exists i | 0 <= i < |list| :: list[i].req.cookie == k }

  /** A command in the done queue is there once, and was not retired. */
  lemma DoneOnce(h: Handle, i: nat, j: nat)
    requires Ledger(h) && i < |h.q.done| && j < |h.q.done|
    ensures h.q.done[i].req.cookie == h.q.done[j].req.cookie ==> i == j
    ensures Retired(h.q.done[i].req.cookie) !in h.log
  {
    hide Tally, Occ;
    var k := h.q.done[i].req.cookie;
    assert Law(h, [], k);
    OccAt(h.q.done, i, k, false);
    if i != j && h.q.done[j].req.cookie == k {
      var rest := h.q.done[..i] + h.q.done[i + 1..];
      assert rest[if j < i then j else j - 1] == h.q.done[j];
      OccMember(rest, if j < i then j else j - 1, k);
    }
    if Retired(k) in h.log { TallyIn(TRetired, h.log, k, Retired(k)); }
  }

  /** Backwards over one step: if the second of two commands of the queue was there before the
      step, so was the first, in front of it. */
  lemma StepJoins(u: User, h: Handle, l: Label, k: nat, m: nat)
    requires Enabled(h, l) && Ledger(h) && Ledger(Step(u, h, l))
    requires StandsBefore(Step(u, h, l).q.done, k, m) && Present(h.q.done, m)
    ensures StandsBefore(h.q.done, k, m)
  {
    hide Enter, Lookup, Ledger;
    var g := Step(u, h, l);
    var d, d' := h.q.done, g.q.done;
    DoneKeepsOrder(u, h, l);
    if d <= d' {
      AppendJoins(g, d, k, m);
    } else {
      var x :| 0 <= x < |d| && d[x].req.cookie == l.cookie && d' == d[..x] + d[x + 1..];
      RemoveJoins(d, x, k, m);
    }
  }

  lemma AppendJoins(g: Handle, d: seq<Command>, k: nat, m: nat)
    requires Ledger(g) && d <= g.q.done && StandsBefore(g.q.done, k, m) && Present(d, m)
    ensures StandsBefore(d, k, m)
  {
    hide Ledger;
    var d' := g.q.done;
    var i, j :| 0 <= i < j < |d'| && d'[i].req.cookie == k && d'[j].req.cookie == m;
    var y :| 0 <= y < |d| && d[y].req.cookie == m;
    assert d'[y] == d[y];
    DoneOnce(g, y, j);
    assert d[i] == d'[i];
  }

  lemma RemoveJoins(d: seq<Command>, x: nat, k: nat, m: nat)
    requires x < |d| && StandsBefore(d[..x] + d[x + 1..], k, m)
    ensures StandsBefore(d, k, m)
  {
    var d' := d[..x] + d[x + 1..];
    var i, j :| 0 <= i < j < |d'| && d'[i].req.cookie == k && d'[j].req.cookie == m;
    var i', j' := if i < x then i else i + 1, if j < x then j else j + 1;
    assert d[i'] == d'[i] && d[j'] == d'[j];
  }

  /** A command stays in the done queue until it is retired. */
  lemma {:induction false} StaysDone(u: User, hs: seq<Handle>, ls: seq<Label>, m: nat, n: nat, k: nat)
    requires IsRun(u, hs, ls) && Fresh(hs[0]) && m <= n < |hs| && Present(hs[m].q.done, k) && Retired(k) !in hs[n].log
    ensures Present(hs[n].q.done, k)
    decreases n
  {
    hide Step, Fresh, Present;
    if m < n {
      var h, l := hs[n - 1], ls[n - 1];
      assert Enabled(h, l) && hs[n] == Step(u, h, l);
      StepErrors(u, h, l);
      StaysDone(u, hs, ls, m, n - 1, k);
      StepStays(u, h, l, k);
    }
  }

  lemma StepStays(u: User, h: Handle, l: Label, k: nat)
    requires Enabled(h, l) && Present(h.q.done, k) && Retired(k) !in Step(u, h, l).log
    ensures Present(Step(u, h, l).q.done, k)
  {
    hide Enter, Lookup;
    var d := h.q.done;
    var y :| 0 <= y < |d| && d[y].req.cookie == k;
    if l.Retire? {
      var g := CommandCompleted(h, l.cookie).0;
      match Lookup(d, l.cookie)
      case None =>
      case Some(x) =>
        if g.q.done != d {
          assert g.log[|h.log|] == Retired(l.cookie);
          assert x != y;
          assert g.q.done[if y < x then y else y - 1] == d[y];
        }
    } else {
      DoneKeepsOrder(u, h, l);
      assert Step(u, h, l).q.done[y] == d[y];
    }
  }

  /** In every run the done queue is in the order in which commands joined it, with or without
      a callback: of any two commands in it, at every earlier time at which the second was in
      the queue the first was too, in front of it. */
  lemma {:induction false} JoinedInOrder(u: User, hs: seq<Handle>, ls: seq<Label>, m: nat, n: nat, i: nat, j: nat)
    requires IsRun(u, hs, ls) && Fresh(hs[0]) && m <= n < |hs| && i < j < |hs[n].q.done|
    requires Present(hs[m].q.done, hs[n].q.done[j].req.cookie)
    ensures StandsBefore(hs[m].q.done, hs[n].q.done[i].req.cookie, hs[n].q.done[j].req.cookie)
  {
    hide Step, Fresh, Ledger;
    RunLedger(u, hs, ls, n);
    DoneOnce(hs[n], j, i);
    JoinedBefore(u, hs, ls, m, n, hs[n].q.done[i].req.cookie, hs[n].q.done[j].req.cookie);
  }

  lemma {:induction false} JoinedBefore(u: User, hs: seq<Handle>, ls: seq<Label>, m: nat, n: nat, k: nat, p: nat)
    requires IsRun(u, hs, ls) && Fresh(hs[0]) && m <= n < |hs| && StandsBefore(hs[n].q.done, k, p)
    requires Present(hs[m].q.done, p) && Retired(p) !in hs[n].log
    ensures StandsBefore(hs[m].q.done, k, p)
    decreases n
  {
    hide Step, Fresh, Ledger, StandsBefore, Present;
    if m < n {
      var h, l := hs[n - 1], ls[n - 1];
      assert Enabled(h, l) && hs[n] == Step(u, h, l);
      StepErrors(u, h, l);
      assert Retired(p) !in h.log;
      StaysDone(u, hs, ls, m, n - 1, p);
      RunLedger(u, hs, ls, n - 1);
      RunLedger(u, hs, ls, n);
      StepJoins(u, h, l, k, p);
      JoinedBefore(u, hs, ls, m, n - 1, k, p);
    }
  }

  // ---- the first error ----

  /** The command is in the list, with the same request and error. */
  ghost predicate Stands(list: seq<Command>, c: Command)
  {
    exists i | 0 <= i < |list| :: list[i].req == c.req && list[i].error == c.error
  }

  /** The command has left the in-flight lists with this error: its completion callback was
      given it; without a callback it is in the done queue with it, or was retired. */
  ghost predicate Told(h: Handle, c: Command)
  {
    if c.req.hasCompletion then CompletionCb(c.req.cookie, c.error) in h.log
    else Retired(c.req.cookie) in h.log || Stands(h.q.done, c)
  }

  /** RECV_READ_PAYLOAD of a simple reply works on the command with cookie `k`: the one state
      that overwrites an error. */
  predicate Overwrites(h: Handle, l: Label, k: nat)
  {
    l.Run? && h.state.RecvReadPayload? && h.r.replyCmd == Some(k)
  }

  lemma StandsAt(list: seq<Command>, i: nat, c: Command)
    requires i < |list| && list[i].req == c.req && list[i].error == c.error
    ensures Stands(list, c)
  {
  }

  lemma StandsIn(a: seq<Command>, b: seq<Command>, c: Command)
    requires Stands(a, c)
    ensures a <= b ==> Stands(b, c)
    ensures forall x: Command :: b == [x] + a ==> Stands(b, c)
  {
    var i :| 0 <= i < |a| && a[i].req == c.req && a[i].error == c.error;
    if a <= b { StandsAt(b, i, c); }
    if |b| == |a| + 1 && b[1..] == a { assert b[i + 1] == a[i]; StandsAt(b, i + 1, c); }
  }

  lemma StandsWithout(list: seq<Command>, i: nat, c: Command)
    requires Stands(list, c) && i < |list| && !(list[i].req == c.req && list[i].error == c.error)
    ensures Stands(list[..i] + list[i + 1..], c)
  {
    var l := list[..i] + list[i + 1..];
    var j :| 0 <= j < |list| && list[j].req == c.req && list[j].error == c.error;
    var k := if j < i then j else j - 1;
    assert l[k] == list[j];
    StandsAt(l, k, c);
  }

  /** What has been told stays told. */
  lemma StepTold(u: User, h: Handle, l: Label, c: Command)
    requires Enabled(h, l) && Told(h, c)
    ensures Told(Step(u, h, l), c)
  {
    hide Enter, Lookup, Stands, Descends;
    var g := Step(u, h, l);
    StepErrors(u, h, l);
    assert h.log <= g.log;
    if !c.req.hasCompletion && Retired(c.req.cookie) !in g.log {
      assert Stands(h.q.done, c);
      if l.Retire? { RetireTold(h, l.cookie, c); } else { DoneKeepsOrder(u, h, l); StandsIn(h.q.done, g.q.done, c); }
    }
  }

  lemma RetireTold(h: Handle, cookie: nat, c: Command)
    requires Stands(h.q.done, c)
    ensures var g := CommandCompleted(h, cookie).0; Retired(c.req.cookie) in g.log || Stands(g.q.done, c)
  {
    hide Lookup, Stands;
    match Lookup(h.q.done, cookie)
    case None =>
    case Some(i) =>
      if h.q.done[i].req.cookie == c.req.cookie {
        assert CommandCompleted(h, cookie).0.q == h.q || Retired(cookie) in CommandCompleted(h, cookie).0.log;
      } else {
        StandsWithout(h.q.done, i, c);
      }
  }

  /** A command that completes with its error is told. */
  lemma LeaveTold(u: User, h: Handle, cmd: Command, fix: nat)
    requires cmd.error != 0
    ensures var (g, cmd', retire) := Complete(u, h, cmd, cmd.error); Told(Leave(g, cmd'.FailWith(fix), retire), cmd)
  {
    hide Stands;
    var (g, cmd', retire) := Complete(u, h, cmd, cmd.error);
    var k := Leave(g, cmd'.FailWith(fix), retire);
    if cmd.req.hasCompletion {
      assert g.log[|h.log|] == CompletionCb(cmd.req.cookie, cmd.error);
      assert k.log[|h.log|] == g.log[|h.log|];
    } else if retire {
      assert k.log[|h.log|] == Retired(cmd.req.cookie);
    } else {
      StandsAt(k.q.done, |h.q.done|, cmd);
    }
  }

  lemma AbortTold(u: User, h: Handle, list: seq<Command>, c: Command)
    requires Told(h, c)
    ensures Told(Abort(u, h, list), c)
  {
    hide Stands, Abort;
    AbortErrors(u, h, list);
    AbortAppends(u, h, list);
    if Stands(h.q.done, c) { StandsIn(h.q.done, Abort(u, h, list).q.done, c); }
  }

  lemma {:induction false} AbortTells(u: User, h: Handle, list: seq<Command>, j: nat)
    requires j < |list| && list[j].error != 0 && Sane(list)
    ensures Told(Abort(u, h, list), list[j])
    decreases |list|
  {
    hide Told, Complete, Leave;
    var cmd := list[0];
    var (g, cmd', retire) := Complete(u, h, cmd, if cmd.error != 0 then cmd.error else ENOTCONN);
    var k := Leave(g, cmd'.FailWith(ENOTCONN), retire);
    assert Abort(u, h, list) == Abort(u, k, list[1..]);
    if j == 0 {
      LeaveTold(u, h, cmd, ENOTCONN);
      AbortTold(u, k, list[1..], cmd);
    } else {
      AbortTells(u, k, list[1..], j - 1);
    }
  }

  lemma EndTells(u: User, h: Handle, c: Command)
    requires Stands(h.q.inFlight, c) && c.error != 0 && Sane(h.q.toIssue) && Sane(h.q.inFlight)
    ensures Told(EnterEnd(u, h), c)
  {
    hide Abort, Told;
    var g := Abort(u, h.(q := h.q.(toIssue := [])), h.q.toIssue);
    var k := Abort(u, g.(q := g.q.(inFlight := [])), h.q.inFlight);
    var j :| 0 <= j < |h.q.inFlight| && h.q.inFlight[j].req == c.req && h.q.inFlight[j].error == c.error;
    AbortTells(u, g.(q := g.q.(inFlight := [])), h.q.inFlight, j);
    SameTold(k, EnterEnd(u, h), h.q.inFlight[j], c);
  }

  lemma SameTold(h: Handle, g: Handle, b: Command, c: Command)
    requires Told(h, b) && g.log == h.log && g.q.done == h.q.done && b.req == c.req && b.error == c.error
    ensures Told(g, c)
  {
  }

  lemma Alone(h: Handle, i: nat, j: nat)
    requires Ledger(h) && i < |h.q.inFlight| && j < |h.q.inFlight|
             && h.q.inFlight[i].req.cookie == h.q.inFlight[j].req.cookie
    ensures i == j
  {
    hide Tally, Occ;
    var k := h.q.inFlight[i].req.cookie;
    if i != j {
      assert Law(h, [], k);
      OccAt(h.q.inFlight, i, k, false);
      var rest := h.q.inFlight[..i] + h.q.inFlight[i + 1..];
      assert rest[if j < i then j else j - 1] == h.q.inFlight[j];
      OccMember(rest, if j < i then j else j - 1, k);
    }
  }

  lemma FinishTells(u: User, h: Handle, c: Command)
    requires Stands(h.q.inFlight, c) && c.error != 0 && Ledger(h)
    ensures var g := OnFinishCommand(u, h); Stands(g.q.inFlight, c) || Told(g, c)
  {
    hide Lookup, Ledger, Stands, Told, Acts, Field, FinishAt;
    match Lookup(h.q.inFlight, Cookie(h))
    case None =>
    case Some(i) =>
      var h1 := h.(r := h.r.(replyCmd := None));
      if OnFinishCommand(u, h).q.inFlight != h.q.inFlight {
        FinishAtTells(u, h, h1, i, c);
        var k := FinishAt(u, h1, i);
        if Told(k, c) { SameTold(k, OnFinishCommand(u, h), c, c); }
      }
  }

  lemma FinishAtTells(u: User, h: Handle, h1: Handle, i: nat, c: Command)
    requires Stands(h.q.inFlight, c) && c.error != 0 && Ledger(h) && i < |h.q.inFlight| && h1 == h.(r := h1.r)
    ensures var g := FinishAt(u, h1, i); Stands(g.q.inFlight, c) || Told(g, c)
  {
    hide Ledger;
    var j :| 0 <= j < |h.q.inFlight| && h.q.inFlight[j].req == c.req && h.q.inFlight[j].error == c.error;
    if h.q.inFlight[i].req.cookie == c.req.cookie {
      Alone(h, i, j);
      FinishOneTells(u, h1, i);
      SameTold(FinishAt(u, h1, i), FinishAt(u, h1, i), h.q.inFlight[i], c);
    } else {
      StandsWithout(h.q.inFlight, i, c);
    }
  }

  lemma FinishOneTells(u: User, h: Handle, i: nat)
    requires i < |h.q.inFlight| && h.q.inFlight[i].error != 0
    ensures Told(FinishAt(u, h, i), h.q.inFlight[i])
  {
    hide Told, Complete;
    var cmd := h.q.inFlight[i];
    LeaveTold(u, h.(q := h.q.(inFlight := h.q.inFlight[..i] + h.q.inFlight[i + 1..])), cmd, 0);
    LeaveFrame(u, h, cmd, i);
  }

  lemma LeaveFrame(u: User, h: Handle, cmd: Command, i: nat)
    requires i < |h.q.inFlight| && cmd == h.q.inFlight[i]
    ensures var h1 := h.(q := h.q.(inFlight := h.q.inFlight[..i] + h.q.inFlight[i + 1..]));
      var (g, cmd', retire) := Complete(u, h1, cmd, cmd.error);
      FinishAt(u, h, i) == Leave(g, cmd'.FailWith(0), retire)
  {
  }

  /** RECV_READ_PAYLOAD leaves all commands alone but the one of its reply. */
  lemma OthersUntouched(u: User, h: Handle, io: Io, j: nat)
    requires h.state.RecvReadPayload? && IoOk(h, io) && j < |h.q.inFlight|
             && h.r.replyCmd != Some(h.q.inFlight[j].req.cookie)
    ensures var g := EnterReply(u, h, io); j < |g.q.inFlight| && g.q.inFlight[j] == h.q.inFlight[j]
  {
    hide Act, Pause, Deliver, Lookup;
    if h.r.rlen == 0 {
      PayloadOthers(u, h, j);
    } else if io.Got? {
      DeliverOthers(h, io.bytes, j);
      var d := Deliver(h, io.bytes);
      PayloadOthers(u, d, j);
      assert Pause(d).q == d.q by { PauseLists(d); }
    } else {
      assert Pause(h).q == h.q by { PauseLists(h); }
    }
  }

  lemma PauseLists(h: Handle)
    ensures Pause(h).q == h.q
  {
  }

  lemma PayloadOthers(u: User, h: Handle, j: nat)
    requires h.state.RecvReadPayload? && j < |h.q.inFlight| && h.r.replyCmd != Some(h.q.inFlight[j].req.cookie)
    ensures var g := Act(u, h); j < |g.q.inFlight| && g.q.inFlight[j] == h.q.inFlight[j]
  {
    hide Lookup, Acts;
  }

  lemma DeliverOthers(h: Handle, bytes: seq<byte>, j: nat)
    requires |bytes| <= h.r.rlen && j < |h.q.inFlight| && h.r.replyCmd != Some(h.q.inFlight[j].req.cookie)
    ensures var g := Deliver(h, bytes);
      g.state == h.state && g.r.replyCmd == h.r.replyCmd && |g.q.inFlight| == |h.q.inFlight|
        && g.q.inFlight[j] == h.q.inFlight[j]
  {
    hide Lookup, Fill, FillsOutside;
  }

  lemma EnterTells(u: User, h: Handle, io: Io, c: Command)
    requires EventOk(h, io) && !h.blocked && Ledger(h) && Stands(h.q.inFlight, c) && c.error != 0
    requires !Overwrites(h, Run(io), c.req.cookie)
    ensures var g := Enter(u, h, io); Stands(g.q.inFlight, c) || Told(g, c)
  {
    hide EnterReply, EnterEnd, EnterReady, EnterSend, EnterIssueStart, EnterPrepareWritePayload, EnterPause,
         OnFinishCommand, QuietLog, Field, Told, Ledger;
    var g := Enter(u, h, io);
    var i :| 0 <= i < |h.q.inFlight| && h.q.inFlight[i].req == c.req && h.q.inFlight[i].error == c.error;
    if h.state.Dead? || h.state.Closed? {
      assert Sane(h.q.toIssue) && Sane(h.q.inFlight) by { LedgerSane(h); }
      EndTells(u, h, c);
    } else if h.state.FinishCommand? {
      ReplyIsFinish(u, h, io);
      FinishTells(u, h, c);
    } else if h.state.RecvReadPayload? {
      OthersUntouched(u, h, io, i);
      StandsAt(g.q.inFlight, i, c);
    } else if IsReplyState(h.state) {
      EnterReplyQuiet(u, h, io);
      assert Progress(h.q.inFlight[i], g.q.inFlight[i], true);
      StandsAt(g.q.inFlight, i, c);
    } else if h.state.IssueFinish? {
      StandsIn(h.q.inFlight, g.q.inFlight, c);
    } else {
      EnterOther(u, h, io);
    }
  }

  lemma LedgerSane(h: Handle)
    requires Ledger(h)
    ensures Sane(h.q.toIssue) && Sane(h.q.inFlight)
  {
    hide Laws, Sane, NoDisc;
  }

  lemma StepTells(u: User, h: Handle, l: Label, c: Command)
    requires Enabled(h, l) && Ledger(h) && Stands(h.q.inFlight, c) && c.error != 0 && !Overwrites(h, l, c.req.cookie)
    ensures var g := Step(u, h, l); Stands(g.q.inFlight, c) || Told(g, c)
  {
    hide Enter, Ledger, Stands, Told, Lookup, Overwrites;
    if l.Run? { EnterTells(u, h, l.io, c); }
  }

  /** In every run: a command in flight that has an error keeps it until it completes.  If no
      RECV_READ_PAYLOAD of a simple reply works on it meanwhile, then at any later time it is
      still in flight with that error, or its completion callback was given just that error
      (without a callback: it was put in the done queue with it). */
  lemma {:induction false} FirstErrorKept(u: User, hs: seq<Handle>, ls: seq<Label>, m: nat, n: nat, i: nat)
    requires IsRun(u, hs, ls) && Fresh(hs[0]) && m <= n < |hs|
    requires i < |hs[m].q.inFlight| && hs[m].q.inFlight[i].error != 0
    requires forall k | m <= k < n :: !Overwrites(hs[k], ls[k], hs[m].q.inFlight[i].req.cookie)
    ensures Stands(hs[n].q.inFlight, hs[m].q.inFlight[i]) || Told(hs[n], hs[m].q.inFlight[i])
    decreases n
  {
    hide Fresh, Ledger, Stands, Told, Overwrites, Step;
    var c := hs[m].q.inFlight[i];
    if m == n {
      StandsAt(hs[n].q.inFlight, i, c);
    } else {
      FirstErrorKept(u, hs, ls, m, n - 1, i);
      RunLedger(u, hs, ls, n - 1);
      assert Enabled(hs[n - 1], ls[n - 1]) && hs[n] == Step(u, hs[n - 1], ls[n - 1]);
      if Told(hs[n - 1], c) { StepTold(u, hs[n - 1], ls[n - 1], c); } else { StepTells(u, hs[n - 1], ls[n - 1], c); }
    }
  }
}
