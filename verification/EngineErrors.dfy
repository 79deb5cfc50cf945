/** Errors of commands: they never go away, and a command that got an error chunk or went
    through RESYNC is never reported as a success. */
module EngineErrors {
  import opened Bytes
  import opened BlockStatus
  import opened Nbd
  import opened Reply
  import opened Engine
  import opened EngineQuiet
  import opened EngineLedger
  import opened EngineSend

  /** Every command that has not been retired. */
  function All(q: Queues): seq<Command> { q.toIssue + q.inFlight + q.done }

  /** Is there a command with this cookie and no error? */
  ghost predicate Clean(list: seq<Command>, k: nat)
  {
    exists i :: 0 <= i < |list| && list[i].req.cookie == k && list[i].error == 0
  }

  /** A command without an error had none before, or is new. */
  ghost predicate Descends(h: Handle, g: Handle)
  {
    g.q.unique >= h.q.unique && forall k: nat :: k < h.q.unique && Clean(All(g.q), k) ==> Clean(All(h.q), k)
  }

  lemma CleanParts(q: Queues, k: nat)
    ensures Clean(All(q), k) <==> Clean(q.toIssue, k) || Clean(q.inFlight, k) || Clean(q.done, k)
  {
    var all := All(q);
    if i :| 0 <= i < |q.toIssue| && q.toIssue[i].req.cookie == k && q.toIssue[i].error == 0 {
      assert all[i] == q.toIssue[i];
    }
    if i :| 0 <= i < |q.inFlight| && q.inFlight[i].req.cookie == k && q.inFlight[i].error == 0 {
      assert all[|q.toIssue| + i] == q.inFlight[i];
    }
    if i :| 0 <= i < |q.done| && q.done[i].req.cookie == k && q.done[i].error == 0 {
      assert all[|q.toIssue| + |q.inFlight| + i] == q.done[i];
    }
  }

  /** It is enough to look at the three lists. */
  lemma DescendsBy(h: Handle, g: Handle)
    requires g.q.unique >= h.q.unique
    requires forall k: nat :: k < h.q.unique && (Clean(g.q.toIssue, k) || Clean(g.q.inFlight, k) || Clean(g.q.done, k))
               ==> Clean(h.q.toIssue, k) || Clean(h.q.inFlight, k) || Clean(h.q.done, k)
    ensures Descends(h, g)
  {
    hide Clean, All;
    forall k: nat | k < h.q.unique && Clean(All(g.q), k) ensures Clean(All(h.q), k) {
      CleanParts(g.q, k);
      CleanParts(h.q, k);
    }
  }

  lemma QuietDescends(h: Handle, g: Handle)
    requires Quiet(h, g)
    ensures Descends(h, g)
  {
    hide QuietLog;
    forall k: nat | Clean(g.q.inFlight, k) ensures Clean(h.q.inFlight, k) {
      var i :| 0 <= i < |g.q.inFlight| && g.q.inFlight[i].req.cookie == k && g.q.inFlight[i].error == 0;
      assert Progress(h.q.inFlight[i], g.q.inFlight[i], !h.state.RecvReadPayload?);
      assert h.q.inFlight[i].req.cookie == k && h.q.inFlight[i].error == 0;
    }
    DescendsBy(h, g);
  }

  lemma SameDescends(h: Handle, g: Handle)
    requires g.q == h.q
    ensures Descends(h, g)
  {
  }

  lemma CleanAppend(list: seq<Command>, cmd: Command, k: nat)
    ensures Clean(list + [cmd], k) <==> Clean(list, k) || (cmd.req.cookie == k && cmd.error == 0)
  {
    var l := list + [cmd];
    if Clean(list, k) {
      var i :| 0 <= i < |list| && list[i].req.cookie == k && list[i].error == 0;
      assert l[i] == list[i];
    }
    if cmd.req.cookie == k && cmd.error == 0 { assert l[|list|] == cmd; }
    if Clean(l, k) {
      var i :| 0 <= i < |l| && l[i].req.cookie == k && l[i].error == 0;
      assert i < |list| ==> l[i] == list[i];
    }
  }

  lemma CleanRemove(list: seq<Command>, i: nat, k: nat)
    requires i < |list| && Clean(list[..i] + list[i + 1..], k)
    ensures Clean(list, k)
  {
    var l := list[..i] + list[i + 1..];
    var j :| 0 <= j < |l| && l[j].req.cookie == k && l[j].error == 0;
    assert l[j] == if j < i then list[j] else list[j + 1];
  }

  lemma CleanAt(list: seq<Command>, i: nat)
    requires i < |list| && list[i].error == 0
    ensures Clean(list, list[i].req.cookie)
  {
  }

  lemma FinishAtDescends(u: User, h: Handle, i: nat)
    requires i < |h.q.inFlight|
    ensures Descends(h, FinishAt(u, h, i))
  {
    hide Clean, Descends, Complete;
    var g := FinishAt(u, h, i);
    var cmd := h.q.inFlight[i];
    var c := Complete(u, h, cmd, cmd.error).1;
    forall k: nat | Clean(g.q.inFlight, k) || Clean(g.q.done, k) ensures Clean(h.q.inFlight, k) || Clean(h.q.done, k) {
      if Clean(g.q.inFlight, k) {
        CleanRemove(h.q.inFlight, i, k);
      } else {
        CleanAppend(h.q.done, c, k);
        if cmd.error == 0 { CleanAt(h.q.inFlight, i); }
      }
    }
    DescendsBy(h, g);
  }

  lemma FinishDescends(u: User, h: Handle)
    ensures Descends(h, OnFinishCommand(u, h))
  {
    hide FinishAt, Lookup, Clean, Acts;
    var h1 := h.(r := h.r.(replyCmd := None));
    var g := OnFinishCommand(u, h);
    match Lookup(h.q.inFlight, Cookie(h))
    case None =>
    case Some(i) => FinishAtDescends(u, h1, i);
  }

  lemma IssueFinishDescends(h: Handle)
    ensures Descends(h, EnterIssueFinish(h))
  {
    hide Clean, Field, Descends;
    var g := EnterIssueFinish(h);
    if g.q == h.q {
      SameDescends(h, g);
    } else {
      var cmd := h.q.toIssue[0];
      assert h.q.toIssue[1..] == h.q.toIssue[..0] + h.q.toIssue[0 + 1..];
      forall k: nat | Clean(g.q.toIssue, k) || Clean(g.q.inFlight, k)
        ensures Clean(h.q.toIssue, k) || Clean(h.q.inFlight, k)
      {
        if Clean(g.q.toIssue, k) {
          CleanRemove(h.q.toIssue, 0, k);
        } else {
          CleanCons(cmd, h.q.inFlight, k);
          if cmd.error == 0 { CleanAt(h.q.toIssue, 0); }
        }
      }
      DescendsBy(h, g);
    }
  }

  lemma CleanCons(cmd: Command, list: seq<Command>, k: nat)
    requires Clean([cmd] + list, k)
    ensures Clean(list, k) || (cmd.req.cookie == k && cmd.error == 0)
  {
    var l := [cmd] + list;
    var i :| 0 <= i < |l| && l[i].req.cookie == k && l[i].error == 0;
    assert i > 0 ==> l[i] == list[i - 1];
  }

  lemma QueueDescends(h: Handle, cmd: Command)
    ensures Descends(h, Queue(h, cmd))
  {
    hide Clean, Descends;
    var g := Queue(h, cmd);
    if g.q == h.q {
      SameDescends(h, g);
    } else {
      forall k: nat | k < h.q.unique && Clean(g.q.toIssue, k) ensures Clean(h.q.toIssue, k) {
        CleanAppend(h.q.toIssue, cmd.(req := cmd.req.(cookie := h.q.unique)), k);
      }
      DescendsBy(h, g);
    }
  }

  lemma RetireDescends(h: Handle, cookie: nat)
    ensures Descends(h, CommandCompleted(h, cookie).0)
  {
    hide Clean, Descends;
    var g := CommandCompleted(h, cookie).0;
    if g.q == h.q {
      SameDescends(h, g);
    } else {
      forall k: nat | Clean(g.q.done, k) ensures Clean(h.q.done, k) {
        CleanRemove(h.q.done, Lookup(h.q.done, cookie).value, k);
      }
      DescendsBy(h, g);
    }
  }

  /** Aborting adds only commands with an error to the done queue, and logs only
      completions and retirements. */
  lemma {:induction false} AbortErrors(u: User, h: Handle, list: seq<Command>)
    ensures var g := Abort(u, h, list);
      && g.q == h.q.(done := g.q.done) && h.log <= g.log
      && (forall k: nat :: Clean(g.q.done, k) ==> Clean(h.q.done, k))
      && (forall j | |h.log| <= j < |g.log| :: g.log[j].CompletionCb? || g.log[j].Retired?)
    decreases |list|
  {
    hide Clean, Complete, Leave;
    if list != [] {
      var cmd := list[0];
      var (g, cmd', retire) := Complete(u, h, cmd, if cmd.error != 0 then cmd.error else ENOTCONN);
      LeaveErrors(u, h, cmd);
      AbortErrors(u, Leave(g, cmd'.FailWith(ENOTCONN), retire), list[1..]);
    }
  }

  lemma LeaveErrors(u: User, h: Handle, cmd: Command)
    ensures var (g, cmd', retire) := Complete(u, h, cmd, if cmd.error != 0 then cmd.error else ENOTCONN);
      var k := Leave(g, cmd'.FailWith(ENOTCONN), retire);
      && k.q == h.q.(done := k.q.done) && h.log <= k.log
      && (forall x: nat :: Clean(k.q.done, x) ==> Clean(h.q.done, x))
      && (forall j | |h.log| <= j < |k.log| :: k.log[j].CompletionCb? || k.log[j].Retired?)
  {
    hide Clean;
    var (g, cmd', retire) := Complete(u, h, cmd, if cmd.error != 0 then cmd.error else ENOTCONN);
    var c := cmd'.FailWith(ENOTCONN);
    forall x: nat | Clean(h.q.done + [c], x) ensures Clean(h.q.done, x) { CleanAppend(h.q.done, c, x); }
  }

  lemma EndErrors(u: User, h: Handle)
    ensures var g := EnterEnd(u, h);
      && Descends(h, g) && h.log <= g.log
      && forall j | |h.log| <= j < |g.log| :: g.log[j].CompletionCb? || g.log[j].Retired?
  {
    hide Clean, Abort, Descends;
    var h1 := h.(q := h.q.(toIssue := []));
    var g := Abort(u, h1, h.q.toIssue);
    AbortErrors(u, h1, h.q.toIssue);
    var g1 := g.(q := g.q.(inFlight := []));
    AbortErrors(u, g1, h.q.inFlight);
    forall k: nat ensures !Clean([], k) { NoneClean(k); }
    DescendsBy(h, EnterEnd(u, h));
  }

  lemma NoneClean(k: nat)
    ensures !Clean([], k)
  {
  }

  /** The events that a step can add which matter here: a command is flagged only when it
      has an error, and success is reported only of a command without one. */
  ghost predicate EventOf(h: Handle, g: Handle, e: Event)
  {
    && (e.Flagged? ==>
          exists i | 0 <= i < |g.q.inFlight| :: g.q.inFlight[i].req.cookie == e.cookie && g.q.inFlight[i].error != 0)
    && (e.Reported? && e.success ==> Clean(h.q.done, e.cookie))
  }

  ghost predicate Adds(h: Handle, g: Handle)
  {
    h.log <= g.log && forall j | |h.log| <= j < |g.log| :: EventOf(h, g, g.log[j])
  }

  lemma QuietAdds(h: Handle, g: Handle)
    requires Quiet(h, g)
    ensures Adds(h, g)
  {
    hide AllProgress;
    forall j | |h.log| <= j < |g.log| ensures EventOf(h, g, g.log[j]) {
      assert QuietEvent(g.log[j], g.q.inFlight);
    }
  }

  lemma FinishAdds(u: User, h: Handle)
    ensures Adds(h, OnFinishCommand(u, h))
  {
    hide Lookup, Clean, Acts, FinishAt;
    match Lookup(h.q.inFlight, Cookie(h))
    case None =>
    case Some(i) => FinishLog(u, h.(r := h.r.(replyCmd := None)), i);
  }

  lemma FinishLog(u: User, h: Handle, i: nat)
    requires i < |h.q.inFlight|
    ensures var g := FinishAt(u, h, i);
      h.log <= g.log && forall j | |h.log| <= j < |g.log| :: !g.log[j].Flagged? && !g.log[j].Reported?
  {
  }

  lemma RetireAdds(h: Handle, cookie: nat)
    ensures Adds(h, CommandCompleted(h, cookie).0)
  {
    hide Lookup;
    match Lookup(h.q.done, cookie)
    case None =>
    case Some(i) => if h.q.done[i].error == 0 { CleanAt(h.q.done, i); }
  }

  lemma EnterErrors(u: User, h: Handle, io: Io)
    requires EventOk(h, io) && !h.blocked
    ensures Descends(h, Enter(u, h, io)) && Adds(h, Enter(u, h, io))
  {
    hide Descends, EnterReply, EnterEnd, EnterIssueFinish, EnterReady, EnterSend, EnterIssueStart,
         EnterPrepareWritePayload, EnterPause, Quiet;
    if h.state.Dead? || h.state.Closed? {
      EndErrors(u, h);
    } else if h.state.FinishCommand? {
      ActFinish(u, h);
      assert EnterReply(u, h, io) == OnFinishCommand(u, h) by { ReplyIsFinish(u, h, io); }
      FinishDescends(u, h);
      FinishAdds(u, h);
    } else if IsReplyState(h.state) {
      EnterReplyQuiet(u, h, io);
      QuietDescends(h, EnterReply(u, h, io));
      QuietAdds(h, EnterReply(u, h, io));
    } else if h.state.IssueFinish? {
      IssueFinishDescends(h);
      IssueFinishLog(h);
    } else {
      EnterOther(u, h, io);
      SameDescends(h, Enter(u, h, io));
    }
  }

  lemma IssueFinishLog(h: Handle)
    ensures EnterIssueFinish(h).log == h.log
  {
    hide Field;
  }

  lemma ReplyIsFinish(u: User, h: Handle, io: Io)
    requires h.state.FinishCommand? && IoOk(h, io)
    ensures EnterReply(u, h, io) == OnFinishCommand(u, h)
  {
    hide OnFinishCommand;
  }

  /** Every step: errors stay, and the log grows by events that fit. */
  lemma StepErrors(u: User, h: Handle, l: Label)
    requires Enabled(h, l)
    ensures Descends(h, Step(u, h, l)) && Adds(h, Step(u, h, l))
  {
    hide Descends, Enter, Queue, CommandCompleted;
    match l
    case Run(io) => EnterErrors(u, h, io);
    case Notify(read) => SameDescends(h, Step(u, h, l));
    case Submit(cmd) => QueueDescends(h, cmd); QueueLog(h, cmd);
    case Retire(cookie) => RetireDescends(h, cookie); RetireAdds(h, cookie);
  }

  lemma QueueLog(h: Handle, cmd: Command)
    ensures h.log <= Queue(h, cmd).log && forall j | |h.log| <= j < |Queue(h, cmd).log| :: Queue(h, cmd).log[j].Queued?
  {
  }

  // ---- flagged commands ----

  /** A flagged command was queued, has an error as long as it is in a list, and was not
      reported as a success. */
  ghost predicate Marked(h: Handle)
  {
    forall k: nat :: Flagged(k) in h.log ==> k < h.q.unique && !Clean(All(h.q), k) && Reported(k, true) !in h.log
  }

  lemma {:induction false} TallyIn(t: Tag, log: seq<Event>, k: nat, e: Event)
    requires e in log && Hits(t, e, k)
    ensures Tally(t, log, k) >= 1
  {
    if log[|log| - 1] != e {
      assert e in log[..|log| - 1];
      TallyIn(t, log[..|log| - 1], k, e);
    }
  }

  /** A cookie that stands in two places of one list of the handle breaks the laws. */
  lemma OnlyOne(h: Handle, i: nat, k: nat)
    requires Ledger(h) && i < |h.q.inFlight| && h.q.inFlight[i].req.cookie == k && h.q.inFlight[i].error != 0
    ensures 1 <= k < h.q.unique && !Clean(All(h.q), k) && Reported(k, true) !in h.log
  {
    hide Tally, Occ;
    assert Law(h, [], k);
    OccAt(h.q.inFlight, i, k, false);
    CleanParts(h.q, k);
    var rest := h.q.inFlight[..i] + h.q.inFlight[i + 1..];
    if Clean(h.q.toIssue, k) { CleanOcc(h.q.toIssue, k); assert false; }
    if Clean(h.q.done, k) { CleanOcc(h.q.done, k); assert false; }
    if Clean(h.q.inFlight, k) {
      var j :| 0 <= j < |h.q.inFlight| && h.q.inFlight[j].req.cookie == k && h.q.inFlight[j].error == 0;
      assert rest[if j < i then j else j - 1] == h.q.inFlight[j];
      OccMember(rest, if j < i then j else j - 1, k);
      assert false;
    }
    if Reported(k, true) in h.log { TallyIn(TReported, h.log, k, Reported(k, true)); assert false; }
  }

  lemma CleanOcc(list: seq<Command>, k: nat)
    requires Clean(list, k)
    ensures Occ(list, k, false) >= 1
  {
    var i :| 0 <= i < |list| && list[i].req.cookie == k && list[i].error == 0;
    OccMember(list, i, k);
  }

  lemma StepMarked(u: User, h: Handle, l: Label)
    requires Marked(h) && Ledger(h) && Enabled(h, l)
    ensures Marked(Step(u, h, l))
  {
    hide Ledger, Step, All, Clean;
    var g := Step(u, h, l);
    StepErrors(u, h, l);
    StepLedger(u, h, l);
    forall k: nat | Flagged(k) in g.log ensures k < g.q.unique && !Clean(All(g.q), k) && Reported(k, true) !in g.log {
      var j :| 0 <= j < |g.log| && g.log[j] == Flagged(k);
      if j < |h.log| {
        assert h.log[j] == Flagged(k);
        OldFlag(h, g, k);
      } else {
        assert EventOf(h, g, g.log[j]);
        var i :| 0 <= i < |g.q.inFlight| && g.q.inFlight[i].req.cookie == k && g.q.inFlight[i].error != 0;
        OnlyOne(g, i, k);
      }
    }
  }

  lemma OldFlag(h: Handle, g: Handle, k: nat)
    requires Marked(h) && Flagged(k) in h.log && Descends(h, g) && Adds(h, g)
    ensures k < g.q.unique && !Clean(All(g.q), k) && Reported(k, true) !in g.log
  {
    hide Clean, All;
    if Reported(k, true) in g.log {
      var j :| 0 <= j < |g.log| && g.log[j] == Reported(k, true);
      assert j >= |h.log|;
      assert EventOf(h, g, g.log[j]);
      CleanParts(h.q, k);
      assert false;
    }
  }

  lemma {:induction false} RunMarked(u: User, hs: seq<Handle>, ls: seq<Label>, n: nat)
    requires IsRun(u, hs, ls) && Fresh(hs[0]) && n < |hs|
    ensures Marked(hs[n])
  {
    hide Ledger, Step;
    if n > 0 {
      RunMarked(u, hs, ls, n - 1);
      RunLedger(u, hs, ls, n - 1);
      StepMarked(u, hs[n - 1], ls[n - 1]);
    }
  }

  /** In every run, a command that got an error chunk or went through RESYNC has an error in
      whatever list it stands, and nbd_aio_command_completed never reports it as a success. */
  lemma FlaggedNeverSucceeds(u: User, hs: seq<Handle>, ls: seq<Label>, n: nat, k: nat)
    requires IsRun(u, hs, ls) && Fresh(hs[0]) && n < |hs| && Flagged(k) in hs[n].log
    ensures Reported(k, true) !in hs[n].log
    ensures forall i | 0 <= i < |All(hs[n].q)| && All(hs[n].q)[i].req.cookie == k :: All(hs[n].q)[i].error != 0
    ensures CommandCompleted(hs[n], k).1 != 1
  {
    hide IsRun, Fresh, All, Lookup;
    RunMarked(u, hs, ls, n);
    var all := All(hs[n].q);
    assert !Clean(all, k);
    if CommandCompleted(hs[n], k).1 == 1 {
      CleanAt(hs[n].q.done, Lookup(hs[n].q.done, k).value);
      CleanParts(hs[n].q, k);
    }
  }

  /** In every run, once a command has an error it has one in every later state until it is
      retired. */
  lemma {:induction false} ErrorsStay(u: User, hs: seq<Handle>, ls: seq<Label>, m: nat, n: nat, k: nat)
    requires IsRun(u, hs, ls) && Fresh(hs[0]) && m <= n < |hs| && k < hs[m].q.unique && !Clean(All(hs[m].q), k)
    ensures !Clean(All(hs[n].q), k) && k < hs[n].q.unique
    decreases n
  {
    hide Fresh, All, Clean, Step;
    if m < n {
      ErrorsStay(u, hs, ls, m, n - 1, k);
      StepErrors(u, hs[n - 1], ls[n - 1]);
    }
  }
}
