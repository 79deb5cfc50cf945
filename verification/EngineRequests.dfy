/** The requests in the lists are those that were queued: what holds of every request that is
    queued holds of every command in a list. */
module EngineRequests {
  import opened Bytes
  import opened BlockStatus
  import opened Nbd
  import opened Reply
  import opened Engine
  import opened EngineQuiet
  import opened EngineLedger
  import opened EngineSend
  import opened EngineParser

  ghost predicate Each(list: seq<Command>, p: Request -> bool) { forall i | 0 <= i < |list| :: p(list[i].req) }

  ghost predicate Every(q: Queues, p: Request -> bool) { Each(q.toIssue, p) && Each(q.inFlight, p) && Each(q.done, p) }

  /** The request that is queued, if any, with its cookie. */
  predicate Brings(h: Handle, l: Label, p: Request -> bool) { l.Submit? ==> p(l.cmd.req.(cookie := h.q.unique)) }

  lemma EachAppend(list: seq<Command>, cmd: Command, p: Request -> bool)
    requires Each(list, p) && p(cmd.req)
    ensures Each(list + [cmd], p) && Each([cmd] + list, p)
  {
  }

  lemma EachWithout(list: seq<Command>, i: nat, p: Request -> bool)
    requires Each(list, p) && i < |list|
    ensures Each(list[..i] + list[i + 1..], p)
  {
    var l := list[..i] + list[i + 1..];
    assert forall k | 0 <= k < |l| :: l[k] == list[if k < i then k else k + 1];
  }

  lemma EachSame(a: seq<Command>, b: seq<Command>, p: Request -> bool)
    requires Each(a, p) && SameReqs(a, b)
    ensures Each(b, p)
  {
  }

  /** A command completes and leaves. */
  lemma LeaveEvery(u: User, h: Handle, cmd: Command, error: nat, fix: nat, p: Request -> bool)
    requires Every(h.q, p) && p(cmd.req)
    ensures var (g, cmd', retire) := Complete(u, h, cmd, error);
      var k := Leave(g, cmd'.FailWith(fix), retire);
      Every(k.q, p) && k.q.toIssue == h.q.toIssue && k.q.inFlight == h.q.inFlight
  {
    hide Each;
    var (g, cmd', retire) := Complete(u, h, cmd, error);
    EachAppend(h.q.done, cmd'.FailWith(fix), p);
  }

  lemma {:induction false} AbortEvery(u: User, h: Handle, list: seq<Command>, p: Request -> bool)
    requires Every(h.q, p) && Each(list, p)
    ensures Every(Abort(u, h, list).q, p)
    decreases |list|
  {
    hide Complete, Leave, Every;
    if list != [] {
      var cmd := list[0];
      var e := if cmd.error != 0 then cmd.error else ENOTCONN;
      var (g, cmd', retire) := Complete(u, h, cmd, e);
      LeaveEvery(u, h, cmd, e, ENOTCONN, p);
      AbortEvery(u, Leave(g, cmd'.FailWith(ENOTCONN), retire), list[1..], p);
    }
  }

  lemma NoneOf(p: Request -> bool)
    ensures Each([], p)
  {
  }

  lemma EndEvery(u: User, h: Handle, p: Request -> bool)
    requires Every(h.q, p)
    ensures Every(EnterEnd(u, h).q, p)
  {
    hide Abort, Each;
    NoneOf(p);
    AbortEvery(u, h.(q := h.q.(toIssue := [])), h.q.toIssue, p);
    var g := Abort(u, h.(q := h.q.(toIssue := [])), h.q.toIssue);
    AbortEvery(u, g.(q := g.q.(inFlight := [])), h.q.inFlight, p);
  }

  lemma FinishEvery(u: User, h: Handle, p: Request -> bool)
    requires Every(h.q, p)
    ensures Every(OnFinishCommand(u, h).q, p)
  {
    hide Each, Lookup, Acts, Field, Complete, Leave;
    match Lookup(h.q.inFlight, Cookie(h))
    case None =>
    case Some(i) => FinishAtEvery(u, h.(r := h.r.(replyCmd := None)), i, p);
  }

  lemma FinishAtEvery(u: User, h: Handle, i: nat, p: Request -> bool)
    requires Every(h.q, p) && i < |h.q.inFlight|
    ensures Every(FinishAt(u, h, i).q, p)
  {
    hide Each;
    var cmd := h.q.inFlight[i];
    assert p(cmd.req) by { EachAt(h.q.inFlight, i, p); }
    EachWithout(h.q.inFlight, i, p);
    var c := Complete(u, h, cmd, cmd.error).1;
    EachAppend(h.q.done, c, p);
  }

  lemma EachAt(list: seq<Command>, i: nat, p: Request -> bool)
    requires Each(list, p) && i < |list|
    ensures p(list[i].req)
  {
  }

  lemma IssueEvery(h: Handle, p: Request -> bool)
    requires Every(h.q, p)
    ensures Every(EnterIssueFinish(h).q, p)
  {
    hide Field;
  }

  lemma RetireEvery(h: Handle, cookie: nat, p: Request -> bool)
    requires Every(h.q, p)
    ensures Every(CommandCompleted(h, cookie).0.q, p)
  {
    hide Lookup, Each;
    match Lookup(h.q.done, cookie)
    case None =>
    case Some(i) => EachWithout(h.q.done, i, p);
  }

  lemma QueueEvery(h: Handle, cmd: Command, p: Request -> bool)
    requires Every(h.q, p) && p(cmd.req.(cookie := h.q.unique))
    ensures Every(Queue(h, cmd).q, p)
  {
    hide Each;
    EachAppend(h.q.toIssue, cmd.(req := cmd.req.(cookie := h.q.unique)), p);
  }

  lemma FinishEnters(u: User, h: Handle, io: Io)
    requires h.state.FinishCommand? && IoOk(h, io)
    ensures EnterReply(u, h, io) == OnFinishCommand(u, h)
  {
    hide OnFinishCommand;
  }

  lemma QuietEvery(h: Handle, g: Handle, p: Request -> bool)
    requires Every(h.q, p) && Quiet(h, g)
    ensures Every(g.q, p)
  {
    hide Each, QuietLog;
    QuietCur(h, g);
    EachSame(h.q.inFlight, g.q.inFlight, p);
  }

  lemma StepEvery(u: User, h: Handle, l: Label, p: Request -> bool)
    requires Enabled(h, l) && Every(h.q, p) && Brings(h, l, p)
    ensures Every(Step(u, h, l).q, p)
  {
    hide EnterReply, EnterEnd, EnterIssueFinish, EnterReady, EnterSend, EnterIssueStart, EnterPrepareWritePayload,
         EnterPause, Every, Queue, CommandCompleted, Quiet, OnFinishCommand;
    match l
    case Run(io) =>
      if h.state.Dead? || h.state.Closed? {
        EndEvery(u, h, p);
      } else if h.state.FinishCommand? {
        FinishEnters(u, h, io);
        FinishEvery(u, h, p);
      } else if IsReplyState(h.state) {
        EnterReplyQuiet(u, h, io);
        QuietEvery(h, EnterReply(u, h, io), p);
      } else if h.state.IssueFinish? {
        IssueEvery(h, p);
      } else {
        EnterOther(u, h, io);
      }
    case Notify(read) =>
    case Submit(cmd) => QueueEvery(h, cmd, p);
    case Retire(cookie) => RetireEvery(h, cookie, p);
  }

  /** In every run, what holds of every request that is queued holds of every command. */
  lemma {:induction false} RunEvery(u: User, hs: seq<Handle>, ls: seq<Label>, n: nat, p: Request -> bool)
    requires IsRun(u, hs, ls) && Fresh(hs[0]) && n < |hs|
    requires forall k {:trigger ls[k]} | 0 <= k < n :: Brings(hs[k], ls[k], p)
    ensures Every(hs[n].q, p)
  {
    hide Step, Brings;
    if n > 0 {
      RunEvery(u, hs, ls, n - 1, p);
      assert Brings(hs[n - 1], ls[n - 1], p);
      StepEvery(u, hs[n - 1], ls[n - 1], p);
    }
  }
}
