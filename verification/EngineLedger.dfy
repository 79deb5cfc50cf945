/** Conservation of commands and callbacks: every command is in exactly one list or retired,
    and every completion callback is made once. */
module EngineLedger {
  import opened Bytes
  import opened BlockStatus
  import opened Nbd
  import opened Reply
  import opened Engine
  import opened EngineQuiet

  // ---- counting ----

  datatype Tag = TQueued | TNotify | TCompletion | TRetired | TReported

  /** Does the event count under the tag, for cookie `k`? */
  predicate Hits(t: Tag, e: Event, k: nat)
  {
    match t
    case TQueued => e.Queued? && e.cookie == k
    case TNotify => e.Queued? && e.cookie == k && e.notify
    case TCompletion => e.CompletionCb? && e.cookie == k
    case TRetired => e.Retired? && e.cookie == k
    case TReported => e.Reported? && e.cookie == k
  }

  function Tally(t: Tag, log: seq<Event>, k: nat): nat
  {
    if log == [] then 0 else Tally(t, log[..|log| - 1], k) + if Hits(t, log[|log| - 1], k) then 1 else 0
  }

  /** Commands with cookie `k` in a list; with `notify`, only those with a completion
      callback. */
  function Occ(list: seq<Command>, k: nat, notify: bool): nat
  {
    if list == [] then 0
    else (if list[0].req.cookie == k && (notify ==> list[0].req.hasCompletion) then 1 else 0) +
         Occ(list[1..], k, notify)
  }

  lemma TallyLog(t: Tag, log: seq<Event>, e: Event, k: nat)
    ensures Tally(t, log + [e], k) == Tally(t, log, k) + if Hits(t, e, k) then 1 else 0
  {
    assert (log + [e])[..|log|] == log;
  }

  lemma {:induction false} OccConcat(a: seq<Command>, b: seq<Command>, k: nat, notify: bool)
    ensures Occ(a + b, k, notify) == Occ(a, k, notify) + Occ(b, k, notify)
  {
    if a == [] {
      assert a + b == b;
    } else {
      OccConcat(a[1..], b, k, notify);
      assert (a + b)[1..] == a[1..] + b;
    }
  }

  function One(cmd: Command, k: nat, notify: bool): nat
  {
    if cmd.req.cookie == k && (notify ==> cmd.req.hasCompletion) then 1 else 0
  }

  lemma OccOne(cmd: Command, k: nat, notify: bool)
    ensures Occ([cmd], k, notify) == One(cmd, k, notify)
  {
    assert [cmd][1..] == [];
  }

  lemma OccAt(list: seq<Command>, i: nat, k: nat, notify: bool)
    requires i < |list|
    ensures Occ(list, k, notify) == Occ(list[..i] + list[i + 1..], k, notify) + One(list[i], k, notify)
  {
    assert list == list[..i] + ([list[i]] + list[i + 1..]);
    OccConcat(list[..i], [list[i]] + list[i + 1..], k, notify);
    OccConcat([list[i]], list[i + 1..], k, notify);
    OccOne(list[i], k, notify);
    OccConcat(list[..i], list[i + 1..], k, notify);
  }

  lemma {:induction false} OccSame(a: seq<Command>, b: seq<Command>, k: nat, notify: bool)
    requires |a| == |b| && forall i | 0 <= i < |a| :: a[i].req == b[i].req
    ensures Occ(a, k, notify) == Occ(b, k, notify)
  {
    if a != [] {
      OccSame(a[1..], b[1..], k, notify);
    }
  }

  lemma {:induction false} TallyQuiet(t: Tag, a: seq<Event>, b: seq<Event>, k: nat)
    requires a <= b && forall j | |a| <= j < |b| :: b[j].ChunkCb? || b[j].ExtentCb? || b[j].Flagged?
    ensures Tally(t, b, k) == Tally(t, a, k)
    decreases |b|
  {
    if |a| < |b| {
      TallyQuiet(t, a, b[..|b| - 1], k);
    } else {
      assert a == b;
    }
  }

  // ---- the laws ----

  /** The laws for one cookie; `held` is a list that has been taken off the handle. */
  ghost predicate Law(h: Handle, held: seq<Command>, k: nat)
  {
    && Tally(TQueued, h.log, k) == (if 1 <= k < h.q.unique then 1 else 0)
    && Tally(TRetired, h.log, k) + Occ(h.q.toIssue, k, false) + Occ(h.q.inFlight, k, false) + Occ(h.q.done, k, false)
       + Occ(held, k, false) == Tally(TQueued, h.log, k)
    && Tally(TCompletion, h.log, k) + Occ(h.q.toIssue, k, true) + Occ(h.q.inFlight, k, true) + Occ(held, k, true)
       == Tally(TNotify, h.log, k) <= Tally(TQueued, h.log, k)
    && Tally(TReported, h.log, k) <= Tally(TRetired, h.log, k)
  }

  ghost predicate Laws(h: Handle, held: seq<Command>) { forall k: nat :: Law(h, held, k) }

  /** A disconnect request has no callback. */
  predicate Sane(list: seq<Command>)
  {
    forall i | 0 <= i < |list| :: !(list[i].req.kind.Disc? && list[i].req.hasCompletion)
  }

  predicate NoDisc(list: seq<Command>) { forall i | 0 <= i < |list| :: !list[i].req.kind.Disc? }

  predicate Ended(h: Handle) { (h.state.Dead? || h.state.Closed?) && h.blocked }

  /** The ledger: the laws hold for every cookie; in_flight is the length of the two lists
      until the end, and then all three are empty. */
  ghost predicate Ledger(h: Handle)
  {
    && Laws(h, []) && Sane(h.q.toIssue) && Sane(h.q.inFlight) && NoDisc(h.q.done) && h.q.unique >= 1
    && (if Ended(h) then h.q.toIssue == [] && h.q.inFlight == [] && h.q.inFlightCount == 0
        else h.q.inFlightCount == |h.q.toIssue| + |h.q.inFlight|)
    && (h.state.Ready? && h.blocked ==> h.q.toIssue == [])
  }

  // ---- steps ----

  lemma QuietLaws(h: Handle, g: Handle)
    requires Quiet(h, g) && Laws(h, [])
    ensures Laws(g, [])
  {
    hide Tally, Occ;
    forall k: nat ensures Law(g, [], k) {
      assert Law(h, [], k);
      forall t: Tag ensures Tally(t, g.log, k) == Tally(t, h.log, k) { TallyQuiet(t, h.log, g.log, k); }
      forall n: bool ensures Occ(g.q.inFlight, k, n) == Occ(h.q.inFlight, k, n) {
        assert forall i | 0 <= i < |h.q.inFlight| ::
            Progress(h.q.inFlight[i], g.q.inFlight[i], !h.state.RecvReadPayload?);
        OccSame(h.q.inFlight, g.q.inFlight, k, n);
      }
    }
  }

  lemma QuietLedger(h: Handle, g: Handle)
    requires Quiet(h, g) && Ledger(h) && !Ended(h) && !Ended(g) && (g.state.Ready? ==> !g.blocked || g.failed)
    requires g.state.Ready? && g.blocked ==> h.q.toIssue == []
    ensures Ledger(g)
  {
    hide Law;
    QuietLaws(h, g);
    forall i | 0 <= i < |g.q.inFlight| ensures g.q.inFlight[i].req == h.q.inFlight[i].req {
      assert Progress(h.q.inFlight[i], g.q.inFlight[i], !h.state.RecvReadPayload?);
    }
  }

  /** A command that is held is completed and leaves: callback and retirement are booked. */
  lemma LeaveLaws(u: User, h: Handle, cmd: Command, held: seq<Command>, error: nat, fix: nat)
    requires Laws(h, [cmd] + held)
    ensures var (g, cmd', retire) := Complete(u, h, cmd, error); Laws(Leave(g, cmd'.FailWith(fix), retire), held)
  {
    hide Tally, Occ;
    var (g, cmd', retire) := Complete(u, h, cmd, error);
    var c := cmd'.FailWith(fix);
    var k := Leave(g, c, retire);
    forall x: nat ensures Law(k, held, x) {
      assert Law(h, [cmd] + held, x);
      forall n: bool ensures Occ([cmd] + held, x, n) == One(cmd, x, n) + Occ(held, x, n) {
        OccConcat([cmd], held, x, n);
        OccOne(cmd, x, n);
      }
      forall t: Tag ensures
          Tally(t, g.log, x) == Tally(t, h.log, x) +
            (if cmd.req.hasCompletion && Hits(t, CompletionCb(cmd.req.cookie, error), x) then 1 else 0) {
        TallyLog(t, h.log, CompletionCb(cmd.req.cookie, error), x);
      }
      forall t: Tag ensures
          Tally(t, k.log, x) == Tally(t, g.log, x) + (if retire && Hits(t, Retired(cmd.req.cookie), x) then 1 else 0) {
        TallyLog(t, g.log, Retired(cmd.req.cookie), x);
      }
      OccConcat(h.q.done, [c], x, false);
      OccOne(c, x, false);
    }
  }

  /** Completing a command touches the log and the done queue, and no disconnect request
      gets into that queue. */
  lemma LeaveShape(u: User, h: Handle, cmd: Command, error: nat, fix: nat)
    requires NoDisc(h.q.done)
    ensures var (g, cmd', retire) := Complete(u, h, cmd, error);
            var k := Leave(g, cmd'.FailWith(fix), retire);
            && k == h.(q := h.q.(done := k.q.done), log := k.log) && NoDisc(k.q.done) && h.log <= k.log
            && (k.q.done == h.q.done || k.q.done == h.q.done + [cmd'.FailWith(fix)]) && cmd'.req == cmd.req
  {
    hide Tally;
  }

  lemma {:induction false} AbortLaws(u: User, h: Handle, list: seq<Command>)
    requires Laws(h, list) && Sane(list) && NoDisc(h.q.done)
    ensures Laws(Abort(u, h, list), []) && NoDisc(Abort(u, h, list).q.done)
    ensures Abort(u, h, list).q == h.q.(done := Abort(u, h, list).q.done) && Abort(u, h, list).failed == h.failed
    ensures Abort(u, h, list).state == h.state
    decreases |list|
  {
    hide Law, Tally, Occ, Complete, Leave;
    if list != [] {
      var cmd := list[0];
      var (g, cmd', retire) := Complete(u, h, cmd, if cmd.error != 0 then cmd.error else ENOTCONN);
      assert list == [cmd] + list[1..];
      LeaveLaws(u, h, cmd, list[1..], if cmd.error != 0 then cmd.error else ENOTCONN, ENOTCONN);
      LeaveShape(u, h, cmd, if cmd.error != 0 then cmd.error else ENOTCONN, ENOTCONN);
      AbortLaws(u, Leave(g, cmd'.FailWith(ENOTCONN), retire), list[1..]);
    }
  }

  /** Detaching a list keeps the laws, with the list held. */
  lemma DetachLaws(h: Handle)
    requires Laws(h, [])
    ensures Laws(h.(q := h.q.(toIssue := [])), h.q.toIssue)
    ensures Laws(h.(q := h.q.(inFlight := [])), h.q.inFlight)
  {
    hide Tally;
    forall k: nat ensures Law(h.(q := h.q.(toIssue := [])), h.q.toIssue, k)
                          && Law(h.(q := h.q.(inFlight := [])), h.q.inFlight, k) {
      assert Law(h, [], k);
    }
  }

  lemma EnterEndLedger(u: User, h: Handle)
    requires Ledger(h) && !h.blocked && (h.state.Dead? || h.state.Closed?)
    ensures Ledger(EnterEnd(u, h)) && Ended(EnterEnd(u, h)) && EnterEnd(u, h).failed == h.failed
  {
    hide Law, Abort;
    DetachLaws(h);
    AbortLaws(u, h.(q := h.q.(toIssue := [])), h.q.toIssue);
    var g := Abort(u, h.(q := h.q.(toIssue := [])), h.q.toIssue);
    DetachLaws(g);
    AbortLaws(u, g.(q := g.q.(inFlight := [])), h.q.inFlight);
    var k := Abort(u, g.(q := g.q.(inFlight := [])), h.q.inFlight);
    SameLaws(k, EnterEnd(u, h));
  }

  lemma SameLaws(h: Handle, g: Handle)
    requires Laws(h, []) && g.log == h.log && g.q.unique == h.q.unique && g.q.toIssue == h.q.toIssue
    requires g.q.inFlight == h.q.inFlight && g.q.done == h.q.done
    ensures Laws(g, [])
  {
    hide Tally, Occ;
    forall k: nat ensures Law(g, [], k) { assert Law(h, [], k); }
  }

  lemma TakeLaws(h: Handle, i: nat)
    requires Laws(h, []) && i < |h.q.inFlight|
    ensures Laws(h.(q := h.q.(inFlight := h.q.inFlight[..i] + h.q.inFlight[i + 1..])), [h.q.inFlight[i]] + [])
  {
    hide Tally;
    var cmd := h.q.inFlight[i];
    var g := h.(q := h.q.(inFlight := h.q.inFlight[..i] + h.q.inFlight[i + 1..]));
    forall k: nat ensures Law(g, [cmd] + [], k) {
      assert Law(h, [], k);
      forall n: bool ensures Occ(h.q.inFlight, k, n) == Occ(g.q.inFlight, k, n) + Occ([cmd] + [], k, n) {
        OccAt(h.q.inFlight, i, k, n);
        OccOne(cmd, k, n);
        assert [cmd] + [] == [cmd];
      }
    }
  }

  lemma FinishAtLaws(u: User, h: Handle, i: nat)
    requires i < |h.q.inFlight| && Laws(h, []) && NoDisc(h.q.done)
    ensures Laws(FinishAt(u, h, i), []) && NoDisc(FinishAt(u, h, i).q.done)
  {
    hide Law;
    var cmd := h.q.inFlight[i];
    var h1 := h.(q := h.q.(inFlight := h.q.inFlight[..i] + h.q.inFlight[i + 1..]));
    TakeLaws(h, i);
    LeaveLaws(u, h1, cmd, [], cmd.error, 0);
    LeaveShape(u, h1, cmd, cmd.error, 0);
    var (g1, c1, r1) := Complete(u, h1, cmd, cmd.error);
    assert c1.FailWith(0) == c1;
  }

  /** FINISH_COMMAND moves the command from the in-flight list to its place. */
  lemma FinishCommandLedger(u: User, h: Handle)
    requires Ledger(h) && !h.blocked && h.state.FinishCommand?
    ensures Ledger(OnFinishCommand(u, h))
  {
    hide Law, FinishAt, Acts, Field;
    var g := OnFinishCommand(u, h);
    match Lookup(h.q.inFlight, Cookie(h))
    case None => SameLaws(h, g);
    case Some(i) =>
      if g.failed && g.q == h.q {
        SameLaws(h, g);
      } else {
        var h1 := h.(r := h.r.(replyCmd := None));
        SameLaws(h, h1);
        FinishAtLaws(u, h1, i);
        SameLaws(FinishAt(u, h1, i), g);
      }
  }

  lemma IssueFinishLedger(h: Handle)
    requires Ledger(h) && !h.blocked && h.state.IssueFinish?
    ensures Ledger(EnterIssueFinish(h))
  {
    hide Tally, Occ, Field;
    var g := EnterIssueFinish(h);
    if g.failed && g.q == h.q {
      SameLaws(h, g);
    } else {
      var cmd := h.q.toIssue[0];
      forall k: nat ensures Law(g, [], k) {
        assert Law(h, [], k);
        forall n: bool ensures
            Occ(h.q.toIssue, k, n) + Occ(h.q.inFlight, k, n) == Occ(g.q.toIssue, k, n) + Occ(g.q.inFlight, k, n) {
          assert h.q.toIssue == [cmd] + h.q.toIssue[1..];
          OccConcat([cmd], h.q.toIssue[1..], k, n);
          OccConcat([cmd], h.q.inFlight, k, n);
        }
      }
    }
  }

  lemma QueueLedger(h: Handle, cmd: Command)
    requires Ledger(h) && Enabled(h, Submit(cmd))
    ensures Ledger(Queue(h, cmd))
  {
    hide Tally, Occ;
    var g := Queue(h, cmd);
    if g.q != h.q {
      var c := cmd.(req := cmd.req.(cookie := h.q.unique));
      assert g.log == h.log + [Queued(h.q.unique, cmd.req.hasCompletion)];
      forall k: nat ensures Law(g, [], k) {
        assert Law(h, [], k);
        forall t: Tag ensures
            Tally(t, g.log, k) == Tally(t, h.log, k) +
              (if Hits(t, Queued(h.q.unique, cmd.req.hasCompletion), k) then 1 else 0) {
          TallyLog(t, h.log, Queued(h.q.unique, cmd.req.hasCompletion), k);
        }
        forall n: bool ensures Occ(g.q.toIssue, k, n) == Occ(h.q.toIssue, k, n) + One(c, k, n) {
          OccConcat(h.q.toIssue, [c], k, n);
          OccOne(c, k, n);
        }
      }
    } else {
      SameLaws(h, g);
    }
  }

  lemma CommandCompletedLedger(h: Handle, cookie: nat)
    requires Ledger(h) && h.blocked
    ensures Ledger(CommandCompleted(h, cookie).0) && CommandCompleted(h, cookie).0.failed == h.failed
  {
    hide Tally, Occ;
    var g := CommandCompleted(h, cookie).0;
    match Lookup(h.q.done, cookie)
    case None =>
    case Some(i) =>
      if cookie >= 1 {
        var cmd := h.q.done[i];
        var e := Reported(cookie, CommandCompleted(h, cookie).1 == 1);
        assert g.log == h.log + [Retired(cookie)] + [e];
        assert g.q == h.q.(done := h.q.done[..i] + h.q.done[i + 1..]);
        forall k: nat ensures Law(g, [], k) {
          assert Law(h, [], k);
          forall t: Tag ensures
              Tally(t, g.log, k) == Tally(t, h.log, k) + (if Hits(t, Retired(cookie), k) then 1 else 0) +
                                    (if Hits(t, e, k) then 1 else 0) {
            TallyLog(t, h.log, Retired(cookie), k);
            TallyLog(t, h.log + [Retired(cookie)], e, k);
          }
          OccAt(h.q.done, i, k, false);
        }
      }
  }

  /** A step that leaves lists and log alone. */
  lemma SameLedger(h: Handle, g: Handle)
    requires Ledger(h) && !Ended(h) && !Ended(g) && g.q == h.q && g.log == h.log
    requires g.state.Ready? && g.blocked ==> h.q.toIssue == []
    ensures Ledger(g)
  {
    hide Law;
    SameLaws(h, g);
  }

  lemma ReplyLedger(u: User, h: Handle, io: Io)
    requires Ledger(h) && !h.blocked && EventOk(h, io) && IsReplyState(h.state)
    ensures Ledger(EnterReply(u, h, io))
  {
    hide Law, Quiet, Act, Pause, Deliver;
    var g := EnterReply(u, h, io);
    if h.state.FinishCommand? {
      FinishCommandLedger(u, h);
      ActFinish(u, h);
    } else {
      EnterReplyQuiet(u, h, io);
      EnterReplyGoes(u, h, io);
      QuietLedger(h, g);
    }
  }

  lemma ActFinish(u: User, h: Handle)
    requires h.state.FinishCommand?
    ensures Act(u, h) == OnFinishCommand(u, h)
  {
    hide OnFinishCommand;
  }

  lemma EnterReplyGoes(u: User, h: Handle, io: Io)
    requires IoOk(h, io) && !h.blocked && IsReplyState(h.state)
    ensures var g := EnterReply(u, h, io); !g.blocked || g.state == h.state
  {
    hide Act, Pause, Deliver, PreambleLen;
    if h.state.ReplyStart? && io.Got? && h.r.rlen == 0 {
      DeliverKeeps(StartPreamble(h), io.bytes);
    }
    if io.Got? && h.r.rlen > 0 {
      DeliverKeeps(h, io.bytes);
    }
  }

  lemma DeliverKeeps(h: Handle, bytes: seq<byte>)
    requires |bytes| <= h.r.rlen
    ensures var g := Deliver(h, bytes); g.state == h.state && g.blocked == h.blocked && g.failed == h.failed
  {
    hide Current, Fill, FillsOutside;
  }

  /** The sending states and READY leave lists and log alone, except ISSUE_COMMAND.FINISH. */
  lemma EnterOther(u: User, h: Handle, io: Io)
    requires !h.blocked && EventOk(h, io) && !IsReplyState(h.state)
    requires !h.state.Dead? && !h.state.Closed? && !h.state.IssueFinish?
    ensures var g := Enter(u, h, io);
      OnlySends(h, g) && !Ended(g) && (g.state.Ready? && g.blocked ==> h.q.toIssue == [])
  {
    hide EnterReply, EnterEnd, EnterIssueFinish, EnterReady, EnterSend, EnterIssueStart, EnterPrepareWritePayload,
         EnterPause;
  }

  lemma EnterLedger(u: User, h: Handle, io: Io)
    requires Ledger(h) && !h.blocked && EventOk(h, io)
    ensures Ledger(Enter(u, h, io))
  {
    hide Laws, EnterReply, EnterEnd, EnterIssueFinish, EnterReady, EnterSend, EnterIssueStart, EnterPrepareWritePayload,
         EnterPause, EventOk;
    if h.state.Dead? || h.state.Closed? {
      EnterEndLedger(u, h);
    } else if IsReplyState(h.state) {
      ReplyLedger(u, h, io);
    } else if h.state.IssueFinish? {
      IssueFinishLedger(h);
    } else {
      EnterOther(u, h, io);
      SameLedger(h, Enter(u, h, io));
    }
  }

  /** Every step keeps the ledger. */
  lemma StepLedger(u: User, h: Handle, l: Label)
    requires Ledger(h) && Enabled(h, l)
    ensures Ledger(Step(u, h, l))
  {
    hide Law, Enter, Queue, CommandCompleted;
    match l
    case Run(io) => EnterLedger(u, h, io);
    case Notify(read) => SameLedger(h, Step(u, h, l));
    case Submit(cmd) => QueueLedger(h, cmd);
    case Retire(cookie) => CommandCompletedLedger(h, cookie);
  }

  lemma FreshLedger(h: Handle)
    requires Fresh(h)
    ensures Ledger(h)
  {
  }

  lemma {:induction false} RunLedger(u: User, hs: seq<Handle>, ls: seq<Label>, k: nat)
    requires IsRun(u, hs, ls) && Fresh(hs[0]) && k < |hs|
    ensures Ledger(hs[k])
  {
    hide Ledger, Step, Fresh;
    if k == 0 {
      FreshLedger(hs[0]);
    } else {
      RunLedger(u, hs, ls, k - 1);
      StepLedger(u, hs[k - 1], ls[k - 1]);
    }
  }

  // ---- what the ledger says ----

  lemma {:induction false} OccMember(list: seq<Command>, i: nat, k: nat)
    requires i < |list| && list[i].req.cookie == k
    ensures Occ(list, k, false) >= 1
  {
    OccAt(list, i, k, false);
  }

  /** In every reachable state a cookie belongs to at most one command, which is in one
      place of one list; and each queued command is in a list or was retired, not both. */
  lemma OnePlace(u: User, hs: seq<Handle>, ls: seq<Label>, n: nat, k: nat)
    requires IsRun(u, hs, ls) && Fresh(hs[0]) && n < |hs|
    ensures var q := hs[n].q;
      && (var all := q.toIssue + q.inFlight + q.done;
          forall i, j | 0 <= i < j < |all| :: all[i].req.cookie != all[j].req.cookie)
      && (1 <= k < q.unique ==>
            Tally(TRetired, hs[n].log, k) + Occ(q.toIssue + q.inFlight + q.done, k, false) == 1)
      && (!Ended(hs[n]) ==> q.inFlightCount == |q.toIssue| + |q.inFlight|)
  {
    RunLedger(u, hs, ls, n);
    var h := hs[n];
    var all := h.q.toIssue + h.q.inFlight + h.q.done;
    forall x: nat
      ensures Occ(all, x, false) == Occ(h.q.toIssue, x, false) + Occ(h.q.inFlight, x, false) + Occ(h.q.done, x, false)
    {
      OccConcat(h.q.toIssue + h.q.inFlight, h.q.done, x, false);
      OccConcat(h.q.toIssue, h.q.inFlight, x, false);
    }
    forall i, j | 0 <= i < j < |all| ensures all[i].req.cookie != all[j].req.cookie {
      if all[i].req.cookie == all[j].req.cookie {
        var x := all[i].req.cookie;
        assert Law(h, [], x);
        OccAt(all, i, x, false);
        var rest := all[..i] + all[i + 1..];
        assert rest[j - 1] == all[j];
        OccMember(rest, j - 1, x);
      }
    }
    assert Law(h, [], k);
  }

  /** In every reachable state a command's completion callback has been made at most once,
      never while the command is in flight, and exactly once for every command that has
      one by the time the handle is DEAD or CLOSED; and nbd_aio_command_completed has given
      its verdict on a cookie at most once. */
  lemma CallbackOnce(u: User, hs: seq<Handle>, ls: seq<Label>, n: nat, k: nat)
    requires IsRun(u, hs, ls) && Fresh(hs[0]) && n < |hs|
    ensures Tally(TCompletion, hs[n].log, k) <= Tally(TNotify, hs[n].log, k) <= 1
    ensures Occ(hs[n].q.toIssue, k, true) + Occ(hs[n].q.inFlight, k, true) > 0 ==> Tally(TCompletion, hs[n].log, k) == 0
    ensures Ended(hs[n]) ==> Tally(TCompletion, hs[n].log, k) == Tally(TNotify, hs[n].log, k)
    ensures Tally(TReported, hs[n].log, k) <= 1
  {
    RunLedger(u, hs, ls, n);
    assert Law(hs[n], [], k);
  }
}
