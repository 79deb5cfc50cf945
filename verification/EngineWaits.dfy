/** Where the state machine waits for an event. */
module EngineWaits {
  import opened Bytes
  import opened BlockStatus
  import opened Nbd
  import opened Reply
  import opened Engine
  import opened EngineQuiet
  import opened EngineLedger
  import opened EngineSend
  import opened EngineParser
  import opened EngineSafety

  /** There is nothing that could be done without an event: no command is waiting to be issued
      in READY, and a state that sends has bytes left.  A state that works on a reply does not
      wait at all, but goes back to READY. */
  predicate WaitsRightly(h: Handle)
  {
    h.blocked && !h.failed ==>
      match h.state
      case Ready => h.q.toIssue == []
      case SendRequest => h.w.wbuf != []
      case SendWritePayload => h.w.wbuf != []
      case SendWriteShutdown => true
      case ReplyStart => true
      case Dead => true
      case Closed => true
      case _ => false
  }

  lemma ReplyWaits(u: User, h: Handle, io: Io)
    requires IoOk(h, io) && !h.blocked && IsReplyState(h.state)
    ensures var g := EnterReply(u, h, io);
      g.blocked && !g.failed ==> h.state.ReplyStart? && g.state.ReplyStart?
  {
    hide Act, Pause, Deliver, PreambleLen;
    EnterReplyGoes(u, h, io);
    if !h.state.ReplyStart? {
      if io.Got? && h.r.rlen > 0 {
        DeliverKeeps(h, io.bytes);
        ActGoes(u, Deliver(h, io.bytes));
      }
      ActGoes(u, h);
    }
  }

  lemma ActGoes(u: User, h: Handle)
    requires !h.blocked && IsReplyState(h.state) && !h.state.ReplyStart?
    ensures Act(u, h).blocked ==> Act(u, h).failed
  {
    hide Act;
  }

  lemma StepWaits(u: User, h: Handle, l: Label)
    requires WaitsRightly(h) && Enabled(h, l)
    ensures WaitsRightly(Step(u, h, l))
  {
    hide EnterReply, EnterEnd, CommandCompleted;
    match l
    case Run(io) =>
      if IsReplyState(h.state) { ReplyWaits(u, h, io); }
      if h.state.Dead? || h.state.Closed? { EnterEndState(u, h); }
    case Retire(cookie) => RetireWaits(h, cookie);
    case _ =>
  }

  lemma RetireWaits(h: Handle, cookie: nat)
    ensures var g := CommandCompleted(h, cookie).0;
      g.failed || (g.blocked == h.blocked && g.state == h.state && g.q.toIssue == h.q.toIssue && g.w == h.w
                   && g.failed == h.failed)
  {
  }

  /** In every run, whenever the machine waits it could do nothing without an event. */
  lemma {:induction false} RunWaits(u: User, hs: seq<Handle>, ls: seq<Label>, n: nat)
    requires IsRun(u, hs, ls) && Fresh(hs[0]) && n < |hs|
    ensures WaitsRightly(hs[n])
  {
    hide Step, Enabled;
    if n > 0 {
      RunWaits(u, hs, ls, n - 1);
      assert Enabled(hs[n - 1], ls[n - 1]) && hs[n] == Step(u, hs[n - 1], ls[n - 1]);
      StepWaits(u, hs[n - 1], ls[n - 1]);
    }
  }

  /** What a notification does to a machine that waits. */
  lemma NotifiedHears(u: User, h: Handle)
    requires WaitsRightly(h) && SendSafe(h) && h.blocked && !h.failed && !h.state.Dead? && !h.state.Closed?
    ensures Enabled(h, Label.Notify(true))
    ensures var g := Step(u, h, Label.Notify(true));
      g.state.ReplyStart? || Enter(u, g, Again).state.ReplyStart?
    ensures h.state.SendRequest? || h.state.SendWritePayload? || h.state.SendWriteShutdown? ==>
      Enabled(h, Label.Notify(false)) && Step(u, h, Label.Notify(false)) == h.(blocked := false)
  {
    hide EnterReply, EnterEnd, EnterReplyStart;
  }

  /** In every run, whenever the machine waits it listens: a notification that the server has sent
      something leads to REPLY.START, at once or from a state that pauses the sending; and one
      that more can be sent makes it go on with the sending. */
  lemma ListensAlways(u: User, hs: seq<Handle>, ls: seq<Label>, n: nat)
    requires IsRun(u, hs, ls) && Fresh(hs[0]) && n < |hs| && hs[n].blocked && !Over(hs[n])
    ensures Enabled(hs[n], Label.Notify(true))
    ensures var g := Step(u, hs[n], Label.Notify(true)); g.state.ReplyStart? || Enter(u, g, Again).state.ReplyStart?
    ensures hs[n].state.SendRequest? || hs[n].state.SendWritePayload? || hs[n].state.SendWriteShutdown? ==>
      Enabled(hs[n], Label.Notify(false)) && Step(u, hs[n], Label.Notify(false)) == hs[n].(blocked := false)
  {
    hide Fresh, Step, Enter, WaitsRightly, SendSafe, Steady;
    RunWaits(u, hs, ls, n);
    RunSend(u, hs, ls, n);
    NotifiedHears(u, hs[n]);
  }
}
