/** The list of metadata contexts outlives the switch to TLS: exactly when a context that was
    granted in the clear is reported over TLS. */
module StaleContexts {
  import opened Bytes
  import opened Negotiation
  import opened NegotiationSafety

  /** The server grants the context in this step, and it is added to the list. */
  predicate Grants(h: Handle, l: Label, name: string)
  {
    && h.phase.MetaReply? && l.Machine? && l.i.Reply? && Prepared(l.i.r) && l.i.r.reply == NBD_REP_META_CONTEXT
    && !h.c.opt.ListMeta? && l.i.r.payload.ContextName? && l.i.r.payload.name == name
  }

  /** OPT_META_CONTEXT.START empties the list in this step. */
  predicate Resets(h: Handle, l: Label)
  {
    h.phase.MetaStart? && l.Machine? && !l.i.IoError? && !h.c.opt.ListMeta? && (h.s.requestMeta || h.c.opt.SetMeta?)
  }

  /** The server accepts TLS in this step. */
  predicate Accepts(h: Handle, l: Label)
  {
    h.phase.TlsReply? && l.Machine? && l.i.Reply? && Prepared(l.i.r) && l.i.r.reply == NBD_REP_ACK && !h.n.tls
  }

  predicate Has(h: Handle, name: string) { exists i | 0 <= i < |h.n.contexts| :: h.n.contexts[i].name == name }

  /** The context was granted at step `k`, and the list has not been emptied since. */
  predicate Since(hs: seq<Handle>, ls: seq<Label>, k: nat, n: nat, name: string)
    requires k < n < |hs| == |ls| + 1
  {
    Grants(hs[k], ls[k], name) && forall j | k < j < n :: !Resets(hs[j], ls[j])
  }

  ghost predicate Given(hs: seq<Handle>, ls: seq<Label>, n: nat, name: string)
    requires n < |hs| == |ls| + 1
  {
    exists k | 0 <= k < n :: Since(hs, ls, k, n, name)
  }

  /** It was granted in the clear. */
  ghost predicate GivenInTheClear(hs: seq<Handle>, ls: seq<Label>, n: nat, name: string)
    requires n < |hs| == |ls| + 1
  {
    exists k | 0 <= k < n :: Since(hs, ls, k, n, name) && !hs[k].n.tls
  }

  /** The list held the context when TLS was accepted at step `m`, and has not been emptied
      since. */
  predicate Survives(hs: seq<Handle>, ls: seq<Label>, m: nat, n: nat, name: string)
    requires m < n < |hs| == |ls| + 1
  {
    Accepts(hs[m], ls[m]) && Has(hs[m], name) && forall j | m < j < n :: !Resets(hs[j], ls[j])
  }

  ghost predicate Outlived(hs: seq<Handle>, ls: seq<Label>, n: nat, name: string)
    requires n < |hs| == |ls| + 1
  {
    exists m | 0 <= m < n :: Survives(hs, ls, m, n, name)
  }

  // ---- one step ----

  /** The step leaves the list and TLS alone. */
  predicate Apart(h: Handle, g: Handle)
  {
    && g.n.contexts == h.n.contexts && g.o.contexts == h.o.contexts && g.n.tls == h.n.tls
    && (g.phase.TlsHandshake? ==> h.phase.TlsHandshake?)
    && (g.phase.TlsDone? ==> h.phase.TlsDone? || h.phase.TlsHandshake?)
  }

  /** The phases that change the list or TLS. */
  predicate Concerned(p: Phase) { p.MetaStart? || p.MetaReply? || p.TlsReply? || p.TlsDone? }

  predicate Asks(p: Phase)
  {
    p.Start? || p.CheckGflags? || p.SendCflags? || p.TlsStart? || p.EhStart? || p.SrStart? || p.GoStart? || p.ListStart?
  }

  lemma AskApart(h: Handle, i: Input)
    requires Asks(h.phase)
    ensures Apart(h, Enter(h, i))
  {
    hide OnTlsReply, OnTlsDone, OnEhReply, OnSrReply, OnMetaStart, OnMetaReply, OnGoReply, OnNameReply, OnListReply,
         OnOldCheck;
  }

  lemma AnswerApart(h: Handle, i: Input)
    requires h.phase.EhReply? || h.phase.SrReply? || h.phase.ListReply?
    ensures Apart(h, Enter(h, i))
  {
    hide OnStart, OnCheckGflags, OnSendCflags, OnTlsStart, OnTlsReply, OnTlsDone, OnEhStart, OnSrStart, OnMetaStart,
         OnMetaReply, OnGoStart, OnGoReply, OnNameReply, OnListStart, OnOldCheck, Prepared, IsError;
  }

  lemma SizeApart(h: Handle, size: nat, eflags: Eflags)
    ensures var g := SetSizeAndFlags(h, size, eflags); Apart(h, g) && (g.phase == h.phase || g.phase.Dead?)
  {
    hide SaneFlags;
  }

  lemma InfoApart(h: Handle, r: Rep)
    ensures var g := OnInfo(h, r); Apart(h, g) && (g.phase == h.phase || g.phase.Dead?)
  {
    hide SetSizeAndFlags, ProperBlockSize;
    if r.payload.ExportInfo? { SizeApart(h, r.payload.size, r.payload.eflags); }
  }

  lemma GoApart(h: Handle, r: Rep)
    ensures Apart(h, OnGoReply(h, r))
  {
    hide Prepared, IsError, OnInfo;
    InfoApart(h, r);
  }

  lemma NameApart(h: Handle, size: nat, eflags: Eflags)
    ensures Apart(h, OnNameReply(h, size, eflags))
  {
    hide SetSizeAndFlags;
    SizeApart(h, size, eflags);
  }

  lemma OldApart(h: Handle, gflags: nat, size: nat, eflags: Eflags)
    ensures Apart(h, OnOldCheck(h, gflags, size, eflags))
  {
    hide SetSizeAndFlags, SetPayload;
    var h1 := h.(n := h.n.(fixed := false));
    SizeApart(h1, size, eflags);
    PayloadApart(SetSizeAndFlags(h1, size, eflags));
  }

  lemma PayloadApart(h: Handle)
    ensures SetPayload(h) == h.(x := SetPayload(h).x)
  {
  }

  lemma ExportApart(h: Handle, i: Input)
    requires h.phase.GoReply? || h.phase.NameReply? || h.phase.OldCheck?
    ensures Apart(h, Enter(h, i))
  {
    hide OnStart, OnCheckGflags, OnSendCflags, OnTlsStart, OnTlsReply, OnTlsDone, OnEhStart, OnEhReply, OnSrStart,
         OnSrReply, OnMetaStart, OnMetaReply, OnGoStart, OnGoReply, OnNameReply, OnListStart, OnListReply, OnOldCheck;
    match i
    case OldReply(gflags, size, eflags) => NameApart(h, size, eflags); OldApart(h, gflags, size, eflags);
    case Reply(r) => GoApart(h, r);
    case _ =>
  }

  lemma EnterApart(h: Handle, i: Input)
    requires !Concerned(h.phase)
    ensures Apart(h, Enter(h, i))
  {
    hide OnStart, OnCheckGflags, OnSendCflags, OnTlsStart, OnTlsReply, OnTlsDone, OnEhStart, OnEhReply, OnSrStart,
         OnSrReply, OnMetaStart, OnMetaReply, OnGoStart, OnGoReply, OnNameReply, OnListStart, OnListReply,
         OnOldCheck;
    if Asks(h.phase) {
      AskApart(h, i);
    } else if h.phase.EhReply? || h.phase.SrReply? || h.phase.ListReply? {
      AnswerApart(h, i);
    } else if h.phase.GoReply? || h.phase.NameReply? || h.phase.OldCheck? {
      ExportApart(h, i);
    }
  }

  lemma TlsApart(h: Handle, i: Input)
    requires h.phase.TlsReply? || h.phase.TlsDone?
    ensures var g := Enter(h, i);
      && g.n.contexts == h.n.contexts && g.o.contexts == h.o.contexts && (h.n.tls ==> g.n.tls)
      && (g.n.tls && !h.n.tls ==> h.phase.TlsDone?) && (g.phase.TlsHandshake? ==> Accepts(h, Machine(i)))
      && !g.phase.TlsDone?
  {
    hide OnStart, OnCheckGflags, OnSendCflags, OnTlsStart, OnEhStart, OnEhReply, OnSrStart, OnSrReply, OnMetaStart,
         OnMetaReply, OnGoStart, OnGoReply, OnNameReply, OnListStart, OnListReply, OnOldCheck, Prepared, IsError;
  }

  lemma MetaApart(h: Handle, i: Input)
    requires (h.phase.MetaStart? || h.phase.MetaReply?) && Inv(h)
    ensures var g := Enter(h, i);
      && g.n.tls == h.n.tls && !g.phase.TlsHandshake? && !g.phase.TlsDone?
      && g.o.contexts == (if Resets(h, Machine(i)) then h.n.tls else h.o.contexts)
      && (h.phase.MetaStart? || i.IoError? ==> g.n.contexts == if Resets(h, Machine(i)) then [] else h.n.contexts)
  {
    hide OnStart, OnCheckGflags, OnSendCflags, OnTlsStart, OnTlsReply, OnTlsDone, OnEhStart, OnEhReply, OnSrStart,
         OnSrReply, OnGoStart, OnGoReply, OnNameReply, OnListStart, OnListReply, OnOldCheck, Prepared, IsError,
         FlagsFit, Private, ContextsFit;
  }

  /** The list changes in two places only, and its mark with a reset; TLS stays on, and comes
      on after the handshake that follows acceptance. */
  lemma StepContexts(h: Handle, l: Label)
    requires Inv(h) && Enabled(h, l)
    ensures var g := Step(h, l);
      && (if Resets(h, l) then g.n.contexts == []
          else (h.phase.MetaReply? && l.Machine?) || g.n.contexts == h.n.contexts)
      && g.o.contexts == (if Resets(h, l) then h.n.tls else h.o.contexts)
      && (h.n.tls ==> g.n.tls) && (g.n.tls && !h.n.tls ==> h.phase.TlsDone?)
      && (g.phase.TlsDone? ==> h.phase.TlsDone? || h.phase.TlsHandshake?)
      && (g.phase.TlsHandshake? ==> h.phase.TlsHandshake? || Accepts(h, l))
  {
    hide Inv, Enter, Accepts;
    if l.Machine? {
      if h.phase.TlsReply? || h.phase.TlsDone? {
        TlsApart(h, l.i);
      } else if h.phase.MetaStart? || h.phase.MetaReply? {
        MetaApart(h, l.i);
      } else {
        EnterApart(h, l.i);
      }
    }
  }

  lemma ReplyContexts(h: Handle, i: Input)
    requires h.phase.MetaReply?
    ensures var g := Enter(h, i);
      && g.o == h.o
      && if i.Reply? && Grants(h, Machine(i), (if i.r.payload.ContextName? then i.r.payload.name else ""))
         then g.n.contexts == h.n.contexts + [Context(i.r.payload.id, i.r.payload.name)]
         else g.n.contexts == h.n.contexts
  {
    hide Prepared, IsError;
  }

  lemma StepHas(h: Handle, l: Label, name: string)
    requires Inv(h) && Enabled(h, l)
    ensures Has(Step(h, l), name) <==> Grants(h, l, name) || (Has(h, name) && !Resets(h, l))
  {
    hide Inv, Step, Prepared;
    StepContexts(h, l);
    if h.phase.MetaReply? && l.Machine? {
      ReplyContexts(h, l.i);
      assert Step(h, l) == Enter(h, l.i) by { MachineStep(h, l); }
      var g := Step(h, l);
      if g.n.contexts != h.n.contexts {
        assert g.n.contexts[|h.n.contexts|].name == l.i.r.payload.name;
        assert forall i | 0 <= i < |h.n.contexts| :: g.n.contexts[i] == h.n.contexts[i];
      }
    }
  }

  lemma MachineStep(h: Handle, l: Label)
    requires l.Machine?
    ensures Step(h, l) == Enter(h, l.i)
  {
    hide Enter;
  }

  // ---- runs ----

  lemma {:induction false} RunHas(hs: seq<Handle>, ls: seq<Label>, n: nat, name: string)
    requires IsRun(hs, ls) && Fresh(hs[0]) && n < |hs|
    ensures Has(hs[n], name) <==> Given(hs, ls, n, name)
  {
    hide Step, Inv, Has, Grants, Resets, Enabled;
    if n == 0 {
      assert !Has(hs[0], name) by { FreshHas(hs[0], name); }
    } else {
      RunHas(hs, ls, n - 1, name);
      RunInv(hs, ls, n - 1);
      StepHas(hs[n - 1], ls[n - 1], name);
      if Given(hs, ls, n, name) {
        var k :| 0 <= k < n && Since(hs, ls, k, n, name);
        if k < n - 1 { assert Since(hs, ls, k, n - 1, name); }
      }
      if Has(hs[n], name) {
        if Grants(hs[n - 1], ls[n - 1], name) {
          assert Since(hs, ls, n - 1, n, name);
        } else {
          var k :| 0 <= k < n - 1 && Since(hs, ls, k, n - 1, name);
          assert Since(hs, ls, k, n, name);
        }
      }
    }
  }

  lemma FreshHas(h: Handle, name: string)
    requires Fresh(h)
    ensures !Has(h, name)
  {
  }

  lemma {:induction false} TlsStays(hs: seq<Handle>, ls: seq<Label>, k: nat, n: nat)
    requires IsRun(hs, ls) && Fresh(hs[0]) && k <= n < |hs| && hs[k].n.tls
    ensures hs[n].n.tls
    decreases n
  {
    hide Step, Enabled, Inv, Fresh;
    if k < n {
      TlsStays(hs, ls, k, n - 1);
      RunInv(hs, ls, n - 1);
      StepContexts(hs[n - 1], ls[n - 1]);
    }
  }

  predicate TlsUnderWay(h: Handle) { h.phase.TlsHandshake? || h.phase.TlsDone? || h.n.tls }

  /** TLS was accepted at step `m` and has been under way or on ever since. */
  predicate TlsSince(hs: seq<Handle>, ls: seq<Label>, m: nat, n: nat)
    requires m < n < |hs| == |ls| + 1
  {
    Accepts(hs[m], ls[m]) && forall j | m < j <= n :: TlsUnderWay(hs[j])
  }

  lemma {:induction false} TlsWasAccepted(hs: seq<Handle>, ls: seq<Label>, n: nat) returns (m: nat)
    requires IsRun(hs, ls) && Fresh(hs[0]) && n < |hs| && TlsUnderWay(hs[n])
    ensures m < n && TlsSince(hs, ls, m, n)
  {
    hide Step, Accepts, Enabled, Inv;
    assert n > 0;
    RunInv(hs, ls, n - 1);
    StepContexts(hs[n - 1], ls[n - 1]);
    if TlsUnderWay(hs[n - 1]) {
      m := TlsWasAccepted(hs, ls, n - 1);
    } else {
      m := n - 1;
    }
  }

  /** A list that was filled in the clear and not emptied since is not marked as private. */
  lemma {:induction false} NotPrivate(hs: seq<Handle>, ls: seq<Label>, k: nat, n: nat)
    requires IsRun(hs, ls) && Fresh(hs[0]) && k <= n < |hs| && !hs[k].n.tls
    requires forall j | k < j < n :: !Resets(hs[j], ls[j])
    requires k < n ==> hs[k].phase.MetaReply?
    ensures !hs[n].o.contexts
    decreases n
  {
    hide Step, Inv, Enabled;
    if k < n {
      NotPrivate(hs, ls, k, n - 1);
      RunInv(hs, ls, n - 1);
      StepContexts(hs[n - 1], ls[n - 1]);
    } else {
      PrivateMeansTls(hs, ls, n);
    }
  }

  lemma {:induction false} PrivateMeansTls(hs: seq<Handle>, ls: seq<Label>, n: nat)
    requires IsRun(hs, ls) && Fresh(hs[0]) && n < |hs|
    ensures hs[n].o.contexts ==> hs[n].n.tls
  {
    hide Step, Inv, Enabled;
    if n > 0 {
      PrivateMeansTls(hs, ls, n - 1);
      RunInv(hs, ls, n - 1);
      StepContexts(hs[n - 1], ls[n - 1]);
    }
  }

  /** In every run, over TLS: nbd_can_meta_context reports a context that the server granted
      in the clear if and only if the list held it when TLS was accepted, no
      OPT_META_CONTEXT.START has emptied the list since, and the program requests no contexts
      now. */
  lemma StaleExactly(hs: seq<Handle>, ls: seq<Label>, n: nat, name: string)
    requires IsRun(hs, ls) && Fresh(hs[0]) && n < |hs| && hs[n].n.tls
    ensures CanMetaContext(hs[n], name) == 1 && GivenInTheClear(hs, ls, n, name)
            <==> Outlived(hs, ls, n, name) && hs[n].s.contexts == []
  {
    hide Step, Inv, Fresh, Enabled, Prepared;
    if CanMetaContext(hs[n], name) == 1 && GivenInTheClear(hs, ls, n, name) {
      var k :| 0 <= k < n && Since(hs, ls, k, n, name) && !hs[k].n.tls;
      StaleSurvives(hs, ls, k, n, name);
    }
    if Outlived(hs, ls, n, name) && hs[n].s.contexts == [] {
      var m :| 0 <= m < n && Survives(hs, ls, m, n, name);
      SurvivorReported(hs, ls, m, n, name);
    }
  }

  lemma StaleSurvives(hs: seq<Handle>, ls: seq<Label>, k: nat, n: nat, name: string)
    requires IsRun(hs, ls) && Fresh(hs[0]) && k < n < |hs| && hs[n].n.tls && CanMetaContext(hs[n], name) == 1
    requires Since(hs, ls, k, n, name) && !hs[k].n.tls
    ensures Outlived(hs, ls, n, name) && hs[n].s.contexts == []
  {
    hide Step, Fresh, Enabled, Prepared, Inv;
    var m := TlsWasAccepted(hs, ls, n);
    assert k < m;
    assert Since(hs, ls, k, m, name);
    RunHas(hs, ls, m, name);
    assert Survives(hs, ls, m, n, name);
    NotPrivate(hs, ls, k, n);
    RunInv(hs, ls, n);
    InvPrivate(hs[n]);
  }

  lemma InvPrivate(h: Handle)
    requires Inv(h) && h.n.tls
    ensures h.n.metaValid && h.n.contexts != [] ==> h.o.contexts
  {
    hide OptFits, CallbacksFit, ContextsFit, FlagsFit;
  }

  lemma SurvivorReported(hs: seq<Handle>, ls: seq<Label>, m: nat, n: nat, name: string)
    requires IsRun(hs, ls) && Fresh(hs[0]) && m < n < |hs| && Survives(hs, ls, m, n, name) && hs[n].s.contexts == []
    ensures CanMetaContext(hs[n], name) == 1 && GivenInTheClear(hs, ls, n, name)
  {
    hide Step, Fresh, Enabled, Prepared, Inv, Grants;
    RunHas(hs, ls, m, name);
    var k :| 0 <= k < m && Since(hs, ls, k, m, name);
    assert Since(hs, ls, k, n, name);
    if hs[k].n.tls { TlsStays(hs, ls, k, m); }
    RunHas(hs, ls, n, name);
  }

  // ---- two runs ----

  lemma Extend(hs: seq<Handle>, ls: seq<Label>, l: Label) returns (hs': seq<Handle>, ls': seq<Label>)
    requires IsRun(hs, ls) && Enabled(hs[|ls|], l)
    ensures IsRun(hs', ls') && hs'[0] == hs[0] && hs'[|ls'|] == Step(hs[|ls|], l)
    ensures hs' == hs + [Step(hs[|ls|], l)] && ls' == ls + [l]
  {
    hide Step, Enabled;
    hs', ls' := hs + [Step(hs[|ls|], l)], ls + [l];
    forall k | 0 <= k < |ls'| ensures Enabled(hs'[k], ls'[k]) && hs'[k + 1] == Step(hs'[k], ls'[k]) {
      if k < |ls| { assert Enabled(hs[k], ls[k]) && hs[k + 1] == Step(hs[k], ls[k]); }
    }
  }

  /** In option mode, a context can be granted in the clear. */
  lemma GrantedInTheClear() returns (hs: seq<Handle>, ls: seq<Label>)
    ensures IsRun(hs, ls) && Fresh(hs[0])
    ensures var h := hs[|ls|];
      && h.phase.Negotiating? && !h.failed && h.n.fixed && !h.n.tls && h.s.optMode && h.s.contexts == []
      && h.s.tls.Disable?
      && !h.c.fnCb && !h.o.contexts && |h.n.contexts| == 1 && h.n.contexts[0].name == "a"
  {
    hide IsRun;
    var ack := Reply(Rep(true, NBD_REP_ACK, 0, NoPayload));
    var h0 := Handle(Start, false, Settings(Disable, true, false, false, false, []), Calls(NoOpt, false, false),
                     Agreed(true, false, false, false, false, []), NO_EXPORT, Origin(false, false, false, false));
    hs, ls := [h0], [];
    assert IsRun(hs, ls) by { NoSteps(h0); }
    hs, ls := Extend(hs, ls, Machine(Done));
    hs, ls := Extend(hs, ls, Machine(Flags(true)));
    hs, ls := Extend(hs, ls, Machine(Done));
    hs, ls := Extend(hs, ls, Machine(Done));
    hs, ls := Extend(hs, ls, Machine(Done));
    hs, ls := Extend(hs, ls, Machine(Done));
    hs, ls := Extend(hs, ls, User(CallOpt(SetMeta, false)));
    hs, ls := Extend(hs, ls, Machine(Done));
    hs, ls := Extend(hs, ls, Machine(Done));
    hs, ls := Extend(hs, ls, Machine(Reply(Rep(true, NBD_REP_META_CONTEXT, 5, ContextName(7, "a")))));
    hs, ls := Extend(hs, ls, Machine(ack));
  }

  lemma NoSteps(h: Handle)
    ensures IsRun([h], [])
  {
  }

  /** A run in which a context that was granted in the clear is still reported after TLS was
      accepted. */
  lemma StaleContextReachable() returns (hs: seq<Handle>, ls: seq<Label>)
    ensures IsRun(hs, ls) && Fresh(hs[0])
    ensures var h := hs[|ls|]; h.phase.Negotiating? && h.n.tls && !h.o.contexts && CanMetaContext(h, "a") == 1
  {
    hide Fresh;
    var ack := Reply(Rep(true, NBD_REP_ACK, 0, NoPayload));
    hs, ls := GrantedInTheClear();
    hs, ls := Extend(hs, ls, User(CallOpt(StartTls, false)));
    hs, ls := Extend(hs, ls, Machine(Done));
    hs, ls := Extend(hs, ls, Machine(Done));
    hs, ls := Extend(hs, ls, Machine(ack));
    hs, ls := Extend(hs, ls, Machine(Handshake(true)));
    hs, ls := Extend(hs, ls, Machine(Done));
    assert hs[|ls|].n.contexts[0].name == "a";
  }

  /** The context is granted in the clear, another one is requested, and TLS is accepted:
      nothing is reported then, but the context is as soon as the program clears its list. */
  lemma StaleAfterClearing() returns (hs: seq<Handle>, ls: seq<Label>, m: nat)
    ensures IsRun(hs, ls) && Fresh(hs[0]) && m < |ls|
    ensures hs[m].n.tls && CanMetaContext(hs[m], "a") == -1
    ensures var h := hs[|ls|]; h.phase.Negotiating? && h.n.tls && !h.o.contexts && CanMetaContext(h, "a") == 1
  {
    hide Fresh;
    var ack := Reply(Rep(true, NBD_REP_ACK, 0, NoPayload));
    hs, ls := GrantedInTheClear();
    hs, ls := Extend(hs, ls, User(AddMetaContext("b")));
    hs, ls := Extend(hs, ls, User(CallOpt(StartTls, false)));
    hs, ls := Extend(hs, ls, Machine(Done));
    hs, ls := Extend(hs, ls, Machine(Done));
    hs, ls := Extend(hs, ls, Machine(ack));
    hs, ls := Extend(hs, ls, Machine(Handshake(true)));
    hs, ls := Extend(hs, ls, Machine(Done));
    m := |ls|;
    hs, ls := Extend(hs, ls, User(ClearMetaContexts));
    assert hs[|ls|].n.contexts[0].name == "a";
  }
}
