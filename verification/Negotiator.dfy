/** The negotiating handle as an object: one method per state, which does to the fields what
    the state's function says, and the calls of a program, with what the run theorems promise
    it. */
module Negotiator {
  import opened Bytes
  import opened Negotiation
  import opened NegotiationSafety
  import opened StaleContexts

  class Negotiator {
    var phase: Phase
    var failed: bool
    var s: Settings
    var c: Calls
    var n: Agreed
    var x: Export
    /** Where the negotiated state came from: a trace. */
    var o: Origin
    /** The run so far. */
    ghost var hs: seq<Handle>
    ghost var ls: seq<Label>

    /** The fields are the last state of a run that began with the server's magic. */
    ghost predicate Valid()
      reads this
    {
      IsRun(hs, ls) && Fresh(hs[0]) && hs[|ls|] == Model()
    }

    function Model(): Handle
      reads this
    {
      Handle(phase, failed, s, c, n, x, o)
    }

    constructor (s: Settings, fixed: bool, oldstyle: bool)
      ensures Valid() && this.s == s && n.fixed == fixed && ls == []
    {
      phase := if oldstyle then OldCheck else Phase.Start;
      failed := false;
      this.s := s;
      c := Calls(NoOpt, false, false);
      n := Agreed(fixed, false, false, false, false, []);
      x := NO_EXPORT;
      o := Origin(false, false, false, false);
      new;
      hs, ls := [Model()], [];
      NoSteps(Model());
    }

    method SetNextState(p: Phase)
      modifies this`phase
      ensures Model() == To(old(Model()), p)
    {
      phase := p;
    }

    method AssertFails()
      modifies this`failed
      ensures Model() == Fail(old(Model()))
    {
      failed := true;
    }

    /** nbd_internal_free_option. */
    method FreeCallbacks()
      modifies this`c
      ensures Model() == FreeOption(old(Model()))
    {
      if c.opt.List? || c.opt.ListMeta? || c.opt.SetMeta? { c := c.(fnCb := false); }
      c := c.(doneCb := false);
    }

    /** Ignore claims of the server that lack what they build on. */
    method DropClaims(eflags: Eflags) returns (e: Eflags)
      ensures e == SaneFlags(n.sr, n.eh, eflags)
    {
      e := eflags;
      if e.df && !n.sr { e := e.(df := false); }
      if e.blockStatusPayload && !n.eh { e := e.(blockStatusPayload := false); }
      if e.fastZero && !e.writeZeroes { e := e.(fastZero := false); }
    }

    /** nbd_internal_set_size_and_flags. */
    method SetSize(size: nat, eflags: Eflags)
      modifies this`phase, this`failed, this`s, this`c, this`n, this`x, this`o
      ensures Model() == SetSizeAndFlags(old(Model()), size, eflags)
    {
      hide SaneFlags;
      if eflags.IsZero() { SetNextState(Dead); return; }
      var e := DropClaims(eflags);
      if s.requestMeta && (!n.sr || s.contexts == []) {
        if n.contexts != [] { AssertFails(); return; }
        n := n.(metaValid := true);
      }
      x := x.(size := size, eflags := e);
      o := o.(x := n.tls);
    }

    /** nbd_internal_set_payload. */
    method SetMaximumPayload()
      modifies this`x
      ensures Model() == SetPayload(old(Model()))
    {
      if x.maximum != 0 {
        x := x.(payload := Min(MAX_REQUEST_SIZE, Max(1024 * 1024, x.maximum)));
      } else {
        x := x.(payload := 32 * 1024 * 1024);
      }
    }

    // ---- NEWSTYLE ----

    method Start()
      modifies this`phase, this`failed, this`s, this`c, this`n, this`x, this`o
      ensures Model() == OnStart(old(Model()))
    {
      if c.opt.NoOpt? { SetNextState(Phase.CheckGflags); return; }
      if !s.optMode { AssertFails(); return; }
      match c.opt
      case Go => SetNextState(if n.fixed then Phase.MetaStart else Phase.NameStart);
      case Info => SetNextState(if n.fixed then Phase.MetaStart else Phase.NameStart);
      case List => SetNextState(Phase.ListStart);
      case AbortOpt => SetNextState(if n.fixed then PrepareAbort else Dead);
      case ListMeta => SetNextState(Phase.MetaStart);
      case SetMeta => SetNextState(Phase.MetaStart);
      case StructuredReply => SetNextState(Phase.SrStart);
      case ExtendedHeaders => SetNextState(Phase.EhStart);
      case StartTls => SetNextState(Phase.TlsStart);
    }

    method CheckGflags(offered: bool)
      modifies this`phase, this`failed, this`s, this`c, this`n, this`x, this`o
      ensures Model() == OnCheckGflags(old(Model()), offered)
    {
      n := n.(fixed := n.fixed && offered);
      if !n.fixed && s.tls.Require? { SetNextState(Dead); return; }
      SetNextState(Phase.SendCflags);
    }

    method SendCflags()
      modifies this`phase, this`failed, this`s, this`c, this`n, this`x, this`o
      ensures Model() == OnSendCflags(old(Model()))
    {
      if !n.fixed {
        SetNextState(if s.optMode then Negotiating else Phase.NameStart);
      } else {
        SetNextState(Phase.TlsStart);
      }
    }

    // ---- OPT_STARTTLS ----

    method TlsStart()
      modifies this`phase, this`failed, this`s, this`c, this`n, this`x, this`o
      ensures Model() == OnTlsStart(old(Model()))
    {
      if !n.fixed { AssertFails(); return; }
      if c.opt.StartTls? {
        if !s.optMode { AssertFails(); return; }
      } else {
        if s.tls.Disable? { SetNextState(Phase.EhStart); return; }
        if c.doneCb { AssertFails(); return; }
      }
      SetNextState(Phase.TlsReply);
    }

    method TlsReply(r: Rep)
      modifies this`phase, this`failed, this`s, this`c, this`n, this`x, this`o
      ensures Model() == OnTlsReply(old(Model()), r)
    {
      hide Prepared, IsError;
      if !Prepared(r) { SetNextState(Dead); return; }
      if r.reply == NBD_REP_ACK {
        if n.tls { SetNextState(Dead); return; }
        x := NO_EXPORT;
        n := n.(sr := false, eh := false, metaValid := false);
        SetNextState(TlsHandshake);
        return;
      }
      if !IsError(r) { SetNextState(Dead); return; }
      if s.tls.Require? { SetNextState(PrepareAbort); return; }
      FreeCallbacks();
      SetNextState(if c.opt.StartTls? then Negotiating else Phase.EhStart);
    }

    method TlsDone()
      modifies this`phase, this`failed, this`s, this`c, this`n, this`x, this`o
      ensures Model() == OnTlsDone(old(Model()))
    {
      n := n.(tls := true);
      FreeCallbacks();
      SetNextState(if c.opt.StartTls? then Negotiating else Phase.EhStart);
    }

    // ---- OPT_EXTENDED_HEADERS, OPT_STRUCTURED_REPLY ----

    method EhStart()
      modifies this`phase, this`failed, this`s, this`c, this`n, this`x, this`o
      ensures Model() == OnEhStart(old(Model()))
    {
      if !n.fixed { AssertFails(); return; }
      if c.opt.ExtendedHeaders? {
        if !s.optMode { AssertFails(); return; }
      } else {
        if c.doneCb { AssertFails(); return; }
        if !s.requestEh || !s.requestSr { SetNextState(Phase.SrStart); return; }
      }
      SetNextState(Phase.EhReply);
    }

    method EhReply(r: Rep)
      modifies this`phase, this`failed, this`s, this`c, this`n, this`x, this`o
      ensures Model() == OnEhReply(old(Model()), r)
    {
      hide Prepared, IsError;
      if !Prepared(r) { SetNextState(Dead); return; }
      if r.reply == NBD_REP_ACK {
        n := n.(eh := true, sr := true);
        o := o.(eh := n.tls, sr := n.tls);
      } else if !IsError(r) {
        SetNextState(Dead);
        return;
      }
      SetNextState(if c.opt.ExtendedHeaders? then Negotiating else Phase.SrStart);
      FreeCallbacks();
    }

    method SrStart()
      modifies this`phase, this`failed, this`s, this`c, this`n, this`x, this`o
      ensures Model() == OnSrStart(old(Model()))
    {
      if !n.fixed { AssertFails(); return; }
      if c.opt.StructuredReply? {
        if !s.optMode { AssertFails(); return; }
      } else {
        if c.doneCb { AssertFails(); return; }
        if !s.requestSr || n.sr {
          SetNextState(if s.optMode then Negotiating else Phase.MetaStart);
          return;
        }
      }
      SetNextState(Phase.SrReply);
    }

    method SrReply(r: Rep)
      modifies this`phase, this`failed, this`s, this`c, this`n, this`x, this`o
      ensures Model() == OnSrReply(old(Model()), r)
    {
      hide Prepared, IsError;
      if !Prepared(r) { SetNextState(Dead); return; }
      if r.reply == NBD_REP_ACK {
        n := n.(sr := true);
        o := o.(sr := n.tls);
      } else if !IsError(r) {
        SetNextState(Dead);
        return;
      }
      SetNextState(if s.optMode then Negotiating else Phase.MetaStart);
      FreeCallbacks();
    }

    // ---- OPT_META_CONTEXT ----

    method MetaStart()
      modifies this`phase, this`failed, this`s, this`c, this`n, this`x, this`o
      ensures Model() == OnMetaStart(old(Model()))
    {
      if !n.fixed { AssertFails(); return; }
      if c.opt.ListMeta? {
        if !s.optMode || !c.fnCb { AssertFails(); return; }
      } else {
        if c.opt.SetMeta? != c.fnCb { AssertFails(); return; }
        if s.requestMeta || c.opt.SetMeta? {
          n := n.(contexts := [], metaValid := false);
          o := o.(contexts := n.tls);
        }
        if !c.opt.SetMeta? && (!s.requestMeta || !n.sr || s.contexts == []) { SetNextState(Phase.GoStart); return; }
      }
      SetNextState(Phase.MetaReply);
    }

    method MetaReply(r: Rep)
      modifies this`phase, this`failed, this`s, this`c, this`n, this`x, this`o
      ensures Model() == OnMetaReply(old(Model()), r)
    {
      hide Prepared, IsError;
      if !Prepared(r) { SetNextState(Dead); return; }
      var explicit := c.opt.ListMeta? || c.opt.SetMeta?;
      if r.reply == NBD_REP_ACK {
        if !c.opt.ListMeta? { n := n.(metaValid := true); }
        if explicit {
          SetNextState(Negotiating);
          FreeCallbacks();
        } else {
          SetNextState(Phase.GoStart);
        }
      } else if r.reply == NBD_REP_META_CONTEXT {
        if !c.opt.ListMeta? && r.payload.ContextName? {
          n := n.(contexts := n.contexts + [Context(r.payload.id, r.payload.name)]);
        }
      } else if !IsError(r) {
        SetNextState(Dead);
      } else if explicit {
        FreeCallbacks();
        SetNextState(Negotiating);
      } else {
        n := n.(metaValid := n.contexts == []);
        SetNextState(Phase.GoStart);
      }
    }

    // ---- OPT_GO, OPT_EXPORT_NAME, OPT_LIST, OLDSTYLE ----

    method GoStart()
      modifies this`phase, this`failed, this`s, this`c, this`n, this`x, this`o
      ensures Model() == OnGoStart(old(Model()))
    {
      x := NO_EXPORT;
      if !n.fixed { AssertFails(); return; }
      if c.opt.Info? {
        if !s.optMode { AssertFails(); return; }
      } else if c.opt.NoOpt? {
        if s.optMode || c.doneCb { AssertFails(); return; }
        c := c.(opt := Opt.Go);
      }
      SetNextState(Phase.GoReply);
    }

    method InfoReply(r: Rep)
      modifies this`phase, this`failed, this`s, this`c, this`n, this`x, this`o
      ensures Model() == OnInfo(old(Model()), r)
    {
      hide ProperBlockSize, SetSizeAndFlags;
      if r.len > MAX_OPTION_PAYLOAD { return; }
      match r.payload
      case ExportInfo(size, eflags) => if r.len != 12 { SetNextState(Dead); } else { SetSize(size, eflags); }
      case BlockSize(min, pref, max) =>
        if r.len != 14 {
          SetNextState(Dead);
        } else if ProperBlockSize(min, pref, max) {
          x := x.(minimum := min, preferred := pref, maximum := max);
        }
      case NameOrDescription => if r.len > 2 + NBD_MAX_STRING { SetNextState(Dead); }
      case _ =>
    }

    method GoReply(r: Rep)
      modifies this`phase, this`failed, this`s, this`c, this`n, this`x, this`o
      ensures Model() == OnGoReply(old(Model()), r)
    {
      hide Prepared, IsError, OnInfo;
      if !Prepared(r) { SetNextState(Dead); return; }
      if r.reply == NBD_REP_INFO { InfoReply(r); return; }
      if r.reply == NBD_REP_ERR_UNSUP && c.opt.Go? { SetNextState(Phase.NameStart); return; }
      var ack := r.reply == NBD_REP_ACK;
      if ack {
        SetMaximumPayload();
      } else {
        if !IsError(r) { SetNextState(Dead); return; }
        x := NO_EXPORT;
        n := n.(metaValid := false);
      }
      SetNextState(if ack && c.opt.Go? then Finished else if s.optMode then Negotiating else PrepareAbort);
      FreeCallbacks();
    }

    method NameReply(size: nat, eflags: Eflags)
      modifies this`phase, this`failed, this`s, this`c, this`n, this`x, this`o
      ensures Model() == OnNameReply(old(Model()), size, eflags)
    {
      hide SetSizeAndFlags;
      SetSize(size, eflags);
      if failed || phase.Dead? { return; }
      SetMaximumPayload();
      SetNextState(Finished);
      FreeCallbacks();
    }

    method ListStart()
      modifies this`phase, this`failed, this`s, this`c, this`n, this`x, this`o
      ensures Model() == OnListStart(old(Model()))
    {
      if !n.fixed || !s.optMode || !c.opt.List? || !c.fnCb { AssertFails(); return; }
      SetNextState(Phase.ListReply);
    }

    method ListReply(r: Rep)
      modifies this`phase, this`failed, this`s, this`c, this`n, this`x, this`o
      ensures Model() == OnListReply(old(Model()), r)
    {
      hide Prepared, IsError;
      if !Prepared(r) { SetNextState(Dead); return; }
      if r.reply == NBD_REP_ACK || IsError(r) {
        FreeCallbacks();
        SetNextState(Negotiating);
      } else if r.reply != 2 {
        SetNextState(Dead);
      }
    }

    method OldstyleCheck(gflags: nat, size: nat, eflags: Eflags)
      modifies this`phase, this`failed, this`s, this`c, this`n, this`x, this`o
      ensures Model() == OnOldCheck(old(Model()), gflags, size, eflags)
    {
      hide SetSizeAndFlags;
      if s.tls.Require? { SetNextState(Dead); return; }
      n := n.(fixed := gflags % 2 == 1);
      if gflags != 0 { SetNextState(Dead); return; }
      SetSize(size, eflags);
      if failed || phase.Dead? { return; }
      SetMaximumPayload();
      SetNextState(Ready);
    }

    // ---- the machine and its callers ----

    /** The code of the current state. */
    method EnterState(i: Input)
      requires Enabled(Model(), Machine(i))
      modifies this`phase, this`failed, this`s, this`c, this`n, this`x, this`o
      ensures Model() == Step(old(Model()), Machine(i))
    {
      hide OnStart, OnCheckGflags, OnSendCflags, OnTlsStart, OnTlsReply, OnTlsDone, OnEhStart, OnEhReply, OnSrStart,
           OnSrReply, OnMetaStart, OnMetaReply, OnGoStart, OnGoReply, OnNameReply, OnListStart, OnListReply, OnOldCheck;
      if i.IoError? { SetNextState(Dead); return; }
      match phase
      case Start => Start();
      case CheckGflags => if i.Flags? { CheckGflags(i.fixed); }
      case SendCflags => SendCflags();
      case TlsStart => TlsStart();
      case TlsReply => if i.Reply? { TlsReply(i.r); }
      case TlsHandshake => if i.Handshake? && i.over { SetNextState(Phase.TlsDone); }
      case TlsDone => TlsDone();
      case EhStart => EhStart();
      case EhReply => if i.Reply? { EhReply(i.r); }
      case SrStart => SrStart();
      case SrReply => if i.Reply? { SrReply(i.r); }
      case MetaStart => MetaStart();
      case MetaReply => if i.Reply? { MetaReply(i.r); }
      case GoStart => GoStart();
      case GoReply => if i.Reply? { GoReply(i.r); }
      case NameStart => SetNextState(Phase.NameReply);
      case NameReply => if i.OldReply? { NameReply(i.size, i.eflags); }
      case ListStart => ListStart();
      case ListReply => if i.Reply? { ListReply(i.r); }
      case OldCheck => if i.OldReply? { OldstyleCheck(i.gflags, i.size, i.eflags); }
      case PrepareAbort => if n.fixed { SetNextState(OptionShutdown); } else { AssertFails(); }
      case OptionShutdown => SetNextState(if s.optMode then Closed else Dead);
      case Finished => SetNextState(Ready);
    }

    // ---- what a program sees ----

    /** What holds whenever a program sees the handle: no assertion of the original has
        failed; READY and NEGOTIATING mean TLS if it is required; and once TLS is on,
        everything in use was received over it. */
    ghost predicate Trusted()
      reads this
    {
      && !failed && (n.eh ==> n.sr) && (n.tls ==> OverTls(Model()))
      && (s.tls.Require? && (phase.Ready? || phase.Negotiating?) ==> n.tls)
    }

    /** The step that led to the present fields is recorded. */
    ghost method Record(l: Label)
      requires IsRun(hs, ls) && Fresh(hs[0]) && Enabled(hs[|ls|], l) && Model() == Step(hs[|ls|], l)
      modifies this`hs, this`ls
      ensures Valid() && Trusted() && hs == old(hs) + [Model()] && ls == old(ls) + [l]
    {
      hide Step, Enabled, Fresh, OverTls;
      hs, ls := Extend(hs, ls, l);
      RunInv(hs, ls, |ls|);
      NegotiatedStateFits(hs, ls, |ls|);
      if s.tls.Require? { RequiredTlsIsThere(hs, ls, |ls|); }
    }

    /** The machine runs the code of its state. */
    method Run(i: Input)
      requires Valid() && Enabled(Model(), Machine(i))
      modifies this
      ensures Valid() && Trusted() && hs == old(hs) + [Model()] && ls == old(ls) + [Machine(i)]
    {
      hide IsRun, Step, Fresh, Trusted;
      EnterState(i);
      Record(Machine(i));
    }

    /** nbd_aio_opt_*. */
    method CallOption(opt: Opt, cb: bool)
      requires Valid() && Enabled(Model(), User(CallOpt(opt, cb)))
      modifies this
      ensures Valid() && Trusted() && hs == old(hs) + [Model()] && ls == old(ls) + [User(CallOpt(opt, cb))]
    {
      hide IsRun, Fresh, Trusted;
      StartOption(opt, cb);
      Record(User(CallOpt(opt, cb)));
    }

    /** The checks and fields of an option call. */
    method StartOption(opt: Opt, cb: bool)
      modifies this`phase, this`failed, this`s, this`c, this`n, this`x, this`o
      ensures Model() == OnCall(old(Model()), CallOpt(opt, cb))
    {
      if !n.fixed && !opt.Go? && !opt.AbortOpt? { return; }
      if opt.List? || opt.ListMeta? || opt.SetMeta? {
        if c.fnCb { AssertFails(); return; }
        c := c.(fnCb := true);
      }
      if !opt.AbortOpt? { c := c.(doneCb := cb); }
      c := c.(opt := opt);
      SetNextState(Phase.Start);
    }

    /** nbd_set_export_name, to a different name or the same. */
    method SetName(different: bool)
      requires Valid() && Enabled(Model(), User(SetExportName(different)))
      modifies this
      ensures Valid() && Trusted() && hs == old(hs) + [Model()] && ls == old(ls) + [User(SetExportName(different))]
      ensures different ==> x == NO_EXPORT && !n.metaValid
    {
      hide IsRun, Fresh, Trusted;
      if different {
        x := NO_EXPORT;
        n := n.(metaValid := false);
      }
      Record(User(SetExportName(different)));
    }

    /** nbd_set_request_meta_context. */
    method SetRequest(request: bool)
      requires Valid() && Enabled(Model(), User(SetRequestMeta(request)))
      modifies this
      ensures Valid() && Trusted() && hs == old(hs) + [Model()] && ls == old(ls) + [User(SetRequestMeta(request))]
    {
      hide IsRun, Fresh, Trusted;
      s := s.(requestMeta := request);
      Record(User(SetRequestMeta(request)));
    }

    /** nbd_add_meta_context. */
    method AddContext(name: string)
      requires Valid() && Enabled(Model(), User(AddMetaContext(name)))
      modifies this
      ensures Valid() && Trusted() && hs == old(hs) + [Model()] && ls == old(ls) + [User(AddMetaContext(name))]
    {
      hide IsRun, Fresh, Trusted;
      s := s.(contexts := s.contexts + [name]);
      Record(User(AddMetaContext(name)));
    }

    /** nbd_clear_meta_contexts. */
    method ClearContexts()
      requires Valid() && Enabled(Model(), User(ClearMetaContexts))
      modifies this
      ensures Valid() && Trusted() && hs == old(hs) + [Model()] && ls == old(ls) + [User(ClearMetaContexts)]
    {
      hide IsRun, Fresh, Trusted;
      s := s.(contexts := []);
      Record(User(ClearMetaContexts));
    }

    /** nbd_can_meta_context: what is reported was granted and not forgotten since; over TLS it
        was granted in the clear if and only if the list held it when TLS was accepted, was
        not emptied since, and the program requests no contexts. */
    method CanContext(name: string) returns (res: int)
      requires Valid()
      ensures res == CanMetaContext(Model(), name)
      ensures res == 1 ==> Given(hs, ls, |ls|, name)
      ensures n.tls ==>
        (res == 1 && GivenInTheClear(hs, ls, |ls|, name) <==> Outlived(hs, ls, |ls|, name) && s.contexts == [])
    {
      hide Fresh, Step, Given, GivenInTheClear, Outlived;
      RunHas(hs, ls, |ls|, name);
      if n.tls { StaleExactly(hs, ls, |ls|, name); }
      if s.contexts != [] && !n.metaValid { return -1; }
      var i := 0;
      while i < |n.contexts|
        invariant i <= |n.contexts| && forall k | 0 <= k < i :: n.contexts[k].name != name
      {
        if n.contexts[i].name == name { return 1; }
        i := i + 1;
      }
      return 0;
    }
  }
}
