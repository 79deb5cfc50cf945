/** What holds in every reachable state of a negotiation. */
module NegotiationSafety {
  import opened Bytes
  import opened Negotiation

  /** Phases that are only passed when TLS, if required, is already there. */
  predicate Secured(h: Handle)
  {
    match h.phase
    case Start => !h.c.opt.NoOpt?
    case CheckGflags => false
    case SendCflags => false
    case TlsStart => false
    case TlsReply => false
    case TlsHandshake => false
    case TlsDone => false
    case OldCheck => false
    case PrepareAbort => false
    case OptionShutdown => false
    case Dead => false
    case Closed => false
    case _ => true
  }

  /** Phases of options that exist only in the fixed newstyle protocol. */
  predicate NeedsFixed(p: Phase)
  {
    || p.TlsStart? || p.TlsReply? || p.TlsHandshake? || p.TlsDone? || p.EhStart? || p.EhReply? || p.SrStart?
    || p.SrReply?
    || p.MetaStart? || p.MetaReply? || p.GoStart? || p.GoReply? || p.ListStart? || p.ListReply? || p.PrepareAbort?
  }

  /** The option that a phase serves, in or out of option mode. */
  predicate OptFits(h: Handle)
  {
    && (h.c.opt.NoOpt? || h.s.optMode || (h.c.opt.Go? && (h.phase.GoReply? || Late(h.phase))))
    && match h.phase
       case Start => h.c.opt.NoOpt? || h.c.opt.Go? || h.c.opt.AbortOpt? || h.n.fixed
       case CheckGflags => h.c.opt.NoOpt?
       case SendCflags => h.c.opt.NoOpt?
       case TlsStart => h.c.opt.NoOpt? || h.c.opt.StartTls?
       case TlsReply => h.c.opt.NoOpt? || h.c.opt.StartTls?
       case TlsHandshake => h.c.opt.NoOpt? || h.c.opt.StartTls?
       case TlsDone => h.c.opt.NoOpt? || h.c.opt.StartTls?
       case EhStart => h.c.opt.NoOpt? || h.c.opt.ExtendedHeaders?
       case EhReply => h.c.opt.NoOpt? || h.c.opt.ExtendedHeaders?
       case SrStart => h.c.opt.NoOpt? || h.c.opt.StructuredReply?
       case SrReply => h.c.opt.NoOpt? || h.c.opt.StructuredReply?
       case MetaStart => (h.c.opt.NoOpt? && !h.s.optMode) || h.c.opt.Go? || h.c.opt.Info? || h.c.opt.ListMeta?
         || h.c.opt.SetMeta?
       case MetaReply => (h.c.opt.NoOpt? && !h.s.optMode) || h.c.opt.Go? || h.c.opt.Info? || h.c.opt.ListMeta?
         || h.c.opt.SetMeta?
       case GoStart => (h.c.opt.NoOpt? && !h.s.optMode) || h.c.opt.Go? || h.c.opt.Info?
       case GoReply => h.c.opt.Go? || h.c.opt.Info?
       case ListStart => h.c.opt.List?
       case ListReply => h.c.opt.List?
       case Negotiating => h.s.optMode
       case _ => true
  }

  /** From here a negotiation does not come back. */
  predicate Late(p: Phase)
  {
    p.NameStart? || p.NameReply? || p.PrepareAbort? || p.OptionShutdown? || p.Finished? || p.Ready? || p.Dead?
      || p.Closed?
  }

  /** opt_cb.fn is set exactly while an option that uses it is under way. */
  predicate CallbacksFit(h: Handle)
  {
    && (h.phase.Dead? || h.phase.Closed? ||
        h.c.fnCb == ((h.c.opt.List? || h.c.opt.ListMeta? || h.c.opt.SetMeta?) &&
                   (h.phase.Start? || h.phase.ListStart? || h.phase.ListReply? || h.phase.MetaStart?
                     || h.phase.MetaReply?)))
    && (h.c.opt.NoOpt? ==> !h.c.doneCb)
  }

  /** Between the last reset of the contexts and the export's size nothing can add one. */
  predicate ContextsFit(h: Handle)
  {
    && (!h.n.fixed && !h.phase.Start? && !h.phase.CheckGflags? && !h.phase.OldCheck? ==> h.n.contexts == [])
    && (h.phase.CheckGflags? || h.phase.OldCheck? || (h.c.opt.NoOpt? && h.phase.Start?) ==> h.n.contexts == [])
    && (!h.n.fixed && h.phase.Start? ==> h.n.contexts == [])
    && ((h.phase.GoStart? || h.phase.GoReply? || h.phase.NameStart? || h.phase.NameReply?) && NothingToRequest(h) ==>
          h.n.contexts == [])
    && (h.phase.MetaReply? && !h.c.opt.ListMeta? && !h.c.opt.SetMeta? ==>
          h.s.requestMeta && h.n.sr && h.s.contexts != [])
  }

  /** Whatever is in use of the negotiated state was received over TLS. */
  predicate OverTls(h: Handle)
  {
    && (h.n.sr ==> h.o.sr) && (h.n.eh ==> h.o.eh) && (!h.x.eflags.IsZero() ==> h.o.x)
    && (h.n.metaValid && h.n.contexts != [] ==> h.o.contexts)
  }

  /** Once TLS is on, whatever is in use was received over it; while it is being set up,
      nothing is in use. */
  predicate Private(h: Handle)
  {
    && (h.phase.TlsHandshake? || h.phase.TlsDone? ==> !h.n.sr && !h.n.eh && !h.n.metaValid && h.x == NO_EXPORT)
    && (h.n.tls ==> OverTls(h))
    && (h.n.tls && h.phase.MetaReply? && !h.c.opt.ListMeta? ==> h.o.contexts)
  }

  predicate FlagsFit(h: Handle)
  {
    && (h.x.eflags.df ==> h.n.sr)
    && (h.x.eflags.blockStatusPayload ==> h.n.eh)
    && (h.x.eflags.fastZero ==> h.x.eflags.writeZeroes)
    && (h.phase.Finished? || h.phase.Ready? ==> 1024 * 1024 <= h.x.payload <= MAX_REQUEST_SIZE)
  }

  predicate Inv(h: Handle)
  {
    && !h.failed && (h.n.eh ==> h.n.sr) && (h.s.tls.Require? && Secured(h) ==> h.n.tls)
    && (NeedsFixed(h.phase) ==> h.n.fixed)
    && (h.phase.SendCflags? && h.s.tls.Require? ==> h.n.fixed)
    && OptFits(h) && CallbacksFit(h) && ContextsFit(h) && Private(h) && FlagsFit(h)
  }

  // ---- every step keeps it ----

  /** The flags still fit when the export is the same, or forgotten. */
  lemma FlagsKeep(h: Handle, g: Handle)
    requires FlagsFit(h) && (g.x == NO_EXPORT || (g.x == h.x && (h.n.sr ==> g.n.sr) && (h.n.eh ==> g.n.eh)))
    requires g.phase.Finished? || g.phase.Ready? ==> h.phase.Finished? && g.x == h.x
    ensures FlagsFit(g)
  {
  }

  lemma FlagsSet(h: Handle, size: nat, eflags: Eflags)
    requires FlagsFit(h) && !h.phase.Finished? && !h.phase.Ready?
    ensures FlagsFit(SetSizeAndFlags(h, size, eflags))
  {
  }

  lemma FlagsFinish(h: Handle, g: Handle)
    requires FlagsFit(h) && g.x == SetPayload(h).x && g.n.sr == h.n.sr && g.n.eh == h.n.eh
    ensures FlagsFit(g)
  {
  }

  lemma SetSizeInv(h: Handle, size: nat, eflags: Eflags)
    requires Inv(h) && (h.phase.GoReply? || h.phase.NameReply?)
    ensures Inv(SetSizeAndFlags(h, size, eflags))
  {
    hide SaneFlags, FlagsFit;
    FlagsSet(h, size, eflags);
  }

  lemma StartInv(h: Handle)
    requires Inv(h) && h.phase.Start?
    ensures Inv(OnStart(h))
  {
    hide FlagsFit;
    FlagsKeep(h, OnStart(h));
  }

  lemma TlsStartInv(h: Handle)
    requires Inv(h) && h.phase.TlsStart?
    ensures Inv(OnTlsStart(h))
  {
    hide FlagsFit;
    FlagsKeep(h, OnTlsStart(h));
  }

  lemma TlsReplyInv(h: Handle, r: Rep)
    requires Inv(h) && h.phase.TlsReply?
    ensures Inv(OnTlsReply(h, r))
  {
    hide FlagsFit, Prepared, IsError;
    FlagsKeep(h, OnTlsReply(h, r));
  }

  lemma TlsDoneInv(h: Handle)
    requires Inv(h) && (h.phase.TlsDone? || h.phase.TlsHandshake?)
    ensures Inv(OnTlsDone(h)) && Inv(To(h, TlsDone))
  {
    hide FlagsFit;
    FlagsKeep(h, OnTlsDone(h));
    FlagsKeep(h, To(h, TlsDone));
  }

  lemma EhStartInv(h: Handle)
    requires Inv(h) && h.phase.EhStart?
    ensures Inv(OnEhStart(h))
  {
    hide FlagsFit;
    FlagsKeep(h, OnEhStart(h));
  }

  lemma EhReplyInv(h: Handle, r: Rep)
    requires Inv(h) && h.phase.EhReply?
    ensures Inv(OnEhReply(h, r))
  {
    hide FlagsFit, Prepared, IsError;
    FlagsKeep(h, OnEhReply(h, r));
  }

  lemma SrStartInv(h: Handle)
    requires Inv(h) && h.phase.SrStart?
    ensures Inv(OnSrStart(h))
  {
    hide FlagsFit;
    FlagsKeep(h, OnSrStart(h));
  }

  lemma SrReplyInv(h: Handle, r: Rep)
    requires Inv(h) && h.phase.SrReply?
    ensures Inv(OnSrReply(h, r))
  {
    hide FlagsFit, Prepared, IsError;
    FlagsKeep(h, OnSrReply(h, r));
  }

  lemma MetaStartInv(h: Handle)
    requires Inv(h) && h.phase.MetaStart?
    ensures Inv(OnMetaStart(h))
  {
    hide FlagsFit;
    FlagsKeep(h, OnMetaStart(h));
  }

  lemma MetaReplyInv(h: Handle, r: Rep)
    requires Inv(h) && h.phase.MetaReply?
    ensures Inv(OnMetaReply(h, r))
  {
    hide Inv, Prepared, IsError;
    if Prepared(r) && r.reply == NBD_REP_META_CONTEXT { ContextInv(h, r); } else { MetaEndInv(h, r); }
  }

  lemma ContextInv(h: Handle, r: Rep)
    requires Inv(h) && h.phase.MetaReply? && r.reply == NBD_REP_META_CONTEXT && Prepared(r)
    ensures Inv(OnMetaReply(h, r))
  {
    hide FlagsFit, Prepared, IsError, OptFits;
    FlagsKeep(h, OnMetaReply(h, r));
    OptKeep(h, OnMetaReply(h, r));
  }

  lemma OptKeep(h: Handle, g: Handle)
    requires OptFits(h) && g.phase == h.phase && g.s == h.s && g.c.opt == h.c.opt && g.n.fixed == h.n.fixed
    ensures OptFits(g)
  {
  }

  lemma MetaEndInv(h: Handle, r: Rep)
    requires Inv(h) && h.phase.MetaReply? && !(r.reply == NBD_REP_META_CONTEXT && Prepared(r))
    ensures Inv(OnMetaReply(h, r))
  {
    hide FlagsFit, Prepared, IsError;
    FlagsKeep(h, OnMetaReply(h, r));
  }

  lemma GoStartInv(h: Handle)
    requires Inv(h) && h.phase.GoStart?
    ensures Inv(OnGoStart(h))
  {
    hide FlagsFit;
    FlagsKeep(h, OnGoStart(h));
  }

  lemma InfoInv(h: Handle, r: Rep)
    requires Inv(h) && h.phase.GoReply?
    ensures Inv(OnInfo(h, r))
  {
    hide FlagsFit, SetSizeAndFlags, ProperBlockSize, OptFits, CallbacksFit;
    match r.payload
    case ExportInfo(size, eflags) => if r.len == 12 { SetSizeInv(h, size, eflags); } DeadInv(h);
    case BlockSize(min, pref, max) => BlockSizeInv(h, min, pref, max); DeadInv(h);
    case _ => DeadInv(h);
  }

  lemma BlockSizeInv(h: Handle, min: nat, pref: nat, max: nat)
    requires Inv(h) && h.phase.GoReply?
    ensures Inv(SetBlockSize(h, min, pref, max))
  {
    hide ProperBlockSize;
  }

  lemma GoReplyInv(h: Handle, r: Rep)
    requires Inv(h) && h.phase.GoReply?
    ensures Inv(OnGoReply(h, r))
  {
    hide FlagsFit, Prepared, IsError, OnInfo;
    var g := OnGoReply(h, r);
    if Prepared(r) && r.reply == NBD_REP_INFO {
      InfoInv(h, r);
    } else if Prepared(r) && r.reply == NBD_REP_ACK {
      FlagsFinish(h, g);
    } else {
      FlagsKeep(h, g);
    }
  }

  lemma NameInv(h: Handle, size: nat, eflags: Eflags)
    requires Inv(h) && (h.phase.NameStart? || h.phase.NameReply?)
    ensures h.phase.NameStart? ==> Inv(To(h, NameReply))
    ensures h.phase.NameReply? ==> Inv(OnNameReply(h, size, eflags))
  {
    hide FlagsFit, SetSizeAndFlags;
    if h.phase.NameStart? {
      FlagsKeep(h, To(h, NameReply));
    } else {
      SetSizeInv(h, size, eflags);
      SetSizePhase(h, size, eflags);
      var g := SetSizeAndFlags(h, size, eflags);
      if !g.failed && !g.phase.Dead? { FlagsFinish(g, OnNameReply(h, size, eflags)); }
    }
  }

  lemma SetSizePhase(h: Handle, size: nat, eflags: Eflags)
    ensures var g := SetSizeAndFlags(h, size, eflags);
      g.phase.Dead? || (g.phase == h.phase && g.c == h.c && g.s == h.s && g.n == h.n.(metaValid := g.n.metaValid))
  {
    hide SaneFlags;
  }

  lemma ListInv(h: Handle, r: Rep)
    requires Inv(h) && (h.phase.ListStart? || h.phase.ListReply?)
    ensures h.phase.ListStart? ==> Inv(OnListStart(h))
    ensures h.phase.ListReply? ==> Inv(OnListReply(h, r))
  {
    hide FlagsFit, Prepared, IsError;
    if h.phase.ListStart? { FlagsKeep(h, OnListStart(h)); } else { FlagsKeep(h, OnListReply(h, r)); }
  }

  lemma OldInv(h: Handle, gflags: nat, size: nat, eflags: Eflags)
    requires Inv(h) && h.phase.OldCheck?
    ensures Inv(OnOldCheck(h, gflags, size, eflags))
  {
    hide FlagsFit, SaneFlags;
    if h.s.tls.Require? || gflags != 0 {
      FlagsKeep(h, OnOldCheck(h, gflags, size, eflags));
    } else {
      OldSizeInv(h, size, eflags);
    }
  }

  lemma OldSizeInv(h: Handle, size: nat, eflags: Eflags)
    requires Inv(h) && h.phase.OldCheck? && !h.s.tls.Require?
    ensures Inv(OnOldCheck(h, 0, size, eflags))
  {
    hide FlagsFit, SaneFlags;
    var h1 := h.(n := h.n.(fixed := false));
    FlagsKeep(h, h1);
    FlagsSet(h1, size, eflags);
    var g := SetSizeAndFlags(h1, size, eflags);
    FlagsFinish(g, To(SetPayload(g), Ready));
  }

  lemma OtherInv(h: Handle, i: Input)
    requires Inv(h)
    requires h.phase.CheckGflags? || h.phase.SendCflags? || h.phase.PrepareAbort? || h.phase.OptionShutdown?
             || h.phase.Finished?
    ensures Inv(Enter(h, i))
  {
    hide FlagsFit, OnOldCheck, OnNameReply, OnGoReply, OnGoStart, OnMetaReply, OnMetaStart, OnSrReply, OnSrStart,
         OnEhReply, OnEhStart, OnTlsReply, OnTlsStart, OnListReply, OnListStart, OnStart, OnTlsDone;
    FlagsKeep(h, Enter(h, i));
  }

  lemma CallInv(h: Handle, c: Call)
    requires Inv(h) && CallOk(h, c)
    ensures Inv(OnCall(h, c))
  {
    hide FlagsFit;
    FlagsKeep(h, OnCall(h, c));
  }

  lemma DeadInv(h: Handle)
    requires Inv(h)
    ensures Inv(To(h, Dead))
  {
    hide FlagsFit;
    FlagsKeep(h, To(h, Dead));
  }

  lemma EnterInv(h: Handle, i: Input)
    requires Inv(h) && Enabled(h, Machine(i))
    ensures Inv(Enter(h, i))
  {
    hide Inv, OnOldCheck, OnNameReply, OnGoReply, OnGoStart, OnMetaReply, OnMetaStart, OnSrReply, OnSrStart, OnEhReply,
         OnEhStart, OnTlsReply, OnTlsStart, OnListReply, OnListStart, OnStart, OnTlsDone, OnCheckGflags, OnSendCflags;
    var r := if i.Reply? then i.r else Rep(false, 0, 0, NoPayload);
    DeadInv(h);
    match h.phase
    case Start => StartInv(h);
    case TlsStart => TlsStartInv(h);
    case TlsReply => TlsReplyInv(h, r);
    case TlsHandshake => TlsDoneInv(h);
    case TlsDone => TlsDoneInv(h);
    case EhStart => EhStartInv(h);
    case EhReply => EhReplyInv(h, r);
    case SrStart => SrStartInv(h);
    case SrReply => SrReplyInv(h, r);
    case MetaStart => MetaStartInv(h);
    case MetaReply => MetaReplyInv(h, r);
    case GoStart => GoStartInv(h);
    case GoReply => GoReplyInv(h, r);
    case NameStart => NameInv(h, 0, NO_FLAGS);
    case NameReply => if i.OldReply? { NameInv(h, i.size, i.eflags); }
    case ListStart => ListInv(h, r);
    case ListReply => ListInv(h, r);
    case OldCheck => if i.OldReply? { OldInv(h, i.gflags, i.size, i.eflags); }
    case _ => OtherInv(h, i);
  }

  /** Every step keeps the invariant; in particular no assertion of the original fails. */
  lemma StepInv(h: Handle, l: Label)
    requires Inv(h) && Enabled(h, l)
    ensures Inv(Step(h, l))
  {
    hide Inv, Enter, OnCall;
    match l
    case User(c) => CallInv(h, c);
    case Machine(i) => EnterInv(h, i);
  }

  lemma {:induction false} RunInv(hs: seq<Handle>, ls: seq<Label>, n: nat)
    requires IsRun(hs, ls) && Fresh(hs[0]) && n < |hs|
    ensures Inv(hs[n]) && hs[n].s.tls == hs[0].s.tls
  {
    hide Step;
    if n > 0 {
      RunInv(hs, ls, n - 1);
      StepInv(hs[n - 1], ls[n - 1]);
      SameTls(hs[n - 1], ls[n - 1]);
    }
  }

  lemma SameTls(h: Handle, l: Label)
    ensures Step(h, l).s.tls == h.s.tls
  {
    hide Enter, OnCall;
  }

  // ---- the theorems ----

  /** With TLS required, no negotiation ever reaches READY or NEGOTIATING in the clear. */
  lemma RequiredTlsIsThere(hs: seq<Handle>, ls: seq<Label>, n: nat)
    requires IsRun(hs, ls) && Fresh(hs[0]) && n < |hs| && hs[0].s.tls.Require?
    ensures hs[n].phase.Ready? || hs[n].phase.Negotiating? ==> hs[n].n.tls
  {
    hide IsRun, Fresh, OptFits, CallbacksFit, ContextsFit, Private, FlagsFit;
    RunInv(hs, ls, n);
  }

  /** In every reachable state: extended headers imply structured replies, no assertion has
      failed, while TLS is being set up nothing that was negotiated in the clear is in use and
      once it is on everything in use was received over it, and the export's flags promise
      nothing that was not negotiated. */
  lemma NegotiatedStateFits(hs: seq<Handle>, ls: seq<Label>, n: nat)
    requires IsRun(hs, ls) && Fresh(hs[0]) && n < |hs|
    ensures var h := hs[n];
      && !h.failed && (h.n.eh ==> h.n.sr)
      && (h.phase.TlsHandshake? || h.phase.TlsDone? ==> !h.n.sr && !h.n.eh && !h.n.metaValid && h.x == NO_EXPORT)
      && (h.n.tls ==> OverTls(h))
      && (h.x.eflags.df ==> h.n.sr) && (h.x.eflags.blockStatusPayload ==> h.n.eh)
      && (h.phase.Ready? ==> 1024 * 1024 <= h.x.payload <= MAX_REQUEST_SIZE)
  {
    hide IsRun, Fresh, OptFits, CallbacksFit, ContextsFit;
    RunInv(hs, ls, n);
  }
}
