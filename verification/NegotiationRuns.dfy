/** What a negotiation asks the server for, and what its outcome has to do with the answers. */
module NegotiationRuns {
  import opened Bytes
  import opened Negotiation
  import opened NegotiationSafety

  // ---- answers ----

  /** NBD_REP_ACK, without data. */
  predicate Acks(l: Label) { l.Machine? && l.i.Reply? && l.i.r.ok && l.i.r.reply == 1 && l.i.r.len == 0 }

  /** An error reply: bit 31 is set, and the message has at most 4096 bytes. */
  predicate Refuses(l: Label)
  {
    l.Machine? && l.i.Reply? && l.i.r.ok && l.i.r.reply / 0x8000_0000 % 2 == 1 && l.i.r.len <= 4096
  }

  /** NBD_REP_INFO with NBD_INFO_EXPORT. */
  predicate TellsExport(l: Label)
  {
    l.Machine? && l.i.Reply? && l.i.r.ok && l.i.r.reply == 3 && l.i.r.len == 12 && l.i.r.payload.ExportInfo?
  }

  /** NBD_REP_INFO with NBD_INFO_BLOCK_SIZE. */
  predicate TellsBlockSize(l: Label)
  {
    l.Machine? && l.i.Reply? && l.i.r.ok && l.i.r.reply == 3 && l.i.r.len == 14 && l.i.r.payload.BlockSize?
  }

  /** The step is neither a call nor an I/O error. */
  predicate Goes(l: Label) { l.Machine? && !l.i.IoError? }

  predicate Explicit(h: Handle) { h.c.opt.ListMeta? || h.c.opt.SetMeta? }

  // ---- what is agreed on ----

  datatype Feature = TlsOn | StructuredReplies | ExtendedHeadersOn | MetaValid

  predicate On(h: Handle, f: Feature)
  {
    match f
    case TlsOn => h.n.tls
    case StructuredReplies => h.n.sr
    case ExtendedHeadersOn => h.n.eh
    case MetaValid => h.n.metaValid
  }

  /** The server accepts TLS, which was not on. */
  predicate TlsAccepted(h: Handle, l: Label) { h.phase.TlsReply? && Acks(l) && !h.n.tls }

  /** Size and flags of an export arrive, and are valid. */
  predicate SizeTold(h: Handle, l: Label)
  {
    || (h.phase.GoReply? && TellsExport(l) && !l.i.r.payload.eflags.IsZero())
    || (h.phase.NameReply? && l.Machine? && l.i.OldReply? && !l.i.eflags.IsZero())
    || (h.phase.OldCheck? && l.Machine? && l.i.OldReply? && l.i.gflags == 0 && !h.s.tls.Require?
        && !l.i.eflags.IsZero())
  }

  /** The server turns down OPT_GO or OPT_INFO, and not because it does not know OPT_GO. */
  predicate GoRefused(h: Handle, l: Label)
  {
    h.phase.GoReply? && Refuses(l) && !(l.i.r.reply == 0x8000_0001 && h.c.opt.Go?)
  }

  /** The step makes the feature available. */
  predicate Grants(h: Handle, l: Label, f: Feature)
  {
    match f
    case TlsOn => h.phase.TlsDone? && Goes(l)
    case StructuredReplies => (h.phase.SrReply? || h.phase.EhReply?) && Acks(l)
    case ExtendedHeadersOn => h.phase.EhReply? && Acks(l)
    case MetaValid =>
      || (h.phase.MetaReply? && Acks(l) && !h.c.opt.ListMeta?)
      || (h.phase.MetaReply? && Refuses(l) && !Explicit(h) && h.n.contexts == [])
      || (SizeTold(h, l) && h.s.requestMeta && (!h.n.sr || h.s.contexts == []))
  }

  /** The step takes it away. */
  predicate Withdraws(h: Handle, l: Label, f: Feature)
  {
    match f
    case TlsOn => false
    case StructuredReplies => TlsAccepted(h, l)
    case ExtendedHeadersOn => TlsAccepted(h, l)
    case MetaValid =>
      || TlsAccepted(h, l) || GoRefused(h, l)
      || (h.phase.MetaStart? && Goes(l) && !h.c.opt.ListMeta? && (h.s.requestMeta || h.c.opt.SetMeta?))
      || (h.phase.MetaReply? && Refuses(l) && !Explicit(h) && h.n.contexts != [])
      || (l.User? && l.c == SetExportName(true))
  }

  // ---- what is known of the export ----

  /** The step makes the client forget the export. */
  predicate Forgets(h: Handle, l: Label)
  {
    TlsAccepted(h, l) || GoRefused(h, l) || (h.phase.GoStart? && Goes(l)) || (l.User? && l.c == SetExportName(true))
  }

  function SizeSaid(l: Label): nat
    requires l.Machine? && (l.i.OldReply? || (l.i.Reply? && l.i.r.payload.ExportInfo?))
  {
    if l.i.OldReply? then l.i.size else l.i.r.payload.size
  }

  /** The flags that were said, without those that need what was not agreed on. */
  function FlagsSaid(n: Agreed, l: Label): Eflags
    requires l.Machine? && (l.i.OldReply? || (l.i.Reply? && l.i.r.payload.ExportInfo?))
  {
    var e := if l.i.OldReply? then l.i.eflags else l.i.r.payload.eflags;
    Eflags(e.writeZeroes, e.df && n.sr, e.fastZero && e.writeZeroes, e.blockStatusPayload && n.eh, e.others)
  }

  function Pow2(n: nat): nat { if n == 0 then 1 else 2 * Pow2(n - 1) }

  ghost predicate PowerOfTwo(n: nat) { exists a: nat :: n == Pow2(a) }

  /** Block sizes as the protocol wants them: powers of two, the smallest at most 64 KiB and the
      preferred at least 512; the largest is a multiple of the smallest, or unlimited. */
  ghost predicate Proper(min: nat, pref: nat, max: nat)
  {
    && 0 < min <= 65536 && min <= pref && 512 <= pref <= max && (max == 0xffff_ffff || max % min == 0)
    && PowerOfTwo(min) && PowerOfTwo(pref)
  }

  lemma {:induction false} PowersOfTwo(n: nat)
    ensures IsPow2(n) <==> PowerOfTwo(n)
  {
    if n == 1 {
      assert Pow2(0) == 1;
    } else if n > 1 {
      PowersOfTwo(n / 2);
      if IsPow2(n) {
        var a: nat :| n / 2 == Pow2(a);
        assert n == Pow2(a + 1);
      }
      if PowerOfTwo(n) {
        var a: nat :| n == Pow2(a);
        assert n / 2 == Pow2(a - 1);
      }
    } else {
      forall a: nat ensures Pow2(a) > 0 { Pow2Positive(a); }
    }
  }

  lemma {:induction false} Pow2Positive(n: nat)
    ensures Pow2(n) > 0
  {
    if n > 0 { Pow2Positive(n - 1); }
  }

  lemma ProperExactly(min: nat, pref: nat, max: nat)
    ensures ProperBlockSize(min, pref, max) <==> Proper(min, pref, max)
  {
    hide PowerOfTwo, IsPow2;
    PowersOfTwo(min);
    PowersOfTwo(pref);
  }

  ghost predicate BlockSizeTold(h: Handle, l: Label)
  {
    && h.phase.GoReply? && TellsBlockSize(l)
    && Proper(l.i.r.payload.minimum, l.i.r.payload.preferred, l.i.r.payload.maximum)
  }

  /** The largest payload that is sent, for a maximum block size or none. */
  function Largest(max: nat): nat
  {
    if max == 0 then 33_554_432 else if max < 1_048_576 then 1_048_576 else if max > 67_108_864 then 67_108_864 else max
  }

  // ---- what a step changes ----

  /** The step changes features and export just as the answer says. */
  ghost predicate Changes(h: Handle, l: Label, g: Handle)
  {
    && (forall f: Feature :: On(g, f) <==> Grants(h, l, f) || (On(h, f) && !Withdraws(h, l, f)))
    && g.x.size == (if SizeTold(h, l) then SizeSaid(l) else if Forgets(h, l) then 0 else h.x.size)
    && g.x.eflags == (if SizeTold(h, l) then FlagsSaid(h.n, l) else if Forgets(h, l) then NO_FLAGS else h.x.eflags)
    && (g.x.minimum, g.x.preferred, g.x.maximum) ==
       (if BlockSizeTold(h, l) then (l.i.r.payload.minimum, l.i.r.payload.preferred, l.i.r.payload.maximum)
        else if Forgets(h, l) then (0, 0, 0) else (h.x.minimum, h.x.preferred, h.x.maximum))
  }

  /** Nothing of it changes. */
  predicate Still(h: Handle, g: Handle)
  {
    && g.n.tls == h.n.tls && g.n.sr == h.n.sr && g.n.eh == h.n.eh && g.n.metaValid == h.n.metaValid
    && g.x.(payload := h.x.payload) == h.x
  }

  lemma StillChanges(h: Handle, l: Label, g: Handle)
    requires Still(h, g) && (forall f: Feature :: !Grants(h, l, f) && (On(h, f) ==> !Withdraws(h, l, f)))
    requires !SizeTold(h, l) && !BlockSizeTold(h, l) && !Forgets(h, l)
    ensures Changes(h, l, g)
  {
    hide SizeTold, BlockSizeTold, Forgets, Grants, Withdraws;
  }

  /** States that only ask, or wait. */
  predicate Asks(p: Phase)
  {
    || p.Start? || p.CheckGflags? || p.SendCflags? || p.TlsStart? || p.EhStart? || p.SrStart? || p.ListStart?
    || p.NameStart? || p.PrepareAbort? || p.OptionShutdown? || p.Finished? || p.TlsHandshake? || p.ListReply?
  }

  lemma AskStill(h: Handle, i: Input)
    requires Asks(h.phase) || i.IoError?
    ensures Still(h, Enter(h, i))
  {
    hide Still, Enter;
    if i.IoError? { ErrorStill(h, i); }
    else if h.phase.TlsStart? || h.phase.EhStart? || h.phase.SrStart? || h.phase.ListStart? { SkipStill(h, i); }
    else { GreetStill(h, i); }
  }

  lemma ErrorStill(h: Handle, i: Input)
    requires i.IoError?
    ensures Still(h, Enter(h, i))
  {
  }

  lemma SkipStill(h: Handle, i: Input)
    requires !i.IoError? && (h.phase.TlsStart? || h.phase.EhStart? || h.phase.SrStart? || h.phase.ListStart?)
    ensures Still(h, Enter(h, i))
  {
    hide OnStart, OnCheckGflags, OnSendCflags, OnTlsReply, OnTlsDone, OnEhReply, OnSrReply, OnMetaStart, OnMetaReply,
         OnGoStart, OnGoReply, OnNameReply, OnListReply, OnOldCheck;
  }

  lemma GreetStill(h: Handle, i: Input)
    requires !i.IoError? && Asks(h.phase)
    requires !(h.phase.TlsStart? || h.phase.EhStart? || h.phase.SrStart? || h.phase.ListStart?)
    ensures Still(h, Enter(h, i))
  {
    hide OnTlsStart, OnTlsReply, OnTlsDone, OnEhStart, OnEhReply, OnSrStart, OnSrReply, OnMetaStart, OnMetaReply,
         OnGoStart, OnGoReply, OnNameReply, OnListStart, OnOldCheck, Prepared, IsError;
  }

  lemma AskChanges(h: Handle, i: Input)
    requires Asks(h.phase) || i.IoError?
    ensures Changes(h, Machine(i), Enter(h, i))
  {
    hide Enter, Proper;
    AskStill(h, i);
    StillChanges(h, Machine(i), Enter(h, i));
  }

  lemma CallChanges(h: Handle, c: Call)
    requires h.phase.Negotiating?
    ensures Changes(h, User(c), OnCall(h, c))
  {
    hide Proper;
  }

  lemma TlsChanges(h: Handle, i: Input)
    requires (h.phase.TlsReply? || h.phase.TlsDone?) && !i.IoError?
    ensures Changes(h, Machine(i), Enter(h, i))
  {
    hide Proper, OnStart, OnCheckGflags, OnSendCflags, OnTlsStart, OnEhStart, OnEhReply, OnSrStart, OnSrReply,
         OnMetaStart, OnMetaReply, OnGoStart, OnGoReply, OnNameReply, OnListStart, OnListReply, OnOldCheck;
  }

  lemma HeaderChanges(h: Handle, i: Input)
    requires (h.phase.EhReply? || h.phase.SrReply?) && !i.IoError?
    ensures Changes(h, Machine(i), Enter(h, i))
  {
    hide Proper, OnStart, OnCheckGflags, OnSendCflags, OnTlsStart, OnTlsReply, OnTlsDone, OnEhStart, OnSrStart,
         OnMetaStart, OnMetaReply, OnGoStart, OnGoReply, OnNameReply, OnListStart, OnListReply, OnOldCheck;
  }

  lemma MetaChanges(h: Handle, i: Input)
    requires (h.phase.MetaStart? || h.phase.GoStart?) && !i.IoError? && !Enter(h, i).failed
    ensures Changes(h, Machine(i), Enter(h, i))
  {
    hide Proper, OnStart, OnCheckGflags, OnSendCflags, OnTlsStart, OnTlsReply, OnTlsDone, OnEhStart, OnSrStart,
         OnEhReply, OnSrReply, OnMetaReply, OnGoReply, OnNameReply, OnListStart, OnListReply, OnOldCheck;
  }

  lemma ContextChanges(h: Handle, i: Input)
    requires h.phase.MetaReply? && !i.IoError? && !Enter(h, i).failed
    ensures Changes(h, Machine(i), Enter(h, i))
  {
    hide Changes, OnStart, OnCheckGflags, OnSendCflags, OnTlsStart, OnTlsReply, OnTlsDone, OnEhStart, OnSrStart,
         OnEhReply, OnSrReply, OnMetaStart, OnMetaReply, OnGoStart, OnGoReply, OnNameReply, OnListStart, OnListReply,
         OnOldCheck;
    if i.Reply? { MetaReplyChanges(h, i.r); } else { WaitChanges(h, i); }
  }

  lemma WaitChanges(h: Handle, i: Input)
    requires h.phase.MetaReply? && !i.IoError? && !i.Reply?
    ensures Changes(h, Machine(i), h)
  {
    hide Proper;
  }

  lemma MetaReplyChanges(h: Handle, r: Rep)
    requires h.phase.MetaReply?
    ensures Changes(h, Machine(Reply(r)), OnMetaReply(h, r))
  {
    hide Changes;
    if (r.reply == NBD_REP_ACK && Prepared(r) && !h.c.opt.ListMeta?)
       || (Refuses(Machine(Reply(r))) && !Explicit(h)) {
      ValidChanges(h, r);
    } else {
      StillChanges(h, Machine(Reply(r)), OnMetaReply(h, r));
    }
  }

  /** The answers that say whether the contexts are valid. */
  lemma ValidChanges(h: Handle, r: Rep)
    requires h.phase.MetaReply?
    requires (r.reply == NBD_REP_ACK && Prepared(r) && !h.c.opt.ListMeta?)
             || (Refuses(Machine(Reply(r))) && !Explicit(h))
    ensures Changes(h, Machine(Reply(r)), OnMetaReply(h, r))
  {
    hide Proper;
  }

  lemma SizeChanges(h: Handle, l: Label, size: nat, eflags: Eflags)
    requires !h.failed && !SetSizeAndFlags(h, size, eflags).failed && !BlockSizeTold(h, l) && !Forgets(h, l)
    requires l.Machine? && (l.i.OldReply? || (l.i.Reply? && l.i.r.payload.ExportInfo?))
    requires SizeSaid(l) == size && (if l.i.OldReply? then l.i.eflags else l.i.r.payload.eflags) == eflags
    requires SizeTold(h, l) <==> !eflags.IsZero()
    requires forall f: Feature | f != MetaValid :: !Grants(h, l, f) && !Withdraws(h, l, f)
    requires Grants(h, l, MetaValid) <==> SizeTold(h, l) && h.s.requestMeta && (!h.n.sr || h.s.contexts == [])
    requires !Withdraws(h, l, MetaValid)
    ensures Changes(h, l, SetSizeAndFlags(h, size, eflags))
  {
    hide SizeTold, BlockSizeTold, Forgets, Grants, Withdraws;
  }

  lemma InfoChanges(h: Handle, l: Label)
    requires !h.failed && h.phase.GoReply? && l.Machine? && l.i.Reply? && Prepared(l.i.r) && l.i.r.reply == 3
    requires !OnInfo(h, l.i.r).failed
    ensures Changes(h, l, OnInfo(h, l.i.r))
  {
    hide SetSizeAndFlags, ProperBlockSize, Proper, Changes;
    var r := l.i.r;
    if r.payload.ExportInfo? && r.len == 12 {
      SizeChanges(h, l, r.payload.size, r.payload.eflags);
    } else if r.payload.BlockSize? && r.len == 14 {
      BlockChanges(h, l);
    } else {
      StillChanges(h, l, OnInfo(h, r));
    }
  }

  lemma BlockChanges(h: Handle, l: Label)
    requires h.phase.GoReply? && TellsBlockSize(l)
    ensures var p := l.i.r.payload; Changes(h, l, SetBlockSize(h, p.minimum, p.preferred, p.maximum))
  {
    hide ProperBlockSize, Proper;
    var p := l.i.r.payload;
    ProperExactly(p.minimum, p.preferred, p.maximum);
  }

  lemma GoChanges(h: Handle, l: Label)
    requires !h.failed && h.phase.GoReply? && l.Machine? && l.i.Reply? && !OnGoReply(h, l.i.r).failed
    ensures Changes(h, l, OnGoReply(h, l.i.r))
  {
    hide OnInfo, Proper, Changes;
    if Prepared(l.i.r) && l.i.r.reply == 3 {
      InfoChanges(h, l);
    } else if !GoRefused(h, l) {
      StillChanges(h, l, OnGoReply(h, l.i.r));
    } else {
      RefusalChanges(h, l);
    }
  }

  lemma RefusalChanges(h: Handle, l: Label)
    requires GoRefused(h, l)
    ensures Changes(h, l, OnGoReply(h, l.i.r))
  {
    hide OnInfo, Proper;
  }

  /** The payload limit and what follows are not part of what changes. */
  lemma SameChanges(h: Handle, l: Label, g: Handle, g': Handle)
    requires Changes(h, l, g) && g'.n == g.n && g'.x.(payload := g.x.payload) == g.x
    ensures Changes(h, l, g')
  {
    hide Grants, Withdraws, SizeTold, Forgets, BlockSizeTold;
    forall f: Feature ensures On(g', f) <==> On(g, f) {}
  }

  lemma NameChanges(h: Handle, l: Label)
    requires !h.failed && h.phase.NameReply? && l.Machine? && l.i.OldReply?
    requires !OnNameReply(h, l.i.size, l.i.eflags).failed
    ensures Changes(h, l, OnNameReply(h, l.i.size, l.i.eflags))
  {
    hide SetSizeAndFlags, Changes, Proper;
    SizeChanges(h, l, l.i.size, l.i.eflags);
    SameChanges(h, l, SetSizeAndFlags(h, l.i.size, l.i.eflags), OnNameReply(h, l.i.size, l.i.eflags));
  }

  lemma OldChanges(h: Handle, l: Label)
    requires !h.failed && h.phase.OldCheck? && l.Machine? && l.i.OldReply?
    requires !OnOldCheck(h, l.i.gflags, l.i.size, l.i.eflags).failed
    ensures Changes(h, l, OnOldCheck(h, l.i.gflags, l.i.size, l.i.eflags))
  {
    hide SetSizeAndFlags, Changes, Proper;
    var g := OnOldCheck(h, l.i.gflags, l.i.size, l.i.eflags);
    if h.s.tls.Require? || l.i.gflags != 0 {
      StillChanges(h, l, g);
    } else {
      var h1 := h.(n := h.n.(fixed := false));
      SizeChanges(h1, l, l.i.size, l.i.eflags);
      SameChanges(h1, l, SetSizeAndFlags(h1, l.i.size, l.i.eflags), g);
      FixedAside(h, h1, l, g);
    }
  }

  /** Whether the server is fixed newstyle makes no difference to what changes. */
  lemma FixedAside(h: Handle, h1: Handle, l: Label, g: Handle)
    requires h1 == h.(n := h.n.(fixed := false)) && Changes(h1, l, g)
    ensures Changes(h, l, g)
  {
    hide Proper;
    forall f: Feature ensures On(h1, f) == On(h, f) && Grants(h1, l, f) == Grants(h, l, f)
                              && Withdraws(h1, l, f) == Withdraws(h, l, f)
    {}
    assert SizeTold(h1, l) == SizeTold(h, l) && Forgets(h1, l) == Forgets(h, l);
  }

  lemma IdleChanges(h: Handle, i: Input)
    requires !i.IoError? && (h.phase.GoReply? ==> !i.Reply?) && (h.phase.NameReply? ==> !i.OldReply?)
    requires (h.phase.OldCheck? ==> !i.OldReply?) && (h.phase.GoReply? || h.phase.NameReply? || h.phase.OldCheck?)
    ensures Changes(h, Machine(i), Enter(h, i))
  {
    hide Proper, Changes;
    StillChanges(h, Machine(i), h);
  }

  /** Every step changes features and export just as the answer says. */
  lemma StepChanges(h: Handle, l: Label)
    requires Enabled(h, l) && !Step(h, l).failed
    ensures Changes(h, l, Step(h, l))
  {
    hide Changes, OnStart, OnCheckGflags, OnSendCflags, OnTlsStart, OnTlsReply, OnTlsDone, OnEhStart, OnEhReply,
         OnSrStart, OnSrReply, OnMetaStart, OnMetaReply, OnGoStart, OnGoReply, OnNameReply, OnListStart, OnListReply,
         OnOldCheck, OnCall;
    match l
    case User(c) => CallChanges(h, c);
    case Machine(i) =>
      if Asks(h.phase) || i.IoError? { AskChanges(h, i); }
      else if h.phase.TlsReply? || h.phase.TlsDone? { TlsChanges(h, i); }
      else if h.phase.EhReply? || h.phase.SrReply? { HeaderChanges(h, i); }
      else if h.phase.MetaStart? || h.phase.GoStart? { MetaChanges(h, i); }
      else if h.phase.MetaReply? { ContextChanges(h, i); }
      else if h.phase.GoReply? && i.Reply? { GoChanges(h, l); }
      else if h.phase.NameReply? && i.OldReply? { NameChanges(h, l); }
      else if h.phase.OldCheck? && i.OldReply? { OldChanges(h, l); }
      else { IdleChanges(h, i); }
  }

  // ---- what a step asks for ----

  predicate Answered(h: Handle, l: Label, p: Phase) { h.phase == p && (Acks(l) || Refuses(l)) }

  /** The automatic negotiation has left OPT_EXTENDED_HEADERS behind, or is over. */
  predicate PastEh(h: Handle)
  {
    h.n.fixed && !h.phase.Dead? && (!h.c.opt.NoOpt? || h.phase.SrStart? || h.phase.SrReply? || PastSr(h))
  }

  /** It has left OPT_STRUCTURED_REPLY behind, or is over. */
  predicate PastSr(h: Handle)
  {
    && h.n.fixed && !h.phase.Dead?
    && (!h.c.opt.NoOpt? || h.phase.MetaStart? || h.phase.MetaReply? || h.phase.Negotiating? || PastMeta(h.phase))
  }

  predicate PastMeta(p: Phase)
  {
    p.GoStart? || p.GoReply? || p.NameStart? || p.NameReply? || p.Finished? || p.Ready?
  }

  /** There are contexts to ask for. */
  predicate Wants(h: Handle) { h.n.fixed && h.s.requestMeta && h.n.sr && h.s.contexts != [] }

  /** An option that is neither wanted nor called for is not sent. */
  predicate Sought(h: Handle)
  {
    && (h.phase.TlsReply? || h.phase.TlsHandshake? || h.phase.TlsDone? ==> !h.s.tls.Disable? || h.c.opt.StartTls?)
    && (h.phase.EhReply? ==> (h.s.requestEh && h.s.requestSr) || h.c.opt.ExtendedHeaders?)
    && (h.phase.SrReply? ==> h.s.requestSr || h.c.opt.StructuredReply?)
    && (h.phase.MetaReply? ==> Wants(h) || Explicit(h))
  }

  /** The payload limit of a connection that is ready. */
  predicate Paid(h: Handle) { h.phase.Finished? || h.phase.Ready? ==> h.x.payload == Largest(h.x.maximum) }

  /** It is settled whether the server is fixed newstyle. */
  predicate Greeted(h: Handle)
  {
    !(h.phase.Start? && h.c.opt.NoOpt?) && !h.phase.CheckGflags? && !h.phase.OldCheck?
  }

  /** How the last phases are reached; and fixed newstyle is what the first flags say. */
  predicate Arrives(h: Handle, l: Label, g: Handle)
  {
    && (Greeted(h) ==> Greeted(g) && g.n.fixed == h.n.fixed)
    && (h.phase.CheckGflags? && l.Machine? && l.i.Flags? ==> Greeted(g) && g.n.fixed == (h.n.fixed && l.i.fixed))
    && (g.phase.Ready? ==> h.phase.Finished? || (h.phase.OldCheck? && SizeTold(h, l)))
    && (g.phase.Finished? ==> (h.phase.GoReply? && h.c.opt.Go? && Acks(l)) || (h.phase.NameReply? && SizeTold(h, l)))
    && (g.phase.NameReply? ==> (h.phase.NameStart? || h.phase.NameReply?) && g.n.fixed == h.n.fixed)
    && (g.phase.NameStart? ==>
          !g.n.fixed || (h.phase.GoReply? && h.c.opt.Go? && l.Machine? && l.i.Reply? && l.i.r.reply == 0x8000_0001))
  }

  /** What the step has to do with what came before. */
  predicate Leads(h: Handle, l: Label, g: Handle)
  {
    && (Secured(g) && g.n.fixed && !g.s.tls.Disable? ==>
          g.n.tls || (Secured(h) && h.n.fixed) || (h.phase.TlsReply? && Refuses(l)))
    && (PastEh(g) ==> PastEh(h) || Answered(h, l, EhReply) || !g.s.requestEh || !g.s.requestSr)
    && (PastSr(g) ==> PastSr(h) || Answered(h, l, SrReply) || !g.s.requestSr || (h.n.sr && h.phase.SrStart?))
    && (PastMeta(g.phase) && Wants(g) ==>
          (PastMeta(h.phase) && Wants(h)) || (Answered(h, l, MetaReply) && !Explicit(h)))
    && (Sought(h) ==> Sought(g)) && (Paid(h) ==> Paid(g))
    && (h.n.tls ==> g.n.tls) && Arrives(h, l, g)
    && g.s.tls == h.s.tls && g.s.requestEh == h.s.requestEh && g.s.requestSr == h.s.requestSr
  }

  lemma ErrorLeads(h: Handle, i: Input)
    requires Inv(h) && i.IoError?
    ensures Leads(h, Machine(i), Enter(h, i))
  {
    hide OptFits, CallbacksFit, ContextsFit, Private, FlagsFit;
  }

  lemma BeginLeads(h: Handle, i: Input)
    requires Inv(h) && !i.IoError?
    requires h.phase.Start? || h.phase.CheckGflags? || h.phase.SendCflags? || h.phase.TlsStart?
    ensures Leads(h, Machine(i), Enter(h, i))
  {
    hide OnTlsReply, OnTlsDone, OnEhStart, OnEhReply, OnSrStart, OnSrReply, OnMetaStart, OnMetaReply, OnGoStart,
         OnGoReply, OnNameReply, OnListStart, OnListReply, OnOldCheck, CallbacksFit, ContextsFit, Private, FlagsFit;
  }

  lemma HeaderLeads(h: Handle, i: Input)
    requires Inv(h) && !i.IoError?
    requires h.phase.EhStart? || h.phase.SrStart?
    ensures Leads(h, Machine(i), Enter(h, i))
  {
    hide OnStart, OnCheckGflags, OnSendCflags, OnTlsStart, OnTlsReply, OnTlsDone, OnEhReply, OnSrReply, OnMetaStart,
         OnMetaReply, OnGoStart, OnGoReply, OnNameReply, OnListStart, OnListReply, OnOldCheck, CallbacksFit,
         ContextsFit, Private, FlagsFit;
  }

  lemma OtherLeads(h: Handle, i: Input)
    requires Inv(h) && !i.IoError?
    requires h.phase.ListStart? || h.phase.ListReply? || h.phase.NameStart? || h.phase.PrepareAbort?
             || h.phase.OptionShutdown? || h.phase.Finished? || h.phase.TlsHandshake?
    ensures Leads(h, Machine(i), Enter(h, i))
  {
    hide OnStart, OnCheckGflags, OnSendCflags, OnTlsStart, OnTlsReply, OnTlsDone, OnEhStart, OnEhReply, OnSrStart,
         OnSrReply, OnMetaStart, OnMetaReply, OnGoStart, OnGoReply, OnNameReply, OnOldCheck, CallbacksFit,
         ContextsFit, Private, FlagsFit;
  }

  lemma AskLeads(h: Handle, i: Input)
    requires Inv(h) && (Asks(h.phase) || i.IoError?)
    ensures Leads(h, Machine(i), Enter(h, i))
  {
    hide Leads, Inv, Enter;
    if i.IoError? { ErrorLeads(h, i); }
    else if h.phase.Start? || h.phase.CheckGflags? || h.phase.SendCflags? || h.phase.TlsStart? { BeginLeads(h, i); }
    else if h.phase.EhStart? || h.phase.SrStart? { HeaderLeads(h, i); }
    else { OtherLeads(h, i); }
  }

  lemma CallLeads(h: Handle, c: Call)
    requires Inv(h) && CallOk(h, c)
    ensures Leads(h, User(c), OnCall(h, c))
  {
    hide ContextsFit, Private, FlagsFit;
  }

  lemma TlsLeads(h: Handle, i: Input)
    requires Inv(h) && !i.IoError? && (h.phase.TlsReply? || h.phase.TlsDone?)
    ensures Leads(h, Machine(i), Enter(h, i))
  {
    hide OnStart, OnCheckGflags, OnSendCflags, OnTlsStart, OnEhStart, OnEhReply, OnSrStart, OnSrReply, OnMetaStart,
         OnMetaReply, OnGoStart, OnGoReply, OnNameReply, OnListStart, OnListReply, OnOldCheck, CallbacksFit,
         ContextsFit, Private, FlagsFit;
  }

  lemma ReplyLeads(h: Handle, i: Input)
    requires Inv(h) && !i.IoError? && (h.phase.EhReply? || h.phase.SrReply?)
    ensures Leads(h, Machine(i), Enter(h, i))
  {
    hide OnStart, OnCheckGflags, OnSendCflags, OnTlsStart, OnTlsReply, OnTlsDone, OnEhStart, OnSrStart, OnMetaStart,
         OnMetaReply, OnGoStart, OnGoReply, OnNameReply, OnListStart, OnListReply, OnOldCheck, CallbacksFit,
         ContextsFit, Private, FlagsFit;
  }

  lemma MetaLeads(h: Handle, i: Input)
    requires Inv(h) && !i.IoError? && (h.phase.MetaStart? || h.phase.GoStart?)
    ensures Leads(h, Machine(i), Enter(h, i))
  {
    hide OnStart, OnCheckGflags, OnSendCflags, OnTlsStart, OnTlsReply, OnTlsDone, OnEhStart, OnEhReply, OnSrStart,
         OnSrReply, OnMetaReply, OnGoReply, OnNameReply, OnListStart, OnListReply, OnOldCheck, CallbacksFit,
         ContextsFit, Private, FlagsFit;
  }

  lemma ContextLeads(h: Handle, i: Input)
    requires Inv(h) && !i.IoError? && h.phase.MetaReply?
    ensures Leads(h, Machine(i), Enter(h, i))
  {
    hide OnStart, OnCheckGflags, OnSendCflags, OnTlsStart, OnTlsReply, OnTlsDone, OnEhStart, OnEhReply, OnSrStart,
         OnSrReply, OnMetaStart, OnGoStart, OnGoReply, OnNameReply, OnListStart, OnListReply, OnOldCheck,
         CallbacksFit, ContextsFit, Private, FlagsFit;
  }

  /** Size and flags lead nowhere else. */
  lemma SizeLeads(h: Handle, size: nat, eflags: Eflags)
    ensures var g := SetSizeAndFlags(h, size, eflags);
      && g.phase == (if eflags.IsZero() then Dead else h.phase) && g.s == h.s && g.c == h.c
      && g.n.(metaValid := h.n.metaValid) == h.n
  {
    hide SaneFlags;
  }

  /** So do all replies with information. */
  lemma InfoLeads(h: Handle, r: Rep)
    ensures var g := OnInfo(h, r);
      && (g.phase == h.phase || g.phase.Dead?) && g.s == h.s && g.c == h.c && g.n.(metaValid := h.n.metaValid) == h.n
  {
    hide SetSizeAndFlags, ProperBlockSize;
    if r.payload.ExportInfo? { SizeLeads(h, r.payload.size, r.payload.eflags); }
  }

  lemma GoLeads(h: Handle, i: Input)
    requires Inv(h) && h.phase.GoReply? && i.Reply?
    ensures Leads(h, Machine(i), OnGoReply(h, i.r))
  {
    hide OnInfo, Prepared, IsError, Arrives, CallbacksFit, ContextsFit, Private, FlagsFit;
    InfoLeads(h, i.r);
    GoArrives(h, i);
  }

  lemma GoArrives(h: Handle, i: Input)
    requires Inv(h) && h.phase.GoReply? && i.Reply?
    ensures Arrives(h, Machine(i), OnGoReply(h, i.r))
  {
    hide OnInfo, IsError, OptFits, CallbacksFit, ContextsFit, Private, FlagsFit;
    InfoLeads(h, i.r);
  }

  lemma NameLeads(h: Handle, i: Input)
    requires Inv(h) && h.phase.NameReply? && i.OldReply?
    ensures Leads(h, Machine(i), OnNameReply(h, i.size, i.eflags))
  {
    hide SetSizeAndFlags, ContextsFit, Private, FlagsFit;
    SizeLeads(h, i.size, i.eflags);
  }

  lemma OldLeads(h: Handle, i: Input)
    requires Inv(h) && h.phase.OldCheck? && i.OldReply?
    ensures Leads(h, Machine(i), OnOldCheck(h, i.gflags, i.size, i.eflags))
  {
    hide SetSizeAndFlags, ContextsFit, Private, FlagsFit;
    SizeLeads(h.(n := h.n.(fixed := false)), i.size, i.eflags);
  }

  lemma StepLeads(h: Handle, l: Label)
    requires Inv(h) && Enabled(h, l)
    ensures Leads(h, l, Step(h, l))
  {
    hide Leads, Inv, OnStart, OnCheckGflags, OnSendCflags, OnTlsStart, OnTlsReply, OnTlsDone, OnEhStart, OnEhReply,
         OnSrStart, OnSrReply, OnMetaStart, OnMetaReply, OnGoStart, OnGoReply, OnNameReply, OnListStart, OnListReply,
         OnOldCheck, OnCall;
    match l
    case User(c) => CallLeads(h, c);
    case Machine(i) =>
      if Asks(h.phase) || i.IoError? { AskLeads(h, i); }
      else if h.phase.TlsReply? || h.phase.TlsDone? { TlsLeads(h, i); }
      else if h.phase.EhReply? || h.phase.SrReply? { ReplyLeads(h, i); }
      else if h.phase.MetaStart? || h.phase.GoStart? { MetaLeads(h, i); }
      else if h.phase.MetaReply? { ContextLeads(h, i); }
      else if h.phase.GoReply? && i.Reply? { GoLeads(h, i); }
      else if h.phase.NameReply? && i.OldReply? { NameLeads(h, i); }
      else if h.phase.OldCheck? && i.OldReply? { OldLeads(h, i); }
      else { NothingLeads(h, l); }
  }

  lemma NothingLeads(h: Handle, l: Label)
    requires h.phase.GoReply? || h.phase.NameReply? || h.phase.OldCheck?
    ensures Leads(h, l, h)
  {
  }

  // ---- when a negotiation fails ----

  predicate Replied(h: Handle, l: Label)
  {
    && l.Machine? && l.i.Reply?
    && (h.phase.TlsReply? || h.phase.EhReply? || h.phase.SrReply? || h.phase.MetaReply? || h.phase.GoReply?
        || h.phase.ListReply?)
  }

  /** A reply with the wrong magic or option, or of a length that its type cannot have. */
  predicate Malformed(r: Rep)
  {
    || !r.ok || r.len > 67_108_864 || (r.reply == 1 && r.len != 0) || (r.reply == 3 && r.len < 2)
    || (r.reply == 4 && (r.len <= 4 || r.len > 4100))
  }

  /** A reply that the option does not have: 1 ends it, 2, 3 and 4 are what OPT_LIST, OPT_GO and
      OPT_INFO, and the two for metadata contexts bring, and the rest are errors. */
  predicate Unexpected(h: Handle, l: Label)
    requires l.Machine? && l.i.Reply?
  {
    && l.i.r.reply != (if h.phase.ListReply? then 2 else if h.phase.GoReply? then 3
                       else if h.phase.MetaReply? then 4 else 1)
    && !(h.phase.GoReply? && h.c.opt.Go? && l.i.r.reply == 0x8000_0001)
    && !Acks(l) && !Refuses(l)
  }

  /** NBD_REP_INFO that is not too long to be looked at, with the wrong length for its type, or
      with an export without flags. */
  predicate WrongInfo(h: Handle, r: Rep)
  {
    && h.phase.GoReply? && r.reply == 3 && r.len <= 8197
    && match r.payload
       case ExportInfo(_, eflags) => r.len != 12 || eflags.IsZero()
       case BlockSize(_, _, _) => r.len != 14
       case NameOrDescription => r.len > 4098
       case _ => false
  }

  /** The step ends the connection. */
  predicate Dies(h: Handle, l: Label)
  {
    && l.Machine?
    && (|| l.i.IoError?
        || (Replied(h, l) && (Malformed(l.i.r) || Unexpected(h, l) || WrongInfo(h, l.i.r)))
        || (h.phase.TlsReply? && Acks(l) && h.n.tls)
        || (h.phase.NameReply? && l.i.OldReply? && l.i.eflags.IsZero())
        || (h.phase.OldCheck? && l.i.OldReply? && (h.s.tls.Require? || l.i.gflags != 0 || l.i.eflags.IsZero()))
        || (h.phase.CheckGflags? && l.i.Flags? && h.s.tls.Require? && !(h.n.fixed && l.i.fixed))
        || (h.phase.Start? && h.c.opt.AbortOpt? && !h.n.fixed)
        || (h.phase.OptionShutdown? && !h.s.optMode))
  }

  lemma AskDies(h: Handle, i: Input)
    requires Enabled(h, Machine(i)) && !Enter(h, i).failed
    requires i.IoError? || (Asks(h.phase) && !h.phase.ListReply?)
    ensures Enter(h, i).phase.Dead? <==> Dies(h, Machine(i))
  {
    hide OnTlsReply, OnTlsDone, OnEhReply, OnSrReply, OnMetaStart, OnMetaReply, OnGoStart, OnGoReply, OnNameReply,
         OnOldCheck;
  }

  lemma ReplyDies(h: Handle, i: Input)
    requires Enabled(h, Machine(i)) && !i.IoError?
    requires h.phase.TlsReply? || h.phase.TlsDone? || h.phase.EhReply? || h.phase.SrReply? || h.phase.ListReply?
    ensures Enter(h, i).phase.Dead? <==> Dies(h, Machine(i))
  {
    hide OnStart, OnCheckGflags, OnSendCflags, OnTlsStart, OnEhStart, OnSrStart,
         OnMetaStart, OnMetaReply, OnGoStart, OnGoReply, OnNameReply, OnListStart, OnOldCheck;
  }

  lemma MetaDies(h: Handle, i: Input)
    requires Enabled(h, Machine(i)) && !i.IoError? && !Enter(h, i).failed
    requires h.phase.MetaStart? || h.phase.MetaReply? || h.phase.GoStart?
    ensures Enter(h, i).phase.Dead? <==> Dies(h, Machine(i))
  {
    hide OnStart, OnCheckGflags, OnSendCflags, OnTlsStart, OnTlsReply, OnTlsDone, OnEhStart, OnSrStart,
         OnEhReply, OnSrReply, OnGoReply, OnNameReply, OnListStart, OnListReply, OnOldCheck;
  }

  lemma SizeDies(h: Handle, size: nat, eflags: Eflags)
    requires !h.failed && !h.phase.Dead? && !SetSizeAndFlags(h, size, eflags).failed
    ensures SetSizeAndFlags(h, size, eflags).phase.Dead? <==> eflags.IsZero()
  {
    hide SaneFlags;
  }

  lemma GoDies(h: Handle, i: Input)
    requires Enabled(h, Machine(i)) && h.phase.GoReply? && i.Reply? && !OnGoReply(h, i.r).failed
    ensures OnGoReply(h, i.r).phase.Dead? <==> Dies(h, Machine(i))
  {
    hide SetSizeAndFlags, ProperBlockSize;
    if Prepared(i.r) && i.r.reply == 3 && i.r.len == 12 && i.r.payload.ExportInfo? {
      SizeDies(h, i.r.payload.size, i.r.payload.eflags);
    }
  }

  lemma SizesDie(h: Handle, i: Input)
    requires Enabled(h, Machine(i)) && i.OldReply? && !Enter(h, i).failed && (h.phase.NameReply? || h.phase.OldCheck?)
    ensures Enter(h, i).phase.Dead? <==> Dies(h, Machine(i))
  {
    hide SetSizeAndFlags, OnStart, OnCheckGflags, OnSendCflags, OnTlsStart, OnTlsReply, OnTlsDone, OnEhStart,
         OnEhReply, OnSrStart, OnSrReply, OnMetaStart, OnMetaReply, OnGoStart, OnGoReply, OnListStart, OnListReply;
    if h.phase.NameReply? {
      SizeDies(h, i.size, i.eflags);
    } else if !h.s.tls.Require? && i.gflags == 0 {
      SizeDies(h.(n := h.n.(fixed := false)), i.size, i.eflags);
    }
  }

  /** A step ends the connection for these causes and no other. */
  lemma StepDies(h: Handle, l: Label)
    requires Enabled(h, l) && !Step(h, l).failed
    ensures Step(h, l).phase.Dead? <==> Dies(h, l)
  {
    hide Dies, OnStart, OnCheckGflags, OnSendCflags, OnTlsStart, OnTlsReply, OnTlsDone, OnEhStart, OnEhReply,
         OnSrStart, OnSrReply, OnMetaStart, OnMetaReply, OnGoStart, OnGoReply, OnNameReply, OnListStart, OnListReply,
         OnOldCheck, OnCall;
    match l
    case User(c) => CallLives(h, c);
    case Machine(i) =>
      if h.phase.ListReply? && !i.IoError? { ReplyDies(h, i); }
      else if Asks(h.phase) || i.IoError? { AskDies(h, i); }
      else if h.phase.TlsReply? || h.phase.TlsDone? || h.phase.EhReply? || h.phase.SrReply? { ReplyDies(h, i); }
      else if h.phase.MetaStart? || h.phase.MetaReply? || h.phase.GoStart? { MetaDies(h, i); }
      else if h.phase.GoReply? && i.Reply? { GoDies(h, i); }
      else if i.OldReply? && (h.phase.NameReply? || h.phase.OldCheck?) { SizesDie(h, i); }
      else { WaitLives(h, i); }
  }

  lemma CallLives(h: Handle, c: Call)
    requires CallOk(h, c)
    ensures !OnCall(h, c).phase.Dead? && !Dies(h, User(c))
  {
  }

  lemma WaitLives(h: Handle, i: Input)
    requires !i.IoError? && (h.phase.GoReply? ==> !i.Reply?)
    requires h.phase.NameReply? || h.phase.OldCheck? ==> !i.OldReply?
    requires h.phase.GoReply? || h.phase.NameReply? || h.phase.OldCheck?
    ensures !Dies(h, Machine(i))
  {
  }

  // ---- the theorems: what is agreed on ----

  /** Step `k` granted the feature, and it has not been withdrawn since. */
  predicate Holds(hs: seq<Handle>, ls: seq<Label>, k: nat, n: nat, f: Feature)
    requires k < n < |hs| == |ls| + 1
  {
    Grants(hs[k], ls[k], f) && forall j | k < j < n :: !Withdraws(hs[j], ls[j], f)
  }

  /** In every run: TLS, structured replies, extended headers and the validity of the contexts
      are there if and only if the server granted them and nothing withdrew them since. */
  lemma {:induction false} AgreedExactly(hs: seq<Handle>, ls: seq<Label>, n: nat, f: Feature)
    requires IsRun(hs, ls) && Fresh(hs[0]) && n < |hs|
    ensures On(hs[n], f) <==> exists k | 0 <= k < n :: Holds(hs, ls, k, n, f)
  {
    hide Step, Grants, Withdraws, Inv, Enabled;
    if n > 0 {
      var m := n - 1;
      AgreedExactly(hs, ls, m, f);
      StepOf(hs, ls, m);
      assert On(hs[n], f) <==> Grants(hs[m], ls[m], f) || (On(hs[m], f) && !Withdraws(hs[m], ls[m], f));
      assert Holds(hs, ls, m, n, f) <==> Grants(hs[m], ls[m], f);
      forall k | 0 <= k < m
        ensures Holds(hs, ls, k, n, f) <==> Holds(hs, ls, k, m, f) && !Withdraws(hs[m], ls[m], f)
      {
      }
    }
  }

  /** What is known of every step of a run. */
  lemma StepOf(hs: seq<Handle>, ls: seq<Label>, m: nat)
    requires IsRun(hs, ls) && Fresh(hs[0]) && m < |ls|
    ensures Inv(hs[m]) && Inv(hs[m + 1]) && Enabled(hs[m], ls[m]) && hs[m + 1] == Step(hs[m], ls[m])
    ensures Changes(hs[m], ls[m], hs[m + 1]) && Leads(hs[m], ls[m], hs[m + 1])
  {
    hide Step, Changes, Leads, Enabled, OptFits, CallbacksFit, ContextsFit, Private, FlagsFit, Fresh;
    RunInv(hs, ls, m);
    RunInv(hs, ls, m + 1);
    assert Enabled(hs[m], ls[m]) && hs[m + 1] == Step(hs[m], ls[m]);
    StepChanges(hs[m], ls[m]);
    StepLeads(hs[m], ls[m]);
  }

  /** In every run: a newstyle server counts as fixed if and only if it says so and so does the
      client, which a program can keep from it. */
  lemma {:induction false} FixedAsOffered(hs: seq<Handle>, ls: seq<Label>, k: nat, n: nat)
    requires IsRun(hs, ls) && Fresh(hs[0]) && k < n < |hs|
    requires hs[k].phase.CheckGflags? && ls[k].Machine? && ls[k].i.Flags?
    ensures hs[n].n.fixed == (hs[k].n.fixed && ls[k].i.fixed) && Greeted(hs[n])
    decreases n
  {
    hide Step, Changes, Inv, Enabled, Fresh;
    StepOf(hs, ls, n - 1);
    if k < n - 1 { FixedAsOffered(hs, ls, k, n - 1); }
  }

  // ---- the theorems: the export ----

  /** Size and flags were last said at step `k`. */
  predicate LastSize(hs: seq<Handle>, ls: seq<Label>, k: nat, n: nat)
    requires k < n < |hs| == |ls| + 1
  {
    SizeTold(hs[k], ls[k]) && forall j | k < j < n :: !SizeTold(hs[j], ls[j]) && !Forgets(hs[j], ls[j])
  }

  ghost predicate LastBlockSize(hs: seq<Handle>, ls: seq<Label>, k: nat, n: nat)
    requires k < n < |hs| == |ls| + 1
  {
    BlockSizeTold(hs[k], ls[k]) && forall j | k < j < n :: !BlockSizeTold(hs[j], ls[j]) && !Forgets(hs[j], ls[j])
  }

  /** In every run: size and flags are those that the server last said and that were not
      forgotten since; without such, there are none. */
  lemma {:induction false} SizeAsTold(hs: seq<Handle>, ls: seq<Label>, n: nat)
    requires IsRun(hs, ls) && Fresh(hs[0]) && n < |hs|
    ensures forall k | 0 <= k < n && LastSize(hs, ls, k, n) ::
      hs[n].x.size == SizeSaid(ls[k]) && hs[n].x.eflags == FlagsSaid(hs[k].n, ls[k])
    ensures (forall k | 0 <= k < n :: !LastSize(hs, ls, k, n)) ==> hs[n].x.size == 0 && hs[n].x.eflags == NO_FLAGS
  {
    hide Step, SizeTold, Forgets, BlockSizeTold, Grants, Withdraws, Inv, Enabled;
    if n > 0 {
      var m := n - 1;
      SizeAsTold(hs, ls, m);
      StepOf(hs, ls, m);
      assert LastSize(hs, ls, m, n) <==> SizeTold(hs[m], ls[m]);
      forall k | 0 <= k < m
        ensures LastSize(hs, ls, k, n) <==> LastSize(hs, ls, k, m) && !SizeTold(hs[m], ls[m]) && !Forgets(hs[m], ls[m])
      {
      }
    }
  }

  /** In every run: so are the block sizes, of those that are proper. */
  lemma {:induction false} BlockSizeAsTold(hs: seq<Handle>, ls: seq<Label>, n: nat)
    requires IsRun(hs, ls) && Fresh(hs[0]) && n < |hs|
    ensures forall k | 0 <= k < n && LastBlockSize(hs, ls, k, n) ::
      var p := ls[k].i.r.payload;
      hs[n].x.minimum == p.minimum && hs[n].x.preferred == p.preferred && hs[n].x.maximum == p.maximum
    ensures (forall k | 0 <= k < n :: !LastBlockSize(hs, ls, k, n)) ==>
      hs[n].x.minimum == hs[n].x.preferred == hs[n].x.maximum == 0
  {
    hide Step, SizeTold, Forgets, BlockSizeTold, Grants, Withdraws, Inv, Enabled;
    if n > 0 {
      var m := n - 1;
      BlockSizeAsTold(hs, ls, m);
      StepOf(hs, ls, m);
      assert LastBlockSize(hs, ls, m, n) <==> BlockSizeTold(hs[m], ls[m]);
      forall k | 0 <= k < m
        ensures LastBlockSize(hs, ls, k, n) <==>
                  LastBlockSize(hs, ls, k, m) && !BlockSizeTold(hs[m], ls[m]) && !Forgets(hs[m], ls[m])
      {
      }
    }
  }

  /** In every run: a connection that is READY got the size of its export in the oldstyle
      handshake, in the answer to OPT_EXPORT_NAME, or before the acknowledgement of OPT_GO;
      OPT_EXPORT_NAME is used only if the server is not fixed newstyle or does not know OPT_GO;
      and its payload limit follows from the maximum block size. */
  lemma ReadyAfter(hs: seq<Handle>, ls: seq<Label>, n: nat)
    requires IsRun(hs, ls) && Fresh(hs[0]) && n < |hs| && hs[n].phase.Ready?
    ensures hs[n].x.payload == Largest(hs[n].x.maximum)
    ensures n > 0 && (hs[n - 1].phase.Finished? || (hs[n - 1].phase.OldCheck? && SizeTold(hs[n - 1], ls[n - 1])))
    ensures hs[n - 1].phase.Finished? ==>
      && n > 1
      && var h, l := hs[n - 2], ls[n - 2];
         (h.phase.GoReply? && h.c.opt.Go? && Acks(l)) || (h.phase.NameReply? && SizeTold(h, l))
    ensures hs[n - 1].phase.Finished? && hs[n - 2].phase.NameReply? && hs[n - 2].n.fixed ==>
      exists k | 0 <= k < n ::
        hs[k].phase.GoReply? && hs[k].c.opt.Go? && ls[k].Machine? && ls[k].i.Reply? && ls[k].i.r.reply == 0x8000_0001
  {
    hide Step, Changes, SizeTold, Inv, Fresh, Enabled, Acks;
    RunPaid(hs, ls, n);
    assert n > 0 by { FreshPhase(hs[0]); }
    StepOf(hs, ls, n - 1);
    if hs[n - 1].phase.Finished? {
      assert n > 1 by { FreshPhase(hs[0]); }
      StepOf(hs, ls, n - 2);
      if hs[n - 2].phase.NameReply? && hs[n - 2].n.fixed { var _ := NameAfterGo(hs, ls, n - 2); }
    }
  }

  lemma FreshPhase(h: Handle)
    requires Fresh(h)
    ensures h.phase.Start? || h.phase.OldCheck?
  {
  }

  lemma {:induction false} RunPaid(hs: seq<Handle>, ls: seq<Label>, n: nat)
    requires IsRun(hs, ls) && Fresh(hs[0]) && n < |hs|
    ensures Paid(hs[n]) && Sought(hs[n])
  {
    hide Step, Changes, Inv, Enabled, Paid, Sought;
    if n == 0 {
      FreshPaid(hs[0]);
    } else {
      RunPaid(hs, ls, n - 1);
      StepOf(hs, ls, n - 1);
    }
  }

  lemma FreshPaid(h: Handle)
    requires Fresh(h)
    ensures Paid(h) && Sought(h)
  {
  }

  lemma {:induction false} NameAfterGo(hs: seq<Handle>, ls: seq<Label>, n: nat) returns (k: nat)
    requires IsRun(hs, ls) && Fresh(hs[0]) && n < |hs| && hs[n].n.fixed
    requires hs[n].phase.NameReply? || hs[n].phase.NameStart?
    ensures k < n && hs[k].phase.GoReply? && hs[k].c.opt.Go? && ls[k].Machine? && ls[k].i.Reply?
            && ls[k].i.r.reply == 0x8000_0001
  {
    hide Step, Changes, Inv, Enabled, Fresh;
    assert n > 0 by { FreshPhase(hs[0]); }
    k := n - 1;
    StepOf(hs, ls, k);
    if hs[n].phase.NameReply? { k := NameAfterGo(hs, ls, k); }
  }

  // ---- the theorems: what is asked for ----

  /** In every run: if TLS is not disabled, a fixed newstyle connection that has got further than
      TLS uses it, or the server has refused it. */
  lemma {:induction false} TlsTried(hs: seq<Handle>, ls: seq<Label>, n: nat)
    requires IsRun(hs, ls) && Fresh(hs[0]) && n < |hs| && hs[n].n.fixed && !hs[n].s.tls.Disable? && Secured(hs[n])
    ensures hs[n].n.tls || exists k | 0 <= k < n :: hs[k].phase.TlsReply? && Refuses(ls[k])
  {
    hide Step, Changes, Inv, Enabled, Refuses;
    if n > 0 && !hs[n].n.tls {
      StepOf(hs, ls, n - 1);
      if !(hs[n - 1].phase.TlsReply? && Refuses(ls[n - 1])) { TlsTried(hs, ls, n - 1); }
    }
  }

  /** In particular, one that is READY or NEGOTIATING. */
  lemma TlsTriedAtTheEnd(hs: seq<Handle>, ls: seq<Label>, n: nat)
    requires IsRun(hs, ls) && Fresh(hs[0]) && n < |hs| && (hs[n].phase.Ready? || hs[n].phase.Negotiating?)
    requires hs[n].n.fixed && !hs[n].s.tls.Disable?
    ensures hs[n].n.tls || exists k | 0 <= k < n :: hs[k].phase.TlsReply? && Refuses(ls[k])
  {
    hide IsRun, Fresh;
    TlsTried(hs, ls, n);
  }

  /** In every run: extended headers that are requested have been asked for, and structured
      replies that are requested have been asked for or came with extended headers. */
  lemma HeadersTried(hs: seq<Handle>, ls: seq<Label>, n: nat)
    requires IsRun(hs, ls) && Fresh(hs[0]) && n < |hs| && (hs[n].phase.Ready? || hs[n].phase.Negotiating?)
    requires hs[n].n.fixed
    ensures hs[n].s.requestEh && hs[n].s.requestSr ==>
      exists k | 0 <= k < n :: Answered(hs[k], ls[k], EhReply)
    ensures hs[n].s.requestSr ==>
      exists k | 0 <= k < n :: Answered(hs[k], ls[k], SrReply) || (hs[k].phase.EhReply? && Acks(ls[k]))
  {
    hide IsRun, Fresh, Answered, Acks;
    if hs[n].s.requestEh && hs[n].s.requestSr { var _ := EhTried(hs, ls, n); }
    if hs[n].s.requestSr { var _ := SrTried(hs, ls, n); }
  }

  lemma {:induction false} EhTried(hs: seq<Handle>, ls: seq<Label>, n: nat) returns (k: nat)
    requires IsRun(hs, ls) && Fresh(hs[0]) && n < |hs| && PastEh(hs[n]) && hs[n].s.requestEh && hs[n].s.requestSr
    ensures k < n && Answered(hs[k], ls[k], EhReply)
  {
    hide Step, Changes, Inv, Enabled, Answered;
    k := n - 1;
    StepOf(hs, ls, k);
    if PastEh(hs[k]) { k := EhTried(hs, ls, k); }
  }

  lemma {:induction false} SrTried(hs: seq<Handle>, ls: seq<Label>, n: nat) returns (k: nat)
    requires IsRun(hs, ls) && Fresh(hs[0]) && n < |hs| && PastSr(hs[n]) && hs[n].s.requestSr
    ensures k < n && (Answered(hs[k], ls[k], SrReply) || (hs[k].phase.EhReply? && Acks(ls[k])))
  {
    hide Step, Changes, Inv, Enabled, Acks, Refuses;
    k := n - 1;
    StepOf(hs, ls, k);
    if PastSr(hs[k]) {
      k := SrTried(hs, ls, k);
    } else if !Answered(hs[k], ls[k], SrReply) {
      AgreedExactly(hs, ls, k, StructuredReplies);
      assert On(hs[k], StructuredReplies);
      k :| 0 <= k < n - 1 && Holds(hs, ls, k, n - 1, StructuredReplies);
    }
  }

  /** In every run: an option is sent only if the settings want it or the program called for it;
      so TLS is not on if it is disabled, unless the program called for it. */
  lemma OnlySought(hs: seq<Handle>, ls: seq<Label>, n: nat)
    requires IsRun(hs, ls) && Fresh(hs[0]) && n < |hs|
    ensures Sought(hs[n])
    ensures hs[n].n.tls && hs[n].s.tls.Disable? ==>
      exists k | 0 <= k < n :: hs[k].phase.TlsDone? && hs[k].c.opt.StartTls?
  {
    hide Step, Inv, Enabled, Withdraws;
    RunPaid(hs, ls, n);
    if hs[n].n.tls {
      AgreedExactly(hs, ls, n, TlsOn);
      assert On(hs[n], TlsOn);
      var k :| 0 <= k < n && Holds(hs, ls, k, n, TlsOn);
      RunPaid(hs, ls, k);
      RunInv(hs, ls, k);
      RunInv(hs, ls, n);
      assert hs[k].phase.TlsDone?;
    }
  }

  /** Step `k` ended the request for metadata contexts that precedes OPT_GO; nothing but OPT_GO,
      or OPT_EXPORT_NAME in its place, has happened since. */
  predicate JustAsked(hs: seq<Handle>, ls: seq<Label>, k: nat, n: nat)
    requires k < n < |hs| == |ls| + 1
  {
    Answered(hs[k], ls[k], MetaReply) && !Explicit(hs[k]) && forall j | k < j <= n :: PastMeta(hs[j].phase)
  }

  /** In every run: contexts that are requested are asked for just before OPT_GO or OPT_INFO. */
  lemma {:induction false} ContextsAsked(hs: seq<Handle>, ls: seq<Label>, n: nat) returns (k: nat)
    requires IsRun(hs, ls) && Fresh(hs[0]) && n < |hs| && PastMeta(hs[n].phase) && Wants(hs[n])
    ensures k < n && JustAsked(hs, ls, k, n)
  {
    hide Step, Changes, Inv, Enabled, Answered;
    assert n > 0 by { FreshPhase(hs[0]); }
    k := n - 1;
    StepOf(hs, ls, k);
    if PastMeta(hs[k].phase) && Wants(hs[k]) { k := ContextsAsked(hs, ls, k); }
  }

  /** In every run: the connection is given up in a step for these causes and no other. */
  lemma FailsForCause(hs: seq<Handle>, ls: seq<Label>, n: nat)
    requires IsRun(hs, ls) && Fresh(hs[0]) && n < |ls|
    ensures hs[n + 1].phase.Dead? <==> Dies(hs[n], ls[n])
  {
    hide Step, Changes, Leads, Inv, Enabled, Fresh, Dies;
    StepOf(hs, ls, n);
    RunInv(hs, ls, n + 1);
    assert !hs[n + 1].failed by { NegotiatedStateFits(hs, ls, n + 1); }
    StepDies(hs[n], ls[n]);
  }

  // ---- the theorems: option calls ----

  /** Where the reply to an option is awaited. */
  function Awaiting(opt: Opt): Phase
    requires !opt.NoOpt? && !opt.AbortOpt?
  {
    match opt
    case List => ListReply
    case ListMeta => MetaReply
    case SetMeta => MetaReply
    case StructuredReply => SrReply
    case ExtendedHeaders => EhReply
    case StartTls => TlsReply
    case _ => GoReply
  }

  /** In every run: a program that calls for an option of a fixed newstyle server gets it sent,
      unless an I/O error is in the way; OPT_GO and OPT_INFO after the metadata contexts. */
  lemma CallSent(hs: seq<Handle>, ls: seq<Label>, n: nat)
    requires IsRun(hs, ls) && Fresh(hs[0]) && n + 3 < |hs| && ls[n].User? && ls[n].c.CallOpt? && hs[n].n.fixed
    requires Goes(ls[n + 1]) && Goes(ls[n + 2]) && !ls[n].c.opt.AbortOpt?
    ensures hs[n + 1].c.opt == hs[n + 2].c.opt == hs[n + 3].c.opt == ls[n].c.opt
    ensures if ls[n].c.opt.Go? || ls[n].c.opt.Info? then
              hs[n + 2].phase.MetaStart? && hs[n + 3].phase == if Wants(hs[n + 2]) then MetaReply else GoStart
            else hs[n + 3].phase == Awaiting(ls[n].c.opt)
  {
    hide Step, Changes, Leads, Fresh, Private, FlagsFit, Enabled;
    StepOf(hs, ls, n);
    StepOf(hs, ls, n + 1);
    StepOf(hs, ls, n + 2);
    CallStarts(hs[n], ls[n]);
    StartsOption(hs[n + 1], ls[n + 1]);
    OptionSent(hs[n + 2], ls[n + 2]);
  }

  lemma CallStarts(h: Handle, l: Label)
    requires Inv(h) && Enabled(h, l) && l.User? && l.c.CallOpt? && h.n.fixed
    ensures var g := Step(h, l);
      g.phase.Start? && g.c.opt == l.c.opt && g.n.fixed && h.s.optMode && g.s == h.s && !l.c.opt.NoOpt?
  {
    hide Private, FlagsFit, ContextsFit;
  }

  /** The first state of an option. */
  function Starting(opt: Opt): Phase
    requires !opt.NoOpt? && !opt.AbortOpt?
  {
    match opt
    case List => ListStart
    case StructuredReply => SrStart
    case ExtendedHeaders => EhStart
    case StartTls => TlsStart
    case _ => MetaStart
  }

  lemma StartsOption(h: Handle, l: Label)
    requires Inv(h) && Enabled(h, l) && Goes(l) && h.phase.Start? && h.n.fixed && h.s.optMode
    requires !h.c.opt.NoOpt? && !h.c.opt.AbortOpt?
    ensures var g := Step(h, l);
      g.phase == Starting(h.c.opt) && g.c.opt == h.c.opt && g.n.fixed && g.s == h.s && !g.failed
  {
    hide Private, FlagsFit, ContextsFit, OptFits, CallbacksFit;
  }

  lemma OptionSent(h: Handle, l: Label)
    requires Inv(h) && Enabled(h, l) && Goes(l) && !Step(h, l).failed && h.n.fixed && h.s.optMode
    requires !h.c.opt.NoOpt? && !h.c.opt.AbortOpt? && h.phase == Starting(h.c.opt)
    ensures var g, opt := Step(h, l), h.c.opt;
      && g.c.opt == opt
      && g.phase == if !opt.Go? && !opt.Info? then Awaiting(opt) else if Wants(h) then MetaReply else GoStart
  {
    hide OnStart, OnCheckGflags, OnSendCflags, OnTlsReply, OnTlsDone, OnEhReply, OnSrReply, OnMetaReply, OnGoStart,
         OnGoReply, OnNameReply, OnListReply, OnOldCheck, Private, FlagsFit, ContextsFit, OptFits, CallbacksFit;
  }
}
