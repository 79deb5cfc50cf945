/** Option negotiation: fixed newstyle, newstyle and oldstyle servers, from the first flags
    to READY, with the calls a program can make while NEGOTIATING. */
module Negotiation {
  import opened Bytes

  const NBD_MAX_STRING: nat := 4096
  const MAX_REQUEST_SIZE: nat := 64 * 1024 * 1024
  /** The size of the largest option reply payload that is kept. */
  const MAX_OPTION_PAYLOAD: nat := 4 + 2 * NBD_MAX_STRING + 1

  const NBD_REP_ACK: nat := 1
  const NBD_REP_INFO: nat := 3
  const NBD_REP_META_CONTEXT: nat := 4
  const NBD_REP_ERR_UNSUP: nat := 0x8000_0001

  /** The export flags: the bits that the negotiation looks at, and the others. */
  datatype Eflags = Eflags(writeZeroes: bool, df: bool, fastZero: bool, blockStatusPayload: bool, others: nat)
  {
    predicate IsZero() { !writeZeroes && !df && !fastZero && !blockStatusPayload && others == 0 }
  }

  const NO_FLAGS: Eflags := Eflags(false, false, false, false, 0)

  datatype Tls = Disable | Allow | Require

  /** h->opt_current. */
  datatype Opt = NoOpt | Go | Info | List | AbortOpt | ListMeta | SetMeta | StructuredReply | ExtendedHeaders | StartTls

  datatype Phase =
    | Start | CheckGflags | SendCflags
    | TlsStart | TlsReply | TlsHandshake | TlsDone
    | EhStart | EhReply | SrStart | SrReply
    | MetaStart | MetaReply | GoStart | GoReply | NameStart | NameReply | ListStart | ListReply
    | OldCheck | PrepareAbort | OptionShutdown | Finished
    | Negotiating | Ready | Dead | Closed

  /** What the program asked for.  tls, opt_mode and the requests for headers and replies can
      be set only before connecting. */
  datatype Settings = Settings(
    tls: Tls, optMode: bool, requestEh: bool, requestSr: bool, requestMeta: bool, contexts: seq<string>)

  datatype Context = Context(id: nat, name: string)

  /** What the server said about the export. */
  datatype Export = Export(size: nat, eflags: Eflags, minimum: nat, preferred: nat, maximum: nat, payload: nat)

  const NO_EXPORT: Export := Export(0, NO_FLAGS, 0, 0, 0, 0)

  /** A trace: was this part of the negotiated state received over TLS? */
  datatype Origin = Origin(sr: bool, eh: bool, x: bool, contexts: bool)

  /** opt_current, and whether opt_cb.fn and opt_cb.completion are set. */
  datatype Calls = Calls(opt: Opt, fnCb: bool, doneCb: bool)

  /** What has been agreed on: the protocol (gflags), TLS, structured replies, extended
      headers, and the metadata contexts. */
  datatype Agreed = Agreed(fixed: bool, tls: bool, sr: bool, eh: bool, metaValid: bool, contexts: seq<Context>)

  datatype Handle = Handle(phase: Phase, failed: bool, s: Settings, c: Calls, n: Agreed, x: Export, o: Origin)

  /** An option reply: whether its magic and option are the expected ones, its header, and
      what its payload says. */
  datatype Payload =
    | ExportInfo(size: nat, eflags: Eflags) | BlockSize(minimum: nat, preferred: nat, maximum: nat)
    | NameOrDescription | UnknownInfo | ContextName(id: nat, name: string) | NoPayload
  datatype Rep = Rep(ok: bool, reply: nat, len: nat, payload: Payload)

  /** What the world answers to a state: an I/O error, flags, a reply, and so on. */
  datatype Input =
    | IoError | Done | Flags(fixed: bool) | Reply(r: Rep) | Handshake(over: bool)
    | OldReply(gflags: nat, size: nat, eflags: Eflags)

  function To(h: Handle, p: Phase): Handle { h.(phase := p) }

  function Fail(h: Handle): Handle { h.(failed := true) }

  /** nbd_internal_free_option after the completion callback: opt_current stays. */
  function FreeOption(h: Handle): Handle
  {
    h.(c := h.c.(fnCb := h.c.fnCb && !(h.c.opt.List? || h.c.opt.ListMeta? || h.c.opt.SetMeta?), doneCb := false))
  }

  // ---- lib/flags.c ----

  function ResetSizeAndFlags(h: Handle): Handle { h.(x := NO_EXPORT) }

  /** Claims of the server that make no sense without what they build on are dropped. */
  function SaneFlags(sr: bool, eh: bool, e: Eflags): Eflags
  {
    e.(df := e.df && sr, blockStatusPayload := e.blockStatusPayload && eh, fastZero := e.fastZero && e.writeZeroes)
  }

  /** There are no contexts to ask the server for. */
  predicate NothingToRequest(h: Handle) { h.s.requestMeta && (!h.n.sr || h.s.contexts == []) }

  /** nbd_internal_set_size_and_flags; on an error, DEAD. */
  function SetSizeAndFlags(h: Handle, size: nat, eflags: Eflags): (g: Handle)
    ensures g.s == h.s
  {
    if eflags.IsZero() then To(h, Dead)
    else if NothingToRequest(h) && h.n.contexts != [] then Fail(h)
    else h.(n := h.n.(metaValid := h.n.metaValid || NothingToRequest(h)), o := h.o.(x := h.n.tls),
            x := h.x.(size := size, eflags := SaneFlags(h.n.sr, h.n.eh, eflags)))
  }

  predicate IsPow2(n: nat) { n > 0 && (n == 1 || (n % 2 == 0 && IsPow2(n / 2))) }

  predicate ProperBlockSize(min: nat, pref: nat, max: nat)
  {
    && 0 < min <= 64 * 1024 && min <= pref && 512 <= pref <= max && IsPow2(min) && IsPow2(pref)
    && (max == 0xffff_ffff || max % min == 0)
  }

  function SetBlockSize(h: Handle, min: nat, pref: nat, max: nat): Handle
  {
    if ProperBlockSize(min, pref, max) then h.(x := h.x.(minimum := min, preferred := pref, maximum := max)) else h
  }

  function SetPayload(h: Handle): Handle
  {
    h.(x := h.x.(payload :=
         if h.x.maximum != 0 then Min(MAX_REQUEST_SIZE, Max(1024 * 1024, h.x.maximum)) else 32 * 1024 * 1024))
  }

  /** nbd_can_meta_context. */
  function CanMetaContext(h: Handle, name: string): int
  {
    if h.s.contexts != [] && !h.n.metaValid then -1
    else if exists i | 0 <= i < |h.n.contexts| :: h.n.contexts[i].name == name then 1
    else 0
  }

  // ---- replies ----

  predicate IsErr(reply: nat) { reply / 0x8000_0000 % 2 == 1 }

  /** prepare_for_reply_payload accepts the reply header. */
  predicate Prepared(r: Rep)
  {
    && r.ok && (r.reply == NBD_REP_ACK ==> r.len == 0) && (r.reply == NBD_REP_INFO ==> r.len >= 2)
    && (r.reply == NBD_REP_META_CONTEXT ==> 4 < r.len <= 4 + NBD_MAX_STRING) && r.len <= MAX_REQUEST_SIZE
  }

  /** handle_reply_error accepts the reply as an error. */
  predicate IsError(r: Rep) { IsErr(r.reply) && r.len <= NBD_MAX_STRING }

  // ---- NEWSTYLE.START and the flags ----

  function OnStart(h: Handle): (g: Handle)
    ensures g.s == h.s
  {
    match h.c.opt
    case NoOpt => To(h, CheckGflags)
    case _ =>
      if !h.s.optMode then Fail(h)
      else match h.c.opt
        case Go => To(h, if h.n.fixed then MetaStart else NameStart)
        case Info => To(h, if h.n.fixed then MetaStart else NameStart)
        case List => To(h, ListStart)
        case AbortOpt => To(h, if h.n.fixed then PrepareAbort else Dead)
        case ListMeta => To(h, MetaStart)
        case SetMeta => To(h, MetaStart)
        case StructuredReply => To(h, SrStart)
        case ExtendedHeaders => To(h, EhStart)
        case StartTls => To(h, TlsStart)
        case NoOpt => h
  }

  function OnCheckGflags(h: Handle, offered: bool): (g: Handle)
    ensures g.s == h.s
  {
    var fixed := h.n.fixed && offered;
    if !fixed && h.s.tls.Require? then To(h.(n := h.n.(fixed := fixed)), Dead)
    else To(h.(n := h.n.(fixed := fixed)), SendCflags)
  }

  function OnSendCflags(h: Handle): (g: Handle)
    ensures g.s == h.s
  {
    To(h, if h.n.fixed then TlsStart else if h.s.optMode then Negotiating else NameStart)
  }

  // ---- OPT_STARTTLS ----

  function OnTlsStart(h: Handle): (g: Handle)
    ensures g.s == h.s
  {
    if !h.n.fixed then Fail(h)
    else if h.c.opt.StartTls? then (if h.s.optMode then To(h, TlsReply) else Fail(h))
    else if h.s.tls.Disable? then To(h, EhStart)
    else if h.c.doneCb then Fail(h)
    else To(h, TlsReply)
  }

  /** The server accepts TLS: what was negotiated in the clear is discarded. */
  function AcceptTls(h: Handle): Handle
  {
    To(ResetSizeAndFlags(h).(n := h.n.(sr := false, eh := false, metaValid := false)), TlsHandshake)
  }

  function OnTlsReply(h: Handle, r: Rep): (g: Handle)
    ensures g.s == h.s
  {
    if !Prepared(r) then To(h, Dead)
    else if r.reply == NBD_REP_ACK then (if h.n.tls then To(h, Dead) else AcceptTls(h))
    else if !IsError(r) then To(h, Dead)
    else if h.s.tls.Require? then To(h, PrepareAbort)
    else To(FreeOption(h), if h.c.opt.StartTls? then Negotiating else EhStart)
  }

  function OnTlsDone(h: Handle): (g: Handle)
    ensures g.s == h.s
  {
    To(FreeOption(h.(n := h.n.(tls := true))), if h.c.opt.StartTls? then Negotiating else EhStart)
  }

  // ---- OPT_EXTENDED_HEADERS, OPT_STRUCTURED_REPLY ----

  function OnEhStart(h: Handle): (g: Handle)
    ensures g.s == h.s
  {
    if !h.n.fixed then Fail(h)
    else if h.c.opt.ExtendedHeaders? then (if h.s.optMode then To(h, EhReply) else Fail(h))
    else if h.c.doneCb then Fail(h)
    else To(h, if h.s.requestEh && h.s.requestSr then EhReply else SrStart)
  }

  function OnEhReply(h: Handle, r: Rep): (g: Handle)
    ensures g.s == h.s
  {
    if !Prepared(r) || (r.reply != NBD_REP_ACK && !IsError(r)) then To(h, Dead)
    else
      var g :=
        if r.reply == NBD_REP_ACK then h.(n := h.n.(eh := true, sr := true), o := h.o.(eh := h.n.tls, sr := h.n.tls))
        else h;
      To(FreeOption(g), if h.c.opt.ExtendedHeaders? then Negotiating else SrStart)
  }

  function OnSrStart(h: Handle): (g: Handle)
    ensures g.s == h.s
  {
    if !h.n.fixed then Fail(h)
    else if h.c.opt.StructuredReply? then (if h.s.optMode then To(h, SrReply) else Fail(h))
    else if h.c.doneCb then Fail(h)
    else if h.s.requestSr && !h.n.sr then To(h, SrReply)
    else To(h, if h.s.optMode then Negotiating else MetaStart)
  }

  function OnSrReply(h: Handle, r: Rep): (g: Handle)
    ensures g.s == h.s
  {
    if !Prepared(r) || (r.reply != NBD_REP_ACK && !IsError(r)) then To(h, Dead)
    else
      var g := if r.reply == NBD_REP_ACK then h.(n := h.n.(sr := true), o := h.o.(sr := h.n.tls)) else h;
      To(FreeOption(g), if h.s.optMode then Negotiating else MetaStart)
  }

  // ---- OPT_META_CONTEXT ----

  function OnMetaStart(h: Handle): (g: Handle)
    ensures g.s == h.s
  {
    if !h.n.fixed then Fail(h)
    else if h.c.opt.ListMeta? then (if h.s.optMode && h.c.fnCb then To(h, MetaReply) else Fail(h))
    else if h.c.fnCb != h.c.opt.SetMeta? then Fail(h)
    else
      var g :=
        if h.s.requestMeta || h.c.opt.SetMeta? then
          h.(n := h.n.(contexts := [], metaValid := false), o := h.o.(contexts := h.n.tls))
        else h;
      To(g, if !h.c.opt.SetMeta? && (!h.s.requestMeta || !h.n.sr || h.s.contexts == []) then GoStart else MetaReply)
  }

  function OnMetaReply(h: Handle, r: Rep): (g: Handle)
    ensures g.s == h.s
  {
    if !Prepared(r) then To(h, Dead)
    else if r.reply == NBD_REP_ACK then
      var g := h.(n := h.n.(metaValid := h.n.metaValid || !h.c.opt.ListMeta?));
      if h.c.opt.ListMeta? || h.c.opt.SetMeta? then To(FreeOption(g), Negotiating) else To(g, GoStart)
    else if r.reply == NBD_REP_META_CONTEXT then
      if h.c.opt.ListMeta? || !r.payload.ContextName? then h
      else h.(n := h.n.(contexts := h.n.contexts + [Context(r.payload.id, r.payload.name)]))
    else if !IsError(r) then To(h, Dead)
    else if h.c.opt.ListMeta? || h.c.opt.SetMeta? then To(FreeOption(h), Negotiating)
    else To(h.(n := h.n.(metaValid := h.n.contexts == [])), GoStart)
  }

  // ---- OPT_GO, OPT_EXPORT_NAME, OPT_LIST ----

  function OnGoStart(h: Handle): (g: Handle)
    ensures g.s == h.s
  {
    var g := ResetSizeAndFlags(h);
    if !h.n.fixed then Fail(g)
    else if h.c.opt.Info? then (if h.s.optMode then To(g, GoReply) else Fail(g))
    else if h.c.opt.NoOpt? then
      (if h.s.optMode || h.c.doneCb then Fail(g) else To(g.(c := g.c.(opt := Opt.Go)), GoReply))
    else To(g, GoReply)
  }

  /** One NBD_REP_INFO; the loop goes on with the next reply. */
  function OnInfo(h: Handle, r: Rep): (g: Handle)
    ensures g.s == h.s
  {
    if r.len > MAX_OPTION_PAYLOAD then h
    else match r.payload
      case ExportInfo(size, eflags) => if r.len != 12 then To(h, Dead) else SetSizeAndFlags(h, size, eflags)
      case BlockSize(min, pref, max) => if r.len != 14 then To(h, Dead) else SetBlockSize(h, min, pref, max)
      case NameOrDescription => if r.len > 2 + NBD_MAX_STRING then To(h, Dead) else h
      case _ => h
  }

  function OnGoReply(h: Handle, r: Rep): (g: Handle)
    ensures g.s == h.s
  {
    if !Prepared(r) then To(h, Dead)
    else if r.reply == NBD_REP_INFO then OnInfo(h, r)
    else if r.reply == NBD_REP_ERR_UNSUP && h.c.opt.Go? then To(h, NameStart)
    else if r.reply == NBD_REP_ACK then
      var g := FreeOption(SetPayload(h));
      To(g, if h.c.opt.Go? then Finished else if h.s.optMode then Negotiating else PrepareAbort)
    else if !IsError(r) then To(h, Dead)
    else To(FreeOption(ResetSizeAndFlags(h).(n := h.n.(metaValid := false))),
            if h.s.optMode then Negotiating else PrepareAbort)
  }

  /** The reply to NBD_OPT_EXPORT_NAME. */
  function OnNameReply(h: Handle, size: nat, eflags: Eflags): (g: Handle)
    ensures g.s == h.s
  {
    var g := SetSizeAndFlags(h, size, eflags);
    if g.failed || g.phase.Dead? then g else To(FreeOption(SetPayload(g)), Finished)
  }

  function OnListStart(h: Handle): (g: Handle)
    ensures g.s == h.s
  {
    if !h.n.fixed || !h.s.optMode || !h.c.opt.List? || !h.c.fnCb then Fail(h) else To(h, ListReply)
  }

  /** NBD_OPT_LIST touches nothing that is negotiated. */
  function OnListReply(h: Handle, r: Rep): (g: Handle)
    ensures g.s == h.s
  {
    if !Prepared(r) then To(h, Dead)
    else if r.reply == NBD_REP_ACK || IsError(r) then To(FreeOption(h), Negotiating)
    else if r.reply == 2 then h
    else To(h, Dead)
  }

  // ---- OLDSTYLE ----

  function OnOldCheck(h: Handle, gflags: nat, size: nat, eflags: Eflags): (g: Handle)
    ensures g.s == h.s
  {
    if h.s.tls.Require? then To(h, Dead)
    else if gflags != 0 then To(h.(n := h.n.(fixed := gflags % 2 == 1)), Dead)
    else
      var g := SetSizeAndFlags(h.(n := h.n.(fixed := false)), size, eflags);
      if g.failed || g.phase.Dead? then g else To(SetPayload(g), Ready)
  }

  // ---- steps ----

  function Enter(h: Handle, i: Input): (g: Handle)
    ensures g.s == h.s
  {
    if i.IoError? then To(h, Dead)
    else match h.phase
      case Start => OnStart(h)
      case CheckGflags => if i.Flags? then OnCheckGflags(h, i.fixed) else h
      case SendCflags => OnSendCflags(h)
      case TlsStart => OnTlsStart(h)
      case TlsReply => if i.Reply? then OnTlsReply(h, i.r) else h
      case TlsHandshake => if i.Handshake? && i.over then To(h, TlsDone) else h
      case TlsDone => OnTlsDone(h)
      case EhStart => OnEhStart(h)
      case EhReply => if i.Reply? then OnEhReply(h, i.r) else h
      case SrStart => OnSrStart(h)
      case SrReply => if i.Reply? then OnSrReply(h, i.r) else h
      case MetaStart => OnMetaStart(h)
      case MetaReply => if i.Reply? then OnMetaReply(h, i.r) else h
      case GoStart => OnGoStart(h)
      case GoReply => if i.Reply? then OnGoReply(h, i.r) else h
      case NameStart => To(h, NameReply)
      case NameReply => if i.OldReply? then OnNameReply(h, i.size, i.eflags) else h
      case ListStart => OnListStart(h)
      case ListReply => if i.Reply? then OnListReply(h, i.r) else h
      case OldCheck => if i.OldReply? then OnOldCheck(h, i.gflags, i.size, i.eflags) else h
      case PrepareAbort => if h.n.fixed then To(h, OptionShutdown) else Fail(h)
      case OptionShutdown => To(h, if h.s.optMode then Closed else Dead)
      case Finished => To(h, Ready)
      case _ => h
  }

  /** The calls that are allowed while NEGOTIATING; `cb`: with a completion callback. */
  datatype Call =
    | CallOpt(opt: Opt, cb: bool) | SetExportName(different: bool) | SetRequestMeta(request: bool)
    | AddMetaContext(name: string) | ClearMetaContexts

  predicate CallOk(h: Handle, c: Call) { h.phase.Negotiating? && !(c.CallOpt? && c.opt.NoOpt?) }

  /** nbd_aio_opt_*: most options need the fixed newstyle protocol; opt_list and the meta
      context calls also set opt_cb.fn, which must be free. */
  function OnCall(h: Handle, c: Call): (g: Handle)
    ensures g.s.tls == h.s.tls && g.s.optMode == h.s.optMode
  {
    match c
    case SetExportName(different) => if different then ResetSizeAndFlags(h).(n := h.n.(metaValid := false)) else h
    case SetRequestMeta(request) => h.(s := h.s.(requestMeta := request))
    case AddMetaContext(name) => h.(s := h.s.(contexts := h.s.contexts + [name]))
    case ClearMetaContexts => h.(s := h.s.(contexts := []))
    case CallOpt(opt, cb) =>
      var fn := opt.List? || opt.ListMeta? || opt.SetMeta?;
      if !h.n.fixed && !opt.Go? && !opt.AbortOpt? then h
      else if fn && h.c.fnCb then Fail(h)
      else To(h.(c := Calls(opt, h.c.fnCb || fn, if opt.AbortOpt? then h.c.doneCb else cb)), Start)
  }

  datatype Label = Machine(i: Input) | User(c: Call)

  predicate Enabled(h: Handle, l: Label)
  {
    !h.failed && match l
      case Machine(i) => !(h.phase.Negotiating? || h.phase.Ready? || h.phase.Dead? || h.phase.Closed?)
      case User(c) => CallOk(h, c)
  }

  function Step(h: Handle, l: Label): Handle
  {
    match l
    case Machine(i) => Enter(h, i)
    case User(c) => OnCall(h, c)
  }

  /** A handle that has just recognized the server's magic. */
  predicate Fresh(h: Handle)
  {
    && (h.phase.Start? || h.phase.OldCheck?) && h.c.opt.NoOpt? && !h.c.fnCb && !h.c.doneCb && !h.n.tls
    && !h.n.sr && !h.n.eh && !h.n.metaValid && h.n.contexts == [] && h.x == NO_EXPORT && !h.failed
    && h.o == Origin(false, false, false, false)
  }

  predicate IsRun(hs: seq<Handle>, ls: seq<Label>)
  {
    && |hs| == |ls| + 1
    && forall k | 0 <= k < |ls| :: Enabled(hs[k], ls[k]) && hs[k + 1] == Step(hs[k], ls[k])
  }
}
