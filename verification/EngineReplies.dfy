/** What replies mean: for each kind of reply, what the client makes of its bytes, told with
    the numbers and the layout of the NBD protocol, in every run. */
module EngineReplies {
  import opened Bytes
  import opened BlockStatus
  import opened Nbd
  import opened Reply
  import opened Engine
  import opened EngineQuiet
  import opened EngineLedger
  import opened EngineSend
  import opened EngineParser
  import opened EngineSafety
  import opened EngineContent
  import opened ReadData
  import opened EngineReads

  // ---- a reply as the protocol has it ----

  /** The number in bytes [lo, hi) of a reply. */
  function Num(s: seq<byte>, lo: nat, hi: nat): nat { if lo <= hi <= |s| then Val(s[lo..hi]) else 0 }

  /** What follows the header of a chunk. */
  function Payload(extended: bool, s: seq<byte>): seq<byte>
  {
    var head := if extended then 32 else 20;
    if |s| >= head then s[head..] else []
  }

  /** The errno of an error number on the wire; those unknown are EINVAL. */
  function ErrnoNumber(e: nat): nat
  {
    match e
    case 0 => 0
    case 1 => 1
    case 5 => 5
    case 12 => 12
    case 28 => 28
    case 75 => 75
    case 95 => 95
    case 108 => 108
    case _ => 22
  }

  // ---- the moment at which a state acts ----

  /** The handle once the input of the step has arrived. */
  function Handed(h: Handle, io: Io): Handle
    requires IoOk(h, io)
  {
    if IsRecvState(h.state) && h.r.rlen > 0 && io.Got? then Deliver(h, io.bytes) else h
  }

  /** The step completes the buffer of its state, or needs none: the state acts. */
  predicate Completes(h: Handle, l: Label)
  {
    && l.Run? && IoOk(h, l.io) && IsReplyState(h.state) && !h.state.ReplyStart?
    && (IsRecvState(h.state) ==> Handed(h, l.io).r.rlen == 0)
  }

  /** The bytes of the reply at that moment. */
  function ReplyAt(h: Handle, l: Label): seq<byte>
    requires Completes(h, l)
  {
    Handed(h, l.io).r.reply
  }

  lemma EnterActs(u: User, h: Handle, io: Io)
    requires Parse(h) && IsReplyState(h.state) && !h.state.ReplyStart? && IoOk(h, io)
    requires IsRecvState(h.state) ==> Handed(h, io).r.rlen == 0
    ensures EnterReply(u, h, io) == Act(u, Handed(h, io))
  {
    hide Act, Pause, Deliver, Parse;
    if h.state.Resync? { ResyncDiscards(h); }
  }

  /** What is known of the handle that acts. */
  lemma ActingFacts(u: User, hs: seq<Handle>, ls: seq<Label>, m: nat)
    requires IsRun(u, hs, ls) && Fresh(hs[0]) && m < |ls| && Completes(hs[m], ls[m])
    ensures var h := hs[m]; var d := Handed(h, ls[m].io);
      && hs[m + 1] == Act(u, d) && Parse(d) && Content(d) && FlightOk(d) && !d.failed && !d.blocked
      && d.state == h.state && d.n == h.n && d.log == h.log && d.r.replyCmd == h.r.replyCmd && Ledger(h) && Parse(h)
      && SameReqs(h.q.inFlight, d.q.inFlight) && d.q.toIssue == h.q.toIssue && d.q.done == h.q.done
      && Current(d) == Current(h)
      && forall i | 0 <= i < |h.q.inFlight| :: d.q.inFlight[i].error == h.q.inFlight[i].error
  {
    hide Content, Parse, FlightOk, RestOk, Ledger, Step, Fresh, Deliver, Act;
    var h, l := hs[m], ls[m];
    assert Enabled(h, l) && hs[m + 1] == Step(u, h, l);
    assert !Over(h) by { NotOverHere(u, hs, ls, m); }
    RunContent(u, hs, ls, m);
    RunReads(u, hs, ls, m);
    RunLedger(u, hs, ls, m);
    RunIs(u, h, l);
    EnterActs(u, h, l.io);
    if IsRecvState(h.state) && h.r.rlen > 0 && l.io.Got? {
      DeliverFields(h, l.io.bytes);
      DeliverParse(h, l.io.bytes);
      DeliverContent(h, l.io.bytes);
      DeliverReads(h, l.io.bytes);
      DeliverQuiet(h, l.io.bytes);
      DeliverRest(h, l.io.bytes);
    } else {
      RestRefl(h);
    }
  }

  lemma RestRefl(h: Handle)
    ensures SameReqs(h.q.inFlight, h.q.inFlight)
  {
  }

  lemma DeliverRest(h: Handle, bytes: seq<byte>)
    requires |bytes| <= h.r.rlen
    ensures var d := Deliver(h, bytes);
      && d.log == h.log && SameReqs(h.q.inFlight, d.q.inFlight) && Current(d) == Current(h)
      && forall i | 0 <= i < |h.q.inFlight| :: d.q.inFlight[i].error == h.q.inFlight[i].error
  {
    hide Lookup, Overlay, FillsOutside;
    var d := Deliver(h, bytes);
    DeliverQuiet(h, bytes);
    QuietCur(h, d);
    SameCurrent(h, d);
  }

  lemma RunIs(u: User, h: Handle, l: Label)
    requires Enabled(h, l) && l.Run? && IsReplyState(h.state)
    ensures Step(u, h, l) == EnterReply(u, h, l.io)
  {
    hide EnterReply;
  }

  lemma NotOverHere(u: User, hs: seq<Handle>, ls: seq<Label>, m: nat)
    requires IsRun(u, hs, ls) && Fresh(hs[0]) && m < |ls| && Completes(hs[m], ls[m])
    ensures !Over(hs[m])
  {
    hide Step, Fresh, Completes;
    assert Enabled(hs[m], ls[m]) && ls[m].Run? && IsReplyState(hs[m].state) by { CompletesRuns(hs[m], ls[m]); }
    RunSend(u, hs, ls, m);
  }

  lemma CompletesRuns(h: Handle, l: Label)
    requires Completes(h, l)
    ensures l.Run? && IsReplyState(h.state)
  {
  }

  /** The fields of the header are where the protocol has them. */
  lemma HeaderNumbers(h: Handle)
    requires h.r.hdr <= h.r.reply && |h.r.hdr| >= 16
    ensures var s := h.r.reply;
      && Magic(h) == Num(s, 0, 4) && SimpleError(h) == Num(s, 4, 8) && ReplyFlags(h) == Num(s, 4, 6)
      && ReplyType(h) == Num(s, 6, 8) && Cookie(h) == Num(s, 8, 16)
    ensures |h.r.hdr| == ChunkHeaderLen(h) ==>
      ReplyLength(h) == (if h.n.extended then Num(h.r.reply, 24, 32) else Num(h.r.reply, 16, 20))
  {
    var s, t := h.r.hdr, h.r.reply;
    assert s[0..4] == t[0..4] && s[4..8] == t[4..8] && s[4..6] == t[4..6] && s[6..8] == t[6..8] && s[8..16] == t[8..16];
    if |s| == ChunkHeaderLen(h) {
      assert if h.n.extended then s[24..32] == t[24..32] else s[16..20] == t[16..20];
    }
  }

  // ---- the magic ----

  /** In every run, when the first part of a reply is there: it is taken for a simple reply, a
      structured chunk or an extended one exactly if it begins with the magic of one that was
      negotiated, and otherwise the connection is given up; and reply_cmd is the command in
      flight whose cookie is in bytes 8 to 16, if there is one. */
  lemma MagicDecides(u: User, hs: seq<Handle>, ls: seq<Label>, m: nat)
    requires IsRun(u, hs, ls) && Fresh(hs[0]) && m < |ls| && hs[m].state.CheckReplyMagic? && Completes(hs[m], ls[m])
    ensures var s := ReplyAt(hs[m], ls[m]); var g, extended := hs[m + 1], hs[m].n.extended; var magic := Num(s, 0, 4);
      && |s| == (if extended then 32 else 16)
      && (g.state.SimpleStart? <==> magic == 0x67446698 && !extended)
      && (g.state.RecvStructuredRemaining? <==> magic == 0x668e33ef && !extended)
      && (g.state.ChunkStart? <==> magic == 0x6e8a278c && extended)
      && (g.state.SimpleStart? || g.state.RecvStructuredRemaining? || g.state.ChunkStart? || g.state.Dead?)
      && (!g.state.Dead? ==>
            if exists i :: 0 <= i < |hs[m].q.inFlight| && hs[m].q.inFlight[i].req.cookie == Num(s, 8, 16)
            then g.r.replyCmd == Some(Num(s, 8, 16)) else g.r.replyCmd.None?)
  {
    hide Step, Fresh, Field, Parse, Lookup, Num, Ledger, FlightOk, Acts;
    ActingFacts(u, hs, ls, m);
    var h := hs[m];
    PreambleThere(h);
    HeaderNumbers(h);
    MagicActs(u, h);
  }

  lemma MagicActs(u: User, h: Handle)
    requires h.state.CheckReplyMagic?
    ensures Act(u, h) == OnCheckReplyMagic(h)
  {
    hide OnCheckReplyMagic;
  }

  lemma PreambleThere(h: Handle)
    requires Parse(h) && h.state.CheckReplyMagic?
    ensures |h.r.hdr| == PreambleLen(h)
  {
    hide AtHeader, AtPayload, AtEnd, Matched;
  }

  // ---- block status ----

  /** A list of descriptors on the wire: lengths and flags of 4 or of 8 bytes, in order. */
  function Encode(narrow: bool, ds: seq<Desc>): (s: seq<byte>)
    ensures |s| == |ds| * if narrow then 8 else 16
  {
    if ds == [] then []
    else
      var w := if narrow then 4 else 8;
      BE(ds[0].length, w) + BE(ds[0].flags, w) + Encode(narrow, ds[1..])
  }

  predicate FitDescs(narrow: bool, ds: seq<Desc>)
  {
    forall i | 0 <= i < |ds| ::
      ds[i].length < (if narrow then U32 else U64) && ds[i].flags < if narrow then U32 else U64
  }

  lemma {:induction false} EncodeAt(narrow: bool, ds: seq<Desc>, i: nat)
    requires i < |ds|
    ensures var w := if narrow then 4 else 8; var s := Encode(narrow, ds);
      && 2 * w * i + 2 * w <= |s|
      && s[2 * w * i..2 * w * i + w] == BE(ds[i].length, w)
      && s[2 * w * i + w..2 * w * i + 2 * w] == BE(ds[i].flags, w)
  {
    hide BE;
    var w := if narrow then 4 else 8;
    var s, rest := Encode(narrow, ds), Encode(narrow, ds[1..]);
    var first := BE(ds[0].length, w) + BE(ds[0].flags, w);
    assert s == first + rest && |first| == 2 * w;
    if i > 0 {
      EncodeAt(narrow, ds[1..], i - 1);
      var k := 2 * w * (i - 1);
      assert 2 * w * i == 2 * w + k;
      assert s[2 * w + k..2 * w + k + w] == rest[k..k + w];
      assert s[2 * w + k + w..2 * w + k + 2 * w] == rest[k + w..k + 2 * w];
    } else {
      assert s[0..w] == BE(ds[0].length, w) && s[w..2 * w] == BE(ds[0].flags, w);
    }
  }

  /** Decoding inverts encoding. */
  lemma {:induction false} DescsDecode(narrow: bool, ds: seq<Desc>, i: nat)
    requires i <= |ds| && FitDescs(narrow, ds)
    ensures Descs(Encode(narrow, ds), narrow, i, |ds|) == ds[i..]
    decreases |ds| - i
  {
    hide Encode, BE, Val;
    if i < |ds| {
      DescsDecode(narrow, ds, i + 1);
      EncodeAt(narrow, ds, i);
      Pow256Values();
      var w := if narrow then 4 else 8;
      ValBE(ds[i].length, w);
      ValBE(ds[i].flags, w);
      assert Descs(Encode(narrow, ds), narrow, i, |ds|)[0] == ds[i];
      assert ds[i..] == [ds[i]] + ds[i + 1..];
    }
  }

  /** The payload of a block status chunk: the context, with extended headers the number of
      descriptors, and the descriptors. */
  function StatusPayload(narrow: bool, id: nat, ds: seq<Desc>): seq<byte>
  {
    BE(id, 4) + (if narrow then [] else BE(|ds|, 4)) + Encode(narrow, ds)
  }

  /** The callback that a block status chunk leads to. */
  function StatusEvent(h: Handle, cmd: Command, narrow: bool, name: nat, ds: seq<Desc>): Event
  {
    var left := if cmd.req.offset <= h.n.exportsize then h.n.exportsize - cmd.req.offset else 0;
    var cooked := Cook(Mode(narrow, cmd.req.wide, left), ds, cmd.error);
    ExtentCb(cmd.req.cookie, name, cmd.req.offset, cooked.list, cooked.err)
  }

  /** The error of the command afterwards: that of the cooked list, or what the callback says if
      there is none; 71 is EPROTO. */
  function StatusError(u: User, log: seq<Event>, error: nat): nat
  {
    if error != 0 || u(log).ret != -1 then error else if u(log).err != 0 then u(log).err else 71
  }

  /** The first context with this number. */
  predicate Names(ids: seq<nat>, id: nat, name: nat)
  {
    name < |ids| && ids[name] == id && forall k | 0 <= k < name :: ids[k] != id
  }

  lemma {:induction false} ContextNames(ids: seq<nat>, id: nat)
    ensures match Context(ids, id) case Some(name) => Names(ids, id, name) case None => id !in ids
  {
    if ids != [] && ids[0] != id {
      ContextNames(ids[1..], id);
      match Context(ids[1..], id)
      case None => assert ids == [ids[0]] + ids[1..];
      case Some(k) =>
        assert ids[k + 1] == ids[1..][k];
        assert forall j | 0 < j < k + 1 :: ids[j] == ids[1..][j - 1];
    }
  }

  /** Where the parts of the payload are when all of it is there. */
  lemma StatusBuffers(d: Handle)
    requires Parse(d) && Content(d) && d.state.RecvBsEntries? && d.r.rlen == 0
    ensures var narrow := ReplyType(d) == 5;
      var k, w := (if narrow then 4 else 8), if narrow then 8 else 16;
      && |d.r.hdr| == (if d.n.extended then 32 else 20) && d.r.hdr <= d.r.reply && |d.r.pay| == k
      && Payload(d.n.extended, d.r.reply) == d.r.pay + d.r.aux
      && |d.r.aux| == d.r.bsCount * w && d.r.bsCount > 0 && d.n.metaValid
      && Current(d).Some? && d.q.inFlight[Current(d).value].req.kind.BlockStatusCmd?
  {
    hide Field, Lookup, Matched, EarlyResync, BsLengthOk, ReplyType, Taken, AtEnd, AtHeader, AtPreamble;
    assert d.r.hdr + d.r.pay + d.r.aux == d.r.hdr + (d.r.pay + d.r.aux);
  }

  /** In every run, when a block status chunk is complete: if its payload is the encoding of a
      context and a list of descriptors, the extent callback is made for that context with the
      list cooked for the command, and the command has the error of the cooked list or that of
      the callback; nothing happens for an unknown context. */
  lemma StatusReported(u: User, hs: seq<Handle>, ls: seq<Label>, m: nat, id: nat, ds: seq<Desc>) returns (i: nat)
    requires IsRun(u, hs, ls) && Fresh(hs[0]) && m < |ls| && hs[m].state.RecvBsEntries? && Completes(hs[m], ls[m])
    requires var s := ReplyAt(hs[m], ls[m]); var narrow := Num(s, 6, 8) == 5;
      && id < U32 && FitDescs(narrow, ds) && Payload(hs[m].n.extended, s) == StatusPayload(narrow, id, ds)
    ensures var h, g, s := hs[m], hs[m + 1], ReplyAt(hs[m], ls[m]); var narrow := Num(s, 6, 8) == 5;
      && i < |h.q.inFlight| && h.q.inFlight[i].req.cookie == Num(s, 8, 16) && h.q.inFlight[i].req.kind.BlockStatusCmd?
      && |g.q.inFlight| == |h.q.inFlight|
      && (id !in h.n.contexts ==> g.log == h.log && g.q.inFlight[i].error == h.q.inFlight[i].error)
      && (forall name: nat | Names(h.n.contexts, id, name) ::
            var e := StatusEvent(h, h.q.inFlight[i], narrow, name, ds);
            g.log == h.log + [e] && g.q.inFlight[i].error == StatusError(u, g.log, e.error))
  {
    hide Step, Fresh, Field, Lookup, Ledger, FlightOk, Acts, Content, Parse, StatusPayload, FitDescs, Payload, Act, Num,
         CookedFor;
    ActingFacts(u, hs, ls, m);
    var d := Handed(hs[m], ls[m].io);
    StatusBuffers(d);
    HeaderNumbers(d);
    i := Current(d).value;
    assert d.q.inFlight[i].req.cookie == Cookie(d) by { CurrentCookie(d); }
    var narrow := ReplyType(d) == 5;
    PayloadParts(d.r.pay, d.r.aux, d.r.bsCount, narrow, id, ds);
    ContextNames(d.n.contexts, id);
    StatusActs(u, d, i, narrow, id, ds);
    assert forall name: nat | Names(d.n.contexts, id, name) :: Context(d.n.contexts, id) == Some(name) by {
      forall name: nat | Names(d.n.contexts, id, name) ensures Context(d.n.contexts, id) == Some(name) {
        OneName(d.n.contexts, id, name);
      }
    }
  }

  lemma OneName(ids: seq<nat>, id: nat, name: nat)
    requires Names(ids, id, name)
    ensures Context(ids, id) == Some(name)
  {
    ContextNames(ids, id);
    assert ids[name] in ids;
    match Context(ids, id)
    case None =>
    case Some(k) => assert !(k < name) && !(name < k);
  }

  lemma CurrentCookie(d: Handle)
    requires Parse(d) && Current(d).Some?
    ensures d.q.inFlight[Current(d).value].req.cookie == Cookie(d)
  {
    hide At, Saved, Field;
  }

  lemma PayloadParts(pay: seq<byte>, aux: seq<byte>, count: nat, narrow: bool, id: nat, ds: seq<Desc>)
    requires |pay| == (if narrow then 4 else 8) && |aux| == count * (if narrow then 8 else 16) && id < U32
    requires pay + aux == StatusPayload(narrow, id, ds) && FitDescs(narrow, ds)
    ensures Field(pay, 0, 4) == id && count == |ds| && Descs(aux, narrow, 0, count) == ds
  {
    hide Encode, BE, Val, FitDescs;
    var front := BE(id, 4) + (if narrow then [] else BE(|ds|, 4));
    var all := pay + aux;
    assert front + Encode(narrow, ds) == all;
    assert pay == all[..|pay|] == front && aux == all[|pay|..] == Encode(narrow, ds);
    assert pay[0..4] == BE(id, 4);
    Pow256Values();
    ValBE(id, 4);
    DescsDecode(narrow, ds, 0);
    assert ds[0..] == ds;
  }

  lemma StatusActs(u: User, d: Handle, i: nat, narrow: bool, id: nat, ds: seq<Desc>)
    requires d.state.RecvBsEntries? && Current(d) == Some(i) && d.q.inFlight[i].req.kind.BlockStatusCmd?
    requires narrow == (ReplyType(d) == 5) && d.r.bsCount == |ds| > 0 && d.n.metaValid
    requires Field(d.r.pay, 0, 4) == id && Descs(d.r.aux, narrow, 0, d.r.bsCount) == ds
    ensures var g := Act(u, d);
      && |g.q.inFlight| == |d.q.inFlight|
      && match Context(d.n.contexts, id)
         case None => g.log == d.log && g.q.inFlight[i].error == d.q.inFlight[i].error
         case Some(name) =>
           var e := StatusEvent(d, d.q.inFlight[i], narrow, name, ds);
           g.log == d.log + [e] && g.q.inFlight[i].error == StatusError(u, g.log, e.error)
  {
    hide Acts, Lookup, Field, Context, Cook, Descs;
  }
}
