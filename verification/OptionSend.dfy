/** Sending NBD_OPT_SET_META_CONTEXT, NBD_OPT_LIST_META_CONTEXT, NBD_OPT_GO and NBD_OPT_INFO:
    the length announced in the option header is the length of what follows it. */
module OptionSend {
  import opened Bytes

  const NBD_NEW_VERSION: nat := 0x4948_4156_454F_5054
  const NBD_INFO_NAME: nat := 1
  const NBD_INFO_DESCRIPTION: nat := 2
  const NBD_INFO_BLOCK_SIZE: nat := 3
  const HEADER: nat := 16

  /** struct nbd_new_option; the length goes through a uint32_t. */
  function OptionHeader(option: nat, len: nat): (h: seq<byte>)
    ensures |h| == HEADER
  {
    BE(NBD_NEW_VERSION, 8) + BE(option, 4) + BE(len % U32, 4)
  }

  /** The length that a server reads from an option header. */
  function AnnouncedLength(sent: seq<byte>): nat
    requires |sent| >= HEADER
  {
    Val(sent[12..16])
  }

  lemma HeaderAnnounces(option: nat, len: nat, payload: seq<byte>)
    ensures AnnouncedLength(OptionHeader(option, len) + payload) == len % U32
  {
    var h := OptionHeader(option, len);
    assert (h + payload)[12..16] == BE(len % U32, 4);
    Pow256Values();
    ValBE(len % U32, 4);
  }

  /** What a server sees: "IHAVEOPT", the option, a length and the data. */
  predicate SeenAs(sent: seq<byte>, option: nat, data: seq<byte>)
  {
    && |sent| >= 16 && sent[..8] == [0x49, 0x48, 0x41, 0x56, 0x45, 0x4f, 0x50, 0x54]
    && Val(sent[8..12]) == option && sent[16..] == data
  }

  lemma HeaderSeen(option: nat, len: nat, data: seq<byte>)
    requires option < U32
    ensures SeenAs(OptionHeader(option, len) + data, option, data)
  {
    var h := OptionHeader(option, len);
    assert (h + data)[..8] == BE(NBD_NEW_VERSION, 8) && (h + data)[8..12] == BE(option, 4);
    MagicBytes();
    Pow256Values();
    ValBE(option, 4);
  }

  lemma MagicBytes()
    ensures BE(NBD_NEW_VERSION, 8) == [0x49, 0x48, 0x41, 0x56, 0x45, 0x4f, 0x50, 0x54]
  {
    assert BE(0x4948_4156, 4) == [0x49, 0x48, 0x41, 0x56];
    assert BE(0x4948_4156_454F, 6) == [0x49, 0x48, 0x41, 0x56, 0x45, 0x4f];
  }

  // ---- the data of the options ----

  function LengthPrefixed(s: seq<byte>): seq<byte> { BE(|s|, 4) + s }

  function QueryBytes(queries: seq<seq<byte>>): seq<byte>
  {
    if queries == [] then [] else QueryBytes(queries[..|queries| - 1]) + LengthPrefixed(queries[|queries| - 1])
  }

  /** A request for meta contexts: the option, the export name and the queries. */
  datatype Meta = Meta(option: nat, name: seq<byte>, queries: seq<seq<byte>>)

  function MetaData(m: Meta): seq<byte> { LengthPrefixed(m.name) + BE(|m.queries|, 4) + QueryBytes(m.queries) }

  lemma QueryBytesSnoc(queries: seq<seq<byte>>, k: nat)
    requires k < |queries|
    ensures QueryBytes(queries[..k + 1]) == QueryBytes(queries[..k]) + LengthPrefixed(queries[k])
  {
    assert queries[..k + 1][..k] == queries[..k];
  }

  lemma ModAdd(a: nat, b: nat)
    ensures (a % U32 + b) % U32 == (a + b) % U32
  {
  }

  /** The loop that adds up the option length, in 32 bits. */
  method MetaOptionLength(m: Meta) returns (len: nat)
    ensures len == |MetaData(m)| % U32
  {
    len := (4 + |m.name| + 4) % U32;
    var i := 0;
    while i < |m.queries|
      invariant i <= |m.queries| && len == (4 + |m.name| + 4 + |QueryBytes(m.queries[..i])|) % U32
    {
      QueryBytesSnoc(m.queries, i);
      ModAdd(4 + |m.name| + 4 + |QueryBytes(m.queries[..i])|, 4 + |m.queries[i]|);
      len := (len + 4 + |m.queries[i]|) % U32;
      i := i + 1;
    }
    assert m.queries[..i] == m.queries;
  }

  // ---- the states of OPT_META_CONTEXT ----

  datatype MetaState =
    | Send | SendExportNameLen | SendExportName | SendNrQueries
    | PrepareNextQuery | SendQueryLen | SendQuery | PrepareForReply

  /** wbuf, querynum and, as a trace, everything sent. */
  datatype Sender<S> = Sender(state: S, wbuf: seq<byte>, querynum: nat, sent: seq<byte>)

  /** send_from_wbuf sends `n` bytes; when nothing is left, `next` says what to send. */
  function SendFrom<S>(s: Sender<S>, n: nat, state: S, wbuf: seq<byte>): Sender<S>
  {
    if n >= |s.wbuf| then s.(state := state, wbuf := wbuf, sent := s.sent + s.wbuf)
    else s.(wbuf := s.wbuf[n..], sent := s.sent + s.wbuf[..n])
  }

  /** OPT_META_CONTEXT.START; querynum is what an earlier option left. */
  function MetaStart(m: Meta, querynum: nat): Sender<MetaState>
  {
    Sender(Send, OptionHeader(m.option, |MetaData(m)|), querynum, [])
  }

  /** One entry of a state, in which send takes `n` bytes. */
  function MetaStep(m: Meta, s: Sender<MetaState>, n: nat): Sender<MetaState>
  {
    match s.state
    case Send => SendFrom(s, n, SendExportNameLen, BE(|m.name|, 4))
    case SendExportNameLen => SendFrom(s, n, SendExportName, m.name)
    case SendExportName => SendFrom(s, n, SendNrQueries, BE(|m.queries|, 4))
    case SendNrQueries => SendFrom(if n >= |s.wbuf| then s.(querynum := 0) else s, n, PrepareNextQuery, [])
    case PrepareNextQuery =>
      if s.querynum >= |m.queries| then s.(state := PrepareForReply)
      else s.(state := SendQueryLen, wbuf := BE(|m.queries[s.querynum]|, 4))
    case SendQueryLen => SendFrom(s, n, SendQuery, if s.querynum < |m.queries| then m.queries[s.querynum] else [])
    case SendQuery => SendFrom(if n >= |s.wbuf| then s.(querynum := s.querynum + 1) else s, n, PrepareNextQuery, [])
    case PrepareForReply => s
  }

  /** What has been handed to the socket once the parts up to the current one are sent. */
  function MetaUpTo(m: Meta, k: nat): seq<byte>
    requires k <= |m.queries|
  {
    OptionHeader(m.option, |MetaData(m)|) + (LengthPrefixed(m.name) + BE(|m.queries|, 4) + QueryBytes(m.queries[..k]))
  }

  /** querynum counts the queries that have been sent. */
  predicate InQueries(m: Meta, s: Sender<MetaState>)
  {
    && (s.state.PrepareNextQuery? || s.state.PrepareForReply? ==> s.querynum <= |m.queries|)
    && (s.state.SendQueryLen? || s.state.SendQuery? ==> s.querynum < |m.queries|)
  }

  function MetaCommitted(m: Meta, s: Sender<MetaState>): seq<byte>
    requires InQueries(m, s)
  {
    var h := OptionHeader(m.option, |MetaData(m)|);
    match s.state
    case Send => h
    case SendExportNameLen => h + BE(|m.name|, 4)
    case SendExportName => h + LengthPrefixed(m.name)
    case SendNrQueries => h + (LengthPrefixed(m.name) + BE(|m.queries|, 4))
    case PrepareNextQuery => MetaUpTo(m, s.querynum)
    case SendQueryLen => MetaUpTo(m, s.querynum) + BE(|m.queries[s.querynum]|, 4)
    case SendQuery => MetaUpTo(m, s.querynum) + LengthPrefixed(m.queries[s.querynum])
    case PrepareForReply => MetaUpTo(m, |m.queries|)
  }

  predicate MetaInv(m: Meta, s: Sender<MetaState>)
  {
    && InQueries(m, s) && s.sent + s.wbuf == MetaCommitted(m, s)
    && (s.state.PrepareNextQuery? || s.state.PrepareForReply? ==> s.wbuf == [])
  }

  lemma MetaStepInv(m: Meta, s: Sender<MetaState>, n: nat)
    requires MetaInv(m, s)
    ensures MetaInv(m, MetaStep(m, s, n))
  {
    hide OptionHeader, QueryBytes, BE;
    var g := MetaStep(m, s, n);
    var h := OptionHeader(m.option, |MetaData(m)|);
    if n < |s.wbuf| && g.state == s.state {
      assert g.sent + g.wbuf == s.sent + s.wbuf;
    } else {
      match s.state
      case SendNrQueries => assert m.queries[..0] == []; NoQueries(m);
      case SendQuery => QueryBytesSnoc(m.queries, s.querynum); MetaUpToSnoc(m, s.querynum);
      case PrepareNextQuery => assert s.querynum >= |m.queries| ==> m.queries[..s.querynum] == m.queries[..|m.queries|];
      case SendQueryLen => LongerQuery(m, s.querynum);
      case SendExportNameLen => assert (h + BE(|m.name|, 4)) + m.name == h + LengthPrefixed(m.name);
      case SendExportName =>
        var name, count := LengthPrefixed(m.name), BE(|m.queries|, 4);
        assert (h + name) + count == h + (name + count);
      case _ =>
    }
  }

  lemma NoQueries(m: Meta)
    ensures MetaUpTo(m, 0) == OptionHeader(m.option, |MetaData(m)|) + (LengthPrefixed(m.name) + BE(|m.queries|, 4))
  {
    assert QueryBytes(m.queries[..0]) == [];
  }

  lemma MetaUpToSnoc(m: Meta, k: nat)
    requires k < |m.queries|
    ensures MetaUpTo(m, k + 1) == MetaUpTo(m, k) + LengthPrefixed(m.queries[k])
  {
    hide OptionHeader;
    QueryBytesSnoc(m.queries, k);
  }

  lemma LongerQuery(m: Meta, k: nat)
    requires k < |m.queries|
    ensures (MetaUpTo(m, k) + BE(|m.queries[k]|, 4)) + m.queries[k] == MetaUpTo(m, k) + LengthPrefixed(m.queries[k])
  {
  }

  /** The states passed when send takes ns[0], ns[1], ... bytes. */
  predicate IsMetaRun(m: Meta, ss: seq<Sender<MetaState>>, ns: seq<nat>)
  {
    && |ss| == |ns| + 1 && ss[0] == MetaStart(m, ss[0].querynum)
    && forall k {:trigger ns[k]} | 0 <= k < |ns| :: ss[k + 1] == MetaStep(m, ss[k], ns[k])
  }

  lemma {:induction false} MetaRunInv(m: Meta, ss: seq<Sender<MetaState>>, ns: seq<nat>, n: nat)
    requires IsMetaRun(m, ss, ns) && n < |ss|
    ensures MetaInv(m, ss[n])
  {
    hide MetaInv, MetaStep, MetaStart;
    if n == 0 {
      MetaStartInv(m, ss[0].querynum);
    } else {
      MetaRunInv(m, ss, ns, n - 1);
      assert ss[n] == MetaStep(m, ss[n - 1], ns[n - 1]);
      MetaStepInv(m, ss[n - 1], ns[n - 1]);
    }
  }

  lemma MetaStartInv(m: Meta, stale: nat)
    ensures MetaInv(m, MetaStart(m, stale))
  {
  }

  /** However the kernel cuts the writes: when the reply is awaited, the option header and
      exactly the encoded export name and queries have been sent; the length in the header is
      the number of bytes after it, if and only if that fits in 32 bits; and then a server reads
      back the option, the name and the queries. */
  lemma MetaOptionComplete(m: Meta, ss: seq<Sender<MetaState>>, ns: seq<nat>, n: nat)
    requires IsMetaRun(m, ss, ns) && n < |ss| && ss[n].state.PrepareForReply?
    ensures var sent := ss[n].sent;
      && sent == OptionHeader(m.option, |MetaData(m)|) + MetaData(m)
      && (AnnouncedLength(sent) == |sent| - HEADER <==> |MetaData(m)| < U32)
      && (m.option < U32 ==> SeenAs(sent, m.option, MetaData(m)))
      && (|MetaData(m)| < U32 ==> ReadMeta(MetaData(m)) == Some((m.name, m.queries)))
  {
    hide OptionHeader, MetaStep, QueryBytes, AnnouncedLength, IsMetaRun, MetaInv, ReadMeta;
    MetaRunInv(m, ss, ns, n);
    MetaAllSent(m, ss[n]);
    HeaderAnnounces(m.option, |MetaData(m)|, MetaData(m));
    if m.option < U32 { HeaderSeen(m.option, |MetaData(m)|, MetaData(m)); }
    if |MetaData(m)| < U32 {
      QueriesFit(m.queries);
      MetaRoundTrip(m);
    }
  }

  /** The queries, and each of them, are no longer than what encodes them. */
  lemma {:induction false} QueriesFit(queries: seq<seq<byte>>)
    ensures |queries| <= |QueryBytes(queries)|
    ensures forall i | 0 <= i < |queries| :: |queries[i]| <= |QueryBytes(queries)|
  {
    if queries != [] {
      var n := |queries| - 1;
      QueriesFit(queries[..n]);
      forall i | 0 <= i < |queries| ensures |queries[i]| <= |QueryBytes(queries)| {
        if i < n { assert queries[..n][i] == queries[i]; }
      }
    }
  }

  lemma MetaAllSent(m: Meta, s: Sender<MetaState>)
    requires MetaInv(m, s) && s.state.PrepareForReply?
    ensures s.sent == OptionHeader(m.option, |MetaData(m)|) + MetaData(m)
  {
    hide OptionHeader, QueryBytes;
    assert s.sent + s.wbuf == s.sent;
    assert m.queries[..|m.queries|] == m.queries;
  }

  // ---- what the server reads back ----

  /** Read one length-prefixed string: the string and the rest. */
  function TakeString(s: seq<byte>): Option<(seq<byte>, seq<byte>)>
  {
    if |s| < 4 then None
    else
      var n := Val(s[..4]);
      if |s| - 4 < n then None else Some((s[4..4 + n], s[4 + n..]))
  }

  lemma TakePrefixed(s: seq<byte>, rest: seq<byte>)
    requires |s| < U32
    ensures TakeString(LengthPrefixed(s) + rest) == Some((s, rest))
  {
    var t := LengthPrefixed(s) + rest;
    assert t[..4] == BE(|s|, 4);
    Pow256Values();
    ValBE(|s|, 4);
    assert t[4..4 + |s|] == s && t[4 + |s|..] == rest;
  }

  /** Read `n` strings that fill `s`. */
  function TakeStrings(s: seq<byte>, n: nat): Option<seq<seq<byte>>>
    decreases n
  {
    if n == 0 then (if s == [] then Some([]) else None)
    else match TakeString(s)
      case None => None
      case Some((q, rest)) =>
        match TakeStrings(rest, n - 1)
        case None => None
        case Some(qs) => Some([q] + qs)
  }

  /** The queries from the first on, as they stand on the wire. */
  lemma {:induction false} QueryBytesCons(queries: seq<seq<byte>>)
    requires queries != []
    ensures QueryBytes(queries) == LengthPrefixed(queries[0]) + QueryBytes(queries[1..])
  {
    hide LengthPrefixed;
    var n := |queries| - 1;
    if n > 0 {
      QueryBytesCons(queries[..n]);
      assert queries[..n][1..] == queries[1..][..n - 1];
      assert queries[1..][n - 1] == queries[n];
    } else {
      assert queries[..0] == [] && queries[1..] == [];
    }
  }

  lemma {:induction false} TakeAllQueries(queries: seq<seq<byte>>)
    requires forall i | 0 <= i < |queries| :: |queries[i]| < U32
    ensures TakeStrings(QueryBytes(queries), |queries|) == Some(queries)
    decreases |queries|
  {
    hide LengthPrefixed, TakeString;
    if queries != [] {
      QueryBytesCons(queries);
      TakePrefixed(queries[0], QueryBytes(queries[1..]));
      TakeAllQueries(queries[1..]);
      assert [queries[0]] + queries[1..] == queries;
    }
  }

  /** A server that follows the protocol. */
  function ReadMeta(data: seq<byte>): Option<(seq<byte>, seq<seq<byte>>)>
  {
    match TakeString(data)
    case None => None
    case Some((name, rest)) =>
      if |rest| < 4 then None
      else match TakeStrings(rest[4..], Val(rest[..4]))
        case None => None
        case Some(queries) => Some((name, queries))
  }

  /** The server reads back the name and the queries. */
  lemma MetaRoundTrip(m: Meta)
    requires |m.name| < U32 && |m.queries| < U32 && forall i | 0 <= i < |m.queries| :: |m.queries[i]| < U32
    ensures ReadMeta(MetaData(m)) == Some((m.name, m.queries))
  {
    hide LengthPrefixed, TakeString;
    var rest := BE(|m.queries|, 4) + QueryBytes(m.queries);
    assert MetaData(m) == LengthPrefixed(m.name) + rest;
    TakePrefixed(m.name, rest);
    assert rest[..4] == BE(|m.queries|, 4) && rest[4..] == QueryBytes(m.queries);
    Pow256Values();
    ValBE(|m.queries|, 4);
    TakeAllQueries(m.queries);
  }

  // ---- OPT_GO ----

  datatype GoRequest = GoRequest(option: nat, name: seq<byte>, blockSize: bool, fullInfo: bool)

  function NrInfos(g: GoRequest): nat { (if g.blockSize then 1 else 0) + (if g.fullInfo then 2 else 0) }

  function InfoBytes(g: GoRequest): (s: seq<byte>)
    ensures |s| == 2 * NrInfos(g)
  {
    (if g.blockSize then BE(NBD_INFO_BLOCK_SIZE, 2) else []) +
    (if g.fullInfo then BE(NBD_INFO_NAME, 2) + BE(NBD_INFO_DESCRIPTION, 2) else [])
  }

  /** The length that OPT_GO.START computes. */
  function GoLength(g: GoRequest): nat { 4 + |g.name| + 2 + 2 * NrInfos(g) }

  function GoData(g: GoRequest): seq<byte> { LengthPrefixed(g.name) + BE(NrInfos(g), 2) + InfoBytes(g) }

  datatype GoState = GoSend | GoSendNameLen | GoSendName | GoSendNrInfos | GoSendInfo | GoRecvReply

  function GoStart(g: GoRequest): Sender<GoState> { Sender(GoSend, OptionHeader(g.option, GoLength(g)), 0, []) }

  function GoStep(g: GoRequest, s: Sender<GoState>, n: nat): Sender<GoState>
  {
    match s.state
    case GoSend => SendFrom(s, n, GoSendNameLen, BE(|g.name|, 4))
    case GoSendNameLen => SendFrom(s, n, GoSendName, g.name)
    case GoSendName => SendFrom(s, n, GoSendNrInfos, BE(NrInfos(g), 2))
    case GoSendNrInfos => SendFrom(s, n, GoSendInfo, InfoBytes(g))
    case GoSendInfo => SendFrom(s, n, GoRecvReply, [])
    case GoRecvReply => s
  }

  function GoCommitted(g: GoRequest, state: GoState): seq<byte>
  {
    OptionHeader(g.option, GoLength(g)) +
    match state
      case GoSend => []
      case GoSendNameLen => BE(|g.name|, 4)
      case GoSendName => LengthPrefixed(g.name)
      case GoSendNrInfos => LengthPrefixed(g.name) + BE(NrInfos(g), 2)
      case _ => GoData(g)
  }

  predicate GoInv(g: GoRequest, s: Sender<GoState>)
  {
    s.sent + s.wbuf == GoCommitted(g, s.state) && (s.state.GoRecvReply? ==> s.wbuf == [])
  }

  lemma GoStepInv(g: GoRequest, s: Sender<GoState>, n: nat)
    requires GoInv(g, s)
    ensures GoInv(g, GoStep(g, s, n))
  {
    hide OptionHeader, BE, InfoBytes;
    var h, t := OptionHeader(g.option, GoLength(g)), GoStep(g, s, n);
    if n < |s.wbuf| && t.state == s.state {
      assert t.sent + t.wbuf == s.sent + s.wbuf;
    } else {
      match s.state
      case GoSend => assert (h + []) + BE(|g.name|, 4) == h + BE(|g.name|, 4);
      case GoSendNameLen => assert (h + BE(|g.name|, 4)) + g.name == h + LengthPrefixed(g.name);
      case GoSendName =>
        var name, count := LengthPrefixed(g.name), BE(NrInfos(g), 2);
        assert (h + name) + count == h + (name + count);
      case GoSendNrInfos => assert (h + (LengthPrefixed(g.name) + BE(NrInfos(g), 2))) + InfoBytes(g) == h + GoData(g);
      case _ =>
    }
  }

  predicate IsGoRun(g: GoRequest, ss: seq<Sender<GoState>>, ns: seq<nat>)
  {
    && |ss| == |ns| + 1 && ss[0] == GoStart(g)
    && forall k {:trigger ns[k]} | 0 <= k < |ns| :: ss[k + 1] == GoStep(g, ss[k], ns[k])
  }

  lemma {:induction false} GoRunInv(g: GoRequest, ss: seq<Sender<GoState>>, ns: seq<nat>, n: nat)
    requires IsGoRun(g, ss, ns) && n < |ss|
    ensures GoInv(g, ss[n])
  {
    hide GoStep, OptionHeader, GoData;
    if n > 0 {
      GoRunInv(g, ss, ns, n - 1);
      assert ss[n] == GoStep(g, ss[n - 1], ns[n - 1]);
      GoStepInv(g, ss[n - 1], ns[n - 1]);
    }
  }

  /** Read `n` 16-bit numbers that fill `s`. */
  function TakeNumbers(s: seq<byte>, n: nat): Option<seq<nat>>
    decreases n
  {
    if n == 0 then (if s == [] then Some([]) else None)
    else if |s| < 2 then None
    else match TakeNumbers(s[2..], n - 1)
      case None => None
      case Some(ks) => Some([Val(s[..2])] + ks)
  }

  /** A server reads the export name and the information that is asked for. */
  function ReadGo(data: seq<byte>): Option<(seq<byte>, seq<nat>)>
  {
    match TakeString(data)
    case None => None
    case Some((name, rest)) =>
      if |rest| < 2 then None
      else match TakeNumbers(rest[2..], Val(rest[..2]))
        case None => None
        case Some(infos) => Some((name, infos))
  }

  /** NBD_INFO_BLOCK_SIZE is 3, NBD_INFO_NAME 1 and NBD_INFO_DESCRIPTION 2. */
  function Infos(g: GoRequest): seq<nat> { (if g.blockSize then [3] else []) + if g.fullInfo then [1, 2] else [] }

  lemma TakeOne(k: nat, rest: seq<byte>, n: nat)
    requires k < U16 && TakeNumbers(rest, n).Some?
    ensures TakeNumbers(BE(k, 2) + rest, n + 1) == Some([k] + TakeNumbers(rest, n).value)
  {
    var s := BE(k, 2) + rest;
    assert s[..2] == BE(k, 2) && s[2..] == rest;
    Pow256Values();
    ValBE(k, 2);
  }

  lemma TakeInfos(g: GoRequest)
    ensures TakeNumbers(InfoBytes(g), NrInfos(g)) == Some(Infos(g))
  {
    hide BE;
    var tail := if g.fullInfo then BE(1, 2) + BE(2, 2) else [];
    if g.fullInfo {
      TakeOne(2, [], 0);
      assert BE(2, 2) + [] == BE(2, 2);
      assert TakeNumbers(BE(2, 2), 1).value == [2];
      TakeOne(1, BE(2, 2), 1);
      assert TakeNumbers(tail, 2).value == [1, 2];
    }
    if g.blockSize {
      TakeOne(3, tail, if g.fullInfo then 2 else 0);
      assert InfoBytes(g) == BE(3, 2) + tail;
    } else {
      assert InfoBytes(g) == tail && Infos(g) == if g.fullInfo then [1, 2] else [];
    }
  }

  lemma GoRoundTrip(g: GoRequest)
    requires |g.name| < U32
    ensures ReadGo(GoData(g)) == Some((g.name, Infos(g)))
  {
    hide LengthPrefixed, TakeString, TakeNumbers, InfoBytes, BE;
    var rest := BE(NrInfos(g), 2) + InfoBytes(g);
    assert GoData(g) == LengthPrefixed(g.name) + rest;
    TakePrefixed(g.name, rest);
    assert rest[..2] == BE(NrInfos(g), 2) && rest[2..] == InfoBytes(g);
    Pow256Values();
    ValBE(NrInfos(g), 2);
    TakeInfos(g);
  }

  /** The same for NBD_OPT_GO and NBD_OPT_INFO. */
  lemma GoOptionComplete(g: GoRequest, ss: seq<Sender<GoState>>, ns: seq<nat>, n: nat)
    requires IsGoRun(g, ss, ns) && n < |ss| && ss[n].state.GoRecvReply?
    ensures var sent := ss[n].sent;
      && sent == OptionHeader(g.option, GoLength(g)) + GoData(g)
      && (AnnouncedLength(sent) == |sent| - HEADER <==> |GoData(g)| < U32)
      && (g.option < U32 ==> SeenAs(sent, g.option, GoData(g)))
      && (|GoData(g)| < U32 ==> ReadGo(GoData(g)) == Some((g.name, Infos(g))))
  {
    hide OptionHeader, GoStep, AnnouncedLength, IsGoRun, ReadGo, InfoBytes;
    GoRunInv(g, ss, ns, n);
    assert ss[n].sent + ss[n].wbuf == ss[n].sent;
    HeaderAnnounces(g.option, GoLength(g), GoData(g));
    if g.option < U32 { HeaderSeen(g.option, GoLength(g), GoData(g)); }
    if |GoData(g)| < U32 { GoRoundTrip(g); }
  }

  // ---- the same as an object ----

  /** The part of the handle that OPT_META_CONTEXT sends with. */
  class MetaSender {
    const m: Meta
    var state: MetaState
    var wbuf: seq<byte>
    var querynum: nat
    /** Everything sent: a trace. */
    var sent: seq<byte>

    ghost function Model(): Sender<MetaState>
      reads this
    {
      Sender(state, wbuf, querynum, sent)
    }

    /** OPT_META_CONTEXT.START. */
    constructor (m: Meta, querynum: nat)
      ensures this.m == m && Model() == MetaStart(m, querynum) && MetaInv(m, Model())
    {
      this.m := m;
      this.querynum := querynum;
      state, sent := Send, [];
      var len := MetaOptionLength(m);
      wbuf := OptionHeader(m.option, len);
      new;
      ModTwice(|MetaData(m)|);
      MetaStartInv(m, querynum);
    }

    /** send_from_wbuf, of which the kernel takes `k` bytes: true when nothing is left. */
    method SendFromWbuf(k: nat) returns (empty: bool)
      modifies this`wbuf, this`sent
      ensures empty <==> k >= |old(wbuf)|
      ensures wbuf == (if empty then [] else old(wbuf)[k..])
      ensures sent == old(sent) + if empty then old(wbuf) else old(wbuf)[..k]
      ensures sent + wbuf == old(sent) + old(wbuf)
    {
      empty := k >= |wbuf|;
      if empty {
        sent, wbuf := sent + wbuf, [];
      } else {
        sent, wbuf := sent + wbuf[..k], wbuf[k..];
      }
    }

    /** One entry of a state: the state is the specified one, and when the reply is awaited all
        of the option has been sent and nothing else. */
    method Enter(k: nat)
      requires MetaInv(m, Model())
      modifies this
      ensures Model() == MetaStep(m, old(Model()), k) && MetaInv(m, Model())
      ensures state.PrepareForReply? ==> sent == OptionHeader(m.option, |MetaData(m)|) + MetaData(m)
    {
      hide MetaInv, OptionHeader;
      MetaStepInv(m, Model(), k);
      if state.PrepareNextQuery? {
        if querynum >= |m.queries| {
          state := PrepareForReply;
        } else {
          state, wbuf := SendQueryLen, BE(|m.queries[querynum]|, 4);
        }
      } else if !state.PrepareForReply? {
        var empty := SendFromWbuf(k);
        if empty { NextPart(); }
      }
      if state.PrepareForReply? { MetaAllSent(m, Model()); }
    }

    /** The buffer is empty: what comes next. */
    method NextPart()
      requires wbuf == [] && !state.PrepareNextQuery? && !state.PrepareForReply?
      modifies this`state, this`wbuf, this`querynum
      ensures state == match old(state)
        case Send => SendExportNameLen case SendExportNameLen => SendExportName case SendExportName => SendNrQueries
        case SendQueryLen => SendQuery case _ => PrepareNextQuery
      ensures wbuf == match old(state)
        case Send => BE(|m.name|, 4) case SendExportNameLen => m.name case SendExportName => BE(|m.queries|, 4)
        case SendQueryLen => (if querynum < |m.queries| then m.queries[querynum] else []) case _ => []
      ensures querynum ==
        if old(state).SendQuery? then old(querynum) + 1 else if old(state).SendNrQueries? then 0 else old(querynum)
    {
      match state
      case Send => state, wbuf := SendExportNameLen, BE(|m.name|, 4);
      case SendExportNameLen => state, wbuf := SendExportName, m.name;
      case SendExportName => state, wbuf := SendNrQueries, BE(|m.queries|, 4);
      case SendNrQueries => state, querynum := PrepareNextQuery, 0;
      case SendQueryLen => state, wbuf := SendQuery, if querynum < |m.queries| then m.queries[querynum] else [];
      case SendQuery => state, querynum := PrepareNextQuery, querynum + 1;
    }
  }

  lemma ModTwice(n: nat)
    ensures (n % U32) % U32 == n % U32
  {
  }
}
