/** The libnbd handle during the transmission phase: commands, buffers, lists, and the
    helpers that every state uses. */
module Nbd {
  import opened Bytes
  import opened BlockStatus

  const NBD_REQUEST_MAGIC: nat := 0x25609513
  const NBD_EXTENDED_REQUEST_MAGIC: nat := 0x21e41c71
  const NBD_SIMPLE_REPLY_MAGIC: nat := 0x67446698
  const NBD_STRUCTURED_REPLY_MAGIC: nat := 0x668e33ef
  const NBD_EXTENDED_REPLY_MAGIC: nat := 0x6e8a278c
  const NBD_REPLY_TYPE_NONE: nat := 0
  const NBD_REPLY_TYPE_OFFSET_DATA: nat := 1
  const NBD_REPLY_TYPE_OFFSET_HOLE: nat := 2
  const NBD_REPLY_TYPE_BLOCK_STATUS: nat := 5
  const NBD_REPLY_TYPE_BLOCK_STATUS_EXT: nat := 6
  const NBD_REPLY_TYPE_ERROR_OFFSET: nat := 0x8002
  const NBD_CMD_FLAG_PAYLOAD_LEN: nat := 32
  const NBD_MAX_STRING: nat := 4096
  const ENOTCONN: nat := 107

  /** nbd_internal_errno_of_nbd_error, with the errno values of Linux. */
  function ErrnoOf(error: nat): nat
  {
    if error in {0, 1, 5, 12, 22, 28, 75, 95, 108} then error else 22
  }

  datatype Kind = Read | Write | Disc | Flush | Trim | Cache | WriteZeroes | BlockStatusCmd
  {
    function Code(): nat
    {
      match this
      case Read => 0 case Write => 1 case Disc => 2 case Flush => 3
      case Trim => 4 case Cache => 5 case WriteZeroes => 6 case BlockStatusCmd => 7
    }
  }

  /** A stretch of a read buffer that a reply covers: `bytes` are those received so far,
      for a hole nothing is received. */
  datatype Piece = Piece(at: nat, len: nat, bytes: seq<byte>, hole: bool)

  /** The fields of struct command that never change after it was queued.  `before` is a
      trace: the caller's buffer at that time. */
  datatype Request = Request(
    kind: Kind, flags: nat, cookie: nat, offset: nat, count: nat, initialized: bool, wide: bool,
    hasChunk: bool, hasCompletion: bool, before: seq<byte>)

  /** struct command.  `pieces` is a trace: the parts of a read buffer that replies have
      claimed, in order. */
  datatype Command = Command(req: Request, data: seq<byte>, dataSeen: nat, error: nat, pieces: seq<Piece>)
  {
    /** if (cmd->error == 0) cmd->error = e */
    function FailWith(e: nat): Command { if error == 0 then this.(error := e) else this }
  }

  datatype State =
    | Ready | Dead | Closed
    | IssueStart | SendRequest | PauseSendRequest | PrepareWritePayload | SendWritePayload | PauseWritePayload
    | SendWriteShutdown | PauseWriteShutdown | IssueFinish
    | ReplyStart | RecvReply | CheckReplyMagic | RecvStructuredRemaining
    | SimpleStart | RecvReadPayload
    | ChunkStart | RecvError | RecvErrorMessage | RecvErrorTail | RecvOffsetData | RecvOffsetDataData
    | RecvOffsetHole | RecvBsHeader | RecvBsEntries | Resync | ChunkFinish
    | FinishCommand

  /** Where h->rbuf points: the header, the fixed part of a payload, a second buffer (error
      message, error offset, raw descriptors), the current command's data, or nowhere. */
  datatype Target = ToHdr | ToPay | ToAux | ToData | Discard

  datatype ChunkStatus = DataChunk | HoleChunk | ErrorChunk

  /** What the handle did that someone can see: user callbacks, and the bookkeeping events
      that the theorems speak about. */
  datatype Event =
    | Queued(cookie: nat, notify: bool)
    | ChunkCb(cookie: nat, bytes: seq<byte>, offset: nat, status: ChunkStatus, error: nat)
    | ExtentCb(cookie: nat, context: nat, offset: nat, list: seq<Desc>, error: nat)
    | CompletionCb(cookie: nat, error: nat)
    | Flagged(cookie: nat)
    | Retired(cookie: nat)
    | Reported(cookie: nat, success: bool)

  /** A callback's return value and what it left in *error. */
  datatype Answer = Answer(ret: int, err: nat)

  /** The user's callbacks: any function of everything that happened before. */
  type User = seq<Event> -> Answer

  /** What was negotiated before the transmission phase. */
  datatype Negotiated = Negotiated(
    extended: bool, structured: bool, metaValid: bool, contexts: seq<nat>, exportsize: nat)

  /** The receiving half of the handle.  `hdr`, `pay` and `aux` are the parts of sbuf and
      bs_raw, as far as they have been received; `replyCmd` is the cookie of h->reply_cmd;
      `reply` is a trace: the bytes of the current reply received so far. */
  datatype Receiver = Receiver(
    rlen: nat, target: Target, hdr: seq<byte>, pay: seq<byte>, aux: seq<byte>, payloadLeft: nat, bsCount: nat,
    replyCmd: Option<nat>, replyState: Option<State>, reply: seq<byte>)

  /** The sending half; `sent` and `issued` are traces of bytes and commands that went out. */
  datatype Sender = Sender(
    req: seq<byte>, wbuf: seq<byte>, inWritePayload: bool, inWriteShutdown: bool, sent: seq<byte>, issued: seq<Command>)

  /** The command lists and their counters. */
  datatype Queues = Queues(
    toIssue: seq<Command>, inFlight: seq<Command>, done: seq<Command>, inFlightCount: int, unique: nat,
    disconnecting: bool)

  /** struct nbd_handle.  `blocked`: the state machine waits for an external event.  Traces:
      `log`, `overrun` (a write left its buffer) and `failed` (an assertion of the original
      did not hold). */
  datatype Handle = Handle(
    state: State, blocked: bool, n: Negotiated, r: Receiver, w: Sender, q: Queues,
    log: seq<Event>, overrun: bool, failed: bool)

  /** SET_NEXT_STATE. */
  function Go(h: Handle, s: State): Handle { h.(state := s, blocked := false) }

  /** Return without SET_NEXT_STATE. */
  function Block(h: Handle): Handle { h.(blocked := true) }

  /** An assertion of the original fails and the program stops. */
  function Fail(h: Handle): Handle { h.(failed := true, blocked := true) }

  function Log(h: Handle, e: Event): Handle { h.(log := h.log + [e]) }

  /** The first command of a list with this cookie. */
  function Lookup(list: seq<Command>, cookie: nat): (r: Option<nat>)
    ensures r.Some? ==> r.value < |list| && list[r.value].req.cookie == cookie
    ensures r.None? ==> forall i | 0 <= i < |list| :: list[i].req.cookie != cookie
  {
    if list == [] then None
    else if list[0].req.cookie == cookie then Some(0)
    else match Lookup(list[1..], cookie)
      case None => None
      case Some(i) => Some(i + 1)
  }

  /** Where the command that the current reply is about stands in the in-flight list. */
  function Current(h: Handle): (r: Option<nat>)
    ensures r.Some? ==> r.value < |h.q.inFlight|
  {
    if h.r.replyCmd.None? then None else Lookup(h.q.inFlight, h.r.replyCmd.value)
  }

  function Put(h: Handle, i: nat, cmd: Command): (g: Handle)
    requires i < |h.q.inFlight|
    ensures g == h.(q := g.q) && g.q == h.q.(inFlight := g.q.inFlight) && |g.q.inFlight| == |h.q.inFlight|
  {
    h.(q := h.q.(inFlight := h.q.inFlight[i := cmd]))
  }

  // ---- fields of the reply header ----

  function Field(s: seq<byte>, lo: nat, hi: nat): nat { if lo <= hi <= |s| then Val(s[lo..hi]) else 0 }

  function Magic(h: Handle): nat { Field(h.r.hdr, 0, 4) }
  function SimpleError(h: Handle): nat { Field(h.r.hdr, 4, 8) }
  function ReplyFlags(h: Handle): nat { Field(h.r.hdr, 4, 6) }
  function ReplyType(h: Handle): nat { Field(h.r.hdr, 6, 8) }
  function Cookie(h: Handle): nat { Field(h.r.hdr, 8, 16) }
  function ReplyOffset(h: Handle): nat { Field(h.r.hdr, 16, 24) }
  function ReplyLength(h: Handle): nat { if h.n.extended then Field(h.r.hdr, 24, 32) else Field(h.r.hdr, 16, 20) }

  /** The size of the first part of a reply header, and of a whole chunk header. */
  function PreambleLen(h: Handle): nat { if h.n.extended then 32 else 16 }
  function ChunkHeaderLen(h: Handle): nat { if h.n.extended then 32 else 20 }

  predicate LastChunk(h: Handle) { ReplyFlags(h) % 2 == 1 }
  predicate IsErrorType(t: nat) { t / 0x8000 % 2 == 1 }

  // ---- receiving ----

  /** The result of a system call that a state makes. */
  datatype Io = Got(bytes: seq<byte>) | Sent(n: nat) | Again | Eof | Error | Flag(b: bool)

  /** `data` with `bytes` laid over it from `at` on; bytes beyond its end are dropped. */
  function Overlay(data: seq<byte>, at: nat, bytes: seq<byte>): (r: seq<byte>)
    ensures |r| == |data|
    ensures forall x | 0 <= x < |data| :: r[x] == if at <= x < at + |bytes| then bytes[x - at] else data[x]
  {
    seq(|data|, x requires 0 <= x < |data| => if at <= x < at + |bytes| then bytes[x - at] else data[x])
  }

  /** Bytes arriving in a read buffer, at the place the last piece has reached. */
  function Fill(cmd: Command, bytes: seq<byte>): Command
    requires cmd.pieces != []
  {
    var n := |cmd.pieces| - 1;
    var p := cmd.pieces[n];
    cmd.(data := Overlay(cmd.data, p.at + |p.bytes|, bytes), pieces := cmd.pieces[n := p.(bytes := p.bytes + bytes)])
  }

  predicate FillsOutside(cmd: Command, bytes: seq<byte>)
    requires cmd.pieces != []
  {
    var p := cmd.pieces[|cmd.pieces| - 1];
    p.at + |p.bytes| + |bytes| > |cmd.data|
  }

  /** recv stored `bytes` at h->rbuf. */
  function Deliver(h: Handle, bytes: seq<byte>): Handle
    requires |bytes| <= h.r.rlen
  {
    var g := h.(r := h.r.(rlen := h.r.rlen - |bytes|, reply := h.r.reply + bytes));
    match h.r.target
    case ToHdr => g.(r := g.r.(hdr := h.r.hdr + bytes))
    case ToPay => g.(r := g.r.(pay := h.r.pay + bytes))
    case ToAux => g.(r := g.r.(aux := h.r.aux + bytes))
    case Discard => g
    case ToData =>
      match Current(h)
      case None => g.(overrun := true)
      case Some(i) =>
        if h.q.inFlight[i].pieces == [] then g.(overrun := true)
        else Put(g, i, Fill(h.q.inFlight[i], bytes)).(overrun := h.overrun || FillsOutside(h.q.inFlight[i], bytes))
  }
}
