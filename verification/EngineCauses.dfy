/** No error without a cause: what can make a command in flight fail. */
module EngineCauses {
  import opened Bytes
  import opened BlockStatus
  import opened Nbd
  import opened Reply
  import opened Engine
  import opened EngineQuiet
  import opened EngineLedger
  import opened EngineSend
  import opened EngineParser
  import opened EngineSafety
  import opened EngineErrors
  import opened EngineHistory
  import opened EngineContent
  import opened EngineReads
  import opened EngineReplies

  /** The user's callback, the last thing that happened, failed. */
  predicate Objects(u: User, g: Handle) { u(g.log).ret == -1 }

  /** What state `d` can blame the command of its reply for: an error number or a simple reply
      where chunks were due, a block status chunk of the wrong kind, an error chunk, a chunk that
      is skipped, a malformed list of extents, or a callback that fails. */
  predicate Blames(u: User, d: Handle, g: Handle, cmd: Command)
  {
    match d.state
    case SimpleStart => SimpleError(d) != 0 || (cmd.req.kind.Read? && d.n.structured)
    case ChunkStart => (ReplyType(d) == 5 && d.n.extended) || (ReplyType(d) == 6 && !d.n.extended)
    case RecvError => true
    case RecvErrorTail => true
    case Resync => true
    case RecvBsEntries =>
      g.log != [] && var e := g.log[|g.log| - 1]; e.ExtentCb? && (e.error != 0 || Objects(u, g))
    case RecvReadPayload => cmd.req.hasChunk && Objects(u, g)
    case RecvOffsetDataData => cmd.req.hasChunk && Objects(u, g)
    case RecvOffsetHole => cmd.req.hasChunk && Objects(u, g)
    case _ => false
  }

  /** Command `j` gets an error in the state. */
  predicate Fails(d: Handle, g: Handle, j: nat)
  {
    j < |d.q.inFlight| == |g.q.inFlight| && d.q.inFlight[j].error == 0 != g.q.inFlight[j].error
  }

  lemma HeaderBlames(u: User, d: Handle, j: nat)
    requires d.state.RecvReply? || d.state.CheckReplyMagic? || d.state.RecvStructuredRemaining?
             || d.state.RecvErrorMessage?
             || d.state.RecvBsHeader? || d.state.ChunkFinish?
    ensures !Fails(d, Act(u, d), j)
  {
    hide Acts, Field, Current, Lookup, OnSimpleStart, OnChunkStart, OnRecvError, OnRecvErrorTail, OnRecvBsEntries,
         OnRecvOffsetData, OnRecvOffsetHole, OnResync, OnFinishCommand, OnRecvReadPayload, OnRecvOffsetDataData,
         BsLengthOk, Magic;
  }

  lemma SimpleBlames(u: User, d: Handle, j: nat)
    requires d.state.SimpleStart? && Fails(d, Act(u, d), j)
    ensures Current(d) == Some(j) && Blames(u, d, Act(u, d), d.q.inFlight[j])
  {
    hide Acts, Field, Lookup;
  }

  lemma TypeBlames(h: Handle, i: nat, length: nat, t: nat, j: nat)
    requires i < |h.q.inFlight| && h.r.payloadLeft == length && Fails(h, OnChunkType(h, i, length, t), j)
    ensures i == j && ((t == 5 && h.n.extended) || (t == 6 && !h.n.extended))
  {
    hide Acts, BsLengthOk, IsErrorType, LastChunk;
  }

  lemma ChunkBlames(u: User, d: Handle, j: nat)
    requires d.state.ChunkStart? && Fails(d, Act(u, d), j)
    ensures Current(d) == Some(j) && Blames(u, d, Act(u, d), d.q.inFlight[j])
  {
    hide Acts, Field, Lookup, Current, ReplyOffset, ReplyLength, OnChunkType;
    if ReplyLength(d) <= MAX_REQUEST_SIZE + 8 && !EarlyResync(d) {
      var k := d.(r := d.r.(payloadLeft := ReplyLength(d)));
      TypeBlames(k, Current(d).value, ReplyLength(d), ReplyType(d), j);
    }
  }

  lemma BodyBlames(u: User, d: Handle, j: nat)
    requires d.state.RecvError? || d.state.Resync? || d.state.RecvOffsetData?
    requires Fails(d, Act(u, d), j)
    ensures Current(d) == Some(j) && Blames(u, d, Act(u, d), d.q.inFlight[j])
  {
    hide Acts, Field, Lookup, Current, InBounds, Seen, ErrnoOf;
  }

  lemma TailBlames(u: User, d: Handle, j: nat)
    requires d.state.RecvErrorTail? && Fails(d, Act(u, d), j)
    ensures Current(d) == Some(j)
  {
    hide Acts, Field, Lookup, Current, InBounds, ErrnoOf, ReplyType;
  }

  lemma CallbackBlames(u: User, d: Handle, j: nat)
    requires d.state.RecvReadPayload? || d.state.RecvOffsetDataData?
    requires Fails(d, Act(u, d), j)
    ensures Current(d) == Some(j) && Blames(u, d, Act(u, d), d.q.inFlight[j])
  {
    hide Acts, Field, Lookup, Current, Slice;
  }

  lemma HoleBlames(u: User, d: Handle, j: nat)
    requires d.state.RecvOffsetHole? && Fails(d, Act(u, d), j)
    ensures Current(d) == Some(j) && Blames(u, d, Act(u, d), d.q.inFlight[j])
  {
    hide Acts, Field, Lookup, Current, Slice, Overlay, InBounds, Seen;
  }

  lemma StatusBlames(u: User, d: Handle, j: nat)
    requires d.state.RecvBsEntries? && Fails(d, Act(u, d), j)
    ensures Current(d) == Some(j) && Blames(u, d, Act(u, d), d.q.inFlight[j])
  {
    hide Acts, Field, Lookup, Current, Context, CookedFor;
  }

  lemma ActBlames(u: User, d: Handle, j: nat)
    requires IsReplyState(d.state) && !d.state.ReplyStart? && !d.state.FinishCommand? && Fails(d, Act(u, d), j)
    ensures Current(d) == Some(j) && Blames(u, d, Act(u, d), d.q.inFlight[j])
  {
    hide Act, Blames, Fails, Current;
    match d.state
    case SimpleStart => SimpleBlames(u, d, j);
    case ChunkStart => ChunkBlames(u, d, j);
    case RecvErrorTail => TailBlames(u, d, j); AlwaysBlamed(u, d, Act(u, d), d.q.inFlight[j]);
    case RecvReadPayload => CallbackBlames(u, d, j);
    case RecvOffsetDataData => CallbackBlames(u, d, j);
    case RecvOffsetHole => HoleBlames(u, d, j);
    case RecvBsEntries => StatusBlames(u, d, j);
    case RecvError => BodyBlames(u, d, j);
    case Resync => BodyBlames(u, d, j);
    case RecvOffsetData => BodyBlames(u, d, j);
    case _ => HeaderBlames(u, d, j);
  }

  lemma AlwaysBlamed(u: User, d: Handle, g: Handle, cmd: Command)
    requires d.state.RecvErrorTail?
    ensures Blames(u, d, g, cmd)
  {
  }

  // ---- every step ----

  /** The step acts on a reply that blames the command. */
  predicate Caused(u: User, h: Handle, l: Label, g: Handle, j: nat)
  {
    && Completes(h, l) && Current(h) == Some(j) && j < |h.q.inFlight|
    && Blames(u, Handed(h, l.io), g, h.q.inFlight[j])
  }

  lemma PauseFailsNone(h: Handle)
    ensures Pause(h).q == h.q
  {
  }

  lemma ReplyCaused(u: User, h: Handle, io: Io, j: nat)
    requires Parse(h) && IsReplyState(h.state) && !h.blocked && IoOk(h, io) && !h.state.FinishCommand?
    requires Fails(h, EnterReply(u, h, io), j)
    ensures Caused(u, h, Run(io), EnterReply(u, h, io), j)
  {
    hide Act, Pause, Deliver, Parse, EnterReplyStart, Blames, Lookup;
    if h.state.ReplyStart? {
      StartSame(h, io);
    } else if IsRecvState(h.state) && h.r.rlen > 0 {
      if h.state.Resync? { ResyncDiscards(h); }
      if io.Got? {
        var d := Deliver(h, io.bytes);
        DeliverFields(h, io.bytes);
        DeliverRest(h, io.bytes);
        PauseFailsNone(d);
        if d.r.rlen == 0 {
          ActBlames(u, d, j);
          SameBlame(u, d, Act(u, d), d.q.inFlight[j], h.q.inFlight[j]);
        }
      } else {
        PauseFailsNone(h);
      }
    } else {
      if h.state.Resync? { ResyncDiscards(h); }
      ActBlames(u, h, j);
    }
  }

  lemma StartSame(h: Handle, io: Io)
    requires IoOk(h, io)
    ensures EnterReplyStart(h, io).q == h.q
  {
  }

  lemma SameBlame(u: User, d: Handle, g: Handle, a: Command, b: Command)
    requires a.req == b.req && Blames(u, d, g, a)
    ensures Blames(u, d, g, b)
  {
  }

  lemma FinishSpares(u: User, h: Handle, j: nat)
    requires j < |h.q.inFlight| && h.q.inFlight[j].error == 0 && Ledger(h)
    ensures var g := OnFinishCommand(u, h); var k := h.q.inFlight[j].req.cookie;
      Clean(g.q.inFlight, k) || Lookup(g.q.inFlight, k).None?
  {
    hide Lookup, Complete, Acts, Field, Ledger, Clean;
    var k := h.q.inFlight[j].req.cookie;
    var g := OnFinishCommand(u, h);
    match Lookup(h.q.inFlight, Cookie(h))
    case None => CleanAt(h.q.inFlight, j);
    case Some(i) =>
      var rest := h.q.inFlight[..i] + h.q.inFlight[i + 1..];
      if g.q.inFlight != rest {
        CleanAt(h.q.inFlight, j);
      } else if i == j {
        forall x | 0 <= x < |rest| ensures rest[x].req.cookie != k {
          var y := if x < i then x else x + 1;
          assert rest[x] == h.q.inFlight[y];
          if rest[x].req.cookie == k { Alone(h, y, i); }
        }
      } else {
        var x := if j < i then j else j - 1;
        assert rest[x] == h.q.inFlight[j];
        CleanAt(rest, x);
      }
  }

  /** In every run, a command in flight gets an error only from a reply with its cookie that
      blames it. */
  lemma ErrorHasCause(u: User, hs: seq<Handle>, ls: seq<Label>, m: nat, j: nat)
    requires IsRun(u, hs, ls) && Fresh(hs[0]) && m < |ls| && j < |hs[m].q.inFlight| && hs[m].q.inFlight[j].error == 0
    requires var k := hs[m].q.inFlight[j].req.cookie;
      Lookup(hs[m + 1].q.inFlight, k).Some? && !Clean(hs[m + 1].q.inFlight, k)
    ensures Caused(u, hs[m], ls[m], hs[m + 1], j)
  {
    hide Fresh, Ledger, Parse, EnterReply, EnterEnd, EnterIssueFinish, EnterReady, EnterSend, EnterIssueStart,
         EnterPrepareWritePayload, EnterPause, Queue, CommandCompleted, Clean, Lookup, Caused, OnFinishCommand;
    var h, l, g := hs[m], ls[m], hs[m + 1];
    assert Enabled(h, l) && g == Step(u, h, l);
    RunLedger(u, hs, ls, m);
    CleanAt(h.q.inFlight, j);
    match l
    case Run(io) =>
      if h.state.Dead? || h.state.Closed? {
        EndEmpty(u, h);
      } else if h.state.FinishCommand? {
        ReplyIsFinish(u, h, io);
        FinishSpares(u, h, j);
      } else if IsReplyState(h.state) {
        RunParse(u, hs, ls, m);
        EnterReplyQuiet(u, h, io);
        StillFails(h, g, j);
        ReplyCaused(u, h, io, j);
      } else if h.state.IssueFinish? {
        IssueSpares(h, j);
      } else {
        EnterOther(u, h, io);
      }
    case Notify(read) =>
    case Submit(cmd) => QueueSame(h, cmd);
    case Retire(cookie) => RetireSame(h, cookie);
  }

  lemma StillFails(h: Handle, g: Handle, j: nat)
    requires Quiet(h, g) && j < |h.q.inFlight| && h.q.inFlight[j].error == 0
    requires !Clean(g.q.inFlight, h.q.inFlight[j].req.cookie)
    ensures Fails(h, g, j)
  {
    hide QuietLog;
    assert Progress(h.q.inFlight[j], g.q.inFlight[j], !h.state.RecvReadPayload?);
    if g.q.inFlight[j].error == 0 { CleanAt(g.q.inFlight, j); }
  }

  lemma EndEmpty(u: User, h: Handle)
    ensures forall k: nat :: Lookup(EnterEnd(u, h).q.inFlight, k).None?
  {
    hide Abort, Clean;
    AbortErrors(u, h.(q := h.q.(toIssue := [])), h.q.toIssue);
    var g := Abort(u, h.(q := h.q.(toIssue := [])), h.q.toIssue);
    AbortErrors(u, g.(q := g.q.(inFlight := [])), h.q.inFlight);
  }

  lemma IssueSpares(h: Handle, j: nat)
    requires j < |h.q.inFlight| && h.q.inFlight[j].error == 0
    ensures Clean(EnterIssueFinish(h).q.inFlight, h.q.inFlight[j].req.cookie)
  {
    hide Field;
    var g := EnterIssueFinish(h);
    if g.q.inFlight == h.q.inFlight {
      CleanAt(g.q.inFlight, j);
    } else {
      assert g.q.inFlight[j + 1] == h.q.inFlight[j];
      CleanAt(g.q.inFlight, j + 1);
    }
  }
}
