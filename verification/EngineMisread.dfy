/** The condition of SuccessfulReadComplete is exact: every read request that does not meet it
    has a reply for which it is reported as a success although not every byte was brought. */
module EngineMisread {
  import opened Bytes
  import opened BlockStatus
  import opened Nbd
  import opened Reply
  import opened Engine
  import opened EngineSend
  import opened EngineParser
  import opened EngineRequests
  import opened ReadData
  import opened EngineReads
  import opened EngineOverrun

  /** A program whose callbacks find no fault. */
  const CONTENT: User := log => Answer(0, 0)

  /** The read has been answered by one hole as long as itself, which begins at its last byte. */
  function Answered(cmd: Command): Command
    requires cmd.req.count > 0
  {
    var at, len := cmd.req.count - 1, cmd.req.count;
    Numbered(cmd).(dataSeen := len, pieces := [Piece(at, len, [], true)],
                data := if cmd.req.initialized then cmd.data else Overlay(cmd.data, at, Zeros(len)))
  }

  /** The chunk passes the bounds check, as its end wraps around. */
  lemma HoleAccepted(cmd: Command) returns (hs: seq<Handle>, ls: seq<Label>)
    requires IsRead(cmd) && !CountSafe(cmd.req)
    ensures OnlyRun(CONTENT, hs, ls, cmd) && |hs| == |ls| + 1 && cmd.req.count >= 2
    ensures var h := hs[|ls|];
      && h.state.ChunkFinish? && !h.blocked && !h.failed && h.q.inFlight == [Answered(cmd)] && h.q.done == []
      && h.q.inFlightCount == 1 && h.q.toIssue == [] && h.r.payloadLeft == 0 && h.r.replyCmd == Some(1) && h.r.rlen == 0
      && Cookie(h) == 1 && LastChunk(h) && (cmd.req.initialized ==> !h.overrun)
  {
    hide OnlyRun, Field, EnterEnd, Acts, HolePayload, InBounds, Overlay, Acceptable, LastChunk, OnChunkFinish;
    hs, ls := HoleHeader(CONTENT, cmd);
    NewRead(cmd);
    assert cmd.dataSeen == 0 && cmd.error == 0 && cmd.req.count <= MAX_REQUEST_SIZE by { NewCount(cmd); }
    var at, len := cmd.req.offset + cmd.req.count - 1, cmd.req.count;
    WrapsAround(Numbered(cmd), len);
    HoleFields(HolePayload(at, len), at, len);
    var h := hs[|ls|];
    assert [] + HolePayload(at, len) == HolePayload(at, len);
    hs, ls := More(CONTENT, hs, ls, Run(Got(HolePayload(at, len))), cmd);
    var d := Deliver(h, HolePayload(at, len));
    assert hs[|ls|] == OnRecvOffsetHole(CONTENT, d);
    HoleStored(d, cmd);
    SameHeader(h, hs[|ls|]);
  }

  /** What RECV_OFFSET_HOLE makes of the command. */
  lemma HoleStored(h: Handle, cmd: Command)
    requires IsRead(cmd) && cmd.req.count > 0 && h.q.inFlight == [Numbered(cmd)] && Current(h) == Some(0)
    requires Field(h.r.pay, 0, 8) == cmd.req.offset + cmd.req.count - 1 && Field(h.r.pay, 8, 12) == cmd.req.count
    requires InBounds(Field(h.r.pay, 0, 8), cmd.req.count, Numbered(cmd))
    ensures OnRecvOffsetHole(CONTENT, h).q.inFlight == [Answered(cmd)]
    ensures cmd.req.initialized && !h.overrun ==> !OnRecvOffsetHole(CONTENT, h).overrun
  {
    hide Field, Acts, InBounds, Overlay, Acceptable, Lookup;
    NewRead(cmd);
    NewCount(cmd);
    assert Seen(Numbered(cmd), cmd.req.count) == cmd.req.count;
    var p := Piece(cmd.req.count - 1, cmd.req.count, [], true);
    assert cmd.pieces + [p] == [p];
    assert h.q.inFlight[0 := Answered(cmd)] == [Answered(cmd)];
  }

  lemma NewCount(cmd: Command)
    requires IsRead(cmd)
    ensures cmd.dataSeen == 0 && cmd.error == 0 && cmd.req.count <= MAX_REQUEST_SIZE
  {
    hide HasPayload;
  }

  lemma SameHeader(h: Handle, g: Handle)
    requires g.r.hdr == h.r.hdr
    ensures Cookie(g) == Cookie(h) && LastChunk(g) == LastChunk(h)
  {
    hide Field;
  }

  /** The command completes. */
  lemma HoleCompletes(cmd: Command) returns (hs: seq<Handle>, ls: seq<Label>)
    requires IsRead(cmd) && !CountSafe(cmd.req)
    ensures OnlyRun(CONTENT, hs, ls, cmd) && |hs| == |ls| + 1 && cmd.req.count >= 2
    ensures var h := hs[|ls|];
      h.state.Ready? && h.blocked && !h.failed && h.q.done == [Answered(cmd)] && (cmd.req.initialized ==> !h.overrun)
  {
    hide OnlyRun, Field, EnterEnd, Acts, Overlay, Acceptable, LastChunk, Cookie, CountSafe;
    hs, ls := HoleAccepted(cmd);
    var h := hs[|ls|];
    hs, ls := More(CONTENT, hs, ls, Run(Again), cmd);
    SameHeader(h, hs[|ls|]);
    hs, ls := More(CONTENT, hs, ls, Run(Again), cmd);
    hs, ls := More(CONTENT, hs, ls, Run(Again), cmd);
  }

  /** nbd_aio_command_completed would now report the only command as a success; its chunks do
      not overlap, and yet not every byte was brought by one of them. */
  ghost predicate Misreported(h: Handle)
  {
    && CommandCompleted(h, 1).1 == 1 && Lookup(h.q.done, 1) == Some(0)
    && h.q.done[0].req.kind.Read? && Disjoint(h.q.done[0].pieces) && !CompleteRead(h.q.done[0])
  }

  lemma AnsweredShort(cmd: Command)
    requires IsRead(cmd) && cmd.req.count >= 2
    ensures Disjoint(Answered(cmd).pieces) && !CompleteRead(Answered(cmd)) && |Answered(cmd).data| == cmd.req.count
  {
    hide Acceptable, Overlay;
    NewRead(cmd);
    var c := Answered(cmd);
    assert !Covers(c.pieces[0], 0);
    assert !FromOnePiece(c, 0);
  }

  /** A run in which a read that is answered by a single hole beyond its last byte is reported
      as a success; if its buffer was zeroed before, nothing was even written outside it. */
  lemma ShortReadSucceeds(cmd: Command) returns (hs: seq<Handle>, ls: seq<Label>)
    requires IsRead(cmd) && !CountSafe(cmd.req)
    ensures OnlyRun(CONTENT, hs, ls, cmd) && |hs| == |ls| + 1 && Misreported(hs[|ls|])
    ensures cmd.req.initialized ==> !hs[|ls|].overrun
  {
    hide OnlyRun, Acceptable, CountSafe, CompleteRead, Disjoint, Overlay;
    hs, ls := HoleCompletes(cmd);
    AnsweredShort(cmd);
    NewCount(cmd);
    assert hs[|ls|].q.done[0] == Answered(cmd);
  }

  lemma {:induction false} OnlyIts(u: User, hs: seq<Handle>, ls: seq<Label>, cmd: Command)
    requires OnlyRun(u, hs, ls, cmd)
    ensures forall i | 0 <= i < |hs[|ls|].q.done| :: CountSafe(hs[|ls|].q.done[i].req) == CountSafe(cmd.req)
  {
    hide Step, Fresh;
    var p := (req: Request) => CountSafe(req) == CountSafe(cmd.req);
    assert Fresh(hs[0]) by { NewIsFresh(); }
    forall k {:trigger ls[k]} | 0 <= k < |ls| ensures Brings(hs[k], ls[k], p) {
      assert ls[k].Submit? ==> ls[k].cmd == cmd;
    }
    RunEvery(u, hs, ls, |ls|, p);
  }

  lemma NewIsFresh()
    ensures Fresh(NEW)
  {
  }

  /** For every read request that a program can queue: in some run in which it is the only
      command it is reported as a success, by chunks that do not overlap, without every byte
      having been brought by one of them, if and only if it is not CountSafe. */
  lemma MisreadExact(cmd: Command)
    requires IsRead(cmd)
    ensures (exists u: User, hs: seq<Handle>, ls: seq<Label> :: OnlyRun(u, hs, ls, cmd) && Misreported(hs[|ls|]))
            <==> !CountSafe(cmd.req)
  {
    hide CountSafe, Acceptable, Misreported;
    if !CountSafe(cmd.req) {
      var hs, ls := ShortReadSucceeds(cmd);
      assert OnlyRun(CONTENT, hs, ls, cmd) && Misreported(hs[|ls|]);
    } else {
      forall u: User, hs: seq<Handle>, ls: seq<Label> | OnlyRun(u, hs, ls, cmd) ensures !Misreported(hs[|ls|]) {
        NeverMisreported(u, hs, ls, cmd);
      }
    }
  }

  lemma NeverMisreported(u: User, hs: seq<Handle>, ls: seq<Label>, cmd: Command)
    requires OnlyRun(u, hs, ls, cmd) && CountSafe(cmd.req)
    ensures !Misreported(hs[|ls|])
  {
    hide CountSafe, CompleteRead, Disjoint, CommandCompleted, Step, Fresh, Only;
    assert Fresh(hs[0]) by { NewIsFresh(); }
    OnlyIts(u, hs, ls, cmd);
    if Misreported(hs[|ls|]) { SuccessfulReadComplete(u, hs, ls, |ls|, 1, 0); }
  }
}
