/** The shared state of nbdcopy's multi-threaded copy and its atomic steps.

    A step is what one thread does between two points where another thread, or a
    completion callback, can run.  A run is any sequence of enabled steps, so the
    theorems in CopyTheorems hold for every interleaving. */
module CopyModel {
  import opened Bytes
  import opened Extents
  import opened SparseSplit

  /** Everything fixed during a copy: source content, initial destination, settings. */
  datatype Config = Config(
    src: seq<byte>, dst0: seq<byte>, threads: nat, workSize: nat, requestSize: nat, queueLimit: nat,
    maxRequests: nat, sparseSize: nat, allocate: bool, targetIsZero: bool)

  /** What copy/main.c checks before it starts copying; with --destination-is-zero the
      user (or file_truncate) promises that the destination reads as zeroes. */
  predicate ValidConfig(c: Config)
  {
    && c.threads > 0 && 0 < c.requestSize <= c.workSize && c.requestSize <= c.queueLimit
    && |c.src| <= |c.dst0| && (c.targetIsZero ==> AllZero(c.dst0))
  }

  /** Where a worker is: about to ask for work, inside a work range, waiting for its last
      commands, or gone. */
  datatype Phase = Fetching | Copying | Draining | Exited

  datatype Worker = Worker(phase: Phase, offset: nat, count: nat, exts: seq<Extent>, zeroing: bool, zeroStart: nat,
                           queueSize: nat)
  {
    /** The offsets the worker has claimed and not yet given to a command. */
    predicate Owns(x: int)
    {
      phase.Copying? && (if zeroing then zeroStart else offset) <= x < offset + count
    }
  }

  /** A command in one of its roles; a split read still holds the pieces to dispatch. */
  datatype Role = Reading | Splitting(rest: seq<Piece>) | Writing | Zeroing

  datatype Cmd = Cmd(worker: nat, offset: nat, len: nat, role: Role, buf: Option<nat>, base: nat)
  {
    function End(): nat { offset + len }

    /** Where the part of the command that is still to be handed on begins. */
    function Rest(): nat
    {
      if role.Splitting? then (if role.rest == [] then End() else role.rest[0].offset) else offset
    }

    predicate Owns(x: int) { Rest() <= x < End() }
  }

  datatype Buffer = Buffer(data: seq<byte>, refs: nat)

  /** `freed` and `done` are traces: the buffers freed so far, and how often each byte of
      the destination was finished. */
  datatype State = State(
    nextOffset: nat, workers: seq<Worker>, cmds: seq<Cmd>, bufs: map<nat, Buffer>, nextBuf: nat,
    dst: seq<byte>, freed: seq<nat>, done: seq<nat>)

  function Init(c: Config): State
  {
    State(0, seq(c.threads, _ => Worker(Fetching, 0, 0, [], false, 0, 0)), [], map[], 0, c.dst0, [],
          seq(|c.src|, _ => 0))
  }

  // ---- small updates ----

  function RemoveAt<T>(s: seq<T>, i: nat): seq<T>
    requires i < |s|
  {
    s[..i] + s[i + 1..]
  }

  /** free_command for a command that points to buffer `b`. */
  function Release(s: State, b: nat): State
    requires b in s.bufs && s.bufs[b].refs > 0
  {
    if s.bufs[b].refs == 1 then s.(bufs := s.bufs - {b}, freed := s.freed + [b])
    else s.(bufs := s.bufs[b := s.bufs[b].(refs := s.bufs[b].refs - 1)])
  }

  function Finished(done: seq<nat>, off: nat, len: nat): (r: seq<nat>)
    ensures |r| == |done|
  {
    seq(|done|, x requires 0 <= x < |done| => done[x] + if off <= x < off + len then 1 else 0)
  }

  /** [off, off + len) now holds `data` and is finished. */
  function Store(s: State, off: nat, data: seq<byte>): State
    requires off + |data| <= |s.dst|
  {
    s.(dst := Overwrite(s.dst, off, data), done := Finished(s.done, off, |data|))
  }

  /** fill_dst_range_with_zeroes: nothing to do, an asynchronous zero command, or zeroes
      written at once when the backend did not accept the command.  A loop of zero writes that
      other threads interrupt is a zero command, too: its bytes land one by one, and it is
      done when they have. */
  function FillZeroes(c: Config, s: State, w: nat, off: nat, len: nat, accepted: bool): State
    requires off + len <= |s.dst|
  {
    if c.targetIsZero then s.(done := Finished(s.done, off, len))
    else if accepted then s.(cmds := s.cmds + [Cmd(w, off, len, Zeroing, None, 0)])
    else Store(s, off, Zeros(len))
  }

  // ---- the worker's steps ----

  /** get_next_offset, with the extents the backend gave for the claimed range. */
  function Fetch(c: Config, s: State, w: nat, exts: seq<Extent>): State
    requires w < |s.workers|
  {
    var me := s.workers[w];
    if s.nextOffset < |c.src| then
      var count := Min(|c.src| - s.nextOffset, c.workSize);
      s.(nextOffset := s.nextOffset + c.workSize,
         workers := s.workers[w := me.(phase := Copying, offset := s.nextOffset, count := count, exts := exts,
                                       zeroing := false)])
    else s.(workers := s.workers[w := me.(phase := Draining)])
  }

  function NextLen(c: Config, me: Worker): nat { Min(me.count, c.requestSize) }

  /** A request slot is free (the exit condition of wait_for_request_slots). */
  predicate SlotFree(c: Config, s: State, w: nat)
    requires w < |s.workers|
  {
    Sum(CommandsOf(w), s.cmds) < c.maxRequests && s.workers[w].queueSize < c.queueLimit
  }

  /** The next range is zero: begin or go on deferring. */
  function Defer(c: Config, s: State, w: nat): State
    requires w < |s.workers|
  {
    var me := s.workers[w];
    var len := NextLen(c, me);
    s.(workers := s.workers[w := me.(zeroing := true, zeroStart := if me.zeroing then me.zeroStart else me.offset,
                                     offset := me.offset + len, count := me.count - len)])
  }

  /** Hand the deferred zero range over. */
  function Flush(c: Config, s: State, w: nat, accepted: bool): State
    requires w < |s.workers| && s.workers[w].zeroStart <= s.workers[w].offset <= |s.dst|
  {
    var me := s.workers[w];
    FillZeroes(c, s.(workers := s.workers[w := me.(zeroing := false)]), w, me.zeroStart, me.offset - me.zeroStart,
               accepted)
  }

  /** Create a read command with a fresh buffer and start it; the buffer's content is not
      looked at before the read is done. */
  function IssueRead(c: Config, s: State, w: nat): State
    requires w < |s.workers|
  {
    var me := s.workers[w];
    var len := NextLen(c, me);
    s.(workers := s.workers[w := me.(offset := me.offset + len, count := me.count - len,
                                     queueSize := me.queueSize + len)],
       cmds := s.cmds + [Cmd(w, me.offset, len, Reading, Some(s.nextBuf), 0)],
       bufs := s.bufs[s.nextBuf := Buffer(Zeros(len), 1)], nextBuf := s.nextBuf + 1)
  }

  function SetPhase(s: State, w: nat, p: Phase): State
    requires w < |s.workers|
  {
    s.(workers := s.workers[w := s.workers[w].(phase := p)])
  }

  // ---- completions ----

  /** finished_read: the buffer holds the source; write it whole, or start splitting it. */
  function ReadDone(c: Config, s: State, i: nat, ps: seq<Piece>): State
    requires i < |s.cmds| && s.cmds[i].buf.Some? && s.cmds[i].buf.value in s.bufs && s.cmds[i].End() <= |c.src|
  {
    var cmd := s.cmds[i];
    var b := cmd.buf.value;
    var role := if c.allocate || c.sparseSize == 0 then Writing else Splitting(ps);
    s.(bufs := s.bufs[b := s.bufs[b].(data := c.src[cmd.offset..cmd.End()])],
       cmds := s.cmds[i := cmd.(role := role)])
  }

  /** finished_read: one subcommand of a split read; a zero piece leaves the queue. */
  function DispatchPiece(c: Config, s: State, i: nat, accepted: bool): State
    requires i < |s.cmds| && s.cmds[i].role.Splitting? && s.cmds[i].role.rest != []
    requires s.cmds[i].buf.Some? && s.cmds[i].buf.value in s.bufs && s.cmds[i].worker < |s.workers|
    requires s.cmds[i].role.rest[0].End() <= |s.dst| && s.cmds[i].offset <= s.cmds[i].role.rest[0].offset
    requires s.cmds[i].role.rest[0].len <= s.workers[s.cmds[i].worker].queueSize
  {
    var cmd := s.cmds[i];
    var p, b, w := cmd.role.rest[0], cmd.buf.value, cmd.worker;
    var s1 := s.(cmds := s.cmds[i := cmd.(role := Splitting(cmd.role.rest[1..]))]);
    if p.zero then
      FillZeroes(c, s1.(workers := s.workers[w := s.workers[w].(queueSize := s.workers[w].queueSize - p.len)]),
                 w, p.offset, p.len, accepted)
    else
      s1.(bufs := s.bufs[b := s.bufs[b].(refs := s.bufs[b].refs + 1)],
          cmds := s1.cmds + [Cmd(w, p.offset, p.len, Writing, Some(b), cmd.base + p.offset - cmd.offset)])
  }

  /** finished_read: free the command that has been split. */
  function EndSplit(s: State, i: nat): State
    requires i < |s.cmds| && s.cmds[i].buf.Some?
    requires s.cmds[i].buf.value in s.bufs && s.bufs[s.cmds[i].buf.value].refs > 0
  {
    Release(s.(cmds := RemoveAt(s.cmds, i)), s.cmds[i].buf.value)
  }

  /** The bytes an outstanding write or zero command puts on the destination. */
  function Payload(s: State, cmd: Cmd): seq<byte>
    requires cmd.buf.Some? ==> cmd.buf.value in s.bufs && cmd.base + cmd.len <= |s.bufs[cmd.buf.value].data|
  {
    if cmd.buf.Some? then s.bufs[cmd.buf.value].data[cmd.base..cmd.base + cmd.len] else Zeros(cmd.len)
  }

  /** The backend may store any byte of an outstanding command before it completes. */
  function Land(s: State, i: nat, k: nat): State
    requires i < |s.cmds| && k < s.cmds[i].len && s.cmds[i].End() <= |s.dst|
    requires s.cmds[i].buf.Some? ==>
      s.cmds[i].buf.value in s.bufs && s.cmds[i].base + s.cmds[i].len <= |s.bufs[s.cmds[i].buf.value].data|
  {
    s.(dst := s.dst[s.cmds[i].offset + k := Payload(s, s.cmds[i])[k]])
  }

  /** finished_command. */
  function CommandDone(s: State, i: nat): State
    requires i < |s.cmds| && s.cmds[i].End() <= |s.dst| && s.cmds[i].worker < |s.workers|
    requires s.cmds[i].buf.Some? ==>
      && s.cmds[i].buf.value in s.bufs && s.cmds[i].base + s.cmds[i].len <= |s.bufs[s.cmds[i].buf.value].data|
      && s.bufs[s.cmds[i].buf.value].refs > 0 && s.cmds[i].len <= s.workers[s.cmds[i].worker].queueSize
  {
    var cmd := s.cmds[i];
    var w := cmd.worker;
    var s1 := Store(s, cmd.offset, Payload(s, cmd)).(cmds := RemoveAt(s.cmds, i));
    if cmd.buf.None? then s1
    else
      Release(s1.(workers := s.workers[w := s.workers[w].(queueSize := s.workers[w].queueSize - cmd.len)]),
              cmd.buf.value)
  }

  /** Zeroes written at once are a zero command that is done at once. */
  lemma FallbackIsCommand(c: Config, s: State, w: nat, off: nat, len: nat)
    requires off + len <= |s.dst| && w < |s.workers| && !c.targetIsZero
    ensures FillZeroes(c, s, w, off, len, false) == CommandDone(FillZeroes(c, s, w, off, len, true), |s.cmds|)
  {
    hide Overwrite, Finished;
    var g := FillZeroes(c, s, w, off, len, true);
    assert RemoveAt(g.cmds, |s.cmds|) == s.cmds;
  }

  // ---- sums over the outstanding commands ----

  /** The quantities that the copier accounts for, each a sum over outstanding commands. */
  datatype Measure = QueuedBytes(w: nat) | CommandsOf(w: nat) | References(b: nat) | Owners(x: int)

  function Weigh(m: Measure, cmd: Cmd): nat
  {
    match m
    case QueuedBytes(w) =>
      if cmd.worker == w && cmd.buf.Some? && cmd.Rest() <= cmd.End() then cmd.End() - cmd.Rest() else 0
    case CommandsOf(w) => if cmd.worker == w then 1 else 0
    case References(b) => if cmd.buf == Some(b) then 1 else 0
    case Owners(x) => if cmd.Owns(x) then 1 else 0
  }

  function Sum(m: Measure, cmds: seq<Cmd>): nat
  {
    if cmds == [] then 0 else Sum(m, cmds[..|cmds| - 1]) + Weigh(m, cmds[|cmds| - 1])
  }

  function WorkerOwners(ws: seq<Worker>, x: int): nat
  {
    if ws == [] then 0 else WorkerOwners(ws[..|ws| - 1], x) + if ws[|ws| - 1].Owns(x) then 1 else 0
  }

  // ---- events ----

  datatype Event =
    | EFetch(w: nat, exts: seq<Extent>)
    | EDefer(w: nat)
    | EFlush(w: nat, accepted: bool)
    | EIssueRead(w: nat)
    | EEndRange(w: nat)
    | EExit(w: nat)
    | EReadDone(i: nat, ps: seq<Piece>)
    | EDispatch(i: nat, accepted: bool)
    | EEndSplit(i: nat)
    | ELand(i: nat, k: nat)
    | EDone(i: nat)

  /** [lo, hi) of the source is zero. */
  predicate SrcZero(c: Config, lo: int, hi: int)
  {
    0 <= lo && hi <= |c.src| && forall x | lo <= x < hi :: c.src[x] == 0
  }

  /** The extent list the backend returned describes the source: see Extents for the
      methods that produce such lists. */
  ghost predicate GoodExtents(c: Config, exts: seq<Extent>, lo: nat, hi: nat)
  {
    Tiles(exts, lo, hi) && forall i | 0 <= i < |exts| && exts[i].zero :: SrcZero(c, exts[i].offset, exts[i].End())
  }

  /** What is known to be zero of the source. */
  ghost function KnownZero(c: Config): int -> bool { x => 0 <= x < |c.src| && c.src[x] == 0 }

  /** The list that nbd_ops_get_extents makes of sound replies is good. */
  lemma ListedGood(c: Config, exts: seq<Extent>, lo: nat, hi: nat)
    requires Tiles(exts, lo, hi) && hi <= |c.src| && ZeroOnlyWhere(exts, KnownZero(c))
    ensures GoodExtents(c, exts, lo, hi)
  {
    forall i | 0 <= i < |exts| && exts[i].zero ensures SrcZero(c, exts[i].offset, exts[i].End()) {
      TilesBelow(exts, lo, hi, i);
      forall x | exts[i].offset <= x < exts[i].End() ensures c.src[x] == 0 {
        assert exts[i].Has(x) && KnownZero(c)(x);
      }
    }
  }

  /** The list that file_get_extents makes of a file whose holes read as zeroes is good. */
  lemma ScannedGood(c: Config, exts: seq<Extent>, lo: nat, hi: nat, data: int -> bool)
    requires Tiles(exts, lo, hi) && hi <= |c.src| && Exact(exts, data)
    requires forall x | 0 <= x < |c.src| && !data(x) :: c.src[x] == 0
    ensures GoodExtents(c, exts, lo, hi)
  {
    forall i, x | 0 <= i < |exts| && exts[i].zero && exts[i].Has(x) ensures KnownZero(c)(x) {
      TilesBelow(exts, lo, hi, i);
      assert !data(x);
    }
    ListedGood(c, exts, lo, hi);
  }

  /** A worker is in the copying loop with a request still to handle. */
  predicate InLoop(s: State, w: nat) { w < |s.workers| && s.workers[w].phase.Copying? && s.workers[w].count > 0 }

  /** The next request of a worker lies in zero extents (what only_zeroes answers). */
  ghost predicate NextIsZero(c: Config, me: Worker)
  {
    ZeroRange(me.exts, me.offset, me.offset + NextLen(c, me))
  }

  /** When a step can happen. */
  ghost predicate Enabled(c: Config, s: State, e: Event)
  {
    match e
    case EFetch(w, exts) =>
      && w < |s.workers| && s.workers[w].phase.Fetching?
      && (s.nextOffset < |c.src| ==>
            GoodExtents(c, exts, s.nextOffset, s.nextOffset + Min(|c.src| - s.nextOffset, c.workSize)))
    case EDefer(w) => InLoop(s, w) && NextIsZero(c, s.workers[w])
    case EFlush(w, _) =>
      && w < |s.workers| && s.workers[w].phase.Copying? && s.workers[w].zeroing
      && (s.workers[w].count > 0 ==> !NextIsZero(c, s.workers[w]))
    case EIssueRead(w) =>
      InLoop(s, w) && !NextIsZero(c, s.workers[w]) && !s.workers[w].zeroing && SlotFree(c, s, w)
    case EEndRange(w) =>
      w < |s.workers| && s.workers[w].phase.Copying? && s.workers[w].count == 0 && !s.workers[w].zeroing
    case EExit(w) => w < |s.workers| && s.workers[w].phase.Draining? && Sum(CommandsOf(w), s.cmds) == 0
    case EReadDone(i, ps) =>
      && i < |s.cmds| && s.cmds[i].role.Reading? && s.cmds[i].End() <= |c.src|
      && (!c.allocate && c.sparseSize != 0 ==>
            IsSplit(c.src[s.cmds[i].offset..s.cmds[i].End()], s.cmds[i].offset, c.sparseSize, ps))
    case EDispatch(i, _) => i < |s.cmds| && s.cmds[i].role.Splitting? && s.cmds[i].role.rest != []
    case EEndSplit(i) => i < |s.cmds| && s.cmds[i].role.Splitting? && s.cmds[i].role.rest == []
    case ELand(i, k) => i < |s.cmds| && (s.cmds[i].role.Writing? || s.cmds[i].role.Zeroing?) && k < s.cmds[i].len
    case EDone(i) => i < |s.cmds| && (s.cmds[i].role.Writing? || s.cmds[i].role.Zeroing?)
  }
}
