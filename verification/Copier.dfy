/** nbdcopy's multi-threaded copier as an object whose fields the C functions update. */
module Copier {
  import opened Bytes
  import opened Extents
  import opened SparseSplit
  import opened CopyModel
  import opened CopyTheorems
  import opened CopyOptions

  class Copier {
    const c: Config
    var nextOffset: nat
    var workers: seq<Worker>
    /** Each worker's extent_index. */
    var cursors: seq<nat>
    var cmds: seq<Cmd>
    var bufs: map<nat, Buffer>
    var nextBuf: nat
    var dst: seq<byte>
    ghost var freed: seq<nat>
    ghost var done: seq<nat>

    ghost function St(): State
      reads this
    {
      State(nextOffset, workers, cmds, bufs, nextBuf, dst, freed, done)
    }

    /** The global invariant, and each cursor is an extent that begins at or before the
        worker's offset. */
    ghost predicate Valid()
      reads this
    {
      && Inv(c, St()) && |cursors| == |workers|
      && forall w | 0 <= w < |workers| && workers[w].phase.Copying? ::
           cursors[w] < |workers[w].exts| && workers[w].exts[cursors[w]].offset <= workers[w].offset
    }

    constructor (config: Config)
      requires ValidConfig(config)
      ensures c == config && St() == Init(config) && Valid()
    {
      c := config;
      nextOffset := 0;
      workers := seq(config.threads, _ => Worker(Fetching, 0, 0, [], false, 0, 0));
      cursors := seq(config.threads, _ => 0);
      cmds, bufs, nextBuf, dst := [], map[], 0, config.dst0;
      freed, done := [], seq(|config.src|, _ => 0);
      InitInv(config);
    }

    /** get_next_offset, for a worker that will use `exts` for the range. */
    method GetNextOffset(w: nat, exts: seq<Extent>) returns (more: bool)
      requires Valid() && Enabled(c, St(), EFetch(w, exts))
      modifies this
      ensures Valid() && St() == Fetch(c, old(St()), w, exts)
      ensures more <==> old(nextOffset) < |c.src|
    {
      hide Inv;
      InvWorker(c, St(), w);
      FetchInv(c, St(), w, exts);
      more := false;
      var me := workers[w];
      if nextOffset < |c.src| {
        var count := |c.src| - nextOffset;
        if count > c.workSize {
          count := c.workSize;
        }
        me := me.(phase := Copying, offset := nextOffset, count := count, exts := exts, zeroing := false);
        nextOffset := nextOffset + c.workSize;
        cursors := cursors[w := 0];
        more := true;
      } else {
        me := me.(phase := Draining);
      }
      workers := workers[w := me];
    }

    /** One round of the copying loop.  `waiting` tells that no request slot is free, so
        the worker polls and comes back. */
    method NextRequest(w: nat, accepted: bool) returns (waiting: bool)
      requires Valid() && InLoop(St(), w)
      modifies this
      ensures Valid()
      ensures NextIsZero(c, old(workers)[w]) ==> !waiting && St() == Defer(c, old(St()), w)
      ensures !NextIsZero(c, old(workers)[w]) && !old(workers)[w].zeroing ==>
        && (waiting <==> |Outstanding(old(cmds), w)| >= c.maxRequests || old(workers)[w].queueSize >= c.queueLimit)
        && St() == if waiting then old(St()) else IssueRead(c, old(St()), w)
      ensures !NextIsZero(c, old(workers)[w]) && old(workers)[w].zeroing ==>
        && old(workers)[w].zeroStart < old(workers)[w].offset <= |old(dst)|
        && waiting && St() == Flush(c, old(St()), w, accepted)
    {
      hide Inv, ZeroRange;
      ghost var s := St();
      var me := workers[w];
      InvWorker(c, s, w);
      SumIsNumber(cmds, w);
      var len: nat := Min(me.count, c.requestSize);
      var zero, cursor := OnlyZeroes(me.exts, cursors[w], me.offset, len, me.exts[0].offset, me.offset + me.count);
      cursors := cursors[w := cursor];
      waiting := false;
      if zero {
        DeferInv(c, s, w);
        if !me.zeroing {
          me := me.(zeroing := true, zeroStart := me.offset);
        }
        workers := workers[w := me.(offset := me.offset + len, count := me.count - len)];
      } else if me.zeroing {
        FlushDeferred(w, accepted);
        waiting := true;
      } else if Sum(CommandsOf(w), cmds) >= c.maxRequests || me.queueSize >= c.queueLimit {
        waiting := true;
      } else {
        StartRead(w);
      }
    }

    /** create_command, increase_queue_size and the asynchronous read. */
    method StartRead(w: nat)
      requires Valid() && Enabled(c, St(), EIssueRead(w))
      modifies this
      ensures Valid() && St() == IssueRead(c, old(St()), w)
    {
      hide Inv;
      IssueReadInv(c, St(), w);
      var me := workers[w];
      assert me.queueSize < c.queueLimit;
      InvWorker(c, St(), w);
      var len: nat := Min(me.count, c.requestSize);
      cmds := cmds + [Cmd(w, me.offset, len, Reading, Some(nextBuf), 0)];
      bufs := bufs[nextBuf := Buffer(Zeros(len), 1)];
      nextBuf := nextBuf + 1;
      workers := workers[w := me.(offset := me.offset + len, count := me.count - len,
                                  queueSize := me.queueSize + len)];
    }

    /** Give the deferred zero range to the destination. */
    method FlushDeferred(w: nat, accepted: bool)
      requires Valid() && w < |workers| && workers[w].phase.Copying? && workers[w].zeroing
      modifies this
      ensures Valid() && cursors == old(cursors)
      ensures old(workers)[w].zeroStart < old(workers)[w].offset <= |old(dst)|
      ensures St() == Flush(c, old(St()), w, accepted)
    {
      hide Inv;
      InvWorker(c, St(), w);
      FlushBounds(c, St(), w);
      FlushInv(c, St(), w, accepted);
      var me := workers[w];
      workers := workers[w := me.(zeroing := false)];
      FillDstRangeWithZeroes(w, me.zeroStart, me.offset - me.zeroStart, accepted);
    }

    /** fill_dst_range_with_zeroes; the fallback writes one request of zeroes at a time. */
    method FillDstRangeWithZeroes(w: nat, offset: nat, len: nat, accepted: bool)
      requires offset + len <= |dst| && c.requestSize > 0
      modifies this
      ensures St() == FillZeroes(c, old(St()), w, offset, len, accepted) && cursors == old(cursors)
    {
      if c.targetIsZero {
        done := Finished(done, offset, len);
        return;
      }
      if accepted {
        cmds := cmds + [Cmd(w, offset, len, Zeroing, None, 0)];
        return;
      }
      var size := Min(c.requestSize, len);
      var at: nat, left: nat := offset, len;
      while left > 0
        invariant at + left == offset + len && offset <= at && |dst| == |old(dst)| && (left > 0 ==> size > 0)
        invariant forall x | 0 <= x < |dst| :: dst[x] == if offset <= x < at then 0 else old(dst)[x]
        invariant St() == old(St()).(dst := dst) && cursors == old(cursors)
        decreases left
      {
        var n: nat := Min(left, size);
        dst := Overwrite(dst, at, Zeros(n));
        left := left - n;
        at := at + n;
      }
      assert dst == Overwrite(old(dst), offset, Zeros(len)) by {
        forall x | 0 <= x < |dst| ensures dst[x] == Overwrite(old(dst), offset, Zeros(len))[x] { }
      }
      done := Finished(done, offset, len);
    }

    /** free_command for a command that points to buffer `b`. */
    method FreeCommand(b: nat)
      requires b in bufs && bufs[b].refs > 0
      modifies this
      ensures St() == Release(old(St()), b) && cursors == old(cursors)
    {
      var refs := bufs[b].refs - 1;
      if refs == 0 {
        bufs := bufs - {b};
        freed := freed + [b];
      } else {
        bufs := bufs[b := bufs[b].(refs := refs)];
      }
    }

    /** decrease_queue_size, whose assertion is the precondition. */
    method DecreaseQueueSize(w: nat, len: nat)
      requires w < |workers| && workers[w].queueSize >= len
      modifies this`workers
      ensures workers == old(workers)[w := old(workers)[w].(queueSize := old(workers)[w].queueSize - len)]
    {
      workers := workers[w := workers[w].(queueSize := workers[w].queueSize - len)];
    }

    /** finished_command. */
    method FinishedCommand(i: nat)
      requires Valid() && Enabled(c, St(), EDone(i))
      modifies this
      ensures Valid() && Defined(c, old(St()), EDone(i)) && St() == CommandDone(old(St()), i)
    {
      hide Inv;
      CommandDoneInv(c, St(), i);
      var cmd := cmds[i];
      var data := if cmd.buf.Some? then bufs[cmd.buf.value].data[cmd.base..cmd.base + cmd.len] else Zeros(cmd.len);
      dst := Overwrite(dst, cmd.offset, data);
      done := Finished(done, cmd.offset, |data|);
      cmds := cmds[..i] + cmds[i + 1..];
      if cmd.buf.Some? {
        DecreaseQueueSize(cmd.worker, cmd.len);
        FreeCommand(cmd.buf.value);
      }
    }

    /** The start of finished_read: the buffer now holds the source's bytes; the command
        becomes a write, or the list of pieces to dispatch is worked out. */
    method BeginFinishedRead(i: nat) returns (ghost e: Event)
      requires Valid() && i < |cmds| && cmds[i].role.Reading?
      modifies this
      ensures Valid() && e.EReadDone? && e.i == i && Enabled(c, old(St()), e) && Defined(c, old(St()), e)
      ensures St() == ReadDone(c, old(St()), i, e.ps)
    {
      hide Inv, IsSplit;
      var cmd := cmds[i];
      InvCmd(c, St(), i);
      var data := c.src[cmd.offset..cmd.offset + cmd.len];
      var pieces := [];
      if !c.allocate && c.sparseSize != 0 {
        pieces := Split(data, cmd.offset, c.sparseSize);
      }
      e := EReadDone(i, pieces);
      ReadDoneInv(c, St(), i, pieces);
      bufs := bufs[cmd.buf.value := bufs[cmd.buf.value].(data := data)];
      var role := if c.allocate || c.sparseSize == 0 then Writing else Splitting(pieces);
      cmds := cmds[i := cmd.(role := role)];
    }

    /** create_subcommand and the call that follows it, for the next piece. */
    method DispatchNext(i: nat, accepted: bool)
      requires Valid() && Enabled(c, St(), EDispatch(i, accepted))
      modifies this
      ensures Valid() && Defined(c, old(St()), EDispatch(i, accepted))
      ensures St() == DispatchPiece(c, old(St()), i, accepted)
    {
      hide Inv;
      InvCmd(c, St(), i);
      DispatchBounds(c, St(), i);
      DispatchInv(c, St(), i, accepted);
      var cmd := cmds[i];
      var p, b := cmd.role.rest[0], cmd.buf.value;
      cmds := cmds[i := cmd.(role := Splitting(cmd.role.rest[1..]))];
      if p.zero {
        DecreaseQueueSize(cmd.worker, p.len);
        FillDstRangeWithZeroes(cmd.worker, p.offset, p.len, accepted);
      } else {
        bufs := bufs[b := bufs[b].(refs := bufs[b].refs + 1)];
        cmds := cmds + [Cmd(cmd.worker, p.offset, p.len, Writing, Some(b), cmd.base + p.offset - cmd.offset)];
      }
    }

    /** The loop of finished_read: all pieces go out in order.  `accepts` answers the n-th
        zero request. */
    method DispatchAll(i: nat, accepts: nat -> bool)
      requires Valid() && i < |cmds| && cmds[i].role.Splitting?
      modifies this
      ensures Valid() && |cmds| >= |old(cmds)|
      ensures cmds[..|old(cmds)|] == old(cmds)[i := old(cmds)[i].(role := Splitting([]))]
    {
      hide Inv, Defined, DispatchPiece;
      ghost var before := cmds;
      var n := 0;
      while cmds[i].role.rest != []
        invariant Valid() && |cmds| >= |before| && cmds[..|before|] == before[i := cmds[i]]
        invariant cmds[i].role.Splitting? && cmds[i] == before[i].(role := cmds[i].role)
        decreases |cmds[i].role.rest|
      {
        ghost var was := St();
        DispatchNext(i, accepts(n));
        DispatchShape(c, was, i, accepts(n));
        assert cmds[i] == cmds[..|was.cmds|][i] == Tail(was.cmds[i]);
        assert cmds[..|before|] == was.cmds[i := cmds[i]][..|before|];
        n := n + 1;
      }
    }

    /** finished_read from beginning to end with nothing in between: the command becomes a
        write, or its pieces have gone out and it is freed; no other command changes. */
    method FinishedRead(i: nat, accepts: nat -> bool)
      requires Valid() && i < |cmds| && cmds[i].role.Reading?
      modifies this
      ensures Valid()
      ensures c.allocate || c.sparseSize == 0 ==> cmds == old(cmds)[i := old(cmds)[i].(role := Writing)]
      ensures !c.allocate && c.sparseSize != 0 ==>
        |cmds| >= |old(cmds)| - 1 && cmds[..|old(cmds)| - 1] == RemoveAt(old(cmds), i)
    {
      hide Inv, Defined, IsSplit;
      ghost var e := BeginFinishedRead(i);
      if c.allocate || c.sparseSize == 0 {
        return;
      }
      ghost var before := cmds;
      DispatchAll(i, accepts);
      assert cmds[i] == cmds[..|before|][i];
      EndSplitInv(c, St(), i);
      var b := cmds[i].buf.value;
      assert (cmds[..i] + cmds[i + 1..])[..|before| - 1] == RemoveAt(cmds[..|before|], i);
      cmds := cmds[..i] + cmds[i + 1..];
      FreeCommand(b);
    }

    /** The end of worker_thread, once in_flight is zero. */
    method Exit(w: nat)
      requires Valid() && Enabled(c, St(), EExit(w))
      modifies this
      ensures Valid() && St() == SetPhase(old(St()), w, Exited)
      ensures (forall v | 0 <= v < |workers| :: workers[v].phase.Exited?) ==> dst == c.src + c.dst0[|c.src|..]
    {
      ExitInv(c, St(), w);
      workers := workers[w := workers[w].(phase := Exited)];
      if forall v | 0 <= v < |workers| :: workers[v].phase.Exited? {
        CompleteCopy(c, St());
      }
    }
  }
}
