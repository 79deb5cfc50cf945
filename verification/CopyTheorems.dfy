/** What every run of the copier keeps, and what it has achieved when the workers are gone. */
module CopyTheorems {
  import opened Bytes
  import opened Extents
  import opened SparseSplit
  import opened CopyModel

  // ---- the invariant ----

  ghost predicate WorkerOk(c: Config, me: Worker)
  {
    me.phase.Copying? ==>
      && me.exts != [] && me.exts[0].offset <= me.offset && me.offset + me.count <= |c.src|
      && GoodExtents(c, me.exts, me.exts[0].offset, me.offset + me.count)
      && (me.zeroing ==> me.zeroStart < me.offset && SrcZero(c, me.zeroStart, me.offset))
  }

  /** The command lies inside the source, its buffer is live, and whatever it will put on
      the destination is the source's content. */
  ghost predicate CmdOk(c: Config, bufs: map<nat, Buffer>, threads: nat, cmd: Cmd)
  {
    && cmd.worker < threads && cmd.len > 0 && cmd.End() <= |c.src|
    && (cmd.buf.Some? <==> !cmd.role.Zeroing?)
    && (cmd.buf.Some? ==> cmd.buf.value in bufs && cmd.base + cmd.len <= |bufs[cmd.buf.value].data|)
    && match cmd.role
       case Reading => cmd.base == 0 && cmd.len == |bufs[cmd.buf.value].data|
       case Writing => bufs[cmd.buf.value].data[cmd.base..cmd.base + cmd.len] == c.src[cmd.offset..cmd.End()]
       case Zeroing => SrcZero(c, cmd.offset, cmd.End())
       case Splitting(rest) =>
         && cmd.base == 0 && bufs[cmd.buf.value].data == c.src[cmd.offset..cmd.End()]
         && cmd.offset <= cmd.Rest() <= cmd.End() && Chained(rest, cmd.Rest(), cmd.End())
         && forall k | 0 <= k < |rest| && rest[k].zero :: SrcZero(c, rest[k].offset, rest[k].End())
  }

  ghost predicate Local(c: Config, s: State)
  {
    && |s.workers| == c.threads && |s.dst| == |c.dst0| && |s.done| == |c.src|
    && (forall w | 0 <= w < |s.workers| :: WorkerOk(c, s.workers[w]))
    && (forall i | 0 <= i < |s.cmds| :: CmdOk(c, s.bufs, |s.workers|, s.cmds[i]))
    && (forall w | 0 <= w < |s.workers| && (s.workers[w].phase.Draining? || s.workers[w].phase.Exited?) ::
          s.nextOffset >= |c.src|)
    && (forall i | 0 <= i < |s.cmds| :: !s.workers[s.cmds[i].worker].phase.Exited?)
  }

  /** worker->queue_size is exactly the bytes of outstanding reads and buffered writes,
      with the undispatched rest of a split read, and stays below its limit. */
  ghost predicate Accounted(c: Config, s: State)
  {
    forall w | 0 <= w < |s.workers| ::
      && s.workers[w].queueSize == Sum(QueuedBytes(w), s.cmds)
      && s.workers[w].queueSize < c.queueLimit + c.requestSize
  }

  /** Every reference count is the number of commands that point to the buffer; a read
      does not share its buffer; a buffer is either live or freed once. */
  ghost predicate Counted(s: State) { CountedBut(s, None) }

  /** The same, while the reference of a command that is gone is still to be dropped. */
  ghost predicate CountedBut(s: State, extra: Option<nat>)
  {
    && (forall b | b in s.bufs ::
          b < s.nextBuf && s.bufs[b].refs == Sum(References(b), s.cmds) + (if extra == Some(b) then 1 else 0) > 0)
    && (forall b: nat | b < s.nextBuf :: b in s.bufs <==> b !in s.freed)
    && (forall i | 0 <= i < |s.cmds| && s.cmds[i].role.Reading? && s.cmds[i].buf.Some? ::
          Sum(References(s.cmds[i].buf.value), s.cmds) == 1)
    && (forall k | 0 <= k < |s.freed| :: s.freed[k] < s.nextBuf)
    && (forall j, k | 0 <= j < k < |s.freed| :: s.freed[j] != s.freed[k])
  }

  /** How many parties are still responsible for offset `x`. */
  function Responsible(s: State, x: int): nat
  {
    (if x >= s.nextOffset then 1 else 0) + WorkerOwners(s.workers, x) + Sum(Owners(x), s.cmds)
  }

  /** Conservation: each offset is unclaimed, or with one worker, or with one command, or
      was finished once; never two of these.  In the middle of a step, [lo, hi) can be
      in nobody's hands. */
  ghost predicate Conserved(c: Config, s: State, lo: int, hi: int)
    requires |s.done| == |c.src|
  {
    forall x | 0 <= x < |c.src| :: Responsible(s, x) + s.done[x] == if lo <= x < hi then 0 else 1
  }

  /** A destination byte is the source's or still the initial one, and it is the
      source's once it was finished. */
  ghost predicate Faithful(c: Config, s: State)
    requires |s.done| == |c.src| <= |c.dst0| == |s.dst|
  {
    forall x | 0 <= x < |s.dst| ::
      if x < |c.src| then (s.dst[x] == c.src[x] || s.dst[x] == c.dst0[x]) && (s.done[x] > 0 ==> s.dst[x] == c.src[x])
      else s.dst[x] == c.dst0[x]
  }

  ghost predicate InvBut(c: Config, s: State, lo: int, hi: int)
  {
    ValidConfig(c) && Local(c, s) && Accounted(c, s) && Counted(s) && Conserved(c, s, lo, hi) && Faithful(c, s)
  }

  ghost predicate Inv(c: Config, s: State) { InvBut(c, s, 0, 0) }

  // ---- sums ----

  lemma {:induction false} SumConcat(m: Measure, a: seq<Cmd>, b: seq<Cmd>)
    ensures Sum(m, a + b) == Sum(m, a) + Sum(m, b)
  {
    if b == [] {
      assert a + b == a;
    } else {
      var n := |b| - 1;
      SumConcat(m, a, b[..n]);
      assert (a + b)[..|a + b| - 1] == a + b[..n];
    }
  }

  lemma SumAppend(m: Measure, a: seq<Cmd>, cmd: Cmd)
    ensures Sum(m, a + [cmd]) == Sum(m, a) + Weigh(m, cmd)
  {
    assert (a + [cmd])[..|a|] == a;
  }

  lemma SumAt(m: Measure, a: seq<Cmd>, i: nat)
    requires i < |a|
    ensures Sum(m, a) == Sum(m, RemoveAt(a, i)) + Weigh(m, a[i])
  {
    assert a == a[..i] + [a[i]] + a[i + 1..];
    SumConcat(m, a[..i] + [a[i]], a[i + 1..]);
    SumAppend(m, a[..i], a[i]);
    SumConcat(m, a[..i], a[i + 1..]);
  }

  lemma SumSet(m: Measure, a: seq<Cmd>, i: nat, cmd: Cmd)
    requires i < |a|
    ensures Sum(m, a[i := cmd]) + Weigh(m, a[i]) == Sum(m, a) + Weigh(m, cmd)
  {
    SumAt(m, a, i);
    SumAt(m, a[i := cmd], i);
    assert RemoveAt(a[i := cmd], i) == RemoveAt(a, i);
  }

  lemma {:induction false} SumZero(m: Measure, a: seq<Cmd>)
    requires forall i | 0 <= i < |a| :: Weigh(m, a[i]) == 0
    ensures Sum(m, a) == 0
  {
    if a != [] {
      SumZero(m, a[..|a| - 1]);
    }
  }

  lemma {:induction false} OwnersSet(ws: seq<Worker>, w: nat, me: Worker, x: int)
    requires w < |ws|
    ensures WorkerOwners(ws[w := me], x) + (if ws[w].Owns(x) then 1 else 0) ==
            WorkerOwners(ws, x) + (if me.Owns(x) then 1 else 0)
  {
    var n := |ws| - 1;
    if w < n {
      OwnersSet(ws[..n], w, me, x);
      assert ws[w := me][..n] == ws[..n][w := me];
    } else {
      assert ws[w := me][..n] == ws[..n];
    }
  }

  lemma {:induction false} OwnersNone(ws: seq<Worker>, x: int)
    requires forall w | 0 <= w < |ws| :: !ws[w].Owns(x)
    ensures WorkerOwners(ws, x) == 0
  {
    if ws != [] {
      OwnersNone(ws[..|ws| - 1], x);
    }
  }

  // ---- the initial state ----

  lemma InitInv(c: Config)
    requires ValidConfig(c)
    ensures Inv(c, Init(c))
  {
    var s := Init(c);
    forall x | 0 <= x < |c.src| ensures Responsible(s, x) + s.done[x] == 1 {
      OwnersNone(s.workers, x);
    }
  }

  // ---- worker steps ----

  /** A step that only moves one worker, keeping its queue size. */
  lemma WorkerMoves(c: Config, s: State, s': State, w: nat, me: Worker)
    requires Inv(c, s) && w < |s.workers| && me.queueSize == s.workers[w].queueSize
    requires s' == s.(workers := s.workers[w := me], nextOffset := s'.nextOffset) && s'.nextOffset >= s.nextOffset
    requires WorkerOk(c, me) && (me.phase.Draining? || me.phase.Exited? ==> s'.nextOffset >= |c.src|)
    requires me.phase.Exited? ==> Sum(CommandsOf(w), s.cmds) == 0
    requires forall x | 0 <= x < |c.src| ::
      (if me.Owns(x) then 1 else 0) + (if x >= s'.nextOffset then 1 else 0) ==
      (if s.workers[w].Owns(x) then 1 else 0) + (if x >= s.nextOffset then 1 else 0)
    ensures Inv(c, s')
  {
    forall x | 0 <= x < |c.src| ensures Responsible(s', x) + s'.done[x] == 1 {
      OwnersSet(s.workers, w, me, x);
      assert Responsible(s, x) + s.done[x] == 1;
    }
    forall i | 0 <= i < |s'.cmds| ensures !s'.workers[s'.cmds[i].worker].phase.Exited? {
      assert CmdOk(c, s.bufs, |s.workers|, s.cmds[i]);
      SumAt(CommandsOf(w), s.cmds, i);
    }
  }

  lemma FetchInv(c: Config, s: State, w: nat, exts: seq<Extent>)
    requires Inv(c, s) && Enabled(c, s, EFetch(w, exts))
    ensures Inv(c, Fetch(c, s, w, exts))
  {
    var s' := Fetch(c, s, w, exts);
    WorkerMoves(c, s, s', w, s'.workers[w]);
  }

  lemma ZeroRangeSource(c: Config, exts: seq<Extent>, lo: nat, hi: nat, a: nat, b: nat)
    requires GoodExtents(c, exts, lo, hi) && lo <= a <= b <= hi <= |c.src| && ZeroRange(exts, a, b)
    ensures SrcZero(c, a, b)
  {
    forall x | a <= x < b ensures c.src[x] == 0 {
      assert InZeroExtent(exts, x);
      var i :| 0 <= i < |exts| && exts[i].Has(x) && exts[i].zero;
      assert SrcZero(c, exts[i].offset, exts[i].End());
    }
  }

  lemma DeferInv(c: Config, s: State, w: nat)
    requires Inv(c, s) && Enabled(c, s, EDefer(w))
    ensures Inv(c, Defer(c, s, w))
  {
    var me, s' := s.workers[w], Defer(c, s, w);
    assert WorkerOk(c, me);
    ZeroRangeSource(c, me.exts, me.exts[0].offset, me.offset + me.count, me.offset, me.offset + NextLen(c, me));
    WorkerMoves(c, s, s', w, s'.workers[w]);
  }

  lemma EndRangeInv(c: Config, s: State, w: nat)
    requires Inv(c, s) && Enabled(c, s, EEndRange(w))
    ensures Inv(c, SetPhase(s, w, Fetching))
  {
    var s' := SetPhase(s, w, Fetching);
    WorkerMoves(c, s, s', w, s'.workers[w]);
  }

  lemma ExitInv(c: Config, s: State, w: nat)
    requires Inv(c, s) && Enabled(c, s, EExit(w))
    ensures Inv(c, SetPhase(s, w, Exited))
  {
    var s' := SetPhase(s, w, Exited);
    WorkerMoves(c, s, s', w, s'.workers[w]);
  }

  lemma IssueReadLocal(c: Config, s: State, w: nat)
    requires Inv(c, s) && Enabled(c, s, EIssueRead(w))
    ensures Local(c, IssueRead(c, s, w))
  {
    var s' := IssueRead(c, s, w);
    assert WorkerOk(c, s.workers[w]);
    forall i | 0 <= i < |s'.cmds| ensures CmdOk(c, s'.bufs, |s'.workers|, s'.cmds[i]) {
      if i < |s.cmds| { assert CmdOk(c, s.bufs, |s.workers|, s.cmds[i]); }
    }
  }

  lemma NoReferences(c: Config, s: State, b: nat)
    requires Local(c, s) && b !in s.bufs
    ensures Sum(References(b), s.cmds) == 0
  {
    forall i | 0 <= i < |s.cmds| ensures Weigh(References(b), s.cmds[i]) == 0 {
      assert CmdOk(c, s.bufs, |s.workers|, s.cmds[i]);
    }
    SumZero(References(b), s.cmds);
  }

  lemma IssueReadAccounted(c: Config, s: State, w: nat)
    requires Accounted(c, s) && w < |s.workers| && s.workers[w].queueSize < c.queueLimit
    ensures Accounted(c, IssueRead(c, s, w))
  {
    var s' := IssueRead(c, s, w);
    forall v | 0 <= v < |s'.workers| ensures
        && s'.workers[v].queueSize == Sum(QueuedBytes(v), s'.cmds)
        && s'.workers[v].queueSize < c.queueLimit + c.requestSize {
      SumAppend(QueuedBytes(v), s.cmds, s'.cmds[|s.cmds|]);
    }
  }

  lemma IssueReadCounted(c: Config, s: State, w: nat)
    requires Counted(s) && w < |s.workers| && Sum(References(s.nextBuf), s.cmds) == 0
    requires forall i | 0 <= i < |s.cmds| && s.cmds[i].buf.Some? :: s.cmds[i].buf.value in s.bufs
    ensures Counted(IssueRead(c, s, w))
  {
    hide Sum;
    var s' := IssueRead(c, s, w);
    forall b ensures Sum(References(b), s'.cmds) == Sum(References(b), s.cmds) + if b == s.nextBuf then 1 else 0 {
      SumAppend(References(b), s.cmds, s'.cmds[|s.cmds|]);
    }
  }

  lemma IssueReadConserved(c: Config, s: State, w: nat)
    requires |s.done| == |c.src| && Conserved(c, s, 0, 0) && InLoop(s, w) && !s.workers[w].zeroing && c.requestSize > 0
    ensures Conserved(c, IssueRead(c, s, w), 0, 0)
  {
    var s' := IssueRead(c, s, w);
    forall x | 0 <= x < |c.src| ensures Responsible(s', x) + s'.done[x] == 1 {
      OwnersSet(s.workers, w, s'.workers[w], x);
      SumAppend(Owners(x), s.cmds, s'.cmds[|s.cmds|]);
      assert Responsible(s, x) + s.done[x] == 1;
    }
  }

  /** Starting a read hands the next request to a command with a buffer of its own. */
  lemma IssueReadInv(c: Config, s: State, w: nat)
    requires Inv(c, s) && Enabled(c, s, EIssueRead(w))
    ensures Inv(c, IssueRead(c, s, w))
  {
    NoReferences(c, s, s.nextBuf);
    assert forall i | 0 <= i < |s.cmds| :: CmdOk(c, s.bufs, |s.workers|, s.cmds[i]);
    IssueReadLocal(c, s, w);
    IssueReadAccounted(c, s, w);
    IssueReadCounted(c, s, w);
    IssueReadConserved(c, s, w);
  }

  // ---- zeroing ----

  lemma FinishedAt(done: seq<nat>, off: nat, len: nat, x: int)
    requires 0 <= x < |done|
    ensures Finished(done, off, len)[x] == done[x] + if off <= x < off + len then 1 else 0
  {
  }

  lemma StoreConserved(c: Config, s: State, s': State, off: nat, len: nat)
    requires |s.done| == |c.src| && Conserved(c, s, off, off + len)
    requires s'.nextOffset == s.nextOffset && s'.workers == s.workers && s'.cmds == s.cmds
    requires s'.done == Finished(s.done, off, len)
    ensures Conserved(c, s', 0, 0)
  {
    forall x | 0 <= x < |c.src| ensures Responsible(s', x) + s'.done[x] == 1 {
      FinishedAt(s.done, off, len, x);
      assert Responsible(s, x) == Responsible(s', x);
      assert Responsible(s, x) + s.done[x] == if off <= x < off + len then 0 else 1;
    }
  }

  /** Finishing a range is faithful when the destination now holds the source there. */
  lemma StoreFaithful(c: Config, s: State, s': State, off: nat, len: nat)
    requires |s.done| == |c.src| <= |c.dst0| == |s.dst| == |s'.dst| && off + len <= |c.src| && Faithful(c, s)
    requires s'.done == Finished(s.done, off, len)
    requires forall x | 0 <= x < |s.dst| :: s'.dst[x] == if off <= x < off + len then c.src[x] else s.dst[x]
    ensures Faithful(c, s')
  {
    forall x | 0 <= x < |c.src| ensures s'.done[x] == s.done[x] + if off <= x < off + len then 1 else 0 {
      FinishedAt(s.done, off, len, x);
    }
  }

  lemma AppendZeroing(c: Config, s: State, cmd: Cmd)
    requires InvBut(c, s, cmd.offset, cmd.End()) && CmdOk(c, s.bufs, |s.workers|, cmd) && cmd.role.Zeroing?
    requires !s.workers[cmd.worker].phase.Exited?
    ensures Inv(c, s.(cmds := s.cmds + [cmd]))
  {
    hide Sum, WorkerOwners;
    var s' := s.(cmds := s.cmds + [cmd]);
    forall x | 0 <= x < |c.src| ensures Responsible(s', x) + s'.done[x] == 1 {
      SumAppend(Owners(x), s.cmds, cmd);
      assert Responsible(s, x) + s.done[x] == if cmd.offset <= x < cmd.End() then 0 else 1;
    }
    forall m: Measure | m.QueuedBytes? || m.References? ensures Sum(m, s'.cmds) == Sum(m, s.cmds) {
      SumAppend(m, s.cmds, cmd);
    }
  }

  /** A range that the source reads as zero can be given to fill_dst_range_with_zeroes,
      whichever of its three ways it takes. */
  lemma FillZeroesInv(c: Config, s: State, w: nat, off: nat, len: nat, accepted: bool)
    requires InvBut(c, s, off, off + len) && len > 0 && SrcZero(c, off, off + len)
    requires w < |s.workers| && !s.workers[w].phase.Exited?
    ensures Inv(c, FillZeroes(c, s, w, off, len, accepted))
  {
    if !c.targetIsZero && accepted {
      AppendZeroing(c, s, Cmd(w, off, len, Zeroing, None, 0));
    } else {
      var s' := FillZeroes(c, s, w, off, len, accepted);
      StoreConserved(c, s, s', off, len);
      StoreFaithful(c, s, s', off, len);
    }
  }

  /** Between leaving the worker and reaching fill_dst_range_with_zeroes. */
  lemma LetGo(c: Config, s: State, s1: State, w: nat, off: nat, len: nat)
    requires Inv(c, s) && w < |s.workers| && s.workers[w].phase.Copying? && s.workers[w].zeroing
    requires off == s.workers[w].zeroStart && off + len == s.workers[w].offset
    requires s1 == s.(workers := s.workers[w := s.workers[w].(zeroing := false)])
    ensures InvBut(c, s1, off, off + len)
  {
    hide Sum, WorkerOwners;
    var me := s.workers[w];
    assert WorkerOk(c, me);
    forall x | 0 <= x < |c.src|
      ensures Responsible(s1, x) + s1.done[x] == if me.zeroStart <= x < me.offset then 0 else 1
    {
      OwnersSet(s.workers, w, s1.workers[w], x);
      assert Responsible(s, x) + s.done[x] == 1;
    }
    forall i | 0 <= i < |s1.cmds|
      ensures CmdOk(c, s1.bufs, |s1.workers|, s1.cmds[i]) && !s1.workers[s1.cmds[i].worker].phase.Exited?
    {
      assert CmdOk(c, s.bufs, |s.workers|, s.cmds[i]);
    }
  }

  lemma FlushBounds(c: Config, s: State, w: nat)
    requires Inv(c, s) && w < |s.workers| && s.workers[w].phase.Copying? && s.workers[w].zeroing
    ensures s.workers[w].zeroStart < s.workers[w].offset <= |c.src| <= |s.dst|
    ensures SrcZero(c, s.workers[w].zeroStart, s.workers[w].offset)
  {
    assert WorkerOk(c, s.workers[w]);
  }

  lemma FlushInv(c: Config, s: State, w: nat, accepted: bool)
    requires Inv(c, s) && w < |s.workers| && s.workers[w].phase.Copying? && s.workers[w].zeroing
    requires s.workers[w].zeroStart < s.workers[w].offset <= |s.dst|
    ensures Inv(c, Flush(c, s, w, accepted))
  {
    hide Local, Accounted, CountedBut, Conserved, Faithful;
    FlushBounds(c, s, w);
    var me := s.workers[w];
    var s1 := s.(workers := s.workers[w := me.(zeroing := false)]);
    var off, len := me.zeroStart, me.offset - me.zeroStart;
    LetGo(c, s, s1, w, off, len);
    FillZeroesInv(c, s1, w, off, len, accepted);
  }

  // ---- completions ----

  lemma ZeroBlockByte(data: seq<byte>, start: nat, block: nat, x: int)
    requires block > 0 && InZeroBlock(data, start, block, x)
    ensures start <= x < start + |data| && data[x - start] == 0
  {
    var b :| x - block < b <= x && ZeroBlock(data, start, block, b);
    assert data[b - start..b - start + block][x - b] == 0;
  }

  /** All pieces of a split are in range and zero pieces are zero in the source. */
  lemma SplitPieces(c: Config, cmd: Cmd, ps: seq<Piece>)
    requires cmd.len > 0 && cmd.End() <= |c.src| && c.sparseSize > 0
    requires IsSplit(c.src[cmd.offset..cmd.End()], cmd.offset, c.sparseSize, ps)
    ensures ps != [] && Chained(ps, cmd.offset, cmd.End()) && ps[0].offset == cmd.offset
    ensures forall k | 0 <= k < |ps| && ps[k].zero :: SrcZero(c, ps[k].offset, ps[k].End())
  {
    hide InZeroBlock;
    var data := c.src[cmd.offset..cmd.End()];
    forall k | 0 <= k < |ps| && ps[k].zero ensures SrcZero(c, ps[k].offset, ps[k].End()) {
      PieceBelow(ps, cmd.offset, cmd.End(), k);
      forall x | ps[k].offset <= x < ps[k].End() ensures 0 <= x < |c.src| && c.src[x] == 0 {
        KindAt(data, cmd.offset, c.sparseSize, ps, k, x);
        ZeroBlockByte(data, cmd.offset, c.sparseSize, x);
      }
    }
  }

  lemma ReadDoneLocal(c: Config, s: State, i: nat, ps: seq<Piece>)
    requires Inv(c, s) && Enabled(c, s, EReadDone(i, ps))
    ensures s.cmds[i].buf.Some? && s.cmds[i].buf.value in s.bufs && s.cmds[i].End() <= |c.src|
    ensures Local(c, ReadDone(c, s, i, ps))
  {
    hide Sum, WorkerOwners, Accounted, Conserved, Faithful, Chained;
    var cmd := s.cmds[i];
    assert CmdOk(c, s.bufs, |s.workers|, cmd);
    var s' := ReadDone(c, s, i, ps);
    if s'.cmds[i].role.Splitting? { SplitPieces(c, cmd, ps); }
    forall j | 0 <= j < |s'.cmds| ensures CmdOk(c, s'.bufs, |s'.workers|, s'.cmds[j]) {
      assert CmdOk(c, s.bufs, |s.workers|, s.cmds[j]);
      if j != i && s.cmds[j].buf == cmd.buf {
        TwoReferences(s.cmds, i, j, cmd.buf.value);
      }
    }
  }

  lemma ReadDoneKeepsSums(c: Config, s: State, i: nat, ps: seq<Piece>, m: Measure)
    requires Inv(c, s) && Enabled(c, s, EReadDone(i, ps))
    requires s.cmds[i].buf.Some? && s.cmds[i].buf.value in s.bufs && s.cmds[i].End() <= |c.src|
    ensures Sum(m, ReadDone(c, s, i, ps).cmds) == Sum(m, s.cmds)
  {
    hide Accounted, CountedBut, Conserved, Faithful, Sum;
    var cmd, cmd' := s.cmds[i], ReadDone(c, s, i, ps).cmds[i];
    assert CmdOk(c, s.bufs, |s.workers|, cmd);
    if cmd'.role.Splitting? { SplitPieces(c, cmd, ps); }
    SumSet(m, s.cmds, i, cmd');
  }

  /** A read's buffer has no other user, so filling it disturbs no other command. */
  lemma ReadDoneInv(c: Config, s: State, i: nat, ps: seq<Piece>)
    requires Inv(c, s) && Enabled(c, s, EReadDone(i, ps))
    ensures s.cmds[i].buf.Some? && s.cmds[i].buf.value in s.bufs && s.cmds[i].End() <= |c.src|
    ensures Inv(c, ReadDone(c, s, i, ps))
  {
    hide WorkerOk, CmdOk, Sum, WorkerOwners;
    ReadDoneLocal(c, s, i, ps);
    var s' := ReadDone(c, s, i, ps);
    forall m: Measure ensures Sum(m, s'.cmds) == Sum(m, s.cmds) {
      ReadDoneKeepsSums(c, s, i, ps, m);
    }
    forall x | 0 <= x < |c.src| ensures Responsible(s', x) + s'.done[x] == 1 {
      assert Responsible(s', x) == Responsible(s, x);
    }
    assert Accounted(c, s') && Faithful(c, s');
    assert s'.bufs.Keys == s.bufs.Keys;
  }

  lemma TwoReferences(cmds: seq<Cmd>, i: nat, j: nat, b: nat)
    requires i < |cmds| && j < |cmds| && i != j && cmds[i].buf == Some(b) && cmds[j].buf == Some(b)
    ensures Sum(References(b), cmds) >= 2
  {
    SumAt(References(b), cmds, i);
    var rest := RemoveAt(cmds, i);
    var j' := if j < i then j else j - 1;
    assert rest[j'] == cmds[j];
    SumAt(References(b), rest, j');
  }

  lemma RemovedAt<T>(a: seq<T>, i: nat, j: nat)
    requires i < |a| && j < |a| - 1
    ensures RemoveAt(a, i)[j] == a[if j < i then j else j + 1]
  {
  }

  /** free_command: dropping the last reference frees the buffer, and only then. */
  lemma ReleaseInv(c: Config, s: State, b: nat)
    requires ValidConfig(c) && Local(c, s) && Accounted(c, s) && Conserved(c, s, 0, 0) && Faithful(c, s)
    requires CountedBut(s, Some(b)) && b in s.bufs
    ensures Inv(c, Release(s, b))
  {
    ReleaseCounted(s, b);
    ReleaseLocal(c, s, b);
    var s' := Release(s, b);
    assert Accounted(c, s') && Faithful(c, s');
    forall x | 0 <= x < |c.src| ensures Responsible(s', x) + s'.done[x] == 1 {
      assert Responsible(s', x) == Responsible(s, x);
    }
  }

  lemma ReleaseCounted(s: State, b: nat)
    requires CountedBut(s, Some(b)) && b in s.bufs
    ensures Counted(Release(s, b))
  {
    var s' := Release(s, b);
    forall a: nat | a < s'.nextBuf ensures a in s'.bufs <==> a !in s'.freed {
      assert a in s.bufs <==> a !in s.freed;
    }
    forall j, k | 0 <= j < k < |s'.freed| ensures s'.freed[j] != s'.freed[k] {
      if k == |s.freed| { assert s.freed[j] in s.freed; }
    }
  }

  lemma ReleaseLocal(c: Config, s: State, b: nat)
    requires Local(c, s) && CountedBut(s, Some(b)) && b in s.bufs
    ensures Local(c, Release(s, b))
  {
    var s' := Release(s, b);
    forall i | 0 <= i < |s'.cmds| ensures CmdOk(c, s'.bufs, |s'.workers|, s'.cmds[i]) {
      assert CmdOk(c, s.bufs, |s.workers|, s.cmds[i]);
      if s.cmds[i].buf == Some(b) { SumAt(References(b), s.cmds, i); }
    }
  }

  /** Taking a command off the list. */
  lemma RemoveLocal(c: Config, s: State, i: nat)
    requires Local(c, s) && i < |s.cmds|
    ensures Local(c, s.(cmds := RemoveAt(s.cmds, i)))
  {
    var s' := s.(cmds := RemoveAt(s.cmds, i));
    forall j | 0 <= j < |s'.cmds|
      ensures CmdOk(c, s'.bufs, |s'.workers|, s'.cmds[j]) && !s'.workers[s'.cmds[j].worker].phase.Exited?
    {
      RemovedAt(s.cmds, i, j);
    }
  }

  lemma RemoveCounted(c: Config, s: State, i: nat)
    requires Local(c, s) && Counted(s) && i < |s.cmds|
    ensures CountedBut(s.(cmds := RemoveAt(s.cmds, i)), s.cmds[i].buf)
  {
    var s' := s.(cmds := RemoveAt(s.cmds, i));
    forall m: Measure ensures Sum(m, s.cmds) == Sum(m, s'.cmds) + Weigh(m, s.cmds[i]) { SumAt(m, s.cmds, i); }
    forall j | 0 <= j < |s'.cmds| && s'.cmds[j].role.Reading? && s'.cmds[j].buf.Some?
      ensures Sum(References(s'.cmds[j].buf.value), s'.cmds) == 1
    {
      RemovedAt(s.cmds, i, j);
      SumAt(References(s'.cmds[j].buf.value), s'.cmds, j);
    }
  }

  lemma EndSplitInv(c: Config, s: State, i: nat)
    requires Inv(c, s) && Enabled(c, s, EEndSplit(i))
    ensures s.cmds[i].buf.Some? && s.cmds[i].buf.value in s.bufs && s.bufs[s.cmds[i].buf.value].refs > 0
    ensures Inv(c, EndSplit(s, i))
  {
    hide Sum, WorkerOwners;
    var cmd := s.cmds[i];
    assert CmdOk(c, s.bufs, |s.workers|, cmd);
    var s1 := s.(cmds := RemoveAt(s.cmds, i));
    RemoveLocal(c, s, i);
    RemoveCounted(c, s, i);
    forall m: Measure | m.QueuedBytes? || m.Owners? ensures Sum(m, s1.cmds) == Sum(m, s.cmds) {
      SumAt(m, s.cmds, i);
    }
    forall x | 0 <= x < |c.src| ensures Responsible(s1, x) + s1.done[x] == 1 {
      assert Responsible(s1, x) == Responsible(s, x);
    }
    assert Accounted(c, s1) && Faithful(c, s1);
    ReleaseInv(c, s1, cmd.buf.value);
  }

  /** What an outstanding write or zero command stores is the source's content. */
  lemma PayloadIsSource(c: Config, s: State, i: nat)
    requires Local(c, s) && i < |s.cmds| && (s.cmds[i].role.Writing? || s.cmds[i].role.Zeroing?)
    ensures s.cmds[i].buf.Some? ==>
      s.cmds[i].buf.value in s.bufs && s.cmds[i].base + s.cmds[i].len <= |s.bufs[s.cmds[i].buf.value].data|
    ensures Payload(s, s.cmds[i]) == c.src[s.cmds[i].offset..s.cmds[i].End()]
  {
    assert CmdOk(c, s.bufs, |s.workers|, s.cmds[i]);
  }

  lemma LandInv(c: Config, s: State, i: nat, k: nat)
    requires Inv(c, s) && Enabled(c, s, ELand(i, k))
    ensures s.cmds[i].End() <= |s.dst|
    ensures s.cmds[i].buf.Some? ==>
      s.cmds[i].buf.value in s.bufs && s.cmds[i].base + s.cmds[i].len <= |s.bufs[s.cmds[i].buf.value].data|
    ensures Inv(c, Land(s, i, k))
  {
    hide Sum, WorkerOwners;
    assert CmdOk(c, s.bufs, |s.workers|, s.cmds[i]);
    PayloadIsSource(c, s, i);
    var s' := Land(s, i, k);
    assert s'.dst[s.cmds[i].offset + k] == c.src[s.cmds[i].offset + k];
    assert Faithful(c, s');
    forall x | 0 <= x < |c.src| ensures Responsible(s', x) + s'.done[x] == 1 {
      assert Responsible(s', x) == Responsible(s, x);
    }
  }

  /** The state in the middle of finished_command, before the buffer is released. */
  function Stored(s: State, i: nat, data: seq<byte>): State
    requires i < |s.cmds| && s.cmds[i].offset + |data| <= |s.dst| && s.cmds[i].worker < |s.workers|
    requires s.cmds[i].buf.Some? ==> s.cmds[i].len <= s.workers[s.cmds[i].worker].queueSize
  {
    var cmd := s.cmds[i];
    var w := cmd.worker;
    var s1 := Store(s, cmd.offset, data).(cmds := RemoveAt(s.cmds, i));
    if cmd.buf.None? then s1
    else s1.(workers := s.workers[w := s.workers[w].(queueSize := s.workers[w].queueSize - cmd.len)])
  }

  /** A command's bytes are part of its worker's queue size, so the subtraction is safe. */
  lemma NoUnderflow(c: Config, s: State, i: nat)
    requires Local(c, s) && Accounted(c, s) && i < |s.cmds|
    ensures s.cmds[i].worker < |s.workers| && s.cmds[i].Rest() <= s.cmds[i].End()
    ensures s.cmds[i].buf.Some? ==> s.cmds[i].End() - s.cmds[i].Rest() <= s.workers[s.cmds[i].worker].queueSize
  {
    assert CmdOk(c, s.bufs, |s.workers|, s.cmds[i]);
    SumAt(QueuedBytes(s.cmds[i].worker), s.cmds, i);
  }

  lemma StoredAccounted(c: Config, s: State, i: nat, data: seq<byte>)
    requires Local(c, s) && Accounted(c, s) && i < |s.cmds| && s.cmds[i].offset + |data| <= |s.dst|
    requires !s.cmds[i].role.Splitting?
    ensures s.cmds[i].worker < |s.workers|
    ensures s.cmds[i].buf.Some? ==> s.cmds[i].len <= s.workers[s.cmds[i].worker].queueSize
    ensures Accounted(c, Stored(s, i, data))
  {
    NoUnderflow(c, s, i);
    var s' := Stored(s, i, data);
    forall v | 0 <= v < |s'.workers| ensures
        && s'.workers[v].queueSize == Sum(QueuedBytes(v), s'.cmds)
        && s'.workers[v].queueSize < c.queueLimit + c.requestSize {
      SumAt(QueuedBytes(v), s.cmds, i);
    }
  }

  lemma {:induction false} OwnersIgnoreQueue(a: seq<Worker>, b: seq<Worker>, x: int)
    requires |a| == |b| && forall w | 0 <= w < |a| :: b[w] == a[w].(queueSize := b[w].queueSize)
    ensures WorkerOwners(a, x) == WorkerOwners(b, x)
  {
    if a != [] {
      OwnersIgnoreQueue(a[..|a| - 1], b[..|b| - 1], x);
      assert b[|a| - 1].Owns(x) == a[|a| - 1].Owns(x);
    }
  }

  lemma StoredConserved(c: Config, s: State, i: nat, data: seq<byte>)
    requires |s.done| == |c.src| && Conserved(c, s, 0, 0) && i < |s.cmds| && s.cmds[i].worker < |s.workers|
    requires !s.cmds[i].role.Splitting? && |data| == s.cmds[i].len && s.cmds[i].End() <= |s.dst|
    requires s.cmds[i].buf.Some? ==> s.cmds[i].len <= s.workers[s.cmds[i].worker].queueSize
    ensures Conserved(c, Stored(s, i, data), 0, 0)
  {
    var s' := Stored(s, i, data);
    forall x | 0 <= x < |c.src| ensures Responsible(s', x) + s'.done[x] == 1 {
      FinishedAt(s.done, s.cmds[i].offset, |data|, x);
      SumAt(Owners(x), s.cmds, i);
      OwnersIgnoreQueue(s.workers, s'.workers, x);
      assert Responsible(s, x) + s.done[x] == 1;
    }
  }

  lemma StoredLocal(c: Config, s: State, i: nat, data: seq<byte>)
    requires Local(c, s) && i < |s.cmds| && s.cmds[i].offset + |data| <= |s.dst| && s.cmds[i].worker < |s.workers|
    requires s.cmds[i].buf.Some? ==> s.cmds[i].len <= s.workers[s.cmds[i].worker].queueSize
    ensures Local(c, Stored(s, i, data))
  {
    RemoveLocal(c, s, i);
    var s', s1 := Stored(s, i, data), s.(cmds := RemoveAt(s.cmds, i));
    forall w | 0 <= w < |s'.workers| ensures WorkerOk(c, s'.workers[w]) {
      assert WorkerOk(c, s.workers[w]);
    }
    forall j | 0 <= j < |s'.cmds|
      ensures CmdOk(c, s'.bufs, |s'.workers|, s'.cmds[j]) && !s'.workers[s'.cmds[j].worker].phase.Exited?
    {
      assert CmdOk(c, s1.bufs, |s1.workers|, s1.cmds[j]);
    }
  }

  /** finished_command for a write or a zero command. */
  lemma CommandDoneInv(c: Config, s: State, i: nat)
    requires Inv(c, s) && Enabled(c, s, EDone(i))
    ensures s.cmds[i].End() <= |s.dst| && s.cmds[i].worker < |s.workers|
    ensures s.cmds[i].buf.Some? ==>
      && s.cmds[i].buf.value in s.bufs && s.cmds[i].base + s.cmds[i].len <= |s.bufs[s.cmds[i].buf.value].data|
      && s.bufs[s.cmds[i].buf.value].refs > 0 && s.cmds[i].len <= s.workers[s.cmds[i].worker].queueSize
    ensures Inv(c, CommandDone(s, i))
  {
    hide Accounted, Conserved, Sum, WorkerOwners;
    var cmd := s.cmds[i];
    assert CmdOk(c, s.bufs, |s.workers|, cmd);
    PayloadIsSource(c, s, i);
    var data := Payload(s, cmd);
    StoredAccounted(c, s, i, data);
    StoredConserved(c, s, i, data);
    StoredLocal(c, s, i, data);
    RemoveCounted(c, s, i);
    var s1 := Stored(s, i, data);
    StoreFaithful(c, s, s1, cmd.offset, cmd.len);
    if cmd.buf.Some? {
      assert CountedBut(s1, cmd.buf);
      ReleaseInv(c, s1, cmd.buf.value);
    }
  }

  // ---- dispatching the pieces of a split read ----

  /** The command after its first piece was taken. */
  function Tail(cmd: Cmd): Cmd
    requires cmd.role.Splitting? && cmd.role.rest != []
  {
    cmd.(role := Splitting(cmd.role.rest[1..]))
  }

  lemma TailOk(c: Config, bufs: map<nat, Buffer>, threads: nat, cmd: Cmd)
    requires CmdOk(c, bufs, threads, cmd) && cmd.role.Splitting? && cmd.role.rest != []
    ensures CmdOk(c, bufs, threads, Tail(cmd)) && Tail(cmd).Rest() == cmd.role.rest[0].End() <= cmd.End()
    ensures cmd.Rest() == cmd.role.rest[0].offset && cmd.role.rest[0].len > 0
    ensures cmd.role.rest[0].zero ==> SrcZero(c, cmd.role.rest[0].offset, cmd.role.rest[0].End())
  {
    var rest := cmd.role.rest;
    PieceBelow(rest, cmd.Rest(), cmd.End(), 0);
    if |rest| > 1 { assert rest[1].offset == rest[0].End(); }
    assert Chained(rest[1..], rest[0].End(), cmd.End());
  }

  /** The state after the piece was taken off the split command and, for a zero piece,
      out of the queue. */
  function Taken(s: State, i: nat): State
    requires i < |s.cmds| && s.cmds[i].role.Splitting? && s.cmds[i].role.rest != [] && s.cmds[i].worker < |s.workers|
    requires s.cmds[i].role.rest[0].len <= s.workers[s.cmds[i].worker].queueSize
  {
    var cmd := s.cmds[i];
    var w, p := cmd.worker, cmd.role.rest[0];
    s.(cmds := s.cmds[i := Tail(cmd)],
       workers := s.workers[w := s.workers[w].(queueSize := s.workers[w].queueSize - p.len)])
  }

  lemma TakenLocal(c: Config, s: State, i: nat)
    requires Local(c, s) && Accounted(c, s) && i < |s.cmds| && s.cmds[i].role.Splitting? && s.cmds[i].role.rest != []
    ensures s.cmds[i].worker < |s.workers|
    ensures s.cmds[i].role.rest[0].len <= s.workers[s.cmds[i].worker].queueSize
    ensures Local(c, Taken(s, i))
  {
    assert CmdOk(c, s.bufs, |s.workers|, s.cmds[i]);
    TailOk(c, s.bufs, |s.workers|, s.cmds[i]);
    NoUnderflow(c, s, i);
    var s' := Taken(s, i);
    forall w | 0 <= w < |s'.workers| ensures WorkerOk(c, s'.workers[w]) {
      assert WorkerOk(c, s.workers[w]);
    }
    forall j | 0 <= j < |s'.cmds|
      ensures CmdOk(c, s'.bufs, |s'.workers|, s'.cmds[j]) && !s'.workers[s'.cmds[j].worker].phase.Exited?
    {
      assert CmdOk(c, s.bufs, |s.workers|, s.cmds[j]);
    }
  }

  lemma TakenCounts(c: Config, s: State, i: nat)
    requires Local(c, s) && Accounted(c, s) && Counted(s)
    requires i < |s.cmds| && s.cmds[i].role.Splitting? && s.cmds[i].role.rest != [] && s.cmds[i].worker < |s.workers|
    requires s.cmds[i].role.rest[0].len <= s.workers[s.cmds[i].worker].queueSize
    ensures Accounted(c, Taken(s, i)) && Counted(Taken(s, i))
  {
    hide Sum, WorkerOk;
    var cmd, s' := s.cmds[i], Taken(s, i);
    assert CmdOk(c, s.bufs, |s.workers|, cmd);
    TailOk(c, s.bufs, |s.workers|, cmd);
    forall v | 0 <= v < |s'.workers| ensures
        && s'.workers[v].queueSize == Sum(QueuedBytes(v), s'.cmds)
        && s'.workers[v].queueSize < c.queueLimit + c.requestSize {
      SumSet(QueuedBytes(v), s.cmds, i, Tail(cmd));
    }
    forall b ensures Sum(References(b), s'.cmds) == Sum(References(b), s.cmds) {
      SumSet(References(b), s.cmds, i, Tail(cmd));
    }
  }

  /** The piece's range is now in nobody's hands, and nothing else changed hands. */
  lemma TakenInv(c: Config, s: State, i: nat)
    requires Inv(c, s) && i < |s.cmds| && s.cmds[i].role.Splitting? && s.cmds[i].role.rest != []
    ensures s.cmds[i].worker < |s.workers|
    ensures s.cmds[i].role.rest[0].len <= s.workers[s.cmds[i].worker].queueSize
    ensures InvBut(c, Taken(s, i), s.cmds[i].role.rest[0].offset, s.cmds[i].role.rest[0].End())
  {
    hide Accounted, CountedBut, Sum, WorkerOwners;
    TakenLocal(c, s, i);
    TakenCounts(c, s, i);
    var cmd, s' := s.cmds[i], Taken(s, i);
    var p := cmd.role.rest[0];
    assert CmdOk(c, s.bufs, |s.workers|, cmd);
    TailOk(c, s.bufs, |s.workers|, cmd);
    forall x | 0 <= x < |c.src|
      ensures Responsible(s', x) + s'.done[x] == if p.offset <= x < p.End() then 0 else 1
    {
      SumSet(Owners(x), s.cmds, i, Tail(cmd));
      OwnersIgnoreQueue(s.workers, s'.workers, x);
      assert Responsible(s, x) + s.done[x] == 1;
    }
  }

  /** Adding a write that shares an existing buffer. */
  function Share(s: State, sub: Cmd, b: nat): State
    requires b in s.bufs && sub.worker < |s.workers|
  {
    var w := sub.worker;
    s.(bufs := s.bufs[b := s.bufs[b].(refs := s.bufs[b].refs + 1)], cmds := s.cmds + [sub],
       workers := s.workers[w := s.workers[w].(queueSize := s.workers[w].queueSize + sub.len)])
  }

  lemma ShareLocal(c: Config, s: State, sub: Cmd, b: nat)
    requires Local(c, s) && CmdOk(c, s.bufs, |s.workers|, sub) && sub.buf == Some(b) && sub.role.Writing?
    requires !s.workers[sub.worker].phase.Exited?
    ensures Local(c, Share(s, sub, b))
  {
    var s' := Share(s, sub, b);
    forall w | 0 <= w < |s'.workers| ensures WorkerOk(c, s'.workers[w]) {
      assert WorkerOk(c, s.workers[w]);
    }
    forall j | 0 <= j < |s'.cmds|
      ensures CmdOk(c, s'.bufs, |s'.workers|, s'.cmds[j]) && !s'.workers[s'.cmds[j].worker].phase.Exited?
    {
      if j < |s.cmds| { assert CmdOk(c, s.bufs, |s.workers|, s.cmds[j]); }
    }
  }

  lemma ShareCounted(s: State, sub: Cmd, b: nat)
    requires Counted(s) && sub.buf == Some(b) && b in s.bufs && sub.role.Writing? && sub.worker < |s.workers|
    requires forall j | 0 <= j < |s.cmds| && s.cmds[j].role.Reading? :: s.cmds[j].buf != Some(b)
    ensures Counted(Share(s, sub, b))
  {
    hide Sum;
    var s' := Share(s, sub, b);
    forall a ensures Sum(References(a), s'.cmds) == Sum(References(a), s.cmds) + if a == b then 1 else 0 {
      SumAppend(References(a), s.cmds, sub);
    }
    assert s'.bufs.Keys == s.bufs.Keys;
  }

  lemma ShareAccounted(c: Config, s: State, sub: Cmd, b: nat)
    requires Accounted(c, s) && sub.buf == Some(b) && b in s.bufs && sub.role.Writing? && sub.worker < |s.workers|
    requires s.workers[sub.worker].queueSize + sub.len < c.queueLimit + c.requestSize
    ensures Accounted(c, Share(s, sub, b))
  {
    hide Sum;
    var s' := Share(s, sub, b);
    forall v | 0 <= v < |s'.workers| ensures
        && s'.workers[v].queueSize == Sum(QueuedBytes(v), s'.cmds)
        && s'.workers[v].queueSize < c.queueLimit + c.requestSize {
      SumAppend(QueuedBytes(v), s.cmds, sub);
    }
  }

  lemma ShareConserved(c: Config, s: State, sub: Cmd, b: nat)
    requires |s.done| == |c.src| && Conserved(c, s, sub.offset, sub.End())
    requires b in s.bufs && sub.role.Writing? && sub.worker < |s.workers|
    ensures Conserved(c, Share(s, sub, b), 0, 0)
  {
    hide Sum, WorkerOwners;
    var s' := Share(s, sub, b);
    forall x | 0 <= x < |c.src| ensures Responsible(s', x) + s'.done[x] == 1 {
      SumAppend(Owners(x), s.cmds, sub);
      OwnersIgnoreQueue(s.workers, s'.workers, x);
      assert Responsible(s, x) + s.done[x] == if sub.offset <= x < sub.End() then 0 else 1;
    }
  }

  lemma ShareInv(c: Config, s: State, sub: Cmd, b: nat)
    requires InvBut(c, s, sub.offset, sub.End()) && CmdOk(c, s.bufs, |s.workers|, sub) && sub.buf == Some(b)
    requires sub.role.Writing? && !s.workers[sub.worker].phase.Exited?
    requires s.workers[sub.worker].queueSize + sub.len < c.queueLimit + c.requestSize
    requires forall j | 0 <= j < |s.cmds| && s.cmds[j].role.Reading? :: s.cmds[j].buf != Some(b)
    ensures Inv(c, Share(s, sub, b))
  {
    ShareLocal(c, s, sub, b);
    ShareAccounted(c, s, sub, b);
    ShareCounted(s, sub, b);
    ShareConserved(c, s, sub, b);
    assert Faithful(c, Share(s, sub, b));
  }

  /** The write command for the first piece of a split read. */
  function Sub(cmd: Cmd): Cmd
    requires cmd.role.Splitting? && cmd.role.rest != [] && cmd.offset <= cmd.role.rest[0].offset
  {
    var p := cmd.role.rest[0];
    Cmd(cmd.worker, p.offset, p.len, Writing, cmd.buf, cmd.base + p.offset - cmd.offset)
  }

  lemma SubOk(c: Config, bufs: map<nat, Buffer>, threads: nat, cmd: Cmd)
    requires CmdOk(c, bufs, threads, cmd) && cmd.role.Splitting? && cmd.role.rest != []
    ensures cmd.offset <= cmd.role.rest[0].offset && CmdOk(c, bufs, threads, Sub(cmd))
  {
    TailOk(c, bufs, threads, cmd);
    var sub, b := Sub(cmd), cmd.buf.value;
    var whole := c.src[cmd.offset..cmd.End()];
    assert bufs[b].data == whole && cmd.base == 0;
    assert forall k | sub.base <= k < sub.base + sub.len :: whole[k] == c.src[cmd.offset + k];
    assert whole[sub.base..sub.base + sub.len] == c.src[sub.offset..sub.End()];
  }

  lemma DispatchDataInv(c: Config, s: State, i: nat)
    requires Inv(c, s) && i < |s.cmds| && s.cmds[i].role.Splitting? && s.cmds[i].role.rest != []
    ensures CmdOk(c, s.bufs, |s.workers|, s.cmds[i]) && s.cmds[i].offset <= s.cmds[i].role.rest[0].offset
    ensures s.cmds[i].role.rest[0].len <= s.workers[s.cmds[i].worker].queueSize
    ensures Inv(c, Share(Taken(s, i), Sub(s.cmds[i]), s.cmds[i].buf.value))
  {
    hide Conserved, Faithful, Sum, WorkerOwners;
    var cmd := s.cmds[i];
    var b := cmd.buf.value;
    SubOk(c, s.bufs, |s.workers|, cmd);
    TakenInv(c, s, i);
    var s1 := Taken(s, i);
    forall j | 0 <= j < |s1.cmds| && s1.cmds[j].role.Reading? ensures s1.cmds[j].buf != Some(b) {
      if s1.cmds[j].buf == Some(b) { TwoReferences(s1.cmds, i, j, b); }
    }
    ShareInv(c, s1, Sub(cmd), b);
  }

  lemma DispatchBounds(c: Config, s: State, i: nat)
    requires Inv(c, s) && i < |s.cmds| && s.cmds[i].role.Splitting? && s.cmds[i].role.rest != []
    ensures s.cmds[i].buf.Some? && s.cmds[i].buf.value in s.bufs && s.cmds[i].worker < |s.workers|
    ensures s.cmds[i].role.rest[0].End() <= |s.dst| && s.cmds[i].offset <= s.cmds[i].role.rest[0].offset
    ensures s.cmds[i].role.rest[0].len <= s.workers[s.cmds[i].worker].queueSize
  {
    assert CmdOk(c, s.bufs, |s.workers|, s.cmds[i]);
    TailOk(c, s.bufs, |s.workers|, s.cmds[i]);
    NoUnderflow(c, s, i);
  }

  lemma DispatchZeroInv(c: Config, s: State, i: nat, accepted: bool)
    requires Inv(c, s) && i < |s.cmds| && s.cmds[i].role.Splitting? && s.cmds[i].role.rest != []
    requires s.cmds[i].worker < |s.workers| && s.cmds[i].role.rest[0].End() <= |s.dst|
    requires s.cmds[i].role.rest[0].len <= s.workers[s.cmds[i].worker].queueSize && s.cmds[i].role.rest[0].zero
    ensures var p := s.cmds[i].role.rest[0];
            Inv(c, FillZeroes(c, Taken(s, i), s.cmds[i].worker, p.offset, p.len, accepted))
  {
    TakenInv(c, s, i);
    assert CmdOk(c, s.bufs, |s.workers|, s.cmds[i]);
    TailOk(c, s.bufs, |s.workers|, s.cmds[i]);
    var p := s.cmds[i].role.rest[0];
    FillZeroesInv(c, Taken(s, i), s.cmds[i].worker, p.offset, p.len, accepted);
  }

  /** Taking the piece out and sharing the buffer is what DispatchPiece does. */
  lemma DispatchDecomposed(c: Config, s: State, i: nat, accepted: bool)
    requires i < |s.cmds| && s.cmds[i].role.Splitting? && s.cmds[i].role.rest != []
    requires s.cmds[i].buf.Some? && s.cmds[i].buf.value in s.bufs && s.cmds[i].worker < |s.workers|
    requires s.cmds[i].role.rest[0].End() <= |s.dst| && s.cmds[i].offset <= s.cmds[i].role.rest[0].offset
    requires s.cmds[i].role.rest[0].len <= s.workers[s.cmds[i].worker].queueSize
    ensures var p := s.cmds[i].role.rest[0];
            DispatchPiece(c, s, i, accepted) ==
            if p.zero then FillZeroes(c, Taken(s, i), s.cmds[i].worker, p.offset, p.len, accepted)
            else Share(Taken(s, i), Sub(s.cmds[i]), s.cmds[i].buf.value)
  {
    var w, p := s.cmds[i].worker, s.cmds[i].role.rest[0];
    if !p.zero {
      var a, b := DispatchPiece(c, s, i, accepted), Share(Taken(s, i), Sub(s.cmds[i]), s.cmds[i].buf.value);
      assert b.workers[w] == s.workers[w] == a.workers[w];
      assert forall v | 0 <= v < |s.workers| :: a.workers[v] == b.workers[v];
      assert a.workers == b.workers;
      assert a.cmds == b.cmds;
    }
  }

  lemma DispatchInv(c: Config, s: State, i: nat, accepted: bool)
    requires Inv(c, s) && i < |s.cmds| && s.cmds[i].role.Splitting? && s.cmds[i].role.rest != []
    requires s.cmds[i].buf.Some? && s.cmds[i].buf.value in s.bufs && s.cmds[i].worker < |s.workers|
    requires s.cmds[i].role.rest[0].End() <= |s.dst| && s.cmds[i].offset <= s.cmds[i].role.rest[0].offset
    requires s.cmds[i].role.rest[0].len <= s.workers[s.cmds[i].worker].queueSize
    ensures Inv(c, DispatchPiece(c, s, i, accepted))
  {
    DispatchDecomposed(c, s, i, accepted);
    if s.cmds[i].role.rest[0].zero {
      DispatchZeroInv(c, s, i, accepted);
    } else {
      DispatchDataInv(c, s, i);
    }
  }

  /** A dispatch changes only the split command and appends at most one command. */
  lemma DispatchShape(c: Config, s: State, i: nat, accepted: bool)
    requires Defined(c, s, EDispatch(i, accepted))
    ensures var s' := DispatchPiece(c, s, i, accepted);
            |s'.cmds| >= |s.cmds| && s'.cmds[..|s.cmds|] == s.cmds[i := Tail(s.cmds[i])]
  {
  }

  lemma InvWorker(c: Config, s: State, w: nat)
    requires Inv(c, s) && w < |s.workers|
    ensures ValidConfig(c) && WorkerOk(c, s.workers[w])
  {
  }

  lemma InvCmd(c: Config, s: State, i: nat)
    requires Inv(c, s) && i < |s.cmds|
    ensures ValidConfig(c) && CmdOk(c, s.bufs, |s.workers|, s.cmds[i])
  {
  }

  // ---- runs ----

  /** The step touches only live buffers, stays inside the destination and does not take
      a queue size below zero: the assertions of the original hold. */
  predicate Defined(c: Config, s: State, e: Event)
  {
    match e
    case EFlush(w, _) =>
      w < |s.workers| && s.workers[w].zeroStart < s.workers[w].offset <= |s.dst|
    case EReadDone(i, _) =>
      i < |s.cmds| && s.cmds[i].buf.Some? && s.cmds[i].buf.value in s.bufs && s.cmds[i].End() <= |c.src|
    case EDispatch(i, _) =>
      && i < |s.cmds| && s.cmds[i].role.Splitting? && s.cmds[i].role.rest != []
      && s.cmds[i].buf.Some? && s.cmds[i].buf.value in s.bufs && s.cmds[i].worker < |s.workers|
      && s.cmds[i].role.rest[0].End() <= |s.dst| && s.cmds[i].offset <= s.cmds[i].role.rest[0].offset
      && s.cmds[i].role.rest[0].len <= s.workers[s.cmds[i].worker].queueSize
    case EEndSplit(i) =>
      && i < |s.cmds| && s.cmds[i].buf.Some?
      && s.cmds[i].buf.value in s.bufs && s.bufs[s.cmds[i].buf.value].refs > 0
    case ELand(i, k) =>
      && i < |s.cmds| && k < s.cmds[i].len && s.cmds[i].End() <= |s.dst|
      && (s.cmds[i].buf.Some? ==>
            s.cmds[i].buf.value in s.bufs && s.cmds[i].base + s.cmds[i].len <= |s.bufs[s.cmds[i].buf.value].data|)
    case EDone(i) =>
      && i < |s.cmds| && s.cmds[i].End() <= |s.dst| && s.cmds[i].worker < |s.workers|
      && (s.cmds[i].buf.Some? ==>
            && s.cmds[i].buf.value in s.bufs && s.cmds[i].base + s.cmds[i].len <= |s.bufs[s.cmds[i].buf.value].data|
            && s.bufs[s.cmds[i].buf.value].refs > 0 && s.cmds[i].len <= s.workers[s.cmds[i].worker].queueSize)
    case _ => e.w < |s.workers|
  }

  function Step(c: Config, s: State, e: Event): State
    requires Defined(c, s, e)
  {
    match e
    case EFetch(w, exts) => Fetch(c, s, w, exts)
    case EDefer(w) => Defer(c, s, w)
    case EFlush(w, accepted) => Flush(c, s, w, accepted)
    case EIssueRead(w) => IssueRead(c, s, w)
    case EEndRange(w) => SetPhase(s, w, Fetching)
    case EExit(w) => SetPhase(s, w, Exited)
    case EReadDone(i, ps) => ReadDone(c, s, i, ps)
    case EDispatch(i, accepted) => DispatchPiece(c, s, i, accepted)
    case EEndSplit(i) => EndSplit(s, i)
    case ELand(i, k) => Land(s, i, k)
    case EDone(i) => CommandDone(s, i)
  }

  /** In every state that satisfies the invariant an enabled step is defined, and it
      keeps the invariant. */
  lemma StepInv(c: Config, s: State, e: Event)
    requires Inv(c, s) && Enabled(c, s, e)
    ensures Defined(c, s, e) && Inv(c, Step(c, s, e))
  {
    hide Local, Accounted, CountedBut, Conserved, Faithful;
    match e
    case EFetch(w, exts) => FetchInv(c, s, w, exts);
    case EDefer(w) => DeferInv(c, s, w);
    case EFlush(w, accepted) => FlushBounds(c, s, w); FlushInv(c, s, w, accepted);
    case EIssueRead(w) => IssueReadInv(c, s, w);
    case EEndRange(w) => EndRangeInv(c, s, w);
    case EExit(w) => ExitInv(c, s, w);
    case EReadDone(i, ps) => ReadDoneInv(c, s, i, ps);
    case EDispatch(i, accepted) => DispatchBounds(c, s, i); DispatchInv(c, s, i, accepted);
    case EEndSplit(i) => EndSplitInv(c, s, i);
    case ELand(i, k) => LandInv(c, s, i, k);
    case EDone(i) => CommandDoneInv(c, s, i);
  }

  /** `trace` is a run: it starts in the initial state and each state follows from the
      one before by some enabled step.  An undefined step could lead anywhere. */
  ghost predicate IsRun(c: Config, trace: seq<State>)
  {
    && trace != [] && trace[0] == Init(c)
    && forall k | 0 < k < |trace| :: Follows(c, trace[k - 1], trace[k])
  }

  ghost predicate Follows(c: Config, s: State, s': State)
  {
    exists e :: Enabled(c, s, e) && (Defined(c, s, e) ==> s' == Step(c, s, e))
  }

  lemma {:induction false} RunInv(c: Config, trace: seq<State>, k: nat)
    requires ValidConfig(c) && IsRun(c, trace) && k < |trace|
    ensures Inv(c, trace[k])
  {
    hide Local, Accounted, CountedBut, Conserved, Faithful, Step, Defined, Enabled;
    if k == 0 {
      InitInv(c);
    } else {
      RunInv(c, trace, k - 1);
      assert Follows(c, trace[k - 1], trace[k]);
      var e :| Enabled(c, trace[k - 1], e) && (Defined(c, trace[k - 1], e) ==> trace[k] == Step(c, trace[k - 1], e));
      StepInv(c, trace[k - 1], e);
    }
  }

  /** With every worker gone the destination is the source followed by whatever the
      destination held beyond it; each byte was finished exactly once; no command is
      outstanding, every queue is empty and every buffer was freed, once. */
  lemma CompleteCopy(c: Config, s: State)
    requires Inv(c, s) && forall w | 0 <= w < |s.workers| :: s.workers[w].phase.Exited?
    ensures s.dst == c.src + c.dst0[|c.src|..]
    ensures s.done == seq(|c.src|, _ => 1)
    ensures s.cmds == [] && s.bufs == map[]
    ensures forall w | 0 <= w < |s.workers| :: s.workers[w].queueSize == 0
    ensures forall b: nat | b < s.nextBuf :: b in s.freed
  {
    assert s.workers[0].phase.Exited?;
    if s.cmds != [] {
      assert false;
    }
    forall x | 0 <= x < |c.src| ensures s.done[x] == 1 {
      OwnersNone(s.workers, x);
      assert Responsible(s, x) + s.done[x] == 1;
    }
    assert forall b :: b !in s.bufs;
  }

  /** The copy theorem: whatever the interleaving of workers and completions, a run that
      has come to its end has copied the source. */
  lemma EveryRunCopies(c: Config, trace: seq<State>)
    requires ValidConfig(c) && IsRun(c, trace)
    requires var last := trace[|trace| - 1]; forall w | 0 <= w < |last.workers| :: last.workers[w].phase.Exited?
    ensures trace[|trace| - 1].dst == c.src + c.dst0[|c.src|..]
  {
    RunInv(c, trace, |trace| - 1);
    CompleteCopy(c, trace[|trace| - 1]);
  }
}
