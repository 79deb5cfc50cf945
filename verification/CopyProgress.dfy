/** The copier does not stop halfway: as long as a worker is left some step is possible, and
    every step but the landing of single bytes brings the copy nearer to its end. */
module CopyProgress {
  import opened Bytes
  import opened Extents
  import opened SparseSplit
  import opened CopyModel
  import opened CopyTheorems

  // ---- sums ----

  function Tot<T>(f: T -> nat, s: seq<T>): nat { if s == [] then 0 else Tot(f, s[..|s| - 1]) + f(s[|s| - 1]) }

  lemma {:induction false} TotConcat<T>(f: T -> nat, a: seq<T>, b: seq<T>)
    ensures Tot(f, a + b) == Tot(f, a) + Tot(f, b)
  {
    if b == [] {
      assert a + b == a;
    } else {
      TotConcat(f, a, b[..|b| - 1]);
      assert (a + b)[..|a + b| - 1] == a + b[..|b| - 1];
    }
  }

  lemma TotAppend<T>(f: T -> nat, a: seq<T>, x: T)
    ensures Tot(f, a + [x]) == Tot(f, a) + f(x)
  {
    assert (a + [x])[..|a|] == a;
  }

  lemma TotAt<T>(f: T -> nat, a: seq<T>, i: nat)
    requires i < |a|
    ensures Tot(f, a) == Tot(f, RemoveAt(a, i)) + f(a[i])
  {
    hide Tot;
    assert a == a[..i] + [a[i]] + a[i + 1..];
    TotConcat(f, a[..i] + [a[i]], a[i + 1..]);
    TotAppend(f, a[..i], a[i]);
    TotConcat(f, a[..i], a[i + 1..]);
  }

  lemma TotSet<T>(f: T -> nat, a: seq<T>, i: nat, x: T)
    requires i < |a|
    ensures Tot(f, a[i := x]) + f(a[i]) == Tot(f, a) + f(x)
  {
    hide Tot;
    TotAt(f, a, i);
    TotAt(f, a[i := x], i);
    assert RemoveAt(a[i := x], i) == RemoveAt(a, i);
  }

  // ---- what is left to do ----

  /** A byte costs the more the further it is from being finished. */
  function WorkerWork(me: Worker): nat
  {
    match me.phase
    case Fetching => 2
    case Draining => 1
    case Exited => 0
    case Copying =>
      3 + 20 * me.count + if me.zeroing && me.zeroStart <= me.offset then 16 * (me.offset - me.zeroStart) else 0
  }

  function CmdWork(cmd: Cmd): nat
  {
    match cmd.role
    case Reading => 1 + 16 * cmd.len
    case Splitting(_) => 1 + if cmd.Rest() <= cmd.End() then 12 * (cmd.End() - cmd.Rest()) else 0
    case _ => 1 + 8 * cmd.len
  }

  function Work(c: Config, s: State): nat
  {
    (if s.nextOffset < |c.src| then 24 * (|c.src| - s.nextOffset) else 0) + Tot(WorkerWork, s.workers) +
      Tot(CmdWork, s.cmds)
  }

  /** Setting one worker, all else equal. */
  lemma WorkerLess(c: Config, s: State, s': State, w: nat, me: Worker)
    requires w < |s.workers| && s'.workers == s.workers[w := me] && s'.cmds == s.cmds && s'.nextOffset == s.nextOffset
    requires WorkerWork(me) < WorkerWork(s.workers[w])
    ensures Work(c, s') < Work(c, s)
  {
    TotSet(WorkerWork, s.workers, w, me);
  }

  lemma FetchLess(c: Config, s: State, w: nat, exts: seq<Extent>)
    requires Inv(c, s) && Enabled(c, s, EFetch(w, exts))
    ensures Work(c, Fetch(c, s, w, exts)) < Work(c, s)
  {
    hide Inv;
    assert c.workSize > 0 by { ConfigOf(c, s); }
    TotSet(WorkerWork, s.workers, w, Fetch(c, s, w, exts).workers[w]);
  }

  lemma ConfigOf(c: Config, s: State)
    requires Inv(c, s)
    ensures ValidConfig(c)
  {
    hide Local, Accounted, CountedBut, Conserved, Faithful;
  }

  lemma DeferLess(c: Config, s: State, w: nat)
    requires Inv(c, s) && InLoop(s, w)
    ensures Work(c, Defer(c, s, w)) < Work(c, s)
  {
    hide Inv, Tot;
    ConfigOf(c, s);
    InvWorker(c, s, w);
    WorkerLess(c, s, Defer(c, s, w), w, Defer(c, s, w).workers[w]);
  }

  lemma IssueReadLess(c: Config, s: State, w: nat)
    requires Inv(c, s) && InLoop(s, w) && !s.workers[w].zeroing
    ensures Work(c, IssueRead(c, s, w)) < Work(c, s)
  {
    hide Inv, Tot;
    ConfigOf(c, s);
    var s' := IssueRead(c, s, w);
    TotSet(WorkerWork, s.workers, w, s'.workers[w]);
    TotAppend(CmdWork, s.cmds, s'.cmds[|s.cmds|]);
    assert s'.cmds == s.cmds + [s'.cmds[|s.cmds|]];
  }

  /** Zeroing costs at most a command of that length. */
  lemma FillZeroesWork(c: Config, s: State, w: nat, off: nat, len: nat, accepted: bool)
    requires off + len <= |s.dst|
    ensures var s' := FillZeroes(c, s, w, off, len, accepted);
      && s'.workers == s.workers && s'.nextOffset == s.nextOffset
      && Tot(CmdWork, s'.cmds) <= Tot(CmdWork, s.cmds) + 1 + 8 * len
  {
    hide Tot, Overwrite, Finished;
    TotAppend(CmdWork, s.cmds, Cmd(w, off, len, Zeroing, None, 0));
  }

  lemma FlushLess(c: Config, s: State, w: nat, accepted: bool)
    requires Inv(c, s) && Enabled(c, s, EFlush(w, accepted)) && s.workers[w].zeroStart < s.workers[w].offset <= |s.dst|
    ensures Work(c, Flush(c, s, w, accepted)) < Work(c, s)
  {
    hide Inv, Tot, FillZeroes, Enabled;
    assert s.workers[w].phase.Copying? && s.workers[w].zeroing by { FlushPhase(c, s, w, accepted); }
    var me := s.workers[w];
    var s1 := s.(workers := s.workers[w := me.(zeroing := false)]);
    TotSet(WorkerWork, s.workers, w, me.(zeroing := false));
    FillZeroesWork(c, s1, w, me.zeroStart, me.offset - me.zeroStart, accepted);
  }

  lemma FlushPhase(c: Config, s: State, w: nat, accepted: bool)
    requires Enabled(c, s, EFlush(w, accepted))
    ensures w < |s.workers| && s.workers[w].phase.Copying? && s.workers[w].zeroing
  {
    hide NextIsZero;
  }

  lemma ReadDoneLess(c: Config, s: State, i: nat, ps: seq<Piece>)
    requires Inv(c, s) && Enabled(c, s, EReadDone(i, ps)) && Defined(c, s, EReadDone(i, ps))
    ensures Work(c, ReadDone(c, s, i, ps)) < Work(c, s)
  {
    hide Inv, Tot, IsSplit;
    InvCmd(c, s, i);
    ReadDoneInv(c, s, i, ps);
    var s' := ReadDone(c, s, i, ps);
    InvCmd(c, s', i);
    TotSet(CmdWork, s.cmds, i, s'.cmds[i]);
  }

  lemma DispatchLess(c: Config, s: State, i: nat, accepted: bool)
    requires Inv(c, s) && Enabled(c, s, EDispatch(i, accepted)) && Defined(c, s, EDispatch(i, accepted))
    ensures Work(c, DispatchPiece(c, s, i, accepted)) < Work(c, s)
  {
    hide Inv, Tot, FillZeroes, Chained;
    InvCmd(c, s, i);
    var cmd := s.cmds[i];
    var p, b, w := cmd.role.rest[0], cmd.buf.value, cmd.worker;
    var tail := cmd.(role := Splitting(cmd.role.rest[1..]));
    RestMoves(cmd);
    TotSet(CmdWork, s.cmds, i, tail);
    var s1 := s.(cmds := s.cmds[i := tail]);
    if p.zero {
      var me := s.workers[w].(queueSize := s.workers[w].queueSize - p.len);
      TotSet(WorkerWork, s.workers, w, me);
      FillZeroesWork(c, s1.(workers := s.workers[w := me]), w, p.offset, p.len, accepted);
    } else {
      var sub := Cmd(w, p.offset, p.len, Writing, Some(b), cmd.base + p.offset - cmd.offset);
      TotAppend(CmdWork, s1.cmds, sub);
      assert DispatchPiece(c, s, i, accepted).cmds == s1.cmds + [sub];
    }
  }

  /** Handing out a piece takes its bytes off the rest. */
  lemma RestMoves(cmd: Cmd)
    requires cmd.role.Splitting? && cmd.role.rest != [] && Chained(cmd.role.rest, cmd.Rest(), cmd.End())
    ensures cmd.role.rest[0].len > 0
    ensures CmdWork(cmd) == CmdWork(cmd.(role := Splitting(cmd.role.rest[1..]))) + 12 * cmd.role.rest[0].len
  {
    PieceBelow(cmd.role.rest, cmd.Rest(), cmd.End(), 0);
  }

  lemma RemoveLess(c: Config, s: State, s': State, i: nat)
    requires i < |s.cmds| && s'.cmds == RemoveAt(s.cmds, i) && s'.nextOffset == s.nextOffset
             && |s'.workers| == |s.workers|
    requires Tot(WorkerWork, s'.workers) == Tot(WorkerWork, s.workers)
    ensures Work(c, s') < Work(c, s)
  {
    hide Tot;
    TotAt(CmdWork, s.cmds, i);
  }

  lemma EndSplitLess(c: Config, s: State, i: nat)
    requires Defined(c, s, EEndSplit(i))
    ensures Work(c, EndSplit(s, i)) < Work(c, s)
  {
    hide Tot;
    RemoveLess(c, s, EndSplit(s, i), i);
  }

  lemma DoneLess(c: Config, s: State, i: nat)
    requires Defined(c, s, EDone(i))
    ensures Work(c, CommandDone(s, i)) < Work(c, s)
  {
    hide Tot, Overwrite, Finished;
    var w := s.cmds[i].worker;
    if s.cmds[i].buf.Some? {
      TotSet(WorkerWork, s.workers, w, s.workers[w].(queueSize := s.workers[w].queueSize - s.cmds[i].len));
    }
    RemoveLess(c, s, CommandDone(s, i), i);
  }

  /** Every step is defined and, unless it only lands a byte, leaves less work: a copy takes
      at most Work(c, Init(c)) steps besides the landing of bytes. */
  lemma StepLess(c: Config, s: State, e: Event)
    requires Inv(c, s) && Enabled(c, s, e)
    ensures Defined(c, s, e)
    ensures if e.ELand? then Work(c, Step(c, s, e)) == Work(c, s) else Work(c, Step(c, s, e)) < Work(c, s)
  {
    hide Inv, Work, Fetch, Defer, Flush, IssueRead, ReadDone, DispatchPiece, EndSplit, CommandDone, Payload;
    StepInv(c, s, e);
    match e
    case EFetch(w, exts) => FetchLess(c, s, w, exts);
    case EDefer(w) => DeferLess(c, s, w);
    case EFlush(w, accepted) => FlushLess(c, s, w, accepted);
    case EIssueRead(w) => IssueReadLess(c, s, w);
    case EEndRange(w) => WorkerLess(c, s, Step(c, s, e), w, s.workers[w].(phase := Fetching));
    case EExit(w) => WorkerLess(c, s, Step(c, s, e), w, s.workers[w].(phase := Exited));
    case EReadDone(i, ps) => ReadDoneLess(c, s, i, ps);
    case EDispatch(i, accepted) => DispatchLess(c, s, i, accepted);
    case EEndSplit(i) => EndSplitLess(c, s, i);
    case ELand(i, k) => SameWork(c, s, Step(c, s, e));
    case EDone(i) => DoneLess(c, s, i);
  }

  lemma SameWork(c: Config, s: State, s': State)
    requires s'.workers == s.workers && s'.cmds == s.cmds && s'.nextOffset == s.nextOffset
    ensures Work(c, s') == Work(c, s)
  {
  }

  // ---- some step is possible ----

  lemma {:induction false} SplitExistsFrom(data: seq<byte>, start: nat, block: nat, ps: seq<Piece>, last: nat,
                                           lastZero: bool, i: nat)
    requires block > 0 && Scan(data, start, block, ps, last, lastZero, i)
    ensures exists qs :: IsSplit(data, start, block, qs)
    decreases start + |data| - i
  {
    hide Dispatched, Uniform, IsSplit;
    var end := start + |data|;
    var flushed := if i - last > 0 then ps + [Piece(last, i - last, lastZero)] else ps;
    if i - last > 0 { ScanFlushes(data, start, block, ps, last, lastZero, i); }
    if i + block > end {
      ScanEnds(data, start, block, flushed, i);
      assert IsSplit(data, start, block, if end - i > 0 then flushed + [Piece(i, end - i, false)] else flushed);
    } else if AllZero(data[i - start..i - start + block]) == lastZero {
      ScanCoalesces(data, start, block, ps, last, lastZero, i);
      SplitExistsFrom(data, start, block, ps, last, lastZero, i + block);
    } else {
      ScanTurns(data, start, block, flushed, !lastZero, i);
      SplitExistsFrom(data, start, block, flushed, i, !lastZero, i + block);
    }
  }

  lemma SplitExists(data: seq<byte>, start: nat, block: nat)
    requires block > 0
    ensures exists ps :: IsSplit(data, start, block, ps)
  {
    hide IsSplit, Scan;
    ScanBegins(data, start, block);
    SplitExistsFrom(data, start, block, [], start, false, FirstBlock(data, start, block));
  }

  /** A step that does not merely land a byte. */
  ghost predicate CanMove(c: Config, s: State) { exists e: Event :: Enabled(c, s, e) && !e.ELand? }

  lemma CommandMoves(c: Config, s: State)
    requires Inv(c, s) && s.cmds != []
    ensures CanMove(c, s)
  {
    hide Inv, IsSplit;
    InvCmd(c, s, 0);
    var cmd := s.cmds[0];
    match cmd.role
    case Reading =>
      var ps: seq<Piece> := [];
      if !c.allocate && c.sparseSize != 0 {
        SplitExists(c.src[cmd.offset..cmd.End()], cmd.offset, c.sparseSize);
        ps :| IsSplit(c.src[cmd.offset..cmd.End()], cmd.offset, c.sparseSize, ps);
      }
      assert Enabled(c, s, EReadDone(0, ps));
    case Splitting(rest) =>
      assert if rest == [] then Enabled(c, s, EEndSplit(0)) else Enabled(c, s, EDispatch(0, true));
    case _ => assert Enabled(c, s, EDone(0));
  }

  lemma WorkerMovesOn(c: Config, s: State, w: nat)
    requires Inv(c, s) && s.cmds == [] && w < |s.workers| && !s.workers[w].phase.Exited? && c.maxRequests > 0
    ensures CanMove(c, s)
  {
    hide Inv, NextIsZero;
    ConfigOf(c, s);
    var me := s.workers[w];
    match me.phase
    case Fetching =>
      var count: nat := if s.nextOffset < |c.src| then Min(|c.src| - s.nextOffset, c.workSize) else 1;
      var exts := [Extent(s.nextOffset, count, false)];
      assert Tiles(exts, s.nextOffset, s.nextOffset + count);
      assert Enabled(c, s, EFetch(w, exts));
    case Copying =>
      if me.count == 0 {
        assert if me.zeroing then Enabled(c, s, EFlush(w, true)) else Enabled(c, s, EEndRange(w));
      } else if NextIsZero(c, me) {
        assert Enabled(c, s, EDefer(w));
      } else if me.zeroing {
        assert Enabled(c, s, EFlush(w, true));
      } else {
        EmptyQueue(c, s, w);
        assert Enabled(c, s, EIssueRead(w));
      }
    case Draining => assert Enabled(c, s, EExit(w));
  }

  lemma EmptyQueue(c: Config, s: State, w: nat)
    requires Inv(c, s) && s.cmds == [] && w < |s.workers|
    ensures s.workers[w].queueSize == 0
  {
    hide Local, CountedBut, Conserved, Faithful;
  }

  /** While a worker is left, some step other than the landing of a byte is possible. */
  lemma NoDeadlock(c: Config, s: State, w: nat)
    requires Inv(c, s) && w < |s.workers| && !s.workers[w].phase.Exited? && c.maxRequests > 0
    ensures CanMove(c, s)
  {
    hide Inv, CanMove;
    if s.cmds != [] { CommandMoves(c, s); } else { WorkerMovesOn(c, s, w); }
  }

  /** A run that cannot go on has copied the source: together with StepLess, every fair run
      of every interleaving ends with the copy done. */
  lemma StuckMeansCopied(c: Config, trace: seq<State>)
    requires ValidConfig(c) && c.maxRequests > 0 && IsRun(c, trace) && !CanMove(c, trace[|trace| - 1])
    ensures trace[|trace| - 1].dst == c.src + c.dst0[|c.src|..]
  {
    hide Inv, CanMove, Follows;
    var last := trace[|trace| - 1];
    RunInv(c, trace, |trace| - 1);
    forall w | 0 <= w < |last.workers| ensures last.workers[w].phase.Exited? {
      if !last.workers[w].phase.Exited? { NoDeadlock(c, last, w); }
    }
    CompleteCopy(c, last);
  }

  // ---- how long a copy can take ----

  /** The events `es` take the trace from the initial state to its end. */
  ghost predicate Driven(c: Config, trace: seq<State>, es: seq<Event>)
  {
    && |trace| == |es| + 1 && trace[0] == Init(c)
    && forall k {:trigger es[k]} | 0 <= k < |es| ::
         Enabled(c, trace[k], es[k]) && (Defined(c, trace[k], es[k]) ==> trace[k + 1] == Step(c, trace[k], es[k]))
  }

  /** The steps other than the landing of single bytes. */
  function Moves(es: seq<Event>): nat
  {
    if es == [] then 0 else Moves(es[..|es| - 1]) + if es[|es| - 1].ELand? then 0 else 1
  }

  lemma {:induction false} DrivenWork(c: Config, trace: seq<State>, es: seq<Event>, n: nat)
    requires ValidConfig(c) && Driven(c, trace, es) && n <= |es|
    ensures Inv(c, trace[n]) && Moves(es[..n]) + Work(c, trace[n]) <= Work(c, Init(c))
  {
    hide Inv, Step, Defined, Enabled, Work;
    if n == 0 {
      InitInv(c);
    } else {
      var s, e := trace[n - 1], es[n - 1];
      DrivenWork(c, trace, es, n - 1);
      assert Enabled(c, s, e);
      StepLess(c, s, e);
      StepInv(c, s, e);
      assert es[..n][..n - 1] == es[..n - 1];
    }
  }

  lemma {:induction false} TotSame<T>(f: T -> nat, a: seq<T>, each: nat)
    requires forall i | 0 <= i < |a| :: f(a[i]) == each
    ensures Tot(f, a) == |a| * each
  {
    if a != [] {
      TotSame(f, a[..|a| - 1], each);
    }
  }

  /** Whatever the interleaving, a copy takes at most 24 steps for each byte of the source
      and two for each worker, not counting the landing of single bytes. */
  lemma BoundedSteps(c: Config, trace: seq<State>, es: seq<Event>)
    requires ValidConfig(c) && Driven(c, trace, es)
    ensures Moves(es) <= 24 * |c.src| + 2 * c.threads
  {
    hide Inv, Step, Defined, Enabled, Tot;
    DrivenWork(c, trace, es, |es|);
    assert es[..|es|] == es;
    var s := Init(c);
    TotSame(WorkerWork, s.workers, 2);
    TotSame(CmdWork, s.cmds, 0);
  }
}
