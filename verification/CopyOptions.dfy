/** What --requests, --sparse, --allocated and --destination-is-zero mean for every run of the
    multi-threaded copier. */
module CopyOptions {
  import opened Bytes
  import opened Extents
  import opened SparseSplit
  import opened CopyModel
  import opened CopyTheorems

  // ---- outstanding commands ----

  /** The commands of worker `w` that are outstanding, by their places; and the reads among them. */
  function Outstanding(cmds: seq<Cmd>, w: nat): set<nat> { set i: nat | i < |cmds| && cmds[i].worker == w }

  function Reads(cmds: seq<Cmd>, w: nat): set<nat>
  {
    set i: nat | i < |cmds| && cmds[i].worker == w && cmds[i].role.Reading?
  }

  /** The sum that the copier takes is the number of commands. */
  lemma {:induction false} SumIsNumber(cmds: seq<Cmd>, w: nat)
    ensures Sum(CommandsOf(w), cmds) == |Outstanding(cmds, w)|
  {
    if cmds != [] {
      var n := |cmds| - 1;
      SumIsNumber(cmds[..n], w);
      assert Outstanding(cmds, w) == Outstanding(cmds[..n], w) + if cmds[n].worker == w then {n} else {};
    }
  }

  lemma ReadsAmong(cmds: seq<Cmd>, w: nat)
    ensures |Reads(cmds, w)| <= |Outstanding(cmds, w)|
  {
    Fewer(Reads(cmds, w), Outstanding(cmds, w));
  }

  lemma {:induction false} Fewer(a: set<nat>, b: set<nat>)
    requires a <= b
    ensures |a| <= |b|
  {
    if a != {} {
      var x :| x in a;
      Fewer(a - {x}, b - {x});
    }
  }

  // ---- how a step changes the reads ----

  lemma ReadsAppend(cmds: seq<Cmd>, cmd: Cmd, w: nat)
    ensures Reads(cmds + [cmd], w) == Reads(cmds, w) + if cmd.worker == w && cmd.role.Reading? then {|cmds|} else {}
  {
  }

  lemma ReadsSet(cmds: seq<Cmd>, i: nat, cmd: Cmd, w: nat)
    requires i < |cmds| && !cmd.role.Reading?
    ensures |Reads(cmds[i := cmd], w)| <= |Reads(cmds, w)|
  {
    Fewer(Reads(cmds[i := cmd], w), Reads(cmds, w));
  }

  /** Taking a command out moves the later ones down by one place. */
  lemma ReadsRemove(cmds: seq<Cmd>, i: nat, w: nat)
    requires i < |cmds| && !cmds[i].role.Reading?
    ensures |Reads(RemoveAt(cmds, i), w)| == |Reads(cmds, w)|
  {
    var a, b := cmds[..i], cmds[i + 1..];
    ReadsJoin(a, [cmds[i]] + b, w);
    ReadsJoin([cmds[i]], b, w);
    ReadsJoin(a, b, w);
    assert cmds == a + ([cmds[i]] + b);
    assert Reads([cmds[i]], w) == {};
  }

  lemma {:induction false} ReadsJoin(a: seq<Cmd>, b: seq<Cmd>, w: nat)
    ensures |Reads(a + b, w)| == |Reads(a, w)| + |Reads(b, w)|
  {
    if b == [] {
      assert a + b == a && Reads(b, w) == {};
    } else {
      var n := |b| - 1;
      ReadsJoin(a, b[..n], w);
      ReadsAppend(b[..n], b[n], w);
      ReadsAppend(a + b[..n], b[n], w);
      assert b == b[..n] + [b[n]] && a + b == a + b[..n] + [b[n]];
    }
  }

  /** Zeroing a range starts no read. */
  lemma FillStartsNone(c: Config, s: State, v: nat, off: nat, len: nat, accepted: bool, w: nat)
    requires off + len <= |s.dst|
    ensures Reads(FillZeroes(c, s, v, off, len, accepted).cmds, w) == Reads(s.cmds, w)
  {
    ReadsAppend(s.cmds, Cmd(v, off, len, Zeroing, None, 0), w);
  }

  /** A step makes more reads of a worker only if it starts one, and then one more. */
  lemma StepReads(c: Config, s: State, e: Event, w: nat)
    requires Enabled(c, s, e) && Defined(c, s, e)
    ensures var s' := Step(c, s, e);
      |Reads(s'.cmds, w)| <= |Reads(s.cmds, w)| + if e == EIssueRead(w) then 1 else 0
  {
    hide Enabled, Reads;
    match e
    case EFlush(v, accepted) =>
      var me := s.workers[v];
      FillStartsNone(c, s.(workers := s.workers[v := me.(zeroing := false)]), v, me.zeroStart,
                     me.offset - me.zeroStart, accepted, w);
    case EIssueRead(v) =>
      var me := s.workers[v];
      ReadsAppend(s.cmds, Cmd(v, me.offset, NextLen(c, me), Reading, Some(s.nextBuf), 0), w);
    case EReadDone(i, ps) =>
      ReadsSet(s.cmds, i, ReadDone(c, s, i, ps).cmds[i], w);
    case EDispatch(i, accepted) => DispatchReads(c, s, i, accepted, w);
    case EEndSplit(i) => SplitEnds(c, s, i, w);
    case EDone(i) => DoneEnds(c, s, i, w);
    case _ =>
  }

  lemma DispatchReads(c: Config, s: State, i: nat, accepted: bool, w: nat)
    requires Defined(c, s, EDispatch(i, accepted)) && Enabled(c, s, EDispatch(i, accepted))
    ensures |Reads(DispatchPiece(c, s, i, accepted).cmds, w)| <= |Reads(s.cmds, w)|
  {
    hide Reads;
    var cmd := s.cmds[i];
    var p, v := cmd.role.rest[0], cmd.worker;
    var s1 := s.(cmds := s.cmds[i := cmd.(role := Splitting(cmd.role.rest[1..]))]);
    ReadsSet(s.cmds, i, s1.cmds[i], w);
    if p.zero {
      FillStartsNone(c, s1.(workers := s.workers[v := s.workers[v].(queueSize := s.workers[v].queueSize - p.len)]),
                     v, p.offset, p.len, accepted, w);
    } else {
      ReadsAppend(s1.cmds, Cmd(v, p.offset, p.len, Writing, cmd.buf, cmd.base + p.offset - cmd.offset), w);
    }
  }

  lemma SplitEnds(c: Config, s: State, i: nat, w: nat)
    requires Defined(c, s, EEndSplit(i)) && Enabled(c, s, EEndSplit(i))
    ensures |Reads(EndSplit(s, i).cmds, w)| == |Reads(s.cmds, w)|
  {
    hide Reads;
    ReadsRemove(s.cmds, i, w);
  }

  lemma DoneEnds(c: Config, s: State, i: nat, w: nat)
    requires Defined(c, s, EDone(i)) && Enabled(c, s, EDone(i))
    ensures |Reads(CommandDone(s, i).cmds, w)| == |Reads(s.cmds, w)|
  {
    hide Reads;
    ReadsRemove(s.cmds, i, w);
  }

  // ---- the theorems: how many requests ----

  /** In every run, the step to a further state starts a read of a worker only while fewer than
      --requests of its commands are outstanding and less than --queue-size bytes are queued, and
      only if not all of the range is known to be zero. */
  lemma StartsWithinLimits(c: Config, trace: seq<State>, k: nat, w: nat)
    requires ValidConfig(c) && IsRun(c, trace) && 0 < k < |trace|
    requires w < |trace[k - 1].workers| && |Reads(trace[k].cmds, w)| > |Reads(trace[k - 1].cmds, w)|
    ensures |Outstanding(trace[k - 1].cmds, w)| < c.maxRequests
    ensures trace[k - 1].workers[w].queueSize < c.queueLimit
    ensures var me := trace[k - 1].workers[w];
      !ZeroRange(me.exts, me.offset, me.offset + Min(me.count, c.requestSize))
  {
    hide Inv, Step, Defined, Reads, Outstanding;
    var s, s' := trace[k - 1], trace[k];
    RunInv(c, trace, k - 1);
    assert Follows(c, s, s');
    var e :| Enabled(c, s, e) && (Defined(c, s, e) ==> s' == Step(c, s, e));
    StepInv(c, s, e);
    StepReads(c, s, e, w);
    assert e == EIssueRead(w);
    SumIsNumber(s.cmds, w);
  }

  /** In every state of every run a worker has at most --requests reads outstanding.  (The pieces
      of a split read are further commands, which nothing bounds.) */
  lemma {:induction false} ReadsBounded(c: Config, trace: seq<State>, k: nat, w: nat)
    requires ValidConfig(c) && IsRun(c, trace) && k < |trace|
    ensures |Reads(trace[k].cmds, w)| <= c.maxRequests
  {
    hide Inv, Step, Defined, Reads, Outstanding;
    if k == 0 {
      assert Reads([], w) == {} by { NoReads(w); }
    } else {
      ReadsBounded(c, trace, k - 1, w);
      var s, s' := trace[k - 1], trace[k];
      RunInv(c, trace, k - 1);
      assert Follows(c, s, s');
      var e :| Enabled(c, s, e) && (Defined(c, s, e) ==> s' == Step(c, s, e));
      StepInv(c, s, e);
      StepReads(c, s, e, w);
      if e == EIssueRead(w) {
        SumIsNumber(s.cmds, w);
        ReadsAmong(s.cmds, w);
      }
    }
  }

  lemma NoReads(w: nat)
    ensures Reads([], w) == {}
  {
  }

  // ---- what is written ----

  /** No aligned block of zeroes of the source lies in [lo, hi). */
  predicate NoZeroBlock(c: Config, lo: nat, hi: nat)
    requires c.sparseSize > 0
  {
    forall b | lo <= b && b + c.sparseSize <= hi <= |c.src| && b % c.sparseSize == 0 ::
      !AllZero(c.src[b..b + c.sparseSize])
  }

  /** The command is as the options ask for. */
  predicate AsAsked(c: Config, cmd: Cmd)
  {
    match cmd.role
    case Reading => true
    case Zeroing => !c.targetIsZero
    case Writing => !c.allocate && c.sparseSize > 0 ==> NoZeroBlock(c, cmd.offset, cmd.End())
    case Splitting(rest) =>
      && !c.allocate && c.sparseSize > 0
      && forall k | 0 <= k < |rest| && !rest[k].zero :: NoZeroBlock(c, rest[k].offset, rest[k].End())
  }

  lemma {:induction false} PieceAbove(ps: seq<Piece>, lo: nat, hi: nat, k: nat)
    requires Chained(ps, lo, hi) && k < |ps|
    ensures lo <= ps[k].offset
  {
    if k > 0 { PieceAbove(ps, lo, hi, k - 1); }
  }

  /** The data pieces of a split hold no block that could have been left out. */
  lemma SplitAsAsked(c: Config, cmd: Cmd, ps: seq<Piece>)
    requires cmd.End() <= |c.src| && c.sparseSize > 0
    requires IsSplit(c.src[cmd.offset..cmd.End()], cmd.offset, c.sparseSize, ps)
    ensures forall k | 0 <= k < |ps| && !ps[k].zero :: NoZeroBlock(c, ps[k].offset, ps[k].End())
  {
    hide NoZeroBlock, IsSplit;
    forall k | 0 <= k < |ps| && !ps[k].zero ensures NoZeroBlock(c, ps[k].offset, ps[k].End()) {
      PieceAsAsked(c, cmd, ps, k);
    }
  }

  lemma PieceAsAsked(c: Config, cmd: Cmd, ps: seq<Piece>, k: nat)
    requires cmd.End() <= |c.src| && c.sparseSize > 0 && k < |ps| && !ps[k].zero
    requires IsSplit(c.src[cmd.offset..cmd.End()], cmd.offset, c.sparseSize, ps)
    ensures NoZeroBlock(c, ps[k].offset, ps[k].End())
  {
    hide InZeroBlock, IsSplit, AllZero;
    var data, block := c.src[cmd.offset..cmd.End()], c.sparseSize;
    assert Chained(ps, cmd.offset, cmd.End()) by { SplitChained(data, cmd.offset, block, ps); }
    PieceBelow(ps, cmd.offset, cmd.End(), k);
    PieceAbove(ps, cmd.offset, cmd.End(), k);
    forall b | ps[k].offset <= b && b + block <= ps[k].End() && b % block == 0 ensures !AllZero(c.src[b..b + block]) {
      KindAt(data, cmd.offset, block, ps, k, b);
      BlockShows(data, cmd.offset, block, b);
      SliceOfSlice(c.src, cmd.offset, cmd.End(), b, block);
    }
  }

  lemma SliceOfSlice(s: seq<byte>, lo: nat, hi: nat, at: nat, n: nat)
    requires lo <= at && at + n <= hi <= |s|
    ensures s[lo..hi][at - lo..at - lo + n] == s[at..at + n]
  {
    var a, b := s[lo..hi][at - lo..at - lo + n], s[at..at + n];
    assert |a| == |b| && forall k | 0 <= k < n :: a[k] == s[lo..hi][at - lo + k] == s[at + k] == b[k];
  }

  lemma SplitChained(data: seq<byte>, start: nat, block: nat, ps: seq<Piece>)
    requires block > 0 && IsSplit(data, start, block, ps)
    ensures Chained(ps, start, start + |data|)
  {
  }

  lemma BlockShows(data: seq<byte>, start: nat, block: nat, b: nat)
    requires block > 0 && !InZeroBlock(data, start, block, b)
    requires start <= b && b + block <= start + |data| && b % block == 0
    ensures !AllZero(data[b - start..b - start + block])
  {
    assert !ZeroBlock(data, start, block, b);
  }

  lemma FillAsAsked(c: Config, s: State, v: nat, off: nat, len: nat, accepted: bool)
    requires off + len <= |s.dst| && forall cmd | cmd in s.cmds :: AsAsked(c, cmd)
    ensures forall cmd | cmd in FillZeroes(c, s, v, off, len, accepted).cmds :: AsAsked(c, cmd)
  {
  }

  lemma DispatchAsAsked(c: Config, s: State, i: nat, accepted: bool)
    requires Defined(c, s, EDispatch(i, accepted)) && forall cmd | cmd in s.cmds :: AsAsked(c, cmd)
    ensures forall cmd | cmd in DispatchPiece(c, s, i, accepted).cmds :: AsAsked(c, cmd)
  {
    hide NoZeroBlock;
    var cmd := s.cmds[i];
    var p, v := cmd.role.rest[0], cmd.worker;
    assert AsAsked(c, cmd);
    var s1 := s.(cmds := s.cmds[i := cmd.(role := Splitting(cmd.role.rest[1..]))]);
    assert forall x | x in s1.cmds :: AsAsked(c, x);
    if p.zero {
      FillAsAsked(c, s1.(workers := s.workers[v := s.workers[v].(queueSize := s.workers[v].queueSize - p.len)]),
                  v, p.offset, p.len, accepted);
    }
  }

  /** Every step keeps the commands as the options ask for. */
  lemma StepAsAsked(c: Config, s: State, e: Event)
    requires Enabled(c, s, e) && Defined(c, s, e) && forall cmd | cmd in s.cmds :: AsAsked(c, cmd)
    ensures forall cmd | cmd in Step(c, s, e).cmds :: AsAsked(c, cmd)
  {
    hide NoZeroBlock, IsSplit, GoodExtents, DispatchPiece;
    match e
    case EFlush(v, accepted) =>
      var me := s.workers[v];
      FillAsAsked(c, s.(workers := s.workers[v := me.(zeroing := false)]), v, me.zeroStart, me.offset - me.zeroStart,
                  accepted);
    case EReadDone(i, ps) =>
      if !c.allocate && c.sparseSize != 0 { SplitAsAsked(c, s.cmds[i], ps); }
    case EDispatch(i, accepted) => DispatchAsAsked(c, s, i, accepted);
    case _ =>
  }

  /** In every state of every run: unless --allocated is given, no write that is handed to the
      destination holds an aligned block of zeroes of the size that --sparse gives; with
      --allocated, or without a size, no read is split; and with --destination-is-zero, zeroes
      are never written. */
  lemma {:induction false} CommandsAsAsked(c: Config, trace: seq<State>, k: nat)
    requires ValidConfig(c) && IsRun(c, trace) && k < |trace|
    ensures forall cmd | cmd in trace[k].cmds :: AsAsked(c, cmd)
  {
    hide Inv, Step, Defined, AsAsked;
    if k > 0 {
      CommandsAsAsked(c, trace, k - 1);
      var s, s' := trace[k - 1], trace[k];
      RunInv(c, trace, k - 1);
      assert Follows(c, s, s');
      var e :| Enabled(c, s, e) && (Defined(c, s, e) ==> s' == Step(c, s, e));
      StepInv(c, s, e);
      StepAsAsked(c, s, e);
    }
  }
}
