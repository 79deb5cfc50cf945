/** Sparseness detection: how finished_read cuts a buffer into data writes and zero ranges. */
module SparseSplit {
  import opened Bytes

  /** A piece of a finished read: [offset, offset + len) of the disk. */
  datatype Piece = Piece(offset: nat, len: nat, zero: bool)
  {
    function End(): nat { offset + len }
    predicate Has(x: int) { offset <= x < offset + len }
  }

  /** ROUND_UP. */
  function RoundUp(i: nat, n: nat): (r: nat)
    requires n > 0
    ensures i <= r < i + n && r % n == 0
  {
    RoundUpBounds(i, n);
    (i + n - 1) / n * n
  }

  lemma RoundUpBounds(i: nat, n: nat)
    requires n > 0
    ensures i <= (i + n - 1) / n * n < i + n && (i + n - 1) / n * n % n == 0
  {
    var q := (i + n - 1) / n;
    assert i + n - 1 == q * n + (i + n - 1) % n;
    ModOfMultiple(q, n);
  }

  lemma {:induction false} ModOfMultiple(q: nat, n: nat)
    requires n > 0
    ensures q * n % n == 0
  {
    if q > 0 {
      ModOfMultiple(q - 1, n);
      AddBlock((q - 1) * n, n);
      assert q * n == (q - 1) * n + n;
    }
  }

  lemma SmallMultiple(k: int, n: int)
    requires n > 0 && -n < k * n < n
    ensures k == 0
  {
    if k >= 1 { MulGrows(k - 1, n); }
    if k <= -1 { assert (-k) * n == -(k * n); MulGrows(-k - 1, n); }
  }

  lemma MulGrows(k: nat, n: nat)
    ensures (k + 1) * n >= n
  {
  }

  lemma AddBlock(x: nat, n: nat)
    requires n > 0
    ensures (x + n) % n == x % n
  {
    var q, r := x / n, x % n;
    var q', r' := (x + n) / n, (x + n) % n;
    assert (q' - q - 1) * n == q' * n - q * n - n == r - r';
    SmallMultiple(q' - q - 1, n);
  }

  /** Two aligned offsets less than a block apart are the same. */
  lemma AlignedApart(a: int, b: int, n: int)
    requires n > 0 && a % n == 0 && b % n == 0 && -n < a - b < n
    ensures a == b
  {
    assert a == a / n * n && b == b / n * n;
    assert (a / n - b / n) * n == a - b;
    SmallMultiple(a / n - b / n, n);
  }

  /** is_zero: look at the first 16 bytes, then compare the buffer with itself 16 further on. */
  predicate IsZero(buffer: seq<byte>)
  {
    var limit := if |buffer| < 16 then |buffer| else 16;
    && AllZero(buffer[..limit])
    && (|buffer| != limit ==> buffer[..|buffer| - 16] == buffer[16..])
  }

  /** The overlapping comparison does find out whether the whole buffer is zero. */
  lemma IsZeroMeansAllZero(buffer: seq<byte>)
    ensures IsZero(buffer) <==> AllZero(buffer)
  {
    if IsZero(buffer) {
      forall i | 0 <= i < |buffer| ensures buffer[i] == 0 {
        IsZeroAt(buffer, i);
      }
    }
  }

  lemma {:induction false} IsZeroAt(buffer: seq<byte>, i: nat)
    requires IsZero(buffer) && i < |buffer|
    ensures buffer[i] == 0
  {
    if i < 16 {
      assert buffer[i] == buffer[..if |buffer| < 16 then |buffer| else 16][i];
    } else {
      IsZeroAt(buffer, i - 16);
      assert buffer[i] == buffer[16..][i - 16] == buffer[..|buffer| - 16][i - 16];
    }
  }

  /** The block that starts at `b` is aligned, lies inside the buffer and is all zero. */
  predicate ZeroBlock(data: seq<byte>, start: nat, block: nat, b: int)
    requires block > 0
  {
    && start <= b && b + block <= start + |data| && b % block == 0
    && AllZero(data[b - start..b - start + block])
  }

  /** `x` lies in some aligned all-zero block of the buffer that starts at `start`. */
  predicate InZeroBlock(data: seq<byte>, start: nat, block: nat, x: int)
    requires block > 0
  {
    exists b | x - block < b <= x :: ZeroBlock(data, start, block, b)
  }

  /** Adjacent non-empty pieces from `lo` to `hi`. */
  predicate Chained(ps: seq<Piece>, lo: nat, hi: nat)
  {
    && (forall i | 0 <= i < |ps| :: ps[i].len > 0)
    && (forall i | 0 < i < |ps| :: ps[i].offset == ps[i - 1].End())
    && (if ps == [] then lo == hi else ps[0].offset == lo && ps[|ps| - 1].End() == hi)
  }

  /** Where a scan over whole blocks from `i` stops. */
  function ScanEnd(i: nat, end: nat, block: nat): (t: nat)
    requires block > 0 && i <= end
    ensures i <= t <= end < t + block
    decreases end - i
  {
    if i + block <= end then ScanEnd(i + block, end, block) else i
  }

  /** The first block boundary of the buffer, or its end if there is none. */
  function FirstBlock(data: seq<byte>, start: nat, block: nat): (f: nat)
    requires block > 0
    ensures start <= f <= start + |data|
  {
    Min(RoundUp(start, block), start + |data|)
  }

  /** Where the unaligned tail begins. */
  function TailStart(data: seq<byte>, start: nat, block: nat): (t: nat)
    requires block > 0
    ensures start <= t <= start + |data|
  {
    ScanEnd(FirstBlock(data, start, block), start + |data|, block)
  }

  /** What sparseness detection promises: the pieces partition the buffer, a byte is in a
      zero piece exactly when it lies in an aligned all-zero block, zero pieces are
      block-aligned, neighbours alternate, except that data before an unaligned tail is
      followed by that tail, and the tail is a piece of its own. */
  ghost predicate IsSplit(data: seq<byte>, start: nat, block: nat, ps: seq<Piece>)
    requires block > 0
  {
    && Chained(ps, start, start + |data|)
    && (forall i, x | 0 <= i < |ps| && ps[i].Has(x) :: ps[i].zero <==> InZeroBlock(data, start, block, x))
    && (forall i | 0 <= i < |ps| && ps[i].zero :: ps[i].offset % block == 0 && ps[i].len % block == 0)
    && (forall i | 0 < i < |ps| && ps[i].zero == ps[i - 1].zero ::
          i == |ps| - 1 && !ps[i].zero && ps[i].offset == TailStart(data, start, block))
    && (var t := TailStart(data, start, block); var end := start + |data|;
        t < end ==> ps != [] && ps[|ps| - 1] == Piece(t, end - t, false))
  }

  lemma KindAt(data: seq<byte>, start: nat, block: nat, ps: seq<Piece>, k: nat, x: int)
    requires block > 0 && IsSplit(data, start, block, ps) && k < |ps| && ps[k].Has(x)
    ensures ps[k].zero <==> InZeroBlock(data, start, block, x)
  {
  }

  lemma NextPiece(data: seq<byte>, start: nat, block: nat, p: seq<Piece>, q: seq<Piece>, k: nat)
    requires block > 0 && IsSplit(data, start, block, p) && IsSplit(data, start, block, q)
    requires k < |p| && (k > 0 ==> k - 1 < |q| && p[k - 1] == q[k - 1])
    ensures k < |q| && p[k].offset == q[k].offset
  {
    PieceBelow(p, start, start + |data|, k);
    if k > 0 {
      PieceBelow(p, start, start + |data|, k - 1);
      PieceBelow(q, start, start + |data|, k - 1);
    }
  }

  /** Two splits that agree up to piece `k` cannot differ in its length. */
  lemma SplitNotShorter(data: seq<byte>, start: nat, block: nat, p: seq<Piece>, q: seq<Piece>, k: nat)
    requires block > 0 && IsSplit(data, start, block, p) && IsSplit(data, start, block, q)
    requires k < |p| && k < |q| && p[k].offset == q[k].offset
    ensures p[k].len >= q[k].len
  {
    if p[k].len < q[k].len {
      PieceBelow(q, start, start + |data|, k);
      var x := p[k].End();
      assert p[k + 1].offset == x;
      KindAt(data, start, block, p, k, p[k].offset);
      KindAt(data, start, block, q, k, p[k].offset);
      KindAt(data, start, block, q, k, x);
      KindAt(data, start, block, p, k + 1, x);
      assert x == TailStart(data, start, block);
      if k < |q| - 1 {
        PieceBelow(q, start, start + |data|, |q| - 1);
        PieceOrder(q, start, start + |data|, k, |q| - 1);
      }
    }
  }

  lemma {:induction false} PieceBelow(ps: seq<Piece>, lo: nat, hi: nat, k: nat)
    requires Chained(ps, lo, hi) && k < |ps|
    ensures ps[k].End() <= hi && (k == |ps| - 1 || ps[k].End() < hi)
    decreases |ps| - k
  {
    if k < |ps| - 1 {
      PieceBelow(ps, lo, hi, k + 1);
      assert ps[k + 1].offset == ps[k].End();
    }
  }

  lemma {:induction false} PieceOrder(ps: seq<Piece>, lo: nat, hi: nat, i: nat, j: nat)
    requires Chained(ps, lo, hi) && i < j < |ps|
    ensures ps[i].End() <= ps[j].offset
    decreases j - i
  {
    assert ps[j].offset == ps[j - 1].End();
    if i < j - 1 {
      PieceOrder(ps, lo, hi, i, j - 1);
    }
  }

  lemma {:induction false} SplitAgrees(data: seq<byte>, start: nat, block: nat, p: seq<Piece>, q: seq<Piece>, k: nat)
    requires block > 0 && IsSplit(data, start, block, p) && IsSplit(data, start, block, q) && k < |p|
    ensures k < |q| && p[k] == q[k]
  {
    if k > 0 {
      SplitAgrees(data, start, block, p, q, k - 1);
    }
    NextPiece(data, start, block, p, q, k);
    SplitNotShorter(data, start, block, p, q, k);
    SplitNotShorter(data, start, block, q, p, k);
    KindAt(data, start, block, p, k, p[k].offset);
    KindAt(data, start, block, q, k, p[k].offset);
  }

  /** The promise leaves no choice: it determines the subcommands. */
  lemma SplitIsUnique(data: seq<byte>, start: nat, block: nat, p: seq<Piece>, q: seq<Piece>)
    requires block > 0 && IsSplit(data, start, block, p) && IsSplit(data, start, block, q)
    ensures p == q
  {
    if |p| > |q| { SplitAgrees(data, start, block, p, q, |q|); }
    if |q| > |p| { SplitAgrees(data, start, block, q, p, |p|); }
    forall k | 0 <= k < |p| ensures p[k] == q[k] { SplitAgrees(data, start, block, p, q, k); }
  }

  /** Bytes of an aligned whole block lie in a zero block exactly when that block is zero. */
  lemma BlockBytes(data: seq<byte>, start: nat, block: nat, i: nat, x: int)
    requires block > 0 && start <= i && i + block <= start + |data| && i % block == 0 && i <= x < i + block
    ensures InZeroBlock(data, start, block, x) <==> AllZero(data[i - start..i - start + block])
  {
    if InZeroBlock(data, start, block, x) {
      var b :| x - block < b <= x && ZeroBlock(data, start, block, b);
      AlignedApart(b, i, block);
    } else {
      assert !ZeroBlock(data, start, block, i);
    }
  }

  /** No zero block reaches into the unaligned head. */
  lemma HeadBytes(data: seq<byte>, start: nat, block: nat, x: int)
    requires block > 0 && start <= x < FirstBlock(data, start, block)
    ensures !InZeroBlock(data, start, block, x)
  {
    if InZeroBlock(data, start, block, x) {
      var b :| x - block < b <= x && ZeroBlock(data, start, block, b);
      AlignedApart(b, RoundUp(start, block), block);
    }
  }

  /** No zero block reaches into the unaligned tail. */
  lemma TailBytes(data: seq<byte>, start: nat, block: nat, i: nat, x: int)
    requires block > 0 && start <= i <= x < start + |data| < i + block && i % block == 0
    ensures !InZeroBlock(data, start, block, x)
  {
    if InZeroBlock(data, start, block, x) {
      var b :| x - block < b <= x && ZeroBlock(data, start, block, b);
      AlignedApart(b, i, block);
    }
  }

  /** The pieces dispatched so far are right, for a scan that has reached `last`. */
  ghost predicate Dispatched(data: seq<byte>, start: nat, block: nat, ps: seq<Piece>, last: nat)
    requires block > 0
  {
    && Chained(ps, start, last)
    && (forall i, x | 0 <= i < |ps| && ps[i].Has(x) :: ps[i].zero <==> InZeroBlock(data, start, block, x))
    && (forall i | 0 <= i < |ps| && ps[i].zero :: ps[i].offset % block == 0 && ps[i].len % block == 0)
    && (forall i | 0 < i < |ps| :: ps[i].zero != ps[i - 1].zero)
  }

  /** Every byte of [lo, hi) is, or is not, in a zero block. */
  ghost predicate Uniform(data: seq<byte>, start: nat, block: nat, lo: nat, hi: nat, zero: bool)
    requires block > 0
  {
    forall x | lo <= x < hi :: zero <==> InZeroBlock(data, start, block, x)
  }

  lemma DispatchOne(data: seq<byte>, start: nat, block: nat, ps: seq<Piece>, last: nat, p: Piece)
    requires block > 0 && Dispatched(data, start, block, ps, last)
    requires p.offset == last && p.len > 0 && Uniform(data, start, block, last, p.End(), p.zero)
    requires p.zero ==> p.offset % block == 0 && p.len % block == 0
    requires ps != [] ==> ps[|ps| - 1].zero != p.zero
    ensures Dispatched(data, start, block, ps + [p], p.End())
  {
    var t := ps + [p];
    forall i, x | 0 <= i < |t| && t[i].Has(x) ensures t[i].zero <==> InZeroBlock(data, start, block, x) {
      if i < |ps| { assert t[i] == ps[i]; }
    }
    forall i | 0 < i < |t| ensures t[i].offset == t[i - 1].End() && t[i].zero != t[i - 1].zero {
      if i < |ps| { assert t[i] == ps[i] && t[i - 1] == ps[i - 1]; }
    }
  }

  lemma DispatchTail(data: seq<byte>, start: nat, block: nat, ps: seq<Piece>, i: nat, p: Piece)
    requires block > 0 && Dispatched(data, start, block, ps, i) && i == TailStart(data, start, block)
    requires p == Piece(i, start + |data| - i, false) && p.len > 0
    requires Uniform(data, start, block, i, start + |data|, false)
    ensures IsSplit(data, start, block, ps + [p])
  {
    var t := ps + [p];
    forall k, x | 0 <= k < |t| && t[k].Has(x) ensures t[k].zero <==> InZeroBlock(data, start, block, x) {
      if k < |ps| { assert t[k] == ps[k]; }
    }
    forall k | 0 < k < |t| ensures t[k].offset == t[k - 1].End() {
      if k < |ps| { assert t[k] == ps[k] && t[k - 1] == ps[k - 1]; }
    }
  }

  lemma AlignedDifference(a: nat, b: nat, n: nat)
    requires n > 0 && a <= b && a % n == 0 && b % n == 0
    ensures (b - a) % n == 0
  {
    var k := b / n - a / n;
    assert b - a == k * n;
    if k < 0 { assert (-k) * n == -(k * n); MulGrows(-k - 1, n); }
    ModOfMultiple(k, n);
  }

  /** The loop invariant of the scan: `ps` is dispatched up to `last`, and [last, i) is a
      run of one kind, not yet dispatched. */
  ghost predicate Scan(data: seq<byte>, start: nat, block: nat, ps: seq<Piece>, last: nat, lastZero: bool, i: nat)
    requires block > 0
  {
    && start <= last <= i <= start + |data| && (i < start + |data| || lastZero ==> i % block == 0)
    && ScanEnd(i, start + |data|, block) == TailStart(data, start, block)
    && Dispatched(data, start, block, ps, last) && Uniform(data, start, block, last, i, lastZero)
    && (lastZero ==> last < i && last % block == 0)
    && (ps != [] ==> last < i && ps[|ps| - 1].zero != lastZero)
  }

  lemma ScanBegins(data: seq<byte>, start: nat, block: nat)
    requires block > 0
    ensures Scan(data, start, block, [], start, false, FirstBlock(data, start, block))
  {
    var i := FirstBlock(data, start, block);
    forall x | start <= x < i ensures !InZeroBlock(data, start, block, x) { HeadBytes(data, start, block, x); }
  }

  /** A block of the same kind as the run lengthens the run. */
  lemma ScanCoalesces(data: seq<byte>, start: nat, block: nat, ps: seq<Piece>, last: nat, lastZero: bool, i: nat)
    requires block > 0 && Scan(data, start, block, ps, last, lastZero, i) && i + block <= start + |data|
    requires lastZero == AllZero(data[i - start..i - start + block])
    ensures Scan(data, start, block, ps, last, lastZero, i + block)
  {
    AddBlock(i, block);
    forall x | last <= x < i + block ensures lastZero <==> InZeroBlock(data, start, block, x) {
      if i <= x { BlockBytes(data, start, block, i, x); }
    }
  }

  /** The run [last, i) can be dispatched. */
  lemma ScanFlushes(data: seq<byte>, start: nat, block: nat, ps: seq<Piece>, last: nat, lastZero: bool, i: nat)
    requires block > 0 && Scan(data, start, block, ps, last, lastZero, i) && last < i
    ensures Dispatched(data, start, block, ps + [Piece(last, i - last, lastZero)], i)
  {
    if lastZero { AlignedDifference(last, i, block); }
    DispatchOne(data, start, block, ps, last, Piece(last, i - last, lastZero));
  }

  /** A block of the other kind starts a new run. */
  lemma ScanTurns(data: seq<byte>, start: nat, block: nat, ps: seq<Piece>, zero: bool, i: nat)
    requires block > 0 && start <= i && i + block <= start + |data| && i % block == 0
    requires ScanEnd(i, start + |data|, block) == TailStart(data, start, block)
    requires Dispatched(data, start, block, ps, i) && (ps != [] ==> ps[|ps| - 1].zero != zero)
    requires zero == AllZero(data[i - start..i - start + block])
    ensures Scan(data, start, block, ps, i, zero, i + block)
  {
    AddBlock(i, block);
    forall x | i <= x < i + block ensures zero <==> InZeroBlock(data, start, block, x) {
      BlockBytes(data, start, block, i, x);
    }
  }

  lemma ScanEnds(data: seq<byte>, start: nat, block: nat, ps: seq<Piece>, i: nat)
    requires block > 0 && Dispatched(data, start, block, ps, i) && i == TailStart(data, start, block)
    requires start <= i <= start + |data| < i + block && (i < start + |data| ==> i % block == 0)
    ensures i == start + |data| ==> IsSplit(data, start, block, ps)
    ensures i < start + |data| ==> IsSplit(data, start, block, ps + [Piece(i, start + |data| - i, false)])
  {
    if i < start + |data| {
      forall x | i <= x < start + |data| ensures !InZeroBlock(data, start, block, x) {
        TailBytes(data, start, block, i, x);
      }
      DispatchTail(data, start, block, ps, i, Piece(i, start + |data| - i, false));
    }
  }

  /** The scanning loop of finished_read, with the dispatched subcommands as a list. */
  method Split(data: seq<byte>, start: nat, block: nat) returns (ps: seq<Piece>)
    requires block > 0
    ensures IsSplit(data, start, block, ps)
  {
    var end := start + |data|;
    ps := [];
    var last: nat, lastZero := start, false;
    var i: nat := Min(RoundUp(start, block), end);
    ScanBegins(data, start, block);
    while i + block <= end
      invariant Scan(data, start, block, ps, last, lastZero, i)
      decreases end - i
    {
      ps, last, lastZero := SplitBlock(data, start, block, ps, last, lastZero, i);
      i := i + block;
    }
    ps := SplitRest(data, start, block, ps, last, lastZero, i);
  }

  /** One round of the loop: look at the block at `i`; if its kind differs from the run
      that ends there, dispatch the run and start a new one. */
  method SplitBlock(data: seq<byte>, start: nat, block: nat, done: seq<Piece>, last: nat, lastZero: bool, i: nat)
    returns (ps: seq<Piece>, last': nat, lastZero': bool)
    requires block > 0 && Scan(data, start, block, done, last, lastZero, i) && i + block <= start + |data|
    ensures Scan(data, start, block, ps, last', lastZero', i + block)
  {
    ps, last', lastZero' := done, last, lastZero;
    IsZeroMeansAllZero(data[i - start..i - start + block]);
    var zero := IsZero(data[i - start..i - start + block]);
    if zero == lastZero {
      ScanCoalesces(data, start, block, ps, last, lastZero, i);
    } else {
      if i - last > 0 {
        ScanFlushes(data, start, block, ps, last, lastZero, i);
        ps := ps + [Piece(last, i - last, lastZero)];
      }
      ScanTurns(data, start, block, ps, zero, i);
      last', lastZero' := i, zero;
    }
  }

  /** After the loop: dispatch the last run and the unaligned tail. */
  method SplitRest(data: seq<byte>, start: nat, block: nat, done: seq<Piece>, last: nat, lastZero: bool, i: nat)
    returns (ps: seq<Piece>)
    requires block > 0 && Scan(data, start, block, done, last, lastZero, i) && i + block > start + |data|
    ensures IsSplit(data, start, block, ps)
  {
    hide Dispatched, Uniform, IsSplit;
    var end := start + |data|;
    ps := done;
    if i - last > 0 {
      ScanFlushes(data, start, block, done, last, lastZero, i);
      ps := ps + [Piece(last, i - last, lastZero)];
    }
    ScanEnds(data, start, block, ps, i);
    if end - i > 0 {
      ps := ps + [Piece(i, end - i, false)];
    }
  }
}
