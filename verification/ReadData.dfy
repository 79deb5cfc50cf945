/** A read buffer and the pieces that replies put into it. */
module ReadData {
  import opened Bytes
  import opened BlockStatus
  import opened Nbd
  import opened Reply

  // ---- the bounds check of chunks ----

  /** The request does not end so near the end of the 64-bit range that a chunk of up to `m`
      bytes wraps around; beyond that range structured_reply_in_bounds refuses everything. */
  predicate BoundsSafe(req: Request, m: nat)
  {
    req.count == 0 || req.offset + req.count + m - 1 < U64 || req.offset + req.count >= U64
  }

  /** structured_reply_in_bounds lets through only chunks inside the request, of all chunks of
      up to `m` bytes, if and only if the request is BoundsSafe. */
  lemma BoundsExact(cmd: Command, m: nat)
    requires cmd.req.offset < U64 && cmd.req.count < U64 && 2 <= m < U32
    ensures (forall offset: nat, length: nat | offset < U64 && length <= m && InBounds(offset, length, cmd) ::
               cmd.req.offset <= offset && offset + length <= cmd.req.offset + cmd.req.count)
            <==> BoundsSafe(cmd.req, m)
  {
    var end := cmd.req.offset + cmd.req.count;
    if !BoundsSafe(cmd.req, m) {
      WrapsAround(cmd, m);
      assert !((end - 1) + m <= end);
    } else {
      forall offset: nat, length: nat | offset < U64 && length <= m && InBounds(offset, length, cmd)
        ensures cmd.req.offset <= offset && offset + length <= end
      {
        BoundsHold(cmd, offset, length, m);
      }
    }
  }

  /** A chunk that passes the check and leaves the request. */
  lemma WrapsAround(cmd: Command, m: nat)
    requires cmd.req.offset < U64 && cmd.req.count < U64 && m < U32 && !BoundsSafe(cmd.req, m)
    ensures var at := cmd.req.offset + cmd.req.count - 1; cmd.req.offset <= at < U64 && InBounds(at, m, cmd)
  {
  }

  lemma BoundsHold(cmd: Command, offset: nat, length: nat, m: nat)
    requires cmd.req.offset < U64 && cmd.req.count < U64 && BoundsSafe(cmd.req, m)
    requires offset < U64 && length <= m && InBounds(offset, length, cmd)
    ensures cmd.req.offset <= offset && offset + length <= cmd.req.offset + cmd.req.count
  {
    var end := cmd.req.offset + cmd.req.count;
    assert end < U64 ==> end % U64 == end && offset + length < U64;
  }

  /** The longest chunk that is written to the buffer: a hole, whose length has 32 bits, or
      data if the buffer was zeroed before, so that holes write nothing. */
  function LongestWrite(req: Request): nat { if req.initialized then MAX_REQUEST_SIZE else U32 - 1 }

  /** No chunk that passes the check writes outside the buffer. */
  predicate WriteSafe(req: Request) { BoundsSafe(req, LongestWrite(req)) }

  /** No chunk of as many bytes as the request passes the check and leaves the buffer. */
  predicate CountSafe(req: Request) { BoundsSafe(req, req.count) }

  // ---- painting ----

  function Total(ps: seq<Piece>): nat { if ps == [] then 0 else Total(ps[..|ps| - 1]) + ps[|ps| - 1].len }

  /** What a piece does to the buffer; a hole does nothing to one that was zeroed before. */
  function Apply(data: seq<byte>, p: Piece, zeroed: bool): (r: seq<byte>)
    ensures |r| == |data|
  {
    if !p.hole then Overlay(data, p.at, p.bytes) else if zeroed then data else Overlay(data, p.at, Zeros(p.len))
  }

  function Paint(base: seq<byte>, ps: seq<Piece>, zeroed: bool): (r: seq<byte>)
    ensures |r| == |base|
  {
    if ps == [] then base else Apply(Paint(base, ps[..|ps| - 1], zeroed), ps[|ps| - 1], zeroed)
  }

  lemma PaintAppend(base: seq<byte>, ps: seq<Piece>, p: Piece, zeroed: bool)
    ensures Paint(base, ps + [p], zeroed) == Apply(Paint(base, ps, zeroed), p, zeroed)
    ensures Total(ps + [p]) == Total(ps) + p.len
  {
    assert (ps + [p])[..|ps|] == ps;
  }

  /** A piece that has received nothing yet paints nothing. */
  lemma PaintClaim(base: seq<byte>, ps: seq<Piece>, p: Piece, zeroed: bool)
    requires p.bytes == [] && !p.hole
    ensures Paint(base, ps + [p], zeroed) == Paint(base, ps, zeroed)
  {
    PaintAppend(base, ps, p, zeroed);
    assert Overlay(Paint(base, ps, zeroed), p.at, []) == Paint(base, ps, zeroed);
  }

  lemma OverlayMore(data: seq<byte>, at: nat, a: seq<byte>, b: seq<byte>)
    ensures Overlay(Overlay(data, at, a), at + |a|, b) == Overlay(data, at, a + b)
  {
  }

  /** More bytes for the last piece. */
  lemma PaintFill(base: seq<byte>, ps: seq<Piece>, bytes: seq<byte>, zeroed: bool)
    requires ps != [] && !ps[|ps| - 1].hole
    ensures var n := |ps| - 1; var p := ps[n]; var ps' := ps[n := p.(bytes := p.bytes + bytes)];
      && Paint(base, ps', zeroed) == Overlay(Paint(base, ps, zeroed), p.at + |p.bytes|, bytes)
      && Total(ps') == Total(ps) && ps'[..n] == ps[..n]
  {
    hide Overlay;
    var n := |ps| - 1;
    var p := ps[n];
    var ps' := ps[n := p.(bytes := p.bytes + bytes)];
    assert ps'[..n] == ps[..n];
    var below := Paint(base, ps[..n], zeroed);
    OverlayMore(below, p.at, p.bytes, bytes);
    assert Paint(base, ps, zeroed) == Overlay(below, p.at, p.bytes);
    assert Paint(base, ps', zeroed) == Overlay(below, p.at, p.bytes + bytes);
  }

  // ---- covering ----

  predicate Covers(p: Piece, x: int) { p.at <= x < p.at + p.len }

  /** No byte belongs to two pieces. */
  ghost predicate Disjoint(ps: seq<Piece>)
  {
    forall i, j, x | 0 <= i < j < |ps| && Covers(ps[i], x) :: !Covers(ps[j], x)
  }

  ghost predicate Within(ps: seq<Piece>, n: nat) { forall i | 0 <= i < |ps| :: ps[i].at + ps[i].len <= n }

  ghost function Range(lo: nat, hi: nat): (s: set<int>)
    requires lo <= hi
    ensures |s| == hi - lo && forall x :: x in s <==> lo <= x < hi
    decreases hi - lo
  {
    if lo == hi then {} else {lo as int} + Range(lo + 1, hi)
  }

  ghost function Covered(ps: seq<Piece>): set<int>
  {
    if ps == [] then {}
    else
      var p := ps[|ps| - 1];
      Covered(ps[..|ps| - 1]) + Range(p.at, p.at + p.len)
  }

  lemma {:induction false} CoveredBy(ps: seq<Piece>, x: int)
    requires x in Covered(ps)
    ensures exists i | 0 <= i < |ps| :: Covers(ps[i], x)
  {
    var n := |ps| - 1;
    if x in Covered(ps[..n]) {
      CoveredBy(ps[..n], x);
      var i :| 0 <= i < n && Covers(ps[..n][i], x);
      assert Covers(ps[i], x);
    } else {
      assert Covers(ps[n], x);
    }
  }

  /** Disjoint pieces cover as many bytes as their lengths add up to. */
  lemma {:induction false} CoveredSize(ps: seq<Piece>)
    requires Disjoint(ps)
    ensures |Covered(ps)| == Total(ps)
  {
    if ps != [] {
      var n := |ps| - 1;
      var p := ps[n];
      assert Disjoint(ps[..n]) by { DisjointPrefix(ps, n); }
      CoveredSize(ps[..n]);
      LastApart(ps);
    }
  }

  lemma DisjointPrefix(ps: seq<Piece>, n: nat)
    requires Disjoint(ps) && n <= |ps|
    ensures Disjoint(ps[..n])
  {
    assert forall j | 0 <= j < n :: ps[..n][j] == ps[j];
  }

  lemma LastApart(ps: seq<Piece>)
    requires Disjoint(ps) && ps != []
    ensures var p := ps[|ps| - 1]; Covered(ps[..|ps| - 1]) !! Range(p.at, p.at + p.len)
  {
    hide Covered;
    var n := |ps| - 1;
    var p := ps[n];
    forall x | x in Covered(ps[..n]) ensures x !in Range(p.at, p.at + p.len) {
      CoveredBy(ps[..n], x);
      var i :| 0 <= i < n && Covers(ps[..n][i], x);
      assert ps[..n][i] == ps[i];
      assert !Covers(ps[n], x);
    }
  }

  lemma SubsetFull(a: set<int>, b: set<int>)
    requires a <= b && |a| == |b|
    ensures a == b
  {
    assert b == a + (b - a);
    assert |b - a| == 0;
  }

  /** Disjoint pieces inside a range whose lengths add up to it cover all of it. */
  lemma FullCover(ps: seq<Piece>, n: nat, x: nat)
    requires Disjoint(ps) && Within(ps, n) && Total(ps) == n && x < n
    ensures exists i | 0 <= i < |ps| :: Covers(ps[i], x)
  {
    hide Covered;
    CoveredSize(ps);
    forall y | y in Covered(ps) ensures y in Range(0, n) { CoveredBy(ps, y); }
    SubsetFull(Covered(ps), Range(0, n));
    CoveredBy(ps, x);
  }

  lemma SubsetSmaller(a: set<int>, b: set<int>)
    requires a <= b
    ensures |a| <= |b|
  {
    assert b == a + (b - a);
  }

  /** Disjoint pieces inside a range add up to no more than it. */
  lemma TotalWithin(ps: seq<Piece>, n: nat)
    requires Disjoint(ps) && Within(ps, n)
    ensures Total(ps) <= n
  {
    hide Covered, Total;
    CoveredSize(ps);
    forall y | y in Covered(ps) ensures y in Range(0, n) { CoveredBy(ps, y); }
    SubsetSmaller(Covered(ps), Range(0, n));
  }

  lemma {:induction false} TotalConcat(a: seq<Piece>, b: seq<Piece>)
    ensures Total(a + b) == Total(a) + Total(b)
  {
    if b == [] {
      assert a + b == a;
    } else {
      TotalConcat(a, b[..|b| - 1]);
      assert (a + b)[..|a + b| - 1] == a + b[..|b| - 1];
    }
  }

  /** The pieces but one. */
  function Others(ps: seq<Piece>, j: nat): seq<Piece>
    requires j < |ps|
  {
    ps[..j] + ps[j + 1..]
  }

  lemma TotalOthers(ps: seq<Piece>, j: nat)
    requires j < |ps|
    ensures Total(ps) == Total(Others(ps, j)) + ps[j].len
  {
    hide Total;
    var a, p, b := ps[..j], [ps[j]], ps[j + 1..];
    assert ps == a + (p + b);
    TotalConcat(a, p + b);
    TotalConcat(p, b);
    TotalConcat(a, b);
    TotalOne(ps[j]);
  }

  lemma TotalOne(p: Piece)
    ensures Total([p]) == p.len
  {
    assert [p][..0] == [];
  }

  lemma DisjointOthers(ps: seq<Piece>, j: nat)
    requires Disjoint(ps) && j < |ps|
    ensures Disjoint(Others(ps, j))
  {
    var o := Others(ps, j);
    assert forall k | 0 <= k < |o| :: o[k] == ps[if k < j then k else k + 1];
  }

  /** Everything a piece asked for has arrived. */
  predicate Whole(p: Piece) { p.hole || |p.bytes| == p.len }

  /** A byte that no piece covers is left as it was. */
  lemma {:induction false} PaintOutside(base: seq<byte>, ps: seq<Piece>, zeroed: bool, x: nat)
    requires x < |base| && (forall i | 0 <= i < |ps| :: |ps[i].bytes| <= ps[i].len && !Covers(ps[i], x))
    ensures Paint(base, ps, zeroed)[x] == base[x]
  {
    if ps != [] {
      var n := |ps| - 1;
      assert forall i | 0 <= i < n :: ps[..n][i] == ps[i];
      PaintOutside(base, ps[..n], zeroed, x);
      assert !Covers(ps[n], x);
    }
  }

  /** The byte that a whole piece brings for position `x`. */
  function ByteOf(p: Piece, x: int): byte
    requires Whole(p) && Covers(p, x)
  {
    if p.hole then 0 else p.bytes[x - p.at]
  }

  /** A byte that one piece covers is that piece's byte. */
  lemma {:induction false} PaintInside(base: seq<byte>, ps: seq<Piece>, zeroed: bool, i: nat, x: nat)
    requires x < |base| && i < |ps| && (zeroed ==> AllZero(base)) && Disjoint(ps) && Covers(ps[i], x) && Whole(ps[i])
    requires forall j | 0 <= j < |ps| :: |ps[j].bytes| <= ps[j].len
    ensures Paint(base, ps, zeroed)[x] == ByteOf(ps[i], x)
  {
    var n := |ps| - 1;
    assert forall j | 0 <= j < n :: ps[..n][j] == ps[j];
    if i == n {
      forall j | 0 <= j < n ensures !Covers(ps[..n][j], x) {
        assert !Covers(ps[j], x);
      }
      PaintOutside(base, ps[..n], zeroed, x);
    } else {
      DisjointPrefix(ps, n);
      PaintInside(base, ps[..n], zeroed, i, x);
      assert !Covers(ps[n], x);
    }
  }
}
