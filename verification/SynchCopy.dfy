/** The sequential copier, the simple reference for the multi-threaded one. */
module SynchCopy {
  import opened Bytes
  import opened Extents

  /** synch_write: pwrite until everything is written; `chunk` answers how much of a request
      the kernel takes. */
  method SynchWrite(dst: array<byte>, data: seq<byte>, offset: nat, chunk: nat -> nat)
    requires offset + |data| <= dst.Length && forall n: nat | n > 0 :: 0 < chunk(n) <= n
    modifies dst
    ensures dst[..] == Overwrite(old(dst[..]), offset, data)
  {
    var n := 0;
    while n < |data|
      invariant n <= |data|
      invariant forall x | 0 <= x < dst.Length ::
        dst[x] == if offset <= x < offset + n then data[x - offset] else old(dst[x])
    {
      var r := chunk(|data| - n);
      ghost var before := dst[..];
      forall k | 0 <= k < r {
        dst[offset + n + k] := data[n + k];
      }
      assert forall x | 0 <= x < dst.Length && !(offset + n <= x < offset + n + r) :: dst[x] == before[x];
      n := n + r;
    }
  }

  /** The ways in which the kernel can zero a range of a file. */
  datatype Attempt = PunchHole | ZeroRange | Fallocate | ZeroOut

  /** What the source and the kernel are asked during a copy. */
  datatype Backend = Backend(
    /** The extents of a range. */
    extents: (nat, nat) -> seq<Extent>,
    /** Does the kernel support this way of zeroing at an offset, when synch_zero is called
        without or with allocation? */
    supports: (nat, bool, Attempt) -> bool,
    /** How many bytes a stream read returns at an offset. */
    readable: nat -> nat,
    /** How many bytes of a write the kernel takes. */
    writes: nat -> nat)

  /** Extent lists tile the range asked for and mark only zero bytes; writes progress; a
      stream read is short, but empty only at the end. */
  ghost predicate Sound(be: Backend, src: seq<byte>, requestSize: nat)
  {
    && (forall o: nat, n: nat | n > 0 && o + n <= |src| ::
          Tiles(be.extents(o, n), o, o + n) &&
          forall i | 0 <= i < |be.extents(o, n)| && be.extents(o, n)[i].zero ::
            AllZero(src[Clip(be.extents(o, n)[i].offset, src)..Clip(be.extents(o, n)[i].End(), src)]))
    && (forall n: nat | n > 0 :: 0 < be.writes(n) <= n)
    && (forall o: nat | o <= |src| ::
          be.readable(o) <= requestSize && o + be.readable(o) <= |src| && (be.readable(o) == 0 ==> o == |src|))
  }

  function Clip(x: nat, src: seq<byte>): (r: nat)
    ensures r <= |src| && (x <= |src| ==> r == x)
  {
    if x < |src| then x else |src|
  }

  /** The destination holds the source up to `offset` and is untouched beyond it. */
  predicate CopiedTo(dst: seq<byte>, dst0: seq<byte>, src: seq<byte>, offset: nat)
  {
    |dst| == |dst0| && offset <= |src| <= |dst| && dst == src[..offset] + dst0[offset..]
  }

  lemma CopyNone(dst0: seq<byte>, src: seq<byte>)
    requires |src| <= |dst0|
    ensures CopiedTo(dst0, dst0, src, 0)
  {
  }

  lemma CopyAll(dst: seq<byte>, dst0: seq<byte>, src: seq<byte>)
    requires CopiedTo(dst, dst0, src, |src|)
    ensures |src| <= |dst0| && dst == src + dst0[|src|..]
  {
    assert src[..|src|] == src;
  }

  lemma CopyMore(dst: seq<byte>, dst0: seq<byte>, src: seq<byte>, offset: nat, data: seq<byte>)
    requires CopiedTo(dst, dst0, src, offset) && offset + |data| <= |src| && data == src[offset..offset + |data|]
    ensures CopiedTo(Overwrite(dst, offset, data), dst0, src, offset + |data|)
  {
    var d := Overwrite(dst, offset, data);
    var e := src[..offset + |data|] + dst0[offset + |data|..];
    forall x | 0 <= x < |d| ensures d[x] == e[x] { }
  }

  /** The range reads as zeroes. */
  method ZeroBytes(dst: array<byte>, offset: nat, length: nat)
    requires offset + length <= dst.Length
    modifies dst
    ensures dst[..] == Overwrite(old(dst[..]), offset, Zeros(length))
  {
    forall k | 0 <= k < length {
      dst[offset + k] := 0;
    }
  }

  /** What is copied to. */
  datatype Kind = RegularFile | BlockDevice | NbdServer(canZero: bool) | Pipe

  /** How a call of synch_zero ends: it is done, or refused, possibly after the range was
      zeroed all the same. */
  datatype Zeroing = Zeroed | Refused(touched: bool)

  /** A destination and what is known of its capabilities. */
  class Target {
    const kind: Kind
    const dst: array<byte>
    const sectorSize: nat
    var canPunchHole: bool
    var canZeroRange: bool
    var canFallocate: bool
    var canZeroOut: bool

    predicate IsFile() { kind.RegularFile? || kind.BlockDevice? }

    constructor (kind: Kind, dst: array<byte>, sectorSize: nat)
      ensures this.kind == kind && this.dst == dst && this.sectorSize == sectorSize
      ensures canPunchHole && canZeroRange && (canFallocate <==> kind.RegularFile?)
              && (canZeroOut <==> kind.BlockDevice?)
    {
      this.kind, this.dst, this.sectorSize := kind, dst, sectorSize;
      canPunchHole, canZeroRange, canFallocate, canZeroOut := true, true, kind.RegularFile?, kind.BlockDevice?;
    }

    /** One attempt; PunchHole, ZeroRange and ZeroOut zero the range if they work. */
    method Try(a: Attempt, offset: nat, length: nat, works: Attempt -> bool) returns (ok: bool)
      requires offset + length <= dst.Length
      modifies dst
      ensures ok == works(a)
      ensures dst[..] == if ok && !a.Fallocate? then Overwrite(old(dst[..]), offset, Zeros(length)) else old(dst[..])
    {
      ok := works(a);
      if ok && !a.Fallocate? { ZeroBytes(dst, offset, length); }
    }

    predicate Aligned(offset: nat, length: nat)
    {
      sectorSize > 0 && offset % sectorSize == 0 && length % sectorSize == 0
    }

    /** file_synch_zero punches a hole and then takes the success of fallocate for a failure:
        space is demanded, holes can be punched, the range cannot be zeroed in one go, and
        fallocate works. */
    predicate Misjudges(allocate: bool, works: Attempt -> bool)
      reads this
    {
      && allocate && canPunchHole && canFallocate && !(canZeroRange && works(ZeroRange))
      && works(PunchHole) && works(Fallocate)
    }

    /** file_synch_zero: `works` says which attempts the kernel supports.  Whatever it answers:
        only the range changes, and it reads as zeroes if the call says it is done; and a
        capability is only ever withdrawn.  The call is refused although the range has been
        zeroed if and only if it misjudges fallocate. */
    method FileZero(offset: nat, length: nat, allocate: bool, works: Attempt -> bool)
      returns (done: bool, ghost how: Zeroing)
      requires offset + length <= dst.Length
      modifies this, dst
      ensures done <==> how.Zeroed?
      ensures dst[..] == if how == Refused(false) then old(dst[..]) else Overwrite(old(dst[..]), offset, Zeros(length))
      ensures (canPunchHole ==> old(canPunchHole)) && (canZeroRange ==> old(canZeroRange))
      ensures (canFallocate ==> old(canFallocate)) && (canZeroOut ==> old(canZeroOut))
      ensures how == Refused(true) <==> old(Misjudges(allocate, works))
      ensures how == Refused(true) <==> old(canFallocate) && !canFallocate
      ensures !allocate && !done ==> !canPunchHole
    {
      hide Overwrite;
      var ok;
      if !allocate && canPunchHole {
        ok := Try(PunchHole, offset, length, works);
        if ok { return true, Zeroed; }
        canPunchHole := false;
      }
      if canZeroRange {
        ok := Try(ZeroRange, offset, length, works);
        if ok { return true, Zeroed; }
        canZeroRange := false;
      }
      if canPunchHole && canFallocate {
        ok := Try(PunchHole, offset, length, works);
        if ok {
          ok := Try(Fallocate, offset, length, works);
          if !ok { return true, Zeroed; }
          canFallocate := false;
          return false, Refused(true);
        }
        canPunchHole := false;
      } else if canZeroOut && Aligned(offset, length) {
        ok := Try(ZeroOut, offset, length, works);
        if ok { return true, Zeroed; }
        canZeroOut := false;
      }
      return false, Refused(false);
    }

    /** synch_zero of any destination. */
    method SynchZero(offset: nat, length: nat, allocate: bool, works: Attempt -> bool)
      returns (done: bool, ghost how: Zeroing)
      requires offset + length <= dst.Length
      modifies this, dst
      ensures done <==> how.Zeroed?
      ensures dst[..] == if how == Refused(false) then old(dst[..]) else Overwrite(old(dst[..]), offset, Zeros(length))
      ensures how == Refused(true) <==> IsFile() && old(Misjudges(allocate, works))
      ensures how == Refused(true) <==> old(canFallocate) && !canFallocate
      ensures canFallocate ==> old(canFallocate)
      ensures IsFile() && !allocate && !done ==> !canPunchHole
    {
      match kind
      case NbdServer(canZero) =>
        if canZero { ZeroBytes(dst, offset, length); }
        return canZero, if canZero then Zeroed else Refused(false);
      case Pipe => return false, Refused(false);
      case _ => done, how := FileZero(offset, length, allocate, works);
    }

    /** A zero extent in synch_copying: zero it without and then with allocation, and if both
        are refused write zeroes.  Its first call makes sure that the second does not misjudge
        fallocate, whatever the kernel supports at either call. */
    method ZeroExtent(be: Backend, offset: nat, length: nat)
      requires offset + length <= dst.Length && forall n: nat | n > 0 :: 0 < be.writes(n) <= n
      modifies this, dst
      ensures dst[..] == Overwrite(old(dst[..]), offset, Zeros(length))
      ensures canFallocate == old(canFallocate)
    {
      hide Overwrite;
      OverwriteAgain(dst[..], offset, Zeros(length));
      ghost var how;
      var done;
      done, how := SynchZero(offset, length, false, a => be.supports(offset, false, a));
      if !done {
        done, how := SynchZero(offset, length, true, a => be.supports(offset, true, a));
      }
      if !done { SynchWrite(dst, Zeros(length), offset, be.writes); }
    }

    /** fill_dst_range_with_zeroes of the multi-threaded copier: one call of asynch_zero, which
        for a file is synch_zero, and if it is refused zeroes are written in requests.  They
        are written to a range that has just been zeroed if and only if the call misjudges
        fallocate. */
    method FillRange(be: Backend, offset: nat, length: nat, space: bool, requestSize: nat)
      returns (written: nat, ghost how: Zeroing)
      requires offset + length <= dst.Length && requestSize > 0 && forall n: nat | n > 0 :: 0 < be.writes(n) <= n
      modifies this, dst
      ensures dst[..] == Overwrite(old(dst[..]), offset, Zeros(length))
      ensures written == if how.Zeroed? then 0 else length
      ensures how == Refused(true) <==> IsFile() && old(Misjudges(space, a => be.supports(offset, space, a)))
    {
      var done;
      ghost var before := dst[..];
      done, how := SynchZero(offset, length, space, a => be.supports(offset, space, a));
      written := 0;
      if !done {
        ghost var was := dst[..];
        while written < length
          invariant written <= length && dst[..] == Overwrite(was, offset, Zeros(written))
        {
          var len := Min(requestSize, length - written);
          SynchWrite(dst, Zeros(len), offset + written, be.writes);
          written := written + len;
        }
      }
    }
  }

  /** A regular file on which zeroes are written to a range that reads as zeroes already: the
      kernel cannot zero a range in one go, and space is demanded. */
  method WritesZeroesTwice() returns (t: Target, written: nat, ghost how: Zeroing)
    ensures fresh(t) && fresh(t.dst) && t.kind.RegularFile? && t.dst.Length == 4 && how == Refused(true) && written == 4
  {
    var dst := new byte[4](_ => 7);
    t := new Target(RegularFile, dst, 4096);
    var be := Backend((o, n) => [], (o, allocate, a: Attempt) => !a.ZeroRange?, o => 0, n => n);
    written, how := t.FillRange(be, 0, 4, true, 4096);
  }

  lemma OverwriteAgain(d: seq<byte>, offset: nat, data: seq<byte>)
    requires offset + |data| <= |d|
    ensures Overwrite(Overwrite(d, offset, data), offset, data) == Overwrite(d, offset, data)
  {
  }

  /** One extent: zero it, or read and write. */
  method CopyExtent(be: Backend, src: seq<byte>, t: Target, e: Extent, ghost dst0: seq<byte>)
    requires e.End() <= |src| <= t.dst.Length && forall n: nat | n > 0 :: 0 < be.writes(n) <= n
    requires e.zero ==> AllZero(src[e.offset..e.End()])
    requires CopiedTo(t.dst[..], dst0, src, e.offset)
    modifies t, t.dst
    ensures CopiedTo(t.dst[..], dst0, src, e.End()) && t.canFallocate == old(t.canFallocate)
  {
    hide CopiedTo, Overwrite;
    CopyMore(t.dst[..], dst0, src, e.offset, src[e.offset..e.End()]);
    if e.zero {
      assert src[e.offset..e.End()] == Zeros(e.length);
      t.ZeroExtent(be, e.offset, e.length);
    } else {
      SynchWrite(t.dst, src[e.offset..e.End()], e.offset, be.writes);
    }
  }

  lemma SoundRead(be: Backend, src: seq<byte>, requestSize: nat, o: nat)
    requires Sound(be, src, requestSize) && o <= |src|
    ensures o + be.readable(o) <= |src| && (be.readable(o) == 0 ==> o == |src|)
    ensures forall n: nat | n > 0 :: 0 < be.writes(n) <= n
  {
  }

  /** A source of unknown size: read and write until nothing comes any more. */
  method CopyStream(be: Backend, src: seq<byte>, dst: array<byte>, requestSize: nat, ghost dst0: seq<byte>)
    requires |src| <= dst.Length && Sound(be, src, requestSize) && dst0 == dst[..]
    modifies dst
    ensures CopiedTo(dst[..], dst0, src, |src|)
  {
    hide Sound, CopiedTo, Overwrite;
    var offset: nat := 0;
    CopyNone(dst0, src);
    SoundRead(be, src, requestSize, offset);
    var r: nat := be.readable(offset);
    while r > 0
      invariant CopiedTo(dst[..], dst0, src, offset) && r == be.readable(offset)
      invariant offset + r <= |src| && (r == 0 ==> offset == |src|)
      decreases |src| - offset
    {
      CopyMore(dst[..], dst0, src, offset, src[offset..offset + r]);
      SynchWrite(dst, src[offset..offset + r], offset, be.writes);
      offset := offset + r;
      SoundRead(be, src, requestSize, offset);
      r := be.readable(offset);
    }
  }

  /** synch_copying: afterwards the destination is the source, followed by what the
      destination held beyond it, the same result as every multi-threaded run; and no call of
      synch_zero was refused after it had zeroed its range. */
  method SynchCopying(be: Backend, src: seq<byte>, t: Target, requestSize: nat, sizeKnown: bool)
    requires requestSize > 0 && |src| <= t.dst.Length && Sound(be, src, requestSize)
    modifies t, t.dst
    ensures t.dst[..] == src + old(t.dst[..])[|src|..] && t.canFallocate == old(t.canFallocate)
  {
    hide Sound, CopiedTo;
    ghost var dst0 := t.dst[..];
    CopyNone(dst0, src);
    if !sizeKnown {
      CopyStream(be, src, t.dst, requestSize, dst0);
    } else {
      var offset: nat := 0;
      while offset < |src|
        invariant offset <= |src| && CopiedTo(t.dst[..], dst0, src, offset) && t.canFallocate == old(t.canFallocate)
        decreases |src| - offset
      {
        var count := |src| - offset;
        if count > requestSize {
          count := requestSize;
        }
        CopyRange(be, src, t, offset, count, requestSize, dst0);
        offset := offset + count;
      }
    }
    CopyAll(t.dst[..], dst0, src);
  }

  /** The extents of one request. */
  method CopyRange(be: Backend, src: seq<byte>, t: Target, offset: nat, count: nat, requestSize: nat,
                   ghost dst0: seq<byte>)
    requires 0 < count <= requestSize && offset + count <= |src| <= t.dst.Length && Sound(be, src, requestSize)
    requires CopiedTo(t.dst[..], dst0, src, offset)
    modifies t, t.dst
    ensures CopiedTo(t.dst[..], dst0, src, offset + count) && t.canFallocate == old(t.canFallocate)
  {
    var exts := be.extents(offset, count);
    var i, at := 0, offset;
    while i < |exts|
      invariant i <= |exts| && at == (if i < |exts| then exts[i].offset else offset + count)
      invariant CopiedTo(t.dst[..], dst0, src, at) && t.canFallocate == old(t.canFallocate)
    {
      TilesAbove(exts, offset, offset + count, i);
      TilesBelow(exts, offset, offset + count, i);
      assert exts[i].length <= count;
      CopyExtent(be, src, t, exts[i], dst0);
      at := at + exts[i].length;
      i := i + 1;
    }
  }
}
