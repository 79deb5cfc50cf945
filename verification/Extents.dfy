/** Extent lists of nbdcopy: the queries that build them and the query that walks them. */
module Extents {
  import opened Bytes

  datatype Extent = Extent(offset: nat, length: nat, zero: bool)
  {
    function End(): nat { offset + length }

    predicate Has(x: int) { offset <= x < offset + length }
  }

  /** `exts` is a gap-free list of non-empty extents that starts at `lo` and ends at `hi`. */
  predicate Tiles(exts: seq<Extent>, lo: nat, hi: nat)
  {
    && (forall i | 0 <= i < |exts| :: exts[i].length > 0)
    && (forall i | 0 < i < |exts| :: exts[i].offset == exts[i - 1].End())
    && (if exts == [] then lo == hi else exts[0].offset == lo && exts[|exts| - 1].End() == hi)
  }

  /** Zero extents of `exts` only cover offsets where `z` holds. */
  ghost predicate ZeroOnlyWhere(exts: seq<Extent>, z: int -> bool)
  {
    forall i, x | 0 <= i < |exts| && exts[i].zero && exts[i].Has(x) :: z(x)
  }

  /** `x` lies in a zero extent of the list. */
  predicate InZeroExtent(exts: seq<Extent>, x: int)
  {
    exists i | 0 <= i < |exts| :: exts[i].Has(x) && exts[i].zero
  }

  /** Every byte of [lo, hi) lies in a zero extent. */
  ghost predicate ZeroRange(exts: seq<Extent>, lo: int, hi: int)
  {
    forall x | lo <= x < hi :: InZeroExtent(exts, x)
  }

  lemma {:induction false} TilesAbove(exts: seq<Extent>, lo: nat, hi: nat, j: nat)
    requires Tiles(exts, lo, hi) && j < |exts|
    ensures lo <= exts[j].offset
  {
    if j > 0 {
      TilesAbove(exts, lo, hi, j - 1);
    }
  }

  lemma {:induction false} TilesBelow(exts: seq<Extent>, lo: nat, hi: nat, j: nat)
    requires Tiles(exts, lo, hi) && j < |exts|
    ensures exts[j].End() <= hi
    decreases |exts| - j
  {
    if j < |exts| - 1 {
      TilesBelow(exts, lo, hi, j + 1);
      assert exts[j + 1].offset == exts[j].End();
    }
  }

  /** In a tiling, an earlier extent ends no later than a later one begins. */
  lemma {:induction false} TilesOrdered(exts: seq<Extent>, lo: nat, hi: nat, i: nat, j: nat)
    requires Tiles(exts, lo, hi) && i < j < |exts|
    ensures exts[i].End() <= exts[j].offset
    decreases j - i
  {
    if i + 1 < j {
      TilesOrdered(exts, lo, hi, i, j - 1);
      assert exts[j].offset == exts[j - 1].End();
    }
  }

  /** A tiling gives every offset of its range one extent and no other: the extent
      list is a function from offsets to zero flags. */
  lemma {:induction false} TilesUnique(exts: seq<Extent>, lo: nat, hi: nat, x: int)
    requires Tiles(exts, lo, hi) && lo <= x < hi
    ensures exists i | 0 <= i < |exts| :: exts[i].Has(x)
    ensures forall i, j | 0 <= i < |exts| && 0 <= j < |exts| && exts[i].Has(x) && exts[j].Has(x) :: i == j
    decreases |exts|
  {
    var n := |exts| - 1;
    if exts[n].offset <= x {
      assert exts[n].Has(x);
    } else {
      assert exts[n].offset == exts[n - 1].End();
      TilesUnique(exts[..n], lo, exts[n].offset, x);
      var i :| 0 <= i < n && exts[..n][i].Has(x);
      assert exts[i].Has(x);
    }
    forall i, j | 0 <= i < |exts| && 0 <= j < |exts| && exts[i].Has(x) && exts[j].Has(x) ensures i == j {
      if i < j { TilesOrdered(exts, lo, hi, i, j); }
      if j < i { TilesOrdered(exts, lo, hi, j, i); }
    }
  }

  /** Appending an adjacent non-empty extent extends a tiling. */
  lemma TilesAppend(exts: seq<Extent>, lo: nat, hi: nat, e: Extent)
    requires Tiles(exts, lo, hi) && e.offset == hi && e.length > 0
    ensures Tiles(exts + [e], lo, e.End())
  {
    var t := exts + [e];
    forall i | 0 < i < |t| ensures t[i].offset == t[i - 1].End() {
      if i < |exts| { assert t[i] == exts[i] && t[i - 1] == exts[i - 1]; }
    }
  }

  // ---- only_zeroes (copy/multi-thread-copying.c) ----

  /** Does [offset, offset + len) meet only zero extents?  `start` is the caller's cursor,
      an extent that begins at or before `offset`; `cursor` is its new value.  Every
      assertion of the original appears here as an assertion that is proved. */
  method OnlyZeroes(exts: seq<Extent>, start: nat, offset: nat, len: nat, ghost lo: nat, ghost hi: nat)
    returns (r: bool, cursor: nat)
    requires Tiles(exts, lo, hi) && lo <= offset && offset + len <= hi && len > 0
    requires start < |exts| && exts[start].offset <= offset
    ensures r <==> ZeroRange(exts, offset, offset + len)
    ensures start <= cursor < |exts| && exts[cursor].Has(offset)
  {
    cursor := start;
    var j := start + 1;
    while j < |exts|
      invariant start <= cursor < j <= |exts| && cursor == j - 1
      invariant exts[cursor].offset <= offset
    {
      if exts[j].offset <= offset {
        cursor := j;
      } else {
        break;
      }
      j := j + 1;
    }
    assert exts[cursor].offset <= offset;
    assert cursor == |exts| - 1 || exts[cursor + 1].offset > offset;
    assert exts[cursor].Has(offset);

    j := cursor;
    while j < |exts|
      invariant cursor <= j <= |exts|
      invariant forall x | offset <= x < offset + len && (j < |exts| ==> x < exts[j].offset) :: InZeroExtent(exts, x)
    {
      assert exts[j].End() > offset by {
        if cursor < j { TilesOrdered(exts, lo, hi, cursor, j); }
      }
      if exts[j].offset >= offset + len {
        break;
      }
      if !exts[j].zero {
        var x := Max(offset, exts[j].offset);
        assert exts[j].Has(x) && x < offset + len;
        TilesUnique(exts, lo, hi, x);
        assert !InZeroExtent(exts, x);
        return false, cursor;
      }
      forall x | offset <= x < offset + len && (j + 1 < |exts| ==> x < exts[j + 1].offset)
        ensures InZeroExtent(exts, x)
      {
        if j + 1 < |exts| { assert exts[j + 1].offset == exts[j].End(); }
        if exts[j].offset <= x { assert exts[j].Has(x); }
      }
      j := j + 1;
    }
    return true, cursor;
  }

  // ---- nbd_ops_get_extents (copy/nbd-ops.c) ----

  /** One descriptor of a block-status reply, after add_extent reduced the flags. */
  datatype Entry = Entry(length: nat, zero: bool)

  /** What one nbd_block_status_64 call gives: an error, or the base:allocation descriptors of
      each callback that was made for that context: none, one, or more if the server sends
      more than one chunk.  (A callback with an error records nothing, and the call fails.) */
  datatype Reply = Failed | Called(lists: seq<seq<Entry>>)

  /** How the extent query ends: a list, or one of the ways it stops the program. */
  datatype Outcome = Listed(exts: seq<Extent>) | ServerError | NoProgress | AssertionFailed

  /** Bytes described by a list of descriptors. */
  function Total(list: seq<Entry>): nat
  {
    if list == [] then 0 else Total(list[..|list| - 1]) + list[|list| - 1].length
  }

  lemma {:induction false} TotalMonotone(list: seq<Entry>, i: nat)
    requires i <= |list|
    ensures Total(list[..i]) <= Total(list)
    decreases |list| - i
  {
    if i < |list| {
      TotalMonotone(list, i + 1);
      assert list[..i + 1][..i] == list[..i];
    } else {
      assert list[..i] == list;
    }
  }

  /** A descriptor of a callback for a request of `count` bytes overruns the request and
      is not the last one, which the protocol forbids. */
  predicate EarlyOverrun(list: seq<Entry>, count: nat)
  {
    exists n | 0 < n < |list| :: Total(list[..n]) > count
  }

  /** The extents that a reply to a request at `offset` describes. */
  function Recorded(list: seq<Entry>, offset: nat): (exts: seq<Extent>)
    ensures |exts| == |list|
  {
    if list == [] then [] else
      var n := |list| - 1;
      Recorded(list[..n], offset) + [Extent(offset + Total(list[..n]), list[n].length, list[n].zero)]
  }

  lemma {:induction false} RecordedAt(list: seq<Entry>, offset: nat, i: nat)
    requires i < |list|
    ensures Recorded(list, offset)[i] == Extent(offset + Total(list[..i]), list[i].length, list[i].zero)
  {
    var n := |list| - 1;
    if i < n {
      RecordedAt(list[..n], offset, i);
      assert list[..n][..i] == list[..i];
    }
  }

  /** add_extent: record the descriptors of a reply. */
  method AddExtents(list: seq<Entry>, offset: nat) returns (exts: seq<Extent>)
    ensures exts == Recorded(list, offset)
  {
    exts := [];
    var i, at := 0, offset;
    while i < |list|
      invariant i <= |list| && at == offset + Total(list[..i]) && exts == Recorded(list[..i], offset)
    {
      assert list[..i + 1][..i] == list[..i];
      exts := exts + [Extent(at, list[i].length, list[i].zero)];
      at := at + list[i].length;
      i := i + 1;
    }
    assert list[..i] == list;
  }

  // ---- several callbacks ----

  /** Bytes described by all callbacks of a reply. */
  function TotalAll(lists: seq<seq<Entry>>): nat
  {
    if lists == [] then 0 else TotalAll(lists[..|lists| - 1]) + Total(lists[|lists| - 1])
  }

  /** Each callback is recorded from the offset of the request on. */
  function RecordedAll(lists: seq<seq<Entry>>, offset: nat): seq<Extent>
  {
    if lists == [] then [] else RecordedAll(lists[..|lists| - 1], offset) + Recorded(lists[|lists| - 1], offset)
  }

  /** All callbacks of a reply are recorded in one list. */
  method RecordReply(lists: seq<seq<Entry>>, offset: nat) returns (exts: seq<Extent>)
    ensures exts == RecordedAll(lists, offset)
  {
    exts := [];
    var c := 0;
    while c < |lists|
      invariant c <= |lists| && exts == RecordedAll(lists[..c], offset)
    {
      assert lists[..c + 1][..c] == lists[..c];
      var more := AddExtents(lists[c], offset);
      exts := exts + more;
      c := c + 1;
    }
    assert lists[..c] == lists;
  }

  /** A callback for the context overruns early, or one that brings something comes after one
      that made progress. */
  ghost predicate Disordered(lists: seq<seq<Entry>>, count: nat)
  {
    || (exists c | 0 <= c < |lists| :: EarlyOverrun(lists[c], count))
    || (exists c, d | 0 <= c < d < |lists| :: Total(lists[c]) > 0 && lists[d] != [])
  }

  /** The lengths of extents, added up. */
  function Span(exts: seq<Extent>): nat { if exts == [] then 0 else Span(exts[..|exts| - 1]) + exts[|exts| - 1].length }

  /** Extent `i` of a reply does not begin where the ones before it, cut back to the request,
      end: the assertion of nbd_ops_get_extents fails. */
  predicate Misplaced(exts: seq<Extent>, offset: nat, count: nat, i: nat)
    requires i < |exts|
  {
    exts[i].offset != offset + Min(count, Span(exts[..i]))
  }

  ghost predicate MisplacedFrom(exts: seq<Extent>, offset: nat, count: nat, lo: nat)
  {
    exists i: nat | lo <= i < |exts| :: Misplaced(exts, offset, count, i)
  }

  lemma {:induction false} SpanConcat(a: seq<Extent>, b: seq<Extent>)
    ensures Span(a + b) == Span(a) + Span(b)
  {
    if b == [] {
      assert a + b == a;
    } else {
      SpanConcat(a, b[..|b| - 1]);
      assert (a + b)[..|a + b| - 1] == a + b[..|b| - 1];
    }
  }

  lemma {:induction false} RecordedPrefix(list: seq<Entry>, offset: nat, i: nat)
    requires i <= |list|
    ensures Recorded(list, offset)[..i] == Recorded(list[..i], offset)
            && Span(Recorded(list[..i], offset)) == Total(list[..i])
    decreases |list|
  {
    if i < |list| {
      var n := |list| - 1;
      RecordedPrefix(list[..n], offset, i);
      assert list[..n][..i] == list[..i];
      assert Recorded(list, offset)[..i] == Recorded(list[..n], offset)[..i];
    } else {
      assert list[..i] == list && Recorded(list, offset)[..i] == Recorded(list, offset);
      if list != [] {
        var n := |list| - 1;
        RecordedPrefix(list[..n], offset, n);
        assert list[..n][..n] == list[..n];
        var r := Recorded(list, offset);
        assert r[..|r| - 1] == Recorded(list[..n], offset);
      }
    }
  }

  lemma {:induction false} SpanAll(lists: seq<seq<Entry>>, offset: nat)
    ensures Span(RecordedAll(lists, offset)) == TotalAll(lists)
  {
    if lists != [] {
      var n := |lists| - 1;
      SpanAll(lists[..n], offset);
      SpanConcat(RecordedAll(lists[..n], offset), Recorded(lists[n], offset));
      RecordedPrefix(lists[n], offset, |lists[n]|);
      assert lists[n][..|lists[n]|] == lists[n];
    }
  }

  lemma {:induction false} Progress(lists: seq<seq<Entry>>)
    ensures TotalAll(lists) > 0 <==> exists c | 0 <= c < |lists| :: Total(lists[c]) > 0
  {
    if lists != [] {
      var n := |lists| - 1;
      Progress(lists[..n]);
      assert forall c | 0 <= c < n :: lists[..n][c] == lists[c];
    }
  }

  /** Entry `e` of the last callback. */
  lemma EntryMisplaced(before: seq<Extent>, list: seq<Entry>, offset: nat, count: nat, e: nat)
    requires e < |list|
    ensures Misplaced(before + Recorded(list, offset), offset, count, |before| + e) <==>
              Total(list[..e]) != Min(count, Span(before) + Total(list[..e]))
  {
    hide Recorded, Span, Total;
    var new' := Recorded(list, offset);
    var all := before + new';
    assert all[..|before| + e] == before + new'[..e] && all[|before| + e] == new'[e];
    SpanConcat(before, new'[..e]);
    RecordedPrefix(list, offset, e);
    RecordedAt(list, offset, e);
  }

  /** In the extents of the last callback, something is misplaced if and only if it overruns
      early after no progress, or comes after progress. */
  lemma LastMisplaced(before: seq<Extent>, list: seq<Entry>, offset: nat, count: nat)
    requires count > 0
    ensures MisplacedFrom(before + Recorded(list, offset), offset, count, |before|)
            <==> if Span(before) == 0 then EarlyOverrun(list, count) else list != []
  {
    hide Recorded, Span, Total, Misplaced;
    var all := before + Recorded(list, offset);
    assert list[..0] == [];
    NoEntries();
    if Span(before) == 0 {
      if EarlyOverrun(list, count) {
        var n :| 0 < n < |list| && Total(list[..n]) > count;
        EntryMisplaced(before, list, offset, count, n);
      }
      if MisplacedFrom(all, offset, count, |before|) {
        var i: nat :| |before| <= i < |all| && Misplaced(all, offset, count, i);
        EntryMisplaced(before, list, offset, count, i - |before|);
        assert Total(list[..i - |before|]) > count;
      }
    } else if list != [] {
      EntryMisplaced(before, list, offset, count, 0);
    }
  }

  lemma NoEntries()
    ensures Total([]) == 0
  {
  }

  /** The assertion fails for some extent of a reply if and only if the reply is disordered. */
  lemma {:induction false} MisplacedExactly(lists: seq<seq<Entry>>, offset: nat, count: nat)
    requires count > 0
    ensures MisplacedFrom(RecordedAll(lists, offset), offset, count, 0) <==> Disordered(lists, count)
  {
    hide Recorded, Total, EarlyOverrun, Span, MisplacedFrom, Disordered;
    if lists == [] {
      NothingMisplaced(offset, count);
    } else {
      var n := |lists| - 1;
      var before, list := lists[..n], lists[n];
      var exts := RecordedAll(before, offset);
      MisplacedExactly(before, offset, count);
      LastMisplaced(exts, list, offset, count);
      SpanAll(before, offset);
      Progress(before);
      SplitMisplaced(exts, Recorded(list, offset), offset, count);
      SplitDisordered(before, list, count);
      assert lists == before + [list];
    }
  }

  lemma NothingMisplaced(offset: nat, count: nat)
    ensures !MisplacedFrom([], offset, count, 0) && !Disordered([], count)
  {
  }

  lemma SplitMisplaced(a: seq<Extent>, b: seq<Extent>, offset: nat, count: nat)
    ensures MisplacedFrom(a + b, offset, count, 0) <==>
              MisplacedFrom(a, offset, count, 0) || MisplacedFrom(a + b, offset, count, |a|)
  {
    hide Span;
    var all := a + b;
    forall i: nat | i < |a| ensures Misplaced(all, offset, count, i) <==> Misplaced(a, offset, count, i) {
      assert all[..i] == a[..i];
    }
    if MisplacedFrom(a, offset, count, 0) {
      var i: nat :| i < |a| && Misplaced(a, offset, count, i);
      assert Misplaced(all, offset, count, i);
    }
  }

  lemma SplitDisordered(before: seq<seq<Entry>>, list: seq<Entry>, count: nat)
    ensures Disordered(before + [list], count) <==>
              Disordered(before, count) || EarlyOverrun(list, count) ||
              (list != [] && exists c | 0 <= c < |before| :: Total(before[c]) > 0)
    ensures EarlyOverrun(list, count) ==> list != []
  {
    hide Total;
    var all := before + [list];
    assert all[|before|] == list && forall c | 0 <= c < |before| :: all[c] == before[c];
  }

  /** A reply without an overrun that fails the assertion: two callbacks for one byte each of a
      request for two. */
  lemma RepeatedCallback(offset: nat)
    ensures var one := [Entry(1, false)]; var lists := [one, one];
      !EarlyOverrun(one, 2) && TotalAll(lists) == 2 && MisplacedFrom(RecordedAll(lists, offset), offset, 2, 0)
  {
    hide RecordedAll, MisplacedFrom;
    var one := [Entry(1, false)];
    var lists := [one, one];
    assert one[..0] == [] && lists[..1] == [one] && lists[..1][..0] == lists[..0] == [];
    assert Total(one) == 1;
    assert TotalAll(lists[..1]) == 1;
    assert Total(lists[0]) > 0 && lists[1] != [];
    MisplacedExactly(lists, offset, 2);
  }

  /** Zero descriptors of a reply at `offset` only cover offsets where `z` holds. */
  ghost predicate SoundReply(rep: Reply, offset: nat, z: int -> bool)
  {
    rep.Called? ==> ZeroOnlyWhere(RecordedAll(rep.lists, offset), z)
  }

  /** An extent of the list that holds `x` has the zero flag `zero`. */
  predicate Shows(exts: seq<Extent>, x: int, zero: bool)
  {
    exists i | 0 <= i < |exts| :: exts[i].Has(x) && exts[i].zero == zero
  }

  lemma ShowsAppend(exts: seq<Extent>, e: Extent, x: int, zero: bool)
    ensures Shows(exts + [e], x, zero) <==> Shows(exts, x, zero) || (e.Has(x) && e.zero == zero)
  {
    var t := exts + [e];
    assert t[|exts|] == e && forall i | 0 <= i < |exts| :: t[i] == exts[i];
  }

  lemma {:induction false} ShowsConcat(a: seq<Extent>, b: seq<Extent>, x: int, zero: bool)
    ensures Shows(a + b, x, zero) <==> Shows(a, x, zero) || Shows(b, x, zero)
  {
    var t := a + b;
    assert forall i | 0 <= i < |a| :: t[i] == a[i];
    assert forall i | 0 <= i < |b| :: t[|a| + i] == b[i];
    if Shows(t, x, zero) {
      var i :| 0 <= i < |t| && t[i].Has(x) && t[i].zero == zero;
      if i >= |a| { assert b[i - |a|] == t[i]; }
    }
  }

  /** Descriptor `e` of callback `c`, in the reply to a request at `at`, covers `x`: the ones
      before it in the callback end at or before `x`, and it ends behind. */
  predicate Covers(lists: seq<seq<Entry>>, at: nat, c: nat, e: nat, x: int)
    requires c < |lists| && e < |lists[c]|
  {
    at + Total(lists[c][..e]) <= x < at + Total(lists[c][..e]) + lists[c][e].length
  }

  /** A descriptor of the reply that covers `x` has the zero flag `zero`. */
  predicate ReplySays(lists: seq<seq<Entry>>, at: nat, x: int, zero: bool)
  {
    exists c, e | 0 <= c < |lists| && 0 <= e < |lists[c]| :: Covers(lists, at, c, e, x) && lists[c][e].zero == zero
  }

  lemma RecordedShows(list: seq<Entry>, at: nat, x: int, zero: bool)
    ensures Shows(Recorded(list, at), x, zero) <==> ReplySays([list], at, x, zero)
  {
    hide Recorded, Total;
    forall e: nat | e < |list|
      ensures Recorded(list, at)[e] == Extent(at + Total(list[..e]), list[e].length, list[e].zero)
    {
      RecordedAt(list, at, e);
    }
    assert [list][0] == list;
    if Shows(Recorded(list, at), x, zero) {
      var e: nat :| e < |list| && Recorded(list, at)[e].Has(x) && Recorded(list, at)[e].zero == zero;
      assert Covers([list], at, 0, e, x);
    }
    if ReplySays([list], at, x, zero) {
      var c, e :| 0 <= c < 1 && 0 <= e < |list| && Covers([list], at, c, e, x) && list[e].zero == zero;
      assert Recorded(list, at)[e].Has(x);
    }
  }

  lemma SaysAppend(before: seq<seq<Entry>>, list: seq<Entry>, at: nat, x: int, zero: bool)
    ensures ReplySays(before + [list], at, x, zero) <==>
              ReplySays(before, at, x, zero) || ReplySays([list], at, x, zero)
  {
    hide Total;
    var all := before + [list];
    assert all[|before|] == list && [list][0] == list && forall c | 0 <= c < |before| :: all[c] == before[c];
    if ReplySays(before, at, x, zero) {
      var c, e :| 0 <= c < |before| && 0 <= e < |before[c]| && Covers(before, at, c, e, x) && before[c][e].zero == zero;
      assert Covers(all, at, c, e, x);
    }
    if ReplySays([list], at, x, zero) {
      var c, e :| 0 <= c < 1 && 0 <= e < |list| && Covers([list], at, c, e, x) && list[e].zero == zero;
      assert Covers(all, at, |before|, e, x);
    }
    if ReplySays(all, at, x, zero) {
      var c, e :| 0 <= c < |all| && 0 <= e < |all[c]| && Covers(all, at, c, e, x) && all[c][e].zero == zero;
      assert if c < |before| then Covers(before, at, c, e, x) else Covers([list], at, 0, e, x);
    }
  }

  /** What is recorded is what the reply says. */
  lemma {:induction false} RecordedSays(lists: seq<seq<Entry>>, at: nat, x: int, zero: bool)
    ensures Shows(RecordedAll(lists, at), x, zero) <==> ReplySays(lists, at, x, zero)
  {
    hide Recorded, Shows, ReplySays;
    if lists == [] {
      NothingSaid(at, x, zero);
    } else {
      var n := |lists| - 1;
      RecordedSays(lists[..n], at, x, zero);
      RecordedShows(lists[n], at, x, zero);
      ShowsConcat(RecordedAll(lists[..n], at), Recorded(lists[n], at), x, zero);
      SaysAppend(lists[..n], lists[n], at, x, zero);
      assert lists == lists[..n] + [lists[n]];
    }
  }

  lemma NothingSaid(at: nat, x: int, zero: bool)
    ensures !Shows([], x, zero) && !ReplySays([], at, x, zero)
  {
  }

  /** Cut one extent back to the request and append what is left of it. */
  method CopyOne(ext: Extent, end: nat, ret: seq<Extent>, ghost lo: nat) returns (ret': seq<Extent>, took: nat)
    requires Tiles(ret, lo, ext.offset) && ext.offset <= end
    ensures took == Min(ext.length, end - ext.offset) && Tiles(ret', lo, ext.offset + took)
    ensures forall x, zero ::
      Shows(ret', x, zero) <==> Shows(ret, x, zero) || (x < end && ext.Has(x) && ext.zero == zero)
  {
    hide Shows;
    var e := ext;
    if e.End() > end {
      e := e.(length := e.length - (e.End() - end));
      assert e.End() == end;
    }
    ret', took := ret, 0;
    if e.length != 0 {
      TilesAppend(ret, lo, ext.offset, e);
      forall x, zero
        ensures Shows(ret + [e], x, zero) <==> Shows(ret, x, zero) || (x < end && ext.Has(x) && ext.zero == zero)
      {
        ShowsAppend(ret, e, x, zero);
      }
      ret', took := ret + [e], e.length;
    }
  }

  /** Copy the extents of one reply into the result.  `bad` reports that the assertion on
      the extent offset fails, which happens exactly for a disordered reply; otherwise the
      result says of each offset what it said before, or what the reply says. */
  method CopyReply(lists: seq<seq<Entry>>, offset: nat, count: nat, ret: seq<Extent>, ghost lo: nat)
    returns (bad: bool, ret': seq<Extent>, took: nat)
    requires Tiles(ret, lo, offset) && count > 0
    ensures bad <==> Disordered(lists, count)
    ensures !bad ==> took == Min(count, TotalAll(lists)) && Tiles(ret', lo, offset + took)
    ensures !bad ==> forall x, zero ::
      Shows(ret', x, zero) <==> Shows(ret, x, zero) || (x < offset + count && ReplySays(lists, offset, x, zero))
  {
    hide Tiles, Shows, ReplySays, RecordedAll, Disordered;
    var exts := RecordReply(lists, offset);
    MisplacedExactly(lists, offset, count);
    SpanAll(lists, offset);
    ret', took, bad := ret, 0, false;
    var i := 0;
    forall x, zero ensures !Shows(exts[..0], x, zero) { NothingSaid(offset, x, zero); }
    while i < |exts|
      invariant i <= |exts| && !bad
      invariant Tiles(ret', lo, offset + took) && took == Min(count, Span(exts[..i]))
      invariant forall k: nat | k < i :: !Misplaced(exts, offset, count, k)
      invariant forall x, zero ::
        Shows(ret', x, zero) <==> Shows(ret, x, zero) || (x < offset + count && Shows(exts[..i], x, zero))
    {
      if exts[i].offset != offset + took {
        assert Misplaced(exts, offset, count, i);
        bad := true;
        return;
      }
      assert exts[..i + 1][..i] == exts[..i];
      var n;
      ret', n := CopyOne(exts[i], offset + count, ret', lo);
      forall x, zero
        ensures Shows(exts[..i + 1], x, zero) <==> Shows(exts[..i], x, zero) || (exts[i].Has(x) && exts[i].zero == zero)
      {
        ShowsAppend(exts[..i], exts[i], x, zero);
        assert exts[..i] + [exts[i]] == exts[..i + 1];
      }
      took := took + n;
      i := i + 1;
    }
    assert exts[..i] == exts;
    forall x, zero ensures Shows(exts, x, zero) <==> ReplySays(lists, offset, x, zero) {
      RecordedSays(lists, offset, x, zero);
    }
  }

  /** A reply that moves the query on. */
  ghost predicate GoodReply(rep: Reply, left: nat)
  {
    rep.Called? && !Disordered(rep.lists, left) && TotalAll(rep.lists) > 0
  }

  /** How many bytes are left when call number `n` is made; None if it is not made.  `server`
      answers call number n for an offset and a count; it may answer anything. */
  ghost function Left(server: (nat, nat, nat) -> Reply, offset: nat, count: nat, n: nat): (r: Option<nat>)
    ensures r.Some? ==> 0 < r.value <= count
  {
    if n == 0 then (if count > 0 then Some(count) else None)
    else match Left(server, offset, count, n - 1)
      case None => None
      case Some(left) =>
        var rep := server(n - 1, offset + count - left, left);
        if GoodReply(rep, left) && TotalAll(rep.lists) < left then Some(left - TotalAll(rep.lists)) else None
  }

  /** The answer to call number `n`, if it is made. */
  ghost function Answer(server: (nat, nat, nat) -> Reply, offset: nat, count: nat, n: nat): Reply
    requires Left(server, offset, count, n).Some?
  {
    var left := Left(server, offset, count, n).value;
    server(n, offset + count - left, left)
  }

  /** All calls before the n-th were made and got good answers. */
  ghost predicate GoodUntil(server: (nat, nat, nat) -> Reply, offset: nat, count: nat, n: nat)
  {
    forall m: nat | m < n ::
      Left(server, offset, count, m).Some?
        && GoodReply(Answer(server, offset, count, m), Left(server, offset, count, m).value)
  }

  /** Every answer to a call that is made is sound. */
  ghost predicate AllSound(server: (nat, nat, nat) -> Reply, offset: nat, count: nat, z: int -> bool)
  {
    forall n: nat | Left(server, offset, count, n).Some? ::
      SoundReply(Answer(server, offset, count, n), offset + count - Left(server, offset, count, n).value, z)
  }

  /** The first answer that is not good decides how the query ends; with none, it ends. */
  ghost predicate EndsAs(server: (nat, nat, nat) -> Reply, offset: nat, count: nat, r: Outcome, n: nat)
  {
    && GoodUntil(server, offset, count, n)
    && if r.Listed? then Left(server, offset, count, n).None?
       else
         && Left(server, offset, count, n).Some?
         && var rep, left := Answer(server, offset, count, n), Left(server, offset, count, n).value;
            match r
            case ServerError => rep.Failed?
            case AssertionFailed => rep.Called? && Disordered(rep.lists, left)
            case _ => rep.Called? && !Disordered(rep.lists, left) && TotalAll(rep.lists) == 0
  }

  /** An outcome of a query is the only one it can have. */
  lemma OneEnd(server: (nat, nat, nat) -> Reply, offset: nat, count: nat, r: Outcome, n: nat, r': Outcome, n': nat)
    requires EndsAs(server, offset, count, r, n) && EndsAs(server, offset, count, r', n')
    ensures n == n' && (r.Listed? <==> r'.Listed?) && (!r.Listed? ==> r == r')
  {
    assert n < n' ==> Left(server, offset, count, n).Some?;
    assert n' < n ==> Left(server, offset, count, n').Some?;
  }

  // ---- what the server said ----

  /** Call number `n` was made, and a descriptor of its answer that covers `x` has the flag. */
  ghost predicate CallSays(server: (nat, nat, nat) -> Reply, offset: nat, count: nat, n: nat, x: int, zero: bool)
  {
    match Left(server, offset, count, n)
    case None => false
    case Some(left) =>
      var rep := Answer(server, offset, count, n);
      rep.Called? && ReplySays(rep.lists, offset + count - left, x, zero)
  }

  ghost predicate SaidBefore(server: (nat, nat, nat) -> Reply, offset: nat, count: nat, n: nat, x: int, zero: bool)
  {
    exists m: nat | m < n :: CallSays(server, offset, count, m, x, zero)
  }

  /** Of the answers to the calls that are made, a descriptor that covers `x` has the flag. */
  ghost predicate Says(server: (nat, nat, nat) -> Reply, offset: nat, count: nat, x: int, zero: bool)
  {
    exists n: nat :: CallSays(server, offset, count, n, x, zero)
  }

  /** The zero flag of each extent is that of the descriptors that cover its offsets. */
  ghost predicate AsSaid(server: (nat, nat, nat) -> Reply, offset: nat, count: nat, exts: seq<Extent>)
  {
    forall i, x, zero | 0 <= i < |exts| && exts[i].Has(x) ::
      Says(server, offset, count, x, zero) <==> exts[i].zero == zero
  }

  /** After a call that is not made, none is. */
  lemma {:induction false} NoneAfter(server: (nat, nat, nat) -> Reply, offset: nat, count: nat, n: nat, m: nat)
    requires Left(server, offset, count, n).None? && n <= m
    ensures Left(server, offset, count, m).None?
  {
    if n < m { NoneAfter(server, offset, count, n, m - 1); }
  }

  lemma SaidNext(server: (nat, nat, nat) -> Reply, offset: nat, count: nat, n: nat, x: int, zero: bool)
    ensures SaidBefore(server, offset, count, n + 1, x, zero) <==>
              SaidBefore(server, offset, count, n, x, zero) || CallSays(server, offset, count, n, x, zero)
    ensures !SaidBefore(server, offset, count, 0, x, zero)
  {
    hide CallSays;
    if SaidBefore(server, offset, count, n, x, zero) {
      var m: nat :| m < n && CallSays(server, offset, count, m, x, zero);
      assert m < n + 1;
    }
  }

  /** A list that shows what was said, and has every offset once, is as was said. */
  lemma ListAsSaid(server: (nat, nat, nat) -> Reply, offset: nat, count: nat, n: nat, exts: seq<Extent>)
    requires Left(server, offset, count, n).None? && Tiles(exts, offset, offset + count)
    requires forall x, zero ::
      Shows(exts, x, zero) <==> x < offset + count && SaidBefore(server, offset, count, n, x, zero)
    ensures AsSaid(server, offset, count, exts)
  {
    hide CallSays, Left, Tiles;
    forall i, x, zero | 0 <= i < |exts| && exts[i].Has(x)
      ensures Says(server, offset, count, x, zero) <==> exts[i].zero == zero
    {
      TilesAbove(exts, offset, offset + count, i);
      TilesBelow(exts, offset, offset + count, i);
      TilesUnique(exts, offset, offset + count, x);
      assert Shows(exts, x, zero) <==> exts[i].zero == zero;
      if Says(server, offset, count, x, zero) {
        var m: nat :| CallSays(server, offset, count, m, x, zero);
        if n <= m { NotMade(server, offset, count, n, m, x, zero); }
        assert SaidBefore(server, offset, count, n, x, zero);
      }
    }
  }

  lemma NotMade(server: (nat, nat, nat) -> Reply, offset: nat, count: nat, n: nat, m: nat, x: int, zero: bool)
    requires Left(server, offset, count, n).None? && n <= m
    ensures !CallSays(server, offset, count, m, x, zero)
  {
    NoneAfter(server, offset, count, n, m);
  }

  /** If the descriptors with the zero flag are sound, so is a list that is as was said. */
  lemma SaidSoundly(server: (nat, nat, nat) -> Reply, offset: nat, count: nat, exts: seq<Extent>, z: int -> bool)
    requires AsSaid(server, offset, count, exts) && AllSound(server, offset, count, z)
    ensures ZeroOnlyWhere(exts, z)
  {
    hide Left, RecordedAll, ReplySays;
    forall i, x | 0 <= i < |exts| && exts[i].zero && exts[i].Has(x) ensures z(x) {
      assert Says(server, offset, count, x, true);
      var n: nat :| CallSays(server, offset, count, n, x, true);
      var at := offset + count - Left(server, offset, count, n).value;
      RecordedSays(Answer(server, offset, count, n).lists, at, x, true);
    }
  }

  /** Query the whole range [offset, offset + count).  A finished query tiles the range exactly,
      and an offset of the range is in a zero extent if and only if the descriptor that covers
      it in the answers of the server has the zero flag; and how the query ends is decided by
      the answers to the calls that are made. */
  method NbdGetExtents(server: (nat, nat, nat) -> Reply, offset: nat, count: nat, ghost z: int -> bool)
    returns (r: Outcome)
    ensures r.Listed? ==> Tiles(r.exts, offset, offset + count)
    ensures r.Listed? ==> AsSaid(server, offset, count, r.exts)
    ensures r.Listed? && AllSound(server, offset, count, z) ==> ZeroOnlyWhere(r.exts, z)
    ensures exists n: nat :: EndsAs(server, offset, count, r, n)
  {
    hide Tiles, ZeroOnlyWhere, SoundReply, Disordered, TotalAll, Shows, ReplySays, AllSound, SaidBefore, AsSaid;
    var ret, at, left, n := [], offset, count, 0;
    assert Tiles(ret, offset, at) by { NoExtents(offset); }
    forall x, zero ensures !Shows(ret, x, zero) && !SaidBefore(server, offset, count, n, x, zero) {
      NothingSaid(offset, x, zero);
      SaidNext(server, offset, count, 0, x, zero);
    }
    while left > 0
      invariant at + left == offset + count && Tiles(ret, offset, at)
      invariant GoodUntil(server, offset, count, n)
      invariant Left(server, offset, count, n) == if left > 0 then Some(left) else None
      invariant forall x, zero ::
        Shows(ret, x, zero) <==> x < offset + count && SaidBefore(server, offset, count, n, x, zero)
      decreases left
    {
      var rep := server(n, at, left);
      assert Answer(server, offset, count, n) == rep;
      if rep.Failed? {
        assert EndsAs(server, offset, count, ServerError, n);
        return ServerError;
      }
      var bad, ret', took := CopyReply(rep.lists, at, left, ret, offset);
      if bad {
        assert EndsAs(server, offset, count, AssertionFailed, n);
        return AssertionFailed;
      }
      if took == 0 {
        assert EndsAs(server, offset, count, NoProgress, n);
        return NoProgress;
      }
      assert GoodReply(rep, left);
      assert rep == Called(rep.lists);
      forall x, zero
        ensures Shows(ret', x, zero) <==> x < offset + count && SaidBefore(server, offset, count, n + 1, x, zero)
      {
        SaidNext(server, offset, count, n, x, zero);
      }
      ret, at, left, n := ret', at + took, left - took, n + 1;
    }
    assert EndsAs(server, offset, count, Listed(ret), n);
    ListAsSaid(server, offset, count, n, ret);
    if AllSound(server, offset, count, z) { SaidSoundly(server, offset, count, ret, z); }
    return Listed(ret);
  }

  lemma NoExtents(offset: nat)
    ensures Tiles([], offset, offset)
  {
  }

  // ---- file_get_extents (copy/file-ops.c) ----

  datatype Seek = Found(pos: nat) | NotFound

  /** The SEEK_DATA contract: the next data offset, or no more data. */
  ghost predicate SeekDataContract(seek: nat -> Seek, data: int -> bool)
  {
    forall o: nat ::
      match seek(o)
      case Found(p) => p >= o && data(p) && (forall x | o <= x < p :: !data(x))
      case NotFound => forall x | o <= x :: !data(x)
  }

  /** The SEEK_HOLE contract: from a data offset, the next hole, or the end of the file. */
  ghost predicate SeekHoleContract(seek: nat -> Seek, data: int -> bool)
  {
    forall o: nat | data(o) :: seek(o).Found? && seek(o).pos >= o && !data(seek(o).pos) &&
                               (forall x | o <= x < seek(o).pos :: data(x))
  }

  /** Every extent's zero flag says exactly whether its offsets hold data. */
  ghost predicate Exact(exts: seq<Extent>, data: int -> bool)
  {
    forall i, x | 0 <= i < |exts| && exts[i].Has(x) :: exts[i].zero <==> !data(x)
  }

  /** Append [at, pos), if it is not empty, with the given zero flag. */
  method AppendSpan(exts: seq<Extent>, at: nat, pos: nat, zero: bool, ghost lo: nat, ghost data: int -> bool)
    returns (r: seq<Extent>)
    requires Tiles(exts, lo, at) && Exact(exts, data) && at <= pos
    requires forall x | at <= x < pos :: zero <==> !data(x)
    ensures Tiles(r, lo, pos) && Exact(r, data)
    ensures r == if at < pos then exts + [Extent(at, pos - at, zero)] else exts
  {
    r := exts;
    if pos > at {
      var e := Extent(at, pos - at, zero);
      TilesAppend(exts, lo, at, e);
      r := exts + [e];
      forall i, x | 0 <= i < |r| && r[i].Has(x) ensures r[i].zero <==> !data(x) {
        if i < |exts| { assert r[i] == exts[i]; }
      }
    }
  }

  /** Scan holes and data of a file; only the last extent can overrun and is cut back. */
  method FileGetExtents(seekData: nat -> Seek, seekHole: nat -> Seek, offset: nat, count: nat, ghost data: int -> bool)
    returns (ret: seq<Extent>)
    requires count > 0
    requires SeekDataContract(seekData, data) && SeekHoleContract(seekHole, data)
    ensures Tiles(ret, offset, offset + count) && Exact(ret, data)
  {
    ret := [];
    var at, end := offset, offset + count;
    while at < end
      invariant offset <= at && Tiles(ret, offset, at) && Exact(ret, data)
      invariant at >= end ==> ret != [] && ret[|ret| - 1].offset < end
      decreases end - at
    {
      var s := seekData(at);
      var pos := if s.NotFound? then end else s.pos;
      ret := AppendSpan(ret, at, pos, true, offset, data);
      at := pos;
      if at >= end {
        break;
      }
      var t := seekHole(at);
      pos := t.pos;
      ret := AppendSpan(ret, at, pos, false, offset, data);
      at := pos;
    }
    ret := CutBack(ret, end, offset, at, data);
  }

  /** Cut the last extent back to `end`. */
  method CutBack(exts: seq<Extent>, end: nat, ghost lo: nat, ghost hi: nat, ghost data: int -> bool)
    returns (r: seq<Extent>)
    requires Tiles(exts, lo, hi) && Exact(exts, data)
    requires exts != [] && exts[|exts| - 1].offset < end <= hi
    ensures Tiles(r, lo, end) && Exact(r, data)
  {
    r := exts;
    var last := |exts| - 1;
    if exts[last].End() > end {
      var d := exts[last].End() - end;
      r := exts[last := exts[last].(length := exts[last].length - d)];
      assert r[last].End() == end;
      forall i, x | 0 <= i < |r| && r[i].Has(x) ensures r[i].zero <==> !data(x) {
        assert exts[i].Has(x);
      }
    }
  }
}
