/** Cooking block-status descriptors: from the server's list to what the callback sees. */
module BlockStatus {
  import opened Bytes

  /** One descriptor, decoded from the wire or as passed to the caller. */
  datatype Desc = Desc(length: nat, flags: nat)

  const INT64_MAX: int := 0x7fff_ffff_ffff_ffff
  const UINT32_MAX: int := 0xffff_ffff
  const MAX_REQUEST_SIZE: int := 64 * 1024 * 1024
  const EPROTO: nat := 71
  const EOVERFLOW: nat := 75

  /** How a list is cooked: 32-bit descriptors on the wire, a 64-bit callback, and the
      number of bytes from the request's offset to the end of the export. */
  datatype Mode = Mode(wire32: bool, wide: bool, cap: nat)

  /** The outcome for one descriptor: skip it and stop, or emit it and perhaps stop. */
  datatype One = Skip(err: nat) | Emit(d: Desc, stop: bool, err: nat)

  /** cmd->error ? : e */
  function First(err: nat, e: nat): nat { if err != 0 then err else e }

  /** The length a callback of this kind may see, before it is fitted to the export. */
  function Limit(m: Mode, len: nat): nat
  {
    if m.wire32 then len
    else
      var len1 := if len > INT64_MAX then INT64_MAX + 1 - MAX_REQUEST_SIZE else len;
      if len1 > UINT32_MAX && !m.wide then UINT32_MAX + 1 - MAX_REQUEST_SIZE else len1
  }

  /** One round of the loop, for a descriptor that is or is not the first. */
  function CookOne(m: Mode, d: Desc, first: bool, total: nat, err: nat): One
    requires total <= m.cap
  {
    var len := Limit(m, d.length);
    var cutFlags := !m.wire32 && d.flags > UINT32_MAX && !m.wide;
    if cutFlags && !first then Skip(err)
    else
      var err1 := if cutFlags then First(err, EOVERFLOW) else err;
      var flags := if cutFlags then d.flags % U32 else d.flags;
      var over := len > m.cap - total;
      var len2 := if over then m.cap - total else len;
      var err2 := if over then First(err1, EPROTO) else err1;
      if len2 == 0 && !first then Skip(err2)
      else
        Emit(Desc(len2, flags), len != d.length || cutFlags || over || len2 == 0,
             if len2 == 0 then First(err2, EPROTO) else err2)
  }

  datatype Cooked = Cooked(list: seq<Desc>, err: nat)

  /** The rest of the loop from descriptor `i` on. */
  function CookFrom(m: Mode, ds: seq<Desc>, i: nat, total: nat, err: nat): Cooked
    requires i <= |ds| && total <= m.cap
    decreases |ds| - i
  {
    if i == |ds| then Cooked([], err)
    else
      match CookOne(m, ds[i], i == 0, total, err)
      case Skip(e) => Cooked([], e)
      case Emit(d, stop, e) =>
        if stop then Cooked([d], e)
        else var rest := CookFrom(m, ds, i + 1, total + d.length, e); Cooked([d] + rest.list, rest.err)
  }

  function Cook(m: Mode, ds: seq<Desc>, err: nat): Cooked { CookFrom(m, ds, 0, 0, err) }

  function Sum(ds: seq<Desc>): nat { if ds == [] then 0 else ds[0].length + Sum(ds[1..]) }

  /** The descriptors fit their fields on the wire. */
  predicate OnWire(m: Mode, ds: seq<Desc>)
  {
    forall i | 0 <= i < |ds| ::
      if m.wire32 then ds[i].length < U32 && ds[i].flags < U32 else ds[i].length < U64 && ds[i].flags < U64
  }

  /** Nothing in the list needs cutting or complaining about. */
  predicate WellFormed(m: Mode, ds: seq<Desc>, total: nat)
  {
    && (forall i | 0 <= i < |ds| ::
          && 0 < ds[i].length <= INT64_MAX
          && (m.wide || (ds[i].length <= UINT32_MAX && ds[i].flags <= UINT32_MAX)))
    && total + Sum(ds) <= m.cap
  }

  /** An entry fits the callback's types and is no longer than the server's. */
  predicate Fits(m: Mode, out: Desc, server: Desc)
  {
    && out.length <= INT64_MAX && out.length <= server.length
    && (if m.wide then out.flags == server.flags else out.length <= UINT32_MAX && out.flags <= UINT32_MAX)
  }

  /** What the caller's callback can rely on, for the part of the list from `i` on. */
  predicate CookedOk(m: Mode, ds: seq<Desc>, i: nat, total: nat, r: Cooked)
    requires i <= |ds|
  {
    && |r.list| <= |ds| - i && (i == 0 < |ds| ==> |r.list| >= 1) && total + Sum(r.list) <= m.cap
    && (forall k | 0 <= k < |r.list| - 1 :: r.list[k] == ds[i + k])
    && (forall k | 0 <= k < |r.list| :: Fits(m, r.list[k], ds[i + k]))
    && (forall k | 0 <= k < |r.list| && r.list[k].length == 0 :: i == 0 && |r.list| == 1 && r.err != 0)
  }

  lemma CookOneOk(m: Mode, ds: seq<Desc>, i: nat, total: nat, err: nat)
    requires OnWire(m, ds) && i < |ds| && total <= m.cap
    ensures var one := CookOne(m, ds[i], i == 0, total, err);
      && (err != 0 ==> one.err == err) && (one.Skip? ==> i > 0)
      && (one.Emit? ==> Fits(m, one.d, ds[i]) && total + one.d.length <= m.cap &&
                        (!one.stop ==> one.d == ds[i] && one.d.length > 0)
                          && (one.d.length == 0 ==> i == 0 && one.err != 0))
  {
  }

  lemma CookedCons(m: Mode, ds: seq<Desc>, i: nat, total: nat, d: Desc, rest: Cooked)
    requires i < |ds| && d == ds[i] && d.length > 0 && Fits(m, d, d)
    requires CookedOk(m, ds, i + 1, total + d.length, rest)
    ensures CookedOk(m, ds, i, total, Cooked([d] + rest.list, rest.err))
  {
    var l := [d] + rest.list;
    assert l[1..] == rest.list;
    forall k | 0 <= k < |l|
      ensures (k < |l| - 1 ==> l[k] == ds[i + k]) && Fits(m, l[k], ds[i + k]) && l[k].length != 0
    {
      if k > 0 {
        assert l[k] == rest.list[k - 1] && ds[i + 1 + (k - 1)] == ds[i + k];
      }
    }
  }

  lemma {:induction false} CookFromBounds(m: Mode, ds: seq<Desc>, i: nat, total: nat, err: nat)
    requires OnWire(m, ds) && i <= |ds| && total <= m.cap
    ensures CookedOk(m, ds, i, total, CookFrom(m, ds, i, total, err))
    ensures err != 0 ==> CookFrom(m, ds, i, total, err).err == err
    decreases |ds| - i
  {
    hide OnWire, CookOne;
    if i < |ds| {
      CookOneOk(m, ds, i, total, err);
      var one := CookOne(m, ds[i], i == 0, total, err);
      if one.Emit? && !one.stop {
        CookFromBounds(m, ds, i + 1, total + one.d.length, one.err);
        CookedCons(m, ds, i, total, one.d, CookFrom(m, ds, i + 1, total + one.d.length, one.err));
      } else if one.Emit? {
        assert [one.d][1..] == [] && Sum([one.d]) == one.d.length;
      }
    }
  }

  lemma WellFormedCons(m: Mode, d: Desc, ds: seq<Desc>, total: nat)
    ensures WellFormed(m, [d] + ds, total) <==>
            WellFormed(m, [d], total) && WellFormed(m, ds, total + d.length)
  {
    var l := [d] + ds;
    assert l[1..] == ds && Sum(l) == d.length + Sum(ds) && l[0] == d;
    assert [d][1..] == [] && Sum([d]) == d.length;
    if WellFormed(m, l, total) {
      forall k | 0 <= k < |ds| ensures ds[k] == l[k + 1] { }
    }
  }

  /** The list passes unchanged and without complaint exactly when it is well formed. */
  lemma {:induction false} CookFromExact(m: Mode, ds: seq<Desc>, i: nat, total: nat)
    requires OnWire(m, ds) && i <= |ds| && total <= m.cap
    ensures CookFrom(m, ds, i, total, 0) == Cooked(ds[i..], 0) <==> WellFormed(m, ds[i..], total)
    decreases |ds| - i
  {
    hide CookOne, OnWire;
    if i < |ds| {
      var one := CookOne(m, ds[i], i == 0, total, 0);
      CookOneExact(m, ds, i, total);
      CookOneOk(m, ds, i, total, 0);
      assert ds[i..] == [ds[i]] + ds[i + 1..];
      WellFormedCons(m, ds[i], ds[i + 1..], total);
      if one == Emit(ds[i], false, 0) {
        CookFromExact(m, ds, i + 1, total + ds[i].length);
        var rest := CookFrom(m, ds, i + 1, total + ds[i].length, 0);
        assert ([ds[i]] + rest.list)[1..] == rest.list;
      } else {
        CookFromStops(m, ds, i, total);
      }
    }
  }

  /** A descriptor passes unchanged and lets the loop go on exactly when it is well formed. */
  lemma CookOneExact(m: Mode, ds: seq<Desc>, i: nat, total: nat)
    requires OnWire(m, ds) && i < |ds| && total <= m.cap
    ensures CookOne(m, ds[i], i == 0, total, 0) == Emit(ds[i], false, 0) <==> WellFormed(m, [ds[i]], total)
  {
    assert [ds[i]][1..] == [] && Sum([ds[i]]) == ds[i].length;
    assert [ds[i]][0] == ds[i];
  }

  lemma CookFromStops(m: Mode, ds: seq<Desc>, i: nat, total: nat)
    requires OnWire(m, ds) && i < |ds| && total <= m.cap
    requires CookOne(m, ds[i], i == 0, total, 0) != Emit(ds[i], false, 0)
    ensures CookFrom(m, ds, i, total, 0) != Cooked(ds[i..], 0)
  {
    var one := CookOne(m, ds[i], i == 0, total, 0);
    assert ds[i..][0] == ds[i];
    if one.Emit? && one.err != 0 {
      CookFromBounds(m, ds, i + 1, total + one.d.length, one.err);
    }
  }

  /** For every list the server can send, at least one entry reaches the callback, all but
      the last are the server's own, lengths add up to no more than is left of the export
      and fit the callback's types, and an empty entry comes alone and with an error; and
      the list passes unchanged without an error exactly when it is well formed. */
  lemma CookedList(m: Mode, ds: seq<Desc>, err: nat)
    requires OnWire(m, ds) && |ds| > 0
    ensures var r := Cook(m, ds, err);
      && 1 <= |r.list| <= |ds| && Sum(r.list) <= m.cap
      && r.list[..|r.list| - 1] == ds[..|r.list| - 1]
      && (forall k | 0 <= k < |r.list| :: Fits(m, r.list[k], ds[k]))
      && (forall k | 0 <= k < |r.list| && r.list[k].length == 0 :: |r.list| == 1 && r.err != 0)
      && (err != 0 ==> r.err == err)
    ensures Cook(m, ds, 0) == Cooked(ds, 0) <==> WellFormed(m, ds, 0)
  {
    CookFromBounds(m, ds, 0, 0, err);
    CookFromExact(m, ds, 0, 0);
    assert ds[0..] == ds;
  }

  /** The loop of RECV_BS_ENTRIES. */
  method CookLoop(m: Mode, ds: seq<Desc>, err: nat) returns (list: seq<Desc>, error: nat)
    requires OnWire(m, ds) && |ds| > 0
    ensures Cooked(list, error) == Cook(m, ds, err)
  {
    var i: nat, total: nat, stop := 0, 0, false;
    list, error := [], err;
    while i < |ds| && !stop
      invariant i <= |ds| && total <= m.cap
      invariant !stop ==>
        var rest := CookFrom(m, ds, i, total, error); Cook(m, ds, err) == Cooked(list + rest.list, rest.err)
      invariant stop ==> Cook(m, ds, err) == Cooked(list, error)
      decreases |ds| - i
    {
      var one := CookEntry(m, ds[i], i == 0, total, error);
      error := one.err;
      if one.Skip? {
        return;
      }
      stop := one.stop;
      assert stop || list + ([one.d] + CookFrom(m, ds, i + 1, total + one.d.length, error).list) ==
                     list + [one.d] + CookFrom(m, ds, i + 1, total + one.d.length, error).list;
      total := total + one.d.length;
      list := list + [one.d];
      i := i + 1;
    }
  }

  /** The body of the loop.  Its assertions are proved: the total stays within the cap, and
      a narrow callback gets 32-bit values. */
  method CookEntry(m: Mode, d: Desc, first: bool, total: nat, err: nat) returns (one: One)
    requires total <= m.cap && OnWire(m, [d])
    ensures one == CookOne(m, d, first, total, err)
  {
    assert [d][0] == d;
    var len, flags, error, stop := d.length, d.flags, err, false;
    if !m.wire32 {
      if len > INT64_MAX {
        stop := true;
        len := INT64_MAX + 1 - MAX_REQUEST_SIZE;
      }
      if len > UINT32_MAX && !m.wide {
        stop := true;
        len := UINT32_MAX + 1 - MAX_REQUEST_SIZE;
      }
      if flags > UINT32_MAX && !m.wide {
        stop := true;
        if !first {
          return Skip(error);
        }
        error := First(error, EOVERFLOW);
        flags := flags % U32;
      }
    }
    assert total <= m.cap;
    if len > m.cap - total {
      len := m.cap - total;
      stop := true;
      error := First(error, EPROTO);
    }
    if len == 0 {
      stop := true;
      if !first {
        return Skip(error);
      }
      error := First(error, EPROTO);
    }
    assert !m.wide ==> len <= UINT32_MAX && flags <= UINT32_MAX;
    return Emit(Desc(len, flags), stop, error);
  }
}
