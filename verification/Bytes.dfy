/** Bytes, byte strings and the big-endian integers of the NBD wire format. */
module Bytes {

  type byte = x: int | 0 <= x < 256

  datatype Option<T> = None | Some(value: T)

  const U16: int := 0x1_0000
  const U32: int := 0x1_0000_0000
  const U64: int := 0x1_0000_0000_0000_0000

  function Min(a: int, b: int): int { if a < b then a else b }
  function Max(a: int, b: int): int { if a < b then b else a }

  /** `n` zero bytes. */
  function Zeros(n: nat): (z: seq<byte>)
    ensures |z| == n && forall i | 0 <= i < n :: z[i] == 0
  {
    seq(n, _ => 0)
  }

  /** Every byte of `s` is zero. */
  predicate AllZero(s: seq<byte>) { forall i | 0 <= i < |s| :: s[i] == 0 }

  /** `dst` with `data` written at `off`; both ends of the write lie inside `dst`. */
  function Overwrite(dst: seq<byte>, off: nat, data: seq<byte>): (r: seq<byte>)
    requires off + |data| <= |dst|
    ensures |r| == |dst|
    ensures forall x | 0 <= x < |dst| :: r[x] == if off <= x < off + |data| then data[x - off] else dst[x]
  {
    dst[..off] + data + dst[off + |data|..]
  }

  /** 256 to the power `w`. */
  function Pow256(w: nat): (p: nat)
    ensures p > 0
  {
    if w == 0 then 1 else 256 * Pow256(w - 1)
  }

  lemma Pow256Values()
    ensures Pow256(2) == U16 && Pow256(4) == U32 && Pow256(8) == U64
  {
    assert Pow256(4) == 256 * 256 * Pow256(2);
    assert Pow256(6) == 256 * 256 * Pow256(4);
    assert Pow256(8) == 256 * 256 * Pow256(6);
  }

  /** The low `w` bytes of `v`, most significant first (htobe16, htobe32, htobe64). */
  function BE(v: nat, w: nat): (s: seq<byte>)
    ensures |s| == w
  {
    if w == 0 then [] else BE(v / 256, w - 1) + [v % 256]
  }

  /** The big-endian value of a byte string (be16toh, be32toh, be64toh). */
  function Val(s: seq<byte>): (v: nat)
    ensures v < Pow256(|s|)
  {
    if |s| == 0 then 0 else Val(s[..|s| - 1]) * 256 + s[|s| - 1]
  }

  /** Decoding inverts encoding on every value that fits the field. */
  lemma {:induction false} ValBE(v: nat, w: nat)
    requires v < Pow256(w)
    ensures Val(BE(v, w)) == v
  {
    if w > 0 {
      ValBE(v / 256, w - 1);
      assert BE(v, w)[..w - 1] == BE(v / 256, w - 1);
    }
  }

  /** Encoding inverts decoding, so a field has exactly one wire form. */
  lemma {:induction false} BEVal(s: seq<byte>)
    ensures BE(Val(s), |s|) == s
  {
    if |s| > 0 {
      BEVal(s[..|s| - 1]);
      assert Val(s) / 256 == Val(s[..|s| - 1]) && Val(s) % 256 == s[|s| - 1];
    }
  }

  /** The first byte of a string is its most significant one. */
  lemma {:induction false} MostSignificantFirst(s: seq<byte>)
    requires s != []
    ensures Val(s) == s[0] * Pow256(|s| - 1) + Val(s[1..])
  {
    var n := |s| - 1;
    if n > 0 {
      MostSignificantFirst(s[..n]);
      var p, low := Pow256(n - 1), Val(s[..n][1..]);
      assert s[..n][1..] == s[1..][..n - 1];
      assert Val(s[1..]) == low * 256 + s[n];
      Scaled(s[0], p, low);
    } else {
      assert s[..0] == [] && s[1..] == [];
    }
  }

  lemma Scaled(a: nat, p: nat, low: nat)
    ensures (a * p + low) * 256 == a * (256 * p) + low * 256
  {
  }
}
