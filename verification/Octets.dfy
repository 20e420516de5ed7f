/** The variable-length integers of section 16 of RFC 9000 and the bounded
    write cursor that the encoders fill.  The two top bits of the first byte
    give the width 1, 2, 4 or 8; the other bits are the value, big-endian. */
module Octets {
  import opened Wire

  const VARINT_LIMIT: nat := 0x4000_0000_0000_0000

  /** Width in bytes of a varint whose first byte has the top bits `e`. */
  function Width(e: nat): (w: nat)
    requires e < 4
    ensures 1 <= w <= 8
  {
    if e == 0 then 1 else if e == 1 then 2 else if e == 2 then 4 else 8
  }

  /** The values that fit the width `Width(e)`. */
  predicate Fits(v: nat, e: nat) {
    e < 4 && v < 64 * Pow256(Width(e) - 1)
  }

  lemma FitsLimits(v: nat)
    ensures Fits(v, 0) <==> v < 64
    ensures Fits(v, 1) <==> v < 16384
    ensures Fits(v, 2) <==> v < 1_073_741_824
    ensures Fits(v, 3) <==> v < VARINT_LIMIT
  {
    assert Pow256(3) == 256 * 256 * 256;
    assert Pow256(7) == 256 * 256 * 256 * 256 * Pow256(3);
  }

  /** `v` written in exactly `Width(e)` bytes. */
  function VarintOf(v: nat, e: nat): (s: seq<byte>)
    requires Fits(v, e)
    ensures |s| == Width(e) && s[0] / 64 == e
  {
    HeadBound(v, Width(e));
    var t := ToBE(v, Width(e));
    [t[0] + 64 * e] + t[1..]
  }

  lemma {:induction false} HeadBound(v: nat, n: nat)
    requires 0 < n && v < 64 * Pow256(n - 1)
    ensures v < Pow256(n) && ToBE(v, n)[0] < 64
  {
    if n > 1 {
      HeadBound(v / 256, n - 1);
    } else {
      assert ToBE(v / 256, 0) == [];
    }
  }

  /** The repository's `varint_len`. */
  function VarintLen(v: nat): nat {
    if v < 64 then 1 else if v < 16384 then 2 else if v < 1_073_741_824 then 4 else 8
  }

  /** Top bits of the shortest form. */
  function Shortest(v: nat): (e: nat)
    requires v < VARINT_LIMIT
    ensures e < 4 && Fits(v, e) && Width(e) == VarintLen(v)
    ensures forall d :: 0 <= d < e ==> !Fits(v, d)
  {
    FitsLimits(v);
    if v < 64 then 0 else if v < 16384 then 1 else if v < 1_073_741_824 then 2 else 3
  }

  function Varint(v: nat): (s: seq<byte>)
    requires v < VARINT_LIMIT
    ensures |s| == VarintLen(v)
  {
    VarintOf(v, Shortest(v))
  }

  /** Reads a varint: its value and its width, or nothing when `s` is too short. */
  function GetVarint(s: seq<byte>): (r: Option<(nat, nat)>)
    ensures r.Some? ==> 0 < r.value.1 <= |s|
  {
    if s == [] then None
    else
      var w := Width(s[0] / 64);
      if |s| < w then None
      else Some((FromBE([s[0] % 64] + s[1..w]), w))
  }

  /** Writing then reading, whatever follows and whatever width was used. */
  lemma GetVarintOf(v: nat, e: nat, rest: seq<byte>)
    requires Fits(v, e)
    ensures GetVarint(VarintOf(v, e) + rest) == Some((v, Width(e)))
  {
    var w := Width(e);
    HeadBound(v, w);
    var t := ToBE(v, w);
    var s := VarintOf(v, e) + rest;
    assert [s[0] % 64] + s[1..w] == t;
    FromToBE(v, w);
  }

  /** What was read is the only value whose encoding of that width stands there. */
  lemma GetVarintExact(s: seq<byte>)
    requires GetVarint(s).Some?
    ensures var (v, w) := GetVarint(s).value; var e := s[0] / 64;
            Fits(v, e) && w == Width(e) && s[..w] == VarintOf(v, e)
  {
    var w := Width(s[0] / 64);
    var t: seq<byte> := [s[0] % 64] + s[1..w];
    HeadDigit(t);
    ToFromBE(t);
    assert s[..w] == [t[0] + 64 * (s[0] / 64)] + t[1..];
  }

  lemma {:induction false} HeadDigit(t: seq<byte>)
    requires t != [] && t[0] < 64
    ensures FromBE(t) < 64 * Pow256(|t| - 1)
  {
    if |t| > 1 {
      HeadDigit(t[..|t| - 1]);
    } else {
      assert t[..0] == [];
    }
  }

  /** More input never changes a varint that was already complete. */
  lemma GetVarintStable(a: seq<byte>, b: seq<byte>)
    requires GetVarint(a).Some?
    ensures GetVarint(a + b) == GetVarint(a)
  {
    var w := Width(a[0] / 64);
    assert (a + b)[1..w] == a[1..w];
  }

  /** A write cursor over a buffer of fixed size; every `put` fails without
      moving when the rest of the buffer is too short. */
  class OctetsMut {
    const buf: array<byte>
    var off: nat

    ghost predicate Valid()
      reads this
    {
      off <= buf.Length
    }

    /** What has been written so far. */
    ghost function Written(): seq<byte>
      reads this, buf
      requires Valid()
    {
      buf[..off]
    }

    constructor (cap: nat)
      ensures Valid() && fresh(buf) && buf.Length == cap && off == 0 && Written() == []
    {
      buf := new byte[cap](_ => 0);
      off := 0;
    }

    method PutBytes(v: seq<byte>) returns (ok: bool)
      requires Valid()
      modifies this, buf
      ensures Valid()
      ensures ok <==> old(off) + |v| <= buf.Length
      ensures off == if ok then old(off) + |v| else old(off)
      ensures Written() == if ok then old(Written()) + v else old(Written())
    {
      ok := off + |v| <= buf.Length;
      if ok {
        ghost var before := buf[..off];
        forall i | 0 <= i < |v| {
          buf[off + i] := v[i];
        }
        off := off + |v|;
        assert buf[..off] == before + v;
      }
    }

    /** The library refuses values of 2^62 and more by panicking. */
    method PutVarint(v: nat) returns (ok: bool)
      requires Valid() && v < VARINT_LIMIT
      modifies this, buf
      ensures Valid()
      ensures ok <==> old(off) + VarintLen(v) <= buf.Length
      ensures off == if ok then old(off) + VarintLen(v) else old(off)
      ensures Written() == if ok then old(Written()) + Varint(v) else old(Written())
    {
      ok := PutBytes(Varint(v));
    }
  }
}
