/** Vocabulary shared by the whole model: bytes, optional values, results, and
    big-endian numbers of a given width. */
module Wire {

  type byte = b: int | 0 <= b < 256

  /** The values of a 32-bit integer. */
  const U32: nat := 0x1_0000_0000

  datatype Option<+T> = None | Some(value: T)

  datatype Result<+T, +E> = Ok(value: T) | Err(error: E)

  function Min(a: nat, b: nat): nat { if a <= b then a else b }

  function Flatten<T>(parts: seq<seq<T>>): seq<T> {
    if parts == [] then [] else parts[0] + Flatten(parts[1..])
  }

  lemma FlattenAppend<T>(a: seq<seq<T>>, b: seq<seq<T>>)
    ensures Flatten(a + b) == Flatten(a) + Flatten(b)
  {
    if a == [] {
      assert a + b == b;
    } else {
      assert (a + b)[1..] == a[1..] + b;
      FlattenAppend(a[1..], b);
    }
  }

  function Pow256(n: nat): nat {
    if n == 0 then 1 else 256 * Pow256(n - 1)
  }

  /** The `n` big-endian bytes of `v`. */
  function ToBE(v: nat, n: nat): (s: seq<byte>)
    requires v < Pow256(n)
    ensures |s| == n
  {
    if n == 0 then [] else ToBE(v / 256, n - 1) + [v % 256]
  }

  /** The number whose big-endian bytes are `s`. */
  function FromBE(s: seq<byte>): (v: nat)
    ensures v < Pow256(|s|)
  {
    if s == [] then 0 else FromBE(s[..|s| - 1]) * 256 + s[|s| - 1]
  }

  lemma FromToBE(v: nat, n: nat)
    requires v < Pow256(n)
    ensures FromBE(ToBE(v, n)) == v
  {
    if n > 0 {
      FromToBE(v / 256, n - 1);
      assert ToBE(v, n)[..n - 1] == ToBE(v / 256, n - 1);
    }
  }

  lemma {:induction false} ToFromBE(s: seq<byte>)
    ensures ToBE(FromBE(s), |s|) == s
  {
    if s != [] {
      var init, last := s[..|s| - 1], s[|s| - 1];
      ToFromBE(init);
      var v := FromBE(s);
      assert v == FromBE(init) * 256 + last;
      assert v / 256 == FromBE(init) && v % 256 == last;
      assert s == init + [last];
    }
  }

  /** A 16-bit big-endian field. */
  function U16(v: nat): (s: seq<byte>)
    requires v < 65536
    ensures |s| == 2 && FromU16(s[0], s[1]) == v
  {
    [v / 256, v % 256]
  }

  function FromU16(hi: byte, lo: byte): (v: nat)
    ensures v < 65536
  {
    hi * 256 + lo
  }

  /** `s` holds the bytes `x` at position `pos`. */
  predicate At<T(==)>(s: seq<T>, pos: nat, x: seq<T>) {
    pos + |x| <= |s| && s[pos..pos + |x|] == x
  }

  lemma AtSplit<T>(s: seq<T>, pos: nat, a: seq<T>, b: seq<T>)
    requires At(s, pos, a + b)
    ensures At(s, pos, a) && At(s, pos + |a|, b) && pos + |a| + |b| <= |s|
  {
    var whole := s[pos..pos + |a + b|];
    assert s[pos..pos + |a|] == whole[..|a|] == a;
    assert s[pos + |a|..pos + |a| + |b|] == whole[|a|..] == b;
  }

  lemma AtFirst<T>(s: seq<T>, pos: nat, x: seq<T>)
    requires At(s, pos, x) && x != []
    ensures pos < |s| && s[pos] == x[0]
  {
    assert s[pos] == s[pos..pos + |x|][0];
  }

  lemma SliceOfSlice<T>(s: seq<T>, from: nat, i: nat, j: nat)
    requires i <= j && from + j <= |s|
    ensures s[from..][i..j] == s[from + i..from + j]
  {
  }
}
