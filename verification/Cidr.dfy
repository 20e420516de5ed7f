/** The hosts of an IPv4 subnet: all of them, or a random sample without
    repetition. */
module Cidr {
  import opened Wire
  import opened Dedup

  type u32 = n: nat | n < U32 witness 0

  function Pow2(n: nat): (r: nat)
    ensures r >= 1 && (n > 0 ==> r % 2 == 0)
  {
    if n == 0 then 1 else 2 * Pow2(n - 1)
  }

  lemma Pow2Grows(a: nat, b: nat)
    requires a <= b
    ensures Pow2(a) <= Pow2(b)
  {
    if a < b { Pow2Grows(a, b - 1); }
  }

  /** Addition as the release build does it. */
  function AddU32(a: nat, b: nat): u32 { (a + b) % U32 }

  function HostBits(prefix: byte): (bits: nat)
    ensures bits <= 32
  {
    if prefix <= 32 then 32 - prefix else 0
  }

  // ---- All hosts ---------------------------------------------------------

  /** All hosts of a subnet of at most 4096 addresses, without the first and the
      last address; larger subnets are not enumerated. */
  function EnumerateCidrV4(base: u32, prefix: byte): seq<u32> {
    var bits := HostBits(prefix);
    if bits == 0 then [base]
    else if bits > 12 then []
    else
      Pow2Grows(bits, 12);
      assert Pow2(12) == 4096;
      seq(Pow2(bits) - 2, i requires 0 <= i < Pow2(bits) - 2 => AddU32(base, i + 1))
  }

  /** The base address of the subnet it stands for. */
  predicate Aligned(base: u32, prefix: byte) {
    base % Pow2(HostBits(prefix)) == 0
  }

  /** An aligned subnet never wraps around. */
  lemma AlignedFits(base: u32, bits: nat)
    requires bits <= 32 && base % Pow2(bits) == 0
    ensures base + Pow2(bits) <= U32
  {
    hide Pow2;
    var p, q := Pow2(bits), Pow2(32 - bits);
    PowSplit(bits, 32 - bits);
    Pow2Of32();
    MultipleFits(base / p, p, q, base);
  }

  lemma MultipleFits(k: nat, p: nat, q: nat, base: nat)
    requires base == k * p && base < p * q
    ensures base + p <= p * q
  {
    assert p * q == q * p && (k + 1) * p == k * p + p;
    if k >= q {
      MulMono(q, k, p);
    } else {
      MulMono(k + 1, q, p);
    }
  }

  lemma MulMono(a: nat, b: nat, p: nat)
    requires a <= b
    ensures a * p <= b * p
  {
  }

  lemma PowSplit(a: nat, b: nat)
    ensures Pow2(a) * Pow2(b) == Pow2(a + b)
  {
    if b > 0 {
      PowSplit(a, b - 1);
      assert Pow2(a) * Pow2(b) == 2 * (Pow2(a) * Pow2(b - 1));
    }
  }

  lemma Pow2Of32()
    ensures Pow2(32) == U32
  {
    assert Pow2(8) == 256;
    PowSplit(8, 8);
    PowSplit(16, 16);
  }

  /** A subnet of 2 to 4096 addresses yields exactly those strictly between the first
      and the last one, in ascending order. */
  lemma EnumerateExact(base: u32, prefix: byte, a: u32)
    requires 20 <= prefix <= 31 && base % Pow2(32 - prefix) == 0
    ensures var hosts := EnumerateCidrV4(base, prefix);
            && (a in hosts <==> base < a < base + Pow2(32 - prefix) - 1)
            && forall i, j :: 0 <= i < j < |hosts| ==> hosts[i] < hosts[j]
  {
    var hosts, size := EnumerateCidrV4(base, prefix), Pow2(32 - prefix);
    AlignedFits(base, 32 - prefix);
    assert forall i :: 0 <= i < |hosts| ==> hosts[i] == base + i + 1;
    if base < a < base + size - 1 {
      assert hosts[a - base - 1] == a;
    }
  }

  /** A single address yields itself, a larger subnet nothing. */
  lemma EnumerateOthers(base: u32, prefix: byte)
    ensures prefix >= 32 ==> EnumerateCidrV4(base, prefix) == [base]
    ensures prefix < 20 ==> EnumerateCidrV4(base, prefix) == []
  {
  }

  // ---- A sample ----------------------------------------------------------

  function Size(prefix: byte): (size: nat)
    ensures 1 <= size < U32
  {
    var bits := HostBits(prefix);
    Pow2Of32();
    if bits >= 32 then U32 - 1
    else
      Pow2Grows(bits, 31);
      Pow2(bits)
  }

  predicate InRange(offsets: seq<nat>, usable: nat) {
    forall i :: 0 <= i < |offsets| ==> 1 <= offsets[i] <= usable
  }

  /** The offsets that the draws stand for; a draw is any number, brought into the
      range asked for. */
  function Offsets(draws: seq<nat>, usable: nat): (r: seq<nat>)
    requires 0 < usable < U32 - 1
    ensures |r| == |draws| && InRange(r, usable)
  {
    seq(|draws|, i requires 0 <= i < |draws| => 1 + draws[i] % usable)
  }

  function Addresses(base: u32, offsets: seq<nat>): (r: seq<u32>)
    ensures |r| == |offsets|
  {
    seq(|offsets|, i requires 0 <= i < |offsets| => AddU32(base, offsets[i]))
  }

  /** How many addresses are asked for; the count is cut to 32 bits first. */
  function Want(n: nat, usable: nat): nat { Min(n % U32, usable) }

  /** It draws until it has as many different offsets as it wants, and no longer;
      `out` holds them in the order in which they were first drawn.  It is done
      when `done`; otherwise the draws did not suffice and it would go on. */
  method SampleCidrV4(base: u32, prefix: byte, n: nat, draws: seq<nat>)
    returns (out: seq<u32>, used: nat, done: bool)
    ensures prefix >= 31 ==> done && out == [base]
    ensures prefix < 31 ==> Size(prefix) > 2
    ensures prefix < 31 ==>
              var usable := if prefix == 0 then 0xffff_fffd else Pow2(32 - prefix) - 2;
              var want := if n % 0x1_0000_0000 < usable then n % 0x1_0000_0000 else usable;
              && usable == Size(prefix) - 2
              && used <= |draws|
              && out == Addresses(base, Firsts(Offsets(draws[..used], usable)))
              && |out| <= want && (done <==> |out| == want)
              && (!done ==> used == |draws|)
              && (used > 0 ==> |Firsts(Offsets(draws[..used - 1], usable))| < want)
  {
    hide Firsts, Size, Pow2, Addresses, Offsets;
    SizeIs(prefix);
    out, used, done := [], 0, true;
    var size := Size(prefix);
    if size <= 2 {
      return [base], 0, true;
    }
    var usable := size - 2;
    var want := Min(n % U32, usable);
    var chosen := new Collector<nat>();
    assert Firsts<nat>([]) == [] by { NoFirsts(); }
    while |out| < want && used < |draws|
      invariant 0 <= used <= |draws| && fresh(chosen) && chosen.Valid()
      invariant chosen.offered == Offsets(draws[..used], usable)
      invariant out == Addresses(base, chosen.out) && |out| <= want
      invariant used > 0 ==> |Firsts(Offsets(draws[..used - 1], usable))| < want
    {
      var off := 1 + draws[used] % usable;
      var before := |chosen.out|;
      ghost var was := chosen.out;
      OffsetsNext(draws, usable, used);
      AddressesNext(base, was, off);
      FirstsMore(chosen.offered, off);
      chosen.Offer(off);
      if |chosen.out| > before {
        assert chosen.out == was + [off];
        out := out + [AddU32(base, off)];
      }
      used := used + 1;
    }
    done := |out| == want;
  }

  lemma NoFirsts()
    ensures Firsts<nat>([]) == []
  {
  }

  /** The size by the prefix: 2^32 - 1 stands for 2^32, and a prefix of 31 or more
      leaves no address between the first and the last one. */
  lemma SizeIs(prefix: byte)
    ensures prefix == 0 ==> Size(prefix) == 0xffff_ffff
    ensures 0 < prefix <= 32 ==> Size(prefix) == Pow2(32 - prefix)
    ensures prefix < 31 <==> Size(prefix) > 2
  {
    if 0 < prefix < 31 {
      Pow2Grows(2, 32 - prefix);
      assert Pow2(2) == 4;
    }
    assert Pow2(1) == 2 && Pow2(0) == 1;
  }

  lemma OffsetAt(draws: seq<nat>, usable: nat, i: nat)
    requires 0 < usable < U32 - 1 && i < |draws|
    ensures Offsets(draws, usable)[i] == 1 + draws[i] % usable
  {
  }

  lemma AddressAt(base: u32, offsets: seq<nat>, i: nat)
    requires i < |offsets|
    ensures Addresses(base, offsets)[i] == (base + offsets[i]) % 0x1_0000_0000
  {
  }

  lemma OffsetsNext(draws: seq<nat>, usable: nat, k: nat)
    requires 0 < usable < U32 - 1 && k < |draws|
    ensures Offsets(draws[..k + 1], usable) == Offsets(draws[..k], usable) + [1 + draws[k] % usable]
  {
  }

  lemma AddressesNext(base: u32, offsets: seq<nat>, off: nat)
    ensures Addresses(base, offsets + [off]) == Addresses(base, offsets) + [AddU32(base, off)]
  {
  }

  /** An address is sampled exactly when some draw stands for it. */
  lemma SampleHolds(base: u32, usable: nat, draws: seq<nat>, a: u32)
    requires 0 < usable < U32 - 1
    ensures a in Addresses(base, Firsts(Offsets(draws, usable))) <==>
            exists i :: 0 <= i < |draws| && a == (base + 1 + draws[i] % usable) % 0x1_0000_0000
  {
    hide Firsts, Offsets, Addresses, InRange;
    var offsets := Offsets(draws, usable);
    var picked := Firsts(offsets);
    var out := Addresses(base, picked);
    if a in out {
      var j :| 0 <= j < |out| && out[j] == a;
      AddressAt(base, picked, j);
      FirstsHold(offsets, picked[j]);
      var i :| 0 <= i < |offsets| && offsets[i] == picked[j];
      OffsetAt(draws, usable, i);
      assert a == (base + 1 + draws[i] % usable) % 0x1_0000_0000;
    }
    forall i | 0 <= i < |draws| && a == (base + 1 + draws[i] % usable) % 0x1_0000_0000
      ensures a in out
    {
      OffsetAt(draws, usable, i);
      FirstsHold(offsets, offsets[i]);
      var j :| 0 <= j < |picked| && picked[j] == offsets[i];
      AddressAt(base, picked, j);
    }
  }

  /** Whatever was drawn, no address comes twice and neither the first nor the
      last one of the subnet comes at all, even if its base is not aligned; with
      an aligned base all of them lie inside the subnet. */
  lemma SampleSound(base: u32, prefix: byte, draws: seq<nat>)
    requires Size(prefix) > 2
    ensures var out := Addresses(base, Firsts(Offsets(draws, Size(prefix) - 2)));
            && Distinct(out)
            && base !in out && AddU32(base, Size(prefix) - 1) !in out
            && (Aligned(base, prefix) ==> forall a :: a in out ==> base < a < base + Size(prefix) - 1)
  {
    hide Firsts, Size, Pow2, Aligned, Distinct, Addresses;
    var usable := Size(prefix) - 2;
    var offsets := Offsets(draws, usable);
    FirstsDistinct(offsets);
    PickedInRange(offsets, usable);
    AddressesApart(base, Firsts(offsets), usable);
    if Aligned(base, prefix) {
      SizeFits(base, prefix);
      AddressesInside(base, Firsts(offsets), usable);
    }
  }

  lemma AddressesApart(base: u32, picked: seq<nat>, usable: nat)
    requires Distinct(picked) && usable < U32 - 1 && InRange(picked, usable)
    ensures var out := Addresses(base, picked);
            Distinct(out) && base !in out && AddU32(base, usable + 1) !in out
  {
    var out := Addresses(base, picked);
    forall i, j | 0 <= i < j < |out| ensures out[i] != out[j] {
      WrapApart(base, picked[i], picked[j]);
    }
    forall i | 0 <= i < |out| ensures out[i] != base && out[i] != AddU32(base, usable + 1) {
      WrapApart(base, 0, picked[i]);
      WrapApart(base, usable + 1, picked[i]);
    }
  }

  lemma AddressesInside(base: u32, picked: seq<nat>, usable: nat)
    requires base + usable + 1 < U32 && InRange(picked, usable)
    ensures forall a :: a in Addresses(base, picked) ==> base < a < base + usable + 1
  {
  }

  lemma WrapApart(base: u32, a: u32, b: u32)
    requires a != b
    ensures AddU32(base, a) != AddU32(base, b)
  {
  }

  lemma SizeFits(base: u32, prefix: byte)
    requires Aligned(base, prefix)
    ensures base + Size(prefix) <= U32
  {
    AlignedFits(base, HostBits(prefix));
    Pow2Of32();
  }

  lemma PickedInRange(offsets: seq<nat>, usable: nat)
    requires InRange(offsets, usable)
    ensures InRange(Firsts(offsets), usable)
  {
    var picked := Firsts(offsets);
    forall i | 0 <= i < |picked| ensures 1 <= picked[i] <= usable {
      FirstsHold(offsets, picked[i]);
    }
  }

  // ---- Progress ----------------------------------------------------------

  lemma {:induction false} DistinctCard(s: seq<nat>)
    requires Distinct(s)
    ensures |set x: nat | x in s| == |s|
  {
    if s != [] {
      var init, last := s[..|s| - 1], s[|s| - 1];
      DistinctCard(init);
      assert s == init + [last];
      assert (set x: nat | x in s) == (set x: nat | x in init) + {last};
    }
  }

  function UpTo(n: nat): (r: set<nat>)
    ensures |r| == n && forall o :: o in r <==> 1 <= o <= n
  {
    if n == 0 then {} else UpTo(n - 1) + {n}
  }

  /** While an address is still wanted there is one that was not drawn yet, so the
      loop can always make progress; and when all are wanted, all are found. */
  lemma Pigeonhole(picked: seq<nat>, usable: nat)
    requires Distinct(picked) && InRange(picked, usable)
    ensures |picked| <= usable
    ensures |picked| < usable <==> exists o :: 1 <= o <= usable && o !in picked
  {
    hide Distinct, UpTo;
    var all, have: set<nat> := UpTo(usable), set x: nat | x in picked;
    DistinctCard(picked);
    PickedAmong(picked, usable);
    Subset(have, all);
    forall o: nat | 1 <= o <= usable && o !in picked
      ensures |picked| < usable
    {
      Subset(have + {o}, all);
    }
    if |picked| < usable {
      var o := Outside(have, all);
      assert 1 <= o <= usable && o !in picked;
    }
  }

  lemma PickedAmong(picked: seq<nat>, usable: nat)
    requires InRange(picked, usable)
    ensures (set x: nat | x in picked) <= UpTo(usable)
  {
  }

  lemma Outside(a: set<nat>, b: set<nat>) returns (o: nat)
    requires |a| < |b|
    ensures o in b && o !in a
  {
    if b <= a { Subset(b, a); }
    o :| o in b && o !in a;
  }

  lemma Subset(a: set<nat>, b: set<nat>)
    requires a <= b
    ensures |a| <= |b|
  {
    assert b == a + (b - a);
  }

  /** Asking for every host samples the same addresses that enumeration lists. */
  lemma FullSampleIsEnumeration(base: u32, prefix: byte, draws: seq<nat>, a: u32)
    requires 20 <= prefix <= 30 && base % Pow2(32 - prefix) == 0
    requires 2 < Pow2(32 - prefix) <= 4096
    requires |Firsts(Offsets(draws, Pow2(32 - prefix) - 2))| == Pow2(32 - prefix) - 2
    ensures a in Addresses(base, Firsts(Offsets(draws, Pow2(32 - prefix) - 2))) <==> a in EnumerateCidrV4(base, prefix)
  {
    hide Firsts, Size, Pow2, Offsets, EnumerateCidrV4, Addresses, Distinct, InRange;
    SizeIs(prefix);
    var usable := Size(prefix) - 2;
    var offsets := Offsets(draws, usable);
    var picked := Firsts(offsets);
    assert HostBits(prefix) == 32 - prefix;
    SampleSound(base, prefix, draws);
    EnumerateExact(base, prefix, a);
    SizeFits(base, prefix);
    FirstsDistinct(offsets);
    PickedInRange(offsets, usable);
    if base < a < base + usable + 1 {
      AllPicked(base, picked, usable, a);
    }
  }

  lemma AllPicked(base: u32, picked: seq<nat>, usable: nat, a: u32)
    requires Distinct(picked) && InRange(picked, usable) && |picked| == usable
    requires base < a < base + usable + 1 <= U32
    ensures a in Addresses(base, picked)
  {
    hide Distinct, InRange, Addresses;
    Pigeonhole(picked, usable);
    assert 1 <= a - base <= usable && a - base in picked;
    var i :| 0 <= i < |picked| && picked[i] == a - base;
    AddressAt(base, picked, i);
  }
}
