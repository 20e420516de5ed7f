/** Sampling an IPv6 subnet: the low 32 bits carry a random address of one of the
    known IPv4 subnets. */
module CidrV6 {
  import opened Wire
  import opened Cidr

  datatype V4Subnet = V4Subnet(base: bv32, prefix: byte)

  /** One sample: which subnet, and the random 32 bits. */
  datatype Draw = Draw(pick: nat, bits: bv32)

  const LOW32: bv128 := 0xffff_ffff

  /** The host bits of a subnet; a shift by 32 is a shift by 0. */
  function HostMask(prefix: byte): bv32 {
    (1 << (HostBits(prefix) % 32)) - 1
  }

  function Embedded(v4: seq<V4Subnet>, d: Draw): bv32 {
    if v4 == [] then d.bits
    else
      HostIn(v4[d.pick % |v4|], d.bits)
  }

  function HostIn(subnet: V4Subnet, bits: bv32): bv32 {
    var host := if HostBits(subnet.prefix) == 0 then 0 else bits & HostMask(subnet.prefix);
    subnet.base | host
  }

  predicate Inside(subnet: V4Subnet, a: bv32) {
    a & !HostMask(subnet.prefix) == subnet.base & !HostMask(subnet.prefix)
  }

  method SampleCidrV6(base: bv128, prefix: byte, n: nat, v4: seq<V4Subnet>, draws: seq<Draw>) returns (out: seq<bv128>)
    requires |draws| >= n
    ensures prefix >= 128 ==> out == [base]
    ensures prefix < 128 ==>
              && |out| == n
              && forall i :: 0 <= i < n ==> out[i] == base | (Embedded(v4, draws[i]) as bv128)
  {
    if prefix >= 128 { return [base]; }
    out := [];
    for i := 0 to n
      invariant |out| == i
      invariant forall j :: 0 <= j < i ==> out[j] == base | (Embedded(v4, draws[j]) as bv128)
    {
      out := out + [base | (Embedded(v4, draws[i]) as bv128)];
    }
  }

  /** A sample keeps the upper 96 bits of the base, and on a base without low bits
      its low 32 bits are the embedded address, which lies in a listed subnet. */
  lemma SampleKeepsPrefix(base: bv128, v4: seq<V4Subnet>, d: Draw)
    ensures var a := base | (Embedded(v4, d) as bv128);
            && a & !LOW32 == base & !LOW32
            && (base & LOW32 == 0 ==> a & LOW32 == Embedded(v4, d) as bv128)
    ensures v4 != [] ==> exists k :: 0 <= k < |v4| && Inside(v4[k], Embedded(v4, d))
  {
    hide Embedded, HostMask, Inside;
    Widen(base, Embedded(v4, d));
    if v4 != [] {
      EmbeddedInside(v4, d);
    }
  }

  lemma EmbeddedInside(v4: seq<V4Subnet>, d: Draw)
    requires v4 != []
    ensures Inside(v4[d.pick % |v4|], Embedded(v4, d))
  {
    hide HostIn, Inside;
    HostInside(v4[d.pick % |v4|], d.bits);
  }

  lemma HostInside(subnet: V4Subnet, bits: bv32)
    ensures Inside(subnet, HostIn(subnet, bits))
  {
    hide HostMask, HostBits;
    Masked(subnet.base, bits, HostMask(subnet.prefix));
  }

  lemma Widen(base: bv128, e: bv32)
    ensures (base | (e as bv128)) & !LOW32 == base & !LOW32
    ensures base & LOW32 == 0 ==> (base | (e as bv128)) & LOW32 == e as bv128
  {
  }

  lemma Masked(base: bv32, bits: bv32, mask: bv32)
    ensures (base | (bits & mask)) & !mask == base & !mask
    ensures (base | 0) & !mask == base & !mask
  {
  }

  /** All ones, shifted right by the prefix. */
  function LowBits(prefix: byte): bv32
    requires prefix <= 32
  {
    0xffff_ffff >> prefix
  }

  lemma MaskIs(prefix: byte)
    requires 1 <= prefix <= 32
    ensures HostMask(prefix) == LowBits(prefix)
  {
    assert HostBits(prefix) % 32 == 32 - prefix;
    OnesBelow(32 - prefix);
  }

  lemma OnesBelow(k: nat)
    requires k < 32
    ensures (1 as bv32 << k) - 1 == (0xffff_ffff as bv32) >> (32 - k)
  {
  }

  /** The embedded address is the subnet's base with as many drawn low bits as the
      prefix leaves. */
  lemma HostIs(subnet: V4Subnet, bits: bv32)
    requires 1 <= subnet.prefix <= 32
    ensures HostIn(subnet, bits) == subnet.base | (bits & LowBits(subnet.prefix))
  {
    hide HostMask, LowBits;
    MaskIs(subnet.prefix);
    if subnet.prefix == 32 {
      NoHostBits(bits);
    }
  }

  lemma NoHostBits(bits: bv32)
    ensures bits & LowBits(32) == 0
  {
  }
}
