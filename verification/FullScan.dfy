/** The exhaustive scan: every host of every listed subnet is a candidate. */
module FullScan {
  import opened Wire
  import opened Dedup
  import opened Candidates
  import opened Cidr

  datatype Subnet = Subnet(base: u32, prefix: byte)

  function Hosts(subnet: Subnet): (ips: seq<Ip>)
    ensures |ips| == |EnumerateCidrV4(subnet.base, subnet.prefix)|
  {
    var hosts := EnumerateCidrV4(subnet.base, subnet.prefix);
    seq(|hosts|, i requires 0 <= i < |hosts| => V4(hosts[i]))
  }

  /** The host lists of the subnets, each enumerated. */
  function HostLists(subnets: seq<Subnet>): (lists: seq<seq<Ip>>)
    ensures |lists| == |subnets|
  {
    seq(|subnets|, i requires 0 <= i < |subnets| => Hosts(subnets[i]))
  }

  /** The loop that collects them. */
  method CollectHosts(subnets: seq<Subnet>) returns (lists: seq<seq<Ip>>)
    ensures lists == HostLists(subnets)
  {
    lists := [];
    for i := 0 to |subnets|
      invariant |lists| == i && forall k :: 0 <= k < i ==> lists[k] == Hosts(subnets[k])
    {
      lists := lists + [Hosts(subnets[i])];
    }
  }

  /** Its base is its first address. */
  predicate Proper(subnet: Subnet) {
    subnet.prefix <= 32 && subnet.base % Pow2(32 - subnet.prefix) == 0
  }

  /** The addresses of a subnet that are scanned: a single address itself, else
      those strictly between the first and the last one; subnets of more than 4096
      addresses are not enumerated. */
  predicate Scanned(subnet: Subnet, a: u32)
    requires Proper(subnet)
  {
    if subnet.prefix == 32 then a == subnet.base
    else subnet.prefix >= 20 && subnet.base < a < subnet.base + Pow2(32 - subnet.prefix) - 1
  }

  lemma HostsAreScanned(subnet: Subnet, a: u32)
    requires Proper(subnet)
    ensures V4(a) in Hosts(subnet) <==> Scanned(subnet, a)
  {
    hide Pow2;
    var hosts := EnumerateCidrV4(subnet.base, subnet.prefix);
    EnumerateOthers(subnet.base, subnet.prefix);
    if 20 <= subnet.prefix <= 31 {
      EnumerateExact(subnet.base, subnet.prefix, a);
    }
    assert V4(a) in Hosts(subnet) <==> a in hosts by {
      hide EnumerateCidrV4;
      if a in hosts {
        var i :| 0 <= i < |hosts| && hosts[i] == a;
        assert Hosts(subnet)[i] == V4(a);
      }
    }
  }

  lemma ListsAreScanned(subnets: seq<Subnet>, a: u32)
    requires forall s :: s in subnets ==> Proper(s)
    ensures Holds(HostLists(subnets), V4(a)) <==> exists s :: s in subnets && Scanned(s, a)
  {
    hide Hosts, Scanned, Proper;
    var lists := HostLists(subnets);
    if Holds(lists, V4(a)) {
      var l :| l in lists && V4(a) in l;
      var i :| 0 <= i < |lists| && lists[i] == l;
      HostsAreScanned(subnets[i], a);
    }
    forall s | s in subnets && Scanned(s, a)
      ensures Holds(lists, V4(a))
    {
      var i :| 0 <= i < |subnets| && subnets[i] == s;
      HostsAreScanned(s, a);
      assert lists[i] in lists;
    }
  }

  /** With full subnets, the IPv4 candidates on the primary port are exactly the
      seeds and every scanned address of every listed subnet, none of them twice;
      `other` is the IPv6 family. */
  lemma FullScanExact(seeds: seq<Ip>, subnets: seq<Subnet>, other: Family, ports: seq<nat>, a: u32)
    requires forall s :: s in subnets ==> Proper(s)
    requires !InFamily(other, V4(a))
    ensures var out := Firsts(Plan(Family(true, seeds, HostLists(subnets)), other, ports));
            && Distinct(out)
            && (Endpoint(V4(a), if ports == [] then 443 else ports[0]) in out <==>
                V4(a) in seeds || exists s :: s in subnets && Scanned(s, a))
  {
    hide Firsts, Plan, HostLists, Scanned, Proper, Holds, Primary;
    CandidatesExact(Family(true, seeds, HostLists(subnets)), other, ports);
    ListsAreScanned(subnets, a);
  }
}
