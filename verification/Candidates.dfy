/** The list of endpoints to probe: seeds first, then the hosts of the subnets
    taken in turns, without duplicates. */
module Candidates {
  import opened Wire
  import opened Dedup

  datatype Ip = V4(v4: nat) | V6(v6: nat)

  datatype Endpoint = Endpoint(ip: Ip, port: nat)

  /** The seeds of a family and the host lists of its subnets. */
  datatype Family = Family(wanted: bool, seeds: seq<Ip>, hosts: seq<seq<Ip>>)

  const MASQUE_DEFAULT_PORT: nat := 443
  const WG_DEFAULT_PORT: nat := 2408

  function OnPort(ips: seq<Ip>, port: nat): seq<Endpoint> {
    if ips == [] then [] else OnPort(ips[..|ips| - 1], port) + [Endpoint(ips[|ips| - 1], port)]
  }

  lemma {:induction false} OnPortHolds(ips: seq<Ip>, port: nat, e: Endpoint)
    ensures e in OnPort(ips, port) <==> e.port == port && e.ip in ips
  {
    if ips != [] {
      OnPortHolds(ips[..|ips| - 1], port, e);
      assert ips == ips[..|ips| - 1] + [ips[|ips| - 1]];
    }
  }

  lemma {:induction false} OnPortAt(ips: seq<Ip>, port: nat)
    ensures |OnPort(ips, port)| == |ips|
    ensures forall k :: 0 <= k < |ips| ==> OnPort(ips, port)[k] == Endpoint(ips[k], port)
  {
    if ips != [] {
      OnPortAt(ips[..|ips| - 1], port);
    }
  }

  // ---- Taking the subnets in turns ----------------------------------------

  /** The hosts at index `i`, one of each list that is long enough. */
  function Round(lists: seq<seq<Ip>>, i: nat): seq<Ip> {
    if lists == [] then []
    else
      var last := lists[|lists| - 1];
      Round(lists[..|lists| - 1], i) + if i < |last| then [last[i]] else []
  }

  predicate InRound(lists: seq<seq<Ip>>, i: nat, x: Ip) {
    exists j :: 0 <= j < |lists| && i < |lists[j]| && lists[j][i] == x
  }

  lemma {:induction false} RoundHolds(lists: seq<seq<Ip>>, i: nat, x: Ip)
    ensures x in Round(lists, i) <==> InRound(lists, i, x)
  {
    if lists != [] {
      var before := lists[..|lists| - 1];
      RoundHolds(before, i, x);
      assert lists == before + [lists[|lists| - 1]];
      if InRound(before, i, x) {
        var j :| 0 <= j < |before| && i < |before[j]| && before[j][i] == x;
        assert lists[j] == before[j];
      }
    }
  }

  function Rounds(lists: seq<seq<Ip>>, n: nat): seq<Ip> {
    if n == 0 then [] else Rounds(lists, n - 1) + Round(lists, n - 1)
  }

  lemma {:induction false} RoundsHold(lists: seq<seq<Ip>>, n: nat, x: Ip)
    ensures x in Rounds(lists, n) <==> exists i :: 0 <= i < n && InRound(lists, i, x)
  {
    if n > 0 {
      RoundsHold(lists, n - 1, x);
      RoundHolds(lists, n - 1, x);
    }
  }

  function Longest(lists: seq<seq<Ip>>): nat {
    if lists == [] then 0
    else
      var n, last := Longest(lists[..|lists| - 1]), lists[|lists| - 1];
      if |last| > n then |last| else n
  }

  lemma {:induction false} NoneLonger(lists: seq<seq<Ip>>, j: nat)
    requires j < |lists|
    ensures |lists[j]| <= Longest(lists)
  {
    if j < |lists| - 1 {
      NoneLonger(lists[..|lists| - 1], j);
    }
  }

  function Interleaved(lists: seq<seq<Ip>>): seq<Ip> {
    Rounds(lists, Longest(lists))
  }

  lemma RoundMore(lists: seq<seq<Ip>>, k: nat, i: nat)
    requires k < |lists|
    ensures Round(lists[..k + 1], i) == Round(lists[..k], i) + if i < |lists[k]| then [lists[k][i]] else []
  {
    assert lists[..k + 1][..k] == lists[..k];
  }

  function Occurs(s: seq<Ip>, x: Ip): nat {
    if s == [] then 0 else Occurs(s[..|s| - 1], x) + if s[|s| - 1] == x then 1 else 0
  }

  lemma OccursAppend(a: seq<Ip>, b: seq<Ip>, x: Ip)
    ensures Occurs(a + b, x) == Occurs(a, x) + Occurs(b, x)
  {
    if b == [] {
      assert a + b == a;
    } else {
      assert (a + b)[..|a + b| - 1] == a + b[..|b| - 1];
      OccursAppend(a, b[..|b| - 1], x);
    }
  }

  /** How often `x` is among the first `n` elements of the lists. */
  function Heads(lists: seq<seq<Ip>>, n: nat, x: Ip): nat {
    if lists == [] then 0
    else
      var last := lists[|lists| - 1];
      Heads(lists[..|lists| - 1], n, x) + Occurs(last[..Min(n, |last|)], x)
  }

  lemma {:induction false} HeadsNext(lists: seq<seq<Ip>>, n: nat, x: Ip)
    ensures Heads(lists, n + 1, x) == Heads(lists, n, x) + Occurs(Round(lists, n), x)
  {
    if lists != [] {
      var before, last := lists[..|lists| - 1], lists[|lists| - 1];
      HeadsNext(before, n, x);
      if n < |last| {
        assert last[..n + 1][..n] == last[..n];
        OccursAppend(Round(before, n), [last[n]], x);
      } else {
        assert Round(lists, n) == Round(before, n);
      }
    }
  }

  lemma {:induction false} TurnsTakeEveryHost(lists: seq<seq<Ip>>, n: nat, x: Ip)
    ensures Occurs(Rounds(lists, n), x) == Heads(lists, n, x)
  {
    if n == 0 {
      NoHeads(lists, x);
    } else {
      TurnsTakeEveryHost(lists, n - 1, x);
      HeadsNext(lists, n - 1, x);
      OccursAppend(Rounds(lists, n - 1), Round(lists, n - 1), x);
    }
  }

  function Total(lists: seq<seq<Ip>>, x: Ip): nat {
    if lists == [] then 0 else Total(lists[..|lists| - 1], x) + Occurs(lists[|lists| - 1], x)
  }

  lemma {:induction false} AllHeads(lists: seq<seq<Ip>>, n: nat, x: Ip)
    requires Longest(lists) <= n
    ensures Heads(lists, n, x) == Total(lists, x)
  {
    if lists != [] {
      AllHeads(lists[..|lists| - 1], n, x);
      assert lists[|lists| - 1][..|lists[|lists| - 1]|] == lists[|lists| - 1];
    }
  }

  /** Taking turns neither loses nor repeats a host: every address is taken as
      often as the lists hold it. */
  lemma InterleavedKeepsAll(lists: seq<seq<Ip>>, x: Ip)
    ensures Occurs(Interleaved(lists), x) == Total(lists, x)
  {
    TurnsTakeEveryHost(lists, Longest(lists), x);
    AllHeads(lists, Longest(lists), x);
  }

  lemma {:induction false} NoHeads(lists: seq<seq<Ip>>, x: Ip)
    ensures Heads(lists, 0, x) == 0
  {
    if lists != [] {
      NoHeads(lists[..|lists| - 1], x);
      assert lists[|lists| - 1][..0] == [];
    }
  }

  // ---- The whole list ----------------------------------------------------

  /** The other ports of a seed. */
  function OtherPorts(ip: Ip, ports: seq<nat>, primary: nat): seq<Endpoint> {
    if ports == [] then []
    else
      var port := ports[|ports| - 1];
      OtherPorts(ip, ports[..|ports| - 1], primary) + if port != primary then [Endpoint(ip, port)] else []
  }

  lemma {:induction false} OtherPortsHold(ip: Ip, ports: seq<nat>, primary: nat, e: Endpoint)
    ensures e in OtherPorts(ip, ports, primary) <==> e.ip == ip && e.port in ports && e.port != primary
  {
    if ports != [] {
      OtherPortsHold(ip, ports[..|ports| - 1], primary, e);
      assert ports == ports[..|ports| - 1] + [ports[|ports| - 1]];
    }
  }

  function Extra(seeds: seq<Ip>, ports: seq<nat>, primary: nat): seq<Endpoint> {
    if seeds == [] then []
    else Extra(seeds[..|seeds| - 1], ports, primary) + OtherPorts(seeds[|seeds| - 1], ports, primary)
  }

  lemma {:induction false} ExtraHolds(seeds: seq<Ip>, ports: seq<nat>, primary: nat, e: Endpoint)
    ensures e in Extra(seeds, ports, primary) <==> e.ip in seeds && e.port in ports && e.port != primary
  {
    if seeds != [] {
      ExtraHolds(seeds[..|seeds| - 1], ports, primary, e);
      OtherPortsHold(seeds[|seeds| - 1], ports, primary, e);
      assert seeds == seeds[..|seeds| - 1] + [seeds[|seeds| - 1]];
    }
  }

  function Primary(ports: seq<nat>): nat {
    if ports == [] then MASQUE_DEFAULT_PORT else ports[0]
  }

  function Primaries(f: Family, primary: nat): seq<Endpoint> {
    if f.wanted then OnPort(f.seeds, primary) + OnPort(Interleaved(f.hosts), primary) else []
  }

  function Extras(f: Family, ports: seq<nat>): seq<Endpoint> {
    if f.wanted then Extra(f.seeds, ports, Primary(ports)) else []
  }

  function Plan(v4: Family, v6: Family, ports: seq<nat>): seq<Endpoint> {
    Primaries(v4, Primary(ports)) + Primaries(v6, Primary(ports)) + Extras(v4, ports) + Extras(v6, ports)
  }

  lemma OnPortAppend(a: seq<Ip>, b: seq<Ip>, port: nat)
    ensures OnPort(a + b, port) == OnPort(a, port) + OnPort(b, port)
  {
    if b == [] {
      assert a + b == a;
    } else {
      assert (a + b)[..|a + b| - 1] == a + b[..|b| - 1];
      OnPortAppend(a, b[..|b| - 1], port);
    }
  }

  method OfferSeeds(c: Collector<Endpoint>, seeds: seq<Ip>, port: nat)
    requires c.Valid()
    modifies c
    ensures c.offered == old(c.offered) + OnPort(seeds, port)
    ensures c.Valid()
  {
    for i := 0 to |seeds|
      invariant c.Valid()
      invariant c.offered == old(c.offered) + OnPort(seeds[..i], port)
    {
      assert seeds[..i + 1] == seeds[..i] + [seeds[i]];
      OnPortAppend(seeds[..i], [seeds[i]], port);
      c.Offer(Endpoint(seeds[i], port));
    }
    assert seeds[..|seeds|] == seeds;
  }

  method OfferRound(c: Collector<Endpoint>, lists: seq<seq<Ip>>, i: nat, port: nat)
    requires c.Valid()
    modifies c
    ensures c.offered == old(c.offered) + OnPort(Round(lists, i), port)
    ensures c.Valid()
  {
    hide Firsts, Round, OnPort;
    ghost var done := c.offered;
    NoRound(i, port);
    assert lists[..0] == [] && done + [] == done;
    for k := 0 to |lists|
      invariant c.Valid()
      invariant c.offered == done + OnPort(Round(lists[..k], i), port)
    {
      RoundMore(lists, k, i);
      if i < |lists[k]| {
        c.Offer(Endpoint(lists[k][i], port));
        OnPortMore(Round(lists[..k], i), lists[k][i], port);
      } else {
        assert Round(lists[..k + 1], i) == Round(lists[..k], i);
      }
    }
    assert lists[..|lists|] == lists;
  }

  lemma NoRound(i: nat, port: nat)
    ensures Round([], i) == [] && OnPort([], port) == []
  {
  }

  lemma OnPortMore(ips: seq<Ip>, ip: Ip, port: nat)
    ensures OnPort(ips + [ip], port) == OnPort(ips, port) + [Endpoint(ip, port)]
  {
    assert (ips + [ip])[..|ips|] == ips;
  }

  method OfferInTurns(c: Collector<Endpoint>, lists: seq<seq<Ip>>, port: nat)
    requires c.Valid()
    modifies c
    ensures c.offered == old(c.offered) + OnPort(Interleaved(lists), port)
    ensures c.Valid()
  {
    hide Firsts, Round, OnPort;
    var maxLen := 0;
    for k := 0 to |lists|
      invariant maxLen == Longest(lists[..k])
    {
      assert lists[..k + 1][..k] == lists[..k];
      if |lists[k]| > maxLen { maxLen := |lists[k]|; }
    }
    assert lists[..|lists|] == lists;
    NoRound(0, port);
    for i := 0 to maxLen
      invariant c.Valid()
      invariant c.offered == old(c.offered) + OnPort(Rounds(lists, i), port)
    {
      OfferRound(c, lists, i, port);
      OnPortAppend(Rounds(lists, i), Round(lists, i), port);
    }
  }

  method OfferPortsOf(c: Collector<Endpoint>, ip: Ip, ports: seq<nat>, primary: nat)
    requires c.Valid()
    modifies c
    ensures c.offered == old(c.offered) + OtherPorts(ip, ports, primary)
    ensures c.Valid()
  {
    hide Firsts;
    ghost var done := c.offered;
    assert done + [] == done;
    for k := 0 to |ports|
      invariant c.Valid()
      invariant c.offered == done + OtherPorts(ip, ports[..k], primary)
    {
      assert ports[..k + 1][..k] == ports[..k];
      if ports[k] != primary {
        c.Offer(Endpoint(ip, ports[k]));
      }
    }
    assert ports[..|ports|] == ports;
  }

  method OfferOtherPorts(c: Collector<Endpoint>, seeds: seq<Ip>, ports: seq<nat>, primary: nat)
    requires c.Valid()
    modifies c
    ensures c.offered == old(c.offered) + Extra(seeds, ports, primary)
    ensures c.Valid()
  {
    hide Firsts, OtherPorts;
    for i := 0 to |seeds|
      invariant c.Valid()
      invariant c.offered == old(c.offered) + Extra(seeds[..i], ports, primary)
    {
      OfferPortsOf(c, seeds[i], ports, primary);
      assert seeds[..i + 1][..i] == seeds[..i];
    }
    assert seeds[..|seeds|] == seeds;
  }

  method BuildCandidates(v4: Family, v6: Family, ports: seq<nat>) returns (out: seq<Endpoint>)
    ensures out == Firsts(Plan(v4, v6, ports))
  {
    hide OnPort, Interleaved, Extra, Firsts;
    var primary := if |ports| > 0 then ports[0] else MASQUE_DEFAULT_PORT;
    var c := new Collector<Endpoint>();
    if v4.wanted {
      OfferSeeds(c, v4.seeds, primary);
      OfferInTurns(c, v4.hosts, primary);
    }
    assert c.offered == Primaries(v4, primary);
    if v6.wanted {
      OfferSeeds(c, v6.seeds, primary);
      OfferInTurns(c, v6.hosts, primary);
    }
    assert c.offered == Primaries(v4, primary) + Primaries(v6, primary);
    if v4.wanted {
      OfferOtherPorts(c, v4.seeds, ports, primary);
    }
    if v6.wanted {
      OfferOtherPorts(c, v6.seeds, ports, primary);
    }
    assert c.offered == Plan(v4, v6, ports);
    out := c.out;
  }

  predicate Holds(lists: seq<seq<Ip>>, ip: Ip) {
    exists l :: l in lists && ip in l
  }

  /** The endpoints of a family that belong on the list: its seeds on the primary
      port and on every given one, its subnet hosts on the primary port. */
  predicate Expected(f: Family, primary: nat, ports: seq<nat>, e: Endpoint) {
    && f.wanted
    && ((e.ip in f.seeds && (e.port == primary || e.port in ports))
        || (Holds(f.hosts, e.ip) && e.port == primary))
  }

  /** No endpoint twice; every seed on every port, every subnet host on the
      primary port, which is the first one given or 443, and nothing else. */
  lemma CandidatesExact(v4: Family, v6: Family, ports: seq<nat>)
    ensures Distinct(Firsts(Plan(v4, v6, ports)))
    ensures var p := if ports == [] then 443 else ports[0];
            forall e :: e in Firsts(Plan(v4, v6, ports)) <==> Expected(v4, p, ports, e) || Expected(v6, p, ports, e)
  {
    hide Primaries, Extras, Expected, Firsts;
    var plan := Plan(v4, v6, ports);
    FirstsDistinct(plan);
    forall e
      ensures e in Firsts(plan) <==> Expected(v4, Primary(ports), ports, e) || Expected(v6, Primary(ports), ports, e)
    {
      FirstsHold(plan, e);
      InPlan(v4, ports, e);
      InPlan(v6, ports, e);
    }
  }

  lemma InterleavedHolds(lists: seq<seq<Ip>>, x: Ip)
    ensures x in Interleaved(lists) <==> Holds(lists, x)
  {
    hide Longest;
    RoundsHold(lists, Longest(lists), x);
    if x in Interleaved(lists) {
      var i :| 0 <= i < Longest(lists) && InRound(lists, i, x);
      var j :| 0 <= j < |lists| && i < |lists[j]| && lists[j][i] == x;
      assert lists[j] in lists && x in lists[j];
    }
    if Holds(lists, x) {
      var l :| l in lists && x in l;
      var j :| 0 <= j < |lists| && lists[j] == l;
      var i :| 0 <= i < |l| && l[i] == x;
      NoneLonger(lists, j);
      assert InRound(lists, i, x);
    }
  }

  lemma InPlan(f: Family, ports: seq<nat>, e: Endpoint)
    ensures e in Primaries(f, Primary(ports)) || e in Extras(f, ports) <==> Expected(f, Primary(ports), ports, e)
  {
    hide Interleaved;
    OnPortHolds(f.seeds, Primary(ports), e);
    OnPortHolds(Interleaved(f.hosts), Primary(ports), e);
    InterleavedHolds(f.hosts, e.ip);
    ExtraHolds(f.seeds, ports, Primary(ports), e);
  }

  // ---- The order of the list ---------------------------------------------

  lemma {:induction false} RoundsPrefix(lists: seq<seq<Ip>>, i: nat, n: nat)
    requires i <= n
    ensures Rounds(lists, i) <= Rounds(lists, n)
  {
    if i < n {
      RoundsPrefix(lists, i, n - 1);
    }
  }

  /** A host follows the hosts of all earlier rounds of its family, unless it was
      placed before the family's turn, as a seed, or in one of those rounds. */
  lemma FairTurns(
      before: seq<Endpoint>, f: Family, primary: nat, rest: seq<Endpoint>, i: nat, m: nat, a: Ip, b: Ip)
    requires f.wanted && i < m && InRound(f.hosts, i, a) && InRound(f.hosts, m, b)
    requires Endpoint(b, primary) !in before && b !in f.seeds
    requires forall t :: 0 <= t <= i ==> !InRound(f.hosts, t, b)
    ensures Before(Firsts(before + Primaries(f, primary) + rest), Endpoint(a, primary), Endpoint(b, primary))
  {
    hide InRound, OnPort, Firsts, Before, Round;
    var early, n := Rounds(f.hosts, i + 1), Longest(f.hosts);
    RoundHolds(f.hosts, m, b);
    RoundsHold(f.hosts, m + 1, b);
    InterleavedHolds(f.hosts, b);
    assert b in Interleaved(f.hosts) by { InRoundHeld(f.hosts, m, b); }
    assert i < n by { InRoundHeld(f.hosts, m, b); }
    RoundsPrefix(f.hosts, i + 1, n);
    var late := Rounds(f.hosts, n)[|early|..];
    assert Interleaved(f.hosts) == early + late;
    RoundsHold(f.hosts, i + 1, a);
    RoundsHold(f.hosts, i + 1, b);
    OnPortAppend(early, late, primary);
    var x, y := Endpoint(a, primary), Endpoint(b, primary);
    OnPortHolds(early, primary, x);
    OnPortHolds(early, primary, y);
    OnPortHolds(late, primary, y);
    OnPortHolds(f.seeds, primary, y);
    var front := before + OnPort(f.seeds, primary) + OnPort(early, primary);
    assert before + Primaries(f, primary) + rest == front + (OnPort(late, primary) + rest);
    FirstsKeepOrder(front, OnPort(late, primary) + rest, x, y);
  }

  lemma InRoundHeld(lists: seq<seq<Ip>>, m: nat, b: Ip)
    requires InRound(lists, m, b)
    ensures Holds(lists, b) && m < Longest(lists)
  {
    var j :| 0 <= j < |lists| && m < |lists[j]| && lists[j][m] == b;
    NoneLonger(lists, j);
    assert lists[j] in lists;
  }

  /** A family's seeds come before all its other hosts. */
  lemma SeedsFirst(before: seq<Endpoint>, f: Family, primary: nat, rest: seq<Endpoint>, seed: Ip, host: Ip)
    requires f.wanted && seed in f.seeds && Holds(f.hosts, host) && host !in f.seeds
    requires Endpoint(host, primary) !in before
    ensures Before(Firsts(before + Primaries(f, primary) + rest), Endpoint(seed, primary), Endpoint(host, primary))
  {
    hide OnPort, Firsts, Before, Interleaved;
    var x, y := Endpoint(seed, primary), Endpoint(host, primary);
    InterleavedHolds(f.hosts, host);
    OnPortHolds(f.seeds, primary, x);
    OnPortHolds(f.seeds, primary, y);
    OnPortHolds(Interleaved(f.hosts), primary, y);
    var front := before + OnPort(f.seeds, primary);
    assert before + Primaries(f, primary) + rest == front + (OnPort(Interleaved(f.hosts), primary) + rest);
    FirstsKeepOrder(front, OnPort(Interleaved(f.hosts), primary) + rest, x, y);
  }

  predicate InFamily(f: Family, ip: Ip) {
    ip in f.seeds || Holds(f.hosts, ip)
  }

  /** The order of the whole list, for two families without a common address. */
  lemma CandidatesOrder(v4: Family, v6: Family, ports: seq<nat>, f: Family, i: nat, m: nat, a: Ip, b: Ip)
    requires f == v4 || f == v6
    requires forall ip :: !(InFamily(v4, ip) && InFamily(v6, ip))
    requires f.wanted && b !in f.seeds && InRound(f.hosts, m, b)
    ensures var (out, p) := (Firsts(Plan(v4, v6, ports)), if ports == [] then 443 else ports[0]);
            && (a in f.seeds ==> Before(out, Endpoint(a, p), Endpoint(b, p)))
            && (i < m && InRound(f.hosts, i, a) && (forall t :: 0 <= t <= i ==> !InRound(f.hosts, t, b)) ==>
                  Before(out, Endpoint(a, p), Endpoint(b, p)))
  {
    hide Firsts, Before, InRound, Primaries, Extras, Holds;
    var p := Primary(ports);
    InRoundHeld(f.hosts, m, b);
    var before := if f == v4 then [] else Primaries(v4, p);
    var rest := (if f == v4 then Primaries(v6, p) else []) + Extras(v4, ports) + Extras(v6, ports);
    assert Plan(v4, v6, ports) == before + Primaries(f, p) + rest;
    assert InFamily(f, b);
    InPlan(v4, ports, Endpoint(b, p));
    if a in f.seeds {
      SeedsFirst(before, f, p, rest, a, b);
    }
    if i < m && InRound(f.hosts, i, a) && (forall t :: 0 <= t <= i ==> !InRound(f.hosts, t, b)) {
      FairTurns(before, f, p, rest, i, m, a, b);
    }
  }

  /** Everything on the primary port comes before everything on another port. */
  lemma PrimaryPortFirst(v4: Family, v6: Family, ports: seq<nat>, e: Endpoint, g: Endpoint)
    requires e in Firsts(Plan(v4, v6, ports)) && e.port == if ports == [] then 443 else ports[0]
    requires g in Firsts(Plan(v4, v6, ports)) && g.port != if ports == [] then 443 else ports[0]
    ensures Before(Firsts(Plan(v4, v6, ports)), e, g)
  {
    hide Firsts, Before, Primaries, Extras;
    FirstsHold(Plan(v4, v6, ports), e);
    FirstsHold(Plan(v4, v6, ports), g);
    PortsApart(v4, ports, e, g);
    PortsApart(v6, ports, e, g);
    var p := Primary(ports);
    var front, back := Primaries(v4, p) + Primaries(v6, p), Extras(v4, ports) + Extras(v6, ports);
    assert Plan(v4, v6, ports) == front + back;
    FirstsKeepOrder(front, back, e, g);
  }

  lemma PortsApart(f: Family, ports: seq<nat>, e: Endpoint, g: Endpoint)
    requires e.port == Primary(ports) && g.port != Primary(ports)
    ensures e !in Extras(f, ports) && g !in Primaries(f, Primary(ports))
  {
    hide Interleaved, OnPort, Extra;
    ExtraHolds(f.seeds, ports, Primary(ports), e);
    OnPortHolds(f.seeds, Primary(ports), g);
    OnPortHolds(Interleaved(f.hosts), Primary(ports), g);
  }

  /** On the primary port the first family comes before the second, and so does it on
      the other ports. */
  lemma FamiliesInOrder(v4: Family, v6: Family, ports: seq<nat>, e: Endpoint, g: Endpoint)
    requires forall ip :: !(InFamily(v4, ip) && InFamily(v6, ip))
    requires e in Firsts(Plan(v4, v6, ports)) && v4.wanted && InFamily(v4, e.ip)
    requires g in Firsts(Plan(v4, v6, ports)) && v6.wanted && InFamily(v6, g.ip)
    requires var p := if ports == [] then 443 else ports[0]; e.port == p <==> g.port == p
    ensures Before(Firsts(Plan(v4, v6, ports)), e, g)
  {
    hide Firsts, Before, Primaries, Extras, Holds;
    var p := Primary(ports);
    CandidatesExact(v4, v6, ports);
    InPlan(v4, ports, e);
    InPlan(v4, ports, g);
    InPlan(v6, ports, g);
    OnPrimary(v4, ports, e);
    OnPrimary(v6, ports, g);
    var a, b := Primaries(v4, p), Primaries(v6, p);
    var c, d := Extras(v4, ports), Extras(v6, ports);
    if e.port == p {
      assert Plan(v4, v6, ports) == a + (b + c + d);
      FirstsKeepOrder(a, b + c + d, e, g);
    } else {
      assert Plan(v4, v6, ports) == a + b + c + d;
      FirstsKeepOrder(a + b + c, d, e, g);
    }
  }

  lemma OnPrimary(f: Family, ports: seq<nat>, e: Endpoint)
    ensures e in Primaries(f, Primary(ports)) ==> e.port == Primary(ports)
    ensures e in Extras(f, ports) ==> e.port != Primary(ports)
  {
    hide OnPort, Interleaved, Extra;
    OnPortHolds(f.seeds, Primary(ports), e);
    OnPortHolds(Interleaved(f.hosts), Primary(ports), e);
    ExtraHolds(f.seeds, ports, Primary(ports), e);
  }

  // ---- The order within the parts ------------------------------------------

  lemma BeforeAppend<T>(a: seq<T>, b: seq<T>, x: T, y: T)
    requires Before(a, x, y) || Before(b, x, y) || (x in a && y in b)
    ensures Before(a + b, x, y)
  {
    var s := a + b;
    if Before(a, x, y) {
      var i, j :| 0 <= i < j < |a| && a[i] == x && a[j] == y;
      assert s[i] == x && s[j] == y;
    } else if Before(b, x, y) {
      var i, j :| 0 <= i < j < |b| && b[i] == x && b[j] == y;
      assert s[|a| + i] == x && s[|a| + j] == y;
    } else {
      var i :| 0 <= i < |a| && a[i] == x;
      var j :| 0 <= j < |b| && b[j] == y;
      assert s[i] == x && s[|a| + j] == y;
    }
  }

  /** One round takes the lists in their order. */
  lemma {:induction false} RoundInOrder(lists: seq<seq<Ip>>, i: nat, j: nat, k: nat)
    requires j < k < |lists| && i < |lists[j]| && i < |lists[k]|
    ensures Before(Round(lists, i), lists[j][i], lists[k][i])
  {
    hide Before;
    var n := |lists| - 1;
    var before := lists[..n];
    var one := if i < |lists[n]| then [lists[n][i]] else [];
    if k < n {
      RoundInOrder(before, i, j, k);
    } else {
      assert before[j] == lists[j];
      assert InRound(before, i, lists[j][i]);
      RoundHolds(before, i, lists[j][i]);
    }
    BeforeAppend(Round(before, i), one, lists[j][i], lists[k][i]);
  }

  /** Earlier rounds come first, and within a round earlier lists. */
  lemma TurnsInOrder(lists: seq<seq<Ip>>, j: nat, i: nat, k: nat, m: nat)
    requires j < |lists| && i < |lists[j]| && k < |lists| && m < |lists[k]|
    requires i < m || (i == m && j < k)
    ensures Before(Interleaved(lists), lists[j][i], lists[k][m])
  {
    hide Before, Longest;
    NoneLonger(lists, k);
    RoundsInOrder(lists, j, i, k, m, Longest(lists));
  }

  lemma {:induction false} RoundsInOrder(lists: seq<seq<Ip>>, j: nat, i: nat, k: nat, m: nat, n: nat)
    requires j < |lists| && i < |lists[j]| && k < |lists| && m < |lists[k]| && m < n
    requires i < m || (i == m && j < k)
    ensures Before(Rounds(lists, n), lists[j][i], lists[k][m])
  {
    hide Before, Round;
    if m < n - 1 {
      RoundsInOrder(lists, j, i, k, m, n - 1);
    } else if i == m {
      RoundInOrder(lists, m, j, k);
    } else {
      assert InRound(lists, i, lists[j][i]) && InRound(lists, m, lists[k][m]);
      RoundsHold(lists, n - 1, lists[j][i]);
      RoundHolds(lists, m, lists[k][m]);
    }
    BeforeAppend(Rounds(lists, n - 1), Round(lists, n - 1), lists[j][i], lists[k][m]);
  }

  /** The other ports come seed by seed, and for each seed in their order. */
  lemma {:induction false} ExtraInOrder(seeds: seq<Ip>, ports: seq<nat>, primary: nat, i: nat, a: nat, j: nat, b: nat)
    requires i < |seeds| && j < |seeds| && a < |ports| && b < |ports|
    requires ports[a] != primary && ports[b] != primary
    requires i < j || (i == j && a < b)
    ensures Before(Extra(seeds, ports, primary), Endpoint(seeds[i], ports[a]), Endpoint(seeds[j], ports[b]))
  {
    hide Before, OtherPorts;
    var n := |seeds| - 1;
    var x, y := Endpoint(seeds[i], ports[a]), Endpoint(seeds[j], ports[b]);
    if j < n {
      ExtraInOrder(seeds[..n], ports, primary, i, a, j, b);
    } else if i == j {
      OtherPortsInOrder(seeds[n], ports, primary, a, b);
    } else {
      assert seeds[i] == seeds[..n][i];
      ExtraHolds(seeds[..n], ports, primary, x);
      OtherPortsHold(seeds[n], ports, primary, y);
    }
    BeforeAppend(Extra(seeds[..n], ports, primary), OtherPorts(seeds[n], ports, primary), x, y);
  }

  lemma {:induction false} OtherPortsInOrder(ip: Ip, ports: seq<nat>, primary: nat, a: nat, b: nat)
    requires a < b < |ports| && ports[a] != primary && ports[b] != primary
    ensures Before(OtherPorts(ip, ports, primary), Endpoint(ip, ports[a]), Endpoint(ip, ports[b]))
  {
    hide Before;
    var n := |ports| - 1;
    var x := Endpoint(ip, ports[a]);
    if b < n {
      OtherPortsInOrder(ip, ports[..n], primary, a, b);
    } else {
      assert ports[a] == ports[..n][a];
      OtherPortsHold(ip, ports[..n], primary, x);
    }
    BeforeAppend(
      OtherPorts(ip, ports[..n], primary), if ports[n] != primary then [Endpoint(ip, ports[n])] else [],
      x, Endpoint(ip, ports[b]));
  }

  // ---- WireGuard: ports in turns -----------------------------------------

  /** Each address with the port whose turn it is. */
  function Cycled(ips: seq<Ip>, ports: seq<nat>): (r: seq<Endpoint>)
    requires ports != []
    ensures |r| == |ips|
  {
    if ips == [] then []
    else Cycled(ips[..|ips| - 1], ports) + [Endpoint(ips[|ips| - 1], ports[(|ips| - 1) % |ports|])]
  }

  function WgPorts(ports: seq<nat>): (r: seq<nat>)
    ensures r != []
  {
    if Firsts(ports) == [] then [WG_DEFAULT_PORT] else Firsts(ports)
  }

  /** Anchors of both families, then hosts of both families. */
  function WgIps(v4: Family, v6: Family): seq<Ip> {
    (if v4.wanted then v4.seeds else []) + (if v6.wanted then v6.seeds else [])
    + ((if v4.wanted then Interleaved(v4.hosts) else []) + (if v6.wanted then Interleaved(v6.hosts) else []))
  }

  method TakeRound(pool: seq<Ip>, lists: seq<seq<Ip>>, i: nat) returns (more: seq<Ip>)
    ensures more == pool + Round(lists, i)
  {
    more := pool;
    for k := 0 to |lists|
      invariant more == pool + Round(lists[..k], i)
    {
      RoundMore(lists, k, i);
      if i < |lists[k]| {
        more := more + [lists[k][i]];
      }
    }
    assert lists[..|lists|] == lists;
  }

  method TakeTurns(lists: seq<seq<Ip>>) returns (pool: seq<Ip>)
    ensures pool == Interleaved(lists)
  {
    hide Round;
    var maxLen := 0;
    for k := 0 to |lists|
      invariant maxLen == Longest(lists[..k])
    {
      assert lists[..k + 1][..k] == lists[..k];
      if |lists[k]| > maxLen { maxLen := |lists[k]|; }
    }
    assert lists[..|lists|] == lists;
    pool := [];
    for i := 0 to maxLen
      invariant pool == Rounds(lists, i)
    {
      pool := TakeRound(pool, lists, i);
    }
  }

  method DedupedPorts(ports: seq<nat>) returns (used: seq<nat>)
    ensures used == WgPorts(ports)
  {
    hide Firsts;
    var deduped := new Collector<nat>();
    for k := 0 to |ports|
      invariant deduped.Valid() && deduped.offered == ports[..k]
    {
      deduped.Offer(ports[k]);
    }
    assert ports[..|ports|] == ports;
    used := if deduped.out == [] then [WG_DEFAULT_PORT] else deduped.out;
  }

  method AnchorsAndPool(v4: Family, v6: Family) returns (ips: seq<Ip>)
    ensures ips == WgIps(v4, v6)
  {
    hide Interleaved;
    var anchors, pool: seq<Ip> := [], [];
    if v4.wanted {
      anchors := anchors + v4.seeds;
      var hosts := TakeTurns(v4.hosts);
      pool := pool + hosts;
    }
    if v6.wanted {
      anchors := anchors + v6.seeds;
      var hosts := TakeTurns(v6.hosts);
      pool := pool + hosts;
    }
    ips := anchors + pool;
  }

  method BuildWgCandidates(v4: Family, v6: Family, ports: seq<nat>) returns (out: seq<Endpoint>)
    ensures out == Firsts(Cycled(WgIps(v4, v6), WgPorts(ports)))
  {
    hide Firsts, WgIps, WgPorts;
    var used := DedupedPorts(ports);
    var ips := AnchorsAndPool(v4, v6);
    var c := new Collector<Endpoint>();
    for idx := 0 to |ips|
      invariant c.Valid() && c.offered == Cycled(ips[..idx], used)
    {
      assert ips[..idx + 1][..idx] == ips[..idx];
      c.Offer(Endpoint(ips[idx], used[idx % |used|]));
    }
    assert ips[..|ips|] == ips;
    out := c.out;
  }

  lemma {:induction false} CycledAt(ips: seq<Ip>, ports: seq<nat>)
    requires ports != []
    ensures forall k :: 0 <= k < |ips| ==> Cycled(ips, ports)[k] == Endpoint(ips[k], ports[k % |ports|])
  {
    if ips != [] {
      CycledAt(ips[..|ips| - 1], ports);
    }
  }

  /** Whether the family is wanted and has the address. */
  predicate Wanted(f: Family, ip: Ip) {
    f.wanted && InFamily(f, ip)
  }

  /** The addresses are those of the wanted families, each as often as it is listed;
      seeds come before hosts, and in both the first family before the second. */
  lemma WgIpsExact(v4: Family, v6: Family, ip: Ip)
    ensures ip in WgIps(v4, v6) <==> Wanted(v4, ip) || Wanted(v6, ip)
    ensures Occurs(WgIps(v4, v6), ip) ==
            (if v4.wanted then Occurs(v4.seeds, ip) + Total(v4.hosts, ip) else 0)
            + (if v6.wanted then Occurs(v6.seeds, ip) + Total(v6.hosts, ip) else 0)
  {
    hide Interleaved;
    InterleavedHolds(v4.hosts, ip);
    InterleavedHolds(v6.hosts, ip);
    InterleavedKeepsAll(v4.hosts, ip);
    InterleavedKeepsAll(v6.hosts, ip);
    var a, b := if v4.wanted then v4.seeds else [], if v6.wanted then v6.seeds else [];
    var c, d := if v4.wanted then Interleaved(v4.hosts) else [], if v6.wanted then Interleaved(v6.hosts) else [];
    OccursAppend(a, b, ip);
    OccursAppend(c, d, ip);
    OccursAppend(a + b, c + d, ip);
  }

  /** Seeds of both families come before hosts of both; among seeds and among hosts
      the first family comes first. */
  lemma WgIpsInOrder(v4: Family, v6: Family, x: Ip, y: Ip)
    ensures v4.wanted && v6.wanted && x in v4.seeds && y in v6.seeds ==> Before(WgIps(v4, v6), x, y)
    ensures v4.wanted && v6.wanted && Holds(v4.hosts, x) && Holds(v6.hosts, y) ==> Before(WgIps(v4, v6), x, y)
    ensures (   ((v4.wanted && x in v4.seeds) || (v6.wanted && x in v6.seeds))
             && ((v4.wanted && Holds(v4.hosts, y)) || (v6.wanted && Holds(v6.hosts, y))))
            ==> Before(WgIps(v4, v6), x, y)
  {
    hide Interleaved, Before, Holds;
    InterleavedHolds(v4.hosts, x);
    InterleavedHolds(v6.hosts, y);
    InterleavedHolds(v4.hosts, y);
    var a, b := if v4.wanted then v4.seeds else [], if v6.wanted then v6.seeds else [];
    var c, d := if v4.wanted then Interleaved(v4.hosts) else [], if v6.wanted then Interleaved(v6.hosts) else [];
    assert WgIps(v4, v6) == (a + b) + (c + d);
    if x in a && y in b { BeforeAppend(a, b, x, y); BeforeAppend(a + b, c + d, x, y); }
    if x in c && y in d { BeforeAppend(c, d, x, y); BeforeAppend(a + b, c + d, x, y); }
    if x in a + b && y in c + d { BeforeAppend(a + b, c + d, x, y); }
  }

  /** The ports are the given ones, each once and in the order of their first
      occurrences, or 2408. */
  lemma WgPortsExact(ports: seq<nat>, p: nat)
    ensures Distinct(WgPorts(ports))
    ensures p in WgPorts(ports) <==> p in ports || (ports == [] && p == 2408)
    ensures ports != [] ==> WgPorts(ports) == Firsts(ports)
  {
    FirstsDistinct(ports);
    FirstsHold(ports, p);
    if ports != [] {
      FirstsHold(ports, ports[0]);
    }
  }

  /** No endpoint twice; every address of the wanted families is tried, each place on
      the port whose turn it is, and nothing else is; a list of different addresses is
      kept as it is. */
  lemma WgCandidatesExact(v4: Family, v6: Family, ports: seq<nat>)
    ensures var (ips, used) := (WgIps(v4, v6), WgPorts(ports));
            var out := Firsts(Cycled(ips, used));
            && Distinct(out)
            && (forall e :: e in out <==> exists i :: 0 <= i < |ips| && e == Endpoint(ips[i], used[i % |used|]))
            && (Distinct(ips) ==> out == Cycled(ips, used))
            && (forall ip :: (Wanted(v4, ip) || Wanted(v6, ip)) <==> exists e :: e in out && e.ip == ip)
  {
    hide WgIps, WgPorts, Firsts, Wanted;
    var ips, used := WgIps(v4, v6), WgPorts(ports);
    var plan := Cycled(ips, used);
    CycledAt(ips, used);
    FirstsDistinct(plan);
    forall e
      ensures e in Firsts(plan) <==> exists i :: 0 <= i < |ips| && e == Endpoint(ips[i], used[i % |used|])
    {
      FirstsHold(plan, e);
      if e in plan {
        var i :| 0 <= i < |plan| && plan[i] == e;
      }
    }
    forall ip
      ensures (Wanted(v4, ip) || Wanted(v6, ip)) <==> exists e :: e in Firsts(plan) && e.ip == ip
    {
      WgIpsExact(v4, v6, ip);
      if ip in ips {
        var i :| 0 <= i < |ips| && ips[i] == ip;
        assert plan[i] in plan && plan[i].ip == ip;
      }
    }
    if Distinct(ips) {
      assert Distinct(plan);
    }
  }

  /** Two addresses get the same port exactly when their places agree modulo the
      number of ports, and as many addresses in a row as there are ports try every
      port. */
  lemma WgCandidatesCycle(v4: Family, v6: Family, ports: seq<nat>)
    ensures var (ips, used) := (WgIps(v4, v6), WgPorts(ports));
            var plan := Cycled(ips, used);
            && (forall i, j :: 0 <= i < |ips| && 0 <= j < |ips| ==>
                  (plan[i].port == plan[j].port <==> i % |used| == j % |used|))
            && (forall start: nat, p {:trigger Tried(plan, start, |used|, p)} ::
                  start + |used| <= |ips| && p in used ==> Tried(plan, start, |used|, p))
  {
    hide WgIps, WgPorts;
    var ips, used := WgIps(v4, v6), WgPorts(ports);
    var plan, n := Cycled(ips, used), |used|;
    CycledAt(ips, used);
    WgPortsExact(ports, 0);
    forall start: nat, p | start + n <= |ips| && p in used
      ensures Tried(plan, start, n, p)
    {
      var c :| 0 <= c < n && used[c] == p;
      var k := TurnOf(start, n, c);
      assert plan[k].port == p;
    }
  }

  /** One of the `n` endpoints from `start` on has the port. */
  predicate Tried(plan: seq<Endpoint>, start: nat, n: nat, port: nat) {
    exists k :: start <= k < start + n && k < |plan| && plan[k].port == port
  }

  lemma TurnOf(start: nat, n: nat, c: nat) returns (k: nat)
    requires c < n
    ensures start <= k < start + n && k % n == c
  {
    var d := c - start % n;
    k := start + if d >= 0 then d else d + n;
    var q := start / n;
    assert start == n * q + start % n;
    if d >= 0 {
      QuotientIs(k, n, q, c);
    } else {
      assert n * (q + 1) == n * q + n;
      QuotientIs(k, n, q + 1, c);
    }
  }

  lemma QuotientIs(k: nat, n: nat, q: nat, c: nat)
    requires c < n && k == n * q + c
    ensures k % n == c
  {
    var e := k / n - q;
    assert e * n == c - k % n;
    if e >= 1 { TimesMono(1, e, n); }
    if e <= -1 { TimesMono(e, -1, n); }
  }

  lemma TimesMono(a: int, b: int, n: nat)
    requires a <= b
    ensures a * n <= b * n
  {
  }
}
