/** The HTTP/2 receive path: each chunk of the response body is pushed into the
    capsule parser and the parser is drained, but only up to the first malformed
    capsule. */
module H2Drain {
  import opened Wire
  import opened Octets
  import opened Masque
  import opened CapsuleStream

  /** The packets among parsed capsules, in order. */
  function Packets(items: seq<Parsed>): seq<seq<byte>> {
    if items == [] then []
    else (if IsDatagram(items[0]) then [items[0].value.packet] else []) + Packets(items[1..])
  }

  predicate IsDatagram(p: Parsed) {
    p.Ok? && p.value.Datagram?
  }

  lemma {:induction false} PacketsAppend(a: seq<Parsed>, b: seq<Parsed>)
    ensures Packets(a + b) == Packets(a) + Packets(b)
  {
    if a == [] {
      assert a + b == b;
    } else {
      assert (a + b)[1..] == a[1..] + b;
      PacketsAppend(a[1..], b);
    }
  }

  /** One pass of the drain loop over the buffer `s`: the items it takes, up to
      and including the first error, and what it leaves buffered. */
  function Pass(s: seq<byte>): (seq<Parsed>, seq<byte>)
    decreases |s|
  {
    match Front(s)
    case None => ([], s)
    case Some((item, rest)) =>
      if item.Err? then ([item], rest)
      else var (items, left) := Pass(rest); ([item] + items, left)
  }

  /** A pass takes a prefix of the items and leaves exactly the others, whatever
      arrives behind. */
  lemma {:induction false} PassKeepsItems(s: seq<byte>, more: seq<byte>)
    ensures Items(s + more) == Pass(s).0 + Items(Pass(s).1 + more)
    decreases |s|
  {
    hide Front;
    match Front(s) {
      case None =>
      case Some((item, rest)) =>
        FrontStable(s, more);
        if item.Ok? {
          PassKeepsItems(rest, more);
        }
    }
  }

  /** The application's end of a tokio channel: it may be dropped at any time,
      and stays dropped. */
  class PacketSender {
    var delivered: seq<seq<byte>>
    var open: bool

    constructor ()
      ensures delivered == [] && open
    {
      delivered, open := [], true;
    }

    method Send(pkt: seq<byte>) returns (ok: bool)
      modifies this
      ensures ok <==> open
      ensures open ==> old(open)
      ensures delivered == if ok then old(delivered) + [pkt] else old(delivered)
    {
      var dropped: bool := *;
      open := open && !dropped;
      ok := open;
      if ok { delivered := delivered + [pkt]; }
    }
  }

  /** Receives the addresses that the edge assigns. */
  class AddrSender {
    var offered: seq<(IpAddr, byte)>

    constructor ()
      ensures offered == []
    {
      offered := [];
    }

    method TrySend(ip: IpAddr, prefix: byte)
      modifies this
      ensures offered == old(offered) + [(ip, prefix)]
    {
      offered := offered + [(ip, prefix)];
    }
  }

  /** What one parsed ADDRESS_ASSIGN capsule offers. */
  function Offers(addrs: seq<Address>): seq<(IpAddr, byte)> {
    if addrs == [] then []
    else match BytesToIp(addrs[0].ipVersion, addrs[0].address)
         case Some(ip) => [(ip, addrs[0].prefixLen)] + Offers(addrs[1..])
         case None => Offers(addrs[1..])
  }

  function OffersOf(item: Parsed): seq<(IpAddr, byte)> {
    if item.Ok? && item.value.AddressAssign? then Offers(item.value.addresses) else []
  }

  function Assigned(items: seq<Parsed>): seq<(IpAddr, byte)> {
    if items == [] then []
    else OffersOf(items[0]) + Assigned(items[1..])
  }

  /** None of the entries of a parsed ADDRESS_ASSIGN body is dropped. */
  lemma EveryAddressIsOffered(value: seq<byte>)
    requires Addresses(value).Ok?
    ensures |Offers(Addresses(value).value)| == |Addresses(value).value|
  {
    ParsedAddressesAreIps(value);
    OffersAll(Addresses(value).value);
  }

  lemma OffersAll(addrs: seq<Address>)
    requires forall a :: a in addrs ==> BytesToIp(a.ipVersion, a.address).Some?
    ensures |Offers(addrs)| == |addrs|
  {
    if addrs != [] {
      assert addrs[0] in addrs;
      OffersAll(addrs[1..]);
    }
  }

  lemma {:induction false} AssignedAppend(a: seq<Parsed>, b: seq<Parsed>)
    ensures Assigned(a + b) == Assigned(a) + Assigned(b)
  {
    if a == [] {
      assert a + b == b;
    } else {
      assert (a + b)[1..] == a[1..] + b;
      AssignedAppend(a[1..], b);
    }
  }

  /** One turn of a drain loop that has taken `taken` and sees `s`. */
  lemma PassTurn(taken: seq<Parsed>, s: seq<byte>)
    requires Front(s).Some?
    ensures var (item, rest) := Front(s).value; var now := taken + [item];
            && taken + Pass(s).0 == now + (if item.Err? then [] else Pass(rest).0)
            && Pass(s).1 == (if item.Err? then rest else Pass(rest).1)
            && Packets(now) == Packets(taken) + (if IsDatagram(item) then [item.value.packet] else [])
            && Packets(now) <= Packets(taken + Pass(s).0)
            && Assigned(now) == Assigned(taken) + OffersOf(item)
  {
    hide Front;
    var (item, rest) := Front(s).value;
    var now := taken + [item];
    var later := if item.Err? then [] else Pass(rest).0;
    assert taken + ([item] + later) == now + later;
    PacketsAppend(taken, [item]);
    PacketsAppend(now, later);
    AssignedAppend(taken, [item]);
  }

  lemma PassEnd(taken: seq<Parsed>, s: seq<byte>)
    requires Front(s).None?
    ensures taken + Pass(s).0 == taken && Pass(s).1 == s
  {
  }

  lemma NothingTaken()
    ensures Packets([]) == [] && Assigned([]) == []
  {
  }

  // ---- Well-formed streams ------------------------------------------------

  /** The packets among well-formed capsules. */
  function PacketsIn(cs: seq<WireCapsule>): seq<seq<byte>> {
    if cs == [] then []
    else if cs[0].WireDatagram? then [cs[0].packet] + PacketsIn(cs[1..])
    else PacketsIn(cs[1..])
  }

  /** The addresses that well-formed capsules assign, each with its prefix length. */
  function OffersIn(cs: seq<WireCapsule>): seq<(IpAddr, byte)> {
    if cs == [] then []
    else if cs[0].WireAssign? then EntryOffers(cs[0].entries) + OffersIn(cs[1..])
    else OffersIn(cs[1..])
  }

  function EntryOffers(ws: seq<WireAddress>): (offers: seq<(IpAddr, byte)>)
    ensures |offers| == |ws|
  {
    seq(|ws|, k requires 0 <= k < |ws| =>
      (if ws[k].entry.ipVersion == 4 then V4(ws[k].entry.address) else V6(ws[k].entry.address), ws[k].entry.prefixLen))
  }

  lemma {:induction false} EntriesOffer(ws: seq<WireAddress>)
    requires forall w :: w in ws ==> w.Valid()
    ensures Offers(Entries(ws)) == EntryOffers(ws)
  {
    if ws != [] {
      assert ws[0] in ws;
      assert Entries(ws)[1..] == Entries(ws[1..]);
      EntriesOffer(ws[1..]);
      assert EntryOffers(ws) == [EntryOffers(ws)[0]] + EntryOffers(ws[1..]);
    }
  }

  /** A pass over well-formed capsules, with nothing complete behind them, takes
      exactly them: their packets, their addresses. */
  lemma {:induction false} WirePass(cs: seq<WireCapsule>, rest: seq<byte>)
    requires AllValid(cs) && Front(rest).None?
    ensures Pass(AllBytes(cs) + rest) == (Meanings(cs), rest)
    ensures Packets(Meanings(cs)) == PacketsIn(cs) && Assigned(Meanings(cs)) == OffersIn(cs)
  {
    hide Front, WireCapsule.Bytes, Offers;
    if cs == [] {
      assert AllBytes(cs) + rest == rest;
    } else {
      var tail := AllBytes(cs[1..]) + rest;
      assert AllBytes(cs) + rest == cs[0].Bytes() + tail;
      WireFront(cs[0], tail);
      WirePass(cs[1..], rest);
      if cs[0].WireAssign? {
        EntriesOffer(cs[0].entries);
      }
    }
  }

  /** The packets in the encoder's outputs for datagrams are the packets encoded. */
  lemma EncodedPackets(packets: seq<seq<byte>>)
    requires forall p :: p in packets ==> |p| < VARINT_LIMIT
    ensures var raws := seq(|packets|, i requires 0 <= i < |packets| => Raw(0, packets[i]));
            Packets(Items(Flatten(Encoded(raws)))) == packets
  {
    var raws := seq(|packets|, i requires 0 <= i < |packets| => Raw(0, packets[i]));
    forall r | r in raws ensures Encodable(r) {
      var i :| 0 <= i < |raws| && raws[i] == r;
      assert packets[i] in packets;
    }
    CapsuleRoundTrip(raws);
    var items := Items(Flatten(Encoded(raws)));
    assert forall i :: 0 <= i < |packets| ==> items[i] == Ok(Datagram(packets[i])) by {
      forall i | 0 <= i < |packets| ensures items[i] == Ok(Datagram(packets[i])) {
        assert Reads(raws[i].kind, raws[i].value, items[i]);
      }
    }
    AllPackets(items, packets);
  }

  lemma {:induction false} AllPackets(items: seq<Parsed>, packets: seq<seq<byte>>)
    requires |items| == |packets| && forall i :: 0 <= i < |packets| ==> items[i] == Ok(Datagram(packets[i]))
    ensures Packets(items) == packets
  {
    if items != [] {
      assert forall i :: 0 <= i < |packets| - 1 ==> items[1..][i] == items[i + 1];
      AllPackets(items[1..], packets[1..]);
      assert packets == [packets[0]] + packets[1..];
    }
  }

  /** If `before` was well-formed capsules and nothing complete behind them, just that
      is left and exactly their packets were delivered. */
  ghost predicate DrainedWhole(before: seq<byte>, after: seq<byte>, packets: seq<seq<byte>>) {
    forall cs, rest | AllValid(cs) && before == AllBytes(cs) + rest && Front(rest).None? ::
      after == rest && packets == PacketsIn(cs)
  }

  /** The same for the addresses they assign. */
  ghost predicate OfferedWhole(before: seq<byte>, offers: seq<(IpAddr, byte)>) {
    forall cs, rest | AllValid(cs) && before == AllBytes(cs) + rest && Front(rest).None? :: offers == OffersIn(cs)
  }

  lemma WholeDrained(s: seq<byte>)
    ensures DrainedWhole(s, Pass(s).1, Packets(Pass(s).0)) && OfferedWhole(s, Assigned(Pass(s).0))
  {
    hide Front, Pass, Packets, Assigned, PacketsIn, OffersIn, AllBytes;
    forall cs, rest | AllValid(cs) && s == AllBytes(cs) + rest && Front(rest).None?
      ensures Pass(s).1 == rest && Packets(Pass(s).0) == PacketsIn(cs) && Assigned(Pass(s).0) == OffersIn(cs)
    {
      WirePass(cs, rest);
    }
  }

  /** `drain_capsules`.  While the receiver is there, the packets of the pass are
      delivered in order and the addresses offered; when it goes away, what was
      delivered is still a prefix of them.  Of well-formed capsules that is every
      packet and every assigned address with its prefix length.  The result says
      whether the pass met a packet. */
  method DrainCapsules(capsules: CapsuleParser, inbound: PacketSender, addrTx: AddrSender?) returns (delivered: bool)
    modifies capsules, inbound, addrTx
    ensures inbound.open ==> old(inbound.open)
    ensures inbound.open ==> capsules.buf == Pass(old(capsules.buf)).1
    ensures inbound.open ==> inbound.delivered == old(inbound.delivered) + Packets(Pass(old(capsules.buf)).0)
    ensures old(inbound.delivered) <= inbound.delivered <= old(inbound.delivered) + Packets(Pass(old(capsules.buf)).0)
    ensures delivered <==> Packets(Pass(old(capsules.buf)).0) != []
    ensures addrTx != null && inbound.open ==>
              addrTx.offered == old(addrTx.offered) + Assigned(Pass(old(capsules.buf)).0)
    ensures inbound.open ==>
              DrainedWhole(old(capsules.buf), capsules.buf, inbound.delivered[|old(inbound.delivered)|..])
    ensures addrTx != null && inbound.open ==>
              OfferedWhole(old(capsules.buf), addrTx.offered[|old(addrTx.offered)|..])
  {
    hide Front, Pass, Offers, Packets, Assigned, DrainedWhole, OfferedWhole;
    WholeDrained(capsules.buf);
    delivered := false;
    NothingTaken();
    ghost var all, end := Pass(capsules.buf).0, Pass(capsules.buf).1;
    ghost var taken: seq<Parsed> := [];
    ghost var offered := if addrTx == null then [] else addrTx.offered;
    assert taken + all == all;
    while true
      invariant inbound.open ==> old(inbound.open)
      invariant all == taken + Pass(capsules.buf).0 && end == Pass(capsules.buf).1
      invariant inbound.delivered == old(inbound.delivered) + Packets(taken)
      invariant Packets(taken) <= Packets(all)
      invariant delivered <==> Packets(taken) != []
      invariant addrTx != null ==> addrTx.offered == offered + Assigned(taken)
      decreases |capsules.buf|
    {
      ghost var before := Assigned(taken);
      if Front(capsules.buf).Some? {
        PassTurn(taken, capsules.buf);
        taken := taken + [Front(capsules.buf).value.0];
        assert offered + (before + OffersOf(taken[|taken| - 1])) == offered + before + OffersOf(taken[|taken| - 1]);
      } else {
        PassEnd(taken, capsules.buf);
      }
      var r := capsules.Next();
      match r {
        case Ok(Some(Datagram(pkt))) =>
          delivered := true;
          var sent := inbound.Send(pkt);
          if !sent { return; }
        case Ok(Some(AddressAssign(addrs))) =>
          OfferAddresses(addrs, addrTx);
        case Ok(Some(_)) =>
        case Ok(None) => break;
        case Err(_) =>
          assert taken + [] == taken;
          break;
      }
    }
  }

  method OfferAddresses(addrs: seq<Address>, addrTx: AddrSender?)
    modifies addrTx
    ensures addrTx != null ==> addrTx.offered == old(addrTx.offered) + Offers(addrs)
  {
    if addrTx == null { return; }
    for i := 0 to |addrs|
      invariant addrTx.offered + Offers(addrs[i..]) == old(addrTx.offered) + Offers(addrs)
    {
      match BytesToIp(addrs[i].ipVersion, addrs[i].address) {
        case Some(ip) => addrTx.TrySend(ip, addrs[i].prefixLen);
        case None =>
      }
      assert addrs[i..][1..] == addrs[i + 1..];
    }
  }

  /** Packets delivered and bytes still buffered after the chunks, receiver open. */
  function AfterChunks(chunks: seq<seq<byte>>): (seq<seq<byte>>, seq<byte>) {
    if chunks == [] then ([], [])
    else
      var (d, buf) := AfterChunks(chunks[..|chunks| - 1]);
      var (items, left) := Pass(buf + chunks[|chunks| - 1]);
      (d + Packets(items), left)
  }

  /** No packet is lost, duplicated or reordered: after every chunk, and despite
      the stop at each malformed capsule, the packets delivered so far followed by
      those still decodable from the buffer are the packets of the whole stream. */
  lemma {:induction false} NoLoss(chunks: seq<seq<byte>>)
    ensures var (d, buf) := AfterChunks(chunks);
            d + Packets(Items(buf)) == Packets(Items(Flatten(chunks)))
    ensures var (d, buf) := AfterChunks(chunks); forall more ::
              d + Packets(Items(buf + more)) == Packets(Items(Flatten(chunks) + more))
  {
    hide Items, Pass;
    var (d, buf) := AfterChunks(chunks);
    if chunks != [] {
      var n := |chunks| - 1;
      var init, last := chunks[..n], chunks[n];
      NoLoss(init);
      var (d0, buf0) := AfterChunks(init);
      FlattenLast(chunks, n);
      assert chunks[..n + 1] == chunks;
      forall more
        ensures d + Packets(Items(buf + more)) == Packets(Items(Flatten(chunks) + more))
      {
        assert buf0 + (last + more) == (buf0 + last) + more;
        assert Flatten(init) + (last + more) == Flatten(chunks) + more;
        PassKeepsItems(buf0 + last, more);
        PacketsAppend(Pass(buf0 + last).0, Items(buf + more));
      }
    }
    assert buf + [] == buf && Flatten(chunks) + [] == Flatten(chunks);
    assert d + Packets(Items(buf + [])) == Packets(Items(Flatten(chunks) + []));
  }

  lemma AfterOneMore(chunks: seq<seq<byte>>, i: nat)
    requires i < |chunks|
    ensures var (d, buf) := AfterChunks(chunks[..i]); var (items, left) := Pass(buf + chunks[i]);
            AfterChunks(chunks[..i + 1]) == (d + Packets(items), left)
  {
    hide Pass, Packets;
    assert chunks[..i + 1][..i] == chunks[..i];
  }

  /** The receive arm of the tunnel loop over all chunks so far. */
  method ReceiveBody(chunks: seq<seq<byte>>, inbound: PacketSender, addrTx: AddrSender?) returns (capsules: CapsuleParser)
    modifies inbound, addrTx
    ensures fresh(capsules)
    ensures inbound.open ==>
              inbound.delivered + Packets(Items(capsules.buf)) == old(inbound.delivered) + Packets(Items(Flatten(chunks)))
  {
    hide Items, Pass, Front, Packets, AfterChunks;
    capsules := new CapsuleParser();
    assert AfterChunks(chunks[..0]) == ([], []) by { AfterNone(chunks); }
    for i := 0 to |chunks|
      invariant fresh(capsules)
      invariant inbound.open ==> inbound.delivered == old(inbound.delivered) + AfterChunks(chunks[..i]).0
      invariant inbound.open ==> capsules.buf == AfterChunks(chunks[..i]).1
    {
      capsules.Push(chunks[i]);
      var got := DrainCapsules(capsules, inbound, addrTx);
      AfterOneMore(chunks, i);
    }
    assert chunks[..|chunks|] == chunks;
    NoLoss(chunks);
  }

  lemma AfterNone(chunks: seq<seq<byte>>)
    ensures AfterChunks(chunks[..0]) == ([], [])
  {
  }

  /** The claim that a pass delivers every packet it could decode is false: a
      malformed ADDRESS_ASSIGN capsule hides the packet behind it until the next
      chunk arrives. */
  lemma PacketHeldBack()
    ensures var s: seq<byte> := [1, 1, 0, 0, 1, 7];
            Packets(Pass(s).0) == [] && Packets(Items(s)) == [[7]]
  {
    hide Front, Varint, Body;
    var s: seq<byte> := [1, 1, 0, 0, 1, 7];
    var t: seq<byte> := [0, 1, 7];
    OneByte(0);
    OneByte(1);
    FrontOfCapsule(1, [0], t);
    FrontOfCapsule(0, [7], []);
    assert s == CapsuleBytes(1, [0]) + t && t == CapsuleBytes(0, [7]) + [];
    BadBody();
    assert Front([]).None? by { EmptyFront(); }
    assert Pass(s) == ([Err(TooShort)], t);
    assert Items(s) == [Err(TooShort)] + Items(t);
    assert Items(t) == [Ok(Datagram([7]))] + Items([]);
  }

  lemma EmptyFront()
    ensures Front([]).None?
  {
  }

  lemma BadBody()
    ensures Body(1, [0]) == Err(TooShort) && Body(0, [7]) == Ok(Datagram([7]))
  {
    OneByte(0);
    GetVarintOf(0, 0, []);
    assert VarintOf(0, 0) + [] == [0];
  }

  lemma OneByte(v: nat)
    requires v < 64
    ensures Fits(v, 0) && VarintOf(v, 0) == [v] && Varint(v) == [v]
  {
    FitsLimits(v);
    assert ToBE(v / 256, 0) == [];
    assert ToBE(v, 1) == [v];
  }

  /** A pass holds a packet back exactly when a datagram stands behind the first
      malformed capsule. */
  lemma {:induction false} HeldBackIff(s: seq<byte>)
    ensures Packets(Items(Pass(s).1)) != [] <==>
            exists i, j :: 0 <= i < j < |Items(s)| && Items(s)[i].Err? && IsDatagram(Items(s)[j])
    decreases |s|
  {
    hide Front;
    match Front(s) {
      case None =>
      case Some((item, rest)) =>
        var tail := Items(rest);
        assert Items(s) == [item] + tail;
        if item.Err? {
          SomePacket(tail);
          assert Pass(s).1 == rest;
          if j :| 0 <= j < |tail| && IsDatagram(tail[j]) {
            assert Items(s)[0].Err? && IsDatagram(Items(s)[j + 1]);
          }
        } else {
          HeldBackIff(rest);
          if i, j :| 0 <= i < j < |tail| && tail[i].Err? && IsDatagram(tail[j]) {
            assert Items(s)[i + 1].Err? && IsDatagram(Items(s)[j + 1]);
          }
        }
    }
  }

  lemma {:induction false} SomePacket(items: seq<Parsed>)
    ensures Packets(items) != [] <==> exists j :: 0 <= j < |items| && IsDatagram(items[j])
  {
    if items != [] {
      SomePacket(items[1..]);
      if j :| 0 <= j < |items[1..]| && IsDatagram(items[1..][j]) {
        assert IsDatagram(items[j + 1]);
      }
    }
  }

  // ---- The data loop of the HTTP/2 probe ---------------------------------

  const REQUIRED_SUCCESSES: nat := 2

  datatype BodyState = Open | Closed | Broken

  datatype Verdict = Verified | SendFailed | BodyClosed | BodyError | StillWaiting

  /** The inner loop: takes capsules until the buffer runs out, one is malformed,
      or the verdict is clear.  A follow-up probe is sent after the first packet. */
  method VerifyPass(capsules: CapsuleParser, before: nat, sendOk: bool) returns (done: Option<Verdict>, successes: nat)
    requires before < 2 && (before >= 1 ==> sendOk)
    modifies capsules
    ensures var met := before + |Packets(Pass(old(capsules.buf)).0)|;
            && done == (if met >= 1 && !sendOk then Some(SendFailed)
                        else if met >= 2 then Some(Verified) else None)
            && (done.None? ==> successes == met && capsules.buf == Pass(old(capsules.buf)).1)
  {
    hide Front, Pass, Assigned;
    ghost var all, end := Pass(capsules.buf).0, Pass(capsules.buf).1;
    ghost var taken: seq<Parsed> := [];
    successes := before;
    assert taken + all == all;
    while true
      invariant all == taken + Pass(capsules.buf).0 && end == Pass(capsules.buf).1
      invariant successes == before + |Packets(taken)| < REQUIRED_SUCCESSES
      invariant successes >= 1 ==> sendOk
      decreases |capsules.buf|
    {
      if Front(capsules.buf).Some? {
        PassTurn(taken, capsules.buf);
        taken := taken + [Front(capsules.buf).value.0];
      } else {
        PassEnd(taken, capsules.buf);
      }
      var next := capsules.Next();
      match next {
        case Ok(Some(Datagram(_))) =>
          successes := successes + 1;
          if successes >= REQUIRED_SUCCESSES { return Some(Verified), successes; }
          if !sendOk { return Some(SendFailed), successes; }
        case Ok(Some(_)) =>
        case Ok(None) => return None, successes;
        case Err(_) =>
          assert taken + [] == taken;
          return None, successes;
      }
    }
  }

  /** The loop of `verify_h2` after its first probe: `chunks` is what the body
      yields before its state `end`, `sendOk` whether the follow-up probe goes
      out.  The edge is accepted exactly when the passes met two packets. */
  method VerifyData(chunks: seq<seq<byte>>, end: BodyState, sendOk: bool) returns (r: Verdict)
    ensures var met := |AfterChunks(chunks).0|;
            r == if met >= 1 && !sendOk then SendFailed
                 else if met >= 2 then Verified
                 else match end case Open => StillWaiting case Closed => BodyClosed case Broken => BodyError
    ensures r == Verified ==> |Packets(Items(Flatten(chunks)))| >= 2
  {
    hide Front, Pass, Items;
    var capsules := new CapsuleParser();
    var successes := 0;
    NoLoss(chunks);
    for i := 0 to |chunks|
      invariant successes == |AfterChunks(chunks[..i]).0| < REQUIRED_SUCCESSES
      invariant successes >= 1 ==> sendOk
      invariant capsules.buf == AfterChunks(chunks[..i]).1
    {
      capsules.Push(chunks[i]);
      AfterOneMore(chunks, i);
      MorePackets(chunks, i + 1);
      var done;
      done, successes := VerifyPass(capsules, successes, sendOk);
      if done.Some? { return done.value; }
    }
    assert chunks[..|chunks|] == chunks;
    match end {
      case Open => r := StillWaiting;
      case Closed => r := BodyClosed;
      case Broken => r := BodyError;
    }
  }

  lemma {:induction false} MorePackets(chunks: seq<seq<byte>>, i: nat)
    requires i <= |chunks|
    ensures |AfterChunks(chunks[..i]).0| <= |AfterChunks(chunks).0|
    decreases |chunks|
  {
    if i < |chunks| {
      MorePackets(chunks[..|chunks| - 1], i);
      assert chunks[..|chunks| - 1][..i] == chunks[..i];
    } else {
      assert chunks[..i] == chunks;
    }
  }

  /** When every chunk is well-formed capsules, the passes meet exactly their
      packets and leave nothing. */
  lemma {:induction false} WireChunks(css: seq<seq<WireCapsule>>, chunks: seq<seq<byte>>, packets: seq<seq<seq<byte>>>)
    requires |chunks| == |css| == |packets|
    requires forall i :: 0 <= i < |css| ==>
               AllValid(css[i]) && chunks[i] == AllBytes(css[i]) && packets[i] == PacketsIn(css[i])
    ensures AfterChunks(chunks) == (Flatten(packets), [])
  {
    hide AllBytes, AllValid, PacketsIn, Pass, Packets, Front;
    if chunks != [] {
      var n := |chunks| - 1;
      WireChunks(css[..n], chunks[..n], packets[..n]);
      assert Front([]).None? by { EmptyFront(); }
      WirePass(css[n], []);
      assert AllBytes(css[n]) + [] == chunks[n] == [] + chunks[n];
      FlattenLast(packets, n);
      assert packets[..n + 1] == packets;
    }
  }
}
