/** What the incremental parser makes of a whole byte stream, however the stream
    is cut into chunks, and the inverse of the encoder. */
module CapsuleStream {
  import opened Wire
  import opened Octets
  import opened Masque

  /** The capsules and errors met when `next` is called to exhaustion on `s`. */
  function Items(s: seq<byte>): seq<Parsed>
    decreases |s|
  {
    match Front(s)
    case None => []
    case Some((item, rest)) => [item] + Items(rest)
  }

  /** What stays in the buffer after that. */
  function Leftover(s: seq<byte>): seq<byte>
    decreases |s|
  {
    match Front(s)
    case None => s
    case Some((_, rest)) => Leftover(rest)
  }

  /** More input never changes a capsule that was already complete. */
  lemma FrontStable(a: seq<byte>, b: seq<byte>)
    requires Front(a).Some?
    ensures Front(a + b) == Some((Front(a).value.0, Front(a).value.1 + b))
  {
    hide Body, GetVarint;
    GetVarintStable(a, b);
    var w := GetVarint(a).value.1;
    GetVarintStable(a[w..], b);
    assert (a + b)[w..] == a[w..] + b;
    var f := FrameAt(a).value;
    var x := GetVarint(a[w..]).value.1;
    assert (a + b)[w + x..f.size] == a[w + x..f.size];
    assert (a + b)[f.size..] == a[f.size..] + b;
  }

  /** Exhausting a prefix first, then the leftover with the rest, changes
      nothing. */
  lemma {:induction false} ExhaustInTwoSteps(a: seq<byte>, b: seq<byte>)
    ensures Items(a + b) == Items(a) + Items(Leftover(a) + b)
    ensures Leftover(a + b) == Leftover(Leftover(a) + b)
    decreases |a|
  {
    hide Front;
    match Front(a) {
      case None =>
      case Some((_, rest)) =>
        FrontStable(a, b);
        ExhaustInTwoSteps(rest, b);
    }
  }

  /** The leftover never holds a complete capsule. */
  lemma {:induction false} LeftoverIncomplete(s: seq<byte>)
    ensures Front(Leftover(s)).None?
    decreases |s|
  {
    hide Front;
    match Front(s) {
      case None =>
      case Some((_, rest)) => LeftoverIncomplete(rest);
    }
  }

  /** Calls `next` until it asks for more input, going on past errors. */
  method Exhaust(parser: CapsuleParser) returns (items: seq<Parsed>)
    modifies parser
    ensures items == Items(old(parser.buf)) && parser.buf == Leftover(old(parser.buf))
  {
    hide Front;
    items := [];
    while true
      invariant Items(old(parser.buf)) == items + Items(parser.buf)
      invariant Leftover(old(parser.buf)) == Leftover(parser.buf)
      decreases |parser.buf|
    {
      var r := parser.Next();
      match r {
        case Ok(None) =>
          assert items + [] == items;
          return;
        case Ok(Some(c)) => items := items + [Ok(c)];
        case Err(e) => items := items + [Err(e)];
      }
    }
  }

  /** Pushes the chunks one by one and exhausts the parser after each: the same
      items and the same leftover as for the stream pushed in one piece, whatever
      the cut, and no complete capsule is left. */
  method PushAll(chunks: seq<seq<byte>>) returns (items: seq<Parsed>, left: seq<byte>)
    ensures items == Items(Flatten(chunks))
    ensures left == Leftover(Flatten(chunks))
    ensures Front(left).None?
  {
    hide Front, Items, Leftover;
    var parser := new CapsuleParser();
    items := [];
    NothingYet();
    for i := 0 to |chunks|
      invariant items == Items(Flatten(chunks[..i]))
      invariant parser.buf == Leftover(Flatten(chunks[..i]))
    {
      parser.Push(chunks[i]);
      var more := Exhaust(parser);
      items := items + more;
      ExhaustInTwoSteps(Flatten(chunks[..i]), chunks[i]);
      FlattenLast(chunks, i);
    }
    assert chunks[..|chunks|] == chunks;
    left := parser.buf;
    LeftoverIncomplete(Flatten(chunks));
  }

  lemma NothingYet()
    ensures Items([]) == [] && Leftover([]) == []
  {
  }

  lemma FlattenLast<T>(parts: seq<seq<T>>, i: nat)
    requires i < |parts|
    ensures Flatten(parts[..i + 1]) == Flatten(parts[..i]) + parts[i]
  {
    assert parts[..i + 1] == parts[..i] + [parts[i]];
    FlattenAppend(parts[..i], [parts[i]]);
    assert Flatten([parts[i]]) == parts[i] + Flatten([]);
  }

  // ---- Encoding, then parsing -------------------------------------------

  datatype Raw = Raw(kind: nat, value: seq<byte>)

  ghost predicate Encodable(r: Raw) {
    r.kind < VARINT_LIMIT && |r.value| < VARINT_LIMIT
  }

  function Encoded(raws: seq<Raw>): (parts: seq<seq<byte>>)
    requires forall r :: r in raws ==> Encodable(r)
    ensures |parts| == |raws|
  {
    seq(|raws|, i requires 0 <= i < |raws| => assert Encodable(raws[i]); CapsuleBytes(raws[i].kind, raws[i].value))
  }

  /** What a frame of this kind with this body reads as: its packet, its payload, the
      entries that its body is printed from, or an error when there are none. */
  ghost predicate Reads(kind: nat, value: seq<byte>, item: Parsed) {
    if kind == 0 then item == Ok(Datagram(value))
    else if kind == 1 then
      if item.Ok? then
        exists ws: seq<WireAddress> ::
          (forall w :: w in ws ==> w.Valid()) && AddressBytes(ws) == value && item.value == AddressAssign(Entries(ws))
      else forall ws: seq<WireAddress> | (forall w :: w in ws ==> w.Valid()) :: AddressBytes(ws) != value
    else if kind == 2 then item == Ok(AddressRequest)
    else if kind == 3 then
      if item.Ok? then
        exists rs: seq<Route> ::
          (forall r :: r in rs ==> ValidRoute(r)) && RouteBytes(rs) == value && item.value == RouteAdvertisement(rs)
      else forall rs: seq<Route> | (forall r :: r in rs ==> ValidRoute(r)) :: RouteBytes(rs) != value
    else item == Ok(Unknown(kind, value))
  }

  lemma BodyReads(kind: nat, value: seq<byte>)
    ensures Reads(kind, value, Body(kind, value))
  {
    hide Addresses, Routes, AddressBytes, RouteBytes;
    if kind == 1 {
      if Addresses(value).Ok? {
        var ws := AddressesWitness(value);
      }
      forall ws: seq<WireAddress> | (forall w :: w in ws ==> w.Valid()) && AddressBytes(ws) == value
        ensures Addresses(value).Ok?
      {
        AddressesOf(ws);
      }
    } else if kind == 3 {
      if Routes(value).Ok? {
        RoutesWitness(value);
      }
      forall rs: seq<Route> | (forall r :: r in rs ==> ValidRoute(r)) && RouteBytes(rs) == value
        ensures Routes(value).Ok?
      {
        RoutesOf(rs);
      }
    }
  }

  lemma FrontOfCapsule(kind: nat, value: seq<byte>, rest: seq<byte>)
    requires kind < VARINT_LIMIT && |value| < VARINT_LIMIT
    ensures Front(CapsuleBytes(kind, value) + rest) == Some((Body(kind, value), rest))
    ensures Reads(kind, value, Body(kind, value))
  {
    hide Body, GetVarint, VarintOf, Reads;
    BodyReads(kind, value);
    var s := CapsuleBytes(kind, value) + rest;
    var k, l := Varint(kind), Varint(|value|);
    assert s == k + (l + (value + rest));
    GetVarintOf(kind, Shortest(kind), l + (value + rest));
    assert s[|k|..] == l + (value + rest);
    GetVarintOf(|value|, Shortest(|value|), value + rest);
    assert s[|k| + |l|..|k| + |l| + |value|] == value;
    assert s[|k| + |l| + |value|..] == rest;
  }

  /** Parsing the encoder's outputs, one after the other, gives back exactly the
      capsules that were encoded, each read by its kind, and an empty buffer. */
  lemma {:induction false} CapsuleRoundTrip(raws: seq<Raw>)
    requires forall r :: r in raws ==> Encodable(r)
    ensures var items := Items(Flatten(Encoded(raws)));
            |items| == |raws| && forall i :: 0 <= i < |raws| ==> Reads(raws[i].kind, raws[i].value, items[i])
    ensures Leftover(Flatten(Encoded(raws))) == []
  {
    hide Body, Front, CapsuleBytes, Reads;
    if raws != [] {
      var r, rest := raws[0], raws[1..];
      assert Encodable(r);
      var first := CapsuleBytes(r.kind, r.value);
      assert Encoded(raws)[1..] == Encoded(rest);
      FrontOfCapsule(r.kind, r.value, Flatten(Encoded(rest)));
      CapsuleRoundTrip(rest);
      var items := Items(Flatten(Encoded(rest)));
      assert Items(Flatten(Encoded(raws))) == [Body(r.kind, r.value)] + items;
      forall i | 0 <= i < |raws|
        ensures Reads(raws[i].kind, raws[i].value, ([Body(r.kind, r.value)] + items)[i])
      {
        if i > 0 { assert raws[i] == rest[i - 1]; }
      }
    }
  }

  // ---- Any capsule that can stand on the wire ----------------------------

  /** A well-formed capsule: its body, and the widths of its two integers, the
      shortest or not. */
  datatype WireCapsule =
    | WireDatagram(packet: seq<byte>, e: nat, f: nat)
    | WireAssign(entries: seq<WireAddress>, e: nat, f: nat)
    | WireRequest(request: seq<byte>, e: nat, f: nat)
    | WireRoutes(routes: seq<Route>, e: nat, f: nat)
    | WireUnknown(other: nat, payload: seq<byte>, e: nat, f: nat)
  {
    ghost predicate Valid() {
      && BodyValid()
      && Fits(Kind(), e) && Fits(|Payload()|, f)
    }

    ghost predicate BodyValid() {
      match this
      case WireAssign(ws, _, _) => forall w :: w in ws ==> w.Valid()
      case WireRoutes(rs, _, _) => forall r :: r in rs ==> ValidRoute(r)
      case WireUnknown(kind, _, _, _) => kind > 3
      case _ => true
    }

    function Kind(): nat {
      match this
      case WireDatagram(_, _, _) => 0
      case WireAssign(_, _, _) => 1
      case WireRequest(_, _, _) => 2
      case WireRoutes(_, _, _) => 3
      case WireUnknown(kind, _, _, _) => kind
    }

    ghost function Payload(): seq<byte>
      requires BodyValid()
    {
      match this
      case WireDatagram(packet, _, _) => packet
      case WireAssign(ws, _, _) => AddressBytes(ws)
      case WireRequest(request, _, _) => request
      case WireRoutes(rs, _, _) => RouteBytes(rs)
      case WireUnknown(_, payload, _, _) => payload
    }

    ghost function Bytes(): seq<byte>
      requires Valid()
    {
      VarintOf(Kind(), e) + VarintOf(|Payload()|, f) + Payload()
    }

    function Meaning(): Capsule {
      match this
      case WireDatagram(packet, _, _) => Datagram(packet)
      case WireAssign(ws, _, _) => AddressAssign(Entries(ws))
      case WireRequest(_, _, _) => AddressRequest
      case WireRoutes(rs, _, _) => RouteAdvertisement(rs)
      case WireUnknown(kind, payload, _, _) => Unknown(kind, payload)
    }
  }

  ghost predicate AllValid(cs: seq<WireCapsule>) {
    forall c :: c in cs ==> c.Valid()
  }

  ghost function AllBytes(cs: seq<WireCapsule>): seq<byte>
    requires AllValid(cs)
  {
    if cs == [] then [] else cs[0].Bytes() + AllBytes(cs[1..])
  }

  function Meanings(cs: seq<WireCapsule>): seq<Parsed> {
    if cs == [] then [] else [Ok(cs[0].Meaning())] + Meanings(cs[1..])
  }

  /** A frame of any widths is taken off whole, whatever its kind and whatever
      follows. */
  lemma FrameOf(kind: nat, e: nat, value: seq<byte>, f: nat, rest: seq<byte>)
    requires Fits(kind, e) && Fits(|value|, f)
    ensures var frame := VarintOf(kind, e) + VarintOf(|value|, f) + value;
            FrameAt(frame + rest) == Some(Frame(kind, value, |frame|)) && (frame + rest)[|frame|..] == rest
  {
    hide GetVarint, VarintOf, Fits;
    var k, l := VarintOf(kind, e), VarintOf(|value|, f);
    var s := k + l + value + rest;
    assert s == k + (l + (value + rest));
    GetVarintOf(kind, e, l + (value + rest));
    assert s[|k|..] == l + (value + rest);
    GetVarintOf(|value|, f, value + rest);
    assert s[|k| + |l|..|k| + |l| + |value|] == value;
  }

  /** Only such frames are taken off. */
  lemma FrameExact(s: seq<byte>) returns (kind: nat, e: nat, value: seq<byte>, f: nat)
    requires FrameAt(s).Some?
    ensures Fits(kind, e) && Fits(|value|, f)
    ensures var frame := VarintOf(kind, e) + VarintOf(|value|, f) + value;
            frame <= s && FrameAt(s) == Some(Frame(kind, value, |frame|))
  {
    hide GetVarint, VarintOf, Fits;
    var frame := FrameAt(s).value;
    kind, value := frame.kind, frame.value;
    GetVarintExact(s);
    var w := GetVarint(s).value.1;
    GetVarintExact(s[w..]);
    var x := GetVarint(s[w..]).value.1;
    e, f := s[0] / 64, s[w..][0] / 64;
    assert s[..w + x + |value|] == s[..w] + s[w..][..x] + value;
  }

  /** Something is taken off exactly when a whole frame stands at the front. */
  lemma FrontIff(s: seq<byte>)
    ensures Front(s).Some? <==>
            exists kind, e, value: seq<byte>, f {:trigger VarintOf(kind, e), VarintOf(|value|, f)} ::
              Fits(kind, e) && Fits(|value|, f) && VarintOf(kind, e) + VarintOf(|value|, f) + value <= s
  {
    hide VarintOf, Fits, Body;
    if FrameAt(s).Some? {
      var kind, e, value, f := FrameExact(s);
      assert VarintOf(kind, e) + VarintOf(|value|, f) + value <= s;
    }
    forall kind, e, value: seq<byte>, f |
      Fits(kind, e) && Fits(|value|, f) && VarintOf(kind, e) + VarintOf(|value|, f) + value <= s
      ensures FrameAt(s).Some?
    {
      var frame := VarintOf(kind, e) + VarintOf(|value|, f) + value;
      FrameOf(kind, e, value, f, s[|frame|..]);
      assert s == frame + s[|frame|..];
    }
  }

  /** What the parser returns for a well-formed capsule: its packet, its addresses,
      its routes, or its payload, unchanged. */
  lemma WireFront(c: WireCapsule, rest: seq<byte>)
    requires c.Valid()
    ensures Front(c.Bytes() + rest) == Some((Ok(c.Meaning()), rest))
  {
    hide VarintOf, Fits, FrameAt, Addresses, Routes, AddressBytes, RouteBytes;
    FrameOf(c.Kind(), c.e, c.Payload(), c.f, rest);
    match c {
      case WireAssign(ws, _, _) => AddressesOf(ws);
      case WireRoutes(rs, _, _) => RoutesOf(rs);
      case _ =>
    }
  }

  /** Any well-formed capsules, one after the other and before anything else: each is
      returned, in order, and what follows is parsed as if it stood alone. */
  lemma {:induction false} WireItems(cs: seq<WireCapsule>, rest: seq<byte>)
    requires AllValid(cs)
    ensures Items(AllBytes(cs) + rest) == Meanings(cs) + Items(rest)
    ensures Leftover(AllBytes(cs) + rest) == Leftover(rest)
  {
    hide Front, WireCapsule.Bytes, WireCapsule.Valid, WireCapsule.Meaning;
    if cs == [] {
      assert AllBytes(cs) + rest == rest;
    } else {
      var tail := AllBytes(cs[1..]) + rest;
      assert AllBytes(cs) + rest == cs[0].Bytes() + tail;
      WireFront(cs[0], tail);
      WireItems(cs[1..], rest);
    }
  }

  /** Any frame, of any widths and kind and with any body, is read by its kind, and
      its frame is gone with it, also when the body is malformed. */
  lemma AnyFrame(kind: nat, e: nat, value: seq<byte>, f: nat, rest: seq<byte>)
    requires Fits(kind, e) && Fits(|value|, f)
    ensures var r := Front(VarintOf(kind, e) + VarintOf(|value|, f) + value + rest);
            r.Some? && Reads(kind, value, r.value.0) && r.value.1 == rest
  {
    hide VarintOf, Fits, FrameAt, Reads, Body;
    FrameOf(kind, e, value, f, rest);
    BodyReads(kind, value);
  }
}
