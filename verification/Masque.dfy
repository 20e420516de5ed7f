/** Capsules (section 3.2 of RFC 9297), CONNECT-IP capsule bodies (section 4.7 of
    RFC 9484) and HTTP/3 datagrams (section 2.1 of RFC 9297). */
module Masque {
  import opened Wire
  import opened Octets

  const CAPSULE_DATAGRAM: nat := 0
  const CAPSULE_ADDRESS_ASSIGN: nat := 1
  const CAPSULE_ADDRESS_REQUEST: nat := 2
  const CAPSULE_ROUTE_ADVERTISEMENT: nat := 3
  const CONNECT_IP_CONTEXT_ID: nat := 0

  datatype CapsuleError = TooShort | BadIpVersion(version: byte)

  datatype Address = Address(requestId: nat, ipVersion: byte, address: seq<byte>, prefixLen: byte)

  datatype Route = Route(ipVersion: byte, start: seq<byte>, end: seq<byte>, protocol: byte)

  datatype Capsule =
    | AddressAssign(addresses: seq<Address>)
    | AddressRequest
    | Datagram(packet: seq<byte>)
    | RouteAdvertisement(routes: seq<Route>)
    | Unknown(kind: nat, payload: seq<byte>)

  type Parsed = Result<Capsule, CapsuleError>

  datatype IpAddr = V4(octets: seq<byte>) | V6(octets: seq<byte>)

  function AddrLen(version: byte): Option<nat> {
    if version == 4 then Some(4) else if version == 6 then Some(16) else None
  }

  function BytesToIp(version: byte, bytes: seq<byte>): Option<IpAddr> {
    if version == 4 && |bytes| == 4 then Some(V4(bytes))
    else if version == 6 && |bytes| == 16 then Some(V6(bytes))
    else None
  }

  /** A parsed list after the entries already in `out`. */
  function After<T>(out: seq<T>, r: Result<seq<T>, CapsuleError>): Result<seq<T>, CapsuleError> {
    match r
    case Err(e) => Err(e)
    case Ok(rest) => Ok(out + rest)
  }

  lemma AfterNothing<T>(r: Result<seq<T>, CapsuleError>)
    ensures After([], r) == r
  {
    if r.Ok? { assert [] + r.value == r.value; }
  }

  lemma AfterAfter<T>(a: seq<T>, b: seq<T>, r: Result<seq<T>, CapsuleError>)
    ensures After(a, After(b, r)) == After(a + b, r)
  {
    if r.Ok? { assert a + (b + r.value) == a + b + r.value; }
  }

  // ---- ADDRESS_ASSIGN bodies -------------------------------------------

  /** One entry at the front of `s`, and how many bytes it takes. */
  function TakeAddress(s: seq<byte>): (r: Result<(Address, nat), CapsuleError>)
    ensures r.Ok? ==> 0 < r.value.1 <= |s|
  {
    match GetVarint(s)
    case None => Err(TooShort)
    case Some((id, w)) =>
      if |s| < w + 1 then Err(TooShort)
      else match AddrLen(s[w])
           case None => Err(BadIpVersion(s[w]))
           case Some(n) =>
             if |s| < w + 1 + n + 1 then Err(TooShort)
             else Ok((Address(id, s[w], s[w + 1..w + 1 + n], s[w + 1 + n]), w + 1 + n + 1))
  }

  function Addresses(s: seq<byte>): Result<seq<Address>, CapsuleError> {
    if s == [] then Ok([])
    else match TakeAddress(s)
         case Err(e) => Err(e)
         case Ok((a, n)) => After([a], Addresses(s[n..]))
  }

  lemma AddressNone(out: seq<Address>)
    ensures After(out, Addresses([])) == Ok(out)
  {
    assert out + [] == out;
  }

  /** One turn of the parsing loop, with the entries in `out` behind it. */
  lemma AddressTurn(out: seq<Address>, s: seq<byte>)
    requires s != []
    ensures TakeAddress(s).Err? ==> After(out, Addresses(s)) == Err(TakeAddress(s).error)
    ensures TakeAddress(s).Ok? ==>
              var (a, n) := TakeAddress(s).value; After(out, Addresses(s)) == After(out + [a], Addresses(s[n..]))
  {
    if TakeAddress(s).Ok? {
      var (a, n) := TakeAddress(s).value;
      AfterAfter(out, [a], Addresses(s[n..]));
    }
  }

  method ParseAddressAssign(value: seq<byte>) returns (r: Result<seq<Address>, CapsuleError>)
    ensures r == Addresses(value)
  {
    hide Addresses, After, GetVarint;
    var off := 0;
    var out: seq<Address> := [];
    assert value[0..] == value;
    AfterNothing(Addresses(value));
    while off < |value|
      invariant 0 <= off <= |value|
      invariant Addresses(value) == After(out, Addresses(value[off..]))
    {
      ghost var was, here := off, value[off..];
      AddressTurn(out, here);
      var id, ipVersion, n;
      match GetVarint(value[off..]) {
        case None => return Err(TooShort);
        case Some((v, w)) => id, off := v, off + w;
      }
      if off >= |value| { return Err(TooShort); }
      ipVersion, off := value[off], off + 1;
      match AddrLen(ipVersion) {
        case None => return Err(BadIpVersion(ipVersion));
        case Some(len) => n := len;
      }
      if off + n > |value| { return Err(TooShort); }
      var address := value[off..off + n];
      SliceOfSlice(value, was, off - was, off - was + n);
      off := off + n;
      if off >= |value| { return Err(TooShort); }
      var a := Address(id, ipVersion, address, value[off]);
      off := off + 1;
      assert here[off - was..] == value[off..];
      assert TakeAddress(here) == Ok((a, off - was));
      out := out + [a];
    }
    assert value[off..] == [];
    AddressNone(out);
    r := Ok(out);
  }

  /** An entry as it may stand on the wire: the request id takes any width that
      fits it, shortest or not. */
  datatype WireAddress = WireAddress(width: nat, entry: Address) {
    predicate Valid() {
      && Fits(entry.requestId, width)
      && ((entry.ipVersion == 4 && |entry.address| == 4) || (entry.ipVersion == 6 && |entry.address| == 16))
    }

    function Bytes(): seq<byte>
      requires Valid()
    {
      VarintOf(entry.requestId, width) + [entry.ipVersion] + entry.address + [entry.prefixLen]
    }
  }

  function AddressBytes(ws: seq<WireAddress>): seq<byte>
    requires forall w :: w in ws ==> w.Valid()
  {
    if ws == [] then [] else ws[0].Bytes() + AddressBytes(ws[1..])
  }

  function Entries(ws: seq<WireAddress>): (r: seq<Address>)
    ensures |r| == |ws|
  {
    seq(|ws|, i requires 0 <= i < |ws| => ws[i].entry)
  }

  lemma TakeAddressOf(w: WireAddress, rest: seq<byte>)
    requires w.Valid()
    ensures TakeAddress(w.Bytes() + rest) == Ok((w.entry, |w.Bytes()|))
  {
    hide VarintOf, GetVarint, Fits;
    var head, k, n := VarintOf(w.entry.requestId, w.width), Width(w.width), |w.entry.address|;
    var tail: seq<byte> := [w.entry.ipVersion] + w.entry.address + [w.entry.prefixLen] + rest;
    var s := w.Bytes() + rest;
    assert s == head + tail;
    GetVarintOf(w.entry.requestId, w.width, tail);
    assert s[k] == tail[0] && s[k + 1 + n] == tail[1 + n];
    assert tail[1..1 + n] == w.entry.address;
    assert s[k..] == tail;
    SliceOfSlice(s, k, 1, 1 + n);
  }

  lemma TakeAddressExact(s: seq<byte>) returns (w: WireAddress)
    requires TakeAddress(s).Ok?
    ensures w.Valid() && TakeAddress(s) == Ok((w.entry, |w.Bytes()|))
    ensures s == w.Bytes() + s[|w.Bytes()|..]
  {
    var (a, n) := TakeAddress(s).value;
    w := WireAddress(s[0] / 64, a);
    GetVarintExact(s);
    var k := GetVarint(s).value.1;
    assert s[..n] == s[..k] + [s[k]] + s[k + 1..n - 1] + [s[n - 1]];
    assert s == s[..n] + s[n..];
  }

  lemma {:induction false} AddressesOf(ws: seq<WireAddress>)
    requires forall w :: w in ws ==> w.Valid()
    ensures Addresses(AddressBytes(ws)) == Ok(Entries(ws))
  {
    if ws != [] {
      var rest := AddressBytes(ws[1..]);
      TakeAddressOf(ws[0], rest);
      assert (ws[0].Bytes() + rest)[|ws[0].Bytes()|..] == rest;
      AddressesOf(ws[1..]);
      assert Entries(ws) == [ws[0].entry] + Entries(ws[1..]);
    }
  }

  lemma {:induction false} AddressesWitness(s: seq<byte>) returns (ws: seq<WireAddress>)
    requires Addresses(s).Ok?
    ensures forall w :: w in ws ==> w.Valid()
    ensures AddressBytes(ws) == s && Addresses(s) == Ok(Entries(ws))
  {
    hide TakeAddress, WireAddress.Bytes, WireAddress.Valid;
    if s == [] {
      ws := [];
    } else {
      var w := TakeAddressExact(s);
      var rest := AddressesWitness(s[|w.Bytes()|..]);
      ws := [w] + rest;
      assert ws[1..] == rest;
      EntriesMore(w, rest);
    }
  }

  lemma EntriesMore(w: WireAddress, rest: seq<WireAddress>)
    ensures Entries([w] + rest) == [w.entry] + Entries(rest)
  {
  }

  /** The ADDRESS_ASSIGN parser accepts exactly the concatenations of
      well-formed entries, and returns those entries in order. */
  lemma AddressBodyExact(s: seq<byte>, out: seq<Address>)
    ensures Addresses(s) == Ok(out) <==>
            exists ws: seq<WireAddress> ::
              (forall w :: w in ws ==> w.Valid()) && AddressBytes(ws) == s && Entries(ws) == out
  {
    if Addresses(s) == Ok(out) {
      var ws := AddressesWitness(s);
      assert Entries(ws) == out;
    }
    forall ws: seq<WireAddress> | (forall w :: w in ws ==> w.Valid()) && AddressBytes(ws) == s
      ensures Addresses(s) == Ok(Entries(ws))
    {
      AddressesOf(ws);
    }
  }

  /** No parsed address is ever refused by `bytes_to_ip`. */
  lemma ParsedAddressesAreIps(s: seq<byte>)
    requires Addresses(s).Ok?
    ensures forall a :: a in Addresses(s).value ==>
              BytesToIp(a.ipVersion, a.address).Some? && |a.address| == if a.ipVersion == 4 then 4 else 16
  {
    var ws := AddressesWitness(s);
    forall a | a in Entries(ws)
      ensures BytesToIp(a.ipVersion, a.address).Some? && |a.address| == if a.ipVersion == 4 then 4 else 16
    {
      var i :| 0 <= i < |ws| && Entries(ws)[i] == a;
      assert ws[i].Valid();
    }
  }

  // ---- ROUTE_ADVERTISEMENT bodies --------------------------------------

  function TakeRoute(s: seq<byte>): (r: Result<(Route, nat), CapsuleError>)
    ensures r.Ok? ==> 0 < r.value.1 <= |s|
  {
    if s == [] then Err(TooShort)
    else match AddrLen(s[0])
         case None => Err(BadIpVersion(s[0]))
         case Some(n) =>
           if |s| < 1 + n + n + 1 then Err(TooShort)
           else Ok((Route(s[0], s[1..1 + n], s[1 + n..1 + n + n], s[1 + n + n]), 1 + n + n + 1))
  }

  function Routes(s: seq<byte>): Result<seq<Route>, CapsuleError> {
    if s == [] then Ok([])
    else match TakeRoute(s)
         case Err(e) => Err(e)
         case Ok((a, n)) => After([a], Routes(s[n..]))
  }

  lemma RouteNone(out: seq<Route>)
    ensures After(out, Routes([])) == Ok(out)
  {
    assert out + [] == out;
  }

  /** One turn of the parsing loop, with the entries in `out` behind it. */
  lemma RouteTurn(out: seq<Route>, s: seq<byte>)
    requires s != []
    ensures TakeRoute(s).Err? ==> After(out, Routes(s)) == Err(TakeRoute(s).error)
    ensures TakeRoute(s).Ok? ==>
              var (a, n) := TakeRoute(s).value; After(out, Routes(s)) == After(out + [a], Routes(s[n..]))
  {
    if TakeRoute(s).Ok? {
      var (a, n) := TakeRoute(s).value;
      AfterAfter(out, [a], Routes(s[n..]));
    }
  }

  method ParseRouteAdvertisement(value: seq<byte>) returns (r: Result<seq<Route>, CapsuleError>)
    ensures r == Routes(value)
  {
    hide Routes, After, GetVarint;
    var off := 0;
    var out: seq<Route> := [];
    assert value[0..] == value;
    AfterNothing(Routes(value));
    while off < |value|
      invariant 0 <= off <= |value|
      invariant Routes(value) == After(out, Routes(value[off..]))
    {
      ghost var was, here := off, value[off..];
      RouteTurn(out, here);
      var ipVersion := value[off];
      off := off + 1;
      var n;
      match AddrLen(ipVersion) {
        case None => return Err(BadIpVersion(ipVersion));
        case Some(len) => n := len;
      }
      if off + n > |value| { return Err(TooShort); }
      var start := value[off..off + n];
      SliceOfSlice(value, was, 1, 1 + n);
      off := off + n;
      if off + n > |value| { return Err(TooShort); }
      var end := value[off..off + n];
      SliceOfSlice(value, was, 1 + n, 1 + n + n);
      off := off + n;
      if off >= |value| { return Err(TooShort); }
      var a := Route(ipVersion, start, end, value[off]);
      off := off + 1;
      assert here[off - was..] == value[off..];
      assert TakeRoute(here) == Ok((a, off - was));
      out := out + [a];
    }
    assert value[off..] == [];
    RouteNone(out);
    r := Ok(out);
  }

  ghost predicate ValidRoute(a: Route) {
    && |a.end| == |a.start|
    && ((a.ipVersion == 4 && |a.start| == 4) || (a.ipVersion == 6 && |a.start| == 16))
  }

  function RouteBytes(routes: seq<Route>): seq<byte> {
    if routes == [] then []
    else var a := routes[0]; [a.ipVersion] + a.start + a.end + [a.protocol] + RouteBytes(routes[1..])
  }

  lemma {:induction false} RoutesOf(routes: seq<Route>)
    requires forall a :: a in routes ==> ValidRoute(a)
    ensures Routes(RouteBytes(routes)) == Ok(routes)
  {
    if routes != [] {
      var a, rest := routes[0], RouteBytes(routes[1..]);
      var s := RouteBytes(routes);
      var n := |a.start|;
      assert ValidRoute(a);
      assert s[1..1 + n] == a.start;
      assert s[1 + n..1 + n + n] == a.end;
      assert s[1 + n + n + 1..] == rest;
      assert TakeRoute(s) == Ok((a, 1 + n + n + 1));
      RoutesOf(routes[1..]);
      assert [a] + routes[1..] == routes;
    }
  }

  lemma {:induction false} RoutesWitness(s: seq<byte>)
    requires Routes(s).Ok?
    ensures RouteBytes(Routes(s).value) == s
    ensures forall a :: a in Routes(s).value ==> ValidRoute(a)
  {
    if s != [] {
      var (a, n) := TakeRoute(s).value;
      assert ValidRoute(a);
      assert s == [a.ipVersion] + a.start + a.end + [a.protocol] + s[n..];
      RoutesWitness(s[n..]);
      var rest := Routes(s[n..]).value;
      assert Routes(s) == Ok([a] + rest);
      assert ([a] + rest)[1..] == rest;
    }
  }

  /** The ROUTE_ADVERTISEMENT parser accepts exactly the printed lists of
      routes whose two addresses have the length of their version. */
  lemma RouteBodyExact(s: seq<byte>, out: seq<Route>)
    ensures Routes(s) == Ok(out) <==> (forall a :: a in out ==> ValidRoute(a)) && RouteBytes(out) == s
  {
    if Routes(s).Ok? {
      RoutesWitness(s);
    }
    if forall a :: a in out ==> ValidRoute(a) {
      RoutesOf(out);
    }
  }

  // ---- Capsules ---------------------------------------------------------

  /** What the body of a capsule of this kind stands for. */
  function Body(kind: nat, value: seq<byte>): Parsed {
    if kind == CAPSULE_ADDRESS_ASSIGN then
      match Addresses(value)
      case Ok(a) => Ok(AddressAssign(a))
      case Err(e) => Err(e)
    else if kind == CAPSULE_ADDRESS_REQUEST then Ok(AddressRequest)
    else if kind == CAPSULE_ROUTE_ADVERTISEMENT then
      match Routes(value)
      case Ok(a) => Ok(RouteAdvertisement(a))
      case Err(e) => Err(e)
    else if kind == CAPSULE_DATAGRAM then Ok(Datagram(value))
    else Ok(Unknown(kind, value))
  }

  datatype Frame = Frame(kind: nat, value: seq<byte>, size: nat)

  /** The complete capsule at the front of `s`, if there is one. */
  function FrameAt(s: seq<byte>): (r: Option<Frame>)
    ensures r.Some? ==> 2 <= r.value.size <= |s|
  {
    match GetVarint(s)
    case None => None
    case Some((kind, w)) =>
      match GetVarint(s[w..])
      case None => None
      case Some((len, x)) =>
        if |s| < w + x + len then None
        else Some(Frame(kind, s[w + x..w + x + len], w + x + len))
  }

  /** The first thing `next` finds in `s`, and the bytes behind it. */
  function Front(s: seq<byte>): (r: Option<(Parsed, seq<byte>)>)
    ensures r.Some? ==> |r.value.1| < |s|
  {
    match FrameAt(s)
    case None => None
    case Some(f) => Some((Body(f.kind, f.value), s[f.size..]))
  }

  /** The incremental parser: bytes are pushed at the end, capsules leave from
      the front. */
  class CapsuleParser {
    var buf: seq<byte>

    constructor ()
      ensures buf == []
    {
      buf := [];
    }

    method Push(data: seq<byte>)
      modifies this
      ensures buf == old(buf) + data
    {
      buf := buf + data;
    }

    /** The frame is taken off the buffer before its body is looked at. */
    method Next() returns (r: Result<Option<Capsule>, CapsuleError>)
      modifies this
      ensures Front(old(buf)).None? ==> r == Ok(None) && buf == old(buf)
      ensures Front(old(buf)).Some? ==>
                var (item, rest) := Front(old(buf)).value;
                buf == rest && r == if item.Ok? then Ok(Some(item.value)) else Err(item.error)
    {
      var off := 0;
      var kind, len;
      match GetVarint(buf[off..]) {
        case None => assert buf[0..] == buf; return Ok(None);
        case Some((v, w)) => kind, off := v, off + w;
      }
      assert buf[0..] == buf;
      match GetVarint(buf[off..]) {
        case None => return Ok(None);
        case Some((v, w)) => len, off := v, off + w;
      }
      if |buf| - off < len { return Ok(None); }
      var value := buf[off..off + len];
      off := off + len;
      assert FrameAt(buf) == Some(Frame(kind, value, off));
      buf := buf[off..];

      if kind == CAPSULE_ADDRESS_ASSIGN {
        var a := ParseAddressAssign(value);
        match a {
          case Ok(v) => return Ok(Some(AddressAssign(v)));
          case Err(e) => return Err(e);
        }
      } else if kind == CAPSULE_ADDRESS_REQUEST {
        return Ok(Some(AddressRequest));
      } else if kind == CAPSULE_ROUTE_ADVERTISEMENT {
        var a := ParseRouteAdvertisement(value);
        match a {
          case Ok(v) => return Ok(Some(RouteAdvertisement(v)));
          case Err(e) => return Err(e);
        }
      } else if kind == CAPSULE_DATAGRAM {
        return Ok(Some(Datagram(value)));
      } else {
        return Ok(Some(Unknown(kind, value)));
      }
    }
  }

  /** A capsule on the wire, both integers in their shortest form. */
  function CapsuleBytes(kind: nat, value: seq<byte>): seq<byte>
    requires kind < VARINT_LIMIT && |value| < VARINT_LIMIT
  {
    Varint(kind) + Varint(|value|) + value
  }

  /** Every `put` succeeds and the last one fills the buffer exactly. */
  method EncodeCapsule(kind: nat, value: seq<byte>) returns (out: seq<byte>)
    requires kind < VARINT_LIMIT && |value| < VARINT_LIMIT
    ensures out == CapsuleBytes(kind, value)
    ensures |out| == VarintLen(kind) + VarintLen(|value|) + |value|
  {
    hide Varint, VarintLen;
    var cap := VarintLen(kind) + VarintLen(|value|) + |value|;
    var b := new OctetsMut(cap);
    var ok1 := b.PutVarint(kind);
    var ok2 := b.PutVarint(|value|);
    assert b.Written() == Varint(kind) + Varint(|value|);
    var ok3 := b.PutBytes(value);
    assert ok1 && ok2 && ok3 && b.off == cap;
    out := b.buf[..];
    assert out == b.buf[..b.off];
  }

  function DatagramBytes(streamId: nat, packet: seq<byte>): seq<byte>
    requires streamId < VARINT_LIMIT
  {
    Varint(streamId / 4) + Varint(CONNECT_IP_CONTEXT_ID) + packet
  }

  method EncodeIpDatagram(streamId: nat, packet: seq<byte>) returns (r: Result<seq<byte>, CapsuleError>)
    requires streamId < VARINT_LIMIT
    ensures r == Ok(DatagramBytes(streamId, packet))
  {
    hide Varint, VarintLen;
    var qsid := streamId / 4;
    var cap := VarintLen(qsid) + VarintLen(CONNECT_IP_CONTEXT_ID) + |packet|;
    var b := new OctetsMut(cap);
    var ok := b.PutVarint(qsid);
    if !ok { return Err(TooShort); }
    assert b.Written() == Varint(qsid);
    ok := b.PutVarint(CONNECT_IP_CONTEXT_ID);
    if !ok { return Err(TooShort); }
    assert b.Written() == Varint(qsid) + Varint(CONNECT_IP_CONTEXT_ID);
    ok := b.PutBytes(packet);
    if !ok { return Err(TooShort); }
    assert b.off == cap;
    assert b.buf[..] == b.Written();
    r := Ok(b.buf[..]);
  }

  function DecodeIpDatagram(d: seq<byte>, expectStreamId: nat): Result<Option<seq<byte>>, CapsuleError> {
    match GetVarint(d)
    case None => Err(TooShort)
    case Some((qsid, w)) =>
      if qsid != expectStreamId / 4 then Ok(None)
      else match GetVarint(d[w..])
           case None => Err(TooShort)
           case Some((ctx, x)) =>
             if ctx != CONNECT_IP_CONTEXT_ID then Ok(None) else Ok(Some(d[w + x..]))
  }

  /** An encoded packet comes back on every stream with its quarter id and on no
      other. */
  lemma DatagramRoundTrip(streamId: nat, packet: seq<byte>, other: nat)
    requires streamId < VARINT_LIMIT
    ensures DecodeIpDatagram(DatagramBytes(streamId, packet), other) ==
            Ok(if streamId / 4 == other / 4 then Some(packet) else None)
  {
    var tail := Varint(CONNECT_IP_CONTEXT_ID) + packet;
    var d := DatagramBytes(streamId, packet);
    assert d == Varint(streamId / 4) + tail;
    GetVarintOf(streamId / 4, Shortest(streamId / 4), tail);
    assert d[|Varint(streamId / 4)|..] == tail;
    GetVarintOf(CONNECT_IP_CONTEXT_ID, Shortest(CONNECT_IP_CONTEXT_ID), packet);
    assert d[|Varint(streamId / 4)| + 1..] == packet;
  }

  /** Any datagram that names a stream and a context, in whatever widths: its payload
      comes back exactly on a stream with that quarter id and in context 0. */
  lemma DecodeIff(quarter: nat, e: nat, context: nat, f: nat, payload: seq<byte>, streamId: nat)
    requires Fits(quarter, e) && Fits(context, f)
    ensures DecodeIpDatagram(VarintOf(quarter, e) + VarintOf(context, f) + payload, streamId) ==
            Ok(if quarter == streamId / 4 && context == 0 then Some(payload) else None)
  {
    hide VarintOf, GetVarint, Fits;
    var q, c := VarintOf(quarter, e), VarintOf(context, f);
    var d := q + c + payload;
    assert d == q + (c + payload);
    GetVarintOf(quarter, e, c + payload);
    assert d[|q|..] == c + payload;
    GetVarintOf(context, f, payload);
    assert d[|q| + |c|..] == payload;
  }

  /** Every other datagram is too short: it ends within its first integer, or on a
      matching stream within its second. */
  lemma DecodeErrors(d: seq<byte>, streamId: nat)
    ensures DecodeIpDatagram(d, streamId).Err? <==>
            || GetVarint(d).None?
            || (var (q, w) := GetVarint(d).value; q == streamId / 4 && GetVarint(d[w..]).None?)
  {
  }
}
