/** The UDP datagrams of a SOCKS5 association, section 7 of RFC 1928: two reserved
    bytes, a fragment number that must be zero, an address, a port and the data. */
module Socks {
  import opened Wire
  import opened Masque

  const ATYP_V4: byte := 1
  const ATYP_DOMAIN: byte := 3
  const ATYP_V6: byte := 4

  /** A domain name is kept as its bytes. */
  datatype Target = Ip(ip: IpAddr) | Domain(name: seq<byte>) {
    predicate Valid() {
      match this
      case Ip(V4(octets)) => |octets| == 4
      case Ip(V6(octets)) => |octets| == 16
      case Domain(name) => |name| < 256
    }

    function Bytes(): seq<byte>
      requires Valid()
    {
      match this
      case Ip(V4(octets)) => [1] + octets
      case Ip(V6(octets)) => [4] + octets
      case Domain(name) => [3, |name|] + name
    }
  }

  datatype Packet = Packet(target: Target, port: nat, data: seq<byte>) {
    predicate Valid() { target.Valid() && port < 65536 }
  }

  function Printed(reserved: seq<byte>, d: Packet): seq<byte>
    requires d.Valid()
  {
    reserved + [0] + d.target.Bytes() + U16(d.port) + d.data
  }

  /** The target at position 3, and where it ends. */
  function ParsedTarget(buf: seq<byte>): (r: Option<(Target, nat)>)
    requires |buf| >= 4
    ensures r.Some? ==> 4 < r.value.1 <= |buf| && r.value.0.Valid()
  {
    var atyp := buf[3];
    if atyp == ATYP_V4 then
      if |buf| < 8 then None else Some((Ip(V4(buf[4..8])), 8))
    else if atyp == ATYP_V6 then
      if |buf| < 20 then None else Some((Ip(V6(buf[4..20])), 20))
    else if atyp == ATYP_DOMAIN then
      if |buf| < 5 then None
      else
        var len: nat := buf[4];
        if |buf| < 5 + len then None else Some((Domain(buf[5..5 + len]), 5 + len))
    else None
  }

  function Parsed(buf: seq<byte>): Option<Packet> {
    if |buf| < 4 || buf[2] != 0 then None
    else match ParsedTarget(buf)
         case None => None
         case Some((target, pos)) =>
           if |buf| < pos + 2 then None
           else Some(Packet(target, FromU16(buf[pos], buf[pos + 1]), buf[pos + 2..]))
  }

  method ParseUdpRequest(buf: seq<byte>) returns (r: Option<Packet>)
    ensures r == Parsed(buf)
  {
    if |buf| < 4 || buf[2] != 0 { return None; }
    var atyp, pos := buf[3], 4;
    var target;
    if atyp == ATYP_V4 {
      if |buf| < pos + 4 { return None; }
      target := Ip(V4(buf[pos..pos + 4]));
      pos := pos + 4;
    } else if atyp == ATYP_V6 {
      if |buf| < pos + 16 { return None; }
      target := Ip(V6(buf[pos..pos + 16]));
      pos := pos + 16;
    } else if atyp == ATYP_DOMAIN {
      if pos >= |buf| { return None; }
      var len := buf[pos];
      pos := pos + 1;
      if |buf| < pos + len { return None; }
      target := Domain(buf[pos..pos + len]);
      pos := pos + len;
    } else {
      return None;
    }
    if |buf| < pos + 2 { return None; }
    var port := FromU16(buf[pos], buf[pos + 1]);
    pos := pos + 2;
    r := Some(Packet(target, port, buf[pos..]));
  }

  method BuildUdpReply(src: IpAddr, port: nat, data: seq<byte>) returns (pkt: seq<byte>)
    requires Packet(Ip(src), port, data).Valid()
    ensures pkt == Printed([0, 0], Packet(Ip(src), port, data))
  {
    pkt := [0, 0, 0];
    match src {
      case V4(octets) =>
        pkt := pkt + [ATYP_V4];
        pkt := pkt + octets;
      case V6(octets) =>
        pkt := pkt + [ATYP_V6];
        pkt := pkt + octets;
    }
    assert pkt == [0, 0] + [0] + Ip(src).Bytes();
    pkt := pkt + U16(port);
    pkt := pkt + data;
  }

  /** Reading any printed datagram, a reply among them, gives back its parts. */
  lemma ParsedPrinted(reserved: seq<byte>, d: Packet)
    requires |reserved| == 2 && d.Valid()
    ensures Parsed(Printed(reserved, d)) == Some(d)
  {
    var buf := Printed(reserved, d);
    var end := 3 + |d.target.Bytes()|;
    assert buf[3..end] == d.target.Bytes();
    TargetAt(buf, d.target);
    assert buf[end..end + 2] == U16(d.port);
    assert buf[end] == U16(d.port)[0] && buf[end + 1] == U16(d.port)[1];
    assert buf[end + 2..] == d.data;
  }

  lemma TargetAt(buf: seq<byte>, t: Target)
    requires t.Valid() && At(buf, 3, t.Bytes())
    ensures |buf| >= 4 && ParsedTarget(buf) == Some((t, 3 + |t.Bytes()|))
  {
    var bytes := t.Bytes();
    assert buf[3] == bytes[0];
    match t {
      case Ip(V4(octets)) => assert buf[4..8] == bytes[1..];
      case Ip(V6(octets)) => assert buf[4..20] == bytes[1..];
      case Domain(name) =>
        assert buf[4] == bytes[1];
        assert buf[5..5 + |name|] == bytes[2..];
    }
  }

  /** What is accepted is exactly what can be printed: the parts determine every
      byte but the two reserved ones. */
  lemma ParsedExact(buf: seq<byte>, d: Packet)
    ensures Parsed(buf) == Some(d) <==> |buf| >= 4 && d.Valid() && buf == Printed(buf[..2], d)
  {
    if Parsed(buf) == Some(d) {
      var (target, pos) := ParsedTarget(buf).value;
      assert buf[3..pos] == target.Bytes() by {
        if target.Domain? {
          assert buf[3..pos] == [buf[3], buf[4]] + buf[5..pos];
        } else {
          assert buf[3..pos] == [buf[3]] + buf[4..pos];
        }
      }
      assert buf[pos..pos + 2] == U16(d.port);
      assert buf == buf[..2] + [buf[2]] + buf[3..pos] + buf[pos..pos + 2] + buf[pos + 2..];
    } else if |buf| >= 4 && d.Valid() && buf == Printed(buf[..2], d) {
      ParsedPrinted(buf[..2], d);
    }
  }
}
