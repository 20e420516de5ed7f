/** The packets in received HTTP/3 datagrams. */
module Datagrams {
  import opened Wire
  import opened Octets
  import opened Masque

  /** The packets in the datagrams that belong to the stream; a malformed datagram
      and one of another stream or context are skipped. */
  function PacketsFor(streamId: nat, incoming: seq<seq<byte>>): seq<seq<byte>> {
    if incoming == [] then []
    else
      (match DecodeIpDatagram(incoming[0], streamId) case Ok(Some(p)) => [p] case _ => [])
      + PacketsFor(streamId, incoming[1..])
  }

  /** A datagram as it may stand on the wire: its quarter stream id and context in any
      widths, and its payload. */
  datatype WireDatagram = WireDatagram(quarter: nat, e: nat, context: nat, f: nat, payload: seq<byte>) {
    predicate Valid() { Fits(quarter, e) && Fits(context, f) }

    function Bytes(): seq<byte>
      requires Valid()
    {
      VarintOf(quarter, e) + VarintOf(context, f) + payload
    }
  }

  /** The payloads for a stream: those with its quarter id and in context 0. */
  function PayloadsFor(streamId: nat, ds: seq<WireDatagram>): seq<seq<byte>> {
    if ds == [] then []
    else if ds[0].quarter == streamId / 4 && ds[0].context == 0 then [ds[0].payload] + PayloadsFor(streamId, ds[1..])
    else PayloadsFor(streamId, ds[1..])
  }

  /** Of datagrams that name a stream and a context, exactly the payloads for the
      stream are taken, in order. */
  lemma {:induction false} PacketsForWire(streamId: nat, ds: seq<WireDatagram>, incoming: seq<seq<byte>>)
    requires |incoming| == |ds| && forall i :: 0 <= i < |ds| ==> ds[i].Valid() && incoming[i] == ds[i].Bytes()
    ensures PacketsFor(streamId, incoming) == PayloadsFor(streamId, ds)
  {
    hide DecodeIpDatagram;
    if ds != [] {
      var d := ds[0];
      DecodeIff(d.quarter, d.e, d.context, d.f, d.payload, streamId);
      PacketsForWire(streamId, ds[1..], incoming[1..]);
    }
  }

  lemma PacketsNext(sid: nat, incoming: seq<seq<byte>>, i: nat, sent: seq<seq<byte>>)
    requires i < |incoming|
    ensures var r := DecodeIpDatagram(incoming[i], sid);
            sent + PacketsFor(sid, incoming[i..]) ==
            sent + (if r.Ok? && r.value.Some? then [r.value.value] else []) + PacketsFor(sid, incoming[i + 1..])
  {
    hide DecodeIpDatagram;
    assert incoming[i..][1..] == incoming[i + 1..];
  }

  lemma PacketsEnd(sid: nat, incoming: seq<seq<byte>>)
    ensures incoming == [] ==> PacketsFor(sid, incoming) == []
  {
  }
}
