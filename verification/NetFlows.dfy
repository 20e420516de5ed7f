/** What the other events lead to over whole runs: half-closes, and the packets of
    UDP flows in both directions. */
module NetFlows {
  import opened Wire
  import opened Net
  import opened NetRuns
  import opened NetVisits

  ghost predicate FlowHasSocket(n: Net, id: Id) {
    id in n.udp && n.udp[id].handle in n.sockets && n.sockets[n.udp[id].handle].UdpSocket?
  }

  lemma FlowsHaveSockets(n: Net, id: Id)
    requires Inv(n) && id in n.udp
    ensures FlowHasSocket(n, id)
  {
    hide PortsOk, AnsweredOnce, Coherent, EntryOk, Fed;
  }

  // ---- One event ---------------------------------------------------------

  /** Exactly the mark of the entry changes, if there is an entry. */
  lemma HalfCloseMarks(n: Net, id: Id)
    requires Inv(n)
    ensures HalfClose(n, id) ==
            if id in n.tcp then n.(tcp := n.tcp[id := n.tcp[id].(halfClosed := true)]) else n
  {
    hide Coherent, PortsOk, AnsweredOnce, FlowOk, EntryOk;
    if id in n.tcp {
      var h := n.tcp[id].handle;
      assert n.sockets[h := n.sockets[h]] == n.sockets && n.queued[id := n.queued[id]] == n.queued;
    }
  }

  /** A packet for a live flow whose socket has room goes to that socket, behind the
      packets before it; nothing else changes, and any other packet changes nothing. */
  lemma SendUdpHands(n: Net, id: Id, data: seq<byte>, room: bool)
    requires Inv(n)
    ensures id in n.udp ==> FlowHasSocket(n, id)
    ensures SendUdp(n, id, data, room) ==
            if id in n.udp && room then
              var h := n.udp[id].handle;
              n.(sockets := n.sockets[h := n.sockets[h].(sent := n.sockets[h].sent + [data])])
            else n
  {
    hide Coherent, PortsOk, AnsweredOnce, EntryOk, Fed;
    if id in n.udp {
      assert n.udp[id := n.udp[id]] == n.udp;
    }
  }

  /** Opening a connection uses up a port in any case.  With a socket that connects the
      next id gets a fresh entry that holds the reply channel, and a socket on that
      port in the state SynSent; otherwise the request is answered at once. */
  lemma OpenTcpAdds(n: Net, req: Request, connectOk: bool, h: Handle)
    ensures var m := n.(nextPort := if n.nextPort >= 65000 then 49152 else n.nextPort + 1, allocs := n.allocs + 1);
            OpenTcp(n, req, connectOk, h) ==
            if !connectOk then m.(answers := n.answers[req := [ConnectError]])
            else m.(
              answers := n.answers[req := []], waiting := n.waiting[req := n.nextId], nextId := n.nextId + 1,
              queued := n.queued[n.nextId := []],
              tcp := n.tcp[n.nextId := TcpState(h, Channel([], false), true, Some(req), [], false, false)],
              sockets := n.sockets[h := TcpSocket(n.nextId, n.nextPort, n.allocs, SynSent, [], [])])
  {
    if !connectOk {
      assert [] + [ConnectError] == [ConnectError];
      assert n.answers[req := []][req := [ConnectError]] == n.answers[req := [ConnectError]];
    }
  }

  /** Opening a flow uses up a port in any case, and the request is answered at once. */
  lemma OpenUdpAnswers(n: Net, req: Request, bindOk: bool, h: Handle)
    ensures var m := n.(nextPort := if n.nextPort >= 65000 then 49152 else n.nextPort + 1, allocs := n.allocs + 1);
            OpenUdp(n, req, bindOk, h) ==
            if !bindOk then m.(answers := n.answers[req := [BindError]])
            else m.(
              answers := n.answers[req := [Bound(n.nextId)]], nextId := n.nextId + 1,
              udp := n.udp[n.nextId := UdpState(h, Channel([], false))],
              sockets := n.sockets[h := UdpSocket(n.nextId, n.nextPort, n.allocs, [], [])])
  {
    var a := if bindOk then Bound(n.nextId) else BindError;
    assert [] + [a] == [a];
    assert n.answers[req := []][req := [a]] == n.answers[req := [a]];
  }

  /** Closing a flow takes exactly the entry and its socket away. */
  lemma CloseUdpTakes(n: Net, id: Id)
    ensures CloseUdp(n, id) ==
            if id in n.udp then n.(udp := n.udp - {id}, sockets := n.sockets - {n.udp[id].handle}) else n
  {
  }

  /** A visit of a flow takes up to 128 packets from its socket, in order, and hands
      them to the application until that is gone. */
  lemma VisitUdpServes(n: Net, id: Id, chunks: seq<seq<byte>>, takes: nat)
    requires Inv(n) && FlowHasSocket(n, id)
    ensures var h := n.udp[id].handle;
            var got := if |chunks| <= 128 then chunks else chunks[..128];
            var f := Reach(n.udp[id].toApp.gone, takes, |got|);
            var c := n.udp[id].toApp;
            VisitUdp(n, id, chunks, takes) == n.(
              udp := n.udp[id := UdpState(h, Channel(c.got + got[..f], c.gone || f < |got|))],
              sockets := n.sockets[h := n.sockets[h].(received := n.sockets[h].received + got)])
  {
    hide Inv;
    assert chunks[..|chunks|] == chunks;
  }

  /** Polling moves exactly the TCP sockets it names. */
  lemma PollMoves(n: Net, phases: map<Handle, Phase>, h: Handle)
    requires h in n.sockets
    ensures var m := Poll(n, phases);
            && m.sockets.Keys == n.sockets.Keys && m == n.(sockets := m.sockets)
            && m.sockets[h] == if n.sockets[h].TcpSocket? && h in phases then n.sockets[h].(phase := phases[h]) else n.sockets[h]
  {
  }

  // ---- Whole runs --------------------------------------------------------

  function First128(packets: seq<seq<byte>>): seq<seq<byte>> {
    if |packets| <= 128 then packets else packets[..128]
  }

  /** The packets handed over for the flow while it lived and its socket had room. */
  ghost function PacketsSent(es: seq<Event>, id: Id): seq<seq<byte>>
    requires Run(es).Some?
  {
    if es == [] then []
    else
      var before, e := es[..|es| - 1], es[|es| - 1];
      if e.EvSendUdp? && e.id == id && e.room && id in Run(before).value.udp then PacketsSent(before, id) + [e.packet]
      else PacketsSent(before, id)
  }

  /** The packets that its socket yielded in the visits, 128 of each at most. */
  ghost function PacketsTaken(es: seq<Event>, id: Id): seq<seq<byte>>
    requires Run(es).Some?
  {
    if es == [] then []
    else
      var before, e := es[..|es| - 1], es[|es| - 1];
      if e.EvVisitUdp? && e.id == id then PacketsTaken(before, id) + First128(e.chunks) else PacketsTaken(before, id)
  }

  /** Whether the application half-closed the connection while it lived. */
  ghost predicate HalfClosedSince(es: seq<Event>, id: Id)
    requires Run(es).Some?
  {
    es != [] &&
    var before, e := es[..|es| - 1], es[|es| - 1];
    (e == EvHalfClose(id) && id in Run(before).value.tcp) || HalfClosedSince(before, id)
  }

  /** Both ends of a flow, as an event leaves them. */
  ghost predicate FlowAfter(n: Net, m: Net, e: Event, id: Id)
    requires FlowHasSocket(m, id)
  {
    var now := m.sockets[m.udp[id].handle];
    if id in n.udp then
      && FlowHasSocket(n, id)
      && var was := n.sockets[n.udp[id].handle];
         && now.sent == (if e.EvSendUdp? && e.id == id && e.room then was.sent + [e.packet] else was.sent)
         && now.received == (if e.EvVisitUdp? && e.id == id then was.received + First128(e.chunks) else was.received)
    else n.nextId <= id && now.sent == [] && now.received == []
  }

  lemma {:induction false} SweepKeepsFlow(n: Net, visits: seq<(Id, Glance)>, id: Id)
    requires Inv(n) && Visitable(n, visits)
    ensures var m := Sweep(n, visits);
            && m.udp == n.udp
            && (FlowHasSocket(n, id) ==> FlowHasSocket(m, id) && m.sockets[n.udp[id].handle] == n.sockets[n.udp[id].handle])
    decreases |visits|
  {
    hide Inv, Visit;
    if visits != [] {
      var (v, g) := visits[0];
      SweepStep(n, visits);
      EntriesConserve(n);
      VisitTouches(n, v, g);
      SweepKeepsFlow(Visit(n, v, g), visits[1..], id);
    }
  }

  lemma FlowsApart(n: Net, i: Id, j: Id)
    requires Inv(n) && i in n.udp && j in n.udp && i != j
    ensures n.udp[i].handle != n.udp[j].handle
  {
    hide PortsOk, AnsweredOnce, Coherent, Fed, EntryOk;
  }

  lemma StepFlow(n: Net, e: Event, id: Id)
    requires Inv(n) && Possible(n, e) && FlowHasSocket(Step(n, e), id)
    ensures FlowAfter(n, Step(n, e), e, id)
  {
    hide Inv, Sweep, VisitUdp, SendUdp, CloseUdp, HalfClose, QueueData, OpenTcp, OpenUdp, Poll;
    KnownIds(n);
    if id in n.udp {
      FlowsHaveSockets(n, id);
    }
    if e.EvVisitUdp? || e.EvSendUdp? {
      SameFlows(n, e);
    }
    match e {
      case EvSweepTcp(visits) => SweepKeepsFlow(n, visits, id);
      case EvVisitUdp(_, _, _) => FlowVisited(n, e, id);
      case EvSendUdp(_, _, _) => FlowSentOn(n, e, id);
      case EvCloseUdp(v) =>
        CloseUdpTakes(n, v);
      case EvHalfClose(v) => HalfCloseMarks(n, v);
      case EvData(v, data) => QueueDataPends(n, v, data);
      case EvOpenTcp(req, ok, h) => OpenTcpKeepsFlows(n, req, ok, h);
      case EvOpenUdp(req, ok, h) => OpenUdpAdds(n, req, ok, h);
      case EvPoll(phases) =>
        PollKeepsEntries(n, phases);
        if id in n.udp { PollMoves(n, phases, n.udp[id].handle); }
    }
  }

  lemma FlowVisited(n: Net, e: Event, id: Id)
    requires Inv(n) && Possible(n, e) && e.EvVisitUdp? && id in n.udp
    ensures FlowHasSocket(Step(n, e), id) && FlowAfter(n, Step(n, e), e, id)
  {
    hide Inv, VisitUdp;
    FlowsHaveSockets(n, id);
    FlowsHaveSockets(n, e.id);
    VisitUdpServes(n, e.id, e.chunks, e.appTakes);
    if e.id != id { FlowsApart(n, e.id, id); }
  }

  lemma FlowSentOn(n: Net, e: Event, id: Id)
    requires Inv(n) && Possible(n, e) && e.EvSendUdp? && id in n.udp
    ensures FlowHasSocket(Step(n, e), id) && FlowAfter(n, Step(n, e), e, id)
  {
    hide Inv, SendUdp;
    FlowsHaveSockets(n, id);
    SendUdpHands(n, e.id, e.packet, e.room);
    if e.id in n.udp && e.id != id { FlowsApart(n, e.id, id); }
  }

  /** Only a successful open adds a flow. */
  lemma SameFlows(n: Net, e: Event)
    requires Inv(n) && Possible(n, e) && (e.EvVisitUdp? || e.EvSendUdp?)
    ensures Step(n, e).udp.Keys == n.udp.Keys
  {
    hide Inv, VisitUdp, SendUdp;
    if e.EvVisitUdp? {
      FlowsHaveSockets(n, e.id);
      VisitUdpServes(n, e.id, e.chunks, e.appTakes);
    } else {
      SendUdpHands(n, e.id, e.packet, e.room);
    }
  }

  lemma OpenTcpKeepsFlows(n: Net, req: Request, ok: bool, h: Handle)
    ensures var m := OpenTcp(n, req, ok, h);
            && m.udp == n.udp && (forall k :: k in n.sockets && k != h ==> k in m.sockets && m.sockets[k] == n.sockets[k])
            && (forall i :: i in m.tcp && i !in n.tcp ==> i == n.nextId && !m.tcp[i].halfClosed)
            && (forall i :: i in m.tcp && i in n.tcp && i != n.nextId ==> m.tcp[i] == n.tcp[i])
  {
  }

  lemma OpenUdpAdds(n: Net, req: Request, ok: bool, h: Handle)
    ensures var m := OpenUdp(n, req, ok, h);
            && m.tcp == n.tcp && (forall k :: k in n.sockets && k != h ==> k in m.sockets && m.sockets[k] == n.sockets[k])
            && (forall i :: i in m.udp && i in n.udp && i != n.nextId ==> m.udp[i] == n.udp[i])
            && (forall i :: i in m.udp && i !in n.udp ==>
                  i == n.nextId && m.udp[i].handle == h && h in m.sockets && m.sockets[h].UdpSocket?
                  && m.sockets[h].sent == [] && m.sockets[h].received == [])
  {
  }

  lemma KnownIds(n: Net)
    requires Inv(n)
    ensures n.nextId !in n.tcp && n.nextId !in n.udp
  {
    hide Conserved, AnsweredOnce, PortsOk;
    FreshId(n);
  }

  /** Data goes behind what is pending for a live connection. */
  lemma QueueDataPends(n: Net, id: Id, data: seq<byte>)
    requires Inv(n)
    ensures id in n.tcp ==> id in n.queued
    ensures QueueData(n, id, data) ==
            if id in n.tcp then
              n.(tcp := n.tcp[id := n.tcp[id].(pending := n.tcp[id].pending + data)],
                 queued := n.queued[id := n.queued[id] + data])
            else n
  {
    hide Coherent, PortsOk, AnsweredOnce, FlowOk, EntryOk;
    if id in n.tcp {
      var h := n.tcp[id].handle;
      assert n.sockets[h := n.sockets[h]] == n.sockets;
    }
  }

  lemma StepHalfClosed(n: Net, e: Event, id: Id)
    requires Inv(n) && Possible(n, e) && id in Step(n, e).tcp
    ensures Step(n, e).tcp[id].halfClosed <==>
            id in n.tcp && (n.tcp[id].halfClosed || e == EvHalfClose(id))
    ensures id in n.tcp || n.nextId <= id
  {
    hide Inv, Sweep, VisitUdp, SendUdp, CloseUdp, HalfClose, QueueData, OpenTcp, OpenUdp, Poll;
    KnownIds(n);
    match e {
      case EvSweepTcp(visits) =>
        EntriesConserve(n);
        if id in n.tcp {
          var j :| 0 <= j < |visits| && visits[j].0 == id;
          var r := ReceivesSome(visits[j].1.chunks, 0);
          SweepServes(n, visits, j, r);
        } else {
          SweepBringsNone(n, visits, id);
        }
      case EvVisitUdp(v, chunks, takes) =>
        FlowsHaveSockets(n, v);
        VisitUdpServes(n, v, chunks, takes);
      case EvSendUdp(v, packet, room) => SendUdpHands(n, v, packet, room);
      case EvCloseUdp(v) => CloseUdpTakes(n, v);
      case EvHalfClose(v) => HalfCloseMarks(n, v);
      case EvData(v, data) => QueueDataPends(n, v, data);
      case EvOpenTcp(req, ok, h) => OpenTcpKeepsFlows(n, req, ok, h);
      case EvOpenUdp(req, ok, h) => OpenUdpAdds(n, req, ok, h);
      case EvPoll(phases) => PollKeepsEntries(n, phases);
    }
  }

  lemma PollKeepsEntries(n: Net, phases: map<Handle, Phase>)
    ensures Poll(n, phases).tcp == n.tcp && Poll(n, phases).udp == n.udp
  {
  }

  lemma {:induction false} SweepBringsNone(n: Net, visits: seq<(Id, Glance)>, id: Id)
    requires Inv(n) && Visitable(n, visits) && id !in n.tcp
    ensures id !in Sweep(n, visits).tcp
    decreases |visits|
  {
    hide Inv, Visit;
    if visits != [] {
      SweepStep(n, visits);
      EntriesConserve(n);
      VisitTouches(n, visits[0].0, visits[0].1);
      SweepBringsNone(Visit(n, visits[0].0, visits[0].1), visits[1..], id);
    }
  }

  /** Ids that were not given out yet have no history. */
  lemma {:induction false} NoFlowYet(es: seq<Event>, id: Id)
    requires Run(es).Some? && id >= Run(es).value.nextId
    ensures PacketsSent(es, id) == [] && PacketsTaken(es, id) == [] && !HalfClosedSince(es, id)
  {
    hide Inv, Step;
    if es != [] {
      var before, e := es[..|es| - 1], es[|es| - 1];
      var n := Run(before).value;
      StepQueued(n, e);
      NoFlowYet(before, id);
      EntriesConserve(n);
    }
  }

  /** In every reachable state the socket of a live flow was handed exactly the
      packets sent on the flow while there was room, in order, and gave up exactly
      those of the visits; the application got them in order, all of them until it
      was gone. */
  lemma {:induction false} FlowsConserved(es: seq<Event>, id: Id)
    requires Run(es).Some? && id in Run(es).value.udp
    ensures var n := Run(es).value;
            && FlowHasSocket(n, id)
            && n.sockets[n.udp[id].handle].sent == PacketsSent(es, id)
            && n.sockets[n.udp[id].handle].received == PacketsTaken(es, id)
            && n.udp[id].toApp.got <= PacketsTaken(es, id)
            && (!n.udp[id].toApp.gone ==> n.udp[id].toApp.got == PacketsTaken(es, id))
  {
    hide Inv, Step, Possible;
    var before, e := es[..|es| - 1], es[|es| - 1];
    var n, m := Run(before).value, Run(es).value;
    FlowsHaveSockets(m, id);
    FlowIsFed(m, id);
    StepFlow(n, e, id);
    if id in n.udp {
      FlowsConserved(before, id);
    } else {
      NoFlowYet(before, id);
      NotFlowing(n, e, id);
    }
  }

  lemma NotFlowing(n: Net, e: Event, id: Id)
    requires Possible(n, e) && id !in n.udp
    ensures !(e.EvVisitUdp? && e.id == id)
  {
  }

  lemma FlowIsFed(n: Net, id: Id)
    requires Inv(n) && FlowHasSocket(n, id)
    ensures Fed(n.udp[id].toApp, n.sockets[n.udp[id].handle].received)
  {
    hide PortsOk, AnsweredOnce, Coherent, EntryOk;
  }

  /** In every reachable state a live connection is marked half-closed exactly when
      the application half-closed it. */
  lemma {:induction false} HalfClosedIff(es: seq<Event>, id: Id)
    requires Run(es).Some? && id in Run(es).value.tcp
    ensures Run(es).value.tcp[id].halfClosed <==> HalfClosedSince(es, id)
  {
    hide Inv, Step, Possible;
    var before, e := es[..|es| - 1], es[|es| - 1];
    var n := Run(before).value;
    StepHalfClosed(n, e, id);
    if id in n.tcp {
      HalfClosedIff(before, id);
    } else {
      NoFlowYet(before, id);
    }
  }
}
