/** The connection layer as the object whose fields the events update in place.
    Every method is tied to the function of module `Net` that says what the event
    makes of the whole state. */
module NetStack {
  import opened Wire
  import opened Net

  class NetStack {
    var tcpConns: map<Id, TcpState>
    var udpConns: map<Id, UdpState>
    var sockets: map<Handle, Socket>
    var nextId: Id
    var nextPort: nat
    var allocs: nat
    ghost var queued: map<Id, seq<byte>>
    ghost var waiting: map<Request, Id>
    ghost var answers: map<Request, seq<Answer>>

    ghost function View(): Net
      reads this
    {
      Net(tcpConns, udpConns, sockets, nextId, nextPort, allocs, queued, waiting, answers)
    }

    ghost predicate Valid()
      reads this
    {
      Inv(View())
    }

    constructor ()
      ensures View() == INIT
      ensures Valid()
    {
      tcpConns, udpConns, sockets, nextId, nextPort := map[], map[], map[], 1, FIRST_PORT;
      allocs, queued, waiting, answers := 0, map[], map[], map[];
    }

    method AllocPort() returns (port: nat)
      modifies this`nextPort
      ensures port == old(nextPort) && nextPort == NextPort(port)
    {
      port := nextPort;
      nextPort := if port >= 65000 then 49152 else port + 1;
    }

    /** The one-shot reply channel is used up. */
    ghost method Tell(req: Request, a: Answer)
      requires req in answers
      modifies this`answers, this`waiting
      ensures answers == old(answers)[req := old(answers)[req] + [a]] && waiting == old(waiting) - {req}
    {
      answers := answers[req := answers[req] + [a]];
      waiting := waiting - {req};
    }

    /** Takes the next port for a new request. */
    method Allocate(req: Request) returns (port: nat, serial: nat)
      modifies this`nextPort, this`allocs, this`answers
      ensures port == old(nextPort) && serial == old(allocs)
      ensures nextPort == NextPort(port) && allocs == serial + 1 && answers == old(answers)[req := []]
    {
      serial := allocs;
      port := AllocPort();
      allocs, answers := allocs + 1, answers[req := []];
    }

    method HandleOpenTcp(req: Request, connectOk: bool, handle: Handle)
      requires Valid() && req !in answers && handle !in sockets
      modifies this
      ensures View() == OpenTcp(old(View()), req, connectOk, handle)
      ensures Valid()
    {
      hide Inv, OpenTcp;
      ghost var n := View();
      OpenTcpKeeps(n, req, connectOk, handle);
      NotWaiting(n, req);
      var localPort, serial := Allocate(req);
      if !connectOk {
        Tell(req, ConnectError);
        TcpFailed(n, View(), req, handle);
        return;
      }
      var id := nextId;
      sockets := sockets[handle := TcpSocket(id, localPort, serial, SynSent, [], [])];
      nextId := nextId + 1;
      tcpConns := tcpConns[id := TcpState(handle, Channel([], false), true, Some(req), [], false, false)];
      queued := queued[id := []];
      waiting := waiting[req := id];
      TcpOpened(n, View(), req, handle);
    }

    method HandleOpenUdp(req: Request, bindOk: bool, handle: Handle)
      requires Valid() && req !in answers && handle !in sockets
      modifies this
      ensures View() == OpenUdp(old(View()), req, bindOk, handle)
      ensures Valid()
    {
      hide Inv, OpenUdp;
      ghost var n := View();
      OpenUdpKeeps(n, req, bindOk, handle);
      NotWaiting(n, req);
      var localPort, serial := Allocate(req);
      if !bindOk {
        Tell(req, BindError);
        UdpAnswered(n, View(), req, handle);
        return;
      }
      var id := nextId;
      sockets := sockets[handle := UdpSocket(id, localPort, serial, [], [])];
      nextId := nextId + 1;
      udpConns := udpConns[id := UdpState(handle, Channel([], false))];
      Tell(req, Bound(id));
      UdpAnswered(n, View(), req, handle);
    }

    method HandleTcpData(id: Id, data: seq<byte>)
      requires Valid()
      modifies this
      ensures View() == QueueData(old(View()), id, data)
      ensures Valid()
    {
      hide Coherent, PortsOk, AnsweredOnce, EntryOk;
      DataKeeps(View(), id, data);
      if id in tcpConns {
        var st := tcpConns[id];
        assert sockets[st.handle := sockets[st.handle]] == sockets;
        tcpConns := tcpConns[id := st.(pending := st.pending + data)];
        queued := queued[id := queued[id] + data];
      }
    }

    method HandleTcpClose(id: Id)
      requires Valid()
      modifies this
      ensures View() == HalfClose(old(View()), id)
      ensures Valid()
    {
      hide Coherent, PortsOk, AnsweredOnce, EntryOk;
      DataKeeps(View(), id, []);
      if id in tcpConns {
        var st := tcpConns[id];
        assert sockets[st.handle := sockets[st.handle]] == sockets && queued[id := queued[id]] == queued;
        tcpConns := tcpConns[id := st.(halfClosed := true)];
      }
    }

    /** `room` says whether the socket has room for the packet; the result of
        `send_slice` is ignored. */
    method HandleUdpData(id: Id, data: seq<byte>, room: bool)
      requires Valid()
      modifies this
      ensures View() == SendUdp(old(View()), id, data, room)
      ensures Valid()
    {
      hide Coherent, PortsOk, AnsweredOnce;
      SendUdpKeeps(View(), id, data, room);
      if id in udpConns && room {
        var st := udpConns[id];
        var sock := sockets[st.handle];
        assert udpConns[id := st] == udpConns;
        sockets := sockets[st.handle := sock.(sent := sock.sent + [data])];
      }
    }

    method HandleUdpClose(id: Id)
      requires Valid()
      modifies this
      ensures View() == CloseUdp(old(View()), id)
      ensures Valid()
    {
      hide Inv;
      CloseUdpKeeps(View(), id);
      if id in udpConns {
        var handle := udpConns[id].handle;
        udpConns := udpConns - {id};
        sockets := sockets - {handle};
      }
    }

    /** The receive loop over what the socket yields. */
    method ReceiveChunks(offered: seq<seq<byte>>) returns (chunks: seq<seq<byte>>)
      ensures chunks == Received(offered, MAX_RECV_CHUNKS)
    {
      chunks := [];
      while |chunks| < MAX_RECV_CHUNKS && |chunks| < |offered|
        invariant |chunks| <= MAX_RECV_CHUNKS && |chunks| <= |offered|
        invariant Received(offered, MAX_RECV_CHUNKS)
               == chunks + Received(offered[|chunks|..], MAX_RECV_CHUNKS - |chunks|)
      {
        var v := offered[|chunks|];
        assert offered[|chunks|..][1..] == offered[|chunks| + 1..];
        if v == [] { break; }
        chunks := chunks + [v];
      }
      assert Received(offered[|chunks|..], MAX_RECV_CHUNKS - |chunks|) == [];
    }

    /** Sends the chunks to the application until it turns out to be gone. */
    method ForwardChunks(toApp: Channel, chunks: seq<seq<byte>>, takes: nat) returns (after: Channel, appGone: bool)
      ensures after == Forward(toApp, chunks, takes) && appGone == ForwardFails(toApp, chunks, takes)
    {
      after, appGone := toApp, false;
      var i := 0;
      while i < |chunks|
        invariant 0 <= i <= |chunks| && (i > 0 ==> !toApp.gone && i <= takes)
        invariant after == Channel(toApp.got + chunks[..i], toApp.gone)
      {
        if toApp.gone || i == takes {
          after, appGone := after.(gone := true), true;
          break;
        }
        after := after.(got := after.got + [chunks[i]]);
        assert chunks[..i + 1] == chunks[..i] + [chunks[i]];
        i := i + 1;
      }
    }

    method DropTcp(id: Id)
      requires id in tcpConns
      modifies this`tcpConns, this`sockets, this`queued
      ensures tcpConns == old(tcpConns) - {id} && queued == old(queued) - {id}
      ensures sockets == old(sockets) - {old(tcpConns)[id].handle}
    {
      sockets := sockets - {tcpConns[id].handle};
      tcpConns := tcpConns - {id};
      queued := queued - {id};
    }

    /** Offers what is pending to the socket and keeps what it does not take. */
    method SendPending(id: Id, g: Glance)
      requires id in tcpConns && tcpConns[id].handle in sockets && sockets[tcpConns[id].handle].TcpSocket?
      modifies this`tcpConns, this`sockets
      ensures var st, sock := old(tcpConns)[id], old(sockets)[old(tcpConns)[id].handle];
              && tcpConns == old(tcpConns)[id := st.(pending := st.pending[Sent(st, g)..])]
              && sockets == old(sockets)[st.handle := sock.(accepted := sock.accepted + st.pending[..Sent(st, g)])]
    {
      var handle := tcpConns[id].handle;
      ghost var st, sock := tcpConns[id], sockets[handle];
      if g.canSend {
        var pending := tcpConns[id].pending;
        if pending != [] {
          var sent := Min(g.room, |pending|);
          if sent > 0 {
            sockets := sockets[handle := sockets[handle].(accepted := sockets[handle].accepted + pending[..sent])];
            tcpConns := tcpConns[id := tcpConns[id].(pending := pending[sent..])];
            return;
          }
        }
      }
      assert st.pending[0..] == st.pending && sock.accepted + st.pending[..0] == sock.accepted;
    }

    /** Sends what is pending, half-closes, receives and forwards. */
    method MoveTcp(id: Id, g: Glance)
      requires id in tcpConns && tcpConns[id].handle in sockets && sockets[tcpConns[id].handle].TcpSocket?
      modifies this`tcpConns, this`sockets
      ensures var st, sock := old(tcpConns)[id], old(sockets)[old(tcpConns)[id].handle];
              && tcpConns == old(tcpConns)[id := Moved(st, sock, g).0]
              && sockets == old(sockets)[st.handle := Moved(st, sock, g).1]
    {
      hide Received, Forward, Sent, ForwardFails;
      var handle := tcpConns[id].handle;
      SendPending(id, g);
      if tcpConns[id].halfClosed && tcpConns[id].pending == [] {
        sockets := sockets[handle := sockets[handle].(phase := g.onHalfClose)];
      }

      ReceiveAndForward(id, g);
    }

    method ReceiveAndForward(id: Id, g: Glance)
      requires id in tcpConns && tcpConns[id].handle in sockets && sockets[tcpConns[id].handle].TcpSocket?
      modifies this`tcpConns, this`sockets
      ensures var st, sock := old(tcpConns)[id], old(sockets)[old(tcpConns)[id].handle];
              var got := Received(g.chunks, MAX_RECV_CHUNKS);
              var phase := if ForwardFails(st.toApp, got, g.appTakes) then g.onAppGone else sock.phase;
              && tcpConns == old(tcpConns)[id := st.(toApp := Forward(st.toApp, got, g.appTakes))]
              && sockets == old(sockets)[st.handle := sock.(taken := sock.taken + got, phase := phase)]
    {
      hide Received, Forward, ForwardFails;
      var handle := tcpConns[id].handle;
      var chunks := ReceiveChunks(g.chunks);
      sockets := sockets[handle := sockets[handle].(taken := sockets[handle].taken + chunks)];
      var toApp, appGone := ForwardChunks(tcpConns[id].toApp, chunks, g.appTakes);
      tcpConns := tcpConns[id := tcpConns[id].(toApp := toApp)];
      if appGone {
        sockets := sockets[handle := sockets[handle].(phase := g.onAppGone)];
      }
    }

    /** Hands the connection to the waiting caller when the socket is seen to be
        established for the first time. */
    method Connect(id: Id, state: Phase)
      requires id in tcpConns && (!tcpConns[id].established ==>
                 tcpConns[id].connectResp.Some? && tcpConns[id].connectResp.value in answers)
      modifies this`tcpConns, this`answers, this`waiting
      ensures var st := old(tcpConns)[id];
              if Connects(st, state) then
                && tcpConns == old(tcpConns)[id := AfterConnect(st, state)]
                && answers == old(answers)[st.connectResp.value := old(answers)[st.connectResp.value] + [Connected(id)]]
                && waiting == old(waiting) - {st.connectResp.value}
              else tcpConns == old(tcpConns) && answers == old(answers) && waiting == old(waiting)
    {
      if !tcpConns[id].established && state == Established {
        var st := tcpConns[id];
        tcpConns := tcpConns[id := st.(established := true, connectResp := None, fromStackHeld := false)];
        Tell(st.connectResp.value, Connected(id));
      }
    }

    /** One turn of the loop of `service_tcp`. */
    method VisitTcp(id: Id, g: Glance)
      requires Valid() && id in tcpConns
      modifies this
      ensures View() == Visit(old(View()), id, g)
      ensures Valid()
    {
      hide Inv, Visit, Moved, Framed, Connects, Refuses, AfterConnect, Put, Remove;
      ghost var n := View();
      VisitLookups(n, id);
      var handle := tcpConns[id].handle;
      var state := sockets[handle].phase;
      VisitCases(n.tcp[id], state);
      Connect(id, state);

      if !tcpConns[id].established && state in {Closed, TimeWait} {
        Tell(tcpConns[id].connectResp.value, Refused);
        DropTcp(id);
        IsRemove(n, View(), id, Some(Refused));
        VisitRefused(n, id, g);
        return;
      }

      MoveTcp(id, g);
      Settle(id, g);
      VisitSettled(n, View(), id, g);
    }

    /** Closes the socket when the peer has closed, and drops the entry when the
        socket of an established connection is closed. */
    method Settle(id: Id, g: Glance)
      requires id in tcpConns && tcpConns[id].handle in sockets && sockets[tcpConns[id].handle].TcpSocket?
      modifies this`tcpConns, this`sockets, this`queued
      ensures var st, sock := old(tcpConns)[id], old(sockets)[old(tcpConns)[id].handle];
              if sock.phase == Closed && st.established then
                && tcpConns == old(tcpConns) - {id} && queued == old(queued) - {id}
                && sockets == old(sockets) - {st.handle}
              else
                && tcpConns == old(tcpConns) && queued == old(queued)
                && sockets == old(sockets)[st.handle := Parted(sock, g)]
    {
      var handle := tcpConns[id].handle;
      var stState := sockets[handle].phase;
      if stState == CloseWait {
        sockets := sockets[handle := sockets[handle].(phase := g.onCloseWait)];
      }
      if stState == Closed && tcpConns[id].established {
        DropTcp(id);
      }
    }

    /** Sweeps over the ids found at the start; `visits` pairs them with what the
        environment does meanwhile. */
    method ServiceTcp(visits: seq<(Id, Glance)>)
      requires Valid() && Visitable(View(), visits)
      modifies this
      ensures View() == Sweep(old(View()), visits)
      ensures Valid()
    {
      hide Inv, Visit;
      var i := 0;
      while i < |visits|
        invariant 0 <= i <= |visits|
        invariant Valid() && Visitable(View(), visits[i..])
        invariant Sweep(old(View()), visits) == Sweep(View(), visits[i..])
      {
        SweepStep(View(), visits[i..]);
        assert visits[i..][0] == visits[i] && visits[i..][1..] == visits[i + 1..];
        VisitTcp(visits[i].0, visits[i].1);
        i := i + 1;
      }
    }

    /** One turn of the loop of `service_udp`. */
    method VisitUdpConn(id: Id, offered: seq<seq<byte>>, appTakes: nat)
      requires Valid() && id in udpConns
      modifies this
      ensures View() == VisitUdp(old(View()), id, offered, appTakes)
      ensures Valid()
    {
      hide Coherent, PortsOk, AnsweredOnce, Forward;
      VisitUdpKeeps(View(), id, offered, appTakes);
      var handle := udpConns[id].handle;
      var sock := sockets[handle];
      var packets := offered[..Min(|offered|, MAX_RECV_CHUNKS)];
      sockets := sockets[handle := sock.(received := sock.received + packets)];
      var toApp, _ := ForwardChunks(udpConns[id].toApp, packets, appTakes);
      udpConns := udpConns[id := udpConns[id].(toApp := toApp)];
    }
  }

  lemma NotWaiting(n: Net, req: Request)
    requires Inv(n) && req !in n.answers
    ensures n.waiting - {req} == n.waiting && req !in n.waiting
  {
    hide Coherent, Conserved, PortsOk;
  }

  ghost predicate PortTaken(n: Net, m: Net) {
    m.nextPort == NextPort(n.nextPort) && m.allocs == n.allocs + 1
  }

  lemma TcpFailed(n: Net, m: Net, req: Request, h: Handle)
    requires PortTaken(n, m) && m.(nextPort := n.nextPort, allocs := n.allocs, answers := n.answers) == n
    requires m.answers == n.answers[req := []][req := [] + [ConnectError]]
    ensures m == OpenTcp(n, req, false, h)
  {
  }

  lemma TcpOpened(n: Net, m: Net, req: Request, h: Handle)
    requires PortTaken(n, m) && m.nextId == n.nextId + 1 && m.udp == n.udp
    requires m.answers == n.answers[req := []] && m.waiting == n.waiting[req := n.nextId]
    requires m.tcp == n.tcp[n.nextId := TcpState(h, Channel([], false), true, Some(req), [], false, false)]
    requires m.queued == n.queued[n.nextId := []]
    requires m.sockets == n.sockets[h := TcpSocket(n.nextId, n.nextPort, n.allocs, SynSent, [], [])]
    ensures m == OpenTcp(n, req, true, h)
  {
  }

  /** A flow is told at once whether it is bound. */
  lemma UdpAnswered(n: Net, m: Net, req: Request, h: Handle)
    requires PortTaken(n, m) && m.tcp == n.tcp && m.queued == n.queued && m.waiting == n.waiting
    requires m.nextId in {n.nextId, n.nextId + 1}
    requires var bindOk := m.nextId != n.nextId;
             && m.answers == n.answers[req := []][req := [] + [if bindOk then Bound(n.nextId) else BindError]]
             && m.udp == (if bindOk then n.udp[n.nextId := UdpState(h, Channel([], false))] else n.udp)
             && m.sockets == if bindOk then n.sockets[h := UdpSocket(n.nextId, n.nextPort, n.allocs, [], [])] else n.sockets
    ensures m == OpenUdp(n, req, m.nextId != n.nextId, h)
  {
  }

  lemma VisitCases(st: TcpState, phase: Phase)
    ensures Connects(st, phase) == (!st.established && phase == Established)
    ensures Refuses(st, phase) == (!st.established && phase in {Closed, TimeWait})
    ensures AfterConnect(st, phase) == if Connects(st, phase)
                                       then st.(established := true, connectResp := None, fromStackHeld := false) else st
    ensures AfterConnect(st, phase).handle == st.handle
  {
  }

  /** The state after sending, receiving and settling is that of the visit. */
  lemma VisitSettled(n: Net, m: Net, id: Id, g: Glance)
    requires Inv(n) && id in n.tcp && n.tcp[id].handle in n.sockets && n.sockets[n.tcp[id].handle].TcpSocket?
    requires !Refuses(n.tcp[id], n.sockets[n.tcp[id].handle].phase)
    requires m.(tcp := n.tcp, sockets := n.sockets, queued := n.queued, waiting := n.waiting, answers := n.answers) == n
    requires var st, sock := n.tcp[id], n.sockets[n.tcp[id].handle];
             var (st', sock') := Moved(AfterConnect(st, sock.phase), sock, g);
             && (if Connects(st, sock.phase) then
                   && st.connectResp.Some? && st.connectResp.value in n.answers
                   && var r := st.connectResp.value;
                      m.waiting == n.waiting - {r} && m.answers == n.answers[r := n.answers[r] + [Connected(id)]]
                 else m.waiting == n.waiting && m.answers == n.answers)
             && (if sock'.phase == Closed && st'.established then
                   && m.tcp == n.tcp[id := st'] - {id} && m.queued == n.queued - {id}
                   && m.sockets == n.sockets[st.handle := sock'] - {st.handle}
                 else
                   && m.tcp == n.tcp[id := st'] && m.queued == n.queued
                   && m.sockets == n.sockets[st.handle := sock'][st.handle := Parted(sock', g)])
    ensures m == Visit(n, id, g)
  {
    hide Inv, Moved, Framed, Connects, Refuses, Parted, Visit;
    VisitMoved(n, id, g);
    assert AfterConnect(n.tcp[id], n.sockets[n.tcp[id].handle].phase).handle == n.tcp[id].handle;
    assert n.queued[id := n.queued[id]] == n.queued;
  }

  lemma IsRemove(n: Net, m: Net, id: Id, answer: Option<Answer>)
    requires id in n.tcp
    requires m.(tcp := n.tcp, queued := n.queued, sockets := n.sockets, waiting := n.waiting, answers := n.answers) == n
    requires m.tcp == n.tcp - {id} && m.queued == n.queued - {id} && m.sockets == n.sockets - {n.tcp[id].handle}
    requires answer.None? ==> m.waiting == n.waiting && m.answers == n.answers
    requires answer.Some? ==>
               && n.tcp[id].connectResp.Some? && n.tcp[id].connectResp.value in n.answers
               && var r := n.tcp[id].connectResp.value;
                  m.waiting == n.waiting - {r} && m.answers == n.answers[r := n.answers[r] + [answer.value]]
    ensures m == Remove(n, id, answer)
  {
  }
}
