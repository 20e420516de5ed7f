/** What one visit of a sweep, one sweep, and each of the other events do to a
    connection or a flow: how many bytes leave, what comes in, how the socket is
    closed. */
module NetVisits {
  import opened Wire
  import opened Net
  import opened NetRuns

  /** The entry has its own TCP socket, as every entry of a reachable state. */
  predicate HasSocket(n: Net, id: Id) {
    id in n.tcp && n.tcp[id].handle in n.sockets && n.sockets[n.tcp[id].handle].TcpSocket?
  }

  /** A visit receives the first `r` chunks: up to an empty one, at most 128. */
  predicate Receives(chunks: seq<seq<byte>>, r: nat) {
    && r <= |chunks| && r <= 128
    && (forall i :: 0 <= i < r ==> chunks[i] != [])
    && (r == |chunks| || r == 128 || chunks[r] == [])
  }

  lemma {:induction false} ReceivedIs(chunks: seq<seq<byte>>, budget: nat, r: nat)
    requires r <= |chunks| && r <= budget
    requires forall i :: 0 <= i < r ==> chunks[i] != []
    requires r == |chunks| || r == budget || chunks[r] == []
    ensures Received(chunks, budget) == chunks[..r]
    decreases r
  {
    if r > 0 {
      assert forall i :: 0 <= i < r - 1 ==> chunks[1..][i] == chunks[i + 1];
      ReceivedIs(chunks[1..], budget - 1, r - 1);
      assert chunks[..r] == [chunks[0]] + chunks[1..][..r - 1];
    }
  }

  /** How many of the pending bytes the socket takes. */
  function Taken(pending: seq<byte>, g: Glance): nat {
    if !g.canSend then 0 else if g.room < |pending| then g.room else |pending|
  }

  /** How many of `r` chunks reach the application. */
  function Reach(gone: bool, takes: nat, r: nat): nat {
    if gone then 0 else if takes < r then takes else r
  }

  /** The phase before the peer's close is looked at: the half-close needs every
      byte taken, and the application's end comes after it. */
  function Between(st: TcpState, phase: Phase, g: Glance, r: nat): Phase {
    if Reach(st.toApp.gone, g.appTakes, r) < r then g.onAppGone
    else if st.halfClosed && Taken(st.pending, g) == |st.pending| then g.onHalfClose
    else phase
  }

  /** The entry and its socket after a visit that received `r` chunks and keeps
      them: the socket takes a prefix of the pending bytes and the rest stays
      pending, and what was received goes to the application. */
  predicate Served(st: TcpState, sock: Socket, st': TcpState, sock': Socket, g: Glance, r: nat)
    requires sock.TcpSocket? && r <= |g.chunks|
  {
    var (k, f) := (Taken(st.pending, g), Reach(st.toApp.gone, g.appTakes, r));
    var up := st.established || sock.phase == Established;
    var phase := Between(st, sock.phase, g, r);
    && st' == TcpState(
         st.handle, Channel(st.toApp.got + g.chunks[..f], st.toApp.gone || f < r),
         st.fromStackHeld && !up, if up then None else st.connectResp, st.pending[k..], up, st.halfClosed)
    && sock' == TcpSocket(
         sock.owner, sock.port, sock.serial, if phase == CloseWait then g.onCloseWait else phase,
         sock.accepted + st.pending[..k], sock.taken + g.chunks[..r])
  }

  /** A connection that is refused goes with its socket, and so does one that is
      established with its socket closed in the end; no other one does. */
  predicate Leaves(st: TcpState, phase: Phase, g: Glance, r: nat) {
    || (!st.established && phase in {Closed, TimeWait})
    || ((st.established || phase == Established) && Between(st, phase, g, r) == Closed)
  }

  predicate Visited(n: Net, m: Net, id: Id, g: Glance, r: nat)
    requires HasSocket(n, id) && r <= |g.chunks|
  {
    var st := n.tcp[id];
    var sock := n.sockets[st.handle];
    if Leaves(st, sock.phase, g, r) then id !in m.tcp && st.handle !in m.sockets
    else HasSocket(m, id) && m.tcp[id].handle == st.handle && Served(st, sock, m.tcp[id], m.sockets[m.tcp[id].handle], g, r)
  }

  lemma MovedServes(st: TcpState, sock: Socket, g: Glance, r: nat)
    requires sock.TcpSocket? && Receives(g.chunks, r) && !Refuses(st, sock.phase)
    requires st.connectResp.Some? <==> !st.established
    requires st.fromStackHeld <==> !st.established
    ensures var (st', sock') := Moved(AfterConnect(st, sock.phase), sock, g);
            && Served(st, sock, st', Parted(sock', g), g, r)
            && sock'.phase == Between(st, sock.phase, g, r)
            && st'.established == (st.established || sock.phase == Established)
  {
    hide Received, Forward, ForwardFails, Sent, Taken, Reach;
    SentIs(st, g);
    ReceivedIs(g.chunks, 128, r);
    ForwardIs(st.toApp, g.chunks, r, g.appTakes);
  }

  lemma SentIs(st: TcpState, g: Glance)
    ensures Sent(st, g) == Taken(st.pending, g) <= |st.pending|
    ensures Sent(AfterConnect(st, Established), g) == Sent(st, g)
  {
  }

  lemma ForwardIs(c: Channel, chunks: seq<seq<byte>>, r: nat, takes: nat)
    requires r <= |chunks|
    ensures var f := Reach(c.gone, takes, r);
            && Forward(c, chunks[..r], takes) == Channel(c.got + chunks[..f], c.gone || f < r)
            && (ForwardFails(c, chunks[..r], takes) <==> f < r)
  {
    var f := Reach(c.gone, takes, r);
    assert chunks[..r][..f] == chunks[..f];
  }

  /** The whole effect of a visit on its own entry and socket. */
  lemma VisitServes(n: Net, id: Id, g: Glance, r: nat)
    requires Inv(n) && HasSocket(n, id) && Receives(g.chunks, r)
    ensures Visited(n, Visit(n, id, g), id, g, r)
  {
    hide Inv, Framed, Moved, Served, Between, AfterConnect, Visit;
    var st, sock := n.tcp[id], n.sockets[n.tcp[id].handle];
    EntriesConserve(n);
    if Refuses(st, sock.phase) {
      VisitRefused(n, id, g);
    } else {
      MovedServes(st, sock, g, r);
      VisitMoved(n, id, g);
      SameHandle(st, sock.phase);
    }
  }

  lemma SameHandle(st: TcpState, phase: Phase)
    ensures AfterConnect(st, phase).handle == st.handle
  {
  }

  /** There is always such a number of chunks. */
  lemma {:induction false} ReceivesSome(chunks: seq<seq<byte>>, from: nat) returns (r: nat)
    requires from <= |chunks| && from <= 128 && forall i :: 0 <= i < from ==> chunks[i] != []
    ensures Receives(chunks, r)
    decreases |chunks| - from
  {
    if from == |chunks| || from == 128 || chunks[from] == [] {
      r := from;
    } else {
      r := ReceivesSome(chunks, from + 1);
    }
  }

  // ---- A whole sweep -----------------------------------------------------

  /** Nothing but one entry and its socket, the reply to its request and its queued
      data differs. */
  ghost predicate TouchesOnly(n: Net, m: Net, id: Id, h: Handle) {
    && (forall i :: i != id ==> (i in m.tcp <==> i in n.tcp) && (i in n.tcp ==> m.tcp[i] == n.tcp[i]))
    && (forall k :: k != h ==> (k in m.sockets <==> k in n.sockets) && (k in n.sockets ==> m.sockets[k] == n.sockets[k]))
    && m.udp == n.udp && m.nextId == n.nextId && m.nextPort == n.nextPort && m.allocs == n.allocs
  }

  lemma VisitTouches(n: Net, id: Id, g: Glance)
    requires Inv(n) && HasSocket(n, id)
    ensures TouchesOnly(n, Visit(n, id, g), id, n.tcp[id].handle)
  {
    hide Inv, Framed, Moved, AfterConnect, Visit, Parted;
    var st, sock := n.tcp[id], n.sockets[n.tcp[id].handle];
    if Refuses(st, sock.phase) {
      VisitRefused(n, id, g);
    } else {
      VisitMoved(n, id, g);
      SameHandle(st, sock.phase);
    }
  }

  lemma OwnSockets(n: Net, i: Id, j: Id)
    requires Inv(n) && i in n.tcp && j in n.tcp && i != j
    ensures HasSocket(n, i) && HasSocket(n, j) && n.tcp[i].handle != n.tcp[j].handle
  {
    hide PortsOk, AnsweredOnce, Coherent, Fed;
  }

  /** Visits of other entries leave an entry and its socket alone, and do not bring
      back what is gone. */
  lemma {:induction false} SweepSkips(n: Net, visits: seq<(Id, Glance)>, id: Id, h: Handle)
    requires Inv(n) && Visitable(n, visits)
    requires forall k :: 0 <= k < |visits| ==> visits[k].0 != id
    requires if id in n.tcp then n.tcp[id].handle == h else h !in n.sockets
    ensures var m := Sweep(n, visits);
            && (id in m.tcp <==> id in n.tcp) && (id in n.tcp ==> m.tcp[id] == n.tcp[id])
            && (h in m.sockets <==> h in n.sockets) && (h in n.sockets ==> m.sockets[h] == n.sockets[h])
    decreases |visits|
  {
    hide Inv, Visit;
    if visits != [] {
      var (v, g) := visits[0];
      SweepStep(n, visits);
      EntriesConserve(n);
      VisitTouches(n, v, g);
      if id in n.tcp {
        OwnSockets(n, id, v);
      }
      SweepSkips(Visit(n, v, g), visits[1..], id, h);
    }
  }

  /** A sweep does to every entry what a visit of it alone would do, in whatever
      order the entries come. */
  lemma {:induction false} SweepServes(n: Net, visits: seq<(Id, Glance)>, j: nat, r: nat)
    requires Inv(n) && Visitable(n, visits) && j < |visits|
    requires HasSocket(n, visits[j].0) && Receives(visits[j].1.chunks, r)
    ensures Visited(n, Sweep(n, visits), visits[j].0, visits[j].1, r)
    decreases |visits|
  {
    hide Inv, Visit, Receives, Leaves, Served;
    var (id, g) := visits[j];
    var (v, gv) := visits[0];
    SweepStep(n, visits);
    EntriesConserve(n);
    var m := Visit(n, v, gv);
    if j == 0 {
      VisitServes(n, id, g, r);
      SweepSkips(m, visits[1..], id, n.tcp[id].handle);
    } else {
      OwnSockets(n, id, v);
      VisitTouches(n, v, gv);
      SweepServes(m, visits[1..], j - 1, r);
    }
  }

  /** What leaves during a sweep: of an entry that stays, the socket takes exactly as
      many of the pending bytes as it has room for, when it can send at all, and the
      rest stays pending.  With room for all of them nothing stays pending, and a
      half-closed connection then has its socket closed in that very visit. */
  lemma SweepSends(n: Net, visits: seq<(Id, Glance)>, j: nat)
    requires Inv(n) && Visitable(n, visits) && j < |visits| && HasSocket(n, visits[j].0)
    ensures var (id, g, m) := (visits[j].0, visits[j].1, Sweep(n, visits));
            var st := n.tcp[id];
            var sock := n.sockets[st.handle];
            var k := if !g.canSend then 0 else if g.room < |st.pending| then g.room else |st.pending|;
            id in m.tcp ==>
              && HasSocket(m, id) && m.tcp[id].handle == st.handle
              && m.tcp[id].pending == st.pending[k..]
              && m.sockets[st.handle].accepted == sock.accepted + st.pending[..k]
              && (g.canSend && g.room >= |st.pending| ==>
                    && m.tcp[id].pending == []
                    && (st.halfClosed ==>
                          m.sockets[st.handle].phase in {g.onHalfClose, g.onAppGone, g.onCloseWait}))
  {
    hide Inv, Sweep;
    var r := ReceivesSome(visits[j].1.chunks, 0);
    SweepServes(n, visits, j, r);
  }
}
