/** The state of the connection layer over the userspace TCP/IP stack, and what
    each event makes of it.  The stack's sockets are an environment: they change
    phase freely, accept any prefix of what they are offered and yield any
    chunks.  What the environment does during an event is a parameter of it.
    Some fields only record history: `owner`, `serial`, `accepted`, `taken`,
    `sent` and `received` of a socket, the `got` of a channel, and `allocs`, `queued`, `waiting`
    and `answers`, which says for each request made so far what it was told. */
module Net {
  import opened Wire

  const FIRST_PORT: nat := 49152
  const LAST_PORT: nat := 65000
  const MAX_RECV_CHUNKS: nat := 128

  type Id = nat
  type Handle = nat
  /** A caller waiting on its one-shot reply channel. */
  type Request = nat

  datatype Phase =
    | Closed | Listen | SynSent | SynReceived | Established | FinWait1
    | FinWait2 | CloseWait | Closing | LastAck | TimeWait

  datatype Socket =
    | TcpSocket(owner: Id, port: nat, serial: nat, phase: Phase, accepted: seq<byte>, taken: seq<seq<byte>>)
    | UdpSocket(owner: Id, port: nat, serial: nat, sent: seq<seq<byte>>, received: seq<seq<byte>>)

  /** The channel to the application: what it got, and whether a send to it has
      failed. */
  datatype Channel = Channel(got: seq<seq<byte>>, gone: bool)

  datatype TcpState = TcpState(
    handle: Handle, toApp: Channel, fromStackHeld: bool, connectResp: Option<Request>,
    pending: seq<byte>, established: bool, halfClosed: bool)

  datatype UdpState = UdpState(handle: Handle, toApp: Channel)

  datatype Answer = Connected(id: Id) | Refused | ConnectError | Bound(id: Id) | BindError

  datatype Net = Net(
    tcp: map<Id, TcpState>, udp: map<Id, UdpState>, sockets: map<Handle, Socket>, nextId: Id, nextPort: nat,
    allocs: nat, queued: map<Id, seq<byte>>, waiting: map<Request, Id>, answers: map<Request, seq<Answer>>)

  const INIT: Net := Net(map[], map[], map[], 1, FIRST_PORT, 0, map[], map[], map[])

  function NextPort(port: nat): nat {
    if port >= LAST_PORT then FIRST_PORT else port + 1
  }

  /** The port of allocation number `k`. */
  function PortOf(k: nat): nat {
    if k == 0 then FIRST_PORT else NextPort(PortOf(k - 1))
  }

  lemma {:induction false} PortCycle(k: nat)
    ensures PortOf(k) == 49152 + k % 15849
    ensures 49152 <= PortOf(k) <= 65000
  {
    if k > 0 {
      PortCycle(k - 1);
    }
  }

  /** Two allocations get the same port exactly when their numbers agree modulo
      15849. */
  lemma PortsCoincide(j: nat, k: nat)
    ensures PortOf(j) == PortOf(k) <==> j % 15849 == k % 15849
  {
    PortCycle(j);
    PortCycle(k);
  }

  // ---- Invariant ---------------------------------------------------------

  /** The ids of TCP and UDP entries are apart and below the next one, and every
      live socket belongs to the live entry it was opened for. */
  ghost predicate Coherent(n: Net) {
    && n.tcp.Keys !! n.udp.Keys
    && (forall i :: i in n.tcp || i in n.udp ==> i < n.nextId)
    && (forall h {:trigger HasOwner(n, h)} :: h in n.sockets ==> HasOwner(n, h))
  }

  ghost predicate HasOwner(n: Net, h: Handle)
    requires h in n.sockets
  {
    var i := n.sockets[h].owner;
    if n.sockets[h].TcpSocket? then i in n.tcp && n.tcp[i].handle == h else i in n.udp && n.udp[i].handle == h
  }

  /** What an application got is what was taken from the socket, until a send to
      it fails; then it is a prefix of that. */
  ghost predicate Fed(c: Channel, taken: seq<seq<byte>>) {
    c.got <= taken && (!c.gone ==> c.got == taken)
  }

  /** The entry's socket is its own; the bytes accepted by it and those still pending are the bytes
      queued; the reply channel and the receiver are held exactly until the
      connection is established. */
  ghost predicate EntryOk(id: Id, st: TcpState, sock: Socket, queued: seq<byte>) {
    && sock.TcpSocket? && sock.owner == id
    && sock.accepted + st.pending == queued
    && Fed(st.toApp, sock.taken)
    && (st.connectResp.Some? <==> !st.established)
    && (st.fromStackHeld <==> !st.established)
  }

  ghost predicate Conserved(n: Net) {
    && n.queued.Keys == n.tcp.Keys
    && (forall i :: i in n.tcp ==>
          var h := n.tcp[i].handle; h in n.sockets && EntryOk(i, n.tcp[i], n.sockets[h], n.queued[i]))
    && (forall i :: i in n.udp ==>
          var h := n.udp[i].handle; h in n.sockets && FlowOk(i, n.udp[i], n.sockets[h]))
  }

  ghost predicate FlowOk(id: Id, st: UdpState, sock: Socket) {
    sock.UdpSocket? && sock.owner == id && Fed(st.toApp, sock.received)
  }

  /** A request waits in exactly one live entry until it is answered, and is
      answered once. */
  ghost predicate AnsweredOnce(n: Net) {
    && (forall i :: i in n.tcp && n.tcp[i].connectResp.Some? ==>
          var r := n.tcp[i].connectResp.value; r in n.waiting && n.waiting[r] == i)
    && (forall r {:trigger WaitsInEntry(n, r)} :: r in n.waiting ==> WaitsInEntry(n, r))
    && n.waiting.Keys <= n.answers.Keys
    && (forall r :: r in n.answers ==> |n.answers[r]| == if r in n.waiting then 0 else 1)
  }

  ghost predicate WaitsInEntry(n: Net, r: Request)
    requires r in n.waiting
  {
    n.waiting[r] in n.tcp && n.tcp[n.waiting[r]].connectResp == Some(r)
  }

  /** Every live socket has the port of its own allocation. */
  ghost predicate PortsOk(n: Net) {
    && n.nextPort == PortOf(n.allocs)
    && (forall h :: h in n.sockets ==>
          n.sockets[h].port == PortOf(n.sockets[h].serial) && n.sockets[h].serial < n.allocs)
    && (forall h, k :: h in n.sockets && k in n.sockets && h != k ==> n.sockets[h].serial != n.sockets[k].serial)
  }

  ghost predicate Inv(n: Net) {
    Coherent(n) && Conserved(n) && AnsweredOnce(n) && PortsOk(n)
  }

  // ---- Commands and data -------------------------------------------------

  function Allocated(n: Net, req: Request): Net {
    n.(nextPort := NextPort(n.nextPort), allocs := n.allocs + 1, answers := n.answers[req := []])
  }

  function Reply(n: Net, req: Request, a: Answer): Net
    requires req in n.answers
  {
    n.(answers := n.answers[req := n.answers[req] + [a]])
  }

  function OpenTcp(n: Net, req: Request, connectOk: bool, h: Handle): (m: Net)
    ensures m.nextId == n.nextId + (if connectOk then 1 else 0)
    ensures m.queued == if connectOk then n.queued[n.nextId := []] else n.queued
    ensures m.answers.Keys == n.answers.Keys + {req}
    ensures forall r :: r in m.answers ==>
              m.answers[r] == if r != req then n.answers[r] else if connectOk then [] else [ConnectError]
  {
    var m := Allocated(n, req);
    if !connectOk then Reply(m, req, ConnectError)
    else m.(
         sockets := m.sockets[h := TcpSocket(n.nextId, n.nextPort, n.allocs, SynSent, [], [])],
         tcp := m.tcp[m.nextId := TcpState(h, Channel([], false), true, Some(req), [], false, false)],
         queued := m.queued[m.nextId := []],
         waiting := m.waiting[req := m.nextId],
         nextId := m.nextId + 1)
  }

  function OpenUdp(n: Net, req: Request, bindOk: bool, h: Handle): (m: Net)
    ensures m.nextId == n.nextId + (if bindOk then 1 else 0) && m.queued == n.queued
    ensures m.answers.Keys == n.answers.Keys + {req}
    ensures forall r :: r in m.answers ==>
              m.answers[r] == if r != req then n.answers[r] else [if bindOk then Bound(n.nextId) else BindError]
  {
    var m := Allocated(n, req);
    if !bindOk then Reply(m, req, BindError)
    else Reply(m, req, Bound(m.nextId)).(
         sockets := m.sockets[h := UdpSocket(n.nextId, n.nextPort, n.allocs, [], [])],
         udp := m.udp[m.nextId := UdpState(h, Channel([], false))],
         nextId := m.nextId + 1)
  }

  /** Replaces one entry and its socket, answering the waiting request when told. */
  function Put(n: Net, id: Id, st: TcpState, sock: Socket, queued: seq<byte>, answer: Option<Answer>): Net
    requires id in n.tcp
    requires answer.Some? ==> n.tcp[id].connectResp.Some? && n.tcp[id].connectResp.value in n.answers
  {
    var m := n.(tcp := n.tcp[id := st], sockets := n.sockets[st.handle := sock], queued := n.queued[id := queued]);
    if answer.None? then m
    else var r := n.tcp[id].connectResp.value;
         Reply(m, r, answer.value).(waiting := n.waiting - {r})
  }

  /** Drops an entry and its socket, answering the waiting request when told. */
  function Remove(n: Net, id: Id, answer: Option<Answer>): Net
    requires id in n.tcp
    requires answer.Some? ==> n.tcp[id].connectResp.Some? && n.tcp[id].connectResp.value in n.answers
  {
    var m := n.(tcp := n.tcp - {id}, queued := n.queued - {id}, sockets := n.sockets - {n.tcp[id].handle});
    if answer.None? then m
    else var r := n.tcp[id].connectResp.value;
         Reply(m, r, answer.value).(waiting := n.waiting - {r})
  }

  function PutUdp(n: Net, id: Id, st: UdpState, sock: Socket): Net {
    n.(udp := n.udp[id := st], sockets := n.sockets[st.handle := sock])
  }

  /** Data, half-closes and closes for ids that are gone are ignored. */
  function QueueData(n: Net, id: Id, data: seq<byte>): (m: Net)
    requires Inv(n)
    ensures m.answers == n.answers && m.nextId == n.nextId
    ensures m.queued == if id in n.tcp then n.queued[id := n.queued[id] + data] else n.queued
  {
    if id !in n.tcp then n
    else var st := n.tcp[id];
         Put(n, id, st.(pending := st.pending + data), n.sockets[st.handle], n.queued[id] + data, None)
  }

  function HalfClose(n: Net, id: Id): (m: Net)
    requires Inv(n)
    ensures m.answers == n.answers && m.nextId == n.nextId && m.queued == n.queued
  {
    if id !in n.tcp then n
    else var st := n.tcp[id]; Put(n, id, st.(halfClosed := true), n.sockets[st.handle], n.queued[id], None)
  }

  function SendUdp(n: Net, id: Id, data: seq<byte>, room: bool): (m: Net)
    requires Inv(n)
    ensures m.answers == n.answers && m.nextId == n.nextId && m.queued == n.queued
  {
    if id !in n.udp || !room then n
    else var st := n.udp[id];
         var sock := n.sockets[st.handle];
         PutUdp(n, id, st, sock.(sent := sock.sent + [data]))
  }

  function CloseUdp(n: Net, id: Id): (m: Net)
    ensures m.answers == n.answers && m.nextId == n.nextId && m.queued == n.queued
  {
    if id !in n.udp then n
    else n.(udp := n.udp - {id}, sockets := n.sockets - {n.udp[id].handle})
  }

  /** The stack is polled: TCP sockets move to any phase. */
  function Poll(n: Net, phases: map<Handle, Phase>): (m: Net)
    ensures m.answers == n.answers && m.nextId == n.nextId && m.queued == n.queued
  {
    n.(sockets := map h | h in n.sockets ::
                    if n.sockets[h].TcpSocket? && h in phases then n.sockets[h].(phase := phases[h]) else n.sockets[h])
  }

  // ---- One visit of the TCP sweep ---------------------------------------

  /** What the environment does during one visit: how much the socket takes, what
      it yields, how many chunks the application accepts, and the phase after
      each of the three possible calls of `close`. */
  datatype Glance = Glance(
    canSend: bool, room: nat, chunks: seq<seq<byte>>, appTakes: nat,
    onHalfClose: Phase, onAppGone: Phase, onCloseWait: Phase)

  /** The receive loop stops at an empty chunk or after 128 chunks. */
  function Received(chunks: seq<seq<byte>>, budget: nat): seq<seq<byte>> {
    if chunks == [] || chunks[0] == [] || budget == 0 then [] else [chunks[0]] + Received(chunks[1..], budget - 1)
  }

  /** Forwards chunks until a send fails. */
  function Forward(c: Channel, items: seq<seq<byte>>, takes: nat): Channel {
    var k := if c.gone then 0 else Min(takes, |items|);
    Channel(c.got + items[..k], c.gone || k < |items|)
  }

  predicate ForwardFails(c: Channel, items: seq<seq<byte>>, takes: nat) {
    (if c.gone then 0 else Min(takes, |items|)) < |items|
  }

  predicate Connects(st: TcpState, phase: Phase) {
    !st.established && phase == Established
  }

  predicate Refuses(st: TcpState, phase: Phase) {
    !st.established && phase in {Closed, TimeWait}
  }

  function AfterConnect(st: TcpState, phase: Phase): TcpState {
    if Connects(st, phase) then st.(established := true, connectResp := None, fromStackHeld := false) else st
  }

  function Sent(st: TcpState, g: Glance): (k: nat)
    ensures k <= |st.pending|
  {
    if g.canSend then Min(g.room, |st.pending|) else 0
  }

  predicate HalfCloses(st: TcpState, g: Glance) {
    st.halfClosed && Sent(st, g) == |st.pending|
  }

  /** Entry and socket after sending, the half-close, receiving and forwarding. */
  function Moved(st: TcpState, sock: Socket, g: Glance): (r: (TcpState, Socket))
    requires sock.TcpSocket?
    ensures r.0 == st.(pending := r.0.pending, toApp := r.0.toApp)
    ensures r.1.TcpSocket? && r.1 == sock.(accepted := r.1.accepted, taken := r.1.taken, phase := r.1.phase)
  {
    var sent := Sent(st, g);
    var got := Received(g.chunks, MAX_RECV_CHUNKS);
    var phase1 := if HalfCloses(st, g) then g.onHalfClose else sock.phase;
    var phase2 := if ForwardFails(st.toApp, got, g.appTakes) then g.onAppGone else phase1;
    (st.(pending := st.pending[sent..], toApp := Forward(st.toApp, got, g.appTakes)),
     sock.(accepted := sock.accepted + st.pending[..sent], taken := sock.taken + got, phase := phase2))
  }

  /** The socket is closed when the peer has closed its side. */
  function Parted(sock: Socket, g: Glance): Socket
    requires sock.TcpSocket?
  {
    if sock.phase == CloseWait then sock.(phase := g.onCloseWait) else sock
  }

  /** What `Put` and `Remove` leave alone; answers are only ever added. */
  ghost predicate Framed(n: Net, m: Net, id: Id) {
    Kept(n, m) && forall i :: i in n.tcp && i != id ==> i in m.tcp && m.tcp[i] == n.tcp[i]
  }

  ghost predicate Kept(n: Net, m: Net) {
    && m.nextId == n.nextId
    && (forall i :: i in m.queued ==> i in n.queued && m.queued[i] == n.queued[i])
    && m.answers.Keys == n.answers.Keys
    && (forall r :: r in n.answers ==> n.answers[r] <= m.answers[r])
  }

  lemma PutFrame(n: Net, id: Id, st: TcpState, sock: Socket, answer: Option<Answer>)
    requires Inv(n) && id in n.tcp && (answer.Some? ==> n.tcp[id].connectResp.Some?)
    ensures var m := Put(n, id, st, sock, n.queued[id], answer); Framed(n, m, id) && id in m.tcp && m.tcp[id] == st
  {
    hide Coherent, PortsOk, EntryOk, FlowOk;
  }

  lemma RemoveFrame(n: Net, m: Net, id: Id, answer: Option<Answer>)
    requires Framed(n, m, id) && id in m.tcp
    requires answer.Some? ==> m.tcp[id].connectResp.Some? && m.tcp[id].connectResp.value in m.answers
    ensures Framed(n, Remove(m, id, answer), id)
  {
  }

  /** One turn of the loop body of `service_tcp`: it keeps the invariant, touches
      no other entry and changes no queued data. */
  function Visit(n: Net, id: Id, g: Glance): (m: Net)
    requires Inv(n) && id in n.tcp
    ensures Inv(m) && Framed(n, m, id)
  {
    hide Coherent, PortsOk, Moved, Fed, Put, Remove, Framed;
    var st, sock := n.tcp[id], n.sockets[n.tcp[id].handle];
    if Refuses(st, sock.phase) then
      RemoveKeeps(n, id, Some(Refused));
      FramedSelf(n, id);
      RemoveFrame(n, n, id, Some(Refused));
      Remove(n, id, Some(Refused))
    else
      var answer := if Connects(st, sock.phase) then Some(Connected(id)) else None;
      MovedOk(id, AfterConnect(st, sock.phase), sock, g, n.queued[id]);
      var (st', sock') := Moved(AfterConnect(st, sock.phase), sock, g);
      var sock'' := Parted(sock', g);
      PutKeeps(n, id, st', sock'', n.queued[id], answer);
      PutFrame(n, id, st', sock'', answer);
      var m := Put(n, id, st', sock'', n.queued[id], answer);
      if sock'.phase == Closed && st'.established then
        RemoveKeeps(m, id, None);
        RemoveFrame(n, m, id, None);
        Remove(m, id, None)
      else m
  }

  /** Every lookup the sweep makes for a live entry succeeds. */
  lemma VisitLookups(n: Net, id: Id)
    requires Inv(n) && id in n.tcp
    ensures n.tcp[id].handle in n.sockets && n.sockets[n.tcp[id].handle].TcpSocket? && id in n.queued
    ensures n.tcp[id].connectResp.Some? <==> !n.tcp[id].established
    ensures n.tcp[id].connectResp.Some? ==> n.tcp[id].connectResp.value in n.answers
  {
    hide Coherent, PortsOk, Fed;
  }

  lemma VisitRefused(n: Net, id: Id, g: Glance)
    requires Inv(n) && id in n.tcp && n.tcp[id].handle in n.sockets && n.sockets[n.tcp[id].handle].TcpSocket?
    requires Refuses(n.tcp[id], n.sockets[n.tcp[id].handle].phase)
    ensures n.tcp[id].connectResp.Some? && n.tcp[id].connectResp.value in n.answers
    ensures Visit(n, id, g) == Remove(n, id, Some(Refused))
  {
    hide Inv, Moved, Framed, Put, Remove;
    VisitLookups(n, id);
  }

  lemma VisitMoved(n: Net, id: Id, g: Glance)
    requires Inv(n) && id in n.tcp && n.tcp[id].handle in n.sockets && n.sockets[n.tcp[id].handle].TcpSocket?
    requires !Refuses(n.tcp[id], n.sockets[n.tcp[id].handle].phase)
    ensures var st, sock := n.tcp[id], n.sockets[n.tcp[id].handle];
            var answer := if Connects(st, sock.phase) then Some(Connected(id)) else None;
            var (st', sock') := Moved(AfterConnect(st, sock.phase), sock, g);
            && id in n.queued
            && (answer.Some? ==> st.connectResp.Some? && st.connectResp.value in n.answers)
            && var m := Put(n, id, st', Parted(sock', g), n.queued[id], answer);
               && id in m.tcp
               && Visit(n, id, g) == if sock'.phase == Closed && st'.established then Remove(m, id, None) else m
  {
    hide Inv, Moved, Framed, Remove;
    VisitLookups(n, id);
  }

  lemma FramedSelf(n: Net, id: Id)
    ensures Framed(n, n, id)
  {
  }

  /** The visits are of distinct live ids. */
  predicate Visitable(n: Net, visits: seq<(Id, Glance)>) {
    && (forall k :: 0 <= k < |visits| ==> visits[k].0 in n.tcp)
    && (forall j, k :: 0 <= j < k < |visits| ==> visits[j].0 != visits[k].0)
  }

  /** The sweep visits the ids it found at its start, in the given order. */
  function Sweep(n: Net, visits: seq<(Id, Glance)>): (m: Net)
    requires Inv(n) && Visitable(n, visits)
    ensures Inv(m) && Kept(n, m)
    decreases |visits|
  {
    hide Visit, Inv;
    if visits == [] then n
    else
      SweepStep(n, visits);
      Sweep(Visit(n, visits[0].0, visits[0].1), visits[1..])
  }

  lemma SweepStep(n: Net, visits: seq<(Id, Glance)>)
    requires Inv(n) && Visitable(n, visits) && visits != []
    ensures visits[0].0 in n.tcp
    ensures var m := Visit(n, visits[0].0, visits[0].1); Inv(m) && Visitable(m, visits[1..]) && Kept(n, m)
  {
    hide Visit, Inv;
    assert Framed(n, Visit(n, visits[0].0, visits[0].1), visits[0].0);
  }

  // ---- The UDP sweep ------------------------------------------------------

  function VisitUdp(n: Net, id: Id, chunks: seq<seq<byte>>, appTakes: nat): (m: Net)
    requires Inv(n) && id in n.udp
    ensures m.answers == n.answers && m.nextId == n.nextId && m.queued == n.queued
  {
    var st := n.udp[id];
    var sock := n.sockets[st.handle];
    var got := chunks[..Min(|chunks|, MAX_RECV_CHUNKS)];
    PutUdp(n, id, st.(toApp := Forward(st.toApp, got, appTakes)),
           sock.(received := sock.received + got))
  }

  // ---- Preservation -------------------------------------------------------

  /** The entry `id`, its socket and what was queued for it may become these. */
  ghost predicate Puttable(n: Net, id: Id, st: TcpState, sock: Socket, queued: seq<byte>, answer: Option<Answer>) {
    && id in n.tcp && st.handle == n.tcp[id].handle && st.handle in n.sockets
    && (var was := n.sockets[st.handle]; sock.port == was.port && sock.serial == was.serial)
    && EntryOk(id, st, sock, queued)
    && if answer.None? then st.connectResp == n.tcp[id].connectResp
       else st.connectResp == None && n.tcp[id].connectResp.Some?
  }

  lemma PutCoherent(n: Net, id: Id, st: TcpState, sock: Socket, queued: seq<byte>, answer: Option<Answer>)
    requires Inv(n) && Puttable(n, id, st, sock, queued, answer)
    ensures Coherent(Put(n, id, st, sock, queued, answer))
  {
    hide PortsOk, Fed;
    var m := Put(n, id, st, sock, queued, answer);
    forall h | h in m.sockets
      ensures HasOwner(m, h)
    {
      assert HasOwner(n, h);
    }
  }

  lemma PutConserved(n: Net, id: Id, st: TcpState, sock: Socket, queued: seq<byte>, answer: Option<Answer>)
    requires Inv(n) && Puttable(n, id, st, sock, queued, answer)
    ensures Conserved(Put(n, id, st, sock, queued, answer))
  {
    hide PortsOk, Coherent, Fed;
  }

  lemma PutAnswered(n: Net, id: Id, st: TcpState, sock: Socket, queued: seq<byte>, answer: Option<Answer>)
    requires Inv(n) && Puttable(n, id, st, sock, queued, answer)
    ensures AnsweredOnce(Put(n, id, st, sock, queued, answer))
  {
    hide PortsOk, Conserved, Coherent;
    var m := Put(n, id, st, sock, queued, answer);
    forall r | r in m.waiting
      ensures WaitsInEntry(m, r)
    {
      if r in n.waiting { assert WaitsInEntry(n, r); }
    }
  }

  lemma PutKeeps(n: Net, id: Id, st: TcpState, sock: Socket, queued: seq<byte>, answer: Option<Answer>)
    requires Inv(n) && Puttable(n, id, st, sock, queued, answer)
    ensures Inv(Put(n, id, st, sock, queued, answer))
  {
    hide Conserved, Coherent, AnsweredOnce, Fed;
    PutCoherent(n, id, st, sock, queued, answer);
    PutConserved(n, id, st, sock, queued, answer);
    PutAnswered(n, id, st, sock, queued, answer);
  }

  lemma RemoveConserved(n: Net, id: Id, answer: Option<Answer>)
    requires Inv(n) && id in n.tcp && (answer.Some? <==> n.tcp[id].connectResp.Some?)
    ensures Conserved(Remove(n, id, answer))
  {
    hide PortsOk, Coherent, Fed;
  }

  lemma RemoveCoherent(n: Net, id: Id, answer: Option<Answer>)
    requires Inv(n) && id in n.tcp && (answer.Some? <==> n.tcp[id].connectResp.Some?)
    ensures Coherent(Remove(n, id, answer))
  {
    hide PortsOk, Fed;
    var m := Remove(n, id, answer);
    forall h | h in m.sockets
      ensures HasOwner(m, h)
    {
      assert HasOwner(n, h);
    }
  }

  lemma RemoveAnswered(n: Net, id: Id, answer: Option<Answer>)
    requires Inv(n) && id in n.tcp && (answer.Some? <==> n.tcp[id].connectResp.Some?)
    ensures AnsweredOnce(Remove(n, id, answer))
  {
    hide PortsOk, Conserved, Coherent;
    var m := Remove(n, id, answer);
    forall r | r in m.waiting
      ensures WaitsInEntry(m, r)
    {
      if r in n.waiting { assert WaitsInEntry(n, r); }
    }
  }

  lemma RemoveKeeps(n: Net, id: Id, answer: Option<Answer>)
    requires Inv(n) && id in n.tcp && (answer.Some? <==> n.tcp[id].connectResp.Some?)
    ensures Inv(Remove(n, id, answer))
  {
    hide Conserved, Coherent, AnsweredOnce;
    RemoveCoherent(n, id, answer);
    RemoveConserved(n, id, answer);
    RemoveAnswered(n, id, answer);
  }

  lemma SameRequests(n: Net, m: Net)
    requires AnsweredOnce(n) && m.tcp == n.tcp && m.waiting == n.waiting && m.answers == n.answers
    ensures AnsweredOnce(m)
  {
    forall r | r in m.waiting
      ensures WaitsInEntry(m, r)
    {
      assert WaitsInEntry(n, r);
    }
  }

  lemma PutUdpConserved(n: Net, id: Id, st: UdpState, sock: Socket)
    requires Inv(n) && id in n.udp && st.handle == n.udp[id].handle && FlowOk(id, st, sock)
    ensures Conserved(PutUdp(n, id, st, sock))
  {
    hide PortsOk, Coherent, AnsweredOnce, Fed;
  }

  lemma PutUdpCoherent(n: Net, id: Id, st: UdpState, sock: Socket)
    requires Inv(n) && id in n.udp && st.handle == n.udp[id].handle && FlowOk(id, st, sock)
    ensures Coherent(PutUdp(n, id, st, sock))
  {
    hide PortsOk, Fed;
    var m := PutUdp(n, id, st, sock);
    forall h | h in m.sockets
      ensures HasOwner(m, h)
    {
      assert HasOwner(n, h);
    }
  }

  lemma PutUdpKeeps(n: Net, id: Id, st: UdpState, sock: Socket)
    requires Inv(n) && id in n.udp && st.handle == n.udp[id].handle && FlowOk(id, st, sock)
    requires st.handle in n.sockets
    requires sock.port == n.sockets[st.handle].port && sock.serial == n.sockets[st.handle].serial
    ensures Inv(PutUdp(n, id, st, sock))
  {
    hide Conserved, Coherent, AnsweredOnce, PortOf;
    PutUdpCoherent(n, id, st, sock);
    PutUdpConserved(n, id, st, sock);
    SameRequests(n, PutUdp(n, id, st, sock));
  }

  lemma CloseUdpConserved(n: Net, id: Id)
    requires Inv(n)
    ensures Conserved(CloseUdp(n, id))
  {
    hide PortsOk, Coherent, AnsweredOnce, Fed;
  }

  lemma CloseUdpCoherent(n: Net, id: Id)
    requires Inv(n)
    ensures Coherent(CloseUdp(n, id))
  {
    hide PortsOk, Fed;
    var m := CloseUdp(n, id);
    forall h | h in m.sockets
      ensures HasOwner(m, h)
    {
      assert HasOwner(n, h);
    }
  }

  lemma CloseUdpKeeps(n: Net, id: Id)
    requires Inv(n)
    ensures Inv(CloseUdp(n, id))
  {
    hide Conserved, Coherent, AnsweredOnce, PortOf;
    CloseUdpCoherent(n, id);
    CloseUdpConserved(n, id);
    SameRequests(n, CloseUdp(n, id));
  }

  lemma OpenTcpConserved(n: Net, req: Request, connectOk: bool, h: Handle)
    requires Inv(n) && req !in n.answers && h !in n.sockets
    ensures Conserved(OpenTcp(n, req, connectOk, h))
  {
    hide PortsOk, AnsweredOnce;
  }

  lemma OpenTcpCoherent(n: Net, req: Request, connectOk: bool, h0: Handle)
    requires Coherent(n) && h0 !in n.sockets
    ensures Coherent(OpenTcp(n, req, connectOk, h0))
  {
    var m := OpenTcp(n, req, connectOk, h0);
    forall h | h in m.sockets
      ensures HasOwner(m, h)
    {
      if h in n.sockets { assert HasOwner(n, h); }
    }
  }

  lemma FreshId(n: Net)
    requires Coherent(n)
    ensures n.nextId !in n.tcp && n.nextId !in n.udp
  {
  }

  lemma OpenTcpAnswered(n: Net, req: Request, connectOk: bool, h: Handle)
    requires AnsweredOnce(n) && req !in n.answers && n.nextId !in n.tcp
    ensures AnsweredOnce(OpenTcp(n, req, connectOk, h))
  {
    var m := OpenTcp(n, req, connectOk, h);
    forall r | r in m.waiting
      ensures WaitsInEntry(m, r)
    {
      if r in n.waiting { assert WaitsInEntry(n, r); }
    }
  }

  lemma OpenPorts(n: Net, m: Net, h: Handle)
    requires PortsOk(n) && h !in n.sockets
    requires m.nextPort == NextPort(n.nextPort) && m.allocs == n.allocs + 1
    requires m.sockets.Keys <= n.sockets.Keys + {h}
    requires forall k :: k in n.sockets ==> k in m.sockets && m.sockets[k] == n.sockets[k]
    requires h in m.sockets ==> m.sockets[h].port == n.nextPort && m.sockets[h].serial == n.allocs
    ensures PortsOk(m)
  {
  }

  lemma OpenTcpKeeps(n: Net, req: Request, connectOk: bool, h: Handle)
    requires Inv(n) && req !in n.answers && h !in n.sockets
    ensures Inv(OpenTcp(n, req, connectOk, h))
  {
    hide Conserved, Coherent, AnsweredOnce, PortsOk, OpenTcp;
    OpenTcpCoherent(n, req, connectOk, h);
    OpenTcpConserved(n, req, connectOk, h);
    FreshId(n);
    OpenTcpAnswered(n, req, connectOk, h);
    OpenTcpPorts(n, req, connectOk, h);
  }

  lemma OpenTcpPorts(n: Net, req: Request, connectOk: bool, h: Handle)
    requires PortsOk(n) && h !in n.sockets
    ensures PortsOk(OpenTcp(n, req, connectOk, h))
  {
    hide PortsOk;
    OpenPorts(n, OpenTcp(n, req, connectOk, h), h);
  }

  lemma OpenUdpConserved(n: Net, req: Request, bindOk: bool, h: Handle)
    requires Inv(n) && req !in n.answers && h !in n.sockets
    ensures Conserved(OpenUdp(n, req, bindOk, h))
  {
    hide PortsOk, AnsweredOnce;
  }

  lemma OpenUdpCoherent(n: Net, req: Request, bindOk: bool, h0: Handle)
    requires Coherent(n) && h0 !in n.sockets
    ensures Coherent(OpenUdp(n, req, bindOk, h0))
  {
    var m := OpenUdp(n, req, bindOk, h0);
    forall h | h in m.sockets
      ensures HasOwner(m, h)
    {
      if h in n.sockets { assert HasOwner(n, h); }
    }
  }

  lemma OpenUdpAnswered(n: Net, req: Request, bindOk: bool, h: Handle)
    requires Inv(n) && req !in n.answers && h !in n.sockets
    ensures AnsweredOnce(OpenUdp(n, req, bindOk, h))
  {
    hide PortsOk, Conserved, Coherent;
    var m := OpenUdp(n, req, bindOk, h);
    forall r | r in m.waiting
      ensures WaitsInEntry(m, r)
    {
      if r in n.waiting { assert WaitsInEntry(n, r); }
    }
  }

  lemma OpenUdpKeeps(n: Net, req: Request, bindOk: bool, h: Handle)
    requires Inv(n) && req !in n.answers && h !in n.sockets
    ensures Inv(OpenUdp(n, req, bindOk, h))
  {
    hide Conserved, Coherent, AnsweredOnce, PortsOk;
    OpenUdpCoherent(n, req, bindOk, h);
    OpenUdpConserved(n, req, bindOk, h);
    OpenUdpAnswered(n, req, bindOk, h);
    OpenPorts(n, OpenUdp(n, req, bindOk, h), h);
  }

  lemma DataKeeps(n: Net, id: Id, data: seq<byte>)
    requires Inv(n)
    ensures Inv(QueueData(n, id, data)) && Inv(HalfClose(n, id))
  {
    hide PortsOk, AnsweredOnce, Put;
    if id in n.tcp {
      var st := n.tcp[id];
      var sock := n.sockets[st.handle];
      assert sock.accepted + (st.pending + data) == sock.accepted + st.pending + data;
      PutKeeps(n, id, st.(pending := st.pending + data), sock, n.queued[id] + data, None);
      PutKeeps(n, id, st.(halfClosed := true), sock, n.queued[id], None);
    }
  }

  lemma SendUdpKeeps(n: Net, id: Id, data: seq<byte>, room: bool)
    requires Inv(n)
    ensures Inv(SendUdp(n, id, data, room))
  {
    hide PortsOk, AnsweredOnce, PutUdp;
    if id in n.udp {
      var st := n.udp[id];
      var sock := n.sockets[st.handle];
      PutUdpKeeps(n, id, st, sock.(sent := sock.sent + [data]));
    }
  }

  lemma VisitUdpKeeps(n: Net, id: Id, chunks: seq<seq<byte>>, appTakes: nat)
    requires Inv(n) && id in n.udp
    ensures Inv(VisitUdp(n, id, chunks, appTakes))
  {
    hide PortsOk, AnsweredOnce, PutUdp;
    var st := n.udp[id];
    var sock := n.sockets[st.handle];
    var got := chunks[..Min(|chunks|, MAX_RECV_CHUNKS)];
    ForwardFed(st.toApp, sock.received, got, appTakes);
    PutUdpKeeps(n, id, st.(toApp := Forward(st.toApp, got, appTakes)),
                sock.(received := sock.received + got));
  }

  lemma ForwardFed(c: Channel, taken: seq<seq<byte>>, items: seq<seq<byte>>, takes: nat)
    requires Fed(c, taken)
    ensures Fed(Forward(c, items, takes), taken + items)
  {
  }

  lemma PollConserved(n: Net, phases: map<Handle, Phase>)
    requires Inv(n)
    ensures Conserved(Poll(n, phases))
  {
    hide PortsOk, Coherent, AnsweredOnce, Fed;
  }

  lemma PollCoherent(n: Net, phases: map<Handle, Phase>)
    requires Inv(n)
    ensures Coherent(Poll(n, phases))
  {
    hide PortsOk, Fed;
    var m := Poll(n, phases);
    forall h | h in m.sockets
      ensures HasOwner(m, h)
    {
      assert HasOwner(n, h);
    }
  }

  lemma PollKeeps(n: Net, phases: map<Handle, Phase>)
    requires Inv(n)
    ensures Inv(Poll(n, phases))
  {
    hide Conserved, Coherent, AnsweredOnce, PortOf;
    PollCoherent(n, phases);
    PollConserved(n, phases);
    SameRequests(n, Poll(n, phases));
  }

  lemma MovedOk(id: Id, st: TcpState, sock: Socket, g: Glance, queued: seq<byte>)
    requires EntryOk(id, st, sock, queued)
    ensures var (st', sock') := Moved(st, sock, g);
            EntryOk(id, st', sock', queued)
  {
    hide Fed, Forward;
    var sent := Sent(st, g);
    assert st.pending[..sent] + st.pending[sent..] == st.pending;
    assert sock.accepted + st.pending[..sent] + st.pending[sent..] == sock.accepted + st.pending;
    ForwardFed(st.toApp, sock.taken, Received(g.chunks, MAX_RECV_CHUNKS), g.appTakes);
  }
}
