/** Runs of the connection layer: any sequence of events the outside world can
    cause, from the empty stack on. */
module NetRuns {
  import opened Wire
  import opened Net

  datatype Event =
    | EvOpenTcp(req: Request, connectOk: bool, handle: Handle)
    | EvOpenUdp(req: Request, bindOk: bool, handle: Handle)
    | EvData(id: Id, data: seq<byte>)
    | EvHalfClose(id: Id)
    | EvSendUdp(id: Id, packet: seq<byte>, room: bool)
    | EvCloseUdp(id: Id)
    | EvPoll(phases: map<Handle, Phase>)
    | EvSweepTcp(visits: seq<(Id, Glance)>)
    | EvVisitUdp(id: Id, chunks: seq<seq<byte>>, appTakes: nat)

  /** A request is new; the socket set hands out a free handle, possibly one that
      was freed before; applications only know ids that were given out; a sweep
      visits every live TCP entry once, in any order. */
  ghost predicate Possible(n: Net, e: Event) {
    match e
    case EvOpenTcp(req, _, h) => req !in n.answers && h !in n.sockets
    case EvOpenUdp(req, _, h) => req !in n.answers && h !in n.sockets
    case EvData(id, _) => id < n.nextId
    case EvSweepTcp(visits) => Visitable(n, visits) && forall i :: i in n.tcp ==> exists k :: 0 <= k < |visits| && visits[k].0 == i
    case EvVisitUdp(id, _, _) => id in n.udp
    case _ => true
  }

  ghost function Step(n: Net, e: Event): (m: Net)
    requires Inv(n) && Possible(n, e)
    ensures Inv(m)
  {
    hide Inv, OpenTcp, OpenUdp, QueueData, HalfClose, SendUdp, CloseUdp, Poll, Sweep, VisitUdp;
    match e
    case EvOpenTcp(req, ok, h) => OpenTcpKeeps(n, req, ok, h); OpenTcp(n, req, ok, h)
    case EvOpenUdp(req, ok, h) => OpenUdpKeeps(n, req, ok, h); OpenUdp(n, req, ok, h)
    case EvData(id, data) => DataKeeps(n, id, data); QueueData(n, id, data)
    case EvHalfClose(id) => DataKeeps(n, id, []); HalfClose(n, id)
    case EvSendUdp(id, data, room) => SendUdpKeeps(n, id, data, room); SendUdp(n, id, data, room)
    case EvCloseUdp(id) => CloseUdpKeeps(n, id); CloseUdp(n, id)
    case EvPoll(phases) => PollKeeps(n, phases); Poll(n, phases)
    case EvSweepTcp(visits) => Sweep(n, visits)
    case EvVisitUdp(id, chunks, takes) => VisitUdpKeeps(n, id, chunks, takes); VisitUdp(n, id, chunks, takes)
  }

  lemma InitInv()
    ensures Inv(INIT)
  {
  }

  /** The state after the events, if they can happen in that order. */
  ghost function Run(es: seq<Event>): (r: Option<Net>)
    ensures r.Some? ==> Inv(r.value)
  {
    hide Inv, Possible, Step;
    if es == [] then InitInv(); Some(INIT)
    else
      var last := es[|es| - 1];
      match Run(es[..|es| - 1])
      case None => None
      case Some(n) => if Possible(n, last) then Some(Step(n, last)) else None
  }

  /** In every reachable state each id owns a live socket of its kind, no two ids
      share one even when freed handles are reused, every live socket is owned,
      and the two kinds of ids are apart and below the next one. */
  lemma HandlesCoherent(es: seq<Event>)
    requires Run(es).Some?
    ensures var n := Run(es).value;
            && (forall i :: i in n.tcp ==> n.tcp[i].handle in n.sockets && n.sockets[n.tcp[i].handle].TcpSocket?)
            && (forall i :: i in n.udp ==> n.udp[i].handle in n.sockets && n.sockets[n.udp[i].handle].UdpSocket?)
            && (forall i, j :: i in n.tcp && j in n.tcp && i != j ==> n.tcp[i].handle != n.tcp[j].handle)
            && (forall i, j :: i in n.udp && j in n.udp && i != j ==> n.udp[i].handle != n.udp[j].handle)
            && (forall i, j :: i in n.tcp && j in n.udp ==> i != j && n.tcp[i].handle != n.udp[j].handle)
            && (forall h :: h in n.sockets ==>
                  (exists i :: i in n.tcp && n.tcp[i].handle == h) || (exists i :: i in n.udp && n.udp[i].handle == h))
            && (forall i :: i in n.tcp || i in n.udp ==> i < n.nextId)
  {
    hide Run, PortsOk, AnsweredOnce, Fed;
    var n := Run(es).value;
    forall h | h in n.sockets
      ensures (exists i :: i in n.tcp && n.tcp[i].handle == h) || (exists i :: i in n.udp && n.udp[i].handle == h)
    {
      assert HasOwner(n, h);
    }
  }

  /** In every reachable state the ports of live sockets are in range, and two of
      them coincide exactly when the numbers of their allocations agree modulo
      15849. */
  lemma LivePorts(es: seq<Event>, h: Handle, k: Handle)
    requires Run(es).Some? && h in Run(es).value.sockets && k in Run(es).value.sockets
    ensures var (a, b) := (Run(es).value.sockets[h], Run(es).value.sockets[k]);
            && 49152 <= a.port <= 65000
            && (h != k ==> a.serial != b.serial)
            && (a.port == b.port <==> a.serial % 15849 == b.serial % 15849)
  {
    hide Run, Coherent, Conserved, AnsweredOnce, PortOf;
    var n := Run(es).value;
    PortCycle(n.sockets[h].serial);
    PortsCoincide(n.sockets[h].serial, n.sockets[k].serial);
  }

  /** All data handed over for the id, in order. */
  function DataFor(es: seq<Event>, id: Id): seq<byte> {
    if es == [] then []
    else
      var last := es[|es| - 1];
      DataFor(es[..|es| - 1], id) + if last.EvData? && last.id == id then last.data else []
  }

  /** For every live TCP entry of every reachable state, the bytes its socket
      accepted followed by those pending are all the data queued for the id. */
  lemma {:induction false} BytesConserved(es: seq<Event>)
    requires Run(es).Some?
    ensures var n := Run(es).value;
            && (forall i :: i in n.tcp ==>
                  var h := n.tcp[i].handle;
                  h in n.sockets && n.sockets[h].TcpSocket? && n.sockets[h].accepted + n.tcp[i].pending == DataFor(es, i))
            && (forall i: Id :: i >= n.nextId ==> DataFor(es, i) == [])
  {
    var n := Run(es).value;
    QueuedIsData(es);
    EntriesConserve(n);
  }

  lemma EntriesConserve(n: Net)
    requires Inv(n)
    ensures n.queued.Keys == n.tcp.Keys && AnsweredOnce(n)
    ensures forall i :: i in n.tcp || i in n.udp ==> i < n.nextId
    ensures forall i :: i in n.tcp ==>
              var h := n.tcp[i].handle;
              && i in n.queued && h in n.sockets && n.sockets[h].TcpSocket?
              && n.sockets[h].accepted + n.tcp[i].pending == n.queued[i]
              && (n.tcp[i].connectResp.Some? <==> !n.tcp[i].established)
              && (n.tcp[i].fromStackHeld <==> !n.tcp[i].established)
  {
    hide PortsOk, HasOwner, AnsweredOnce, Fed;
  }

  lemma {:induction false} QueuedIsData(es: seq<Event>)
    requires Run(es).Some?
    ensures var n := Run(es).value;
            && n.queued.Keys == n.tcp.Keys
            && (forall i :: i in n.queued ==> n.queued[i] == DataFor(es, i))
            && (forall i: Id :: i >= n.nextId ==> DataFor(es, i) == [])
  {
    if es != [] {
      var before, last := es[..|es| - 1], es[|es| - 1];
      QueuedIsData(before);
      StepQueued(Run(before).value, last);
      assert Conserved(Run(es).value);
    }
  }

  lemma IdsKnown(n: Net)
    requires Inv(n)
    ensures n.nextId !in n.queued && forall i :: i in n.tcp <==> i in n.queued
  {
    hide PortsOk, HasOwner, AnsweredOnce, EntryOk, FlowOk;
  }

  /** What one event does to the queued data and the next id. */
  ghost predicate QueuedBy(n: Net, m: Net, e: Event) {
    && m.nextId >= n.nextId
    && (forall i :: i in m.queued ==>
          if i in n.queued then m.queued[i] == if e.EvData? && e.id == i then n.queued[i] + e.data else n.queued[i]
          else n.nextId <= i < m.nextId && m.queued[i] == [])
  }

  lemma StepQueued(n: Net, e: Event)
    requires Inv(n) && Possible(n, e)
    ensures QueuedBy(n, Step(n, e), e)
  {
    hide Inv, OpenTcp, OpenUdp, QueueData, HalfClose, SendUdp, CloseUdp, Poll, VisitUdp, Sweep, Possible;
    IdsKnown(n);
  }

  // ---- Answers to open requests ------------------------------------------

  /** The requests made in the run. */
  function Requests(es: seq<Event>): set<Request> {
    if es == [] then {}
    else
      var last := es[|es| - 1];
      Requests(es[..|es| - 1]) + if last.EvOpenTcp? || last.EvOpenUdp? then {last.req} else {}
  }

  /** An event never takes an answer back. */
  lemma StepAnswers(n: Net, e: Event)
    requires Inv(n) && Possible(n, e)
    ensures var m := Step(n, e);
            && m.answers.Keys == n.answers.Keys + (if e.EvOpenTcp? || e.EvOpenUdp? then {e.req} else {})
            && (forall r :: r in n.answers ==> n.answers[r] <= m.answers[r])
  {
    hide Inv, OpenTcp, OpenUdp, QueueData, HalfClose, SendUdp, CloseUdp, Poll, VisitUdp, Sweep;
  }

  /** In every reachable state every request made so far has been answered once,
      or not at all while one live entry still holds its reply channel; an entry
      holds that channel and the receiver exactly until it is established. */
  lemma {:induction false} AnsweredExactlyOnce(es: seq<Event>)
    requires Run(es).Some?
    ensures var n := Run(es).value;
            && n.answers.Keys == Requests(es)
            && (forall r :: r in Requests(es) ==>
                  |n.answers[r]| == if exists i :: i in n.tcp && n.tcp[i].connectResp == Some(r) then 0 else 1)
            && (forall i :: i in n.tcp ==>
                  && (n.tcp[i].connectResp.Some? <==> !n.tcp[i].established)
                  && (n.tcp[i].fromStackHeld <==> !n.tcp[i].established))
  {
    var n := Run(es).value;
    RequestsKnown(es);
    EntriesConserve(n);
    hide Run, Inv;
    forall r | r in n.answers
      ensures |n.answers[r]| == if exists i :: i in n.tcp && n.tcp[i].connectResp == Some(r) then 0 else 1
    {
      if r in n.waiting {
        assert WaitsInEntry(n, r);
      }
    }
  }

  lemma {:induction false} RequestsKnown(es: seq<Event>)
    requires Run(es).Some?
    ensures Run(es).value.answers.Keys == Requests(es)
  {
    hide Inv, Step, Possible;
    if es != [] {
      var before := es[..|es| - 1];
      RequestsKnown(before);
      StepAnswers(Run(before).value, es[|es| - 1]);
    }
  }

  /** What a visit tells the waiting request: the socket is taken for connected
      exactly when the visit sees it in the state Established, and for refused
      exactly when it sees Closed or TimeWait; the refused entry is gone. */
  lemma VisitAnswers(n: Net, id: Id, g: Glance)
    requires Inv(n) && id in n.tcp && n.tcp[id].connectResp.Some?
    requires n.tcp[id].handle in n.sockets && n.sockets[n.tcp[id].handle].TcpSocket?
    ensures var r, phase := n.tcp[id].connectResp.value, n.sockets[n.tcp[id].handle].phase;
            var m := Visit(n, id, g);
            && r in m.answers
            && m.answers[r] == (if phase == Established then [Connected(id)]
                                else if phase in {Closed, TimeWait} then [Refused] else [])
            && (phase in {Closed, TimeWait} ==> id !in m.tcp)
  {
    hide PortsOk, Coherent, Conserved, Moved, AnsweredOnce, Framed, Inv, Puttable;
    EntriesConserve(n);
    WaitingUnanswered(n, id);
  }

  lemma WaitingUnanswered(n: Net, id: Id)
    requires Inv(n) && id in n.tcp && n.tcp[id].connectResp.Some?
    ensures n.tcp[id].connectResp.value in n.answers && n.answers[n.tcp[id].connectResp.value] == []
  {
    hide PortsOk, Coherent, Conserved;
  }

  // ---- Closing ------------------------------------------------------------

  /** When the half-close branch closes the socket, every byte queued so far has
      been accepted by it. */
  lemma HalfCloseIsClean(n: Net, id: Id, g: Glance)
    requires Inv(n) && id in n.tcp && n.tcp[id].handle in n.sockets && n.sockets[n.tcp[id].handle].TcpSocket?
    requires HalfCloses(n.tcp[id], g)
    ensures var sock := n.sockets[n.tcp[id].handle];
            var (st', sock') := Moved(AfterConnect(n.tcp[id], sock.phase), sock, g);
            id in n.queued && sock'.accepted == n.queued[id] && st'.pending == []
  {
    hide Inv, Forward;
    EntriesConserve(n);
    var st := n.tcp[id];
    assert st.pending[..|st.pending|] == st.pending;
  }

  /** The entry and its socket at the end of a visit, before a last `close` and
      before any removal. */
  function Served(st: TcpState, sock: Socket, g: Glance): (TcpState, Socket)
    requires sock.TcpSocket?
  {
    if Refuses(st, sock.phase) then (st, sock) else Moved(AfterConnect(st, sock.phase), sock, g)
  }

  /** Whether a visit closes the socket in any of its three branches. */
  predicate ClosesSocket(st: TcpState, sock: Socket, g: Glance)
    requires sock.TcpSocket?
  {
    !Refuses(st, sock.phase) && (
      || HalfCloses(AfterConnect(st, sock.phase), g)
      || ForwardFails(st.toApp, Received(g.chunks, MAX_RECV_CHUNKS), g.appTakes)
      || Served(st, sock, g).1.phase == CloseWait)
  }

  /** A visit lets go of a connection by closing its socket or by removing its
      entry.  Bytes are left behind then exactly when the entry is refused with
      bytes pending, or the socket did not take all of them and the application's
      end, the peer's close or a reset is the cause: never the half-close. */
  lemma BytesLeftBehindIff(n: Net, id: Id, g: Glance)
    requires Inv(n) && id in n.tcp && n.tcp[id].handle in n.sockets && n.sockets[n.tcp[id].handle].TcpSocket?
    ensures var st, sock := n.tcp[id], n.sockets[n.tcp[id].handle];
            (ClosesSocket(st, sock, g) || id !in Visit(n, id, g).tcp) && Served(st, sock, g).0.pending != [] <==>
            if Refuses(st, sock.phase) then st.pending != []
            else
              && Sent(st, g) < |st.pending|
              && (|| ForwardFails(st.toApp, Received(g.chunks, MAX_RECV_CHUNKS), g.appTakes)
                  || sock.phase in {CloseWait, Closed})
  {
    hide Inv, Visit, Received, Forward, ForwardFails;
    VisitRemoves(n, id, g);
    var st, sock := n.tcp[id], n.sockets[n.tcp[id].handle];
    assert AfterConnect(st, sock.phase).pending == st.pending;
  }

  /** A visit removes the entry exactly when it is refused, or established with a
      socket that is closed in the end. */
  lemma VisitRemoves(n: Net, id: Id, g: Glance)
    requires Inv(n) && id in n.tcp && n.tcp[id].handle in n.sockets && n.sockets[n.tcp[id].handle].TcpSocket?
    ensures var st, sock := n.tcp[id], n.sockets[n.tcp[id].handle];
            && (id !in Visit(n, id, g).tcp <==>
                  || Refuses(st, sock.phase)
                  || (AfterConnect(st, sock.phase).established && Served(st, sock, g).1.phase == Closed))
            && (id in Visit(n, id, g).tcp ==> Visit(n, id, g).tcp[id] == Served(st, sock, g).0)
  {
    hide Inv, Moved, Framed, Puttable;
    EntriesConserve(n);
  }

  lemma RunExtends(es: seq<Event>, e: Event)
    requires Run(es).Some? && Possible(Run(es).value, e)
    ensures Run(es + [e]) == Some(Step(Run(es).value, e))
  {
    hide Inv, Possible, Step;
    assert (es + [e])[..|es|] == es;
  }

  const QUIET: Glance := Glance(false, 0, [], 0, Closed, Closed, LastAck)

  /** The only entry and its socket. */
  function Single(st: TcpState, phase: Phase, queued: seq<byte>, answers: seq<Answer>): Net {
    Net(map[1 := st], map[], map[0 := TcpSocket(1, FIRST_PORT, 0, phase, [], [])], 2, FIRST_PORT + 1,
        1, map[1 := queued], if answers == [] then map[7 := 1] else map[], map[7 := answers])
  }

  const FRESH: TcpState := TcpState(0, Channel([], false), true, Some(7), [], false, false)

  lemma OpenedRun(phase: Phase)
    ensures Run([EvOpenTcp(7, true, 0)] + [EvPoll(map[0 := phase])]) == Some(Single(FRESH, phase, [], []))
  {
    hide Inv;
    var open := EvOpenTcp(7, true, 0);
    RunExtends([], open);
    assert [] + [open] == [open];
    var n := OpenTcp(INIT, 7, true, 0);
    assert n == Single(FRESH, SynSent, [], []);
    RunExtends([open], EvPoll(map[0 := phase]));
    assert Poll(n, map[0 := phase]) == Single(FRESH, phase, [], []);
  }

  /** A sweep over the only entry. */
  lemma SweepOne(n: Net)
    requires Inv(n) && n.tcp.Keys == {1}
    ensures Possible(n, EvSweepTcp([(1, QUIET)])) && Step(n, EvSweepTcp([(1, QUIET)])) == Visit(n, 1, QUIET)
  {
    hide Inv, Visit;
    var visits := [(1, QUIET)];
    assert visits[0].0 == 1;
    assert Sweep(n, visits) == Sweep(Visit(n, 1, QUIET), visits[1..]);
  }

  lemma QuietMove(st: TcpState, sock: Socket)
    requires sock.TcpSocket? && !st.halfClosed && !st.toApp.gone
    ensures Moved(st, sock, QUIET) == (st, sock)
  {
    assert Received([], MAX_RECV_CHUNKS) == [];
    assert st.toApp.got + [] == st.toApp.got;
    assert Forward(st.toApp, [], 0) == st.toApp;
    assert Sent(st, QUIET) == 0 && st.pending[0..] == st.pending;
    assert sock.accepted + st.pending[..0] == sock.accepted && sock.taken + [] == sock.taken;
  }

  lemma PollOne(st: TcpState, was: Phase, now: Phase, queued: seq<byte>, answers: seq<Answer>)
    ensures Poll(Single(st, was, queued, answers), map[0 := now]) == Single(st, now, queued, answers)
  {
  }

  /** What a quiet visit does to an entry that is established, or that it sees
      in the state CloseWait, whatever is pending. */
  lemma QuietVisit(st: TcpState, phase: Phase, queued: seq<byte>, answers: seq<Answer>)
    requires Inv(Single(st, phase, queued, answers))
    requires st.handle == 0 && !st.halfClosed && !st.toApp.gone
    requires phase == CloseWait || (phase == Established && !st.established && st.connectResp == Some(7) && answers == [])
    ensures Visit(Single(st, phase, queued, answers), 1, QUIET) ==
            if phase == CloseWait then Single(st, LastAck, queued, answers)
            else Single(st.(established := true, connectResp := None, fromStackHeld := false), phase, queued, [Connected(1)])
  {
    hide Inv;
    var sock := TcpSocket(1, FIRST_PORT, 0, phase, [], []);
    var st1 := AfterConnect(st, phase);
    QuietMove(st1, sock);
    if phase == Established {
      var one: map<Request, Id> := map[7 := 1];
      assert one - {7} == map[] && [] + [Connected(1)] == [Connected(1)];
      var n := Single(st, phase, queued, answers);
      assert Put(n, 1, st1, sock, queued, Some(Connected(1))) == Single(st1, phase, queued, [Connected(1)]);
    }
  }

  /** A quiet sweep after the run `es`. */
  lemma SweepAfter(es: seq<Event>, n: Net)
    requires Run(es) == Some(n) && n.tcp.Keys == {1}
    ensures Run(es + [SWEEP]) == Some(Visit(n, 1, QUIET))
  {
    hide Inv, Visit, Run, Possible, Step;
    SweepOne(n);
    RunExtends(es, SWEEP);
  }

  lemma PollAfter(es: seq<Event>, st: TcpState, was: Phase, now: Phase, queued: seq<byte>, answers: seq<Answer>)
    requires Run(es) == Some(Single(st, was, queued, answers))
    ensures Run(es + [EvPoll(map[0 := now])]) == Some(Single(st, now, queued, answers))
  {
    hide Inv, Run, Single, Poll;
    PollOne(st, was, now, queued, answers);
    RunExtends(es, EvPoll(map[0 := now]));
  }

  const SWEEP: Event := EvSweepTcp([(1, QUIET)])

  /** A connection that the peer accepted and closed between two sweeps is
      reported as refused: the sweep never saw it in the state Established. */
  lemma AcceptedButRefused()
    ensures exists es :: EvPoll(map[0 := CloseWait]) in es && Run(es).Some? &&
                         7 in Run(es).value.answers && Run(es).value.answers[7] == [Refused]
  {
    hide Inv, Run, Visit, Poll, Possible, Step;
    var es := [EvOpenTcp(7, true, 0)] + [EvPoll(map[0 := CloseWait])];
    OpenedRun(CloseWait);
    SweepAfter(es, Single(FRESH, CloseWait, [], []));
    QuietVisit(FRESH, CloseWait, [], []);
    var es2 := es + [SWEEP];
    PollAfter(es2, FRESH, LastAck, Closed, [], []);
    var es3 := es2 + [EvPoll(map[0 := Closed])];
    SweepAfter(es3, Single(FRESH, Closed, [], []));
    VisitAnswers(Single(FRESH, Closed, [], []), 1, QUIET);
    assert (es3 + [SWEEP])[1] == EvPoll(map[0 := CloseWait]);
  }

  /** A byte queued before the peer's close is still pending after the layer has
      closed the socket. */
  lemma QueuedByteLeftBehind()
    ensures exists es :: Run(es).Some? && DataFor(es, 1) == [9] && 1 in Run(es).value.tcp &&
                         Run(es).value.tcp[1].pending == [9] && 0 in Run(es).value.sockets &&
                         Run(es).value.sockets[0].TcpSocket? && Run(es).value.sockets[0].phase == LastAck
  {
    hide Inv, Run, Visit, Poll, DataFor, Possible, Step;
    var es := [EvOpenTcp(7, true, 0)] + [EvPoll(map[0 := Established])];
    OpenedRun(Established);
    SweepAfter(es, Single(FRESH, Established, [], []));
    QuietVisit(FRESH, Established, [], []);
    var up := FRESH.(established := true, connectResp := None, fromStackHeld := false);
    var es2, st := es + [SWEEP], up.(pending := [9]);
    DataAfter(es2, up, [9]);
    var es3 := es2 + [EvData(1, [9])];
    PollAfter(es3, st, Established, CloseWait, [9], [Connected(1)]);
    var es4 := es3 + [EvPoll(map[0 := CloseWait])];
    SweepAfter(es4, Single(st, CloseWait, [9], [Connected(1)]));
    QuietVisit(st, CloseWait, [9], [Connected(1)]);
    BytesConserved(es4 + [SWEEP]);
  }

  /** A byte still pending when the peer resets the connection goes with the entry:
      the next visit removes it without any `close`. */
  lemma ResetDropsByte()
    ensures exists es :: Run(es).Some? && DataFor(es, 1) == [9] &&
                         1 in Run(es).value.tcp && Run(es).value.tcp[1].pending == [9] &&
                         Run(es + [SWEEP]).Some? && 1 !in Run(es + [SWEEP]).value.tcp
  {
    hide Inv, Run, Visit, Poll, DataFor, Possible, Step;
    var es := [EvOpenTcp(7, true, 0)] + [EvPoll(map[0 := Established])];
    OpenedRun(Established);
    SweepAfter(es, Single(FRESH, Established, [], []));
    QuietVisit(FRESH, Established, [], []);
    var up := FRESH.(established := true, connectResp := None, fromStackHeld := false);
    var es2, st := es + [SWEEP], up.(pending := [9]);
    DataAfter(es2, up, [9]);
    var es3 := es2 + [EvData(1, [9])];
    PollAfter(es3, st, Established, Closed, [9], [Connected(1)]);
    var es4 := es3 + [EvPoll(map[0 := Closed])];
    var n := Single(st, Closed, [9], [Connected(1)]);
    BytesConserved(es4);
    SweepAfter(es4, n);
    QuietMove(st, n.sockets[0]);
    VisitRemoves(n, 1, QUIET);
  }

  lemma DataAfter(es: seq<Event>, st: TcpState, data: seq<byte>)
    requires Run(es) == Some(Single(st, Established, [], [Connected(1)])) && st.pending == []
    ensures Run(es + [EvData(1, data)]) == Some(Single(st.(pending := data), Established, data, [Connected(1)]))
  {
    hide Inv, Run;
    var n := Single(st, Established, [], [Connected(1)]);
    EntriesConserve(n);
    RunExtends(es, EvData(1, data));
    assert [] + data == data;
    assert QueueData(n, 1, data) == Single(st.(pending := data), Established, data, [Connected(1)]);
  }
}
