/** The tunnel loop over QUIC: establishing the connection, the readiness gate,
    and the one retry with the server's ECH configuration.  A run is driven by a
    script that says, for each iteration, what the clock, the connection and the
    channels show. */
module QuicLoop {
  import opened Wire
  import opened Datagrams
  import Masque

  const REQUIRED_SUCCESSES: nat := 2

  datatype Config = Config(dataCheck: bool, hasReadyTx: bool, ech: bool, validationTimeout: nat)

  /** One iteration.  The awaited events that are there, in the order in which the
      loop prefers them (a timer fires when none is); then what the connection
      answers.  `room` is how many packets the consumer takes before it is gone. */
  datatype Turn = Turn(
    atValidate: nat,
    keepaliveTick: bool, probeTick: bool, netRecv: bool, ctrl: bool, outbound: Option<Option<seq<byte>>>,
    established: bool, transportOk: bool, request: Option<nat>, at: nat,
    pollOk: bool, incoming: seq<seq<byte>>, room: nat,
    flushOk: bool, closed: bool, retryConfig: bool, retryOk: bool)

  datatype Action =
    | Established
    | RequestSent(streamId: nat, at: nat)
    | ReadyFired
    | Delivered(packets: seq<seq<byte>>)
    | ProbeSent(probeStream: nat)
    | PacketSent(packetStream: nat, packet: seq<byte>)
    | EchRetried

  datatype Outcome = Running | ValidationTimeout | HttpError | FlushError | RetryError | Finished

  // ---- Receiving datagrams -----------------------------------------------

  /** What reaches the consumer, or nothing when no packet is there. */
  function Received(stream: Option<nat>, incoming: seq<seq<byte>>, room: nat): Option<seq<seq<byte>>> {
    if stream == None || PacketsFor(stream.value, incoming) == [] then None
    else
      var packets := PacketsFor(stream.value, incoming);
      Some(packets[..Min(room, |packets|)])
  }

  /** `drain_datagrams`: packets go out in order, none twice, none skipped, until
      the queue is empty or the consumer is gone; data counts as delivered even
      when the consumer turns out to be gone. */
  method DrainDatagrams(reqStream: Option<nat>, incoming: seq<seq<byte>>, room: nat)
    returns (delivered: bool, sent: seq<seq<byte>>)
    ensures delivered == Received(reqStream, incoming, room).Some?
    ensures sent == if delivered then Received(reqStream, incoming, room).value else []
  {
    hide PacketsFor, Masque.DecodeIpDatagram;
    delivered, sent := false, [];
    if reqStream == None {
      return;
    }
    var sid := reqStream.value;
    ghost var all := PacketsFor(sid, incoming);
    var i := 0;
    assert incoming[0..] == incoming;
    while i < |incoming|
      invariant 0 <= i <= |incoming|
      invariant all == sent + PacketsFor(sid, incoming[i..])
      invariant |sent| <= room && (delivered <==> sent != [])
    {
      var r := Masque.DecodeIpDatagram(incoming[i], sid);
      PacketsNext(sid, incoming, i, sent);
      if r.Ok? && r.value.Some? {
        delivered := true;
        if |sent| == room {
          assert sent == all[..room];
          return;
        }
        sent := sent + [r.value.value];
      }
      i := i + 1;
    }
    assert PacketsFor(sid, incoming[i..]) == [] by { PacketsEnd(sid, incoming[i..]); }
    assert sent == all == all[..|sent|];
  }

  // ---- The history of a run ----------------------------------------------

  datatype Past = Past(
    readies: nat, deliveries: nat, established: bool, stream: Option<nat>, asked: nat, retries: nat)

  function Next(p: Past, a: Action): Past {
    match a
    case Established => p.(established := true)
    case RequestSent(sid, at) => p.(stream := Some(sid), asked := at)
    case ReadyFired => p.(readies := p.readies + 1)
    case Delivered(_) => p.(deliveries := p.deliveries + 1)
    case EchRetried => p.(stream := None, retries := p.retries + 1)
    case _ => p
  }

  function PastOf(log: seq<Action>): Past {
    if log == [] then Past(0, 0, false, None, 0, 0) else Next(PastOf(log[..|log| - 1]), log[|log| - 1])
  }

  /** What may follow: one establishment; a request only on it; the gate opens once,
      with data checking exactly after two deliveries and without it on a request;
      packets and probes only on the request's own stream, probes only before the
      gate; one retry, and only while nothing was ever established. */
  predicate May(cfg: Config, p: Past, a: Action) {
    match a
    case Established => !p.established
    case RequestSent(_, _) => p.established && p.stream == None
    case ReadyFired =>
      p.stream.Some? && p.readies == 0 && (cfg.dataCheck ==> p.deliveries == REQUIRED_SUCCESSES)
    case Delivered(_) => p.stream.Some? && (p.readies == 0 ==> cfg.dataCheck && p.deliveries < REQUIRED_SUCCESSES)
    case ProbeSent(sid) => cfg.dataCheck && p.readies == 0 && p.stream == Some(sid)
    case PacketSent(sid, _) => p.stream == Some(sid)
    case EchRetried => cfg.ech && !p.established && p.retries == 0
  }

  predicate Lawful(cfg: Config, log: seq<Action>) {
    log == [] || (Lawful(cfg, log[..|log| - 1]) && May(cfg, PastOf(log[..|log| - 1]), log[|log| - 1]))
  }

  lemma Appended(cfg: Config, log: seq<Action>, a: Action)
    ensures (log + [a])[..|log|] == log
    ensures PastOf(log + [a]) == Next(PastOf(log), a)
    ensures Lawful(cfg, log) && May(cfg, PastOf(log), a) ==> Lawful(cfg, log + [a])
  {
    assert (log + [a])[..|log|] == log;
  }

  // ---- What an iteration leads to, told by the history alone --------------

  function Deadline(cfg: Config, p: Past): Option<nat> {
    if cfg.dataCheck && p.readies == 0 && p.stream.Some? then Some(p.asked + cfg.validationTimeout) else None
  }

  function Arm(cfg: Config, log: seq<Action>, t: Turn): seq<Action> {
    var p := PastOf(log);
    if t.keepaliveTick then log
    else if t.probeTick && cfg.dataCheck && p.readies == 0 then
      if p.stream.Some? then log + [ProbeSent(p.stream.value)] else log
    else if t.netRecv || t.ctrl then log
    else if t.outbound.Some? && t.outbound.value.Some? && p.stream.Some? then
      log + [PacketSent(p.stream.value, t.outbound.value.value)]
    else log
  }

  function Asking(cfg: Config, log: seq<Action>, t: Turn): (seq<Action>, Outcome) {
    if !t.established || PastOf(log).stream.Some? then (log, Running)
    else if !t.transportOk || t.request == None then (log + [Established], HttpError)
    else
      var asked := log + [Established] + [RequestSent(t.request.value, t.at)];
      (if cfg.dataCheck then asked else asked + [ReadyFired], Running)
  }

  function Receiving(log: seq<Action>, t: Turn): (seq<Action>, Outcome) {
    var p := PastOf(log);
    var got := Received(p.stream, t.incoming, t.room);
    if p.stream.Some? && !t.pollOk then (log, HttpError)
    else if got == None then (log, Running)
    else
      var more := log + [Delivered(got.value)];
      (if p.readies == 0 && p.deliveries + 1 >= REQUIRED_SUCCESSES then more + [ReadyFired] else more, Running)
  }

  function Closing(cfg: Config, log: seq<Action>, t: Turn): (seq<Action>, Outcome) {
    var p := PastOf(log);
    if !t.flushOk then (log, FlushError)
    else if !t.closed then (log, Running)
    else if !p.established && p.retries == 0 && cfg.ech && t.retryConfig then
      (log + [EchRetried], if t.retryOk then Running else RetryError)
    else (log, Finished)
  }

  function Turned(cfg: Config, log: seq<Action>, t: Turn): (seq<Action>, Outcome) {
    var deadline := Deadline(cfg, PastOf(log));
    if deadline.Some? && t.atValidate >= deadline.value then (log, ValidationTimeout)
    else
      var asked := Asking(cfg, Arm(cfg, log, t), t);
      if asked.1 != Running then asked
      else
        var received := Receiving(asked.0, t);
        if received.1 != Running then received else Closing(cfg, received.0, t)
  }

  function History(cfg: Config, script: seq<Turn>): seq<Action> {
    if script == [] then [] else Turned(cfg, History(cfg, script[..|script| - 1]), script[|script| - 1]).0
  }

  /** None of the first `n` iterations ended the loop. */
  ghost predicate WentOn(cfg: Config, script: seq<Turn>, n: nat) {
    n <= |script| && forall i :: 0 <= i < n ==> Turned(cfg, History(cfg, script[..i]), script[i]).1 == Running
  }

  lemma HistoryNext(cfg: Config, script: seq<Turn>, i: nat)
    requires i < |script|
    ensures var r := Turned(cfg, History(cfg, script[..i]), script[i]);
            && History(cfg, script[..i + 1]) == r.0
            && (WentOn(cfg, script, i + 1) <==> WentOn(cfg, script, i) && r.1 == Running)
  {
    hide Turned;
    assert script[..i + 1][..i] == script[..i];
  }

  /** What holds between two iterations. */
  predicate Between(cfg: Config, p: Past) {
    && (p.established <==> p.stream.Some?)
    && p.readies == (if (if cfg.dataCheck then p.deliveries >= REQUIRED_SUCCESSES else p.stream.Some?) then 1 else 0)
    && (p.deliveries > 0 ==> p.stream.Some?)
    && p.retries <= if cfg.ech then 1 else 0
  }

  /** One iteration keeps the history lawful, also when it ends the loop. */
  lemma TurnIsLawful(cfg: Config, log: seq<Action>, t: Turn)
    requires Lawful(cfg, log) && Between(cfg, PastOf(log))
    ensures var r := Turned(cfg, log, t);
            Lawful(cfg, r.0) && PastOf(r.0).readies <= 1 && (r.1 == Running ==> Between(cfg, PastOf(r.0)))
  {
    hide Lawful, PastOf, Arm, Asking, Receiving, Closing;
    ArmIsLawful(cfg, log, t);
    var asked := Asking(cfg, Arm(cfg, log, t), t);
    AskingIsLawful(cfg, Arm(cfg, log, t), t);
    if asked.1 == Running {
      ReceivingIsLawful(cfg, asked.0, t);
      var received := Receiving(asked.0, t);
      if received.1 == Running {
        ClosingIsLawful(cfg, received.0, t);
      }
    }
  }

  lemma ArmIsLawful(cfg: Config, log: seq<Action>, t: Turn)
    requires Lawful(cfg, log) && Between(cfg, PastOf(log))
    ensures Lawful(cfg, Arm(cfg, log, t)) && Between(cfg, PastOf(Arm(cfg, log, t)))
  {
    hide Lawful, PastOf;
    var p := PastOf(log);
    if p.stream.Some? {
      Appended(cfg, log, ProbeSent(p.stream.value));
      if t.outbound.Some? && t.outbound.value.Some? {
        Appended(cfg, log, PacketSent(p.stream.value, t.outbound.value.value));
      }
    }
  }

  lemma AskingIsLawful(cfg: Config, log: seq<Action>, t: Turn)
    requires Lawful(cfg, log) && Between(cfg, PastOf(log))
    ensures var r := Asking(cfg, log, t);
            Lawful(cfg, r.0) && PastOf(r.0).readies <= 1 && (r.1 == Running ==> Between(cfg, PastOf(r.0)))
  {
    hide Lawful, PastOf;
    Appended(cfg, log, Established);
    if t.request.Some? {
      var asked := log + [Established];
      var sent := RequestSent(t.request.value, t.at);
      Appended(cfg, asked, sent);
      Appended(cfg, asked + [sent], ReadyFired);
      assert log + ([Established] + [sent] + [ReadyFired]) == asked + [sent] + [ReadyFired];
      assert log + ([Established] + [sent] + []) == asked + [sent];
    }
    assert log + ([Established] + [] + []) == log + [Established];
    assert log + ([] + [] + []) == log;
  }

  lemma ReceivingIsLawful(cfg: Config, log: seq<Action>, t: Turn)
    requires Lawful(cfg, log) && Between(cfg, PastOf(log))
    ensures var r := Receiving(log, t);
            Lawful(cfg, r.0) && Between(cfg, PastOf(r.0))
  {
    hide Lawful, PastOf, Received;
    var got := Received(PastOf(log).stream, t.incoming, t.room);
    assert PastOf(log).stream == None ==> got == None by { ReceivedNothing(t.incoming, t.room); }
    if got.Some? {
      Appended(cfg, log, Delivered(got.value));
      Appended(cfg, log + [Delivered(got.value)], ReadyFired);
    }
  }

  lemma ReceivedNothing(incoming: seq<seq<byte>>, room: nat)
    ensures Received(None, incoming, room) == None
  {
  }

  lemma ClosingIsLawful(cfg: Config, log: seq<Action>, t: Turn)
    requires Lawful(cfg, log) && Between(cfg, PastOf(log))
    ensures var r := Closing(cfg, log, t);
            Lawful(cfg, r.0) && PastOf(r.0).readies <= 1 && (r.1 == Running ==> Between(cfg, PastOf(r.0)))
  {
    hide Lawful, PastOf;
    Appended(cfg, log, EchRetried);
  }

  /** Every run is lawful, and between iterations a request stream without data
      checking means that the gate has opened. */
  lemma {:induction false} RunsAreLawful(cfg: Config, script: seq<Turn>, n: nat)
    requires WentOn(cfg, script, n)
    ensures Lawful(cfg, History(cfg, script[..n])) && Between(cfg, PastOf(History(cfg, script[..n])))
  {
    hide Turned;
    if n > 0 {
      RunsAreLawful(cfg, script, n - 1);
      HistoryNext(cfg, script, n - 1);
      TurnIsLawful(cfg, History(cfg, script[..n - 1]), script[n - 1]);
    }
  }

  /** The live validation deadline, that of the request while the gate is closed, is
      not reached. */
  predicate InTime(cfg: Config, p: Past, t: Turn) {
    cfg.dataCheck && p.readies == 0 && p.stream.Some? ==> t.atValidate < p.asked + cfg.validationTimeout
  }

  /** Iteration `i` got past the loop head: every one that went on did, and the
      last one unless the deadline stopped it there. */
  predicate PassedHead(script: seq<Turn>, n: nat, out: Outcome, i: nat) {
    i < n || (i == n < |script| && out != ValidationTimeout)
  }

  /** Every iteration that passed the loop head was in time, and the loop is stopped
      there exactly when it is not. */
  lemma DeadlinesKept(cfg: Config, script: seq<Turn>, n: nat, out: Outcome)
    requires WentOn(cfg, script, n)
    requires n < |script| ==> out == Turned(cfg, History(cfg, script[..n]), script[n]).1
    ensures forall i: nat {:trigger PassedHead(script, n, out, i)} ::
              PassedHead(script, n, out, i) ==> InTime(cfg, PastOf(History(cfg, script[..i])), script[i])
    ensures n < |script| ==> (out == ValidationTimeout <==> !InTime(cfg, PastOf(History(cfg, script[..n])), script[n]))
  {
    hide History, PastOf, Turned, InTime;
    forall i: nat | i < |script|
      ensures Turned(cfg, History(cfg, script[..i]), script[i]).1 == ValidationTimeout <==>
              !InTime(cfg, PastOf(History(cfg, script[..i])), script[i])
    {
      StoppedAtHead(cfg, History(cfg, script[..i]), script[i]);
    }
  }

  lemma StoppedAtHead(cfg: Config, log: seq<Action>, t: Turn)
    ensures Turned(cfg, log, t).1 == ValidationTimeout <==> !InTime(cfg, PastOf(log), t)
  {
    hide PastOf, Arm, Received;
  }

  // ---- What must happen, told by the script entry and the log alone --------

  predicate ProbeDue(cfg: Config, p: Past, t: Turn) {
    !t.keepaliveTick && t.probeTick && cfg.dataCheck && p.readies == 0
  }

  /** An outbound packet, or the end of them, is taken when no preferred event is there. */
  predicate OutboundTaken(cfg: Config, p: Past, t: Turn) {
    !t.keepaliveTick && !ProbeDue(cfg, p, t) && !t.netRecv && !t.ctrl && t.outbound.Some?
  }

  /** The connection is seen established while no request is out. */
  predicate Asks(p: Past, t: Turn) {
    t.established && p.stream == None
  }

  predicate Asked(p: Past, t: Turn) {
    Asks(p, t) && t.transportOk && t.request.Some?
  }

  /** The request stream once the iteration has asked. */
  function StreamThen(p: Past, t: Turn): Option<nat> {
    if Asked(p, t) then t.request else p.stream
  }

  /** No HTTP/3 call fails. */
  predicate HttpFine(p: Past, t: Turn) {
    (Asks(p, t) ==> Asked(p, t)) && (StreamThen(p, t).Some? ==> t.pollOk)
  }

  /** Tunnelled packets come in. */
  predicate DataComes(p: Past, t: Turn) {
    HttpFine(p, t) && StreamThen(p, t).Some? && PacketsFor(StreamThen(p, t).value, t.incoming) != []
  }

  predicate Retries(cfg: Config, p: Past, t: Turn) {
    && HttpFine(p, t) && t.flushOk && t.closed
    && !p.established && !Asks(p, t) && p.retries == 0 && cfg.ech && t.retryConfig
  }

  /** The place of an action within an iteration. */
  function Rank(dataCheck: bool, a: Action): nat {
    match a
    case ProbeSent(_) => 0
    case PacketSent(_, _) => 0
    case Established => 1
    case RequestSent(_, _) => 2
    case ReadyFired => if dataCheck then 5 else 3
    case Delivered(_) => 4
    case EchRetried => 6
  }

  /** Exactly what an iteration that got past the deadline adds to the log, each
      action once and in this order. */
  ghost predicate Adds(cfg: Config, p: Past, t: Turn, added: seq<Action>) {
    && (forall s: nat :: ProbeSent(s) in added <==> ProbeDue(cfg, p, t) && p.stream == Some(s))
    && (forall s: nat, packet :: PacketSent(s, packet) in added <==>
          OutboundTaken(cfg, p, t) && t.outbound.value == Some(packet) && p.stream == Some(s))
    && (Established in added <==> Asks(p, t))
    && (forall s: nat, at: nat :: RequestSent(s, at) in added <==> Asked(p, t) && t.request == Some(s) && at == t.at)
    && (forall packets :: Delivered(packets) in added <==>
          DataComes(p, t) && var all := PacketsFor(StreamThen(p, t).value, t.incoming);
                             packets == if t.room < |all| then all[..t.room] else all)
    && (ReadyFired in added <==>
          p.readies == 0 && if cfg.dataCheck then DataComes(p, t) && p.deliveries + 1 >= 2 else Asked(p, t))
    && (EchRetried in added <==> Retries(cfg, p, t))
    && (forall i, j :: 0 <= i < j < |added| ==> Rank(cfg.dataCheck, added[i]) < Rank(cfg.dataCheck, added[j]))
  }

  /** Exactly how an iteration that got past the deadline ends the loop, or that it
      does not. */
  ghost predicate Leads(cfg: Config, p: Past, t: Turn, out: Outcome) {
    && out != ValidationTimeout
    && (out == HttpError <==> !HttpFine(p, t))
    && (out == FlushError <==> HttpFine(p, t) && !t.flushOk)
    && (out == RetryError <==> Retries(cfg, p, t) && !t.retryOk)
    && (out == Finished <==> HttpFine(p, t) && t.flushOk && t.closed && !Retries(cfg, p, t))
  }

  ghost predicate Handled(cfg: Config, before: seq<Action>, t: Turn, added: seq<Action>, out: Outcome) {
    var p := PastOf(before);
    if InTime(cfg, p, t) then Adds(cfg, p, t, added) && Leads(cfg, p, t, out)
    else added == [] && out == ValidationTimeout
  }

  function Opt(b: bool, a: Action): seq<Action> { if b then [a] else [] }

  /** The same as one list. */
  function ArmPart(cfg: Config, p: Past, t: Turn): seq<Action> {
    if p.stream == None then []
    else if ProbeDue(cfg, p, t) then [ProbeSent(p.stream.value)]
    else if OutboundTaken(cfg, p, t) && t.outbound.value.Some? then [PacketSent(p.stream.value, t.outbound.value.value)]
    else []
  }

  function AskPart(cfg: Config, p: Past, t: Turn): seq<Action> {
    Opt(Asks(p, t), Established)
    + (if Asked(p, t) then [RequestSent(t.request.value, t.at)] else [])
    + Opt(Asked(p, t) && !cfg.dataCheck, ReadyFired)
  }

  function DataPart(cfg: Config, p: Past, t: Turn): seq<Action> {
    (if DataComes(p, t) then [Delivered(Received(StreamThen(p, t), t.incoming, t.room).value)] else [])
    + Opt(DataComes(p, t) && cfg.dataCheck && p.readies == 0 && p.deliveries + 1 >= REQUIRED_SUCCESSES, ReadyFired)
  }

  function Parts(cfg: Config, p: Past, t: Turn): seq<Action> {
    ArmPart(cfg, p, t) + AskPart(cfg, p, t) + DataPart(cfg, p, t) + Opt(Retries(cfg, p, t), EchRetried)
  }

  function OutcomeOf(cfg: Config, p: Past, t: Turn): Outcome {
    if !HttpFine(p, t) then HttpError
    else if !t.flushOk then FlushError
    else if !t.closed then Running
    else if !Retries(cfg, p, t) then Finished
    else if t.retryOk then Running else RetryError
  }

  lemma PartsHold(cfg: Config, p: Past, t: Turn, a: Action)
    ensures a in Parts(cfg, p, t) <==>
            || a in ArmPart(cfg, p, t) || a in AskPart(cfg, p, t) || a in DataPart(cfg, p, t)
            || (a == EchRetried && Retries(cfg, p, t))
  {
    hide ArmPart, AskPart, DataPart, Retries;
  }

  lemma AskHolds(cfg: Config, p: Past, t: Turn, a: Action)
    ensures a in AskPart(cfg, p, t) <==>
            || (a == Established && Asks(p, t))
            || (Asked(p, t) && a == RequestSent(t.request.value, t.at))
            || (a == ReadyFired && Asked(p, t) && !cfg.dataCheck)
  {
    hide Asks;
  }

  lemma DataHolds(cfg: Config, p: Past, t: Turn, a: Action)
    ensures a in DataPart(cfg, p, t) <==>
            || (DataComes(p, t) && var all := PacketsFor(StreamThen(p, t).value, t.incoming);
                                   a == Delivered(all[..Min(t.room, |all|)]))
            || (a == ReadyFired && DataComes(p, t) && cfg.dataCheck && p.readies == 0 && p.deliveries + 1 >= 2)
  {
    hide PacketsFor;
  }

  lemma PartsAdd(cfg: Config, p: Past, t: Turn)
    requires Between(cfg, p)
    ensures Adds(cfg, p, t, Parts(cfg, p, t))
  {
    hide Parts, AskPart, DataPart, PacketsFor, Rank, Retries, DataComes;
    forall a
      ensures a in Parts(cfg, p, t) <==>
              || a in ArmPart(cfg, p, t)
              || (a == Established && Asks(p, t))
              || (Asked(p, t) && a == RequestSent(t.request.value, t.at))
              || (a == ReadyFired && Asked(p, t) && !cfg.dataCheck)
              || (DataComes(p, t) && StreamThen(p, t).Some? &&
                  var all := PacketsFor(StreamThen(p, t).value, t.incoming);
                  a == Delivered(all[..Min(t.room, |all|)]))
              || (a == ReadyFired && DataComes(p, t) && cfg.dataCheck && p.readies == 0 && p.deliveries + 1 >= 2)
              || (a == EchRetried && Retries(cfg, p, t))
    {
      PartsHold(cfg, p, t, a);
      AskHolds(cfg, p, t, a);
      DataHolds(cfg, p, t, a);
      DataIsOnAStream(p, t);
    }
    PartsOrdered(cfg, p, t);
    DataIsOnAStream(p, t);
  }

  lemma DataIsOnAStream(p: Past, t: Turn)
    ensures DataComes(p, t) ==> StreamThen(p, t).Some?
  {
  }

  /** In order, with places from `lo` up to `hi`. */
  predicate Ordered(dataCheck: bool, s: seq<Action>, lo: nat, hi: nat) {
    && (forall i :: 0 <= i < |s| ==> lo <= Rank(dataCheck, s[i]) < hi)
    && (forall i, j :: 0 <= i < j < |s| ==> Rank(dataCheck, s[i]) < Rank(dataCheck, s[j]))
  }

  lemma OrderedConcat(dataCheck: bool, a: seq<Action>, b: seq<Action>, lo: nat, mid: nat, hi: nat)
    requires lo <= mid <= hi && Ordered(dataCheck, a, lo, mid) && Ordered(dataCheck, b, mid, hi)
    ensures Ordered(dataCheck, a + b, lo, hi)
  {
    hide Rank;
  }

  lemma PartsOrdered(cfg: Config, p: Past, t: Turn)
    ensures Ordered(cfg.dataCheck, Parts(cfg, p, t), 0, 7)
  {
    hide Rank, ArmPart, AskPart, DataPart, Retries, Ordered;
    PartsPlaced(cfg, p, t);
    var last := Opt(Retries(cfg, p, t), EchRetried);
    OrderedConcat(cfg.dataCheck, ArmPart(cfg, p, t), AskPart(cfg, p, t), 0, 1, 4);
    OrderedConcat(cfg.dataCheck, ArmPart(cfg, p, t) + AskPart(cfg, p, t), DataPart(cfg, p, t), 0, 4, 6);
    OrderedConcat(cfg.dataCheck, ArmPart(cfg, p, t) + AskPart(cfg, p, t) + DataPart(cfg, p, t), last, 0, 6, 7);
  }

  lemma PartsPlaced(cfg: Config, p: Past, t: Turn)
    ensures Ordered(cfg.dataCheck, ArmPart(cfg, p, t), 0, 1) && Ordered(cfg.dataCheck, AskPart(cfg, p, t), 1, 4)
    ensures Ordered(cfg.dataCheck, DataPart(cfg, p, t), 4, 6)
    ensures Ordered(cfg.dataCheck, Opt(Retries(cfg, p, t), EchRetried), 6, 7)
  {
    hide PacketsFor, Asks, DataComes, Retries, ProbeDue, OutboundTaken, Ordered;
    var d := cfg.dataCheck;
    OneOrNone(d, ArmPart(cfg, p, t), 0);
    var e := Opt(Asks(p, t), Established);
    var r := if Asked(p, t) then [RequestSent(t.request.value, t.at)] else [];
    var f := Opt(Asked(p, t) && !d, ReadyFired);
    OneOrNone(d, e, 1);
    OneOrNone(d, r, 2);
    OneOrNone(d, f, 3);
    OrderedConcat(d, e, r, 1, 2, 3);
    OrderedConcat(d, e + r, f, 1, 3, 4);
    DataPlaced(cfg, p, t);
    OneOrNone(d, Opt(Retries(cfg, p, t), EchRetried), 6);
  }

  lemma DataPlaced(cfg: Config, p: Past, t: Turn)
    ensures Ordered(cfg.dataCheck, DataPart(cfg, p, t), 4, 6)
  {
    hide PacketsFor, Ordered;
    var d := cfg.dataCheck;
    var c := if DataComes(p, t) then [Delivered(Received(StreamThen(p, t), t.incoming, t.room).value)] else [];
    var f := Opt(DataComes(p, t) && d && p.readies == 0 && p.deliveries + 1 >= REQUIRED_SUCCESSES, ReadyFired);
    OneOrNone(d, c, 4);
    OneOrNone(d, f, 5);
    OrderedConcat(d, c, f, 4, 5, 6);
  }

  lemma OneOrNone(dataCheck: bool, s: seq<Action>, place: nat)
    requires |s| <= 1 && (s != [] ==> Rank(dataCheck, s[0]) == place)
    ensures Ordered(dataCheck, s, place, place + 1)
  {
  }

  lemma OutcomeLeads(cfg: Config, p: Past, t: Turn)
    ensures Leads(cfg, p, t, OutcomeOf(cfg, p, t))
  {
    hide HttpFine, Asks;
  }

  lemma ArmIs(cfg: Config, log: seq<Action>, t: Turn)
    ensures Arm(cfg, log, t) == log + ArmPart(cfg, PastOf(log), t) && PastOf(Arm(cfg, log, t)) == PastOf(log)
  {
    hide PastOf, Lawful;
    var p := PastOf(log);
    if p.stream.Some? {
      Appended(cfg, log, ProbeSent(p.stream.value));
      if t.outbound.Some? && t.outbound.value.Some? {
        Appended(cfg, log, PacketSent(p.stream.value, t.outbound.value.value));
      }
    }
  }

  /** What the history tells once the iteration has asked. */
  function PastAsked(cfg: Config, p: Past, t: Turn): Past {
    p.(established := p.established || Asks(p, t),
       stream := StreamThen(p, t),
       asked := if Asked(p, t) then t.at else p.asked,
       readies := p.readies + if Asked(p, t) && !cfg.dataCheck then 1 else 0)
  }

  lemma AskingIs(cfg: Config, log: seq<Action>, t: Turn)
    ensures var (p, r) := (PastOf(log), Asking(cfg, log, t));
            && r == (log + AskPart(cfg, p, t), if Asks(p, t) && !Asked(p, t) then HttpError else Running)
            && PastOf(r.0) == PastAsked(cfg, p, t)
  {
    hide PastOf, Lawful;
    Appended(cfg, log, Established);
    if t.request.Some? {
      var asked, sent := log + [Established], RequestSent(t.request.value, t.at);
      Appended(cfg, asked, sent);
      Appended(cfg, asked + [sent], ReadyFired);
      assert log + ([Established] + [sent] + [ReadyFired]) == asked + [sent] + [ReadyFired];
      assert log + ([Established] + [sent] + []) == asked + [sent];
    }
    assert log + ([Established] + [] + []) == log + [Established];
    assert log + ([] + [] + []) == log;
  }

  lemma ReceivingIs(cfg: Config, p: Past, log: seq<Action>, t: Turn)
    requires Between(cfg, p) && PastOf(log) == PastAsked(cfg, p, t) && (Asks(p, t) ==> Asked(p, t))
    ensures var r := Receiving(log, t);
            && r == (log + DataPart(cfg, p, t), if HttpFine(p, t) then Running else HttpError)
            && PastOf(r.0).established == (p.established || Asks(p, t)) && PastOf(r.0).retries == p.retries
  {
    hide PastOf, Lawful, PacketsFor;
    var got := Received(StreamThen(p, t), t.incoming, t.room);
    if got.Some? {
      Appended(cfg, log, Delivered(got.value));
      Appended(cfg, log + [Delivered(got.value)], ReadyFired);
      assert log + ([Delivered(got.value)] + [ReadyFired]) == log + [Delivered(got.value)] + [ReadyFired];
      assert log + ([Delivered(got.value)] + []) == log + [Delivered(got.value)];
    }
    assert log + ([] + []) == log;
  }

  lemma TurnedIs(cfg: Config, log: seq<Action>, t: Turn)
    requires Between(cfg, PastOf(log)) && InTime(cfg, PastOf(log), t)
    ensures var p := PastOf(log);
            Turned(cfg, log, t) == (log + Parts(cfg, p, t), OutcomeOf(cfg, p, t))
  {
    hide PastOf, PacketsFor, Lawful, Arm, Asking, Receiving, ArmPart, AskPart, Asks, Asked, Received;
    var p := PastOf(log);
    var a := log + ArmPart(cfg, p, t);
    ArmIs(cfg, log, t);
    AskingIs(cfg, a, t);
    var b := a + AskPart(cfg, p, t);
    var c := b + DataPart(cfg, p, t);
    var last := Opt(Retries(cfg, p, t), EchRetried);
    assert log + Parts(cfg, p, t) == c + last;
    assert b + [] == b && c + [] == c;
    if Asks(p, t) && !Asked(p, t) {
      assert !HttpFine(p, t) && DataPart(cfg, p, t) == [] && last == [];
    } else {
      ReceivingIs(cfg, p, b, t);
      assert !HttpFine(p, t) ==> last == [];
    }
  }

  /** One iteration does exactly what is due. */
  lemma TurnHandled(cfg: Config, log: seq<Action>, t: Turn)
    requires Between(cfg, PastOf(log))
    ensures var r := Turned(cfg, log, t);
            log <= r.0 && Handled(cfg, log, t, r.0[|log|..], r.1)
  {
    hide PastOf, Between, InTime, Adds, Leads, Parts, OutcomeOf, Turned;
    var p := PastOf(log);
    if InTime(cfg, p, t) {
      TurnedIs(cfg, log, t);
      PartsAdd(cfg, p, t);
      OutcomeLeads(cfg, p, t);
      assert (log + Parts(cfg, p, t))[|log|..] == Parts(cfg, p, t);
    } else {
      StoppedAtHead(cfg, log, t);
      StoppedAsIs(cfg, log, t);
    }
  }

  lemma StoppedAsIs(cfg: Config, log: seq<Action>, t: Turn)
    requires Turned(cfg, log, t).1 == ValidationTimeout
    ensures Turned(cfg, log, t).0 == log
  {
    hide PastOf, Arm, Received;
  }

  /** At every moment of a lawful history the gate has opened at most once; where
      it opens with data checking on, two iterations have delivered data; a retry
      is the only one and nothing was established before it. */
  lemma {:induction false} GateAndRetry(cfg: Config, log: seq<Action>, k: nat)
    requires Lawful(cfg, log) && k < |log|
    ensures var p := PastOf(log[..k]);
            && May(cfg, p, log[k]) && p.readies <= 1 && p.retries <= 1
            && (p.established <==> exists j :: 0 <= j < k && log[j] == Established)
  {
    hide May;
    if k + 1 < |log| {
      GateAndRetry(cfg, log[..|log| - 1], k);
      assert log[..|log| - 1][..k] == log[..k];
    } else {
      assert log[..k] == log[..|log| - 1];
      if k > 0 {
        GateAndRetry(cfg, log[..k], k - 1);
        assert log[..k][..k - 1] == log[..k - 1];
        OnceMore(cfg, log[..k - 1], log[k - 1]);
        assert log[..k] == log[..k - 1] + [log[k - 1]];
      }
    }
  }

  /** In a lawful history a request stream belongs to an establishment, so a retry
      finds no stream to reset. */
  lemma {:induction false} RetryFindsNoStream(cfg: Config, log: seq<Action>)
    requires Lawful(cfg, log)
    ensures PastOf(log).stream.Some? ==> PastOf(log).established
    ensures forall k :: 0 <= k < |log| && log[k] == EchRetried ==> PastOf(log[..k]).stream == None
  {
    if log != [] {
      var before := log[..|log| - 1];
      RetryFindsNoStream(cfg, before);
      forall k | 0 <= k < |log| && log[k] == EchRetried
        ensures PastOf(log[..k]).stream == None
      {
        if k < |before| {
          assert before[..k] == log[..k] && before[k] == EchRetried;
        }
      }
    }
  }

  lemma OnceMore(cfg: Config, log: seq<Action>, a: Action)
    requires May(cfg, PastOf(log), a) && PastOf(log).readies <= 1 && PastOf(log).retries <= 1
    ensures PastOf(log + [a]).readies <= 1 && PastOf(log + [a]).retries <= 1
    ensures PastOf(log + [a]).established <==> PastOf(log).established || a == Established
  {
    Appended(cfg, log, a);
  }

  /** What the past says is what the log shows: the gate, the retry, the establishment,
      and the one request with its time. */
  lemma {:induction false} PastTold(cfg: Config, log: seq<Action>)
    requires Lawful(cfg, log)
    ensures var p := PastOf(log);
            && (p.readies > 0 <==> ReadyFired in log)
            && (p.retries > 0 <==> EchRetried in log)
            && (p.established <==> Established in log)
            && (p.stream.Some? ==> RequestSent(p.stream.value, p.asked) in log)
            && (p.stream == None ==> forall i :: 0 <= i < |log| ==> !log[i].RequestSent?)
  {
    if log != [] {
      var before, last := log[..|log| - 1], log[|log| - 1];
      PastTold(cfg, before);
      RetryFindsNoStream(cfg, before);
      PastToldMore(cfg, before, last);
      assert log == before + [last];
    }
  }

  lemma PastToldMore(cfg: Config, before: seq<Action>, last: Action)
    requires May(cfg, PastOf(before), last)
    requires var p := PastOf(before);
             && (p.stream.Some? ==> p.established)
             && (p.readies > 0 <==> ReadyFired in before)
             && (p.retries > 0 <==> EchRetried in before)
             && (p.established <==> Established in before)
             && (p.stream.Some? ==> RequestSent(p.stream.value, p.asked) in before)
             && (p.stream == None ==> forall i :: 0 <= i < |before| ==> !before[i].RequestSent?)
    ensures var (p, log) := (PastOf(before + [last]), before + [last]);
            && (p.readies > 0 <==> ReadyFired in log)
            && (p.retries > 0 <==> EchRetried in log)
            && (p.established <==> Established in log)
            && (p.stream.Some? ==> RequestSent(p.stream.value, p.asked) in log)
            && (p.stream == None ==> forall i :: 0 <= i < |log| ==> !log[i].RequestSent?)
  {
    hide PastOf, Lawful;
    Appended(cfg, before, last);
  }

  // ---- A whole run, iteration by iteration --------------------------------

  /** What iteration `i` added is the piece of the log between two marks. */
  ghost predicate Piece(cfg: Config, script: seq<Turn>, log: seq<Action>, marks: seq<nat>, i: nat)
    requires i < |marks| - 1 <= |script|
  {
    && marks[i] <= marks[i + 1] <= |log|
    && Handled(cfg, log[..marks[i]], script[i], log[marks[i]..marks[i + 1]], Running)
  }

  /** The log cut into what each iteration that went on added: `marks[i]` is its
      length before iteration `i`. */
  ghost predicate Cut(cfg: Config, script: seq<Turn>, log: seq<Action>, marks: seq<nat>) {
    && 0 < |marks| <= |script| + 1 && marks[0] == 0 <= marks[|marks| - 1] <= |log|
    && forall i {:trigger Piece(cfg, script, log, marks, i)} :: 0 <= i < |marks| - 1 ==> Piece(cfg, script, log, marks, i)
  }

  lemma CutExtends(cfg: Config, script: seq<Turn>, before: seq<Action>, log: seq<Action>, marks: seq<nat>)
    requires Cut(cfg, script, before, marks) && before <= log
    ensures Cut(cfg, script, log, marks)
  {
    hide Handled;
    forall i | 0 <= i < |marks| - 1
      ensures Piece(cfg, script, log, marks, i)
    {
      assert Piece(cfg, script, before, marks, i);
      assert log[..marks[i]] == before[..marks[i]] && log[marks[i]..marks[i + 1]] == before[marks[i]..marks[i + 1]];
    }
  }

  lemma CutMore(cfg: Config, script: seq<Turn>, log: seq<Action>, marks: seq<nat>)
    requires Cut(cfg, script, log, marks) && |marks| <= |script|
    requires var k := marks[|marks| - 1]; Handled(cfg, log[..k], script[|marks| - 1], log[k..], Running)
    ensures Cut(cfg, script, log, marks + [|log|])
  {
    hide Handled;
    var more := marks + [|log|];
    forall i | 0 <= i < |more| - 1
      ensures Piece(cfg, script, log, more, i)
    {
      if i < |marks| - 1 {
        assert Piece(cfg, script, log, marks, i);
      } else {
        assert log[more[i]..|log|] == log[more[i]..];
      }
    }
  }

  lemma {:induction false} HistoryCut(cfg: Config, script: seq<Turn>, n: nat) returns (marks: seq<nat>)
    requires WentOn(cfg, script, n)
    ensures var log := History(cfg, script[..n]);
            |marks| == n + 1 && Cut(cfg, script, log, marks) && marks[n] == |log|
  {
    hide Turned, Handled;
    if n == 0 {
      marks := [0];
    } else {
      var before := History(cfg, script[..n - 1]);
      marks := HistoryCut(cfg, script, n - 1);
      HistoryNext(cfg, script, n - 1);
      RunsAreLawful(cfg, script, n - 1);
      TurnHandled(cfg, before, script[n - 1]);
      var log := History(cfg, script[..n]);
      CutExtends(cfg, script, before, log, marks);
      assert log[..|before|] == before;
      CutMore(cfg, script, log, marks);
      marks := marks + [|log|];
    }
  }

  /** The whole run: the pieces of the iterations that went on, and behind them what
      the last one did if it ended the loop. */
  ghost predicate Traced(cfg: Config, script: seq<Turn>, n: nat, log: seq<Action>, out: Outcome, marks: seq<nat>) {
    && n <= |script| && |marks| == n + 1 && Cut(cfg, script, log, marks)
    && if out == Running then n == |script| && marks[n] == |log|
       else n < |script| && Handled(cfg, log[..marks[n]], script[n], log[marks[n]..], out)
  }

  /** The packets in a log, each with its stream. */
  function PacketsOf(log: seq<Action>): seq<(nat, seq<byte>)> {
    if log == [] then []
    else if log[0].PacketSent? then [(log[0].packetStream, log[0].packet)] + PacketsOf(log[1..])
    else PacketsOf(log[1..])
  }

  /** The packet that an iteration owes, if it got past the deadline, no preferred
      event was there, and a request stream was held. */
  function Owed(cfg: Config, p: Past, t: Turn): seq<(nat, seq<byte>)> {
    if InTime(cfg, p, t) && OutboundTaken(cfg, p, t) && t.outbound.value.Some? && p.stream.Some? then
      [(p.stream.value, t.outbound.value.value)]
    else []
  }

  /** What the first `k` iterations owe, in order. */
  function OwedBy(cfg: Config, script: seq<Turn>, log: seq<Action>, marks: seq<nat>, k: nat): seq<(nat, seq<byte>)>
    requires k <= |script| && k <= |marks| && forall i :: 0 <= i < k ==> marks[i] <= |log|
  {
    if k == 0 then []
    else OwedBy(cfg, script, log, marks, k - 1) + Owed(cfg, PastOf(log[..marks[k - 1]]), script[k - 1])
  }

  lemma PacketsAppend(a: seq<Action>, b: seq<Action>)
    ensures PacketsOf(a + b) == PacketsOf(a) + PacketsOf(b)
  {
    if a == [] {
      assert a + b == b;
    } else {
      assert (a + b)[1..] == a[1..] + b;
      PacketsAppend(a[1..], b);
    }
  }

  lemma {:induction false} NoPackets(log: seq<Action>)
    requires forall i :: 0 <= i < |log| ==> !log[i].PacketSent?
    ensures PacketsOf(log) == []
  {
    if log != [] {
      assert forall i :: 0 <= i < |log| - 1 ==> log[1..][i] == log[i + 1];
      NoPackets(log[1..]);
    }
  }

  lemma PiecePackets(cfg: Config, before: seq<Action>, t: Turn, added: seq<Action>, out: Outcome)
    requires Handled(cfg, before, t, added, out)
    ensures PacketsOf(added) == Owed(cfg, PastOf(before), t)
  {
    hide PastOf, Leads, InTime, ProbeDue, Asks, Asked, DataComes, Retries;
    var p := PastOf(before);
    if added != [] {
      assert added[0] in added;
      forall i | 0 < i < |added| ensures !added[i].PacketSent? {
        assert Rank(cfg.dataCheck, added[0]) < Rank(cfg.dataCheck, added[i]);
      }
      NoPackets(added[1..]);
    }
    if Owed(cfg, p, t) != [] {
      assert PacketSent(p.stream.value, t.outbound.value.value) in added;
      var i :| 0 <= i < |added| && added[i] == PacketSent(p.stream.value, t.outbound.value.value);
      assert i == 0;
    }
  }

  lemma {:induction false} PacketsSoFar(cfg: Config, script: seq<Turn>, log: seq<Action>, marks: seq<nat>, k: nat)
    requires Cut(cfg, script, log, marks) && k < |marks|
    ensures forall i :: 0 <= i <= k ==> marks[i] <= |log|
    ensures PacketsOf(log[..marks[k]]) == OwedBy(cfg, script, log, marks, k)
  {
    hide Handled, PastOf, Owed;
    if k > 0 {
      PacketsSoFar(cfg, script, log, marks, k - 1);
      assert Piece(cfg, script, log, marks, k - 1);
      var piece := log[marks[k - 1]..marks[k]];
      PiecePackets(cfg, log[..marks[k - 1]], script[k - 1], piece, Running);
      assert log[..marks[k]] == log[..marks[k - 1]] + piece;
      PacketsAppend(log[..marks[k - 1]], piece);
    } else {
      assert log[..0] == [];
    }
  }

  /** The packets that went out in a run are exactly those that the entered
      iterations owe, in order, each once and on its stream. */
  lemma PacketsGoOut(cfg: Config, script: seq<Turn>, n: nat, log: seq<Action>, out: Outcome, marks: seq<nat>)
    requires Traced(cfg, script, n, log, out, marks)
    ensures forall i :: 0 <= i <= n ==> marks[i] <= |log|
    ensures PacketsOf(log) == OwedBy(cfg, script, log, marks, n)
            + if out == Running then [] else Owed(cfg, PastOf(log[..marks[n]]), script[n])
  {
    hide Handled, PastOf, Owed;
    PacketsSoFar(cfg, script, log, marks, n);
    assert log == log[..marks[n]] + log[marks[n]..];
    PacketsAppend(log[..marks[n]], log[marks[n]..]);
    if out == Running {
      assert log[marks[n]..] == [];
    } else {
      PiecePackets(cfg, log[..marks[n]], script[n], log[marks[n]..], out);
    }
  }

  // ---- The loop ----------------------------------------------------------

  lemma Start(cfg: Config, script: seq<Turn>)
    ensures WentOn(cfg, script, 0) && PastOf([]) == Past(0, 0, false, None, 0, 0) && History(cfg, []) == []
  {
  }

  /** The variables of `run`, and what it has done. */
  class Tunnel {
    const cfg: Config
    var log: seq<Action>
    var readyTx: bool
    var signals: nat
    var readyFired: bool
    var validateDeadline: Option<nat>
    var validateSuccesses: nat
    var currentEch: bool
    var h3Conn: bool
    var reqStream: Option<nat>
    var establishedEver: bool
    var echRetried: bool

    /** The gate as the history tells it. */
    ghost predicate Gate(p: Past)
      reads this
    {
      && p.readies == (if readyFired then 1 else 0)
      && (readyTx <==> cfg.hasReadyTx && !readyFired)
      && signals == (if cfg.hasReadyTx && readyFired then 1 else 0)
      && validateDeadline == Deadline(cfg, p)
      && (cfg.dataCheck ==> validateSuccesses == Min(p.deliveries, REQUIRED_SUCCESSES))
      && (cfg.dataCheck ==> (readyFired <==> validateSuccesses == REQUIRED_SUCCESSES))
      && p.established == establishedEver
      && p.retries == (if echRetried then 1 else 0)
      && currentEch == cfg.ech
    }

    ghost predicate Valid()
      reads this
    {
      && Gate(PastOf(log))
      && PastOf(log).stream == reqStream
      && (h3Conn <==> reqStream.Some?) && (establishedEver <==> reqStream.Some?)
      && (!cfg.dataCheck ==> (readyFired <==> reqStream.Some?))
      && (validateSuccesses > 0 ==> reqStream.Some?)
    }

    constructor (cfg: Config)
      ensures this.cfg == cfg && log == [] && Valid()
    {
      this.cfg, log := cfg, [];
      readyTx, signals, readyFired := cfg.hasReadyTx, 0, false;
      validateDeadline, validateSuccesses := None, 0;
      currentEch, h3Conn, reqStream := cfg.ech, false, None;
      establishedEver, echRetried := false, false;
      new;
      assert PastOf(log) == Past(0, 0, false, None, 0, 0);
    }

    method Did(a: Action)
      modifies this`log
      ensures log == old(log) + [a] && PastOf(log) == Next(PastOf(old(log)), a)
    {
      Appended(cfg, log, a);
      log := log + [a];
    }

    /** Opens the gate and tells whoever waits for it. */
    method Open()
      requires !readyFired
      modifies this`log, this`readyFired, this`readyTx, this`signals
      ensures log == old(log) + [ReadyFired] && PastOf(log) == Next(PastOf(old(log)), ReadyFired)
      ensures readyFired && !readyTx && signals == old(signals) + if old(readyTx) then 1 else 0
    {
      readyFired := true;
      if readyTx { signals, readyTx := signals + 1, false; }
      Did(ReadyFired);
    }

    /** The event that the iteration takes. */
    method Select(t: Turn)
      requires Valid()
      modifies this`log
      ensures log == Arm(cfg, old(log), t)
      ensures Valid()
    {
      hide PastOf, Lawful, May;
      if t.keepaliveTick {
      } else if t.probeTick && cfg.dataCheck && !readyFired {
        if reqStream.Some? {
          Did(ProbeSent(reqStream.value));
        }
      } else if t.netRecv {
      } else if t.ctrl {
      } else if t.outbound.Some? {
        if t.outbound.value.Some? && reqStream.Some? {
          Did(PacketSent(reqStream.value, t.outbound.value.value));
        }
      }
    }

    method Establish(t: Turn) returns (out: Outcome)
      requires Valid()
      modifies this
      ensures (log, out) == Asking(cfg, old(log), t)
      ensures Gate(PastOf(log)) && (out == Running ==> Valid())
    {
      hide PastOf, Lawful, May;
      out := Running;
      if t.established && !h3Conn {
        establishedEver := true;
        Did(Established);
        if !t.transportOk || t.request == None {
          return HttpError;
        }
        Did(RequestSent(t.request.value, t.at));
        reqStream, h3Conn := t.request, true;
        if cfg.dataCheck {
          validateDeadline := Some(t.at + cfg.validationTimeout);
        } else if !readyFired {
          Open();
        }
      }
    }

    method Receive(t: Turn) returns (out: Outcome)
      requires Valid()
      modifies this
      ensures (log, out) == Receiving(old(log), t)
      ensures Valid()
    {
      hide PastOf, Lawful, May, Received;
      if h3Conn && reqStream.Some? && !t.pollOk {
        return HttpError;
      }
      out := Running;
      var gotData, sent := DrainDatagrams(reqStream, t.incoming, t.room);
      ReceivedNothing(t.incoming, t.room);
      if gotData {
        Did(Delivered(sent));
        if !readyFired {
          validateSuccesses := validateSuccesses + 1;
          if validateSuccesses >= REQUIRED_SUCCESSES {
            validateDeadline := None;
            Open();
          }
        }
      }
    }

    method Finish(t: Turn) returns (out: Outcome)
      requires Valid()
      modifies this
      ensures (log, out) == Closing(cfg, old(log), t)
      ensures Gate(PastOf(log)) && (out == Running ==> Valid())
    {
      hide PastOf, Lawful, May;
      if !t.flushOk {
        return FlushError;
      }
      if !t.closed {
        return Running;
      }
      if establishedEver || echRetried || !currentEch || !t.retryConfig {
        return Finished;
      }
      echRetried, currentEch := true, true;
      Did(EchRetried);
      if !t.retryOk {
        return RetryError;
      }
      h3Conn, reqStream := false, None;
      out := Running;
    }

    /** One iteration of the loop. */
    method Iterate(t: Turn) returns (out: Outcome)
      requires Valid()
      modifies this
      ensures (log, out) == Turned(cfg, old(log), t)
      ensures Gate(PastOf(log)) && (out == Running ==> Valid())
    {
      hide PastOf, Lawful, May, Arm, Asking, Receiving, Closing;
      if cfg.dataCheck && !readyFired {
        if validateDeadline.Some? && t.atValidate >= validateDeadline.value {
          return ValidationTimeout;
        }
      }
      Select(t);
      out := Establish(t);
      if out != Running { return; }
      out := Receive(t);
      if out != Running { return; }
      out := Finish(t);
    }
  }

  /** `run` from its first iteration on: it enters iterations until one of them
      ends it, and what it did is the history those lead to.  The ready signal goes
      out once at most, and exactly when the gate has opened and somebody waits for
      it; no iteration got past the loop head at or after a live deadline. */
  method Run(cfg: Config, script: seq<Turn>)
    returns (out: Outcome, log: seq<Action>, n: nat, signals: nat, ghost marks: seq<nat>)
    ensures n <= |script| && WentOn(cfg, script, n)
    ensures if out == Running then n == |script| && log == History(cfg, script)
            else n < |script| && (log, out) == Turned(cfg, History(cfg, script[..n]), script[n])
    ensures signals == (if cfg.hasReadyTx then PastOf(log).readies else 0) && signals <= 1
    ensures Lawful(cfg, log)
    ensures forall i: nat {:trigger PassedHead(script, n, out, i)} ::
              PassedHead(script, n, out, i) ==> InTime(cfg, PastOf(History(cfg, script[..i])), script[i])
    ensures Traced(cfg, script, n, log, out, marks)
  {
    hide PastOf, History, WentOn, Turned, Lawful, Between, InTime, PassedHead, Traced, Cut;
    Start(cfg, script);
    var tunnel := new Tunnel(cfg);
    out, n := Running, |script|;
    assert script[..|script|] == script;
    for i := 0 to |script|
      invariant out == Running && n == |script|
      invariant fresh(tunnel) && tunnel.cfg == cfg && tunnel.Valid()
      invariant tunnel.log == History(cfg, script[..i]) && WentOn(cfg, script, i)
    {
      HistoryNext(cfg, script, i);
      RunsAreLawful(cfg, script, i);
      TurnIsLawful(cfg, tunnel.log, script[i]);
      out := tunnel.Iterate(script[i]);
      if out != Running {
        n := i;
        break;
      }
    }
    log, signals := tunnel.log, tunnel.signals;
    RunsAreLawful(cfg, script, n);
    DeadlinesKept(cfg, script, n, out);
    marks := RunTraced(cfg, script, n, log, out);
  }

  lemma RunTraced(cfg: Config, script: seq<Turn>, n: nat, log: seq<Action>, out: Outcome) returns (marks: seq<nat>)
    requires WentOn(cfg, script, n)
    requires if out == Running then n == |script| && log == History(cfg, script)
             else n < |script| && (log, out) == Turned(cfg, History(cfg, script[..n]), script[n])
    ensures Traced(cfg, script, n, log, out, marks)
  {
    hide Handled, Turned, History, Cut;
    marks := HistoryCut(cfg, script, n);
    RunsAreLawful(cfg, script, n);
    if out == Running {
      assert script[..|script|] == script;
    } else {
      var before := History(cfg, script[..n]);
      TurnHandled(cfg, before, script[n]);
      CutExtends(cfg, script, before, log, marks);
      assert log[..|before|] == before;
    }
  }
}
