/** The tunnel loop over HTTP/2: the readiness gate and the keepalive machine.
    A run is driven by a script that says, for each iteration, what the clock
    shows and which of the awaited events are there; the loop takes the first one
    in its fixed order whose guard holds. */
module H2Loop {
  import opened Wire

  const REQUIRED_SUCCESSES: nat := 2

  datatype Config = Config(
    dataCheck: bool, hasReadyTx: bool, start: nat, validationTimeout: nat, keepaliveTimeout: nat)

  datatype Control = Close | Migrate | HungUp

  datatype BodyEvent = Chunk(gotData: bool) | BodyFailed | BodyEnded

  /** A packet that the application sends, and whether the stream takes it. */
  datatype Outgoing = Outgoing(packet: seq<byte>, sendOk: bool)

  /** One iteration: the clock at its two deadline checks and when an event is
      handled; the events that are there, with the results of what they lead to. */
  datatype Turn = Turn(
    atValidate: nat, atPong: nat, at: nat,
    tick: bool, pingOk: bool, pong: Option<bool>, probeTick: bool,
    ctrl: Option<Control>, outbound: Option<Option<Outgoing>>, body: Option<BodyEvent>)

  datatype Action = ProbeSent | Delivered | ReadyFired | PingSent(at: nat) | PongReceived | PacketSent(packet: seq<byte>)

  datatype Outcome =
    | Running | Parked | ValidationTimeout | KeepaliveTimeout | KeepaliveError
    | Finished | SendError | BodyError

  // ---- The history of a run ----------------------------------------------

  function Readies(log: seq<Action>): nat {
    if log == [] then 0 else Readies(log[..|log| - 1]) + if log[|log| - 1].ReadyFired? then 1 else 0
  }

  function Deliveries(log: seq<Action>): nat {
    if log == [] then 0 else Deliveries(log[..|log| - 1]) + if log[|log| - 1].Delivered? then 1 else 0
  }

  function PingsSent(log: seq<Action>): nat {
    if log == [] then 0 else PingsSent(log[..|log| - 1]) + if log[|log| - 1].PingSent? then 1 else 0
  }

  function PongsReceived(log: seq<Action>): nat {
    if log == [] then 0 else PongsReceived(log[..|log| - 1]) + if log[|log| - 1].PongReceived? then 1 else 0
  }

  /** When the last ping was sent, if it is unanswered. */
  function OpenPing(log: seq<Action>): Option<nat> {
    if log == [] then None
    else match log[|log| - 1]
         case PingSent(at) => Some(at)
         case PongReceived => None
         case _ => OpenPing(log[..|log| - 1])
  }

  /** What may follow the history `log`: the gate opens once, and with data
      checking only when exactly two iterations have delivered data; a ping needs
      an open gate and no unanswered ping, a pong needs one; probes stop at the
      gate; no third delivery happens before it. */
  predicate May(dataCheck: bool, log: seq<Action>, a: Action) {
    match a
    case ReadyFired => Readies(log) == 0 && (dataCheck ==> Deliveries(log) == REQUIRED_SUCCESSES)
    case Delivered => dataCheck && Readies(log) == 0 ==> Deliveries(log) < REQUIRED_SUCCESSES
    case PingSent(_) => Readies(log) == 1 && OpenPing(log) == None
    case PongReceived => OpenPing(log).Some?
    case ProbeSent => dataCheck && Readies(log) == 0
    case PacketSent(_) => true
  }

  predicate Lawful(dataCheck: bool, log: seq<Action>) {
    log == [] || (Lawful(dataCheck, log[..|log| - 1]) && May(dataCheck, log[..|log| - 1], log[|log| - 1]))
  }

  /** The deadlines that are live after the history `log`. */
  function ValidateDeadline(cfg: Config, log: seq<Action>): Option<nat> {
    if cfg.dataCheck && Readies(log) == 0 then Some(cfg.start + cfg.validationTimeout) else None
  }

  function PongDeadline(cfg: Config, log: seq<Action>): Option<nat> {
    match OpenPing(log) case Some(at) => Some(at + cfg.keepaliveTimeout) case None => None
  }

  predicate Reached(deadline: Option<nat>, now: nat) {
    deadline.Some? && now >= deadline.value
  }

  // ---- What a script leads to, told by the history alone -----------------

  /** What an iteration that goes on adds to the history `log`. */
  function Due(cfg: Config, log: seq<Action>, t: Turn): seq<Action> {
    var open, waiting := Readies(log) > 0, OpenPing(log).Some?;
    if t.tick && open && !waiting then if t.pingOk then [PingSent(t.at)] else []
    else if t.pong.Some? && waiting then if t.pong.value then [PongReceived] else []
    else if t.probeTick && cfg.dataCheck && !open then [ProbeSent]
    else if t.ctrl.Some? then []
    else if t.outbound.Some? then
      if t.outbound.value.Some? && t.outbound.value.value.sendOk then [PacketSent(t.outbound.value.value.packet)] else []
    else if t.body != Some(Chunk(true)) then []
    else if open then [Delivered]
    else [Delivered, if Deliveries(log) + 1 >= REQUIRED_SUCCESSES then ReadyFired else ProbeSent]
  }

  /** Whether and how an iteration ends the loop. */
  function Ends(cfg: Config, log: seq<Action>, t: Turn): Outcome {
    var open, waiting := Readies(log) > 0, OpenPing(log).Some?;
    if Reached(ValidateDeadline(cfg, log), t.atValidate) then ValidationTimeout
    else if Reached(PongDeadline(cfg, log), t.atPong) then KeepaliveTimeout
    else if t.tick && open && !waiting then Running
    else if t.pong.Some? && waiting then if t.pong.value then Running else KeepaliveError
    else if t.probeTick && cfg.dataCheck && !open then Running
    else if t.ctrl.Some? then if t.ctrl.value == Migrate then Running else Finished
    else if t.outbound.Some? then
      if t.outbound.value == None then Finished
      else if t.outbound.value.value.sendOk then Running else SendError
    else match t.body
         case None => Parked
         case Some(Chunk(_)) => Running
         case Some(BodyFailed) => BodyError
         case Some(BodyEnded) => Finished
  }

  function History(cfg: Config, script: seq<Turn>): seq<Action> {
    if script == [] then [if cfg.dataCheck then ProbeSent else ReadyFired]
    else
      var log := History(cfg, script[..|script| - 1]);
      log + Due(cfg, log, script[|script| - 1])
  }

  /** None of the first `n` iterations ended the loop. */
  ghost predicate WentOn(cfg: Config, script: seq<Turn>, n: nat) {
    n <= |script| && forall i :: 0 <= i < n ==> Ends(cfg, History(cfg, script[..i]), script[i]) == Running
  }

  lemma HistoryNext(cfg: Config, script: seq<Turn>, i: nat)
    requires i < |script|
    ensures History(cfg, script[..i + 1]) ==
            History(cfg, script[..i]) + Due(cfg, History(cfg, script[..i]), script[i])
    ensures WentOn(cfg, script, i + 1) <==>
            WentOn(cfg, script, i) && Ends(cfg, History(cfg, script[..i]), script[i]) == Running
  {
    hide Due, Ends;
    assert script[..i + 1][..i] == script[..i];
  }

  /** Neither live deadline is reached: the validation deadline while the gate is
      closed, and the deadline of the unanswered ping. */
  predicate InTime(cfg: Config, log: seq<Action>, t: Turn) {
    && (cfg.dataCheck && Readies(log) == 0 ==> t.atValidate < cfg.start + cfg.validationTimeout)
    && (OpenPing(log).Some? ==> t.atPong < OpenPing(log).value + cfg.keepaliveTimeout)
  }

  /** Iteration `i` got past the loop head: every one that went on did, and the
      last one unless a deadline stopped it there. */
  predicate PassedHead(script: seq<Turn>, n: nat, out: Outcome, i: nat) {
    i < n || (i == n < |script| && out !in {ValidationTimeout, KeepaliveTimeout})
  }

  /** Deadlines hold over whole runs: every iteration that passed the loop head was
      in time, and the loop is stopped there exactly when it is not. */
  lemma DeadlinesKept(cfg: Config, script: seq<Turn>, n: nat, out: Outcome)
    requires WentOn(cfg, script, n)
    requires n < |script| ==> out == Ends(cfg, History(cfg, script[..n]), script[n])
    ensures forall i: nat {:trigger PassedHead(script, n, out, i)} ::
              PassedHead(script, n, out, i) ==> InTime(cfg, History(cfg, script[..i]), script[i])
    ensures n < |script| ==> (out in {ValidationTimeout, KeepaliveTimeout} <==>
                              !InTime(cfg, History(cfg, script[..n]), script[n]))
  {
    hide History;
  }

  lemma Appended(log: seq<Action>, a: Action)
    ensures Readies(log + [a]) == Readies(log) + if a.ReadyFired? then 1 else 0
    ensures Deliveries(log + [a]) == Deliveries(log) + if a.Delivered? then 1 else 0
    ensures OpenPing(log + [a]) == match a { case PingSent(at) => Some(at) case PongReceived => None case _ => OpenPing(log) }
  {
    assert (log + [a])[..|log|] == log;
  }

  lemma LawfulMore(dataCheck: bool, log: seq<Action>, a: Action)
    requires Lawful(dataCheck, log) && May(dataCheck, log, a)
    ensures Lawful(dataCheck, log + [a])
  {
    assert (log + [a])[..|log|] == log;
  }

  lemma NothingYet(cfg: Config, script: seq<Turn>)
    ensures Lawful(cfg.dataCheck, []) && Readies([]) == 0 && Deliveries([]) == 0 && OpenPing([]) == None
    ensures WentOn(cfg, script, 0)
    ensures History(cfg, script[..0]) == [if cfg.dataCheck then ProbeSent else ReadyFired]
  {
  }

  // ---- What must happen, told by the script entry and the log alone --------

  /** The awaited events, in the order in which the loop prefers them. */
  datatype Arm = Ticks | Pongs | Probes | Controls | Sends | Reads

  function Rank(arm: Arm): nat {
    match arm case Ticks => 0 case Pongs => 1 case Probes => 2 case Controls => 3 case Sends => 4 case Reads => 5
  }

  /** The event is there and its guard holds: ticks need an open gate and no
      unanswered ping, pongs an unanswered one, probes a closed gate. */
  predicate Enabled(cfg: Config, before: seq<Action>, t: Turn, arm: Arm) {
    match arm
    case Ticks => t.tick && Readies(before) > 0 && OpenPing(before) == None
    case Pongs => t.pong.Some? && OpenPing(before).Some?
    case Probes => t.probeTick && cfg.dataCheck && Readies(before) == 0
    case Controls => t.ctrl.Some?
    case Sends => t.outbound.Some?
    case Reads => t.body.Some?
  }

  ghost predicate First(cfg: Config, before: seq<Action>, t: Turn, arm: Arm) {
    Enabled(cfg, before, t, arm) && forall other :: Rank(other) < Rank(arm) ==> !Enabled(cfg, before, t, other)
  }

  /** Exactly what an iteration that got past the deadlines adds to the log: a ping
      with its time, a pong, a probe, the packet, a delivery, the opened gate. */
  ghost predicate Adds(cfg: Config, before: seq<Action>, t: Turn, added: seq<Action>) {
    var data := First(cfg, before, t, Reads) && t.body == Some(Chunk(true));
    && (forall at :: PingSent(at) in added <==> First(cfg, before, t, Ticks) && t.pingOk && at == t.at)
    && (PongReceived in added <==> First(cfg, before, t, Pongs) && t.pong == Some(true))
    && (forall p :: PacketSent(p) in added <==> First(cfg, before, t, Sends) && t.outbound == Some(Some(Outgoing(p, true))))
    && (Delivered in added <==> data)
    && (ReadyFired in added <==> data && Readies(before) == 0 && Deliveries(before) + 1 >= 2)
    && (ProbeSent in added <==>
          First(cfg, before, t, Probes) || (data && Readies(before) == 0 && Deliveries(before) + 1 < 2))
    && |added| <= 2 && (|added| == 2 ==> added[0] == Delivered && added[1] != Delivered)
  }

  /** Exactly how an iteration ends the loop, or that it does not. */
  ghost predicate Leads(cfg: Config, before: seq<Action>, t: Turn, out: Outcome) {
    var validated := cfg.dataCheck && Readies(before) == 0 ==> t.atValidate < cfg.start + cfg.validationTimeout;
    && (out == ValidationTimeout <==> !validated)
    && (out == KeepaliveTimeout <==> validated && !InTime(cfg, before, t))
    && (InTime(cfg, before, t) ==>
          && (out == KeepaliveError <==> First(cfg, before, t, Pongs) && t.pong == Some(false))
          && (out == Finished <==>
                || (First(cfg, before, t, Controls) && (t.ctrl.value.Close? || t.ctrl.value.HungUp?))
                || (First(cfg, before, t, Sends) && t.outbound.value == None)
                || (First(cfg, before, t, Reads) && t.body.value == BodyEnded))
          && (out == SendError <==>
                First(cfg, before, t, Sends) && t.outbound.value.Some? && !t.outbound.value.value.sendOk)
          && (out == BodyError <==> First(cfg, before, t, Reads) && t.body.value == BodyFailed)
          && (out == Parked <==> forall arm :: !Enabled(cfg, before, t, arm)))
  }

  ghost predicate Handled(cfg: Config, before: seq<Action>, t: Turn, added: seq<Action>, out: Outcome) {
    Leads(cfg, before, t, out) && if out == Running then Adds(cfg, before, t, added) else added == []
  }

  lemma FirstIs(cfg: Config, before: seq<Action>, t: Turn, arm: Arm)
    ensures First(cfg, before, t, arm) <==> FirstIn(cfg, before, t, arm)
  {
    hide Enabled;
  }

  predicate FirstIn(cfg: Config, before: seq<Action>, t: Turn, arm: Arm) {
    && Enabled(cfg, before, t, arm)
    && (Rank(arm) > 0 ==> !Enabled(cfg, before, t, Ticks))
    && (Rank(arm) > 1 ==> !Enabled(cfg, before, t, Pongs))
    && (Rank(arm) > 2 ==> !Enabled(cfg, before, t, Probes))
    && (Rank(arm) > 3 ==> !Enabled(cfg, before, t, Controls))
    && (Rank(arm) > 4 ==> !Enabled(cfg, before, t, Sends))
  }

  lemma TurnAdds(cfg: Config, log: seq<Action>, t: Turn)
    requires Ends(cfg, log, t) == Running
    ensures Adds(cfg, log, t, Due(cfg, log, t))
  {
    hide Readies, Deliveries, OpenPing, First;
    forall arm
      ensures First(cfg, log, t, arm) <==> FirstIn(cfg, log, t, arm)
    {
      FirstIs(cfg, log, t, arm);
    }
  }

  lemma TurnLeads(cfg: Config, log: seq<Action>, t: Turn)
    ensures Leads(cfg, log, t, Ends(cfg, log, t))
  {
    hide Readies, Deliveries, OpenPing, First;
    forall arm
      ensures First(cfg, log, t, arm) <==> FirstIn(cfg, log, t, arm)
    {
      FirstIs(cfg, log, t, arm);
    }
    forall arm | Ends(cfg, log, t) == Parked && InTime(cfg, log, t)
      ensures !Enabled(cfg, log, t, arm)
    {
      match arm { case Ticks => case Pongs => case Probes => case Controls => case Sends => case Reads => }
    }
    if forall arm :: !Enabled(cfg, log, t, arm) {
      assert !Enabled(cfg, log, t, Ticks) && !Enabled(cfg, log, t, Pongs) && !Enabled(cfg, log, t, Probes);
      assert !Enabled(cfg, log, t, Controls) && !Enabled(cfg, log, t, Sends) && !Enabled(cfg, log, t, Reads);
    }
  }

  /** What iteration `i` added is the piece of the log between two marks. */
  ghost predicate Piece(cfg: Config, script: seq<Turn>, log: seq<Action>, marks: seq<nat>, i: nat)
    requires i < |marks| - 1 <= |script|
  {
    && marks[i] <= marks[i + 1] <= |log|
    && Handled(cfg, log[..marks[i]], script[i], log[marks[i]..marks[i + 1]], Running)
  }

  /** The log cut into what was there before the first iteration, and what each
      iteration that went on added: `marks[i]` is its length before iteration `i`. */
  ghost predicate Cut(cfg: Config, script: seq<Turn>, log: seq<Action>, marks: seq<nat>) {
    && 0 < |marks| <= |script| + 1 && marks[0] == 1 <= marks[|marks| - 1] == |log|
    && log[0] == (if cfg.dataCheck then ProbeSent else ReadyFired)
    && forall i {:trigger Piece(cfg, script, log, marks, i)} :: 0 <= i < |marks| - 1 ==> Piece(cfg, script, log, marks, i)
  }

  lemma {:induction false} HistoryCut(cfg: Config, script: seq<Turn>, n: nat) returns (marks: seq<nat>)
    requires WentOn(cfg, script, n)
    ensures |marks| == n + 1 && Cut(cfg, script, History(cfg, script[..n]), marks)
  {
    hide Ends, Due, Handled;
    if n == 0 {
      marks := [1];
    } else {
      var before := History(cfg, script[..n - 1]);
      marks := HistoryCut(cfg, script, n - 1);
      HistoryNext(cfg, script, n - 1);
      TurnHandled(cfg, before, script[n - 1]);
      var log := History(cfg, script[..n]);
      CutMore(cfg, script, before, marks, log);
      marks := marks + [|log|];
    }
  }

  lemma CutMore(cfg: Config, script: seq<Turn>, before: seq<Action>, marks: seq<nat>, log: seq<Action>)
    requires Cut(cfg, script, before, marks) && |marks| <= |script| && before <= log
    requires Handled(cfg, before, script[|marks| - 1], log[|before|..], Running)
    ensures Cut(cfg, script, log, marks + [|log|])
  {
    hide Handled;
    var more := marks + [|log|];
    forall i | 0 <= i < |more| - 1
      ensures Piece(cfg, script, log, more, i)
    {
      if i < |marks| - 1 {
        assert Piece(cfg, script, before, marks, i);
        assert log[..more[i]] == before[..more[i]] && log[more[i]..more[i + 1]] == before[more[i]..more[i + 1]];
      } else {
        assert log[..more[i]] == before && log[more[i]..|log|] == log[|before|..];
      }
    }
  }

  lemma TurnHandled(cfg: Config, log: seq<Action>, t: Turn)
    ensures Handled(cfg, log, t, if Ends(cfg, log, t) == Running then Due(cfg, log, t) else [], Ends(cfg, log, t))
  {
    hide Adds, Leads;
    TurnLeads(cfg, log, t);
    if Ends(cfg, log, t) == Running {
      TurnAdds(cfg, log, t);
    }
  }

  /** `run` from the answer to the CONNECT request on.  It enters iterations until
      one of them ends it, and what it did by then is the history of those before.
      The ready signal goes out once at most, and exactly when the gate has opened
      and somebody waits for it; no iteration got past the loop head at or after a
      live deadline.  `marks` cuts the log into what each iteration did, which is
      all that its first enabled event demands, and so is the way the loop ends. */
  method Run(cfg: Config, script: seq<Turn>)
    returns (out: Outcome, log: seq<Action>, n: nat, signals: nat, ghost marks: seq<nat>)
    ensures n <= |script| && WentOn(cfg, script, n) && log == History(cfg, script[..n])
    ensures if out == Running then n == |script| else n < |script| && out == Ends(cfg, log, script[n])
    ensures signals == (if cfg.hasReadyTx then Readies(log) else 0) && signals <= 1
    ensures Lawful(cfg.dataCheck, log)
    ensures |marks| == n + 1 && Cut(cfg, script, log, marks)
    ensures out != Running ==> Handled(cfg, log, script[n], [], out)
    ensures forall i: nat {:trigger PassedHead(script, n, out, i)} ::
              PassedHead(script, n, out, i) ==> InTime(cfg, History(cfg, script[..i]), script[i])
  {
    hide Lawful, Readies, Deliveries, OpenPing, History, WentOn, May, InTime, PassedHead, Cut, Handled;
    NothingYet(cfg, script);
    log, n, signals := [], 0, 0;
    var readyTx := cfg.hasReadyTx;
    var readyFired := false;
    var validateSuccesses := 0;
    var validateDeadline: Option<nat> := None;
    if cfg.dataCheck {
      Appended(log, ProbeSent);
      log := log + [ProbeSent];
      validateDeadline := Some(cfg.start + cfg.validationTimeout);
    } else if !readyFired {
      readyFired := true;
      if readyTx { signals, readyTx := signals + 1, false; }
      Appended(log, ReadyFired);
      log := log + [ReadyFired];
    }
    var awaitingPong := false;
    var pongDeadline: Option<nat> := None;

    out, n := Running, |script|;
    assert script[..|script|] == script;
    for i := 0 to |script|
      invariant out == Running && n == |script|
      invariant log == History(cfg, script[..i]) && WentOn(cfg, script, i)
      invariant Readies(log) == if readyFired then 1 else 0
      invariant readyTx <==> cfg.hasReadyTx && !readyFired
      invariant signals == if cfg.hasReadyTx && readyFired then 1 else 0
      invariant !cfg.dataCheck ==> readyFired
      invariant cfg.dataCheck ==> validateSuccesses == Min(Deliveries(log), REQUIRED_SUCCESSES)
      invariant cfg.dataCheck ==> (readyFired <==> validateSuccesses == REQUIRED_SUCCESSES)
      invariant validateDeadline == ValidateDeadline(cfg, log)
      invariant awaitingPong <==> OpenPing(log).Some?
      invariant pongDeadline == PongDeadline(cfg, log)
      invariant awaitingPong ==> readyFired
    {
      var t := script[i];
      HistoryNext(cfg, script, i);
      if cfg.dataCheck && !readyFired {
        if validateDeadline.Some? && t.atValidate >= validateDeadline.value {
          out, n := ValidationTimeout, i;
          break;
        }
      }
      if pongDeadline.Some? && t.atPong >= pongDeadline.value {
        out, n := KeepaliveTimeout, i;
        break;
      }

      if t.tick && readyFired && !awaitingPong {
        if t.pingOk {
          awaitingPong := true;
          pongDeadline := Some(t.at + cfg.keepaliveTimeout);
          Appended(log, PingSent(t.at));
          log := log + [PingSent(t.at)];
        }
      } else if t.pong.Some? && awaitingPong {
        if !t.pong.value {
          out, n := KeepaliveError, i;
          break;
        }
        awaitingPong := false;
        pongDeadline := None;
        Appended(log, PongReceived);
        log := log + [PongReceived];
      } else if t.probeTick && cfg.dataCheck && !readyFired {
        Appended(log, ProbeSent);
        log := log + [ProbeSent];
      } else if t.ctrl.Some? {
        if t.ctrl.value != Migrate {
          out, n := Finished, i;
          break;
        }
      } else if t.outbound.Some? {
        match t.outbound.value {
          case Some(Outgoing(packet, sendOk)) =>
            if !sendOk {
              out, n := SendError, i;
              break;
            }
            Appended(log, PacketSent(packet));
            log := log + [PacketSent(packet)];
          case None =>
            out, n := Finished, i;
            break;
        }
      } else if t.body.Some? {
        match t.body.value {
          case Chunk(gotData) =>
            if gotData {
              Appended(log, Delivered);
              log := log + [Delivered];
              if !readyFired {
                validateSuccesses := validateSuccesses + 1;
                if validateSuccesses >= REQUIRED_SUCCESSES {
                  readyFired := true;
                  validateDeadline := None;
                  if readyTx { signals, readyTx := signals + 1, false; }
                  Appended(log, ReadyFired);
                  log := log + [ReadyFired];
                } else {
                  Appended(log, ProbeSent);
                  log := log + [ProbeSent];
                }
              }
            }
          case BodyFailed =>
            out, n := BodyError, i;
            break;
          case BodyEnded =>
            out, n := Finished, i;
            break;
        }
      } else {
        out, n := Parked, i;
        break;
      }
    }
    RunsAreLawful(cfg, script[..n]);
    DeadlinesKept(cfg, script, n, out);
    marks := HistoryCut(cfg, script, n);
    if out != Running {
      TurnHandled(cfg, log, script[n]);
    }
  }

  /** Every run is lawful; with data checking the gate is open from the second
      delivery on, without it from the start. */
  lemma {:induction false} RunsAreLawful(cfg: Config, script: seq<Turn>)
    ensures var log := History(cfg, script);
            && Lawful(cfg.dataCheck, log)
            && Readies(log) == (if !cfg.dataCheck || Deliveries(log) >= 2 then 1 else 0)
  {
    hide Lawful, Readies, Deliveries, OpenPing, Due;
    if script == [] {
      NothingYet(cfg, script);
      var a := if cfg.dataCheck then ProbeSent else ReadyFired;
      Appended([], a);
      LawfulMore(cfg.dataCheck, [], a);
      assert [] + [a] == [a];
    } else {
      RunsAreLawful(cfg, script[..|script| - 1]);
      TurnIsLawful(cfg, History(cfg, script[..|script| - 1]), script[|script| - 1]);
    }
  }

  lemma TurnIsLawful(cfg: Config, log: seq<Action>, t: Turn)
    requires Lawful(cfg.dataCheck, log)
    requires Readies(log) == (if !cfg.dataCheck || Deliveries(log) >= 2 then 1 else 0)
    ensures var after := log + Due(cfg, log, t);
            && Lawful(cfg.dataCheck, after)
            && Readies(after) == (if !cfg.dataCheck || Deliveries(after) >= 2 then 1 else 0)
  {
    hide Lawful, Readies, Deliveries, OpenPing;
    var due := Due(cfg, log, t);
    if due == [] {
      assert log + due == log;
    } else {
      Appended(log, due[0]);
      LawfulMore(cfg.dataCheck, log, due[0]);
      if |due| == 2 {
        Appended(log + [due[0]], due[1]);
        LawfulMore(cfg.dataCheck, log + [due[0]], due[1]);
        assert log + due == log + [due[0]] + [due[1]];
      }
    }
  }

  // ---- What every lawful history implies ---------------------------------

  /** At every moment of every run: the gate has opened at most once; pings
      outnumber pongs by one exactly while a ping is unanswered, and never by
      more; without an open gate nothing was pinged. */
  lemma {:induction false} LawfulHistory(dataCheck: bool, log: seq<Action>, k: nat)
    requires Lawful(dataCheck, log) && k <= |log|
    ensures Lawful(dataCheck, log[..k]) && Readies(log[..k]) <= 1
    ensures PingsSent(log[..k]) == PongsReceived(log[..k]) + if OpenPing(log[..k]).Some? then 1 else 0
    ensures Readies(log[..k]) == 0 ==> PingsSent(log[..k]) == 0
    decreases |log| + k
  {
    if k == |log| {
      assert log[..k] == log;
      if k > 0 {
        LawfulHistory(dataCheck, log[..k - 1], k - 1);
        assert log[..k - 1][..k - 1] == log[..k - 1];
      }
    } else {
      LawfulHistory(dataCheck, log[..|log| - 1], k);
      assert log[..|log| - 1][..k] == log[..k];
    }
  }

  /** Where the gate opens with data checking on, exactly two deliveries lie
      behind it, and every ping lies after it. */
  lemma {:induction false} GateAfterTwoDeliveries(log: seq<Action>, k: nat)
    requires Lawful(true, log) && k < |log|
    ensures log[k].ReadyFired? ==> Deliveries(log[..k]) == 2
    ensures log[k].PingSent? ==> exists j :: 0 <= j < k && log[j].ReadyFired?
  {
    LawfulHistory(true, log, k + 1);
    assert log[..k + 1][..k] == log[..k];
    if log[k].PingSent? {
      SomeReady(log[..k]);
    }
  }

  /** The ping sent at this time is the last one, and no pong came after it. */
  ghost predicate Unanswered(log: seq<Action>, at: nat) {
    exists j :: 0 <= j < |log| && log[j] == PingSent(at)
                && forall k :: j < k < |log| ==> !log[k].PingSent? && !log[k].PongReceived?
  }

  /** An open gate is one that the log shows opened. */
  lemma {:induction false} GateTold(log: seq<Action>)
    ensures Readies(log) > 0 <==> ReadyFired in log
  {
    if log != [] {
      GateTold(log[..|log| - 1]);
      assert log == log[..|log| - 1] + [log[|log| - 1]];
    }
  }

  /** An open ping is one that the log shows sent and unanswered. */
  lemma {:induction false} PingTold(log: seq<Action>, at: nat)
    ensures OpenPing(log) == Some(at) <==> Unanswered(log, at)
  {
    if log != [] {
      var before, last := log[..|log| - 1], log[|log| - 1];
      PingTold(before, at);
      UnansweredMore(before, last, at);
      assert log == before + [last];
    }
  }

  lemma UnansweredMore(before: seq<Action>, last: Action, at: nat)
    ensures Unanswered(before + [last], at) <==>
            last == PingSent(at) || (Unanswered(before, at) && !last.PingSent? && !last.PongReceived?)
  {
    var log := before + [last];
    assert log[|before|] == last;
    if last == PingSent(at) {
      assert log[|before|] == PingSent(at);
    } else if Unanswered(log, at) {
      var j :| 0 <= j < |log| && log[j] == PingSent(at)
               && forall k :: j < k < |log| ==> !log[k].PingSent? && !log[k].PongReceived?;
      assert before[j] == PingSent(at);
      assert forall k :: j < k < |before| ==> before[k] == log[k];
    } else if Unanswered(before, at) {
      var j :| 0 <= j < |before| && before[j] == PingSent(at)
               && forall k :: j < k < |before| ==> !before[k].PingSent? && !before[k].PongReceived?;
      assert log[j] == PingSent(at);
    }
  }

  lemma {:induction false} SomeReady(log: seq<Action>)
    requires Readies(log) > 0
    ensures exists j :: 0 <= j < |log| && log[j].ReadyFired?
  {
    if !log[|log| - 1].ReadyFired? {
      SomeReady(log[..|log| - 1]);
      var j :| 0 <= j < |log| - 1 && log[..|log| - 1][j].ReadyFired?;
      assert log[j].ReadyFired?;
    }
  }
}
