/** The check of a candidate over QUIC: ask for the tunnel, wait for status 200, and
    with data checking for two packets through it. */
module MasqueVerify {
  import opened Wire
  import opened Masque
  import opened Datagrams

  const REQUIRED_SUCCESSES: nat := 2
  const RESEND_AFTER: nat := 700

  /** An HTTP/3 event: a status on the request's stream, anything else, an error. */
  datatype H3Event = Status(is200: bool, at: nat) | Other | H3Failed

  /** One iteration.  `probeAt` is the clock when the last probe's age is looked at,
      `replyAt` when a packet is answered. */
  datatype Turn = Turn(
    now: nat, recvFailed: bool, established: bool, transportOk: bool, request: Option<nat>,
    events: seq<H3Event>, probeAt: nat, incoming: seq<seq<byte>>, replyAt: nat, flushOk: bool, closed: bool)

  datatype Action = Asked(streamId: nat) | Accepted(at: nat) | Resent(at: nat) | Confirmed(packet: seq<byte>) | Reply(at: nat)

  datatype Outcome = Running | Verified | Timeout | IoError | HttpError | BadStatus | FlushError | ClosedEarly

  // ---- The history of a check --------------------------------------------

  /** `probed` is the time of the last probe. */
  datatype Past = Past(stream: Option<nat>, accepted: bool, confirmations: nat, probed: nat)

  function Next(p: Past, a: Action): Past {
    match a
    case Asked(sid) => p.(stream := Some(sid))
    case Accepted(at) => p.(accepted := true, probed := at)
    case Resent(at) => p.(probed := at)
    case Confirmed(_) => p.(confirmations := p.confirmations + 1)
    case Reply(at) => p.(probed := at)
  }

  function PastOf(log: seq<Action>): Past {
    if log == [] then Past(None, false, 0, 0) else Next(PastOf(log[..|log| - 1]), log[|log| - 1])
  }

  /** The rules: one request; a probe again only after 700 without one; a packet
      counts only after status 200 and while fewer than two have come. */
  predicate May(dataCheck: bool, p: Past, a: Action) {
    match a
    case Asked(_) => p.stream == None
    case Accepted(_) => p.stream.Some? && p.confirmations < REQUIRED_SUCCESSES && (p.accepted ==> dataCheck)
    case Resent(at) => dataCheck && p.accepted && p.probed + RESEND_AFTER <= at && p.confirmations < REQUIRED_SUCCESSES
    case Confirmed(_) => dataCheck && p.accepted && p.confirmations < REQUIRED_SUCCESSES
    case Reply(_) => p.confirmations == 1
  }

  predicate Lawful(dataCheck: bool, log: seq<Action>) {
    log == [] || (Lawful(dataCheck, log[..|log| - 1]) && May(dataCheck, PastOf(log[..|log| - 1]), log[|log| - 1]))
  }

  lemma Appended(log: seq<Action>, a: Action)
    ensures PastOf(log + [a]) == Next(PastOf(log), a)
    ensures forall dataCheck | Lawful(dataCheck, log) && May(dataCheck, PastOf(log), a) :: Lawful(dataCheck, log + [a])
  {
    assert (log + [a])[..|log|] == log;
  }

  // ---- What an iteration leads to ----------------------------------------

  function Asking(log: seq<Action>, t: Turn): (seq<Action>, Outcome) {
    if !t.established || PastOf(log).stream.Some? then (log, Running)
    else if !t.transportOk || t.request == None then (log, HttpError)
    else (log + [Asked(t.request.value)], Running)
  }

  function Statuses(dataCheck: bool, log: seq<Action>, events: seq<H3Event>): (seq<Action>, Outcome)
    decreases |events|
  {
    if events == [] then (log, Running)
    else match events[0]
         case Other => Statuses(dataCheck, log, events[1..])
         case H3Failed => (log, HttpError)
         case Status(ok, at) =>
           if !ok then (log, BadStatus)
           else if !dataCheck then (log + [Accepted(at)], Verified)
           else Statuses(dataCheck, log + [Accepted(at)], events[1..])
  }

  function Probing(log: seq<Action>, at: nat): seq<Action> {
    if at >= PastOf(log).probed + RESEND_AFTER then log + [Resent(at)] else log
  }

  function Draining(log: seq<Action>, sid: nat, incoming: seq<seq<byte>>, at: nat): (seq<Action>, Outcome)
    decreases |incoming|
  {
    if incoming == [] then (log, Running)
    else
      var r := DecodeIpDatagram(incoming[0], sid);
      if r.Err? || r.value == None then Draining(log, sid, incoming[1..], at)
      else
        var more := log + [Confirmed(r.value.value)];
        if PastOf(log).confirmations + 1 >= REQUIRED_SUCCESSES then (more, Verified)
        else Draining(more + [Reply(at)], sid, incoming[1..], at)
  }

  function Serving(log: seq<Action>, t: Turn): (seq<Action>, Outcome) {
    var p := PastOf(log);
    if !p.accepted || p.stream == None then (log, Running)
    else Draining(Probing(log, t.probeAt), p.stream.value, t.incoming, t.replyAt)
  }

  function Turned(dataCheck: bool, deadline: nat, log: seq<Action>, t: Turn): (seq<Action>, Outcome) {
    if t.now >= deadline then (log, Timeout)
    else if t.recvFailed then (log, IoError)
    else
      var asked := Asking(log, t);
      if asked.1 != Running then asked
      else
        var polled := if PastOf(asked.0).stream.Some? then Statuses(dataCheck, asked.0, t.events) else asked;
        if polled.1 != Running then polled
        else
          var served := Serving(polled.0, t);
          if served.1 != Running then served
          else (served.0, if !t.flushOk then FlushError else if t.closed then ClosedEarly else Running)
  }

  // ---- Every check is lawful ---------------------------------------------

  /** What holds while the check goes on. */
  predicate Going(dataCheck: bool, log: seq<Action>) {
    var p := PastOf(log);
    && Lawful(dataCheck, log) && p.confirmations < REQUIRED_SUCCESSES
    && (p.accepted ==> dataCheck && p.stream.Some?)
    && (p.confirmations > 0 ==> p.accepted)
  }

  /** What holds of any stage: a verdict of success means a 200, and with data
      checking exactly two packets. */
  predicate Sound(dataCheck: bool, r: (seq<Action>, Outcome)) {
    var p := PastOf(r.0);
    && Lawful(dataCheck, r.0)
    && (if r.1 == Verified then
          p.stream.Some? && p.accepted && (dataCheck ==> p.confirmations == REQUIRED_SUCCESSES)
        else Going(dataCheck, r.0))
  }

  lemma AskingSound(dataCheck: bool, log: seq<Action>, t: Turn)
    requires Going(dataCheck, log)
    ensures Sound(dataCheck, Asking(log, t)) && Asking(log, t).1 != Verified
  {
    hide Lawful, PastOf;
    if t.request.Some? {
      Appended(log, Asked(t.request.value));
    }
  }

  lemma {:induction false} StatusesSound(dataCheck: bool, log: seq<Action>, events: seq<H3Event>)
    requires Going(dataCheck, log) && PastOf(log).stream.Some?
    ensures Sound(dataCheck, Statuses(dataCheck, log, events))
    ensures Statuses(dataCheck, log, events).1 == Verified ==> !dataCheck
    decreases |events|
  {
    hide Lawful, PastOf;
    if events != [] {
      if events[0].Status? {
        Appended(log, Accepted(events[0].at));
        if events[0].is200 && dataCheck {
          StatusesSound(dataCheck, log + [Accepted(events[0].at)], events[1..]);
        }
      } else if events[0].Other? {
        StatusesSound(dataCheck, log, events[1..]);
      }
    }
  }

  lemma ProbingGoing(dataCheck: bool, log: seq<Action>, at: nat)
    requires Going(dataCheck, log) && PastOf(log).accepted
    ensures Going(dataCheck, Probing(log, at)) && PastOf(Probing(log, at)).accepted
    ensures PastOf(Probing(log, at)).stream == PastOf(log).stream
  {
    hide Lawful, PastOf;
    Appended(log, Resent(at));
  }

  lemma {:induction false} DrainingSound(dataCheck: bool, log: seq<Action>, sid: nat, incoming: seq<seq<byte>>, at: nat)
    requires Going(dataCheck, log) && PastOf(log).accepted
    ensures Sound(dataCheck, Draining(log, sid, incoming, at))
    decreases |incoming|
  {
    hide Lawful, PastOf, DecodeIpDatagram;
    if incoming != [] {
      var r := DecodeIpDatagram(incoming[0], sid);
      if r.Ok? && r.value.Some? {
        var packet := r.value.value;
        Appended(log, Confirmed(packet));
        Appended(log + [Confirmed(packet)], Reply(at));
        if PastOf(log).confirmations + 1 < REQUIRED_SUCCESSES {
          DrainingSound(dataCheck, log + [Confirmed(packet)] + [Reply(at)], sid, incoming[1..], at);
        }
      } else {
        DrainingSound(dataCheck, log, sid, incoming[1..], at);
      }
    }
  }

  /** One iteration keeps the rules; it succeeds only before the deadline, only with
      a 200, and with data checking only on the second packet. */
  lemma TurnIsSound(dataCheck: bool, deadline: nat, log: seq<Action>, t: Turn)
    requires Going(dataCheck, log)
    ensures Sound(dataCheck, Turned(dataCheck, deadline, log, t))
    ensures Turned(dataCheck, deadline, log, t).1 == Verified ==> t.now < deadline
  {
    hide Lawful, PastOf, Asking, Statuses, Probing, Draining;
    AskingSound(dataCheck, log, t);
    var asked := Asking(log, t).0;
    if PastOf(asked).stream.Some? {
      StatusesSound(dataCheck, asked, t.events);
    }
    var polled := if PastOf(asked).stream.Some? then Statuses(dataCheck, asked, t.events).0 else asked;
    if Going(dataCheck, polled) && PastOf(polled).accepted {
      ProbingGoing(dataCheck, polled, t.probeAt);
      DrainingSound(dataCheck, Probing(polled, t.probeAt), PastOf(polled).stream.value, t.incoming, t.replyAt);
    }
  }

  function History(dataCheck: bool, deadline: nat, script: seq<Turn>): seq<Action> {
    if script == [] then []
    else Turned(dataCheck, deadline, History(dataCheck, deadline, script[..|script| - 1]), script[|script| - 1]).0
  }

  ghost predicate WentOn(dataCheck: bool, deadline: nat, script: seq<Turn>, n: nat) {
    n <= |script| && forall i :: 0 <= i < n ==>
      Turned(dataCheck, deadline, History(dataCheck, deadline, script[..i]), script[i]).1 == Running
  }

  lemma HistoryNext(dataCheck: bool, deadline: nat, script: seq<Turn>, i: nat)
    requires i < |script|
    ensures var r := Turned(dataCheck, deadline, History(dataCheck, deadline, script[..i]), script[i]);
            && History(dataCheck, deadline, script[..i + 1]) == r.0
            && (WentOn(dataCheck, deadline, script, i + 1) <==> WentOn(dataCheck, deadline, script, i) && r.1 == Running)
  {
    hide Turned;
    assert script[..i + 1][..i] == script[..i];
  }

  lemma {:induction false} ChecksAreSound(dataCheck: bool, deadline: nat, script: seq<Turn>, n: nat)
    requires WentOn(dataCheck, deadline, script, n)
    ensures Going(dataCheck, History(dataCheck, deadline, script[..n]))
  {
    hide Turned;
    if n > 0 {
      ChecksAreSound(dataCheck, deadline, script, n - 1);
      HistoryNext(dataCheck, deadline, script, n - 1);
      TurnIsSound(dataCheck, deadline, History(dataCheck, deadline, script[..n - 1]), script[n - 1]);
    }
  }

  // ---- What must happen, told by the script entry and the log alone --------

  predicate Asks(p: Past, t: Turn) {
    t.established && p.stream == None
  }

  predicate AskedFor(p: Past, t: Turn) {
    Asks(p, t) && t.transportOk && t.request.Some?
  }

  function StreamThen(p: Past, t: Turn): Option<nat> {
    if AskedFor(p, t) then t.request else p.stream
  }

  /** An event that ends the check: an error, another status than 200, and without
      data checking a 200. */
  predicate Decides(dataCheck: bool, e: H3Event) {
    e.H3Failed? || (e.Status? && (!e.is200 || !dataCheck))
  }

  /** The times of the 200s among the events. */
  function Accepts(events: seq<H3Event>): (accepts: seq<Action>)
    ensures forall i :: 0 <= i < |accepts| ==> accepts[i].Accepted?
  {
    if events == [] then []
    else if events[0].Status? && events[0].is200 then [Accepted(events[0].at)] + Accepts(events[1..])
    else Accepts(events[1..])
  }

  /** The events that count: up to and including the first that ends the check. */
  predicate Counted(dataCheck: bool, events: seq<H3Event>, k: nat) {
    && k <= |events|
    && (forall i :: 0 <= i < k - 1 ==> !Decides(dataCheck, events[i]))
    && (k == |events| || (k > 0 && Decides(dataCheck, events[k - 1])))
  }

  /** The packets that count, each confirmed, and all but the second answered. */
  function Confirms(packets: seq<seq<byte>>, c: nat, at: nat): seq<Action> {
    if packets == [] || c >= 2 then []
    else if c == 1 then [Confirmed(packets[0])]
    else if |packets| == 1 then [Confirmed(packets[0]), Reply(at)]
    else [Confirmed(packets[0]), Reply(at), Confirmed(packets[1])]
  }

  function AskPart(p: Past, t: Turn): seq<Action> {
    if AskedFor(p, t) then [Action.Asked(t.request.value)] else []
  }

  /** The 200s among the events that count, when a request stream is held. */
  function AcceptPart(p: Past, t: Turn, k: nat): seq<Action>
    requires k <= |t.events|
  {
    if StreamThen(p, t).Some? then Accepts(t.events[..k]) else []
  }

  /** What the history tells once the events have been handled. */
  function PastPolled(p: Past, t: Turn, k: nat): Past
    requires k <= |t.events|
  {
    var accepts := AcceptPart(p, t, k);
    AcceptPartHolds(p, t, k);
    p.(stream := StreamThen(p, t),
       accepted := p.accepted || accepts != [],
       probed := if accepts == [] then p.probed else accepts[|accepts| - 1].at)
  }

  lemma AcceptPartHolds(p: Past, t: Turn, k: nat)
    requires k <= |t.events|
    ensures forall i :: 0 <= i < |AcceptPart(p, t, k)| ==> AcceptPart(p, t, k)[i].Accepted?
  {
  }

  /** The packets of the own stream, once a 200 has come. */
  function PacketsThen(q: Past, t: Turn): seq<seq<byte>> {
    if q.accepted && q.stream.Some? then PacketsFor(q.stream.value, t.incoming) else []
  }

  /** A probe when 700 have passed since the last one, and what confirms. */
  function ServePart(q: Past, t: Turn): seq<Action> {
    (if q.accepted && q.stream.Some? && t.probeAt >= q.probed + 700 then [Resent(t.probeAt)] else [])
    + Confirms(PacketsThen(q, t), q.confirmations, t.replyAt)
  }

  /** Exactly what an iteration adds and how it ends the check: the request, the 200s,
      a probe, and the packets of the own stream; it succeeds with the second packet,
      without data checking with a 200. */
  ghost predicate HandledAt(
      dataCheck: bool, deadline: nat, before: seq<Action>, t: Turn, k: nat, added: seq<Action>, out: Outcome)
    requires k <= |t.events|
  {
    var p := PastOf(before);
    var q := PastPolled(p, t, k);
    if t.now >= deadline then added == [] && out == Timeout
    else if t.recvFailed then added == [] && out == IoError
    else if Asks(p, t) && !AskedFor(p, t) then added == [] && out == HttpError
    else if q.stream.Some? && k > 0 && Decides(dataCheck, t.events[k - 1]) then
      && added == AskPart(p, t) + AcceptPart(p, t, k)
      && out == (if t.events[k - 1].H3Failed? then HttpError else if t.events[k - 1].is200 then Verified else BadStatus)
    else
      && added == AskPart(p, t) + AcceptPart(p, t, k) + ServePart(q, t)
      && out == (if q.confirmations + |PacketsThen(q, t)| >= 2 then Verified
                 else if !t.flushOk then FlushError else if t.closed then ClosedEarly else Running)
  }

  ghost predicate Handled(
      dataCheck: bool, deadline: nat, before: seq<Action>, t: Turn, added: seq<Action>, out: Outcome)
  {
    forall k | Counted(dataCheck, t.events, k) :: HandledAt(dataCheck, deadline, before, t, k, added, out)
  }

  /** There is always such a number of events, and just one. */
  lemma {:induction false} CountedSome(dataCheck: bool, events: seq<H3Event>) returns (k: nat)
    ensures Counted(dataCheck, events, k)
  {
    if events == [] {
      k := 0;
    } else if Decides(dataCheck, events[0]) {
      k := 1;
    } else {
      var j := CountedSome(dataCheck, events[1..]);
      k := j + 1;
      assert forall i :: 1 <= i < k ==> events[i] == events[1..][i - 1];
    }
  }

  lemma {:induction false} StatusesAre(dataCheck: bool, log: seq<Action>, events: seq<H3Event>, k: nat)
    requires Counted(dataCheck, events, k)
    ensures var decided := k > 0 && Decides(dataCheck, events[k - 1]);
            var accepts := Accepts(events[..k]);
            && Statuses(dataCheck, log, events) ==
                 (log + accepts,
                  if !decided then Running
                  else if events[k - 1].H3Failed? then HttpError else if events[k - 1].is200 then Verified else BadStatus)
            && PastOf(log + accepts) == PastOf(log).(
                 accepted := PastOf(log).accepted || accepts != [],
                 probed := if accepts == [] then PastOf(log).probed else accepts[|accepts| - 1].at)
    decreases |events|
  {
    hide PastOf, Lawful;
    if k == 0 {
      assert events[..0] == [] && log + [] == log;
    } else {
      var first, rest := events[0], events[1..];
      assert events[..k][1..] == rest[..k - 1];
      var more := if first.Status? && first.is200 then log + [Accepted(first.at)] else log;
      if first.Status? && first.is200 {
        Appended(log, Accepted(first.at));
      }
      if Decides(dataCheck, first) {
        assert k == 1 by { FirstDecides(dataCheck, events, k); }
        assert events[..1][1..] == [] && events[..1][0] == first && log + [] == log;
        assert Accepts([]) == [];
        if first.Status? && first.is200 {
          assert Accepts(events[..1]) == [Accepted(first.at)] + [];
          assert [Accepted(first.at)] + [] == [Accepted(first.at)];
        } else {
          assert Accepts(events[..1]) == [];
        }
      } else {
        StatusesAre(dataCheck, more, rest, k - 1);
        if first.Status? && first.is200 {
          assert log + ([Accepted(first.at)] + Accepts(rest[..k - 1])) == more + Accepts(rest[..k - 1]);
        }
      }
    }
  }

  lemma FirstDecides(dataCheck: bool, events: seq<H3Event>, k: nat)
    requires Counted(dataCheck, events, k) && k > 0 && Decides(dataCheck, events[0])
    ensures k == 1
  {
  }

  lemma {:induction false} DrainingIs(log: seq<Action>, sid: nat, incoming: seq<seq<byte>>, at: nat)
    requires PastOf(log).confirmations < 2
    ensures var (packets, c) := (PacketsFor(sid, incoming), PastOf(log).confirmations);
            Draining(log, sid, incoming, at) ==
              (log + Confirms(packets, c, at), if c + |packets| >= 2 then Verified else Running)
    decreases |incoming|
  {
    hide PastOf, Lawful, DecodeIpDatagram;
    var c := PastOf(log).confirmations;
    if incoming == [] {
      assert log + [] == log;
    } else {
      var r := DecodeIpDatagram(incoming[0], sid);
      var rest := PacketsFor(sid, incoming[1..]);
      if r.Ok? && r.value.Some? {
        var packet := r.value.value;
        var more := log + [Confirmed(packet)];
        assert PacketsFor(sid, incoming) == [packet] + rest;
        Appended(log, Confirmed(packet));
        Appended(more, Reply(at));
        if c == 0 {
          DrainingIs(more + [Reply(at)], sid, incoming[1..], at);
          assert more + [Reply(at)] + [] == log + [Confirmed(packet), Reply(at)];
          if rest != [] {
            assert more + [Reply(at)] + [Confirmed(rest[0])] == log + [Confirmed(packet), Reply(at), Confirmed(rest[0])];
          }
        }
      } else {
        assert PacketsFor(sid, incoming) == [] + rest == rest;
        DrainingIs(log, sid, incoming[1..], at);
      }
    }
  }

  lemma CountedOnce(dataCheck: bool, events: seq<H3Event>, j: nat, k: nat)
    requires Counted(dataCheck, events, j) && Counted(dataCheck, events, k)
    ensures j == k
  {
  }

  lemma AskingIs(log: seq<Action>, t: Turn)
    ensures var p := PastOf(log);
            && Asking(log, t) == (log + AskPart(p, t), if Asks(p, t) && !AskedFor(p, t) then HttpError else Running)
            && PastOf(log + AskPart(p, t)) == p.(stream := StreamThen(p, t))
  {
    hide PastOf, Lawful;
    assert log + [] == log;
    if t.request.Some? {
      Appended(log, Action.Asked(t.request.value));
    }
  }

  lemma ServingIs(log: seq<Action>, t: Turn)
    requires PastOf(log).confirmations < 2
    ensures var q := PastOf(log);
            Serving(log, t) ==
              (log + ServePart(q, t), if q.confirmations + |PacketsThen(q, t)| >= 2 then Verified else Running)
  {
    hide PastOf, Lawful, Draining, PacketsFor;
    var q := PastOf(log);
    if q.accepted && q.stream.Some? {
      Appended(log, Resent(t.probeAt));
      DrainingIs(Probing(log, t.probeAt), q.stream.value, t.incoming, t.replyAt);
      var confirms := Confirms(PacketsThen(q, t), q.confirmations, t.replyAt);
      assert log + ([Resent(t.probeAt)] + confirms) == log + [Resent(t.probeAt)] + confirms;
      assert log + ([] + confirms) == log + confirms;
    } else {
      assert log + ([] + []) == log;
    }
  }

  /** One iteration does exactly what is due. */
  lemma TurnHandled(dataCheck: bool, deadline: nat, log: seq<Action>, t: Turn)
    requires Going(dataCheck, log)
    ensures var r := Turned(dataCheck, deadline, log, t);
            log <= r.0 && Handled(dataCheck, deadline, log, t, r.0[|log|..], r.1)
  {
    hide Turned, HandledAt, Going;
    var r := Turned(dataCheck, deadline, log, t);
    var j := CountedSome(dataCheck, t.events);
    TurnHandledAt(dataCheck, deadline, log, t, j);
    forall k | Counted(dataCheck, t.events, k)
      ensures HandledAt(dataCheck, deadline, log, t, k, r.0[|log|..], r.1)
    {
      CountedOnce(dataCheck, t.events, j, k);
    }
  }

  lemma TurnHandledAt(dataCheck: bool, deadline: nat, log: seq<Action>, t: Turn, k: nat)
    requires Going(dataCheck, log) && k <= |t.events| && Counted(dataCheck, t.events, k)
    ensures var r := Turned(dataCheck, deadline, log, t);
            log <= r.0 && HandledAt(dataCheck, deadline, log, t, k, r.0[|log|..], r.1)
  {
    hide HandledAt, Turned, Going;
    var added := TurnAdds(dataCheck, deadline, log, t, k);
    assert (log + added)[|log|..] == added;
  }

  lemma TurnAdds(dataCheck: bool, deadline: nat, log: seq<Action>, t: Turn, k: nat) returns (added: seq<Action>)
    requires Going(dataCheck, log) && k <= |t.events| && Counted(dataCheck, t.events, k)
    ensures var r := Turned(dataCheck, deadline, log, t);
            r.0 == log + added && HandledAt(dataCheck, deadline, log, t, k, added, r.1)
  {
    hide PastOf, Lawful, Turned, Asks, AskedFor, Decides, Counted, Serving, AskPart, AcceptPart, ServePart, PacketsThen, StreamThen;
    var p := PastOf(log);
    added := [];
    assert log + [] == log;
    if t.now >= deadline || t.recvFailed {
      NotEntered(dataCheck, deadline, log, t);
    } else if Asks(p, t) && !AskedFor(p, t) {
      AskFails(dataCheck, deadline, log, t);
    } else {
      PolledIs(dataCheck, deadline, log, t, k);
      added := AskPart(p, t) + AcceptPart(p, t, k);
      var b := log + AskPart(p, t) + AcceptPart(p, t, k);
      assert b == log + added;
      if !(StreamThen(p, t).Some? && k > 0 && Decides(dataCheck, t.events[k - 1])) {
        ServingIs(b, t);
        var q := PastOf(b);
        added := added + ServePart(q, t);
        assert b + ServePart(q, t) == log + added;
      }
    }
  }

  lemma NotEntered(dataCheck: bool, deadline: nat, log: seq<Action>, t: Turn)
    requires t.now >= deadline || t.recvFailed
    ensures Turned(dataCheck, deadline, log, t) == (log, if t.now >= deadline then Timeout else IoError)
  {
  }

  lemma AskFails(dataCheck: bool, deadline: nat, log: seq<Action>, t: Turn)
    requires t.now < deadline && !t.recvFailed && Asks(PastOf(log), t) && !AskedFor(PastOf(log), t)
    ensures Turned(dataCheck, deadline, log, t) == (log, HttpError)
  {
    hide PastOf;
  }

  /** The first two stages of an iteration, and how the third goes on from there. */
  lemma PolledIs(dataCheck: bool, deadline: nat, log: seq<Action>, t: Turn, k: nat)
    requires t.now < deadline && !t.recvFailed && k <= |t.events| && Counted(dataCheck, t.events, k)
    requires Asks(PastOf(log), t) ==> AskedFor(PastOf(log), t)
    ensures var p := PastOf(log);
            var b := log + AskPart(p, t) + AcceptPart(p, t, k);
            && PastOf(b) == PastPolled(p, t, k)
            && Turned(dataCheck, deadline, log, t) ==
                 if StreamThen(p, t).Some? && k > 0 && Decides(dataCheck, t.events[k - 1]) then
                   (b, if t.events[k - 1].H3Failed? then HttpError else if t.events[k - 1].is200 then Verified else BadStatus)
                 else
                   var served := Serving(b, t);
                   if served.1 != Running then served
                   else (served.0, if !t.flushOk then FlushError else if t.closed then ClosedEarly else Running)
  {
    hide PastOf, Lawful, Asking, Statuses, Serving, Asks, AskedFor, Accepts, Decides, Counted, AskPart;
    var p := PastOf(log);
    AskingIs(log, t);
    var a := log + AskPart(p, t);
    assert a + [] == a;
    if StreamThen(p, t).Some? {
      StatusesAre(dataCheck, a, t.events, k);
    }
  }

  // ---- A whole check, iteration by iteration ------------------------------

  /** What iteration `i` added is the piece of the log between two marks. */
  ghost predicate Piece(dataCheck: bool, deadline: nat, script: seq<Turn>, log: seq<Action>, marks: seq<nat>, i: nat)
    requires i < |marks| - 1 <= |script|
  {
    && marks[i] <= marks[i + 1] <= |log|
    && Handled(dataCheck, deadline, log[..marks[i]], script[i], log[marks[i]..marks[i + 1]], Running)
  }

  /** The log cut into what each iteration that went on added: `marks[i]` is its
      length before iteration `i`. */
  ghost predicate Cut(dataCheck: bool, deadline: nat, script: seq<Turn>, log: seq<Action>, marks: seq<nat>) {
    && 0 < |marks| <= |script| + 1 && marks[0] == 0 <= marks[|marks| - 1] <= |log|
    && forall i {:trigger Piece(dataCheck, deadline, script, log, marks, i)} ::
         0 <= i < |marks| - 1 ==> Piece(dataCheck, deadline, script, log, marks, i)
  }

  lemma CutExtends(
      dataCheck: bool, deadline: nat, script: seq<Turn>, before: seq<Action>, log: seq<Action>, marks: seq<nat>)
    requires Cut(dataCheck, deadline, script, before, marks) && before <= log
    ensures Cut(dataCheck, deadline, script, log, marks)
  {
    hide Handled;
    forall i | 0 <= i < |marks| - 1
      ensures Piece(dataCheck, deadline, script, log, marks, i)
    {
      assert Piece(dataCheck, deadline, script, before, marks, i);
      assert log[..marks[i]] == before[..marks[i]] && log[marks[i]..marks[i + 1]] == before[marks[i]..marks[i + 1]];
    }
  }

  lemma CutMore(dataCheck: bool, deadline: nat, script: seq<Turn>, log: seq<Action>, marks: seq<nat>)
    requires Cut(dataCheck, deadline, script, log, marks) && |marks| <= |script|
    requires var k := marks[|marks| - 1]; Handled(dataCheck, deadline, log[..k], script[|marks| - 1], log[k..], Running)
    ensures Cut(dataCheck, deadline, script, log, marks + [|log|])
  {
    hide Handled;
    var more := marks + [|log|];
    forall i | 0 <= i < |more| - 1
      ensures Piece(dataCheck, deadline, script, log, more, i)
    {
      if i < |marks| - 1 {
        assert Piece(dataCheck, deadline, script, log, marks, i);
      } else {
        assert log[more[i]..|log|] == log[more[i]..];
      }
    }
  }

  lemma {:induction false} HistoryCut(dataCheck: bool, deadline: nat, script: seq<Turn>, n: nat) returns (marks: seq<nat>)
    requires WentOn(dataCheck, deadline, script, n)
    ensures var log := History(dataCheck, deadline, script[..n]);
            |marks| == n + 1 && Cut(dataCheck, deadline, script, log, marks) && marks[n] == |log|
  {
    hide Turned, Handled, Going;
    if n == 0 {
      marks := [0];
    } else {
      var before := History(dataCheck, deadline, script[..n - 1]);
      marks := HistoryCut(dataCheck, deadline, script, n - 1);
      HistoryNext(dataCheck, deadline, script, n - 1);
      ChecksAreSound(dataCheck, deadline, script, n - 1);
      TurnHandled(dataCheck, deadline, before, script[n - 1]);
      var log := History(dataCheck, deadline, script[..n]);
      CutExtends(dataCheck, deadline, script, before, log, marks);
      assert log[..|before|] == before;
      CutMore(dataCheck, deadline, script, log, marks);
      marks := marks + [|log|];
    }
  }

  /** The whole check: the pieces of the iterations that went on, and behind them
      what the last one did if it ended the loop. */
  ghost predicate Traced(
      dataCheck: bool, deadline: nat, script: seq<Turn>, n: nat, log: seq<Action>, out: Outcome, marks: seq<nat>)
  {
    && n <= |script| && |marks| == n + 1 && Cut(dataCheck, deadline, script, log, marks)
    && if out == Running then n == |script| && marks[n] == |log|
       else n < |script| && Handled(dataCheck, deadline, log[..marks[n]], script[n], log[marks[n]..], out)
  }

  lemma RunTraced(dataCheck: bool, deadline: nat, script: seq<Turn>, n: nat, log: seq<Action>, out: Outcome)
    returns (marks: seq<nat>)
    requires WentOn(dataCheck, deadline, script, n)
    requires if out == Running then n == |script| && log == History(dataCheck, deadline, script)
             else n < |script| && (log, out) == Turned(dataCheck, deadline, History(dataCheck, deadline, script[..n]), script[n])
    ensures Traced(dataCheck, deadline, script, n, log, out, marks)
  {
    hide Handled, Turned, History, Cut, Going;
    marks := HistoryCut(dataCheck, deadline, script, n);
    if out == Running {
      assert script[..|script|] == script;
    } else {
      var before := History(dataCheck, deadline, script[..n]);
      ChecksAreSound(dataCheck, deadline, script, n);
      TurnHandled(dataCheck, deadline, before, script[n]);
      CutExtends(dataCheck, deadline, script, before, log, marks);
      assert log[..|before|] == before;
    }
  }

  // ---- The loop ----------------------------------------------------------

  /** The variables of `verify_masque`, and what it has done. */
  class Verifier {
    const dataCheck: bool
    var log: seq<Action>
    var h3Conn: bool
    var reqStream: Option<nat>
    var connectIpOk: bool
    var lastProbe: nat
    var probeSuccesses: nat

    ghost predicate Agrees()
      reads this
    {
      var p := PastOf(log);
      && p.stream == reqStream && (h3Conn <==> reqStream.Some?)
      && p.accepted == connectIpOk && p.confirmations == probeSuccesses
      && (connectIpOk ==> p.probed == lastProbe)
    }

    constructor (dataCheck: bool, start: nat)
      ensures this.dataCheck == dataCheck && log == [] && Agrees()
    {
      this.dataCheck, log := dataCheck, [];
      h3Conn, reqStream, connectIpOk, lastProbe, probeSuccesses := false, None, false, start, 0;
    }

    method Did(a: Action)
      modifies this`log
      ensures log == old(log) + [a] && PastOf(log) == Next(PastOf(old(log)), a)
    {
      Appended(log, a);
      log := log + [a];
    }

    method Ask(t: Turn) returns (out: Outcome)
      requires Agrees()
      modifies this
      ensures (log, out) == Asking(old(log), t)
      ensures Agrees()
    {
      hide PastOf;
      out := Running;
      if t.established && !h3Conn {
        if !t.transportOk || t.request == None { return HttpError; }
        Did(Asked(t.request.value));
        reqStream, h3Conn := t.request, true;
      }
    }

    method PollEvents(events: seq<H3Event>) returns (out: Outcome)
      requires Agrees()
      modifies this
      ensures (log, out) == Statuses(dataCheck, old(log), events)
      ensures out == Running ==> Agrees()
    {
      hide PastOf;
      assert events[0..] == events;
      for i := 0 to |events|
        invariant Agrees()
        invariant Statuses(dataCheck, old(log), events) == Statuses(dataCheck, log, events[i..])
      {
        assert events[i..][0] == events[i] && events[i..][1..] == events[i + 1..];
        match events[i] {
          case Other =>
          case H3Failed => return HttpError;
          case Status(ok, at) =>
            if !ok { return BadStatus; }
            Did(Accepted(at));
            if !dataCheck { return Verified; }
            connectIpOk, lastProbe := true, at;
        }
      }
      assert events[|events|..] == [];
      out := Running;
    }

    method Drain(incoming: seq<seq<byte>>, at: nat) returns (out: Outcome)
      requires Agrees() && reqStream.Some? && connectIpOk
      modifies this
      ensures (log, out) == Draining(old(log), old(reqStream.value), incoming, at)
      ensures out == Running ==> Agrees()
    {
      hide PastOf, DecodeIpDatagram;
      var sid := reqStream.value;
      assert incoming[0..] == incoming;
      for i := 0 to |incoming|
        invariant Agrees() && connectIpOk && reqStream == Some(sid)
        invariant Draining(old(log), sid, incoming, at) == Draining(log, sid, incoming[i..], at)
      {
        assert incoming[i..][0] == incoming[i] && incoming[i..][1..] == incoming[i + 1..];
        var r := DecodeIpDatagram(incoming[i], sid);
        if r.Ok? && r.value.Some? {
          probeSuccesses := probeSuccesses + 1;
          Did(Confirmed(r.value.value));
          if probeSuccesses >= REQUIRED_SUCCESSES { return Verified; }
          Did(Reply(at));
          lastProbe := at;
        }
      }
      assert incoming[|incoming|..] == [];
      out := Running;
    }

    method Serve(t: Turn) returns (out: Outcome)
      requires Agrees()
      modifies this
      ensures (log, out) == Serving(old(log), t)
      ensures out == Running ==> Agrees()
    {
      hide PastOf, Draining;
      out := Running;
      if connectIpOk && reqStream.Some? {
        if t.probeAt >= lastProbe + RESEND_AFTER {
          Did(Resent(t.probeAt));
          lastProbe := t.probeAt;
        }
        assert log == Probing(old(log), t.probeAt);
        out := Drain(t.incoming, t.replyAt);
      }
    }

    method Iterate(deadline: nat, t: Turn) returns (out: Outcome)
      requires Agrees()
      modifies this
      ensures (log, out) == Turned(dataCheck, deadline, old(log), t)
      ensures out == Running ==> Agrees()
    {
      hide PastOf, Asking, Statuses, Serving;
      if t.now >= deadline { return Timeout; }
      if t.recvFailed { return IoError; }
      out := Ask(t);
      if out != Running { return; }
      if h3Conn && reqStream.Some? {
        out := PollEvents(t.events);
        if out != Running { return; }
      }
      out := Serve(t);
      if out != Running { return; }
      if !t.flushOk { return FlushError; }
      if t.closed { return ClosedEarly; }
    }
  }

  /** `verify_masque` from its first iteration on: it enters iterations until one of
      them ends it, and what it did is the history those lead to; `marks` cuts the log
      into what each of them did, which is exactly what was due. */
  method Verify(dataCheck: bool, start: nat, deadline: nat, script: seq<Turn>)
    returns (out: Outcome, log: seq<Action>, n: nat, ghost marks: seq<nat>)
    ensures n <= |script| && WentOn(dataCheck, deadline, script, n)
    ensures if out == Running then n == |script| && log == History(dataCheck, deadline, script)
            else n < |script| && (log, out) == Turned(dataCheck, deadline, History(dataCheck, deadline, script[..n]), script[n])
    ensures Sound(dataCheck, (log, out))
    ensures Traced(dataCheck, deadline, script, n, log, out, marks)
  {
    hide PastOf, History, WentOn, Turned, Lawful, Traced;
    Start(dataCheck, deadline, script);
    var v := new Verifier(dataCheck, start);
    out, n := Running, |script|;
    assert script[..|script|] == script;
    for i := 0 to |script|
      invariant out == Running && n == |script|
      invariant fresh(v) && v.dataCheck == dataCheck && v.Agrees()
      invariant v.log == History(dataCheck, deadline, script[..i]) && WentOn(dataCheck, deadline, script, i)
      invariant Going(dataCheck, v.log)
    {
      HistoryNext(dataCheck, deadline, script, i);
      TurnIsSound(dataCheck, deadline, v.log, script[i]);
      out := v.Iterate(deadline, script[i]);
      if out != Running {
        n := i;
        break;
      }
    }
    log := v.log;
    marks := RunTraced(dataCheck, deadline, script, n, log, out);
  }

  lemma Start(dataCheck: bool, deadline: nat, script: seq<Turn>)
    ensures History(dataCheck, deadline, []) == [] && WentOn(dataCheck, deadline, script, 0) && Going(dataCheck, [])
  {
  }
}
