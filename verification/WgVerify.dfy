/** WireGuard: the client id carried in the reserved bytes of every message, and
    the check that a fresh tunnel carries traffic both ways. */
module WgVerify {
  import opened Wire

  // ---- The client id -----------------------------------------------------

  const WG_MSG_TYPE_MIN: byte := 1
  const WG_MSG_TYPE_MAX: byte := 4

  predicate Carries(pkt: seq<byte>) {
    |pkt| >= 4 && WG_MSG_TYPE_MIN <= pkt[0] <= WG_MSG_TYPE_MAX
  }

  function WithReserved(pkt: seq<byte>, id: seq<byte>): (r: seq<byte>)
    requires |id| == 3
    ensures |r| == |pkt|
  {
    if Carries(pkt) then pkt[..1] + id + pkt[4..] else pkt
  }

  /** Messages are packets of four bytes or more whose first byte is 1 to 4; of those
      bytes 1 to 3 become the id, and nothing else changes anywhere. */
  lemma ReservedBytes(pkt: seq<byte>, id: seq<byte>, i: nat)
    requires |id| == 3 && i < |pkt|
    ensures WithReserved(pkt, id)[i] ==
            if |pkt| >= 4 && 1 <= pkt[0] <= 4 && 1 <= i <= 3 then id[i - 1] else pkt[i]
  {
  }

  method InjectClientId(pkt: array<byte>, clientId: seq<byte>)
    requires |clientId| == 3
    modifies pkt
    ensures pkt[..] == WithReserved(old(pkt[..]), clientId)
  {
    if pkt.Length < 4 { return; }
    if pkt[0] < WG_MSG_TYPE_MIN || pkt[0] > WG_MSG_TYPE_MAX { return; }
    forall i | 1 <= i < 4 {
      pkt[i] := clientId[i - 1];
    }
    assert pkt[..] == pkt[..1] + pkt[1..4] + pkt[4..];
  }

  method StripClientId(pkt: array<byte>)
    modifies pkt
    ensures pkt[..] == WithReserved(old(pkt[..]), [0, 0, 0])
  {
    if pkt.Length < 4 { return; }
    if pkt[0] < WG_MSG_TYPE_MIN || pkt[0] > WG_MSG_TYPE_MAX { return; }
    forall i | 1 <= i < 4 {
      pkt[i] := 0;
    }
    assert pkt[..] == pkt[..1] + pkt[1..4] + pkt[4..];
  }

  /** What the peer strips is what was injected, whatever id it was: the packet
      comes back unless it is a WireGuard message that used the reserved bytes
      itself. */
  lemma StripUndoesInject(pkt: seq<byte>, id: seq<byte>)
    requires |id| == 3
    ensures WithReserved(WithReserved(pkt, id), [0, 0, 0]) == pkt <==>
            (Carries(pkt) ==> pkt[1] == 0 && pkt[2] == 0 && pkt[3] == 0)
    ensures Carries(WithReserved(pkt, id)) <==> Carries(pkt)
    ensures Carries(pkt) ==> WithReserved(pkt, id)[1..4] == id
  {
    if Carries(pkt) {
      var there := WithReserved(pkt, id);
      var back := WithReserved(there, [0, 0, 0]);
      assert there[4..] == pkt[4..];
      assert back == pkt[..1] + [0, 0, 0] + pkt[4..];
      assert pkt == pkt[..1] + pkt[1..4] + pkt[4..];
      assert back[1..4] == [0, 0, 0];
      if back == pkt {
        assert pkt[1..4] == [0, 0, 0];
        assert pkt[1] == pkt[1..4][0] && pkt[2] == pkt[1..4][1] && pkt[3] == pkt[1..4][2];
      }
    }
  }

  // ---- The data-plane check ----------------------------------------------

  const REQUIRED_SUCCESSES: nat := 2
  const PROBE_GAP: nat := 600
  const RESEND_AFTER: nat := 700

  /** What ends the wait of an iteration; `at` is the clock after a confirmation. */
  datatype Event = Woke | RecvFailed | ToTunnel(at: nat) | ToNetwork | Nothing

  datatype Turn = Turn(now: nat, event: Event)

  /** A probe is booked for the time `due` from which the next resend counts. */
  datatype Action = Probe(due: nat) | Resent(due: nat) | Waited(from: nat, wait: nat) | Confirmed | Reply(due: nat) | Relayed

  datatype Outcome = Running | Confirming | Timeout | IoError | ProbeError

  function Confirmations(log: seq<Action>): nat {
    if log == [] then 0 else Confirmations(log[..|log| - 1]) + if log[|log| - 1].Confirmed? then 1 else 0
  }

  function Resends(log: seq<Action>): nat {
    if log == [] then 0 else Resends(log[..|log| - 1]) + if log[|log| - 1].Resent? then 1 else 0
  }

  function Replies(log: seq<Action>): nat {
    if log == [] then 0 else Replies(log[..|log| - 1]) + if log[|log| - 1].Reply? then 1 else 0
  }

  /** When the last probe was booked. */
  function LastDue(log: seq<Action>): nat {
    if log == [] then 0
    else match log[|log| - 1]
         case Probe(due) => due
         case Resent(due) => due
         case Reply(due) => due
         case _ => LastDue(log[..|log| - 1])
  }

  /** Between two steps, with no confirmation to answer. */
  predicate Idle(log: seq<Action>) {
    log != [] && !log[|log| - 1].Confirmed?
  }

  /** The rules of the check.  A resend comes no sooner than 700 after the booked
      time of the probe before, a reply is booked no sooner than 600 after it; a
      reply answers the first confirmation; and every wait is positive, so the loop
      never spins, and ends no later than the deadline and the next resend. */
  predicate May(deadline: nat, log: seq<Action>, a: Action) {
    match a
    case Probe(_) => log == []
    case Resent(due) => Idle(log) && LastDue(log) + RESEND_AFTER <= due < deadline
    case Waited(from, wait) =>
      Idle(log) && 0 < wait && from + wait == Min(deadline, LastDue(log) + RESEND_AFTER)
    case Confirmed => log != [] && log[|log| - 1].Waited? && Confirmations(log) < REQUIRED_SUCCESSES
    case Reply(due) => log != [] && log[|log| - 1].Confirmed? && LastDue(log) + PROBE_GAP <= due && Confirmations(log) == 1
    case Relayed => log != [] && log[|log| - 1].Waited?
  }

  predicate Lawful(deadline: nat, log: seq<Action>) {
    log == [] || (Lawful(deadline, log[..|log| - 1]) && May(deadline, log[..|log| - 1], log[|log| - 1]))
  }

  lemma Appended(log: seq<Action>, a: Action)
    ensures (log + [a])[..|log|] == log && (log + [a])[|log|] == a
    ensures forall deadline | Lawful(deadline, log) && May(deadline, log, a) :: Lawful(deadline, log + [a])
    ensures Confirmations(log + [a]) == Confirmations(log) + if a.Confirmed? then 1 else 0
    ensures Resends(log + [a]) == Resends(log) + if a.Resent? then 1 else 0
    ensures Replies(log + [a]) == Replies(log) + if a.Reply? then 1 else 0
    ensures LastDue(log + [a]) ==
            if a.Probe? || a.Resent? || a.Reply? then a.due else LastDue(log)
  {
    assert (log + [a])[..|log|] == log;
  }

  // ---- What a script leads to --------------------------------------------

  function Resending(log: seq<Action>, now: nat): seq<Action> {
    if now >= LastDue(log) + RESEND_AFTER then log + [Resent(now)] else log
  }

  function Waiting(deadline: nat, log: seq<Action>, now: nat): seq<Action>
    requires now < deadline && now < LastDue(log) + RESEND_AFTER
  {
    log + [Waited(now, Min(deadline, LastDue(log) + RESEND_AFTER) - now)]
  }

  function Answering(log: seq<Action>, e: Event): (seq<Action>, Outcome) {
    match e
    case RecvFailed => (log, IoError)
    case ToNetwork => (log + [Relayed], Running)
    case ToTunnel(at) =>
      if Confirmations(log) + 1 >= REQUIRED_SUCCESSES then (log + [Confirmed], Confirming)
      else
        var next := LastDue(log) + PROBE_GAP;
        (log + [Confirmed] + [Reply(if at < next then next else at)], Running)
    case _ => (log, Running)
  }

  function Turned(deadline: nat, log: seq<Action>, t: Turn): (seq<Action>, Outcome) {
    if t.now >= deadline then (log, Timeout)
    else
      var resent := Resending(log, t.now);
      ResentLater(log, t.now);
      Answering(Waiting(deadline, resent, t.now), t.event)
  }

  lemma ResentLater(log: seq<Action>, now: nat)
    ensures now < LastDue(Resending(log, now)) + RESEND_AFTER
  {
    Appended(log, Resent(now));
  }

  function History(t0: nat, deadline: nat, script: seq<Turn>): seq<Action> {
    if script == [] then [Probe(t0)]
    else Turned(deadline, History(t0, deadline, script[..|script| - 1]), script[|script| - 1]).0
  }

  /** None of the first `n` iterations ended the loop. */
  ghost predicate WentOn(t0: nat, deadline: nat, script: seq<Turn>, n: nat) {
    n <= |script| && forall i :: 0 <= i < n ==>
      Turned(deadline, History(t0, deadline, script[..i]), script[i]).1 == Running
  }

  lemma HistoryNext(t0: nat, deadline: nat, script: seq<Turn>, i: nat)
    requires i < |script|
    ensures var r := Turned(deadline, History(t0, deadline, script[..i]), script[i]);
            && History(t0, deadline, script[..i + 1]) == r.0
            && (WentOn(t0, deadline, script, i + 1) <==> WentOn(t0, deadline, script, i) && r.1 == Running)
  {
    hide Turned;
    assert script[..i + 1][..i] == script[..i];
  }

  /** One iteration keeps the rules; it succeeds exactly with the second
      confirmation, and only if it was entered before the deadline. */
  lemma TurnIsLawful(deadline: nat, log: seq<Action>, t: Turn)
    requires Idle(log) && Lawful(deadline, log) && Confirmations(log) < REQUIRED_SUCCESSES
    ensures var r := Turned(deadline, log, t);
            && Lawful(deadline, r.0)
            && (r.1 == Running ==> Idle(r.0))
            && (r.1 == Confirming <==> Confirmations(r.0) == REQUIRED_SUCCESSES)
            && (r.1 == Confirming ==> t.now < deadline)
            && Confirmations(r.0) <= REQUIRED_SUCCESSES
  {
    hide Lawful, Confirmations, LastDue, Resends, Replies;
    if t.now < deadline {
      var resent := Resending(log, t.now);
      Appended(log, Resent(t.now));
      ResentLater(log, t.now);
      var waited := Waiting(deadline, resent, t.now);
      Appended(resent, waited[|resent|]);
      Appended(waited, Relayed);
      Appended(waited, Confirmed);
      if t.event.ToTunnel? && Confirmations(waited) + 1 < REQUIRED_SUCCESSES {
        var answered := Answering(waited, t.event).0;
        Appended(waited + [Confirmed], answered[|waited| + 1]);
      }
    }
  }

  lemma {:induction false} RunsAreLawful(t0: nat, deadline: nat, script: seq<Turn>, n: nat)
    requires WentOn(t0, deadline, script, n)
    ensures var log := History(t0, deadline, script[..n]);
            Idle(log) && log[0] == Probe(t0) && Lawful(deadline, log) && Confirmations(log) < REQUIRED_SUCCESSES
  {
    hide Turned, Lawful, Confirmations;
    if n == 0 {
      assert Lawful(deadline, []) && Confirmations([]) == 0 by { EmptyLog(deadline); }
      assert [] + [Probe(t0)] == [Probe(t0)];
      Appended([], Probe(t0));
    } else {
      RunsAreLawful(t0, deadline, script, n - 1);
      HistoryNext(t0, deadline, script, n - 1);
      var log, t := History(t0, deadline, script[..n - 1]), script[n - 1];
      TurnIsLawful(deadline, log, t);
      TurnGrows(deadline, log, t);
    }
  }

  lemma EmptyLog(deadline: nat)
    ensures Lawful(deadline, []) && Confirmations([]) == 0 && Resends([]) == 0 && Replies([]) == 0
  {
  }

  lemma TurnGrows(deadline: nat, log: seq<Action>, t: Turn)
    ensures log <= Turned(deadline, log, t).0
    ensures Turned(deadline, log, t).1 in {Running, Confirming, Timeout, IoError}
  {
    hide Lawful, Confirmations, LastDue, May;
  }

  /** The probe budget of every lawful history: one first probe, one reply at most,
      and resends that fit between the first probe and the deadline at 700 each. */
  lemma {:induction false} ProbeBudget(t0: nat, deadline: nat, log: seq<Action>)
    requires log != [] && log[0] == Probe(t0) && Lawful(deadline, log)
    ensures t0 + RESEND_AFTER * Resends(log) + PROBE_GAP * Replies(log) <= LastDue(log)
    ensures Resends(log) > 0 ==> t0 + RESEND_AFTER * Resends(log) < deadline
    ensures Confirmations(log) == Replies(log) + if log[|log| - 1].Confirmed? then 1 else 0
    ensures Confirmations(log) <= REQUIRED_SUCCESSES && Replies(log) <= 1
  {
    hide Lawful, Confirmations, LastDue, Resends, Replies;
    var before, a := log[..|log| - 1], log[|log| - 1];
    assert log == before + [a];
    Appended(before, a);
    Backwards(deadline, log);
    if before == [] {
      EmptyLog(deadline);
    } else {
      ProbeBudget(t0, deadline, before);
    }
  }

  lemma Backwards(deadline: nat, log: seq<Action>)
    requires log != [] && Lawful(deadline, log)
    ensures Lawful(deadline, log[..|log| - 1]) && May(deadline, log[..|log| - 1], log[|log| - 1])
  {
  }

  // ---- What must happen, told by the script entry and the log alone --------

  /** Exactly what an iteration does: it resends when 700 have passed since the last
      probe was booked, waits until the deadline or the next resend, and counts and
      answers what comes out of the tunnel; the second confirmation ends it. */
  ghost predicate Handled(deadline: nat, before: seq<Action>, t: Turn, added: seq<Action>, out: Outcome) {
    if t.now >= deadline then added == [] && out == Timeout
    else
      var due := if t.now >= LastDue(before) + 700 then t.now else LastDue(before);
      var second := Confirmations(before) + 1 >= 2;
      && added == FrontPart(deadline, LastDue(before), t.now) + EventPart(t.event, due, second)
      && (out == IoError <==> t.event.RecvFailed?)
      && (out == Confirming <==> t.event.ToTunnel? && second)
      && out in {IoError, Confirming, Running}
  }

  /** What the event of an iteration adds, after the probe booked for `due`. */
  function EventPart(e: Event, due: nat, second: bool): seq<Action> {
    if e.ToNetwork? then [Relayed]
    else if !e.ToTunnel? then []
    else if second then [Confirmed]
    else [Confirmed, Reply(if e.at < due + 600 then due + 600 else e.at)]
  }

  lemma AnsweringIs(log: seq<Action>, e: Event)
    ensures var second := Confirmations(log) + 1 >= 2;
            Answering(log, e) ==
              (log + EventPart(e, LastDue(log), second),
               if e.RecvFailed? then IoError else if e.ToTunnel? && second then Confirming else Running)
  {
    hide LastDue, Confirmations;
    assert log + [] == log;
    if e.ToTunnel? {
      var reply := Reply(if e.at < LastDue(log) + 600 then LastDue(log) + 600 else e.at);
      assert log + [Confirmed] + [reply] == log + [Confirmed, reply];
    }
  }

  /** The resend and the wait of an iteration. */
  function FrontPart(deadline: nat, last: nat, now: nat): seq<Action>
    requires now < deadline
  {
    var resends := now >= last + 700;
    var due := if resends then now else last;
    (if resends then [Resent(now)] else []) + [Waited(now, (if deadline < due + 700 then deadline else due + 700) - now)]
  }

  lemma WaitingIs(deadline: nat, log: seq<Action>, now: nat)
    requires now < deadline
    ensures now < LastDue(Resending(log, now)) + RESEND_AFTER
    ensures var waited := Waiting(deadline, Resending(log, now), now);
            && waited == log + FrontPart(deadline, LastDue(log), now)
            && LastDue(waited) == (if now >= LastDue(log) + 700 then now else LastDue(log))
            && Confirmations(waited) == Confirmations(log)
  {
    hide LastDue, Confirmations, Lawful, May;
    ResentLater(log, now);
    if now >= LastDue(log) + 700 {
      WaitingResent(deadline, log, now);
    } else {
      WaitingOnly(deadline, log, now);
    }
  }

  lemma WaitingResent(deadline: nat, log: seq<Action>, now: nat)
    requires now < deadline && now >= LastDue(log) + 700 && now < LastDue(log + [Resent(now)]) + RESEND_AFTER
    ensures var waited := Waiting(deadline, log + [Resent(now)], now);
            && waited == log + FrontPart(deadline, LastDue(log), now)
            && LastDue(waited) == now && Confirmations(waited) == Confirmations(log)
  {
    hide LastDue, Confirmations, Lawful, May;
    Appended(log, Resent(now));
    var w := Waited(now, Min(deadline, now + RESEND_AFTER) - now);
    Appended(log + [Resent(now)], w);
    Regroup(log, Resent(now), w);
  }

  lemma WaitingOnly(deadline: nat, log: seq<Action>, now: nat)
    requires now < deadline && now < LastDue(log) + 700
    ensures var waited := Waiting(deadline, log, now);
            && waited == log + FrontPart(deadline, LastDue(log), now)
            && LastDue(waited) == LastDue(log) && Confirmations(waited) == Confirmations(log)
  {
    hide LastDue, Confirmations, Lawful, May;
    var w := Waited(now, Min(deadline, LastDue(log) + RESEND_AFTER) - now);
    Appended(log, w);
    assert [] + [w] == [w];
  }

  lemma Regroup(log: seq<Action>, a: Action, b: Action)
    ensures log + ([a] + [b]) == log + [a] + [b]
  {
  }

  lemma TurnHandled(deadline: nat, log: seq<Action>, t: Turn)
    ensures var r := Turned(deadline, log, t);
            log <= r.0 && Handled(deadline, log, t, r.0[|log|..], r.1)
  {
    hide LastDue, Confirmations, Answering, EventPart, FrontPart, Resending, Waiting;
    if t.now < deadline {
      WaitingIs(deadline, log, t.now);
      var waited := Waiting(deadline, Resending(log, t.now), t.now);
      AnsweringIs(waited, t.event);
      var part := EventPart(t.event, LastDue(waited), Confirmations(waited) + 1 >= 2);
      assert (waited + part)[|log|..] == FrontPart(deadline, LastDue(log), t.now) + part;
    }
  }

  /** The booked time is that of the last probe in the log. */
  lemma {:induction false} DueTold(log: seq<Action>) returns (j: nat)
    requires log != [] && log[0].Probe?
    ensures j < |log| && (log[j].Probe? || log[j].Resent? || log[j].Reply?) && log[j].due == LastDue(log)
    ensures forall k :: j < k < |log| ==> !log[k].Probe? && !log[k].Resent? && !log[k].Reply?
  {
    var last := log[|log| - 1];
    if last.Probe? || last.Resent? || last.Reply? {
      j := |log| - 1;
    } else {
      j := DueTold(log[..|log| - 1]);
    }
  }

  /** What iteration `i` added is the piece of the log between two marks. */
  ghost predicate Piece(deadline: nat, script: seq<Turn>, log: seq<Action>, marks: seq<nat>, i: nat)
    requires i < |marks| - 1 <= |script|
  {
    && marks[i] <= marks[i + 1] <= |log|
    && Handled(deadline, log[..marks[i]], script[i], log[marks[i]..marks[i + 1]], Running)
  }

  ghost predicate Cut(t0: nat, deadline: nat, script: seq<Turn>, log: seq<Action>, marks: seq<nat>) {
    && 0 < |marks| <= |script| + 1 && marks[0] == 1 <= marks[|marks| - 1] <= |log|
    && log[0] == Probe(t0)
    && forall i {:trigger Piece(deadline, script, log, marks, i)} :: 0 <= i < |marks| - 1 ==> Piece(deadline, script, log, marks, i)
  }

  lemma CutExtends(t0: nat, deadline: nat, script: seq<Turn>, before: seq<Action>, log: seq<Action>, marks: seq<nat>)
    requires Cut(t0, deadline, script, before, marks) && before <= log
    ensures Cut(t0, deadline, script, log, marks)
  {
    hide Handled;
    forall i | 0 <= i < |marks| - 1
      ensures Piece(deadline, script, log, marks, i)
    {
      assert Piece(deadline, script, before, marks, i);
      assert log[..marks[i]] == before[..marks[i]] && log[marks[i]..marks[i + 1]] == before[marks[i]..marks[i + 1]];
    }
  }

  lemma CutMore(t0: nat, deadline: nat, script: seq<Turn>, log: seq<Action>, marks: seq<nat>)
    requires Cut(t0, deadline, script, log, marks) && |marks| <= |script|
    requires var k := marks[|marks| - 1]; Handled(deadline, log[..k], script[|marks| - 1], log[k..], Running)
    ensures Cut(t0, deadline, script, log, marks + [|log|])
  {
    hide Handled;
    var more := marks + [|log|];
    forall i | 0 <= i < |more| - 1
      ensures Piece(deadline, script, log, more, i)
    {
      if i < |marks| - 1 {
        assert Piece(deadline, script, log, marks, i);
      } else {
        assert log[more[i]..|log|] == log[more[i]..];
      }
    }
  }

  lemma {:induction false} HistoryCut(t0: nat, deadline: nat, script: seq<Turn>, n: nat) returns (marks: seq<nat>)
    requires WentOn(t0, deadline, script, n)
    ensures var log := History(t0, deadline, script[..n]);
            |marks| == n + 1 && Cut(t0, deadline, script, log, marks) && marks[n] == |log|
  {
    hide Turned, Handled;
    if n == 0 {
      marks := [1];
    } else {
      var before := History(t0, deadline, script[..n - 1]);
      marks := HistoryCut(t0, deadline, script, n - 1);
      HistoryNext(t0, deadline, script, n - 1);
      TurnHandled(deadline, before, script[n - 1]);
      var log := History(t0, deadline, script[..n]);
      CutExtends(t0, deadline, script, before, log, marks);
      assert log[..|before|] == before;
      CutMore(t0, deadline, script, log, marks);
      marks := marks + [|log|];
    }
  }

  /** The whole run: the pieces of the iterations that went on, and behind them what
      the last one did if it ended the loop. */
  ghost predicate Traced(
      t0: nat, deadline: nat, script: seq<Turn>, n: nat, log: seq<Action>, out: Outcome, marks: seq<nat>) {
    && n <= |script| && |marks| == n + 1 && Cut(t0, deadline, script, log, marks)
    && if out == Running then n == |script| && marks[n] == |log|
       else n < |script| && Handled(deadline, log[..marks[n]], script[n], log[marks[n]..], out)
  }

  lemma RunTraced(t0: nat, deadline: nat, script: seq<Turn>, n: nat, log: seq<Action>, out: Outcome)
    returns (marks: seq<nat>)
    requires WentOn(t0, deadline, script, n)
    requires if out == Running then n == |script| && log == History(t0, deadline, script)
             else n < |script| && (log, out) == Turned(deadline, History(t0, deadline, script[..n]), script[n])
    ensures Traced(t0, deadline, script, n, log, out, marks)
  {
    hide Handled, Turned, History, Cut;
    marks := HistoryCut(t0, deadline, script, n);
    if out == Running {
      assert script[..|script|] == script;
    } else {
      var before := History(t0, deadline, script[..n]);
      TurnHandled(deadline, before, script[n]);
      CutExtends(t0, deadline, script, before, log, marks);
      assert log[..|before|] == before;
    }
  }

  // ---- The loop ----------------------------------------------------------

  /** `verify_dataplane`, from the first probe at `t0` on.  It enters iterations
      until one of them ends it, and what it did is the history those lead to. */
  method VerifyDataplane(t0: nat, deadline: nat, firstSent: bool, script: seq<Turn>)
    returns (out: Outcome, log: seq<Action>, n: nat, ghost marks: seq<nat>)
    ensures !firstSent <==> out == ProbeError
    ensures Lawful(deadline, log) && (out == Confirming <==> Confirmations(log) == REQUIRED_SUCCESSES)
    ensures firstSent ==> n <= |script| && WentOn(t0, deadline, script, n)
    ensures firstSent ==>
              if out == Running then n == |script| && log == History(t0, deadline, script)
              else n < |script| && (log, out) == Turned(deadline, History(t0, deadline, script[..n]), script[n])
    ensures firstSent ==> Traced(t0, deadline, script, n, log, out, marks)
  {
    hide Lawful, Confirmations, LastDue, Resends, Replies, History, WentOn, May, Idle, Traced;
    marks := [];
    var successes := 0;
    var lastProbeAt := t0;
    log, n := [Probe(t0)], 0;
    FirstProbe(deadline, t0);
    if !firstSent {
      return ProbeError, log, n, [];
    }
    var resendAt := lastProbeAt + RESEND_AFTER;
    assert script[..0] == [] && script[..|script|] == script;
    out, n := Running, |script|;
    Start(t0, deadline, script);

    for i := 0 to |script|
      invariant out == Running && n == |script|
      invariant log == History(t0, deadline, script[..i]) && WentOn(t0, deadline, script, i)
      invariant lastProbeAt == LastDue(log) && resendAt == lastProbeAt + RESEND_AFTER
      invariant successes == Confirmations(log) < REQUIRED_SUCCESSES
    {
      HistoryNext(t0, deadline, script, i);
      RunsAreLawful(t0, deadline, script, i);
      TurnIsLawful(deadline, log, script[i]);
      var now := script[i].now;
      if now >= deadline {
        out, n := Timeout, i;
        break;
      }
      ResentLater(log, now);
      if now >= resendAt {
        Appended(log, Resent(now));
        log := log + [Resent(now)];
        lastProbeAt := now;
        resendAt := now + RESEND_AFTER;
      }
      var wait := Min(deadline - now, resendAt - now);
      Appended(log, Waited(now, wait));
      log := log + [Waited(now, wait)];
      ghost var waited := log;
      match script[i].event {
        case RecvFailed =>
          out, n := IoError, i;
          break;
        case ToTunnel(at) =>
          successes := successes + 1;
          Appended(log, Confirmed);
          log := log + [Confirmed];
          if successes >= REQUIRED_SUCCESSES {
            out, n := Confirming, i;
            break;
          }
          var nextAt := if at < lastProbeAt + PROBE_GAP then lastProbeAt + PROBE_GAP else at;
          Appended(log, Reply(nextAt));
          log := log + [Reply(nextAt)];
          lastProbeAt := nextAt;
          resendAt := nextAt + RESEND_AFTER;
        case ToNetwork =>
          Appended(log, Relayed);
          log := log + [Relayed];
        case Woke =>
        case Nothing =>
      }
    }
    if out == Running {
      RunsAreLawful(t0, deadline, script, |script|);
    }
    marks := RunTraced(t0, deadline, script, n, log, out);
  }

  lemma FirstProbe(deadline: nat, t0: nat)
    ensures Lawful(deadline, [Probe(t0)]) && Confirmations([Probe(t0)]) == 0
  {
    assert [Probe(t0)][..0] == [];
  }

  lemma Start(t0: nat, deadline: nat, script: seq<Turn>)
    ensures WentOn(t0, deadline, script, 0) && History(t0, deadline, []) == [Probe(t0)]
    ensures LastDue([Probe(t0)]) == t0 && Confirmations([Probe(t0)]) == 0
  {
  }
}
