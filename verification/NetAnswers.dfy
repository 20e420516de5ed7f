/** What an application that asked for a connection is finally told, by what the
    sweeps of the whole run saw of its socket. */
module NetAnswers {
  import opened Wire
  import opened Net
  import opened NetRuns

  /** The id that a request for a connection was given, if its socket was opened. */
  ghost function OpenedAs(es: seq<Event>, r: Request): Option<Id>
    requires Run(es).Some?
  {
    if es == [] then None
    else
      var before, last := es[..|es| - 1], es[|es| - 1];
      if last.EvOpenTcp? && last.req == r && last.connectOk then Some(Run(before).value.nextId) else OpenedAs(before, r)
  }

  /** The state in which the visits of a sweep see the socket of the entry `id`. */
  ghost function SweepSees(n: Net, visits: seq<(Id, Glance)>, id: Id): seq<Phase>
    requires Inv(n) && Visitable(n, visits)
    decreases |visits|
  {
    hide Inv, Visit;
    if visits == [] then []
    else
      SweepStep(n, visits);
      (if visits[0].0 == id then [PhaseOf(n, id)] else [])
      + SweepSees(Visit(n, visits[0].0, visits[0].1), visits[1..], id)
  }

  ghost function PhaseOf(n: Net, id: Id): Phase
    requires Inv(n) && id in n.tcp
  {
    EntriesConserve(n);
    n.sockets[n.tcp[id].handle].phase
  }

  /** All states in which the visits of the run saw it, in order. */
  ghost function Seen(es: seq<Event>, id: Id): seq<Phase>
    requires Run(es).Some?
  {
    hide Inv, Step;
    if es == [] then []
    else
      var before, last := es[..|es| - 1], es[|es| - 1];
      Seen(before, id) + if last.EvSweepTcp? then SweepSees(Run(before).value, last.visits, id) else []
  }

  predicate Decides(p: Phase) {
    p in {Established, Closed, TimeWait}
  }

  /** What the first deciding state means for the request. */
  function Verdict(seen: seq<Phase>, id: Id): seq<Answer> {
    if seen == [] then []
    else if seen[0] == Established then [Connected(id)]
    else if Decides(seen[0]) then [Refused]
    else Verdict(seen[1..], id)
  }

  lemma {:induction false} VerdictAppend(a: seq<Phase>, b: seq<Phase>, id: Id)
    ensures Verdict(a + b, id) == if Verdict(a, id) != [] then Verdict(a, id) else Verdict(b, id)
  {
    if a == [] {
      assert a + b == b;
    } else {
      assert (a + b)[1..] == a[1..] + b;
      VerdictAppend(a[1..], b, id);
    }
  }

  /** The request still waits in its entry, or has been told the verdict. */
  ghost predicate Told(n: Net, r: Request, id: Id, verdict: seq<Answer>) {
    && r in n.answers && n.answers[r] == verdict
    && (verdict == [] ==> id in n.tcp && n.tcp[id].connectResp == Some(r))
  }

  /** An answer that was given is never followed by another. */
  lemma AnswerStays(n: Net, m: Net, r: Request, id: Id, verdict: seq<Answer>)
    requires Inv(m) && Told(n, r, id, verdict) && verdict != []
    requires r in m.answers && n.answers[r] <= m.answers[r]
    ensures Told(m, r, id, verdict)
  {
    hide PortsOk, Coherent, Conserved;
    EntriesConserve(m);
    assert |m.answers[r]| <= 1;
  }

  /** An entry that still waits has an unanswered request. */
  lemma StillWaits(m: Net, r: Request, id: Id)
    requires Inv(m) && id in m.tcp && m.tcp[id].connectResp == Some(r)
    ensures Told(m, r, id, [])
  {
    hide PortsOk, Coherent, Conserved;
    WaitingUnanswered(m, id);
  }

  /** One visit, of this entry or of another. */
  lemma VisitTold(n: Net, visited: Id, g: Glance, r: Request, id: Id, verdict: seq<Answer>)
    requires Inv(n) && visited in n.tcp && Told(n, r, id, verdict)
    ensures var m := Visit(n, visited, g);
            var seen := if visited == id then [PhaseOf(n, id)] else [];
            Told(m, r, id, if verdict != [] then verdict else Verdict(seen, id))
  {
    hide Inv, Visit;
    var m := Visit(n, visited, g);
    assert Inv(m) && Framed(n, m, visited);
    if verdict != [] {
      AnswerStays(n, m, r, id, verdict);
    } else if visited != id {
      StillWaits(m, r, id);
    } else {
      EntriesConserve(n);
      VisitAnswers(n, id, g);
      VisitRemoves(n, id, g);
      var phase := PhaseOf(n, id);
      assert Verdict([phase], id) == if phase == Established then [Connected(id)] else if Decides(phase) then [Refused] else [] by {
        assert [phase][1..] == [];
      }
    }
  }

  lemma {:induction false} SweepTold(n: Net, visits: seq<(Id, Glance)>, r: Request, id: Id, verdict: seq<Answer>)
    requires Inv(n) && Visitable(n, visits) && Told(n, r, id, verdict)
    ensures Told(Sweep(n, visits), r, id, if verdict != [] then verdict else Verdict(SweepSees(n, visits, id), id))
    decreases |visits|
  {
    hide Inv, Visit, Told, Verdict;
    if visits == [] {
      assert Verdict([], id) == [] by { EmptyVerdict(id); }
    } else {
      SweepStep(n, visits);
      var (visited, g) := visits[0];
      VisitTold(n, visited, g, r, id, verdict);
      var m := Visit(n, visited, g);
      var seen := if visited == id then [PhaseOf(n, id)] else [];
      SweepTold(m, visits[1..], r, id, if verdict != [] then verdict else Verdict(seen, id));
      VerdictAppend(seen, SweepSees(m, visits[1..], id), id);
    }
  }

  lemma EmptyVerdict(id: Id)
    ensures Verdict([], id) == []
  {
  }

  /** No event but a sweep answers a connection that waits. */
  lemma OtherEventsKeepWaiting(n: Net, e: Event, id: Id)
    requires Inv(n) && Possible(n, e) && !e.EvSweepTcp? && id in n.tcp
    ensures var m := Step(n, e); id in m.tcp && m.tcp[id].connectResp == n.tcp[id].connectResp
  {
    hide PortsOk, AnsweredOnce, Conserved, HasOwner;
  }

  lemma {:induction false} SweepUnseen(n: Net, visits: seq<(Id, Glance)>, id: Id)
    requires Inv(n) && Visitable(n, visits)
    requires forall k :: 0 <= k < |visits| ==> visits[k].0 != id
    ensures SweepSees(n, visits, id) == []
    decreases |visits|
  {
    hide Inv, Visit;
    if visits != [] {
      SweepStep(n, visits);
      SweepUnseen(Visit(n, visits[0].0, visits[0].1), visits[1..], id);
    }
  }

  /** No visit sees an id before it is given out. */
  lemma {:induction false} UnseenBefore(es: seq<Event>, id: Id)
    requires Run(es).Some? && id >= Run(es).value.nextId
    ensures Seen(es, id) == []
  {
    hide Inv, Step;
    if es != [] {
      var before, last := es[..|es| - 1], es[|es| - 1];
      var n := Run(before).value;
      StepQueued(n, last);
      UnseenBefore(before, id);
      if last.EvSweepTcp? {
        EntriesConserve(n);
        SweepUnseen(n, last.visits, id);
      }
    }
  }

  /** In every run, what the request has been told is the verdict of the states in
      which its socket was seen. */
  lemma {:induction false} ToldTheVerdict(es: seq<Event>, r: Request)
    requires Run(es).Some? && OpenedAs(es, r).Some?
    ensures var (n, id) := (Run(es).value, OpenedAs(es, r).value);
            id < n.nextId && Told(n, r, id, Verdict(Seen(es, id), id))
  {
    hide Inv, Step, Told, Verdict, Visit;
    var before, last := es[..|es| - 1], es[|es| - 1];
    var n, m, id := Run(before).value, Run(es).value, OpenedAs(es, r).value;
    StepQueued(n, last);
    StepAnswers(n, last);
    EmptyVerdict(id);
    if last.EvOpenTcp? && last.req == r && last.connectOk {
      UnseenBefore(before, id);
      JustOpened(n, last);
      StillWaits(m, r, id);
    } else {
      ToldTheVerdict(before, r);
      var verdict := Verdict(Seen(before, id), id);
      if last.EvSweepTcp? {
        SweepTold(n, last.visits, r, id, verdict);
        SweptTo(n, last);
        VerdictAppend(Seen(before, id), SweepSees(n, last.visits, id), id);
      } else {
        assert Seen(es, id) == Seen(before, id);
        StaysTold(n, last, r, id, verdict);
      }
    }
  }

  lemma JustOpened(n: Net, e: Event)
    requires Inv(n) && Possible(n, e) && e.EvOpenTcp? && e.connectOk
    ensures var m := Step(n, e);
            n.nextId in m.tcp && m.tcp[n.nextId].connectResp == Some(e.req) && n.nextId < m.nextId
  {
    hide Inv;
  }

  lemma SweptTo(n: Net, e: Event)
    requires Inv(n) && Possible(n, e) && e.EvSweepTcp?
    ensures Visitable(n, e.visits) && Step(n, e) == Sweep(n, e.visits)
  {
    hide Inv, Sweep;
  }

  lemma StaysTold(n: Net, e: Event, r: Request, id: Id, verdict: seq<Answer>)
    requires Inv(n) && Possible(n, e) && !e.EvSweepTcp? && Told(n, r, id, verdict)
    ensures Told(Step(n, e), r, id, verdict)
  {
    hide Inv, Step, Possible;
    StepAnswers(n, e);
    if verdict == [] {
      OtherEventsKeepWaiting(n, e, id);
      StillWaits(Step(n, e), r, id);
    } else {
      AnswerStays(n, Step(n, e), r, id, verdict);
    }
  }

  predicate FirstSeenUp(seen: seq<Phase>, k: nat) {
    k < |seen| && seen[k] == Established && forall j :: 0 <= j < k ==> seen[j] !in {Closed, TimeWait}
  }

  predicate FirstSeenDown(seen: seq<Phase>, k: nat) {
    k < |seen| && seen[k] in {Closed, TimeWait} && forall j :: 0 <= j < k ==> seen[j] != Established
  }

  lemma {:induction false} VerdictIff(seen: seq<Phase>, id: Id)
    ensures Verdict(seen, id) == [Connected(id)] <==> exists k :: FirstSeenUp(seen, k)
    ensures Verdict(seen, id) == [Refused] <==> exists k :: FirstSeenDown(seen, k)
    ensures Verdict(seen, id) == [] <==> forall k :: 0 <= k < |seen| ==> !Decides(seen[k])
    ensures Verdict(seen, id) in {[], [Connected(id)], [Refused]}
  {
    if seen != [] {
      var rest := seen[1..];
      VerdictIff(rest, id);
      if Decides(seen[0]) {
        assert FirstSeenUp(seen, 0) || FirstSeenDown(seen, 0);
      } else {
        forall k: nat ensures FirstSeenUp(rest, k) ==> FirstSeenUp(seen, k + 1) {
        }
        forall k: nat ensures FirstSeenDown(rest, k) ==> FirstSeenDown(seen, k + 1) {
        }
        forall k: nat | FirstSeenUp(seen, k) ensures FirstSeenUp(rest, k - 1) {
          assert forall j :: 0 <= j < k - 1 ==> rest[j] == seen[j + 1];
        }
        forall k: nat | FirstSeenDown(seen, k) ensures FirstSeenDown(rest, k - 1) {
          assert forall j :: 0 <= j < k - 1 ==> rest[j] == seen[j + 1];
        }
        assert forall k :: 1 <= k < |seen| ==> seen[k] == rest[k - 1];
      }
    }
  }

  /** In every run a request whose socket was opened is told that it is connected
      exactly when some sweep saw the socket in the state Established before any saw
      it Closed or in TimeWait, and refused exactly in the opposite case; until
      then it is told nothing. */
  lemma ConnectedIff(es: seq<Event>, r: Request)
    requires Run(es).Some? && OpenedAs(es, r).Some?
    ensures var (n, id) := (Run(es).value, OpenedAs(es, r).value);
            var seen := Seen(es, id);
            && r in n.answers
            && (n.answers[r] == [Connected(id)] <==> exists k :: FirstSeenUp(seen, k))
            && (n.answers[r] == [Refused] <==> exists k :: FirstSeenDown(seen, k))
            && (n.answers[r] == [] <==> forall k :: 0 <= k < |seen| ==> !Decides(seen[k]))
  {
    hide Run, OpenedAs, Seen, Verdict, Decides, FirstSeenUp, FirstSeenDown;
    ToldTheVerdict(es, r);
    var id := OpenedAs(es, r).value;
    VerdictIff(Seen(es, id), id);
  }
}
