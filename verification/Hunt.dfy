/** Choosing the best gateway among probe results as they arrive: an online search
    for the smallest round trip, with a deadline and a quiet window after enough
    gateways were found. */
module Hunt {
  import opened Wire

  datatype Strategy = Strategy(targetSuccesses: nat, earlyExitFirst: bool, quietAfterFirst: nat)

  datatype Probed = Probed(gateway: nat, rtt: nat)

  /** What an iteration waits for; `at` is the clock when a success is handled. */
  datatype Event = StreamEnded | Failed | Succeeded(probed: Probed, at: nat) | Slept

  datatype Turn = Turn(now: nat, event: Event)

  datatype Why = Running | DeadlineReached | OutOfCandidates | SleptOut | TargetReached | FirstFound

  datatype Success = Success(probed: Probed, at: nat)

  // ---- What a search should do, told by the successes so far --------------

  function Successes(script: seq<Turn>): seq<Success> {
    if script == [] then []
    else
      var before, e := Successes(script[..|script| - 1]), script[|script| - 1].event;
      if e.Succeeded? then before + [Success(e.probed, e.at)] else before
  }

  /** The earliest of the successes with the smallest round trip, if there is any. */
  predicate IsBest(best: Option<Probed>, s: seq<Success>) {
    match best
    case None => s == []
    case Some(p) => exists i :: 0 <= i < |s| && s[i].probed == p && Leads(s, i)
  }

  predicate Leads(s: seq<Success>, i: nat)
    requires i < |s|
  {
    && (forall j :: 0 <= j < i ==> s[i].probed.rtt < s[j].probed.rtt)
    && (forall j :: i < j < |s| ==> s[i].probed.rtt <= s[j].probed.rtt)
  }

  /** The end of the quiet window: fixed by the success that meets the target. */
  function Quiet(st: Strategy, s: seq<Success>): Option<nat> {
    if st.targetSuccesses > 0 && |s| >= st.targetSuccesses && st.quietAfterFirst > 0 then
      Some(s[st.targetSuccesses - 1].at + st.quietAfterFirst)
    else None
  }

  function Effective(st: Strategy, deadline: nat, s: seq<Success>): nat {
    match Quiet(st, s) case None => deadline case Some(q) => Min(q, deadline)
  }

  predicate Enough(st: Strategy, s: seq<Success>) {
    || (st.earlyExitFirst && s != [])
    || (st.targetSuccesses > 0 && st.quietAfterFirst == 0 && |s| >= st.targetSuccesses)
  }

  /** The first `n` iterations were entered in time, and all but the last one went
      on. */
  ghost predicate Searched(st: Strategy, deadline: nat, script: seq<Turn>, n: nat) {
    && n <= |script|
    && (forall i :: 0 <= i < n ==>
          script[i].now < Effective(st, deadline, Successes(script[..i])) && !Enough(st, Successes(script[..i])))
    && (forall i :: 0 <= i < n - 1 ==> !script[i].event.StreamEnded? && !script[i].event.Slept?)
  }

  lemma SuccessesNext(script: seq<Turn>, i: nat)
    requires i < |script|
    ensures var e := script[i].event;
            var s := Successes(script[..i]);
            Successes(script[..i + 1]) == if e.Succeeded? then s + [Success(e.probed, e.at)] else s
  {
    assert script[..i + 1][..i] == script[..i];
  }

  /** Keeping the leader unless a strictly smaller round trip arrives. */
  lemma KeepLeader(best: Option<Probed>, s: seq<Success>, next: Success)
    requires IsBest(best, s)
    ensures var now := if best.Some? && best.value.rtt <= next.probed.rtt then best else Some(next.probed);
            IsBest(now, s + [next])
  {
    var t := s + [next];
    if best.Some? && best.value.rtt <= next.probed.rtt {
      var i :| 0 <= i < |s| && s[i].probed == best.value && Leads(s, i);
      assert t[i].probed == best.value && Leads(t, i);
    } else {
      if best.Some? {
        var i :| 0 <= i < |s| && s[i].probed == best.value && Leads(s, i);
        assert forall j :: 0 <= j < |s| ==> best.value.rtt <= s[j].probed.rtt;
      }
      assert t[|s|] == next && Leads(t, |s|);
    }
  }

  /** The choice in terms of the script: the result of an iteration among the first
      `n` that no earlier one matches and no later one beats; none exactly when no
      probe succeeded. */
  ghost predicate ChoosesBest(script: seq<Turn>, n: nat, best: Option<Probed>)
    requires n <= |script|
  {
    if best == None then forall i :: 0 <= i < n ==> !script[i].event.Succeeded?
    else exists i :: 0 <= i < n && Chosen(script, n, i, best.value)
  }

  predicate Chosen(script: seq<Turn>, n: nat, i: nat, p: Probed)
    requires i < n <= |script|
  {
    && script[i].event.Succeeded? && script[i].event.probed == p
    && (forall j :: 0 <= j < i && script[j].event.Succeeded? ==> p.rtt < script[j].event.probed.rtt)
    && (forall j :: i < j < n && script[j].event.Succeeded? ==> p.rtt <= script[j].event.probed.rtt)
  }

  /** The successes are those of the script, each once and in its order: `places` says
      which iteration each comes from. */
  lemma {:induction false} SuccessesExact(script: seq<Turn>, n: nat) returns (places: seq<nat>)
    requires n <= |script|
    ensures var s := Successes(script[..n]);
            && |places| == |s|
            && (forall k :: 0 <= k < |s| ==>
                  places[k] < n && script[places[k]].event == Succeeded(s[k].probed, s[k].at))
            && (forall j, k :: 0 <= j < k < |s| ==> places[j] < places[k])
            && (forall i :: 0 <= i < n && script[i].event.Succeeded? ==> i in places)
  {
    if n == 0 {
      places := [];
    } else {
      places := SuccessesExact(script, n - 1);
      SuccessesNext(script, n - 1);
      if script[n - 1].event.Succeeded? {
        places := places + [n - 1];
      }
    }
  }

  lemma BestIsChosen(script: seq<Turn>, n: nat, best: Option<Probed>)
    requires n <= |script| && IsBest(best, Successes(script[..n]))
    ensures ChoosesBest(script, n, best)
  {
    hide Successes;
    var places := SuccessesExact(script, n);
    var s := Successes(script[..n]);
    if best.Some? {
      var k :| 0 <= k < |s| && s[k].probed == best.value && Leads(s, k);
      var i := places[k];
      forall j | 0 <= j < n && script[j].event.Succeeded? && j != i
        ensures if j < i then best.value.rtt < script[j].event.probed.rtt else best.value.rtt <= script[j].event.probed.rtt
      {
        var m :| 0 <= m < |places| && places[m] == j;
        assert script[places[m]].event == Succeeded(s[m].probed, s[m].at);
      }
      assert Chosen(script, n, i, best.value);
    }
  }

  // ---- The search --------------------------------------------------------

  /** The loop of the search.  It has taken the events of the first `n` iterations
      when it stops: at the first iteration that comes too late, when the
      candidates or the wait run out, or with the success that is enough. */
  method HuntBest(st: Strategy, deadline: nat, script: seq<Turn>)
    returns (best: Option<Probed>, why: Why, n: nat, found: nat, quietUntil: Option<nat>)
    ensures Searched(st, deadline, script, n)
    ensures var s := Successes(script[..n]);
            && IsBest(best, s)
            && (why == Running ==> n == |script|)
            && (why == DeadlineReached ==> n < |script| && script[n].now >= Effective(st, deadline, s))
            && (why == OutOfCandidates <==> n > 0 && script[n - 1].event.StreamEnded?)
            && (why == SleptOut <==> n > 0 && script[n - 1].event.Slept?)
            && (why == FirstFound <==> st.earlyExitFirst && s != [])
            && (why == TargetReached <==>
                  !st.earlyExitFirst && st.targetSuccesses > 0 && st.quietAfterFirst == 0 && |s| >= st.targetSuccesses)
    ensures why != FirstFound ==>
              var s := Successes(script[..n]);
              && found == |s|
              && (quietUntil.Some? <==> st.targetSuccesses > 0 && |s| >= st.targetSuccesses && st.quietAfterFirst > 0)
              && (quietUntil.Some? ==> quietUntil.value == s[st.targetSuccesses - 1].at + st.quietAfterFirst)
              && (why == DeadlineReached ==>
                    script[n].now >= deadline || (quietUntil.Some? && script[n].now >= quietUntil.value))
    ensures ChoosesBest(script, n, best)
    ensures forall i :: 0 <= i < n ==> EnteredInTime(st, deadline, script, i)
  {
    hide Successes, IsBest, Searched, ChoosesBest, EnteredInTime;
    best, found, quietUntil := None, 0, None;
    why, n := Running, |script|;
    assert script[..0] == [] && script[..|script|] == script;
    NothingYet(st, deadline, script);
    for i := 0 to |script|
      invariant why == Running && n == |script|
      invariant Searched(st, deadline, script, i) && (i > 0 ==> !script[i - 1].event.StreamEnded? && !script[i - 1].event.Slept?)
      invariant IsBest(best, Successes(script[..i])) && found == |Successes(script[..i])|
      invariant quietUntil == Quiet(st, Successes(script[..i])) && !Enough(st, Successes(script[..i]))
    {
      ghost var s := Successes(script[..i]);
      var effective := match quietUntil case Some(q) => Min(q, deadline) case None => deadline;
      if effective <= script[i].now {
        why, n := DeadlineReached, i;
        break;
      }
      SearchedNext(st, deadline, script, i);
      SuccessesNext(script, i);
      match script[i].event {
        case StreamEnded =>
          why, n := OutOfCandidates, i + 1;
          break;
        case Failed =>
        case Succeeded(pr, at) =>
          KeepLeader(best, s, Success(pr, at));
          if st.earlyExitFirst {
            best := Some(pr);
            assert s == [] && IsBest(None, s) by { FirstIsBest(st, best, s, Success(pr, at)); }
            why, n := FirstFound, i + 1;
            break;
          }
          best := match best
            case Some(cur) => if cur.rtt <= pr.rtt then best else Some(pr)
            case None => Some(pr);
          found := found + 1;
          if st.targetSuccesses > 0 && found >= st.targetSuccesses && quietUntil == None {
            if st.quietAfterFirst > 0 {
              quietUntil := Some(at + st.quietAfterFirst);
            } else {
              why, n := TargetReached, i + 1;
              break;
            }
          }
        case Slept =>
          why, n := SleptOut, i + 1;
          break;
      }
    }
    BestIsChosen(script, n, best);
    AllInTime(st, deadline, script, n);
  }

  /** An iteration was entered before the deadline and, once the target was met,
      before the end of the quiet window that the success meeting it opened; and none
      is entered when that success, or the first one with early exit, was enough. */
  predicate EnteredInTime(st: Strategy, deadline: nat, script: seq<Turn>, i: nat)
    requires i < |script|
  {
    var s := Successes(script[..i]);
    && script[i].now < deadline
    && (st.earlyExitFirst ==> s == [])
    && (0 < st.targetSuccesses <= |s| ==>
          st.quietAfterFirst > 0 && script[i].now < s[st.targetSuccesses - 1].at + st.quietAfterFirst)
  }

  lemma AllInTime(st: Strategy, deadline: nat, script: seq<Turn>, n: nat)
    requires Searched(st, deadline, script, n)
    ensures forall i :: 0 <= i < n ==> EnteredInTime(st, deadline, script, i)
  {
    hide Successes;
  }

  lemma NothingYet(st: Strategy, deadline: nat, script: seq<Turn>)
    ensures Successes([]) == [] && IsBest(None, []) && Searched(st, deadline, script, 0)
  {
  }

  lemma FirstIsBest(st: Strategy, best: Option<Probed>, s: seq<Success>, first: Success)
    requires s == []
    ensures IsBest(None, s) && IsBest(Some(first.probed), s + [first])
  {
    KeepLeader(None, s, first);
  }

  lemma SearchedNext(st: Strategy, deadline: nat, script: seq<Turn>, i: nat)
    requires i < |script| && Searched(st, deadline, script, i)
    requires i > 0 ==> !script[i - 1].event.StreamEnded? && !script[i - 1].event.Slept?
    requires script[i].now < Effective(st, deadline, Successes(script[..i])) && !Enough(st, Successes(script[..i]))
    ensures Searched(st, deadline, script, i + 1)
  {
  }

  // ---- What that means ---------------------------------------------------

  /** The choice is unique: no other result could have been returned. */
  lemma BestIsUnique(a: Option<Probed>, b: Option<Probed>, s: seq<Success>)
    requires IsBest(a, s) && IsBest(b, s)
    ensures a == b && (a == None <==> s == [])
  {
  }

  /** Once set, the quiet window never moves, and every later result was awaited
      inside it. */
  lemma QuietNeverMoves(st: Strategy, deadline: nat, script: seq<Turn>, n: nat, i: nat)
    requires Searched(st, deadline, script, n) && i <= n
    requires Quiet(st, Successes(script[..i])).Some?
    ensures Quiet(st, Successes(script[..n])) == Quiet(st, Successes(script[..i]))
    ensures forall j :: i <= j < n ==> script[j].now < Quiet(st, Successes(script[..i])).value
    decreases n - i
  {
    hide Successes;
    if i < n {
      SuccessesNext(script, i);
      QuietNeverMoves(st, deadline, script, n, i + 1);
    }
  }
}
