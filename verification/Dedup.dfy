/** First occurrences: what remains of a list when everything seen before is
    skipped, and the list with its set of seen elements that computes it. */
module Dedup {

  /** `s` without the elements that occur earlier in it. */
  function Firsts<T(==)>(s: seq<T>): seq<T> {
    if s == [] then []
    else
      var before, x := s[..|s| - 1], s[|s| - 1];
      if x in before then Firsts(before) else Firsts(before) + [x]
  }

  lemma {:induction false} FirstsHold<T>(s: seq<T>, x: T)
    ensures x in Firsts(s) <==> x in s
  {
    if s != [] {
      FirstsHold(s[..|s| - 1], x);
      assert s == s[..|s| - 1] + [s[|s| - 1]];
    }
  }

  predicate Distinct<T(==)>(s: seq<T>) {
    forall i, j :: 0 <= i < j < |s| ==> s[i] != s[j]
  }

  predicate Before<T(==)>(s: seq<T>, a: T, b: T) {
    exists i, j :: 0 <= i < j < |s| && s[i] == a && s[j] == b
  }

  lemma FirstsMore<T>(s: seq<T>, x: T)
    ensures Firsts(s + [x]) == if x in s then Firsts(s) else Firsts(s) + [x]
  {
    assert (s + [x])[..|s|] == s;
  }

  lemma {:induction false} FirstsDistinct<T>(s: seq<T>)
    ensures Distinct(Firsts(s))
    ensures Distinct(s) ==> Firsts(s) == s
  {
    if s != [] {
      FirstsDistinct(s[..|s| - 1]);
      FirstsHold(s[..|s| - 1], s[|s| - 1]);
      assert s == s[..|s| - 1] + [s[|s| - 1]];
    }
  }

  /** What comes later never disturbs what is placed. */
  lemma {:induction false} FirstsPrefix<T>(a: seq<T>, b: seq<T>)
    ensures Firsts(a) <= Firsts(a + b)
  {
    if b == [] {
      assert a + b == a;
    } else {
      FirstsPrefix(a, b[..|b| - 1]);
      assert a + b == a + b[..|b| - 1] + [b[|b| - 1]];
      FirstsMore(a + b[..|b| - 1], b[|b| - 1]);
    }
  }

  /** Elements keep the order of their first occurrences. */
  lemma FirstsKeepOrder<T>(a: seq<T>, b: seq<T>, x: T, y: T)
    requires x in a && y in b && y !in a
    ensures Before(Firsts(a + b), x, y)
  {
    FirstsPrefix(a, b);
    FirstsHold(a, x);
    FirstsHold(a, y);
    FirstsHold(a + b, y);
    var r := Firsts(a + b);
    var i :| 0 <= i < |Firsts(a)| && Firsts(a)[i] == x;
    var j :| 0 <= j < |r| && r[j] == y;
    assert r[i] == x;
    assert forall k :: 0 <= k < |Firsts(a)| ==> r[k] == Firsts(a)[k];
  }

  class Collector<T(==,!new)> {
    var out: seq<T>
    var seen: set<T>
    ghost var offered: seq<T>

    ghost predicate Valid()
      reads this
    {
      out == Firsts(offered) && forall x :: x in seen <==> x in offered
    }

    constructor ()
      ensures offered == [] && Valid()
    {
      out, seen, offered := [], {}, [];
    }

    method Offer(x: T)
      requires Valid()
      modifies this
      ensures offered == old(offered) + [x]
      ensures Valid()
    {
      FirstsMore(offered, x);
      if x !in seen {
        seen := seen + {x};
        out := out + [x];
      }
      offered := offered + [x];
    }
  }
}
