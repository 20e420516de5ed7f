/** The two query builders: one for the ECH bootstrap, which skips empty labels,
    and one behind the SOCKS proxy, which does not. */
module DnsQuery {
  import opened Wire
  import opened Dns

  const DOT: byte := 46

  /** The parts of `s` between the dots; empty parts count. */
  function Split(s: seq<byte>): (parts: seq<seq<byte>>)
    ensures parts != []
  {
    if s == [] then [[]]
    else
      var rest := Split(s[1..]);
      if s[0] == DOT then [[]] + rest else [[s[0]] + rest[0]] + rest[1..]
  }

  function Joined(parts: seq<seq<byte>>): seq<byte> {
    if |parts| == 0 then []
    else if |parts| == 1 then parts[0]
    else parts[0] + [DOT] + Joined(parts[1..])
  }

  lemma {:induction false} SplitJoins(s: seq<byte>)
    ensures Joined(Split(s)) == s
    ensures forall p :: p in Split(s) ==> DOT !in p
  {
    if s != [] {
      var rest := Split(s[1..]);
      SplitJoins(s[1..]);
      var parts := Split(s);
      if s[0] == DOT {
        assert parts[1..] == rest;
      } else {
        assert parts[1..] == rest[1..];
        assert Joined(parts) == [s[0]] + Joined(rest);
        assert forall p :: p in parts ==> p == parts[0] || p in rest;
        assert rest[0] in rest;
      }
    }
  }

  function Filled(parts: seq<seq<byte>>): (r: seq<seq<byte>>)
    ensures forall p :: p in r ==> p in parts && p != []
  {
    if parts == [] then []
    else if parts[0] == [] then Filled(parts[1..])
    else [parts[0]] + Filled(parts[1..])
  }

  /** A length byte before every part, cut to eight bits. */
  function Pushed(parts: seq<seq<byte>>): seq<byte> {
    if parts == [] then [] else [|parts[0]| % 256] + parts[0] + Pushed(parts[1..])
  }

  /** Exactly the empty parts are dropped, and the others keep their order; every part
      is pushed with its own length byte. */
  lemma {:induction false} PartByPart(a: seq<seq<byte>>, p: seq<byte>, b: seq<seq<byte>>)
    ensures Filled(a + [p] + b) == Filled(a) + (if p == [] then [] else [p]) + Filled(b)
    ensures Pushed(a + [p] + b) == Pushed(a) + ([|p| % 256] + p) + Pushed(b)
    decreases |a|
  {
    var s := a + [p] + b;
    if a == [] {
      assert s[0] == p && s[1..] == b;
    } else {
      assert s[1..] == a[1..] + [p] + b;
      PartByPart(a[1..], p, b);
    }
  }

  function Header(id: nat): (h: seq<byte>)
    requires id < 65536
    ensures |h| == HEADER
  {
    U16(id) + [1, 0] + [0, 1] + [0, 0, 0, 0, 0, 0]
  }

  function Query(id: nat, parts: seq<seq<byte>>, qtype: nat): seq<byte>
    requires id < 65536 && qtype < 65536
  {
    Header(id) + (Pushed(parts) + [0]) + (U16(qtype) + [0, 1])
  }

  /** The builder of the ECH bootstrap. */
  method BuildQuery(name: seq<byte>, qtype: nat, id: nat) returns (q: seq<byte>)
    requires id < 65536 && qtype < 65536
    ensures q == Query(id, Filled(Split(name)), qtype)
  {
    q := Header(id);
    var labels := Split(name);
    for i := 0 to |labels|
      invariant q + Pushed(Filled(labels[i..])) == Header(id) + Pushed(Filled(labels))
    {
      assert labels[i..][0] == labels[i] && labels[i..][1..] == labels[i + 1..];
      if labels[i] != [] {
        var rest := Filled(labels[i + 1..]);
        assert Filled(labels[i..])[1..] == rest;
        assert q + [|labels[i]| % 256] + labels[i] + Pushed(rest) == q + ([|labels[i]| % 256] + labels[i] + Pushed(rest));
        q := q + [|labels[i]| % 256] + labels[i];
      }
    }
    assert labels[|labels|..] == [] && q + [] == q;
    q := q + [0];
    q := q + U16(qtype) + [0, 1];
  }

  /** The builder behind the SOCKS proxy. */
  method BuildDnsQuery(name: seq<byte>, qtype: nat, id: nat) returns (q: seq<byte>)
    requires id < 65536 && qtype < 65536
    ensures q == Query(id, Split(name), qtype)
  {
    q := Header(id);
    var labels := Split(name);
    for i := 0 to |labels|
      invariant q + Pushed(labels[i..]) == Header(id) + Pushed(labels)
    {
      assert labels[i..][0] == labels[i] && labels[i..][1..] == labels[i + 1..];
      var rest := Pushed(labels[i + 1..]);
      assert q + [|labels[i]| % 256] + labels[i] + rest == q + ([|labels[i]| % 256] + labels[i] + rest);
      q := q + [|labels[i]| % 256] + labels[i];
    }
    assert labels[|labels|..] == [] && q + [] == q;
    q := q + [0];
    q := q + U16(qtype) + [0, 1];
  }

  /** Reading the labels stops at the first empty one, and only then short of the
      end. */
  lemma {:induction false} SkipPushed(buf: seq<byte>, pos: nat, parts: seq<seq<byte>>)
    requires forall p :: p in parts ==> |p| <= 63
    requires At(buf, pos, Pushed(parts) + [0])
    ensures var (r, end) := (SkipName(buf, pos), pos + |Pushed(parts)| + 1);
            r.Some? && r.value <= end && (r.value == end <==> [] !in parts)
    decreases |parts|
  {
    hide At;
    AtFirst(buf, pos, Pushed(parts) + [0]);
    if parts != [] && parts[0] != [] {
      var p, rest := parts[0], Pushed(parts[1..]) + [0];
      var head: seq<byte> := [|p|] + p;
      assert Pushed(parts) + [0] == head + rest;
      AtSplit(buf, pos, head, rest);
      SkipPushed(buf, pos + 1 + |p|, parts[1..]);
      assert parts == [p] + parts[1..];
    }
  }

  /** With labels of 63 bytes or less: the question that the proxy sends ends where
      it should exactly when the name has no empty label; the bootstrap's question
      always does. */
  lemma QuestionWellFormedIff(id: nat, name: seq<byte>, qtype: nat)
    requires id < 65536 && qtype < 65536
    requires forall p :: p in Split(name) ==> |p| <= 63
    ensures var q := Query(id, Split(name), qtype);
            SkipName(q, HEADER) == Some(|q| - 4) <==> [] !in Split(name)
    ensures var q := Query(id, Filled(Split(name)), qtype);
            SkipName(q, HEADER) == Some(|q| - 4)
  {
    hide SkipName, Query, Split;
    QuestionRead(id, Split(name), qtype);
    QuestionRead(id, Filled(Split(name)), qtype);
  }

  lemma QuestionRead(id: nat, parts: seq<seq<byte>>, qtype: nat)
    requires id < 65536 && qtype < 65536
    requires forall p :: p in parts ==> |p| <= 63
    ensures var q := Query(id, parts, qtype);
            SkipName(q, HEADER) == Some(|q| - 4) <==> [] !in parts
  {
    hide SkipName, Header, Pushed;
    var q := Query(id, parts, qtype);
    assert q[HEADER..HEADER + |Pushed(parts) + [0]|] == Pushed(parts) + [0];
    SkipPushed(q, HEADER, parts);
  }

  /** The bootstrap's query is a well-formed message with one question, for the
      name without its empty labels. */
  lemma QueryIsMessage(id: nat, name: seq<byte>, qtype: nat)
    requires id < 65536 && qtype < 65536
    requires forall p :: p in Split(name) ==> |p| <= 63
    ensures var question := Question(Name(Filled(Split(name)), None), U16(qtype) + [0, 1]);
            var m := Message(U16(id) + [1, 0], [0, 0, 0, 0], [question], [], []);
            m.Valid() && m.Bytes() == Query(id, Filled(Split(name)), qtype)
  {
    hide Split;
    var labels := Filled(Split(name));
    PushedLabels(labels);
    OneQuestion(id, labels, qtype);
  }

  /** Both builders write the same for a name without empty labels. */
  lemma {:induction false} NothingToDrop(parts: seq<seq<byte>>)
    requires [] !in parts
    ensures Filled(parts) == parts
  {
    if parts != [] {
      assert parts == [parts[0]] + parts[1..];
      NothingToDrop(parts[1..]);
    }
  }

  lemma OneQuestion(id: nat, labels: seq<seq<byte>>, qtype: nat)
    requires id < 65536 && qtype < 65536
    requires Name(labels, None).Valid() && Pushed(labels) == Labels(labels)
    ensures var question := Question(Name(labels, None), U16(qtype) + [0, 1]);
            var m := Message(U16(id) + [1, 0], [0, 0, 0, 0], [question], [], []);
            m.Valid() && m.Bytes() == Query(id, labels, qtype)
  {
    hide Pushed, Labels;
    var question := Question(Name(labels, None), U16(qtype) + [0, 1]);
    assert Questions([question]) == question.Bytes();
    assert question.Bytes() == Pushed(labels) + [0] + (U16(qtype) + [0, 1]);
    var m := Message(U16(id) + [1, 0], [0, 0, 0, 0], [question], [], []);
    assert m.Bytes() == Header(id) + question.Bytes();
  }

  lemma {:induction false} PushedLabels(labels: seq<seq<byte>>)
    requires forall l :: l in labels ==> |l| <= 63
    ensures Pushed(labels) == Labels(labels)
  {
    if labels != [] { PushedLabels(labels[1..]); }
  }

  /** A trailing dot is enough: every name that ends in one is sent malformed. */
  lemma TrailingDot(id: nat, name: seq<byte>, qtype: nat)
    requires id < 65536 && qtype < 65536
    requires forall p :: p in Split(name + [DOT]) ==> |p| <= 63
    ensures var q := Query(id, Split(name + [DOT]), qtype);
            SkipName(q, HEADER) != Some(|q| - 4)
  {
    hide Split, SkipName, Query;
    DotLast(name);
    QuestionWellFormedIff(id, name + [DOT], qtype);
  }

  lemma {:induction false} DotLast(name: seq<byte>)
    ensures var parts := Split(name + [DOT]);
            |parts| >= 2 && parts[|parts| - 1] == []
  {
    var s := name + [DOT];
    if name == [] {
      assert s[1..] == [];
    } else {
      DotLast(name[1..]);
      assert s[1..] == name[1..] + [DOT];
    }
  }
}
