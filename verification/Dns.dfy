/** The DNS messages the client reads and writes: section 4.1 of RFC 1035, and the
    HTTPS records of section 2.2 of RFC 9460, of which it wants the parameter with
    key 5.  The cursor works on any bytes; the printer at the end writes the
    well-formed messages. */
module Dns {
  import opened Wire

  const RR_A: nat := 1
  const RR_HTTPS: nat := 65
  const SVCPARAM_ECH: nat := 5
  const HEADER: nat := 12

  // ---- Names -------------------------------------------------------------

  /** Where the name at `pos` ends: behind its zero byte or its first pointer. */
  function SkipName(buf: seq<byte>, pos: nat): (r: Option<nat>)
    ensures r.Some? ==> pos < r.value <= |buf| + 1
    decreases |buf| - pos
  {
    if pos >= |buf| then None
    else if buf[pos] >= 0xc0 then Some(pos + 2)
    else if buf[pos] == 0 then Some(pos + 1)
    else SkipName(buf, pos + 1 + buf[pos])
  }

  method SkipNameLoop(buf: seq<byte>, start: nat) returns (r: Option<nat>)
    ensures r == SkipName(buf, start)
  {
    var pos := start;
    while true
      invariant SkipName(buf, pos) == SkipName(buf, start)
      decreases |buf| - pos
    {
      if pos >= |buf| { return None; }
      var len := buf[pos];
      if len >= 0xc0 { return Some(pos + 2); }
      if len == 0 { return Some(pos + 1); }
      pos := pos + 1 + len;
    }
  }

  // ---- Messages ----------------------------------------------------------

  function SkipQuestions(msg: seq<byte>, pos: nat, n: nat): Option<nat>
    decreases n
  {
    if n == 0 then Some(pos)
    else match SkipName(msg, pos)
         case None => None
         case Some(p) => SkipQuestions(msg, p + 4, n - 1)
  }

  /** A record that was read: its type and where its data lies. */
  datatype Raw = Raw(rtype: nat, at: nat, rdlen: nat)

  /** The record at `pos`, if it lies completely inside the message. */
  function ReadRecord(msg: seq<byte>, pos: nat): (r: Option<Raw>)
    ensures r.Some? ==> pos < r.value.at && r.value.at + r.value.rdlen <= |msg|
  {
    match SkipName(msg, pos)
    case None => None
    case Some(p) =>
      if p + 10 > |msg| then None
      else
        var rdlen := FromU16(msg[p + 8], msg[p + 9]);
        if p + 10 + rdlen > |msg| then None else Some(Raw(FromU16(msg[p], msg[p + 1]), p + 10, rdlen))
  }

  /** Up to `n` records from `pos` on, as far as they can be read. */
  function Walked(msg: seq<byte>, pos: nat, n: nat): (rs: seq<Raw>)
    ensures |rs| <= n && forall i :: 0 <= i < |rs| ==> rs[i].at + rs[i].rdlen <= |msg|
    decreases n
  {
    if n == 0 then []
    else match ReadRecord(msg, pos)
         case None => []
         case Some(raw) => [raw] + Walked(msg, raw.at + raw.rdlen, n - 1)
  }

  /** The answers of a message, as far as they can be read. */
  function Answers(msg: seq<byte>): (rs: seq<Raw>)
    ensures forall i :: 0 <= i < |rs| ==> rs[i].at + rs[i].rdlen <= |msg|
  {
    if |msg| < HEADER then []
    else match SkipQuestions(msg, HEADER, FromU16(msg[4], msg[5]))
         case None => []
         case Some(pos) => Walked(msg, pos, FromU16(msg[6], msg[7]))
  }

  /** The value of the first parameter with key 5 between `p` and `end`. */
  function EchParam(msg: seq<byte>, p: nat, end: nat): Option<seq<byte>>
    requires end <= |msg|
    decreases end - p
  {
    if p + 4 > end then None
    else
      var len := FromU16(msg[p + 2], msg[p + 3]);
      if p + 4 + len > end then None
      else if FromU16(msg[p], msg[p + 1]) == SVCPARAM_ECH then Some(msg[p + 4..p + 4 + len])
      else EchParam(msg, p + 4 + len, end)
  }

  function EchOf(msg: seq<byte>, raw: Raw): Option<seq<byte>>
    requires raw.at + raw.rdlen <= |msg|
  {
    if raw.rtype != RR_HTTPS || raw.rdlen < 2 then None
    else match SkipName(msg, raw.at + 2)
         case None => None
         case Some(p) => EchParam(msg, p, raw.at + raw.rdlen)
  }

  function AddressOf(msg: seq<byte>, raw: Raw): Option<seq<byte>>
    requires raw.at + raw.rdlen <= |msg|
  {
    if raw.rtype == RR_A && raw.rdlen == 4 then Some(msg[raw.at..raw.at + 4]) else None
  }

  function FirstEch(msg: seq<byte>, raws: seq<Raw>): Option<seq<byte>>
    requires forall i :: 0 <= i < |raws| ==> raws[i].at + raws[i].rdlen <= |msg|
  {
    if raws == [] then None
    else if EchOf(msg, raws[0]).Some? then EchOf(msg, raws[0])
    else FirstEch(msg, raws[1..])
  }

  function FirstAddress(msg: seq<byte>, raws: seq<Raw>): Option<seq<byte>>
    requires forall i :: 0 <= i < |raws| ==> raws[i].at + raws[i].rdlen <= |msg|
  {
    if raws == [] then None
    else if AddressOf(msg, raws[0]).Some? then AddressOf(msg, raws[0])
    else FirstAddress(msg, raws[1..])
  }

  method ParseSvcParamsEch(msg: seq<byte>, rdataStart: nat, rdlen: nat) returns (r: Option<seq<byte>>)
    requires rdataStart + rdlen <= |msg|
    ensures r == EchOf(msg, Raw(RR_HTTPS, rdataStart, rdlen))
  {
    var end := rdataStart + rdlen;
    if rdataStart + 2 > end { return None; }
    var p;
    var name := SkipNameLoop(msg, rdataStart + 2);
    match name {
      case None => return None;
      case Some(q) => p := q;
    }
    while p + 4 <= end
      invariant EchParam(msg, p, end) == EchOf(msg, Raw(RR_HTTPS, rdataStart, rdlen))
      decreases end - p
    {
      var key := FromU16(msg[p], msg[p + 1]);
      var len := FromU16(msg[p + 2], msg[p + 3]);
      p := p + 4;
      if p + len > end { return None; }
      if key == SVCPARAM_ECH { return Some(msg[p..p + len]); }
      p := p + len;
    }
    r := None;
  }

  method SkipQuestionsLoop(msg: seq<byte>, qd: nat) returns (r: Option<nat>)
    ensures r == SkipQuestions(msg, HEADER, qd)
  {
    var pos := HEADER;
    for i := 0 to qd
      invariant SkipQuestions(msg, pos, qd - i) == SkipQuestions(msg, HEADER, qd)
    {
      var next := SkipNameLoop(msg, pos);
      match next {
        case None => return None;
        case Some(p) => pos := p + 4;
      }
    }
    r := Some(pos);
  }

  method ReadRecordAt(msg: seq<byte>, pos: nat) returns (r: Option<Raw>)
    ensures r == ReadRecord(msg, pos)
  {
    var name := SkipNameLoop(msg, pos);
    match name {
      case None => return None;
      case Some(p) =>
        if p + 10 > |msg| { return None; }
        var rtype := FromU16(msg[p], msg[p + 1]);
        var rdlen := FromU16(msg[p + 8], msg[p + 9]);
        if p + 10 + rdlen > |msg| { return None; }
        r := Some(Raw(rtype, p + 10, rdlen));
    }
  }

  method ParseHttpsEch(msg: seq<byte>) returns (r: Option<seq<byte>>)
    ensures r == FirstEch(msg, Answers(msg))
  {
    hide SkipName, ReadRecord, EchOf, Walked, SkipQuestions;
    if |msg| < HEADER { return None; }
    var qd, an := FromU16(msg[4], msg[5]), FromU16(msg[6], msg[7]);
    var questions := SkipQuestionsLoop(msg, qd);
    if questions == None { return None; }
    var pos := questions.value;
    for i := 0 to an
      invariant FirstEch(msg, Answers(msg)) == FirstEch(msg, Walked(msg, pos, an - i))
    {
      var record := ReadRecordAt(msg, pos);
      match record {
        case None =>
          WalkedEnds(msg, pos, an - i);
          return None;
        case Some(raw) =>
          WalkedNext(msg, pos, an - i);
          if raw.rtype == RR_HTTPS {
            var ech := ParseSvcParamsEch(msg, raw.at, raw.rdlen);
            if ech.Some? { return ech; }
          } else {
            OnlyHttps(msg, raw);
          }
          pos := raw.at + raw.rdlen;
      }
    }
    WalkedEnds(msg, pos, 0);
    r := None;
  }

  method ParseDnsA(msg: seq<byte>) returns (r: Option<seq<byte>>)
    ensures r == FirstAddress(msg, Answers(msg))
  {
    hide SkipName, ReadRecord, AddressOf, Walked, SkipQuestions;
    if |msg| < HEADER { return None; }
    var qd, an := FromU16(msg[4], msg[5]), FromU16(msg[6], msg[7]);
    var questions := SkipQuestionsLoop(msg, qd);
    if questions == None { return None; }
    var pos := questions.value;
    for i := 0 to an
      invariant FirstAddress(msg, Answers(msg)) == FirstAddress(msg, Walked(msg, pos, an - i))
    {
      var record := ReadRecordAt(msg, pos);
      match record {
        case None =>
          WalkedEnds(msg, pos, an - i);
          return None;
        case Some(raw) =>
          WalkedNext(msg, pos, an - i);
          IsAddress(msg, raw);
          if raw.rtype == RR_A && raw.rdlen == 4 {
            return Some(msg[raw.at..raw.at + 4]);
          }
          pos := raw.at + raw.rdlen;
      }
    }
    WalkedEnds(msg, pos, 0);
    r := None;
  }

  lemma WalkedNext(msg: seq<byte>, pos: nat, n: nat)
    requires n > 0 && ReadRecord(msg, pos).Some?
    ensures var raw := ReadRecord(msg, pos).value;
            && Walked(msg, pos, n) != [] && Walked(msg, pos, n)[0] == raw
            && Walked(msg, pos, n)[1..] == Walked(msg, raw.at + raw.rdlen, n - 1)
  {
  }

  lemma FirstsNext(msg: seq<byte>, raws: seq<Raw>)
    requires raws != [] && forall i :: 0 <= i < |raws| ==> raws[i].at + raws[i].rdlen <= |msg|
    ensures FirstEch(msg, raws) ==
            if EchOf(msg, raws[0]).Some? then EchOf(msg, raws[0]) else FirstEch(msg, raws[1..])
    ensures FirstAddress(msg, raws) ==
            if AddressOf(msg, raws[0]).Some? then AddressOf(msg, raws[0]) else FirstAddress(msg, raws[1..])
  {
  }

  lemma WalkedEnds(msg: seq<byte>, pos: nat, n: nat)
    requires n == 0 || ReadRecord(msg, pos) == None
    ensures FirstEch(msg, Walked(msg, pos, n)) == None && FirstAddress(msg, Walked(msg, pos, n)) == None
  {
  }

  lemma IsAddress(msg: seq<byte>, raw: Raw)
    requires raw.at + raw.rdlen <= |msg|
    ensures AddressOf(msg, raw) ==
            if raw.rtype == RR_A && raw.rdlen == 4 then Some(msg[raw.at..raw.at + 4]) else None
  {
  }

  lemma OnlyHttps(msg: seq<byte>, raw: Raw)
    requires raw.at + raw.rdlen <= |msg| && raw.rtype != RR_HTTPS
    ensures EchOf(msg, raw) == None
  {
  }

  // ---- The printer -------------------------------------------------------

  /** A name on the wire: labels, then the zero byte or a pointer. */
  datatype Name = Name(labels: seq<seq<byte>>, pointer: Option<(byte, byte)>) {
    predicate Valid() {
      && (forall l :: l in labels ==> 1 <= |l| <= 63)
      && (pointer.Some? ==> pointer.value.0 >= 0xc0)
    }

    function Bytes(): seq<byte>
      requires Valid()
    {
      Labels(labels) + match pointer case None => [0] case Some((hi, lo)) => [hi, lo]
    }
  }

  function Labels(labels: seq<seq<byte>>): seq<byte>
    requires forall l :: l in labels ==> |l| <= 63
  {
    if labels == [] then [] else [|labels[0]|] + labels[0] + Labels(labels[1..])
  }

  datatype Param = Param(key: nat, value: seq<byte>) {
    predicate Valid() { key < 65536 && |value| < 65536 }

    function Bytes(): seq<byte>
      requires Valid()
    {
      U16(key) + U16(|value|) + value
    }
  }

  function Params(ps: seq<Param>): seq<byte>
    requires forall p :: p in ps ==> p.Valid()
  {
    if ps == [] then [] else ps[0].Bytes() + Params(ps[1..])
  }

  datatype Data =
    | Https(priority: nat, target: Name, params: seq<Param>)
    | Other(rtype: nat, rdata: seq<byte>)
  {
    predicate Printable() {
      match this
      case Https(priority, target, params) =>
        priority < 65536 && target.Valid() && (forall p :: p in params ==> p.Valid())
      case Other(rtype, _) => rtype < 65536 && rtype != 65
    }

    predicate Valid() { Printable() && |Bytes()| < 65536 }

    function Type(): nat { if Https? then 65 else rtype }

    function Bytes(): seq<byte>
      requires Printable()
    {
      match this
      case Https(priority, target, params) => U16(priority) + target.Bytes() + Params(params)
      case Other(_, rdata) => rdata
    }
  }

  /** `classTtl` is the class and the time to live, of which the client makes no use. */
  datatype Record = Record(owner: Name, classTtl: seq<byte>, data: Data) {
    predicate Valid() { owner.Valid() && |classTtl| == 6 && data.Valid() }

    function Bytes(): seq<byte>
      requires Valid()
    {
      owner.Bytes() + (U16(data.Type()) + classTtl + U16(|data.Bytes()|)) + data.Bytes()
    }
  }

  function Records(rs: seq<Record>): seq<byte>
    requires forall r :: r in rs ==> r.Valid()
  {
    if rs == [] then [] else rs[0].Bytes() + Records(rs[1..])
  }

  datatype Question = Question(qname: Name, typeClass: seq<byte>) {
    predicate Valid() { qname.Valid() && |typeClass| == 4 }

    function Bytes(): seq<byte>
      requires Valid()
    {
      qname.Bytes() + typeClass
    }
  }

  function Questions(qs: seq<Question>): seq<byte>
    requires forall q :: q in qs ==> q.Valid()
  {
    if qs == [] then [] else qs[0].Bytes() + Questions(qs[1..])
  }

  /** `front` is the id and the flags, `counts` the numbers of the records in `rest`. */
  datatype Message = Message(
    front: seq<byte>, counts: seq<byte>, questions: seq<Question>, answers: seq<Record>, rest: seq<byte>)
  {
    predicate Valid() {
      && |front| == 4 && |counts| == 4 && |questions| < 65536 && |answers| < 65536
      && (forall q :: q in questions ==> q.Valid()) && (forall r :: r in answers ==> r.Valid())
    }

    function Bytes(): seq<byte>
      requires Valid()
    {
      (front + U16(|questions|) + U16(|answers|) + counts) + Questions(questions) + Records(answers) + rest
    }
  }

  function EchValue(ps: seq<Param>): Option<seq<byte>> {
    if ps == [] then None else if ps[0].key == 5 then Some(ps[0].value) else EchValue(ps[1..])
  }

  /** The value of the first HTTPS record that has one. */
  function EchAnswer(rs: seq<Record>): Option<seq<byte>> {
    if rs == [] then None
    else if rs[0].data.Https? && EchValue(rs[0].data.params).Some? then EchValue(rs[0].data.params)
    else EchAnswer(rs[1..])
  }

  /** The first address record of four bytes. */
  function AddressAnswer(rs: seq<Record>): Option<seq<byte>> {
    if rs == [] then None
    else if rs[0].data.Other? && rs[0].data.rtype == 1 && |rs[0].data.rdata| == 4 then Some(rs[0].data.rdata)
    else AddressAnswer(rs[1..])
  }

  // ---- Reading what was printed ------------------------------------------

  lemma {:induction false} SkipLabels(buf: seq<byte>, pos: nat, labels: seq<seq<byte>>)
    requires forall l :: l in labels ==> 1 <= |l| <= 63
    requires At(buf, pos, Labels(labels))
    ensures SkipName(buf, pos) == SkipName(buf, pos + |Labels(labels)|)
    decreases |labels|
  {
    hide At;
    if labels != [] {
      var l := labels[0];
      LabelsNext(labels);
      AtFirst(buf, pos, Labels(labels));
      var head: seq<byte> := [|l|] + l;
      AtSplit(buf, pos, head, Labels(labels[1..]));
      SkipLabels(buf, pos + 1 + |l|, labels[1..]);
    }
  }

  lemma LabelsNext(labels: seq<seq<byte>>)
    requires labels != [] && forall l :: l in labels ==> |l| <= 63
    ensures Labels(labels) == [|labels[0]|] + labels[0] + Labels(labels[1..])
  {
  }

  lemma SkipNameOf(buf: seq<byte>, pos: nat, name: Name)
    requires name.Valid() && At(buf, pos, name.Bytes())
    ensures SkipName(buf, pos) == Some(pos + |name.Bytes()|)
  {
    hide At;
    var end: seq<byte> := match name.pointer case None => [0] case Some((hi, lo)) => [hi, lo];
    AtSplit(buf, pos, Labels(name.labels), end);
    SkipLabels(buf, pos, name.labels);
    AtFirst(buf, pos + |Labels(name.labels)|, end);
  }

  lemma U16At(buf: seq<byte>, pos: nat, v: nat)
    requires v < 65536 && At(buf, pos, U16(v))
    ensures FromU16(buf[pos], buf[pos + 1]) == v
  {
    assert buf[pos] == buf[pos..pos + 2][0] && buf[pos + 1] == buf[pos..pos + 2][1];
  }

  lemma {:induction false} QuestionsOf(msg: seq<byte>, pos: nat, qs: seq<Question>)
    requires forall q :: q in qs ==> q.Valid()
    requires At(msg, pos, Questions(qs))
    ensures SkipQuestions(msg, pos, |qs|) == Some(pos + |Questions(qs)|)
    decreases |qs|
  {
    hide At, SkipName, Name.Bytes, Labels, Name.Valid;
    if qs != [] {
      AtSplit(msg, pos, qs[0].Bytes(), Questions(qs[1..]));
      AtSplit(msg, pos, qs[0].qname.Bytes(), qs[0].typeClass);
      SkipNameOf(msg, pos, qs[0].qname);
      QuestionsOf(msg, pos + |qs[0].Bytes()|, qs[1..]);
    }
  }

  lemma ReadRecordOf(msg: seq<byte>, pos: nat, r: Record)
    requires r.Valid() && At(msg, pos, r.Bytes())
    ensures ReadRecord(msg, pos) == Some(Raw(r.data.Type(), pos + |r.Bytes()| - |r.data.Bytes()|, |r.data.Bytes()|))
    ensures At(msg, pos + |r.Bytes()| - |r.data.Bytes()|, r.data.Bytes())
  {
    hide At, SkipName, Name.Bytes, Labels, Name.Valid, Data.Bytes, Params;
    var owner, data := r.owner.Bytes(), r.data.Bytes();
    var kind, len := U16(r.data.Type()), U16(|data|);
    AtSplit(msg, pos, owner + (kind + r.classTtl + len), data);
    AtSplit(msg, pos, owner, kind + r.classTtl + len);
    var p := pos + |owner|;
    AtSplit(msg, p, kind + r.classTtl, len);
    AtSplit(msg, p, kind, r.classTtl);
    SkipNameOf(msg, pos, r.owner);
    U16At(msg, p, r.data.Type());
    U16At(msg, p + 8, |data|);
  }

  lemma {:induction false} EchParamOf(msg: seq<byte>, p: nat, ps: seq<Param>)
    requires forall x :: x in ps ==> x.Valid()
    requires At(msg, p, Params(ps))
    ensures EchParam(msg, p, p + |Params(ps)|) == EchValue(ps)
    decreases |ps|
  {
    hide At;
    if ps != [] {
      var x := ps[0];
      AtSplit(msg, p, x.Bytes(), Params(ps[1..]));
      AtSplit(msg, p, U16(x.key) + U16(|x.value|), x.value);
      AtSplit(msg, p, U16(x.key), U16(|x.value|));
      U16At(msg, p, x.key);
      U16At(msg, p + 2, |x.value|);
      EchParamOf(msg, p + |x.Bytes()|, ps[1..]);
    }
  }

  lemma EchOfRecord(msg: seq<byte>, at: nat, d: Data)
    requires d.Valid() && At(msg, at, d.Bytes())
    ensures EchOf(msg, Raw(d.Type(), at, |d.Bytes()|)) == if d.Https? then EchValue(d.params) else None
  {
    hide At, SkipName, EchParam, EchValue, Params, Labels, Name.Bytes, Name.Valid;
    if d.Https? {
      AtSplit(msg, at, U16(d.priority) + d.target.Bytes(), Params(d.params));
      AtSplit(msg, at, U16(d.priority), d.target.Bytes());
      SkipNameOf(msg, at + 2, d.target);
      EchParamOf(msg, at + 2 + |d.target.Bytes()|, d.params);
    }
  }

  lemma AddressOfRecord(msg: seq<byte>, at: nat, d: Data)
    requires d.Valid() && At(msg, at, d.Bytes())
    ensures AddressOf(msg, Raw(d.Type(), at, |d.Bytes()|)) ==
            if d.Other? && d.rtype == 1 && |d.rdata| == 4 then Some(d.rdata) else None
  {
  }

  /** Reading the printed records finds what the first fitting one carries. */
  lemma {:induction false} RecordsOf(msg: seq<byte>, pos: nat, rs: seq<Record>)
    requires forall r :: r in rs ==> r.Valid()
    requires At(msg, pos, Records(rs))
    ensures FirstEch(msg, Walked(msg, pos, |rs|)) == EchAnswer(rs)
    ensures FirstAddress(msg, Walked(msg, pos, |rs|)) == AddressAnswer(rs)
    decreases |rs|
  {
    hide *;
    if rs != [] {
      FirstRecord(rs);
      RecordsNext(msg, pos, rs);
      WalkedNext(msg, pos, |rs|);
      FirstsNext(msg, Walked(msg, pos, |rs|));
      RecordsOf(msg, pos + |rs[0].Bytes()|, rs[1..]);
      AnswersNext(rs);
    } else {
      WalkedNothing(msg, pos);
    }
  }

  lemma AnswersNext(rs: seq<Record>)
    requires rs != []
    ensures EchAnswer(rs) ==
            if rs[0].data.Https? && EchValue(rs[0].data.params).Some? then EchValue(rs[0].data.params)
            else EchAnswer(rs[1..])
    ensures AddressAnswer(rs) ==
            if rs[0].data.Other? && rs[0].data.rtype == 1 && |rs[0].data.rdata| == 4 then Some(rs[0].data.rdata)
            else AddressAnswer(rs[1..])
  {
  }

  lemma WalkedNothing(msg: seq<byte>, pos: nat)
    ensures FirstEch(msg, Walked(msg, pos, 0)) == EchAnswer([])
    ensures FirstAddress(msg, Walked(msg, pos, 0)) == AddressAnswer([])
  {
  }

  lemma FirstRecord(rs: seq<Record>)
    requires rs != [] && forall r :: r in rs ==> r.Valid()
    ensures rs[0].Valid() && rs[0].data.Valid() && rs[0].data.Printable() && forall r :: r in rs[1..] ==> r.Valid()
    ensures Records(rs) == rs[0].Bytes() + Records(rs[1..])
  {
  }

  /** Reading the first of the printed records. */
  lemma RecordsNext(msg: seq<byte>, pos: nat, rs: seq<Record>)
    requires rs != [] && forall r :: r in rs ==> r.Valid()
    requires At(msg, pos, Records(rs))
    ensures var (r, raw) := (rs[0], ReadRecord(msg, pos));
            && raw.Some? && raw.value.at + raw.value.rdlen == pos + |r.Bytes()|
            && At(msg, pos + |r.Bytes()|, Records(rs[1..]))
            && EchOf(msg, raw.value) == (if r.data.Https? then EchValue(r.data.params) else None)
            && AddressOf(msg, raw.value) ==
               (if r.data.Other? && r.data.rtype == 1 && |r.data.rdata| == 4 then Some(r.data.rdata) else None)
  {
    hide *;
    var r := rs[0];
    assert r.Valid() && r.data.Valid() && r.data.Printable() && Records(rs) == r.Bytes() + Records(rs[1..]) by { FirstRecord(rs); }
    AtSplit(msg, pos, r.Bytes(), Records(rs[1..]));
    ReadRecordOf(msg, pos, r);
    var at := pos + |r.Bytes()| - |r.data.Bytes()|;
    EchOfRecord(msg, at, r.data);
    AddressOfRecord(msg, at, r.data);
  }

  /** On every printed message, the parsers return the key-5 value of the first
      HTTPS record that carries one, and the first IPv4 address. */
  lemma MessageRoundTrip(m: Message)
    requires m.Valid()
    ensures FirstEch(m.Bytes(), Answers(m.Bytes())) == EchAnswer(m.answers)
    ensures FirstAddress(m.Bytes(), Answers(m.Bytes())) == AddressAnswer(m.answers)
  {
    hide At, Answers, FirstEch, FirstAddress, EchAnswer, AddressAnswer, Records, Questions, Record.Valid, Question.Valid, SkipQuestions, Walked;
    var msg := m.Bytes();
    var header := m.front + U16(|m.questions|) + U16(|m.answers|) + m.counts;
    var qs, rs := Questions(m.questions), Records(m.answers);
    assert At(msg, 0, header + qs + rs + m.rest) by { Whole(msg); }
    AtSplit(msg, 0, header + qs + rs, m.rest);
    AtSplit(msg, 0, header + qs, rs);
    AtSplit(msg, 0, header, qs);
    AtSplit(msg, 0, m.front + U16(|m.questions|) + U16(|m.answers|), m.counts);
    AtSplit(msg, 0, m.front + U16(|m.questions|), U16(|m.answers|));
    AtSplit(msg, 0, m.front, U16(|m.questions|));
    U16At(msg, 4, |m.questions|);
    U16At(msg, 6, |m.answers|);
    QuestionsOf(msg, HEADER, m.questions);
    RecordsOf(msg, HEADER + |qs|, m.answers);
    AnswersAre(msg, |m.questions|, |m.answers|);
  }

  lemma Whole(msg: seq<byte>)
    ensures At(msg, 0, msg)
  {
  }

  lemma AnswersAre(msg: seq<byte>, qd: nat, an: nat)
    requires |msg| >= HEADER && FromU16(msg[4], msg[5]) == qd && FromU16(msg[6], msg[7]) == an
    requires SkipQuestions(msg, HEADER, qd).Some?
    ensures Answers(msg) == Walked(msg, SkipQuestions(msg, HEADER, qd).value, an)
  {
  }

  // ---- Any bytes at all --------------------------------------------------

  /** Bytes `p` to `p + 4 + |v|` are a parameter with key 5 and the value `v`. */
  predicate ParamAt(msg: seq<byte>, p: nat, v: seq<byte>) {
    |v| < 65536 && At(msg, p, U16(5) + U16(|v|) + v)
  }

  lemma {:induction false} EchParamFound(msg: seq<byte>, p: nat, end: nat) returns (q: nat)
    requires end <= |msg| && EchParam(msg, p, end).Some?
    ensures var v := EchParam(msg, p, end).value;
            p <= q && q + 4 + |v| <= end && ParamAt(msg, q, v)
    decreases end - p
  {
    var len := FromU16(msg[p + 2], msg[p + 3]);
    if FromU16(msg[p], msg[p + 1]) == SVCPARAM_ECH {
      q := p;
      var v := msg[p + 4..p + 4 + len];
      assert msg[p..p + 4 + len] == [msg[p], msg[p + 1]] + [msg[p + 2], msg[p + 3]] + v;
      U16Of(msg[p], msg[p + 1]);
      U16Of(msg[p + 2], msg[p + 3]);
    } else {
      q := EchParamFound(msg, p + 4 + len, end);
    }
  }

  lemma U16Of(hi: byte, lo: byte)
    ensures U16(FromU16(hi, lo)) == [hi, lo]
  {
  }

  /** Whatever the message, a value that is returned stands in it: as a parameter with
      key 5, behind the priority and inside the data of an answer of type 65. */
  lemma {:induction false} EchIsThere(msg: seq<byte>, raws: seq<Raw>) returns (k: nat, p: nat)
    requires forall i :: 0 <= i < |raws| ==> raws[i].at + raws[i].rdlen <= |msg|
    requires FirstEch(msg, raws).Some?
    ensures k < |raws| && raws[k].rtype == 65
    ensures var v := FirstEch(msg, raws).value;
            raws[k].at + 2 < p && p + 4 + |v| <= raws[k].at + raws[k].rdlen && ParamAt(msg, p, v)
  {
    if EchOf(msg, raws[0]).Some? {
      k := 0;
      p := EchParamFound(msg, SkipName(msg, raws[0].at + 2).value, raws[0].at + raws[0].rdlen);
    } else {
      var j;
      j, p := EchIsThere(msg, raws[1..]);
      k := j + 1;
    }
  }

  /** Whatever the message, an address that is returned is the data of an answer of
      type 1 and length 4, and of the first such one. */
  lemma {:induction false} AddressIsThere(msg: seq<byte>, raws: seq<Raw>)
    requires forall i :: 0 <= i < |raws| ==> raws[i].at + raws[i].rdlen <= |msg|
    ensures FirstAddress(msg, raws) == None <==> forall i :: 0 <= i < |raws| ==> !(raws[i].rtype == 1 && raws[i].rdlen == 4)
    ensures FirstAddress(msg, raws).Some? ==>
              exists k :: 0 <= k < |raws| && raws[k].rtype == 1 && raws[k].rdlen == 4
                          && FirstAddress(msg, raws).value == msg[raws[k].at..raws[k].at + 4]
                          && forall i :: 0 <= i < k ==> !(raws[i].rtype == 1 && raws[i].rdlen == 4)
  {
    if raws != [] {
      AddressIsThere(msg, raws[1..]);
      assert forall i :: 1 <= i < |raws| ==> raws[i] == raws[1..][i - 1];
      if raws[0].rtype == 1 && raws[0].rdlen == 4 {
        assert FirstAddress(msg, raws).value == msg[raws[0].at..raws[0].at + 4];
      } else if FirstAddress(msg, raws[1..]).Some? {
        var k :| 0 <= k < |raws| - 1 && raws[1..][k].rtype == 1 && raws[1..][k].rdlen == 4
                 && FirstAddress(msg, raws[1..]).value == msg[raws[1..][k].at..raws[1..][k].at + 4]
                 && forall i :: 0 <= i < k ==> !(raws[1..][i].rtype == 1 && raws[1..][i].rdlen == 4);
        assert raws[k + 1] == raws[1..][k];
      }
    }
  }

  /** Well-formed records keep their answer, whatever malformed ones follow them. */
  lemma {:induction false} RecordsThenAnything(msg: seq<byte>, pos: nat, rs: seq<Record>, n: nat)
    requires forall r :: r in rs ==> r.Valid()
    requires At(msg, pos, Records(rs)) && |rs| <= n
    ensures EchAnswer(rs).Some? ==> FirstEch(msg, Walked(msg, pos, n)) == EchAnswer(rs)
    ensures AddressAnswer(rs).Some? ==> FirstAddress(msg, Walked(msg, pos, n)) == AddressAnswer(rs)
    decreases |rs|
  {
    hide *;
    if rs != [] {
      FirstRecord(rs);
      RecordsNext(msg, pos, rs);
      WalkedNext(msg, pos, n);
      FirstsNext(msg, Walked(msg, pos, n));
      RecordsThenAnything(msg, pos + |rs[0].Bytes()|, rs[1..], n - 1);
      AnswersNext(rs);
    } else {
      NoAnswer();
    }
  }

  lemma NoAnswer()
    ensures EchAnswer([]) == None && AddressAnswer([]) == None
  {
  }
}
