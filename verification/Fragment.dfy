/** The writer that cuts the first bytes of a connection into small pieces with
    pauses between them, until the first read. */
module Fragment {
  import opened Wire

  // ---- Settings ----------------------------------------------------------

  datatype FragmentConfig = FragmentConfig(enabled: bool, sizeMin: nat, sizeMax: nat, delayMin: nat, delayMax: nat)

  predicate Normalised(cfg: FragmentConfig) {
    1 <= cfg.sizeMin <= cfg.sizeMax && cfg.delayMin <= cfg.delayMax
  }

  /** A setting as it was written, with the numbers that could be read. */
  datatype RangeSpec = Absent | Single(value: Option<nat>) | Pair(lo: Option<nat>, hi: Option<nat>)

  function Or(v: Option<nat>, d: nat): nat { if v.Some? then v.value else d }

  function Max(a: nat, b: nat): nat { if a >= b then a else b }

  function ParseRange(spec: RangeSpec, default: (nat, nat)): (r: (nat, nat))
    requires default.0 <= default.1
    ensures r.0 <= r.1
    ensures spec.Pair? && spec.lo.Some? && spec.hi.Some? ==>
              (r == (spec.lo.value, spec.hi.value) || r == (spec.hi.value, spec.lo.value))
  {
    match spec
    case Absent => default
    case Single(v) => (Or(v, default.0), Or(v, default.0))
    case Pair(a, b) =>
      var lo, hi := Or(a, default.0), Or(b, default.1);
      if hi < lo then (hi, lo) else (lo, hi)
  }

  function FromEnv(enabled: bool, size: RangeSpec, delay: RangeSpec): (cfg: FragmentConfig)
    ensures Normalised(cfg) && cfg.enabled == enabled
  {
    var (smin, smax) := ParseRange(size, (16, 32));
    var (dmin, dmax) := ParseRange(delay, (2, 10));
    var sizeMin := Max(smin, 1);
    FragmentConfig(enabled, sizeMin, Max(smax, sizeMin), dmin, Max(dmax, dmin))
  }

  /** Every number that was given is used: one number stands for both bounds, two are
      put in order, and what is missing or unreadable is 16 to 32 bytes, 2 to 10 ms;
      only a smallest size of zero is raised to one. */
  lemma SettingsUsed(enabled: bool, size: RangeSpec, delay: RangeSpec)
    ensures var cfg := FromEnv(enabled, size, delay);
            && cfg.sizeMin == (if Bounds(size, 16, 32).0 == 0 then 1 else Bounds(size, 16, 32).0)
            && cfg.sizeMax == (if Bounds(size, 16, 32).1 == 0 then 1 else Bounds(size, 16, 32).1)
            && (cfg.delayMin, cfg.delayMax) == Bounds(delay, 2, 10)
  {
  }

  /** The bounds that a setting means, told case by case. */
  function Bounds(spec: RangeSpec, lo: nat, hi: nat): (nat, nat) {
    match spec
    case Absent => (lo, hi)
    case Single(None) => (lo, lo)
    case Single(Some(v)) => (v, v)
    case Pair(None, None) => if lo <= hi then (lo, hi) else (hi, lo)
    case Pair(Some(a), None) => if a <= hi then (a, hi) else (hi, a)
    case Pair(None, Some(b)) => if lo <= b then (lo, b) else (b, lo)
    case Pair(Some(a), Some(b)) => if a <= b then (a, b) else (b, a)
  }

  function Disabled(): (cfg: FragmentConfig)
    ensures Normalised(cfg) && !cfg.enabled
  {
    FragmentConfig(false, 1, 1, 0, 0)
  }

  /** A number from `lo` to `hi`, chosen by any draw. */
  function InRange(lo: nat, hi: nat, draw: nat): (r: nat)
    requires lo <= hi
    ensures lo <= r <= hi
  {
    lo + draw % (hi - lo + 1)
  }

  function PickChunkLen(cfg: FragmentConfig, remaining: nat, draw: nat): (len: nat)
    ensures len <= remaining && (remaining > 0 ==> len > 0)
    ensures Normalised(cfg) ==> len <= cfg.sizeMax && (len == remaining || len >= cfg.sizeMin)
  {
    var hi := Min(Max(cfg.sizeMax, 1), remaining);
    var lo := Min(Max(cfg.sizeMin, 1), hi);
    if lo >= hi then hi else InRange(lo, hi, draw)
  }

  function PickDelay(cfg: FragmentConfig, draw: nat): (ms: nat)
    ensures Normalised(cfg) ==> cfg.delayMin <= ms <= cfg.delayMax
  {
    if cfg.delayMax == 0 then 0
    else if cfg.delayMax <= cfg.delayMin then cfg.delayMin
    else InRange(cfg.delayMin, cfg.delayMax, draw)
  }

  /** Every length between the bounds can be drawn, and every pause. */
  lemma AnyPick(cfg: FragmentConfig, remaining: nat, len: nat, ms: nat)
    requires Normalised(cfg)
    ensures cfg.sizeMin <= len <= cfg.sizeMax && len <= remaining ==>
              exists draw :: PickChunkLen(cfg, remaining, draw) == len
    ensures cfg.delayMin <= ms <= cfg.delayMax ==> exists draw :: PickDelay(cfg, draw) == ms
  {
    if cfg.sizeMin <= len <= cfg.sizeMax && len <= remaining {
      var hi := Min(cfg.sizeMax, remaining);
      SmallMod(len - cfg.sizeMin, hi - cfg.sizeMin + 1);
      assert PickChunkLen(cfg, remaining, len - cfg.sizeMin) == len;
    }
    if cfg.delayMin <= ms <= cfg.delayMax {
      SmallMod(ms - cfg.delayMin, cfg.delayMax - cfg.delayMin + 1);
      assert PickDelay(cfg, ms - cfg.delayMin) == ms;
    }
  }

  lemma SmallMod(a: nat, n: nat)
    requires a < n
    ensures a % n == a
  {
  }

  // ---- What the inner stream saw -------------------------------------------

  /** A read, or a write of which the inner stream took at least one byte: `asked`
      of the `remaining` bytes were offered, `len` taken. */
  datatype Op = WasRead | Wrote(at: nat, remaining: nat, asked: nat, len: nat, fragmented: bool)

  predicate HasRead(log: seq<Op>) {
    exists i :: 0 <= i < |log| && log[i].WasRead?
  }

  function LastWrite(log: seq<Op>): Option<nat> {
    if log == [] then None
    else if log[|log| - 1].Wrote? then Some(log[|log| - 1].at)
    else LastWrite(log[..|log| - 1])
  }

  /** What may follow: before any read, every write is a piece within the bounds,
      short only at the end, and no sooner after the one before than the shortest
      pause; after a read, and when disabled, whatever remains is offered whole. */
  predicate May(cfg: FragmentConfig, log: seq<Op>, op: Op) {
    op.Wrote? ==>
      && 0 < op.len <= op.asked <= op.remaining
      && (op.fragmented <==> cfg.enabled && !HasRead(log))
      && (if op.fragmented then
            && op.asked <= cfg.sizeMax && (op.asked == op.remaining || op.asked >= cfg.sizeMin)
            && (LastWrite(log).Some? ==> LastWrite(log).value + cfg.delayMin <= op.at)
          else op.asked == op.remaining)
  }

  predicate Lawful(cfg: FragmentConfig, log: seq<Op>) {
    log == [] || (Lawful(cfg, log[..|log| - 1]) && May(cfg, log[..|log| - 1], log[|log| - 1]))
  }

  lemma Appended(cfg: FragmentConfig, log: seq<Op>, op: Op)
    ensures Lawful(cfg, log) && May(cfg, log, op) ==> Lawful(cfg, log + [op])
    ensures HasRead(log + [op]) <==> HasRead(log) || op.WasRead?
    ensures LastWrite(log + [op]) == if op.Wrote? then Some(op.at) else LastWrite(log)
  {
    assert (log + [op])[..|log|] == log;
    if HasRead(log) {
      var i :| 0 <= i < |log| && log[i].WasRead?;
      assert (log + [op])[i].WasRead?;
    }
    assert (log + [op])[|log|] == op;
  }

  // ---- The stream --------------------------------------------------------

  /** What a poll of the inner stream yields; it takes no more than it is offered. */
  datatype Inner = NotReady | Broken | Takes(upTo: nat)

  datatype Poll = Pending | Failed | Ready(n: nat)

  class FragmentingStream {
    const cfg: FragmentConfig
    var fragmenting: bool
    var pendingDelay: Option<nat>
    /** All bytes the inner stream has taken. */
    var taken: seq<byte>
    ghost var log: seq<Op>
    /** The time of the last poll. */
    var clock: nat

    ghost predicate Valid()
      reads this
    {
      && Normalised(cfg) && Lawful(cfg, log)
      && (fragmenting <==> cfg.enabled && !HasRead(log))
      && (fragmenting && LastWrite(log).Some? ==>
            LastWrite(log).value + cfg.delayMin <= if pendingDelay.Some? then pendingDelay.value else clock)
    }

    constructor (cfg: FragmentConfig)
      requires Normalised(cfg)
      ensures this.cfg == cfg && taken == [] && log == [] && clock == 0
      ensures Valid()
    {
      this.cfg, fragmenting, pendingDelay := cfg, cfg.enabled, None;
      taken, log, clock := [], [], 0;
    }

    method PollRead()
      requires Valid()
      modifies this
      ensures log == old(log) + [WasRead] && taken == old(taken) && clock == old(clock)
      ensures !fragmenting && Valid()
    {
      Appended(cfg, log, WasRead);
      fragmenting := false;
      log := log + [WasRead];
    }

    /** One write, at the time `now`: exactly the bytes reported as written have
        gone to the inner stream, and the log says how. */
    method PollWrite(buf: seq<byte>, now: nat, draw: nat, delayDraw: nat, inner: Inner)
      returns (r: Poll, ghost asked: nat)
      requires Valid() && clock <= now
      modifies this
      ensures clock == now
      ensures r.Ready? ==> r.n <= |buf| && taken == old(taken) + buf[..r.n]
      ensures !r.Ready? ==> taken == old(taken)
      ensures if r.Ready? && r.n > 0 then
                && log == old(log) + [Wrote(now, |buf|, asked, r.n, fragmenting)]
                && (inner.Takes? && inner.upTo >= |buf| ==> r.n == asked)
              else log == old(log)
      ensures fragmenting == old(fragmenting)
      ensures r == (
                if buf != [] && fragmenting && old(pendingDelay).Some? && now < old(pendingDelay).value then Pending
                else match inner
                     case NotReady => Pending
                     case Broken => Failed
                     case Takes(upTo) => Ready(if upTo < asked then upTo else asked))
      ensures r.Ready? ==>
                if buf != [] && fragmenting then asked == PickChunkLen(cfg, |buf|, draw) else asked == |buf|
      ensures pendingDelay.Some? ==>
                pendingDelay == old(pendingDelay) || now + cfg.delayMin <= pendingDelay.value <= now + cfg.delayMax
      ensures Valid()
    {
      hide Lawful, HasRead, LastWrite;
      clock, asked := now, 0;
      if buf == [] || !fragmenting {
        match inner {
          case NotReady => return Pending, 0;
          case Broken => return Failed, 0;
          case Takes(k) =>
            var n := Min(k, |buf|);
            taken := taken + buf[..n];
            if n > 0 {
              Appended(cfg, log, Wrote(now, |buf|, |buf|, n, false));
              log := log + [Wrote(now, |buf|, |buf|, n, false)];
            }
            return Ready(n), |buf|;
        }
      }
      if pendingDelay.Some? {
        if now >= pendingDelay.value {
          pendingDelay := None;
        } else {
          return Pending, 0;
        }
      }
      var chunkLen := PickChunkLen(cfg, |buf|, draw);
      asked := chunkLen;
      match inner {
        case NotReady => r := Pending;
        case Broken => r := Failed;
        case Takes(k) =>
          var n := Min(k, chunkLen);
          taken := taken + buf[..n];
          if n > 0 {
            Appended(cfg, log, Wrote(now, |buf|, chunkLen, n, true));
            log := log + [Wrote(now, |buf|, chunkLen, n, true)];
            var delay := PickDelay(cfg, delayDraw);
            if delay != 0 {
              pendingDelay := Some(now + delay);
            }
          }
          r := Ready(n);
      }
    }
  }

  // ---- Writing everything ------------------------------------------------

  /** The caller's turns: a read in between, or a poll of the write after `wait`. */
  datatype Turn = Reads | Writes(wait: nat, draw: nat, delayDraw: nat, inner: Inner)

  datatype Outcome = Waiting | Done | WriteError | WroteZero

  /** The operations write `done` of `total` bytes, one piece after the other. */
  predicate Covers(ops: seq<Op>, total: nat, done: nat) {
    if ops == [] then done == 0
    else
      var op, before := ops[|ops| - 1], ops[..|ops| - 1];
      if op.WasRead? then Covers(before, total, done)
      else op.len <= done <= total && op.remaining == total - (done - op.len) && Covers(before, total, done - op.len)
  }

  /** The inner stream took every byte that it was offered. */
  predicate FullyTaken(ops: seq<Op>) {
    forall i :: 0 <= i < |ops| ==> ops[i].Wrote? ==> ops[i].len == ops[i].asked
  }

  predicate Willing(script: seq<Turn>, total: nat) {
    forall i :: 0 <= i < |script| ==> script[i].Writes? && script[i].inner.Takes? ==> script[i].inner.upTo >= total
  }

  /** Every turn waits out the longest pause, and the inner stream takes something. */
  predicate Eager(cfg: FragmentConfig, script: seq<Turn>) {
    forall i :: 0 <= i < |script| ==>
      script[i].Writes? && script[i].wait >= cfg.delayMax && script[i].inner.Takes? && script[i].inner.upTo > 0
  }

  /** A caller that writes until everything is written: whatever the pieces, the
      pauses, the reads and the inner stream do, the inner stream has taken a prefix
      of the source, in order; and no pause holds it up for longer than the longest. */
  method WriteAll(s: FragmentingStream, src: seq<byte>, script: seq<Turn>)
    returns (done: nat, out: Outcome, ghost ops: seq<Op>)
    requires s.Valid()
    modifies s
    ensures done <= |src| && s.taken == old(s.taken) + src[..done]
    ensures s.log == old(s.log) + ops && Covers(ops, |src|, done)
    ensures Willing(script, |src|) ==> FullyTaken(ops)
    ensures out == Done ==> done == |src|
    ensures Eager(s.cfg, script) && Waited(old(s.pendingDelay), old(s.clock), s.cfg) && |script| >= |src| ==> out == Done
    ensures s.Valid()
  {
    hide Covers, FullyTaken, Lawful, HasRead, LastWrite;
    done, out, ops := 0, Waiting, [];
    NoOps(|src|);
    for i := 0 to |script|
      invariant done <= |src| && s.taken == old(s.taken) + src[..done]
      invariant s.log == old(s.log) + ops && Covers(ops, |src|, done)
      invariant Willing(script, |src|) ==> FullyTaken(ops)
      invariant Eager(s.cfg, script) && Waited(old(s.pendingDelay), old(s.clock), s.cfg) ==>
                  done >= Min(i, |src|) && Waited(s.pendingDelay, s.clock, s.cfg)
      invariant s.Valid()
    {
      if done == |src| { return done, Done, ops; }
      match script[i] {
        case Reads =>
          s.PollRead();
          MoreOps(ops, WasRead, |src|, done);
          ops := ops + [WasRead];
        case Writes(wait, draw, delayDraw, inner) =>
          var r, asked := s.PollWrite(src[done..], s.clock + wait, draw, delayDraw, inner);
          match r {
            case Pending =>
            case Failed => return done, WriteError, ops;
            case Ready(n) =>
              if n == 0 { return done, WroteZero, ops; }
              PrefixGrows(src, done, n);
              ghost var op := Wrote(s.clock, |src| - done, asked, n, s.fragmenting);
              MoreOps(ops, op, |src|, done);
              ops := ops + [op];
              done := done + n;
          }
      }
    }
    if done == |src| { out := Done; }
  }

  /** A pending pause ends within the longest one from now. */
  predicate Waited(pendingDelay: Option<nat>, clock: nat, cfg: FragmentConfig) {
    pendingDelay.Some? ==> pendingDelay.value <= clock + cfg.delayMax
  }

  lemma PrefixGrows(src: seq<byte>, done: nat, n: nat)
    requires done + n <= |src|
    ensures src[..done] + src[done..][..n] == src[..done + n]
  {
  }

  lemma NoOps(total: nat)
    ensures Covers([], total, 0) && FullyTaken([])
  {
  }

  lemma MoreOps(ops: seq<Op>, op: Op, total: nat, done: nat)
    requires Covers(ops, total, done)
    ensures op.WasRead? ==> Covers(ops + [op], total, done)
    ensures op.Wrote? && done + op.len <= total && op.remaining == total - done ==> Covers(ops + [op], total, done + op.len)
    ensures FullyTaken(ops) && (op.Wrote? ==> op.len == op.asked) ==> FullyTaken(ops + [op])
  {
    assert (ops + [op])[..|ops|] == ops;
  }

  // ---- How many pieces ---------------------------------------------------

  function CeilDiv(a: nat, b: nat): nat
    requires b > 0
  {
    (a + b - 1) / b
  }

  predicate Piece(cfg: FragmentConfig, op: Op) {
    op.Wrote? && 0 < op.len == op.asked <= cfg.sizeMax && (op.asked == op.remaining || op.asked >= cfg.sizeMin)
  }

  /** Up to `done` bytes in `k` pieces: at most `k` largest pieces, and unless all
      is done, at least `k` smallest ones. */
  lemma {:induction false} PieceBounds(cfg: FragmentConfig, ops: seq<Op>, total: nat, done: nat)
    requires Covers(ops, total, done) && forall i :: 0 <= i < |ops| ==> Piece(cfg, ops[i])
    ensures done <= |ops| * cfg.sizeMax
    ensures done < total ==> |ops| * cfg.sizeMin <= done
    ensures done == total && ops != [] ==> (|ops| - 1) * cfg.sizeMin < total
  {
    if ops != [] {
      var k := |ops| - 1;
      var op, before := ops[k], ops[..k];
      PieceBounds(cfg, before, total, done - op.len);
      assert |ops| * cfg.sizeMax == k * cfg.sizeMax + cfg.sizeMax;
      assert |ops| * cfg.sizeMin == k * cfg.sizeMin + cfg.sizeMin;
    }
  }

  lemma CeilBounds(total: nat, n: nat, lo: nat, hi: nat)
    requires 0 < lo && 0 < hi && total <= n * hi && 0 < n && (n - 1) * lo < total
    ensures CeilDiv(total, hi) <= n <= CeilDiv(total, lo)
  {
    assert (n + 1) * hi == n * hi + hi && n * lo == (n - 1) * lo + lo;
    DivBelow(total + hi - 1, hi, n + 1);
    DivFrom(total + lo - 1, lo, n);
  }

  lemma DivBelow(a: nat, b: nat, m: nat)
    requires b > 0 && a < m * b
    ensures a / b < m
  {
    if m <= a / b { Times(m, a / b, b); }
  }

  lemma DivFrom(a: nat, b: nat, m: nat)
    requires b > 0 && m * b <= a
    ensures m <= a / b
  {
    if a / b + 1 <= m { Times(a / b + 1, m, b); }
  }

  lemma Times(a: nat, b: nat, c: nat)
    requires a <= b
    ensures a * c <= b * c
  {
  }

  /** While fragmenting and with full acceptance, `total` bytes take between
      ceil(total / sizeMax) and ceil(total / sizeMin) writes. */
  lemma PieceCount(cfg: FragmentConfig, before: seq<Op>, ops: seq<Op>, total: nat)
    requires Normalised(cfg) && Lawful(cfg, before + ops)
    requires cfg.enabled && !HasRead(before + ops)
    requires FullyTaken(ops) && Covers(ops, total, total) && total > 0
    ensures CeilDiv(total, cfg.sizeMax) <= |ops| <= CeilDiv(total, cfg.sizeMin)
  {
    forall i | 0 <= i < |ops|
      ensures Piece(cfg, ops[i])
    {
      var log := before + ops;
      assert log[|before| + i] == ops[i];
      OpIsLawful(cfg, log, |before| + i);
      assert HasRead(log[..|before| + i]) ==> HasRead(log) by { ReadBefore(log, |before| + i); }
      assert log[|before| + i].WasRead? ==> HasRead(log);
    }
    PieceBounds(cfg, ops, total, total);
    CeilBounds(total, |ops|, cfg.sizeMin, cfg.sizeMax);
  }

  lemma ReadBefore(log: seq<Op>, k: nat)
    requires k <= |log|
    ensures HasRead(log[..k]) ==> HasRead(log)
  {
    if HasRead(log[..k]) {
      var i :| 0 <= i < k && log[..k][i].WasRead?;
      assert log[i].WasRead?;
    }
  }

  lemma {:induction false} OpIsLawful(cfg: FragmentConfig, log: seq<Op>, k: nat)
    requires Lawful(cfg, log) && k < |log|
    ensures May(cfg, log[..k], log[k])
  {
    if k < |log| - 1 {
      OpIsLawful(cfg, log[..|log| - 1], k);
      assert log[..|log| - 1][..k] == log[..k];
    }
  }

  /** Once a read has happened no later write is a fragment; and two fragments in a
      row are at least the shortest pause apart. */
  lemma NeverResumesAndPaced(cfg: FragmentConfig, log: seq<Op>, i: nat, j: nat)
    requires Lawful(cfg, log) && i < j < |log| && log[j].Wrote?
    ensures log[i].WasRead? ==> !log[j].fragmented
    ensures log[j].fragmented && j == i + 1 ==> log[i].Wrote? && log[i].fragmented && log[i].at + cfg.delayMin <= log[j].at
  {
    OpIsLawful(cfg, log, j);
    OpIsLawful(cfg, log, i);
    assert log[..j][i] == log[i];
    assert log[..j][..i] == log[..i];
    assert HasRead(log[..i]) ==> HasRead(log[..j]) by { ReadBefore(log[..j], i); }
  }

  /** A stream with fragmenting disabled offers whatever remains, whole. */
  lemma DisabledPassesThrough(log: seq<Op>, k: nat)
    requires Lawful(Disabled(), log) && k < |log| && log[k].Wrote?
    ensures !log[k].fragmented && log[k].asked == log[k].remaining
  {
    OpIsLawful(Disabled(), log, k);
  }
}
