/** The checksum of section 3.1 of RFC 791 and the probe packet that carries it. */
module Checksum {
  import opened Wire
  import opened Dns
  import opened DnsQuery

  /** The longest header whose sum surely fits 32 bits. */
  const SAFE_LENGTH: nat := 131074

  /** The sum of the 16-bit words, a last odd byte as the high half of one. */
  function WordSum(h: seq<byte>): nat {
    if h == [] then 0
    else if |h| == 1 then h[0] * 256
    else FromU16(h[0], h[1]) + WordSum(h[2..])
  }

  /** Carries added back in until the sum has 16 bits. */
  function Fold(s: nat): (r: nat)
    ensures r < 65536
  {
    if s < 65536 then s else Fold(s % 65536 + s / 65536)
  }

  lemma {:induction false} WordSumSplit(a: seq<byte>, b: seq<byte>)
    requires |a| % 2 == 0
    ensures WordSum(a + b) == WordSum(a) + WordSum(b)
  {
    if a == [] {
      assert a + b == b;
    } else {
      assert (a + b)[2..] == a[2..] + b;
      WordSumSplit(a[2..], b);
    }
  }

  /** The checksum as the release build computes it: the sum wraps at 32 bits. */
  method HeaderChecksum(header: seq<byte>) returns (csum: nat)
    ensures csum == 65535 - Fold(WordSum(header) % U32)
  {
    hide WordSum, Fold;
    var sum: nat, i: nat := 0, 0;
    assert header[..0] == [] && WordSum([]) == 0 by { NoWords(); }
    while i + 1 < |header|
      invariant 0 <= i <= |header| && i % 2 == 0
      invariant sum == WordSum(header[..i]) % U32
    {
      NextWord(header, i);
      WrapAdd(WordSum(header[..i]), FromU16(header[i], header[i + 1]));
      sum := (sum + FromU16(header[i], header[i + 1])) % U32;
      i := i + 2;
    }
    if i < |header| {
      var last: nat := header[i];
      LastByte(header, i);
      WrapAdd(WordSum(header[..i]), last * 256);
      sum := (sum + last * 256) % U32;
    } else {
      assert header[..i] == header;
    }
    ghost var whole := sum;
    while sum / 65536 != 0
      invariant Fold(sum) == Fold(whole)
      decreases sum
    {
      FoldStep(sum);
      sum := sum % 65536 + sum / 65536;
    }
    FoldStep(sum);
    csum := 65535 - sum;
  }

  lemma NoWords()
    ensures WordSum([]) == 0
  {
  }

  lemma NextWord(h: seq<byte>, i: nat)
    requires i % 2 == 0 && i + 1 < |h|
    ensures WordSum(h[..i + 2]) == WordSum(h[..i]) + FromU16(h[i], h[i + 1])
  {
    assert h[..i + 2] == h[..i] + h[i..i + 2];
    WordSumSplit(h[..i], h[i..i + 2]);
    OneWord(h[i..i + 2]);
  }

  lemma LastByte(h: seq<byte>, i: nat)
    requires i % 2 == 0 && i + 1 == |h|
    ensures WordSum(h) == WordSum(h[..i]) + (h[i] as int) * 256
  {
    assert h == h[..i] + [h[i]];
    WordSumSplit(h[..i], [h[i]]);
  }

  lemma WrapAdd(a: nat, b: nat)
    ensures (a % U32 + b) % U32 == (a + b) % U32
  {
  }

  lemma FoldStep(s: nat)
    ensures Fold(s) == if s / 65536 == 0 then s else Fold(s % 65536 + s / 65536)
  {
  }

  lemma OneWord(h: seq<byte>)
    requires |h| == 2
    ensures WordSum(h) == FromU16(h[0], h[1])
  {
    assert h[2..] == [];
  }

  // ---- Overflow ----------------------------------------------------------

  lemma {:induction false} WordSumBound(h: seq<byte>)
    ensures WordSum(h) <= (|h| + 1) / 2 * 65535
    ensures |h| % 2 == 0 ==> WordSum(h) <= |h| / 2 * 65535
  {
    if |h| >= 2 {
      WordSumBound(h[2..]);
    }
  }

  lemma {:induction false} WordSumOfOnes(h: seq<byte>)
    requires forall i :: 0 <= i < |h| ==> h[i] == 255
    ensures WordSum(h) == |h| / 2 * 65535 + |h| % 2 * 65280
  {
    if |h| >= 2 {
      WordSumOfOnes(h[2..]);
    }
  }

  /** The 32-bit sum is exact for every header of a length exactly when that length
      is at most 131074: one byte more and the header of all ones overflows. */
  lemma NoOverflowIff(n: nat)
    ensures n <= SAFE_LENGTH <==> forall h: seq<byte> | |h| == n :: WordSum(h) < U32
  {
    if n <= SAFE_LENGTH {
      forall h: seq<byte> | |h| == n ensures WordSum(h) < U32 {
        WordSumBound(h);
      }
    } else {
      var ones: seq<byte> := seq(n, i => 255);
      WordSumOfOnes(ones);
      assert |ones| == n && WordSum(ones) >= U32;
    }
  }

  // ---- What the checksum is for ------------------------------------------

  lemma {:induction false} FoldCongruent(s: nat)
    ensures Fold(s) % 65535 == s % 65535
    ensures s > 0 ==> Fold(s) > 0
  {
    if s >= 65536 {
      var t := s % 65536 + s / 65536;
      assert s == 65535 * (s / 65536) + t;
      FoldCongruent(t);
      Shift(t, s / 65536);
    }
  }

  lemma Shift(t: nat, k: nat)
    ensures (65535 * k + t) % 65535 == t % 65535
  {
  }

  /** A header folds to all ones exactly when its word sum is a positive multiple
      of 65535. */
  lemma FoldsToOnesIff(s: nat)
    ensures Fold(s) == 0xffff <==> s > 0 && s % 65535 == 0
  {
    FoldCongruent(s);
  }

  function Patched(h: seq<byte>, at: nat, v: nat): (r: seq<byte>)
    requires at + 2 <= |h| && v < 65536
    ensures |r| == |h|
  {
    h[..at] + U16(v) + h[at + 2..]
  }

  /** Writing the checksum into the zeroed field makes the header fold to all ones,
      and apart from the two zeros of ones' complement no other value does. */
  lemma PatchedHeaderFolds(h: seq<byte>, at: nat, v: nat)
    requires at % 2 == 0 && at + 2 <= |h| <= SAFE_LENGTH && h[at] == 0 == h[at + 1]
    requires v < 65536
    ensures var csum := 65535 - Fold(WordSum(h) % U32);
            Fold(WordSum(Patched(h, at, v))) == 0xffff <==> v % 65535 == csum % 65535 && WordSum(h) + v > 0
  {
    hide WordSum, Fold, Patched;
    var s := WordSum(h);
    assert s < U32 by { NoOverflowIff(|h|); }
    PatchedSum(h, at, v);
    FoldsToOnesIff(s + v);
    FoldCongruent(s);
    Complement(s, Fold(s), v);
  }

  lemma ChecksumFits(h: seq<byte>, at: nat)
    requires at % 2 == 0 && at + 2 <= |h| <= SAFE_LENGTH && h[at] == 0 == h[at + 1]
    ensures Fold(WordSum(Patched(h, at, 65535 - Fold(WordSum(h) % U32)))) == 0xffff
  {
    hide WordSum, Patched;
    assert WordSum(h) < U32 by { NoOverflowIff(|h|); }
    PatchedHeaderFolds(h, at, 65535 - Fold(WordSum(h) % U32));
  }

  lemma Complement(s: nat, f: nat, v: nat)
    requires f < 65536 && f % 65535 == s % 65535
    ensures (s + v) % 65535 == 0 <==> v % 65535 == (65535 - f) % 65535
  {
  }

  lemma PatchedSum(h: seq<byte>, at: nat, v: nat)
    requires at % 2 == 0 && at + 2 <= |h| && h[at] == 0 == h[at + 1] && v < 65536
    ensures WordSum(Patched(h, at, v)) == WordSum(h) + v
  {
    hide WordSum, Patched;
    var rest, zero: seq<byte> := h[at + 2..], [0, 0];
    PatchedParts(h, at, v);
    WordBetween(h[..at], zero, rest);
    WordBetween(h[..at], U16(v), rest);
  }

  lemma PatchedParts(h: seq<byte>, at: nat, v: nat)
    requires at + 2 <= |h| && h[at] == 0 == h[at + 1] && v < 65536
    ensures var zero: seq<byte> := [0, 0];
            && h == h[..at] + (zero + h[at + 2..])
            && Patched(h, at, v) == h[..at] + (U16(v) + h[at + 2..])
  {
  }

  lemma WordBetween(a: seq<byte>, w: seq<byte>, rest: seq<byte>)
    requires |a| % 2 == 0 && |w| == 2
    ensures WordSum(a + (w + rest)) == WordSum(a) + FromU16(w[0], w[1]) + WordSum(rest)
  {
    hide WordSum;
    WordSumSplit(a, w + rest);
    WordSumSplit(w, rest);
    OneWord(w);
  }

  // ---- The probe packet --------------------------------------------------

  const CLOUDFLARE: seq<byte> := [99, 108, 111, 117, 100, 102, 108, 97, 114, 101]
  const COM: seq<byte> := [99, 111, 109]

  lemma PushedTwo(a: seq<byte>, b: seq<byte>)
    ensures Pushed([a, b]) == [|a| % 256] + a + ([|b| % 256] + b)
  {
    assert [a, b][1..] == [b];
    assert [b][1..] == [];
    assert Pushed([b]) == [|b| % 256] + b;
  }

  method ProbeDnsQuery(id: nat) returns (q: seq<byte>)
    requires id < 65536
    ensures q == Query(id, [CLOUDFLARE, COM], RR_A) && |q| == 32
  {
    hide Pushed;
    PushedTwo(CLOUDFLARE, COM);
    q := U16(id);
    q := q + [0x01, 0x00];
    q := q + [0x00, 0x01];
    q := q + [0, 0, 0, 0, 0, 0];
    assert q == Header(id);
    ghost var header := q;
    q := q + [10] + CLOUDFLARE;
    q := q + [3] + COM;
    assert q == header + Pushed([CLOUDFLARE, COM]);
    q := q + [0];
    q := q + [0, 1];
    q := q + [0, 1];
    assert U16(RR_A) == [0, 1];
    assert q == header + (Pushed([CLOUDFLARE, COM]) + [0]) + (U16(RR_A) + [0, 1]);
  }

  /** The IPv4 header of the probe. */
  method ProbeHeader(src: seq<byte>, totalLen: nat, id: nat) returns (pkt: seq<byte>)
    requires |src| == 4 && totalLen < 65536 && id < 65536
    ensures |pkt| == 20 && pkt[0] == 0x45 && pkt[1] == 0 && pkt[6..8] == [0, 0] && pkt[8] == 64 && pkt[9] == 17
    ensures FromU16(pkt[2], pkt[3]) == totalLen && FromU16(pkt[4], pkt[5]) == id
    ensures pkt[12..16] == src && pkt[16..20] == [8, 8, 8, 8]
    ensures Fold(WordSum(pkt)) == 0xffff
  {
    hide WordSum, Fold;
    pkt := [0x45];
    pkt := pkt + [0x00];
    pkt := pkt + U16(totalLen);
    pkt := pkt + U16(id);
    pkt := pkt + [0, 0];
    pkt := pkt + [64];
    pkt := pkt + [17];
    pkt := pkt + [0, 0];
    pkt := pkt + src;
    pkt := pkt + [8, 8, 8, 8];
    var csum := HeaderChecksum(pkt);
    ChecksumFits(pkt, 10);
    pkt := Patched(pkt, 10, csum);
  }

  /** The probe: a header that verifies, lengths that say how long the packet and
      its UDP part are, and a well-formed query to port 53. */
  method BuildDnsProbePacket(src: seq<byte>, id: nat, dnsId: nat, sport: nat) returns (pkt: seq<byte>)
    requires |src| == 4 && id < 65536 && dnsId < 65536 && 20000 <= sport < 60000
    ensures |pkt| == 60 && pkt[0] == 0x45 && pkt[1] == 0 && pkt[6..8] == [0, 0] && pkt[8] == 64 && pkt[9] == 17
    ensures FromU16(pkt[4], pkt[5]) == id && pkt[26..28] == [0, 0]
    ensures FromU16(pkt[2], pkt[3]) == |pkt| && FromU16(pkt[24], pkt[25]) == |pkt| - 20
    ensures Fold(WordSum(pkt[..20])) == 0xffff
    ensures pkt[12..16] == src && pkt[16..20] == [8, 8, 8, 8]
    ensures FromU16(pkt[20], pkt[21]) == sport && FromU16(pkt[22], pkt[23]) == 53
    ensures pkt[28..] == Query(dnsId, [CLOUDFLARE, COM], RR_A)
  {
    hide WordSum, Fold, Query;
    var dns := ProbeDnsQuery(dnsId);
    var udpLen := 8 + |dns|;
    var totalLen := 20 + udpLen;
    var header := ProbeHeader(src, totalLen, id);
    pkt := header;
    pkt := pkt + U16(sport);
    pkt := pkt + U16(53);
    pkt := pkt + U16(udpLen);
    pkt := pkt + [0, 0];
    pkt := pkt + dns;
    assert pkt[..20] == header;
    assert pkt[6..8] == header[6..8] && pkt[12..16] == header[12..16] && pkt[16..20] == header[16..20];
  }
}
