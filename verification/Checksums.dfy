/** One's-complement checksums: the lane-parallel TCP checksum, the IPv4 header's adder tree and the
    incremental ICMP update, against the plain sum of section 1 of RFC 1071.
 */
module Checksums {
  import opened Words
  import opened Beats

  // ---------- RFC 1071 ----------

  /** The sum of the 16-bit big-endian words; an odd last byte is padded with zero. */
  function Sum16(s: seq<byte>): nat {
    if s == [] then 0
    else if |s| == 1 then s[0] as int * 0x100
    else s[0] as int * 0x100 + s[1] + Sum16(s[2..])
  }

  /** Carries are added back in until none is left. */
  function Fold(x: nat): u16 {
    if x < WORD_16 then x else Fold(x % WORD_16 + x / WORD_16)
  }

  function Complement(x: u16): u16 { 0xFFFF - x }

  /** The checksum of a message whose checksum field is zero. */
  function Rfc1071(s: seq<byte>): u16 { Complement(Fold(Sum16(s))) }

  /** A message verifies if the folded sum over all its words is all ones. */
  predicate Verifies(s: seq<byte>) { Fold(Sum16(s)) == 0xFFFF }

  // ---------- Folding ----------

  /** Folding leaves the remainder modulo 2^16 - 1, from 1 up for anything but zero. */
  lemma {:induction false} FoldIs(x: nat)
    ensures Fold(x) == if x == 0 then 0 else (x - 1) % 0xFFFF + 1
    decreases x
  {
    if x >= WORD_16 {
      var y := x % WORD_16 + x / WORD_16;
      FoldIs(y);
      assert x - y == x / WORD_16 * 0xFFFF;
      ModShift(y - 1, x / WORD_16);
    }
  }

  lemma ModShift(a: nat, k: nat)
    ensures (a + k * 0xFFFF) % 0xFFFF == a % 0xFFFF
  {
    if k != 0 {
      assert a + k * 0xFFFF == (a + (k - 1) * 0xFFFF) + 0xFFFF;
      ModShift(a, k - 1);
    }
  }

  /** Sums that fold alike still do so after the same addition. */
  lemma FoldCongruent(a: nat, b: nat, c: nat)
    requires Fold(a) == Fold(b)
    ensures Fold(a + c) == Fold(b + c)
  {
    FoldIs(a);
    FoldIs(b);
    FoldIs(a + c);
    FoldIs(b + c);
    hide Fold;
    if a != 0 && b != 0 {
      ModAdd(a - 1, b - 1, c);
    }
  }

  lemma ModAdd(a: nat, b: nat, c: nat)
    requires a % 0xFFFF == b % 0xFFFF
    ensures (a + c) % 0xFFFF == (b + c) % 0xFFFF
  {
    ModSplit(a, c);
    ModSplit(b, c);
  }

  lemma ModSplit(a: nat, c: nat)
    ensures (a + c) % 0xFFFF == (a % 0xFFFF + c) % 0xFFFF
  {
    assert a + c == (a % 0xFFFF + c) + a / 0xFFFF * 0xFFFF;
    ModShift(a % 0xFFFF + c, a / 0xFFFF);
  }

  /** One addition of two 16-bit words with its carry put back, in a 17-bit register. */
  function EndAround(a: u16, b: u16): u16 {
    (a + b + (a + b) / WORD_16) % WORD_16
  }

  lemma EndAroundFolds(a: u16, b: u16)
    ensures EndAround(a, b) == Fold(a + b)
  {
  }

  /** A value and its complement fold to all ones. */
  lemma ComplementCompletes(x: nat)
    ensures Fold(x + Complement(Fold(x))) == 0xFFFF
  {
    hide Fold;
    FoldIs(x);
    FoldIs(x + Complement(Fold(x)));
    if x != 0 { Completes(x - 1); }
  }

  lemma Completes(y: nat)
    ensures (y + (0xFFFF - 1 - y % 0xFFFF)) % 0xFFFF == 0xFFFE
  {
    ModSplit(y, 0xFFFF - 1 - y % 0xFFFF);
  }

  // ---------- Sums of words ----------

  /** The sum of a list of words. */
  function Sum(w: seq<u16>): nat {
    if w == [] then 0 else w[0] + Sum(w[1..])
  }

  lemma {:induction false} SumAppend(v: seq<u16>, w: seq<u16>)
    ensures Sum(v + w) == Sum(v) + Sum(w)
  {
    if v == [] {
      assert v + w == w;
    } else {
      SumAppend(v[1..], w);
      assert (v + w)[1..] == v[1..] + w;
    }
  }

  /** Adding word by word, each with its own carry, folds like the plain sum of everything. */
  lemma {:induction false} LanesFold(v: seq<u16>, w: seq<u16>, r: seq<u16>)
    requires |v| == |w| == |r| && forall i :: 0 <= i < |v| ==> r[i] == EndAround(v[i], w[i])
    ensures Fold(Sum(r)) == Fold(Sum(v) + Sum(w))
  {
    hide Fold, EndAround;
    if v != [] {
      LanesFold(v[1..], w[1..], r[1..]);
      EndAroundFolds(v[0], w[0]);
      var x: nat := v[0] as int + w[0];
      FoldTwice(x);
      FoldCongruent(r[0], x, Sum(r[1..]));
      FoldCongruent(Sum(r[1..]), Sum(v[1..]) + Sum(w[1..]), x);
    }
  }

  lemma FoldTwice(x: nat)
    ensures Fold(Fold(x)) == Fold(x)
  {
  }

  lemma {:induction false} Sum16Split(s: seq<byte>, n: nat)
    requires n <= |s| && n % 2 == 0
    ensures Sum16(s) == Sum16(s[..n]) + Sum16(s[n..])
    decreases n
  {
    if n == 0 {
      assert s[n..] == s;
    } else {
      Sum16Split(s[2..], n - 2);
      assert s[2..][..n - 2] == s[..n][2..] && s[2..][n - 2..] == s[n..];
    }
  }

  // ---------- Lanes ----------

  /** What one lane of 16 bits adds for a beat: two kept bytes, or one and a zero. */
  function LaneTerm(b: Beat, i: nat): u16
    requires i < 32
  {
    if b.keep[2 * i] && b.keep[2 * i + 1] then b.data[2 * i] as int * 0x100 + b.data[2 * i + 1]
    else if b.keep[2 * i] then b.data[2 * i] as int * 0x100
    else 0
  }

  /** The terms of lanes `i` and up. */
  function Terms(b: Beat, i: nat): (w: seq<u16>)
    requires i <= 32
    ensures |w| == 32 - i && forall k :: 0 <= k < 32 - i ==> w[k] == LaneTerm(b, i + k)
    decreases 32 - i
  {
    if i == 32 then [] else [LaneTerm(b, i)] + Terms(b, i + 1)
  }

  /** Together the lanes add the 16-bit words of the beat's bytes, an odd last byte padded. */
  lemma {:induction false} TermsAreWords(b: Beat, s: seq<byte>, i: nat)
    requires Holds(b, s) && i <= 32
    ensures Sum(Terms(b, i)) == if 2 * i <= |s| then Sum16(s[2 * i..]) else 0
    decreases 32 - i
  {
    if i < 32 {
      TermsAreWords(b, s, i + 1);
      assert Terms(b, i)[1..] == Terms(b, i + 1);
      if 2 * i + 1 < |s| {
        assert s[2 * i..][2..] == s[2 * (i + 1)..];
        assert b.data[..|s|][2 * i] == s[2 * i] && b.data[..|s|][2 * i + 1] == s[2 * i + 1];
      } else if 2 * i < |s| {
        assert b.data[..|s|][2 * i] == s[2 * i];
      }
    }
  }

  type Lanes32 = w: seq<u16> | |w| == 32 witness seq(32, i => 0)

  /** The 32 lane registers after one beat. */
  function AddBeat(lanes: Lanes32, b: Beat): Lanes32 {
    seq(32, i requires 0 <= i < 32 => EndAround(lanes[i], LaneTerm(b, i)))
  }

  function AddBeats(lanes: Lanes32, q: seq<Beat>): Lanes32
    decreases |q|
  {
    if q == [] then lanes else AddBeats(AddBeat(lanes, q[0]), q[1..])
  }

  lemma AddBeatFolds(lanes: Lanes32, b: Beat, s: seq<byte>)
    requires Holds(b, s)
    ensures Fold(Sum(AddBeat(lanes, b))) == Fold(Sum(lanes) + Sum16(s))
  {
    hide Fold, EndAround, Holds;
    LanesFold(lanes, Terms(b, 0), AddBeat(lanes, b));
    TermsAreWords(b, s, 0);
    assert s[0..] == s;
  }

  lemma {:induction false} AddBeatsFolds(lanes: Lanes32, q: seq<Beat>, s: seq<byte>)
    requires Carries(q, s)
    ensures Fold(Sum(AddBeats(lanes, q))) == Fold(Sum(lanes) + Sum16(s))
    decreases |q|
  {
    hide Fold, AddBeat, Carries, Holds, Sum, Sum16;
    CarriesSome(q, s);
    if |q| == 1 {
      AddBeatFolds(lanes, q[0], s);
      assert AddBeats(lanes, q) == AddBeats(AddBeat(lanes, q[0]), []) by { assert q[1..] == []; }
    } else {
      AddBeatFolds(lanes, q[0], s[..LANES]);
      AddBeatsFolds(AddBeat(lanes, q[0]), q[1..], s[LANES..]);
      Sum16Split(s, LANES);
      FoldCongruent(Sum(AddBeat(lanes, q[0])), Sum(lanes) + Sum16(s[..LANES]), Sum16(s[LANES..]));
    }
  }

  // ---------- The reduction tree ----------

  /** Adds the upper half of the lanes to the lower half. */
  function Halve(w: seq<u16>, n: nat): (r: seq<u16>)
    requires |w| == 2 * n
    ensures |r| == n
  {
    seq(n, i requires 0 <= i < n => EndAround(w[i], w[i + n]))
  }

  lemma HalveFolds(w: seq<u16>, n: nat)
    requires |w| == 2 * n
    ensures Fold(Sum(Halve(w, n))) == Fold(Sum(w))
  {
    hide Fold, EndAround, Sum;
    LanesFold(w[..n], w[n..], Halve(w, n));
    SumAppend(w[..n], w[n..]);
    assert w[..n] + w[n..] == w;
  }

  function Reduce(lanes: Lanes32): u16 {
    Complement(Halve(Halve(Halve(Halve(Halve(lanes, 16), 8), 4), 2), 1)[0])
  }

  lemma ReduceFolds(lanes: Lanes32)
    ensures Reduce(lanes) == Complement(Fold(Sum(lanes)))
  {
    hide Halve, Fold;
    var a := Halve(lanes, 16);
    var b := Halve(a, 8);
    var c := Halve(b, 4);
    var d := Halve(c, 2);
    var e := Halve(d, 1);
    HalveFolds(lanes, 16);
    HalveFolds(a, 8);
    HalveFolds(b, 4);
    HalveFolds(c, 2);
    HalveFolds(d, 1);
    assert e == [e[0]] && e[1..] == [];
    FoldSmall(e[0]);
  }

  lemma FoldSmall(x: u16)
    ensures Fold(x) == x
  {
  }

  /** The checksum of a packet, as the two modules compute it. */
  function LaneChecksum(q: seq<Beat>): u16 {
    Reduce(AddBeats(seq(32, i => 0), q))
  }

  lemma {:induction false} SumOfZeros(w: seq<u16>)
    requires forall i :: 0 <= i < |w| ==> w[i] == 0
    ensures Sum(w) == 0
  {
    if w != [] { SumOfZeros(w[1..]); }
  }

  /** For a packet of any length the 32 lanes and the tree give exactly the checksum of RFC 1071. */
  lemma LaneChecksumIsRfc1071(q: seq<Beat>, s: seq<byte>)
    requires Carries(q, s)
    ensures LaneChecksum(q) == Rfc1071(s)
  {
    hide Fold, Reduce, AddBeats, Sum, Sum16;
    var zero: Lanes32 := seq(32, i => 0);
    AddBeatsFolds(zero, q, s);
    ReduceFolds(AddBeats(zero, q));
    SumOfZeros(zero);
  }

  /** Two bytes at an even place count as one word. */
  lemma {:induction false} WordReplaced(s: seq<byte>, k: nat, c: u16)
    requires k % 2 == 0 && k + 1 < |s|
    ensures Sum16(s[k := c / 0x100][k + 1 := c % 0x100]) + (s[k] as int * 0x100 + s[k + 1]) == Sum16(s) + c
    decreases k
  {
    var t := s[k := c / 0x100][k + 1 := c % 0x100];
    if k == 0 {
      assert t[2..] == s[2..];
    } else {
      WordReplaced(s[2..], k - 2, c);
      assert t[2..] == s[2..][k - 2 := c / 0x100][k - 1 := c % 0x100];
    }
  }

  /** Putting the computed checksum into its zeroed, even-aligned field makes the receive side's
      result zero, for a packet of any content and length. */
  lemma InsertedChecksumVerifies(q: seq<Beat>, s: seq<byte>, k: nat, r: seq<Beat>)
    requires Carries(q, s) && k % 2 == 0 && k + 1 < |s| && s[k] == s[k + 1] == 0
    requires Carries(r, s[k := LaneChecksum(q) / 0x100][k + 1 := LaneChecksum(q) % 0x100])
    ensures LaneChecksum(r) == 0
  {
    hide Fold, LaneChecksum, Carries, Sum16;
    var c := LaneChecksum(q);
    var t := s[k := c / 0x100][k + 1 := c % 0x100];
    LaneChecksumIsRfc1071(q, s);
    LaneChecksumIsRfc1071(r, t);
    WordReplaced(s, k, c);
    ComplementCompletes(Sum16(s));
  }

  /** The receive side accepts exactly the packets that verify. */
  lemma ZeroIffVerifies(q: seq<Beat>, s: seq<byte>)
    requires Carries(q, s)
    ensures LaneChecksum(q) == 0 <==> Verifies(s)
  {
    hide Fold, LaneChecksum, Carries, Sum16;
    LaneChecksumIsRfc1071(q, s);
  }

  // ---------- The IPv4 header ----------

  /** The 16-bit words the adder tree takes: those of the header, except the checksum's own. */
  function HeaderWords(d: seq<byte>, ihl: nat): (w: seq<u16>)
    requires |d| >= 60
    ensures |w| == 30
  {
    seq(30, i requires 0 <= i < 30 =>
          if i < 2 * ihl && i != 5 then d[2 * i] as int * 0x100 + d[2 * i + 1] else 0)
  }

  /** Sum of the pairs of neighbours, an odd last word passed through. */
  function Pairs(w: seq<nat>): (r: seq<nat>)
    ensures |r| == (|w| + 1) / 2
  {
    if w == [] then [] else if |w| == 1 then w else [w[0] + w[1]] + Pairs(w[2..])
  }

  function SumNat(w: seq<nat>): nat {
    if w == [] then 0 else w[0] + SumNat(w[1..])
  }

  lemma {:induction false} PairsKeepSum(w: seq<nat>)
    ensures SumNat(Pairs(w)) == SumNat(w)
  {
    if |w| >= 2 {
      PairsKeepSum(w[2..]);
      assert w[1..][1..] == w[2..] && Pairs(w)[1..] == Pairs(w[2..]);
    }
  }

  /** The tree: 30, 15, 8, 4, 2, 1. Its registers are wide enough for every carry. */
  function TreeSum(w: seq<nat>): nat
    requires |w| == 30
  {
    Pairs(Pairs(Pairs(Pairs(Pairs(w)))))[0]
  }

  /** The carries above bit 16 are added to the low half, and the last one once more. */
  function FoldTree(x: nat): u16
    requires x < 0x20_0000
  {
    var y := x % WORD_16 + x / WORD_16;
    (y / WORD_16 + y) % WORD_16
  }

  lemma FoldTreeIsFold(x: nat)
    requires x < 0x20_0000
    ensures FoldTree(x) == Fold(x)
  {
  }

  lemma TreeIsSum(w: seq<nat>)
    requires |w| == 30
    ensures TreeSum(w) == SumNat(w)
  {
    PairsKeepSum(w);
    PairsKeepSum(Pairs(w));
    PairsKeepSum(Pairs(Pairs(w)));
    PairsKeepSum(Pairs(Pairs(Pairs(w))));
    PairsKeepSum(Pairs(Pairs(Pairs(Pairs(w)))));
    hide Pairs;
    var r := Pairs(Pairs(Pairs(Pairs(Pairs(w)))));
    assert r == [r[0]] && r[1..] == [];
  }

  lemma {:induction false} SumBound(w: seq<nat>)
    requires forall i :: 0 <= i < |w| ==> w[i] < WORD_16
    ensures SumNat(w) <= |w| * 0xFFFF
  {
    if w != [] { SumBound(w[1..]); }
  }

  /** From word `i` on, the tree's words add up to the header's bytes less its checksum field. */
  lemma {:induction false} HeaderWordsSum(d: seq<byte>, ihl: nat, i: nat)
    requires |d| >= 60 && 3 <= ihl <= 15 && i <= 30 && d[10] == d[11] == 0
    ensures SumNat(HeaderWords(d, ihl)[i..]) == if i <= 2 * ihl then Sum16(d[2 * i..4 * ihl]) else 0
    decreases 30 - i
  {
    if i < 30 {
      HeaderWordsSum(d, ihl, i + 1);
      assert HeaderWords(d, ihl)[i..][1..] == HeaderWords(d, ihl)[i + 1..];
      if i < 2 * ihl {
        assert d[2 * i..4 * ihl][2..] == d[2 * (i + 1)..4 * ihl];
      }
    }
  }

  /** The checksum the module computes, and the word with it inserted. */
  function Ipv4Checksum(d: seq<byte>): u16
    requires |d| >= 60
  {
    var w: seq<nat> := HeaderWords(d, d[0] % 16);
    TreeBound(w);
    Complement(FoldTree(TreeSum(w)))
  }

  lemma TreeBound(w: seq<nat>)
    requires |w| == 30 && forall i :: 0 <= i < |w| ==> w[i] < WORD_16
    ensures TreeSum(w) < 0x20_0000
  {
    TreeIsSum(w);
    SumBound(w);
    hide TreeSum, SumNat;
  }

  function InsertIpv4Checksum(d: seq<byte>): (r: seq<byte>)
    requires |d| >= 60
    ensures |r| == |d|
  {
    d[10 := Ipv4Checksum(d) / 0x100][11 := Ipv4Checksum(d) % 0x100]
  }

  lemma TreeIgnoresField(d: seq<byte>)
    requires |d| >= 60
    ensures HeaderWords(d, d[0] % 16) == HeaderWords(d[10 := 0][11 := 0], d[0] % 16)
  {
  }

  /** For every header length whose words include the checksum, whatever the field held before, the
      header verifies after the insertion: the adder tree loses no carry. Nothing but the field changes. */
  lemma InsertedHeaderVerifies(d: seq<byte>)
    requires |d| >= 60 && 3 <= d[0] % 16
    ensures Verifies(InsertIpv4Checksum(d)[..4 * (d[0] % 16)])
    ensures InsertIpv4Checksum(d)[..10] == d[..10] && InsertIpv4Checksum(d)[12..] == d[12..]
  {
    var ihl: nat := d[0] % 16;
    var z: seq<byte> := d[10 := 0][11 := 0];
    var c := Ipv4Checksum(d);
    var w: seq<nat> := HeaderWords(z, ihl);
    TreeIgnoresField(d);
    TreeBound(w);
    TreeIsSum(w);
    FoldTreeIsFold(TreeSum(w));
    HeaderWordsSum(z, ihl, 0);
    hide Fold, Sum16, HeaderWords, TreeSum, SumNat, FoldTree;
    assert w[0..] == w && z[0..4 * ihl] == z[..4 * ihl];
    var h: seq<byte> := z[..4 * ihl];
    WordReplaced(h, 10, c);
    assert InsertIpv4Checksum(d)[..4 * ihl] == h[10 := c / 0x100][11 := c % 0x100];
    ComplementCompletes(Sum16(h));
  }

  // ---------- ICMP ----------

  /** The checksum with 8 * 256 added to it, its carry put back. */
  function UpdatedIcmpChecksum(hc: u16): u16 {
    var sum := hc + 0x0800;
    sum % WORD_16 + sum / WORD_16
  }

  /** An echo request becomes a reply: type 0 and the updated checksum. */
  function EchoReply(m: seq<byte>): (r: seq<byte>)
    requires |m| >= 4
    ensures |r| == |m|
  {
    var hc := UpdatedIcmpChecksum(m[2] as int * 0x100 + m[3]);
    m[0 := 0][2 := hc / 0x100][3 := hc % 0x100]
  }

  lemma Sum16Head(s: seq<byte>)
    requires |s| >= 4
    ensures Sum16(s) == (s[0] as int * 0x100 + s[1]) + (s[2] as int * 0x100 + s[3]) + Sum16(s[4..])
  {
    assert s[2..][2..] == s[4..];
  }

  /** Every request that verifies becomes a reply that verifies, to the same identifier, number and data. */
  lemma ReplyVerifies(m: seq<byte>)
    requires |m| >= 4 && m[0] == 8 && m[1] == 0 && Verifies(m)
    ensures Verifies(EchoReply(m))
    ensures EchoReply(m)[0] == EchoReply(m)[1] == 0 && EchoReply(m)[4..] == m[4..]
  {
    var hc: nat := m[2] as int * 0x100 + m[3];
    var r := EchoReply(m);
    var updated := UpdatedIcmpChecksum(hc);
    Sum16Head(m);
    Sum16Head(r);
    assert r[4..] == m[4..];
    assert Sum16(m) == 0x0800 + hc + Sum16(m[4..]);
    assert Sum16(r) == updated + Sum16(m[4..]);
    UpdateFolds(hc);
    FoldCongruent(updated, hc + 0x0800, Sum16(m[4..]));
  }

  lemma UpdateFolds(hc: u16)
    ensures Fold(UpdatedIcmpChecksum(hc)) == Fold(hc + 0x0800)
  {
  }

  /** Equation 3 of section 3 of RFC 1624, for the word 0x0800 becoming 0x0000. */
  function Equation3(hc: u16): u16 {
    Complement(Fold(Complement(hc) + Complement(0x0800) + 0x0000))
  }

  /** The update agrees with equation 3 of RFC 1624 for every checksum but 0xF7FF, for which the two
      give the two one's-complement zeros. */
  lemma UpdateIsEquation3Iff(hc: u16)
    ensures UpdatedIcmpChecksum(hc) == Equation3(hc) <==> hc != 0xF7FF
    ensures UpdatedIcmpChecksum(0xF7FF) == 0xFFFF && Equation3(0xF7FF) == 0x0000
  {
    EndAroundFolds(Complement(hc), Complement(0x0800));
    EndAroundFolds(Complement(0xF7FF), Complement(0x0800));
    hide Fold;
  }

  // ---------- The modules ----------

  class ComputeSubChecksum {
    const lanes: array<int>
    var sums: seq<seq<int>>

    ghost predicate Valid()
      reads lanes
    {
      lanes.Length == 32 && forall i :: 0 <= i < 32 ==> 0 <= lanes[i] < WORD_16
    }

    ghost function View(): Lanes32
      requires Valid()
      reads lanes
    {
      lanes[..]
    }

    constructor ()
      ensures Valid() && fresh(lanes) && sums == [] && View() == seq(32, i => 0)
    {
      lanes := new int[32](i => 0);
      sums := [];
    }

    /** One beat; after the last of a packet the lanes go out and start again at zero. */
    method TakeBeat(b: Beat)
      requires Valid()
      modifies this, lanes
      ensures Valid()
      ensures View() == if b.last then seq(32, i => 0) else AddBeat(old(View()), b)
      ensures sums == old(sums) + if b.last then [AddBeat(old(View()), b)] else []
    {
      ghost var before := View();
      for i := 0 to 32
        invariant Valid() && sums == old(sums)
        invariant forall k :: 0 <= k < 32 ==>
                    lanes[k] == if k < i then EndAround(before[k], LaneTerm(b, k)) else before[k]
      {
        var word := 0;
        if b.keep[2 * i] && b.keep[2 * i + 1] {
          word := b.data[2 * i] as int * 0x100 + b.data[2 * i + 1];
        } else if b.keep[2 * i] {
          word := b.data[2 * i] as int * 0x100;
        }
        var sum := lanes[i] + word;
        lanes[i] := (sum + sum / WORD_16) % WORD_16;
      }
      assert lanes[..] == AddBeat(before, b);
      if b.last {
        sums := sums + [lanes[..]];
        for i := 0 to 32
          invariant Valid() && sums == old(sums) + [AddBeat(before, b)] && forall k :: 0 <= k < i ==> lanes[k] == 0
        {
          lanes[i] := 0;
        }
        assert lanes[..] == seq(32, i => 0);
      }
    }
  }

  /** One level of the reduction tree, in place. */
  method AddHalves(sums: array<u16>, n: nat)
    requires 2 * n <= sums.Length
    modifies sums
    ensures sums[..n] == Halve(old(sums[..2 * n]), n)
  {
    for i := 0 to n
      invariant forall k :: 0 <= k < i ==> sums[k] == EndAround(old(sums[k]), old(sums[k + n]))
      invariant forall k :: i <= k < sums.Length ==> sums[k] == old(sums[k])
    {
      var sum: nat := sums[i] as int + sums[i + n];
      sums[i] := (sum + sum / WORD_16) % WORD_16;
    }
  }

  method CheckChecksum(lanes: Lanes32) returns (checksum: u16)
    ensures checksum == Reduce(lanes)
  {
    hide Halve;
    var sums := new u16[32](i requires 0 <= i < 32 => lanes[i]);
    assert sums[..2 * 16] == lanes;
    AddHalves(sums, 16);
    AddHalves(sums, 8);
    AddHalves(sums, 4);
    AddHalves(sums, 2);
    AddHalves(sums, 1);
    assert sums[..1][0] == sums[0];
    checksum := 0xFFFF - sums[0];
  }

  lemma PairsHead(w: seq<nat>)
    ensures Pairs(w) == if w == [] then [] else if |w| == 1 then [w[0]] else [w[0] + w[1]] + Pairs(w[2..])
  {
  }

  /** One level of the header's adder tree. */
  method AddPairs(w: seq<nat>) returns (r: seq<nat>)
    ensures r == Pairs(w)
  {
    hide Pairs;
    r := [];
    var i := 0;
    assert w[0..] == w;
    while i < |w|
      invariant 0 <= i <= |w| && r + Pairs(w[i..]) == Pairs(w)
    {
      PairsHead(w[i..]);
      var word := w[i];
      var next := i + 1;
      if next < |w| {
        word := word + w[next];
        next := next + 1;
        assert w[i..][2..] == w[next..];
      }
      PairsHead([]);
      r := r + [word];
      i := next;
    }
    PairsHead([]);
  }

  method ComputeAndInsertIpv4Checksum(d: Lanes) returns (r: seq<byte>)
    ensures r == InsertIpv4Checksum(d)
  {
    hide Pairs;
    var ops: seq<nat> := [];
    var length := d[0] % 16;
    for i := 0 to 30
      invariant |ops| == i
      invariant forall k :: 0 <= k < i ==> ops[k] == HeaderWords(d, length)[k]
    {
      var word: nat := 0;
      if i < 2 * length as int && i != 5 {
        word := d[2 * i] as int * 0x100 + d[2 * i + 1];
      }
      ops := ops + [word];
    }
    assert ops == HeaderWords(d, length);
    TreeBound(ops);
    var l1 := AddPairs(ops);
    var l2 := AddPairs(l1);
    var l3 := AddPairs(l2);
    var l4 := AddPairs(l3);
    var l5 := AddPairs(l4);
    var sum := l5[0] % WORD_16 + l5[0] / WORD_16;
    sum := sum / WORD_16 + sum;
    var checksum := 0xFFFF - sum % WORD_16;
    r := d[10 := checksum / 0x100][11 := checksum % 0x100];
  }

  /** The header check of the ICMP server: ten words, read from the low end. */
  method ComputeChechkSum20B(h: seq<byte>) returns (checksum: u16)
    requires |h| == 20
    ensures checksum == Rfc1071(h)
  {
    hide Fold, Sum16, Pair;
    TenWords(h);
    var l0 := seq(10, m requires 0 <= m < 10 => Pair(h, 9 - m));
    var l1 := seq(5, m requires 0 <= m < 5 => l0[2 * m] + l0[2 * m + 1]);
    var l3 := (l1[0] + l1[1]) + (l1[2] + l1[3]) + l1[4];
    assert l3 == Sum16(h);
    checksum := FoldAndComplement(l3);
  }

  method FoldAndComplement(x: nat) returns (checksum: u16)
    requires x <= 10 * 0xFFFF
    ensures checksum == Complement(Fold(x))
  {
    FoldTreeIsFold(x);
    hide Fold;
    var folded := x % WORD_16 + x / WORD_16;
    var carried := x % WORD_16 + x / WORD_16 + 1;
    checksum := 0xFFFF - (if folded >= WORD_16 then carried else folded) % WORD_16;
  }

  lemma TenWords(h: seq<byte>)
    requires |h| == 20
    ensures Sum16(h) == Pair(h, 0) + Pair(h, 1) + Pair(h, 2) + Pair(h, 3) + Pair(h, 4)
                        + Pair(h, 5) + Pair(h, 6) + Pair(h, 7) + Pair(h, 8) + Pair(h, 9)
  {
    hide Pair, Sum16;
    NextWord(h, 0);
    NextWord(h, 1);
    NextWord(h, 2);
    NextWord(h, 3);
    NextWord(h, 4);
    NextWord(h, 5);
    NextWord(h, 6);
    NextWord(h, 7);
    NextWord(h, 8);
    NextWord(h, 9);
    assert h[0..] == h && h[20..] == [];
    NoWords();
  }

  lemma NoWords()
    ensures Sum16([]) == 0
  {
  }

  function Pair(h: seq<byte>, i: nat): (w: nat)
    requires 2 * i + 1 < |h|
    ensures w <= 0xFFFF
  {
    h[2 * i] as int * 0x100 + h[2 * i + 1]
  }

  lemma NextWord(h: seq<byte>, i: nat)
    requires 2 * i + 1 < |h|
    ensures Sum16(h[2 * i..]) == Pair(h, i) + Sum16(h[2 * (i + 1)..])
  {
    assert h[2 * i..][2..] == h[2 * (i + 1)..];
  }
}
