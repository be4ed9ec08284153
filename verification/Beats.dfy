/** Beats of the 64-byte streams, and what a run of beats means as bytes.

    A beat has 64 byte lanes, a keep bit for each, and a `last` flag. The modules of the engine
    produce and expect packets in which every beat but the last keeps all 64 lanes, and the last
    keeps a low run of at least one.
 */
module Beats {
  import opened Words

  const LANES: nat := 64

  type Lanes = s: seq<byte> | |s| == LANES witness seq(LANES, i => 0)
  type Keep = s: seq<bool> | |s| == LANES witness seq(LANES, i => false)

  datatype Beat = Beat(data: Lanes, keep: Keep, last: bool)

  function EmptyBeat(): Beat {
    Beat(seq(LANES, i => 0), seq(LANES, i => false), false)
  }

  /** A keep mask with the low `n` bits set. */
  function LowKeep(n: int): Keep {
    seq(LANES, i => i < n)
  }

  /** The keep mask for a length given in six bits: 0 stands for 64. */
  function DataLengthToAxisKeep(length: nat): (keep: Keep)
    requires length < LANES
    ensures keep == LowKeep(if length == 0 then LANES else length)
  {
    LowKeep(if length == 0 then LANES else length)
  }

  /** The beat keeps exactly these bytes, in its low lanes. */
  ghost predicate Holds(b: Beat, s: seq<byte>) {
    |s| <= LANES && b.keep == LowKeep(|s|) && b.data[..|s|] == s
  }

  /** The beats are one well-formed packet with these bytes. */
  ghost predicate Carries(q: seq<Beat>, s: seq<byte>) {
    if |q| <= 1 then q != [] && q[0].last && 1 <= |s| && Holds(q[0], s)
    else |s| > LANES && !q[0].last && Holds(q[0], s[..LANES]) && Carries(q[1..], s[LANES..])
  }

  lemma CarriesOne(b: Beat, s: seq<byte>)
    requires b.last && 1 <= |s| && Holds(b, s)
    ensures Carries([b], s)
  {
  }

  lemma CarriesMore(b: Beat, q: seq<Beat>, s: seq<byte>, t: seq<byte>)
    requires !b.last && |s| == LANES && Holds(b, s) && Carries(q, t)
    ensures Carries([b] + q, s + t)
  {
    hide Holds;
    assert ([b] + q)[1..] == q;
    assert (s + t)[..LANES] == s && (s + t)[LANES..] == t;
    CarriesSome(q, t);
  }

  lemma CarriesSome(q: seq<Beat>, s: seq<byte>)
    requires Carries(q, s)
    ensures q != [] && |s| >= 1
    ensures |q| == 1 <==> q[0].last
    ensures |q| == 1 ==> |s| <= LANES && Holds(q[0], s)
    ensures |q| > 1 ==> |s| > LANES && Holds(q[0], s[..LANES]) && Carries(q[1..], s[LANES..])
  {
  }

  /** The tail of one word and the head of the next, at a byte offset. */
  function ConcatTwoWords(cur: Beat, prev: Beat, byteOffset: nat, last: bool): Beat
    requires byteOffset < LANES
  {
    if byteOffset == 0 then Beat(cur.data, cur.keep, last)
    else Beat(prev.data[byteOffset..] + cur.data[..byteOffset], prev.keep[byteOffset..] + cur.keep[..byteOffset], last)
  }

  /** The head of one word and, above it, the head of the next. */
  function MergeTwoWordsHead(cur: Beat, prev: Beat, byteOffset: nat, last: bool): Beat
    requires byteOffset < LANES
  {
    if byteOffset == 0 then Beat(cur.data, cur.keep, last)
    else Beat(prev.data[..byteOffset] + cur.data[..LANES - byteOffset],
              prev.keep[..byteOffset] + cur.keep[..LANES - byteOffset], last)
  }

  /** A full word's tail and the head of the next word, joined: as many bytes as fit. */
  lemma ConcatHolds(cur: Beat, prev: Beat, k: nat, last: bool, c: seq<byte>, p: seq<byte>)
    requires 0 < k < LANES && Holds(cur, c) && Holds(prev, p) && |p| == LANES
    ensures var n := Min(k, |c|);
            Holds(ConcatTwoWords(cur, prev, k, last), p[k..] + c[..n])
  {
    var n := Min(k, |c|);
    var b, s := ConcatTwoWords(cur, prev, k, last), p[k..] + c[..n];
    assert forall i :: 0 <= i < LANES ==> b.keep[i] == (i < |s|);
    assert forall i :: 0 <= i < |s| ==> b.data[i] == s[i];
  }

  /** What is left of a word above the offset, once no word follows. */
  lemma TailHolds(prev: Beat, k: nat, p: seq<byte>)
    requires 0 < k < LANES && Holds(prev, p) && k <= |p|
    ensures Holds(ConcatTwoWords(EmptyBeat(), prev, k, true), p[k..])
  {
    var b, s := ConcatTwoWords(EmptyBeat(), prev, k, true), p[k..];
    assert forall i :: 0 <= i < LANES ==> b.keep[i] == (i < |s|);
    assert forall i :: 0 <= i < |s| ==> b.data[i] == s[i];
  }

  /** The keep bit at an offset says whether the beat holds more bytes than that. */
  lemma KeepBit(b: Beat, k: nat, s: seq<byte>)
    requires Holds(b, s) && k < LANES
    ensures b.keep[k] <==> k < |s|
  {
  }

  // ---------- Realignment of whole packets ----------

  /** Joins every word's tail, above byte offset `k`, with the head of the next word. */
  function ShiftDown(prev: Beat, k: nat, q: seq<Beat>): seq<Beat>
    requires 0 < k < LANES
    decreases |q|
  {
    if q == [] then []
    else
      var b := q[0];
      var extra := b.last && b.keep[k];
      [ConcatTwoWords(b, prev, k, b.last && !extra)] +
      (if !b.last then ShiftDown(b, k, q[1..])
       else if extra then [ConcatTwoWords(EmptyBeat(), b, k, true)]
       else [])
  }

  lemma ShiftDownHead(prev: Beat, k: nat, q: seq<Beat>)
    requires 0 < k < LANES && q != []
    ensures var b := q[0];
            var extra := b.last && b.keep[k];
            ShiftDown(prev, k, q) ==
              [ConcatTwoWords(b, prev, k, b.last && !extra)] +
              (if !b.last then ShiftDown(b, k, q[1..])
               else if extra then [ConcatTwoWords(EmptyBeat(), b, k, true)]
               else [])
  {
  }

  /** The same with what has gone out before. */
  lemma ShiftDownTaken(done: seq<Beat>, prev: Beat, k: nat, q: seq<Beat>)
    requires 0 < k < LANES && q != []
    ensures var b := q[0];
            var extra := b.last && b.keep[k];
            var w := ConcatTwoWords(b, prev, k, b.last && !extra);
            done + ShiftDown(prev, k, q) ==
            if !b.last then (done + [w]) + ShiftDown(b, k, q[1..])
            else if extra then (done + [w]) + [ConcatTwoWords(EmptyBeat(), b, k, true)]
            else done + [w]
  {
    hide ConcatTwoWords, ShiftDown;
    ShiftDownHead(prev, k, q);
  }

  lemma ShiftDownEnds(prev: Beat, k: nat, q: seq<Beat>, p: seq<byte>, s: seq<byte>)
    requires 0 < k < LANES && Holds(prev, p) && |p| == LANES && Carries(q, s) && |q| == 1
    ensures Carries(ShiftDown(prev, k, q), p[k..] + s)
  {
    hide ShiftDown, ConcatTwoWords, Carries;
    var b := q[0];
    CarriesSome(q, s);
    ShiftDownHead(prev, k, q);
    KeepBit(b, k, s);
    ConcatHolds(b, prev, k, !(k < |s|), s, p);
    ConcatLast(b, prev, k, !(k < |s|));
    if k < |s| {
      TailHolds(b, k, s);
      ConcatLast(EmptyBeat(), b, k, true);
      hide Holds;
      CarriesOne(ConcatTwoWords(EmptyBeat(), b, k, true), s[k..]);
      CarriesMore(ConcatTwoWords(b, prev, k, false), [ConcatTwoWords(EmptyBeat(), b, k, true)],
                  p[k..] + s[..k], s[k..]);
      assert (p[k..] + s[..k]) + s[k..] == p[k..] + s;
    } else {
      hide Holds;
      assert s[..|s|] == s;
      CarriesOne(ConcatTwoWords(b, prev, k, true), p[k..] + s);
      assert ShiftDown(prev, k, q) == [ConcatTwoWords(b, prev, k, true)];
    }
  }

  lemma ConcatLast(cur: Beat, prev: Beat, k: nat, last: bool)
    requires k < LANES
    ensures ConcatTwoWords(cur, prev, k, last).last == last
  {
  }

  /** Shifting down removes exactly the bytes below the offset of the first word. */
  lemma {:induction false} ShiftDownCarries(prev: Beat, k: nat, q: seq<Beat>, p: seq<byte>, s: seq<byte>)
    requires 0 < k < LANES && Holds(prev, p) && |p| == LANES && Carries(q, s)
    ensures Carries(ShiftDown(prev, k, q), p[k..] + s)
    decreases |q|
  {
    hide ShiftDown, Holds, Carries, ConcatTwoWords;
    CarriesSome(q, s);
    if |q| == 1 {
      ShiftDownEnds(prev, k, q, p, s);
    } else {
      ShiftDownHead(prev, k, q);
      ConcatHolds(q[0], prev, k, false, s[..LANES], p);
      ConcatLast(q[0], prev, k, false);
      ShiftDownCarries(q[0], k, q[1..], s[..LANES], s[LANES..]);
      assert s[..LANES][..k] == s[..k] && s[..LANES][k..] + s[LANES..] == s[k..];
      CarriesMore(ConcatTwoWords(q[0], prev, k, false), ShiftDown(q[0], k, q[1..]), p[k..] + s[..k], s[k..]);
      assert (p[k..] + s[..k]) + s[k..] == p[k..] + s;
    }
  }

  /** `k` low lanes that wait to be sent in front of the next word. */
  datatype Head = Head(data: seq<byte>, keep: seq<bool>)

  ghost predicate HeadHolds(h: Head, k: nat, s: seq<byte>) {
    |h.data| == |h.keep| == k && |s| <= k && h.data[..|s|] == s && h.keep == seq(k, i => i < |s|)
  }

  function Prepend(h: Head, k: nat, b: Beat, last: bool): Beat
    requires |h.data| == |h.keep| == k <= LANES
  {
    Beat(h.data + b.data[..LANES - k], h.keep + b.keep[..LANES - k], last)
  }

  function Remainder(k: nat, b: Beat): Head
    requires k <= LANES
  {
    Head(b.data[LANES - k..], b.keep[LANES - k..])
  }

  /** Puts `k` bytes in front of a packet and moves everything else up. */
  function ShiftUp(h: Head, k: nat, q: seq<Beat>): seq<Beat>
    requires |h.data| == |h.keep| == k && 0 < k < LANES
    decreases |q|
  {
    if q == [] then []
    else
      var b := q[0];
      var extra := b.last && b.keep[LANES - k];
      [Prepend(h, k, b, b.last && !extra)] +
      (if !b.last then ShiftUp(Remainder(k, b), k, q[1..])
       else if extra then [Prepend(Remainder(k, b), k, EmptyBeat(), true)]
       else [])
  }

  lemma ShiftUpHead(h: Head, k: nat, q: seq<Beat>)
    requires |h.data| == |h.keep| == k && 0 < k < LANES && q != []
    ensures var b := q[0];
            var extra := b.last && b.keep[LANES - k];
            ShiftUp(h, k, q) ==
              [Prepend(h, k, b, b.last && !extra)] +
              (if !b.last then ShiftUp(Remainder(k, b), k, q[1..])
               else if extra then [Prepend(Remainder(k, b), k, EmptyBeat(), true)]
               else [])
  {
  }

  lemma PrependHolds(h: Head, k: nat, b: Beat, last: bool, p: seq<byte>, s: seq<byte>)
    requires 0 < k < LANES && HeadHolds(h, k, p) && |p| == k && Holds(b, s)
    ensures var n := Min(LANES - k, |s|);
            && Holds(Prepend(h, k, b, last), p + s[..n])
            && HeadHolds(Remainder(k, b), k, s[n..])
  {
    var n := Min(LANES - k, |s|);
    var c, t := Prepend(h, k, b, last), p + s[..n];
    assert forall i :: 0 <= i < LANES ==> c.keep[i] == (i < |t|);
    assert forall i :: 0 <= i < |t| ==> c.data[i] == t[i];
    var r := Remainder(k, b);
    assert forall i :: 0 <= i < k ==> r.keep[i] == (i < |s[n..]|);
    assert forall i :: 0 <= i < |s[n..]| ==> r.data[i] == s[n..][i];
  }

  /** The remainder alone, once no word follows. */
  lemma LastPrependHolds(h: Head, k: nat, p: seq<byte>)
    requires 0 < k < LANES && HeadHolds(h, k, p)
    ensures Holds(Prepend(h, k, EmptyBeat(), true), p)
  {
    var c := Prepend(h, k, EmptyBeat(), true);
    assert forall i :: 0 <= i < LANES ==> c.keep[i] == (i < |p|);
    assert forall i :: 0 <= i < |p| ==> c.data[i] == p[i];
  }

  lemma ShiftUpEnds(h: Head, k: nat, q: seq<Beat>, p: seq<byte>, s: seq<byte>)
    requires 0 < k < LANES && HeadHolds(h, k, p) && |p| == k && Carries(q, s) && |q| == 1
    ensures Carries(ShiftUp(h, k, q), p + s)
  {
    hide ShiftUp, Carries, LowKeep;
    var b := q[0];
    CarriesSome(q, s);
    ShiftUpHead(h, k, q);
    KeepBit(b, LANES - k, s);
    var extra := LANES - k < |s|;
    PrependHolds(h, k, b, !extra, p, s);
    if extra {
      LastPrependHolds(Remainder(k, b), k, s[LANES - k..]);
      hide Holds, HeadHolds;
      CarriesOne(Prepend(Remainder(k, b), k, EmptyBeat(), true), s[LANES - k..]);
      CarriesMore(Prepend(h, k, b, false), [Prepend(Remainder(k, b), k, EmptyBeat(), true)],
                  p + s[..LANES - k], s[LANES - k..]);
      assert (p + s[..LANES - k]) + s[LANES - k..] == p + s;
    } else {
      hide Holds, HeadHolds;
      assert s[..|s|] == s;
      CarriesOne(Prepend(h, k, b, true), p + s);
      assert ShiftUp(h, k, q) == [Prepend(h, k, b, true)];
    }
  }

  /** Shifting up puts exactly the head's bytes in front. */
  lemma {:induction false} ShiftUpCarries(h: Head, k: nat, q: seq<Beat>, p: seq<byte>, s: seq<byte>)
    requires 0 < k < LANES && HeadHolds(h, k, p) && |p| == k && Carries(q, s)
    ensures Carries(ShiftUp(h, k, q), p + s)
    decreases |q|
  {
    hide ShiftUp, Holds, Carries, Prepend, Remainder;
    CarriesSome(q, s);
    if |q| == 1 {
      ShiftUpEnds(h, k, q, p, s);
    } else {
      ShiftUpHead(h, k, q);
      PrependHolds(h, k, q[0], false, p, s[..LANES]);
      PrependLast(h, k, q[0], false);
      ShiftUpCarries(Remainder(k, q[0]), k, q[1..], s[..LANES][LANES - k..], s[LANES..]);
      assert s[..LANES][..LANES - k] == s[..LANES - k];
      assert s[..LANES][LANES - k..] + s[LANES..] == s[LANES - k..];
      CarriesMore(Prepend(h, k, q[0], false), ShiftUp(Remainder(k, q[0]), k, q[1..]),
                  p + s[..LANES - k], s[LANES - k..]);
      assert (p + s[..LANES - k]) + s[LANES - k..] == p + s;
    }
  }

  lemma PrependLast(h: Head, k: nat, b: Beat, last: bool)
    requires |h.data| == |h.keep| == k <= LANES
    ensures Prepend(h, k, b, last).last == last
  {
  }

  /** Takes `k` bytes off the front of a packet and moves everything else down. */
  function RemoveHead(k: nat, q: seq<Beat>): seq<Beat>
    requires 0 < k < LANES
  {
    if q == [] then []
    else if q[0].last then [ConcatTwoWords(EmptyBeat(), q[0], k, true)]
    else ShiftDown(q[0], k, q[1..])
  }

  /** Exactly the first `k` bytes of every packet that has more. */
  lemma RemoveHeadCarries(k: nat, q: seq<Beat>, s: seq<byte>)
    requires 0 < k < LANES && Carries(q, s) && |s| > k
    ensures Carries(RemoveHead(k, q), s[k..])
  {
    hide Carries, Holds, ShiftDown, ConcatTwoWords;
    CarriesSome(q, s);
    if |q| == 1 {
      TailHolds(q[0], k, s);
      ConcatLast(EmptyBeat(), q[0], k, true);
      CarriesOne(ConcatTwoWords(EmptyBeat(), q[0], k, true), s[k..]);
    } else {
      ShiftDownCarries(q[0], k, q[1..], s[..LANES], s[LANES..]);
      assert s[..LANES][k..] + s[LANES..] == s[k..];
    }
  }

  /** The low `k` lanes of a word. */
  function HeadOf(b: Beat, k: nat): Head
    requires k <= LANES
  {
    Head(b.data[..k], b.keep[..k])
  }

  lemma MergeIsPrepend(b: Beat, prev: Beat, k: nat, last: bool)
    requires 0 < k < LANES
    ensures MergeTwoWordsHead(b, prev, k, last) == Prepend(HeadOf(prev, k), k, b, last)
    ensures ConcatTwoWords(b, prev, LANES - k, last) == Prepend(Remainder(k, prev), k, b, last)
  {
  }

  lemma HeadOfHolds(b: Beat, k: nat, s: seq<byte>)
    requires Holds(b, s) && k <= |s|
    ensures HeadHolds(HeadOf(b, k), k, s[..k])
  {
  }

  lemma HeadLength(b: Beat, k: nat)
    requires k <= LANES
    ensures |HeadOf(b, k).data| == |HeadOf(b, k).keep| == k
    ensures |Remainder(k, b).data| == |Remainder(k, b).keep| == k
  {
  }

  // ---------- Packets and their bytes ----------

  /** A well-formed packet has one length and one content. */
  lemma {:induction false} OneContent(q: seq<Beat>, s: seq<byte>, t: seq<byte>)
    requires Carries(q, s) && Carries(q, t)
    ensures s == t
    decreases |q|
  {
    hide Carries, Holds;
    CarriesSome(q, s);
    CarriesSome(q, t);
    if |q| == 1 {
      OneBeatContent(q[0], s, t);
    } else {
      OneBeatContent(q[0], s[..LANES], t[..LANES]);
      OneContent(q[1..], s[LANES..], t[LANES..]);
      assert s == s[..LANES] + s[LANES..] && t == t[..LANES] + t[LANES..];
    }
  }

  lemma OneBeatContent(b: Beat, s: seq<byte>, t: seq<byte>)
    requires Holds(b, s) && Holds(b, t)
    ensures s == t
  {
    if |s| < LANES {
      KeepBit(b, |s|, s);
      KeepBit(b, |s|, t);
    }
    if |t| < LANES {
      KeepBit(b, |t|, s);
      KeepBit(b, |t|, t);
    }
  }

  lemma {:induction false} CarriesLast(q: seq<Beat>, s: seq<byte>)
    requires Carries(q, s)
    ensures q != [] && q[|q| - 1].last
    decreases |q|
  {
    hide Holds, Carries;
    CarriesSome(q, s);
    if |q| > 1 { CarriesLast(q[1..], s[LANES..]); }
  }

  /** A word whose low lanes hold these bytes. */
  function PackBeat(s: seq<byte>, last: bool): (b: Beat)
    requires |s| <= LANES
    ensures Holds(b, s) && b.last == last
  {
    Beat(s + seq(LANES - |s|, i => 0), LowKeep(|s|), last)
  }

  /** Every run of bytes but the empty one has a packet. */
  function Pack(s: seq<byte>): (q: seq<Beat>)
    requires s != []
    ensures Carries(q, s)
  {
    if |s| <= LANES then
      CarriesOne(PackBeat(s, true), s);
      [PackBeat(s, true)]
    else
      CarriesMore(PackBeat(s[..LANES], false), Pack(s[LANES..]), s[..LANES], s[LANES..]);
      assert s[..LANES] + s[LANES..] == s;
      [PackBeat(s[..LANES], false)] + Pack(s[LANES..])
  }
}
