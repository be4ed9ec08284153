/** The way of an outgoing TCP segment: the payload is put behind its pseudo header and TCP header,
    the pseudo header is taken off again, and the IP header and the checksum are put in.
 */
module TxPacket {
  import opened Words
  import opened Beats
  import Checksums

  const PSEUDO: nat := 12
  const IP_HEADER: nat := 20
  /** Pseudo header and TCP header without options. */
  const HEADERS: nat := 32

  // ---------- TxEngConstructPseudoPacket ----------

  /** Each payload word behind the low half of the word before it. */
  function Merge(prev: Beat, q: seq<Beat>): seq<Beat>
    decreases |q|
  {
    if q == [] then []
    else
      var b := q[0];
      var extra := b.last && b.keep[HEADERS];
      [MergeTwoWordsHead(b, prev, HEADERS, b.last && !extra)] +
      (if !b.last then Merge(b, q[1..])
       else if extra then [ConcatTwoWords(EmptyBeat(), b, HEADERS, true)]
       else [])
  }

  /** The pseudo packet of a segment: header word alone, or followed by the payload. */
  function Assemble(header: Beat, payload: seq<Beat>): seq<Beat> {
    if payload == [] then [header] else Merge(header, payload)
  }

  lemma MergeHead(prev: Beat, q: seq<Beat>)
    requires q != []
    ensures var b := q[0];
            var extra := b.last && b.keep[HEADERS];
            Merge(prev, q) ==
              [MergeTwoWordsHead(b, prev, HEADERS, b.last && !extra)] +
              (if !b.last then Merge(b, q[1..])
               else if extra then [ConcatTwoWords(EmptyBeat(), b, HEADERS, true)]
               else [])
  {
  }

  /** The bytes the words of a segment really carry: in front of every payload word but the first
      comes the first half of the word before it, where its second half belongs. */
  function Merged(p: seq<byte>, s: seq<byte>): (t: seq<byte>)
    requires |p| == HEADERS
    ensures |t| == HEADERS + |s|
    ensures |s| > LANES ==> t[LANES..LANES + HEADERS] == s[..HEADERS]
    decreases |s|
  {
    if |s| <= LANES then p + s else p + s[..HEADERS] + Merged(s[..HEADERS], s[LANES..])
  }

  lemma MergeEnds(prev: Beat, q: seq<Beat>, p: seq<byte>, s: seq<byte>)
    requires HeadHolds(HeadOf(prev, HEADERS), HEADERS, p) && |p| == HEADERS && Carries(q, s) && |q| == 1
    ensures Carries(Merge(prev, q), p + s)
  {
    hide Merge, Carries, ConcatTwoWords, MergeTwoWordsHead, Prepend, HeadOf;
    var b := q[0];
    CarriesSome(q, s);
    MergeHead(prev, q);
    KeepBit(b, HEADERS, s);
    var extra := HEADERS < |s|;
    MergeIsPrepend(b, prev, HEADERS, !extra);
    PrependHolds(HeadOf(prev, HEADERS), HEADERS, b, !extra, p, s);
    PrependLast(HeadOf(prev, HEADERS), HEADERS, b, !extra);
    if extra {
      TailHolds(b, HEADERS, s);
      ConcatLast(EmptyBeat(), b, HEADERS, true);
      hide Holds, HeadHolds;
      CarriesOne(ConcatTwoWords(EmptyBeat(), b, HEADERS, true), s[HEADERS..]);
      CarriesMore(MergeTwoWordsHead(b, prev, HEADERS, false), [ConcatTwoWords(EmptyBeat(), b, HEADERS, true)],
                  p + s[..HEADERS], s[HEADERS..]);
      assert (p + s[..HEADERS]) + s[HEADERS..] == p + s;
    } else {
      hide Holds, HeadHolds;
      assert s[..|s|] == s;
      CarriesOne(MergeTwoWordsHead(b, prev, HEADERS, true), p + s);
      assert Merge(prev, q) == [MergeTwoWordsHead(b, prev, HEADERS, true)];
    }
  }

  /** Whatever the payload, the pseudo packet is well-formed and carries these bytes. */
  lemma {:induction false} MergeCarries(prev: Beat, q: seq<Beat>, p: seq<byte>, s: seq<byte>)
    requires HeadHolds(HeadOf(prev, HEADERS), HEADERS, p) && |p| == HEADERS && Carries(q, s)
    ensures Carries(Merge(prev, q), Merged(p, s))
    decreases |q|
  {
    hide Merge, Carries, Holds, HeadHolds, ConcatTwoWords, MergeTwoWordsHead, Prepend, HeadOf;
    CarriesSome(q, s);
    if |q| == 1 {
      MergeEnds(prev, q, p, s);
    } else {
      var b := q[0];
      MergeHead(prev, q);
      MergeIsPrepend(b, prev, HEADERS, false);
      HeadLength(prev, HEADERS);
      PrependHolds(HeadOf(prev, HEADERS), HEADERS, b, false, p, s[..LANES]);
      PrependLast(HeadOf(prev, HEADERS), HEADERS, b, false);
      HeadOfHolds(b, HEADERS, s[..LANES]);
      assert s[..LANES][..HEADERS] == s[..HEADERS];
      MergeCarries(b, q[1..], s[..HEADERS], s[LANES..]);
      CarriesMore(MergeTwoWordsHead(b, prev, HEADERS, false), Merge(b, q[1..]),
                  p + s[..HEADERS], Merged(s[..HEADERS], s[LANES..]));
    }
  }

  lemma AssembleCarries(h: Beat, q: seq<Beat>, p: seq<byte>, s: seq<byte>)
    requires Holds(h, p) && |p| == HEADERS && Carries(q, s)
    ensures Carries(Assemble(h, q), Merged(p, s))
  {
    hide Merge, Carries, Merged;
    CarriesSome(q, s);
    HeadOfHolds(h, HEADERS, p);
    hide Holds, HeadHolds;
    assert p[..HEADERS] == p;
    MergeCarries(h, q, p, s);
  }

  // ---------- TxEngConstructIpv4Packet ----------

  /** The TCP packet with its checksum in: bytes 16 and 17, and the low bit of byte 18 cleared with
      them, for the range assigned is one bit too wide. */
  function WithChecksum(t: seq<byte>, c: u16): (r: seq<byte>)
    requires |t| >= IP_HEADER
    ensures |r| == |t| && r[..16] == t[..16] && r[19..] == t[19..]
  {
    t[..16] + [c / 0x100, c % 0x100, t[18] - t[18] % 2] + t[19..]
  }

  function FirstWord(ip: seq<byte>, c: u16, b: Beat, last: bool): Beat
    requires |ip| == IP_HEADER
  {
    Beat(ip + b.data[..16] + [c / 0x100, c % 0x100, b.data[18] - b.data[18] % 2] + b.data[19..44],
         seq(IP_HEADER, i => true) + b.keep[..44], last)
  }

  /** The words behind the first. A last word with more than 44 bytes should be followed by an extra
      word, but the state that would send it is left again at once. */
  function IpRest(prev: Beat, q: seq<Beat>): seq<Beat>
    decreases |q|
  {
    if q == [] then []
    else
      var b := q[0];
      [ConcatTwoWords(b, prev, 44, b.last && !b.keep[44])] + (if b.last then [] else IpRest(b, q[1..]))
  }

  function IpPacket(ip: seq<byte>, c: u16, q: seq<Beat>): seq<Beat>
    requires |ip| == IP_HEADER
  {
    if q == [] then []
    else
      var b := q[0];
      var extra := b.last && b.keep[44];
      [FirstWord(ip, c, b, b.last && !extra)] +
      (if extra then [ConcatTwoWords(EmptyBeat(), b, 44, true)] else if b.last then [] else IpRest(b, q[1..]))
  }

  lemma FirstWordHolds(ip: seq<byte>, c: u16, b: Beat, last: bool, t: seq<byte>)
    requires |ip| == IP_HEADER && |t| >= IP_HEADER && Holds(b, t)
    ensures Holds(FirstWord(ip, c, b, last), ip + WithChecksum(t, c)[..Min(44, |t|)])
  {
    var f, s := FirstWord(ip, c, b, last), ip + WithChecksum(t, c)[..Min(44, |t|)];
    assert forall i :: 0 <= i < LANES ==> f.keep[i] == (i < |s|);
    forall i | 0 <= i < |s| ensures f.data[i] == s[i] {
      if i >= IP_HEADER { assert b.data[..|t|][i - IP_HEADER] == t[i - IP_HEADER]; }
      assert b.data[..|t|][18] == t[18];
    }
  }

  /** The length of a packet's last word. */
  function LastWord(n: nat): nat
    requires n > 0
  {
    (n - 1) % LANES + 1
  }

  /** If the last word has at most 44 bytes, the words are the packet moved down; otherwise none of
      them is marked as last. */
  lemma {:induction false} RestIs(prev: Beat, q: seq<Beat>, s: seq<byte>)
    requires Carries(q, s)
    ensures if LastWord(|s|) <= 44 then IpRest(prev, q) == ShiftDown(prev, 44, q)
            else forall b <- IpRest(prev, q) :: !b.last
    ensures IpRest(prev, q) != []
    decreases |q|
  {
    hide Carries, Holds, ShiftDown, ConcatTwoWords;
    CarriesSome(q, s);
    ShiftDownHead(prev, 44, q);
    ConcatLast(q[0], prev, 44, q[0].last && !q[0].keep[44]);
    if |q| == 1 {
      KeepBit(q[0], 44, s);
    } else {
      assert LastWord(|s[LANES..]|) == LastWord(|s|);
      RestIs(q[0], q[1..], s[LANES..]);
    }
  }

  lemma OneWordIp(ip: seq<byte>, c: u16, q: seq<Beat>, t: seq<byte>)
    requires |ip| == IP_HEADER && |t| >= IP_HEADER && Carries(q, t) && |q| == 1
    ensures Carries(IpPacket(ip, c, q), ip + WithChecksum(t, c))
  {
    hide Carries, ConcatTwoWords, FirstWord;
    CarriesSome(q, t);
    var b, u := q[0], WithChecksum(t, c);
    KeepBit(b, 44, t);
    var extra := 44 < |t|;
    FirstWordHolds(ip, c, b, !extra, t);
    FirstWordLast(ip, c, b, !extra);
    if extra {
      TailHolds(b, 44, t);
      ConcatLast(EmptyBeat(), b, 44, true);
      hide Holds, WithChecksum;
      assert t[44..] == u[44..] by { assert t[19..][25..] == t[44..] && u[19..][25..] == u[44..]; }
      CarriesOne(ConcatTwoWords(EmptyBeat(), b, 44, true), t[44..]);
      CarriesMore(FirstWord(ip, c, b, false), [ConcatTwoWords(EmptyBeat(), b, 44, true)], ip + u[..44], t[44..]);
      assert (ip + u[..44]) + u[44..] == ip + u;
    } else {
      hide Holds, WithChecksum;
      assert u[..|t|] == u;
      CarriesOne(FirstWord(ip, c, b, true), ip + u);
      assert IpPacket(ip, c, q) == [FirstWord(ip, c, b, true)];
    }
  }

  lemma FirstWordLast(ip: seq<byte>, c: u16, b: Beat, last: bool)
    requires |ip| == IP_HEADER
    ensures FirstWord(ip, c, b, last).last == last
  {
  }

  lemma ManyWordsIp(ip: seq<byte>, c: u16, q: seq<Beat>, t: seq<byte>)
    requires |ip| == IP_HEADER && Carries(q, t) && |q| > 1
    ensures |t| > LANES
    ensures LastWord(|t|) <= 44 ==> Carries(IpPacket(ip, c, q), ip + WithChecksum(t, c))
    ensures LastWord(|t|) > 44 ==> forall b <- IpPacket(ip, c, q) :: !b.last
  {
    hide Carries, Holds, ConcatTwoWords, FirstWord, ShiftDown, IpRest, WithChecksum, IpPacket, LastWord;
    CarriesSome(q, t);
    FirstWordLast(ip, c, q[0], false);
    RestIs(q[0], q[1..], t[LANES..]);
    LastWordStep(|t|);
    IpPacketHead(ip, c, q);
    if LastWord(|t|) <= 44 { MovedDownIp(ip, c, q, t); }
  }

  lemma LastWordStep(n: nat)
    requires n > LANES
    ensures LastWord(n - LANES) == LastWord(n)
  {
  }

  lemma IpPacketHead(ip: seq<byte>, c: u16, q: seq<Beat>)
    requires |ip| == IP_HEADER && q != [] && !q[0].last
    ensures IpPacket(ip, c, q) == [FirstWord(ip, c, q[0], false)] + IpRest(q[0], q[1..])
  {
  }

  lemma MovedDownIp(ip: seq<byte>, c: u16, q: seq<Beat>, t: seq<byte>)
    requires |ip| == IP_HEADER && Carries(q, t) && |q| > 1
    ensures |t| > LANES
    ensures Carries([FirstWord(ip, c, q[0], false)] + ShiftDown(q[0], 44, q[1..]), ip + WithChecksum(t, c))
  {
    hide Carries, Holds, ConcatTwoWords, FirstWord, ShiftDown, WithChecksum;
    CarriesSome(q, t);
    var b, u := q[0], WithChecksum(t, c);
    FirstWordLast(ip, c, b, false);
    FirstWordHolds(ip, c, b, false, t[..LANES]);
    ChecksumInHead(t, c);
    ShiftDownCarries(b, 44, q[1..], t[..LANES], t[LANES..]);
    assert t[..LANES][44..] + t[LANES..] == t[44..];
    CarriesMore(FirstWord(ip, c, b, false), ShiftDown(b, 44, q[1..]), ip + u[..44], u[44..]);
    assert (ip + u[..44]) + u[44..] == ip + u;
  }

  lemma ChecksumInHead(t: seq<byte>, c: u16)
    requires |t| > LANES
    ensures WithChecksum(t[..LANES], c)[..44] == WithChecksum(t, c)[..44]
    ensures WithChecksum(t, c)[44..] == t[44..]
  {
    var a, b := WithChecksum(t[..LANES], c), WithChecksum(t, c);
    assert forall i :: 0 <= i < 44 ==> a[i] == b[i];
    assert forall i :: 19 <= i < |t| ==> b[i] == t[i];
  }

  /** The IP packet carries the IP header and the TCP packet with its checksum if and only if the TCP
      packet fits one word, or its last word has at most 44 bytes. Otherwise its last bytes are
      missing, and no word of it is marked as the last. */
  lemma IpPacketIff(ip: seq<byte>, c: u16, q: seq<Beat>, t: seq<byte>)
    requires |ip| == IP_HEADER && |t| >= IP_HEADER && Carries(q, t)
    ensures Carries(IpPacket(ip, c, q), ip + WithChecksum(t, c)) <==> |t| <= LANES || LastWord(|t|) <= 44
    ensures |t| > LANES && LastWord(|t|) > 44 ==> forall b <- IpPacket(ip, c, q) :: !b.last
  {
    hide Carries, IpPacket, WithChecksum;
    CarriesSome(q, t);
    if |q| == 1 {
      OneWordIp(ip, c, q, t);
    } else {
      ManyWordsIp(ip, c, q, t);
      if LastWord(|t|) > 44 && Carries(IpPacket(ip, c, q), ip + WithChecksum(t, c)) {
        CarriesLast(IpPacket(ip, c, q), ip + WithChecksum(t, c));
        assert false;
      }
    }
  }

  // ---------- The whole way ----------

  /** What leaves the engine for a header word and a payload. */
  function Send(ip: seq<byte>, c: u16, header: Beat, payload: seq<Beat>): seq<Beat>
    requires |ip| == IP_HEADER
  {
    IpPacket(ip, c, RemoveHead(PSEUDO, Assemble(header, payload)))
  }

  /** A segment without payload leaves as its IP header and its TCP header. */
  lemma EmptySegmentIsIntact(ip: seq<byte>, c: u16, h: Beat, p: seq<byte>)
    requires |ip| == IP_HEADER && Holds(h, p) && HEADERS <= |p| && h.last
    ensures Carries(Send(ip, c, h, []), ip + WithChecksum(p[PSEUDO..], c))
  {
    hide Carries, IpPacket, WithChecksum, RemoveHead;
    CarriesOne(h, p);
    RemoveHeadCarries(PSEUDO, [h], p);
    IpPacketIff(ip, c, RemoveHead(PSEUDO, [h]), p[PSEUDO..]);
  }

  lemma SendCarries(ip: seq<byte>, c: u16, h: Beat, p: seq<byte>, q: seq<Beat>, s: seq<byte>)
    requires |ip| == IP_HEADER && Holds(h, p) && |p| == HEADERS && Carries(q, s)
    ensures var t := Merged(p, s)[PSEUDO..];
            && (Carries(Send(ip, c, h, q), ip + WithChecksum(t, c)) <==> |t| <= LANES || LastWord(|t|) <= 44)
            && (|t| > LANES && LastWord(|t|) > 44 ==> forall b <- Send(ip, c, h, q) :: !b.last)
  {
    hide Carries, Holds, IpPacket, WithChecksum, RemoveHead, Assemble, Merged;
    CarriesSome(q, s);
    AssembleCarries(h, q, p, s);
    RemoveHeadCarries(PSEUDO, Assemble(h, q), Merged(p, s));
    IpPacketIff(ip, c, RemoveHead(PSEUDO, Assemble(h, q)), Merged(p, s)[PSEUDO..]);
  }

  /** Every payload of `n` bytes leaves as it came, behind its headers. */
  ghost predicate Intact(ip: seq<byte>, c: u16, h: Beat, p: seq<byte>, n: nat)
    requires |ip| == IP_HEADER && |p| == HEADERS
  {
    forall q, s :: Carries(q, s) && |s| == n ==> Carries(Send(ip, c, h, q), ip + WithChecksum(p[PSEUDO..] + s, c))
  }

  lemma ShortSegmentIsIntact(ip: seq<byte>, c: u16, h: Beat, p: seq<byte>, q: seq<Beat>, s: seq<byte>)
    requires |ip| == IP_HEADER && Holds(h, p) && |p| == HEADERS && Carries(q, s) && |s| <= LANES
    ensures Carries(Send(ip, c, h, q), ip + WithChecksum(p[PSEUDO..] + s, c))
  {
    hide Carries, Holds, Send, WithChecksum;
    CarriesSome(q, s);
    SendCarries(ip, c, h, p, q, s);
    assert Merged(p, s)[PSEUDO..] == p[PSEUDO..] + s;
  }

  /** A payload whose first word differs in its halves leaves changed if it is longer than a word. */
  lemma LongSegmentIsChanged(ip: seq<byte>, c: u16, h: Beat, p: seq<byte>, q: seq<Beat>, s: seq<byte>)
    requires |ip| == IP_HEADER && Holds(h, p) && |p| == HEADERS && Carries(q, s) && |s| > LANES && s[0] != s[HEADERS]
    ensures !Carries(Send(ip, c, h, q), ip + WithChecksum(p[PSEUDO..] + s, c))
  {
    hide Carries, Holds, Send, WithChecksum;
    SendCarries(ip, c, h, p, q, s);
    var t, u := Merged(p, s)[PSEUDO..], p[PSEUDO..] + s;
    assert t[52] == Merged(p, s)[LANES..LANES + HEADERS][0] == s[0];
    hide Merged;
    if Carries(Send(ip, c, h, q), ip + WithChecksum(u, c)) {
      CarriesLast(Send(ip, c, h, q), ip + WithChecksum(u, c));
      OneContent(Send(ip, c, h, q), ip + WithChecksum(t, c), ip + WithChecksum(u, c));
      BehindChecksum(ip, t, c);
      BehindChecksum(ip, u, c);
      assert false;
    }
  }

  lemma BehindChecksum(ip: seq<byte>, t: seq<byte>, c: u16)
    requires |ip| == IP_HEADER && |t| > 52
    ensures (ip + WithChecksum(t, c))[72] == t[52]
  {
  }

  /** Segments of `n` payload bytes leave the engine intact, whatever they hold, if and only if `n` is
      at most 64, one word of the stream. */
  lemma SegmentsAreIntactIff(ip: seq<byte>, c: u16, h: Beat, p: seq<byte>, n: nat)
    requires |ip| == IP_HEADER && Holds(h, p) && |p| == HEADERS && n > 0
    ensures Intact(ip, c, h, p, n) <==> n <= LANES
  {
    hide Carries, Holds, Send, WithChecksum;
    if n <= LANES {
      forall q, s | Carries(q, s) && |s| == n
        ensures Carries(Send(ip, c, h, q), ip + WithChecksum(p[PSEUDO..] + s, c))
      {
        ShortSegmentIsIntact(ip, c, h, p, q, s);
      }
    } else {
      var s: seq<byte> := seq(n, i => if i == HEADERS then 1 else 0);
      var q := Pack(s);
      LongSegmentIsChanged(ip, c, h, p, q, s);
    }
  }

  /** The checksum computed over the pseudo packet and put into the TCP header makes what is sent
      verify at the receiver, for every payload - also for one that was changed on the way. */
  lemma SentSegmentVerifies(h: Beat, p: seq<byte>, q: seq<Beat>, s: seq<byte>, r: seq<Beat>)
    requires Holds(h, p) && |p| == HEADERS && p[28] == p[29] == p[30] == 0 && Carries(q, s)
    requires var t := Merged(p, s);
             Carries(r, t[..PSEUDO] + WithChecksum(t[PSEUDO..], Checksums.LaneChecksum(Assemble(h, q))))
    ensures Checksums.LaneChecksum(r) == 0
  {
    hide Carries, Holds, Assemble, Checksums.LaneChecksum;
    AssembleCarries(h, q, p, s);
    var t, c := Merged(p, s), Checksums.LaneChecksum(Assemble(h, q));
    MergedStarts(p, s);
    hide Merged;
    assert t[..PSEUDO] + WithChecksum(t[PSEUDO..], c) == t[28 := c / 0x100][29 := c % 0x100];
    hide WithChecksum;
    Checksums.InsertedChecksumVerifies(Assemble(h, q), t, 28, r);
  }

  lemma MergedStarts(p: seq<byte>, s: seq<byte>)
    requires |p| == HEADERS
    ensures Merged(p, s)[..HEADERS] == p
  {
  }

  // ---------- The modules ----------

  datatype AssemblerState = ReadPseudo | ReadPayload | ExtraWord

  class TxEngConstructPseudoPacket {
    var state: AssemblerState
    var prev: Beat
    var packets: seq<Beat>

    constructor ()
      ensures state == ReadPseudo && packets == []
    {
      state, prev, packets := ReadPseudo, EmptyBeat(), [];
    }

    /** READ_PSEUDO */
    method TakeHeader(h: Beat, withPayload: bool)
      requires state == ReadPseudo
      modifies this
      ensures state == if withPayload then ReadPayload else ReadPseudo
      ensures packets == old(packets) + (if withPayload then [] else [h]) && (withPayload ==> prev == h)
    {
      if !withPayload {
        packets := packets + [h];
      } else {
        state := ReadPayload;
        prev := h;
      }
    }

    /** READ_PAYLOAD */
    method TakePayload(b: Beat)
      requires state == ReadPayload
      modifies this
      ensures var extra := b.last && b.keep[HEADERS];
              && packets == old(packets) + [MergeTwoWordsHead(b, old(prev), HEADERS, b.last && !extra)]
              && state == (if !b.last then ReadPayload else if extra then ExtraWord else ReadPseudo)
      ensures prev == b
    {
      var last := b.last;
      if b.last {
        if b.keep[HEADERS] {
          last := false;
          state := ExtraWord;
        } else {
          state := ReadPseudo;
        }
      }
      packets := packets + [MergeTwoWordsHead(b, prev, HEADERS, last)];
      prev := b;
    }

    method SendExtra()
      requires state == ExtraWord
      modifies `state, `packets
      ensures state == ReadPseudo
      ensures packets == old(packets) + [ConcatTwoWords(EmptyBeat(), prev, HEADERS, true)]
    {
      packets := packets + [ConcatTwoWords(EmptyBeat(), prev, HEADERS, true)];
      state := ReadPseudo;
    }

    /** One segment. */
    method TakeSegment(h: Beat, q: seq<Beat>, ghost s: seq<byte>)
      requires state == ReadPseudo && (q != [] ==> Carries(q, s))
      modifies this
      ensures state == ReadPseudo && packets == old(packets) + Assemble(h, q)
    {
      hide Carries, Holds, Merge, ConcatTwoWords, MergeTwoWordsHead;
      ghost var whole := packets + Assemble(h, q);
      TakeHeader(h, q != []);
      var i := 0;
      ghost var left := s;
      assert q[0..] == q;
      while i < |q| && state == ReadPayload
        invariant 0 <= i <= |q|
        invariant state == ReadPayload ==> i < |q| && Carries(q[i..], left) && packets + Merge(prev, q[i..]) == whole
        invariant state == ExtraWord ==> packets + [ConcatTwoWords(EmptyBeat(), prev, HEADERS, true)] == whole
        invariant state == ReadPseudo ==> packets == whole
      {
        CarriesSome(q[i..], left);
        assert q[i..][1..] == q[i + 1..];
        MergeHead(prev, q[i..]);
        TakePayload(q[i]);
        left := if |left| > LANES then left[LANES..] else left;
        i := i + 1;
      }
      if state == ExtraWord {
        SendExtra();
      }
    }
  }

  datatype RemoverState = Read | ReadMorePayload | RemoverExtraWord

  class TxEngRemovePseudoHeader {
    var state: RemoverState
    var prev: Beat
    var packets: seq<Beat>

    constructor ()
      ensures state == Read && packets == []
    {
      state, prev, packets := Read, EmptyBeat(), [];
    }

    /** READ and READ_MORE_PAYLOAD */
    method TakeWord(b: Beat)
      requires state != RemoverExtraWord
      modifies this
      ensures old(state) == Read ==>
                if b.last then
                  packets == old(packets) + [ConcatTwoWords(EmptyBeat(), b, PSEUDO, true)] && state == Read
                else packets == old(packets) && state == ReadMorePayload && prev == b
      ensures old(state) == ReadMorePayload ==>
                var extra := b.last && b.keep[PSEUDO];
                && packets == old(packets) + [ConcatTwoWords(b, old(prev), PSEUDO, b.last && !extra)]
                && state == (if !b.last then ReadMorePayload else if extra then RemoverExtraWord else Read)
                && prev == b
    {
      if state == Read {
        if b.last {
          packets := packets + [ConcatTwoWords(EmptyBeat(), b, PSEUDO, true)];
        } else {
          prev := b;
          state := ReadMorePayload;
        }
      } else {
        var last := false;
        if b.last {
          if b.keep[12] {
            state := RemoverExtraWord;
          } else {
            last := true;
            state := Read;
          }
        }
        packets := packets + [ConcatTwoWords(b, prev, PSEUDO, last)];
        prev := b;
      }
    }

    /** One pseudo packet. */
    method TakePacket(q: seq<Beat>, ghost s: seq<byte>)
      requires state == Read && Carries(q, s)
      modifies this
      ensures state == Read && packets == old(packets) + RemoveHead(PSEUDO, q)
    {
      hide Carries, Holds, ShiftDown, ConcatTwoWords;
      CarriesSome(q, s);
      ghost var whole := packets + RemoveHead(PSEUDO, q);
      TakeWord(q[0]);
      hide RemoveHead;
      var i := 1;
      ghost var left := if |q| > 1 then s[LANES..] else s;
      while i < |q| && state == ReadMorePayload
        invariant 1 <= i <= |q|
        invariant state == ReadMorePayload ==>
                    i < |q| && Carries(q[i..], left) && packets + ShiftDown(prev, PSEUDO, q[i..]) == whole
        invariant state == RemoverExtraWord ==>
                    packets + [ConcatTwoWords(EmptyBeat(), prev, PSEUDO, true)] == whole
        invariant state == Read ==> packets == whole
      {
        CarriesSome(q[i..], left);
        assert q[i..][1..] == q[i + 1..];
        ShiftDownHead(prev, PSEUDO, q[i..]);
        TakeWord(q[i]);
        left := if |left| > LANES then left[LANES..] else left;
        i := i + 1;
      }
      if state == RemoverExtraWord {
        packets := packets + [ConcatTwoWords(EmptyBeat(), prev, PSEUDO, true)];
        state := Read;
      }
    }
  }

  datatype IpState = ReadFirst | ReadRest | IpExtraWord

  class TxEngConstructIpv4Packet {
    var state: IpState
    var prev: Beat
    var packets: seq<Beat>

    constructor ()
      ensures state == ReadFirst && packets == []
    {
      state, prev, packets := ReadFirst, EmptyBeat(), [];
    }

    /** READ_FIRST */
    method TakeFirst(ip: seq<byte>, c: u16, b: Beat)
      requires state == ReadFirst && |ip| == IP_HEADER
      modifies this
      ensures var extra := b.last && b.keep[44];
              && packets == old(packets) + [FirstWord(ip, c, b, b.last && !extra)]
              && state == (if !b.last then ReadRest else if extra then IpExtraWord else ReadFirst)
      ensures prev == b
    {
      var last := false;
      if b.last {
        if b.keep[44] {
          state := IpExtraWord;
        } else {
          last := true;
        }
      } else {
        state := ReadRest;
      }
      packets := packets + [FirstWord(ip, c, b, last)];
      prev := b;
    }

    /** READ_PAYLOAD; at the last word the next state is READ_FIRST, whatever was chosen before. */
    method TakeRest(b: Beat)
      requires state == ReadRest
      modifies this
      ensures packets == old(packets) + [ConcatTwoWords(b, old(prev), 44, b.last && !b.keep[44])]
      ensures state == (if b.last then ReadFirst else ReadRest) && prev == b
    {
      var last := false;
      if b.last {
        if b.keep[44] {
          state := IpExtraWord;
        } else {
          last := true;
        }
        state := ReadFirst;
      }
      packets := packets + [ConcatTwoWords(b, prev, 44, last)];
      prev := b;
    }

    /** One TCP packet. */
    method TakePacket(ip: seq<byte>, c: u16, q: seq<Beat>, ghost s: seq<byte>)
      requires state == ReadFirst && |ip| == IP_HEADER && Carries(q, s)
      modifies this
      ensures state == ReadFirst && packets == old(packets) + IpPacket(ip, c, q)
    {
      hide Carries, Holds, ConcatTwoWords, FirstWord, IpRest;
      CarriesSome(q, s);
      ghost var whole := packets + IpPacket(ip, c, q);
      IpPacketStarts(ip, c, q, packets);
      hide IpPacket;
      TakeFirst(ip, c, q[0]);
      var i := 1;
      ghost var left := if |q| > 1 then s[LANES..] else s;
      while i < |q| && state == ReadRest
        invariant 1 <= i <= |q|
        invariant state == ReadRest ==> i < |q| && Carries(q[i..], left) && packets + IpRest(prev, q[i..]) == whole
        invariant state == IpExtraWord ==> packets + [ConcatTwoWords(EmptyBeat(), prev, 44, true)] == whole
        invariant state == ReadFirst ==> packets == whole
      {
        CarriesSome(q[i..], left);
        assert q[i..][1..] == q[i + 1..];
        IpRestHead(prev, q[i..], packets);
        TakeRest(q[i]);
        left := if |left| > LANES then left[LANES..] else left;
        i := i + 1;
      }
      if state == IpExtraWord {
        packets := packets + [ConcatTwoWords(EmptyBeat(), prev, 44, true)];
        state := ReadFirst;
      }
    }
  }

  lemma IpRestHead(prev: Beat, q: seq<Beat>, done: seq<Beat>)
    requires q != []
    ensures var w := ConcatTwoWords(q[0], prev, 44, q[0].last && !q[0].keep[44]);
            done + IpRest(prev, q) == if q[0].last then done + [w] else (done + [w]) + IpRest(q[0], q[1..])
  {
    hide ConcatTwoWords;
  }

  lemma IpPacketStarts(ip: seq<byte>, c: u16, q: seq<Beat>, done: seq<Beat>)
    requires |ip| == IP_HEADER && q != []
    ensures var b := q[0];
            var extra := b.last && b.keep[44];
            var w := FirstWord(ip, c, b, b.last && !extra);
            done + IpPacket(ip, c, q) ==
            if extra then (done + [w]) + [ConcatTwoWords(EmptyBeat(), b, 44, true)]
            else if b.last then done + [w]
            else (done + [w]) + IpRest(b, q[1..])
  {
    hide ConcatTwoWords, FirstWord, IpRest;
  }
}
