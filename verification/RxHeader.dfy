/** The receive engine's header path: the IP header is cut off and a TCP pseudo header put in its
    place, then the parser reads the TCP header and passes the payload on.
 */
module RxHeader {
  import opened Words
  import opened Beats

  const PSEUDO: nat := 12

  // ---------- Bytes ----------

  function HeaderLength(s: seq<byte>): nat
    requires |s| >= 1
  {
    4 * (s[0] % 16)
  }

  function TotalLength(s: seq<byte>): u16
    requires |s| >= 4
  {
    s[2] as int * 0x100 + s[3]
  }

  /** Source and destination address, a zero, protocol 6, and the TCP length. */
  function PseudoHeader(s: seq<byte>): (h: seq<byte>)
    requires |s| >= 20
    ensures |h| == PSEUDO
  {
    var length := To16(TotalLength(s) - HeaderLength(s));
    s[12..20] + [0x00, 0x06, length / 0x100, length % 0x100]
  }

  // ---------- The pseudo header ----------

  /** RemoveIpHeader moves data and keep by the same amount, except that for a 36-byte header the keep
      bits are taken from 36 instead of 24. */
  function RemoveIpHeader(cur: Beat, prev: Beat, ihl: nat, last: bool): Beat
    requires 5 <= ihl <= 15
  {
    var k := 8 + (ihl - 5) * 4;
    Beat(prev.data[k..] + cur.data[..k],
         if ihl == 9 then prev.keep[36..] + seq(12, i => false) + cur.keep[..24] else prev.keep[k..] + cur.keep[..k],
         last)
  }

  lemma RemoveIsConcat(cur: Beat, prev: Beat, ihl: nat, last: bool)
    requires 5 <= ihl <= 15 && ihl != 9
    ensures RemoveIpHeader(cur, prev, ihl, last) == ConcatTwoWords(cur, prev, 8 + (ihl - 5) * 4, last)
  {
  }

  /** Writes the pseudo header over the first twelve bytes of a word. */
  function Overwrite(b: Beat, h: seq<byte>): Beat
    requires |h| == PSEUDO
  {
    Beat(h + b.data[PSEUDO..], seq(PSEUDO, i => true) + b.keep[PSEUDO..], b.last)
  }

  /** The words of one packet after RxEngTcpPseudoHeaderInsert. */
  function PseudoPacket(q: seq<Beat>, ihl: nat, h: seq<byte>): seq<Beat>
    requires q != [] && 5 <= ihl <= 15 && |h| == PSEUDO
  {
    if q[0].last then [Overwrite(RemoveIpHeader(EmptyBeat(), q[0], ihl, true), h)]
    else OverwriteFirst(Moved(q[0], ihl, q[1..]), h)
  }

  function OverwriteFirst(q: seq<Beat>, h: seq<byte>): seq<Beat>
    requires |h| == PSEUDO
  {
    if q == [] then [] else [Overwrite(q[0], h)] + q[1..]
  }

  /** The remaining words, joined with the tail of the one before. */
  function Moved(prev: Beat, ihl: nat, q: seq<Beat>): seq<Beat>
    requires 5 <= ihl <= 15
    decreases |q|
  {
    if q == [] then []
    else
      var b := q[0];
      var extra := b.last && b.keep[8 + (ihl - 5) * 4];
      [RemoveIpHeader(b, prev, ihl, b.last && !extra)] +
      (if !b.last then Moved(b, ihl, q[1..])
       else if extra then [RemoveIpHeader(EmptyBeat(), b, ihl, true)]
       else [])
  }

  lemma {:induction false} MovedIsShiftDown(prev: Beat, ihl: nat, q: seq<Beat>)
    requires 5 <= ihl <= 15 && ihl != 9
    ensures Moved(prev, ihl, q) == ShiftDown(prev, 8 + (ihl - 5) * 4, q)
    decreases |q|
  {
    hide ConcatTwoWords, RemoveIpHeader;
    if q != [] {
      var b := q[0];
      ShiftDownHead(prev, 8 + (ihl - 5) * 4, q);
      RemoveIsConcat(b, prev, ihl, b.last && !b.keep[8 + (ihl - 5) * 4]);
      RemoveIsConcat(b, prev, ihl, b.last);
      RemoveIsConcat(EmptyBeat(), b, ihl, true);
      if !b.last { MovedIsShiftDown(b, ihl, q[1..]); }
    }
  }

  lemma OverwriteHolds(b: Beat, h: seq<byte>, s: seq<byte>)
    requires |h| == PSEUDO && Holds(b, s) && |s| >= PSEUDO
    ensures Holds(Overwrite(b, h), h + s[PSEUDO..])
  {
    var c, t := Overwrite(b, h), h + s[PSEUDO..];
    assert forall i :: 0 <= i < LANES ==> c.keep[i] == (i < |t|);
    assert forall i :: 0 <= i < |t| ==> c.data[i] == t[i];
  }

  lemma OverwriteLast(b: Beat, h: seq<byte>)
    requires |h| == PSEUDO
    ensures Overwrite(b, h).last == b.last
  {
  }

  lemma OverwriteCarries(q: seq<Beat>, h: seq<byte>, s: seq<byte>)
    requires |h| == PSEUDO && Carries(q, s) && |s| >= PSEUDO
    ensures q != [] && Carries([Overwrite(q[0], h)] + q[1..], h + s[PSEUDO..])
  {
    hide Carries, Holds, Overwrite;
    CarriesSome(q, s);
    OverwriteLast(q[0], h);
    if |q| == 1 {
      OverwriteHolds(q[0], h, s);
      CarriesOne(Overwrite(q[0], h), h + s[PSEUDO..]);
      assert [Overwrite(q[0], h)] + q[1..] == [Overwrite(q[0], h)];
    } else {
      OverwriteHolds(q[0], h, s[..LANES]);
      CarriesMore(Overwrite(q[0], h), q[1..], h + s[..LANES][PSEUDO..], s[LANES..]);
      assert (h + s[..LANES][PSEUDO..]) + s[LANES..] == h + s[PSEUDO..];
    }
  }

  /** Every packet with a valid IP header other than one of 36 bytes leaves as the pseudo header and
      exactly the bytes behind its IP header. */
  lemma PseudoPacketCarries(q: seq<Beat>, s: seq<byte>)
    requires Carries(q, s) && |s| >= 20 && 20 <= HeaderLength(s) <= |s| && HeaderLength(s) != 36
    ensures Carries(PseudoPacket(q, s[0] % 16, PseudoHeader(s)), PseudoHeader(s) + s[HeaderLength(s)..])
  {
    hide Carries, Holds, Moved, RemoveIpHeader, ShiftDown, ConcatTwoWords, Overwrite, PseudoHeader;
    var ihl, h := s[0] % 16, PseudoHeader(s);
    var k := 8 + (ihl - 5) * 4;
    CarriesSome(q, s);
    if q[0].last {
      RemoveIsConcat(EmptyBeat(), q[0], ihl, true);
      TailHolds(q[0], k, s);
      ConcatLast(EmptyBeat(), q[0], k, true);
      var b := ConcatTwoWords(EmptyBeat(), q[0], k, true);
      CarriesOne(b, s[k..]);
      OverwriteCarries([b], h, s[k..]);
      assert [Overwrite(b, h)] + [b][1..] == [Overwrite(b, h)];
    } else {
      MovedIsShiftDown(q[0], ihl, q[1..]);
      ShiftDownCarries(q[0], k, q[1..], s[..LANES], s[LANES..]);
      assert s[..LANES][k..] + s[LANES..] == s[k..];
      OverwriteCarries(ShiftDown(q[0], k, q[1..]), h, s[k..]);
    }
    assert s[k..][PSEUDO..] == s[HeaderLength(s)..];
  }

  /** With an IP header of 36 bytes the keep bits are moved by 36 lanes where the bytes are moved by
      24: lane 28 of the first word is never kept, nor the last of a packet of one word. */
  lemma ThirtySixByteHeaderLosesBytes(q: seq<Beat>, s: seq<byte>)
    requires Carries(q, s) && |s| > 36 && HeaderLength(s) == 36
    ensures !Carries(PseudoPacket(q, 9, PseudoHeader(s)), PseudoHeader(s) + s[36..])
  {
    hide PseudoHeader, Carries, Holds, Moved, TotalLength, PseudoPacket;
    CarriesSome(q, s);
    var p, t := PseudoPacket(q, 9, PseudoHeader(s)), PseudoHeader(s) + s[36..];
    KeptLanes(q, s);
    if Carries(p, t) {
      CarriesSome(p, t);
      var lane := if |s| <= LANES then |t| - 1 else 28;
      KeepBit(p[0], lane, if |p| == 1 then t else t[..LANES]);
      assert false;
    }
  }

  lemma KeptLanes(q: seq<Beat>, s: seq<byte>)
    requires Carries(q, s) && |s| > 36 && HeaderLength(s) == 36
    ensures var p := PseudoPacket(q, 9, PseudoHeader(s));
            p != [] && !p[0].keep[if |s| <= LANES then |s| - 25 else 28]
  {
    hide PseudoHeader, TotalLength;
    CarriesSome(q, s);
    if q[0].last {
      assert |s| <= LANES && q[0].keep == LowKeep(|s|);
    } else {
      assert q[1..] != [];
    }
  }

  lemma BareHeader(q: seq<Beat>, s: seq<byte>)
    requires Carries(q, s) && |s| == HeaderLength(s) == 36
    ensures Carries(PseudoPacket(q, 9, PseudoHeader(s)), PseudoHeader(s) + s[36..])
  {
    hide PseudoHeader, TotalLength;
    CarriesSome(q, s);
    var b := PseudoPacket(q, 9, PseudoHeader(s))[0];
    assert forall i :: 0 <= i < LANES ==> b.keep[i] == (i < PSEUDO);
    assert PseudoHeader(s) + s[36..] == PseudoHeader(s);
    CarriesOne(b, PseudoHeader(s));
  }

  /** A packet with a valid IP header leaves as the pseudo header and exactly the bytes behind its IP
      header if and only if that header is not one of 36 bytes - or nothing is behind it. */
  lemma PseudoPacketCarriesIff(q: seq<Beat>, s: seq<byte>)
    requires Carries(q, s) && |s| >= 20 && 20 <= HeaderLength(s) <= |s|
    ensures Carries(PseudoPacket(q, s[0] % 16, PseudoHeader(s)), PseudoHeader(s) + s[HeaderLength(s)..]) <==>
            HeaderLength(s) != 36 || |s| == 36
  {
    hide Carries, PseudoPacket, PseudoHeader, TotalLength;
    if HeaderLength(s) != 36 {
      PseudoPacketCarries(q, s);
    } else if |s| == 36 {
      BareHeader(q, s);
    } else {
      ThirtySixByteHeaderLosesBytes(q, s);
    }
  }

  // ---------- The parser ----------

  /** What is read from the first word, among it the length of the payload. */
  datatype Meta = Meta(
    srcIp: seq<byte>, destIp: seq<byte>, srcPort: seq<byte>, destPort: seq<byte>,
    seqNumber: u32, ackNumber: u32, dataOffset: nat, flags: byte, winSize: u16, payloadLength: u16)

  function BigEndian16(s: seq<byte>): u16
    requires |s| == 2
  {
    s[0] as int * 0x100 + s[1]
  }

  function BigEndian32(s: seq<byte>): u32
    requires |s| == 4
  {
    s[0] as int * 0x100_0000 + s[1] as int * 0x1_0000 + s[2] as int * 0x100 + s[3]
  }

  function ReadMeta(d: seq<byte>): Meta
    requires |d| >= 32
  {
    var words := d[24] / 16;
    Meta(d[0..4], d[4..8], d[12..14], d[14..16], BigEndian32(d[16..20]), BigEndian32(d[20..24]),
         words, d[25], BigEndian16(d[26..28]), To16(BigEndian16(d[10..12]) - words * 4))
  }

  /** Where the payload starts in a pseudo packet; six bits wide. */
  function PayloadOffset(d: seq<byte>): nat
    requires |d| >= 32
  {
    (d[24] / 16 * 4 + PSEUDO) % LANES
  }

  /** The payload words of one pseudo packet. */
  function PayloadWords(q: seq<Beat>): seq<Beat>
    requires q != [] && PayloadOffset(q[0].data) > 0
  {
    var off := PayloadOffset(q[0].data);
    if ReadMeta(q[0].data).payloadLength == 0 then []
    else if q[0].last then [ConcatTwoWords(EmptyBeat(), q[0], off, true)]
    else ShiftDown(q[0], off, q[1..])
  }

  /** The words behind a pseudo packet's headers carry exactly the bytes behind them. */
  lemma PayloadIs(q: seq<Beat>, off: nat)
    requires q != [] && 0 < off < LANES && PayloadOffset(q[0].data) == off && ReadMeta(q[0].data).payloadLength != 0
    ensures PayloadWords(q) ==
            if q[0].last then [ConcatTwoWords(EmptyBeat(), q[0], off, true)] else ShiftDown(q[0], off, q[1..])
  {
  }

  lemma PayloadCarries(q: seq<Beat>, t: seq<byte>, off: nat)
    requires Carries(q, t) && 0 < off < LANES && off < |t|
    requires q != [] && PayloadOffset(q[0].data) == off && ReadMeta(q[0].data).payloadLength != 0
    ensures Carries(PayloadWords(q), t[off..])
  {
    hide Carries, Holds, ShiftDown, ConcatTwoWords, ReadMeta, PayloadOffset, PayloadWords;
    CarriesSome(q, t);
    PayloadIs(q, off);
    if |q| == 1 {
      TailHolds(q[0], off, t);
      ConcatLast(EmptyBeat(), q[0], off, true);
      CarriesOne(ConcatTwoWords(EmptyBeat(), q[0], off, true), t[off..]);
    } else {
      ShiftDownCarries(q[0], off, q[1..], t[..LANES], t[LANES..]);
      assert t[..LANES][off..] + t[LANES..] == t[off..];
    }
  }

  lemma OffsetIs(d: seq<byte>)
    requires |d| >= 32 && 5 <= d[24] / 16 <= 12
    ensures PayloadOffset(d) == PSEUDO + d[24] / 16 * 4
  {
  }

  lemma NoPayload(q: seq<Beat>)
    requires q != [] && PayloadOffset(q[0].data) > 0 && ReadMeta(q[0].data).payloadLength == 0
    ensures PayloadWords(q) == []
  {
  }

  /** For a pseudo packet whose TCP length is the true one and whose data offset is 5 to 12, the parser
      reports the number of bytes behind the TCP header and passes on exactly those - nothing if
      there are none. */
  lemma ParserSlices(q: seq<Beat>, t: seq<byte>)
    requires Carries(q, t) && 32 <= |t| < WORD_16
    requires 5 <= t[24] / 16 <= 12 && PSEUDO + t[24] / 16 * 4 <= |t|
    requires BigEndian16(t[10..12]) == |t| - PSEUDO
    ensures q != [] && PayloadOffset(q[0].data) == PSEUDO + t[24] / 16 * 4
    ensures ReadMeta(q[0].data) == ReadMeta(t)
    ensures var off := PSEUDO + t[24] / 16 * 4;
            && ReadMeta(t).payloadLength == |t| - off
            && (if |t| == off then PayloadWords(q) == [] else Carries(PayloadWords(q), t[off..]))
  {
    hide Carries, ReadMeta, PayloadOffset, PayloadWords;
    FirstWordReads(q, t);
    ReportedLength(t);
    OffsetIs(q[0].data);
    var off := PSEUDO + t[24] / 16 * 4;
    if |t| > off {
      PayloadCarries(q, t, off);
    } else {
      NoPayload(q);
    }
  }

  lemma ReportedLength(t: seq<byte>)
    requires 32 <= |t| < WORD_16 && 5 <= t[24] / 16 <= 12 && PSEUDO + t[24] / 16 * 4 <= |t|
    requires BigEndian16(t[10..12]) == |t| - PSEUDO
    ensures ReadMeta(t).payloadLength == |t| - (PSEUDO + t[24] / 16 * 4)
  {
  }

  lemma SameSlice(d: seq<byte>, t: seq<byte>, a: nat, b: nat)
    requires |d| >= 32 && |t| >= 32 && d[..32] == t[..32] && a <= b <= 32
    ensures d[a..b] == t[a..b]
  {
    forall i | 0 <= i < b - a ensures d[a..b][i] == t[a..b][i] {
      assert d[..32][a + i] == t[..32][a + i];
    }
  }

  lemma SameMeta(d: seq<byte>, t: seq<byte>)
    requires |d| >= 32 && |t| >= 32 && d[..32] == t[..32]
    ensures ReadMeta(d) == ReadMeta(t) && d[24] == t[24]
  {
    hide BigEndian16, BigEndian32;
    assert d[24] == d[..32][24] == t[..32][24] == t[24];
    assert d[25] == d[..32][25] == t[..32][25] == t[25];
    SameSlice(d, t, 0, 4);
    SameSlice(d, t, 4, 8);
    SameSlice(d, t, 10, 12);
    SameSlice(d, t, 12, 14);
    SameSlice(d, t, 14, 16);
    SameSlice(d, t, 16, 20);
    SameSlice(d, t, 20, 24);
    SameSlice(d, t, 26, 28);
  }

  /** The header fields lie in the first word. */
  lemma FirstWordReads(q: seq<Beat>, t: seq<byte>)
    requires Carries(q, t) && |t| >= 32
    ensures q != [] && ReadMeta(q[0].data) == ReadMeta(t) && q[0].data[24] == t[24]
  {
    hide ReadMeta, Carries;
    CarriesSome(q, t);
    var d := q[0].data;
    var n := Min(|t|, LANES);
    assert d[..n] == t[..n];
    assert d[..32] == d[..n][..32] && t[..32] == t[..n][..32];
    SameMeta(d, t);
  }

  // ---------- Both together ----------

  /** Where the TCP payload of an IP packet starts. */
  function TcpPayloadStart(s: seq<byte>): nat
    requires |s| >= 1 && HeaderLength(s) + 13 <= |s|
  {
    HeaderLength(s) + s[HeaderLength(s) + 12] / 16 * 4
  }

  /** A TCP packet the path is made for: a valid IP header of another length than 36 bytes, a TCP data
      offset of 5 to 12 words, and exactly as many bytes as the IP header says. */
  ghost predicate WellFormed(s: seq<byte>) {
    && |s| >= 40 && |s| == s[2] as int * 0x100 + s[3]
    && var n := 4 * (s[0] % 16);
       && 20 <= n && n + 20 <= |s| && n != 36
       && 5 <= s[n + 12] / 16 <= 12 && n + 4 * (s[n + 12] / 16) <= |s|
  }

  /** What the two modules make of an IP packet: the header fields and the payload words. */
  datatype Parsed = Parsed(meta: Meta, payload: seq<Beat>)

  function HeaderPath(q: seq<Beat>, s: seq<byte>): Option<Parsed>
    requires q != [] && |s| >= 20 && HeaderLength(s) >= 20
  {
    var p := PseudoPacket(q, s[0] % 16, PseudoHeader(s));
    if p == [] || PayloadOffset(p[0].data) == 0 then None
    else Some(Parsed(ReadMeta(p[0].data), PayloadWords(p)))
  }

  lemma TailOf(h: seq<byte>, s: seq<byte>, n: nat, k: nat)
    requires |h| == PSEUDO && n + k <= |s|
    ensures (h + s[n..])[PSEUDO + k..] == s[n + k..]
  {
  }

  /** The parser on a pseudo packet whose bytes behind the pseudo header are those of `s` from `n` on. */
  lemma ParserOnTail(p: seq<Beat>, h: seq<byte>, s: seq<byte>, n: nat, k: nat)
    requires |h| == PSEUDO && n + k <= |s| && 20 <= k <= 48 && |s| - n + PSEUDO < WORD_16
    requires Carries(p, h + s[n..]) && (h + s[n..])[24] / 16 * 4 == k
    requires BigEndian16((h + s[n..])[10..12]) == |s| - n
    ensures p != [] && PayloadOffset(p[0].data) > 0
    ensures ReadMeta(p[0].data) == ReadMeta(h + s[n..]) && ReadMeta(p[0].data).payloadLength == |s| - (n + k)
    ensures if n + k == |s| then PayloadWords(p) == [] else Carries(PayloadWords(p), s[n + k..])
  {
    hide Carries, PayloadWords, ReadMeta, PayloadOffset, BigEndian16;
    ParserSlices(p, h + s[n..]);
    TailOf(h, s, n, k);
  }

  lemma HeaderPathIsParser(q: seq<Beat>, s: seq<byte>, p: seq<Beat>, t: seq<byte>)
    requires q != [] && Carries(q, s) && WellFormed(s)
    requires p == PseudoPacket(q, s[0] % 16, PseudoHeader(s)) && t == PseudoHeader(s) + s[HeaderLength(s)..]
    requires 32 <= |t| < WORD_16 && t[24] == s[HeaderLength(s) + 12] && |t| == |s| - HeaderLength(s) + PSEUDO
    requires BigEndian16(t[10..12]) == |t| - PSEUDO
    ensures p != [] && PayloadOffset(p[0].data) > 0
    ensures ReadMeta(p[0].data) == ReadMeta(t) && ReadMeta(t).payloadLength == |s| - TcpPayloadStart(s)
    ensures if TcpPayloadStart(s) == |s| then PayloadWords(p) == []
            else Carries(PayloadWords(p), s[TcpPayloadStart(s)..])
  {
    hide Carries, PseudoPacket, PayloadWords, ReadMeta, PayloadOffset, BigEndian16, TotalLength;
    PseudoPacketCarries(q, s);
    hide PseudoHeader, HeaderLength;
    ParserOnTail(p, PseudoHeader(s), s, HeaderLength(s), s[HeaderLength(s) + 12] / 16 * 4);
  }

  /** A number of bytes in network order. */
  ghost function Number(s: seq<byte>): nat {
    if s == [] then 0 else 0x100 * Number(s[..|s| - 1]) + s[|s| - 1]
  }

  /** Between the two modules every well-formed packet is the IP addresses, a zero, the protocol and the
      length of the TCP packet, and then that packet. */
  lemma PseudoPacketIs(q: seq<Beat>, s: seq<byte>)
    requires q != [] && Carries(q, s) && WellFormed(s)
    ensures var n := 4 * (s[0] % 16);
            Carries(PseudoPacket(q, s[0] % 16, PseudoHeader(s)),
                    s[12..20] + [0, 6, (|s| - n) / 0x100, (|s| - n) % 0x100] + s[n..])
  {
    PseudoIs(s);
    hide Carries, PseudoPacket, PseudoHeader, TotalLength;
    PseudoPacketCarries(q, s);
  }

  /** The header path slices: for every well-formed packet the parser passes on exactly the bytes behind
      the IP and TCP headers, reports their number, and reads every field from where it stands in the
      packet. */
  lemma HeaderPathSlices(q: seq<Beat>, s: seq<byte>)
    requires q != [] && Carries(q, s) && WellFormed(s)
    ensures HeaderPath(q, s).Some? && Reads(HeaderPath(q, s).value.meta, s, 4 * (s[0] % 16))
    ensures var m, payload := HeaderPath(q, s).value.meta, HeaderPath(q, s).value.payload;
            var start := 4 * (s[0] % 16) + 4 * (s[4 * (s[0] % 16) + 12] / 16);
            && m.payloadLength == |s| - start
            && if start == |s| then payload == [] else Carries(payload, s[start..])
  {
    hide Carries, HeaderPath, PseudoHeader, ReadMeta, TotalLength, Number, Reads;
    StartsAt(s);
    FieldsAreRead(s);
    PathParses(q, s, PseudoHeader(s) + s[HeaderLength(s)..]);
    hide TcpPayloadStart, HeaderLength, WellFormed;
  }

  lemma StartsAt(s: seq<byte>)
    requires WellFormed(s)
    ensures HeaderLength(s) == 4 * (s[0] % 16) && 20 <= HeaderLength(s) && HeaderLength(s) + 20 <= |s|
    ensures TcpPayloadStart(s) == 4 * (s[0] % 16) + 4 * (s[4 * (s[0] % 16) + 12] / 16) <= |s|
  {
  }

  lemma FieldsAreRead(s: seq<byte>)
    requires WellFormed(s)
    ensures var t := PseudoHeader(s) + s[HeaderLength(s)..];
            |t| >= 32 && Reads(ReadMeta(t), s, HeaderLength(s))
  {
    hide PseudoHeader, ReadMeta, Number, TotalLength;
    var t := PseudoHeader(s) + s[HeaderLength(s)..];
    PseudoFields(s, t);
    PseudoPorts(s, t);
  }

  lemma PathParses(q: seq<Beat>, s: seq<byte>, t: seq<byte>)
    requires q != [] && Carries(q, s) && WellFormed(s) && t == PseudoHeader(s) + s[HeaderLength(s)..]
    ensures HeaderPath(q, s).Some? && |t| >= 32
    ensures var m, payload := HeaderPath(q, s).value.meta, HeaderPath(q, s).value.payload;
            && m == ReadMeta(t) && m.payloadLength == |s| - TcpPayloadStart(s)
            && if TcpPayloadStart(s) == |s| then payload == [] else Carries(payload, s[TcpPayloadStart(s)..])
  {
    PseudoFields(s, t);
    hide Carries, PseudoPacket, PseudoHeader, PayloadWords, ReadMeta, PayloadOffset, BigEndian16, BigEndian32,
         TotalLength, Number, TcpPayloadStart;
    HeaderPathIsParser(q, s, PseudoPacket(q, s[0] % 16, PseudoHeader(s)), t);
  }

  /** Every field is the one that stands in the packet, whose TCP header starts at `n`. */
  ghost predicate Reads(m: Meta, s: seq<byte>, n: nat)
    requires 20 <= n && n + 20 <= |s|
  {
    && m.srcIp == s[12..16] && m.destIp == s[16..20]
    && m.srcPort == s[n..n + 2] && m.destPort == s[n + 2..n + 4]
    && m.seqNumber == Number(s[n + 4..n + 8]) && m.ackNumber == Number(s[n + 8..n + 12])
    && m.dataOffset == s[n + 12] / 16 && m.flags == s[n + 13] && m.winSize == Number(s[n + 14..n + 16])
  }

  lemma PseudoIs(s: seq<byte>)
    requires WellFormed(s)
    ensures var n := 4 * (s[0] % 16);
            n == HeaderLength(s) && PseudoHeader(s) == s[12..20] + [0, 6, (|s| - n) / 0x100, (|s| - n) % 0x100]
  {
    var n := 4 * (s[0] % 16);
    assert n == HeaderLength(s) && TotalLength(s) == |s|;
    NoWrap(|s| - n);
    hide TotalLength, HeaderLength, To16;
  }

  lemma NoWrap(x: nat)
    requires x < WORD_16
    ensures To16(x) == x && x / 0x100 < 0x100
  {
  }

  lemma BigEndianIsNumber(s: seq<byte>)
    ensures |s| == 2 ==> BigEndian16(s) == Number(s)
    ensures |s| == 4 ==> BigEndian32(s) == Number(s)
  {
    if |s| == 2 || |s| == 4 {
      assert s[..|s| - 1][..|s| - 2] == s[..|s| - 2];
      assert s[..2][..1] == s[..1] && s[..1][..0] == [];
      assert Number(s[..1]) == s[0];
      assert |s| == 2 ==> s[..2] == s;
    }
  }

  lemma PseudoFields(s: seq<byte>, t: seq<byte>)
    requires WellFormed(s) && t == PseudoHeader(s) + s[HeaderLength(s)..]
    ensures var n := HeaderLength(s);
            && 32 <= |t| < WORD_16 && |t| == |s| - n + PSEUDO && t[24] == s[n + 12]
            && BigEndian16(t[10..12]) == |t| - PSEUDO
            && ReadMeta(t).srcIp == s[12..16] && ReadMeta(t).destIp == s[16..20]
            && ReadMeta(t).seqNumber == Number(s[n + 4..n + 8])
            && ReadMeta(t).ackNumber == Number(s[n + 8..n + 12])
  {
    hide Number;
    var n := HeaderLength(s);
    assert t[0..4] == s[12..16] && t[4..8] == s[16..20];
    assert t[16..20] == s[n + 4..n + 8] && t[20..24] == s[n + 8..n + 12];
    BigEndianIsNumber(s[n + 4..n + 8]);
    BigEndianIsNumber(s[n + 8..n + 12]);
    var length := To16(TotalLength(s) - n);
    assert t[10..12] == [length / 0x100, length % 0x100];
  }

  lemma PseudoPorts(s: seq<byte>, t: seq<byte>)
    requires WellFormed(s) && t == PseudoHeader(s) + s[HeaderLength(s)..] && |t| >= 32
    ensures var m, n := ReadMeta(t), HeaderLength(s);
            && m.srcPort == s[n..n + 2] && m.destPort == s[n + 2..n + 4]
            && m.dataOffset == s[n + 12] / 16 && m.flags == s[n + 13] && m.winSize == Number(s[n + 14..n + 16])
  {
    hide Number, BigEndian32, To16;
    var n := HeaderLength(s);
    assert t[12..14] == s[n..n + 2] && t[14..16] == s[n + 2..n + 4] && t[26..28] == s[n + 14..n + 16];
    BigEndianIsNumber(s[n + 14..n + 16]);
  }

  // ---------- The modules ----------

  /** All that the pseudo header needs stands in the first word. */
  lemma SamePseudo(d: seq<byte>, s: seq<byte>)
    requires |d| >= 20 && |s| >= 20 && d[..20] == s[..20]
    ensures PseudoHeader(d) == PseudoHeader(s) && d[0] == s[0]
  {
    hide To16;
    forall i | 0 <= i < 20 ensures d[i] == s[i] {
      assert d[..20][i] == s[..20][i];
    }
    assert d[12..20] == s[12..20];
  }

  lemma PseudoFromFirstWord(q: seq<Beat>, s: seq<byte>)
    requires Carries(q, s) && |s| >= 20
    ensures q != [] && PseudoHeader(q[0].data) == PseudoHeader(s) && q[0].data[0] == s[0]
  {
    hide PseudoHeader, Carries;
    CarriesSome(q, s);
    var d, n := q[0].data, Min(|s|, LANES);
    assert d[..n] == s[..n];
    assert d[..20] == d[..n][..20] && s[..20] == s[..n][..20];
    SamePseudo(d, s);
  }

  lemma MovedHead(prev: Beat, ihl: nat, q: seq<Beat>)
    requires 5 <= ihl <= 15 && q != []
    ensures var b := q[0];
            var extra := b.last && b.keep[8 + (ihl - 5) * 4];
            Moved(prev, ihl, q) ==
              [RemoveIpHeader(b, prev, ihl, b.last && !extra)] +
              (if !b.last then Moved(b, ihl, q[1..])
               else if extra then [RemoveIpHeader(EmptyBeat(), b, ihl, true)]
               else [])
  {
  }

  /** The words still to come, the first of them under the pseudo header while that is pending. */
  ghost function Rest(pending: bool, prev: Beat, ihl: nat, h: seq<byte>, q: seq<Beat>): seq<Beat>
    requires 5 <= ihl <= 15 && |h| == PSEUDO
  {
    if pending then OverwriteFirst(Moved(prev, ihl, q), h) else Moved(prev, ihl, q)
  }

  lemma PseudoPacketStarts(q: seq<Beat>, ihl: nat, h: seq<byte>)
    requires q != [] && 5 <= ihl <= 15 && |h| == PSEUDO
    ensures PseudoPacket(q, ihl, h) ==
            if q[0].last then [Overwrite(RemoveIpHeader(EmptyBeat(), q[0], ihl, true), h)]
            else Rest(true, q[0], ihl, h, q[1..])
  {
  }

  lemma RestHead(pending: bool, prev: Beat, ihl: nat, h: seq<byte>, q: seq<Beat>)
    requires 5 <= ihl <= 15 && |h| == PSEUDO && q != []
    ensures var b := q[0];
            var extra := b.last && b.keep[8 + (ihl - 5) * 4];
            var word := RemoveIpHeader(b, prev, ihl, b.last && !extra);
            Rest(pending, prev, ihl, h, q) ==
              [if pending then Overwrite(word, h) else word] +
              (if !b.last then Rest(false, b, ihl, h, q[1..])
               else if extra then [RemoveIpHeader(EmptyBeat(), b, ihl, true)]
               else [])
  {
    hide Moved, Overwrite, RemoveIpHeader;
    MovedHead(prev, ihl, q);
  }

  datatype InsertState = IpHeader | TcpPayload | ExtraWord

  class RxEngTcpPseudoHeaderInsert {
    var state: InsertState
    var prev: Beat
    var ihl: nat
    var pseudo: seq<byte>          // the header to insert, from the addresses and lengths read
    var pending: bool              // pseudo_header_not_inserted
    var words: seq<Beat>

    ghost predicate Valid()
      reads this
    {
      |pseudo| == PSEUDO && 5 <= ihl <= 15
    }

    constructor ()
      ensures Valid() && state == IpHeader && words == []
    {
      state, prev, ihl, pseudo, pending, words := IpHeader, EmptyBeat(), 5, seq(PSEUDO, i => 0), false, [];
    }

    /** IP_HEADER */
    method TakeHeader(b: Beat)
      requires Valid() && state == IpHeader && 5 <= b.data[0] % 16
      modifies this
      ensures Valid() && prev == b && ihl == b.data[0] % 16 && pseudo == PseudoHeader(b.data)
      ensures if b.last then
                state == IpHeader &&
                words == old(words) + [Overwrite(RemoveIpHeader(EmptyBeat(), b, ihl, true), pseudo)]
              else state == TcpPayload && words == old(words) && pending
    {
      hide Overwrite, RemoveIpHeader;
      ihl := b.data[0] % 16;
      var length := To16(b.data[2] as int * 0x100 + b.data[3] - ihl * 4);
      pseudo := b.data[12..20] + [0x00, 0x06, length / 0x100, length % 0x100];
      prev := b;
      if b.last {
        words := words + [Overwrite(RemoveIpHeader(EmptyBeat(), b, ihl, true), pseudo)];
      } else {
        pending := true;
        state := TcpPayload;
      }
    }

    /** TCP_PAYLOAD */
    method TakeWord(b: Beat)
      requires Valid() && state == TcpPayload
      modifies `state, `prev, `pending, `words
      ensures Valid() && prev == b && !pending
      ensures var extra := b.last && b.keep[8 + (ihl - 5) * 4];
              var word := RemoveIpHeader(b, old(prev), ihl, b.last && !extra);
              && words == old(words) + [if old(pending) then Overwrite(word, pseudo) else word]
              && state == if !b.last then TcpPayload else if extra then ExtraWord else IpHeader
    {
      hide Overwrite, RemoveIpHeader;
      var last := false;
      if b.last {
        if b.keep[8 + (ihl - 5) * 4] {
          state := ExtraWord;
        } else {
          last := true;
          state := IpHeader;
        }
      }
      var word := RemoveIpHeader(b, prev, ihl, last);
      if pending {
        word := Overwrite(word, pseudo);
      }
      words, prev, pending := words + [word], b, false;
    }

    /** EXTRA_WORD */
    method SendExtra()
      requires Valid() && state == ExtraWord
      modifies `state, `words
      ensures Valid() && state == IpHeader
      ensures words == old(words) + [RemoveIpHeader(EmptyBeat(), prev, ihl, true)]
    {
      words := words + [RemoveIpHeader(EmptyBeat(), prev, ihl, true)];
      state := IpHeader;
    }

    /** One packet. */
    method TakePacket(q: seq<Beat>, ghost s: seq<byte>)
      requires Valid() && state == IpHeader && Carries(q, s) && q != [] && 5 <= q[0].data[0] % 16
      modifies this
      ensures Valid() && state == IpHeader
      ensures words == old(words) + PseudoPacket(q, q[0].data[0] % 16, PseudoHeader(q[0].data))
    {
      hide Carries, Holds, Moved, RemoveIpHeader, Overwrite, PseudoHeader, PseudoPacket, Rest;
      CarriesSome(q, s);
      PseudoPacketStarts(q, q[0].data[0] % 16, PseudoHeader(q[0].data));
      ghost var whole := words + PseudoPacket(q, q[0].data[0] % 16, PseudoHeader(q[0].data));
      TakeHeader(q[0]);
      var i := 1;
      ghost var left := if |q| > 1 then s[LANES..] else s;
      while i < |q| && state == TcpPayload
        invariant 1 <= i <= |q| && Valid()
        invariant state == TcpPayload ==> i < |q| && Carries(q[i..], left)
        invariant state == TcpPayload ==> words + Rest(pending, prev, ihl, pseudo, q[i..]) == whole
        invariant state == ExtraWord ==> words + [RemoveIpHeader(EmptyBeat(), prev, ihl, true)] == whole
        invariant state == IpHeader ==> words == whole
      {
        CarriesSome(q[i..], left);
        assert q[i..][1..] == q[i + 1..];
        RestHead(pending, prev, ihl, pseudo, q[i..]);
        TakeWord(q[i]);
        left := if |left| > LANES then left[LANES..] else left;
        i := i + 1;
      }
      if state == ExtraWord {
        SendExtra();
      }
    }
  }

  datatype ParseState = FirstWord | RemainingWords | LastExtra

  class RxEngParseTcpHeader {
    var state: ParseState
    var prev: Beat
    var offset: nat                // tcp_payload_offset_bytes
    var metas: seq<Meta>
    var payload: seq<Beat>

    ghost predicate Valid()
      reads this
    {
      0 < offset < LANES
    }

    constructor ()
      ensures Valid() && state == FirstWord && metas == [] && payload == []
    {
      state, prev, offset, metas, payload := FirstWord, EmptyBeat(), PSEUDO, [], [];
    }

    /** FIRST_WORD; a data offset of 13 words would make the offset wrap to 0. */
    method TakeHeader(b: Beat)
      requires Valid() && state == FirstWord && PayloadOffset(b.data) > 0
      modifies this
      ensures Valid() && prev == b && offset == PayloadOffset(b.data) && metas == old(metas) + [ReadMeta(b.data)]
      ensures var length := ReadMeta(b.data).payloadLength;
              if b.last then
                state == FirstWord &&
                payload == old(payload) + if length != 0 then [ConcatTwoWords(EmptyBeat(), b, offset, true)] else []
              else state == (if length != 0 then RemainingWords else FirstWord) && payload == old(payload)
    {
      hide BigEndian16, BigEndian32;
      var d := b.data;
      var words := d[24] / 16;
      var length := To16(BigEndian16(d[10..12]) - words * 4);
      offset := (words as int * 4 + PSEUDO) % LANES;
      metas := metas + [Meta(d[0..4], d[4..8], d[12..14], d[14..16], BigEndian32(d[16..20]), BigEndian32(d[20..24]),
                             words, d[25], BigEndian16(d[26..28]), length)];
      if b.last {
        if length != 0 {
          payload := payload + [ConcatTwoWords(EmptyBeat(), b, offset, true)];
        }
      } else if length != 0 {
        state := RemainingWords;
      }
      prev := b;
    }

    /** REMAINING_WORDS */
    method TakeWord(b: Beat)
      requires Valid() && state == RemainingWords
      modifies `state, `prev, `payload
      ensures Valid() && prev == b
      ensures var extra := b.last && b.keep[offset];
              && payload == old(payload) + [ConcatTwoWords(b, old(prev), offset, b.last && !extra)]
              && state == if !b.last then RemainingWords else if extra then LastExtra else FirstWord
    {
      var last := false;
      if b.last {
        if b.keep[offset] {
          state := LastExtra;
        } else {
          last := true;
          state := FirstWord;
        }
      }
      payload, prev := payload + [ConcatTwoWords(b, prev, offset, last)], b;
    }

    /** EXTRA_WORD */
    method SendExtra()
      requires Valid() && state == LastExtra
      modifies `state, `payload
      ensures Valid() && state == FirstWord
      ensures payload == old(payload) + [ConcatTwoWords(EmptyBeat(), prev, offset, true)]
    {
      payload := payload + [ConcatTwoWords(EmptyBeat(), prev, offset, true)];
      state := FirstWord;
    }

    /** One pseudo packet: a header, and the payload words if it announces any. */
    method TakePacket(q: seq<Beat>, ghost t: seq<byte>)
      requires Valid() && state == FirstWord && Carries(q, t) && q != [] && PayloadOffset(q[0].data) > 0
      requires ReadMeta(q[0].data).payloadLength == 0 ==> |q| == 1
      modifies this
      ensures Valid() && state == FirstWord
      ensures metas == old(metas) + [ReadMeta(q[0].data)] && payload == old(payload) + PayloadWords(q)
    {
      hide Carries, Holds, ShiftDown, ConcatTwoWords, ReadMeta, PayloadOffset;
      CarriesSome(q, t);
      ghost var whole := payload + PayloadWords(q);
      TakeHeader(q[0]);
      var i := 1;
      ghost var left := if |q| > 1 then t[LANES..] else t;
      while i < |q| && state == RemainingWords
        invariant 1 <= i <= |q| && Valid()
        invariant state == RemainingWords ==> i < |q| && Carries(q[i..], left)
        invariant metas == old(metas) + [ReadMeta(q[0].data)]
        invariant state == RemainingWords ==> payload + ShiftDown(prev, offset, q[i..]) == whole
        invariant state == LastExtra ==> payload + [ConcatTwoWords(EmptyBeat(), prev, offset, true)] == whole
        invariant state == FirstWord ==> payload == whole
      {
        CarriesSome(q[i..], left);
        assert q[i..][1..] == q[i + 1..];
        ShiftDownHead(prev, offset, q[i..]);
        TakeWord(q[i]);
        left := if |left| > LANES then left[LANES..] else left;
        i := i + 1;
      }
      if state == LastExtra {
        SendExtra();
      }
    }
  }
}
