/** The Ethernet header is put in front of every IP packet on its way out, and taken off every
    frame on its way in; both realign 64-byte words by 14 bytes.
 */
module EthernetFraming {
  import opened Words
  import opened Beats

  const MAC_HEADER: nat := 14

  /** Destination, source, and the type of IPv4. */
  function MacHeader(destination: seq<byte>, source: seq<byte>): (h: seq<byte>)
    requires |destination| == |source| == 6
    ensures |h| == MAC_HEADER && h[..6] == destination && h[6..12] == source && h[12..] == [0x08, 0x00]
  {
    destination + source + [0x08, 0x00]
  }

  function HeaderHead(h: seq<byte>): Head
    requires |h| == MAC_HEADER
  {
    Head(h, seq(MAC_HEADER, i => true))
  }

  /** The frame for a packet whose destination was found. */
  function Insert(h: seq<byte>, q: seq<Beat>): seq<Beat>
    requires |h| == MAC_HEADER
  {
    ShiftUp(HeaderHead(h), MAC_HEADER, q)
  }

  /** What a frame that is not ARP becomes. */
  function Strip(q: seq<Beat>): seq<Beat> {
    RemoveHead(MAC_HEADER, q)
  }

  /** Inserting puts exactly the 14 header bytes in front, as a well-formed packet. */
  lemma InsertCarries(h: seq<byte>, q: seq<Beat>, s: seq<byte>)
    requires |h| == MAC_HEADER && Carries(q, s)
    ensures Carries(Insert(h, q), h + s)
  {
    assert seq(MAC_HEADER, i => true) == seq(MAC_HEADER, i => i < |h|);
    ShiftUpCarries(HeaderHead(h), MAC_HEADER, q, h, s);
  }

  /** Stripping removes exactly the first 14 bytes of every frame that has more. */
  lemma StripCarries(q: seq<Beat>, s: seq<byte>)
    requires Carries(q, s) && |s| > MAC_HEADER
    ensures Carries(Strip(q), s[MAC_HEADER..])
  {
    RemoveHeadCarries(MAC_HEADER, q, s);
  }

  /** Inserting and then stripping gives back every packet: its bytes, its keep masks and its one
      `last`, whatever its length and however many extra words the two modules add. */
  lemma InsertThenStrip(h: seq<byte>, q: seq<Beat>, s: seq<byte>)
    requires |h| == MAC_HEADER && Carries(q, s)
    ensures Carries(Strip(Insert(h, q)), s)
  {
    hide Carries, Strip, Insert;
    CarriesSome(q, s);
    InsertCarries(h, q, s);
    StripCarries(Insert(h, q), h + s);
    assert (h + s)[MAC_HEADER..] == s;
  }

  /** Two well-formed packets with the same bytes agree word by word in keep and last, and in every
      lane that is kept. */
  ghost predicate SameWords(a: seq<Beat>, b: seq<Beat>) {
    && |a| == |b|
    && forall i :: 0 <= i < |a| ==>
         a[i].keep == b[i].keep && a[i].last == b[i].last &&
         forall j :: 0 <= j < LANES && a[i].keep[j] ==> a[i].data[j] == b[i].data[j]
  }

  lemma {:induction false} BytesDetermineWords(a: seq<Beat>, b: seq<Beat>, s: seq<byte>)
    requires Carries(a, s) && Carries(b, s)
    ensures SameWords(a, b)
    decreases |a|
  {
    CarriesSome(a, s);
    CarriesSome(b, s);
    SameHeads(a[0], b[0], if |a| == 1 then s else s[..LANES]);
    if |a| > 1 {
      BytesDetermineWords(a[1..], b[1..], s[LANES..]);
      hide Carries, Holds;
      forall i | 0 < i < |a|
        ensures a[i].keep == b[i].keep && a[i].last == b[i].last
        ensures forall j :: 0 <= j < LANES && a[i].keep[j] ==> a[i].data[j] == b[i].data[j]
      {
        assert a[i] == a[1..][i - 1] && b[i] == b[1..][i - 1];
      }
    }
  }

  lemma SameHeads(a: Beat, b: Beat, s: seq<byte>)
    requires Holds(a, s) && Holds(b, s)
    ensures a.keep == b.keep && forall j :: 0 <= j < LANES && a.keep[j] ==> a.data[j] == b.data[j]
  {
    forall j | 0 <= j < LANES && a.keep[j] ensures a.data[j] == b.data[j] {
      assert a.data[..|s|][j] == b.data[..|s|][j];
    }
  }

  /** So the round trip gives back the very words, in every lane that counts. */
  lemma RoundTripKeepsWords(h: seq<byte>, q: seq<Beat>, s: seq<byte>)
    requires |h| == MAC_HEADER && Carries(q, s)
    ensures SameWords(Strip(Insert(h, q)), q)
  {
    InsertThenStrip(h, q, s);
    BytesDetermineWords(Strip(Insert(h, q)), q, s);
  }

  // ---------- The modules ----------

  datatype OutState = WaitLookup | DropWords | WriteWords | WriteExtraLastWord

  class EthernetHandleOutput {
    var state: OutState
    var previous: Head
    var frames: seq<Beat>

    ghost predicate Valid()
      reads this
    {
      |previous.data| == |previous.keep| == MAC_HEADER
    }

    constructor ()
      ensures Valid() && state == WaitLookup && frames == []
    {
      state, previous, frames := WaitLookup, Head(seq(14, i => 0), seq(14, i => false)), [];
    }

    /** WAIT_LOOKUP: the ARP table's answer; None is a miss. */
    method Lookup(destination: Option<seq<byte>>, source: seq<byte>)
      requires Valid() && state == WaitLookup && |source| == 6 && (destination.Some? ==> |destination.value| == 6)
      modifies `state, `previous
      ensures Valid() && state == (if destination.Some? then WriteWords else DropWords)
      ensures destination.Some? ==> previous == HeaderHead(MacHeader(destination.value, source))
    {
      match destination
      case Some(mac) =>
        previous := Head(mac + source + [0x08, 0x00], seq(14, i => true));
        state := WriteWords;
      case None =>
        state := DropWords;
    }

    /** WRITE_FIRST_TRANSACTION and WRITE_REMAINING. */
    method WriteWord(b: Beat)
      requires Valid() && state == WriteWords
      modifies this
      ensures Valid() && previous == Remainder(MAC_HEADER, b)
      ensures var extra := b.last && b.keep[50];
              && frames == old(frames) + [Prepend(old(previous), MAC_HEADER, b, b.last && !extra)]
              && state == if !b.last then WriteWords else if extra then WriteExtraLastWord else WaitLookup
    {
      var last := false;
      if b.last {
        if b.keep[50] {
          state := WriteExtraLastWord;
        } else {
          last := true;
          state := WaitLookup;
        }
      }
      frames := frames + [Beat(previous.data + b.data[..50], previous.keep + b.keep[..50], last)];
      previous := Head(b.data[50..], b.keep[50..]);
    }

    method WriteExtra()
      requires Valid() && state == WriteExtraLastWord
      modifies `state, `frames
      ensures Valid() && state == WaitLookup
      ensures frames == old(frames) + [Prepend(previous, MAC_HEADER, EmptyBeat(), true)]
    {
      frames := frames + [Prepend(previous, MAC_HEADER, EmptyBeat(), true)];
      state := WaitLookup;
    }

    /** DROP_IP and DROP_NO_IP. */
    method DropWord(b: Beat)
      requires Valid() && state == DropWords
      modifies `state
      ensures Valid() && state == if b.last then WaitLookup else DropWords
    {
      if b.last {
        state := WaitLookup;
      }
    }

    /** One packet, from the look-up to its last word: framed on a hit, gone on a miss. */
    method SendPacket(destination: Option<seq<byte>>, source: seq<byte>, q: seq<Beat>, ghost s: seq<byte>)
      requires Valid() && state == WaitLookup && |source| == 6 && (destination.Some? ==> |destination.value| == 6)
      requires Carries(q, s)
      modifies this
      ensures Valid() && state == WaitLookup
      ensures frames == old(frames) + if destination.Some? then Insert(MacHeader(destination.value, source), q) else []
    {
      hide Carries, Holds, ShiftUp;
      CarriesSome(q, s);
      Lookup(destination, source);
      var i := 0;
      ghost var left := s;
      ghost var whole := frames + if destination.Some? then ShiftUp(previous, MAC_HEADER, q) else [];
      assert q[0..] == q;
      while i < |q| && (state == WriteWords || state == DropWords)
        invariant 0 <= i <= |q| && Valid()
        invariant state == WriteWords || state == DropWords ==> i < |q| && Carries(q[i..], left)
        invariant destination.None? ==> state != WriteWords && state != WriteExtraLastWord && frames == whole
        invariant destination.Some? ==> state != DropWords
        invariant state == WriteWords ==> frames + ShiftUp(previous, MAC_HEADER, q[i..]) == whole
        invariant state == WriteExtraLastWord ==>
                    frames + [Prepend(previous, MAC_HEADER, EmptyBeat(), true)] == whole
        invariant state == WaitLookup ==> frames == whole
      {
        CarriesSome(q[i..], left);
        assert q[i..][1..] == q[i + 1..];
        if state == WriteWords {
          ShiftUpHead(previous, MAC_HEADER, q[i..]);
          WriteWord(q[i]);
        } else {
          DropWord(q[i]);
        }
        left := if |left| > LANES then left[LANES..] else left;
        i := i + 1;
      }
      if state == WriteExtraLastWord {
        WriteExtra();
      }
    }
  }

  datatype RemoverState = FirstWord | Fwd | Removing | ExtraWord

  class EthernetRemover {
    var state: RemoverState
    var previous: Beat
    var packets: seq<Beat>

    constructor ()
      ensures state == FirstWord && packets == []
    {
      state, previous, packets := FirstWord, EmptyBeat(), [];
    }

    /** One word of a frame; ARP frames pass as they are. */
    method TakeWord(b: Beat, arp: bool)
      requires state != ExtraWord
      modifies this
      ensures previous == if old(state) == Fwd then old(previous) else b
      ensures old(state) == FirstWord && arp ==>
                packets == old(packets) + [b] && state == if b.last then FirstWord else Fwd
      ensures old(state) == FirstWord && !arp ==>
                if b.last then
                  packets == old(packets) + [ConcatTwoWords(EmptyBeat(), b, MAC_HEADER, true)] && state == FirstWord
                else packets == old(packets) && state == Removing
      ensures old(state) == Fwd ==> packets == old(packets) + [b] && state == if b.last then FirstWord else Fwd
      ensures old(state) == Removing ==>
                var extra := b.last && b.keep[MAC_HEADER];
                && packets == old(packets) + [ConcatTwoWords(b, old(previous), MAC_HEADER, b.last && !extra)]
                && state == if !b.last then Removing else if extra then ExtraWord else FirstWord
    {
      match state
      case FirstWord =>
        if arp {
          packets := packets + [b];
          state := if b.last then FirstWord else Fwd;
        } else if b.last {
          packets := packets + [ConcatTwoWords(EmptyBeat(), b, MAC_HEADER, true)];
        } else {
          state := Removing;
        }
        previous := b;
      case Fwd =>
        packets := packets + [b];
        if b.last {
          state := FirstWord;
        }
      case Removing =>
        var last := false;
        if b.last {
          if b.keep[14] {
            state := ExtraWord;
          } else {
            last := true;
            state := FirstWord;
          }
        }
        packets := packets + [ConcatTwoWords(b, previous, MAC_HEADER, last)];
        previous := b;
    }

    method SendExtra()
      requires state == ExtraWord
      modifies `state, `packets
      ensures state == FirstWord
      ensures packets == old(packets) + [ConcatTwoWords(EmptyBeat(), previous, MAC_HEADER, true)]
    {
      packets := packets + [ConcatTwoWords(EmptyBeat(), previous, MAC_HEADER, true)];
      state := FirstWord;
    }

    /** One frame. */
    method TakeFrame(q: seq<Beat>, arp: bool, ghost s: seq<byte>)
      requires state == FirstWord && Carries(q, s)
      modifies this
      ensures state == FirstWord
      ensures packets == old(packets) + if arp then q else Strip(q)
    {
      hide Carries, Holds, ShiftDown, ConcatTwoWords, Rest;
      CarriesSome(q, s);
      ghost var whole := packets + if arp then q else Strip(q);
      FrameStarts(packets, q, arp);
      hide Strip;
      TakeWord(q[0], arp);
      var i := 1;
      ghost var left := if |q| > 1 then s[LANES..] else s;
      while i < |q| && (state == Fwd || state == Removing)
        invariant 1 <= i <= |q|
        invariant state == Fwd || state == Removing ==> i < |q| && Carries(q[i..], left)
        invariant packets + Rest(state, previous, q[i..]) == whole
      {
        CarriesSome(q[i..], left);
        assert q[i..][1..] == q[i + 1..];
        RestTaken(packets, state, previous, q[i..]);
        TakeWord(q[i], arp);
        left := if |left| > LANES then left[LANES..] else left;
        i := i + 1;
      }
      RestEnds(packets, previous, q[i..]);
      if state == ExtraWord {
        SendExtra();
      }
    }
  }

  /** What is still to be sent of a frame. */
  ghost function Rest(state: RemoverState, previous: Beat, q: seq<Beat>): seq<Beat> {
    match state
    case FirstWord => []
    case Fwd => q
    case Removing => ShiftDown(previous, MAC_HEADER, q)
    case ExtraWord => [ConcatTwoWords(EmptyBeat(), previous, MAC_HEADER, true)]
  }

  lemma RestEnds(done: seq<Beat>, previous: Beat, q: seq<Beat>)
    ensures done + Rest(FirstWord, previous, q) == done
    ensures Rest(ExtraWord, previous, q) == [ConcatTwoWords(EmptyBeat(), previous, MAC_HEADER, true)]
  {
  }

  lemma FrameStarts(done: seq<Beat>, q: seq<Beat>, arp: bool)
    requires q != [] && (q[0].last <==> |q| == 1)
    ensures var b := q[0];
            done + (if arp then q else Strip(q)) ==
            if arp then (done + [b]) + Rest(if b.last then FirstWord else Fwd, b, q[1..])
            else if b.last then
              (done + [ConcatTwoWords(EmptyBeat(), b, MAC_HEADER, true)]) + Rest(FirstWord, b, q[1..])
            else done + Rest(Removing, b, q[1..])
  {
    hide ConcatTwoWords, ShiftDown;
  }

  lemma RestTaken(done: seq<Beat>, state: RemoverState, previous: Beat, q: seq<Beat>)
    requires q != [] && (q[0].last <==> |q| == 1)
    ensures var b := q[0];
            var extra := b.last && b.keep[MAC_HEADER];
            && (state == Fwd ==>
                  done + Rest(Fwd, previous, q) ==
                  (done + [b]) + Rest(if b.last then FirstWord else Fwd, previous, q[1..]))
            && (state == Removing ==>
                  done + Rest(Removing, previous, q) ==
                  (done + [ConcatTwoWords(b, previous, MAC_HEADER, b.last && !extra)]) +
                  Rest(if !b.last then Removing else if extra then ExtraWord else FirstWord, b, q[1..]))
  {
    hide ConcatTwoWords, ShiftDown;
    ShiftDownTaken(done, previous, MAC_HEADER, q);
  }
}
