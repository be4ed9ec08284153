/** Reading a stretch of a session's ring: one command for the data mover, or two when the ring's
    end is crossed, and the two blocks joined again into one packet.
 */
module MemoryRead {
  import opened Words
  import opened Beats
  import opened MemoryWrite
  import RingMemory

  /** What the reader is told of a read: whether two blocks come, and how far the first one reaches
      into its last beat. */
  datatype Access = Access(double: bool, byteOffset: u6)

  datatype ReadPhase =
    | ReadAccess
    | NoBreakdown
    | BreakdownBlock0
    | BreakdownAligned
    | FirstMerge
    | BreakdownBlock1
    | ExtraData

  datatype ReadRegs = ReadRegs(phase: ReadPhase, offset0: u6, offset1: u6, prev: Beat)
  datatype ReadStep = ReadStep(next: ReadRegs, out: seq<Beat>)

  /** The bytes from the read's start to the ring's end. */
  function FirstBlock(c: MemCmd): nat { BUFFER_SIZE - Offset(c) }

  function Commands(c: MemCmd): seq<MoverCmd> {
    if Crosses(c) then
      [MoverCmd(DDR_BASE + c.addr, FirstBlock(c)),
       MoverCmd(DDR_BASE + c.addr - Offset(c), (c.length - FirstBlock(c)) % 0x80_0000)]
    else [MoverCmd(DDR_BASE + c.addr, c.length)]
  }

  function AccessOf(c: MemCmd): Access {
    Access(Crosses(c), if Crosses(c) then FirstBlock(c) % LANES else 0)
  }

  function TakeAccess(r: ReadRegs, a: Access): ReadRegs {
    ReadRegs(if a.double then BreakdownBlock0 else NoBreakdown, a.byteOffset, (LANES - a.byteOffset) % LANES, r.prev)
  }

  predicate Reading(phase: ReadPhase) { phase != ReadAccess && phase != ExtraData }

  /** One beat from the data mover. A beat of the first block is passed on only if it is the block's
      last and full; a last beat that is not full waits for the second block. */
  function ReadBeat(r: ReadRegs, b: Beat): ReadStep
    requires Reading(r.phase)
  {
    match r.phase
    case BreakdownBlock0 =>
      if !b.last then ReadStep(r.(prev := b), [])
      else if r.offset0 == 0 then ReadStep(r.(phase := BreakdownAligned, prev := b), [b.(last := false)])
      else ReadStep(r.(phase := FirstMerge, prev := b), [])
    case FirstMerge =>
      var extra := b.last && b.keep[r.offset1];
      ReadStep(r.(phase := if !b.last then BreakdownBlock1 else if extra then ExtraData else ReadAccess, prev := b),
               [MergeTwoWordsHead(b, r.prev, r.offset0, b.last && !extra)])
    case BreakdownBlock1 =>
      var extra := b.last && b.keep[r.offset1];
      ReadStep(r.(phase := if !b.last then BreakdownBlock1 else if extra then ExtraData else ReadAccess, prev := b),
               [ConcatTwoWords(b, r.prev, r.offset1, b.last && !extra)])
    case NoBreakdown | BreakdownAligned =>
      ReadStep(r.(phase := if b.last then ReadAccess else r.phase), [b])
  }

  function ReadExtra(r: ReadRegs): ReadStep {
    ReadStep(r.(phase := ReadAccess), [ConcatTwoWords(EmptyBeat(), r.prev, r.offset1, true)])
  }

  /** Everything passed on for the data mover's beats. */
  function Gather(r: ReadRegs, q: seq<Beat>): ReadStep
    decreases |q|
  {
    if r.phase == ExtraData then ReadExtra(r)
    else if r.phase == ReadAccess || q == [] then ReadStep(r, [])
    else
      var s := ReadBeat(r, q[0]);
      var rest := Gather(s.next, q[1..]);
      ReadStep(rest.next, s.out + rest.out)
  }

  function Read(r: ReadRegs, c: MemCmd, q: seq<Beat>): ReadStep {
    Gather(TakeAccess(r, AccessOf(c)), q)
  }

  lemma GatherMore(r: ReadRegs, b: Beat, q: seq<Beat>)
    requires Reading(r.phase)
    ensures var s := ReadBeat(r, b);
            Gather(r, [b] + q) == ReadStep(Gather(s.next, q).next, s.out + Gather(s.next, q).out)
  {
    hide ReadBeat;
    assert ([b] + q)[1..] == q;
  }

  lemma GatherEnds(r: ReadRegs, q: seq<Beat>)
    ensures r.phase == ReadAccess ==> Gather(r, q) == ReadStep(r, [])
    ensures r.phase == ExtraData ==> Gather(r, q) == ReadExtra(r)
    ensures Reading(r.phase) && q == [] ==> Gather(r, q) == ReadStep(r, [])
  {
  }

  // ---------- The blocks ----------

  /** A single block, or the second after one that ended at a beat's end, passes unchanged. */
  lemma {:induction false} PassesUnchanged(r: ReadRegs, q: seq<Beat>, s: seq<byte>)
    requires (r.phase == NoBreakdown || r.phase == BreakdownAligned) && Carries(q, s)
    ensures Gather(r, q).out == q && Gather(r, q).next.phase == ReadAccess
    decreases |q|
  {
    hide Gather, Holds, Carries;
    CarriesSome(q, s);
    HeadTail(q);
    GatherMore(r, q[0], q[1..]);
    var r' := ReadBeat(r, q[0]).next;
    if |q| == 1 {
      GatherEnds(r', []);
    } else {
      PassesUnchanged(r', q[1..], s[LANES..]);
    }
  }

  /** Of the first block only the last beat is kept. */
  lemma {:induction false} FirstBlockEnds(r: ReadRegs, q: seq<Beat>, s: seq<byte>, rest: seq<Beat>)
    requires r.phase == BreakdownBlock0 && Carries(q, s)
    ensures var b := q[|q| - 1];
            && Holds(b, s[Skipped(|s|)..])
            && var next := r.(phase := if r.offset0 == 0 then BreakdownAligned else FirstMerge, prev := b);
               Gather(r, q + rest) ==
               ReadStep(Gather(next, rest).next,
                        (if r.offset0 == 0 then [b.(last := false)] else []) + Gather(next, rest).out)
    decreases |q|
  {
    hide Gather, Holds, Carries;
    CarriesSome(q, s);
    HeadTail(q);
    GatherMore(r, q[0], q[1..] + rest);
    assert q + rest == [q[0]] + (q[1..] + rest);
    var r' := ReadBeat(r, q[0]).next;
    if |q| == 1 {
      assert q[1..] + rest == rest;
      assert s[Skipped(|s|)..] == s;
    } else {
      FirstBlockEnds(r', q[1..], s[LANES..], rest);
      assert q[1..][|q[1..]| - 1] == q[|q| - 1];
      SkippedStep(|s|);
      assert s[LANES..][Skipped(|s| - LANES)..] == s[Skipped(|s|)..];
      assert [] + Gather(r', q[1..] + rest).out == Gather(r', q[1..] + rest).out;
    }
  }

  /** The bytes of a block of `n` bytes that lie in beats before its last. */
  function Skipped(n: nat): nat
    requires n > 0
  {
    (n - 1) / LANES * LANES
  }

  lemma SkippedStep(n: nat)
    requires n > LANES
    ensures Skipped(n) == Skipped(n - LANES) + LANES
    ensures Skipped(n) < n
  {
  }

  lemma SkippedRest(n: nat)
    requires n > 0
    ensures Skipped(n) < n && n - Skipped(n) == if n % LANES == 0 then LANES else n % LANES
    ensures Skipped(n) == 0 <==> n <= LANES
  {
  }

  /** After a first block that ended amid a beat the second block is moved up behind its last bytes. */
  lemma {:induction false} SecondBlock(r: ReadRegs, q: seq<Beat>, s: seq<byte>)
    requires (r.phase == FirstMerge || r.phase == BreakdownBlock1) && Carries(q, s)
    requires 0 < r.offset0 && r.offset1 == LANES - r.offset0
    ensures Gather(r, q).next.phase == ReadAccess
    ensures Gather(r, q).out ==
            ShiftUp(if r.phase == FirstMerge then HeadOf(r.prev, r.offset0) else Remainder(r.offset0, r.prev),
                    r.offset0, q)
    decreases |q|
  {
    hide Gather, Holds, Carries, ConcatTwoWords, MergeTwoWordsHead, Prepend, ShiftUp, HeadOf, Remainder;
    CarriesSome(q, s);
    HeadTail(q);
    var k := r.offset0;
    var h := if r.phase == FirstMerge then HeadOf(r.prev, k) else Remainder(k, r.prev);
    HeadLength(r.prev, k);
    GatherMore(r, q[0], q[1..]);
    ShiftUpHead(h, k, q);
    var extra := q[0].last && q[0].keep[LANES - k];
    MergeIsPrepend(q[0], r.prev, k, q[0].last && !extra);
    var r' := ReadBeat(r, q[0]).next;
    if |q| == 1 {
      GatherEnds(r', []);
      MergeIsPrepend(EmptyBeat(), q[0], k, true);
    } else {
      SecondBlock(r', q[1..], s[LANES..]);
    }
  }

  // ---------- One read ----------

  /** A read that stays below the ring's end passes on what the data mover delivers. */
  lemma WholeRead(r: ReadRegs, c: MemCmd, q: seq<Beat>, s: seq<byte>)
    requires !Crosses(c) && Carries(q, s)
    ensures Carries(Read(r, c, q).out, s) && Read(r, c, q).next.phase == ReadAccess
  {
    hide Gather, Carries, Crosses;
    PassesUnchanged(TakeAccess(r, AccessOf(c)), q, s);
  }

  /** A read across the ring's end yields one well-formed packet with the last bytes of the first
      block - those in its last beat - and the whole second block. */
  lemma SplitRead(r: ReadRegs, c: MemCmd, p: seq<Beat>, q: seq<Beat>, s: seq<byte>, t: seq<byte>)
    requires Crosses(c) && Carries(p, s) && Carries(q, t) && |s| == FirstBlock(c)
    ensures |s| > 0 && Carries(Read(r, c, p + q).out, s[Skipped(|s|)..] + t)
    ensures Read(r, c, p + q).next.phase == ReadAccess
  {
    hide Gather, Carries, Crosses, Offset, Holds, ShiftUp, Skipped, HeadOf, HeadHolds;
    CarriesSome(p, s);
    SkippedRest(|s|);
    var b, r0 := p[|p| - 1], TakeAccess(r, AccessOf(c));
    var tail := s[Skipped(|s|)..];
    FirstBlockEnds(r0, p, s, q);
    if r0.offset0 == 0 {
      PassesUnchanged(r0.(phase := BreakdownAligned, prev := b), q, t);
      LastCleared(b, tail);
      CarriesMore(b.(last := false), q, tail, t);
    } else {
      SecondBlock(r0.(phase := FirstMerge, prev := b), q, t);
      var rest := Gather(r0.(phase := FirstMerge, prev := b), q).out;
      assert [] + rest == rest;
      assert tail[..|tail|] == tail;
      HeadOfHolds(b, |tail|, tail);
      HeadLength(b, r0.offset0);
      ShiftUpCarries(HeadOf(b, r0.offset0), r0.offset0, q, tail, t);
    }
  }

  lemma LastCleared(b: Beat, s: seq<byte>)
    requires Holds(b, s)
    ensures Holds(b.(last := false), s)
  {
  }

  // ---------- Reading what memory holds ----------

  ghost function Fetch(mem: Flat, m: MoverCmd): seq<byte> {
    seq<byte>(m.bbt, i requires 0 <= i => At(mem, m.saddr + i))
  }

  /** A beat that keeps nothing and ends its packet. */
  ghost predicate Bare(b: Beat) { b.last && b.keep == LowKeep(0) }

  /** The data mover answers every command with one packet of the bytes it names. A command for no
      bytes gets nothing or, if `bare`, one beat that keeps nothing. */
  ghost predicate Answers(mem: Flat, cmds: seq<MoverCmd>, q: seq<Beat>, bare: bool) {
    if cmds == [] then q == []
    else if cmds[0].bbt == 0 then
      if bare then q != [] && Bare(q[0]) && Answers(mem, cmds[1..], q[1..], bare)
      else Answers(mem, cmds[1..], q, bare)
    else exists n :: 0 <= n <= |q| && Carries(q[..n], Fetch(mem, cmds[0])) && Answers(mem, cmds[1..], q[n..], bare)
  }

  lemma AnswersOne(mem: Flat, m: MoverCmd, q: seq<Beat>, bare: bool)
    requires Answers(mem, [m], q, bare) && m.bbt > 0
    ensures Carries(q, Fetch(mem, m))
  {
    hide Carries;
    var n :| 0 <= n <= |q| && Carries(q[..n], Fetch(mem, m)) && Answers(mem, [m][1..], q[n..], bare);
    assert [m][1..] == [];
    assert q[..n] == q;
  }

  lemma AnswersTwo(mem: Flat, m: MoverCmd, k: MoverCmd, q: seq<Beat>, bare: bool) returns (n: nat)
    requires Answers(mem, [m, k], q, bare) && m.bbt > 0
    ensures n <= |q| && Carries(q[..n], Fetch(mem, m)) && Answers(mem, [k], q[n..], bare)
  {
    hide Carries;
    assert [m, k][1..] == [k];
    n :| 0 <= n <= |q| && Carries(q[..n], Fetch(mem, m)) && Answers(mem, [m, k][1..], q[n..], bare);
  }

  function Ring(c: MemCmd): nat { DDR_BASE + c.addr - Offset(c) }

  /** The ring's bytes that a read names. */
  ghost function Named(mem: Flat, c: MemCmd): seq<byte> {
    RingMemory.ReadRing(Session(mem, Ring(c)), Offset(c), c.length)
  }

  lemma NamedByte(mem: Flat, c: MemCmd, i: nat)
    requires i < c.length
    ensures Named(mem, c)[i] ==
            At(mem, Ring(c) + if Offset(c) + i < BUFFER_SIZE then Offset(c) + i else Offset(c) + i - BUFFER_SIZE)
  {
    hide RingMemory.ReadRing;
    var slot := To18(Offset(c) + i);
    assert slot == if Offset(c) + i < BUFFER_SIZE then Offset(c) + i else Offset(c) + i - BUFFER_SIZE;
    assert RingMemory.ByteAt(Session(mem, Ring(c)), slot) == At(mem, Ring(c) + slot);
  }

  /** The commands together name the ring's bytes in order. */
  lemma FetchedIsNamed(mem: Flat, c: MemCmd)
    ensures var m := Commands(c);
            Named(mem, c) == if Crosses(c) then Fetch(mem, m[0]) + Fetch(mem, m[1]) else Fetch(mem, m[0])
  {
    hide Named, At, Offset;
    OffsetSmall(c);
    var m := Commands(c);
    var all := if Crosses(c) then Fetch(mem, m[0]) + Fetch(mem, m[1]) else Fetch(mem, m[0]);
    NamedLength(mem, c);
    forall i | 0 <= i < c.length ensures Named(mem, c)[i] == all[i] {
      NamedByte(mem, c, i);
    }
  }

  lemma OffsetSmall(c: MemCmd)
    ensures 0 <= Offset(c) < BUFFER_SIZE && Offset(c) <= c.addr
  {
  }

  lemma NamedLength(mem: Flat, c: MemCmd)
    ensures |Named(mem, c)| == c.length
  {
  }

  /** The reads that do not end at the ring's end. */
  lemma ReadYieldsElsewhere(r: ReadRegs, c: MemCmd, q: seq<Beat>, mem: Flat, bare: bool)
    requires c.length > 0 && Offset(c) + c.length != BUFFER_SIZE && Answers(mem, Commands(c), q, bare)
    ensures Read(r, c, q).next.phase == ReadAccess
    ensures Carries(Read(r, c, q).out,
                    if Crosses(c) then Named(mem, c)[Skipped(FirstBlock(c))..] else Named(mem, c))
  {
    hide Carries, Read, Named, Offset, Skipped, Answers;
    OffsetSmall(c);
    FetchedIsNamed(mem, c);
    var m := Commands(c);
    if Crosses(c) {
      var n := AnswersTwo(mem, m[0], m[1], q, bare);
      AnswersOne(mem, m[1], q[n..], bare);
      SplitRead(r, c, q[..n], q[n..], Fetch(mem, m[0]), Fetch(mem, m[1]));
      assert q[..n] + q[n..] == q;
      SkippedRest(FirstBlock(c));
      var k := Skipped(FirstBlock(c));
      assert (Fetch(mem, m[0]) + Fetch(mem, m[1]))[k..] == Fetch(mem, m[0])[k..] + Fetch(mem, m[1]);
    } else {
      AnswersOne(mem, m[0], q, bare);
      WholeRead(r, c, q, Fetch(mem, m[0]));
    }
  }

  // ---------- Reads that end at the ring's end ----------

  predicate EndsAtEnd(c: MemCmd) { Offset(c) + c.length == BUFFER_SIZE }

  lemma EmptyAnswer(mem: Flat, m: MoverCmd, q: seq<Beat>, bare: bool)
    requires Answers(mem, [m], q, bare) && m.bbt == 0
    ensures if bare then |q| == 1 && Bare(q[0]) else q == []
  {
    assert [m][1..] == [];
  }

  /** The first block of such a read is all of it; then the reader waits for the second, and gets one
      beat that keeps nothing, or none. */
  lemma EndsInWait(r: ReadRegs, c: MemCmd, q: seq<Beat>, mem: Flat, bare: bool) returns (r1: ReadRegs, e: seq<Beat>)
    requires c.length > 0 && EndsAtEnd(c) && Answers(mem, Commands(c), q, bare)
    ensures r1.offset0 == c.length % LANES && r1.offset1 == (LANES - r1.offset0) % LANES
    ensures r1.phase == (if r1.offset0 == 0 then BreakdownAligned else FirstMerge)
    ensures Holds(r1.prev, Named(mem, c)[Skipped(c.length)..]) && |Named(mem, c)| == c.length
    ensures if bare then |e| == 1 && Bare(e[0]) else e == []
    ensures Read(r, c, q) ==
            ReadStep(Gather(r1, e).next,
                     (if r1.offset0 == 0 then [r1.prev.(last := false)] else []) + Gather(r1, e).out)
  {
    hide Carries, Holds, Named, Offset, Skipped, Answers, Gather;
    OffsetSmall(c);
    NamedLength(mem, c);
    FetchedIsNamed(mem, c);
    var m := Commands(c);
    assert Fetch(mem, m[1]) == [];
    var n := AnswersTwo(mem, m[0], m[1], q, bare);
    e := q[n..];
    EmptyAnswer(mem, m[1], e, bare);
    var r0 := TakeAccess(r, AccessOf(c));
    FirstBlockEnds(r0, q[..n], Fetch(mem, m[0]), e);
    assert q[..n] + e == q;
    CarriesSome(q[..n], Fetch(mem, m[0]));
    r1 := r0.(phase := if r0.offset0 == 0 then BreakdownAligned else FirstMerge, prev := q[n - 1]);
    assert Fetch(mem, m[0]) + [] == Fetch(mem, m[0]);
  }

  /** The beat that keeps nothing is passed on behind a full one, and ends a started one. */
  lemma BareBeatEnds(r: ReadRegs, b: Beat)
    requires Bare(b)
    requires if r.offset0 == 0 then r.phase == BreakdownAligned
             else r.phase == FirstMerge && r.offset1 == LANES - r.offset0
    ensures Gather(r, [b]).next.phase == ReadAccess
    ensures Gather(r, [b]).out == [if r.offset0 == 0 then b else MergeTwoWordsHead(b, r.prev, r.offset0, true)]
  {
    GatherMore(r, b, []);
    GatherEnds(ReadBeat(r, b).next, []);
    assert [b] + [] == [b];
  }

  lemma BareMerge(b: Beat, prev: Beat, t: seq<byte>)
    requires Bare(b) && 0 < |t| < LANES && Holds(prev, t)
    ensures Carries([MergeTwoWordsHead(b, prev, |t|, true)], t)
  {
    var w := MergeTwoWordsHead(b, prev, |t|, true);
    assert forall i :: 0 <= i < LANES ==> w.keep[i] == (i < |t|);
    assert forall i :: 0 <= i < |t| ==> w.data[i] == prev.data[..|t|][i];
    CarriesOne(w, t);
  }

  /** A full beat that does not end the packet, and a last one that keeps nothing - or nothing. */
  ghost predicate Unended(out: seq<Beat>, t: seq<byte>, bare: bool) {
    if |t| < LANES then !bare && out == []
    else |out| == (if bare then 2 else 1) && !out[0].last && Holds(out[0], t) && (bare ==> Bare(out[1]))
  }

  lemma UnendedCarriesNothing(out: seq<Beat>, t: seq<byte>, bare: bool, s: seq<byte>)
    requires Unended(out, t, bare)
    ensures !Carries(out, s)
  {
    if Carries(out, s) {
      CarriesLast(out, s);
      CarriesSome(out, s);
      if |out| == 2 { KeepBit(out[1], 0, s[LANES..]); }
      assert false;
    }
  }

  lemma EndYields(r: ReadRegs, c: MemCmd, q: seq<Beat>, mem: Flat, bare: bool)
    requires c.length > 0 && EndsAtEnd(c) && Answers(mem, Commands(c), q, bare)
    ensures Read(r, c, q).next.phase == ReadAccess <==> bare
    ensures var t, out := Named(mem, c)[Skipped(c.length)..], Read(r, c, q).out;
            if bare && c.length % LANES != 0 then Carries(out, t) else Unended(out, t, bare)
  {
    var r1, e := EndsInWait(r, c, q, mem, bare);
    hide Carries, Named, Offset, Skipped, Answers, Gather, Read, Holds;
    SkippedRest(c.length);
    var t := Named(mem, c)[Skipped(c.length)..];
    if bare {
      assert e == [e[0]];
      BareBeatEnds(r1, e[0]);
      if r1.offset0 != 0 { BareMerge(e[0], r1.prev, t); }
    } else {
      GatherEnds(r1, []);
    }
    LastCleared(r1.prev, t);
    hide MergeTwoWordsHead;
    assert [] + Gather(r1, e).out == Gather(r1, e).out;
  }

  // ---------- What every read yields ----------

  /** What a read yields, for every content of memory and wherever it ends: the named bytes, without
      those of the first block that lie before its last beat - as a packet, unless the read ends at
      the ring's end and its last beat is full or the data mover does not answer the empty command. */
  lemma ReadYields(r: ReadRegs, c: MemCmd, q: seq<Beat>, mem: Flat, bare: bool)
    requires c.length > 0 && Answers(mem, Commands(c), q, bare)
    ensures |Named(mem, c)| == c.length
    ensures var out, named := Read(r, c, q).out, Named(mem, c);
            if !Crosses(c) then Carries(out, named)
            else if !EndsAtEnd(c) || (bare && c.length % LANES != 0) then
              Carries(out, named[Skipped(FirstBlock(c))..])
            else Unended(out, named[Skipped(c.length)..], bare)
  {
    hide Carries, Read, Named, Skipped, Answers, Unended, Commands;
    OffsetSmall(c);
    NamedLength(mem, c);
    if EndsAtEnd(c) { EndYields(r, c, q, mem, bare); } else { ReadYieldsElsewhere(r, c, q, mem, bare); }
  }

  /** A read that stays below the ring's end is exact, and so is one that crosses it with at most one
      beat before it; one that ends there only if it is shorter than a beat and the empty command is
      answered. */
  predicate ReadsExactly(c: MemCmd, bare: bool) {
    if EndsAtEnd(c) then bare && c.length < LANES
    else Offset(c) + c.length < BUFFER_SIZE || FirstBlock(c) <= LANES
  }

  /** A read delivers the ring's bytes as one well-formed packet if and only if that condition holds;
      every other read loses bytes, or the end of its packet, or both. */
  lemma ReadIsExactIff(r: ReadRegs, c: MemCmd, q: seq<Beat>, mem: Flat, bare: bool)
    requires c.length > 0 && Answers(mem, Commands(c), q, bare)
    ensures Carries(Read(r, c, q).out, Named(mem, c)) <==> ReadsExactly(c, bare)
  {
    hide Carries, Read, Named, Offset, Skipped, Answers, Commands, Unended;
    OffsetSmall(c);
    ReadYields(r, c, q, mem, bare);
    var out, named := Read(r, c, q).out, Named(mem, c);
    if Crosses(c) {
      SkippedRest(FirstBlock(c));
      if EndsAtEnd(c) && !(bare && c.length % LANES != 0) {
        UnendedCarriesNothing(out, named[Skipped(c.length)..], bare, named);
      } else if FirstBlock(c) > LANES {
        if Carries(out, named) {
          OneContent(out, named, named[Skipped(FirstBlock(c))..]);
          assert false;
        }
      } else {
        assert named[0..] == named;
      }
    }
  }

  /** A payload written and then read back with the same command comes back as it was under exactly
      that condition, wherever it ends. */
  lemma WriteThenRead(
    w: Regs, r: ReadRegs, c: MemCmd, q: seq<Beat>, s: seq<byte>, mem: Flat, p: seq<Beat>, bare: bool)
    requires Carries(q, s) && |s| == c.length
    ensures PacketPerCommand(Write(w, c, q), Parts(c, s))
    ensures Answers(Performed(mem, Write(w, c, q).cmds, Parts(c, s)), Commands(c), p, bare) ==>
              (Carries(Read(r, c, p).out, s) <==> ReadsExactly(c, bare))
  {
    CarriesSome(q, s);
    WriteIsRingStore(w, c, q, s, mem, 0);
    WrittenIsNamed(w, c, q, s, mem);
    hide Carries, Read, Named, Offset, Skipped, Answers, Commands, Performed, Write, Parts, ReadsExactly;
    var after := Performed(mem, Write(w, c, q).cmds, Parts(c, s));
    if Answers(after, Commands(c), p, bare) { ReadIsExactIff(r, c, p, after, bare); }
  }

  lemma WrittenIsNamed(w: Regs, c: MemCmd, q: seq<Beat>, s: seq<byte>, mem: Flat)
    requires Carries(q, s) && |s| == c.length
    requires PacketPerCommand(Write(w, c, q), Parts(c, s))
    ensures Named(Performed(mem, Write(w, c, q).cmds, Parts(c, s)), c) == s
  {
    var after := Performed(mem, Write(w, c, q).cmds, Parts(c, s));
    hide Carries, Performed, Write, Parts, Session, Named;
    NamedLength(after, c);
    forall i | 0 <= i < |s| ensures Named(after, c)[i] == s[i] {
      WriteIsRingStore(w, c, q, s, mem, To18(Offset(c) + i));
      NamedSlot(after, c, i);
      StoredInRing(Session(mem, Ring(c)), c, s, i);
    }
  }

  lemma NamedSlot(mem: Flat, c: MemCmd, i: nat)
    requires i < c.length && |Named(mem, c)| == c.length
    ensures Named(mem, c)[i] == RingMemory.ByteAt(Session(mem, Ring(c)), To18(Offset(c) + i))
  {
    hide RingMemory.ByteAt, Session;
  }

  lemma StoredInRing(mem: RingMemory.Memory, c: MemCmd, s: seq<byte>, i: nat)
    requires |s| == c.length && i < |s|
    ensures RingMemory.ByteAt(RingMemory.Store(mem, Offset(c), s), To18(Offset(c) + i)) == s[i]
  {
    assert To18(Offset(c)) == Offset(c);
    hide To18;
    RingMemory.StoredByte(mem, Offset(c), s, Offset(c) + i);
  }

  /** A read that ends exactly at the ring's end has a second command for no bytes. The reader waits
      for a beat of it: if the data mover sends one that keeps nothing, as the repository's own model
      of memory does, it is ready for the next read, as after every other read; if the data mover
      sends nothing, it is not, and takes the next read's first beat for it. */
  lemma ReaderIsReadyIff(r: ReadRegs, c: MemCmd, q: seq<Beat>, mem: Flat, bare: bool)
    requires c.length > 0 && Answers(mem, Commands(c), q, bare)
    ensures Read(r, c, q).next.phase == ReadAccess <==> bare || Offset(c) + c.length != BUFFER_SIZE
  {
    hide Carries, Read, Named, Skipped, Answers, Unended, Commands;
    OffsetSmall(c);
    if EndsAtEnd(c) { EndYields(r, c, q, mem, bare); } else { ReadYieldsElsewhere(r, c, q, mem, bare); }
  }

  // ---------- The modules ----------

  class ReadDataSendCmd {
    var breakdown: bool
    var inner: MemCmd
    var firstBbt: nat
    var moverCmds: seq<MoverCmd>
    var accesses: seq<Access>

    constructor ()
      ensures !breakdown && moverCmds == [] && accesses == []
    {
      breakdown, inner, firstBbt, moverCmds, accesses := false, MemCmd(0, 0), 0, [], [];
    }

    /** A read command: its first or only command goes out, and the reader is told. */
    method TakeCommand(c: MemCmd)
      requires !breakdown
      modifies this
      ensures breakdown == Crosses(c) && inner == c && (breakdown ==> firstBbt == FirstBlock(c))
      ensures moverCmds == old(moverCmds) + Commands(c)[..1] && accesses == old(accesses) + [AccessOf(c)]
    {
      inner := c;
      if To18(c.addr) + c.length >= BUFFER_SIZE {
        firstBbt := BUFFER_SIZE - To18(c.addr);
        moverCmds := moverCmds + [MoverCmd(DDR_BASE + c.addr, firstBbt)];
        breakdown := true;
        accesses := accesses + [Access(true, firstBbt % LANES)];
      } else {
        moverCmds := moverCmds + [MoverCmd(DDR_BASE + c.addr, c.length)];
        accesses := accesses + [Access(false, 0)];
      }
    }

    method SendSecond()
      requires breakdown && Crosses(inner) && firstBbt == FirstBlock(inner)
      modifies `breakdown, `moverCmds
      ensures !breakdown && moverCmds == old(moverCmds) + Commands(inner)[1..]
    {
      moverCmds := moverCmds +
        [MoverCmd(DDR_BASE + inner.addr - To18(inner.addr), (inner.length - firstBbt) % 0x80_0000)];
      breakdown := false;
    }

    method Send(c: MemCmd)
      requires !breakdown
      modifies this
      ensures !breakdown && moverCmds == old(moverCmds) + Commands(c) && accesses == old(accesses) + [AccessOf(c)]
    {
      hide Offset;
      TakeCommand(c);
      if breakdown {
        SendSecond();
      }
    }
  }

  class ReadDataFromMem {
    var phase: ReadPhase
    var offset0: u6
    var offset1: u6
    var prev: Beat
    var words: seq<Beat>

    ghost function View(): ReadRegs
      reads this
    {
      ReadRegs(phase, offset0, offset1, prev)
    }

    constructor ()
      ensures phase == ReadAccess && words == []
    {
      phase, offset0, offset1, prev, words := ReadAccess, 0, 0, EmptyBeat(), [];
    }

    method Start(a: Access)
      requires phase == ReadAccess
      modifies `phase, `offset0, `offset1
      ensures View() == TakeAccess(old(View()), a)
    {
      offset0 := a.byteOffset;
      offset1 := (LANES - a.byteOffset) % LANES;
      phase := if a.double then BreakdownBlock0 else NoBreakdown;
    }

    /** One beat from the data mover. */
    method Take(b: Beat)
      requires Reading(phase)
      modifies `phase, `prev, `words
      ensures View() == ReadBeat(old(View()), b).next
      ensures words == old(words) + ReadBeat(old(View()), b).out
    {
      hide ConcatTwoWords, MergeTwoWordsHead;
      match phase {
        case BreakdownBlock0 =>
          var needToAlign := true;
          if b.last {
            if offset0 == 0 {
              needToAlign := false;
              phase := BreakdownAligned;
            } else {
              phase := FirstMerge;
            }
          }
          if !needToAlign {
            words := words + [b.(last := false)];
          }
          prev := b;
        case FirstMerge =>
          var last := EndsHere(b);
          words := words + [MergeTwoWordsHead(b, prev, offset0, last)];
          prev := b;
        case BreakdownBlock1 =>
          var last := EndsHere(b);
          words := words + [ConcatTwoWords(b, prev, offset1, last)];
          prev := b;
        case NoBreakdown | BreakdownAligned =>
          words := words + [b];
          if b.last {
            phase := ReadAccess;
          }
      }
    }

    /** Whether this beat ends the packet, and where that leads. */
    method EndsHere(b: Beat) returns (last: bool)
      modifies `phase
      ensures var extra := b.last && b.keep[offset1];
              last == (b.last && !extra) &&
              phase == if !b.last then BreakdownBlock1 else if extra then ExtraData else ReadAccess
    {
      last := false;
      if b.last {
        if b.keep[offset1] {
          phase := ExtraData;
        } else {
          last := true;
          phase := ReadAccess;
        }
      } else {
        phase := BreakdownBlock1;
      }
    }

    /** A read: its access and the data mover's beats, called until nothing is left to take. */
    method Transfer(a: Access, q: seq<Beat>)
      requires phase == ReadAccess
      modifies this
      ensures var g := Gather(TakeAccess(old(View()), a), q); View() == g.next && words == old(words) + g.out
    {
      hide ReadBeat, ReadExtra, Gather;
      Start(a);
      ghost var before, g := words, Gather(View(), q);
      var i := 0;
      assert q[0..] == q;
      while i < |q| && phase != ReadAccess && phase != ExtraData
        invariant 0 <= i <= |q|
        invariant Gather(View(), q[i..]).next == g.next && words + Gather(View(), q[i..]).out == before + g.out
      {
        ghost var r := View();
        assert q[i..] == [q[i]] + q[i + 1..];
        GatherMore(r, q[i], q[i + 1..]);
        Take(q[i]);
        i := i + 1;
      }
      GatherEnds(View(), q[i..]);
      if phase == ExtraData {
        ReadExtraIs(View());
        words := words + [ConcatTwoWords(EmptyBeat(), prev, offset1, true)];
        phase := ReadAccess;
      }
    }
  }

  lemma ReadExtraIs(r: ReadRegs)
    ensures ReadExtra(r) == ReadStep(r.(phase := ReadAccess), [ConcatTwoWords(EmptyBeat(), r.prev, r.offset1, true)])
  {
  }
}
