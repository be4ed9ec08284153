/** Writing a payload into a session's ring: one command for the data mover, or two when the
    ring's end is crossed, the second part's beats realigned.
 */
module MemoryWrite {
  import opened Words
  import opened Beats
  import RingMemory

  datatype MemCmd = MemCmd(addr: u32, length: u16)

  /** A command to the data mover: where, and how many bytes. */
  datatype MoverCmd = MoverCmd(saddr: nat, bbt: nat)

  const DDR_BASE: nat := 0x48_0000_0000

  datatype Phase = WaitCmd | FwdNoBreakdown | FwdBreakdown0 | FwdBreakdown1 | FwdExtra

  type u6 = x: int | 0 <= x < 64
  type u10 = x: int | 0 <= x < 1024

  datatype Regs = Regs(
    phase: Phase, cmd: MemCmd, firstBbt: nat, byteOffset: u6, transBeats: u10, transCount: u10, prev: Beat)

  datatype Output = Output(cmds: seq<MoverCmd>, beats: seq<Beat>) {
    function Then(next: Output): Output { Output(cmds + next.cmds, beats + next.beats) }
  }

  datatype Step = Step(next: Regs, out: Output)

  function Offset(c: MemCmd): u18 { To18(c.addr) }

  /** Bit 18 of the end address. */
  predicate Crosses(c: MemCmd) { Offset(c) + c.length >= BUFFER_SIZE }

  /** WAIT_CMD: issue the first command. */
  function TakeCmd(r: Regs, c: MemCmd): Step {
    if Crosses(c) then
      var bbt := BUFFER_SIZE - Offset(c);
      Step(Regs(FwdBreakdown0, c, bbt, bbt % LANES, (bbt / LANES + if bbt % LANES != 0 then 1 else 0) % 1024,
            1, r.prev),
           Output([MoverCmd(DDR_BASE + c.addr, bbt)], []))
    else
      Step(r.(phase := FwdNoBreakdown, cmd := c), Output([MoverCmd(DDR_BASE + c.addr, c.length)], []))
  }

  /** One beat of payload in the three forwarding states. */
  function TakeBeat(r: Regs, b: Beat): Step
    requires r.phase == FwdNoBreakdown || r.phase == FwdBreakdown0 || r.phase == FwdBreakdown1
  {
    match r.phase
    case FwdNoBreakdown =>
      Step(r.(phase := if b.last then WaitCmd else FwdNoBreakdown), Output([], [b]))
    case FwdBreakdown0 =>
      var r' := r.(transCount := (r.transCount + 1) % 1024, prev := b);
      if r.transCount == r.transBeats then
        Step(r'.(phase := if b.last then FwdExtra else FwdBreakdown1),
             Output([MoverCmd(DDR_BASE + r.cmd.addr - Offset(r.cmd), (r.cmd.length - r.firstBbt) % 0x80_0000)],
                    [Beat(b.data, DataLengthToAxisKeep(r.byteOffset), true)]))
      else Step(r', Output([], [b]))
    case FwdBreakdown1 =>
      var extra := b.last && b.keep[r.byteOffset] && r.byteOffset != 0;
      Step(r.(phase := if !b.last then FwdBreakdown1 else if extra then FwdExtra else WaitCmd, prev := b),
           Output([], [ConcatTwoWords(b, r.prev, r.byteOffset, b.last && !extra)]))
  }

  /** FWD_EXTRA: what is left of the last beat. */
  function Extra(r: Regs): Step {
    Step(r.(phase := WaitCmd), Output([], [ConcatTwoWords(EmptyBeat(), r.prev, r.byteOffset, true)]))
  }

  /** Everything written for the beats of one payload. */
  function Feed(r: Regs, q: seq<Beat>): Output
    decreases |q|, r.phase == FwdExtra
  {
    if r.phase == FwdExtra then Extra(r).out
    else if r.phase == WaitCmd || q == [] then Output([], [])
    else
      var Step(r', out) := TakeBeat(r, q[0]);
      out.Then(Feed(r', q[1..]))
  }

  function Write(r: Regs, c: MemCmd, q: seq<Beat>): Output {
    var Step(r', out) := TakeCmd(r, c);
    out.Then(Feed(r', q))
  }

  lemma FeedMore(r: Regs, b: Beat, q: seq<Beat>)
    requires r.phase == FwdNoBreakdown || r.phase == FwdBreakdown0 || r.phase == FwdBreakdown1
    ensures var Step(r', out) := TakeBeat(r, b);
            Feed(r, [b] + q) == out.Then(Feed(r', q))
  {
    hide TakeBeat;
    assert ([b] + q)[1..] == q;
  }

  lemma FeedEnds(r: Regs)
    ensures r.phase == WaitCmd ==> Feed(r, []) == Output([], [])
    ensures r.phase == FwdExtra ==> Feed(r, []) == Extra(r).out
  {
  }

  lemma HeadTail(q: seq<Beat>)
    requires q != []
    ensures q == [q[0]] + q[1..] && (|q| == 1 ==> q[1..] == [])
  {
  }

  // ---------- No breakdown ----------

  lemma {:induction false} ForwardsUnchanged(r: Regs, q: seq<Beat>, s: seq<byte>)
    requires r.phase == FwdNoBreakdown && Carries(q, s)
    ensures Feed(r, q) == Output([], q)
  {
    hide Feed, Holds, Carries;
    CarriesSome(q, s);
    HeadTail(q);
    FeedMore(r, q[0], q[1..]);
    var r' := TakeBeat(r, q[0]).next;
    if |q| == 1 {
      FeedEnds(r');
    } else {
      ForwardsUnchanged(r', q[1..], s[LANES..]);
    }
  }

  // ---------- The second part ----------

  lemma BeatCopied(b: Beat, prev: Beat, last: bool)
    ensures ConcatTwoWords(b, prev, 0, last) == b.(last := last)
  {
  }

  /** The beats of the second part: as they come if the first part ended at a beat's end, and
      shifted down otherwise. */
  lemma {:induction false} SecondPart(r: Regs, q: seq<Beat>, s: seq<byte>)
    requires r.phase == FwdBreakdown1 && Carries(q, s)
    ensures Feed(r, q) == Output([], if r.byteOffset == 0 then q else ShiftDown(r.prev, r.byteOffset, q))
    decreases |q|
  {
    hide Feed, Carries, Holds, ConcatTwoWords, ShiftDown;
    CarriesSome(q, s);
    HeadTail(q);
    FeedMore(r, q[0], q[1..]);
    if r.byteOffset == 0 {
      BeatCopied(q[0], r.prev, q[0].last);
    } else {
      ShiftDownHead(r.prev, r.byteOffset, q);
    }
    var r' := TakeBeat(r, q[0]).next;
    if |q| == 1 {
      FeedEnds(r');
    } else {
      SecondPart(r', q[1..], s[LANES..]);
    }
  }

  // ---------- The first part ----------

  /** The counters agree with the bytes the first command still wants. */
  ghost predicate Wants(r: Regs, want: nat) {
    && r.phase == FwdBreakdown0 && 0 < want < WORD_16 && r.byteOffset == want % LANES
    && r.transBeats == (r.transCount + (want - 1) / LANES) % 1024
  }

  lemma CountersMeet(count: u10, want: nat)
    requires 0 < want < WORD_16
    ensures (count + (want - 1) / LANES) % 1024 == count <==> want <= LANES
    ensures want > LANES ==>
              ((count + 1) % 1024 + (want - LANES - 1) / LANES) % 1024 == (count + (want - 1) / LANES) % 1024
  {
    var n := (want - 1) / LANES;
    assert n < 1024;
    if want > LANES {
      assert (want - LANES - 1) / LANES == n - 1;
    }
  }

  /** A beat of the first part that is not its last one passes unchanged. */
  lemma FirstPartGoesOn(r: Regs, b: Beat, want: nat)
    requires Wants(r, want) && want > LANES
    ensures var Step(r', out) := TakeBeat(r, b);
            && out == Output([], [b]) && Wants(r', want - LANES)
            && r'.cmd == r.cmd && r'.firstBbt == r.firstBbt
  {
    CountersMeet(r.transCount, want);
    assert (want - LANES) % LANES == want % LANES;
  }

  /** The last beat of the first part is cut to the bytes wanted, and the second command issued. */
  lemma FirstPartEnds(r: Regs, b: Beat, want: nat, s: seq<byte>)
    requires Wants(r, want) && want <= LANES && Holds(b, s) && want <= |s|
    ensures var Step(r', out) := TakeBeat(r, b);
            && out.cmds == [SecondCmd(r)] && |out.beats| == 1 && out.beats[0].last && Holds(out.beats[0], s[..want])
            && r' == r.(phase := if b.last then FwdExtra else FwdBreakdown1, prev := b, transCount := r'.transCount)
  {
    CountersMeet(r.transCount, want);
  }

  function SecondCmd(r: Regs): MoverCmd {
    MoverCmd(DDR_BASE + r.cmd.addr - Offset(r.cmd), (r.cmd.length - r.firstBbt) % 0x80_0000)
  }

  /** The beats of a broken-down write are two packets, one for each command. */
  ghost predicate TwoPackets(beats: seq<Beat>, s: seq<byte>, t: seq<byte>) {
    exists n :: 0 <= n <= |beats| && Carries(beats[..n], s) && Carries(beats[n..], t)
  }

  lemma TwoPacketsJoin(a: seq<Beat>, b: seq<Beat>, s: seq<byte>, t: seq<byte>)
    requires Carries(a, s) && Carries(b, t)
    ensures TwoPackets(a + b, s, t)
  {
    hide Carries;
    assert (a + b)[..|a|] == a && (a + b)[|a|..] == b;
  }

  lemma TwoPacketsMore(b: Beat, q: seq<Beat>, s: seq<byte>, t: seq<byte>, u: seq<byte>)
    requires !b.last && |s| == LANES && Holds(b, s) && TwoPackets(q, t, u)
    ensures TwoPackets([b] + q, s + t, u)
  {
    hide Carries, Holds;
    var n :| 0 <= n <= |q| && Carries(q[..n], t) && Carries(q[n..], u);
    CarriesMore(b, q[..n], s, t);
    assert ([b] + q)[..n + 1] == [b] + q[..n] && ([b] + q)[n + 1..] == q[n..];
  }

  lemma WantsSome(r: Regs, want: nat)
    requires Wants(r, want)
    ensures r.phase == FwdBreakdown0 && want > 0
  {
  }

  /** The first part ends with the packet's last beat. */
  lemma TurnsAtEnd(r: Regs, q: seq<Beat>, want: nat, s: seq<byte>)
    requires Wants(r, want) && want <= LANES && Carries(q, s) && want < |s| && |q| == 1
    ensures Feed(r, q).cmds == [SecondCmd(r)] && TwoPackets(Feed(r, q).beats, s[..want], s[want..])
  {
    hide Feed, Holds, Carries, ConcatTwoWords, TakeBeat, Extra, Wants, TwoPackets, SecondCmd;
    WantsSome(r, want);
    CarriesSome(q, s);
    HeadTail(q);
    FeedMore(r, q[0], q[1..]);
    var Step(r', out) := TakeBeat(r, q[0]);
    FirstPartEnds(r, q[0], want, s);
    FeedEnds(r');
    ExtraTail(r, r', q[0], want, s);
    CarriesOne(out.beats[0], s[..want]);
    assert out.beats == [out.beats[0]];
    TwoPacketsJoin(out.beats, Extra(r').out.beats, s[..want], s[want..]);
  }

  /** The first part ends amid the packet, and the second begins. */
  lemma TurnsAmid(r: Regs, q: seq<Beat>, want: nat, s: seq<byte>)
    requires Wants(r, want) && want <= LANES && Carries(q, s) && |q| > 1
    ensures want < |s|
    ensures Feed(r, q).cmds == [SecondCmd(r)] && TwoPackets(Feed(r, q).beats, s[..want], s[want..])
  {
    hide Feed, Holds, Carries, ConcatTwoWords, TakeBeat, Extra, Wants, TwoPackets, SecondCmd, ShiftDown;
    WantsSome(r, want);
    CarriesSome(q, s);
    HeadTail(q);
    FeedMore(r, q[0], q[1..]);
    var Step(r', out) := TakeBeat(r, q[0]);
    FirstPartEnds(r, q[0], want, s[..LANES]);
    assert s[..LANES][..want] == s[..want];
    CarriesOne(out.beats[0], s[..want]);
    OffsetOf(r, want);
    SecondPart(r', q[1..], s[LANES..]);
    if want < LANES {
      ShiftDownCarries(q[0], want, q[1..], s[..LANES], s[LANES..]);
      assert s[..LANES][want..] + s[LANES..] == s[want..];
    }
    assert out.beats == [out.beats[0]];
    TwoPacketsJoin(out.beats, Feed(r', q[1..]).beats, s[..want], s[want..]);
  }

  lemma OffsetOf(r: Regs, want: nat)
    requires Wants(r, want) && want <= LANES
    ensures r.byteOffset == if want == LANES then 0 else want
  {
  }

  lemma ExtraTail(r: Regs, r': Regs, b: Beat, want: nat, s: seq<byte>)
    requires Wants(r, want) && want <= LANES && Holds(b, s) && want < |s|
    requires r'.prev == b && r'.byteOffset == r.byteOffset
    ensures Extra(r').out.cmds == [] && Carries(Extra(r').out.beats, s[want..])
  {
    TailHolds(b, want, s);
    CarriesOne(Extra(r').out.beats[0], s[want..]);
  }

  /** From the first beat on, whatever the first command still wants. */
  lemma {:induction false} BreaksDown(r: Regs, q: seq<Beat>, want: nat, s: seq<byte>)
    requires Wants(r, want) && Carries(q, s) && want < |s|
    ensures Feed(r, q).cmds == [SecondCmd(r)] && TwoPackets(Feed(r, q).beats, s[..want], s[want..])
    decreases |q|
  {
    hide Feed, Holds, Carries, ConcatTwoWords, TakeBeat, Wants, TwoPackets;
    CarriesSome(q, s);
    WantsSome(r, want);
    if want <= LANES {
      if |q| == 1 {
        TurnsAtEnd(r, q, want, s);
      } else {
        TurnsAmid(r, q, want, s);
      }
    } else {
      HeadTail(q);
      FeedMore(r, q[0], q[1..]);
      FirstPartGoesOn(r, q[0], want);
      var r' := TakeBeat(r, q[0]).next;
      BreaksDown(r', q[1..], want - LANES, s[LANES..]);
      TwoPacketsMore(q[0], Feed(r', q[1..]).beats, s[..LANES], s[LANES..][..want - LANES], s[LANES..][want - LANES..]);
      assert s[..LANES] + s[LANES..][..want - LANES] == s[..want];
      assert s[LANES..][want - LANES..] == s[want..];
    }
  }

  // ---------- One write ----------

  /** A write that stays below the ring's end: one command, and the beats as they came. */
  lemma WholeWrite(r: Regs, c: MemCmd, q: seq<Beat>, s: seq<byte>)
    requires Carries(q, s) && |s| == c.length && !Crosses(c)
    ensures Write(r, c, q) == Output([MoverCmd(DDR_BASE + c.addr, c.length)], q)
  {
    hide Carries, TakeBeat, Feed;
    ForwardsUnchanged(TakeCmd(r, c).next, q, s);
  }

  /** A write across the ring's end: the first command takes what fits before the end, the second
      the rest from the ring's start, and each gets a well-formed packet of exactly its bytes. */
  lemma SplitWrite(r: Regs, c: MemCmd, q: seq<Beat>, s: seq<byte>)
    requires Carries(q, s) && |s| == c.length && Offset(c) + c.length > BUFFER_SIZE
    ensures var first := BUFFER_SIZE - Offset(c);
            && Write(r, c, q).cmds == [MoverCmd(DDR_BASE + c.addr, first),
                                       MoverCmd(DDR_BASE + c.addr - Offset(c), c.length - first)]
            && TwoPackets(Write(r, c, q).beats, s[..first], s[first..])
  {
    hide Carries, TakeBeat, Feed, TwoPackets, Offset;
    var first := BUFFER_SIZE - Offset(c);
    var Step(r', out) := TakeCmd(r, c);
    FirstWants(r, c);
    BreaksDown(r', q, first, s);
    assert [] + Feed(r', q).beats == Feed(r', q).beats;
  }

  lemma FirstWants(r: Regs, c: MemCmd)
    requires Crosses(c)
    requires Offset(c) + c.length == BUFFER_SIZE ==> c.length > 0
    ensures Wants(TakeCmd(r, c).next, BUFFER_SIZE - Offset(c))
  {
    hide Offset;
    var bbt := BUFFER_SIZE - Offset(c);
    assert bbt / LANES + (if bbt % LANES != 0 then 1 else 0) == 1 + (bbt - 1) / LANES;
  }

  /** The packet, and behind it one beat that is marked last and keeps nothing. */
  ghost predicate PacketAndEmpty(beats: seq<Beat>, s: seq<byte>) {
    && |beats| >= 2 && Carries(beats[..|beats| - 1], s)
    && beats[|beats| - 1].last && beats[|beats| - 1].keep == LowKeep(0)
  }

  lemma NothingLeft(r: Regs, b: Beat, s: seq<byte>)
    requires Holds(b, s) && 1 <= |s| && r.prev == b && r.byteOffset == |s| % LANES
    ensures Extra(r).out.cmds == [] && |Extra(r).out.beats| == 1
    ensures Extra(r).out.beats[0].last && Extra(r).out.beats[0].keep == LowKeep(0)
  {
    var e := Extra(r).out.beats[0];
    assert forall i :: 0 <= i < LANES ==> !e.keep[i];
  }

  lemma {:induction false} FitsExactly(r: Regs, q: seq<Beat>, s: seq<byte>)
    requires Wants(r, |s|) && Carries(q, s)
    ensures Feed(r, q).cmds == [SecondCmd(r)] && PacketAndEmpty(Feed(r, q).beats, s)
    decreases |q|
  {
    hide Feed, Holds, Carries, ConcatTwoWords, TakeBeat, Extra, Wants, LowKeep;
    CarriesSome(q, s);
    WantsSome(r, |s|);
    HeadTail(q);
    FeedMore(r, q[0], q[1..]);
    var Step(r', out) := TakeBeat(r, q[0]);
    if |q| == 1 {
      FirstPartEnds(r, q[0], |s|, s);
      FeedEnds(r');
      OffsetOf(r, |s|);
      NothingLeft(r', q[0], s);
      assert s[..|s|] == s;
      CarriesOne(out.beats[0], s);
      assert (out.beats + Extra(r').out.beats)[..1] == [out.beats[0]];
    } else {
      FirstPartGoesOn(r, q[0], |s|);
      FitsExactly(r', q[1..], s[LANES..]);
      var rest := Feed(r', q[1..]).beats;
      CarriesMore(q[0], rest[..|rest| - 1], s[..LANES], s[LANES..]);
      assert s[..LANES] + s[LANES..] == s;
      assert ([q[0]] + rest)[..|rest|] == [q[0]] + rest[..|rest| - 1];
    }
  }

  lemma SecondIsEmpty(r: Regs, c: MemCmd)
    requires Offset(c) + c.length == BUFFER_SIZE
    ensures var Step(r', out) := TakeCmd(r, c);
            && SecondCmd(r') == MoverCmd(DDR_BASE + c.addr - Offset(c), 0)
            && out == Output([MoverCmd(DDR_BASE + c.addr, c.length)], [])
  {
    hide Offset;
  }

  /** A write that ends exactly at the ring's end is broken down too: a second command for no
      bytes at all, and a beat that keeps nothing. */
  lemma ExactFitWrite(r: Regs, c: MemCmd, q: seq<Beat>, s: seq<byte>)
    requires Carries(q, s) && |s| == c.length && Offset(c) + c.length == BUFFER_SIZE
    ensures Write(r, c, q).cmds == [MoverCmd(DDR_BASE + c.addr, c.length), MoverCmd(DDR_BASE + c.addr - Offset(c), 0)]
    ensures PacketAndEmpty(Write(r, c, q).beats, s)
  {
    CarriesSome(q, s);
    hide Carries, TakeBeat, Feed, PacketAndEmpty, Offset, Wants;
    var Step(r', out) := TakeCmd(r, c);
    FirstWants(r, c);
    FitsExactly(r', q, s);
    SecondIsEmpty(r, c);
    hide TakeCmd, SecondCmd;
    assert [] + Feed(r', q).beats == Feed(r', q).beats;
  }

  /** The mover gets a command for no bytes if and only if the write ends exactly at the ring's end. */
  lemma EmptyCommandIff(r: Regs, c: MemCmd, q: seq<Beat>, s: seq<byte>)
    requires Carries(q, s) && |s| == c.length
    ensures (exists m :: m in Write(r, c, q).cmds && m.bbt == 0) <==> Offset(c) + c.length == BUFFER_SIZE
  {
    CarriesSome(q, s);
    hide Carries, Write, TwoPackets, PacketAndEmpty, Offset;
    if Offset(c) + c.length == BUFFER_SIZE {
      ExactFitWrite(r, c, q, s);
      assert Write(r, c, q).cmds[1] in Write(r, c, q).cmds;
    } else if Crosses(c) {
      SplitWrite(r, c, q, s);
    } else {
      WholeWrite(r, c, q, s);
    }
  }

  // ---------- What memory holds afterwards ----------

  type Flat = map<nat, byte>

  function At(mem: Flat, a: nat): byte {
    if a in mem then mem[a] else 0
  }

  /** The mover stores the bytes of a command from its start address on. */
  function StoreAt(mem: Flat, a: nat, s: seq<byte>): Flat {
    if s == [] then mem else StoreAt(mem, a, s[..|s| - 1])[a + |s| - 1 := s[|s| - 1]]
  }

  lemma {:induction false} StoreAtByte(mem: Flat, a: nat, s: seq<byte>, x: nat)
    ensures At(StoreAt(mem, a, s), x) == if a <= x < a + |s| then s[x - a] else At(mem, x)
  {
    if s != [] { StoreAtByte(mem, a, s[..|s| - 1], x); }
  }

  /** Each command stores the bytes of its own packet. */
  ghost function Performed(mem: Flat, cmds: seq<MoverCmd>, packets: seq<seq<byte>>): Flat
    requires |cmds| == |packets|
  {
    if cmds == [] then mem
    else StoreAt(Performed(mem, cmds[..|cmds| - 1], packets[..|cmds| - 1]), cmds[|cmds| - 1].saddr, packets[|cmds| - 1])
  }

  /** The commands' packets: the whole payload, or its two parts. */
  ghost function Parts(c: MemCmd, s: seq<byte>): seq<seq<byte>>
    requires |s| == c.length
  {
    if Crosses(c) then [s[..BUFFER_SIZE - Offset(c)], s[BUFFER_SIZE - Offset(c)..]] else [s]
  }

  /** The packets carried by the beats of a write are as long as its commands say, in order; a command
      for no bytes gets one beat that keeps nothing. */
  ghost predicate PacketPerCommand(o: Output, parts: seq<seq<byte>>) {
    && |o.cmds| == |parts| && (forall i :: 0 <= i < |parts| ==> |parts[i]| == o.cmds[i].bbt)
    && (|parts| == 1 ==> Carries(o.beats, parts[0]))
    && (|parts| == 2 ==>
          if parts[1] == [] then PacketAndEmpty(o.beats, parts[0]) else TwoPackets(o.beats, parts[0], parts[1]))
  }

  ghost function SlotByte(mem: Flat, base: nat, slot: u18): byte {
    At(mem, base + slot)
  }

  /** The session's own buffer, slot by slot. */
  ghost function Session(mem: Flat, base: nat): RingMemory.Memory {
    map slot: u18 | 0 <= slot < BUFFER_SIZE :: SlotByte(mem, base, slot)
  }

  lemma PerformedOnce(mem: Flat, m: MoverCmd, s: seq<byte>)
    ensures Performed(mem, [m], [s]) == StoreAt(mem, m.saddr, s)
  {
    assert [m][..0] == [] && [s][..0] == [];
  }

  lemma PerformedTwice(mem: Flat, m: MoverCmd, n: MoverCmd, s: seq<byte>, t: seq<byte>)
    ensures Performed(mem, [m, n], [s, t]) == StoreAt(StoreAt(mem, m.saddr, s), n.saddr, t)
  {
    assert [m, n][..1] == [m] && [s, t][..1] == [s];
    PerformedOnce(mem, m, s);
    hide StoreAt;
  }

  /** Where the ring store puts the bytes of a payload, slot by slot. */
  lemma StoredSlot(mem: RingMemory.Memory, off: u18, s: seq<byte>, slot: u18)
    requires |s| < WORD_16
    ensures RingMemory.ByteAt(RingMemory.Store(mem, off, s), slot) ==
            if off <= slot < off + |s| then s[slot - off]
            else if slot + BUFFER_SIZE < off + |s| then s[slot + BUFFER_SIZE - off]
            else RingMemory.ByteAt(mem, slot)
  {
    assert To18(off) == off && To18(slot) == slot;
    assert To18(slot + BUFFER_SIZE) == slot && To18(slot - BUFFER_SIZE) == slot;
    hide To18, RingMemory.Store, RingMemory.ByteAt;
    if off <= slot < off + |s| {
      RingMemory.StoredByte(mem, off, s, slot);
    } else if slot + BUFFER_SIZE < off + |s| {
      RingMemory.StoredByte(mem, off, s, slot + BUFFER_SIZE);
    } else if slot < off {
      RingMemory.KeptByte(mem, off, s, slot);
    } else {
      RingMemory.KeptByte(mem, off, s, slot - BUFFER_SIZE);
    }
  }

  /** A write's commands and their packets, wherever it ends. */
  lemma WriteGetsPackets(r: Regs, c: MemCmd, q: seq<Beat>, s: seq<byte>)
    requires Carries(q, s) && |s| == c.length
    ensures var o, n := Write(r, c, q), BUFFER_SIZE - Offset(c);
            && PacketPerCommand(o, Parts(c, s))
            && (if Crosses(c) then
                  o.cmds == [MoverCmd(DDR_BASE + c.addr, n), MoverCmd(DDR_BASE + c.addr - Offset(c), c.length - n)]
                else o.cmds == [MoverCmd(DDR_BASE + c.addr, c.length)])
  {
    hide Carries, Write, TwoPackets, PacketAndEmpty, Offset;
    var n := BUFFER_SIZE - Offset(c);
    if Offset(c) + c.length == BUFFER_SIZE {
      ExactFitWrite(r, c, q, s);
      assert s[..n] == s && s[n..] == [];
    } else if Crosses(c) {
      SplitWrite(r, c, q, s);
    } else {
      WholeWrite(r, c, q, s);
    }
  }

  /** A write refines a store into the session's ring, wherever it ends: its commands get one packet
      each of the right length, and byte i ends up at session offset (addr + i) mod 2^18. */
  lemma WriteIsRingStore(r: Regs, c: MemCmd, q: seq<Beat>, s: seq<byte>, mem: Flat, slot: u18)
    requires Carries(q, s) && |s| == c.length
    ensures var o, base := Write(r, c, q), DDR_BASE + c.addr - Offset(c);
            && PacketPerCommand(o, Parts(c, s))
            && RingMemory.ByteAt(Session(Performed(mem, o.cmds, Parts(c, s)), base), slot) ==
               RingMemory.ByteAt(RingMemory.Store(Session(mem, base), Offset(c), s), slot)
  {
    var o, base, off := Write(r, c, q), DDR_BASE + c.addr - Offset(c), Offset(c);
    hide Carries, Write, TwoPackets, PacketAndEmpty, Offset, Performed, StoreAt, RingMemory.Store;
    StoredSlot(Session(mem, base), off, s, slot);
    WriteGetsPackets(r, c, q, s);
    if Crosses(c) {
      var n := BUFFER_SIZE - off;
      PerformedTwice(mem, o.cmds[0], o.cmds[1], s[..n], s[n..]);
      StoreAtByte(mem, base + off, s[..n], base + slot);
      StoreAtByte(StoreAt(mem, base + off, s[..n]), base, s[n..], base + slot);
    } else {
      PerformedOnce(mem, o.cmds[0], s);
      StoreAtByte(mem, base + off, s, base + slot);
    }
  }

  /** Nothing outside the session's buffer changes. */
  lemma WriteStaysInSession(r: Regs, c: MemCmd, q: seq<Beat>, s: seq<byte>, mem: Flat, x: nat)
    requires Carries(q, s) && |s| == c.length
    requires var base := DDR_BASE + c.addr - Offset(c); x < base || x >= base + BUFFER_SIZE
    ensures var o := Write(r, c, q);
            |o.cmds| == |Parts(c, s)| && At(Performed(mem, o.cmds, Parts(c, s)), x) == At(mem, x)
  {
    var o, base, off := Write(r, c, q), DDR_BASE + c.addr - Offset(c), Offset(c);
    hide Carries, Write, TwoPackets, PacketAndEmpty, PacketPerCommand, Offset, Performed, StoreAt, At;
    WriteGetsPackets(r, c, q, s);
    if Crosses(c) {
      var n := BUFFER_SIZE - off;
      PerformedTwice(mem, o.cmds[0], o.cmds[1], s[..n], s[n..]);
      StoreAtByte(mem, base + off, s[..n], x);
      StoreAtByte(StoreAt(mem, base + off, s[..n]), base, s[n..], x);
    } else {
      PerformedOnce(mem, o.cmds[0], s);
      StoreAtByte(mem, base + off, s, x);
    }
  }

  // ---------- The module ----------

  class WriteDataToMem {
    var phase: Phase
    var cmd: MemCmd
    var firstBbt: nat
    var byteOffset: u6
    var transBeats: u10
    var transCount: u10
    var prev: Beat
    // streams
    var moverCmds: seq<MoverCmd>
    var moverBeats: seq<Beat>
    var doubleAccess: seq<bool>

    ghost function View(): Regs
      reads this
    {
      Regs(phase, cmd, firstBbt, byteOffset, transBeats, transCount, prev)
    }

    ghost function Written(): Output
      reads this
    {
      Output(moverCmds, moverBeats)
    }

    constructor ()
      ensures phase == WaitCmd && Written() == Output([], []) && doubleAccess == []
    {
      phase, cmd, firstBbt, byteOffset, transBeats, transCount := WaitCmd, MemCmd(0, 0), 0, 0, 0, 1;
      prev := EmptyBeat();
      moverCmds, moverBeats, doubleAccess := [], [], [];
    }

    method WaitForCmd(c: MemCmd)
      requires phase == WaitCmd
      modifies this
      ensures View() == TakeCmd(old(View()), c).next
      ensures Written() == old(Written()).Then(TakeCmd(old(View()), c).out)
      ensures doubleAccess == old(doubleAccess) + [Crosses(c)]
    {
      hide To18;
      var bbt := c.length;
      var crosses := To18(c.addr) + c.length >= BUFFER_SIZE;
      cmd := c;
      if crosses {
        firstBbt := BUFFER_SIZE - To18(c.addr);
        byteOffset := firstBbt % LANES;
        transBeats := (firstBbt / LANES + if byteOffset != 0 then 1 else 0) % 1024;
        transCount := 1;
        phase := FwdBreakdown0;
        moverCmds := moverCmds + [MoverCmd(DDR_BASE + c.addr, firstBbt)];
      } else {
        phase := FwdNoBreakdown;
        moverCmds := moverCmds + [MoverCmd(DDR_BASE + c.addr, bbt)];
      }
      doubleAccess := doubleAccess + [crosses];
    }

    /** One beat in one of the forwarding states. */
    method Forward(b: Beat)
      requires phase == FwdNoBreakdown || phase == FwdBreakdown0 || phase == FwdBreakdown1
      modifies `phase, `transCount, `prev, `moverCmds, `moverBeats
      ensures View() == TakeBeat(old(View()), b).next
      ensures Written() == old(Written()).Then(TakeBeat(old(View()), b).out)
    {
      hide To18, DataLengthToAxisKeep, ConcatTwoWords;
      match phase
      case FwdNoBreakdown =>
        if b.last {
          phase := WaitCmd;
        }
        moverBeats := moverBeats + [b];
      case FwdBreakdown0 =>
        if transCount == transBeats {
          moverBeats := moverBeats + [Beat(b.data, DataLengthToAxisKeep(byteOffset), true)];
          var rest := (cmd.length - firstBbt) % 0x80_0000;
          moverCmds := moverCmds + [MoverCmd(DDR_BASE + cmd.addr - To18(cmd.addr), rest)];
          phase := if b.last then FwdExtra else FwdBreakdown1;
        } else {
          moverBeats := moverBeats + [b];
        }
        transCount := (transCount + 1) % 1024;
        prev := b;
      case FwdBreakdown1 =>
        var last := false;
        if b.last {
          if b.keep[byteOffset] && byteOffset != 0 {
            phase := FwdExtra;
          } else {
            phase := WaitCmd;
            last := true;
          }
        }
        moverBeats := moverBeats + [ConcatTwoWords(b, prev, byteOffset, last)];
        prev := b;
    }

    method ForwardExtra()
      requires phase == FwdExtra
      modifies `phase, `moverBeats
      ensures View() == Extra(old(View())).next
      ensures Written() == old(Written()).Then(Extra(old(View())).out)
    {
      moverBeats := moverBeats + [ConcatTwoWords(EmptyBeat(), prev, byteOffset, true)];
      phase := WaitCmd;
    }

    /** A command and the beats of its payload, called until nothing is left to forward. */
    method Transfer(c: MemCmd, q: seq<Beat>)
      requires phase == WaitCmd
      modifies this
      ensures Written() == old(Written()).Then(Write(old(View()), c, q))
    {
      hide TakeCmd, TakeBeat, Extra, Feed;
      ghost var whole := Written().Then(Write(View(), c, q));
      WaitForCmd(c);
      var i := 0;
      assert q[i..] == q;
      while i < |q| && phase != FwdExtra && phase != WaitCmd
        invariant 0 <= i <= |q|
        invariant Written().Then(Feed(View(), q[i..])) == whole
      {
        ghost var before, done := View(), Written();
        Forward(q[i]);
        FeedStep(before, q[i..], done);
        assert q[i..][1..] == q[i + 1..];
        i := i + 1;
      }
      if phase == FwdExtra {
        FeedStop(View(), q[i..]);
        ForwardExtra();
      } else {
        FeedStop(View(), q[i..]);
      }
    }
  }

  lemma FeedStep(r: Regs, q: seq<Beat>, done: Output)
    requires q != [] && r.phase != FwdExtra && r.phase != WaitCmd
    ensures var Step(r', out) := TakeBeat(r, q[0]);
            done.Then(Feed(r, q)) == done.Then(out).Then(Feed(r', q[1..]))
  {
    hide Feed;
    HeadTail(q);
    FeedMore(r, q[0], q[1..]);
    hide TakeBeat;
    var Step(r', out) := TakeBeat(r, q[0]);
    assert done.cmds + (out.cmds + Feed(r', q[1..]).cmds) == (done.cmds + out.cmds) + Feed(r', q[1..]).cmds;
    assert done.beats + (out.beats + Feed(r', q[1..]).beats) == (done.beats + out.beats) + Feed(r', q[1..]).beats;
  }

  lemma FeedStop(r: Regs, q: seq<Beat>)
    requires q == [] || r.phase == FwdExtra || r.phase == WaitCmd
    ensures Feed(r, q) == if r.phase == FwdExtra then Extra(r).out else Output([], [])
  {
  }
}
