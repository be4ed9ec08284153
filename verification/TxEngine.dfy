/** The transmit engine's state machine for regular and repeated transmission.

    A TX event makes the machine loop in its TRANSITION state, one segment a step, until it
    falls back to LOAD and writes the `not_ackd` pointer back to the table. An RT event makes it
    repeat at most four segments from `ackd`.
 */
module TxEngine {
  import opened Words

  /** The answer of the TX SAR table to the transmit engine. */
  datatype TxSarRsp = TxSarRsp(
    ackd: u32,
    notAckd: u32,
    minWindow: u18,
    finIsReady: bool,
    finIsSent: bool,
    currLength: u18,
    usedLength: u18,
    usedLengthRst: u18,
    usableWindow: u18,
    ackdEqNotAckd: bool,
    notAckdShort: u32)

  /** One data segment: its sequence number, the buffer offset its payload is read from, and
      its payload length. */
  datatype Segment = Segment(seqNumber: u32, memOffset: u18, length: u16)

  /** Where the machine goes next. */
  datatype Phase = Load | SendTx | Retransmit | RetransmitMore | SendFin

  datatype Regs = Regs(
    phase: Phase,
    loaded: bool,
    currLength: u18,
    usedLength: u18,
    remainingWindow: u19,
    segCount: nat,
    sar: TxSarRsp)

  datatype Output = Output(segments: seq<Segment>, writeBacks: seq<u32>) {
    function Then(next: Output): Output {
      Output(segments + next.segments, writeBacks + next.writeBacks)
    }
  }

  const NOTHING := Output([], [])

  /** The registers after a step, and what the step wrote. */
  datatype Step = Step(next: Regs, out: Output)

  function SegmentIfAny(seqNumber: u32, memOffset: u18, length: u16): seq<Segment> {
    if length != 0 then [Segment(seqNumber, memOffset, length)] else []
  }

  /** The window the step may fill: the table's answer on the first step, the 19-bit difference
      register afterwards, where a set top bit means "negative". */
  function UsableWindow(r: Regs, rsp: TxSarRsp): u18 {
    if !r.loaded then rsp.usableWindow
    else if r.remainingWindow < BUFFER_SIZE then r.remainingWindow
    else 0
  }

  /** What a TX step sends, where it goes next, and what it carries over. */
  datatype Choice = Choice(
    phase: Phase, length: u16, notAckd: u32, nextCurr: u16, nextUsed: u16, writeBack: seq<u32>)

  /** A TX step sends a full segment and stays, or sends what is left - of the data or of the
      window - writes the pointer back and leaves. */
  function Choose(rsp: TxSarRsp, curr: u18, used: u18, usable: u18): Choice {
    if curr < MSS && curr <= usable then
      var notAckd := if rsp.ackdEqNotAckd then rsp.notAckdShort else To32(rsp.notAckd + curr);
      Choice(if rsp.finIsReady && (rsp.ackdEqNotAckd || curr == 0) then SendFin else Load,
             curr, notAckd,
             if rsp.ackdEqNotAckd then To16(To18(rsp.notAckd) - curr) else To16(curr),
             if rsp.ackdEqNotAckd then To16(To18(rsp.notAckd) + curr) else To16(used),
             [notAckd])
    else if usable < MSS then
      var notAckd := To32(rsp.notAckd + usable);
      Choice(Load, usable, notAckd, To16(curr - usable), To16(used + usable), [notAckd])
    else
      Choice(SendTx, MSS, To32(rsp.notAckd + MSS), To16(curr - MSS), To16(used + MSS), [])
  }

  /** One TRANSITION step of a TX event. The lengths carried to the next step pass through
      16-bit temporaries. */
  function TxStep(r: Regs, rsp: TxSarRsp): Step {
    var sar := if r.loaded then r.sar else rsp;
    var curr := if r.loaded then r.currLength else rsp.currLength;
    var used := if r.loaded then r.usedLength else rsp.usedLength;
    var c := Choose(sar, curr, used, UsableWindow(r, rsp));
    Step(Regs(c.phase, true, c.nextCurr, c.nextUsed, To19(sar.minWindow - c.nextUsed), r.segCount,
              sar.(notAckd := c.notAckd)),
         Output(SegmentIfAny(sar.notAckd, To18(sar.notAckd), c.length), c.writeBack))
  }

  /** Everything one TX event emits: the steps up to the one that leaves the TX phase. */
  function TxBurst(r: Regs, rsp: TxSarRsp): Output
    requires r.phase == SendTx
    decreases if r.loaded then r.currLength else rsp.currLength + 1
  {
    var Step(r', out) := TxStep(r, rsp);
    if r'.phase == SendTx then out.Then(TxBurst(r', rsp)) else out
  }

  // ---------- What one TX event transmits ----------

  /** The segments follow each other without gap or overlap from `start`, and none is empty or
      longer than the maximum segment size. */
  ghost predicate Contiguous(segments: seq<Segment>, start: u32) {
    segments == [] ||
    (segments[0].seqNumber == start && 0 < segments[0].length <= MSS &&
     Contiguous(segments[1..], To32(start + segments[0].length)))
  }

  /** Every segment's payload is read from the buffer offset of its own sequence number. */
  ghost predicate ReadsOwnBytes(segments: seq<Segment>) {
    forall s <- segments :: s.memOffset == To18(s.seqNumber)
  }

  ghost function Total(segments: seq<Segment>): nat {
    if segments == [] then 0 else segments[0].length + Total(segments[1..])
  }

  /** The registers agree with each other after a first step. */
  ghost predicate Looping(r: Regs) {
    r.phase == SendTx && r.loaded && r.remainingWindow == To19(r.sar.minWindow - r.usedLength)
  }

  ghost predicate Start(r: Regs) {
    r.phase == SendTx && !r.loaded
  }

  /** The table computes the usable window and the short pointer from the other fields. */
  ghost predicate Computed(rsp: TxSarRsp) {
    && rsp.usableWindow == Max(rsp.minWindow - rsp.usedLength, 0)
    && rsp.notAckdShort == To32(rsp.notAckd + rsp.currLength)
  }

  /** What is left to send once the length has gone through the 16-bit temporary. */
  ghost function Effective(rsp: TxSarRsp): nat {
    if rsp.currLength < MSS || rsp.usableWindow < MSS then rsp.currLength
    else MSS + To16(rsp.currLength - MSS)
  }

  /** What is waiting fits the 16-bit temporary, or the window hides what it loses. */
  ghost predicate NothingLost(rsp: TxSarRsp) {
    || rsp.currLength < WORD_16 + MSS
    || rsp.usableWindow < MSS
    || rsp.usableWindow < Effective(rsp)
    || (rsp.usableWindow == Effective(rsp) && !rsp.ackdEqNotAckd)
  }

  /** The 16-bit count of the bytes in flight wraps before the window is full, though there is more
      to send than fits: from then on the window looks wide open. */
  ghost predicate Overruns(rsp: TxSarRsp) {
    && rsp.usableWindow >= MSS && Effective(rsp) > rsp.usableWindow
    && rsp.usedLength + rsp.usableWindow / MSS * MSS >= WORD_16
  }

  /** Everything that survives the 16-bit temporary is sent with nothing in flight before: the
      pointer written back is then the one past everything that was waiting. */
  ghost predicate Skips(rsp: TxSarRsp) {
    && rsp.currLength >= WORD_16 + MSS && rsp.usableWindow >= MSS && rsp.ackdEqNotAckd
    && (Effective(rsp) <= rsp.usableWindow || Overruns(rsp))
  }

  /** A step either sends one full segment and stays, or sends the rest and writes back. */
  lemma StepCases(r: Regs, rsp: TxSarRsp)
    requires r.phase == SendTx
    ensures var Step(r', out) := TxStep(r, rsp);
            var sar := if r.loaded then r.sar else rsp;
            var curr := if r.loaded then r.currLength else rsp.currLength;
            var used := if r.loaded then r.usedLength else rsp.usedLength;
            var n := Min(curr, UsableWindow(r, rsp));
            if r'.phase == SendTx then
              && n >= MSS && Looping(r')
              && r'.sar == sar.(notAckd := To32(sar.notAckd + MSS))
              && r'.currLength == To16(curr - MSS)
              && r'.usedLength == To16(used + MSS)
              && out == Output([Segment(sar.notAckd, To18(sar.notAckd), MSS)], [])
            else
              && n < MSS
              && out == Output(SegmentIfAny(sar.notAckd, To18(sar.notAckd), n),
                               [if curr == n && sar.ackdEqNotAckd then sar.notAckdShort
                                else To32(sar.notAckd + n)])
  {
  }

  lemma ContiguousOne(start: u32, offset: u18, n: u16)
    requires n <= MSS
    ensures Contiguous(SegmentIfAny(start, offset, n), start)
    ensures Total(SegmentIfAny(start, offset, n)) == n
    ensures offset == To18(start) ==> ReadsOwnBytes(SegmentIfAny(start, offset, n))
  {
    if n != 0 {
      var segs := SegmentIfAny(start, offset, n);
      assert segs[1..] == [];
    }
  }

  lemma ContiguousMore(start: u32, offset: u18, rest: seq<Segment>)
    requires Contiguous(rest, To32(start + MSS))
    ensures Contiguous([Segment(start, offset, MSS)] + rest, start)
    ensures Total([Segment(start, offset, MSS)] + rest) == MSS + Total(rest)
    ensures offset == To18(start) && ReadsOwnBytes(rest)
            ==> ReadsOwnBytes([Segment(start, offset, MSS)] + rest)
  {
    var segs := [Segment(start, offset, MSS)] + rest;
    assert segs[1..] == rest;
  }

  lemma Unfold(r: Regs, rsp: TxSarRsp)
    requires r.phase == SendTx
    ensures var Step(r', out) := TxStep(r, rsp);
            TxBurst(r, rsp) == if r'.phase == SendTx then out.Then(TxBurst(r', rsp)) else out
  {
    hide TxStep;
  }

  lemma {:induction false} LoopIsSafe(r: Regs, rsp: TxSarRsp)
    requires Looping(r)
    ensures var out := TxBurst(r, rsp);
            && Contiguous(out.segments, r.sar.notAckd) && ReadsOwnBytes(out.segments)
            && Total(out.segments) <= r.currLength
            && |out.writeBacks| == 1
            && (out.writeBacks[0] == To32(r.sar.notAckd + Total(out.segments)) ||
                (r.sar.ackdEqNotAckd && out.writeBacks[0] == r.sar.notAckdShort))
    decreases r.currLength
  {
    hide TxBurst, TxStep, Contiguous, Total, ReadsOwnBytes, SegmentIfAny, To18, To32;
    Unfold(r, rsp);
    StepCases(r, rsp);
    var Step(r', out) := TxStep(r, rsp);
    if r'.phase == SendTx {
      LoopIsSafe(r', rsp);
      ContiguousMore(r.sar.notAckd, To18(r.sar.notAckd), TxBurst(r', rsp).segments);
      To32Add(r.sar.notAckd + MSS, Total(TxBurst(r', rsp).segments));
    } else {
      ContiguousOne(r.sar.notAckd, To18(r.sar.notAckd), Min(r.currLength, UsableWindow(r, rsp)));
    }
  }

  ghost function Room(minWindow: nat, used: nat): nat { Max(minWindow - used, 0) }

  /** `n` bytes are sent of `curr` with `used` in flight: cut by the window, or everything if the
      16-bit count wraps on the way to the window's edge. */
  ghost function Sent(curr: nat, minWindow: nat, used: nat): nat {
    var room := Room(minWindow, used);
    if room >= MSS && used + room / MSS * MSS >= WORD_16 then curr else Min(curr, room)
  }

  /** One full segment less leaves the same to be sent, whether the count wraps now, later or never. */
  lemma SentStep(curr: nat, minWindow: nat, used: nat)
    requires MSS <= curr < WORD_16 + MSS && MSS <= Room(minWindow, used)
    ensures Sent(curr, minWindow, used) == MSS + Sent(curr - MSS, minWindow, To16(used + MSS))
  {
    var room, used' := Room(minWindow, used), To16(used + MSS);
    if used + MSS < WORD_16 {
      assert (room - MSS) / MSS == room / MSS - 1;
    } else {
      assert room / MSS >= 1;
      assert Room(minWindow, used') >= WORD_16;
    }
  }

  lemma {:induction false} LoopFillsTheWindow(r: Regs, rsp: TxSarRsp)
    requires Looping(r) && r.currLength < WORD_16 && r.usedLength < WORD_16
    ensures var out := TxBurst(r, rsp);
            && Total(out.segments) == Sent(r.currLength, r.sar.minWindow, r.usedLength)
            && out.writeBacks ==
               [if r.sar.ackdEqNotAckd && Total(out.segments) == r.currLength
                then r.sar.notAckdShort else To32(r.sar.notAckd + Total(out.segments))]
    decreases r.currLength
  {
    hide TxBurst, TxStep, Contiguous, Total, ReadsOwnBytes, SegmentIfAny, To18, To32, Sent;
    Unfold(r, rsp);
    StepCases(r, rsp);
    UsableIsRoom(r, rsp);
    var Step(r', out) := TxStep(r, rsp);
    if r'.phase == SendTx {
      SentStep(r.currLength, r.sar.minWindow, r.usedLength);
      LoopFillsTheWindow(r', rsp);
      LoopIsSafe(r', rsp);
      ContiguousMore(r.sar.notAckd, To18(r.sar.notAckd), TxBurst(r', rsp).segments);
      To32Add(r.sar.notAckd + MSS, Total(TxBurst(r', rsp).segments));
    } else {
      SentRest(r.currLength, r.sar.minWindow, r.usedLength);
      ContiguousOne(r.sar.notAckd, To18(r.sar.notAckd), Min(r.currLength, UsableWindow(r, rsp)));
    }
  }

  lemma UsableIsRoom(r: Regs, rsp: TxSarRsp)
    requires Looping(r) && r.usedLength < WORD_16
    ensures UsableWindow(r, rsp) == Room(r.sar.minWindow, r.usedLength)
  {
  }

  lemma SentRest(curr: nat, minWindow: nat, used: nat)
    requires Min(curr, Room(minWindow, used)) < MSS
    ensures Sent(curr, minWindow, used) == Min(curr, Room(minWindow, used))
  {
  }

  /** How far the pointer written back by a burst lies past `not_ackd`. */
  ghost function Moved(r: Regs, rsp: TxSarRsp): nat
    requires r.phase == SendTx
  {
    var out := TxBurst(r, rsp);
    if out.writeBacks == [To32(rsp.notAckd + Total(out.segments))] then Total(out.segments)
    else rsp.currLength
  }

  /** For every table answer: the segments run on without gap from `not_ackd`, they carry no
      more than was waiting, and the pointer written back lies within what was waiting. */
  lemma BurstIsSafe(r: Regs, rsp: TxSarRsp)
    requires Start(r) && Computed(rsp)
    ensures var out := TxBurst(r, rsp);
            && Contiguous(out.segments, rsp.notAckd) && ReadsOwnBytes(out.segments)
            && Total(out.segments) <= Moved(r, rsp) <= rsp.currLength
            && out.writeBacks == [To32(rsp.notAckd + Moved(r, rsp))]
  {
    hide TxBurst, TxStep, Contiguous, Total, ReadsOwnBytes, SegmentIfAny, To18, To32;
    Unfold(r, rsp);
    StepCases(r, rsp);
    var Step(r', out) := TxStep(r, rsp);
    if r'.phase == SendTx {
      LoopIsSafe(r', rsp);
      ContiguousMore(rsp.notAckd, To18(rsp.notAckd), TxBurst(r', rsp).segments);
      To32Add(rsp.notAckd + MSS, Total(TxBurst(r', rsp).segments));
    } else {
      ContiguousOne(rsp.notAckd, To18(rsp.notAckd), Min(rsp.currLength, rsp.usableWindow));
    }
  }

  /** For every table answer: the burst is the effective length, cut by the window unless the count
      of the bytes in flight wraps. */
  lemma BurstTotal(r: Regs, rsp: TxSarRsp)
    requires Start(r) && Computed(rsp)
    ensures var out := TxBurst(r, rsp);
            && Total(out.segments) == (if Overruns(rsp) then Effective(rsp) else Min(Effective(rsp), rsp.usableWindow))
            && out.writeBacks ==
               [if rsp.ackdEqNotAckd && Total(out.segments) == Effective(rsp) then rsp.notAckdShort
                else To32(rsp.notAckd + Total(out.segments))]
  {
    hide TxBurst, TxStep, Contiguous, Total, ReadsOwnBytes, SegmentIfAny, To18, To32;
    Unfold(r, rsp);
    StepCases(r, rsp);
    var Step(r', out) := TxStep(r, rsp);
    if r'.phase == SendTx {
      SentStep(Effective(rsp), rsp.minWindow, rsp.usedLength);
      LoopFillsTheWindow(r', rsp);
      LoopIsSafe(r', rsp);
      ContiguousMore(rsp.notAckd, To18(rsp.notAckd), TxBurst(r', rsp).segments);
      To32Add(rsp.notAckd + MSS, Total(TxBurst(r', rsp).segments));
    } else {
      ContiguousOne(rsp.notAckd, To18(rsp.notAckd), Min(rsp.currLength, rsp.usableWindow));
    }
  }

  /** One TX event sends exactly what is waiting, cut by the usable window, and moves the
      pointer by what it sent - if and only if the 16-bit temporary loses nothing that the
      window would have let through, and the 16-bit count does not wrap within the window. */
  lemma BurstIsExactIff(r: Regs, rsp: TxSarRsp)
    requires Start(r) && Computed(rsp)
    ensures var out := TxBurst(r, rsp);
            (Total(out.segments) == Min(rsp.currLength, rsp.usableWindow) &&
             out.writeBacks == [To32(rsp.notAckd + Total(out.segments))])
            <==> NothingLost(rsp) && !Overruns(rsp)
  {
    hide TxBurst, TxStep;
    BurstTotal(r, rsp);
  }

  /** The pointer written back matches what was sent, whatever that was, if and only if the burst
      does not skip; if it skips, the pointer passes over bytes that were never sent. */
  lemma PointerMatchesIff(r: Regs, rsp: TxSarRsp)
    requires Start(r) && Computed(rsp)
    ensures var out := TxBurst(r, rsp);
            && (out.writeBacks == [To32(rsp.notAckd + Total(out.segments))] <==> !Skips(rsp))
            && Moved(r, rsp) == (if Skips(rsp) then rsp.currLength else Total(out.segments))
            && (Skips(rsp) ==> Total(out.segments) < rsp.currLength)
  {
    hide TxBurst, TxStep;
    BurstTotal(r, rsp);
  }

  /** The pointer stays within the peer's window - what is in flight afterwards fits it, unless the
      window was already overdrawn and nothing was sent - if and only if the 16-bit count does not
      wrap within the window. */
  lemma BurstRespectsWindowIff(r: Regs, rsp: TxSarRsp)
    requires Start(r) && Computed(rsp)
    ensures var sent := Total(TxBurst(r, rsp).segments);
            rsp.usedLength + sent <= Max(rsp.usedLength, rsp.minWindow) <==> !Overruns(rsp)
  {
    hide TxBurst, TxStep;
    BurstTotal(r, rsp);
  }

  // ---------- Where a burst ends ----------

  /** The phase a TX event leaves the burst for: to send a FIN, or to load the next event. */
  function BurstEnd(r: Regs, rsp: TxSarRsp): Phase
    requires r.phase == SendTx
    decreases if r.loaded then r.currLength else rsp.currLength + 1
  {
    var Step(r', _) := TxStep(r, rsp);
    if r'.phase == SendTx then BurstEnd(r', rsp) else r'.phase
  }

  lemma EndUnfold(r: Regs, rsp: TxSarRsp)
    requires r.phase == SendTx
    ensures var r' := TxStep(r, rsp).next;
            BurstEnd(r, rsp) == if r'.phase == SendTx then BurstEnd(r', rsp) else r'.phase
  {
    hide TxStep;
  }

  /** A step that leaves the phase goes on to a FIN only with nothing left behind. */
  lemma LeavesForFin(r: Regs, rsp: TxSarRsp)
    requires r.phase == SendTx
    ensures var r' := TxStep(r, rsp).next;
            var sar := if r.loaded then r.sar else rsp;
            var curr := if r.loaded then r.currLength else rsp.currLength;
            r'.phase != SendTx ==>
              r'.phase ==
              if sar.finIsReady && curr <= UsableWindow(r, rsp) && (sar.ackdEqNotAckd || curr == 0) then SendFin
              else Load
    ensures TxStep(r, rsp).next.sar.finIsReady == (if r.loaded then r.sar else rsp).finIsReady
    ensures TxStep(r, rsp).next.sar.ackdEqNotAckd == (if r.loaded then r.sar else rsp).ackdEqNotAckd
  {
    hide To16, To18, To19, To32;
  }

  lemma SameRemainder(curr: nat)
    requires curr >= MSS
    ensures (curr - MSS) % MSS == 0 <==> curr % MSS == 0
  {
  }

  lemma {:induction false} LoopEnds(r: Regs, rsp: TxSarRsp)
    requires Looping(r) && r.currLength < WORD_16 && r.usedLength < WORD_16
    ensures BurstEnd(r, rsp) ==
            if r.sar.finIsReady && Sent(r.currLength, r.sar.minWindow, r.usedLength) == r.currLength &&
               (r.sar.ackdEqNotAckd || r.currLength % MSS == 0)
            then SendFin else Load
    decreases r.currLength
  {
    hide BurstEnd, TxStep, To18, To32, Sent;
    EndUnfold(r, rsp);
    StepCases(r, rsp);
    LeavesForFin(r, rsp);
    UsableIsRoom(r, rsp);
    var r' := TxStep(r, rsp).next;
    if r'.phase == SendTx {
      SentStep(r.currLength, r.sar.minWindow, r.usedLength);
      SameRemainder(r.currLength);
      LoopEnds(r', rsp);
    } else {
      SentRest(r.currLength, r.sar.minWindow, r.usedLength);
    }
  }

  /** The FIN follows the burst at once if and only if it has been asked for, the burst sends everything
      that was effectively waiting, and either nothing was in flight before or what was waiting is a
      whole number of full segments. Otherwise it takes another event. */
  lemma FinFollowsIff(r: Regs, rsp: TxSarRsp)
    requires Start(r) && Computed(rsp)
    ensures BurstEnd(r, rsp) ==
            if rsp.finIsReady && Total(TxBurst(r, rsp).segments) == Effective(rsp) &&
               (rsp.ackdEqNotAckd || Effective(rsp) % MSS == 0)
            then SendFin else Load
  {
    hide BurstEnd, TxBurst, TxStep, Total, To18, To32;
    BurstTotal(r, rsp);
    EndUnfold(r, rsp);
    StepCases(r, rsp);
    LeavesForFin(r, rsp);
    var r' := TxStep(r, rsp).next;
    if r'.phase == SendTx {
      SentStep(Effective(rsp), rsp.minWindow, rsp.usedLength);
      SameRemainder(Effective(rsp));
      LoopEnds(r', rsp);
    }
  }

  /** 2^16 + 1460 bytes waiting, nothing in flight and a window of 2^16 - 1 bytes: one segment
      goes out, yet the pointer moves past everything that was waiting. */
  lemma LongBurstSkipsBytes() returns (r: Regs, rsp: TxSarRsp)
    ensures Start(r) && Computed(rsp) && rsp.usedLength == 0
    ensures rsp.currLength == 66996 && rsp.minWindow == 65535
    ensures Total(TxBurst(r, rsp).segments) == MSS
    ensures TxBurst(r, rsp).writeBacks == [To32(rsp.notAckd + 66996)]
  {
    rsp := TxSarRsp(100, 100, 65535, false, false, 66996, 0, 0, 65535, true, 67096);
    r := Regs(SendTx, false, 0, 0, 0, 0, rsp);
    hide TxBurst, TxStep;
    BurstTotal(r, rsp);
  }

  /** With a window of 2^16 bytes or more the 16-bit count of bytes in flight wraps, and the
      burst sends past the window. */
  lemma WideWindowIsOverrun() returns (r: Regs, rsp: TxSarRsp)
    ensures Start(r) && Computed(rsp)
    ensures rsp.minWindow == 66000 && rsp.usedLength == 64540
    ensures Total(TxBurst(r, rsp).segments) == rsp.usableWindow + 1
  {
    rsp := TxSarRsp(100, 64640, 66000, false, false, 1461, 64540, 64540, 1460, false, 66101);
    r := Regs(SendTx, false, 0, 0, 0, 0, rsp);
    var Step(r', out) := TxStep(r, rsp);
    assert r'.usedLength == 464 && r'.remainingWindow == 65536;
    var Step(r'', out') := TxStep(r', rsp);
    hide TxBurst, TxStep;
    Unfold(r, rsp);
    Unfold(r', rsp);
    ContiguousOne(r'.sar.notAckd, To18(r'.sar.notAckd), 1);
    assert out.Then(out').segments[1..] == out'.segments;
  }

  // ---------- Retransmission ----------

  /** One step of an RT event. The first segment is read from the offset of `ackd`; later ones
      from the offset held by a freshly zeroed local. */
  function RtStep(r: Regs, rsp: TxSarRsp): Step {
    var sar := if r.phase == Retransmit then rsp else r.sar;
    var offset := if r.phase == Retransmit then To18(rsp.ackd) else 0;
    var curr := sar.usedLengthRst;
    if curr > MSS then
      Step(r.(phase := if r.segCount == 3 then Load else RetransmitMore,
              loaded := true, segCount := r.segCount + 1,
              sar := sar.(ackd := To32(sar.ackd + MSS), usedLengthRst := curr - MSS)),
           Output([Segment(sar.ackd, offset, MSS)], []))
    else
      Step(r.(phase := if sar.finIsSent then SendFin else Load, loaded := true, sar := sar),
           Output(SegmentIfAny(sar.ackd, offset, curr), []))
  }

  function RtBurst(r: Regs, rsp: TxSarRsp): Output
    requires r.phase == Retransmit || r.phase == RetransmitMore
    requires r.segCount <= 3
    decreases 4 - r.segCount
  {
    var Step(r', out) := RtStep(r, rsp);
    if r'.phase == RetransmitMore then out.Then(RtBurst(r', rsp)) else out
  }

  lemma {:induction false} RetransmitsFrom(r: Regs, rsp: TxSarRsp, sar: TxSarRsp)
    requires r.phase == Retransmit || r.phase == RetransmitMore
    requires r.segCount <= 3
    requires sar == if r.phase == Retransmit then rsp else r.sar
    ensures var out := RtBurst(r, rsp);
            && Contiguous(out.segments, sar.ackd)
            && Total(out.segments) == Min(sar.usedLengthRst, (4 - r.segCount) * MSS)
            && out.writeBacks == []
    decreases 4 - r.segCount
  {
    var Step(r', out) := RtStep(r, rsp);
    var offset := if r.phase == Retransmit then To18(rsp.ackd) else 0;
    hide To18, To32, Contiguous, Total;
    if r'.phase == RetransmitMore {
      RetransmitsFrom(r', rsp, r'.sar);
      ContiguousMore(sar.ackd, offset, RtBurst(r', rsp).segments);
    } else {
      ContiguousOne(sar.ackd, offset, Min(sar.usedLengthRst, MSS));
    }
  }

  /** Where a retransmission ends. */
  function RtEnd(r: Regs, rsp: TxSarRsp): Phase
    requires r.phase == Retransmit || r.phase == RetransmitMore
    requires r.segCount <= 3
    decreases 4 - r.segCount
  {
    var r' := RtStep(r, rsp).next;
    if r'.phase == RetransmitMore then RtEnd(r', rsp) else r'.phase
  }

  lemma {:induction false} RtEnds(r: Regs, rsp: TxSarRsp, sar: TxSarRsp)
    requires r.phase == Retransmit || r.phase == RetransmitMore
    requires r.segCount <= 3
    requires sar == if r.phase == Retransmit then rsp else r.sar
    ensures RtEnd(r, rsp) == if sar.finIsSent && sar.usedLengthRst <= (4 - r.segCount) * MSS then SendFin else Load
    decreases 4 - r.segCount
  {
    hide To18, To32;
    var r' := RtStep(r, rsp).next;
    if r'.phase == RetransmitMore { RtEnds(r', rsp, r'.sar); }
  }

  /** A FIN that was sent is repeated behind the bytes if and only if they all fit the four segments. */
  lemma FinIsRepeatedIff(r: Regs, rsp: TxSarRsp)
    requires r.phase == Retransmit && r.segCount == 0
    ensures RtEnd(r, rsp) == SendFin <==> rsp.finIsSent && rsp.usedLengthRst <= 4 * MSS
    ensures RtEnd(r, rsp) == SendFin || RtEnd(r, rsp) == Load
  {
    hide RtEnd;
    RtEnds(r, rsp, rsp);
  }

  /** A retransmission repeats, without gap, what is in flight from `ackd` on, up to four full
      segments, and leaves the table's pointer alone. */
  lemma RetransmissionCovers(r: Regs, rsp: TxSarRsp)
    requires r.phase == Retransmit && r.segCount == 0
    ensures var out := RtBurst(r, rsp);
            && Contiguous(out.segments, rsp.ackd)
            && Total(out.segments) == Min(rsp.usedLengthRst, 4 * MSS)
            && out.writeBacks == []
  {
    hide RtBurst, Contiguous, Total;
    RetransmitsFrom(r, rsp, rsp);
  }

  lemma RtUnfold(r: Regs, rsp: TxSarRsp)
    requires r.phase == Retransmit || r.phase == RetransmitMore
    requires r.segCount <= 3
    ensures var Step(r', out) := RtStep(r, rsp);
            RtBurst(r, rsp) == if r'.phase == RetransmitMore then out.Then(RtBurst(r', rsp)) else out
  {
    hide RtStep;
  }

  lemma RtLaterSegments(r: Regs, rsp: TxSarRsp)
    requires r.phase == Retransmit && r.segCount == 0 && rsp.usedLengthRst > MSS
    ensures var segs := RtBurst(r, rsp).segments;
            && |segs| >= 2
            && segs[0].memOffset == To18(segs[0].seqNumber)
            && segs[1].seqNumber == To32(rsp.ackd + MSS) && segs[1].memOffset == 0
            && (rsp.usedLengthRst <= 2 * MSS ==> |segs| == 2)
            && (rsp.usedLengthRst > 2 * MSS ==>
                  |segs| >= 3 && segs[2].seqNumber == To32(To32(rsp.ackd + MSS) + MSS) &&
                  segs[2].memOffset == 0)
  {
    hide RtBurst, To18, To32;
    var Step(r1, out1) := RtStep(r, rsp);
    var Step(r2, out2) := RtStep(r1, rsp);
    RtUnfold(r, rsp);
    RtUnfold(r1, rsp);
    if rsp.usedLengthRst > 2 * MSS {
      RtUnfold(r2, rsp);
    }
  }

  /** Every repeated segment carries its own bytes if and only if there is one segment, or two
      with the second one starting at the first byte of the buffer. */
  lemma RetransmissionReadsOwnBytesIff(r: Regs, rsp: TxSarRsp)
    requires r.phase == Retransmit && r.segCount == 0
    ensures ReadsOwnBytes(RtBurst(r, rsp).segments) <==>
            (rsp.usedLengthRst <= MSS ||
             (rsp.usedLengthRst <= 2 * MSS && To18(rsp.ackd + MSS) == 0))
  {
    hide RtBurst, To18, To32;
    var segs := RtBurst(r, rsp).segments;
    if rsp.usedLengthRst <= MSS {
      RtUnfold(r, rsp);
    } else {
      hide RtStep;
      RtLaterSegments(r, rsp);
      To18To32(rsp.ackd + MSS);
      assert segs[1] in segs;
      if rsp.usedLengthRst > 2 * MSS {
        assert segs[2] in segs;
        To32Add(rsp.ackd + MSS, MSS);
        To18To32(rsp.ackd + 2 * MSS);
        NotBothAtStart(rsp.ackd + MSS);
      }
    }
  }

  lemma NotBothAtStart(a: int)
    ensures To18(a) != 0 || To18(a + MSS) != 0
  {
  }

  // ---------- The machine ----------

  class TxEngTcpFsm {
    var phase: Phase
    var loaded: bool
    var currLength: u18
    var usedLength: u18
    var remainingWindow: u19
    var segCount: nat
    var sar: TxSarRsp
    // streams
    var segments: seq<Segment>
    var tableWrites: seq<u32>

    ghost function View(): Regs
      reads this
    {
      Regs(phase, loaded, currLength, usedLength, remainingWindow, segCount, sar)
    }

    constructor (rsp: TxSarRsp)
      ensures View() == Regs(Load, false, 0, 0, 0, 0, rsp)
      ensures segments == [] && tableWrites == []
    {
      phase, loaded, currLength, usedLength, remainingWindow, segCount := Load, false, 0, 0, 0, 0;
      sar := rsp;
      segments, tableWrites := [], [];
    }

    /** LOAD: an event arrives, and the machine forgets the previous one. */
    method LoadEvent(event: Phase)
      requires phase == Load
      modifies this
      ensures View() == old(View()).(phase := event, loaded := false, segCount := 0)
      ensures segments == old(segments) && tableWrites == old(tableWrites)
    {
      phase, loaded, segCount := event, false, 0;
    }

    /** The branches of a TX step: what to send, where to go, and the next lengths. */
    static method ChooseSegment(rsp: TxSarRsp, curr: u18, used: u18, usable: u18)
      returns (phase: Phase, length: u16, notAckd: u32, nextCurr: u16, nextUsed: u16, writeBack: seq<u32>)
      ensures Choice(phase, length, notAckd, nextCurr, nextUsed, writeBack) == Choose(rsp, curr, used, usable)
    {
      hide To16, To18, To32;
      phase, length, notAckd, writeBack := SendTx, MSS, To32(rsp.notAckd + MSS), [];
      nextCurr, nextUsed := To16(curr - MSS), To16(used + MSS);
      if curr <= usable {
        if curr < MSS {
          phase := if rsp.finIsReady && (rsp.ackdEqNotAckd || curr == 0) then SendFin else Load;
          length := curr;
          if rsp.ackdEqNotAckd {
            nextCurr := To16(To18(rsp.notAckd) - curr);
            nextUsed := To16(To18(rsp.notAckd) + curr);
            notAckd := rsp.notAckdShort;
          } else {
            // these two are not read afterwards
            nextCurr, nextUsed := To16(curr), To16(used);
            notAckd := To32(rsp.notAckd + curr);
          }
          writeBack := [notAckd];
        }
      } else if usable < MSS {
        phase, length, notAckd := Load, usable, To32(rsp.notAckd + usable);
        nextCurr, nextUsed := To16(curr - usable), To16(used + usable);
        writeBack := [notAckd];
      }
    }

    /** TRANSITION, TX event. */
    method TransitionTx(rsp: TxSarRsp)
      requires phase == SendTx
      modifies this
      ensures View() == TxStep(old(View()), rsp).next
      ensures segments == old(segments) + TxStep(old(View()), rsp).out.segments
      ensures tableWrites == old(tableWrites) + TxStep(old(View()), rsp).out.writeBacks
    {
      hide To16, To18, To19, To32, Choose;
      var rspReg, curr, used, usable := sar, currLength, usedLength, 0;
      if !loaded {
        rspReg, curr, used, usable := rsp, rsp.currLength, rsp.usedLength, rsp.usableWindow;
      } else if remainingWindow < BUFFER_SIZE {
        usable := remainingWindow;
      }
      var next, length, notAckd, nextCurr, nextUsed, writeBack := ChooseSegment(rspReg, curr, used, usable);
      segments := segments + SegmentIfAny(rspReg.notAckd, To18(rspReg.notAckd), length);
      tableWrites := tableWrites + writeBack;
      remainingWindow := To19(rspReg.minWindow - nextUsed);
      phase, currLength, usedLength, loaded := next, nextCurr, nextUsed, true;
      sar := rspReg.(notAckd := notAckd);
    }

    /** TRANSITION, RT event and its continuation. */
    method TransitionRt(rsp: TxSarRsp)
      requires phase == Retransmit || phase == RetransmitMore
      modifies this
      ensures View() == RtStep(old(View()), rsp).next
      ensures segments == old(segments) + RtStep(old(View()), rsp).out.segments
      ensures tableWrites == old(tableWrites) + RtStep(old(View()), rsp).out.writeBacks
    {
      var offset: u18 := 0;
      if phase == Retransmit {
        sar := rsp;
        offset := To18(rsp.ackd);
      }
      var curr, from := sar.usedLengthRst, sar.ackd;
      if curr > MSS {
        sar := sar.(ackd := To32(from + MSS), usedLengthRst := curr - MSS);
        phase := if segCount == 3 then Load else RetransmitMore;
        segCount := segCount + 1;
        segments := segments + SegmentIfAny(from, offset, MSS);
      } else {
        phase := if sar.finIsSent then SendFin else Load;
        segments := segments + SegmentIfAny(from, offset, curr);
      }
      loaded := true;
    }

    /** A TX event, stepped until the machine leaves the TX phase. */
    method TransmitEvent(rsp: TxSarRsp)
      requires phase == SendTx
      modifies this
      ensures Output(segments, tableWrites) ==
              Output(old(segments), old(tableWrites)).Then(TxBurst(old(View()), rsp))
      ensures phase == BurstEnd(old(View()), rsp) && phase != SendTx
    {
      ghost var whole := Output(segments, tableWrites).Then(TxBurst(View(), rsp));
      while phase == SendTx
        invariant BurstEnd(old(View()), rsp) == if phase == SendTx then BurstEnd(View(), rsp) else phase
        invariant Output(segments, tableWrites).Then(
                    if phase == SendTx then TxBurst(View(), rsp) else NOTHING) == whole
        decreases phase == SendTx, if loaded then currLength else rsp.currLength + 1
      {
        ghost var before, emitted := View(), Output(segments, tableWrites);
        TransitionTx(rsp);
        BurstRest(before, rsp, emitted);
        EndUnfold(before, rsp);
      }
    }
  }

  /** The output so far and the rest of the burst make the same whole before and after a step. */
  lemma BurstRest(r: Regs, rsp: TxSarRsp, emitted: Output)
    requires r.phase == SendTx
    ensures var Step(r', out) := TxStep(r, rsp);
            && emitted.Then(TxBurst(r, rsp)) ==
               emitted.Then(out).Then(if r'.phase == SendTx then TxBurst(r', rsp) else NOTHING)
            && (r'.phase == SendTx ==>
                  r'.loaded && r'.currLength < if r.loaded then r.currLength else rsp.currLength + 1)
  {
    hide TxBurst;
    Unfold(r, rsp);
    var Step(r', out) := TxStep(r, rsp);
    hide TxStep;
    var rest := if r'.phase == SendTx then TxBurst(r', rsp) else NOTHING;
    assert TxBurst(r, rsp).segments == out.segments + rest.segments;
    assert TxBurst(r, rsp).writeBacks == out.writeBacks + rest.writeBacks;
  }
}
