/** The transmit side of one session: six modules share its pointers through streams.

      app -> TxAppDataHandler -> data mover -> TxAppRspHandler -> TX SAR table <-> TX engine
                    ^                                                 |    ^
                    +------------- TX app table <---------------------+    +---- RX engine

    The pointers live at 18 and 32 bits, in copies that lag behind each other. Beside each copy
    the model keeps the unbounded position it stands for; positions never influence a step.
    The state starts right after the SYN of the session has initialised both tables.
 */
module TxWindow {
  import opened Words
  import opened RingMemory
  import opened TxEngine

  // ---------- Streams ----------

  datatype AckUpdate = AckUpdate(ackd: u18, ghost pos: int)
  datatype WrittenUpdate = WrittenUpdate(appWritten: u18, ghost pos: int)
  datatype WriteCommand = WriteCommand(memOffset: u18, payload: seq<byte>, ghost start: int)
  datatype WriteEvent = WriteEvent(bufAddr: u18, length: u16, ghost start: int)
  datatype EngineRequest = EngineRead | EngineWrite(notAckd: u32, ghost pos: int)
  datatype EngineAnswer = EngineAnswer(rsp: TxSarRsp, ghost ackdPos: int, ghost notAckdPos: int, ghost writtenPos: int)
  datatype RxRequest = RxRead | RxWrite(ackd: u32, recvWindow: u16, congWindow: u18, ghost pos: int)
  datatype RxAnswer = RxAnswer(prevAck: u32, nextByte: u32, ghost prevPos: int, ghost nextPos: int)
  datatype TableRequest = TableRead | TableWrite(ideal: u18, ghost pos: int)
  datatype TableAnswer = TableAnswer(ackd: u18, ideal: u18, ghost ackdPos: int, ghost idealPos: int)

  /** What the application was told. */
  datatype Verdict = NoError | NoConnection | NoSpace

  /** A segment as it left: sequence number and payload bytes. */
  datatype SentSegment = SentSegment(seqNumber: u32, bytes: seq<byte>, ghost pos: int)

  /** One session's entry in the TX SAR table, and in the TX app table. */
  datatype SarEntry = SarEntry(
    ackd: u32, notAckd: u32, appWritten: u18, recvWindow: u16, congWindow: u18, winShift: WinShift)
  datatype AppEntry = AppEntry(ackd: u18, ideal: u18)

  /** A module's two streams with a table, and its register that waits for the answer. */
  datatype EngineLink = EngineLink(requests: seq<EngineRequest>, answers: seq<EngineAnswer>, busy: bool)
  datatype RxLink = RxLink(requests: seq<RxRequest>, answers: seq<RxAnswer>, segment: Option<AckSegment>)
  datatype TableLink = TableLink(
    requests: seq<TableRequest>, answers: seq<TableAnswer>, pending: Option<seq<byte>>)

  /** Writes on their way to memory: commands to the mover, its statuses, and the events that
      wait for them. */
  datatype WriteLink = WriteLink(commands: seq<WriteCommand>, events: seq<WriteEvent>, statuses: nat)

  /** The six modules' tables, registers and streams, external memory, and what the two ends saw. */
  datatype State = State(
    sar: SarEntry, app: AppEntry,
    engine: EngineLink, rx: RxLink, table: TableLink, writes: WriteLink,
    ackUpdates: seq<AckUpdate>, writtenUpdates: seq<WrittenUpdate>,
    memory: Memory, verdicts: seq<Verdict>, sent: seq<SentSegment>)

  /** The scale option is capped at 2 when it is parsed. */
  type WinShift = x: int | 0 <= x <= 2

  datatype AckSegment = AckSegment(ackNumber: u32, recvWindow: u16, congWindow: u18)

  /** The positions behind the copies, and the bytes the application has handed over. */
  datatype Positions = Positions(
    base: int,
    appAckd: int, ackd: int, acked: int,
    notAckd: int, handed: int,
    written: int, confirmed: int, stored: int,
    tableIdeal: int, ideal: int,
    stream: seq<byte>)

  datatype System = System(st: State, pos: Positions)

  // ---------- The TX SAR table ----------

  function MinWindow(s: State): u18 {
    Min(s.sar.congWindow, ScaledWindow(s.sar.recvWindow, s.sar.winShift))
  }

  function ScaledWindow(recvWindow: u16, winShift: WinShift): u18 {
    if winShift == 0 then recvWindow else if winShift == 1 then 2 * recvWindow else 4 * recvWindow
  }

  /** The table's answer to the transmit engine; no FIN has been asked for. */
  function SarAnswer(ackd: u32, notAckd: u32, appWritten: u18, minWindow: u18): TxSarRsp {
    var curr := To18(appWritten - To18(notAckd));
    var used := To18(To18(notAckd) - ackd);
    TxSarRsp(ackd, notAckd, minWindow, false, false, curr, used, used,
             if minWindow > used then minWindow - used else 0,
             ackd == notAckd, To32(notAckd + curr))
  }

  ghost function SarServesEngine(y: System): System
    requires y.st.engine.requests != []
  {
    var s, p := y.st, y.pos;
    match s.engine.requests[0]
    case EngineWrite(notAckd, pos) =>
      System(s.(engine := s.engine.(requests := s.engine.requests[1..]), sar := s.sar.(notAckd := notAckd)),
             p.(notAckd := pos))
    case EngineRead =>
      var rsp := SarAnswer(s.sar.ackd, s.sar.notAckd, s.sar.appWritten, MinWindow(s));
      var answer := EngineAnswer(rsp, p.ackd, p.notAckd, p.written);
      System(s.(engine := s.engine.(requests := s.engine.requests[1..], answers := s.engine.answers + [answer])), p)
  }

  ghost function SarServesApp(y: System): System
    requires y.st.writtenUpdates != []
  {
    var u := y.st.writtenUpdates[0];
    System(y.st.(writtenUpdates := y.st.writtenUpdates[1..], sar := y.st.sar.(appWritten := u.appWritten)),
           y.pos.(written := u.pos))
  }

  ghost function SarServesRx(y: System): System
    requires y.st.rx.requests != []
  {
    var s, p := y.st, y.pos;
    match s.rx.requests[0]
    case RxWrite(ackd, recvWindow, congWindow, pos) =>
      System(s.(rx := s.rx.(requests := s.rx.requests[1..]),
                sar := s.sar.(ackd := ackd, recvWindow := recvWindow, congWindow := congWindow),
                ackUpdates := s.ackUpdates + [AckUpdate(To18(ackd), pos)]),
             p.(ackd := pos))
    case RxRead =>
      var answer := RxAnswer(s.sar.ackd, s.sar.notAckd, p.ackd, p.notAckd);
      System(s.(rx := s.rx.(requests := s.rx.requests[1..], answers := s.rx.answers + [answer])), p)
  }

  /** Requests of the TX engine come first, then the application's, then the RX engine's. */
  ghost function SarTableStep(y: System): System {
    if y.st.engine.requests != [] then SarServesEngine(y)
    else if y.st.writtenUpdates != [] then SarServesApp(y)
    else if y.st.rx.requests != [] then SarServesRx(y)
    else y
  }

  // ---------- The TX app table ----------

  ghost function AppTableTakes(y: System): System
    requires y.st.ackUpdates != []
  {
    var u := y.st.ackUpdates[0];
    System(y.st.(ackUpdates := y.st.ackUpdates[1..], app := y.st.app.(ackd := u.ackd)),
           y.pos.(appAckd := u.pos))
  }

  ghost function AppTableServes(y: System): System
    requires y.st.table.requests != []
  {
    var s, p := y.st, y.pos;
    match s.table.requests[0]
    case TableWrite(ideal, pos) =>
      System(s.(table := s.table.(requests := s.table.requests[1..]), app := s.app.(ideal := ideal)),
             p.(tableIdeal := pos))
    case TableRead =>
      var answer := TableAnswer(s.app.ackd, s.app.ideal, p.appAckd, p.tableIdeal);
      System(s.(table := s.table.(requests := s.table.requests[1..], answers := s.table.answers + [answer])), p)
  }

  /** Acknowledgements from the SAR table come first, then the data handler's requests. */
  ghost function AppTableStep(y: System): System {
    if y.st.ackUpdates != [] then AppTableTakes(y)
    else if y.st.table.requests != [] then AppTableServes(y)
    else y
  }

  // ---------- The application's side ----------

  /** READ_REQUEST: remember the request, ask the table. */
  ghost function AppRequestStep(y: System, payload: seq<byte>): System {
    var s := y.st;
    if s.table.pending.None? then
      System(s.(table := s.table.(pending := Some(payload), requests := s.table.requests + [TableRead])), y.pos)
    else y
  }

  /** The room an admission test sees. */
  function MaxWriteLength(ackd: u18, ideal: u18): u18 {
    To18(ackd - ideal - 1)
  }

  function Admit(established: bool, length: nat, ackd: u18, ideal: u18): Verdict {
    if !established then NoConnection
    else if length > MaxWriteLength(ackd, ideal) then NoSpace
    else NoError
  }

  /** An admitted write becomes a command for the mover and an event that waits for its status. */
  function Submit(writes: WriteLink, a: TableAnswer, payload: seq<byte>): WriteLink {
    writes.(commands := writes.commands + [WriteCommand(a.ideal, payload, a.idealPos)],
            events := writes.events + [WriteEvent(a.ideal, To16(|payload|), a.idealPos)])
  }

  /** READ_META: admit the write or refuse it. */
  ghost function AppDecideStep(y: System, established: bool): System {
    var s, p := y.st, y.pos;
    if s.table.pending.Some? && s.table.answers != [] then
      var a := s.table.answers[0];
      var payload := s.table.pending.value;
      var verdict := Admit(established, |payload|, a.ackd, a.ideal);
      var table := s.table.(pending := None, answers := s.table.answers[1..]);
      var s' := s.(table := table, verdicts := s.verdicts + [verdict]);
      if verdict.NoError? then
        var end := a.idealPos + |payload|;
        System(s'.(table := table.(requests := table.requests + [TableWrite(To18(a.ideal + |payload|), end)]),
                   writes := Submit(s.writes, a, payload)),
               p.(ideal := end, stream := p.stream + payload))
      else System(s', p)
    else y
  }

  /** The data mover performs the oldest write and reports it. */
  ghost function MoverStep(y: System): System {
    var s, p := y.st, y.pos;
    if s.writes.commands != [] then
      var c := s.writes.commands[0];
      System(s.(writes := s.writes.(commands := s.writes.commands[1..], statuses := s.writes.statuses + 1),
                memory := Store(s.memory, c.memOffset, c.payload)),
             p.(stored := c.start + |c.payload|))
    else y
  }

  /** A reported write moves the real write pointer. */
  ghost function AppResponseStep(y: System): System {
    var s, p := y.st, y.pos;
    if s.writes.events != [] && s.writes.statuses > 0 then
      var e := s.writes.events[0];
      var end := e.start + e.length;
      System(s.(writes := s.writes.(events := s.writes.events[1..], statuses := s.writes.statuses - 1),
                writtenUpdates := s.writtenUpdates + [WrittenUpdate(To18(e.bufAddr + e.length), end)]),
             p.(confirmed := end))
    else y
  }

  // ---------- The TX engine ----------

  ghost function EngineLoadStep(y: System): System {
    var s := y.st;
    if !s.engine.busy then
      System(s.(engine := s.engine.(busy := true, requests := s.engine.requests + [EngineRead])), y.pos)
    else y
  }

  /** The payloads of a burst, read from memory. */
  ghost function Payloads(mem: Memory, segments: seq<Segment>, pos: int): seq<SentSegment> {
    if segments == [] then []
    else
      var g := segments[0];
      [SentSegment(g.seqNumber, ReadRing(mem, g.memOffset, g.length), pos)] +
      Payloads(mem, segments[1..], pos + g.length)
  }

  function FreshRegs(rsp: TxSarRsp): Regs { Regs(SendTx, false, 0, 0, 0, 0, rsp) }

  /** A TX event: send the burst, hand the new pointer to the table. */
  ghost function EngineTransmitStep(y: System): System {
    var s, p := y.st, y.pos;
    if s.engine.busy && s.engine.answers != [] then
      var a := s.engine.answers[0];
      var out := TxBurst(FreshRegs(a.rsp), a.rsp);
      var handed := a.notAckdPos + Moved(FreshRegs(a.rsp), a.rsp);
      System(s.(engine := EngineLink(s.engine.requests + EngineWrites(out.writeBacks, handed),
                                     s.engine.answers[1..], false),
                sent := s.sent + Payloads(s.memory, out.segments, a.notAckdPos)),
             p.(handed := handed))
    else y
  }

  ghost function EngineWrites(writeBacks: seq<u32>, pos: int): seq<EngineRequest> {
    seq(|writeBacks|, i requires 0 <= i < |writeBacks| => EngineWrite(writeBacks[i], pos))
  }

  /** Any other event that only reads the table: a pure ACK, or a retransmission. */
  ghost function EngineOtherStep(y: System): System {
    var s := y.st;
    if s.engine.busy && s.engine.answers != [] then
      System(s.(engine := s.engine.(busy := false, answers := s.engine.answers[1..])), y.pos)
    else y
  }

  // ---------- The RX engine ----------

  ghost function RxLoadStep(y: System, segment: AckSegment): System {
    var s := y.st;
    if s.rx.segment.None? then
      System(s.(rx := s.rx.(segment := Some(segment), requests := s.rx.requests + [RxRead])), y.pos)
    else y
  }

  /** The test an acknowledgement number has to pass, on wrapping 32-bit numbers. */
  predicate AckAcceptable(prevAck: u32, nextByte: u32, ack: u32) {
    || (prevAck <= ack && ack <= nextByte)
    || ((prevAck <= ack || ack <= nextByte) && nextByte < prevAck)
  }

  /** The position an acknowledgement number stands for, counted from the last one. */
  ghost function AckPosition(prevAck: u32, prevPos: int, ack: u32): int {
    prevPos + To32(ack - prevAck)
  }

  ghost function RxAckStep(y: System): System {
    var s, p := y.st, y.pos;
    if s.rx.segment.Some? && s.rx.answers != [] then
      var a, g := s.rx.answers[0], s.rx.segment.value;
      if AckAcceptable(a.prevAck, a.nextByte, g.ackNumber) then
        var pos := AckPosition(a.prevAck, a.prevPos, g.ackNumber);
        var request := RxWrite(g.ackNumber, g.recvWindow, g.congWindow, pos);
        System(s.(rx := RxLink(s.rx.requests + [request], s.rx.answers[1..], None)), p.(acked := pos))
      else System(s.(rx := RxLink(s.rx.requests, s.rx.answers[1..], None)), p)
    else y
  }

  // ---------- Runs ----------

  /** What the scheduler and the world can do next. */
  datatype Action =
    | SarTable | AppTable | Mover | AppResponse
    | AppRequest(payload: seq<byte>)
    | AppDecide(established: bool)
    | EngineLoad | EngineTransmit | EngineOther
    | RxLoad(segment: AckSegment)
    | RxAck

  ghost function Next(y: System, a: Action): System {
    match a
    case SarTable => SarTableStep(y)
    case AppTable => AppTableStep(y)
    case Mover => MoverStep(y)
    case AppResponse => AppResponseStep(y)
    case AppRequest(payload) => AppRequestStep(y, payload)
    case AppDecide(established) => AppDecideStep(y, established)
    case EngineLoad => EngineLoadStep(y)
    case EngineTransmit => EngineTransmitStep(y)
    case EngineOther => EngineOtherStep(y)
    case RxLoad(segment) => RxLoadStep(y, segment)
    case RxAck => RxAckStep(y)
  }

  /** The event and the memory command carry the length in 16 bits. */
  predicate Short(a: Action) {
    a.AppRequest? ==> |a.payload| < WORD_16
  }

  /** Right after the SYN with sequence number `isn` has initialised both tables. */
  ghost function Initial(isn: u32, recvWindow: u16, winShift: WinShift): System {
    System(
      State(SarEntry(isn, To32(isn + 1), To18(isn + 1), recvWindow, 14600, winShift),
            AppEntry(To18(isn), To18(isn + 1)),
            EngineLink([], [], false), RxLink([], [], None), TableLink([], [], None), WriteLink([], [], 0),
            [], [], map[], [], []),
      Positions(isn + 1, isn, isn, isn, isn + 1, isn + 1, isn + 1, isn + 1, isn + 1, isn + 1, isn + 1, []))
  }

  ghost function Run(y: System, actions: seq<Action>): System {
    if actions == [] then y
    else Next(Run(y, actions[..|actions| - 1]), actions[|actions| - 1])
  }

  // ---------- The invariant ----------

  /** The order of the pointers, and the one bound that keeps the ring from overrunning. */
  ghost predicate Ordered(p: Positions) {
    && p.base - 1 <= p.appAckd <= p.ackd <= p.acked <= p.notAckd <= p.handed
    && p.handed <= p.written <= p.confirmed <= p.stored <= p.ideal
    && p.base <= p.notAckd
    && p.tableIdeal <= p.ideal <= p.appAckd + BUFFER_SIZE - 1
    && p.ideal == p.base + |p.stream|
  }

  /** Every table field is the residue of its position. */
  ghost predicate Residues(y: System) {
    var s, p := y.st, y.pos;
    && s.sar.ackd == To32(p.ackd) && s.sar.notAckd == To32(p.notAckd) && s.sar.appWritten == To18(p.written)
    && s.app.ackd == To18(p.appAckd) && s.app.ideal == To18(p.tableIdeal)
  }

  /** Acknowledgements on their way from the SAR table to the application's table. */
  ghost predicate AckStream(q: seq<AckUpdate>, low: int, high: int) {
    if q == [] then low == high
    else low <= q[0].pos && q[0].ackd == To18(q[0].pos) && AckStream(q[1..], q[0].pos, high)
  }

  /** Confirmed writes on their way to the SAR table. */
  ghost predicate WrittenStream(q: seq<WrittenUpdate>, low: int, high: int) {
    if q == [] then low == high
    else low <= q[0].pos && q[0].appWritten == To18(q[0].pos) && WrittenStream(q[1..], q[0].pos, high)
  }

  /** The TX engine's stream holds at most one write, then at most one read. */
  ghost predicate EngineStream(y: System) {
    var s, p := y.st, y.pos;
    && |s.engine.requests| <= 2
    && (|s.engine.requests| == 2 ==> s.engine.requests[0].EngineWrite? && s.engine.requests[1].EngineRead?)
    && (|s.engine.requests| > 0 && s.engine.requests[0].EngineWrite? ==>
          s.engine.requests[0].pos == p.handed && s.engine.requests[0].notAckd == To32(p.handed))
    && (|s.engine.requests| > 0 && s.engine.requests[|s.engine.requests| - 1].EngineRead? ==>
          s.engine.busy && s.engine.answers == [])
    && (|s.engine.requests| == 0 || s.engine.requests[0].EngineRead? ==> p.notAckd == p.handed)
    && |s.engine.answers| <= 1
    && (s.engine.answers != [] ==> s.engine.busy && s.engine.requests == [] && GoodAnswer(s.engine.answers[0], p))
  }

  /** A table answer describes an earlier moment: the same `not_ackd`, older other pointers, and
      lengths that are true distances between them. */
  ghost predicate GoodAnswer(a: EngineAnswer, p: Positions) {
    && Computed(a.rsp)
    && a.rsp.notAckd == To32(a.notAckdPos)
    && a.notAckdPos == p.handed
    && a.ackdPos <= a.notAckdPos <= a.writtenPos <= p.written
    && a.rsp.currLength == a.writtenPos - a.notAckdPos
    && a.rsp.usedLength == a.notAckdPos - a.ackdPos
  }

  /** The RX engine's stream holds at most one write, then at most one read. */
  ghost predicate RxStream(y: System) {
    var s, p := y.st, y.pos;
    && |s.rx.requests| <= 2
    && (|s.rx.requests| == 2 ==> s.rx.requests[0].RxWrite? && s.rx.requests[1].RxRead?)
    && (|s.rx.requests| > 0 && s.rx.requests[0].RxWrite? ==>
          s.rx.requests[0].pos == p.acked && s.rx.requests[0].ackd == To32(p.acked))
    && (|s.rx.requests| > 0 && s.rx.requests[|s.rx.requests| - 1].RxRead? ==> s.rx.segment.Some? && s.rx.answers == [])
    && (|s.rx.requests| == 0 || s.rx.requests[0].RxRead? ==> p.ackd == p.acked)
    && |s.rx.answers| <= 1
    && (s.rx.answers != [] ==> s.rx.segment.Some? && s.rx.requests == [] && GoodRange(s.rx.answers[0], p))
  }

  ghost predicate GoodRange(a: RxAnswer, p: Positions) {
    && a.prevAck == To32(a.prevPos) && a.nextByte == To32(a.nextPos)
    && a.prevPos == p.acked && a.prevPos <= a.nextPos <= p.notAckd
  }

  /** The application's stream to its table holds at most one write, then at most one read. */
  ghost predicate TableStream(y: System) {
    var s, p := y.st, y.pos;
    && |s.table.requests| <= 2
    && (|s.table.requests| == 2 ==> s.table.requests[0].TableWrite? && s.table.requests[1].TableRead?)
    && (|s.table.requests| > 0 && s.table.requests[0].TableWrite? ==>
          s.table.requests[0].pos == p.ideal && s.table.requests[0].ideal == To18(p.ideal))
    && (|s.table.requests| > 0 && s.table.requests[|s.table.requests| - 1].TableRead? ==>
          s.table.pending.Some? && s.table.answers == [])
    && (|s.table.requests| == 0 || s.table.requests[0].TableRead? ==> p.tableIdeal == p.ideal)
    && |s.table.answers| <= 1
    && (s.table.answers != [] ==> s.table.pending.Some? && s.table.requests == [] && GoodRoom(s.table.answers[0], p))
    && (s.table.pending.Some? ==> |s.table.pending.value| < WORD_16)
  }

  ghost predicate GoodRoom(a: TableAnswer, p: Positions) {
    && a.ackd == To18(a.ackdPos) && a.ideal == To18(a.idealPos)
    && a.idealPos == p.ideal && a.ackdPos <= p.appAckd
    && a.idealPos <= a.ackdPos + BUFFER_SIZE - 1
  }

  /** Write events lie end to end. */
  ghost predicate Chain(q: seq<WriteEvent>, from: int, to: int) {
    if q == [] then from == to
    else q[0].start == from && q[0].bufAddr == To18(from) && Chain(q[1..], from + q[0].length, to)
  }

  /** A command carries the bytes of its own place in the stream, and matches its event. */
  ghost predicate Matches(c: WriteCommand, e: WriteEvent, p: Positions) {
    && c.start == e.start && c.memOffset == To18(c.start) && |c.payload| == e.length
    && p.base <= c.start && c.start + |c.payload| <= p.ideal
    && (p.ideal == p.base + |p.stream| ==>
          c.payload == p.stream[c.start - p.base..c.start - p.base + |c.payload|])
  }

  /** The first `statuses` events are stored and lie below `stored`; every other one still has
      its command. */
  ghost predicate WritePath(w: WriteLink, p: Positions) {
    && |w.events| == w.statuses + |w.commands|
    && Chain(w.events[..w.statuses], p.confirmed, p.stored)
    && Chain(w.events[w.statuses..], p.stored, p.ideal)
    && (forall i :: 0 <= i < |w.commands| ==> Matches(w.commands[i], w.events[w.statuses + i], p))
  }

  /** From the oldest byte the application's table may still see unacknowledged up to the newest
      stored one, memory holds the application's bytes. */
  ghost predicate MemoryHolds(mem: Memory, p: Positions) {
    forall q :: p.base <= q < p.base + |p.stream| && p.appAckd <= q < p.stored ==>
      ByteAt(mem, To18(q)) == p.stream[q - p.base]
  }

  /** A sent segment carries the application's bytes at its own sequence number. */
  ghost predicate Faithful(g: SentSegment, p: Positions) {
    && g.seqNumber == To32(g.pos)
    && p.base <= g.pos && g.pos + |g.bytes| <= p.handed && g.pos + |g.bytes| - p.base <= |p.stream|
    && g.bytes == p.stream[g.pos - p.base..g.pos - p.base + |g.bytes|]
  }

  ghost predicate SentHolds(y: System) {
    forall i :: 0 <= i < |y.st.sent| ==> Faithful(y.st.sent[i], y.pos)
  }

  ghost predicate Pointers(y: System) {
    && Ordered(y.pos) && Residues(y)
    && AckStream(y.st.ackUpdates, y.pos.appAckd, y.pos.ackd)
    && WrittenStream(y.st.writtenUpdates, y.pos.written, y.pos.confirmed)
    && EngineStream(y) && RxStream(y) && TableStream(y)
  }

  ghost predicate Bytes(y: System) {
    WritePath(y.st.writes, y.pos) && MemoryHolds(y.st.memory, y.pos) && SentHolds(y)
  }

  ghost predicate Inv(y: System) {
    Pointers(y) && Bytes(y)
  }

  // ---------- Small lemmas ----------

  lemma {:induction false} AckStreamSnoc(q: seq<AckUpdate>, low: int, high: int, u: AckUpdate)
    requires AckStream(q, low, high) && high <= u.pos && u.ackd == To18(u.pos)
    ensures AckStream(q + [u], low, u.pos)
  {
    hide To18;
    if q == [] {
      assert (q + [u])[1..] == [];
    } else {
      AckStreamSnoc(q[1..], q[0].pos, high, u);
      assert (q + [u])[1..] == q[1..] + [u];
    }
  }

  lemma {:induction false} WrittenStreamSnoc(q: seq<WrittenUpdate>, low: int, high: int, u: WrittenUpdate)
    requires WrittenStream(q, low, high) && high <= u.pos && u.appWritten == To18(u.pos)
    ensures WrittenStream(q + [u], low, u.pos)
  {
    hide To18;
    if q == [] {
      assert (q + [u])[1..] == [];
    } else {
      WrittenStreamSnoc(q[1..], q[0].pos, high, u);
      assert (q + [u])[1..] == q[1..] + [u];
    }
  }

  lemma {:induction false} AckStreamRises(q: seq<AckUpdate>, low: int, high: int)
    requires AckStream(q, low, high)
    ensures low <= high
  {
    if q != [] { AckStreamRises(q[1..], q[0].pos, high); }
  }

  lemma {:induction false} WrittenStreamRises(q: seq<WrittenUpdate>, low: int, high: int)
    requires WrittenStream(q, low, high)
    ensures low <= high
  {
    if q != [] { WrittenStreamRises(q[1..], q[0].pos, high); }
  }

  lemma {:induction false} ChainRises(q: seq<WriteEvent>, from: int, to: int)
    requires Chain(q, from, to)
    ensures from <= to
  {
    if q != [] { ChainRises(q[1..], from + q[0].length, to); }
  }

  lemma {:induction false} ChainSnoc(q: seq<WriteEvent>, from: int, to: int, e: WriteEvent)
    requires Chain(q, from, to) && e.start == to && e.bufAddr == To18(to)
    ensures Chain(q + [e], from, to + e.length)
  {
    hide To18;
    if q == [] {
      assert (q + [e])[1..] == [];
    } else {
      ChainSnoc(q[1..], from + q[0].length, to, e);
      assert (q + [e])[1..] == q[1..] + [e];
    }
  }

  /** The 32-bit acknowledgement test accepts exactly the numbers of the positions between the
      last acknowledgement and the next byte. */
  lemma AckTestIff(prevPos: int, nextPos: int, ack: u32)
    requires prevPos <= nextPos < prevPos + WORD_32
    ensures AckAcceptable(To32(prevPos), To32(nextPos), ack) <==>
            AckPosition(To32(prevPos), prevPos, ack) <= nextPos
    ensures To32(AckPosition(To32(prevPos), prevPos, ack)) == ack
    ensures prevPos <= AckPosition(To32(prevPos), prevPos, ack)
  {
    var d := nextPos - prevPos;
    assert To32(nextPos) == if To32(prevPos) + d < WORD_32 then To32(prevPos) + d else To32(prevPos) + d - WORD_32;
    assert To32(ack - To32(prevPos)) ==
           if ack >= To32(prevPos) then ack - To32(prevPos) else ack - To32(prevPos) + WORD_32;
  }

  lemma MixedDistance(high: int, low: int)
    requires low <= high < low + BUFFER_SIZE
    ensures To18(To18(To32(high)) - To32(low)) == high - low
  {
    To18To32(high);
    To18To32(low);
    Distance18(high, low);
    assert To18(To18(high) - To32(low)) == To18(To18(high) - To18(To32(low))) by {
      DropTo18(To18(high), To32(low));
    }
  }

  lemma DropTo18(a: int, b: int)
    ensures To18(a - b) == To18(a - To18(b))
  {
  }

  /** The lengths in the table's answer are the true distances between the positions. */
  lemma SarAnswerIsExact(ackd: int, notAckd: int, written: int, minWindow: u18)
    requires ackd <= notAckd <= written < ackd + BUFFER_SIZE
    ensures var rsp := SarAnswer(To32(ackd), To32(notAckd), To18(written), minWindow);
            && Computed(rsp) && rsp.notAckd == To32(notAckd)
            && rsp.ackd == To32(ackd) && rsp.minWindow == minWindow && !rsp.finIsReady && !rsp.finIsSent
            && rsp.currLength == written - notAckd
            && rsp.usedLength == rsp.usedLengthRst == notAckd - ackd
            && (rsp.ackdEqNotAckd <==> ackd == notAckd)
            && rsp.notAckdShort == To32(written)
  {
    MixedDistance(notAckd, ackd);
    To18To32(notAckd);
    Distance18(written, notAckd);
    To32Add(notAckd, written - notAckd);
    Distinct32(ackd, notAckd);
    hide To18, To32;
  }

  lemma Distinct32(a: int, b: int)
    requires a <= b < a + BUFFER_SIZE
    ensures To32(a) == To32(b) <==> a == b
  {
  }

  /** The room an admission test sees is the true room in the ring, less one byte. */
  lemma RoomIsExact(ackd: int, ideal: int)
    requires ackd <= ideal <= ackd + BUFFER_SIZE - 1
    ensures MaxWriteLength(To18(ackd), To18(ideal)) == BUFFER_SIZE - 1 - (ideal - ackd)
  {
  }

  // ---------- Every step keeps the invariant ----------

  /** Steps that leave the write path, memory and the sent segments alone, and forget nothing
      that was not acknowledged, keep the statements about bytes. */
  lemma BytesFrame(y: System, z: System)
    requires Bytes(y)
    requires z.st.writes == y.st.writes
    requires z.st.memory == y.st.memory && z.st.sent == y.st.sent
    requires z.pos.base == y.pos.base && z.pos.stream == y.pos.stream && z.pos.appAckd >= y.pos.appAckd
    requires z.pos.confirmed == y.pos.confirmed && z.pos.stored == y.pos.stored && z.pos.ideal == y.pos.ideal
    requires z.pos.handed >= y.pos.handed
    ensures Bytes(z)
  {
    hide To18, To32, Chain;
  }

  /** Steps that leave both engines' streams and positions alone keep the statements about them. */
  lemma StreamsFrame(y: System, z: System)
    requires EngineStream(y) && RxStream(y)
    requires z.st.engine.requests == y.st.engine.requests && z.st.engine.answers == y.st.engine.answers
    requires z.st.rx.requests == y.st.rx.requests && z.st.rx.answers == y.st.rx.answers
    requires z.st.engine.busy == y.st.engine.busy && z.st.rx.segment == y.st.rx.segment
    requires z.pos.handed == y.pos.handed && z.pos.written == y.pos.written && z.pos.notAckd == y.pos.notAckd
    requires z.pos.ackd == y.pos.ackd && z.pos.acked == y.pos.acked
    ensures EngineStream(z) && RxStream(z)
  {
    hide To32, Computed;
  }

  lemma SarTableServesEngineWrite(y: System)
    requires Inv(y) && y.st.engine.requests != [] && y.st.engine.requests[0].EngineWrite?
    ensures Inv(SarServesEngine(y))
  {
    hide To16, To18, To32, Computed, SarAnswer, Bytes, AckStream, WrittenStream;
    BytesFrame(y, SarServesEngine(y));
  }

  lemma SarTableServesEngineRead(y: System)
    requires Inv(y) && y.st.engine.requests != [] && y.st.engine.requests[0].EngineRead?
    ensures Inv(SarServesEngine(y))
  {
    hide To16, To18, To32, Computed, SarAnswer, Bytes, AckStream, WrittenStream, MinWindow;
    var s, p := y.st, y.pos;
    SarAnswerIsExact(p.ackd, p.notAckd, p.written, MinWindow(s));
    BytesFrame(y, SarServesEngine(y));
  }

  lemma SarTableServesApp(y: System)
    requires Inv(y) && y.st.writtenUpdates != []
    ensures Inv(SarServesApp(y))
  {
    hide To16, To18, To32, Computed, SarAnswer, Bytes, AckStream;
    var s, p := y.st, y.pos;
    WrittenStreamRises(s.writtenUpdates[1..], s.writtenUpdates[0].pos, p.confirmed);
    BytesFrame(y, SarServesApp(y));
  }

  lemma SarTableServesRx(y: System)
    requires Inv(y) && y.st.rx.requests != []
    ensures Inv(SarServesRx(y))
  {
    hide To16, To18, To32, Computed, SarAnswer, Bytes, AckStream, WrittenStream;
    var s, p := y.st, y.pos;
    if s.rx.requests[0].RxWrite? {
      To18To32(p.acked);
      AckStreamSnoc(s.ackUpdates, p.appAckd, p.ackd, AckUpdate(To18(s.rx.requests[0].ackd), p.acked));
    }
    BytesFrame(y, SarServesRx(y));
  }

  lemma SarTableKeeps(y: System)
    requires Inv(y)
    ensures Inv(SarTableStep(y))
  {
    hide Inv, SarServesEngine, SarServesApp, SarServesRx;
    if y.st.engine.requests != [] {
      if y.st.engine.requests[0].EngineRead? {
        SarTableServesEngineRead(y);
      } else {
        SarTableServesEngineWrite(y);
      }
    } else if y.st.writtenUpdates != [] {
      SarTableServesApp(y);
    } else if y.st.rx.requests != [] {
      SarTableServesRx(y);
    }
  }

  lemma AppTableTakesAck(y: System)
    requires Inv(y) && y.st.ackUpdates != []
    ensures Inv(AppTableTakes(y))
  {
    hide To16, To18, To32, Bytes, WrittenStream, EngineStream, RxStream;
    var s, p := y.st, y.pos;
    AckStreamRises(s.ackUpdates[1..], s.ackUpdates[0].pos, p.ackd);
    StreamsFrame(y, AppTableTakes(y));
    BytesFrame(y, AppTableTakes(y));
  }

  lemma AppTableServesApp(y: System)
    requires Inv(y) && y.st.table.requests != []
    ensures Inv(AppTableServes(y))
  {
    hide To16, To18, To32, Bytes, WrittenStream, EngineStream, RxStream, AckStream;
    StreamsFrame(y, AppTableServes(y));
    BytesFrame(y, AppTableServes(y));
  }

  lemma AppTableKeeps(y: System)
    requires Inv(y)
    ensures Inv(AppTableStep(y))
  {
    hide Inv, AppTableTakes, AppTableServes;
    if y.st.ackUpdates != [] {
      AppTableTakesAck(y);
    } else if y.st.table.requests != [] {
      AppTableServesApp(y);
    }
  }

  lemma AppRequestKeeps(y: System, payload: seq<byte>)
    requires Inv(y) && |payload| < WORD_16
    ensures Inv(AppRequestStep(y, payload))
  {
    hide To16, To18, To32, Bytes, AckStream, WrittenStream;
    BytesFrame(y, AppRequestStep(y, payload));
  }

  lemma EngineLoadKeeps(y: System)
    requires Inv(y)
    ensures Inv(EngineLoadStep(y))
  {
    hide To16, To18, To32, Bytes, AckStream, WrittenStream;
    BytesFrame(y, EngineLoadStep(y));
  }

  lemma EngineOtherKeeps(y: System)
    requires Inv(y)
    ensures Inv(EngineOtherStep(y))
  {
    hide To16, To18, To32, Bytes, AckStream, WrittenStream;
    BytesFrame(y, EngineOtherStep(y));
  }

  lemma RxLoadKeeps(y: System, segment: AckSegment)
    requires Inv(y)
    ensures Inv(RxLoadStep(y, segment))
  {
    hide To16, To18, To32, Bytes, AckStream, WrittenStream;
    BytesFrame(y, RxLoadStep(y, segment));
  }

  lemma RxAckKeeps(y: System)
    requires Inv(y)
    ensures Inv(RxAckStep(y))
  {
    hide To16, To18, To32, Bytes, AckStream, WrittenStream, AckPosition, AckAcceptable;
    var s, p := y.st, y.pos;
    if s.rx.answers != [] {
      AckTestIff(s.rx.answers[0].prevPos, s.rx.answers[0].nextPos, s.rx.segment.value.ackNumber);
    }
    BytesFrame(y, RxAckStep(y));
  }

  // ---------- Admission, storage and confirmation of writes ----------

  lemma AdmitKeepsPointers(y: System, established: bool)
    requires Inv(y)
    ensures Pointers(AppDecideStep(y, established))
  {
    hide To16, To18, To32, Bytes, AckStream, WrittenStream, MaxWriteLength;
    var s, p := y.st, y.pos;
    if s.table.answers != [] {
      RoomIsExact(s.table.answers[0].ackdPos, s.table.answers[0].idealPos);
      SlotOf(s.table.answers[0].idealPos, |s.table.pending.value|);
    }
  }

  /** An admitted write joins the chain of events, its command carrying its bytes. */
  lemma AdmittedJoins(y: System, a: TableAnswer, payload: seq<byte>)
    requires Ordered(y.pos) && WritePath(y.st.writes, y.pos) && a.idealPos == y.pos.ideal && a.ideal == To18(a.idealPos)
    requires |payload| < WORD_16
    ensures WritePath(Submit(y.st.writes, a, payload),
                      y.pos.(ideal := a.idealPos + |payload|, stream := y.pos.stream + payload))
  {
    hide To18, To32;
    var s, p := y.st, y.pos;
    var e := WriteEvent(a.ideal, To16(|payload|), a.idealPos);
    var events, n := s.writes.events + [e], s.writes.statuses;
    ChainSnoc(s.writes.events[n..], p.stored, p.ideal, e);
    assert events[..n] == s.writes.events[..n];
    assert events[n..] == s.writes.events[n..] + [e];
    hide Chain;
    var commands := s.writes.commands + [WriteCommand(a.ideal, payload, a.idealPos)];
    var p' := p.(ideal := a.idealPos + |payload|, stream := p.stream + payload);
    forall i | 0 <= i < |commands| ensures Matches(commands[i], events[n + i], p') {
      if i < |s.writes.commands| {
        assert Matches(s.writes.commands[i], s.writes.events[n + i], p);
      }
    }
  }

  lemma AdmitKeepsBytes(y: System, established: bool)
    requires Inv(y)
    ensures Bytes(AppDecideStep(y, established))
  {
    hide To16, To18, To32, AckStream, WrittenStream, EngineStream, RxStream, Residues, MaxWriteLength;
    var s, p := y.st, y.pos;
    if s.table.pending.Some? && s.table.answers != [] {
      AdmittedJoins(y, s.table.answers[0], s.table.pending.value);
      hide WritePath, Matches, Admit, Submit, Chain;
    }
  }

  lemma StoreHolds(mem: Memory, p: Positions, c: WriteCommand, e: WriteEvent)
    requires Ordered(p) && MemoryHolds(mem, p) && Matches(c, e, p) && c.start == p.stored
    ensures MemoryHolds(Store(mem, c.memOffset, c.payload), p.(stored := c.start + |c.payload|))
  {
    hide To18, Store;
    forall q | p.base <= q < p.base + |p.stream| && p.appAckd <= q < c.start + |c.payload|
      ensures ByteAt(Store(mem, c.memOffset, c.payload), To18(q)) == p.stream[q - p.base]
    {
      if q < c.start {
        KeptByte(mem, c.start, c.payload, q);
      } else {
        StoredByte(mem, c.start, c.payload, q);
      }
    }
  }

  /** The mover's oldest command belongs to the first event that is not yet stored. */
  lemma MoverAdvances(y: System)
    requires WritePath(y.st.writes, y.pos) && y.st.writes.commands != []
    ensures WritePath(MoverStep(y).st.writes, MoverStep(y).pos)
    ensures y.pos.stored <= MoverStep(y).pos.stored <= y.pos.ideal
    ensures y.st.writes.statuses < |y.st.writes.events| && y.st.writes.commands[0].start == y.pos.stored
    ensures Matches(y.st.writes.commands[0], y.st.writes.events[y.st.writes.statuses], y.pos)
  {
    hide To16, To18, To32, Store;
    var s, p := y.st, y.pos;
    var n, e := s.writes.statuses, s.writes.events[s.writes.statuses];
    assert s.writes.events[n..][0] == e;
    assert Matches(s.writes.commands[0], s.writes.events[n + 0], p);
    ChainSnoc(s.writes.events[..n], p.confirmed, p.stored, e);
    assert s.writes.events[..n + 1] == s.writes.events[..n] + [e];
    assert s.writes.events[n + 1..] == s.writes.events[n..][1..];
    ChainRises(s.writes.events[n + 1..], p.stored + e.length, p.ideal);
    hide Chain;
    forall i | 0 <= i < |s.writes.commands[1..]|
      ensures Matches(s.writes.commands[1..][i], s.writes.events[n + 1 + i], p)
    {
      assert Matches(s.writes.commands[i + 1], s.writes.events[n + (i + 1)], p);
    }
  }

  lemma SentFrame(y: System, z: System)
    requires SentHolds(y) && z.st.sent == y.st.sent && z.pos.handed == y.pos.handed
    requires z.pos.base == y.pos.base && z.pos.stream == y.pos.stream
    ensures SentHolds(z)
  {
    hide To32;
  }

  lemma MoverKeepsBytes(y: System)
    requires Ordered(y.pos) && Bytes(y) && y.st.writes.commands != []
    ensures Bytes(MoverStep(y)) && y.pos.stored <= MoverStep(y).pos.stored <= y.pos.ideal
  {
    hide To18, To32, Store, WritePath, Matches, SentHolds, MemoryHolds;
    MoverAdvances(y);
    StoreHolds(y.st.memory, y.pos, y.st.writes.commands[0], y.st.writes.events[y.st.writes.statuses]);
    SentFrame(y, MoverStep(y));
  }

  lemma MoverKeeps(y: System)
    requires Inv(y)
    ensures Inv(MoverStep(y))
  {
    hide To16, To18, To32, Bytes, AckStream, WrittenStream, Store;
    if y.st.writes.commands != [] {
      MoverKeepsBytes(y);
    }
  }

  /** The oldest stored write lies right above what has been confirmed. */
  lemma ResponseAdvances(y: System)
    requires WritePath(y.st.writes, y.pos) && y.st.writes.events != [] && y.st.writes.statuses > 0
    ensures var e := y.st.writes.events[0];
            && e.start == y.pos.confirmed && e.bufAddr == To18(e.start)
            && y.pos.confirmed <= e.start + e.length <= y.pos.stored
            && WritePath(AppResponseStep(y).st.writes, AppResponseStep(y).pos)
  {
    hide To16, To18, To32;
    var s, p := y.st, y.pos;
    var e := s.writes.events[0];
    assert s.writes.events[..s.writes.statuses][0] == e;
    assert s.writes.events[..s.writes.statuses][1..] == s.writes.events[1..][..s.writes.statuses - 1];
    assert s.writes.events[s.writes.statuses..] == s.writes.events[1..][s.writes.statuses - 1..];
    ChainRises(s.writes.events[1..][..s.writes.statuses - 1], e.start + e.length, p.stored);
    hide Chain;
    forall i | 0 <= i < |s.writes.commands|
      ensures Matches(s.writes.commands[i], s.writes.events[1..][s.writes.statuses - 1 + i], p)
    {
      assert Matches(s.writes.commands[i], s.writes.events[s.writes.statuses + i], p);
    }
  }

  lemma AppResponseKeeps(y: System)
    requires Inv(y)
    ensures Inv(AppResponseStep(y))
  {
    hide To16, To18, To32, AckStream, WrittenStream,
         WritePath, SentHolds;
    var s, p := y.st, y.pos;
    if s.writes.events != [] && s.writes.statuses > 0 {
      ResponseAdvances(y);
      SentFrame(y, AppResponseStep(y));
      var e := s.writes.events[0];
      SlotOf(e.start, e.length);
      WrittenStreamSnoc(s.writtenUpdates, p.written, p.confirmed,
                        WrittenUpdate(To18(e.bufAddr + e.length), e.start + e.length));
    }
  }

  // ---------- Transmission ----------

  lemma TransmitKeepsPointers(y: System)
    requires Inv(y)
    ensures Pointers(EngineTransmitStep(y))
  {
    hide To16, To18, To32, Bytes, AckStream, WrittenStream, TxBurst, Moved, Computed, Contiguous,
         Total, ReadsOwnBytes, Payloads;
    var s, p := y.st, y.pos;
    if s.engine.answers != [] {
      var a := s.engine.answers[0];
      BurstIsSafe(FreshRegs(a.rsp), a.rsp);
      To32Add(a.notAckdPos, Moved(FreshRegs(a.rsp), a.rsp));
    }
  }

  /** The bytes of a run of segments are the application's bytes at their sequence numbers. */
  lemma {:induction false} PayloadsFaithful(mem: Memory, p: Positions, segments: seq<Segment>, pos: int)
    requires MemoryHolds(mem, p) && Contiguous(segments, To32(pos)) && ReadsOwnBytes(segments)
    requires p.base <= pos && p.appAckd <= pos
    requires pos + Total(segments) <= Min(p.handed, Min(p.stored, p.base + |p.stream|))
    ensures forall i :: 0 <= i < |Payloads(mem, segments, pos)| ==> Faithful(Payloads(mem, segments, pos)[i], p)
  {
    hide To16, To18, To32;
    if segments != [] {
      var g := segments[0];
      To32Add(pos, g.length);
      To18To32(pos);
      assert g in segments;
      PayloadsFaithful(mem, p, segments[1..], pos + g.length);
      var bytes := ReadRing(mem, g.memOffset, g.length);
      forall i | 0 <= i < g.length
        ensures bytes[i] == p.stream[pos + i - p.base]
      {
        SlotOf(pos, i);
      }
      assert bytes == p.stream[pos - p.base..pos - p.base + g.length];
    }
  }

  lemma TransmitKeepsBytes(y: System)
    requires Inv(y)
    ensures Bytes(EngineTransmitStep(y))
  {
    hide To16, To18, To32, AckStream, WrittenStream, TxBurst, Moved, Computed, Contiguous,
         Total, ReadsOwnBytes, Payloads, Chain, RxStream, TableStream, Residues;
    var s, p := y.st, y.pos;
    if s.engine.answers != [] {
      var a := s.engine.answers[0];
      BurstIsSafe(FreshRegs(a.rsp), a.rsp);
      var p' := EngineTransmitStep(y).pos;
      PayloadsFaithful(s.memory, p', TxBurst(FreshRegs(a.rsp), a.rsp).segments, a.notAckdPos);
    }
  }

  /** Every step of every module keeps the invariant, as long as no write is 2^16 bytes or longer. */
  lemma StepKeeps(y: System, a: Action)
    requires Inv(y) && Short(a)
    ensures Inv(Next(y, a))
  {
    hide Inv, SarTableStep, AppTableStep, AppRequestStep, AppDecideStep, MoverStep, AppResponseStep,
         EngineLoadStep, EngineTransmitStep, EngineOtherStep, RxLoadStep, RxAckStep;
    match a
    case SarTable => SarTableKeeps(y);
    case AppTable => AppTableKeeps(y);
    case Mover => MoverKeeps(y);
    case AppResponse => AppResponseKeeps(y);
    case AppRequest(payload) => AppRequestKeeps(y, payload);
    case AppDecide(established) => AppDecideKeeps(y, established);
    case EngineLoad => EngineLoadKeeps(y);
    case EngineTransmit => EngineTransmitKeeps(y);
    case EngineOther => EngineOtherKeeps(y);
    case RxLoad(segment) => RxLoadKeeps(y, segment);
    case RxAck => RxAckKeeps(y);
  }

  lemma AppDecideKeeps(y: System, established: bool)
    requires Inv(y)
    ensures Inv(AppDecideStep(y, established))
  {
    hide Pointers, Bytes, AppDecideStep;
    AdmitKeepsPointers(y, established);
    AdmitKeepsBytes(y, established);
  }

  lemma EngineTransmitKeeps(y: System)
    requires Inv(y)
    ensures Inv(EngineTransmitStep(y))
  {
    hide Pointers, Bytes, EngineTransmitStep;
    TransmitKeepsPointers(y);
    TransmitKeepsBytes(y);
  }

  lemma InitialHolds(isn: u32, recvWindow: u16, winShift: WinShift)
    ensures Inv(Initial(isn, recvWindow, winShift))
  {
    assert To32(isn) == isn;
    To18To32(isn + 1);
    hide To16, To18, To32;
  }

  /** In every run from every initial sequence number the pointers keep their order, every
      18- and 32-bit copy is the residue of its position, memory holds every byte that may
      still have to be sent, and every segment ever sent carries the application's bytes. */
  lemma {:induction false} RunKeeps(isn: u32, recvWindow: u16, winShift: WinShift, actions: seq<Action>)
    requires forall a <- actions :: Short(a)
    ensures Inv(Run(Initial(isn, recvWindow, winShift), actions))
  {
    hide Inv, Next, Initial;
    if actions == [] {
      InitialHolds(isn, recvWindow, winShift);
    } else {
      var n := |actions| - 1;
      RunKeeps(isn, recvWindow, winShift, actions[..n]);
      StepKeeps(Run(Initial(isn, recvWindow, winShift), actions[..n]), actions[n]);
    }
  }

  // ---------- What the invariant gives ----------

  /** In every reachable state each byte from the newest acknowledgement the application's table
      has seen up to the newest stored byte is in memory: nothing unacknowledged was overwritten. */
  lemma UnacknowledgedBytesSurvive(isn: u32, recvWindow: u16, winShift: WinShift, actions: seq<Action>, q: int)
    requires forall a <- actions :: Short(a)
    ensures var y := Run(Initial(isn, recvWindow, winShift), actions);
            && y.pos.ideal - y.pos.ackd < BUFFER_SIZE
            && (y.pos.base <= q && y.pos.appAckd <= q < y.pos.stored ==>
                  q - y.pos.base < |y.pos.stream| &&
                  ByteAt(y.st.memory, To18(q)) == y.pos.stream[q - y.pos.base])
  {
    hide Inv, Run, Initial, To18;
    RunKeeps(isn, recvWindow, winShift, actions);
    UnacknowledgedByte(Run(Initial(isn, recvWindow, winShift), actions), q);
  }

  lemma UnacknowledgedByte(y: System, q: int)
    requires Inv(y)
    ensures y.pos.ideal - y.pos.ackd < BUFFER_SIZE
    ensures y.pos.base <= q && y.pos.appAckd <= q < y.pos.stored ==>
              q - y.pos.base < |y.pos.stream| &&
              ByteAt(y.st.memory, To18(q)) == y.pos.stream[q - y.pos.base]
  {
    hide To18, Residues, EngineStream, RxStream, TableStream, AckStream, WrittenStream, WritePath, SentHolds;
  }

  /** No stream between the tables holds anything. */
  ghost predicate Quiet(s: State) {
    && s.writes.events == [] && s.writtenUpdates == [] && s.table.requests == []
    && s.ackUpdates == [] && s.rx.requests == []
  }

  /** In every run, whenever the streams are empty all copies agree: everything admitted is stored
      and visible to the transmit engine, and both tables have seen the same acknowledgement. */
  lemma QuietCopiesAgree(isn: u32, recvWindow: u16, winShift: WinShift, actions: seq<Action>)
    requires forall a <- actions :: Short(a)
    ensures var y := Run(Initial(isn, recvWindow, winShift), actions);
            Quiet(y.st) ==>
              && y.pos.written == y.pos.ideal && y.st.sar.appWritten == y.st.app.ideal == To18(y.pos.ideal)
              && y.pos.appAckd == y.pos.ackd == y.pos.acked && y.st.app.ackd == To18(y.st.sar.ackd)
  {
    RunKeeps(isn, recvWindow, winShift, actions);
    To18To32(Run(Initial(isn, recvWindow, winShift), actions).pos.ackd);
    hide To18, To32, Run, Initial, Bytes;
  }

  /** A write leaves one byte of the ring free, as of the acknowledgement the answer saw. */
  ghost predicate HasRoom(y: System)
    requires y.st.table.pending.Some? && y.st.table.answers != []
  {
    y.pos.ideal + |y.st.table.pending.value| <= y.st.table.answers[0].ackdPos + BUFFER_SIZE - 1
  }

  /** Admission is exact, in every run: a write is taken if and only if the session is established and it
      has room. A write that is taken leads to one command, one event and one new write pointer, all at
      the next place of the ring; any other changes nothing but that it is told why. */
  lemma AdmissionIsExact(
      isn: u32, recvWindow: u16, winShift: WinShift, actions: seq<Action>, established: bool)
    requires forall a <- actions :: Short(a)
    requires var t := Run(Initial(isn, recvWindow, winShift), actions).st.table; t.pending.Some? && t.answers != []
    ensures var y := Run(Initial(isn, recvWindow, winShift), actions);
            var z, payload := Next(y, AppDecide(established)), y.st.table.pending.value;
            var taken := established && HasRoom(y);
            && z.st.verdicts == y.st.verdicts +
               [if !established then NoConnection else if !HasRoom(y) then NoSpace else NoError]
            && z.st.table.pending.None? && z.st.table.answers == []
            && (!taken ==> z.pos == y.pos && z.st == y.st.(table := z.st.table, verdicts := z.st.verdicts) &&
                           z.st.table.requests == y.st.table.requests)
            && (taken ==>
                  var from, end := To18(y.pos.ideal), To18(y.pos.ideal + |payload|);
                  && z.st.writes.statuses == y.st.writes.statuses
                  && z.st.writes.commands == y.st.writes.commands + [WriteCommand(from, payload, y.pos.ideal)]
                  && |payload| < WORD_16
                  && z.st.writes.events == y.st.writes.events + [WriteEvent(from, |payload|, y.pos.ideal)]
                  && z.st.table.requests == y.st.table.requests + [TableWrite(end, y.pos.ideal + |payload|)]
                  && z.pos.stream == y.pos.stream + payload)
  {
    hide Run, Inv, Initial, AppDecideStep;
    RunKeeps(isn, recvWindow, winShift, actions);
    AdmissionOf(Run(Initial(isn, recvWindow, winShift), actions), established);
  }

  lemma AdmissionOf(y: System, established: bool)
    requires Inv(y) && y.st.table.pending.Some? && y.st.table.answers != []
    ensures var z, payload := AppDecideStep(y, established), y.st.table.pending.value;
            var taken := established && HasRoom(y);
            && z.st.verdicts == y.st.verdicts +
               [if !established then NoConnection else if !HasRoom(y) then NoSpace else NoError]
            && z.st.table.pending.None? && z.st.table.answers == []
            && (!taken ==> z.pos == y.pos && z.st == y.st.(table := z.st.table, verdicts := z.st.verdicts) &&
                           z.st.table.requests == y.st.table.requests)
            && (taken ==>
                  var from, end := To18(y.pos.ideal), To18(y.pos.ideal + |payload|);
                  && z.st.writes.statuses == y.st.writes.statuses
                  && z.st.writes.commands == y.st.writes.commands + [WriteCommand(from, payload, y.pos.ideal)]
                  && |payload| < WORD_16
                  && z.st.writes.events == y.st.writes.events + [WriteEvent(from, |payload|, y.pos.ideal)]
                  && z.st.table.requests == y.st.table.requests + [TableWrite(end, y.pos.ideal + |payload|)]
                  && z.pos.stream == y.pos.stream + payload)
  {
    var a, n := y.st.table.answers[0], |y.st.table.pending.value|;
    hide To16, To18, To32, MaxWriteLength, Bytes, EngineStream, RxStream, AckStream, WrittenStream;
    RoomIsExact(a.ackdPos, a.idealPos);
    SmallWord(n);
    SlotOf(a.idealPos, n);
  }

  // ---------- Everything admitted can be confirmed ----------

  /** What is left to do until the transmit engine's write pointer has caught up. */
  ghost function Work(y: System): nat {
    |y.st.engine.requests| + |y.st.writtenUpdates| + 2 * |y.st.writes.events| + |y.st.writes.commands|
  }

  /** The next step towards it, if there is one. */
  ghost function Useful(y: System): Option<Action> {
    if y.st.engine.requests != [] || y.st.writtenUpdates != [] then Some(SarTable)
    else if y.st.writes.commands != [] then Some(Mover)
    else if y.st.writes.events != [] then Some(AppResponse)
    else None
  }

  lemma UsefulStep(y: System)
    requires Inv(y) && Useful(y).Some?
    ensures var z := Next(y, Useful(y).value); Work(z) < Work(y) && z.pos.stream == y.pos.stream
  {
    hide To16, To18, To32, Matches, Chain, MemoryHolds, SentHolds, Store, SarAnswer, MinWindow, Pointers;
  }

  lemma NothingUseful(y: System)
    requires Inv(y) && Useful(y) == None
    ensures y.pos.written == y.pos.ideal && y.st.sar.appWritten == To18(y.pos.base + |y.pos.stream|)
  {
    hide To18, To32, EngineStream, RxStream, TableStream, AckStream, MemoryHolds, SentHolds;
  }

  lemma {:induction false} Confirm(y: System) returns (more: seq<Action>)
    requires Inv(y)
    ensures forall a <- more :: a == SarTable || a == Mover || a == AppResponse
    ensures var z := Run(y, more);
            && z.pos.stream == y.pos.stream && z.pos.written == z.pos.ideal
            && z.st.sar.appWritten == To18(z.pos.base + |y.pos.stream|)
    decreases Work(y)
  {
    hide Inv, Next, Work, To18;
    if Useful(y) == None {
      more := [];
      NothingUseful(y);
      assert Run(y, []) == y;
    } else {
      var a := Useful(y).value;
      UsefulStep(y);
      StepKeeps(y, a) by { assert Short(a); }
      var rest := Confirm(Next(y, a));
      more := [a] + rest;
      RunOne(y, a);
      RunJoins(y, [a], rest);
    }
  }

  lemma RunOne(y: System, a: Action)
    ensures Run(y, [a]) == Next(y, a)
  {
    assert [a][..0] == [];
  }

  /** Whatever a run has come to, the table, the mover and the response handler can finish its writes:
      some continuation of their steps alone makes all bytes admitted visible to the transmit engine. */
  lemma AdmittedCanBeConfirmed(isn: u32, recvWindow: u16, winShift: WinShift, actions: seq<Action>)
    returns (more: seq<Action>)
    requires forall a <- actions :: Short(a)
    ensures forall a <- more :: a == SarTable || a == Mover || a == AppResponse
    ensures var y0 := Initial(isn, recvWindow, winShift);
            var y, z := Run(y0, actions), Run(y0, actions + more);
            && z.pos.stream == y.pos.stream && z.pos.written == z.pos.ideal
            && z.st.sar.appWritten == To18(z.pos.base + |y.pos.stream|)
  {
    hide Inv, Run, Initial, Next, To18;
    RunKeeps(isn, recvWindow, winShift, actions);
    more := Confirm(Run(Initial(isn, recvWindow, winShift), actions));
    RunJoins(Initial(isn, recvWindow, winShift), actions, more);
  }

  // ---------- A long write ----------

  /** One write from an idle state, played to its end. */
  ghost function PlayWrite(y: System, payload: seq<byte>): System {
    var y1 := AppTableStep(AppRequestStep(y, payload));
    var y2 := AppTableStep(AppDecideStep(y1, true));
    SarTableStep(AppResponseStep(MoverStep(y2)))
  }

  ghost predicate Idle(s: State) {
    && s.table.pending.None? && s.table.requests == [] && s.table.answers == [] && s.ackUpdates == []
    && s.writes.events == [] && s.writes.commands == [] && s.writes.statuses == 0 && s.writtenUpdates == []
    && s.engine.requests == []
  }

  lemma Wraps16(start: int, n: nat)
    requires n < BUFFER_SIZE
    ensures To18(start + To16(n)) == To18(start + n) <==> n < WORD_16
  {
    if n >= WORD_16 {
      DistinctSlots(start + To16(n), start + n);
    }
  }

  /** The write pointer the transmit engine sees catches up with the admitted one if and only if
      the write is shorter than 2^16 bytes: the event carries its length in 16 bits. */
  lemma WriteIsConfirmedIff(y: System, payload: seq<byte>)
    requires Inv(y) && Idle(y.st)
    requires |payload| <= MaxWriteLength(y.st.app.ackd, y.st.app.ideal)
    ensures PlayWrite(y, payload).st.app.ideal == To18(y.pos.ideal + |payload|)
    ensures PlayWrite(y, payload).st.sar.appWritten == PlayWrite(y, payload).st.app.ideal <==> |payload| < WORD_16
  {
    hide To16, To18, To32, Store, MaxWriteLength, AckStream, EngineStream, RxStream, MemoryHolds, SentHolds;
    var n := |payload|;
    assert n < BUFFER_SIZE;
    SlotOf(y.pos.ideal, n);
    SlotOf(y.pos.ideal, To16(n));
    Wraps16(y.pos.ideal, n);
    var y1 := AppTableStep(AppRequestStep(y, payload));
    assert y1.st.table.answers == [TableAnswer(y.st.app.ackd, y.st.app.ideal, y.pos.appAckd, y.pos.tableIdeal)];
    var y2 := AppTableStep(AppDecideStep(y1, true));
    assert y2.st.app.ideal == To18(y.st.app.ideal + n);
    assert y2.st.writes.events == [WriteEvent(y.st.app.ideal, To16(n), y.pos.tableIdeal)];
    var y3 := AppResponseStep(MoverStep(y2));
    assert y3.st.writtenUpdates[0].appWritten == To18(y.st.app.ideal + To16(n));
    assert SarTableStep(y3).st.sar.appWritten == To18(y.st.app.ideal + To16(n));
  }

  // ---------- The transmitted byte stream ----------

  ghost function Flatten(sent: seq<SentSegment>): seq<byte> {
    if sent == [] then [] else Flatten(sent[..|sent| - 1]) + sent[|sent| - 1].bytes
  }

  lemma {:induction false} FlattenAppend(a: seq<SentSegment>, b: seq<SentSegment>)
    ensures Flatten(a + b) == Flatten(a) + Flatten(b)
  {
    hide Flatten;
    if b == [] {
      assert a + b == a;
      FlattenNone();
    } else {
      var n := |b| - 1;
      FlattenAppend(a, b[..n]);
      FlattenSnoc(a + b[..n], b[n]);
      FlattenSnoc(b[..n], b[n]);
      assert a + b == (a + b[..n]) + [b[n]] && b == b[..n] + [b[n]];
    }
  }

  lemma FlattenSnoc(a: seq<SentSegment>, g: SentSegment)
    ensures Flatten(a + [g]) == Flatten(a) + g.bytes
  {
    assert (a + [g])[..|a|] == a;
  }

  lemma {:induction false} PayloadsAreTheStream(mem: Memory, p: Positions, segments: seq<Segment>, pos: int)
    requires MemoryHolds(mem, p) && Contiguous(segments, To32(pos)) && ReadsOwnBytes(segments)
    requires p.base <= pos && p.appAckd <= pos
    requires pos + Total(segments) <= Min(p.stored, p.base + |p.stream|)
    ensures Flatten(Payloads(mem, segments, pos)) == p.stream[pos - p.base..pos - p.base + Total(segments)]
  {
    hide To16, To18, To32, Flatten, MemoryHolds, ReadRing, Contiguous, ReadsOwnBytes, Total, Payloads;
    if segments == [] {
      NoPayloads(mem, pos);
      FlattenNone();
    } else {
      var g := segments[0];
      FirstOfBurst(mem, segments, pos);
      PayloadsAreTheStream(mem, p, segments[1..], pos + g.length);
      OneSegmentOfStream(mem, p, g, pos);
      var one := SentSegment(g.seqNumber, ReadRing(mem, g.memOffset, g.length), pos);
      FlattenAppend([one], Payloads(mem, segments[1..], pos + g.length));
      FlattenOne(one);
      SlicesJoin(p.stream, pos - p.base, g.length, Total(segments));
    }
  }

  lemma NoPayloads(mem: Memory, pos: int)
    ensures Payloads(mem, [], pos) == [] && Total([]) == 0
  {
  }

  lemma FirstOfBurst(mem: Memory, segments: seq<Segment>, pos: int)
    requires segments != [] && Contiguous(segments, To32(pos)) && ReadsOwnBytes(segments)
    ensures var g := segments[0];
            && g.memOffset == To18(To32(pos)) && Total(segments) == g.length + Total(segments[1..])
            && Contiguous(segments[1..], To32(pos + g.length)) && ReadsOwnBytes(segments[1..])
            && Payloads(mem, segments, pos) ==
               [SentSegment(g.seqNumber, ReadRing(mem, g.memOffset, g.length), pos)] +
               Payloads(mem, segments[1..], pos + g.length)
  {
    hide To18, To32, ReadRing;
    To32Add(pos, segments[0].length);
    assert segments[0] in segments;
  }

  lemma SlicesJoin(s: seq<byte>, n: nat, k: nat, total: nat)
    requires k <= total && n + total <= |s|
    ensures s[n..n + k] + s[n + k..n + total] == s[n..n + total]
  {
  }

  lemma OneSegmentOfStream(mem: Memory, p: Positions, g: Segment, pos: int)
    requires MemoryHolds(mem, p) && g.memOffset == To18(To32(pos))
    requires p.base <= pos && p.appAckd <= pos
    requires pos + g.length <= Min(p.stored, p.base + |p.stream|)
    ensures ReadRing(mem, g.memOffset, g.length) == p.stream[pos - p.base..pos - p.base + g.length]
  {
    hide To18, To32;
    To18To32(pos);
    var bytes := ReadRing(mem, g.memOffset, g.length);
    forall i | 0 <= i < g.length
      ensures bytes[i] == p.stream[pos + i - p.base]
    {
      SlotOf(pos, i);
    }
  }

  lemma FlattenNone()
    ensures Flatten([]) == []
  {
  }

  lemma FlattenOne(g: SentSegment)
    ensures Flatten([g]) == g.bytes
  {
    assert [g][..0] == [];
  }

  /** A burst whose pointer passes over bytes that are not sent. */
  ghost predicate SkippingStep(y: System, a: Action) {
    a.EngineTransmit? && y.st.engine.busy && y.st.engine.answers != [] && Skips(y.st.engine.answers[0].rsp)
  }

  ghost predicate NeverSkips(y: System, actions: seq<Action>) {
    actions == [] ||
    (NeverSkips(y, actions[..|actions| - 1]) && !SkippingStep(Run(y, actions[..|actions| - 1]), actions[|actions| - 1]))
  }

  ghost predicate SentIsPrefix(y: System) {
    && 0 <= y.pos.handed - y.pos.base <= |y.pos.stream|
    && Flatten(y.st.sent) == y.pos.stream[..y.pos.handed - y.pos.base]
  }

  lemma TransmitExtendsPrefix(y: System)
    requires Inv(y) && !SkippingStep(y, EngineTransmit) && SentIsPrefix(y)
    ensures SentIsPrefix(EngineTransmitStep(y))
  {
    hide To16, To18, To32, AckStream, WrittenStream, TxBurst, Moved, Computed, Contiguous, Total, ReadsOwnBytes,
         Payloads, Flatten, Chain, RxStream, TableStream, Residues, Skips, MinWindow;
    var s, p := y.st, y.pos;
    if s.engine.busy && s.engine.answers != [] {
      var a := s.engine.answers[0];
      var r := FreshRegs(a.rsp);
      BurstIsSafe(r, a.rsp);
      PointerMatchesIff(r, a.rsp);
      var segments := TxBurst(r, a.rsp).segments;
      PayloadsAreTheStream(s.memory, p, segments, a.notAckdPos);
      FlattenAppend(s.sent, Payloads(s.memory, segments, a.notAckdPos));
    }
  }

  lemma OthersKeepPrefix(y: System, a: Action)
    requires Inv(y) && !a.EngineTransmit? && SentIsPrefix(y)
    ensures SentIsPrefix(Next(y, a))
  {
    hide To16, To18, To32, Flatten, Residues, AckStream, WrittenStream, EngineStream, RxStream, TableStream, Bytes,
         SarAnswer, MinWindow, Store, AckAcceptable, AckPosition;
  }

  /** The bytes the engine's pointer has passed without sending them. */
  ghost function Behind(y: System): int { y.pos.handed - y.pos.base - |Flatten(y.st.sent)| }

  lemma {:induction false} PayloadsLength(mem: Memory, segments: seq<Segment>, pos: int)
    ensures |Flatten(Payloads(mem, segments, pos))| == Total(segments)
  {
    hide Flatten, To18, To32;
    if segments == [] {
      assert Payloads(mem, segments, pos) == [];
      FlattenNone();
    } else {
      var g := segments[0];
      var one := SentSegment(g.seqNumber, ReadRing(mem, g.memOffset, g.length), pos);
      var rest := Payloads(mem, segments[1..], pos + g.length);
      PayloadsLength(mem, segments[1..], pos + g.length);
      assert Payloads(mem, segments, pos) == [one] + rest;
      FlattenAppend([one], rest);
      FlattenOne(one);
    }
  }

  lemma TransmitBehind(y: System)
    requires Inv(y)
    ensures Behind(EngineTransmitStep(y)) >= Behind(y)
    ensures SkippingStep(y, EngineTransmit) ==> Behind(EngineTransmitStep(y)) > Behind(y)
  {
    hide To16, To18, To32, AckStream, WrittenStream, TxBurst, Moved, Computed, Contiguous, Total, ReadsOwnBytes,
         Payloads, Flatten, Chain, RxStream, TableStream, Residues, Skips, MinWindow, Bytes;
    var s := y.st;
    if s.engine.busy && s.engine.answers != [] {
      var a := s.engine.answers[0];
      var r := FreshRegs(a.rsp);
      BurstIsSafe(r, a.rsp);
      PointerMatchesIff(r, a.rsp);
      var segments := TxBurst(r, a.rsp).segments;
      PayloadsLength(s.memory, segments, a.notAckdPos);
      FlattenAppend(s.sent, Payloads(s.memory, segments, a.notAckdPos));
    }
  }

  lemma OthersKeepBehind(y: System, a: Action)
    requires !a.EngineTransmit?
    ensures Behind(Next(y, a)) == Behind(y)
  {
    hide Flatten, SarAnswer, MinWindow, Store, AckAcceptable, AckPosition, To16, To18, To32;
  }

  /** Nothing is behind in a stream that is a prefix. */
  lemma PrefixIsNotBehind(y: System)
    ensures SentIsPrefix(y) ==> Behind(y) == 0
  {
    hide Flatten;
  }

  lemma {:induction false} SkippedStaysBehind(isn: u32, recvWindow: u16, winShift: WinShift, actions: seq<Action>)
    requires forall a <- actions :: Short(a)
    ensures var y0 := Initial(isn, recvWindow, winShift);
            Behind(Run(y0, actions)) >= 0 && (!NeverSkips(y0, actions) ==> Behind(Run(y0, actions)) > 0)
  {
    hide Inv, Next, SkippingStep, To18, To32;
    var y0 := Initial(isn, recvWindow, winShift);
    if actions == [] {
      FlattenNone();
    } else {
      hide Initial, Behind;
      var n := |actions| - 1;
      SkippedStaysBehind(isn, recvWindow, winShift, actions[..n]);
      RunKeeps(isn, recvWindow, winShift, actions[..n]);
      var y, a := Run(y0, actions[..n]), actions[n];
      if a.EngineTransmit? {
        TransmitBehind(y);
        NextIsTransmit(y);
      } else {
        OthersKeepBehind(y, a);
        NoSkipOtherwise(y, a);
      }
    }
  }

  lemma NoSkipOtherwise(y: System, a: Action)
    ensures SkippingStep(y, a) ==> a == EngineTransmit
  {
  }

  lemma {:induction false} UnskippedIsPrefix(isn: u32, recvWindow: u16, winShift: WinShift, actions: seq<Action>)
    requires forall a <- actions :: Short(a)
    requires NeverSkips(Initial(isn, recvWindow, winShift), actions)
    ensures SentIsPrefix(Run(Initial(isn, recvWindow, winShift), actions))
  {
    hide Inv, Next, SkippingStep, To18, To32;
    var y0 := Initial(isn, recvWindow, winShift);
    if actions != [] {
      hide Initial, SentIsPrefix;
      var n := |actions| - 1;
      UnskippedIsPrefix(isn, recvWindow, winShift, actions[..n]);
      RunKeeps(isn, recvWindow, winShift, actions[..n]);
      var y, a := Run(y0, actions[..n]), actions[n];
      if a.EngineTransmit? {
        TransmitExtendsPrefix(y);
        NextIsTransmit(y);
      } else {
        OthersKeepPrefix(y, a);
      }
    }
  }

  /** After every run the payloads sent, put end to end, are a prefix of what the application handed
      over, as long as `not_ackd` says, if and only if no burst of the run skipped: none found 2^16
      bytes and an MSS or more waiting with nothing in flight, and sent all that its 16-bit temporary
      left of them. A byte once skipped is never made up for. */
  lemma TransmittedStreamIsPrefixIff(isn: u32, recvWindow: u16, winShift: WinShift, actions: seq<Action>)
    requires forall a <- actions :: Short(a)
    ensures SentIsPrefix(Run(Initial(isn, recvWindow, winShift), actions)) <==>
            NeverSkips(Initial(isn, recvWindow, winShift), actions)
  {
    hide Run, SentIsPrefix, Behind, Initial, NeverSkips;
    var y0 := Initial(isn, recvWindow, winShift);
    SkippedStaysBehind(isn, recvWindow, winShift, actions);
    PrefixIsNotBehind(Run(y0, actions));
    if NeverSkips(y0, actions) { UnskippedIsPrefix(isn, recvWindow, winShift, actions); }
  }

  lemma NextIsTransmit(y: System)
    ensures Next(y, EngineTransmit) == EngineTransmitStep(y)
  {
  }

  // ---------- The peer's window ----------

  /** The acknowledgement segments of a run, by how far each has come: the one the RX engine loaded last,
      the last it found acceptable, the last the SAR table has taken in, and the one the table had taken
      in when it last answered the TX engine. */
  datatype Offers = Offers(loaded: AckSegment, accepted: AckSegment, applied: AckSegment, seen: AckSegment)

  /** The offers after a step from `y` to `z`, by what left the streams and what joined them. */
  ghost function OffersAfter(o: Offers, y: State, z: State, a: Action): Offers {
    match a
    case RxLoad(segment) => if y.rx.segment.None? then o.(loaded := segment) else o
    case RxAck => if |z.rx.requests| > |y.rx.requests| then o.(accepted := o.loaded) else o
    case SarTable =>
      if |z.engine.answers| > |y.engine.answers| then o.(seen := o.applied)
      else if |z.rx.requests| < |y.rx.requests| && y.rx.requests[0].RxWrite? then o.(applied := o.accepted)
      else o
    case _ => o
  }

  ghost function OffersOf(y: System, first: AckSegment, actions: seq<Action>): Offers {
    if actions == [] then Offers(first, first, first, first)
    else
      var n := |actions| - 1;
      OffersAfter(OffersOf(y, first, actions[..n]), Run(y, actions[..n]).st, Run(y, actions).st, actions[n])
  }

  /** The SYN's window, and the congestion window that comes with it. */
  function SynOffer(isn: u32, recvWindow: u16): AckSegment { AckSegment(isn, recvWindow, 14600) }

  /** The table holds the offer taken in last, a pending write carries the one accepted last, and the
      answer to the TX engine carries the smaller of the two windows of the offer it saw. */
  ghost predicate OffersHold(s: State, o: Offers, winShift: WinShift) {
    && (s.rx.segment.Some? ==> s.rx.segment.value == o.loaded)
    && (if s.rx.requests != [] && s.rx.requests[0].RxWrite? then
          var r := s.rx.requests[0];
          AckSegment(r.ackd, r.recvWindow, r.congWindow) == o.accepted
        else o.applied == o.accepted)
    && s.sar.ackd == o.applied.ackNumber && s.sar.recvWindow == o.applied.recvWindow
    && s.sar.congWindow == o.applied.congWindow && s.sar.winShift == winShift
    && |s.engine.answers| <= 1
    && (s.engine.answers != [] ==> Bounds(s.engine.answers[0].rsp, o.seen, winShift))
  }

  /** The window of an answer is the smaller one of what the peer offers, scaled, and the congestion
      window. */
  ghost predicate Bounds(rsp: TxSarRsp, offer: AckSegment, winShift: WinShift) {
    var offered := offer.recvWindow * (if winShift == 0 then 1 else if winShift == 1 then 2 else 4);
    && rsp.minWindow <= offered && rsp.minWindow <= offer.congWindow
    && (rsp.minWindow == offered || rsp.minWindow == offer.congWindow)
  }

  lemma StepKeepsOffers(y: System, a: Action, o: Offers, winShift: WinShift)
    requires Inv(y) && OffersHold(y.st, o, winShift)
    ensures OffersHold(Next(y, a).st, OffersAfter(o, y.st, Next(y, a).st, a), winShift)
  {
    hide To16, To18, To32, AckAcceptable, AckPosition, MaxWriteLength, TxBurst, Moved, Payloads, Store, Bytes,
         AckStream, WrittenStream, TableStream, Residues, Ordered, Computed, GoodAnswer, GoodRange, Bounds,
         SarServesEngine, MinWindow, SarAnswer;
    if a.SarTable? {
      SarTableKeepsOffers(y, o, winShift);
    }
  }

  lemma SarTableKeepsOffers(y: System, o: Offers, winShift: WinShift)
    requires Inv(y) && OffersHold(y.st, o, winShift)
    ensures OffersHold(SarTableStep(y).st, OffersAfter(o, y.st, SarTableStep(y).st, SarTable), winShift)
  {
    hide To16, To18, To32, Bytes, AckStream, WrittenStream, TableStream, Residues, Ordered, Computed, GoodAnswer,
         GoodRange;
  }

  lemma {:induction false} OffersFollow(isn: u32, recvWindow: u16, winShift: WinShift, actions: seq<Action>)
    requires forall a <- actions :: Short(a)
    ensures var y0 := Initial(isn, recvWindow, winShift);
            OffersHold(Run(y0, actions).st, OffersOf(y0, SynOffer(isn, recvWindow), actions), winShift)
  {
    hide Inv, Next, Short, OffersAfter;
    if actions != [] {
      hide Initial, OffersHold;
      var y0, n := Initial(isn, recvWindow, winShift), |actions| - 1;
      OffersFollow(isn, recvWindow, winShift, actions[..n]);
      RunKeeps(isn, recvWindow, winShift, actions[..n]);
      StepKeepsOffers(Run(y0, actions[..n]), actions[n], OffersOf(y0, SynOffer(isn, recvWindow), actions[..n]),
                      winShift);
    }
  }

  /** In every run there is at most one answer for the TX engine, and its window is bounded by that of the
      ACK the table had taken in last when it gave the answer - the SYN's at first - scaled by the shift
      of the handshake, and by the congestion window of that moment; it is one of the two. */
  lemma WindowIsPeers(isn: u32, recvWindow: u16, winShift: WinShift, actions: seq<Action>)
    requires forall a <- actions :: Short(a)
    ensures var y0 := Initial(isn, recvWindow, winShift);
            var answers, o := Run(y0, actions).st.engine.answers, OffersOf(y0, SynOffer(isn, recvWindow), actions).seen;
            && |answers| <= 1
            && (answers != [] ==>
                  var offered := o.recvWindow * (if winShift == 0 then 1 else if winShift == 1 then 2 else 4);
                  var rsp := answers[0].rsp;
                  && rsp.minWindow <= offered && rsp.minWindow <= o.congWindow
                  && (rsp.minWindow == offered || rsp.minWindow == o.congWindow)
                  && rsp.usableWindow == Max(rsp.minWindow - rsp.usedLength, 0))
  {
    hide Run, Initial, OffersOf, Inv, Short;
    var y0 := Initial(isn, recvWindow, winShift);
    OffersFollow(isn, recvWindow, winShift, actions);
    RunKeeps(isn, recvWindow, winShift, actions);
    WaitingIsBounded(Run(y0, actions), OffersOf(y0, SynOffer(isn, recvWindow), actions), winShift);
    hide OffersHold;
  }

  lemma WaitingIsBounded(y: System, o: Offers, winShift: WinShift)
    requires Inv(y) && OffersHold(y.st, o, winShift)
    ensures |y.st.engine.answers| <= 1
    ensures y.st.engine.answers != [] ==>
              var rsp := y.st.engine.answers[0].rsp;
              Bounds(rsp, o.seen, winShift) && rsp.usableWindow == Max(rsp.minWindow - rsp.usedLength, 0)
  {
    hide To18, To32, Bytes, RxStream, AckStream, WrittenStream, TableStream, Ordered, Residues, Bounds;
  }

  /** In every run, an ACK the RX engine has the table's answer for is written to the table if and only if
      its number is that of a position between the last acknowledgement and the next byte to send, as of
      that answer; the write is that of the position. */
  lemma AckTakenIff(isn: u32, recvWindow: u16, winShift: WinShift, actions: seq<Action>)
    requires forall a <- actions :: Short(a)
    requires var r := Run(Initial(isn, recvWindow, winShift), actions).st.rx; r.segment.Some? && r.answers != []
    ensures var y := Run(Initial(isn, recvWindow, winShift), actions);
            var z, g, a := Next(y, RxAck), y.st.rx.segment.value, y.st.rx.answers[0];
            && z.st.rx.segment.None? && z.st.rx.answers == [] && a.prevPos == y.pos.acked
            && (|z.st.rx.requests| == |y.st.rx.requests| + 1 <==>
                  exists p: int :: a.prevPos <= p <= a.nextPos && To32(p) == g.ackNumber)
            && (|z.st.rx.requests| == |y.st.rx.requests| || |z.st.rx.requests| == |y.st.rx.requests| + 1)
            && To32(z.pos.acked) == (if |z.st.rx.requests| > |y.st.rx.requests| then g.ackNumber else To32(y.pos.acked))
  {
    hide Run, Inv, Initial, RxAckStep;
    RunKeeps(isn, recvWindow, winShift, actions);
    AckTakenAt(Run(Initial(isn, recvWindow, winShift), actions));
  }

  lemma AckTakenAt(y: System)
    requires Inv(y) && y.st.rx.segment.Some? && y.st.rx.answers != []
    ensures var z, g, a := RxAckStep(y), y.st.rx.segment.value, y.st.rx.answers[0];
            && z.st.rx.segment.None? && z.st.rx.answers == [] && a.prevPos == y.pos.acked
            && (|z.st.rx.requests| == |y.st.rx.requests| + 1 <==>
                  exists p: int :: a.prevPos <= p <= a.nextPos && To32(p) == g.ackNumber)
            && (|z.st.rx.requests| == |y.st.rx.requests| || |z.st.rx.requests| == |y.st.rx.requests| + 1)
            && To32(z.pos.acked) == (if |z.st.rx.requests| > |y.st.rx.requests| then g.ackNumber else To32(y.pos.acked))
  {
    var g, a := y.st.rx.segment.value, y.st.rx.answers[0];
    hide To16, To18, To32, Bytes, AckStream, WrittenStream, AckPosition, AckAcceptable, EngineStream, TableStream;
    AckTestIff(a.prevPos, a.nextPos, g.ackNumber);
    var pos := AckPosition(a.prevAck, a.prevPos, g.ackNumber);
    forall p: int | a.prevPos <= p <= a.nextPos && To32(p) == g.ackNumber ensures p == pos {
      NearNumbers(a.prevPos, p, g.ackNumber);
    }
    if pos <= a.nextPos {
      assert a.prevPos <= pos <= a.nextPos && To32(pos) == g.ackNumber;
    }
  }

  lemma NearNumbers(prevPos: int, p: int, ack: u32)
    requires prevPos <= p < prevPos + WORD_32 && To32(p) == ack
    ensures AckPosition(To32(prevPos), prevPos, ack) == p
  {
    AckTestIff(prevPos, p, ack);
  }

  /** In every run, what a burst leaves in flight - from the acknowledgement its answer saw - exceeds
      neither what was in flight before nor the window the peer offers nor the congestion window, if and
      only if its 16-bit count does not wrap; the pointer it hands over stands behind what it sent if and
      only if the burst does not skip; and it sends all that was written and not sent yet, as far as the
      window goes, if and only if the 16-bit temporary loses nothing and the count does not wrap. */
  lemma BurstStaysInOffer(isn: u32, recvWindow: u16, winShift: WinShift, actions: seq<Action>)
    requires forall a <- actions :: Short(a)
    requires var s := Run(Initial(isn, recvWindow, winShift), actions).st; s.engine.busy && s.engine.answers != []
    ensures var y0 := Initial(isn, recvWindow, winShift);
            var y, o := Run(y0, actions), OffersOf(y0, SynOffer(isn, recvWindow), actions).seen;
            var a := y.st.engine.answers[0];
            var z := Next(y, EngineTransmit);
            var sent := z.st.sent[|y.st.sent|..];
            var offered := o.recvWindow * (if winShift == 0 then 1 else if winShift == 1 then 2 else 4);
            && y.st.sent <= z.st.sent
            && (!Overruns(a.rsp) <==>
                  y.pos.handed + |Flatten(sent)| - a.ackdPos <=
                    Max(y.pos.handed - a.ackdPos, Min(offered, o.congWindow)))
            && (!Skips(a.rsp) <==> z.pos.handed == y.pos.handed + |Flatten(sent)|)
            && ((|Flatten(sent)| == Min(a.writtenPos - y.pos.handed, a.rsp.usableWindow) &&
                 z.pos.handed == y.pos.handed + |Flatten(sent)|) <==> NothingLost(a.rsp) && !Overruns(a.rsp))
  {
    hide Run, Initial, Inv, Next, Short, Flatten, Overruns, Skips, NothingLost, OffersOf;
    WindowIsPeers(isn, recvWindow, winShift, actions);
    RunKeeps(isn, recvWindow, winShift, actions);
    var y := Run(Initial(isn, recvWindow, winShift), actions);
    NextIsTransmit(y);
    BurstInFlight(y);
  }

  lemma BurstInFlight(y: System)
    requires Inv(y) && y.st.engine.busy && y.st.engine.answers != []
    ensures var a, z := y.st.engine.answers[0], EngineTransmitStep(y);
            var sent := z.st.sent[|y.st.sent|..];
            && y.st.sent <= z.st.sent
            && (!Overruns(a.rsp) <==>
                  y.pos.handed + |Flatten(sent)| - a.ackdPos <= Max(y.pos.handed - a.ackdPos, a.rsp.minWindow))
            && (!Skips(a.rsp) <==> z.pos.handed == y.pos.handed + |Flatten(sent)|)
            && ((|Flatten(sent)| == Min(a.writtenPos - y.pos.handed, a.rsp.usableWindow) &&
                 z.pos.handed == y.pos.handed + |Flatten(sent)|) <==> NothingLost(a.rsp) && !Overruns(a.rsp))
  {
    hide To16, To18, To32, AckStream, WrittenStream, TxBurst, Moved, Computed, Contiguous, Total, ReadsOwnBytes,
         Payloads, Flatten, Chain, RxStream, TableStream, Residues, Skips, Bytes, Overruns, NothingLost;
    var a := y.st.engine.answers[0];
    var r := FreshRegs(a.rsp);
    BurstRespectsWindowIff(r, a.rsp);
    PointerMatchesIff(r, a.rsp);
    BurstIsExactIff(r, a.rsp);
    var segments := TxBurst(r, a.rsp).segments;
    PayloadsLength(y.st.memory, segments, a.notAckdPos);
    var more := Payloads(y.st.memory, segments, a.notAckdPos);
    assert EngineTransmitStep(y).st.sent == y.st.sent + more;
    assert (y.st.sent + more)[|y.st.sent|..] == more;
  }

  // ---------- A run that skips ----------

  /** Nothing is on its way between the modules. */
  ghost predicate Still(s: State) {
    && Idle(s) && s.rx == RxLink([], [], None) && s.engine == EngineLink([], [], false)
  }

  lemma {:induction false} RunJoins(y: System, a: seq<Action>, b: seq<Action>)
    ensures Run(Run(y, a), b) == Run(y, a + b)
  {
    hide Next;
    if b == [] {
      assert a + b == a;
    } else {
      RunJoins(y, a, b[..|b| - 1]);
      assert (a + b)[..|a + b| - 1] == a + b[..|b| - 1];
    }
  }

  lemma RunSnoc(y: System, actions: seq<Action>, a: Action)
    ensures Run(y, actions + [a]) == Next(Run(y, actions), a)
    ensures NeverSkips(y, actions + [a]) ==> !SkippingStep(Run(y, actions), a)
  {
    hide SkippingStep, Next;
    assert (actions + [a])[..|actions|] == actions;
  }

  /** The moves that play one write to its end, those that take in the acknowledgement of the SYN, and
      those that bring a TX event to the point where its burst is sent. */
  function WriteMoves(payload: seq<byte>): seq<Action> {
    [AppRequest(payload), AppTable, AppDecide(true), AppTable, Mover, AppResponse, SarTable]
  }

  function AckMoves(g: AckSegment): seq<Action> { [RxLoad(g), SarTable, RxAck, SarTable, AppTable] }
  function LoadMoves(): seq<Action> { [EngineLoad, SarTable] }

  lemma RunsWrite(y: System, payload: seq<byte>)
    ensures Run(y, WriteMoves(payload)) == PlayWrite(y, payload)
  {
    hide AppRequestStep, AppTableStep, AppDecideStep, MoverStep, AppResponseStep, SarTableStep;
    var m := WriteMoves(payload);
    RunSnoc(y, m[..0], m[0]);
    RunSnoc(y, m[..1], m[1]);
    RunSnoc(y, m[..2], m[2]);
    RunSnoc(y, m[..3], m[3]);
    RunSnoc(y, m[..4], m[4]);
    RunSnoc(y, m[..5], m[5]);
    RunSnoc(y, m[..6], m[6]);
    assert m[..0] + [m[0]] == m[..1] && m[..1] + [m[1]] == m[..2] && m[..2] + [m[2]] == m[..3];
    assert m[..3] + [m[3]] == m[..4] && m[..4] + [m[4]] == m[..5] && m[..5] + [m[5]] == m[..6];
    assert m[..6] + [m[6]] == m;
  }

  lemma WriteMovesOn(y: System, payload: seq<byte>)
    requires Still(y.st) && |payload| <= MaxWriteLength(y.st.app.ackd, y.st.app.ideal) && |payload| < WORD_16
    ensures var z := PlayWrite(y, payload).st;
            && Still(z)
            && z.sar == y.st.sar.(appWritten := To18(y.st.app.ideal + |payload|))
            && z.app == y.st.app.(ideal := To18(y.st.app.ideal + |payload|))
  {
    hide To16, To18, To32, Store, MaxWriteLength;
    var n, a := |payload|, y.st.app.ideal;
    SmallWord(n);
    var y1 := AppTableStep(AppRequestStep(y, payload));
    var answer := TableAnswer(y.st.app.ackd, a, y.pos.appAckd, y.pos.tableIdeal);
    assert y1.st.table == TableLink([], [answer], Some(payload));
    var y2 := AppTableStep(AppDecideStep(y1, true));
    assert y2.st.app == y.st.app.(ideal := To18(a + n)) && y2.st.table == TableLink([], [], None);
    assert y2.st.writes.events == [WriteEvent(a, n, y.pos.tableIdeal)] && |y2.st.writes.commands| == 1;
    var y3 := AppResponseStep(MoverStep(y2));
    assert y3.st.writes == WriteLink([], [], 0);
    assert y3.st.writtenUpdates == [WrittenUpdate(To18(a + n), y.pos.tableIdeal + n)];
  }

  lemma SmallWord(n: nat)
    requires n < WORD_16
    ensures To16(n) == n
  {
  }

  lemma AckMovesOn(y: System, g: AckSegment)
    requires Still(y.st) && AckAcceptable(y.st.sar.ackd, y.st.sar.notAckd, g.ackNumber)
    ensures var z := Run(y, AckMoves(g)).st;
            && Still(z)
            && z.sar == y.st.sar.(ackd := g.ackNumber, recvWindow := g.recvWindow, congWindow := g.congWindow)
            && z.app == y.st.app.(ackd := To18(g.ackNumber))
  {
    hide To18, To32, AckAcceptable, Next, Still, Run;
    var m := AckMoves(g);
    RunSnoc(y, m[..0], m[0]);
    RunSnoc(y, m[..1], m[1]);
    RunSnoc(y, m[..2], m[2]);
    RunSnoc(y, m[..3], m[3]);
    RunSnoc(y, m[..4], m[4]);
    assert m[..0] + [m[0]] == m[..1] && m[..1] + [m[1]] == m[..2] && m[..2] + [m[2]] == m[..3];
    assert m[..3] + [m[3]] == m[..4] && m[..4] + [m[4]] == m;
    RunNone(y);
    AckAsked(y, g);
    AckTaken(Next(Next(y, m[0]), m[1]), g);
  }

  lemma RunNone(y: System)
    ensures Run(y, []) == y
  {
  }

  lemma AckAsked(y: System, g: AckSegment)
    requires Still(y.st)
    ensures var z := Next(Next(y, RxLoad(g)), SarTable).st;
            && |z.rx.answers| == 1 && z == y.st.(rx := RxLink([], z.rx.answers, Some(g)))
            && z.rx.answers[0].prevAck == y.st.sar.ackd && z.rx.answers[0].nextByte == y.st.sar.notAckd
            && Still(z.(rx := RxLink([], [], None)))
  {
    var y1 := Next(y, RxLoad(g));
    assert y1.st.rx == RxLink([RxRead], [], Some(g));
    var a := RxAnswer(y.st.sar.ackd, y.st.sar.notAckd, y.pos.ackd, y.pos.notAckd);
    assert Next(y1, SarTable).st == y.st.(rx := RxLink([], [a], Some(g)));
  }

  lemma AckTaken(y: System, g: AckSegment)
    requires |y.st.rx.answers| == 1 && Still(y.st.(rx := RxLink([], [], None)))
    requires y.st.rx == RxLink([], y.st.rx.answers, Some(g))
    requires AckAcceptable(y.st.rx.answers[0].prevAck, y.st.rx.answers[0].nextByte, g.ackNumber)
    ensures var z := Next(Next(Next(y, RxAck), SarTable), AppTable).st;
            && Still(z)
            && z.sar == y.st.sar.(ackd := g.ackNumber, recvWindow := g.recvWindow, congWindow := g.congWindow)
            && z.app == y.st.app.(ackd := To18(g.ackNumber))
  {
    hide To18, To32, AckAcceptable, AckPosition;
    var y1 := Next(y, RxAck);
    assert |y1.st.rx.requests| == 1 && y1.st.rx.answers == [] && y1.st.rx.segment.None?;
    var y2 := Next(y1, SarTable);
    assert y2.st.rx == RxLink([], [], None) && |y2.st.ackUpdates| == 1;
  }

  lemma LoadMovesOn(y: System)
    requires Still(y.st)
    ensures var z, e := Run(y, LoadMoves()).st, y.st.sar;
            z.engine.busy && |z.engine.answers| == 1 &&
            z.engine.answers[0].rsp == SarAnswer(e.ackd, e.notAckd, e.appWritten, MinWindow(y.st))
  {
    hide SarAnswer;
    var m := LoadMoves();
    RunSnoc(y, m[..0], m[0]);
    RunSnoc(y, m[..1], m[1]);
    assert m[..0] + [m[0]] == m[..1] && m[..1] + [m[1]] == m;
    assert Run(y, m[..1]).st.engine == EngineLink([EngineRead], [], true);
  }

  /** The acknowledgement of the SYN, with the congestion window that comes of it. */
  function FirstAck(congWindow: u18): AckSegment { AckSegment(1, 65535, congWindow) }

  /** The congestion window is eleven segments; two writes of 40000 bytes each are stored, and one TX
      event finds them waiting. */
  function SkippingMoves(first: seq<byte>, second: seq<byte>): seq<Action> {
    AckMoves(FirstAck(16060)) + WriteMoves(first) + WriteMoves(second) + LoadMoves()
  }

  lemma FirstAckOpens(congWindow: u18)
    ensures var y := Run(Initial(0, 65535, 2), AckMoves(FirstAck(congWindow))).st;
            Still(y) && y.sar == SarEntry(1, 1, 1, 65535, congWindow, 2) && y.app == AppEntry(1, 1)
  {
    var y0 := Initial(0, 65535, 2);
    assert Still(y0.st) && AckAcceptable(y0.st.sar.ackd, y0.st.sar.notAckd, 1);
    hide Run, AckMoves, Still, AckAcceptable;
    AckMovesOn(y0, FirstAck(congWindow));
  }

  lemma WritesWait(y: System, first: seq<byte>, second: seq<byte>)
    requires |first| == |second| == 40000
    requires Still(y.st) && y.st.sar == SarEntry(1, 1, 1, 65535, 16060, 2) && y.st.app == AppEntry(1, 1)
    ensures var z := Run(y, WriteMoves(first) + WriteMoves(second)).st;
            Still(z) && z.sar == SarEntry(1, 1, 80001, 65535, 16060, 2)
  {
    hide Run, PlayWrite, WriteMoves, Still;
    RunsWrite(y, first);
    WriteMovesOn(y, first);
    var y1 := Run(y, WriteMoves(first));
    RunsWrite(y1, second);
    WriteMovesOn(y1, second);
    RunJoins(y, WriteMoves(first), WriteMoves(second));
  }

  lemma SkippingMovesMeet(first: seq<byte>, second: seq<byte>)
    requires |first| == |second| == 40000
    ensures var s := Run(Initial(0, 65535, 2), SkippingMoves(first, second)).st;
            s.engine.busy && |s.engine.answers| == 1 && Skips(s.engine.answers[0].rsp)
  {
    hide Run, Initial, WriteMoves, AckMoves, LoadMoves, Still, SarAnswer, Skips;
    var y0 := Initial(0, 65535, 2);
    var a, b := AckMoves(FirstAck(16060)), WriteMoves(first) + WriteMoves(second);
    FirstAckOpens(16060);
    WritesWait(Run(y0, a), first, second);
    RunJoins(y0, a, b);
    LoadMovesOn(Run(y0, a + b));
    RunJoins(y0, a + b, LoadMoves());
    assert SkippingMoves(first, second) == a + b + LoadMoves();
    FirstBurstSkips();
  }

  lemma FirstBurstSkips()
    ensures var rsp := SarAnswer(1, 1, 80001, 16060);
            Skips(rsp) && rsp.currLength == 80000 && rsp.usableWindow == 16060 && Effective(rsp) == 14464
  {
  }

  /** A run from the start whose one burst skips: 80000 bytes wait, the window takes 16060 of them,
      14464 are sent and the pointer passes them all. */
  lemma RunSkips(first: seq<byte>, second: seq<byte>)
    requires |first| == |second| == 40000
    ensures var moves := SkippingMoves(first, second) + [EngineTransmit];
            && (forall a <- moves :: Short(a))
            && !SentIsPrefix(Run(Initial(0, 65535, 2), moves))
  {
    var before := SkippingMoves(first, second);
    SkippingMovesMeet(first, second);
    SkippingMovesShort(first, second);
    hide Run, SentIsPrefix, NeverSkips, Skips, Initial, SkippingMoves, Next, Short;
    RunSnoc(Initial(0, 65535, 2), before, EngineTransmit);
    TransmittedStreamIsPrefixIff(0, 65535, 2, before + [EngineTransmit]);
  }

  lemma SkippingMovesShort(first: seq<byte>, second: seq<byte>)
    requires |first| == |second| == 40000
    ensures forall a <- SkippingMoves(first, second) + [EngineTransmit] :: Short(a)
  {
  }

  // ---------- A run that passes the window ----------

  /** A TX event, from its load to the table's taking the new pointer. */
  function SendMoves(): seq<Action> { LoadMoves() + [EngineTransmit] + [SarTable] }

  lemma SendMovesOn(y: System)
    requires Still(y.st)
    requires var rsp := SarAnswer(y.st.sar.ackd, y.st.sar.notAckd, y.st.sar.appWritten, MinWindow(y.st));
             !Skips(rsp) && !Overruns(rsp) && Effective(rsp) <= rsp.usableWindow
    ensures var z, e := Run(y, SendMoves()).st, y.st.sar;
            var rsp := SarAnswer(e.ackd, e.notAckd, e.appWritten, MinWindow(y.st));
            Still(z) && z.sar == e.(notAckd := To32(e.notAckd + Effective(rsp))) && z.app == y.st.app
  {
    hide SarAnswer, MinWindow, TxBurst, Total, Moved, Skips, Overruns, Effective, Payloads, To18, To32, Run, Next,
         NeverSkips, SkippingStep, LoadMoves;
    LoadMovesOn(y);
    var y1 := Run(y, LoadMoves());
    LoadMovesKeep(y);
    var rsp := y1.st.engine.answers[0].rsp;
    AnswerIsComputed(y.st.sar.ackd, y.st.sar.notAckd, y.st.sar.appWritten, MinWindow(y.st));
    PointerMatchesIff(FreshRegs(rsp), rsp);
    BurstTotal(FreshRegs(rsp), rsp);
    RunSnoc(y, LoadMoves(), EngineTransmit);
    RunSnoc(y, LoadMoves() + [EngineTransmit], SarTable);
    BurstTaken(y1);
  }

  lemma LoadMovesKeep(y: System)
    requires Still(y.st)
    ensures var z := Run(y, LoadMoves()).st;
            z == y.st.(engine := EngineLink([], z.engine.answers, true))
  {
    hide SarAnswer, MinWindow;
    var m := LoadMoves();
    RunSnoc(y, m[..0], m[0]);
    RunSnoc(y, m[..1], m[1]);
    assert m[..0] + [m[0]] == m[..1] && m[..1] + [m[1]] == m;
    assert Run(y, m[..1]).st == y.st.(engine := EngineLink([EngineRead], [], true));
  }

  lemma AnswerIsComputed(ackd: u32, notAckd: u32, appWritten: u18, minWindow: u18)
    ensures Computed(SarAnswer(ackd, notAckd, appWritten, minWindow))
    ensures SarAnswer(ackd, notAckd, appWritten, minWindow).notAckd == notAckd
  {
    hide To18, To32;
  }

  lemma BurstTaken(y: System)
    requires y.st.engine == EngineLink([], y.st.engine.answers, true) && |y.st.engine.answers| == 1
    requires Still(y.st.(engine := EngineLink([], [], false)))
    requires var rsp := y.st.engine.answers[0].rsp; |TxBurst(FreshRegs(rsp), rsp).writeBacks| == 1
    ensures var z, rsp := Next(Next(y, EngineTransmit), SarTable).st, y.st.engine.answers[0].rsp;
            && Still(z) && z.app == y.st.app
            && z.sar == y.st.sar.(notAckd := TxBurst(FreshRegs(rsp), rsp).writeBacks[0])
  {
    hide TxBurst, Moved, Payloads, SarAnswer, MinWindow;
    var y1 := Next(y, EngineTransmit);
    assert |y1.st.engine.requests| == 1 && y1.st.engine.requests[0].EngineWrite?;
  }

  /** The window has opened to 66000 bytes; 64540 are sent and not acknowledged, and 1461 more wait. */
  function OverrunningMoves(first: seq<byte>, second: seq<byte>): seq<Action> {
    AckMoves(FirstAck(66000)) + WriteMoves(first) + SendMoves() + WriteMoves(second) + LoadMoves()
  }

  lemma FirstIsSent(y: System, first: seq<byte>)
    requires |first| == 64540
    requires Still(y.st) && y.st.sar == SarEntry(1, 1, 1, 65535, 66000, 2) && y.st.app == AppEntry(1, 1)
    ensures var z := Run(y, WriteMoves(first) + SendMoves()).st;
            Still(z) && z.sar == SarEntry(1, 64541, 64541, 65535, 66000, 2) && z.app == AppEntry(1, 64541)
  {
    hide Run, PlayWrite, WriteMoves, SendMoves, Still;
    RunsWrite(y, first);
    WriteMovesOn(y, first);
    var y1 := Run(y, WriteMoves(first));
    assert y1.st.sar == SarEntry(1, 1, 64541, 65535, 66000, 2);
    WideAnswer();
    SendMovesOn(y1);
    RunJoins(y, WriteMoves(first), SendMoves());
  }

  lemma WideAnswer()
    ensures var rsp := SarAnswer(1, 1, 64541, 66000);
            !Skips(rsp) && !Overruns(rsp) && Effective(rsp) == 64540 && Effective(rsp) <= rsp.usableWindow
  {
  }

  lemma SecondBurstOverruns()
    ensures var rsp := SarAnswer(1, 64541, 66002, 66000);
            Overruns(rsp) && rsp.usableWindow == 1460 && rsp.usedLength == 64540
  {
  }

  /** A run from the start whose second burst sends past the window: one byte more than fits. */
  lemma RunOverruns(first: seq<byte>, second: seq<byte>)
    requires |first| == 64540 && |second| == 1461
    ensures forall a <- OverrunningMoves(first, second) :: Short(a)
    ensures var s := Run(Initial(0, 65535, 2), OverrunningMoves(first, second)).st;
            && s.engine.busy && |s.engine.answers| == 1
            && var rsp := s.engine.answers[0].rsp;
               rsp.usedLength + Total(TxBurst(FreshRegs(rsp), rsp).segments) == rsp.minWindow + 1
  {
    hide Run, Initial, WriteMoves, AckMoves, LoadMoves, SendMoves, Still, SarAnswer, Overruns,
         TxBurst, Total, PlayWrite;
    var y0 := Initial(0, 65535, 2);
    var a, b, c, d := AckMoves(FirstAck(66000)), WriteMoves(first) + SendMoves(), WriteMoves(second), LoadMoves();
    FirstAckOpens(66000);
    FirstIsSent(Run(y0, a), first);
    RunJoins(y0, a, b);
    LastIsWritten(Run(y0, a + b), second);
    RunJoins(y0, a + b, c);
    LoadMovesOn(Run(y0, a + b + c));
    RunJoins(y0, a + b + c, d);
    assert OverrunningMoves(first, second) == a + b + c + d;
    OverrunTotal();
    MovesAreShort(first, second);
  }

  lemma LastIsWritten(y: System, second: seq<byte>)
    requires |second| == 1461
    requires Still(y.st) && y.st.sar == SarEntry(1, 64541, 64541, 65535, 66000, 2) && y.st.app == AppEntry(1, 64541)
    ensures var z := Run(y, WriteMoves(second)).st;
            Still(z) && z.sar == SarEntry(1, 64541, 66002, 65535, 66000, 2)
  {
    hide Run, PlayWrite, WriteMoves, Still;
    RunsWrite(y, second);
    WriteMovesOn(y, second);
  }

  lemma OverrunTotal()
    ensures var rsp := SarAnswer(1, 64541, 66002, 66000);
            rsp.usedLength + Total(TxBurst(FreshRegs(rsp), rsp).segments) == rsp.minWindow + 1
  {
    hide TxBurst, Total;
    SecondBurstOverruns();
    AnswerIsComputed(1, 64541, 66002, 66000);
    BurstTotal(FreshRegs(SarAnswer(1, 64541, 66002, 66000)), SarAnswer(1, 64541, 66002, 66000));
  }

  lemma MovesAreShort(first: seq<byte>, second: seq<byte>)
    requires |first| < WORD_16 && |second| < WORD_16
    ensures forall a <- OverrunningMoves(first, second) :: Short(a)
  {
  }
}
