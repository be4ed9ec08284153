/** The six modules as they are written: functions over registers, tables and streams that a
    scheduler calls in any order. Each method performs one call and is proved to be the step
    that `TxWindow` reasons about, so every run of calls keeps what is proved there.
 */
module TxDatapath {
  import opened Words
  import opened RingMemory
  import opened TxEngine
  import opened TxWindow

  class TxDatapath {
    // the session's entries in the two tables
    var sar: SarEntry
    var app: AppEntry
    // streams and registers
    var engine: EngineLink
    var rx: RxLink
    var table: TableLink
    var writes: WriteLink
    var ackUpdates: seq<AckUpdate>
    var writtenUpdates: seq<WrittenUpdate>
    // external memory, and what the two ends saw
    var memory: Memory
    var verdicts: seq<Verdict>
    var sent: seq<SentSegment>
    ghost var pos: Positions

    ghost function View(): System
      reads this
    {
      System(State(sar, app, engine, rx, table, writes, ackUpdates, writtenUpdates, memory, verdicts, sent), pos)
    }

    /** The tables right after the SYN of the session has been sent. */
    constructor (isn: u32, recvWindow: u16, winShift: WinShift)
      ensures View() == Initial(isn, recvWindow, winShift)
    {
      sar := SarEntry(isn, To32(isn + 1), To18(isn + 1), recvWindow, 14600, winShift);
      app := AppEntry(To18(isn), To18(isn + 1));
      engine, rx, table := EngineLink([], [], false), RxLink([], [], None), TableLink([], [], None);
      writes, ackUpdates, writtenUpdates := WriteLink([], [], 0), [], [];
      memory, verdicts, sent := map[], [], [];
      pos := Initial(isn, recvWindow, winShift).pos;
    }

    // ---------- The TX SAR table ----------

    /** The lengths and windows the table computes for the transmit engine. */
    static method Answer(entry: SarEntry) returns (rsp: TxSarRsp)
      ensures rsp == SarAnswer(entry.ackd, entry.notAckd, entry.appWritten,
                               Min(entry.congWindow, ScaledWindow(entry.recvWindow, entry.winShift)))
    {
      hide To18, To32;
      var curr := To18(entry.appWritten - To18(entry.notAckd));
      var used := To18(To18(entry.notAckd) - entry.ackd);
      var scaled: u18 := entry.recvWindow;
      if entry.winShift == 1 {
        scaled := 2 * entry.recvWindow;
      } else if entry.winShift == 2 {
        scaled := 4 * entry.recvWindow;
      }
      var window := scaled;
      if entry.congWindow < scaled {
        window := entry.congWindow;
      }
      var usable: u18 := 0;
      if window > used {
        usable := window - used;
      }
      rsp := TxSarRsp(entry.ackd, entry.notAckd, window, false, false, curr, used, used, usable,
                      entry.ackd == entry.notAckd, To32(entry.notAckd + curr));
    }

    method SarTable()
      modifies this
      ensures View() == SarTableStep(old(View()))
    {
      hide SarServesEngine, SarServesApp, SarServesRx;
      if engine.requests != [] {
        ServeEngine();
      } else if writtenUpdates != [] {
        ServeApp();
      } else if rx.requests != [] {
        ServeRx();
      }
    }

    method ServeEngine()
      requires engine.requests != []
      modifies `engine, `sar, `pos
      ensures View() == SarServesEngine(old(View()))
    {
      hide To18, To32, SarAnswer, ScaledWindow, Min;
      var request := engine.requests[0];
      engine := engine.(requests := engine.requests[1..]);
      match request
      case EngineWrite(notAckd, at) =>
        sar := sar.(notAckd := notAckd);
        pos := pos.(notAckd := at);
      case EngineRead =>
        var rsp := Answer(sar);
        engine := engine.(answers := engine.answers + [EngineAnswer(rsp, pos.ackd, pos.notAckd, pos.written)]);
    }

    method ServeApp()
      requires writtenUpdates != []
      modifies `writtenUpdates, `sar, `pos
      ensures View() == SarServesApp(old(View()))
    {
      var update := writtenUpdates[0];
      writtenUpdates := writtenUpdates[1..];
      sar := sar.(appWritten := update.appWritten);
      pos := pos.(written := update.pos);
    }

    method ServeRx()
      requires rx.requests != []
      modifies `rx, `ackUpdates, `sar, `pos
      ensures View() == SarServesRx(old(View()))
    {
      hide To18;
      var request := rx.requests[0];
      rx := rx.(requests := rx.requests[1..]);
      match request
      case RxWrite(ackd, recvWindow, congWindow, at) =>
        sar := sar.(ackd := ackd, recvWindow := recvWindow, congWindow := congWindow);
        ackUpdates := ackUpdates + [AckUpdate(To18(ackd), at)];
        pos := pos.(ackd := at);
      case RxRead =>
        rx := rx.(answers := rx.answers + [RxAnswer(sar.ackd, sar.notAckd, pos.ackd, pos.notAckd)]);
    }

    // ---------- The application's side ----------

    method AppTable()
      modifies this
      ensures View() == AppTableStep(old(View()))
    {
      if ackUpdates != [] {
        var update := ackUpdates[0];
        ackUpdates := ackUpdates[1..];
        app := app.(ackd := update.ackd);
        pos := pos.(appAckd := update.pos);
      } else if table.requests != [] {
        var request := table.requests[0];
        table := table.(requests := table.requests[1..]);
        match request
        case TableWrite(ideal, at) =>
          app := app.(ideal := ideal);
          pos := pos.(tableIdeal := at);
        case TableRead =>
          table := table.(answers := table.answers + [TableAnswer(app.ackd, app.ideal, pos.appAckd, pos.tableIdeal)]);
      }
    }

    /** The data handler in READ_REQUEST. */
    method ReadRequest(payload: seq<byte>)
      modifies `table
      ensures View() == AppRequestStep(old(View()), payload)
    {
      if table.pending.None? {
        table := table.(pending := Some(payload), requests := table.requests + [TableRead]);
      }
    }

    /** The admission test of READ_META. */
    static method Decide(established: bool, length: nat, answer: TableAnswer) returns (verdict: Verdict)
      ensures verdict == Admit(established, length, answer.ackd, answer.ideal)
    {
      var maxWriteLength := To18(answer.ackd - answer.ideal - 1);
      if !established {
        verdict := NoConnection;
      } else if length > maxWriteLength {
        verdict := NoSpace;
      } else {
        verdict := NoError;
      }
    }

    /** The data handler in READ_META, and the beats that follow an admitted request. */
    method ReadMeta(established: bool)
      modifies `table, `writes, `verdicts, `pos
      ensures View() == AppDecideStep(old(View()), established)
    {
      hide To16, To18, Admit;
      if table.pending.Some? && table.answers != [] {
        var answer, payload := table.answers[0], table.pending.value;
        var verdict := Decide(established, |payload|, answer);
        table := table.(pending := None, answers := table.answers[1..]);
        verdicts := verdicts + [verdict];
        if verdict == NoError {
          ghost var end := answer.idealPos + |payload|;
          var command := WriteCommand(answer.ideal, payload, answer.idealPos);
          var event := WriteEvent(answer.ideal, To16(|payload|), answer.idealPos);
          writes := writes.(commands := writes.commands + [command], events := writes.events + [event]);
          table := table.(requests := table.requests + [TableWrite(To18(answer.ideal + |payload|), end)]);
          pos := pos.(ideal := end, stream := pos.stream + payload);
        }
      }
    }

    /** The data mover. */
    method Mover()
      modifies `writes, `memory, `pos
      ensures View() == MoverStep(old(View()))
    {
      hide Store;
      if writes.commands != [] {
        var command := writes.commands[0];
        memory := Store(memory, command.memOffset, command.payload);
        writes := writes.(commands := writes.commands[1..], statuses := writes.statuses + 1);
        pos := pos.(stored := command.start + |command.payload|);
      }
    }

    /** The response handler: an event and the mover's status for it. */
    method WriteDone()
      modifies `writes, `writtenUpdates, `pos
      ensures View() == AppResponseStep(old(View()))
    {
      hide To18;
      if writes.events != [] && writes.statuses > 0 {
        var event := writes.events[0];
        ghost var end := event.start + event.length;
        writtenUpdates := writtenUpdates + [WrittenUpdate(To18(event.bufAddr + event.length), end)];
        writes := writes.(events := writes.events[1..], statuses := writes.statuses - 1);
        pos := pos.(confirmed := end);
      }
    }

    // ---------- The TX engine ----------

    /** The transmit engine in LOAD. */
    method EngineLoad()
      modifies `engine
      ensures View() == EngineLoadStep(old(View()))
    {
      if !engine.busy {
        engine := engine.(requests := engine.requests + [EngineRead], busy := true);
      }
    }

    /** Runs the transmit state machine from a TX event until it is idle again. */
    static method RunBurst(rsp: TxSarRsp) returns (segments: seq<Segment>, writeBacks: seq<u32>)
      ensures Output(segments, writeBacks) == TxBurst(FreshRegs(rsp), rsp)
    {
      hide TxBurst;
      var fsm := new TxEngTcpFsm(rsp);
      fsm.LoadEvent(SendTx);
      fsm.TransmitEvent(rsp);
      segments, writeBacks := fsm.segments, fsm.tableWrites;
      assert [] + TxBurst(FreshRegs(rsp), rsp).segments == TxBurst(FreshRegs(rsp), rsp).segments;
      assert [] + TxBurst(FreshRegs(rsp), rsp).writeBacks == TxBurst(FreshRegs(rsp), rsp).writeBacks;
    }

    /** Reads the payload of every segment of a burst from memory. */
    static method ReadPayloads(mem: Memory, segments: seq<Segment>, ghost start: int)
      returns (out: seq<SentSegment>)
      ensures out == Payloads(mem, segments, start)
    {
      hide ReadRing, Payloads;
      out := [];
      ghost var at := start;
      var i := 0;
      assert segments[0..] == segments;
      while i < |segments|
        invariant 0 <= i <= |segments|
        invariant out + Payloads(mem, segments[i..], at) == Payloads(mem, segments, start)
      {
        var g := segments[i];
        assert segments[i..][1..] == segments[i + 1..];
        PayloadsTaken(out, mem, segments[i..], at);
        out := out + [SentSegment(g.seqNumber, ReadRing(mem, g.memOffset, g.length), at)];
        at := at + g.length;
        i := i + 1;
      }
      PayloadsEnd(out, mem, at);
      assert segments[i..] == [];
    }

    static method WriteRequests(writeBacks: seq<u32>, ghost at: int) returns (requests: seq<EngineRequest>)
      ensures requests == EngineWrites(writeBacks, at)
    {
      requests := [];
      for i := 0 to |writeBacks|
        invariant |requests| == i
        invariant forall k :: 0 <= k < i ==> requests[k] == EngineWrite(writeBacks[k], at)
      {
        requests := requests + [EngineWrite(writeBacks[i], at)];
      }
    }

    /** The transmit engine on a TX event: the whole burst. */
    method EngineTransmit()
      modifies `engine, `sent, `pos
      ensures View() == EngineTransmitStep(old(View()))
    {
      hide TxBurst, Moved, Payloads, EngineWrites;
      if engine.busy && engine.answers != [] {
        var answer := engine.answers[0];
        ghost var handed := answer.notAckdPos + Moved(FreshRegs(answer.rsp), answer.rsp);
        var segments, writeBacks := RunBurst(answer.rsp);
        var payloads := ReadPayloads(memory, segments, answer.notAckdPos);
        var requests := WriteRequests(writeBacks, handed);
        sent := sent + payloads;
        engine := EngineLink(engine.requests + requests, engine.answers[1..], false);
        pos := pos.(handed := handed);
      }
    }

    /** The transmit engine on an event that only reads the table. */
    method EngineOther()
      modifies `engine
      ensures View() == EngineOtherStep(old(View()))
    {
      if engine.busy && engine.answers != [] {
        engine := engine.(busy := false, answers := engine.answers[1..]);
      }
    }

    // ---------- The RX engine ----------

    /** The receive engine in LOAD, for a segment whose ACK bit is set. */
    method RxLoad(segment: AckSegment)
      modifies `rx
      ensures View() == RxLoadStep(old(View()), segment)
    {
      if rx.segment.None? {
        rx := rx.(requests := rx.requests + [RxRead], segment := Some(segment));
      }
    }

    /** The receive engine's acknowledgement test and table update. */
    method RxAck()
      modifies `rx, `pos
      ensures View() == RxAckStep(old(View()))
    {
      hide AckPosition, AckAcceptable;
      if rx.segment.Some? && rx.answers != [] {
        var answer, segment := rx.answers[0], rx.segment.value;
        rx := rx.(segment := None, answers := rx.answers[1..]);
        if AckAcceptable(answer.prevAck, answer.nextByte, segment.ackNumber) {
          ghost var at := AckPosition(answer.prevAck, answer.prevPos, segment.ackNumber);
          var request := RxWrite(segment.ackNumber, segment.recvWindow, segment.congWindow, at);
          rx := rx.(requests := rx.requests + [request]);
          pos := pos.(acked := at);
        }
      }
    }
  }

  lemma PayloadsTaken(out: seq<SentSegment>, mem: Memory, segments: seq<Segment>, at: int)
    requires segments != []
    ensures var g := segments[0];
            out + Payloads(mem, segments, at) ==
            (out + [SentSegment(g.seqNumber, ReadRing(mem, g.memOffset, g.length), at)]) +
            Payloads(mem, segments[1..], at + g.length)
  {
    hide ReadRing;
  }

  lemma PayloadsEnd(out: seq<SentSegment>, mem: Memory, at: int)
    ensures out + Payloads(mem, [], at) == out
  {
  }
}
