/** The modules of the receive side as they are written. Each method performs one call of one
    module and is proved to be the step that `RxWindow` reasons about.
 */
module RxDatapath {
  import opened Words
  import opened RingMemory
  import opened RxWindow

  class RxDatapath {
    // the session's entry in the RX SAR table
    var entry: Entry
    // streams and registers
    var engine: EngineLink
    var app: AppLink
    var writes: WriteLink
    // external memory
    var memory: Memory
    // the world outside
    var readable: nat
    var drops: seq<bool>
    var adverts: seq<Advert>
    var delivered: seq<byte>
    ghost var pos: Positions

    ghost function View(): System
      reads this
    {
      System(State(entry, engine, app, writes, memory, readable, drops, adverts, delivered), pos)
    }

    /** The table right after a SYN with sequence number `irs`. */
    constructor (irs: u32, winShift: Shift)
      ensures View() == Initial(irs, winShift)
    {
      entry := Entry(To32(irs + 1), To18(irs + 1), winShift);
      engine, app, writes := EngineLink([], [], None), AppLink([], [], None), WriteLink([], [], 0);
      memory, readable, drops, adverts, delivered := map[], 0, [], [], [];
      pos := Initial(irs, winShift).pos;
    }

    // ---------- The RX SAR table ----------

    /** A look-up for the TX engine: the window is computed on the fly. */
    method LookUp()
      modifies `adverts
      ensures View() == LookUpStep(old(View()))
    {
      hide To18;
      var window := To18(entry.appRead - To18(entry.recvd) - 1);
      if entry.winShift != 0 {
        window := window / 4;
      }
      adverts := adverts + [Advert(entry.recvd, To16(window))];
    }

    method Table()
      modifies this
      ensures View() == TableStep(old(View()))
    {
      hide ServesApp, ServesEngine;
      if app.requests != [] {
        ServeApp();
      } else if engine.requests != [] {
        ServeEngine();
      }
    }

    method ServeApp()
      requires app.requests != []
      modifies `app, `entry, `pos
      ensures View() == ServesApp(old(View()))
    {
      var request := app.requests[0];
      app := app.(requests := app.requests[1..]);
      match request
      case AppWrite(appRead, at) =>
        entry := entry.(appRead := appRead);
        pos := pos.(appRead := at);
      case AppRead =>
        app := app.(answers := app.answers + [AppAnswer(entry.appRead, pos.appRead)]);
    }

    method ServeEngine()
      requires engine.requests != []
      modifies `engine, `entry, `pos
      ensures View() == ServesEngine(old(View()))
    {
      var request := engine.requests[0];
      engine := engine.(requests := engine.requests[1..]);
      match request
      case EngineWrite(recvd, at) =>
        entry := entry.(recvd := recvd);
        pos := pos.(recvd := at);
      case EngineRead =>
        var answer := EngineAnswer(entry.recvd, entry.appRead, pos.recvd, pos.appRead);
        engine := engine.(answers := engine.answers + [answer]);
    }

    // ---------- The RX engine ----------

    /** LOAD */
    method LoadSegment(segment: DataSegment)
      modifies `engine
      ensures View() == LoadStep(old(View()), segment)
    {
      if engine.segment.None? {
        engine := engine.(requests := engine.requests + [EngineRead], segment := Some(segment));
      }
    }

    static method InOrderAndRoom(answer: EngineAnswer, seqNumber: u32, length: nat) returns (accept: bool)
      ensures accept == Fits(answer, seqNumber, length)
    {
      hide To18;
      var freeSpace := To18(answer.appRead - To18(answer.recvd) - 1);
      accept := seqNumber == answer.recvd && freeSpace > length;
    }

    /** TRANSITION, for a segment with the ACK bit set. */
    method Transition()
      modifies `engine, `writes, `drops, `pos
      ensures View() == DecideStep(old(View()))
    {
      hide To16, To18, To32, Fits;
      if engine.segment.Some? && engine.answers != [] {
        var answer, g := engine.answers[0], engine.segment.value;
        engine := engine.(segment := None, answers := engine.answers[1..]);
        var length := |g.payload|;
        if length != 0 && g.outcome != OutOfWindow {
          var accept := InOrderAndRoom(answer, g.seqNumber, length);
          if g.outcome == InWindow && accept {
            ghost var end := answer.recvdPos + length;
            engine := engine.(requests := engine.requests + [EngineWrite(To32(g.seqNumber + length), end)]);
            var command := WriteCommand(To18(g.seqNumber), g.payload, answer.recvdPos);
            var notice := Notice(To16(length), answer.recvdPos);
            writes := writes.(commands := writes.commands + [command], notices := writes.notices + [notice]);
            drops := drops + [false];
            pos := pos.(accepted := end, stream := pos.stream + g.payload);
          } else {
            drops := drops + [true];
          }
        }
      }
    }

    /** The data mover. */
    method MoverWrite()
      modifies `writes, `memory, `pos
      ensures View() == MoverStep(old(View()))
    {
      hide Store;
      if writes.commands != [] {
        var command := writes.commands[0];
        memory := Store(memory, command.memOffset, command.payload);
        writes := writes.(commands := writes.commands[1..], statuses := writes.statuses + 1);
        pos := pos.(stored := command.start + |command.payload|);
      }
    }

    /** The notification handler: a notification and the mover's status for it. */
    method Announce()
      modifies `writes, `readable, `pos
      ensures View() == NotifyStep(old(View()))
    {
      if writes.notices != [] && writes.statuses > 0 {
        var notice := writes.notices[0];
        writes := writes.(notices := writes.notices[1..], statuses := writes.statuses - 1);
        readable := readable + notice.length;
        pos := pos.(notified := notice.start + notice.length);
      }
    }

    // ---------- The application's side ----------

    /** WAIT_NET_APP_DATA_REQ; the application asks for no more than it was notified of. */
    method WaitRequest(length: u16)
      modifies `app, `readable, `pos
      ensures View() == AskStep(old(View()), length)
    {
      if app.length.None? && length != 0 && length <= readable {
        app := app.(requests := app.requests + [AppRead], length := Some(length));
        readable := readable - length;
        pos := pos.(claimed := pos.claimed + length);
      }
    }

    /** WAIT_SAR_RSP and the beats that follow. */
    method WaitSarRsp()
      modifies `app, `delivered, `pos
      ensures View() == ReadStep(old(View()))
    {
      hide To18, ReadRing;
      if app.length.Some? && app.answers != [] {
        var answer, length := app.answers[0], app.length.value;
        var request := AppWrite(To18(answer.appRead + length), answer.pos + length);
        app := AppLink(app.requests + [request], app.answers[1..], None);
        delivered := delivered + ReadRing(memory, answer.appRead, length);
        pos := pos.(consumed := answer.pos + length);
      }
    }
  }
}
