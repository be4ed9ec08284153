/** The receive side of one session: the RX engine, the RX SAR table, the data mover, the
    notification handler and the application's data handler share two pointers.

      peer -> RX engine -> data mover -> notification handler -> app
                 ^  |                                             |
                 |  +----> RX SAR table <---- data handler <------+
                 +-------------+

    `recvd` (32 bits) and `app_read` (18 bits) live in the table; the engine and the data
    handler work on copies of them. Beside each copy the model keeps the unbounded position it
    stands for; positions never influence a step. The state starts right after the SYN.
 */
module RxWindow {
  import opened Words
  import opened RingMemory

  // ---------- Streams ----------

  datatype EngineRequest = EngineRead | EngineWrite(recvd: u32, ghost pos: int)
  datatype EngineAnswer = EngineAnswer(recvd: u32, appRead: u18, ghost recvdPos: int, ghost readPos: int)
  datatype AppRequest = AppRead | AppWrite(appRead: u18, ghost pos: int)
  datatype AppAnswer = AppAnswer(appRead: u18, ghost pos: int)
  datatype WriteCommand = WriteCommand(memOffset: u18, payload: seq<byte>, ghost start: int)
  datatype Notice = Notice(length: u16, ghost start: int)

  /** The outcome of the state and acknowledgement tests on a segment. */
  datatype Outcome = InWindow | OutOfWindow | WrongState

  datatype DataSegment = DataSegment(seqNumber: u32, payload: seq<byte>, outcome: Outcome, ghost at: int)

  /** What the TX engine is told to put into a header. */
  datatype Advert = Advert(recvd: u32, winSize: u16)

  /** The window scale is 2 when the peer announced one, otherwise 0. */
  type Shift = x: int | x == 0 || x == 2

  datatype Entry = Entry(recvd: u32, appRead: u18, winShift: Shift)
  datatype EngineLink = EngineLink(
    requests: seq<EngineRequest>, answers: seq<EngineAnswer>, segment: Option<DataSegment>)
  datatype AppLink = AppLink(requests: seq<AppRequest>, answers: seq<AppAnswer>, length: Option<u16>)

  /** Accepted payloads on their way to memory: commands to the mover, its statuses, and the
      notifications that wait for them. */
  datatype WriteLink = WriteLink(commands: seq<WriteCommand>, notices: seq<Notice>, statuses: nat)

  datatype State = State(
    entry: Entry, engine: EngineLink, app: AppLink, writes: WriteLink, memory: Memory,
    readable: nat,          // bytes the application has been notified of and not asked for
    drops: seq<bool>,       // verdicts for the payload dropper
    adverts: seq<Advert>,   // what the peer is told
    delivered: seq<byte>)   // what the application has received

  datatype Positions = Positions(
    base: int,
    appRead: int, consumed: int, claimed: int,
    notified: int, stored: int,
    recvd: int, accepted: int,
    stream: seq<byte>)

  datatype System = System(st: State, pos: Positions)

  // ---------- The RX SAR table ----------

  function FreeSpace(recvd: u32, appRead: u18): u18 {
    To18(appRead - To18(recvd) - 1)
  }

  function WindowField(recvd: u32, appRead: u18, winShift: Shift): u16 {
    To16(if winShift == 0 then FreeSpace(recvd, appRead) else FreeSpace(recvd, appRead) / 4)
  }

  /** A look-up for the TX engine. */
  ghost function LookUpStep(y: System): System {
    var e := y.st.entry;
    System(y.st.(adverts := y.st.adverts + [Advert(e.recvd, WindowField(e.recvd, e.appRead, e.winShift))]), y.pos)
  }

  ghost function ServesApp(y: System): System
    requires y.st.app.requests != []
  {
    var s, p := y.st, y.pos;
    match s.app.requests[0]
    case AppWrite(appRead, pos) =>
      System(s.(app := s.app.(requests := s.app.requests[1..]), entry := s.entry.(appRead := appRead)),
             p.(appRead := pos))
    case AppRead =>
      var answer := AppAnswer(s.entry.appRead, p.appRead);
      System(s.(app := s.app.(requests := s.app.requests[1..], answers := s.app.answers + [answer])), p)
  }

  ghost function ServesEngine(y: System): System
    requires y.st.engine.requests != []
  {
    var s, p := y.st, y.pos;
    match s.engine.requests[0]
    case EngineWrite(recvd, pos) =>
      System(s.(engine := s.engine.(requests := s.engine.requests[1..]), entry := s.entry.(recvd := recvd)),
             p.(recvd := pos))
    case EngineRead =>
      var answer := EngineAnswer(s.entry.recvd, s.entry.appRead, p.recvd, p.appRead);
      System(s.(engine := s.engine.(requests := s.engine.requests[1..], answers := s.engine.answers + [answer])), p)
  }

  /** The application's requests come before the RX engine's. */
  ghost function TableStep(y: System): System {
    if y.st.app.requests != [] then ServesApp(y)
    else if y.st.engine.requests != [] then ServesEngine(y)
    else y
  }

  // ---------- The RX engine ----------

  ghost function LoadStep(y: System, segment: DataSegment): System {
    var s := y.st;
    if s.engine.segment.None? then
      System(s.(engine := s.engine.(segment := Some(segment), requests := s.engine.requests + [EngineRead])), y.pos)
    else y
  }

  /** In order, and with room to spare. */
  predicate Fits(a: EngineAnswer, seqNumber: u32, length: nat) {
    seqNumber == a.recvd && FreeSpace(a.recvd, a.appRead) > length
  }

  function Submit(writes: WriteLink, segment: DataSegment, ghost start: int): WriteLink {
    writes.(commands := writes.commands + [WriteCommand(To18(segment.seqNumber), segment.payload, start)],
            notices := writes.notices + [Notice(To16(|segment.payload|), start)])
  }

  /** TRANSITION: accept the payload or have it dropped. An acknowledgement out of the window leaves
      the payload without a verdict. */
  ghost function DecideStep(y: System): System {
    var s, p := y.st, y.pos;
    if s.engine.segment.Some? && s.engine.answers != [] then
      var a, g := s.engine.answers[0], s.engine.segment.value;
      var link := s.engine.(segment := None, answers := s.engine.answers[1..]);
      if g.outcome == InWindow && g.payload != [] && Fits(a, g.seqNumber, |g.payload|) then
        var end := a.recvdPos + |g.payload|;
        var request := EngineWrite(To32(g.seqNumber + |g.payload|), end);
        System(s.(engine := link.(requests := link.requests + [request]),
                  writes := Submit(s.writes, g, a.recvdPos),
                  drops := s.drops + [false]),
               p.(accepted := end, stream := p.stream + g.payload))
      else if g.payload != [] && g.outcome != OutOfWindow then
        System(s.(engine := link, drops := s.drops + [true]), p)
      else
        System(s.(engine := link), p)
    else y
  }

  // ---------- Memory and notification ----------

  /** The data mover performs the oldest write and reports it. */
  ghost function MoverStep(y: System): System {
    var s, p := y.st, y.pos;
    if s.writes.commands != [] then
      var c := s.writes.commands[0];
      System(s.(writes := s.writes.(commands := s.writes.commands[1..], statuses := s.writes.statuses + 1),
                memory := Store(s.memory, c.memOffset, c.payload)),
             p.(stored := c.start + |c.payload|))
    else y
  }

  /** A reported write is announced to the application. */
  ghost function NotifyStep(y: System): System {
    var s, p := y.st, y.pos;
    if s.writes.notices != [] && s.writes.statuses > 0 then
      var n := s.writes.notices[0];
      System(s.(writes := s.writes.(notices := s.writes.notices[1..], statuses := s.writes.statuses - 1),
                readable := s.readable + n.length),
             p.(notified := n.start + n.length))
    else y
  }

  // ---------- The application's side ----------

  /** The application asks for bytes it has been notified of. */
  ghost function AskStep(y: System, length: u16): System {
    var s, p := y.st, y.pos;
    if s.app.length.None? && length != 0 && length <= s.readable then
      System(s.(app := s.app.(length := Some(length), requests := s.app.requests + [AppRead]),
                readable := s.readable - length),
             p.(claimed := p.claimed + length))
    else y
  }

  /** WAIT_SAR_RSP: read the bytes from memory and move the pointer. */
  ghost function ReadStep(y: System): System {
    var s, p := y.st, y.pos;
    if s.app.length.Some? && s.app.answers != [] then
      var a, n := s.app.answers[0], s.app.length.value;
      var request := AppWrite(To18(a.appRead + n), a.pos + n);
      System(s.(app := AppLink(s.app.requests + [request], s.app.answers[1..], None),
                delivered := s.delivered + ReadRing(s.memory, a.appRead, n)),
             p.(consumed := a.pos + n))
    else y
  }

  // ---------- Runs ----------

  datatype Action =
    | LookUp | Table | Mover | Notify
    | Load(segment: DataSegment) | Decide
    | Ask(length: u16) | Read

  ghost function Next(y: System, a: Action): System {
    match a
    case LookUp => LookUpStep(y)
    case Table => TableStep(y)
    case Mover => MoverStep(y)
    case Notify => NotifyStep(y)
    case Load(segment) => LoadStep(y, segment)
    case Decide => DecideStep(y)
    case Ask(length) => AskStep(y, length)
    case Read => ReadStep(y)
  }

  /** An IP packet carries less than 2^16 bytes. */
  predicate Short(a: Action) {
    a.Load? ==> |a.segment.payload| < WORD_16
  }

  /** Right after a SYN with sequence number `irs`. */
  ghost function Initial(irs: u32, winShift: Shift): System {
    System(State(Entry(To32(irs + 1), To18(irs + 1), winShift), EngineLink([], [], None), AppLink([], [], None),
                 WriteLink([], [], 0), map[], 0, [], [], []),
           Positions(irs + 1, irs + 1, irs + 1, irs + 1, irs + 1, irs + 1, irs + 1, irs + 1, []))
  }

  ghost function Run(y: System, actions: seq<Action>): System {
    if actions == [] then y
    else Next(Run(y, actions[..|actions| - 1]), actions[|actions| - 1])
  }

  // ---------- The invariant ----------

  /** The order of the pointers, and the one bound that keeps the ring from overrunning. */
  ghost predicate Ordered(p: Positions) {
    && p.base <= p.appRead <= p.consumed <= p.claimed <= p.notified <= p.stored <= p.accepted
    && p.recvd <= p.accepted <= p.appRead + BUFFER_SIZE - 1
    && p.accepted == p.base + |p.stream|
  }

  ghost predicate Residues(y: System) {
    var s, p := y.st, y.pos;
    && s.entry.recvd == To32(p.recvd) && s.entry.appRead == To18(p.appRead)
    && s.readable == p.notified - p.claimed
  }

  /** The RX engine's stream holds at most one write, then at most one read. */
  ghost predicate EngineStream(y: System) {
    var s, p := y.st.engine, y.pos;
    && |s.requests| <= 2
    && (|s.requests| == 2 ==> s.requests[0].EngineWrite? && s.requests[1].EngineRead?)
    && (|s.requests| > 0 && s.requests[0].EngineWrite? ==>
          s.requests[0].pos == p.accepted && s.requests[0].recvd == To32(p.accepted))
    && (|s.requests| > 0 && s.requests[|s.requests| - 1].EngineRead? ==> s.segment.Some? && s.answers == [])
    && (|s.requests| == 0 || s.requests[0].EngineRead? ==> p.recvd == p.accepted)
    && |s.answers| <= 1
    && (s.answers != [] ==> s.segment.Some? && s.requests == [] && GoodAnswer(s.answers[0], p))
    && (s.segment.Some? ==> |s.segment.value.payload| < WORD_16)
  }

  /** The engine's answer: its own pointer is exact, the application's may be older. */
  ghost predicate GoodAnswer(a: EngineAnswer, p: Positions) {
    && a.recvd == To32(a.recvdPos) && a.appRead == To18(a.readPos)
    && a.recvdPos == p.accepted && a.readPos <= p.appRead
    && a.recvdPos <= a.readPos + BUFFER_SIZE - 1
  }

  /** The data handler's stream holds at most one write, then at most one read. */
  ghost predicate AppStream(y: System) {
    var s, p := y.st.app, y.pos;
    && |s.requests| <= 2
    && (|s.requests| == 2 ==> s.requests[0].AppWrite? && s.requests[1].AppRead?)
    && (|s.requests| > 0 && s.requests[0].AppWrite? ==>
          s.requests[0].pos == p.consumed && s.requests[0].appRead == To18(p.consumed))
    && (|s.requests| > 0 && s.requests[|s.requests| - 1].AppRead? ==> s.length.Some? && s.answers == [])
    && (|s.requests| == 0 || s.requests[0].AppRead? ==> p.appRead == p.consumed)
    && |s.answers| <= 1
    && (s.answers != [] ==>
          && s.length.Some? && s.requests == []
          && s.answers[0].pos == p.consumed && s.answers[0].appRead == To18(p.consumed))
    && p.claimed == p.consumed + (if s.length.Some? then s.length.value else 0)
  }

  /** Notifications lie end to end. */
  ghost predicate Chain(q: seq<Notice>, from: int, to: int) {
    if q == [] then from == to
    else q[0].start == from && Chain(q[1..], from + q[0].length, to)
  }

  ghost predicate Matches(c: WriteCommand, n: Notice, p: Positions) {
    && c.start == n.start && c.memOffset == To18(c.start) && |c.payload| == n.length
    && p.base <= c.start && c.start + |c.payload| <= p.base + |p.stream|
    && c.payload == p.stream[c.start - p.base..c.start - p.base + |c.payload|]
  }

  ghost predicate WritePath(w: WriteLink, p: Positions) {
    && |w.notices| == w.statuses + |w.commands|
    && Chain(w.notices[..w.statuses], p.notified, p.stored)
    && Chain(w.notices[w.statuses..], p.stored, p.accepted)
    && (forall i :: 0 <= i < |w.commands| ==> Matches(w.commands[i], w.notices[w.statuses + i], p))
  }

  /** Memory holds every stored byte the application has not read. */
  ghost predicate MemoryHolds(mem: Memory, p: Positions) {
    forall q :: p.base <= q < p.base + |p.stream| && p.consumed <= q < p.stored ==>
      ByteAt(mem, To18(q)) == p.stream[q - p.base]
  }

  /** What has been delivered is the beginning of the accepted stream. */
  ghost predicate DeliveredHolds(delivered: seq<byte>, p: Positions) {
    && 0 <= p.consumed - p.base <= |p.stream|
    && delivered == p.stream[..p.consumed - p.base]
  }

  ghost predicate Inv(y: System) {
    && Ordered(y.pos) && Residues(y) && EngineStream(y) && AppStream(y)
    && WritePath(y.st.writes, y.pos)
    && MemoryHolds(y.st.memory, y.pos) && DeliveredHolds(y.st.delivered, y.pos)
  }

  // ---------- Small lemmas ----------

  lemma {:induction false} ChainRises(q: seq<Notice>, from: int, to: int)
    requires Chain(q, from, to)
    ensures from <= to
  {
    if q != [] { ChainRises(q[1..], from + q[0].length, to); }
  }

  lemma {:induction false} ChainSnoc(q: seq<Notice>, from: int, to: int, n: Notice)
    requires Chain(q, from, to) && n.start == to
    ensures Chain(q + [n], from, to + n.length)
  {
    if q == [] {
      assert (q + [n])[1..] == [];
    } else {
      ChainSnoc(q[1..], from + q[0].length, to, n);
      assert (q + [n])[1..] == q[1..] + [n];
    }
  }

  /** The wrapped subtraction is the true free space in the ring, less one byte, as of the read
      pointer it was given. */
  lemma FreeSpaceIsExact(recvd: int, appRead: int)
    requires appRead <= recvd <= appRead + BUFFER_SIZE - 1
    ensures FreeSpace(To32(recvd), To18(appRead)) == BUFFER_SIZE - 1 - (recvd - appRead)
  {
    To18To32(recvd);
    WrappedRoom(recvd, appRead);
  }

  lemma WrappedRoom(high: int, low: int)
    requires low <= high <= low + BUFFER_SIZE - 1
    ensures To18(To18(low) - To18(high) - 1) == BUFFER_SIZE - 1 - (high - low)
  {
  }

  // ---------- Every step keeps the invariant ----------

  lemma ServesAppKeeps(y: System)
    requires Inv(y) && y.st.app.requests != []
    ensures Inv(ServesApp(y))
  {
    hide To16, To18, To32, WritePath, Matches, Chain;
    WritePathFrame(y.st.writes, y.pos, ServesApp(y).pos);
  }

  lemma ServesEngineKeeps(y: System)
    requires Inv(y) && y.st.engine.requests != []
    ensures Inv(ServesEngine(y))
  {
    hide To16, To18, To32, WritePath;
    WritePathFrame(y.st.writes, y.pos, ServesEngine(y).pos);
  }

  lemma WritePathFrame(w: WriteLink, p: Positions, p': Positions)
    requires WritePath(w, p) && p'.notified == p.notified && p'.stored == p.stored && p'.accepted == p.accepted
    requires p'.base == p.base && p'.stream == p.stream
    ensures WritePath(w, p')
  {
    hide To18, Chain;
  }

  lemma LoadKeeps(y: System, segment: DataSegment)
    requires Inv(y) && |segment.payload| < WORD_16
    ensures Inv(LoadStep(y, segment))
  {
    hide To16, To18, To32, WritePath;
  }

  /** An accepted payload joins the chain of notifications, its command carrying its bytes. */
  lemma AcceptedJoins(w: WriteLink, p: Positions, g: DataSegment)
    requires WritePath(w, p) && p.accepted == p.base + |p.stream| && To18(g.seqNumber) == To18(p.accepted)
    requires |g.payload| < WORD_16 && p.base <= p.accepted
    ensures WritePath(Submit(w, g, p.accepted),
                      p.(accepted := p.accepted + |g.payload|, stream := p.stream + g.payload))
  {
    hide To18, To32;
    var w' := Submit(w, g, p.accepted);
    var n := w.statuses;
    ChainSnoc(w.notices[n..], p.stored, p.accepted, Notice(|g.payload|, p.accepted));
    assert w'.notices[..n] == w.notices[..n];
    assert w'.notices[n..] == w.notices[n..] + [Notice(|g.payload|, p.accepted)];
    hide Chain;
    var p' := p.(accepted := p.accepted + |g.payload|, stream := p.stream + g.payload);
    forall i | 0 <= i < |w'.commands| ensures Matches(w'.commands[i], w'.notices[n + i], p') {
      if i < |w.commands| {
        assert Matches(w.commands[i], w.notices[n + i], p);
      }
    }
  }

  lemma AcceptKeepsWrites(y: System)
    requires Inv(y) && y.st.engine.segment.Some? && y.st.engine.answers != []
    requires var g := y.st.engine.segment.value;
             g.outcome == InWindow && g.payload != [] && Fits(y.st.engine.answers[0], g.seqNumber, |g.payload|)
    ensures WritePath(DecideStep(y).st.writes, DecideStep(y).pos)
  {
    hide To16, To18, To32, FreeSpace, AppStream, MemoryHolds, DeliveredHolds, Residues;
    var a, g := y.st.engine.answers[0], y.st.engine.segment.value;
    To18To32(a.recvdPos);
    AcceptedJoins(y.st.writes, y.pos, g);
    hide WritePath, Submit;
  }

  lemma AcceptKeeps(y: System)
    requires Inv(y) && y.st.engine.segment.Some? && y.st.engine.answers != []
    requires var g := y.st.engine.segment.value;
             g.outcome == InWindow && g.payload != [] && Fits(y.st.engine.answers[0], g.seqNumber, |g.payload|)
    ensures Inv(DecideStep(y))
  {
    hide To16, To18, To32, FreeSpace, WritePath, Submit;
    var a, g := y.st.engine.answers[0], y.st.engine.segment.value;
    FreeSpaceIsExact(a.recvdPos, a.readPos);
    To32Add(a.recvdPos, |g.payload|);
    AcceptKeepsWrites(y);
  }

  lemma DecideKeeps(y: System)
    requires Inv(y)
    ensures Inv(DecideStep(y))
  {
    hide To16, To18, To32, FreeSpace, WritePath, Submit;
    var s := y.st;
    if s.engine.segment.Some? && s.engine.answers != [] {
      var g := s.engine.segment.value;
      if g.outcome == InWindow && g.payload != [] && Fits(s.engine.answers[0], g.seqNumber, |g.payload|) {
        AcceptKeeps(y);
      }
    }
  }

  lemma StoreHolds(mem: Memory, p: Positions, c: WriteCommand, n: Notice)
    requires Ordered(p) && MemoryHolds(mem, p) && Matches(c, n, p) && c.start == p.stored
    ensures MemoryHolds(Store(mem, c.memOffset, c.payload), p.(stored := c.start + |c.payload|))
  {
    hide To18, Store;
    forall q | p.base <= q < p.base + |p.stream| && p.consumed <= q < c.start + |c.payload|
      ensures ByteAt(Store(mem, c.memOffset, c.payload), To18(q)) == p.stream[q - p.base]
    {
      if q < c.start {
        KeptByte(mem, c.start, c.payload, q);
      } else {
        StoredByte(mem, c.start, c.payload, q);
      }
    }
  }

  /** The mover's oldest command belongs to the first notification that is not yet stored. */
  lemma MoverAdvances(y: System)
    requires WritePath(y.st.writes, y.pos) && y.st.writes.commands != []
    ensures WritePath(MoverStep(y).st.writes, MoverStep(y).pos)
    ensures y.pos.stored <= MoverStep(y).pos.stored <= y.pos.accepted
    ensures var w := y.st.writes;
            && w.statuses < |w.notices| && w.commands[0].start == y.pos.stored
            && Matches(w.commands[0], w.notices[w.statuses], y.pos)
  {
    hide To16, To18, To32, Store;
    var w, p := y.st.writes, y.pos;
    var k, n := w.statuses, w.notices[w.statuses];
    assert w.notices[k..][0] == n;
    assert Matches(w.commands[0], w.notices[k + 0], p);
    ChainSnoc(w.notices[..k], p.notified, p.stored, n);
    assert w.notices[..k + 1] == w.notices[..k] + [n];
    assert w.notices[k + 1..] == w.notices[k..][1..];
    ChainRises(w.notices[k + 1..], p.stored + n.length, p.accepted);
    hide Chain;
    forall i | 0 <= i < |w.commands[1..]|
      ensures Matches(w.commands[1..][i], w.notices[k + 1 + i], p)
    {
      assert Matches(w.commands[i + 1], w.notices[k + (i + 1)], p);
    }
  }

  lemma MoverKeeps(y: System)
    requires Inv(y)
    ensures Inv(MoverStep(y))
  {
    hide To16, To18, To32, Store, WritePath, MemoryHolds, Matches;
    if y.st.writes.commands != [] {
      MoverAdvances(y);
      StoreHolds(y.st.memory, y.pos, y.st.writes.commands[0], y.st.writes.notices[y.st.writes.statuses]);
    }
  }

  /** The oldest stored payload lies right above what has been notified. */
  lemma NotifyAdvances(y: System)
    requires WritePath(y.st.writes, y.pos) && y.st.writes.notices != [] && y.st.writes.statuses > 0
    ensures var n := y.st.writes.notices[0];
            && n.start == y.pos.notified && n.start + n.length <= y.pos.stored
            && WritePath(NotifyStep(y).st.writes, NotifyStep(y).pos)
  {
    hide To16, To18, To32;
    var w, p := y.st.writes, y.pos;
    var n := w.notices[0];
    assert w.notices[..w.statuses][0] == n;
    assert w.notices[..w.statuses][1..] == w.notices[1..][..w.statuses - 1];
    assert w.notices[w.statuses..] == w.notices[1..][w.statuses - 1..];
    ChainRises(w.notices[1..][..w.statuses - 1], n.start + n.length, p.stored);
    hide Chain;
    forall i | 0 <= i < |w.commands|
      ensures Matches(w.commands[i], w.notices[1..][w.statuses - 1 + i], p)
    {
      assert Matches(w.commands[i], w.notices[w.statuses + i], p);
    }
  }

  lemma NotifyKeeps(y: System)
    requires Inv(y)
    ensures Inv(NotifyStep(y))
  {
    hide To16, To18, To32, WritePath;
    if y.st.writes.notices != [] && y.st.writes.statuses > 0 {
      NotifyAdvances(y);
    }
  }

  lemma AskKeeps(y: System, length: u16)
    requires Inv(y)
    ensures Inv(AskStep(y, length))
  {
    hide To16, To18, To32, WritePath;
    WritePathFrame(y.st.writes, y.pos, AskStep(y, length).pos);
  }

  /** Reading from the pointer's slot yields the next bytes of the accepted stream. */
  lemma ReadYieldsNext(mem: Memory, p: Positions, n: nat)
    requires Ordered(p) && MemoryHolds(mem, p) && p.consumed + n <= p.stored
    ensures ReadRing(mem, To18(p.consumed), n) == p.stream[p.consumed - p.base..p.consumed - p.base + n]
  {
    hide To18;
    var bytes := ReadRing(mem, To18(p.consumed), n);
    forall i | 0 <= i < n ensures bytes[i] == p.stream[p.consumed + i - p.base] {
      SlotOf(p.consumed, i);
    }
  }

  lemma ReadKeeps(y: System)
    requires Inv(y)
    ensures Inv(ReadStep(y))
  {
    hide To16, To18, To32, WritePath, ReadRing;
    var s, p := y.st, y.pos;
    if s.app.length.Some? && s.app.answers != [] {
      ReadYieldsNext(s.memory, p, s.app.length.value);
      SlotOf(p.consumed, s.app.length.value);
      WritePathFrame(s.writes, p, ReadStep(y).pos);
    }
  }

  lemma StepKeeps(y: System, a: Action)
    requires Inv(y) && Short(a)
    ensures Inv(Next(y, a))
  {
    hide ServesApp, ServesEngine, LoadStep, DecideStep, MoverStep, NotifyStep, AskStep, ReadStep,
         Ordered, Residues, EngineStream, AppStream, WritePath, MemoryHolds, DeliveredHolds;
    match a
    case LookUp => LookUpKeeps(y);
    case Table =>
      if y.st.app.requests != [] {
        ServesAppKeeps(y);
      } else if y.st.engine.requests != [] {
        ServesEngineKeeps(y);
      }
    case Mover => MoverKeeps(y);
    case Notify => NotifyKeeps(y);
    case Load(segment) => LoadKeeps(y, segment);
    case Decide => DecideKeeps(y);
    case Ask(length) => AskKeeps(y, length);
    case Read => ReadKeeps(y);
  }

  lemma LookUpKeeps(y: System)
    requires Inv(y)
    ensures Inv(LookUpStep(y))
  {
    hide To16, To18, To32, WritePath;
  }

  lemma InitialHolds(irs: u32, winShift: Shift)
    ensures Inv(Initial(irs, winShift))
  {
    hide To16, To18, To32;
  }

  /** In every run the pointers keep their order, both copies are residues of their positions, no
      accepted payload overwrites a byte that has not been read, and what the application has
      received is exactly the beginning of the accepted stream. */
  lemma {:induction false} RunKeeps(irs: u32, winShift: Shift, actions: seq<Action>)
    requires forall a <- actions :: Short(a)
    ensures Inv(Run(Initial(irs, winShift), actions))
  {
    hide Inv, Next, Initial;
    if actions == [] {
      InitialHolds(irs, winShift);
    } else {
      var n := |actions| - 1;
      RunKeeps(irs, winShift, actions[..n]);
      StepKeeps(Run(Initial(irs, winShift), actions[..n]), actions[n]);
    }
  }

  // ---------- What the peer sends is what the application gets ----------

  /** A loaded segment belongs to the peer's stream: it carries the peer's bytes at its sequence
      number, and is not older or newer than the sequence space can tell apart. */
  ghost predicate Genuine(g: DataSegment, p: Positions, peer: seq<byte>) {
    && g.seqNumber == To32(g.at)
    && p.base <= g.at && g.at + |g.payload| <= p.base + |peer|
    && g.payload == peer[g.at - p.base..g.at - p.base + |g.payload|]
    && p.accepted - WORD_32 < g.at < p.accepted + WORD_32
  }

  ghost predicate GenuineStep(y: System, a: Action, peer: seq<byte>) {
    a.Load? ==> Genuine(a.segment, y.pos, peer)
  }

  ghost predicate GenuineRun(y: System, actions: seq<Action>, peer: seq<byte>) {
    actions == [] ||
    (GenuineRun(y, actions[..|actions| - 1], peer) &&
     GenuineStep(Run(y, actions[..|actions| - 1]), actions[|actions| - 1], peer))
  }

  ghost predicate FollowsPeer(y: System, peer: seq<byte>) {
    && |y.pos.stream| <= |peer| && y.pos.stream == peer[..|y.pos.stream|]
    && (y.st.engine.segment.Some? ==> Genuine(y.st.engine.segment.value, y.pos, peer))
  }

  lemma SameNumberSamePlace(a: int, b: int)
    requires b - WORD_32 < a < b + WORD_32
    ensures To32(a) == To32(b) <==> a == b
  {
  }

  lemma DecideFollowsPeer(y: System, peer: seq<byte>)
    requires Inv(y) && FollowsPeer(y, peer)
    ensures FollowsPeer(DecideStep(y), peer)
  {
    hide To16, To18, To32, FreeSpace, WritePath, Submit, AppStream, MemoryHolds, DeliveredHolds;
    var s, p := y.st, y.pos;
    if s.engine.segment.Some? && s.engine.answers != [] {
      var a, g := s.engine.answers[0], s.engine.segment.value;
      SameNumberSamePlace(g.at, a.recvdPos);
    }
  }

  lemma OthersFollowPeer(y: System, a: Action, peer: seq<byte>)
    requires Inv(y) && FollowsPeer(y, peer) && GenuineStep(y, a, peer) && !a.Decide?
    ensures FollowsPeer(Next(y, a), peer)
  {
    hide To16, To18, To32, FreeSpace, WritePath, AppStream, EngineStream, MemoryHolds, DeliveredHolds,
         Residues, Store, WindowField;
  }

  lemma {:induction false} RunFollowsPeer(irs: u32, winShift: Shift, actions: seq<Action>, peer: seq<byte>)
    requires forall a <- actions :: Short(a)
    requires GenuineRun(Initial(irs, winShift), actions, peer)
    ensures FollowsPeer(Run(Initial(irs, winShift), actions), peer)
  {
    hide Inv, Next, GenuineStep;
    if actions != [] {
      hide Initial, FollowsPeer;
      var n := |actions| - 1;
      RunFollowsPeer(irs, winShift, actions[..n], peer);
      RunKeeps(irs, winShift, actions[..n]);
      var y, a := Run(Initial(irs, winShift), actions[..n]), actions[n];
      if a.Decide? {
        DecideFollowsPeer(y, peer);
        NextIsDecide(y);
      } else {
        OthersFollowPeer(y, a, peer);
      }
    }
  }

  lemma NextIsDecide(y: System)
    ensures Next(y, Decide) == DecideStep(y)
  {
  }

  /** In every run, whatever is lost, repeated, reordered or delayed on the way, the application
      receives a prefix of the byte stream the peer sent. */
  lemma DeliveredIsPrefixOfPeer(irs: u32, winShift: Shift, actions: seq<Action>, peer: seq<byte>)
    requires forall a <- actions :: Short(a)
    requires GenuineRun(Initial(irs, winShift), actions, peer)
    ensures var delivered := Run(Initial(irs, winShift), actions).st.delivered;
            |delivered| <= |peer| && delivered == peer[..|delivered|]
  {
    RunKeeps(irs, winShift, actions);
    RunFollowsPeer(irs, winShift, actions, peer);
    DeliveredFollows(Run(Initial(irs, winShift), actions), peer);
  }

  lemma DeliveredFollows(y: System, peer: seq<byte>)
    requires Inv(y) && FollowsPeer(y, peer)
    ensures |y.st.delivered| <= |peer| && y.st.delivered == peer[..|y.st.delivered|]
  {
    hide Residues, EngineStream, AppStream, WritePath, MemoryHolds, Genuine;
  }

  /** Nothing is lost either: once every stream is empty and the application has asked for
      everything it was notified of, it has the whole accepted stream. */
  lemma QuietDeliversAll(y: System)
    requires Inv(y) && y.st.writes.notices == [] && y.st.readable == 0 && y.st.app.length.None?
    ensures y.st.delivered == y.pos.stream
  {
    hide To18, To32, EngineStream, MemoryHolds;
  }

  // ---------- Everything accepted can be delivered ----------

  /** A read of the application that has been asked for is on its way. */
  ghost predicate Reading(y: System) {
    var s := y.st.app;
    s.length.Some? ==> s.answers != [] || (s.requests != [] && s.requests[|s.requests| - 1].AppRead?)
  }

  lemma StepKeepsReading(y: System, a: Action)
    requires Inv(y) && Reading(y)
    ensures Reading(Next(y, a))
  {
    hide To16, To18, To32, FreeSpace, WritePath, MemoryHolds, DeliveredHolds, Residues, EngineStream, Ordered, Store,
         WindowField, Submit;
  }

  lemma {:induction false} RunIsReading(irs: u32, winShift: Shift, actions: seq<Action>)
    requires forall a <- actions :: Short(a)
    ensures Reading(Run(Initial(irs, winShift), actions))
  {
    hide Inv, Next, Reading;
    if actions == [] {
      StartsReading(irs, winShift);
    } else {
      hide Initial;
      var n := |actions| - 1;
      RunIsReading(irs, winShift, actions[..n]);
      RunKeeps(irs, winShift, actions[..n]);
      StepKeepsReading(Run(Initial(irs, winShift), actions[..n]), actions[n]);
    }
  }

  lemma StartsReading(irs: u32, winShift: Shift)
    ensures Reading(Run(Initial(irs, winShift), []))
  {
  }

  /** What is left to do until everything accepted has been delivered. */
  ghost function Work(y: System): int {
    10 * (y.pos.accepted - y.pos.claimed) + 2 * |y.st.writes.commands| + |y.st.writes.notices| +
    2 * |y.st.app.requests| + |y.st.app.answers| + (if y.st.app.length.Some? then 3 else 0)
  }

  /** The next step towards it, if there is one. */
  ghost function Useful(y: System): Option<Action> {
    if y.st.app.requests != [] then Some(Table)
    else if y.st.writes.commands != [] then Some(Mover)
    else if y.st.writes.notices != [] then Some(Notify)
    else if y.st.app.length.Some? then Some(Read)
    else if y.st.readable > 0 then Some(Ask(Min(y.st.readable, 0xFFFF)))
    else None
  }

  lemma UsefulStep(y: System)
    requires Inv(y) && Reading(y) && Useful(y).Some?
    ensures var z := Next(y, Useful(y).value); Work(z) < Work(y) && z.pos.stream == y.pos.stream
    ensures !Useful(y).value.Load?
  {
    hide To16, To18, To32, FreeSpace, Matches, Chain, MemoryHolds, DeliveredHolds, EngineStream, Store, WindowField;
  }

  lemma WorkIsLeft(y: System)
    requires Inv(y)
    ensures Work(y) >= 0
  {
    hide To18, To32, EngineStream, AppStream, WritePath, MemoryHolds, DeliveredHolds;
  }

  lemma {:induction false} Deliver(y: System) returns (more: seq<Action>)
    requires Inv(y) && Reading(y)
    ensures forall a <- more :: !a.Load?
    ensures Run(y, more).st.delivered == Run(y, more).pos.stream == y.pos.stream
    decreases Work(y)
  {
    hide Inv, Reading, Next, Work, Useful;
    WorkIsLeft(y);
    if Useful(y) == None {
      more := [];
      NothingUseful(y);
      assert Run(y, []) == y;
    } else {
      var a := Useful(y).value;
      UsefulStep(y);
      StepKeeps(y, a) by { assert Short(a); }
      StepKeepsReading(y, a);
      WorkIsLeft(Next(y, a));
      var rest := Deliver(Next(y, a));
      more := [a] + rest;
      RunOne(y, a);
      RunJoins(y, [a], rest);
    }
  }

  lemma RunOne(y: System, a: Action)
    ensures Run(y, [a]) == Next(y, a)
  {
    assert [a][..0] == [];
  }

  lemma NothingUseful(y: System)
    requires Inv(y) && Useful(y) == None
    ensures y.st.delivered == y.pos.stream
  {
    QuietDeliversAll(y);
  }

  /** Whatever a run has come to, its own modules and a reading application can finish it: without any
      further segment, some continuation delivers everything that was accepted. */
  lemma AcceptedCanBeDelivered(irs: u32, winShift: Shift, actions: seq<Action>) returns (more: seq<Action>)
    requires forall a <- actions :: Short(a)
    ensures forall a <- more :: !a.Load?
    ensures var y0 := Initial(irs, winShift);
            Run(y0, actions + more).st.delivered == Run(y0, actions).pos.stream
  {
    hide Inv, Reading, Run, Initial, Next;
    RunKeeps(irs, winShift, actions);
    RunIsReading(irs, winShift, actions);
    more := Deliver(Run(Initial(irs, winShift), actions));
    RunJoins(Initial(irs, winShift), actions, more);
  }

  // ---------- Acceptance and the advertised window ----------

  /** A segment is accepted if and only if it starts at the next byte and is strictly shorter than
      the true free space as of the read pointer the engine saw. */
  lemma AcceptedIff(y: System)
    requires Inv(y) && y.st.engine.segment.Some? && y.st.engine.answers != []
    requires y.st.engine.segment.value.outcome == InWindow && y.st.engine.segment.value.payload != []
    ensures var g, a := y.st.engine.segment.value, y.st.engine.answers[0];
            (DecideStep(y).pos.accepted == y.pos.accepted + |g.payload| &&
             DecideStep(y).st.drops == y.st.drops + [false])
            <==>
            (g.seqNumber == To32(y.pos.accepted) &&
             |g.payload| < BUFFER_SIZE - 1 - (y.pos.accepted - a.readPos))
  {
    var a := y.st.engine.answers[0];
    FreeSpaceIsExact(a.recvdPos, a.readPos);
    hide To16, To18, To32, FreeSpace, WritePath, Submit, AppStream, MemoryHolds, DeliveredHolds;
    assert (y.st.drops + [false])[|y.st.drops|] != (y.st.drops + [true])[|y.st.drops|];
  }

  /** An in-order segment that fills the free space exactly is dropped. */
  lemma ExactFitIsDropped(y: System)
    requires Inv(y) && y.st.engine.segment.Some? && y.st.engine.answers != []
    requires var g, a := y.st.engine.segment.value, y.st.engine.answers[0];
             g.outcome == InWindow && g.seqNumber == To32(y.pos.accepted) && g.payload != [] &&
             |g.payload| == BUFFER_SIZE - 1 - (y.pos.accepted - a.readPos)
    ensures DecideStep(y).pos == y.pos && DecideStep(y).st.drops == y.st.drops + [true]
  {
    var a := y.st.engine.answers[0];
    FreeSpaceIsExact(a.recvdPos, a.readPos);
    hide To16, To18, To32, FreeSpace, WritePath, Submit, AppStream, MemoryHolds, DeliveredHolds;
  }

  function Scale(winShift: Shift): nat { if winShift == 0 then 1 else 4 }

  /** What a window field stands for never exceeds the free space; it is the free space rounded
      down to the scale if and only if the scaled value fits the field's 16 bits. Without scaling
      it is the free space modulo 2^16. */
  lemma WindowFieldIsFloorIff(recvd: int, appRead: int, winShift: Shift)
    requires appRead <= recvd <= appRead + BUFFER_SIZE - 1
    ensures var free := BUFFER_SIZE - 1 - (recvd - appRead);
            var told := Scale(winShift) * WindowField(To32(recvd), To18(appRead), winShift);
            && told <= free
            && (free - Scale(winShift) < told <==> winShift == 2 || free < WORD_16)
            && (winShift == 0 ==> told == free % WORD_16)
  {
    FreeSpaceIsExact(recvd, appRead);
    hide FreeSpace, To18, To32;
  }

  /** Answers taken since the read pointer stood at `read`. */
  ghost predicate Since(y: System, read: int) {
    y.pos.appRead >= read && (y.st.engine.answers != [] ==> y.st.engine.answers[0].readPos >= read)
  }

  lemma StepKeepsSince(y: System, a: Action, read: int)
    requires Inv(y) && Since(y, read)
    ensures Since(Next(y, a), read)
  {
    hide To16, To18, To32, FreeSpace, WritePath, MemoryHolds, DeliveredHolds, Residues, Store, WindowField, Submit;
  }

  lemma {:induction false} RunKeepsSince(y: System, actions: seq<Action>, read: int)
    requires Inv(y) && Since(y, read) && forall a <- actions :: Short(a)
    ensures Inv(Run(y, actions)) && Since(Run(y, actions), read)
  {
    hide Inv, Next, Since;
    if actions != [] {
      var n := |actions| - 1;
      RunKeepsSince(y, actions[..n], read);
      StepKeepsSince(Run(y, actions[..n]), actions[n], read);
      StepKeeps(Run(y, actions[..n]), actions[n]);
    }
  }

  lemma {:induction false} ReadOnlyRises(y: System, actions: seq<Action>)
    requires Inv(y) && forall a <- actions :: Short(a)
    ensures Inv(Run(y, actions)) && Run(y, actions).pos.appRead >= y.pos.appRead
  {
    hide Inv, Next;
    if actions != [] {
      var n := |actions| - 1;
      ReadOnlyRises(y, actions[..n]);
      ReadStepRises(Run(y, actions[..n]), actions[n]);
      StepKeeps(Run(y, actions[..n]), actions[n]);
    }
  }

  lemma ReadStepRises(y: System, a: Action)
    requires Inv(y)
    ensures Next(y, a).pos.appRead >= y.pos.appRead
  {
    hide To16, To18, To32, FreeSpace, WritePath, MemoryHolds, DeliveredHolds, Residues, Store, WindowField, Submit;
  }

  lemma {:induction false} RunJoins(y: System, a: seq<Action>, b: seq<Action>)
    ensures Run(Run(y, a), b) == Run(y, a + b)
  {
    hide Next;
    if b == [] {
      assert a + b == a;
    } else {
      RunJoins(y, a, b[..|b| - 1]);
      assert (a + b)[..|a + b| - 1] == a + b[..|b| - 1];
    }
  }

  /** Told the peer that many bytes from its next one on, a look-up's window is honoured. */
  lemma EdgeIsHonoured(y: System, actions: seq<Action>, later: nat)
    requires Inv(y) && forall a <- actions :: Short(a)
    requires later <= |actions| && Run(y, actions[..later]).st.engine.answers == []
    requires Run(y, actions).st.engine.segment.Some? && Run(y, actions).st.engine.answers != []
    ensures var e, z := y.st.entry, Run(y, actions);
            var g, a := z.st.engine.segment.value, z.st.engine.answers[0];
            (g.seqNumber == a.recvd &&
             z.pos.accepted + |g.payload| <
             y.pos.recvd + Scale(e.winShift) * WindowField(e.recvd, e.appRead, e.winShift)
             ==> Fits(a, g.seqNumber, |g.payload|))
  {
    var x := Run(y, actions[..later]);
    ReadOnlyRises(y, actions[..later]);
    RunKeepsSince(x, actions[later..], y.pos.appRead);
    RunJoins(y, actions[..later], actions[later..]);
    assert actions[..later] + actions[later..] == actions;
    RoomAt(y, Run(y, actions));
  }

  lemma RoomAt(y: System, z: System)
    requires Inv(y) && Inv(z) && Since(z, y.pos.appRead)
    requires z.st.engine.segment.Some? && z.st.engine.answers != []
    ensures var e := y.st.entry;
            var g, a := z.st.engine.segment.value, z.st.engine.answers[0];
            (g.seqNumber == a.recvd &&
             z.pos.accepted + |g.payload| <
             y.pos.recvd + Scale(e.winShift) * WindowField(e.recvd, e.appRead, e.winShift)
             ==> Fits(a, g.seqNumber, |g.payload|))
  {
    hide To16, To18, To32, FreeSpace, WindowField, WritePath, MemoryHolds, DeliveredHolds;
    var a := z.st.engine.answers[0];
    FreeSpaceIsExact(a.recvdPos, a.readPos);
    if y.pos.appRead <= y.pos.recvd {
      WindowFieldIsFloorIff(y.pos.recvd, y.pos.appRead, y.st.entry.winShift);
    } else {
      WindowFieldIsBounded(y.st.entry);
    }
  }

  /** Even while the table's `recvd` lags behind `app_read`, no more than a buffer is told. */
  lemma WindowFieldIsBounded(e: Entry)
    ensures Scale(e.winShift) * WindowField(e.recvd, e.appRead, e.winShift) < BUFFER_SIZE
  {
    hide FreeSpace;
  }

  // ---------- What the peer is told ----------

  /** The positions at the look-ups of a run, in order. */
  ghost function LookedUp(y: System, actions: seq<Action>): seq<Positions> {
    if actions == [] then []
    else
      var n := |actions| - 1;
      LookedUp(y, actions[..n]) + if actions[n].LookUp? then [Run(y, actions[..n]).pos] else []
  }

  /** The space told of: what is free, or, for as long as the table's receive pointer lags behind the
      read pointer, the bytes between the two, less one. */
  ghost function Space(p: Positions): int {
    if p.appRead <= p.recvd then BUFFER_SIZE - 1 - (p.recvd - p.appRead) else p.appRead - p.recvd - 1
  }

  /** An advert tells the truth: it acknowledges the table's receive position, a byte that has been
      accepted, and its window field stands for that space, rounded down to the scale of the session
      exactly if the field can hold it. */
  ghost predicate Truthful(ad: Advert, p: Positions, winShift: Shift) {
    var scale := if winShift == 0 then 1 else 4;
    var told := scale * ad.winSize;
    && ad.recvd == To32(p.recvd) && p.recvd <= p.accepted
    && 0 <= Space(p) < BUFFER_SIZE && told <= Space(p)
    && (Space(p) - scale < told <==> winShift == 2 || Space(p) < WORD_16)
    && (winShift == 0 ==> told == Space(p) % WORD_16)
  }

  /** The table's receive pointer lags by one payload at most, and the scale is that of the handshake. */
  ghost predicate Lagging(y: System, winShift: Shift) {
    && y.pos.accepted - WORD_16 < y.pos.recvd && y.st.entry.winShift == winShift
  }

  lemma StepKeepsLagging(y: System, a: Action, winShift: Shift)
    requires Inv(y) && Lagging(y, winShift) && Short(a)
    ensures Lagging(Next(y, a), winShift)
  {
    hide To16, To18, To32, FreeSpace, WritePath, MemoryHolds, DeliveredHolds, Residues, Store, WindowField, Submit;
  }

  lemma WrappedLag(high: int, low: int)
    requires low < high <= low + BUFFER_SIZE
    ensures To18(To18(high) - To18(low) - 1) == high - low - 1
  {
  }

  lemma SpaceIsTold(p: Positions)
    requires Ordered(p) && p.accepted - WORD_16 < p.recvd
    ensures 0 <= Space(p) < BUFFER_SIZE && FreeSpace(To32(p.recvd), To18(p.appRead)) == Space(p)
  {
    if p.appRead <= p.recvd {
      FreeSpaceIsExact(p.recvd, p.appRead);
    } else {
      To18To32(p.recvd);
      WrappedLag(p.appRead, p.recvd);
    }
  }

  lemma LookUpIsTruthful(y: System, winShift: Shift)
    requires Inv(y) && Lagging(y, winShift)
    ensures var ads := LookUpStep(y).st.adverts;
            && |ads| == |y.st.adverts| + 1 && ads[..|y.st.adverts|] == y.st.adverts
            && Truthful(ads[|y.st.adverts|], y.pos, winShift)
  {
    SpaceIsTold(y.pos);
    FieldRoundsDown(Space(y.pos), winShift);
    hide FreeSpace, To16, To18, To32, EngineStream, AppStream, WritePath, MemoryHolds, DeliveredHolds, Space;
    assert LookUpStep(y).st.adverts == y.st.adverts + [LookUpStep(y).st.adverts[|y.st.adverts|]];
  }

  lemma FieldRoundsDown(space: u18, winShift: Shift)
    ensures var scale := if winShift == 0 then 1 else 4;
            var told := scale * To16(if winShift == 0 then space else space / 4);
            && told <= space && (space - scale < told <==> winShift == 2 || space < WORD_16)
            && (winShift == 0 ==> told == space % WORD_16)
  {
  }

  lemma OnlyLookUpsTell(y: System, a: Action)
    requires !a.LookUp?
    ensures Next(y, a).st.adverts == y.st.adverts
  {
    hide Store, Submit, FreeSpace, To16, To18, To32;
  }

  lemma NextIsLookUp(y: System)
    ensures Next(y, LookUp) == LookUpStep(y)
  {
  }

  lemma {:induction false} RunIsLagging(irs: u32, winShift: Shift, actions: seq<Action>)
    requires forall a <- actions :: Short(a)
    ensures Lagging(Run(Initial(irs, winShift), actions), winShift)
  {
    hide Inv, Next;
    if actions != [] {
      hide Initial, Lagging;
      var n := |actions| - 1;
      RunIsLagging(irs, winShift, actions[..n]);
      RunKeeps(irs, winShift, actions[..n]);
      StepKeepsLagging(Run(Initial(irs, winShift), actions[..n]), actions[n], winShift);
    }
  }

  /** In every run there is one advert for each look-up, in order, and each tells the truth of the moment
      of its look-up. */
  lemma {:induction false} AdvertsAreTruthful(irs: u32, winShift: Shift, actions: seq<Action>)
    requires forall a <- actions :: Short(a)
    ensures var ads, at := Run(Initial(irs, winShift), actions).st.adverts, LookedUp(Initial(irs, winShift), actions);
            |ads| == |at| && forall k :: 0 <= k < |ads| ==> Truthful(ads[k], at[k], winShift)
  {
    hide Inv, Next, Truthful, Lagging;
    if actions != [] {
      hide Initial;
      var n := |actions| - 1;
      var y := Run(Initial(irs, winShift), actions[..n]);
      AdvertsAreTruthful(irs, winShift, actions[..n]);
      if actions[n].LookUp? {
        RunKeeps(irs, winShift, actions[..n]);
        RunIsLagging(irs, winShift, actions[..n]);
        LookUpIsTruthful(y, winShift);
        NextIsLookUp(y);
        AdvertPrefix(y.st.adverts, LookUpStep(y).st.adverts);
      } else {
        OnlyLookUpsTell(y, actions[n]);
      }
    }
  }

  lemma AdvertPrefix(a: seq<Advert>, b: seq<Advert>)
    requires |b| == |a| + 1 && b[..|a|] == a
    ensures forall k :: 0 <= k < |a| ==> b[k] == a[k]
  {
    forall k | 0 <= k < |a| ensures b[k] == a[k] {
      assert b[..|a|][k] == b[k];
    }
  }

  /** A window once advertised is honoured: in any run, and however it goes on behind a look-up, an
      in-order segment that ends before the right edge the advert tells has room - every segment whose
      table answer is taken after the look-up. An answer that waits at that moment is an older one;
      `later` is any point at which it has been used. The edge counts from the receive position that
      the advert acknowledges. */
  lemma WindowIsHonoured(irs: u32, winShift: Shift, before: seq<Action>, actions: seq<Action>, later: nat)
    requires (forall a <- before :: Short(a)) && forall a <- actions :: Short(a)
    requires later <= |actions|
    requires Run(Initial(irs, winShift), before + [LookUp] + actions[..later]).st.engine.answers == []
    requires var z := Run(Initial(irs, winShift), before + [LookUp] + actions).st.engine;
             z.segment.Some? && z.answers != []
    ensures var y0 := Initial(irs, winShift);
            var y, z := Run(y0, before + [LookUp]), Run(y0, before + [LookUp] + actions);
            && y.st.adverts != []
            && var ad := y.st.adverts[|y.st.adverts| - 1];
               var g, a := z.st.engine.segment.value, z.st.engine.answers[0];
               && ad.recvd == To32(y.pos.recvd)
               && (g.seqNumber == To32(z.pos.accepted) &&
                   z.pos.accepted + |g.payload| < y.pos.recvd + (if winShift == 0 then 1 else 4) * ad.winSize
                   ==> Fits(a, g.seqNumber, |g.payload|))
  {
    hide Run, Initial, Inv, Next, Short, Fits, WindowField, Lagging, To32;
    var y0 := Initial(irs, winShift);
    var y := Run(y0, before);
    RunSnoc(y0, before, LookUp);
    RunKeeps(irs, winShift, before);
    RunIsLagging(irs, winShift, before);
    StepKeeps(y, LookUp) by { assert Short(LookUp) by { LookUpIsShort(); } }
    NextIsLookUp(y);
    RunJoins(y0, before + [LookUp], actions[..later]);
    RunJoins(y0, before + [LookUp], actions);
    EdgeIsHonoured(LookUpStep(y), actions, later);
    ToldAtLookUp(y, winShift);
    RunKeepsFrom(LookUpStep(y), actions);
    NextExpected(Run(LookUpStep(y), actions));
  }

  lemma LookUpIsShort()
    ensures Short(LookUp)
  {
  }

  lemma {:induction false} RunKeepsFrom(y: System, actions: seq<Action>)
    requires Inv(y) && forall a <- actions :: Short(a)
    ensures Inv(Run(y, actions))
  {
    ReadOnlyRises(y, actions);
  }

  lemma NextExpected(z: System)
    requires Inv(z) && z.st.engine.answers != []
    ensures z.st.engine.answers[0].recvd == To32(z.pos.accepted)
  {
    hide To16, To18, To32, WritePath, MemoryHolds, DeliveredHolds, AppStream;
  }

  lemma ToldAtLookUp(y: System, winShift: Shift)
    requires Inv(y) && Lagging(y, winShift)
    ensures var z := LookUpStep(y);
            && z.pos == y.pos && z.st.adverts != []
            && var ad, e := z.st.adverts[|z.st.adverts| - 1], z.st.entry;
               && ad.recvd == To32(y.pos.recvd)
               && (if winShift == 0 then 1 else 4) * ad.winSize ==
                  Scale(e.winShift) * WindowField(e.recvd, e.appRead, e.winShift)
  {
    hide WindowField, To18, To32, EngineStream, AppStream, WritePath, MemoryHolds, DeliveredHolds;
  }

  // ---------- A run that drops an exact fit ----------

  /** The moves that handle one segment. */
  function HandleMoves(g: DataSegment): seq<Action> { [Load(g), Table, Decide, Table] }

  ghost predicate Still(s: State) { s.engine == EngineLink([], [], None) && s.app.requests == [] }

  lemma RunSnoc(y: System, actions: seq<Action>, a: Action)
    ensures Run(y, actions + [a]) == Next(Run(y, actions), a)
  {
    assert (actions + [a])[..|actions|] == actions;
  }

  lemma RunsHandle(y: System, g: DataSegment)
    ensures Run(y, HandleMoves(g)) == TableStep(DecideStep(TableStep(LoadStep(y, g))))
  {
    hide TableStep, DecideStep, LoadStep;
    var m := HandleMoves(g);
    RunSnoc(y, m[..0], m[0]);
    RunSnoc(y, m[..1], m[1]);
    RunSnoc(y, m[..2], m[2]);
    RunSnoc(y, m[..3], m[3]);
    assert m[..0] + [m[0]] == m[..1] && m[..1] + [m[1]] == m[..2] && m[..2] + [m[2]] == m[..3];
    assert m[..3] + [m[3]] == m;
  }

  lemma InOrderMovesOn(y: System, g: DataSegment)
    requires Still(y.st) && g.outcome == InWindow && g.payload != [] && g.seqNumber == y.st.entry.recvd
    ensures var z, e := Run(y, HandleMoves(g)).st, y.st.entry;
            var fits := FreeSpace(e.recvd, e.appRead) > |g.payload|;
            && Still(z) && z.drops == y.st.drops + [!fits]
            && z.entry == if fits then e.(recvd := To32(e.recvd + |g.payload|)) else e
  {
    hide To16, To18, To32, FreeSpace, Run;
    RunsHandle(y, g);
    var y1 := TableStep(LoadStep(y, g));
    assert y1.st.engine.requests == [] && |y1.st.engine.answers| == 1 && y1.st.engine.segment == Some(g);
    var y2 := DecideStep(y1);
    assert y2.st.engine.answers == [] && y2.st.engine.segment.None?;
  }

  function Part(recvd: u32, payload: seq<byte>): DataSegment { DataSegment(recvd, payload, InWindow, recvd) }

  /** Four segments of 65000 bytes, and one of the 2143 that are left. */
  function FillingMoves(a: seq<byte>, b: seq<byte>): seq<Action> {
    HandleMoves(Part(1, a)) + HandleMoves(Part(65001, a)) + HandleMoves(Part(130001, a)) +
    HandleMoves(Part(195001, a)) + HandleMoves(Part(260001, b))
  }

  lemma FillsMore(m: seq<Action>, r: nat, p: seq<byte>)
    requires p != [] && 1 <= r < BUFFER_SIZE && r + |p| < WORD_32
    requires Still(Run(Initial(0, 2), m).st) && Run(Initial(0, 2), m).st.entry == Entry(r, 1, 2)
    ensures var y, z := Run(Initial(0, 2), m).st, Run(Initial(0, 2), m + HandleMoves(Part(r, p))).st;
            var fits := |p| < BUFFER_SIZE - r;
            Still(z) && z.drops == y.drops + [!fits] && z.entry == Entry(if fits then r + |p| else r, 1, 2)
  {
    hide Run, Still, HandleMoves, Initial;
    FreeSpaceIsExact(r, 1);
    InOrderMovesOn(Run(Initial(0, 2), m), Part(r, p));
    RunJoins(Initial(0, 2), m, HandleMoves(Part(r, p)));
  }

  lemma StartsStill()
    ensures var y := Run(Initial(0, 2), []).st; Still(y) && y.entry == Entry(1, 1, 2) && y.drops == []
  {
  }

  /** A run from the start: nothing is read, the fifth segment fits exactly, and is dropped. */
  lemma RunDropsExactFit(a: seq<byte>, b: seq<byte>)
    requires |a| == 65000 && |b| == 2143
    ensures Run(Initial(0, 2), FillingMoves(a, b)).st.drops == [false, false, false, false, true]
  {
    hide Run, Still, HandleMoves, Initial;
    var m1, m2, m3, m4 := HandleMoves(Part(1, a)), HandleMoves(Part(65001, a)), HandleMoves(Part(130001, a)),
                          HandleMoves(Part(195001, a));
    StartsStill();
    FillsMore([], 1, a);
    assert [] + m1 == m1;
    FillsMore(m1, 65001, a);
    FillsMore(m1 + m2, 130001, a);
    FillsMore(m1 + m2 + m3, 195001, a);
    FillsMore(m1 + m2 + m3 + m4, 260001, b);
  }
}
