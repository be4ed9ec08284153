/** The TCP state machine: what the RX engine and the application's close handler decide, and what
    those decisions do to a session's state when they go through the state table.
 */
module TcpStates {
  import opened Words
  import opened StateTable

  // ---------- The RX engine's decision ----------

  /** A segment as the RX engine sees it: its control bits, the length of its payload, and the
      outcomes of its comparisons with the two tables. */
  datatype Segment = Segment(
    id: SessionId, ack: bool, syn: bool, fin: bool, rst: bool, length: u16,
    acksAll: bool,      // the acknowledgement number is the next byte to send
    inWindow: bool,     // the acknowledgement number passes the window test
    inOrder: bool,      // the sequence number is the next byte expected
    fits: bool,         // the payload is shorter than the free space
    repeatsSyn: bool)   // the sequence number is the one of the SYN already received

  /** The state written back - nothing if the lock is left alone - and the verdict for the
      payload dropper, if one is written: true means drop. */
  datatype Decision = Decision(next: Option<SessionState>, dropped: Option<bool>)

  predicate TakesAcks(s: SessionState) {
    s == ESTABLISHED || s == SYN_RECEIVED || s == FIN_WAIT_1 || s == CLOSING || s == LAST_ACK
  }

  function DropIf(g: Segment, drop: bool): Option<bool> {
    if g.length != 0 then Some(drop) else None
  }

  function OnAck(s: SessionState, g: Segment): Decision {
    if !TakesAcks(s) then Decision(Some(s), DropIf(g, true))
    else if !g.inWindow then Decision(None, None)
    else
      Decision(Some(if g.acksAll && s == SYN_RECEIVED then ESTABLISHED
                    else if g.acksAll && s == CLOSING then TIME_WAIT
                    else if g.acksAll && s == LAST_ACK then CLOSED
                    else s),
               DropIf(g, !(g.inOrder && g.fits)))
  }

  function OnSyn(s: SessionState, g: Segment): Decision {
    Decision(Some(if s == CLOSED || s == SYN_SENT then SYN_RECEIVED
                  else if s == SYN_RECEIVED && !g.repeatsSyn then CLOSED
                  else s), None)
  }

  function OnSynAck(s: SessionState, g: Segment): Decision {
    Decision(Some(if s != SYN_SENT then s else if g.acksAll then ESTABLISHED else CLOSED), None)
  }

  function OnFinAck(s: SessionState, g: Segment): Decision {
    if (s == ESTABLISHED || s == FIN_WAIT_1 || s == FIN_WAIT_2) && g.inOrder then
      Decision(Some(if s == ESTABLISHED then LAST_ACK else if g.acksAll then TIME_WAIT else CLOSING), DropIf(g, false))
    else Decision(Some(s), DropIf(g, true))
  }

  function OnOther(s: SessionState, g: Segment): Decision {
    Decision(Some(if g.rst && (if s == SYN_SENT then g.acksAll else g.inOrder) then CLOSED else s), None)
  }

  /** Which of the cases a segment's control bits select. */
  function Decide(s: SessionState, g: Segment): Decision {
    if g.rst then OnOther(s, g)
    else if g.ack && !g.syn && !g.fin then OnAck(s, g)
    else if g.syn && !g.ack && !g.fin then OnSyn(s, g)
    else if g.syn && g.ack && !g.fin then OnSynAck(s, g)
    else if g.fin && g.ack && !g.syn then OnFinAck(s, g)
    else OnOther(s, g)
  }

  /** The application's close. */
  function Close(s: SessionState): SessionState {
    if s == ESTABLISHED || s == FIN_WAIT_1 then FIN_WAIT_1 else s
  }

  // ---------- The diagram ----------

  /** The edges a received segment can cause. There is no LISTEN state - it is merged into CLOSED -
      CLOSE_WAIT is passed at once, and FIN_WAIT_2 is not used. */
  predicate ReceiveEdge(s: SessionState, t: SessionState) {
    || s == t
    || t == CLOSED                                                  // RST, or a bad SYN, or LAST_ACK acknowledged
    || ((s == CLOSED || s == SYN_SENT) && t == SYN_RECEIVED)        // SYN
    || ((s == SYN_SENT || s == SYN_RECEIVED) && t == ESTABLISHED)   // the handshake completes
    || (s == ESTABLISHED && t == LAST_ACK)                          // the peer closes
    || (s == FIN_WAIT_1 && (t == CLOSING || t == TIME_WAIT))        // both close
    || (s == CLOSING && t == TIME_WAIT)
  }

  const PLAIN := Segment(0, true, false, false, false, 0, true, true, true, true, true)

  /** The RX engine makes exactly the edges of the diagram, from every state but FIN_WAIT_2. */
  lemma ReceiveEdgeIff(s: SessionState, t: SessionState)
    requires s != FIN_WAIT_2
    ensures ReceiveEdge(s, t) <==> exists g :: Decide(s, g).next == Some(t)
  {
    var g := WitnessFor(s, t);
    if ReceiveEdge(s, t) {
      assert Decide(s, g).next == Some(t);
    }
  }

  /** A segment that takes the engine from `s` to `t`. */
  function WitnessFor(s: SessionState, t: SessionState): Segment {
    if s == t then PLAIN.(ack := false)
    else if t == CLOSED then PLAIN.(rst := true)
    else if t == SYN_RECEIVED then PLAIN.(ack := false, syn := true)
    else if s == SYN_SENT && t == ESTABLISHED then PLAIN.(syn := true)
    else if s == ESTABLISHED || s == FIN_WAIT_1 then PLAIN.(fin := true, acksAll := t == TIME_WAIT)
    else PLAIN
  }

  predicate PlainAck(g: Segment) { g.ack && !g.syn && !g.fin && !g.rst }
  predicate PlainSyn(g: Segment) { g.syn && !g.ack && !g.fin && !g.rst }
  predicate SynWithAck(g: Segment) { g.syn && g.ack && !g.fin && !g.rst }
  predicate FinWithAck(g: Segment) { g.fin && g.ack && !g.syn && !g.rst }

  /** The diagram's edges, each with the segment that causes it. */
  predicate Causes(g: Segment, s: SessionState, t: SessionState) {
    || ((s == CLOSED || s == SYN_SENT) && t == SYN_RECEIVED && PlainSyn(g))
    || (s == SYN_SENT && t == ESTABLISHED && SynWithAck(g) && g.acksAll)
    || (s == SYN_RECEIVED && t == ESTABLISHED && PlainAck(g) && g.inWindow && g.acksAll)
    || (s == ESTABLISHED && t == LAST_ACK && FinWithAck(g) && g.inOrder)
    || (s == FIN_WAIT_1 && t == TIME_WAIT && FinWithAck(g) && g.inOrder && g.acksAll)
    || (s == FIN_WAIT_1 && t == CLOSING && FinWithAck(g) && g.inOrder && !g.acksAll)
    || (s == CLOSING && t == TIME_WAIT && PlainAck(g) && g.inWindow && g.acksAll)
    || (s == LAST_ACK && t == CLOSED && PlainAck(g) && g.inWindow && g.acksAll)
    || (s == SYN_RECEIVED && t == CLOSED && PlainSyn(g) && !g.repeatsSyn)
    || (s == SYN_SENT && t == CLOSED && SynWithAck(g) && !g.acksAll)
    || (t == CLOSED && g.rst && if s == SYN_SENT then g.acksAll else g.inOrder)
  }

  /** The RX engine takes a session from one state to another exactly when the segment causes it. */
  lemma EdgeIff(s: SessionState, t: SessionState, g: Segment)
    requires s != t && s != FIN_WAIT_2
    ensures Decide(s, g).next == Some(t) <==> Causes(g, s, t)
  {
  }

  /** A payload is kept exactly if it is in order, and comes with a plain ACK that is in the window of a
      state that takes it and finds room, or with a FIN that an open connection takes; every other
      verdict is to drop. */
  lemma KeptIff(s: SessionState, g: Segment)
    ensures Decide(s, g).dropped == Some(false) <==>
            g.length != 0 && g.inOrder &&
            ((PlainAck(g) && TakesAcks(s) && g.inWindow && g.fits) ||
             (FinWithAck(g) && (s == ESTABLISHED || s == FIN_WAIT_1 || s == FIN_WAIT_2)))
    ensures g.length == 0 ==> Decide(s, g).dropped.None?
  {
  }

  /** The lock is left alone for exactly one kind of segment: a plain ACK out of the window, in a
      state that takes acknowledgements. */
  lemma LockLeftIff(s: SessionState, g: Segment)
    ensures Decide(s, g).next.None? <==>
            TakesAcks(s) && g.ack && !g.syn && !g.fin && !g.rst && !g.inWindow
  {
  }

  // ---------- Through the state table ----------

  /** Why the connection handler sent a request: to open a session, or to close one - which reads
      its state first and then writes it back. */
  datatype Origin = Open | CloseRead | CloseWrite

  /** The table, the RX engine's waiting segment and the one it decided last, the session the
      connection handler waits for, and the origins of all its requests, in order. */
  datatype World = World(
    tab: System, rxWaits: Option<Segment>, rxLast: Segment, txWaits: Option<SessionId>, origins: seq<Origin>)

  datatype Move =
    | TableStep | TimerExpires(timer: SessionId) | StateLookUp(lookUp: SessionId)
    | RxLoad(segment: Segment) | RxDecide
    | TxOpen(open: SessionId) | TxClose(close: SessionId) | TxDecide

  ghost function PopRx(y: System): System
    requires y.st.rx.answers != []
  {
    y.(st := y.st.(rx := y.st.rx.(answers := y.st.rx.answers[1..])))
  }

  ghost function PopTx(y: System): System
    requires y.st.tx.answers != []
  {
    y.(st := y.st.(tx := y.st.tx.(answers := y.st.tx.answers[1..])))
  }

  /** TRANSITION: take the state read, decide, write back if there is something to write. */
  ghost function RxDecideStep(w: World): World {
    if w.rxWaits.Some? && w.tab.st.rx.answers != [] then
      var g := w.rxWaits.value;
      var d := Decide(w.tab.st.rx.answers[0], g);
      var tab := PopRx(w.tab);
      World(if d.next.Some? then StateTable.Next(tab, SubmitRx(Write(g.id, d.next.value))) else tab,
            None, g, w.txWaits, w.origins)
    else w
  }

  ghost function TxDecideStep(w: World): World {
    if w.txWaits.Some? && w.tab.st.tx.answers != [] then
      var s := Close(w.tab.st.tx.answers[0]);
      w.(tab := StateTable.Next(PopTx(w.tab), SubmitTx(Write(w.txWaits.value, s))), txWaits := None,
         origins := w.origins + [CloseWrite])
    else w
  }

  ghost function Act(w: World, m: Move): World {
    match m
    case TableStep => w.(tab := StateTable.Next(w.tab, Serve))
    case TimerExpires(id) => w.(tab := StateTable.Next(w.tab, Expire(id)))
    case StateLookUp(id) => w.(tab := StateTable.Next(w.tab, AskLookUp(id)))
    case RxLoad(g) =>
      if w.rxWaits.None? then w.(tab := StateTable.Next(w.tab, SubmitRx(Read(g.id))), rxWaits := Some(g)) else w
    case RxDecide => RxDecideStep(w)
    case TxOpen(id) =>
      if w.txWaits.None? then
        w.(tab := StateTable.Next(w.tab, SubmitTx(Write(id, SYN_SENT))), origins := w.origins + [Open])
      else w
    case TxClose(id) =>
      if w.txWaits.None? then
        w.(tab := StateTable.Next(w.tab, SubmitTx(Read(id))), txWaits := Some(id), origins := w.origins + [CloseRead])
      else w
    case TxDecide => TxDecideStep(w)
  }

  ghost function Start(): World {
    World(StateTable.Initial(), None, PLAIN, None, [])
  }

  ghost function Play(moves: seq<Move>): World {
    if moves == [] then Start()
    else Act(Play(moves[..|moves| - 1]), moves[|moves| - 1])
  }

  // ---------- The invariant ----------

  /** A write on its way back from the RX engine: decided from the value it read, under its lock. */
  ghost predicate RxWrites(w: World, r: Request) {
    var c := w.tab.st.rx;
    && r.Write? && c.locked && c.lockedId == r.id && w.rxLast.id == r.id
    && Decide(w.tab.history.rxSeen, w.rxLast).next == Some(r.state)
  }

  ghost predicate RxHolds(w: World) {
    var c, q := w.tab.st.rx, Pending(w.tab.st.rx);
    if w.rxWaits.None? then
      c.answers == [] && |q| <= 1 && (q != [] ==> RxWrites(w, q[0]))
    else if c.answers == [] then
      1 <= |q| <= 2 && q[|q| - 1] == Read(w.rxWaits.value.id) && (|q| == 2 ==> RxWrites(w, q[0]))
    else
      |c.answers| == 1 && q == [] && c.locked && c.lockedId == w.rxWaits.value.id &&
      c.answers[0] == w.tab.history.rxSeen
  }

  /** A write on its way back from the close handler. */
  ghost predicate TxWrites(w: World, r: Request) {
    var c := w.tab.st.tx;
    r.Write? && c.locked && c.lockedId == r.id && r.state == Close(w.tab.history.txSeen)
  }

  /** The origin of the connection handler's `i`-th waiting request. */
  ghost function OriginOf(w: World, i: nat): Origin {
    var k := |w.tab.history.txServed| + i;
    if k < |w.origins| then w.origins[k] else CloseRead
  }

  /** What may stand at place `i` of the connection handler's waiting requests: an open, the write
      back it still owes for a close, or the read it waits for. */
  ghost predicate TxItem(w: World, q: seq<Request>, i: int)
    requires 0 <= i < |q|
  {
    var c, o := w.tab.st.tx, OriginOf(w, i);
    || (o == Open && q[i].Write? && q[i].state == SYN_SENT && (c.locked ==> i > 0))
    || (o == CloseWrite && i == 0 && TxWrites(w, q[i]))
    || (o == CloseRead && i == |q| - 1 && w.txWaits.Some? && c.answers == [] && q[i] == Read(w.txWaits.value) &&
        (c.locked ==> i > 0))
  }

  ghost predicate TxHolds(w: World) {
    var c, q := w.tab.st.tx, Pending(w.tab.st.tx);
    && |w.origins| == |w.tab.history.txServed| + |q|
    && (forall i :: 0 <= i < |q| ==> TxItem(w, q, i))
    && (w.txWaits.None? ==> c.answers == [] && (c.locked ==> q != []))
    && (w.txWaits.Some? && c.answers == [] ==> q != [] && q[|q| - 1].Read?)
    && (w.txWaits.Some? && c.answers != [] ==>
          |c.answers| == 1 && q == [] && c.locked && c.lockedId == w.txWaits.value &&
          c.answers[0] == w.tab.history.txSeen)
  }

  ghost predicate NoFinWait2(t: Table) {
    forall id: SessionId :: t[id] != FIN_WAIT_2
  }

  ghost predicate Good(w: World) {
    StateTable.Inv(w.tab) && RxHolds(w) && TxHolds(w) && NoFinWait2(w.tab.st.table)
  }

  // ---------- Every move keeps it ----------

  lemma SeenIsLive(y: System)
    requires StateTable.Inv(y)
    ensures y.st.rx.locked ==> y.st.table[y.st.rx.lockedId] == y.history.rxSeen
    ensures y.st.tx.locked ==> y.st.table[y.st.tx.lockedId] == y.history.txSeen
  {
    hide Pending;
  }

  lemma NeverFinWait2(s: SessionState, g: Segment)
    requires s != FIN_WAIT_2
    ensures Decide(s, g).next != Some(FIN_WAIT_2) && Close(s) != FIN_WAIT_2
  {
  }

  lemma ServeRxHolds(w: World, e: Effect)
    requires Good(w) && Does(w.tab, StateTable.Step(w.tab), e)
    ensures RxHolds(w.(tab := StateTable.Step(w.tab)))
  {
    hide StateTable.Step, Pending, Decide, Close, TxHolds, StateTable.Inv, Written, NoFinWait2;
  }

  lemma ServeTxHolds(w: World, e: Effect)
    requires Good(w) && Does(w.tab, StateTable.Step(w.tab), e)
    ensures TxHolds(w.(tab := StateTable.Step(w.tab)))
  {
    hide StateTable.Step, Pending, Decide, Close, RxHolds, StateTable.Inv, Written, NoFinWait2;
    var w' := w.(tab := StateTable.Step(w.tab));
    var q, q' := Pending(w.tab.st.tx), Pending(w'.tab.st.tx);
    if e.TxServed? {
      assert TxItem(w, q, 0);
      forall i | 0 <= i < |q'| ensures TxItem(w', q', i) {
        assert TxItem(w, q, i + 1);
        assert q'[i] == q[i + 1];
      }
    } else {
      forall i | 0 <= i < |q'| ensures TxItem(w', q', i) {
        assert TxItem(w, q, i);
      }
    }
  }

  lemma RxWriteAvoidsFinWait2(w: World, r: Request)
    requires Good(w) && Pending(w.tab.st.rx) != [] && Pending(w.tab.st.rx)[0] == r && r.Write?
    ensures r.state != FIN_WAIT_2
  {
    SeenIsLive(w.tab);
    hide Pending, StateTable.Inv, Decide, Close, TxHolds;
    NeverFinWait2(w.tab.history.rxSeen, w.rxLast);
  }

  lemma TxWriteAvoidsFinWait2(w: World, r: Request)
    requires Good(w) && Pending(w.tab.st.tx) != [] && Pending(w.tab.st.tx)[0] == r && r.Write?
    ensures r.state != FIN_WAIT_2
  {
    SeenIsLive(w.tab);
    assert TxItem(w, Pending(w.tab.st.tx), 0);
    hide Pending, StateTable.Inv, Decide, Close, RxHolds, TxHolds;
    if r.state != SYN_SENT { NeverFinWait2(w.tab.history.txSeen, PLAIN); }
  }

  lemma TableStepKeepsFinWait2(w: World, e: Effect)
    requires Good(w) && Does(w.tab, StateTable.Step(w.tab), e)
    ensures NoFinWait2(StateTable.Step(w.tab).st.table)
  {
    hide StateTable.Step, Pending, StateTable.Inv, RxHolds, TxHolds;
    match e
    case RxServed(r) => if r.Write? { RxWriteAvoidsFinWait2(w, r); }
    case TxServed(r) => if r.Write? { TxWriteAvoidsFinWait2(w, r); }
    case _ =>
  }

  lemma TableStepKeeps(w: World)
    requires Good(w)
    ensures Good(Act(w, TableStep))
  {
    var e := StepEffect(w.tab);
    StateTable.ServeKeeps(w.tab);
    ServeRxHolds(w, e);
    ServeTxHolds(w, e);
    TableStepKeepsFinWait2(w, e);
    hide StateTable.Step, StateTable.Inv, RxHolds, TxHolds, NoFinWait2;
  }

  lemma PendingSnoc(c: Client, r: Request)
    ensures Pending(c.(fifo := c.fifo + [r])) == Pending(c) + [r]
  {
  }

  lemma RxLoadKeeps(w: World, g: Segment)
    requires Good(w)
    ensures Good(Act(w, RxLoad(g)))
  {
    hide Decide, Close, NoFinWait2;
    if w.rxWaits.None? {
      StateTable.StepKeeps(w.tab, SubmitRx(Read(g.id)));
      PendingSnoc(w.tab.st.rx, Read(g.id));
      hide Pending, StateTable.Inv;
      TxFrame(w, Act(w, RxLoad(g)));
    }
  }

  lemma TxFrame(w: World, w': World)
    requires TxHolds(w)
    requires w'.tab.st.tx == w.tab.st.tx && w'.txWaits == w.txWaits && w'.tab.history.txSeen == w.tab.history.txSeen
    requires w'.origins == w.origins && w'.tab.history.txServed == w.tab.history.txServed
    ensures TxHolds(w')
  {
    hide Pending, Close;
    var q := Pending(w.tab.st.tx);
    forall i | 0 <= i < |q| ensures TxItem(w', q, i) { assert TxItem(w, q, i); }
  }

  lemma RxFrame(w: World, w': World)
    requires RxHolds(w)
    requires w'.tab.st.rx == w.tab.st.rx && w'.rxWaits == w.rxWaits && w'.rxLast == w.rxLast
    requires w'.tab.history.rxSeen == w.tab.history.rxSeen
    ensures RxHolds(w')
  {
    hide Pending, Decide;
  }

  lemma PopKeeps(y: System)
    requires StateTable.Inv(y)
    ensures y.st.rx.answers != [] ==> StateTable.Inv(PopRx(y)) && Pending(PopRx(y).st.rx) == Pending(y.st.rx)
    ensures y.st.tx.answers != [] ==> StateTable.Inv(PopTx(y)) && Pending(PopTx(y).st.tx) == Pending(y.st.tx)
  {
  }

  lemma RxDecideKeeps(w: World)
    requires Good(w)
    ensures Good(RxDecideStep(w))
  {
    hide Decide, Close, NoFinWait2;
    if w.rxWaits.Some? && w.tab.st.rx.answers != [] {
      PopKeeps(w.tab);
      var d := Decide(w.tab.st.rx.answers[0], w.rxWaits.value);
      if d.next.Some? {
        var r := Write(w.rxWaits.value.id, d.next.value);
        StateTable.StepKeeps(PopRx(w.tab), SubmitRx(r));
        PendingSnoc(PopRx(w.tab).st.rx, r);
      }
      hide Pending, StateTable.Inv;
      TxFrame(w, RxDecideStep(w));
    }
  }

  lemma TxDecideKeeps(w: World)
    requires Good(w)
    ensures Good(TxDecideStep(w))
  {
    hide Decide, Close, NoFinWait2;
    if w.txWaits.Some? && w.tab.st.tx.answers != [] {
      PopKeeps(w.tab);
      var r := Write(w.txWaits.value, Close(w.tab.st.tx.answers[0]));
      StateTable.StepKeeps(PopTx(w.tab), SubmitTx(r));
      PendingSnoc(PopTx(w.tab).st.tx, r);
      hide Pending, StateTable.Inv;
      RxFrame(w, TxDecideStep(w));
      assert TxItem(TxDecideStep(w), Pending(TxDecideStep(w).tab.st.tx), 0);
    }
  }

  /** A request joins the close handler's waiting ones. */
  lemma TxSubmitKeeps(w: World, r: Request, w': World)
    requires Good(w) && w.txWaits.None?
    requires w' == w.(tab := StateTable.Next(w.tab, SubmitTx(r)), txWaits := if r.Read? then Some(r.id) else None,
                      origins := w.origins + [if r.Read? then CloseRead else Open])
    requires r.Write? ==> r.state == SYN_SENT
    ensures Good(w')
  {
    hide Decide, Close, NoFinWait2;
    StateTable.StepKeeps(w.tab, SubmitTx(r));
    PendingSnoc(w.tab.st.tx, r);
    hide Pending, StateTable.Inv;
    RxFrame(w, w');
    var q, q' := Pending(w.tab.st.tx), Pending(w'.tab.st.tx);
    forall i | 0 <= i < |q'| ensures TxItem(w', q', i) {
      if i < |q| { assert TxItem(w, q, i); }
    }
  }

  lemma OutsideKeeps(w: World, a: StateTable.Action)
    requires Good(w) && (a.Expire? || a.AskLookUp?)
    ensures Good(w.(tab := StateTable.Next(w.tab, a)))
  {
    StateTable.StepKeeps(w.tab, a);
    var w' := w.(tab := StateTable.Next(w.tab, a));
    hide Pending, StateTable.Inv, Decide, Close;
    RxFrame(w, w');
    TxFrame(w, w');
  }

  lemma MoveKeeps(w: World, m: Move)
    requires Good(w)
    ensures Good(Act(w, m))
  {
    hide Good, StateTable.Next, RxDecideStep, TxDecideStep;
    match m
    case TableStep => TableStepKeeps(w);
    case TimerExpires(id) => OutsideKeeps(w, Expire(id));
    case StateLookUp(id) => OutsideKeeps(w, AskLookUp(id));
    case RxLoad(g) => RxLoadKeeps(w, g);
    case RxDecide => RxDecideKeeps(w);
    case TxOpen(id) => if w.txWaits.None? { TxSubmitKeeps(w, Write(id, SYN_SENT), Act(w, m)); }
    case TxClose(id) => if w.txWaits.None? { TxSubmitKeeps(w, Read(id), Act(w, m)); }
    case TxDecide => TxDecideKeeps(w);
  }

  lemma StartHolds()
    ensures Good(Start())
  {
    StateTable.InitialHolds();
  }

  lemma {:induction false} PlayKeeps(moves: seq<Move>)
    ensures Good(Play(moves))
  {
    hide Good, Act;
    if moves == [] {
      StartHolds();
    } else {
      PlayKeeps(moves[..|moves| - 1]);
      MoveKeeps(Play(moves[..|moves| - 1]), moves[|moves| - 1]);
    }
  }

  // ---------- What happens to a session's state ----------

  /** What may be served: a write of the RX engine is its decision on the segment decided last,
      computed from the value the session has at this very moment; a write of the connection handler
      is its close of that value, or SYN_SENT for an open. */
  ghost predicate Sanctioned(w: World, e: Effect) {
    match e
    case RxServed(r) =>
      r.Write? ==> w.rxLast.id == r.id && Decide(w.tab.st.table[r.id], w.rxLast).next == Some(r.state)
    case TxServed(r) =>
      (match OriginOf(w, 0)
       case Open => r == Write(r.id, SYN_SENT)
       case CloseWrite => r == Write(r.id, Close(w.tab.st.table[r.id]))
       case CloseRead => r.Read?)
    case _ => true
  }

  /** In every run, every move of the table serves a request of the RX engine or of the connection
      handler, sanctioned by the live value, or the oldest expiry, or nothing; what each does to the
      states, the waiting requests and the releases is exactly what `Does` says. No other move
      changes any state. */
  lemma EveryChangeIsLawful(moves: seq<Move>, m: Move) returns (e: Effect)
    ensures var w, z := Play(moves), Act(Play(moves), m);
            && (m.TableStep? ==> Does(w.tab, z.tab, e) && Sanctioned(w, e))
            && (!m.TableStep? ==>
                  z.tab.st.table == w.tab.st.table && z.tab.st.releases == w.tab.st.releases &&
                  Expiries(z.tab.st.timer) ==
                  Expiries(w.tab.st.timer) + (if m.TimerExpires? then [m.timer] else []))
  {
    PlayKeeps(moves);
    hide Play;
    var w := Play(moves);
    if m.TableStep? {
      e := ServedIsSanctioned(w);
    } else {
      e := NoEffect;
      OnlyTableStepsChange(w, m);
    }
  }

  lemma OnlyTableStepsChange(w: World, m: Move)
    requires !m.TableStep?
    ensures Act(w, m).tab.st.table == w.tab.st.table && Act(w, m).tab.st.releases == w.tab.st.releases
    ensures Expiries(Act(w, m).tab.st.timer) ==
            Expiries(w.tab.st.timer) + (if m.TimerExpires? then [m.timer] else [])
  {
    hide Decide, Close;
  }

  lemma RxServedIsSanctioned(w: World, r: Request)
    requires Good(w) && Pending(w.tab.st.rx) != [] && Pending(w.tab.st.rx)[0] == r
    ensures Sanctioned(w, RxServed(r))
  {
    SeenIsLive(w.tab);
    hide Pending, StateTable.Inv, Decide, Close, NoFinWait2, TxHolds;
  }

  lemma TxServedIsSanctioned(w: World, r: Request)
    requires Good(w) && Pending(w.tab.st.tx) != [] && Pending(w.tab.st.tx)[0] == r
    ensures Sanctioned(w, TxServed(r))
  {
    SeenIsLive(w.tab);
    assert TxItem(w, Pending(w.tab.st.tx), 0);
    hide Pending, StateTable.Inv, Decide, Close, NoFinWait2, RxHolds;
  }

  lemma ServedIsSanctioned(w: World) returns (e: Effect)
    requires Good(w)
    ensures Does(w.tab, StateTable.Step(w.tab), e) && Sanctioned(w, e)
  {
    e := StepEffect(w.tab);
    hide StateTable.Step, Pending, Decide, Close, Good, Sanctioned;
    match e
    case RxServed(r) => RxServedIsSanctioned(w, r);
    case TxServed(r) => TxServedIsSanctioned(w, r);
    case _ => OthersAreSanctioned(w, e);
  }

  lemma OthersAreSanctioned(w: World, e: Effect)
    requires !e.RxServed? && !e.TxServed?
    ensures Sanctioned(w, e)
  {
  }

  /** The whole diagram: received segments, the application's close, and its open. */
  predicate Edge(s: SessionState, t: SessionState) {
    ReceiveEdge(s, t) || (s == ESTABLISHED && t == FIN_WAIT_1) || (s == CLOSED && t == SYN_SENT)
  }

  /** The effect serves an open of this session. */
  ghost predicate ServesOpen(w: World, e: Effect, id: SessionId) {
    e.TxServed? && e.tx.id == id && OriginOf(w, 0) == Open
  }

  /** The effect serves the write of a close of this session. */
  ghost predicate ServesClose(w: World, e: Effect, id: SessionId) {
    e.TxServed? && e.tx.id == id && OriginOf(w, 0) == CloseWrite
  }

  /** In every run a move takes a session along an edge of the diagram if and only if it does not
      serve an open of a session that is neither closed nor being opened; and then only the RX
      engine's decision on the live value, the close of an established session, an open of a closed
      one, or a served expiry takes it anywhere - each edge for its own cause, and the close always.
      FIN_WAIT_2 is never stored. */
  lemma ChangesFollowDiagramIff(moves: seq<Move>, id: SessionId) returns (e: Effect)
    ensures var w, z := Play(moves), Act(Play(moves), TableStep);
            var s, t := w.tab.st.table[id], z.tab.st.table[id];
            && Does(w.tab, z.tab, e) && Sanctioned(w, e) && t != FIN_WAIT_2
            && (Edge(s, t) <==> !(ServesOpen(w, e, id) && s != CLOSED && s != SYN_SENT))
            && (ServesClose(w, e, id) ==> t == if s == ESTABLISHED then FIN_WAIT_1 else s)
            && (s != t ==>
                  || (e == RxServed(Write(id, t)) && Causes(w.rxLast, s, t))
                  || (e == TxServed(Write(id, t)) && ((s == ESTABLISHED && t == FIN_WAIT_1) || ServesOpen(w, e, id)))
                  || (e == TimerServed(id) && t == CLOSED))
  {
    PlayKeeps(moves);
    MoveKeeps(Play(moves), TableStep);
    e := EveryChangeIsLawful(moves, TableStep);
    hide Play, Act;
    OneMoveOnDiagram(Play(moves), Act(Play(moves), TableStep), e, id);
  }

  lemma OneMoveOnDiagram(w: World, z: World, e: Effect, id: SessionId)
    requires NoFinWait2(w.tab.st.table) && NoFinWait2(z.tab.st.table)
    requires Does(w.tab, z.tab, e) && Sanctioned(w, e)
    ensures var s, t := w.tab.st.table[id], z.tab.st.table[id];
            && t != FIN_WAIT_2
            && (Edge(s, t) <==> !(ServesOpen(w, e, id) && s != CLOSED && s != SYN_SENT))
            && (ServesClose(w, e, id) ==> t == if s == ESTABLISHED then FIN_WAIT_1 else s)
            && (s != t ==>
                  || (e == RxServed(Write(id, t)) && Causes(w.rxLast, s, t))
                  || (e == TxServed(Write(id, t)) && ((s == ESTABLISHED && t == FIN_WAIT_1) || ServesOpen(w, e, id)))
                  || (e == TimerServed(id) && t == CLOSED))
  {
    hide Decide, ReceiveEdge, Pending, OriginOf;
    var s, t := w.tab.st.table[id], z.tab.st.table[id];
    ReceiveEdgeIff(s, t);
    StandingEdges(s);
    if s != t { EdgeIff(s, t, w.rxLast); }
    hide Causes;
  }

  lemma StandingEdges(s: SessionState)
    ensures ReceiveEdge(s, s) && ReceiveEdge(s, CLOSED)
    ensures s != SYN_SENT ==> !ReceiveEdge(s, SYN_SENT)
  {
  }

  // ---------- What a state says of the connection ----------

  /** What has happened to a session since it was last closed or opened: our SYN was acknowledged; the
      peer's FIN was taken, in order; and everything we had sent was acknowledged while we were
      closing - by a plain ACK before the peer's FIN, by that FIN or a plain ACK after it, or by a FIN
      that was not taken. */
  datatype Facts = Facts(synAcked: bool, peerFin: bool, ackedBefore: bool, ackedSince: bool, ackedIgnored: bool)

  const NO_FACTS := Facts(false, false, false, false, false)

  predicate Closing(s: SessionState) { s == FIN_WAIT_1 || s == CLOSING || s == LAST_ACK }

  predicate TakesFin(s: SessionState, g: Segment) {
    FinWithAck(g) && g.inOrder && (s == ESTABLISHED || s == FIN_WAIT_1)
  }

  /** What a segment handled in state `s` adds. */
  function Note(f: Facts, s: SessionState, g: Segment): Facts {
    Facts(f.synAcked || ((s == SYN_SENT || s == SYN_RECEIVED) && g.ack && g.acksAll && !g.fin && !g.rst),
          f.peerFin || TakesFin(s, g),
          f.ackedBefore || (s == FIN_WAIT_1 && PlainAck(g) && g.acksAll),
          f.ackedSince || (s == FIN_WAIT_1 && TakesFin(s, g) && g.acksAll) ||
            ((s == CLOSING || s == LAST_ACK) && PlainAck(g) && g.acksAll),
          f.ackedIgnored || (Closing(s) && FinWithAck(g) && !TakesFin(s, g) && g.acksAll))
  }

  /** Everything we had sent was acknowledged while we were closing, whether the code looked or not. */
  predicate AllAcked(f: Facts) { f.ackedBefore || f.ackedSince || f.ackedIgnored }

  /** The facts after one move: a served write of the RX engine notes its segment; a session that is
      closed, or being opened, starts anew. */
  ghost function FactsAfter(f: Facts, w: World, z: World, id: SessionId): Facts {
    var h, k, t := w.tab.history.rxServed, z.tab.history.rxServed, z.tab.st.table[id];
    var noted := if |k| > |h| && k[|h|].Write? && k[|h|].id == id then Note(f, w.tab.st.table[id], w.rxLast) else f;
    if t == CLOSED || t == SYN_SENT || t == SYN_RECEIVED then NO_FACTS else noted
  }

  ghost function FactsOf(moves: seq<Move>, id: SessionId): Facts {
    if moves == [] then NO_FACTS
    else
      var before := moves[..|moves| - 1];
      FactsAfter(FactsOf(before, id), Play(before), Act(Play(before), moves[|moves| - 1]), id)
  }

  /** What each state says. */
  predicate Tells(s: SessionState, f: Facts) {
    match s
    case ESTABLISHED => f.synAcked && !f.peerFin && !AllAcked(f)
    case FIN_WAIT_1 => f.synAcked && !f.peerFin && !f.ackedSince
    case CLOSING => f.synAcked && f.peerFin && !f.ackedSince
    case TIME_WAIT => f.synAcked && f.peerFin && f.ackedSince
    case LAST_ACK => f.synAcked && f.peerFin && !f.ackedSince
    case FIN_WAIT_2 => false
    case _ => f == NO_FACTS
  }

  lemma SegmentTells(s: SessionState, g: Segment, f: Facts)
    requires Tells(s, f) && Decide(s, g).next.Some?
    ensures var t := Decide(s, g).next.value;
            Tells(t, if t == CLOSED || t == SYN_SENT || t == SYN_RECEIVED then NO_FACTS else Note(f, s, g))
  {
  }

  lemma OtherwiseTells(s: SessionState, t: SessionState, f: Facts)
    requires Tells(s, f)
    requires t == s || t == CLOSED || t == SYN_SENT || (s == ESTABLISHED && t == FIN_WAIT_1)
    ensures Tells(t, if t == CLOSED || t == SYN_SENT || t == SYN_RECEIVED then NO_FACTS else f)
  {
  }

  lemma CloseEdges(s: SessionState)
    ensures Close(s) == s || (s == ESTABLISHED && Close(s) == FIN_WAIT_1)
  {
  }

  lemma TableStepTells(w: World, id: SessionId, f: Facts)
    requires Good(w) && Tells(w.tab.st.table[id], f)
    ensures var z := Act(w, TableStep); Tells(z.tab.st.table[id], FactsAfter(f, w, z, id))
  {
    var e := ServedIsSanctioned(w);
    var z := Act(w, TableStep);
    assert Does(w.tab, z.tab, e);
    hide Good, StateTable.Step, Pending, Decide, Close, Tells, Note, OriginOf, Act;
    var s, t := w.tab.st.table[id], z.tab.st.table[id];
    CloseEdges(s);
    match e
    case RxServed(r) =>
      if r.Write? && r.id == id {
        SegmentTells(s, w.rxLast, f);
      } else {
        OtherwiseTells(s, t, f);
      }
    case TxServed(r) =>
      OtherwiseTells(s, t, f);
    case _ =>
      OtherwiseTells(s, t, f);
  }

  lemma OthersTell(w: World, m: Move, id: SessionId, f: Facts)
    requires !m.TableStep? && Tells(w.tab.st.table[id], f)
    ensures Tells(Act(w, m).tab.st.table[id], FactsAfter(f, w, Act(w, m), id))
  {
    OnlyTableStepsChange(w, m);
    ServedOnlyByTable(w, m);
    hide Act, Note;
  }

  lemma ServedOnlyByTable(w: World, m: Move)
    requires !m.TableStep?
    ensures Act(w, m).tab.history.rxServed == w.tab.history.rxServed
  {
    hide Decide, Close;
  }

  /** In every run each session's state tells the truth: ESTABLISHED and what follows it only after our
      SYN was acknowledged; CLOSING and LAST_ACK only after the peer's FIN was taken, and before
      anything taken since has acknowledged all we sent; TIME_WAIT after both. */
  lemma {:induction false} StatesTell(moves: seq<Move>, id: SessionId)
    ensures Tells(Play(moves).tab.st.table[id], FactsOf(moves, id))
  {
    hide Act, Tells, FactsAfter;
    if moves == [] {
      StartTells(id);
    } else {
      var before, m := moves[..|moves| - 1], moves[|moves| - 1];
      StatesTell(before, id);
      PlayKeeps(before);
      if m.TableStep? {
        TableStepTells(Play(before), id, FactsOf(before, id));
      } else {
        OthersTell(Play(before), m, id, FactsOf(before, id));
      }
    }
  }

  lemma StartTells(id: SessionId)
    ensures Tells(Start().tab.st.table[id], NO_FACTS)
  {
  }

  /** CLOSING does not say that our side is still unacknowledged: it is acknowledged exactly if a plain
      ACK came before the peer's FIN, for there is no FIN_WAIT_2 to remember it, or a later FIN carried
      the acknowledgement, which the code does not look at. */
  lemma ClosingIsAckedIff(moves: seq<Move>, id: SessionId)
    requires Play(moves).tab.st.table[id] == CLOSING
    ensures var f := FactsOf(moves, id); f.peerFin && (AllAcked(f) <==> f.ackedBefore || f.ackedIgnored)
  {
    StatesTell(moves, id);
    hide Play, FactsOf;
  }

  /** The RX engine and the close handler never wait for each other's locks at the same time. */
  lemma ClientsNeverDeadlock(moves: seq<Move>)
    ensures var s := Play(moves).tab.st;
            !(s.tx.deferred.Some? && Blocks(s.rx, s.tx.deferred.value.id) &&
              s.rx.deferred.Some? && Blocks(s.tx, s.rx.deferred.value.id))
  {
    PlayKeeps(moves);
    hide Play, Decide, Close, NoFinWait2;
    NotBothBlocked(Play(moves));
  }

  lemma NotBothBlocked(w: World)
    requires Good(w)
    ensures var s := w.tab.st;
            !(s.tx.deferred.Some? && Blocks(s.rx, s.tx.deferred.value.id) &&
              s.rx.deferred.Some? && Blocks(s.tx, s.rx.deferred.value.id))
  {
    hide Decide, Close, NoFinWait2;
    if w.tab.st.tx.deferred.Some? {
      assert TxItem(w, Pending(w.tab.st.tx), 0);
    }
  }

  // ---------- An open that meets an established session ----------

  const SYN_SEGMENT := PLAIN.(ack := false, syn := true)

  /** The moves that handle one segment. */
  function HandleMoves(g: Segment): seq<Move> { [RxLoad(g), TableStep, RxDecide, TableStep] }

  /** A peer opens session 0. */
  function Handshake(): seq<Move> { HandleMoves(SYN_SEGMENT) + HandleMoves(PLAIN) }

  lemma PlaySnoc(moves: seq<Move>, m: Move)
    ensures Play(moves + [m]) == Act(Play(moves), m)
  {
    assert (moves + [m])[..|moves|] == moves;
  }

  ghost predicate Idle(c: Client) { c.fifo == [] && c.deferred.None? && !c.locked && c.answers == [] }

  /** Nothing waits anywhere. */
  ghost predicate Quiet(w: World) {
    var s := w.tab.st;
    && Idle(s.tx) && Idle(s.rx) && w.rxWaits.None? && w.txWaits.None?
    && s.lookUps.fifo == [] && s.timer.fifo == [] && s.timer.deferred.None?
  }

  ghost function Handle(w: World, g: Segment): World {
    Act(Act(Act(Act(w, RxLoad(g)), TableStep), RxDecide), TableStep)
  }

  lemma HandleStores(w: World, g: Segment)
    requires Quiet(w) && Decide(w.tab.st.table[g.id], g).next.Some?
    ensures Quiet(Handle(w, g))
    ensures Handle(w, g).tab.st.table == w.tab.st.table[g.id := Decide(w.tab.st.table[g.id], g).next.value]
  {
    hide Decide;
    var w1 := Act(w, RxLoad(g));
    assert w1.tab.st.rx.fifo == [Read(g.id)];
    var w2 := Act(w1, TableStep);
    assert w2.tab.st.rx.answers == [w.tab.st.table[g.id]] && w2.tab.st.rx.fifo == [];
    var w3 := Act(w2, RxDecide);
    assert w3.tab.st.rx.fifo == [Write(g.id, Decide(w.tab.st.table[g.id], g).next.value)];
  }

  lemma OpenStores(w: World, id: SessionId)
    requires Quiet(w)
    ensures Act(Act(w, TxOpen(id)), TableStep).tab.st.table == w.tab.st.table[id := SYN_SENT]
  {
    var w1 := Act(w, TxOpen(id));
    assert w1.tab.st.tx.fifo == [Write(id, SYN_SENT)];
  }

  lemma PlaysHandle(moves: seq<Move>, g: Segment)
    ensures Play(moves + HandleMoves(g)) == Handle(Play(moves), g)
  {
    hide Play, Act;
    PlaySnoc(moves, RxLoad(g));
    PlaySnoc(moves + [RxLoad(g)], TableStep);
    PlaySnoc(moves + [RxLoad(g)] + [TableStep], RxDecide);
    PlaySnoc(moves + [RxLoad(g)] + [TableStep] + [RxDecide], TableStep);
    assert moves + HandleMoves(g) == moves + [RxLoad(g)] + [TableStep] + [RxDecide] + [TableStep];
  }

  lemma StartsQuiet()
    ensures Play([]) == Start() && Quiet(Start()) && Start().tab.st.table[0] == CLOSED
  {
  }

  lemma HandshakeEstablishes()
    ensures Quiet(Play(Handshake())) && Play(Handshake()).tab.st.table[0] == ESTABLISHED
  {
    hide Play, Handle, Quiet, HandleMoves, Start;
    StartsQuiet();
    PlaysHandle([], SYN_SEGMENT);
    HandleStores(Play([]), SYN_SEGMENT);
    assert [] + HandleMoves(SYN_SEGMENT) == HandleMoves(SYN_SEGMENT);
    PlaysHandle(HandleMoves(SYN_SEGMENT), PLAIN);
    HandleStores(Play(HandleMoves(SYN_SEGMENT)), PLAIN);
  }

  /** A run from the start in which an open writes SYN_SENT over an established session: a move that
      is no edge of the diagram. */
  lemma OpenOverwritesEstablished()
    ensures Play(Handshake()).tab.st.table[0] == ESTABLISHED
    ensures Play(Handshake() + [TxOpen(0)] + [TableStep]).tab.st.table[0] == SYN_SENT
    ensures !Edge(ESTABLISHED, SYN_SENT)
  {
    hide Play, Act, Quiet, Handshake;
    HandshakeEstablishes();
    PlaySnoc(Handshake(), TxOpen(0));
    PlaySnoc(Handshake() + [TxOpen(0)], TableStep);
    OpenStores(Play(Handshake()), 0);
  }

  // ---------- A run that reaches CLOSING with everything acknowledged ----------

  /** The application closes session 0. */
  function CloseMoves(): seq<Move> { [TxClose(0), TableStep, TxDecide, TableStep] }

  /** The peer acknowledges our FIN, and then closes with a FIN whose acknowledgement number is an
      older one. */
  function AckThenFin(): seq<Move> {
    HandleMoves(PLAIN) + HandleMoves(PLAIN.(fin := true, acksAll := false))
  }

  lemma FactsSnoc(moves: seq<Move>, m: Move, id: SessionId)
    ensures FactsOf(moves + [m], id) == FactsAfter(FactsOf(moves, id), Play(moves), Act(Play(moves), m), id)
  {
    hide FactsAfter, Act;
    assert (moves + [m])[..|moves|] == moves;
  }

  lemma CloseStores(w: World)
    requires Quiet(w) && w.tab.st.table[0] == ESTABLISHED
    ensures var z := Act(Act(Act(Act(w, TxClose(0)), TableStep), TxDecide), TableStep);
            Quiet(z) && z.tab.st.table[0] == FIN_WAIT_1
  {
    var w1 := Act(w, TxClose(0));
    assert w1.tab.st.tx.fifo == [Read(0)];
    var w2 := Act(w1, TableStep);
    assert w2.tab.st.tx.answers == [ESTABLISHED] && w2.tab.st.tx.fifo == [];
    var w3 := Act(w2, TxDecide);
    assert w3.tab.st.tx.fifo == [Write(0, FIN_WAIT_1)];
  }

  lemma CloseIsPlayed(moves: seq<Move>)
    requires Quiet(Play(moves)) && Play(moves).tab.st.table[0] == ESTABLISHED
    ensures var z := Play(moves + CloseMoves()); Quiet(z) && z.tab.st.table[0] == FIN_WAIT_1
  {
    hide Play, Act, Quiet;
    PlaySnoc(moves, TxClose(0));
    PlaySnoc(moves + [TxClose(0)], TableStep);
    PlaySnoc(moves + [TxClose(0)] + [TableStep], TxDecide);
    PlaySnoc(moves + [TxClose(0)] + [TableStep] + [TxDecide], TableStep);
    assert moves + CloseMoves() == moves + [TxClose(0)] + [TableStep] + [TxDecide] + [TableStep];
    CloseStores(Play(moves));
  }

  /** The moves that handle a segment note it once. */
  lemma HandleNotes(w: World, g: Segment, f: Facts)
    requires Quiet(w) && Decide(w.tab.st.table[g.id], g).next.Some?
    requires var s, t := w.tab.st.table[g.id], Decide(w.tab.st.table[g.id], g).next.value;
             s != CLOSED && s != SYN_SENT && s != SYN_RECEIVED && t != CLOSED && t != SYN_SENT && t != SYN_RECEIVED
    ensures var w1 := Act(w, RxLoad(g));
            var w2 := Act(w1, TableStep);
            var w3 := Act(w2, RxDecide);
            var w4 := Act(w3, TableStep);
            FactsAfter(FactsAfter(FactsAfter(FactsAfter(f, w, w1, g.id), w1, w2, g.id), w2, w3, g.id), w3, w4, g.id) ==
            Note(f, w.tab.st.table[g.id], g)
  {
    hide Decide, Note;
    var s, t := w.tab.st.table[g.id], Decide(w.tab.st.table[g.id], g).next.value;
    var w1 := Act(w, RxLoad(g));
    assert w1.tab.st.rx.fifo == [Read(g.id)];
    var w2 := Act(w1, TableStep);
    assert w2.tab.st.rx.answers == [s] && w2.tab.st.rx.fifo == [] && w2.tab.st.table[g.id] == s;
    assert w2.tab.history.rxServed == w.tab.history.rxServed + [Read(g.id)];
    var w3 := Act(w2, RxDecide);
    assert w3.tab.st.rx.fifo == [Write(g.id, t)] && w3.rxLast == g && w3.tab.st.table[g.id] == s;
    assert w3.tab.history.rxServed == w2.tab.history.rxServed;
    var w4 := Act(w3, TableStep);
    assert w4.tab.history.rxServed == w3.tab.history.rxServed + [Write(g.id, t)] && w4.tab.st.table[g.id] == t;
  }

  lemma HandleIsNoted(moves: seq<Move>, g: Segment)
    requires Quiet(Play(moves)) && Decide(Play(moves).tab.st.table[g.id], g).next.Some?
    requires var s, t := Play(moves).tab.st.table[g.id], Decide(Play(moves).tab.st.table[g.id], g).next.value;
             s != CLOSED && s != SYN_SENT && s != SYN_RECEIVED && t != CLOSED && t != SYN_SENT && t != SYN_RECEIVED
    ensures FactsOf(moves + HandleMoves(g), g.id) == Note(FactsOf(moves, g.id), Play(moves).tab.st.table[g.id], g)
  {
    hide Play, Act, Quiet, Decide, Note, FactsAfter, FactsOf;
    var m1, m2, m3 := moves + [RxLoad(g)], moves + [RxLoad(g)] + [TableStep],
                      moves + [RxLoad(g)] + [TableStep] + [RxDecide];
    PlaySnoc(moves, RxLoad(g));
    PlaySnoc(m1, TableStep);
    PlaySnoc(m2, RxDecide);
    FactsSnoc(moves, RxLoad(g), g.id);
    FactsSnoc(m1, TableStep, g.id);
    FactsSnoc(m2, RxDecide, g.id);
    FactsSnoc(m3, TableStep, g.id);
    assert moves + HandleMoves(g) == m3 + [TableStep];
    HandleNotes(Play(moves), g, FactsOf(moves, g.id));
  }

  /** CLOSING is reached although the peer has acknowledged everything, our FIN included. */
  lemma AcknowledgedCloseIsClosing()
    ensures var moves := Handshake() + CloseMoves() + AckThenFin();
            Play(moves).tab.st.table[0] == CLOSING && FactsOf(moves, 0).ackedBefore && AllAcked(FactsOf(moves, 0))
  {
    hide Play, Quiet, Handshake, HandleMoves, CloseMoves, FactsOf, Handle;
    var fin := PLAIN.(fin := true, acksAll := false);
    var m := Handshake() + CloseMoves();
    HandshakeEstablishes();
    CloseIsPlayed(Handshake());
    PlaysHandle(m, PLAIN);
    HandleStores(Play(m), PLAIN);
    HandleIsNoted(m, PLAIN);
    var m' := m + HandleMoves(PLAIN);
    PlaysHandle(m', fin);
    HandleStores(Play(m'), fin);
    HandleIsNoted(m', fin);
    assert Handshake() + CloseMoves() + AckThenFin() == m' + HandleMoves(fin);
  }

  // ---------- A lock that is left behind ----------

  const STRAY_ACK := PLAIN.(inWindow := false)

  lemma StrayLeavesLock(w: World)
    requires Quiet(w) && w.tab.st.table[0] == ESTABLISHED
    ensures var z := Act(Act(Act(w, RxLoad(STRAY_ACK)), TableStep), RxDecide);
            && Blocks(z.tab.st.rx, 0) && z.tab.st.rx.fifo == [] && z.tab.st.rx.deferred.None?
            && z.txWaits.None? && z.tab.st.tx == w.tab.st.tx
  {
    var w1 := Act(w, RxLoad(STRAY_ACK));
    assert w1.tab.st.rx.fifo == [Read(0)];
    var w2 := Act(w1, TableStep);
    assert w2.tab.st.rx.answers == [ESTABLISHED] && w2.tab.st.rx.fifo == [];
  }

  lemma CloseStrands(w: World)
    requires Idle(w.tab.st.tx) && w.txWaits.None?
    requires Blocks(w.tab.st.rx, 0) && w.tab.st.rx.fifo == [] && w.tab.st.rx.deferred.None?
    ensures Stranded(Act(Act(w, TxClose(0)), TableStep).tab, Read(0))
  {
    var w1 := Act(w, TxClose(0));
    assert w1.tab.st.tx.fifo == [Read(0)];
  }

  /** A run from the start in which the application's close is never served: the session is established,
      one ACK outside the window leaves it locked, and no further segment comes. */
  lemma StrayAckStrandsClose()
    ensures Stranded(
              Play(Handshake() + [RxLoad(STRAY_ACK)] + [TableStep] + [RxDecide] + [TxClose(0)] + [TableStep]).tab,
              Read(0))
  {
    hide Play, Act, Handshake, Stranded, Blocks;
    HandshakeEstablishes();
    var m := Handshake();
    PlaySnoc(m, RxLoad(STRAY_ACK));
    PlaySnoc(m + [RxLoad(STRAY_ACK)], TableStep);
    PlaySnoc(m + [RxLoad(STRAY_ACK)] + [TableStep], RxDecide);
    PlaySnoc(m + [RxLoad(STRAY_ACK)] + [TableStep] + [RxDecide], TxClose(0));
    PlaySnoc(m + [RxLoad(STRAY_ACK)] + [TableStep] + [RxDecide] + [TxClose(0)], TableStep);
    StrayLeavesLock(Play(m));
    CloseStrands(Play(m + [RxLoad(STRAY_ACK)] + [TableStep] + [RxDecide]));
  }

  // ---------- The receive engine's switch ----------

  /** TRANSITION: the state to write back and the payload verdict. */
  method Transition(state: SessionState, g: Segment) returns (next: Option<SessionState>, dropped: Option<bool>)
    ensures Decision(next, dropped) == Decide(state, g)
  {
    next, dropped := Some(state), None;
    if g.rst {
      if (state == SYN_SENT && g.acksAll) || (state != SYN_SENT && g.inOrder) {
        next := Some(CLOSED);
      }
    } else if g.ack && !g.syn && !g.fin {
      if state == ESTABLISHED || state == SYN_RECEIVED || state == FIN_WAIT_1 || state == CLOSING || state == LAST_ACK {
        if g.inWindow {
          if g.length != 0 {
            dropped := Some(!(g.inOrder && g.fits));
          }
          if g.acksAll {
            match state
            case SYN_RECEIVED => next := Some(ESTABLISHED);
            case CLOSING => next := Some(TIME_WAIT);
            case LAST_ACK => next := Some(CLOSED);
            case _ =>
          }
        } else {
          next := None;
        }
      } else if g.length != 0 {
        dropped := Some(true);
      }
    } else if g.syn && !g.fin {
      if g.ack {
        if state == SYN_SENT {
          next := Some(if g.acksAll then ESTABLISHED else CLOSED);
        }
      } else if state == CLOSED || state == SYN_SENT {
        next := Some(SYN_RECEIVED);
      } else if state == SYN_RECEIVED && !g.repeatsSyn {
        next := Some(CLOSED);
      }
    } else if g.fin && g.ack && !g.syn {
      if (state == ESTABLISHED || state == FIN_WAIT_1 || state == FIN_WAIT_2) && g.inOrder {
        if g.length != 0 {
          dropped := Some(false);
        }
        if state == ESTABLISHED {
          next := Some(LAST_ACK);
        } else if g.acksAll {
          next := Some(TIME_WAIT);
        } else {
          next := Some(CLOSING);
        }
      } else if g.length != 0 {
        dropped := Some(true);
      }
    }
  }

  // ---------- The close handler ----------

  /** The part of the connection handler that opens and closes sessions. */
  class TxAppConnectionHandler {
    var closing: Option<SessionId>
    // streams
    var tableRequests: seq<Request>
    var synEvents: seq<SessionId>
    var finEvents: seq<SessionId>

    constructor ()
      ensures closing == None && tableRequests == [] && synEvents == [] && finEvents == []
    {
      closing, tableRequests, synEvents, finEvents := None, [], [], [];
    }

    /** IDLE: the look-up found or made a session. */
    method OpenConn(id: SessionId)
      requires closing.None?
      modifies this
      ensures tableRequests == old(tableRequests) + [Write(id, SYN_SENT)] && synEvents == old(synEvents) + [id]
      ensures closing == None && finEvents == old(finEvents)
    {
      synEvents := synEvents + [id];
      tableRequests := tableRequests + [Write(id, SYN_SENT)];
    }

    /** IDLE: the application closes a session. */
    method CloseConn(id: SessionId)
      requires closing.None?
      modifies this
      ensures tableRequests == old(tableRequests) + [Read(id)] && closing == Some(id)
      ensures synEvents == old(synEvents) && finEvents == old(finEvents)
    {
      tableRequests := tableRequests + [Read(id)];
      closing := Some(id);
    }

    /** CLOSE_CONN: write the state back whatever it is, and send a FIN if there is something to close. */
    method CloseRsp(state: SessionState)
      requires closing.Some?
      modifies this
      ensures tableRequests == old(tableRequests) + [Write(old(closing.value), Close(state))] && closing == None
      ensures finEvents ==
              old(finEvents) + (if state == ESTABLISHED || state == FIN_WAIT_1 then [old(closing.value)] else [])
      ensures synEvents == old(synEvents)
    {
      var id, next := closing.value, state;
      if state == ESTABLISHED || state == FIN_WAIT_1 {
        next := FIN_WAIT_1;
        finEvents := finEvents + [id];
      }
      tableRequests := tableRequests + [Write(id, next)];
      closing := None;
    }
  }
}
