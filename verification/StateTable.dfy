/** The TCP state table: two clients that read, decide and write back, a timer that closes, and
    read-only look-ups, all served by one module that takes one request a step.

    A read locks its session for the client until the client's next write. A request that meets
    the other client's lock is put aside in a register and tried again when nothing else is
    there to serve.
 */
module StateTable {
  import opened Words

  datatype SessionState =
    | CLOSED | SYN_SENT | SYN_RECEIVED | ESTABLISHED | FIN_WAIT_1 | FIN_WAIT_2 | CLOSING | TIME_WAIT | LAST_ACK

  datatype Request = Read(id: SessionId) | Write(id: SessionId, state: SessionState)

  /** One client's stream, its put-aside request, its lock and its answers. */
  datatype Client = Client(
    fifo: seq<Request>, deferred: Option<Request>, locked: bool, lockedId: SessionId, answers: seq<SessionState>)

  datatype Timer = Timer(fifo: seq<SessionId>, deferred: Option<SessionId>)
  datatype LookUps = LookUps(fifo: seq<SessionId>, answers: seq<SessionState>)

  type Table = s: seq<SessionState> | |s| == MAX_SESSIONS witness seq(MAX_SESSIONS, i => CLOSED)

  datatype State = State(
    table: Table, tx: Client, rx: Client, lookUps: LookUps, timer: Timer, releases: seq<SessionId>)

  /** What the clients have submitted and had served, and the value each last read. */
  datatype History = History(
    txSubmitted: seq<Request>, txServed: seq<Request>, txSeen: SessionState,
    rxSubmitted: seq<Request>, rxServed: seq<Request>, rxSeen: SessionState)

  datatype System = System(st: State, history: History)

  // ---------- One step ----------

  predicate Blocks(other: Client, id: SessionId) {
    other.locked && other.lockedId == id
  }

  function Granted(c: Client, table: Table, r: Request): Client {
    match r
    case Read(id) => c.(locked := true, lockedId := id, answers := c.answers + [table[id]])
    case Write(_, _) => c.(locked := false)
  }

  function Written(table: Table, r: Request): Table {
    match r
    case Read(_) => table
    case Write(id, state) => table[r.id := state]
  }

  function Released(releases: seq<SessionId>, r: Request): seq<SessionId> {
    if r.Write? && r.state == CLOSED then releases + [r.id] else releases
  }

  ghost function ServeTx(y: System, r: Request): System {
    var s, h := y.st, y.history;
    System(s.(table := Written(s.table, r), tx := Granted(s.tx, s.table, r)),
           h.(txServed := h.txServed + [r], txSeen := if r.Read? then s.table[r.id] else h.txSeen))
  }

  /** A write of CLOSED by the RX engine also has the session released. */
  ghost function ServeRx(y: System, r: Request): System {
    var s, h := y.st, y.history;
    System(s.(table := Written(s.table, r), rx := Granted(s.rx, s.table, r), releases := Released(s.releases, r)),
           h.(rxServed := h.rxServed + [r], rxSeen := if r.Read? then s.table[r.id] else h.rxSeen))
  }

  ghost function ServeTimer(y: System, id: SessionId): System {
    y.(st := y.st.(table := y.st.table[id := CLOSED], releases := y.st.releases + [id]))
  }

  ghost function TakeTx(y: System): System
    requires y.st.tx.fifo != []
  {
    var r := y.st.tx.fifo[0];
    var y' := y.(st := y.st.(tx := y.st.tx.(fifo := y.st.tx.fifo[1..])));
    if Blocks(y.st.rx, r.id) then y'.(st := y'.st.(tx := y'.st.tx.(deferred := Some(r))))
    else ServeTx(y', r)
  }

  ghost function TakeRx(y: System): System
    requires y.st.rx.fifo != []
  {
    var r := y.st.rx.fifo[0];
    var y' := y.(st := y.st.(rx := y.st.rx.(fifo := y.st.rx.fifo[1..])));
    if Blocks(y.st.tx, r.id) then y'.(st := y'.st.(rx := y'.st.rx.(deferred := Some(r))))
    else ServeRx(y', r)
  }

  ghost function TakeTimer(y: System): System
    requires y.st.timer.fifo != []
  {
    var id := y.st.timer.fifo[0];
    var y' := y.(st := y.st.(timer := y.st.timer.(fifo := y.st.timer.fifo[1..])));
    if Blocks(y.st.rx, id) || Blocks(y.st.tx, id) then y'.(st := y'.st.(timer := y'.st.timer.(deferred := Some(id))))
    else ServeTimer(y', id)
  }

  ghost function LookUp(y: System): System
    requires y.st.lookUps.fifo != []
  {
    var l := y.st.lookUps;
    y.(st := y.st.(lookUps := LookUps(l.fifo[1..], l.answers + [y.st.table[l.fifo[0]]])))
  }

  ghost function RetryTx(y: System): System
    requires y.st.tx.deferred.Some?
  {
    var r := y.st.tx.deferred.value;
    if Blocks(y.st.rx, r.id) then y
    else ServeTx(y.(st := y.st.(tx := y.st.tx.(deferred := None))), r)
  }

  ghost function RetryRx(y: System): System
    requires y.st.rx.deferred.Some?
  {
    var r := y.st.rx.deferred.value;
    if Blocks(y.st.tx, r.id) then y
    else ServeRx(y.(st := y.st.(rx := y.st.rx.(deferred := None))), r)
  }

  ghost function RetryTimer(y: System): System
    requires y.st.timer.deferred.Some?
  {
    var id := y.st.timer.deferred.value;
    if Blocks(y.st.rx, id) || Blocks(y.st.tx, id) then y
    else ServeTimer(y.(st := y.st.(timer := y.st.timer.(deferred := None))), id)
  }

  /** The order in which one step looks for something to do. */
  ghost function Step(y: System): System {
    var s := y.st;
    if s.tx.fifo != [] && s.tx.deferred.None? then TakeTx(y)
    else if s.lookUps.fifo != [] then LookUp(y)
    else if s.rx.fifo != [] && s.rx.deferred.None? then TakeRx(y)
    else if s.timer.fifo != [] && s.timer.deferred.None? then TakeTimer(y)
    else if s.tx.deferred.Some? then RetryTx(y)
    else if s.rx.deferred.Some? then RetryRx(y)
    else if s.timer.deferred.Some? then RetryTimer(y)
    else y
  }

  // ---------- Runs ----------

  datatype Action =
    | Serve | SubmitTx(tx: Request) | SubmitRx(rx: Request) | AskLookUp(lookUp: SessionId) | Expire(timer: SessionId)

  ghost function Next(y: System, a: Action): System {
    var s, h := y.st, y.history;
    match a
    case Serve => Step(y)
    case SubmitTx(r) => System(s.(tx := s.tx.(fifo := s.tx.fifo + [r])), h.(txSubmitted := h.txSubmitted + [r]))
    case SubmitRx(r) => System(s.(rx := s.rx.(fifo := s.rx.fifo + [r])), h.(rxSubmitted := h.rxSubmitted + [r]))
    case AskLookUp(id) => y.(st := s.(lookUps := s.lookUps.(fifo := s.lookUps.fifo + [id])))
    case Expire(id) => y.(st := s.(timer := s.timer.(fifo := s.timer.fifo + [id])))
  }

  ghost function Initial(): System {
    var idle := Client([], None, false, 0, []);
    System(State(seq(MAX_SESSIONS, i => CLOSED), idle, idle, LookUps([], []), Timer([], None), []),
           History([], [], CLOSED, [], [], CLOSED))
  }

  ghost function Run(actions: seq<Action>): System {
    if actions == [] then Initial()
    else Next(Run(actions[..|actions| - 1]), actions[|actions| - 1])
  }

  // ---------- Mutual exclusion and atomicity ----------

  ghost function Pending(c: Client): seq<Request> {
    (if c.deferred.Some? then [c.deferred.value] else []) + c.fifo
  }

  /** The clients never lock the same session; a locked session still has the value its client
      read; every request submitted has been served once, or waits, in order. */
  ghost predicate Inv(y: System) {
    var s, h := y.st, y.history;
    && !(s.tx.locked && s.rx.locked && s.tx.lockedId == s.rx.lockedId)
    && (s.tx.locked ==> s.table[s.tx.lockedId] == h.txSeen)
    && (s.rx.locked ==> s.table[s.rx.lockedId] == h.rxSeen)
    && h.txSubmitted == h.txServed + Pending(s.tx)
    && h.rxSubmitted == h.rxServed + Pending(s.rx)
  }

  lemma ServeTxKeeps(y: System, r: Request)
    requires Inv(y.(history := y.history.(txServed := y.history.txServed + [r])))
    requires !Blocks(y.st.rx, r.id)
    ensures Inv(ServeTx(y, r))
  {
    hide Pending;
    assert Pending(ServeTx(y, r).st.tx) == Pending(y.st.tx) by { PendingIs(y.st.tx, ServeTx(y, r).st.tx); }
  }

  lemma ServeRxKeeps(y: System, r: Request)
    requires Inv(y.(history := y.history.(rxServed := y.history.rxServed + [r])))
    requires !Blocks(y.st.tx, r.id)
    ensures Inv(ServeRx(y, r))
  {
    hide Pending;
    assert Pending(ServeRx(y, r).st.rx) == Pending(y.st.rx) by { PendingIs(y.st.rx, ServeRx(y, r).st.rx); }
  }

  lemma PendingIs(c: Client, d: Client)
    requires c.fifo == d.fifo && c.deferred == d.deferred
    ensures Pending(c) == Pending(d)
  {
  }

  lemma TakeTxKeeps(y: System)
    requires Inv(y) && y.st.tx.fifo != [] && y.st.tx.deferred.None?
    ensures Inv(TakeTx(y))
  {
    hide ServeTx;
    var r, c := y.st.tx.fifo[0], y.st.tx;
    assert Pending(c) == [r] + Pending(c.(fifo := c.fifo[1..]));
    if Blocks(y.st.rx, r.id) {
      assert Pending(c) == Pending(c.(fifo := c.fifo[1..], deferred := Some(r)));
    } else {
      assert y.history.txServed + Pending(c) == (y.history.txServed + [r]) + Pending(c.(fifo := c.fifo[1..]));
      ServeTxKeeps(y.(st := y.st.(tx := c.(fifo := c.fifo[1..]))), r);
    }
  }

  lemma TakeRxKeeps(y: System)
    requires Inv(y) && y.st.rx.fifo != [] && y.st.rx.deferred.None?
    ensures Inv(TakeRx(y))
  {
    hide ServeRx;
    var r, c := y.st.rx.fifo[0], y.st.rx;
    assert Pending(c) == [r] + Pending(c.(fifo := c.fifo[1..]));
    if Blocks(y.st.tx, r.id) {
      assert Pending(c) == Pending(c.(fifo := c.fifo[1..], deferred := Some(r)));
    } else {
      assert y.history.rxServed + Pending(c) == (y.history.rxServed + [r]) + Pending(c.(fifo := c.fifo[1..]));
      ServeRxKeeps(y.(st := y.st.(rx := c.(fifo := c.fifo[1..]))), r);
    }
  }

  lemma RetryTxKeeps(y: System)
    requires Inv(y) && y.st.tx.deferred.Some?
    ensures Inv(RetryTx(y))
  {
    hide ServeTx;
    var r, c := y.st.tx.deferred.value, y.st.tx;
    if !Blocks(y.st.rx, r.id) {
      assert Pending(c) == [r] + Pending(c.(deferred := None));
      assert y.history.txServed + Pending(c) == (y.history.txServed + [r]) + Pending(c.(deferred := None));
      ServeTxKeeps(y.(st := y.st.(tx := c.(deferred := None))), r);
    }
  }

  lemma RetryRxKeeps(y: System)
    requires Inv(y) && y.st.rx.deferred.Some?
    ensures Inv(RetryRx(y))
  {
    hide ServeRx;
    var r, c := y.st.rx.deferred.value, y.st.rx;
    if !Blocks(y.st.tx, r.id) {
      assert Pending(c) == [r] + Pending(c.(deferred := None));
      assert y.history.rxServed + Pending(c) == (y.history.rxServed + [r]) + Pending(c.(deferred := None));
      ServeRxKeeps(y.(st := y.st.(rx := c.(deferred := None))), r);
    }
  }

  lemma TimerKeeps(y: System)
    requires Inv(y)
    ensures y.st.timer.fifo != [] ==> Inv(TakeTimer(y))
    ensures y.st.timer.deferred.Some? ==> Inv(RetryTimer(y))
  {
    hide Pending;
  }

  lemma ServeKeeps(y: System)
    requires Inv(y)
    ensures Inv(Step(y))
  {
    hide TakeTx, TakeRx, TakeTimer, RetryTx, RetryRx, RetryTimer, Pending;
    var s := y.st;
    if s.tx.fifo != [] && s.tx.deferred.None? {
      TakeTxKeeps(y);
    } else if s.lookUps.fifo != [] {
    } else if s.rx.fifo != [] && s.rx.deferred.None? {
      TakeRxKeeps(y);
    } else if s.timer.fifo != [] && s.timer.deferred.None? {
      TimerKeeps(y);
    } else if s.tx.deferred.Some? {
      RetryTxKeeps(y);
    } else if s.rx.deferred.Some? {
      RetryRxKeeps(y);
    } else if s.timer.deferred.Some? {
      TimerKeeps(y);
    }
  }

  lemma StepKeeps(y: System, a: Action)
    requires Inv(y)
    ensures Inv(Next(y, a))
  {
    hide Step;
    match a
    case Serve => ServeKeeps(y);
    case SubmitTx(r) => assert Pending(y.st.tx.(fifo := y.st.tx.fifo + [r])) == Pending(y.st.tx) + [r];
    case SubmitRx(r) => assert Pending(y.st.rx.(fifo := y.st.rx.fifo + [r])) == Pending(y.st.rx) + [r];
    case AskLookUp(_) =>
    case Expire(_) =>
  }

  /** In every run. */
  lemma {:induction false} RunKeeps(actions: seq<Action>)
    ensures Inv(Run(actions))
  {
    hide Inv, Next;
    if actions == [] {
      InitialHolds();
    } else {
      RunKeeps(actions[..|actions| - 1]);
      StepKeeps(Run(actions[..|actions| - 1]), actions[|actions| - 1]);
    }
  }

  lemma InitialHolds()
    ensures Inv(Initial())
  {
  }

  /** From a client's read to its next served request - however many steps of whomever lie between -
      nobody else, neither the other client nor a timer nor a look-up, changes the session or ends
      the lock. */
  lemma {:induction false} HeldSessionIsStable(y: System, actions: seq<Action>)
    requires Inv(y)
    ensures Inv(Continue(y, actions)) && StaysHeld(y, Continue(y, actions))
  {
    hide Inv, Next;
    if actions != [] {
      var z := Continue(y, actions[..|actions| - 1]);
      HeldSessionIsStable(y, actions[..|actions| - 1]);
      StepKeeps(z, actions[|actions| - 1]);
      StepServes(z, actions[|actions| - 1]);
      HeldStays(z, Next(z, actions[|actions| - 1]));
    }
  }

  ghost predicate StaysHeld(y: System, z: System) {
    && |z.history.txServed| >= |y.history.txServed| && |z.history.rxServed| >= |y.history.rxServed|
    && (y.st.tx.locked && |z.history.txServed| == |y.history.txServed| ==>
          z.st.tx.locked && z.st.tx.lockedId == y.st.tx.lockedId && z.history.txSeen == y.history.txSeen &&
          z.st.table[y.st.tx.lockedId] == y.st.table[y.st.tx.lockedId])
    && (y.st.rx.locked && |z.history.rxServed| == |y.history.rxServed| ==>
          z.st.rx.locked && z.st.rx.lockedId == y.st.rx.lockedId && z.history.rxSeen == y.history.rxSeen &&
          z.st.table[y.st.rx.lockedId] == y.st.table[y.st.rx.lockedId])
  }

  /** What one step can have served: nothing, or one request of one client. */
  ghost predicate ServedOne(y: System, z: System) {
    || (z.history.txServed == y.history.txServed && z.history.rxServed == y.history.rxServed &&
        z.st.tx.locked == y.st.tx.locked && z.st.tx.lockedId == y.st.tx.lockedId &&
        z.st.rx.locked == y.st.rx.locked && z.st.rx.lockedId == y.st.rx.lockedId &&
        z.history.txSeen == y.history.txSeen && z.history.rxSeen == y.history.rxSeen)
    || (|z.history.txServed| == |y.history.txServed| + 1 && z.history.rxServed == y.history.rxServed &&
        z.st.rx.locked == y.st.rx.locked && z.st.rx.lockedId == y.st.rx.lockedId &&
        z.history.rxSeen == y.history.rxSeen)
    || (|z.history.rxServed| == |y.history.rxServed| + 1 && z.history.txServed == y.history.txServed &&
        z.st.tx.locked == y.st.tx.locked && z.st.tx.lockedId == y.st.tx.lockedId &&
        z.history.txSeen == y.history.txSeen)
  }

  lemma StepServes(y: System, a: Action)
    ensures ServedOne(y, Next(y, a))
  {
  }

  lemma HeldStays(y: System, z: System)
    requires Inv(y) && Inv(z) && ServedOne(y, z)
    ensures StaysHeld(y, z)
  {
    hide Pending;
  }

  // ---------- No deadlock ----------

  /** After a read of a session comes a write to that session; `held` is the session read last. */
  ghost predicate Disciplined(q: seq<Request>, held: Option<SessionId>) {
    q == [] ||
    (if held.Some? then q[0].Write? && q[0].id == held.value && Disciplined(q[1..], None)
     else Disciplined(q[1..], if q[0].Read? then Some(q[0].id) else None))
  }

  ghost function Held(c: Client): Option<SessionId> {
    if c.locked then Some(c.lockedId) else None
  }

  ghost predicate Orderly(y: System) {
    Disciplined(Pending(y.st.tx), Held(y.st.tx)) && Disciplined(Pending(y.st.rx), Held(y.st.rx))
  }

  /** A request is put aside only while it is blocked by a lock that can still be released. */
  lemma DeferredHoldsNothing(c: Client, other: Client)
    requires Disciplined(Pending(c), Held(c)) && c.deferred.Some?
    requires !(c.locked && other.locked && c.lockedId == other.lockedId)
    ensures Blocks(other, c.deferred.value.id) ==> !c.locked
  {
    assert Pending(c)[0] == c.deferred.value;
  }

  lemma DisciplinedServes(c: Client, r: Request, rest: Client, table: Table)
    requires Disciplined(Pending(c), Held(c)) && Pending(c) == [r] + Pending(rest)
    requires rest.locked == c.locked && rest.lockedId == c.lockedId
    ensures Disciplined(Pending(Granted(rest, table, r)), Held(Granted(rest, table, r)))
  {
    PendingIs(rest, Granted(rest, table, r));
    assert Pending(c)[0] == r && Pending(c)[1..] == Pending(rest);
    hide Pending;
  }

  /** A client submits a request that its discipline allows. */
  ghost predicate OrderlyStep(y: System, a: Action) {
    && (a.SubmitTx? ==> Disciplined(Pending(y.st.tx) + [a.tx], Held(y.st.tx)))
    && (a.SubmitRx? ==> Disciplined(Pending(y.st.rx) + [a.rx], Held(y.st.rx)))
  }

  lemma OrderlyTx(y: System)
    requires Orderly(y)
    ensures y.st.tx.fifo != [] && y.st.tx.deferred.None? ==> Orderly(TakeTx(y))
    ensures y.st.tx.deferred.Some? ==> Orderly(RetryTx(y))
  {
    hide Disciplined;
    var c := y.st.tx;
    if c.deferred.Some? {
      var rest := c.(deferred := None);
      assert Pending(c) == [c.deferred.value] + Pending(rest);
      DisciplinedServes(c, c.deferred.value, rest, y.st.table);
    } else if c.fifo != [] {
      var rest := c.(fifo := c.fifo[1..]);
      assert Pending(c) == [c.fifo[0]] + Pending(rest);
      assert Pending(c) == Pending(rest.(deferred := Some(c.fifo[0])));
      DisciplinedServes(c, c.fifo[0], rest, y.st.table);
    }
  }

  lemma OrderlyRx(y: System)
    requires Orderly(y)
    ensures y.st.rx.fifo != [] && y.st.rx.deferred.None? ==> Orderly(TakeRx(y))
    ensures y.st.rx.deferred.Some? ==> Orderly(RetryRx(y))
  {
    hide Disciplined;
    var c := y.st.rx;
    if c.deferred.Some? {
      var rest := c.(deferred := None);
      assert Pending(c) == [c.deferred.value] + Pending(rest);
      DisciplinedServes(c, c.deferred.value, rest, y.st.table);
    } else if c.fifo != [] {
      var rest := c.(fifo := c.fifo[1..]);
      assert Pending(c) == [c.fifo[0]] + Pending(rest);
      assert Pending(c) == Pending(rest.(deferred := Some(c.fifo[0])));
      DisciplinedServes(c, c.fifo[0], rest, y.st.table);
    }
  }

  lemma OrderlyKeeps(y: System, a: Action)
    requires Orderly(y) && OrderlyStep(y, a)
    ensures Orderly(Next(y, a))
  {
    hide TakeTx, TakeRx, RetryTx, RetryRx, Disciplined;
    OrderlyTx(y);
    OrderlyRx(y);
    match a
    case SubmitTx(r) => assert Pending(y.st.tx.(fifo := y.st.tx.fifo + [r])) == Pending(y.st.tx) + [r];
    case SubmitRx(r) => assert Pending(y.st.rx.(fifo := y.st.rx.fifo + [r])) == Pending(y.st.rx) + [r];
    case _ =>
  }

  /** A run in which every read is followed by a write to the same session. */
  ghost predicate OrderlyRun(actions: seq<Action>) {
    actions == [] ||
    (OrderlyRun(actions[..|actions| - 1]) && OrderlyStep(Run(actions[..|actions| - 1]), actions[|actions| - 1]))
  }

  /** In such runs a client whose request is put aside holds nothing. */
  ghost predicate Patient(y: System) {
    && Inv(y) && Orderly(y)
    && (y.st.tx.deferred.Some? ==> !y.st.tx.locked)
    && (y.st.rx.deferred.Some? ==> !y.st.rx.locked)
  }

  lemma ServesPatiently(y: System)
    requires Patient(y)
    ensures var z := Step(y).st;
            && (z.tx.deferred.Some? ==> !z.tx.locked)
            && (z.rx.deferred.Some? ==> !z.rx.locked)
  {
    hide Disciplined, Pending;
    ServeKeeps(y);
    OrderlyKeeps(y, Serve);
    var z := Step(y);
    if z.st.tx.deferred.Some? { DeferredHoldsNothing(z.st.tx, z.st.rx); }
    if z.st.rx.deferred.Some? { DeferredHoldsNothing(z.st.rx, z.st.tx); }
  }

  lemma PatientKeeps(y: System, a: Action)
    requires Patient(y) && OrderlyStep(y, a)
    ensures Patient(Next(y, a))
  {
    StepKeeps(y, a);
    OrderlyKeeps(y, a);
    if a.Serve? { ServesPatiently(y); }
    hide Inv, Orderly, Step;
  }

  lemma {:induction false} RunIsPatient(actions: seq<Action>)
    requires OrderlyRun(actions)
    ensures Patient(Run(actions))
  {
    hide Next, OrderlyStep, Patient;
    if actions == [] {
      InitiallyPatient();
    } else {
      RunIsPatient(actions[..|actions| - 1]);
      PatientKeeps(Run(actions[..|actions| - 1]), actions[|actions| - 1]);
    }
  }

  lemma InitiallyPatient()
    ensures Patient(Initial())
  {
  }

  /** In every run in which every read is followed by a write to the same session, the clients never
      wait for each other: when a request of one is blocked, the other holds the lock and is itself
      free to go on. */
  lemma NoDeadlock(actions: seq<Action>)
    requires OrderlyRun(actions)
    ensures var s := Run(actions).st;
            && (s.tx.deferred.Some? && Blocks(s.rx, s.tx.deferred.value.id) ==>
                  !s.tx.locked && s.rx.locked && s.rx.deferred.None?)
            && (s.rx.deferred.Some? && Blocks(s.tx, s.rx.deferred.value.id) ==>
                  !s.rx.locked && s.tx.locked && s.tx.deferred.None?)
  {
    RunIsPatient(actions);
    hide Inv, Orderly, Run, OrderlyRun;
  }

  // ---------- Everything is served ----------

  /** The requests that still have to be served. */
  ghost function Waiting(s: State): nat {
    |Pending(s.tx)| + |Pending(s.rx)| + |s.lookUps.fifo| + |s.timer.fifo| + (if s.timer.deferred.Some? then 1 else 0)
  }

  /** A client has read a session and has not yet submitted the write it owes. */
  ghost predicate Owes(s: State) {
    (s.tx.locked && Pending(s.tx) == []) || (s.rx.locked && Pending(s.rx) == [])
  }

  ghost function PutAside(s: State): nat {
    (if s.tx.deferred.Some? then 1 else 0) + (if s.rx.deferred.Some? then 1 else 0) +
    (if s.timer.deferred.Some? then 1 else 0)
  }

  /** While no client holds a lock, every step serves one of the waiting requests. */
  lemma UnlockedStepServes(y: System)
    requires !y.st.tx.locked && !y.st.rx.locked && Waiting(y.st) > 0
    ensures Waiting(Step(y).st) == Waiting(y.st) - 1
  {
    hide Waiting, TakeTx, TakeRx, TakeTimer, RetryTx, RetryRx, RetryTimer, LookUp;
    UnlockedTakes(y);
    UnlockedRetries(y);
    SomethingWaits(y.st);
  }

  lemma UnlockedTakes(y: System)
    requires !y.st.tx.locked && !y.st.rx.locked
    ensures y.st.tx.fifo != [] && y.st.tx.deferred.None? ==> Waiting(TakeTx(y).st) == Waiting(y.st) - 1
    ensures y.st.rx.fifo != [] && y.st.rx.deferred.None? ==> Waiting(TakeRx(y).st) == Waiting(y.st) - 1
    ensures y.st.timer.fifo != [] && y.st.timer.deferred.None? ==> Waiting(TakeTimer(y).st) == Waiting(y.st) - 1
    ensures y.st.lookUps.fifo != [] ==> Waiting(LookUp(y).st) == Waiting(y.st) - 1
  {
  }

  lemma UnlockedRetries(y: System)
    requires !y.st.tx.locked && !y.st.rx.locked
    ensures y.st.tx.deferred.Some? ==> Waiting(RetryTx(y).st) == Waiting(y.st) - 1
    ensures y.st.rx.deferred.Some? ==> Waiting(RetryRx(y).st) == Waiting(y.st) - 1
    ensures y.st.timer.deferred.Some? ==> Waiting(RetryTimer(y).st) == Waiting(y.st) - 1
  {
  }

  lemma SomethingWaits(s: State)
    requires Waiting(s) > 0
    ensures s.tx.fifo != [] || s.tx.deferred.Some? || s.rx.fifo != [] || s.rx.deferred.Some? ||
            s.lookUps.fifo != [] || s.timer.fifo != [] || s.timer.deferred.Some?
  {
  }

  /** A step serves a request or puts one aside; it never tries one again in vain. */
  lemma StepServesOrPutsAside(y: System)
    requires Patient(y) && Waiting(y.st) > 0 && !Owes(y.st)
    ensures Advances(y, Step(y))
  {
    hide Inv, Orderly, TakeTx, TakeRx, TakeTimer, RetryTx, RetryRx, RetryTimer, Advances;
    var s := y.st;
    if s.tx.fifo != [] && s.tx.deferred.None? {
      TakeAdvances(y);
    } else if s.lookUps.fifo != [] {
      LookUpAdvances(y);
    } else if s.rx.fifo != [] && s.rx.deferred.None? {
      TakeAdvances(y);
    } else if s.timer.fifo != [] && s.timer.deferred.None? {
      TimerAdvances(y);
    } else {
      RetryAdvances(y);
    }
  }

  ghost predicate Advances(y: System, z: System) {
    || Waiting(z.st) == Waiting(y.st) - 1
    || (Waiting(z.st) == Waiting(y.st) && PutAside(z.st) == PutAside(y.st) + 1 && !Owes(z.st))
  }

  lemma TakeAdvances(y: System)
    requires !Owes(y.st)
    ensures y.st.tx.fifo != [] && y.st.tx.deferred.None? ==> Advances(y, TakeTx(y))
    ensures y.st.rx.fifo != [] && y.st.rx.deferred.None? ==> Advances(y, TakeRx(y))
  {
  }

  lemma LookUpAdvances(y: System)
    requires y.st.lookUps.fifo != []
    ensures Advances(y, LookUp(y))
  {
  }

  lemma TimerAdvances(y: System)
    requires !Owes(y.st) && y.st.timer.fifo != [] && y.st.timer.deferred.None?
    ensures Advances(y, TakeTimer(y))
  {
  }

  /** A request is tried again only when its blocker has nothing left to submit - and then, as nobody
      owes a write, nothing is locked. */
  lemma RetryAdvances(y: System)
    requires Patient(y) && !Owes(y.st) && Waiting(y.st) > 0 && y.st.lookUps.fifo == []
    requires (y.st.tx.fifo != [] ==> y.st.tx.deferred.Some?) && (y.st.rx.fifo != [] ==> y.st.rx.deferred.Some?)
    requires y.st.timer.fifo != [] ==> y.st.timer.deferred.Some?
    ensures Advances(y, Step(y))
  {
    hide Inv, Orderly;
    assert !y.st.tx.locked && !y.st.rx.locked;
    UnlockedStepServes(y);
  }

  ghost function Serves(y: System, n: nat): System
    decreases n
  {
    if n == 0 then y else Serves(Step(y), n - 1)
  }

  /** Within four steps a waiting request is served, as no more than three can be put aside. */
  lemma {:induction false} SomethingIsServed(y: System) returns (n: nat)
    requires Patient(y) && Waiting(y.st) > 0 && !Owes(y.st)
    ensures n <= 4 - PutAside(y.st)
    ensures Patient(Serves(y, n)) && Waiting(Serves(y, n).st) == Waiting(y.st) - 1
    decreases 3 - PutAside(y.st)
  {
    hide Patient, Waiting, Owes, Step;
    StepServesOrPutsAside(y);
    PatientKeeps(y, Serve);
    if Waiting(Step(y).st) == Waiting(y.st) - 1 {
      n := 1;
      assert Serves(Step(y), 0) == Step(y);
    } else {
      n := SomethingIsServed(Step(y));
      n := n + 1;
    }
  }

  lemma {:induction false} ServesJoin(y: System, m: nat, n: nat)
    ensures Serves(Serves(y, m), n) == Serves(y, m + n)
    decreases m
  {
    hide Step;
    if m > 0 { ServesJoin(Step(y), m - 1, n); }
  }

  /** Nobody starves: from every state of an orderly run, four steps for each waiting request serve
      them all, unless it comes to a client that still owes the write for its read. */
  lemma {:induction false} EverythingIsServed(y: System) returns (n: nat)
    requires Patient(y)
    ensures n <= 4 * Waiting(y.st)
    ensures Waiting(Serves(y, n).st) == 0 || Owes(Serves(y, n).st)
    decreases Waiting(y.st)
  {
    hide Patient, Owes, Step, Waiting, Serves;
    n := 0;
    ServesNone(y);
    if Waiting(y.st) > 0 && !Owes(y.st) {
      var m := SomethingIsServed(y);
      var k := EverythingIsServed(Serves(y, m));
      ServesJoin(y, m, k);
      n := m + k;
    }
  }

  lemma ServesNone(y: System)
    ensures Serves(y, 0) == y
  {
  }

  // ---------- What one step does to the clients ----------

  datatype Effect =
    | NoEffect
    | TxServed(tx: Request)
    | RxServed(rx: Request)
    | TimerServed(timer: SessionId)
    | LookedUp(lookUp: SessionId)

  /** The client as its owner sees it: what waits, its lock, its answers. */
  ghost predicate SameView(c: Client, d: Client) {
    Pending(c) == Pending(d) && c.locked == d.locked && c.lockedId == d.lockedId && c.answers == d.answers
  }

  /** `d` is `c` after its oldest waiting request has been granted on this table. */
  ghost predicate GrantedTo(c: Client, d: Client, table: Table, r: Request) {
    && Pending(c) == [r] + Pending(d)
    && d.locked == r.Read? && (r.Read? ==> d.lockedId == r.id && d.answers == c.answers + [table[r.id]])
    && (r.Write? ==> d.answers == c.answers)
  }

  /** The expiries that wait to be served. */
  function Expiries(t: Timer): seq<SessionId> {
    (if t.deferred.Some? then [t.deferred.value] else []) + t.fifo
  }

  /** The states after a served request: changed only by a write, and only to what it says. */
  ghost predicate Stores(s: Table, t: Table, r: Request) {
    match r
    case Read(_) => t == s
    case Write(id, state) => t == s[id := state]
  }

  /** What was served of each client, and what each saw. */
  ghost predicate SameHistory(h: History, k: History) {
    && k.txServed == h.txServed && k.rxServed == h.rxServed && k.txSeen == h.txSeen && k.rxSeen == h.rxSeen
    && k.txSubmitted == h.txSubmitted && k.rxSubmitted == h.rxSubmitted
  }

  ghost predicate Does(y: System, z: System, e: Effect) {
    var s, t, h, k := y.st, z.st, y.history, z.history;
    match e
    case NoEffect =>
      && SameView(s.tx, t.tx) && SameView(s.rx, t.rx) && t.table == s.table && SameHistory(h, k)
      && Expiries(t.timer) == Expiries(s.timer) && t.lookUps == s.lookUps && t.releases == s.releases
    case TxServed(r) =>
      && GrantedTo(s.tx, t.tx, s.table, r) && SameView(s.rx, t.rx) && !Blocks(s.rx, r.id) && Stores(s.table, t.table, r)
      && SameHistory(h.(txServed := h.txServed + [r], txSeen := if r.Read? then s.table[r.id] else h.txSeen), k)
      && Expiries(t.timer) == Expiries(s.timer) && t.lookUps == s.lookUps && t.releases == s.releases
    case RxServed(r) =>
      && GrantedTo(s.rx, t.rx, s.table, r) && SameView(s.tx, t.tx) && !Blocks(s.tx, r.id) && Stores(s.table, t.table, r)
      && SameHistory(h.(rxServed := h.rxServed + [r], rxSeen := if r.Read? then s.table[r.id] else h.rxSeen), k)
      && Expiries(t.timer) == Expiries(s.timer) && t.lookUps == s.lookUps
      && t.releases == (if r == Write(r.id, CLOSED) then s.releases + [r.id] else s.releases)
    case TimerServed(id) =>
      && SameView(s.tx, t.tx) && SameView(s.rx, t.rx) && t.table == s.table[id := CLOSED] && SameHistory(h, k)
      && !Blocks(s.tx, id) && !Blocks(s.rx, id)
      && Expiries(s.timer) == [id] + Expiries(t.timer) && t.lookUps == s.lookUps && t.releases == s.releases + [id]
    case LookedUp(id) =>
      && SameView(s.tx, t.tx) && SameView(s.rx, t.rx) && t.table == s.table && SameHistory(h, k)
      && Expiries(t.timer) == Expiries(s.timer) && t.releases == s.releases
      && s.lookUps.fifo == [id] + t.lookUps.fifo && t.lookUps.answers == s.lookUps.answers + [s.table[id]]
  }

  lemma TxEffect(y: System) returns (e: Effect)
    ensures y.st.tx.fifo != [] && y.st.tx.deferred.None? ==> Does(y, TakeTx(y), e)
    ensures y.st.tx.deferred.Some? ==> Does(y, RetryTx(y), e)
  {
    var c := y.st.tx;
    e := NoEffect;
    if c.deferred.Some? {
      if !Blocks(y.st.rx, c.deferred.value.id) { e := TxServed(c.deferred.value); }
      assert Pending(c) == [c.deferred.value] + Pending(c.(deferred := None));
    } else if c.fifo != [] {
      var rest := c.(fifo := c.fifo[1..]);
      if !Blocks(y.st.rx, c.fifo[0].id) { e := TxServed(c.fifo[0]); }
      assert Pending(c) == [c.fifo[0]] + Pending(rest) == Pending(rest.(deferred := Some(c.fifo[0])));
    }
  }

  lemma RxEffect(y: System) returns (e: Effect)
    ensures y.st.rx.fifo != [] && y.st.rx.deferred.None? ==> Does(y, TakeRx(y), e)
    ensures y.st.rx.deferred.Some? ==> Does(y, RetryRx(y), e)
  {
    var c := y.st.rx;
    e := NoEffect;
    if c.deferred.Some? {
      if !Blocks(y.st.tx, c.deferred.value.id) { e := RxServed(c.deferred.value); }
      assert Pending(c) == [c.deferred.value] + Pending(c.(deferred := None));
    } else if c.fifo != [] {
      var rest := c.(fifo := c.fifo[1..]);
      if !Blocks(y.st.tx, c.fifo[0].id) { e := RxServed(c.fifo[0]); }
      assert Pending(c) == [c.fifo[0]] + Pending(rest) == Pending(rest.(deferred := Some(c.fifo[0])));
    }
  }

  lemma TimerEffect(y: System) returns (e: Effect)
    ensures y.st.timer.fifo != [] ==> y.st.timer.deferred.None? ==> Does(y, TakeTimer(y), e)
    ensures y.st.timer.deferred.Some? ==> Does(y, RetryTimer(y), e)
  {
    hide Pending;
    var t := y.st.timer;
    e := NoEffect;
    if t.deferred.Some? {
      var id := t.deferred.value;
      if !Blocks(y.st.rx, id) && !Blocks(y.st.tx, id) { e := TimerServed(id); }
    } else if t.fifo != [] {
      var id := t.fifo[0];
      if !Blocks(y.st.rx, id) && !Blocks(y.st.tx, id) { e := TimerServed(id); }
    }
  }

  /** Every step serves the oldest waiting request of one client, or one expiry, or one look-up, or
      nobody sees anything of it. */
  lemma StepEffect(y: System) returns (e: Effect)
    ensures Does(y, Step(y), e)
  {
    hide TakeTx, TakeRx, TakeTimer, RetryTx, RetryRx, RetryTimer, Pending;
    var s := y.st;
    e := NoEffect;
    if (s.tx.fifo != [] && s.tx.deferred.None?) ||
       (s.tx.deferred.Some? && s.lookUps.fifo == [] && !(s.rx.fifo != [] && s.rx.deferred.None?) &&
        !(s.timer.fifo != [] && s.timer.deferred.None?)) {
      e := TxEffect(y);
    } else if s.lookUps.fifo != [] {
      e := LookedUp(s.lookUps.fifo[0]);
    } else if s.rx.fifo != [] && s.rx.deferred.None? {
      e := RxEffect(y);
    } else if s.timer.fifo != [] && s.timer.deferred.None? {
      e := TimerEffect(y);
    } else if s.rx.deferred.Some? {
      e := RxEffect(y);
    } else if s.timer.deferred.Some? {
      e := TimerEffect(y);
    }
  }

  // ---------- Look-ups and releases over whole runs ----------

  /** What a step did, told from outside: by what grew or shrank. */
  ghost function EffectOf(y: System, z: System): Effect {
    if |z.history.txServed| > |y.history.txServed| then TxServed(z.history.txServed[|y.history.txServed|])
    else if |z.history.rxServed| > |y.history.rxServed| then RxServed(z.history.rxServed[|y.history.rxServed|])
    else if |Expiries(z.st.timer)| < |Expiries(y.st.timer)| then TimerServed(Expiries(y.st.timer)[0])
    else if |z.st.lookUps.fifo| < |y.st.lookUps.fifo| then LookedUp(y.st.lookUps.fifo[0])
    else NoEffect
  }

  lemma EffectIs(y: System, z: System, e: Effect)
    requires Does(y, z, e)
    ensures EffectOf(y, z) == e
  {
    hide Pending, Blocks;
  }

  /** What the steps of a run did, in order. */
  ghost function Effects(actions: seq<Action>): seq<Effect> {
    if actions == [] then []
    else
      var before, a := actions[..|actions| - 1], actions[|actions| - 1];
      Effects(before) + (if a.Serve? then [EffectOf(Run(before), Run(actions))] else [])
  }

  /** The sessions that are to be released: those the RX engine wrote CLOSED, and those that expired. */
  ghost function ToRelease(effects: seq<Effect>): seq<SessionId> {
    if effects == [] then []
    else
      var e := effects[|effects| - 1];
      ToRelease(effects[..|effects| - 1]) +
      (match e
       case RxServed(Write(id, CLOSED)) => [id]
       case TimerServed(id) => [id]
       case _ => [])
  }

  /** The look-ups asked for, those served, and what the table held for them when they were. */
  ghost function Asked(actions: seq<Action>): seq<SessionId> {
    if actions == [] then []
    else
      var a := actions[|actions| - 1];
      Asked(actions[..|actions| - 1]) + (if a.AskLookUp? then [a.lookUp] else [])
  }

  ghost function Looked(effects: seq<Effect>): seq<SessionId> {
    if effects == [] then []
    else
      var e := effects[|effects| - 1];
      Looked(effects[..|effects| - 1]) + (if e.LookedUp? then [e.lookUp] else [])
  }

  ghost function Found(actions: seq<Action>): seq<SessionState> {
    if actions == [] then []
    else
      var before, a := actions[..|actions| - 1], actions[|actions| - 1];
      var e := if a.Serve? then EffectOf(Run(before), Run(actions)) else NoEffect;
      Found(before) + (if e.LookedUp? then [Run(before).st.table[e.lookUp]] else [])
  }

  lemma EffectsSnoc(effects: seq<Effect>, e: Effect)
    ensures ToRelease(effects + [e]) ==
            ToRelease(effects) + (if e.RxServed? && e.rx == Write(e.rx.id, CLOSED) then [e.rx.id]
                                  else if e.TimerServed? then [e.timer] else [])
    ensures Looked(effects + [e]) == Looked(effects) + (if e.LookedUp? then [e.lookUp] else [])
  {
    assert (effects + [e])[..|effects|] == effects;
  }

  /** In every run: the releases are, in order, the sessions the RX engine wrote CLOSED and those that
      expired, each as it was served. Every look-up asked for is answered once, in order, with the
      state its session has at the moment it is served, or still waits. */
  lemma {:induction false} ReleasesAndLookUps(actions: seq<Action>)
    ensures var s := Run(actions).st;
            && s.releases == ToRelease(Effects(actions))
            && Asked(actions) == Looked(Effects(actions)) + s.lookUps.fifo
            && s.lookUps.answers == Found(actions)
            && |Found(actions)| == |Looked(Effects(actions))|
  {
    hide Next, ToRelease, Looked, EffectOf, Does;
    if actions == [] {
      NothingYet();
    } else {
      var before, a := actions[..|actions| - 1], actions[|actions| - 1];
      ReleasesAndLookUps(before);
      if a.Serve? {
        var e := ServeDoes(Run(before));
        EffectsSnoc(Effects(before), e);
        OneEffect(Run(before), Run(actions), e);
        hide Run;
        assert Effects(actions) == Effects(before) + [e];
      } else {
        OthersLeave(Run(before), a);
        assert Effects(actions) == Effects(before);
      }
    }
  }

  lemma ServeDoes(y: System) returns (e: Effect)
    ensures Does(y, Next(y, Serve), e) && EffectOf(y, Next(y, Serve)) == e
  {
    e := StepEffect(y);
    hide Does, EffectOf, Step;
    EffectIs(y, Step(y), e);
  }

  lemma NothingYet()
    ensures var s := Run([]).st; s.releases == [] && s.lookUps == LookUps([], [])
    ensures ToRelease([]) == [] && Looked([]) == []
  {
  }

  lemma OthersLeave(y: System, a: Action)
    requires !a.Serve?
    ensures var s, t := y.st, Next(y, a).st;
            && t.releases == s.releases && t.lookUps.answers == s.lookUps.answers
            && t.lookUps.fifo == s.lookUps.fifo + (if a.AskLookUp? then [a.lookUp] else [])
  {
  }

  lemma OneEffect(y: System, z: System, e: Effect)
    requires Does(y, z, e)
    ensures var s, t := y.st, z.st;
            && t.releases == s.releases + (if e.RxServed? && e.rx == Write(e.rx.id, CLOSED) then [e.rx.id]
                                           else if e.TimerServed? then [e.timer] else [])
            && s.lookUps.fifo == (if e.LookedUp? then [e.lookUp] else []) + t.lookUps.fifo
            && t.lookUps.answers == s.lookUps.answers + (if e.LookedUp? then [s.table[e.lookUp]] else [])
  {
    hide Pending, Blocks;
  }

  ghost function Continue(y: System, actions: seq<Action>): System {
    if actions == [] then y
    else Next(Continue(y, actions[..|actions| - 1]), actions[|actions| - 1])
  }

  /** The application's request waits for a lock of the RX engine, and the RX engine has nothing
      more to submit. */
  ghost predicate Stranded(y: System, r: Request) {
    && y.st.tx.deferred == Some(r) && Blocks(y.st.rx, r.id)
    && y.st.rx.fifo == [] && y.st.rx.deferred.None?
  }

  /** Without the discipline a lock can be left behind: if the RX engine reads a session, writes
      nothing and gets no further segment, the application's request is never served, however
      long everything else goes on. */
  lemma {:induction false} LeftLockStrandsRequest(y: System, r: Request, actions: seq<Action>)
    requires Stranded(y, r) && forall a <- actions :: !a.SubmitRx?
    ensures Stranded(Continue(y, actions), r)
  {
    if actions != [] {
      LeftLockStrandsRequest(y, r, actions[..|actions| - 1]);
      StrandedStep(Continue(y, actions[..|actions| - 1]), r, actions[|actions| - 1]);
    }
  }

  lemma StrandedStep(y: System, r: Request, a: Action)
    requires Stranded(y, r) && !a.SubmitRx?
    ensures Stranded(Next(y, a), r)
  {
  }

  // ---------- The module ----------

  class StateTableModule {
    const table: array<SessionState>
    var tx: Client
    var rx: Client
    var lookUps: LookUps
    var timer: Timer
    var releases: seq<SessionId>
    ghost var history: History

    ghost predicate Valid() { table.Length == MAX_SESSIONS }

    ghost function View(): System
      requires Valid()
      reads this, table
    {
      System(State(table[..], tx, rx, lookUps, timer, releases), history)
    }

    constructor ()
      ensures Valid() && fresh(table) && View() == Initial()
    {
      table := new SessionState[MAX_SESSIONS](i => CLOSED);
      tx, rx := Client([], None, false, 0, []), Client([], None, false, 0, []);
      lookUps, timer, releases := LookUps([], []), Timer([], None), [];
      history := History([], [], CLOSED, [], [], CLOSED);
    }

    /** One call of the module. */
    method Run()
      requires Valid()
      modifies this, table
      ensures Valid() && View() == Step(old(View()))
    {
      hide TakeTx, TakeRx, TakeTimer, LookUp, RetryTx, RetryRx, RetryTimer;
      if tx.fifo != [] && tx.deferred.None? {
        TakeTxRequest();
      } else if lookUps.fifo != [] {
        AnswerLookUp();
      } else if rx.fifo != [] && rx.deferred.None? {
        TakeRxRequest();
      } else if timer.fifo != [] && timer.deferred.None? {
        TakeTimerRequest();
      } else if tx.deferred.Some? {
        RetryTxRequest();
      } else if rx.deferred.Some? {
        RetryRxRequest();
      } else if timer.deferred.Some? {
        RetryTimerRequest();
      }
    }

    method GrantTx(r: Request)
      requires Valid()
      modifies `tx, `history, table
      ensures View() == ServeTx(old(View()), r)
    {
      match r {
      case Write(id, state) =>
        table[id] := state;
        tx := tx.(locked := false);
      case Read(id) =>
        tx := tx.(locked := true, lockedId := id, answers := tx.answers + [table[id]]);
        history := history.(txSeen := table[id]);
      }
      history := history.(txServed := history.txServed + [r]);
    }

    method GrantRx(r: Request)
      requires Valid()
      modifies `rx, `releases, `history, table
      ensures View() == ServeRx(old(View()), r)
    {
      match r {
      case Write(id, state) =>
        if state == CLOSED {
          releases := releases + [id];
        }
        table[id] := state;
        rx := rx.(locked := false);
      case Read(id) =>
        rx := rx.(locked := true, lockedId := id, answers := rx.answers + [table[id]]);
        history := history.(rxSeen := table[id]);
      }
      history := history.(rxServed := history.rxServed + [r]);
    }

    method TakeTxRequest()
      requires Valid() && tx.fifo != []
      modifies `tx, `history, table
      ensures View() == TakeTx(old(View()))
    {
      hide ServeTx;
      var r := tx.fifo[0];
      tx := tx.(fifo := tx.fifo[1..]);
      if rx.locked && rx.lockedId == r.id {
        tx := tx.(deferred := Some(r));
      } else {
        GrantTx(r);
      }
    }

    method TakeRxRequest()
      requires Valid() && rx.fifo != []
      modifies `rx, `releases, `history, table
      ensures View() == TakeRx(old(View()))
    {
      hide ServeRx;
      var r := rx.fifo[0];
      rx := rx.(fifo := rx.fifo[1..]);
      if tx.locked && tx.lockedId == r.id {
        rx := rx.(deferred := Some(r));
      } else {
        GrantRx(r);
      }
    }

    method TakeTimerRequest()
      requires Valid() && timer.fifo != []
      modifies `timer, `releases, table
      ensures View() == TakeTimer(old(View()))
    {
      var id := timer.fifo[0];
      timer := timer.(fifo := timer.fifo[1..]);
      if (rx.locked && rx.lockedId == id) || (tx.locked && tx.lockedId == id) {
        timer := timer.(deferred := Some(id));
      } else {
        table[id] := CLOSED;
        releases := releases + [id];
      }
    }

    method AnswerLookUp()
      requires Valid() && lookUps.fifo != []
      modifies `lookUps
      ensures View() == LookUp(old(View()))
    {
      lookUps := LookUps(lookUps.fifo[1..], lookUps.answers + [table[lookUps.fifo[0]]]);
    }

    method RetryTxRequest()
      requires Valid() && tx.deferred.Some?
      modifies `tx, `history, table
      ensures View() == RetryTx(old(View()))
    {
      hide ServeTx;
      var r := tx.deferred.value;
      if !rx.locked || rx.lockedId != r.id {
        tx := tx.(deferred := None);
        GrantTx(r);
      }
    }

    method RetryRxRequest()
      requires Valid() && rx.deferred.Some?
      modifies `rx, `releases, `history, table
      ensures View() == RetryRx(old(View()))
    {
      hide ServeRx;
      var r := rx.deferred.value;
      if !tx.locked || tx.lockedId != r.id {
        rx := rx.(deferred := None);
        GrantRx(r);
      }
    }

    method RetryTimerRequest()
      requires Valid() && timer.deferred.Some?
      modifies `timer, `releases, table
      ensures View() == RetryTimer(old(View()))
    {
      var id := timer.deferred.value;
      if (!rx.locked || rx.lockedId != id) && (!tx.locked || tx.lockedId != id) {
        table[id] := CLOSED;
        releases := releases + [id];
        timer := timer.(deferred := None);
      }
    }
  }
}
