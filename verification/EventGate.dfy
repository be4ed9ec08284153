/** The event engine's gate: four 8-bit counters stand in for looking into two streams. Events of
    the RX engine pass at once; those of the timers and the application wait until the counters
    say that both streams behind the gate have drained.

    A step that writes waits until there is room; the streams have the depths of the top level.
 */
module EventGate {
  import opened Words

  type u8 = x: int | 0 <= x < 0x100

  function To8(x: int): u8 { x % 0x100 }

  datatype Event = Event(kind: nat, id: SessionId)

  const EVENT_DEPTH: nat := 4      // event engine to ACK delay
  const TX_DEPTH: nat := 32        // ACK delay to TX engine
  const READ_DEPTH: nat := 4       // ACK delay's read counts
  const WRITE_DEPTH: nat := 4      // ACK delay's write counts
  const TX_READ_DEPTH: nat := 8    // TX engine's read counts

  datatype Sources = Sources(rx: seq<Event>, timer: seq<Event>, app: seq<Event>)
  datatype Counters = Counters(written: u8, ackRead: u8, ackWritten: u8, txRead: u8)

  /** The count streams carry nothing but ones, so their lengths are all there is. */
  datatype Counts = Counts(read: nat, write: nat, txRead: nat)

  datatype State = State(sources: Sources, counters: Counters, events: seq<Event>, tx: seq<Event>, counts: Counts)

  // ---------- Steps ----------

  predicate GateOpen(c: Counters) {
    c.written == c.ackRead && c.ackWritten == c.txRead
  }

  /** What the event engine passes on in its next step. */
  datatype Pick = FromRx | FromTimer | FromApp | FromNowhere

  function Choose(s: State): Pick {
    if s.sources.rx != [] then FromRx
    else if !GateOpen(s.counters) then FromNowhere
    else if s.sources.timer != [] then FromTimer
    else if s.sources.app != [] then FromApp
    else FromNowhere
  }

  predicate EngineReady(s: State) {
    Choose(s) != FromNowhere ==> |s.events| < EVENT_DEPTH
  }

  function Passed(s: State, pick: Pick): State
    requires pick == Choose(s)
  {
    var q := s.sources;
    var c := s.counters.(written := To8(s.counters.written + 1));
    match pick
    case FromRx => s.(sources := q.(rx := q.rx[1..]), events := s.events + [q.rx[0]], counters := c)
    case FromTimer => s.(sources := q.(timer := q.timer[1..]), events := s.events + [q.timer[0]], counters := c)
    case FromApp => s.(sources := q.(app := q.app[1..]), events := s.events + [q.app[0]], counters := c)
    case FromNowhere => s
  }

  function Counted(s: State): State {
    var c, n := s.counters, s.counts;
    s.(counters := c.(ackRead := if n.read > 0 then To8(c.ackRead + 1) else c.ackRead,
                      ackWritten := if n.write > 0 then To8(c.ackWritten + 1) else c.ackWritten,
                      txRead := if n.txRead > 0 then To8(c.txRead + 1) else c.txRead),
       counts := Counts(if n.read > 0 then n.read - 1 else 0,
                        if n.write > 0 then n.write - 1 else 0,
                        if n.txRead > 0 then n.txRead - 1 else 0))
  }

  /** One call of the event engine. */
  function EngineStep(s: State): State {
    if EngineReady(s) then Counted(Passed(s, Choose(s))) else s
  }

  predicate AckReady(s: State, forward: bool) {
    s.events != [] && s.counts.read < READ_DEPTH && (forward ==> |s.tx| < TX_DEPTH && s.counts.write < WRITE_DEPTH)
  }

  /** ACK delay takes an event, and forwards or absorbs it. */
  function AckTakes(s: State, forward: bool): State {
    if !AckReady(s, forward) then s
    else
      var n := s.counts.(read := s.counts.read + 1);
      if forward then
        s.(events := s.events[1..], tx := s.tx + [s.events[0]], counts := n.(write := n.write + 1))
      else s.(events := s.events[1..], counts := n)
  }

  /** ACK delay forwards a delayed ACK; it does so only when no event waits. */
  function AckTimesOut(s: State, e: Event): State {
    if s.events == [] && |s.tx| < TX_DEPTH && s.counts.write < WRITE_DEPTH then
      s.(tx := s.tx + [e], counts := s.counts.(write := s.counts.write + 1))
    else s
  }

  /** The TX engine takes an event. */
  function TxTakes(s: State): State {
    if s.tx != [] && s.counts.txRead < TX_READ_DEPTH then
      s.(tx := s.tx[1..], counts := s.counts.(txRead := s.counts.txRead + 1))
    else s
  }

  datatype Action =
    | Engine | AckTake(forward: bool) | AckTimeout(event: Event) | TxTake
    | RxEvent(event: Event) | TimerEvent(event: Event) | AppEvent(event: Event)

  function Next(s: State, a: Action): State {
    match a
    case Engine => EngineStep(s)
    case AckTake(forward) => AckTakes(s, forward)
    case AckTimeout(e) => AckTimesOut(s, e)
    case TxTake => TxTakes(s)
    case RxEvent(e) => s.(sources := s.sources.(rx := s.sources.rx + [e]))
    case TimerEvent(e) => s.(sources := s.sources.(timer := s.sources.timer + [e]))
    case AppEvent(e) => s.(sources := s.sources.(app := s.sources.app + [e]))
  }

  function Initial(): State {
    State(Sources([], [], []), Counters(0, 0, 0, 0), [], [], Counts(0, 0, 0))
  }

  function Run(actions: seq<Action>): State {
    if actions == [] then Initial()
    else Next(Run(actions[..|actions| - 1]), actions[|actions| - 1])
  }

  // ---------- The invariant ----------

  /** The wrapped counters differ by exactly what is in the streams between them. */
  ghost predicate Balanced(s: State) {
    && s.counters.written == To8(s.counters.ackRead + |s.events| + s.counts.read)
    && s.counters.ackWritten == To8(s.counters.txRead + |s.tx| + s.counts.txRead - s.counts.write)
  }

  ghost predicate Bounded(s: State) {
    && |s.events| <= EVENT_DEPTH && |s.tx| <= TX_DEPTH
    && s.counts.read <= READ_DEPTH && s.counts.write <= WRITE_DEPTH && s.counts.txRead <= TX_READ_DEPTH
  }

  /** When the event stream is full, the engine has just drained the count streams. */
  ghost predicate Slack(s: State) {
    |s.events| == EVENT_DEPTH ==>
      && s.counts.read < READ_DEPTH && s.counts.write < WRITE_DEPTH
      && (s.counts.txRead == TX_READ_DEPTH ==> |s.tx| < TX_DEPTH)
  }

  ghost predicate Inv(s: State) { Balanced(s) && Bounded(s) && Slack(s) }

  lemma Wraps(a: int, b: int)
    ensures To8(To8(a) + b) == To8(a + b)
  {
  }

  lemma PassKeeps(s: State)
    requires Inv(s) && EngineReady(s)
    ensures var t := Passed(s, Choose(s)); Balanced(t) && Bounded(t) && t.counts == s.counts && t.tx == s.tx
    ensures |Passed(s, Choose(s)).events| == |s.events| + if Choose(s) == FromNowhere then 0 else 1
  {
    Wraps(s.counters.ackRead + |s.events| + s.counts.read, 1);
    hide To8, Slack;
  }

  lemma CountKeeps(s: State)
    requires Balanced(s) && Bounded(s)
    ensures Balanced(Counted(s)) && Bounded(Counted(s))
  {
    var c, n := s.counters, s.counts;
    Wraps(c.ackRead + 1, |s.events| + n.read - 1);
    Wraps(c.txRead + |s.tx| + n.txRead - n.write, 1);
    Wraps(c.txRead + 1, |s.tx| + n.txRead - 1 - n.write);
    Wraps(c.txRead + 1, |s.tx| + n.txRead - n.write);
    hide To8;
  }

  lemma EngineKeeps(s: State)
    requires Inv(s)
    ensures Inv(EngineStep(s))
  {
    if EngineReady(s) {
      PassKeeps(s);
      CountKeeps(Passed(s, Choose(s)));
      hide To8, Choose, Passed, Balanced;
    }
  }

  lemma StepKeeps(s: State, a: Action)
    requires Inv(s)
    ensures Inv(Next(s, a))
  {
    hide To8, EngineStep;
    match a
    case Engine => EngineKeeps(s);
    case _ =>
  }

  lemma InitialHolds()
    ensures Inv(Initial())
  {
  }

  lemma {:induction false} RunKeeps(actions: seq<Action>)
    ensures Inv(Run(actions))
  {
    hide Inv, Next, Initial;
    if actions == [] {
      InitialHolds();
    } else {
      RunKeeps(actions[..|actions| - 1]);
      StepKeeps(Run(actions[..|actions| - 1]), actions[|actions| - 1]);
    }
  }

  // ---------- What the gate guarantees ----------

  /** In every run the gate reads the true state of the streams although its counters wrap: it is
      open exactly when no event waits for the ACK delay nor for being counted, and the TX engine's
      backlog, counted and uncounted, matches the write counts on their way. */
  lemma GateIsExact(actions: seq<Action>)
    ensures var s := Run(actions);
            GateOpen(s.counters) <==>
            s.events == [] && s.counts.read == 0 && |s.tx| + s.counts.txRead == s.counts.write
  {
    RunKeeps(actions);
    hide Run;
    CountersTell(Run(actions));
  }

  lemma CountersTell(s: State)
    requires Inv(s)
    ensures GateOpen(s.counters) <==>
            s.events == [] && s.counts.read == 0 && |s.tx| + s.counts.txRead == s.counts.write
  {
  }

  /** In every run, whenever a timer or application event passes the gate, the stream to the ACK
      delay is empty and at most four events wait for the TX engine. */
  lemma AdmissionFindsStreamsDrained(actions: seq<Action>)
    requires Choose(Run(actions)) == FromTimer || Choose(Run(actions)) == FromApp
    ensures var s := Run(actions);
            && s.events == [] && |s.tx| <= 4 && EngineReady(s)
            && EngineStep(s).events == [if Choose(s) == FromTimer then s.sources.timer[0] else s.sources.app[0]]
  {
    RunKeeps(actions);
    GateIsExact(actions);
    hide To8;
  }

  /** The event engine's choice, in every run and by the streams as they are: an event of the RX engine
      whenever there is one; without one, and only if everything behind the gate is accounted for, an
      event of the timers, or else of the application. Nothing else leaves a source. */
  lemma PassesIff(actions: seq<Action>)
    requires EngineReady(Run(actions))
    ensures var s := Run(actions);
            var q, t := s.sources, EngineStep(s);
            var drained := s.events == [] && s.counts.read == 0 && |s.tx| + s.counts.txRead == s.counts.write;
            t.sources ==
              if q.rx != [] then q.(rx := q.rx[1..])
              else if drained && q.timer != [] then q.(timer := q.timer[1..])
              else if drained && q.app != [] then q.(app := q.app[1..])
              else q
  {
    GateIsExact(actions);
    hide Run, To8, GateOpen;
  }

  // ---------- No event is lost ----------

  /** The events that came, by source; those the event engine passed on, with where they came from; those
      the ACK delay took and those it sent; and those the TX engine took. */
  datatype Log = Log(
    rx: seq<Event>, timer: seq<Event>, app: seq<Event>,
    passed: seq<(Pick, Event)>, taken: seq<Event>, sent: seq<Event>, received: seq<Event>)

  ghost function LogAfter(l: Log, s: State, t: State, a: Action): Log {
    match a
    case RxEvent(e) => l.(rx := l.rx + [e])
    case TimerEvent(e) => l.(timer := l.timer + [e])
    case AppEvent(e) => l.(app := l.app + [e])
    case Engine =>
      if |t.sources.rx| < |s.sources.rx| then l.(passed := l.passed + [(FromRx, s.sources.rx[0])])
      else if |t.sources.timer| < |s.sources.timer| then l.(passed := l.passed + [(FromTimer, s.sources.timer[0])])
      else if |t.sources.app| < |s.sources.app| then l.(passed := l.passed + [(FromApp, s.sources.app[0])])
      else l
    case AckTake(_) =>
      if |t.events| >= |s.events| then l
      else
        l.(taken := l.taken + [s.events[0]], sent := if |t.tx| > |s.tx| then l.sent + [s.events[0]] else l.sent)
    case AckTimeout(e) => if |t.tx| > |s.tx| then l.(sent := l.sent + [e]) else l
    case TxTake => if |t.tx| < |s.tx| then l.(received := l.received + [s.tx[0]]) else l
  }

  ghost function LogOf(actions: seq<Action>): Log {
    if actions == [] then Log([], [], [], [], [], [], [])
    else
      var n := |actions| - 1;
      LogAfter(LogOf(actions[..n]), Run(actions[..n]), Run(actions), actions[n])
  }

  ghost function From(q: seq<(Pick, Event)>, pick: Pick): seq<Event> {
    if q == [] then []
    else From(q[..|q| - 1], pick) + if q[|q| - 1].0 == pick then [q[|q| - 1].1] else []
  }

  ghost function EventsOf(q: seq<(Pick, Event)>): seq<Event> {
    seq(|q|, i requires 0 <= i < |q| => q[i].1)
  }

  ghost predicate Conserved(s: State, l: Log) {
    && From(l.passed, FromRx) + s.sources.rx == l.rx
    && From(l.passed, FromTimer) + s.sources.timer == l.timer
    && From(l.passed, FromApp) + s.sources.app == l.app
    && l.taken + s.events == EventsOf(l.passed)
    && l.received + s.tx == l.sent
  }

  lemma PassedSnoc(q: seq<(Pick, Event)>, p: (Pick, Event), pick: Pick)
    ensures From(q + [p], pick) == From(q, pick) + if p.0 == pick then [p.1] else []
    ensures EventsOf(q + [p]) == EventsOf(q) + [p.1]
  {
    assert (q + [p])[..|q|] == q;
  }

  lemma EngineConserves(s: State, l: Log)
    requires Conserved(s, l)
    ensures Conserved(EngineStep(s), LogAfter(l, s, EngineStep(s), Engine))
  {
    hide To8, GateOpen, From, EventsOf;
    var q := s.sources;
    if q.rx != [] {
      PassesOne(l.passed, (FromRx, q.rx[0]));
    } else if q.timer != [] && GateOpen(s.counters) {
      PassesOne(l.passed, (FromTimer, q.timer[0]));
    } else if q.app != [] && GateOpen(s.counters) {
      PassesOne(l.passed, (FromApp, q.app[0]));
    }
  }

  lemma PassesOne(q: seq<(Pick, Event)>, p: (Pick, Event))
    ensures forall pick: Pick :: From(q + [p], pick) == if p.0 == pick then From(q, pick) + [p.1] else From(q, pick)
    ensures EventsOf(q + [p]) == EventsOf(q) + [p.1]
  {
    forall pick: Pick ensures From(q + [p], pick) == if p.0 == pick then From(q, pick) + [p.1] else From(q, pick) {
      PassedSnoc(q, p, pick);
    }
    PassedSnoc(q, p, FromRx);
  }

  lemma NextConserves(s: State, l: Log, a: Action)
    requires Conserved(s, l)
    ensures Conserved(Next(s, a), LogAfter(l, s, Next(s, a), a))
  {
    hide EngineStep, From, EventsOf;
    if a.Engine? { EngineConserves(s, l); }
  }

  /** In every run the events of each source are passed on in the order they came; the ACK delay takes
      exactly the events passed on, in that order, and the TX engine exactly those the ACK delay sent:
      what is not yet passed, taken or received still waits in its stream. */
  lemma {:induction false} EventsAreConserved(actions: seq<Action>)
    ensures Conserved(Run(actions), LogOf(actions))
  {
    hide Next, LogAfter;
    if actions != [] {
      hide Conserved, Initial;
      var n := |actions| - 1;
      EventsAreConserved(actions[..n]);
      NextConserves(Run(actions[..n]), LogOf(actions[..n]), actions[n]);
    }
  }

  predicate EngineCanMove(s: State) {
    EngineReady(s) && (Choose(s) != FromNowhere || s.counts.read > 0 || s.counts.write > 0 || s.counts.txRead > 0)
  }

  predicate AckCanMove(s: State) { AckReady(s, true) && AckReady(s, false) }

  predicate TxCanMove(s: State) { s.tx != [] && s.counts.txRead < TX_READ_DEPTH }

  /** The three modules never block each other on full streams: while any event waits in front of
      one of them, one of them can move. */
  lemma NeverStuck(actions: seq<Action>)
    requires var s := Run(actions); s.sources.rx != [] || s.events != [] || s.tx != []
    ensures var s := Run(actions);
            || EngineStep(s) != s
            || (s.events != [] && AckTakes(s, true).events == AckTakes(s, false).events == s.events[1..] &&
                AckTakes(s, true).tx == s.tx + [s.events[0]])
            || (s.tx != [] && TxTakes(s).tx == s.tx[1..])
  {
    RunKeeps(actions);
    hide To8, Run, Balanced;
    var s := Run(actions);
    assert EngineCanMove(s) || AckCanMove(s) || TxCanMove(s);
    if EngineCanMove(s) { EngineMoves(s); }
  }

  lemma EngineMoves(s: State)
    requires EngineCanMove(s)
    ensures EngineStep(s) != s
  {
    hide To8;
    var n := EngineStep(s).counts;
    if s.counts.read > 0 || s.counts.write > 0 || s.counts.txRead > 0 {
      assert n != s.counts;
    } else {
      var q, t := s.sources, EngineStep(s).sources;
      assert |t.rx| < |q.rx| || |t.timer| < |q.timer| || |t.app| < |q.app|;
    }
  }

  // ---------- The module ----------

  class EventEngine {
    var writeEventCount: u8
    var ackDelayReadCount: u8
    var ackDelayWriteCount: u8
    var txEngReadCount: u8
    // streams
    var sources: Sources
    var events: seq<Event>
    var tx: seq<Event>
    var counts: Counts

    ghost function View(): State
      reads this
    {
      State(sources, Counters(writeEventCount, ackDelayReadCount, ackDelayWriteCount, txEngReadCount),
            events, tx, counts)
    }

    constructor ()
      ensures View() == Initial()
    {
      writeEventCount, ackDelayReadCount, ackDelayWriteCount, txEngReadCount := 0, 0, 0, 0;
      sources, events, tx, counts := Sources([], [], []), [], [], Counts(0, 0, 0);
    }

    /** The arbitration; the caller waits for room in the event stream. */
    method Arbitrate()
      requires EngineReady(View())
      modifies `sources, `events, `writeEventCount
      ensures View() == Passed(old(View()), Choose(old(View())))
    {
      hide To8;
      if sources.rx != [] {
        events := events + [sources.rx[0]];
        sources := sources.(rx := sources.rx[1..]);
        writeEventCount := To8(writeEventCount + 1);
      } else if writeEventCount == ackDelayReadCount && ackDelayWriteCount == txEngReadCount {
        if sources.timer != [] {
          events := events + [sources.timer[0]];
          sources := sources.(timer := sources.timer[1..]);
          writeEventCount := To8(writeEventCount + 1);
        } else if sources.app != [] {
          events := events + [sources.app[0]];
          sources := sources.(app := sources.app[1..]);
          writeEventCount := To8(writeEventCount + 1);
        }
      }
    }

    method Step()
      requires EngineReady(View())
      modifies this
      ensures View() == EngineStep(old(View()))
    {
      hide To8, Passed, Choose, EngineReady;
      Arbitrate();
      if counts.read > 0 {
        counts := counts.(read := counts.read - 1);
        ackDelayReadCount := To8(ackDelayReadCount + 1);
      }
      if counts.write > 0 {
        counts := counts.(write := counts.write - 1);
        ackDelayWriteCount := To8(ackDelayWriteCount + 1);
      }
      if counts.txRead > 0 {
        counts := counts.(txRead := counts.txRead - 1);
        txEngReadCount := To8(txEngReadCount + 1);
      }
    }
  }
}
