/** Retransmit timers: one count-down per session, armed by the TX engine, restarted or stopped by
    the RX engine, and visited in turn by a cursor. An expired timer asks for a retransmission, at
    most four times in a row; the fifth expiry gives the session up.
 */
module RetransmitTimer {
  import opened Words

  const MAX_ATTEMPTS: nat := 4
  /** The cursor is moved on by 5 past a busy entry, from 127 to 132 at most. */
  const PLACES: nat := 133

  type Place = x: int | 0 <= x < 133
  type u3 = x: int | 0 <= x < 8

  datatype Kind = TX | RT | ACK | SYN | SYN_ACK | FIN | RST | ACK_NODELAY | RT_CONT

  datatype Entry = Entry(time: u32, retries: u3, active: bool, kind: Kind)
  type Table = s: seq<Entry> | |s| == 133 witness seq(133, i => Entry(0, 0, false, TX))

  /** The RX engine's request: stop the timer, or start it afresh. */
  datatype Clear = Clear(id: SessionId, stop: bool)
  datatype Set = Set(id: SessionId, kind: Kind)

  /** The intervals before the first, second, ... expiry. */
  datatype Times = Times(s1: u32, s5: u32, s10: u32, s15: u32, s30: u32)

  function Interval(times: Times, retries: nat): u32 {
    match retries
    case 0 => times.s1
    case 1 => times.s5
    case 2 => times.s10
    case 3 => times.s15
    case _ => times.s30
  }

  /** What the module took in and sent out, in order. */
  datatype Item =
    | Armed(id: SessionId, kind: Kind)
    | Cleared(id: SessionId, stop: bool)
    | Ticked(id: SessionId)
    | Fired(id: SessionId, kind: Kind, count: u3)
    | GaveUp(id: SessionId, kind: Kind)

  datatype Scanner = Scanner(cursor: Place, previous: Place, waiting: bool, request: Clear)

  /** What has been sent: retransmissions asked for, sessions released, and the notices to the
      applications that were using (rx) or opening (tx) them. */
  datatype Streams = Streams(
    events: seq<(SessionId, Kind, u3)>, releases: seq<SessionId>, rxNotices: seq<SessionId>, txNotices: seq<SessionId>)

  datatype State = State(
    table: Table, scanner: Scanner, clears: seq<Clear>, sets: seq<Set>, out: Streams, log: seq<Item>)

  // ---------- One step ----------

  function ClearEntry(e: Entry, stop: bool, times: Times): Entry {
    if stop then e.(time := 0, active := false, retries := 0) else e.(time := times.s1, retries := 0)
  }

  function ArmEntry(e: Entry, kind: Kind, times: Times): Entry {
    e.(kind := kind, active := true, time := if e.active then e.time else Interval(times, e.retries))
  }

  /** The entry after a visit by the cursor; `room` says that one more event can be sent. */
  function VisitEntry(e: Entry, room: bool): Entry {
    if !e.active then e
    else if e.time > 0 then e.(time := e.time - 1)
    else if !room then e
    else e.(active := false, retries := if e.retries < MAX_ATTEMPTS then (e.retries + 1) % 8 else 0)
  }

  function VisitItems(e: Entry, id: Place, room: bool): seq<Item> {
    if !e.active || id >= MAX_SESSIONS then []
    else if e.time > 0 then [Ticked(id)]
    else if !room then []
    else if e.retries < MAX_ATTEMPTS then [Fired(id, e.kind, (e.retries + 1) % 8)]
    else [GaveUp(id, e.kind)]
  }

  function VisitStreams(o: Streams, e: Entry, id: Place, room: bool): Streams {
    if !e.active || id >= MAX_SESSIONS || e.time > 0 || !room then o
    else if e.retries < MAX_ATTEMPTS then o.(events := o.events + [(id, e.kind, (e.retries + 1) % 8)])
    else if e.kind == SYN then o.(releases := o.releases + [id], txNotices := o.txNotices + [id])
    else o.(releases := o.releases + [id], rxNotices := o.rxNotices + [id])
  }

  function ApplyClear(s: State, times: Times): State {
    var r := s.scanner.request;
    s.(table := s.table[r.id := ClearEntry(s.table[r.id], r.stop, times)],
       scanner := s.scanner.(waiting := false),
       log := s.log + [Cleared(r.id, r.stop)])
  }

  function TakeClear(s: State): State
    requires s.clears != []
  {
    s.(scanner := s.scanner.(waiting := true, request := s.clears[0]), clears := s.clears[1..])
  }

  /** The cursor after a request that arms session `id`. */
  function Pushed(cursor: Place, id: SessionId): Place {
    if id - 3 < cursor <= id then cursor + 5 else cursor
  }

  function Arm(s: State, times: Times): State
    requires s.sets != []
  {
    var q := s.sets[0];
    s.(table := s.table[q.id := ArmEntry(s.table[q.id], q.kind, times)],
       scanner := s.scanner.(cursor := Pushed(s.scanner.cursor, q.id), previous := q.id),
       sets := s.sets[1..],
       log := s.log + [Armed(q.id, q.kind)])
  }

  function Visit(s: State, room: bool): State {
    var c := s.scanner.cursor;
    s.(table := s.table[c := VisitEntry(s.table[c], room)],
       scanner := s.scanner.(cursor := if c + 1 >= MAX_SESSIONS then 0 else c + 1, previous := c),
       out := VisitStreams(s.out, s.table[c], c, room),
       log := s.log + VisitItems(s.table[c], c, room))
  }

  function Step(s: State, times: Times, room: bool): State {
    if s.scanner.waiting && s.scanner.request.id != s.scanner.previous then ApplyClear(s, times)
    else if s.clears != [] && !s.scanner.waiting then TakeClear(s)
    else if s.sets != [] then Arm(s, times)
    else Visit(s, room)
  }

  datatype Action = ArriveClear(clear: Clear) | ArriveSet(request: Set) | Run(room: bool)

  function Next(s: State, times: Times, a: Action): State {
    match a
    case ArriveClear(r) => s.(clears := s.clears + [r])
    case ArriveSet(r) => s.(sets := s.sets + [r])
    case Run(room) => Step(s, times, room)
  }

  function Initial(): State {
    State(seq(133, i => Entry(0, 0, false, TX)), Scanner(0, 0, false, Clear(0, false)), [], [],
          Streams([], [], [], []), [])
  }

  function Play(s: State, times: Times, actions: seq<Action>): State {
    if actions == [] then s
    else Next(Play(s, times, actions[..|actions| - 1]), times, actions[|actions| - 1])
  }

  // ---------- What the log says of one session ----------

  /** A session's timer as an observer of the log sees it: whether it is armed and for what, the
      counts of the retransmissions asked for in a row, the visits counted since it was started, and
      how many of them it was started with. */
  datatype Timer = Timer(armed: bool, kind: Kind, counts: seq<nat>, ticks: nat, due: nat)

  /** The visits before the first, second, ... expiry in a row. */
  function Schedule(times: Times): seq<u32> { [times.s1, times.s5, times.s10, times.s15, times.s30] }

  function Hear(t: Timer, item: Item, times: Times): Timer {
    match item
    case Armed(_, kind) =>
      if t.armed then t.(kind := kind) else Timer(true, kind, t.counts, 0, Schedule(times)[Min(|t.counts|, 4)])
    case Cleared(_, stop) => Timer(t.armed && !stop, t.kind, [], 0, times.s1)
    case Ticked(_) => t.(ticks := t.ticks + 1)
    case Fired(_, _, count) => t.(armed := false, counts := t.counts + [count])
    case GaveUp(_, _) => t.(armed := false, counts := [])
  }

  function Story(log: seq<Item>, id: SessionId, times: Times): Timer {
    if log == [] then Timer(false, TX, [], 0, 0)
    else
      var before := Story(log[..|log| - 1], id, times);
      var item := log[|log| - 1];
      if item.id == id then Hear(before, item, times) else before
  }

  lemma StorySnoc(log: seq<Item>, item: Item, id: SessionId, times: Times)
    ensures Story(log + [item], id, times) ==
            if item.id == id then Hear(Story(log, id, times), item, times) else Story(log, id, times)
  {
    assert (log + [item])[..|log|] == log;
  }

  /** 1, 2, ..., n. */
  function UpTo(n: nat): seq<nat> { seq(n, i requires 0 <= i => i + 1) }

  /** What may follow in the log: a visit is counted down only while the timer runs; it expires when
      all the visits it was started with have been counted, asking for the next retransmission of
      the kind last armed; it gives up after exactly the four retransmissions 1, 2, 3, 4. */
  predicate Lawful(t: Timer, item: Item) {
    match item
    case Armed(_, _) => true
    case Cleared(_, _) => true
    case Ticked(_) => t.armed && t.ticks < t.due
    case Fired(_, kind, count) =>
      t.armed && t.kind == kind && t.ticks == t.due && 1 <= count <= MAX_ATTEMPTS && t.counts == UpTo(count - 1)
    case GaveUp(_, kind) => t.armed && t.kind == kind && t.ticks == t.due && t.counts == [1, 2, 3, 4]
  }

  // ---------- Every run is lawful ----------

  predicate Matches(e: Entry, t: Timer) {
    && e.active == t.armed
    && e.retries <= MAX_ATTEMPTS
    && t.counts == UpTo(e.retries)
    && (e.active ==> e.kind == t.kind && e.time + t.ticks == t.due)
  }

  ghost predicate Agrees(s: State, times: Times) {
    && (forall id: SessionId :: Matches(s.table[id], Story(s.log, id, times)))
    && (forall p :: MAX_SESSIONS <= p < PLACES ==> !s.table[p].active)
  }

  ghost predicate AllLawful(log: seq<Item>, times: Times) {
    forall i :: 0 <= i < |log| ==> Lawful(Story(log[..i], log[i].id, times), log[i])
  }

  lemma AllLawfulSnoc(log: seq<Item>, item: Item, times: Times)
    requires AllLawful(log, times) && Lawful(Story(log, item.id, times), item)
    ensures AllLawful(log + [item], times)
  {
    hide Story, Lawful;
    var longer := log + [item];
    forall i | 0 <= i < |longer| ensures Lawful(Story(longer[..i], longer[i].id, times), longer[i]) {
      assert longer[..i] == log[..i];
      if i == |log| { assert log[..i] == log; }
    }
  }

  /** One entry changes and the log gains what the change means for it. */
  lemma Follows(s: State, t: State, times: Times, item: Item)
    requires Agrees(s, times) && AllLawful(s.log, times)
    requires t.log == s.log + [item]
    requires t.table == s.table[item.id := t.table[item.id]]
    requires Matches(t.table[item.id], Hear(Story(s.log, item.id, times), item, times))
    requires Lawful(Story(s.log, item.id, times), item)
    ensures Agrees(t, times) && AllLawful(t.log, times)
  {
    hide Story, Hear, Matches, Lawful;
    AllLawfulSnoc(s.log, item, times);
    forall id: SessionId ensures Matches(t.table[id], Story(t.log, id, times)) {
      StorySnoc(s.log, item, id, times);
    }
  }

  lemma ClearMatches(e: Entry, t: Timer, id: SessionId, stop: bool, times: Times)
    requires Matches(e, t)
    ensures Matches(ClearEntry(e, stop, times), Hear(t, Cleared(id, stop), times))
  {
  }

  lemma ArmMatches(e: Entry, t: Timer, id: SessionId, kind: Kind, times: Times)
    requires Matches(e, t)
    ensures Matches(ArmEntry(e, kind, times), Hear(t, Armed(id, kind), times))
  {
  }

  lemma VisitMatches(e: Entry, t: Timer, id: SessionId, room: bool, times: Times)
    requires Matches(e, t)
    ensures var items := VisitItems(e, id, room);
            if items == [] then VisitEntry(e, room) == e
            else |items| == 1 && items[0].id == id && Lawful(t, items[0]) &&
                 Matches(VisitEntry(e, room), Hear(t, items[0], times))
  {
    assert UpTo(4) == [1, 2, 3, 4];
    assert UpTo(e.retries + 1) == UpTo(e.retries) + [e.retries + 1];
  }

  lemma StepKeeps(s: State, times: Times, room: bool)
    requires Agrees(s, times) && AllLawful(s.log, times)
    ensures var t := Step(s, times, room); Agrees(t, times) && AllLawful(t.log, times)
  {
    hide Story, Hear, Matches, Lawful, ClearEntry, ArmEntry;
    var t := Step(s, times, room);
    if s.scanner.waiting && s.scanner.request.id != s.scanner.previous {
      var r := s.scanner.request;
      ClearMatches(s.table[r.id], Story(s.log, r.id, times), r.id, r.stop, times);
      ClearIsLawful(Story(s.log, r.id, times), r.id, r.stop);
      Follows(s, t, times, Cleared(r.id, r.stop));
    } else if s.clears != [] && !s.scanner.waiting {
    } else if s.sets != [] {
      var q := s.sets[0];
      ArmMatches(s.table[q.id], Story(s.log, q.id, times), q.id, q.kind, times);
      ArmIsLawful(Story(s.log, q.id, times), q.id, q.kind);
      Follows(s, t, times, Armed(q.id, q.kind));
    } else {
      VisitKeeps(s, times, room);
    }
  }

  lemma ClearIsLawful(t: Timer, id: SessionId, stop: bool)
    ensures Lawful(t, Cleared(id, stop))
  {
  }

  lemma ArmIsLawful(t: Timer, id: SessionId, kind: Kind)
    ensures Lawful(t, Armed(id, kind))
  {
  }

  lemma VisitKeeps(s: State, times: Times, room: bool)
    requires Agrees(s, times) && AllLawful(s.log, times)
    ensures var t := Visit(s, room); Agrees(t, times) && AllLawful(t.log, times)
  {
    hide Story, Hear, Matches, Lawful;
    var t, c := Visit(s, room), s.scanner.cursor;
    if c < MAX_SESSIONS {
      VisitMatches(s.table[c], Story(s.log, c, times), c, room, times);
      var items := VisitItems(s.table[c], c, room);
      if items == [] {
        assert t.log == s.log && t.table == s.table;
      } else {
        assert items == [items[0]];
        Follows(s, t, times, items[0]);
      }
    } else {
      assert t.log == s.log && t.table == s.table;
    }
  }

  lemma NextKeeps(s: State, times: Times, a: Action)
    requires Agrees(s, times) && AllLawful(s.log, times)
    ensures var t := Next(s, times, a); Agrees(t, times) && AllLawful(t.log, times)
  {
    hide Step, Story, Matches, Lawful;
    if a.Run? { StepKeeps(s, times, a.room); }
  }

  /** In every run, for every session: retransmissions since the last acknowledgement or abort are
      asked for with the counts 1, 2, 3, 4, each once and in this order, each after exactly its own
      interval; and the session is given up only after the fourth. */
  lemma {:induction false} RunIsLawful(times: Times, actions: seq<Action>)
    ensures var s := Play(Initial(), times, actions); Agrees(s, times) && AllLawful(s.log, times)
  {
    hide Next, Story, Lawful;
    if actions == [] {
      InitiallyIdle(times);
    } else {
      RunIsLawful(times, actions[..|actions| - 1]);
      NextKeeps(Play(Initial(), times, actions[..|actions| - 1]), times, actions[|actions| - 1]);
    }
  }

  lemma InitiallyIdle(times: Times)
    ensures Agrees(Initial(), times)
  {
    assert UpTo(0) == [];
  }

  // ---------- What leaves the module ----------

  /** The retransmissions in the log. */
  function Fires(log: seq<Item>): seq<(SessionId, Kind, u3)> {
    if log == [] then []
    else
      var item := log[|log| - 1];
      Fires(log[..|log| - 1]) + (if item.Fired? then [(item.id, item.kind, item.count)] else [])
  }

  /** The sessions given up in the log, all of them or those whose SYN found no answer, or the others. */
  function GivenUp(log: seq<Item>): seq<SessionId> {
    if log == [] then []
    else
      var item := log[|log| - 1];
      GivenUp(log[..|log| - 1]) + (if item.GaveUp? then [item.id] else [])
  }

  function GivenUpOn(log: seq<Item>, syn: bool): seq<SessionId> {
    if log == [] then []
    else
      var item := log[|log| - 1];
      GivenUpOn(log[..|log| - 1], syn) + (if item.GaveUp? && (item.kind == SYN) == syn then [item.id] else [])
  }

  lemma LogSnoc(log: seq<Item>, item: Item)
    ensures GivenUp(log + [item]) == GivenUp(log) + (if item.GaveUp? then [item.id] else [])
    ensures GivenUpOn(log + [item], true) ==
            GivenUpOn(log, true) + (if item.GaveUp? && item.kind == SYN then [item.id] else [])
    ensures GivenUpOn(log + [item], false) ==
            GivenUpOn(log, false) + (if item.GaveUp? && item.kind != SYN then [item.id] else [])
    ensures Fires(log + [item]) == Fires(log) + (if item.Fired? then [(item.id, item.kind, item.count)] else [])
    ensures SetsIn(log + [item]) == SetsIn(log) + (if item.Armed? then [Set(item.id, item.kind)] else [])
    ensures ClearsIn(log + [item]) == ClearsIn(log) + (if item.Cleared? then [Clear(item.id, item.stop)] else [])
  {
    assert (log + [item])[..|log|] == log;
  }

  /** The requests carried out, by the log, and those that arrived. */
  function SetsIn(log: seq<Item>): seq<Set> {
    if log == [] then []
    else
      var item := log[|log| - 1];
      SetsIn(log[..|log| - 1]) + (if item.Armed? then [Set(item.id, item.kind)] else [])
  }

  function ClearsIn(log: seq<Item>): seq<Clear> {
    if log == [] then []
    else
      var item := log[|log| - 1];
      ClearsIn(log[..|log| - 1]) + (if item.Cleared? then [Clear(item.id, item.stop)] else [])
  }

  function SetsArrived(actions: seq<Action>): seq<Set> {
    if actions == [] then []
    else
      var a := actions[|actions| - 1];
      SetsArrived(actions[..|actions| - 1]) + (if a.ArriveSet? then [a.request] else [])
  }

  function ClearsArrived(actions: seq<Action>): seq<Clear> {
    if actions == [] then []
    else
      var a := actions[|actions| - 1];
      ClearsArrived(actions[..|actions| - 1]) + (if a.ArriveClear? then [a.clear] else [])
  }

  /** What has been sent is what the log says, and every release has its one notice: to the application
      that was opening the session if its SYN was given up on, to the one using it otherwise. */
  ghost predicate StreamsTell(s: State) {
    && s.out.events == Fires(s.log) && s.out.releases == GivenUp(s.log)
    && s.out.txNotices == GivenUpOn(s.log, true) && s.out.rxNotices == GivenUpOn(s.log, false)
  }

  lemma {:induction false} EachIsOfOneKind(log: seq<Item>)
    ensures multiset(GivenUp(log)) == multiset(GivenUpOn(log, false)) + multiset(GivenUpOn(log, true))
  {
    if log != [] { EachIsOfOneKind(log[..|log| - 1]); }
  }

  /** The requests in the order they came: carried out, held, waiting. */
  ghost function AllSets(s: State): seq<Set> { SetsIn(s.log) + s.sets }
  ghost function AllClears(s: State): seq<Clear> {
    ClearsIn(s.log) + (if s.scanner.waiting then [s.scanner.request] else []) + s.clears
  }

  lemma StepTakesInOrder(s: State, times: Times, room: bool)
    ensures AllSets(Step(s, times, room)) == AllSets(s) && AllClears(Step(s, times, room)) == AllClears(s)
  {
    hide SetsIn, ClearsIn, ClearEntry, ArmEntry, Visit, GivenUp, GivenUpOn, Fires;
    if s.scanner.waiting && s.scanner.request.id != s.scanner.previous {
      LogSnoc(s.log, Cleared(s.scanner.request.id, s.scanner.request.stop));
    } else if s.clears != [] && !s.scanner.waiting {
    } else if s.sets != [] {
      LogSnoc(s.log, Armed(s.sets[0].id, s.sets[0].kind));
    } else {
      VisitTakesNone(s, room);
    }
  }

  lemma VisitTakesNone(s: State, room: bool)
    ensures AllSets(Visit(s, room)) == AllSets(s) && AllClears(Visit(s, room)) == AllClears(s)
  {
    hide SetsIn, ClearsIn, VisitEntry, GivenUp, GivenUpOn, Fires, VisitStreams;
    var c := s.scanner.cursor;
    var items := VisitItems(s.table[c], c, room);
    if items != [] {
      LogSnoc(s.log, items[0]);
      assert items == [items[0]];
    } else {
      assert s.log + [] == s.log;
    }
  }

  /** In every run the requests of either kind are carried out in the order they came, none twice and
      none left out: those that arrived are those in the log, the one clear held back, and those that
      wait. */
  lemma {:induction false} RequestsAreTakenInOrder(times: Times, actions: seq<Action>)
    ensures var s := Play(Initial(), times, actions);
            && SetsIn(s.log) + s.sets == SetsArrived(actions)
            && ClearsIn(s.log) + (if s.scanner.waiting then [s.scanner.request] else []) + s.clears ==
               ClearsArrived(actions)
  {
    hide Next, SetsIn, ClearsIn;
    if actions == [] {
      NothingTaken();
    } else {
      hide Initial;
      var n := |actions| - 1;
      RequestsAreTakenInOrder(times, actions[..n]);
      NextTakesInOrder(Play(Initial(), times, actions[..n]), times, actions[n]);
    }
  }

  lemma NothingTaken()
    ensures SetsIn([]) == [] && ClearsIn([]) == []
  {
  }

  lemma NextTakesInOrder(s: State, times: Times, a: Action)
    ensures AllSets(Next(s, times, a)) == AllSets(s) + (if a.ArriveSet? then [a.request] else [])
    ensures AllClears(Next(s, times, a)) == AllClears(s) + (if a.ArriveClear? then [a.clear] else [])
  {
    hide Step, SetsIn, ClearsIn;
    if a.Run? { StepTakesInOrder(s, times, a.room); }
  }

  lemma StepTells(s: State, times: Times, room: bool)
    requires StreamsTell(s)
    ensures StreamsTell(Step(s, times, room))
  {
    hide Fires, GivenUp, GivenUpOn, SetsIn, ClearsIn, ClearEntry, ArmEntry, Visit;
    if s.scanner.waiting && s.scanner.request.id != s.scanner.previous {
      LogSnoc(s.log, Cleared(s.scanner.request.id, s.scanner.request.stop));
    } else if s.clears != [] && !s.scanner.waiting {
    } else if s.sets != [] {
      LogSnoc(s.log, Armed(s.sets[0].id, s.sets[0].kind));
    } else {
      VisitTells(s, room);
    }
  }

  lemma VisitTells(s: State, room: bool)
    requires StreamsTell(s)
    ensures StreamsTell(Visit(s, room))
  {
    hide Fires, GivenUp, GivenUpOn, SetsIn, ClearsIn, VisitEntry;
    var c := s.scanner.cursor;
    var e := s.table[c];
    if e.active && c < MAX_SESSIONS {
      if e.time > 0 {
        LogSnoc(s.log, Ticked(c));
      } else if room && e.retries < MAX_ATTEMPTS {
        LogSnoc(s.log, Fired(c, e.kind, (e.retries + 1) % 8));
      } else if room {
        LogSnoc(s.log, GaveUp(c, e.kind));
      }
    }
    assert s.log + [] == s.log;
  }

  lemma NextTells(s: State, times: Times, a: Action)
    requires StreamsTell(s)
    ensures StreamsTell(Next(s, times, a))
  {
    hide Step, Fires, GivenUp, GivenUpOn;
    if a.Run? { StepTells(s, times, a.room); }
  }

  lemma {:induction false} RunTells(times: Times, actions: seq<Action>)
    ensures StreamsTell(Play(Initial(), times, actions))
  {
    hide Next;
    if actions != [] {
      RunTells(times, actions[..|actions| - 1]);
      NextTells(Play(Initial(), times, actions[..|actions| - 1]), times, actions[|actions| - 1]);
    }
  }

  /** In every run: the events sent are the retransmissions of the log, the sessions released are
      those given up in it - each at the expiry that follows retransmissions 1, 2, 3 and 4 - and each
      release goes with exactly one notice: to the application that was opening the session if a SYN was
      given up on, to the one using it otherwise. */
  lemma OneNoticePerRelease(times: Times, actions: seq<Action>)
    ensures var s := Play(Initial(), times, actions);
            && s.out.events == Fires(s.log) && s.out.releases == GivenUp(s.log)
            && s.out.txNotices == GivenUpOn(s.log, true) && s.out.rxNotices == GivenUpOn(s.log, false)
            && multiset(s.out.releases) == multiset(s.out.rxNotices) + multiset(s.out.txNotices)
            && forall i :: 0 <= i < |s.log| && s.log[i].GaveUp? ==>
                 var t := Story(s.log[..i], s.log[i].id, times);
                 t.armed && t.ticks == t.due && t.counts == [1, 2, 3, 4]
  {
    RunTells(times, actions);
    RunIsLawful(times, actions);
    hide Play, Story, Agrees, GivenUp, GivenUpOn, Fires;
    EachIsOfOneKind(Play(Initial(), times, actions).log);
  }

  // ---------- No running timer is lost ----------

  function Visits(s: State, n: nat): State {
    if n == 0 then s else Visit(Visits(s, n - 1), true)
  }

  /** The visits of the cursor until the timer of a session expires. */
  ghost function Remaining(s: State, id: SessionId): nat {
    var c := s.scanner.cursor;
    (if c <= id then id - c else if c < MAX_SESSIONS then id + MAX_SESSIONS - c else id + 1)
    + MAX_SESSIONS * s.table[id].time + 1
  }

  lemma VisitProgress(s: State, id: SessionId)
    requires s.table[id].active
    ensures var t := Visit(s, true);
            if Remaining(s, id) == 1 then
              !t.table[id].active && |t.log| == |s.log| + 1 && t.log[|s.log|].id == id &&
              (t.log[|s.log|].Fired? || t.log[|s.log|].GaveUp?)
            else t.table[id].active && Remaining(t, id) == Remaining(s, id) - 1
  {
  }

  /** From any state, with the cursor anywhere, a running timer expires at exactly the visit its
      remaining time says - neither sooner nor later - while nothing arrives. */
  lemma {:induction false} RunningTimerExpires(s: State, id: SessionId, n: nat)
    requires s.table[id].active && n <= Remaining(s, id)
    ensures Remaining(s, id) <= MAX_SESSIONS * (s.table[id].time + 1) + 1
    ensures var t := Visits(s, n);
            if n < Remaining(s, id) then t.table[id].active && Remaining(t, id) == Remaining(s, id) - n
            else t.log != [] && t.log[|t.log| - 1].id == id &&
                 (t.log[|t.log| - 1].Fired? || t.log[|t.log| - 1].GaveUp?)
  {
    if n > 0 {
      RunningTimerExpires(s, id, n - 1);
      VisitProgress(Visits(s, n - 1), id);
    }
  }

  // ---------- A clear request can be overtaken ----------

  /** The next five steps, with room, when the given requests are all there is. */
  function FiveSteps(s: State, times: Times): State {
    Step(Step(Step(Step(Step(s, times, true), times, true), times, true), times, true), times, true)
  }

  /** A stop and then a new start for the same session: the timer runs afterwards if and only if the
      entry touched last was another session's. Otherwise the stop waits one or two steps, the start
      goes first, and the stop then takes the new timer with it. */
  lemma StartAfterStopSurvivesIff(s: State, times: Times, id: SessionId, kind: Kind)
    requires times.s1 > 0 && !s.scanner.waiting
    requires s.clears == [Clear(id, true)] && s.sets == [Set(id, kind)]
    ensures FiveSteps(s, times).table[id].active <==> s.scanner.previous != id
  {
    hide VisitItems;
    var s1 := Step(s, times, true);
    var s2 := Step(s1, times, true);
    var s3 := Step(s2, times, true);
    var s4 := Step(s3, times, true);
    var s5 := Step(s4, times, true);
    if s.scanner.previous != id {
      assert s2.table[id] == ClearEntry(s.table[id], true, times);
      assert s3.table[id].active && s3.table[id].time == times.s1;
    } else {
      assert s2.table[id].active && s2.scanner.previous == id;
    }
  }

  // ---------- The cursor leaves the table ----------

  /** A request to arm a session pushes the cursor past the 128 entries of the table exactly when
      the cursor stands at one of the last five, at most two places before the session. */
  lemma CursorLeavesTableIff(s: State, times: Times)
    requires s.sets != [] && s.scanner.cursor < MAX_SESSIONS
    ensures Arm(s, times).scanner.cursor >= MAX_SESSIONS <==>
            123 <= s.scanner.cursor <= s.sets[0].id && s.sets[0].id - s.scanner.cursor <= 2
  {
  }

  /** And this happens in a run from the start: 127 quiet steps, then a request for the last session. */
  lemma CursorReaches132(times: Times)
    ensures var s := Visits(Initial(), 127);
            Step(s.(sets := [Set(127, RT)]), times, true).scanner.cursor == 132
  {
    IdleVisits(127);
  }

  lemma {:induction false} IdleVisits(n: nat)
    requires n < MAX_SESSIONS
    ensures Visits(Initial(), n) == Initial().(scanner := Visits(Initial(), n).scanner)
    ensures Visits(Initial(), n).scanner == Scanner(n, if n == 0 then 0 else n - 1, false, Clear(0, false))
  {
    if n > 0 { IdleVisits(n - 1); }
  }

  // ---------- The module ----------

  class RetransmitTimerModule {
    const table: array<Entry>
    var scanner: Scanner
    var clears: seq<Clear>
    var sets: seq<Set>
    var events: seq<(SessionId, Kind, u3)>
    var releases: seq<SessionId>
    var rxNotices: seq<SessionId>
    var txNotices: seq<SessionId>
    ghost var log: seq<Item>

    ghost predicate Valid() { table.Length == PLACES }

    ghost function View(): State
      requires Valid()
      reads this, table
    {
      State(table[..], scanner, clears, sets, Streams(events, releases, rxNotices, txNotices), log)
    }

    constructor ()
      ensures Valid() && fresh(table) && View() == Initial()
    {
      table := new Entry[133](i => Entry(0, 0, false, TX));
      scanner, clears, sets := Scanner(0, 0, false, Clear(0, false)), [], [];
      events, releases, rxNotices, txNotices, log := [], [], [], [], [];
    }

    /** The RX engine's pending request is written into the table. */
    method WriteClear(times: Times)
      requires Valid()
      modifies `scanner, `log, table
      ensures Valid() && View() == ApplyClear(old(View()), times)
    {
      var id := scanner.request.id;
      if !scanner.request.stop {
        table[id] := table[id].(time := times.s1);
      } else {
        table[id] := table[id].(time := 0, active := false);
      }
      table[id] := table[id].(retries := 0);
      scanner := scanner.(waiting := false);
      log := log + [Cleared(id, scanner.request.stop)];
    }

    /** The TX engine's request arms a timer. */
    method ArmTimer(times: Times)
      requires Valid() && sets != []
      modifies `scanner, `sets, `log, table
      ensures Valid() && View() == Arm(old(View()), times)
    {
      var q := sets[0];
      sets := sets[1..];
      if q.id - 3 < scanner.cursor && scanner.cursor <= q.id {
        scanner := scanner.(cursor := scanner.cursor + 5);
      }
      var entry := table[q.id].(kind := q.kind);
      if !entry.active {
        entry := entry.(time := Interval(times, entry.retries));
      }
      table[q.id] := entry.(active := true);
      scanner := scanner.(previous := q.id);
      log := log + [Armed(q.id, q.kind)];
    }

    /** The session is released, and its application told. */
    method GiveUp(id: SessionId, kind: Kind)
      modifies `releases, `rxNotices, `txNotices
      ensures releases == old(releases) + [id]
      ensures rxNotices == old(rxNotices) + (if kind == SYN then [] else [id])
      ensures txNotices == old(txNotices) + (if kind == SYN then [id] else [])
    {
      releases := releases + [id];
      if kind == SYN {
        txNotices := txNotices + [id];
      } else {
        rxNotices := rxNotices + [id];
      }
    }

    /** The cursor visits the next entry. */
    method VisitNext(room: bool)
      requires Valid()
      requires forall p :: MAX_SESSIONS <= p < PLACES ==> !table[p].active
      modifies `scanner, `events, `releases, `rxNotices, `txNotices, `log, table
      ensures Valid() && View() == Visit(old(View()), room)
    {
      var c := scanner.cursor;
      scanner := scanner.(cursor := if c + 1 >= MAX_SESSIONS then 0 else c + 1, previous := c);
      var entry := table[c];
      if entry.active {
        if entry.time > 0 {
          entry := entry.(time := entry.time - 1);
          log := log + [Ticked(c)];
        } else if room {
          entry := entry.(time := 0, active := false);
          if entry.retries < MAX_ATTEMPTS {
            entry := entry.(retries := (entry.retries + 1) % 8);
            events := events + [(c, entry.kind, entry.retries)];
            log := log + [Fired(c, entry.kind, entry.retries)];
          } else {
            entry := entry.(retries := 0);
            GiveUp(c, entry.kind);
            log := log + [GaveUp(c, entry.kind)];
          }
        }
      }
      table[c] := entry;
    }

    /** One call. */
    method Run(times: Times, room: bool)
      requires Valid()
      requires forall p :: MAX_SESSIONS <= p < PLACES ==> !table[p].active
      modifies this, table
      ensures Valid() && View() == Step(old(View()), times, room)
      ensures forall p :: MAX_SESSIONS <= p < PLACES ==> !table[p].active
    {
      hide ArmEntry, ClearEntry, VisitItems, VisitStreams;
      if scanner.waiting && scanner.request.id != scanner.previous {
        WriteClear(times);
      } else if clears != [] && !scanner.waiting {
        scanner := scanner.(request := clears[0], waiting := true);
        clears := clears[1..];
      } else if sets != [] {
        ArmTimer(times);
      } else {
        VisitNext(room);
      }
    }
  }
}
