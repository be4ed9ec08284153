/** Delayed acknowledgements: the first pure ACK of a session is absorbed and a count-down started;
    the next event of the session takes the ACK with it, or the count-down sends it.
 */
module AckDelay {
  import opened Words

  type u12 = x: int | 0 <= x < 0x1000
  type Table = s: seq<u12> | |s| == MAX_SESSIONS witness seq(MAX_SESSIONS, i => 0)

  /** Event types; only whether it is a plain ACK matters here. */
  datatype Event = Event(isAck: bool, id: SessionId)

  /** What happened, in order: an ACK was absorbed, an event was forwarded, or a count-down sent an ACK. */
  datatype Item = Absorbed(id: SessionId) | Forwarded(event: Event) | Timed(id: SessionId)

  function SessionOf(item: Item): SessionId { if item.Forwarded? then item.event.id else item.id }

  /** The table, the scan's place, the events to take, and the log. */
  datatype State = State(table: Table, cursor: SessionId, events: seq<Event>, log: seq<Item>)

  // ---------- One step ----------

  function TakeEvent(s: State, delay: u12): State
    requires s.events != []
  {
    var e := s.events[0];
    if e.isAck && s.table[e.id] == 0 then
      s.(events := s.events[1..], table := s.table[e.id := delay], log := s.log + [Absorbed(e.id)])
    else
      s.(events := s.events[1..], table := s.table[e.id := 0], log := s.log + [Forwarded(e)])
  }

  /** Without an event one entry of the table is looked at; it counts down only if there is room for
      the ACK it may have to send. */
  function Scan(s: State, room: bool): State {
    var c := s.cursor;
    var cursor := if c + 1 == MAX_SESSIONS then 0 else c + 1;
    if s.table[c] > 0 && room then
      s.(table := s.table[c := s.table[c] - 1], cursor := cursor,
         log := if s.table[c] == 1 then s.log + [Timed(c)] else s.log)
    else s.(cursor := cursor)
  }

  function Step(s: State, delay: u12, room: bool): State {
    if s.events != [] then TakeEvent(s, delay) else Scan(s, room)
  }

  datatype Action = Arrive(event: Event) | Run(room: bool)

  function Next(s: State, delay: u12, a: Action): State {
    match a
    case Arrive(e) => s.(events := s.events + [e])
    case Run(room) => Step(s, delay, room)
  }

  function Initial(): State { State(seq(MAX_SESSIONS, i => 0), 0, [], []) }

  function Play(s: State, delay: u12, actions: seq<Action>): State {
    if actions == [] then s
    else Next(Play(s, delay, actions[..|actions| - 1]), delay, actions[|actions| - 1])
  }

  // ---------- Nothing absorbed is forgotten ----------

  /** The last thing in the log about a session is that an ACK of it was absorbed. */
  ghost predicate Owed(log: seq<Item>, id: SessionId) {
    log != [] &&
    (var item := log[|log| - 1];
     if SessionOf(item) == id then item.Absorbed?
     else Owed(log[..|log| - 1], id))
  }

  lemma OwedSnoc(log: seq<Item>, item: Item, id: SessionId)
    ensures Owed(log + [item], id) == if SessionOf(item) == id then item.Absorbed? else Owed(log, id)
  {
    assert (log + [item])[..|log|] == log;
  }

  /** A count-down runs exactly for the sessions that are owed an acknowledgement. */
  ghost predicate CountsDown(s: State) {
    forall id: SessionId :: s.table[id] > 0 <==> Owed(s.log, id)
  }

  lemma StepCountsDown(s: State, delay: u12, room: bool)
    requires CountsDown(s) && delay > 0
    ensures CountsDown(Step(s, delay, room))
  {
    hide Owed;
    var t := Step(s, delay, room);
    forall id: SessionId ensures t.table[id] > 0 <==> Owed(t.log, id) {
      assert s.table[id] > 0 <==> Owed(s.log, id);
      if |t.log| > |s.log| {
        OwedSnoc(s.log, t.log[|s.log|], id);
        assert t.log == s.log + [t.log[|s.log|]];
      }
    }
  }

  /** In every run a session's count-down runs if and only if an ACK of it has been absorbed and no
      event of it forwarded since. */
  lemma {:induction false} AbsorbedIsOwed(delay: u12, actions: seq<Action>)
    requires delay > 0
    ensures CountsDown(Play(Initial(), delay, actions))
  {
    hide Next, Owed;
    if actions == [] {
      InitiallyNothing();
    } else {
      AbsorbedIsOwed(delay, actions[..|actions| - 1]);
      var s := Play(Initial(), delay, actions[..|actions| - 1]);
      NextCountsDown(s, delay, actions[|actions| - 1]);
    }
  }

  lemma NextCountsDown(s: State, delay: u12, a: Action)
    requires CountsDown(s) && delay > 0
    ensures CountsDown(Next(s, delay, a))
  {
    hide Owed, Step;
    if a.Run? { StepCountsDown(s, delay, a.room); }
  }

  lemma InitiallyNothing()
    ensures CountsDown(Initial())
  {
  }

  // ---------- Every event is taken once, in order ----------

  /** The events that arrived in a run. */
  ghost function Arrived(actions: seq<Action>): seq<Event> {
    if actions == [] then []
    else
      var a := actions[|actions| - 1];
      Arrived(actions[..|actions| - 1]) + if a.Arrive? then [a.event] else []
  }

  /** The events behind the log: an absorbed one was a plain ACK, and a count-down takes none. */
  ghost function Taken(log: seq<Item>): seq<Event> {
    if log == [] then [] else Taken(log[..|log| - 1]) + TakenBy(log[|log| - 1])
  }

  ghost function TakenBy(item: Item): seq<Event> {
    match item
    case Absorbed(id) => [Event(true, id)]
    case Forwarded(e) => [e]
    case Timed(_) => []
  }

  lemma TakenSnoc(log: seq<Item>, item: Item)
    ensures Taken(log + [item]) == Taken(log) + TakenBy(item)
  {
    assert (log + [item])[..|log|] == log;
  }

  /** One step writes one item at most: a waiting event is taken - absorbed exactly if it is a plain ACK of
      a session that is owed none - and only if none waits, a session that is owed one may have its ACK
      sent by the count-down. */
  lemma StepIs(s: State, delay: u12, room: bool)
    requires CountsDown(s)
    ensures var t := Step(s, delay, room);
            if s.events != [] then
              var e := s.events[0];
              && t.events == s.events[1..]
              && t.log == s.log + [if e.isAck && !Owed(s.log, e.id) then Absorbed(e.id) else Forwarded(e)]
            else
              && t.events == []
              && (t.log == s.log || (room && Owed(s.log, s.cursor) && t.log == s.log + [Timed(s.cursor)]))
  {
    hide Owed;
  }

  /** In every run the events that arrived are those taken - each absorbed or forwarded, once and in
      order - and those that still wait; and what each step takes is as told above. */
  lemma {:induction false} EventsAreTakenOnce(delay: u12, actions: seq<Action>)
    requires delay > 0
    ensures var s := Play(Initial(), delay, actions); Taken(s.log) + s.events == Arrived(actions)
  {
    hide Next, Owed;
    if actions != [] {
      hide Initial;
      var n := |actions| - 1;
      EventsAreTakenOnce(delay, actions[..n]);
      AbsorbedIsOwed(delay, actions[..n]);
      NextTakes(Play(Initial(), delay, actions[..n]), delay, actions[n]);
    }
  }

  lemma NextTakes(s: State, delay: u12, a: Action)
    requires CountsDown(s)
    ensures var t := Next(s, delay, a);
            Taken(t.log) + t.events == Taken(s.log) + s.events + if a.Arrive? then [a.event] else []
  {
    hide Step, Owed, Taken, CountsDown;
    if a.Run? {
      StepIs(s, delay, a.room);
      var t := Step(s, delay, a.room);
      if t.log != s.log {
        TakenSnoc(s.log, t.log[|s.log|]);
        assert t.log == s.log + [t.log[|s.log|]];
      }
    }
  }

  /** In every run one step takes the oldest event - and absorbs it exactly if it is a plain ACK of a
      session with no absorbed ACK outstanding - or, if none waits, sends no more than the ACK the
      session under the cursor is owed. */
  lemma EachStepTakes(delay: u12, actions: seq<Action>, room: bool)
    requires delay > 0
    ensures var s := Play(Initial(), delay, actions);
            var t := Step(s, delay, room);
            if s.events != [] then
              var e := s.events[0];
              && t.events == s.events[1..]
              && t.log == s.log + [if e.isAck && !Owed(s.log, e.id) then Absorbed(e.id) else Forwarded(e)]
            else
              && t.events == []
              && (t.log == s.log || (room && Owed(s.log, s.cursor) && t.log == s.log + [Timed(s.cursor)]))
  {
    AbsorbedIsOwed(delay, actions);
    hide Play, Owed, Step, CountsDown;
    StepIs(Play(Initial(), delay, actions), delay, room);
  }

  // ---------- And it is sent in time ----------

  /** The steps without an event until the count-down of a session sends its ACK. */
  ghost function Remaining(s: State, id: SessionId): nat
    requires s.table[id] > 0
  {
    (if s.cursor <= id then id - s.cursor else id + MAX_SESSIONS - s.cursor) + MAX_SESSIONS * (s.table[id] - 1) + 1
  }

  lemma RemainingBound(s: State, id: SessionId)
    requires s.table[id] > 0
    ensures Remaining(s, id) <= MAX_SESSIONS * s.table[id]
  {
  }

  ghost predicate ForwardedSince(s: State, t: State, id: SessionId) {
    exists i :: |s.log| <= i < |t.log| && !t.log[i].Absorbed? && SessionOf(t.log[i]) == id
  }

  /** A step without an event, with room, brings the ACK one step nearer, or sends it. */
  lemma ScanProgress(s: State, id: SessionId)
    requires s.table[id] > 0
    ensures var t := Scan(s, true);
            if s.cursor == id && s.table[id] == 1 then t.log == s.log + [Timed(id)]
            else t.table[id] > 0 && Remaining(t, id) == Remaining(s, id) - 1 && s.log <= t.log
  {
  }

  /** A step with an event leaves the count-down alone, or forwards an event of the session. */
  lemma TakeProgress(s: State, delay: u12, id: SessionId)
    requires s.table[id] > 0 && s.events != []
    ensures var t := TakeEvent(s, delay);
            if s.events[0].id == id then t.log == s.log + [Forwarded(s.events[0])]
            else t.table[id] == s.table[id] && t.cursor == s.cursor && s.log <= t.log
  {
  }

  /** The steps of a run that find no event. */
  ghost function IdleSteps(s: State, delay: u12, actions: seq<Action>): nat {
    if actions == [] then 0
    else
      var n := |actions| - 1;
      IdleSteps(s, delay, actions[..n]) +
      (if actions[n].Run? && Play(s, delay, actions[..n]).events == [] then 1 else 0)
  }

  /** While the count-down of a session has not sent its ACK, each step without an event has brought
      it one nearer. */
  lemma {:induction false} Approaches(s: State, delay: u12, actions: seq<Action>, id: SessionId)
    requires s.table[id] > 0 && forall a <- actions :: a.Run? ==> a.room
    ensures var t := Play(s, delay, actions);
            && s.log <= t.log
            && (ForwardedSince(s, t, id) ||
                (t.table[id] > 0 && Remaining(t, id) + IdleSteps(s, delay, actions) == Remaining(s, id)))
  {
    if actions != [] {
      var n := |actions| - 1;
      Approaches(s, delay, actions[..n], id);
      OneMore(s, Play(s, delay, actions[..n]), delay, actions[n], id, IdleSteps(s, delay, actions[..n]));
    }
  }

  lemma OneMore(s: State, t: State, delay: u12, a: Action, id: SessionId, idle: nat)
    requires s.table[id] > 0 && (a.Run? ==> a.room) && s.log <= t.log
    requires ForwardedSince(s, t, id) || (t.table[id] > 0 && Remaining(t, id) + idle == Remaining(s, id))
    ensures var u := Next(t, delay, a);
            && s.log <= u.log
            && (ForwardedSince(s, u, id) ||
                (u.table[id] > 0 &&
                 Remaining(u, id) + idle + (if a.Run? && t.events == [] then 1 else 0) == Remaining(s, id)))
  {
    var u := Next(t, delay, a);
    LogGrows(t, delay, a);
    if ForwardedSince(s, t, id) {
      var i :| |s.log| <= i < |t.log| && !t.log[i].Absorbed? && SessionOf(t.log[i]) == id;
      assert u.log[i] == t.log[i];
    } else if a.Run? {
      if t.events == [] {
        ScanProgress(t, id);
      } else {
        TakeProgress(t, delay, id);
      }
      hide Remaining;
      if |u.log| > |t.log| && !u.log[|t.log|].Absorbed? && SessionOf(u.log[|t.log|]) == id {
        assert ForwardedSince(s, u, id);
      }
    }
  }

  lemma LogGrows(s: State, delay: u12, a: Action)
    ensures s.log <= Next(s, delay, a).log
  {
  }

  /** An absorbed ACK goes out in time: from any state in which session `id` has k left on its
      count-down, a run with 128 * k steps that find no event - and room to send - forwards an event
      of the session, whatever else arrives meanwhile. */
  lemma AbsorbedAckIsSent(s: State, delay: u12, actions: seq<Action>, id: SessionId)
    requires s.table[id] > 0 && forall a <- actions :: a.Run? ==> a.room
    requires IdleSteps(s, delay, actions) >= MAX_SESSIONS * s.table[id]
    ensures ForwardedSince(s, Play(s, delay, actions), id)
  {
    Approaches(s, delay, actions, id);
    RemainingBound(s, id);
    hide Play, IdleSteps;
  }

  // ---------- The module ----------

  class AckDelayModule {
    const table: array<u12>
    var cursor: SessionId
    var events: seq<Event>
    var forwarded: seq<Event>
    ghost var log: seq<Item>

    ghost predicate Valid() { table.Length == MAX_SESSIONS }

    ghost function View(): State
      requires Valid()
      reads this, table
    {
      State(table[..], cursor, events, log)
    }

    constructor ()
      ensures Valid() && fresh(table) && View() == Initial() && forwarded == []
    {
      table := new u12[MAX_SESSIONS](i => 0);
      cursor, events, forwarded, log := 0, [], [], [];
    }

    /** One call; `room` says that the stream to the TX engine is not full. */
    method Run(delay: u12, room: bool)
      requires Valid()
      modifies this, table
      ensures Valid() && View() == Step(old(View()), delay, room)
      ensures forwarded == old(forwarded) + Events(log[|old(log)|..]) && old(log) <= log
    {
      if events != [] {
        var event := events[0];
        events := events[1..];
        if event.isAck && table[event.id] == 0 {
          table[event.id] := delay;
          log := log + [Absorbed(event.id)];
        } else {
          table[event.id] := 0;
          forwarded := forwarded + [event];
          log := log + [Forwarded(event)];
        }
      } else {
        if table[cursor] > 0 && room {
          if table[cursor] == 1 {
            forwarded := forwarded + [Event(true, cursor)];
            log := log + [Timed(cursor)];
          }
          table[cursor] := table[cursor] - 1;
        }
        cursor := if cursor + 1 == MAX_SESSIONS then 0 else cursor + 1;
      }
    }
  }

  /** What goes to the TX engine in a piece of the log. */
  ghost function Events(log: seq<Item>): seq<Event> {
    if log == [] then [] else SentBy(log[0]) + Events(log[1..])
  }

  ghost function SentBy(item: Item): seq<Event> {
    match item
    case Absorbed(_) => []
    case Forwarded(e) => [e]
    case Timed(id) => [Event(true, id)]
  }
}
