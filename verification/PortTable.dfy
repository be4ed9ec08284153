/** The port table: ports applications listen on (below 2^15), ports handed out to connections that
    applications open (from 2^15), and the RX engine's checks, which go to one table or the other
    and come back in the order they were asked.
 */
module PortTable {
  import opened Words

  const PORTS: nat := 0x8000

  type u15 = x: int | 0 <= x < 0x8000
  type Role = x: int | 0 <= x < 16

  datatype Entry = Entry(isOpen: bool, role: Role)
  type Table = s: seq<Entry> | |s| == 0x8000 witness seq(0x8000, i => Entry(false, 0))

  datatype ListenRequest = ListenRequest(port: u16, role: Role)
  datatype ListenAnswer = ListenAnswer(port: u16, success: bool, wrong: bool, alreadyOpen: bool, role: Role)

  /** What the tables did to ports, in order. */
  datatype Change = Opened(port: u16, role: Role) | Closed(port: u16)

  /** A check as the RX engine sent it, and how many changes there had been by then. */
  datatype Ask = Ask(port: u16, at: nat)

  /** A check on its way to a table; `ask` says which one it is. */
  datatype Query = Query(port: u15, ghost ask: nat)

  /** A table's answer; `at` says how many changes the table's answer takes into account. */
  datatype Reply = Reply(isOpen: bool, role: Role, ghost ask: nat, ghost at: nat)

  datatype Mux = ReadDst | ReadListening | ReadUsed

  /** The path of the checks: forwarded queries, where they went, replies, and what came out. */
  datatype Checks = Checks(
    listenQueries: seq<Query>,
    usedQueries: seq<Query>,
    destinations: seq<bool>,
    listenReplies: seq<Reply>,
    usedReplies: seq<Reply>,
    mux: Mux,
    asked: seq<Ask>,
    answers: seq<Reply>)

  datatype Tables = Tables(listening: Table, free: Table, cursor: u15)

  datatype Inputs = Inputs(listens: seq<ListenRequest>, releases: seq<u16>, frees: seq<Role>, checks: seq<u16>)

  datatype State = State(
    tables: Tables,
    checks: Checks,
    inputs: Inputs,
    listenAnswers: seq<ListenAnswer>,
    handedOut: seq<u16>,
    changes: seq<Change>)

  // ---------- The four processes ----------

  function IsListening(port: u16): bool { port < PORTS }

  function Port(listening: bool, port: u15): u16 { if listening then port else PORTS + port }

  ghost function Listen(s: State): State
    requires s.inputs.listens != []
  {
    var q := s.inputs.listens[0];
    var p := q.port % 0x8000;
    var wrong := !IsListening(q.port);
    var ok := !s.tables.listening[p].isOpen && !wrong;
    s.(inputs := s.inputs.(listens := s.inputs.listens[1..]),
       tables := if ok then s.tables.(listening := s.tables.listening[p := Entry(true, q.role)]) else s.tables,
       changes := if ok then s.changes + [Opened(q.port, q.role)] else s.changes,
       listenAnswers := s.listenAnswers + [ListenAnswer(q.port, ok, wrong, !ok, q.role)])
  }

  ghost function Answer(e: Entry, q: Query, at: nat): Reply { Reply(e.isOpen, e.role, q.ask, at) }

  ghost function CheckListening(s: State): State
    requires s.checks.listenQueries != []
  {
    var q := s.checks.listenQueries[0];
    s.(checks := s.checks.(
         listenQueries := s.checks.listenQueries[1..],
         listenReplies := s.checks.listenReplies + [Answer(s.tables.listening[q.port], q, |s.changes|)]))
  }

  ghost function ListeningTable(s: State): State {
    if s.inputs.listens != [] then Listen(s)
    else if s.checks.listenQueries != [] then CheckListening(s)
    else s
  }

  ghost function Release(s: State): State
    requires s.inputs.releases != []
  {
    var port := s.inputs.releases[0];
    var t := s.(inputs := s.inputs.(releases := s.inputs.releases[1..]));
    if IsListening(port) then t
    else
      var p := port - PORTS;
      t.(tables := s.tables.(free := s.tables.free[p := s.tables.free[p].(isOpen := false)]),
         changes := s.changes + [Closed(port)])
  }

  ghost function CheckUsed(s: State): State
    requires s.checks.usedQueries != []
  {
    var q := s.checks.usedQueries[0];
    s.(checks := s.checks.(
         usedQueries := s.checks.usedQueries[1..],
         usedReplies := s.checks.usedReplies + [Answer(s.tables.free[q.port], q, |s.changes|)]))
  }

  ghost function HandOut(s: State, room: bool): State
    requires s.inputs.frees != []
  {
    var role := s.inputs.frees[0];
    var c := s.tables.cursor;
    var t := s.(inputs := s.inputs.(frees := s.inputs.frees[1..]));
    var cursor := (c + 1) % 0x8000;
    if !s.tables.free[c].isOpen && room then
      t.(tables := s.tables.(free := s.tables.free[c := Entry(true, role)], cursor := cursor),
         handedOut := s.handedOut + [PORTS + c],
         changes := s.changes + [Opened(PORTS + c, role)])
    else t.(tables := s.tables.(cursor := cursor))
  }

  ghost function FreeTable(s: State, room: bool): State {
    if s.inputs.releases != [] then Release(s)
    else if s.checks.usedQueries != [] then CheckUsed(s)
    else if s.inputs.frees != [] then HandOut(s, room)
    else s
  }

  ghost function CheckIn(s: State): State {
    if s.inputs.checks == [] then s
    else
      var port := s.inputs.checks[0];
      var c := s.checks;
      var q := Query(port % 0x8000, |c.asked|);
      s.(inputs := s.inputs.(checks := s.inputs.checks[1..]),
         checks := c.(
           asked := c.asked + [Ask(port, |s.changes|)],
           destinations := c.destinations + [IsListening(port)],
           listenQueries := if IsListening(port) then c.listenQueries + [q] else c.listenQueries,
           usedQueries := if IsListening(port) then c.usedQueries else c.usedQueries + [q]))
  }

  ghost function CheckOut(c: Checks): Checks {
    match c.mux
    case ReadDst =>
      if c.destinations == [] then c
      else c.(destinations := c.destinations[1..], mux := if c.destinations[0] then ReadListening else ReadUsed)
    case ReadListening =>
      if c.listenReplies == [] then c
      else c.(listenReplies := c.listenReplies[1..], answers := c.answers + [c.listenReplies[0]], mux := ReadDst)
    case ReadUsed =>
      if c.usedReplies == [] then c
      else c.(usedReplies := c.usedReplies[1..], answers := c.answers + [c.usedReplies[0]], mux := ReadDst)
  }

  datatype Action =
    | ArriveListen(listen: ListenRequest)
    | ArriveRelease(port: u16)
    | ArriveFree(role: Role)
    | ArriveCheck(port: u16)
    | RunListening
    | RunFree(room: bool)
    | RunIn
    | RunOut

  ghost function Next(s: State, a: Action): State {
    match a
    case ArriveListen(q) => s.(inputs := s.inputs.(listens := s.inputs.listens + [q]))
    case ArriveRelease(p) => s.(inputs := s.inputs.(releases := s.inputs.releases + [p]))
    case ArriveFree(r) => s.(inputs := s.inputs.(frees := s.inputs.frees + [r]))
    case ArriveCheck(p) => s.(inputs := s.inputs.(checks := s.inputs.checks + [p]))
    case RunListening => ListeningTable(s)
    case RunFree(room) => FreeTable(s, room)
    case RunIn => CheckIn(s)
    case RunOut => s.(checks := CheckOut(s.checks))
  }

  ghost function Initial(): State {
    var none := seq(0x8000, i => Entry(false, 0));
    State(Tables(none, none, 0), Checks([], [], [], [], [], ReadDst, [], []), Inputs([], [], [], []), [], [], [])
  }

  ghost function Play(s: State, actions: seq<Action>): State {
    if actions == [] then s else Next(Play(s, actions[..|actions| - 1]), actions[|actions| - 1])
  }

  // ---------- What the changes mean ----------

  /** Who has a port open after these changes, if anyone. */
  function Holder(changes: seq<Change>, port: u16): Option<Role> {
    if changes == [] then None
    else
      var last := changes[|changes| - 1];
      if last.port == port then (if last.Opened? then Some(last.role) else None)
      else Holder(changes[..|changes| - 1], port)
  }

  lemma HolderSnoc(changes: seq<Change>, c: Change, port: u16)
    ensures Holder(changes + [c], port) ==
            if c.port == port then (if c.Opened? then Some(c.role) else None) else Holder(changes, port)
  {
    assert (changes + [c])[..|changes|] == changes;
  }

  predicate Tells(e: Entry, holder: Option<Role>) {
    e.isOpen == holder.Some? && (e.isOpen ==> e.role == holder.value)
  }

  ghost predicate TablesAgree(tables: Tables, changes: seq<Change>) {
    && (forall p: u15 :: Tells(tables.listening[p], Holder(changes, Port(true, p))))
    && (forall p: u15 :: Tells(tables.free[p], Holder(changes, Port(false, p))))
  }

  /** A port is opened only while nobody holds it, and only handed-out ports are closed again. */
  ghost predicate Exclusive(changes: seq<Change>) {
    forall i :: 0 <= i < |changes| ==>
      if changes[i].Opened? then Holder(changes[..i], changes[i].port).None? else !IsListening(changes[i].port)
  }

  lemma ExclusiveSnoc(changes: seq<Change>, c: Change)
    requires Exclusive(changes)
    requires if c.Opened? then Holder(changes, c.port).None? else !IsListening(c.port)
    ensures Exclusive(changes + [c])
  {
    hide Holder;
    var longer := changes + [c];
    forall i | 0 <= i < |longer|
      ensures if longer[i].Opened? then Holder(longer[..i], longer[i].port).None? else !IsListening(longer[i].port)
    {
      assert longer[..i] == changes[..i];
      if i == |changes| { assert changes[..i] == changes; } else { assert longer[i] == changes[i]; }
    }
  }

  /** The changes open every port handed out, in the order the ports were handed out. */
  function OpenedFree(changes: seq<Change>): seq<u16> {
    if changes == [] then []
    else
      var last := changes[|changes| - 1];
      OpenedFree(changes[..|changes| - 1]) + (if last.Opened? && !IsListening(last.port) then [last.port] else [])
  }

  lemma OpenedFreeSnoc(changes: seq<Change>, c: Change)
    ensures OpenedFree(changes + [c]) ==
            OpenedFree(changes) + (if c.Opened? && !IsListening(c.port) then [c.port] else [])
  {
    assert (changes + [c])[..|changes|] == changes;
  }

  // ---------- Where the checks are ----------

  /** The checks from number `from` on that go to one of the tables. */
  ghost function Numbers(asked: seq<Ask>, from: nat, listening: bool): seq<nat>
    decreases |asked| - from
  {
    if from >= |asked| then []
    else (if IsListening(asked[from].port) == listening then [from] else []) + Numbers(asked, from + 1, listening)
  }

  lemma {:induction false} NumbersSnoc(asked: seq<Ask>, a: Ask, from: nat, listening: bool)
    requires from <= |asked|
    ensures Numbers(asked + [a], from, listening) ==
            Numbers(asked, from, listening) + (if IsListening(a.port) == listening then [|asked|] else [])
    decreases |asked| - from
  {
    if from < |asked| {
      NumbersSnoc(asked, a, from + 1, listening);
    } else {
      assert Numbers(asked + [a], from + 1, listening) == [];
    }
  }

  ghost function QueryNumbers(qs: seq<Query>): seq<nat> { seq(|qs|, i requires 0 <= i < |qs| => qs[i].ask) }
  ghost function ReplyNumbers(rs: seq<Reply>): seq<nat> { seq(|rs|, i requires 0 <= i < |rs| => rs[i].ask) }

  /** The checks whose destination has been read: one more than those answered, while the
      multiplexer waits for its reply. */
  ghost function Taken(c: Checks): nat { |c.answers| + (if c.mux.ReadDst? then 0 else 1) }

  /** Every check is in exactly one place, and the places of each table are in order. */
  ghost predicate InOrder(c: Checks) {
    && Taken(c) + |c.destinations| == |c.asked|
    && (forall i :: 0 <= i < |c.destinations| ==> c.destinations[i] == IsListening(c.asked[Taken(c) + i].port))
    && (!c.mux.ReadDst? ==> c.mux.ReadListening? == IsListening(c.asked[|c.answers|].port))
    && ReplyNumbers(c.listenReplies) + QueryNumbers(c.listenQueries) == Numbers(c.asked, |c.answers|, true)
    && ReplyNumbers(c.usedReplies) + QueryNumbers(c.usedQueries) == Numbers(c.asked, |c.answers|, false)
    && (forall k :: 0 <= k < |c.answers| ==> c.answers[k].ask == k)
  }

  ghost predicate Fits(q: Query, asked: seq<Ask>, listening: bool, now: nat) {
    q.ask < |asked| && asked[q.ask].port == Port(listening, q.port) && asked[q.ask].at <= now
  }

  /** The reply tells who held the port at some moment after the check was sent. */
  ghost predicate Truthful(r: Reply, asked: seq<Ask>, changes: seq<Change>) {
    && r.ask < |asked|
    && asked[r.ask].at <= r.at <= |changes|
    && Tells(Entry(r.isOpen, r.role), Holder(changes[..r.at], asked[r.ask].port))
  }

  ghost predicate QueriesFit(c: Checks, now: nat) {
    && (forall q <- c.listenQueries :: Fits(q, c.asked, true, now))
    && (forall q <- c.usedQueries :: Fits(q, c.asked, false, now))
  }

  ghost predicate RepliesTrue(c: Checks, changes: seq<Change>) {
    && (forall r <- c.listenReplies :: Truthful(r, c.asked, changes))
    && (forall r <- c.usedReplies :: Truthful(r, c.asked, changes))
    && (forall r <- c.answers :: Truthful(r, c.asked, changes))
  }

  ghost predicate Sound(s: State) {
    && TablesAgree(s.tables, s.changes)
    && Exclusive(s.changes)
    && s.handedOut == OpenedFree(s.changes)
    && InOrder(s.checks)
    && QueriesFit(s.checks, |s.changes|)
    && RepliesTrue(s.checks, s.changes)
  }

  // ---------- Every step keeps it ----------

  /** More changes never make an earlier reply untrue. */
  lemma MoreChanges(c: Checks, changes: seq<Change>, change: Change)
    requires QueriesFit(c, |changes|) && RepliesTrue(c, changes)
    ensures QueriesFit(c, |changes + [change]|) && RepliesTrue(c, changes + [change])
  {
    hide Holder, Tells;
    forall r: Reply | Truthful(r, c.asked, changes) ensures Truthful(r, c.asked, changes + [change]) {
      assert (changes + [change])[..r.at] == changes[..r.at];
    }
  }

  lemma MoreAsked(r: Reply, asked: seq<Ask>, a: Ask, changes: seq<Change>)
    requires Truthful(r, asked, changes)
    ensures Truthful(r, asked + [a], changes)
  {
  }

  lemma OpenKeeps(s: State, t: State, listening: bool, p: u15, role: Role)
    requires Sound(s) && Holder(s.changes, Port(listening, p)).None?
    requires t.changes == s.changes + [Opened(Port(listening, p), role)] && t.checks == s.checks
    requires t.tables.listening == if listening then s.tables.listening[p := Entry(true, role)] else s.tables.listening
    requires t.tables.free == if listening then s.tables.free else s.tables.free[p := Entry(true, role)]
    requires t.handedOut == if listening then s.handedOut else s.handedOut + [Port(listening, p)]
    ensures Sound(t)
  {
    hide Holder, OpenedFree, InOrder, Fits, Truthful;
    var c := Opened(Port(listening, p), role);
    MoreChanges(s.checks, s.changes, c);
    ExclusiveSnoc(s.changes, c);
    OpenedFreeSnoc(s.changes, c);
    forall q: u16 ensures Holder(t.changes, q) == if c.port == q then Some(role) else Holder(s.changes, q) {
      HolderSnoc(s.changes, c, q);
    }
    hide Exclusive, QueriesFit, RepliesTrue;
  }

  lemma CloseKeeps(s: State, t: State, p: u15)
    requires Sound(s)
    requires t.changes == s.changes + [Closed(Port(false, p))] && t.checks == s.checks && t.handedOut == s.handedOut
    requires t.tables.listening == s.tables.listening
    requires t.tables.free == s.tables.free[p := s.tables.free[p].(isOpen := false)]
    ensures Sound(t)
  {
    hide Holder, OpenedFree, InOrder, Fits, Truthful;
    var c := Closed(Port(false, p));
    MoreChanges(s.checks, s.changes, c);
    ExclusiveSnoc(s.changes, c);
    OpenedFreeSnoc(s.changes, c);
    forall q: u16 ensures Holder(t.changes, q) == if c.port == q then None else Holder(s.changes, q) {
      HolderSnoc(s.changes, c, q);
    }
    hide Exclusive, QueriesFit, RepliesTrue;
  }

  lemma AnswerIsTrue(s: State, q: Query, listening: bool)
    requires TablesAgree(s.tables, s.changes) && Fits(q, s.checks.asked, listening, |s.changes|)
    ensures var e := if listening then s.tables.listening[q.port] else s.tables.free[q.port];
            Truthful(Answer(e, q, |s.changes|), s.checks.asked, s.changes)
  {
    hide Holder;
    assert s.changes[..|s.changes|] == s.changes;
  }

  lemma HeadMoves(rs: seq<Reply>, qs: seq<Query>, r: Reply)
    requires qs != [] && r.ask == qs[0].ask
    ensures ReplyNumbers(rs + [r]) + QueryNumbers(qs[1..]) == ReplyNumbers(rs) + QueryNumbers(qs)
  {
  }

  lemma CheckListeningKeeps(s: State)
    requires Sound(s) && s.checks.listenQueries != []
    ensures Sound(CheckListening(s))
  {
    var c, d := s.checks, CheckListening(s).checks;
    var q := c.listenQueries[0];
    AnswerIsTrue(s, q, true);
    HeadMoves(c.listenReplies, c.listenQueries, Answer(s.tables.listening[q.port], q, |s.changes|));
    hide Holder, OpenedFree, Fits, Truthful, TablesAgree, Exclusive, ReplyNumbers, QueryNumbers;
    assert d.listenReplies == c.listenReplies + [Answer(s.tables.listening[q.port], q, |s.changes|)];
  }

  lemma CheckUsedKeeps(s: State)
    requires Sound(s) && s.checks.usedQueries != []
    ensures Sound(CheckUsed(s))
  {
    var c, d := s.checks, CheckUsed(s).checks;
    var q := c.usedQueries[0];
    AnswerIsTrue(s, q, false);
    HeadMoves(c.usedReplies, c.usedQueries, Answer(s.tables.free[q.port], q, |s.changes|));
    hide Holder, OpenedFree, Fits, Truthful, TablesAgree, Exclusive, ReplyNumbers, QueryNumbers;
    assert d.usedReplies == c.usedReplies + [Answer(s.tables.free[q.port], q, |s.changes|)];
  }

  lemma ListeningTableKeeps(s: State)
    requires Sound(s)
    ensures Sound(ListeningTable(s))
  {
    if s.inputs.listens != [] {
      var q := s.inputs.listens[0];
      var p := q.port % 0x8000;
      if !s.tables.listening[p].isOpen && IsListening(q.port) {
        hide Holder, OpenedFree, InOrder, QueriesFit, RepliesTrue, Exclusive;
        assert Tells(s.tables.listening[p], Holder(s.changes, Port(true, p)));
        OpenKeeps(s, ListeningTable(s), true, p, q.role);
      }
    } else if s.checks.listenQueries != [] {
      CheckListeningKeeps(s);
    }
  }

  lemma FreeTableKeeps(s: State, room: bool)
    requires Sound(s)
    ensures Sound(FreeTable(s, room))
  {
    hide Holder, OpenedFree, InOrder, QueriesFit, RepliesTrue, Exclusive, CheckUsed;
    if s.inputs.releases != [] {
      var port := s.inputs.releases[0];
      if !IsListening(port) { CloseKeeps(s, FreeTable(s, room), port - PORTS); }
    } else if s.checks.usedQueries != [] {
      CheckUsedKeeps(s);
    } else if s.inputs.frees != [] {
      var c := s.tables.cursor;
      if !s.tables.free[c].isOpen && room {
        assert Tells(s.tables.free[c], Holder(s.changes, Port(false, c)));
        OpenKeeps(s, FreeTable(s, room), false, c, s.inputs.frees[0]);
      }
    }
  }

  lemma CheckInOrder(c: Checks, d: Checks, a: Ask, q: Query)
    requires InOrder(c) && q.ask == |c.asked|
    requires d == c.(
      asked := c.asked + [a],
      destinations := c.destinations + [IsListening(a.port)],
      listenQueries := if IsListening(a.port) then c.listenQueries + [q] else c.listenQueries,
      usedQueries := if IsListening(a.port) then c.usedQueries else c.usedQueries + [q])
    ensures InOrder(d)
  {
    hide Numbers;
    NumbersSnoc(c.asked, a, |c.answers|, true);
    NumbersSnoc(c.asked, a, |c.answers|, false);
    assert QueryNumbers(c.listenQueries + [q]) == QueryNumbers(c.listenQueries) + [q.ask];
    assert QueryNumbers(c.usedQueries + [q]) == QueryNumbers(c.usedQueries) + [q.ask];
    hide QueryNumbers, ReplyNumbers;
    assert ReplyNumbers(d.listenReplies) + QueryNumbers(d.listenQueries) == Numbers(d.asked, |d.answers|, true);
    assert ReplyNumbers(d.usedReplies) + QueryNumbers(d.usedQueries) == Numbers(d.asked, |d.answers|, false);
  }

  lemma CheckInTrue(c: Checks, d: Checks, a: Ask, q: Query, changes: seq<Change>)
    requires QueriesFit(c, |changes|) && RepliesTrue(c, changes)
    requires q.ask == |c.asked| && a.at == |changes| && a.port == Port(IsListening(a.port), q.port)
    requires d == c.(
      asked := c.asked + [a],
      destinations := c.destinations + [IsListening(a.port)],
      listenQueries := if IsListening(a.port) then c.listenQueries + [q] else c.listenQueries,
      usedQueries := if IsListening(a.port) then c.usedQueries else c.usedQueries + [q])
    ensures QueriesFit(d, |changes|) && RepliesTrue(d, changes)
  {
    forall r: Reply | Truthful(r, c.asked, changes) ensures Truthful(r, d.asked, changes) {
      MoreAsked(r, c.asked, a, changes);
    }
    hide Truthful;
  }

  lemma CheckInKeeps(s: State)
    requires Sound(s)
    ensures Sound(CheckIn(s))
  {
    if s.inputs.checks != [] {
      var port := s.inputs.checks[0];
      var c, d := s.checks, CheckIn(s).checks;
      hide InOrder, QueriesFit, RepliesTrue, TablesAgree, Exclusive, OpenedFree;
      CheckInOrder(c, d, Ask(port, |s.changes|), Query(port % 0x8000, |c.asked|));
      CheckInTrue(c, d, Ask(port, |s.changes|), Query(port % 0x8000, |c.asked|), s.changes);
    }
  }

  /** The reply the multiplexer waits for is the first in its table's stream. */
  lemma CheckOutOrder(c: Checks)
    requires InOrder(c)
    ensures InOrder(CheckOut(c))
  {
    var d := CheckOut(c);
    var k := |c.answers|;
    if c.mux.ReadListening? && c.listenReplies != [] {
      assert Numbers(c.asked, k, true) == [k] + Numbers(c.asked, k + 1, true);
      assert Numbers(c.asked, k, false) == Numbers(c.asked, k + 1, false);
      NextReply(c.listenReplies, QueryNumbers(c.listenQueries), k, Numbers(c.asked, k + 1, true));
    } else if c.mux.ReadUsed? && c.usedReplies != [] {
      assert Numbers(c.asked, k, false) == [k] + Numbers(c.asked, k + 1, false);
      assert Numbers(c.asked, k, true) == Numbers(c.asked, k + 1, true);
      NextReply(c.usedReplies, QueryNumbers(c.usedQueries), k, Numbers(c.asked, k + 1, false));
    }
    hide Numbers, QueryNumbers, ReplyNumbers;
  }

  lemma NextReply(rs: seq<Reply>, rest: seq<nat>, k: nat, numbers: seq<nat>)
    requires rs != [] && ReplyNumbers(rs) + rest == [k] + numbers
    ensures rs[0].ask == k && ReplyNumbers(rs[1..]) + rest == numbers
  {
    assert ReplyNumbers(rs) == [rs[0].ask] + ReplyNumbers(rs[1..]);
    assert (ReplyNumbers(rs) + rest)[0] == ([k] + numbers)[0];
    assert (ReplyNumbers(rs) + rest)[1..] == ([k] + numbers)[1..];
  }

  lemma CheckOutTrue(c: Checks, changes: seq<Change>)
    requires QueriesFit(c, |changes|) && RepliesTrue(c, changes)
    ensures QueriesFit(CheckOut(c), |changes|) && RepliesTrue(CheckOut(c), changes)
  {
    hide Truthful, Fits;
  }

  lemma NextKeeps(s: State, a: Action)
    requires Sound(s)
    ensures Sound(Next(s, a))
  {
    hide InOrder, QueriesFit, RepliesTrue, TablesAgree, Exclusive, OpenedFree;
    hide ListeningTable, FreeTable, CheckIn, CheckOut;
    match a
    case RunListening => ListeningTableKeeps(s);
    case RunFree(room) => FreeTableKeeps(s, room);
    case RunIn => CheckInKeeps(s);
    case RunOut => CheckOutOrder(s.checks); CheckOutTrue(s.checks, s.changes);
    case _ =>
  }

  /** In every run, whatever the order in which the four processes step: the tables say who holds
      each port, ports are opened only while nobody holds them, the ports handed out are exactly the
      upper ones opened, and every check is in exactly one place, in order. */
  lemma {:induction false} RunIsSound(actions: seq<Action>)
    ensures Sound(Play(Initial(), actions))
  {
    hide Next, Sound;
    if actions == [] {
      InitiallySound();
    } else {
      RunIsSound(actions[..|actions| - 1]);
      NextKeeps(Play(Initial(), actions[..|actions| - 1]), actions[|actions| - 1]);
    }
  }

  lemma InitiallySound()
    ensures Sound(Initial())
  {
    assert OpenedFree([]) == [];
  }

  // ---------- What the callers get ----------

  ghost function ChecksArrived(actions: seq<Action>): seq<u16> {
    if actions == [] then []
    else
      var a := actions[|actions| - 1];
      ChecksArrived(actions[..|actions| - 1]) + (if a.ArriveCheck? then [a.port] else [])
  }

  ghost function PortsOf(asked: seq<Ask>): seq<u16> { seq(|asked|, i requires 0 <= i < |asked| => asked[i].port) }

  /** In every run the checks asked are those that arrived, in order, less those that still wait. */
  lemma {:induction false} ChecksAreAskedInOrder(actions: seq<Action>)
    ensures var s := Play(Initial(), actions); PortsOf(s.checks.asked) + s.inputs.checks == ChecksArrived(actions)
  {
    hide Next, PortsOf;
    if actions == [] {
      assert PortsOf([]) == [] by { NothingAsked(); }
    } else {
      hide Initial;
      var n := |actions| - 1;
      ChecksAreAskedInOrder(actions[..n]);
      NextAsks(Play(Initial(), actions[..n]), actions[n]);
    }
  }

  lemma NothingAsked()
    ensures PortsOf([]) == []
  {
  }

  lemma NextAsks(s: State, a: Action)
    ensures var t := Next(s, a);
            PortsOf(t.checks.asked) + t.inputs.checks ==
            PortsOf(s.checks.asked) + s.inputs.checks + if a.ArriveCheck? then [a.port] else []
  {
    hide Answer;
    if a.RunIn? && s.inputs.checks != [] {
      var port := s.inputs.checks[0];
      assert PortsOf(s.checks.asked + [Ask(port, |s.changes|)]) == PortsOf(s.checks.asked) + [port];
    }
    hide PortsOf;
  }

  /** The k-th answer answers the k-th check: it tells whether the port was held, and by whom, at
      some moment between the check and now. */
  lemma AnswersComeInOrder(actions: seq<Action>, k: nat)
    requires k < |Play(Initial(), actions).checks.answers|
    ensures var s := Play(Initial(), actions);
            var c := s.checks;
            && |c.answers| <= |c.asked|
            && c.answers[k].ask == k
            && c.asked[k].at <= c.answers[k].at <= |s.changes|
            && Tells(Entry(c.answers[k].isOpen, c.answers[k].role),
                     Holder(s.changes[..c.answers[k].at], c.asked[k].port))
  {
    RunIsSound(actions);
    hide Play, TablesAgree, Exclusive, Numbers, ReplyNumbers, QueryNumbers;
    assert Truthful(Play(Initial(), actions).checks.answers[k],
                    Play(Initial(), actions).checks.asked, Play(Initial(), actions).changes);
  }

  /** The multiplexers never block each other, in any run: while a check is unanswered, the output
      multiplexer can step, or the table it waits for has the query, and writes a reply as soon as it has
      served the requests that come first. A check that waits is taken in at once. */
  lemma ChecksNeverStick(actions: seq<Action>)
    ensures var s := Play(Initial(), actions);
            var c := s.checks;
            && (s.inputs.checks != [] ==> |CheckIn(s).checks.asked| == |c.asked| + 1)
            && (|c.answers| < |c.asked| && CheckOut(c) == c ==>
                  if c.mux.ReadListening? then
                    s.inputs.listens == [] ==>
                      c.listenReplies == [] && |ListeningTable(s).checks.listenReplies| == 1
                  else
                    s.inputs.releases == [] ==> c.usedReplies == [] && |FreeTable(s, true).checks.usedReplies| == 1)
  {
    RunIsSound(actions);
    var c := Play(Initial(), actions).checks;
    hide Play, TablesAgree, Exclusive, RepliesTrue, QueriesFit;
    if |c.answers| < |c.asked| && !c.mux.ReadDst? {
      WaitsForReply(c);
    }
  }

  /** While the output multiplexer waits, its table's query or reply is there. */
  lemma WaitsForReply(c: Checks)
    requires InOrder(c) && |c.answers| < |c.asked| && !c.mux.ReadDst?
    ensures if c.mux.ReadListening? then c.listenQueries != [] || c.listenReplies != []
            else c.usedQueries != [] || c.usedReplies != []
  {
    var l := c.mux.ReadListening?;
    assert Numbers(c.asked, |c.answers|, l) == [|c.answers|] + Numbers(c.asked, |c.answers| + 1, l);
  }

  /** A port held after some changes was opened by one of them and not closed since. */
  lemma {:induction false} HeldUntilClosed(changes: seq<Change>, i: nat, j: nat)
    requires i < j <= |changes| && changes[i].Opened?
    requires forall k :: i < k < j ==> changes[k] != Closed(changes[i].port)
    ensures Holder(changes[..j], changes[i].port).Some?
  {
    assert changes[..j][..j - 1] == changes[..j - 1];
    if j > i + 1 { HeldUntilClosed(changes, i, j - 1); }
  }

  /** In every run, a port opened twice was closed in between; so a port handed out is not handed out
      again before it is released, and a port listened on never is. */
  lemma OpenedTwiceOnlyIfClosedBetween(actions: seq<Action>, i: nat, j: nat)
    requires var c := Play(Initial(), actions).changes;
             i < j < |c| && c[i].Opened? && c[j].Opened? && c[i].port == c[j].port
    ensures var c := Play(Initial(), actions).changes;
            !IsListening(c[i].port) && exists k :: i < k < j && c[k] == Closed(c[i].port)
  {
    RunIsSound(actions);
    var c := Play(Initial(), actions).changes;
    hide Play, Holder, TablesAgree, InOrder, RepliesTrue, QueriesFit, OpenedFree;
    if forall k :: i < k < j ==> c[k] != Closed(c[i].port) {
      HeldUntilClosed(c, i, j);
      assert false;
    }
  }

  /** In every run the oldest request to listen succeeds if and only if the port is in the lower half and
      nobody holds it; the application then holds it. Otherwise nothing changes, and the answer says
      whether the port was a wrong one. */
  lemma ListenAnswerIff(actions: seq<Action>)
    requires Play(Initial(), actions).inputs.listens != []
    ensures var s := Play(Initial(), actions);
            var q, t := s.inputs.listens[0], ListeningTable(s);
            var granted := q.port < 0x8000 && Holder(s.changes, q.port).None?;
            && t.inputs == s.inputs.(listens := s.inputs.listens[1..])
            && t.listenAnswers == s.listenAnswers + [ListenAnswer(q.port, granted, q.port >= 0x8000, !granted, q.role)]
            && (if granted then Holder(t.changes, q.port) == Some(q.role)
                else t.changes == s.changes && t.tables == s.tables)
  {
    RunIsSound(actions);
    hide Play, Sound, ListeningTable;
    ListenAnswered(Play(Initial(), actions));
  }

  lemma ListenAnswered(s: State)
    requires Sound(s) && s.inputs.listens != []
    ensures var q, t := s.inputs.listens[0], ListeningTable(s);
            var granted := q.port < 0x8000 && Holder(s.changes, q.port).None?;
            && t.inputs == s.inputs.(listens := s.inputs.listens[1..])
            && t.listenAnswers == s.listenAnswers + [ListenAnswer(q.port, granted, q.port >= 0x8000, !granted, q.role)]
            && (if granted then Holder(t.changes, q.port) == Some(q.role)
                else t.changes == s.changes && t.tables == s.tables)
  {
    var q, t := s.inputs.listens[0], ListeningTable(s);
    var p := q.port % 0x8000;
    assert Tells(s.tables.listening[p], Holder(s.changes, Port(true, p)));
    HolderSnoc(s.changes, Opened(q.port, q.role), q.port);
    hide Holder, OpenedFree, InOrder, QueriesFit, RepliesTrue, Exclusive, TablesAgree;
  }

  /** In every run a release of a port that was handed out leaves it with nobody, and everyone else with
      what they had; a release of a port in the lower half changes nothing. */
  lemma ReleaseFreesPort(actions: seq<Action>, other: u16)
    requires Play(Initial(), actions).inputs.releases != []
    ensures var s := Play(Initial(), actions);
            var port, t := s.inputs.releases[0], FreeTable(s, true);
            && t.inputs == s.inputs.(releases := s.inputs.releases[1..])
            && (port >= 0x8000 ==> Holder(t.changes, port).None?)
            && (other != port || port < 0x8000 ==> Holder(t.changes, other) == Holder(s.changes, other))
            && t.handedOut == s.handedOut && t.tables.cursor == s.tables.cursor
  {
    hide Play;
    var s := Play(Initial(), actions);
    HolderSnoc(s.changes, Closed(s.inputs.releases[0]), s.inputs.releases[0]);
    HolderSnoc(s.changes, Closed(s.inputs.releases[0]), other);
    hide Holder;
  }

  // ---------- Requests for a free port ----------

  /** `n` requests for a free port, one after the other, with room for each answer. */
  ghost function Requests(s: State, roles: seq<Role>): State {
    if roles == [] then s
    else HandOut(Requests(s, roles[..|roles| - 1]).(inputs := Inputs([], [], [roles[|roles| - 1]], [])), true)
  }

  /** A request gets a port if and only if nobody holds the port under the cursor. Otherwise it gets
      no answer at all, however many other ports are free: only the cursor has moved on. */
  lemma FreeRequestIsAnsweredIff(s: State)
    requires Sound(s) && s.inputs.frees != []
    ensures var c := s.tables.cursor;
            var t := HandOut(s, true);
            && (|t.handedOut| > |s.handedOut| <==> Holder(s.changes, PORTS + c).None?)
            && (|t.handedOut| > |s.handedOut| ==>
                  t.handedOut == s.handedOut + [PORTS + c] && Holder(t.changes, PORTS + c) == Some(s.inputs.frees[0]))
            && t.inputs == s.inputs.(frees := s.inputs.frees[1..])
            && (|t.handedOut| <= |s.handedOut| ==> t.handedOut == s.handedOut && t.changes == s.changes)
            && t.tables.cursor == (c + 1) % PORTS
  {
    assert Tells(s.tables.free[s.tables.cursor], Holder(s.changes, Port(false, s.tables.cursor)));
    HolderSnoc(s.changes, Opened(PORTS + s.tables.cursor, s.inputs.frees[0]), PORTS + s.tables.cursor);
    hide Holder, OpenedFree, InOrder, QueriesFit, RepliesTrue, Exclusive, TablesAgree;
  }

  /** The requests it takes until the cursor has passed a given port. */
  function Distance(cursor: u15, p: u15): nat {
    1 + (if cursor <= p then p - cursor else p + PORTS - cursor)
  }

  lemma RequestMoves(s: State, p: u15, role: Role)
    requires !s.tables.free[p].isOpen
    ensures var t := HandOut(s.(inputs := Inputs([], [], [role], [])), true);
            if Distance(s.tables.cursor, p) > 1 then
              !t.tables.free[p].isOpen && Distance(t.tables.cursor, p) == Distance(s.tables.cursor, p) - 1
            else t.handedOut == s.handedOut + [PORTS + p] && t.tables.free[p] == Entry(true, role)
  {
  }

  /** While some upper port is free, repeated requests get it, or others before it: the n-th request
      comes to the port that lies n - 1 ahead of the cursor, and takes it. */
  lemma {:induction false} FreePortIsReached(s: State, p: u15, roles: seq<Role>)
    requires !s.tables.free[p].isOpen && |roles| <= Distance(s.tables.cursor, p)
    ensures var t := Requests(s, roles);
            if |roles| < Distance(s.tables.cursor, p) then
              !t.tables.free[p].isOpen && Distance(t.tables.cursor, p) == Distance(s.tables.cursor, p) - |roles|
            else t.handedOut != [] && t.handedOut[|t.handedOut| - 1] == PORTS + p &&
                 t.tables.free[p] == Entry(true, roles[|roles| - 1])
  {
    hide HandOut;
    if roles != [] {
      FreePortIsReached(s, p, roles[..|roles| - 1]);
      RequestMoves(Requests(s, roles[..|roles| - 1]), p, roles[|roles| - 1]);
    }
  }

  // ---------- The module ----------

  class PortTableModule {
    const listening: array<Entry>
    const free: array<Entry>
    var cursor: u15
    var listenQueries: seq<Query>
    var usedQueries: seq<Query>
    var destinations: seq<bool>
    var listenReplies: seq<Reply>
    var usedReplies: seq<Reply>
    var mux: Mux
    var answers: seq<Reply>
    var inputs: Inputs
    var listenAnswers: seq<ListenAnswer>
    var handedOut: seq<u16>
    ghost var asked: seq<Ask>
    ghost var changes: seq<Change>

    ghost predicate Valid() { listening != free && listening.Length == PORTS && free.Length == PORTS }

    ghost function Path(): Checks
      reads this
    {
      Checks(listenQueries, usedQueries, destinations, listenReplies, usedReplies, mux, asked, answers)
    }

    ghost function View(): State
      requires Valid()
      reads this, listening, free
    {
      State(Tables(listening[..], free[..], cursor), Path(), inputs, listenAnswers, handedOut, changes)
    }

    constructor ()
      ensures Valid() && fresh(listening) && fresh(free) && View() == Initial()
    {
      listening := new Entry[0x8000](i => Entry(false, 0));
      free := new Entry[0x8000](i => Entry(false, 0));
      cursor, mux, inputs := 0, ReadDst, Inputs([], [], [], []);
      listenQueries, usedQueries, destinations, listenReplies, usedReplies, answers := [], [], [], [], [], [];
      listenAnswers, handedOut, asked, changes := [], [], [], [];
    }

    method ServeListening()
      requires Valid()
      modifies `inputs, `listenAnswers, `changes, `listenQueries, `listenReplies, listening
      ensures Valid() && View() == ListeningTable(old(View()))
    {
      if inputs.listens != [] {
        var q := inputs.listens[0];
        inputs := inputs.(listens := inputs.listens[1..]);
        var p := q.port % 0x8000;
        var wrong := q.port >= PORTS;
        var success := !listening[p].isOpen && !wrong;
        if success {
          listening[p] := Entry(true, q.role);
          changes := changes + [Opened(q.port, q.role)];
        }
        listenAnswers := listenAnswers + [ListenAnswer(q.port, success, wrong, !success, q.role)];
      } else if listenQueries != [] {
        var q := listenQueries[0];
        listenQueries := listenQueries[1..];
        var e := listening[q.port];
        listenReplies := listenReplies + [Reply(e.isOpen, e.role, q.ask, |changes|)];
      }
    }

    method ServeFree(room: bool)
      requires Valid()
      modifies `inputs, `cursor, `handedOut, `changes, `usedQueries, `usedReplies, free
      ensures Valid() && View() == FreeTable(old(View()), room)
    {
      if inputs.releases != [] {
        var port := inputs.releases[0];
        inputs := inputs.(releases := inputs.releases[1..]);
        if port >= PORTS {
          free[port - PORTS] := free[port - PORTS].(isOpen := false);
          changes := changes + [Closed(port)];
        }
      } else if usedQueries != [] {
        var q := usedQueries[0];
        usedQueries := usedQueries[1..];
        var e := free[q.port];
        usedReplies := usedReplies + [Reply(e.isOpen, e.role, q.ask, |changes|)];
      } else if inputs.frees != [] {
        var role := inputs.frees[0];
        inputs := inputs.(frees := inputs.frees[1..]);
        if !free[cursor].isOpen && room {
          free[cursor] := Entry(true, role);
          handedOut := handedOut + [PORTS + cursor];
          changes := changes + [Opened(PORTS + cursor, role)];
        }
        cursor := (cursor + 1) % 0x8000;
      }
    }

    method MultiplexIn()
      requires Valid()
      modifies `inputs, `asked, `destinations, `listenQueries, `usedQueries
      ensures Valid() && View() == CheckIn(old(View()))
    {
      if inputs.checks != [] {
        var port := inputs.checks[0];
        inputs := inputs.(checks := inputs.checks[1..]);
        var q := Query(port % 0x8000, |asked|);
        if port < PORTS {
          listenQueries := listenQueries + [q];
          destinations := destinations + [true];
        } else {
          usedQueries := usedQueries + [q];
          destinations := destinations + [false];
        }
        asked := asked + [Ask(port, |changes|)];
      }
    }

    method MultiplexOut()
      requires Valid()
      modifies `mux, `destinations, `listenReplies, `usedReplies, `answers
      ensures Valid() && View() == old(View()).(checks := CheckOut(old(Path())))
    {
      match mux {
        case ReadDst =>
          if destinations != [] {
            mux := if destinations[0] then ReadListening else ReadUsed;
            destinations := destinations[1..];
          }
        case ReadListening =>
          if listenReplies != [] {
            answers := answers + [listenReplies[0]];
            listenReplies := listenReplies[1..];
            mux := ReadDst;
          }
        case ReadUsed =>
          if usedReplies != [] {
            answers := answers + [usedReplies[0]];
            usedReplies := usedReplies[1..];
            mux := ReadDst;
          }
      }
    }
  }
}
