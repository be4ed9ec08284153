/** What a run of the session lookup controller is for: each request answered in turn, with the session
    its tuple has. A log of the run - who asked, what the CAM held when it was looked up, what was
    filed, which sessions left - is read off the actions and the streams; it is no part of the state.
 */
module SessionAnswers {
  import opened Words
  import opened SessionLookup

  // ---------- The log ----------

  datatype Request = OfTx(tx: TxRequest) | OfRx(rx: RxRequest)

  /** A request the handler has taken up: the ID the CAM held for its tuple at the look-up, whether an ID
      was available when the response was handled, and the ID taken for a new session. */
  datatype Case = Case(request: Request, found: Option<SessionId>, available: bool, made: Option<SessionId>)

  /** The requests in the order they came, the cases in the order they were taken up, the sessions filed
      in the reverse table, and the tuples of those that left it. */
  datatype Log = Log(
    txAsked: seq<TxRequest>, rxAsked: seq<RxRequest>, cases: seq<Case>, filed: seq<RevInsert>, left: seq<Tuple>)

  /** The four-tuple from our side: a received segment has the peer as its source. */
  function OwnTuple(q: Request): Tuple {
    match q
    case OfTx(r) => r.tuple
    case OfRx(r) => Tuple(r.tuple.dstIp, r.tuple.dstPort, r.tuple.srcIp, r.tuple.srcPort)
  }

  function Asker(q: Request): Source { if q.OfTx? then TxApp else Rx }
  function RoleOf(q: Request): nat { if q.OfTx? then q.tx.role else q.rx.role }
  function MayCreate(q: Request): bool { q.OfTx? || q.rx.allowCreation }

  ghost function TakeUp(q: seq<Case>, y: State, z: State): seq<Case> {
    var before, after := y.handler.requests, z.handler.requests;
    if |after.tx| < |before.tx| then q + [Case(OfTx(before.tx[0]), None, false, None)]
    else if |after.rx| < |before.rx| then q + [Case(OfRx(before.rx[0]), None, false, None)]
    else q
  }

  /** The log after a step from `y` to `z`, by what left the streams and what joined them. */
  ghost function LogAfter(l: Log, y: State, z: State, a: Action): Log {
    match a
    case TxAsks(r) => l.(txAsked := l.txAsked + [r])
    case RxAsks(r) => l.(rxAsked := l.rxAsked + [r])
    case HandleRequest => l.(cases := TakeUp(l.cases, y, z))
    case CamLookup =>
      if |z.lookups.requests| < |y.lookups.requests| && l.cases != [] then
        var n := |l.cases| - 1;
        var t := OwnTuple(l.cases[n].request);
        l.(cases := l.cases[n := l.cases[n].(found := if t in y.cam then Some(y.cam[t]) else None)])
      else l
    case HandleResponse =>
      if |z.lookups.responses| < |y.lookups.responses| && l.cases != [] then
        var n, ids := |l.cases| - 1, y.ids.available;
        var made := if |z.ids.available| < |ids| then Some(ids[0]) else None;
        l.(cases := l.cases[n := l.cases[n].(available := ids != [], made := made)])
      else l
    case HandleInserted =>
      if |z.rev.inserts| > |y.rev.inserts| then l.(filed := l.filed + z.rev.inserts[|y.rev.inserts|..]) else l
    case ReverseTable =>
      if |z.rev.releases| < |y.rev.releases| && z.rev.valid != y.rev.valid then
        l.(left := l.left + [y.rev.entries[y.rev.releases[0]].tuple])
      else l
    case _ => l
  }

  ghost function LogOf(actions: seq<Action>): Log {
    if actions == [] then Log([], [], [], [], [])
    else
      var n := |actions| - 1;
      LogAfter(LogOf(actions[..n]), Run(actions[..n]).st, Run(actions).st, actions[n])
  }

  ghost function TxTaken(q: seq<Case>): seq<TxRequest> {
    if q == [] then []
    else TxTaken(q[..|q| - 1]) + if q[|q| - 1].request.OfTx? then [q[|q| - 1].request.tx] else []
  }

  ghost function RxTaken(q: seq<Case>): seq<RxRequest> {
    if q == [] then []
    else RxTaken(q[..|q| - 1]) + if q[|q| - 1].request.OfRx? then [q[|q| - 1].request.rx] else []
  }

  /** What the new sessions among these cases file in the reverse table. */
  ghost function Filings(q: seq<Case>): seq<RevInsert> {
    if q == [] then []
    else
      var c := q[|q| - 1];
      Filings(q[..|q| - 1]) +
      if c.made.Some? then [RevInsert(c.made.value, OwnTuple(c.request), RoleOf(c.request))] else []
  }

  /** The local ports of these tuples, out of network byte order. */
  ghost function LocalPorts(q: seq<Tuple>): seq<u16> {
    seq(|q|, i requires 0 <= i < |q| => q[i].srcPort % 0x100 * 0x100 + q[i].srcPort / 0x100)
  }

  /** The newest of these entries with an ID. */
  ghost function Newest(q: seq<RevInsert>, id: SessionId): RevEntry {
    if q == [] then RevEntry(NO_TUPLE, 0)
    else if q[|q| - 1].id == id then RevEntry(q[|q| - 1].tuple, q[|q| - 1].role)
    else Newest(q[..|q| - 1], id)
  }

  // ---------- What the log says ----------

  /** A session was made for a case exactly if its look-up missed, it may create one and an ID was there. */
  ghost predicate Settled(c: Case) {
    c.made.Some? <==> c.found.None? && MayCreate(c.request) && c.available
  }

  /** The answer goes to the one who asked, says "hit" exactly if the CAM held the tuple at the look-up or
      a session was made for this request, and names the one or the other. */
  ghost predicate Answers(a: Answer, c: Case) {
    && Settled(c)
    && a.source == Asker(c.request) && a.role == RoleOf(c.request)
    && (a.hit <==> c.found.Some? || c.made.Some?)
    && (c.found.Some? ==> a.id == c.found.value)
    && (c.made.Some? ==> a.id == c.made.value)
  }

  ghost predicate InOrder(h: Handler, l: Log) {
    TxTaken(l.cases) + h.requests.tx == l.txAsked && RxTaken(l.cases) + h.requests.rx == l.rxAsked
  }

  ghost predicate AllAnswered(h: Handler, l: Log) {
    && |l.cases| == |h.answers| + (if h.phase == LupReq then 0 else 1)
    && forall k :: 0 <= k < |h.answers| ==> Answers(h.answers[k], l.cases[k])
  }

  /** The case the handler works on: its request is at the CAM, or its response is back, or its insert is
      under way. */
  ghost predicate UnderWay(s: State, l: Log) {
    s.handler.phase != LupReq && l.cases != [] ==>
      var c := l.cases[|l.cases| - 1];
      var t, source := OwnTuple(c.request), Asker(c.request);
      && s.handler.cache == Cache(t, MayCreate(c.request), source, RoleOf(c.request))
      && (s.handler.phase == LupRsp ==>
            if s.lookups.requests != [] then s.lookups.requests == [LookupReq(t, source)]
            else |s.lookups.responses| == 1 && Responds(s.lookups.responses[0], c.found, source))
      && (s.handler.phase == UpdRsp ==>
            Settled(c) && c.made.Some? && InFlight(s.updates) == [Update(Insert, t, c.made.value, source)])
  }

  ghost predicate Responds(r: LookupRsp, found: Option<SessionId>, source: Source) {
    (r.hit <==> found.Some?) && (r.hit ==> r.id == found.value) && r.source == source
  }

  ghost predicate FiledInOrder(s: State, l: Log) {
    var done := |l.filed| - |s.rev.inserts|;
    && |s.handler.answers| <= |l.cases| && l.filed == Filings(l.cases[..|s.handler.answers|])
    && 0 <= done && l.filed[done..] == s.rev.inserts
    && forall id: SessionId :: s.rev.entries[id] == Newest(l.filed[..done], id)
  }

  ghost predicate PortsFollow(s: State, l: Log) {
    s.rev.ports == LocalPorts(l.left)
  }

  ghost predicate LogHolds(s: State, l: Log) {
    InOrder(s.handler, l) && AllAnswered(s.handler, l) && UnderWay(s, l) && FiledInOrder(s, l) && PortsFollow(s, l)
  }

  // ---------- Every step keeps it ----------

  lemma TakenSnoc(q: seq<Case>, c: Case)
    ensures TxTaken(q + [c]) == TxTaken(q) + if c.request.OfTx? then [c.request.tx] else []
    ensures RxTaken(q + [c]) == RxTaken(q) + if c.request.OfRx? then [c.request.rx] else []
  {
    assert (q + [c])[..|q|] == q;
  }

  /** What becomes of the newest case is no matter of its request. */
  lemma TakenSame(q: seq<Case>, c: Case)
    requires q != [] && c.request == q[|q| - 1].request
    ensures TxTaken(q[|q| - 1 := c]) == TxTaken(q) && RxTaken(q[|q| - 1 := c]) == RxTaken(q)
  {
    var n := |q| - 1;
    assert q[n := c][..n] == q[..n];
  }

  lemma NewestSnoc(q: seq<RevInsert>, r: RevInsert, id: SessionId)
    ensures Newest(q + [r], id) == if r.id == id then RevEntry(r.tuple, r.role) else Newest(q, id)
  {
    assert (q + [r])[..|q|] == q;
  }

  /** Nothing but the handler's own steps changes what is in flight. */
  lemma FlightStays(y: System, a: Action)
    requires Inv(y) && !a.HandleResponse? && !a.HandleInserted?
    ensures InFlight(Next(y, a).st.updates) == InFlight(y.st.updates)
  {
    hide LedgerHolds, CamHolds, LookupHolds, CountHolds, FlightHolds, Succeeds, Applied;
    var u, u' := y.st.updates, Next(y, a).st.updates;
    match a
    case Send =>
      if u.inserts != [] {
        SendInsertMovesOn(u);
      } else if u.deletes != [] {
        DeleteFliesNowhere(u, u.deletes[0], u');
      }
    case PassResponse =>
      if u.fromCam != [] { PassMovesOn(u); }
    case CamUpdate =>
      if u.toCam != [] { CamUpdateMovesOn(u, Succeeds(y.st.cam, u.toCam[0])); }
    case _ =>
      InFlightIs(u, u');
  }

  lemma AsksAreLogged(y: System, l: Log, a: Action)
    requires LogHolds(y.st, l) && (a.TxAsks? || a.RxAsks?)
    ensures LogHolds(Next(y, a).st, LogAfter(l, y.st, Next(y, a).st, a))
  {
    hide Answers, Responds, Settled, Filings, Newest, TxTaken, RxTaken, InFlight, LocalPorts;
  }

  lemma TakeUpIsLogged(y: System, l: Log)
    requires Inv(y) && LogHolds(y.st, l)
    ensures LogHolds(RequestStep(y).st, LogAfter(l, y.st, RequestStep(y).st, HandleRequest))
  {
    hide Answers, Responds, Settled, Filings, Newest, InFlight, LocalPorts, LedgerHolds, TuplesMatch, FlightHolds,
         CamHolds, CountHolds, TxTaken, RxTaken;
    var h := y.st.handler;
    if h.phase == LupReq && (h.requests.tx != [] || h.requests.rx != []) {
      var c := Case(if h.requests.tx != [] then OfTx(h.requests.tx[0]) else OfRx(h.requests.rx[0]), None, false, None);
      TakenSnoc(l.cases, c);
      assert LogAfter(l, y.st, RequestStep(y).st, HandleRequest).cases == l.cases + [c];
      assert (l.cases + [c])[..|h.answers|] == l.cases[..|h.answers|];
    }
  }

  lemma LookUpIsLogged(y: System, l: Log)
    requires Inv(y) && LogHolds(y.st, l)
    ensures LogHolds(CamLookupStep(y).st, LogAfter(l, y.st, CamLookupStep(y).st, CamLookup))
  {
    hide Answers, Settled, Filings, Newest, InFlight, LocalPorts, LedgerHolds, TuplesMatch, FlightHolds,
         CamHolds, CountHolds, TxTaken, RxTaken;
    if y.st.lookups.requests != [] {
      var n := |l.cases| - 1;
      var c := LogAfter(l, y.st, CamLookupStep(y).st, CamLookup).cases[n];
      TakenSame(l.cases, c);
      assert l.cases[n := c][..|y.st.handler.answers|] == l.cases[..|y.st.handler.answers|];
    }
  }

  lemma ResponseIsLogged(y: System, l: Log)
    requires Inv(y) && LogHolds(y.st, l)
    ensures LogHolds(ResponseStep(y).st, LogAfter(l, y.st, ResponseStep(y).st, HandleResponse))
  {
    hide Filings, Newest, InFlight, LocalPorts, LedgerHolds, TuplesMatch, CamHolds, CountHolds, TxTaken, RxTaken;
    var s := y.st;
    if s.handler.phase == LupRsp && s.lookups.responses != [] {
      var n := |l.cases| - 1;
      var c := LogAfter(l, s, ResponseStep(y).st, HandleResponse).cases[n];
      TakenSame(l.cases, c);
      assert l.cases[n := c][..n] == l.cases[..n];
      if Takes(y) {
        TakenFlies(y);
      } else {
        FilingsSnoc(l.cases[..n], c);
        assert l.cases[n := c][..n + 1] == l.cases[..n] + [c];
      }
    }
  }

  lemma TakenFlies(y: System)
    requires Inv(y) && Takes(y)
    ensures InFlight(ResponseStep(y).st.updates) ==
            [Update(Insert, y.st.handler.cache.tuple, y.st.ids.available[0], y.st.lookups.responses[0].source)]
  {
    hide LedgerHolds, TuplesMatch, CamHolds, CountHolds, InsertsOf, ResponsesToInserts;
    var u := y.st.updates;
    var insert := Update(Insert, y.st.handler.cache.tuple, y.st.ids.available[0], y.st.lookups.responses[0].source);
    InsertsOfAppend(u.inserts, [insert]);
    InsertsOfOne(insert);
    assert InFlight(ResponseStep(y).st.updates) == InFlight(u) + [insert];
  }

  lemma FilingsSnoc(q: seq<Case>, c: Case)
    ensures Filings(q + [c]) ==
            Filings(q) +
            if c.made.Some? then [RevInsert(c.made.value, OwnTuple(c.request), RoleOf(c.request))] else []
  {
    assert (q + [c])[..|q|] == q;
  }

  lemma InsertIsLogged(y: System, l: Log)
    requires Inv(y) && LogHolds(y.st, l)
    ensures LogHolds(InsertedStep(y).st, LogAfter(l, y.st, InsertedStep(y).st, HandleInserted))
  {
    hide Filings, Newest, InFlight, LocalPorts, LedgerHolds, TuplesMatch, CamHolds, CountHolds, LookupHolds, TxTaken,
         RxTaken;
    var s := y.st;
    if s.handler.phase == UpdRsp && s.updates.insertRsps != [] {
      FlightReturns(s.updates);
      var n := |l.cases| - 1;
      var c := l.cases[n];
      FilingsSnoc(l.cases[..n], c);
      assert l.cases[..n] + [c] == l.cases && l.cases[..n + 1] == l.cases;
      var r, filed := RevInsert(c.made.value, OwnTuple(c.request), RoleOf(c.request)), InsertedStep(y).st.rev.inserts;
      assert filed == s.rev.inserts + [r] && filed[|s.rev.inserts|..] == [r];
      var done := |l.filed| - |s.rev.inserts|;
      assert (l.filed + [r])[..done] == l.filed[..done] && (l.filed + [r])[done..] == l.filed[done..] + [r];
    }
  }

  lemma ReverseIsLogged(y: System, l: Log)
    requires LogHolds(y.st, l)
    ensures LogHolds(RevStep(y).st, LogAfter(l, y.st, RevStep(y).st, ReverseTable))
  {
    hide TxTaken, RxTaken, Answers, Responds, Settled, Filings, Newest, InFlight;
    var t := y.st.rev;
    InFlightIs(y.st.updates, RevStep(y).st.updates);
    if t.inserts != [] {
      var done := |l.filed| - |t.inserts|;
      assert l.filed[..done + 1] == l.filed[..done] + [t.inserts[0]];
      assert l.filed[done + 1..] == t.inserts[1..];
      forall id: SessionId ensures RevStep(y).st.rev.entries[id] == Newest(l.filed[..done + 1], id) {
        NewestSnoc(l.filed[..done], t.inserts[0], id);
      }
    } else if t.releases != [] {
      var id := t.releases[0];
      PortsSnoc(l.left, t.entries[id].tuple);
      hide LocalPorts, Newest;
      var t' := RevStep(y).st.rev;
      assert t'.valid == t.valid[id := false];
      if t.valid[id] {
        assert t'.valid[id] != t.valid[id];
        assert LogAfter(l, y.st, RevStep(y).st, ReverseTable) == l.(left := l.left + [t.entries[id].tuple]);
        assert PortsFollow(RevStep(y).st, LogAfter(l, y.st, RevStep(y).st, ReverseTable));
      } else {
        assert t'.valid == t.valid;
        assert LogAfter(l, y.st, RevStep(y).st, ReverseTable) == l;
      }
    }
  }

  lemma PortsSnoc(q: seq<Tuple>, t: Tuple)
    ensures LocalPorts(q + [t]) == LocalPorts(q) + [SwapBytes(t.srcPort)]
  {
  }

  lemma LogFrame(s: State, z: State, l: Log)
    requires LogHolds(s, l) && z.handler == s.handler && z.lookups == s.lookups
    requires z.rev.inserts == s.rev.inserts && z.rev.entries == s.rev.entries && z.rev.ports == s.rev.ports
    requires InFlight(z.updates) == InFlight(s.updates)
    ensures LogHolds(z, l)
  {
    hide Answers, TxTaken, RxTaken, Responds, Settled, Filings, Newest, InFlight, LocalPorts;
  }

  lemma OthersLeaveLog(y: System, l: Log, a: Action)
    requires Inv(y) && LogHolds(y.st, l)
    requires a.GetId? || a.Send? || a.PassResponse? || a.CamUpdate? || a.Release?
    ensures LogHolds(Next(y, a).st, LogAfter(l, y.st, Next(y, a).st, a))
  {
    hide Inv, Next, LogHolds, InFlight;
    FlightStays(y, a);
    OthersLeaveHandler(y, a);
    LogFrame(y.st, Next(y, a).st, l);
  }

  lemma OthersLeaveHandler(y: System, a: Action)
    requires a.GetId? || a.Send? || a.PassResponse? || a.CamUpdate? || a.Release?
    ensures var s, z := y.st, Next(y, a).st;
            && z.handler == s.handler && z.lookups == s.lookups
            && z.rev.inserts == s.rev.inserts && z.rev.entries == s.rev.entries && z.rev.ports == s.rev.ports
  {
    hide Succeeds, Applied;
  }

  lemma StepIsLogged(y: System, l: Log, a: Action)
    requires Inv(y) && LogHolds(y.st, l)
    ensures LogHolds(Next(y, a).st, LogAfter(l, y.st, Next(y, a).st, a))
  {
    hide Inv, LogHolds, LogAfter, RequestStep, ResponseStep, InsertedStep, CamLookupStep, RevStep;
    match a
    case HandleRequest => TakeUpIsLogged(y, l);
    case HandleResponse => ResponseIsLogged(y, l);
    case HandleInserted => InsertIsLogged(y, l);
    case CamLookup => LookUpIsLogged(y, l);
    case ReverseTable => ReverseIsLogged(y, l);
    case TxAsks(_) => AsksAreLogged(y, l, a);
    case RxAsks(_) => AsksAreLogged(y, l, a);
    case _ => OthersLeaveLog(y, l, a);
  }

  lemma StartIsLogged()
    ensures LogHolds(Run([]).st, LogOf([]))
  {
    RunsFromStart();
    StartIsEmpty();
    hide Initial, Run, InFlight;
  }

  lemma StartIsEmpty()
    ensures var s := Initial().st;
            && s.handler.phase == LupReq && s.handler.requests == Requests([], []) && s.handler.answers == []
            && s.rev.inserts == [] && s.rev.ports == []
            && forall id: SessionId :: s.rev.entries[id] == RevEntry(NO_TUPLE, 0)
  {
    hide InFlight;
  }

  lemma {:induction false} RunIsLogged(actions: seq<Action>)
    ensures LogHolds(Run(actions).st, LogOf(actions))
  {
    hide Inv, Next, LogHolds, LogAfter;
    if actions == [] {
      StartIsLogged();
    } else {
      hide Initial;
      var n := |actions| - 1;
      RunIsLogged(actions[..n]);
      SessionLookup.RunKeeps(actions[..n]);
      StepIsLogged(Run(actions[..n]), LogOf(actions[..n]), actions[n]);
    }
  }

  // ---------- What every run keeps ----------

  /** In every run the requests of each side are taken up in the order they came, and the k-th answer is
      that of the k-th request taken up: it goes to the one who asked, and says "hit" exactly if the CAM
      held the tuple - seen from our side - at the look-up, or a session was made for this request; it
      names the ID found, or the one made. A session is made exactly for a miss that may create one and
      finds an ID available. At most one request has no answer yet. */
  lemma AnswersAreRight(actions: seq<Action>)
    ensures var h, l := Run(actions).st.handler, LogOf(actions);
            && TxTaken(l.cases) + h.requests.tx == l.txAsked && RxTaken(l.cases) + h.requests.rx == l.rxAsked
            && |h.answers| <= |l.cases| <= |h.answers| + 1
            && (h.phase == LupReq ==> |h.answers| == |l.cases|)
            && forall k :: 0 <= k < |h.answers| ==>
                 var a, c := h.answers[k], l.cases[k];
                 && (c.made.Some? <==> c.found.None? && (c.request.OfTx? || c.request.rx.allowCreation) && c.available)
                 && a.source == (if c.request.OfTx? then TxApp else Rx)
                 && a.role == (if c.request.OfTx? then c.request.tx.role else c.request.rx.role)
                 && (a.hit <==> c.found.Some? || c.made.Some?)
                 && (c.found.Some? ==> a.id == c.found.value) && (c.made.Some? ==> a.id == c.made.value)
  {
    RunIsLogged(actions);
    hide Run, LogOf, UnderWay, FiledInOrder, PortsFollow, TxTaken, RxTaken;
  }

  /** In every run the sessions filed in the reverse table are, in order, those made for the requests
      answered, each with the request's tuple and role; and an entry is that of the newest one filed
      under its ID that the table has taken in. */
  lemma MadeSessionsAreFiled(actions: seq<Action>)
    ensures var s, l := Run(actions).st, LogOf(actions);
            && |s.handler.answers| <= |l.cases| && l.filed == Filings(l.cases[..|s.handler.answers|])
            && |s.rev.inserts| <= |l.filed| && l.filed[|l.filed| - |s.rev.inserts|..] == s.rev.inserts
            && forall id: SessionId :: s.rev.entries[id] == Newest(l.filed[..|l.filed| - |s.rev.inserts|], id)
  {
    RunIsLogged(actions);
    hide Run, LogOf, UnderWay, InOrder, AllAnswered, PortsFollow, Filings, Newest;
  }

  /** In every run the ports given back are, in order, the local ports of the sessions that left the
      reverse table, with their bytes swapped out of network order. */
  lemma FreedPortsAreLocal(actions: seq<Action>)
    ensures var ports, left := Run(actions).st.rev.ports, LogOf(actions).left;
            |ports| == |left| &&
            forall k :: 0 <= k < |ports| ==> ports[k] == left[k].srcPort % 0x100 * 0x100 + left[k].srcPort / 0x100
  {
    RunIsLogged(actions);
    hide Run, LogOf, UnderWay, InOrder, AllAnswered, FiledInOrder;
  }

  // ---------- No request waits for ever ----------

  /** What is left to do until every request has been answered. */
  ghost function Work(s: State): nat {
    20 * (|s.handler.requests.tx| + |s.handler.requests.rx|) +
    (match s.handler.phase case LupReq => 0 case LupRsp => 8 case UpdRsp => 1) +
    2 * |s.lookups.requests| + |s.lookups.responses| +
    4 * |s.updates.inserts| + 3 * |s.updates.toCam| + 2 * |s.updates.fromCam| + |s.updates.insertRsps|
  }

  /** The next step towards it, if there is one. */
  ghost function Useful(s: State): Option<Action> {
    if s.handler.phase == LupReq && s.handler.requests != Requests([], []) then Some(HandleRequest)
    else if s.lookups.requests != [] then Some(CamLookup)
    else if s.handler.phase == LupRsp && s.lookups.responses != [] then Some(HandleResponse)
    else if s.updates.inserts != [] then Some(Send)
    else if s.updates.toCam != [] then Some(CamUpdate)
    else if s.updates.fromCam != [] then Some(PassResponse)
    else if s.handler.phase == UpdRsp && s.updates.insertRsps != [] then Some(HandleInserted)
    else None
  }

  lemma UsefulStep(y: System)
    requires Useful(y.st).Some?
    ensures Work(Next(y, Useful(y.st).value).st) < Work(y.st)
    ensures var a := Useful(y.st).value; !a.TxAsks? && !a.RxAsks? && !a.Release? && !a.GetId? && !a.ReverseTable?
  {
    hide Succeeds, Applied, To16;
  }

  lemma NothingUseful(y: System)
    requires Inv(y) && Useful(y.st) == None
    ensures y.st.handler.phase == LupReq && y.st.handler.requests == Requests([], [])
  {
    hide LedgerHolds, TuplesMatch, CamHolds, CountHolds, InsertsOf, ResponsesToInserts;
    InsertsOfNone();
    ResponsesNone();
  }

  /** The processes' own steps, one after the other. */
  ghost predicate Internal(more: seq<Action>) {
    forall a <- more :: !a.TxAsks? && !a.RxAsks? && !a.Release? && !a.GetId? && !a.ReverseTable?
  }

  lemma {:induction false} AnswerAll(y: System) returns (more: seq<Action>)
    requires Inv(y)
    ensures Internal(more)
    ensures var h := Continue(y, more).st.handler; h.phase == LupReq && h.requests == Requests([], [])
    decreases Work(y.st)
  {
    hide Inv, Next, Work, Useful;
    if Useful(y.st) == None {
      more := [];
      NothingUseful(y);
    } else {
      var a := Useful(y.st).value;
      UsefulStep(y);
      SessionLookup.StepKeeps(y, a);
      var rest := AnswerAll(Next(y, a));
      more := [a] + rest;
      ContinueMore(y, a, rest);
    }
  }

  /** Whatever a run has come to, the handler, the update processes and the CAM can finish it: some
      continuation of their steps alone - no new ID, no release - answers every request that has been
      made. A miss that finds no ID available is answered as a miss. */
  lemma RequestsCanBeAnswered(actions: seq<Action>) returns (more: seq<Action>)
    ensures Internal(more)
    ensures var h, l := Run(actions + more).st.handler, LogOf(actions + more);
            && h.requests == Requests([], []) && |h.answers| == |l.cases|
            && TxTaken(l.cases) == l.txAsked && RxTaken(l.cases) == l.rxAsked
  {
    SessionLookup.RunKeeps(actions);
    hide Inv, Run, Continue, LogOf, Internal, TxTaken, RxTaken;
    more := AnswerAll(Run(actions));
    RunContinues(actions, more);
    RunIsLogged(actions + more);
    hide UnderWay, FiledInOrder, PortsFollow;
  }
}
