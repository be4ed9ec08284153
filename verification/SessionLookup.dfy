/** The session lookup controller: five processes that share session IDs, the CAM that maps
    four-tuples to IDs, and the reverse table that maps IDs back.

    Beside the processes' state the model keeps a ledger: who holds each ID. The ledger never
    influences a step. What the theorems say is about the streams and tables alone.
 */
module SessionLookup {
  import opened Words

  // ---------- Messages ----------

  datatype Tuple = Tuple(srcIp: u32, srcPort: u16, dstIp: u32, dstPort: u16)
  datatype Source = Rx | TxApp
  datatype TxRequest = TxRequest(tuple: Tuple, role: nat)
  datatype RxRequest = RxRequest(tuple: Tuple, allowCreation: bool, role: nat)
  datatype LookupReq = LookupReq(tuple: Tuple, source: Source)
  datatype LookupRsp = LookupRsp(hit: bool, id: SessionId, source: Source)
  datatype Op = Insert | Delete
  datatype Update = Update(op: Op, tuple: Tuple, id: SessionId, source: Source)
  datatype UpdateRsp = UpdateRsp(op: Op, tuple: Tuple, id: SessionId, source: Source, success: bool)
  datatype RevInsert = RevInsert(id: SessionId, tuple: Tuple, role: nat)
  datatype Answer = Answer(id: SessionId, hit: bool, role: nat, source: Source)

  // ---------- State ----------

  datatype IdSource = IdSource(minted: nat, released: seq<SessionId>, available: seq<SessionId>)
  datatype Requests = Requests(tx: seq<TxRequest>, rx: seq<RxRequest>)
  datatype Phase = LupReq | LupRsp | UpdRsp
  datatype Cache = Cache(tuple: Tuple, allowCreation: bool, source: Source, role: nat)
  datatype Handler = Handler(phase: Phase, cache: Cache, requests: Requests, answers: seq<Answer>)
  datatype Lookups = Lookups(requests: seq<LookupReq>, responses: seq<LookupRsp>)
  datatype Updates = Updates(
    inserts: seq<Update>, deletes: seq<Update>,
    toCam: seq<Update>, fromCam: seq<UpdateRsp>, insertRsps: seq<UpdateRsp>)
  datatype RevEntry = RevEntry(tuple: Tuple, role: nat)

  const NO_TUPLE := Tuple(0, 0, 0, 0)
  type Entries = s: seq<RevEntry> | |s| == MAX_SESSIONS
    witness seq(MAX_SESSIONS, i => RevEntry(NO_TUPLE, 0))
  type Flags = s: seq<bool> | |s| == MAX_SESSIONS
    witness seq(MAX_SESSIONS, i => false)
  type Ledger = s: seq<Holder> | |s| == MAX_SESSIONS
    witness seq(MAX_SESSIONS, i => Unminted)

  datatype RevTable = RevTable(
    inserts: seq<RevInsert>, entries: Entries, valid: Flags, releases: seq<SessionId>, ports: seq<u16>)

  type Cam = map<Tuple, SessionId>

  datatype State = State(
    ids: IdSource, handler: Handler, lookups: Lookups, updates: Updates, cam: Cam, rev: RevTable, count: u16)

  /** Who holds an ID, and the tuple it stands for on the way. */
  datatype Holder =
    | Unminted
    | Free
    | Flying(tuple: Tuple)    // between the handler's insert request and the CAM's response
    | Filed(tuple: Tuple)     // on its way to the reverse table
    | Valid(tuple: Tuple)     // valid in the reverse table
    | Leaving(tuple: Tuple)   // its delete request is waiting

  datatype System = System(st: State, ledger: Ledger, inserted: nat, deleted: nat)

  // ---------- GetNewAvailableSessionId ----------

  ghost function IdStep(y: System): System {
    var i := y.st.ids;
    if i.released != [] then
      y.(st := y.st.(ids := i.(released := i.released[1..], available := i.available + [i.released[0]])),
         ledger := y.ledger)
    else if i.minted < MAX_SESSIONS then
      y.(st := y.st.(ids := i.(minted := i.minted + 1, available := i.available + [i.minted])),
         ledger := y.ledger[i.minted := Free])
    else y
  }

  // ---------- CamLookupRspHandler ----------

  function Reversed(t: Tuple): Tuple {
    Tuple(t.dstIp, t.dstPort, t.srcIp, t.srcPort)
  }

  /** LUP_REQ: the application's requests come first. */
  ghost function RequestStep(y: System): System {
    var s, h := y.st, y.st.handler;
    if h.phase != LupReq then y
    else if h.requests.tx != [] then
      var r := h.requests.tx[0];
      var cache := Cache(r.tuple, true, TxApp, r.role);
      var h' := h.(phase := LupRsp, cache := cache, requests := h.requests.(tx := h.requests.tx[1..]));
      y.(st := s.(handler := h', lookups := Ask(s.lookups, cache)))
    else if h.requests.rx != [] then
      var r := h.requests.rx[0];
      var cache := Cache(Reversed(r.tuple), r.allowCreation, Rx, r.role);
      var h' := h.(phase := LupRsp, cache := cache, requests := h.requests.(rx := h.requests.rx[1..]));
      y.(st := s.(handler := h', lookups := Ask(s.lookups, cache)))
    else y
  }

  function Ask(lookups: Lookups, cache: Cache): Lookups {
    lookups.(requests := lookups.requests + [LookupReq(cache.tuple, cache.source)])
  }

  /** LUP_RSP: forward a hit, or a miss that may not or cannot be turned into a session; otherwise
      take a fresh ID and have it inserted. */
  ghost function ResponseStep(y: System): System {
    var s, h := y.st, y.st.handler;
    if h.phase == LupRsp && s.lookups.responses != [] then
      var r, c := s.lookups.responses[0], h.cache;
      var lookups := s.lookups.(responses := s.lookups.responses[1..]);
      if !r.hit && c.allowCreation && s.ids.available != [] then
        var id := s.ids.available[0];
        y.(st := s.(handler := h.(phase := UpdRsp), lookups := lookups,
                    ids := s.ids.(available := s.ids.available[1..]),
                    updates := s.updates.(inserts := s.updates.inserts + [Update(Insert, c.tuple, id, r.source)])),
           ledger := y.ledger[id := Flying(c.tuple)])
      else
        y.(st := s.(handler := h.(phase := LupReq, answers := h.answers + [Answer(r.id, r.hit, c.role, r.source)]),
                    lookups := lookups))
    else y
  }

  /** UPD_RSP: file the new session in the reverse table and answer. */
  ghost function InsertedStep(y: System): System {
    var s, h := y.st, y.st.handler;
    if h.phase == UpdRsp && s.updates.insertRsps != [] then
      var r, c := s.updates.insertRsps[0], h.cache;
      y.(st := s.(handler := h.(phase := LupReq, answers := h.answers + [Answer(r.id, true, c.role, r.source)]),
                  updates := s.updates.(insertRsps := s.updates.insertRsps[1..]),
                  rev := s.rev.(inserts := s.rev.inserts + [RevInsert(r.id, c.tuple, c.role)])),
         ledger := y.ledger[r.id := Filed(c.tuple)])
    else y
  }

  // ---------- CamUpdateReqSender and CamUpdateRspHandler ----------

  /** Inserts before deletes; a delete gives its ID back as it is sent. */
  ghost function SendInsert(y: System): System
    requires y.st.updates.inserts != []
  {
    var s, u := y.st, y.st.updates;
    y.(st := s.(updates := u.(inserts := u.inserts[1..], toCam := u.toCam + [u.inserts[0]]),
                count := To16(s.count + 1)),
       inserted := y.inserted + 1)
  }

  ghost function SendDelete(y: System): System
    requires y.st.updates.deletes != []
  {
    var s, u := y.st, y.st.updates;
    var d := u.deletes[0];
    y.(st := s.(updates := u.(deletes := u.deletes[1..], toCam := u.toCam + [d]),
                ids := s.ids.(released := s.ids.released + [d.id]),
                count := To16(s.count - 1)),
       ledger := y.ledger[d.id := Free], deleted := y.deleted + 1)
  }

  ghost function SendStep(y: System): System {
    if y.st.updates.inserts != [] then SendInsert(y)
    else if y.st.updates.deletes != [] then SendDelete(y)
    else y
  }

  /** Only responses to inserts are passed on. */
  ghost function UpdateRspStep(y: System): System {
    var u := y.st.updates;
    if u.fromCam != [] then
      var r := u.fromCam[0];
      y.(st := y.st.(updates := u.(fromCam := u.fromCam[1..],
                                   insertRsps := if r.op == Insert then u.insertRsps + [r] else u.insertRsps)))
    else y
  }

  // ---------- The CAM ----------

  ghost function CamLookupStep(y: System): System {
    var s := y.st;
    if s.lookups.requests != [] then
      var r := s.lookups.requests[0];
      var rsp := if r.tuple in s.cam then LookupRsp(true, s.cam[r.tuple], r.source) else LookupRsp(false, 0, r.source);
      y.(st := s.(lookups := Lookups(s.lookups.requests[1..], s.lookups.responses + [rsp])))
    else y
  }

  /** Whether the CAM reports success for an update. */
  predicate Succeeds(cam: Cam, u: Update) {
    u.op == Insert <==> u.tuple !in cam
  }

  function Applied(cam: Cam, u: Update): Cam {
    if u.op == Insert then (if u.tuple in cam then cam else cam[u.tuple := u.id])
    else cam - {u.tuple}
  }

  ghost function CamUpdateStep(y: System): System {
    var s, u := y.st, y.st.updates;
    if u.toCam != [] then
      var q := u.toCam[0];
      var rsp := UpdateRsp(q.op, q.tuple, q.id, q.source, Succeeds(s.cam, q));
      y.(st := s.(cam := Applied(s.cam, q), updates := u.(toCam := u.toCam[1..], fromCam := u.fromCam + [rsp])))
    else y
  }

  // ---------- SlookupReverseTableInterface ----------

  function SwapBytes(port: u16): u16 { port % 0x100 * 0x100 + port / 0x100 }

  ghost function RevInsertStep(y: System): System
    requires y.st.rev.inserts != []
  {
    var t := y.st.rev;
    var r := t.inserts[0];
    y.(st := y.st.(rev := t.(inserts := t.inserts[1..],
                             entries := t.entries[r.id := RevEntry(r.tuple, r.role)],
                             valid := t.valid[r.id := true])),
       ledger := y.ledger[r.id := Valid(r.tuple)])
  }

  ghost function ReleaseStep(y: System): System
    requires y.st.rev.releases != []
  {
    var s, t := y.st, y.st.rev;
    var id := t.releases[0];
    var t' := t.(releases := t.releases[1..], valid := t.valid[id := false]);
    if t.valid[id] then
      var tuple := t.entries[id].tuple;
      y.(st := s.(rev := t'.(ports := t.ports + [SwapBytes(tuple.srcPort)]),
                  updates := s.updates.(deletes := s.updates.deletes + [Update(Delete, tuple, id, Rx)])),
         ledger := y.ledger[id := Leaving(tuple)])
    else
      y.(st := s.(rev := t'))
  }

  /** Inserts before releases. */
  ghost function RevStep(y: System): System {
    if y.st.rev.inserts != [] then RevInsertStep(y)
    else if y.st.rev.releases != [] then ReleaseStep(y)
    else y
  }

  // ---------- Runs ----------

  /** What the scheduler and the engine's other modules can do next. */
  datatype Action =
    | GetId | HandleRequest | HandleResponse | HandleInserted
    | Send | PassResponse | CamLookup | CamUpdate | ReverseTable
    | TxAsks(tx: TxRequest) | RxAsks(rx: RxRequest) | Release(id: SessionId)

  ghost function Next(y: System, a: Action): System {
    match a
    case GetId => IdStep(y)
    case HandleRequest => RequestStep(y)
    case HandleResponse => ResponseStep(y)
    case HandleInserted => InsertedStep(y)
    case Send => SendStep(y)
    case PassResponse => UpdateRspStep(y)
    case CamLookup => CamLookupStep(y)
    case CamUpdate => CamUpdateStep(y)
    case ReverseTable => RevStep(y)
    case TxAsks(r) =>
      var h := y.st.handler;
      y.(st := y.st.(handler := h.(requests := h.requests.(tx := h.requests.tx + [r]))))
    case RxAsks(r) =>
      var h := y.st.handler;
      y.(st := y.st.(handler := h.(requests := h.requests.(rx := h.requests.rx + [r]))))
    case Release(id) => y.(st := y.st.(rev := y.st.rev.(releases := y.st.rev.releases + [id])))
  }

  ghost function Initial(): System {
    System(
      State(IdSource(0, [], []),
            Handler(LupReq, Cache(NO_TUPLE, false, Rx, 0), Requests([], []), []),
            Lookups([], []), Updates([], [], [], [], []), map[],
            RevTable([], seq(MAX_SESSIONS, i => RevEntry(NO_TUPLE, 0)), seq(MAX_SESSIONS, i => false), [], []),
            0),
      seq(MAX_SESSIONS, i => Unminted), 0, 0)
  }

  ghost function Run(actions: seq<Action>): System {
    if actions == [] then Initial()
    else Next(Run(actions[..|actions| - 1]), actions[|actions| - 1])
  }

  // ---------- Where an ID is ----------

  ghost function UpdateIds(q: seq<Update>): seq<SessionId> {
    seq(|q|, i requires 0 <= i < |q| => q[i].id)
  }

  ghost function RevIds(q: seq<RevInsert>): seq<SessionId> {
    seq(|q|, i requires 0 <= i < |q| => q[i].id)
  }

  /** How often an ID occurs in a stream. */
  ghost function Count(q: seq<SessionId>, id: SessionId): nat {
    multiset(q)[id]
  }

  ghost function Bit(b: bool): nat { if b then 1 else 0 }

  /** Inserts that have left the handler and not come back, oldest first. */
  ghost function InFlight(u: Updates): seq<Update> {
    ResponsesToInserts(u.insertRsps) + ResponsesToInserts(u.fromCam) + InsertsOf(u.toCam) + InsertsOf(u.inserts)
  }

  ghost function InsertsOf(q: seq<Update>): seq<Update> {
    if q == [] then [] else (if q[0].op == Insert then [q[0]] else []) + InsertsOf(q[1..])
  }

  ghost function ResponsesToInserts(q: seq<UpdateRsp>): seq<Update> {
    if q == [] then []
    else (if q[0].op == Insert then [Update(Insert, q[0].tuple, q[0].id, q[0].source)] else []) +
         ResponsesToInserts(q[1..])
  }

  /** The number of places an ID is in. */
  ghost function Places(s: State, id: SessionId): nat {
    Bit(id >= s.ids.minted) + Count(s.ids.available, id) + Count(s.ids.released, id) +
    Count(UpdateIds(InFlight(s.updates)), id) + Count(RevIds(s.rev.inserts), id) +
    Bit(s.rev.valid[id]) + Count(UpdateIds(s.updates.deletes), id)
  }

  /** The CAM once every queued update has been applied. */
  ghost function AppliedAll(cam: Cam, q: seq<Update>): Cam
    decreases |q|
  {
    if q == [] then cam else AppliedAll(Applied(cam, q[0]), q[1..])
  }

  ghost predicate AllSucceed(cam: Cam, q: seq<Update>)
    decreases |q|
  {
    q == [] || (Succeeds(cam, q[0]) && AllSucceed(Applied(cam, q[0]), q[1..]))
  }

  ghost function Queued(u: Updates): seq<Update> {
    u.toCam + u.inserts
  }

  ghost function FutureCam(s: State): Cam {
    AppliedAll(s.cam, Queued(s.updates))
  }

  ghost predicate Binds(h: Holder, t: Tuple) {
    (h.Flying? || h.Filed? || h.Valid? || h.Leaving?) && h.tuple == t
  }

  // ---------- The invariant ----------

  /** The streams and the reverse table agree with the ledger. */
  ghost predicate LedgerHolds(y: System) {
    var s, l := y.st, y.ledger;
    forall id: SessionId ::
      && (l[id].Unminted? <==> id >= s.ids.minted)
      && Count(s.ids.available, id) + Count(s.ids.released, id) == Bit(l[id].Free?)
      && Count(RevIds(s.rev.inserts), id) == Bit(l[id].Filed?)
      && Count(UpdateIds(s.updates.deletes), id) == Bit(l[id].Leaving?)
      && (s.rev.valid[id] <==> l[id].Valid?)
      && (l[id].Valid? ==> s.rev.entries[id].tuple == l[id].tuple)
  }

  ghost predicate TuplesMatch(y: System) {
    && (forall i :: 0 <= i < |y.st.rev.inserts| ==>
          y.ledger[y.st.rev.inserts[i].id] == Filed(y.st.rev.inserts[i].tuple))
    && (forall i :: 0 <= i < |y.st.updates.deletes| ==>
          var d := y.st.updates.deletes[i];
          d.op == Delete && y.ledger[d.id] == Leaving(d.tuple))
  }

  /** One insert is in flight while the handler waits for it, and none otherwise. */
  ghost predicate FlightHolds(y: System) {
    var s, f := y.st, InFlight(y.st.updates);
    && y.st.ids.minted <= MAX_SESSIONS
    && (s.handler.phase != UpdRsp ==> f == [])
    && (s.handler.phase == UpdRsp ==>
          |f| == 1 && f[0].tuple == s.handler.cache.tuple && y.ledger[f[0].id] == Flying(f[0].tuple))
    && (forall id: SessionId :: y.ledger[id].Flying? ==> f != [] && f[0].id == id)
    && (forall i :: 0 <= i < |s.updates.inserts| ==> s.updates.inserts[i].op == Insert)
    && (forall i :: 0 <= i < |s.updates.insertRsps| ==> s.updates.insertRsps[i].op == Insert)
  }

  /** The CAM to be agrees with the ledger, and every queued update will succeed. */
  ghost predicate CamHolds(y: System) {
    && AllSucceed(y.st.cam, Queued(y.st.updates))
    && (forall t: Tuple, id: SessionId ::
          (t in FutureCam(y.st) && FutureCam(y.st)[t] == id) <==> Binds(y.ledger[id], t))
  }

  /** One lookup is on its way while the handler waits for it; a miss stays a miss. */
  ghost predicate LookupHolds(y: System) {
    var s, h, l := y.st, y.st.handler, y.st.lookups;
    && (h.phase != LupRsp ==> l.requests == [] && l.responses == [])
    && (h.phase == LupRsp ==> |l.requests| + |l.responses| == 1)
    && (l.requests != [] ==> l.requests[0].tuple == h.cache.tuple)
    && (l.responses != [] && !l.responses[0].hit ==> h.cache.tuple !in FutureCam(s))
  }

  /** The counter is the number of inserts sent and not undone. */
  ghost predicate CountHolds(y: System) {
    && y.deleted + |Bound(y.ledger)| == y.inserted + |y.st.updates.inserts|
    && y.deleted <= y.inserted
    && y.st.count == y.inserted - y.deleted
  }

  /** The IDs that stand for a tuple. */
  ghost function Bound(l: Ledger): set<int> { BoundBelow(l, MAX_SESSIONS) }

  ghost function BoundBelow(l: Ledger, n: nat): set<int>
    requires n <= MAX_SESSIONS
  {
    set id: int | 0 <= id < n && !l[id].Unminted? && !l[id].Free?
  }

  ghost predicate Inv(y: System) {
    LedgerHolds(y) && TuplesMatch(y) && FlightHolds(y) && CamHolds(y) && LookupHolds(y) && CountHolds(y)
  }

  // ---------- Small lemmas ----------

  lemma CountSnoc(q: seq<SessionId>, x: SessionId, id: SessionId)
    ensures Count(q + [x], id) == Count(q, id) + Bit(x == id)
  {
  }

  lemma CountHead(q: seq<SessionId>, id: SessionId)
    requires q != []
    ensures Count(q, id) == Bit(q[0] == id) + Count(q[1..], id)
  {
    assert q == [q[0]] + q[1..];
  }

  lemma UpdateIdsSnoc(q: seq<Update>, u: Update)
    ensures UpdateIds(q + [u]) == UpdateIds(q) + [u.id]
  {
  }

  lemma RevIdsSnoc(q: seq<RevInsert>, r: RevInsert)
    ensures RevIds(q + [r]) == RevIds(q) + [r.id]
  {
  }

  lemma InsertsHead(q: seq<Update>)
    requires q != []
    ensures InsertsOf(q) == (if q[0].op == Insert then [q[0]] else []) + InsertsOf(q[1..])
  {
  }

  lemma InsertsOfNone()
    ensures InsertsOf([]) == []
  {
  }

  lemma {:induction false} InsertsOfAppend(a: seq<Update>, b: seq<Update>)
    ensures InsertsOf(a + b) == InsertsOf(a) + InsertsOf(b)
  {
    hide InsertsOf;
    if a == [] {
      InsertsOfNone();
      assert a + b == b;
    } else {
      InsertsOfAppend(a[1..], b);
      InsertsHead(a);
      InsertsHead(a + b);
      assert (a + b)[1..] == a[1..] + b;
    }
  }

  lemma InsertsOfOne(u: Update)
    ensures InsertsOf([u]) == if u.op == Insert then [u] else []
  {
    assert [u][1..] == [];
  }

  lemma ResponsesNone()
    ensures ResponsesToInserts([]) == []
  {
  }

  lemma {:induction false} ResponsesAppend(a: seq<UpdateRsp>, b: seq<UpdateRsp>)
    ensures ResponsesToInserts(a + b) == ResponsesToInserts(a) + ResponsesToInserts(b)
  {
    hide ResponsesToInserts;
    if a == [] {
      ResponsesNone();
      assert a + b == b;
    } else {
      ResponsesAppend(a[1..], b);
      ResponsesHead(a);
      ResponsesHead(a + b);
      assert (a + b)[1..] == a[1..] + b;
    }
  }

  lemma ResponsesHead(q: seq<UpdateRsp>)
    requires q != []
    ensures ResponsesToInserts(q) ==
            (if q[0].op == Insert then [Update(Insert, q[0].tuple, q[0].id, q[0].source)] else []) +
            ResponsesToInserts(q[1..])
  {
  }

  lemma ResponsesOne(r: UpdateRsp)
    ensures ResponsesToInserts([r]) ==
            if r.op == Insert then [Update(Insert, r.tuple, r.id, r.source)] else []
  {
    assert [r][1..] == [];
  }

  lemma {:induction false} AppliedSnoc(cam: Cam, q: seq<Update>, u: Update)
    ensures AppliedAll(cam, q + [u]) == Applied(AppliedAll(cam, q), u)
    ensures AllSucceed(cam, q + [u]) <==> AllSucceed(cam, q) && Succeeds(AppliedAll(cam, q), u)
    decreases |q|
  {
    hide Applied, Succeeds;
    if q == [] {
      assert (q + [u])[1..] == [];
    } else {
      AppliedSnoc(Applied(cam, q[0]), q[1..], u);
      assert (q + [u])[1..] == q[1..] + [u];
    }
  }

  /** Without inserts a queue can only shrink the CAM. */
  lemma {:induction false} DeletesShrink(cam: Cam, q: seq<Update>, t: Tuple)
    requires InsertsOf(q) == [] && t !in cam
    ensures t !in AppliedAll(cam, q)
    decreases |q|
  {
    if q != [] { DeletesShrink(Applied(cam, q[0]), q[1..], t); }
  }

  // ---------- Every step keeps the invariant ----------

  lemma RecycleKeeps(y: System)
    requires Inv(y) && y.st.ids.released != []
    ensures Inv(IdStep(y))
  {
    hide Count, UpdateIds, RevIds, InFlight, FutureCam, AllSucceed, Queued, Bound;
    var i := y.st.ids;
    forall id: SessionId
      ensures Count(i.released, id) == Bit(i.released[0] == id) + Count(i.released[1..], id)
      ensures Count(i.available + [i.released[0]], id) == Count(i.available, id) + Bit(i.released[0] == id)
    {
      CountHead(i.released, id);
      CountSnoc(i.available, i.released[0], id);
    }
    CamFrame(y, IdStep(y));
  }

  lemma MintKeeps(y: System)
    requires Inv(y) && y.st.ids.released == [] && y.st.ids.minted < MAX_SESSIONS
    ensures Inv(IdStep(y))
  {
    hide Count, UpdateIds, RevIds, InFlight, FutureCam, AllSucceed, Queued;
    var i := y.st.ids;
    forall id: SessionId
      ensures Count(i.available + [i.minted], id) == Count(i.available, id) + Bit(i.minted == id)
    {
      CountSnoc(i.available, i.minted, id);
    }
    assert Bound(IdStep(y).ledger) == Bound(y.ledger);
    CamFrame(y, IdStep(y));
    CamHoldsFrame(y, IdStep(y));
  }

  /** The CAM to be depends on the CAM and the queues alone. */
  lemma CamFrame(y: System, z: System)
    requires z.st.cam == y.st.cam && z.st.updates == y.st.updates
    ensures FutureCam(z.st) == FutureCam(y.st)
  {
  }

  lemma CamHoldsFrame(y: System, z: System)
    requires CamHolds(y) && z.st.cam == y.st.cam && Queued(z.st.updates) == Queued(y.st.updates)
    requires forall id: SessionId, t: Tuple :: Binds(z.ledger[id], t) <==> Binds(y.ledger[id], t)
    ensures CamHolds(z)
  {
    hide Binds, AppliedAll, AllSucceed, Queued;
    assert FutureCam(z.st) == FutureCam(y.st);
    forall t: Tuple, id: SessionId
      ensures (t in FutureCam(z.st) && FutureCam(z.st)[t] == id) <==> Binds(z.ledger[id], t)
    {
      assert (t in FutureCam(y.st) && FutureCam(y.st)[t] == id) <==> Binds(y.ledger[id], t);
    }
  }

  lemma RequestKeeps(y: System)
    requires Inv(y)
    ensures Inv(RequestStep(y))
  {
    hide Count, UpdateIds, RevIds, InFlight, FutureCam, AllSucceed, Queued, Bound;
    CamFrame(y, RequestStep(y));
  }

  lemma ForwardKeeps(y: System)
    requires Inv(y) && ResponseStep(y).st.updates == y.st.updates
    ensures Inv(ResponseStep(y))
  {
    hide Count, UpdateIds, RevIds, InFlight, FutureCam, AllSucceed, Queued, Bound;
    CamFrame(y, ResponseStep(y));
    var u := y.st.updates;
    if y.st.handler.phase == LupRsp && y.st.lookups.responses != [] {
      assert |u.inserts + [Update(Insert, y.st.handler.cache.tuple, 0, Rx)]| != |u.inserts|;
    }
  }

  ghost predicate Takes(y: System) {
    var s, h := y.st, y.st.handler;
    && h.phase == LupRsp && s.lookups.responses != []
    && !s.lookups.responses[0].hit && h.cache.allowCreation && s.ids.available != []
  }

  lemma TakeKeepsLedger(y: System)
    requires Inv(y) && Takes(y)
    ensures y.ledger[y.st.ids.available[0]].Free?
    ensures LedgerHolds(ResponseStep(y)) && TuplesMatch(ResponseStep(y))
  {
    hide Count, UpdateIds, RevIds, FlightHolds, CamHolds, CountHolds, LookupHolds;
    var i := y.st.ids;
    var taken := i.available[0];
    forall id: SessionId
      ensures Count(i.available, id) == Bit(taken == id) + Count(i.available[1..], id)
    {
      CountHead(i.available, id);
    }
    assert Count(i.available, taken) > 0;
  }

  lemma TakeKeepsFlight(y: System)
    requires Inv(y) && Takes(y)
    ensures FlightHolds(ResponseStep(y)) && LookupHolds(ResponseStep(y))
  {
    hide LedgerHolds, TuplesMatch, CamHolds, CountHolds, InsertsOf, ResponsesToInserts, FutureCam;
    var u, h := y.st.updates, y.st.handler;
    var insert := Update(Insert, h.cache.tuple, y.st.ids.available[0], y.st.lookups.responses[0].source);
    InsertsOfAppend(u.inserts, [insert]);
    InsertsOfOne(insert);
    assert InFlight(ResponseStep(y).st.updates) == InFlight(u) + [insert];
  }

  lemma TakeKeepsCam(y: System)
    requires Inv(y) && Takes(y) && y.ledger[y.st.ids.available[0]].Free?
    ensures CamHolds(ResponseStep(y))
  {
    hide LedgerHolds, TuplesMatch, FlightHolds, CountHolds, AppliedAll, AllSucceed;
    var u, h := y.st.updates, y.st.handler;
    var insert := Update(Insert, h.cache.tuple, y.st.ids.available[0], y.st.lookups.responses[0].source);
    AppliedSnoc(y.st.cam, Queued(u), insert);
    assert Queued(ResponseStep(y).st.updates) == Queued(u) + [insert];
  }

  lemma TakeKeepsCount(y: System)
    requires Inv(y) && Takes(y) && y.ledger[y.st.ids.available[0]].Free?
    ensures CountHolds(ResponseStep(y))
  {
    hide LedgerHolds, TuplesMatch, FlightHolds, CamHolds, LookupHolds;
    var z := ResponseStep(y);
    assert Bound(z.ledger) == Bound(y.ledger) + {y.st.ids.available[0]};
  }

  lemma TakeKeeps(y: System)
    requires Inv(y) && Takes(y)
    ensures Inv(ResponseStep(y))
  {
    TakeKeepsLedger(y);
    TakeKeepsFlight(y);
    TakeKeepsCam(y);
    TakeKeepsCount(y);
    hide LedgerHolds, TuplesMatch, FlightHolds, CamHolds, LookupHolds, CountHolds;
  }

  // the response to an insert comes back to the handler

  lemma FlightReturns(u: Updates)
    requires u.insertRsps != [] && u.insertRsps[0].op == Insert
    requires |InFlight(u)| == 1
    ensures var r := u.insertRsps[0];
            && InFlight(u) == [Update(Insert, r.tuple, r.id, r.source)]
            && InFlight(u.(insertRsps := u.insertRsps[1..])) == []
  {
    hide InsertsOf;
    var r := u.insertRsps[0];
    assert ResponsesToInserts(u.insertRsps) ==
           [Update(Insert, r.tuple, r.id, r.source)] + ResponsesToInserts(u.insertRsps[1..]);
    assert InFlight(u) == [Update(Insert, r.tuple, r.id, r.source)] + InFlight(u.(insertRsps := u.insertRsps[1..]));
  }

  lemma InsertedKeepsLedger(y: System)
    requires Inv(y) && y.st.handler.phase == UpdRsp && y.st.updates.insertRsps != []
    ensures LedgerHolds(InsertedStep(y)) && TuplesMatch(InsertedStep(y))
    ensures FlightHolds(InsertedStep(y)) && LookupHolds(InsertedStep(y))
  {
    hide Count, UpdateIds, RevIds, CamHolds, CountHolds, InFlight, FutureCam;
    FlightReturns(y.st.updates);
    var r, t := y.st.updates.insertRsps[0], y.st.rev;
    var filed := RevInsert(r.id, y.st.handler.cache.tuple, y.st.handler.cache.role);
    RevIdsSnoc(t.inserts, filed);
    forall id: SessionId
      ensures Count(RevIds(t.inserts + [filed]), id) == Count(RevIds(t.inserts), id) + Bit(r.id == id)
    {
      CountSnoc(RevIds(t.inserts), r.id, id);
    }
  }

  lemma InsertedKeeps(y: System)
    requires Inv(y)
    ensures Inv(InsertedStep(y))
  {
    hide Count, UpdateIds, RevIds, InFlight, AppliedAll, AllSucceed;
    if y.st.handler.phase == UpdRsp && y.st.updates.insertRsps != [] {
      var z := InsertedStep(y);
      InsertedKeepsLedger(y);
      FlightReturns(y.st.updates);
      assert Queued(z.st.updates) == Queued(y.st.updates);
      assert Bound(z.ledger) == Bound(y.ledger);
      hide LedgerHolds, TuplesMatch, LookupHolds, Queued;
      assert FutureCam(z.st) == FutureCam(y.st);
      assert CamHolds(z);
    }
  }

  // updates are sent to the CAM

  lemma SendInsertMovesOn(u: Updates)
    requires u.inserts != []
    ensures var u' := u.(inserts := u.inserts[1..], toCam := u.toCam + [u.inserts[0]]);
            Queued(u') == Queued(u) && InFlight(u') == InFlight(u)
  {
    hide ResponsesToInserts;
    var i := u.inserts[0];
    assert u.inserts == [i] + u.inserts[1..];
    InsertsOfAppend(u.toCam, [i]);
    InsertsOfAppend([i], u.inserts[1..]);
    hide InsertsOf;
  }

  lemma SendInsertKeeps(y: System)
    requires Inv(y) && y.st.updates.inserts != []
    ensures Inv(SendInsert(y))
  {
    hide Count, UpdateIds, RevIds, AppliedAll, AllSucceed, Bound, InFlight, Queued, CamHolds;
    SendInsertMovesOn(y.st.updates);
    FewBound(y.ledger, MAX_SESSIONS);
    BoundIs(y.ledger);
    CamHoldsFrame(y, SendInsert(y));
  }

  lemma BoundIs(l: Ledger)
    ensures Bound(l) == BoundBelow(l, MAX_SESSIONS)
  {
  }

  lemma {:induction false} FewBound(l: Ledger, n: nat)
    requires n <= MAX_SESSIONS
    ensures |BoundBelow(l, n)| <= n
  {
    if n != 0 {
      FewBound(l, n - 1);
      if l[n - 1].Unminted? || l[n - 1].Free? {
        assert BoundBelow(l, n) == BoundBelow(l, n - 1);
      } else {
        assert BoundBelow(l, n) == BoundBelow(l, n - 1) + {n - 1};
      }
    }
  }

  lemma CountTwice(q: seq<SessionId>, i: nat)
    requires 0 < i < |q| && q[i] == q[0]
    ensures Count(q, q[0]) >= 2
  {
    CountHead(q, q[0]);
    assert q[1..][i - 1] == q[0];
  }

  lemma SendDeleteKeepsLedger(y: System)
    requires Inv(y) && y.st.updates.deletes != []
    ensures LedgerHolds(SendDelete(y)) && TuplesMatch(SendDelete(y))
  {
    hide Count, UpdateIds, RevIds, CamHolds, CountHolds, FlightHolds, LookupHolds;
    var q, released := y.st.updates.deletes, y.st.ids.released;
    assert UpdateIds(q[1..]) == UpdateIds(q)[1..] && UpdateIds(q) != [] && UpdateIds(q)[0] == q[0].id by {
      UpdateIdsTail(q);
    }
    forall id: SessionId
      ensures Count(released + [q[0].id], id) == Count(released, id) + Bit(q[0].id == id)
      ensures Count(UpdateIds(q), id) == Bit(q[0].id == id) + Count(UpdateIds(q[1..]), id)
    {
      CountSnoc(released, q[0].id, id);
      CountHead(UpdateIds(q), id);
    }
    forall i | 0 < i < |q| ensures q[i].id != q[0].id {
      UpdateIdsAt(q, i);
      if q[i].id == q[0].id { CountTwice(UpdateIds(q), i); }
    }
  }

  lemma UpdateIdsTail(q: seq<Update>)
    requires q != []
    ensures UpdateIds(q) != [] && UpdateIds(q)[0] == q[0].id && UpdateIds(q[1..]) == UpdateIds(q)[1..]
  {
  }

  lemma UpdateIdsAt(q: seq<Update>, i: nat)
    requires i < |q|
    ensures |UpdateIds(q)| == |q| && UpdateIds(q)[i] == q[i].id
  {
  }

  lemma SendDeleteKeepsCam(y: System)
    requires Inv(y) && y.st.updates.inserts == [] && y.st.updates.deletes != []
    ensures CamHolds(SendDelete(y)) && LookupHolds(SendDelete(y))
  {
    hide Count, UpdateIds, RevIds, LedgerHolds, CountHolds, FlightHolds, AppliedAll, AllSucceed;
    var u := y.st.updates;
    var d := u.deletes[0];
    AppliedSnoc(y.st.cam, Queued(u), d);
    assert Queued(u) == u.toCam;
    var z := SendDelete(y);
    assert Queued(z.st.updates) == Queued(u) + [d];
    assert Binds(y.ledger[d.id], d.tuple);
    assert d.tuple in FutureCam(y.st) && FutureCam(y.st)[d.tuple] == d.id;
    hide Queued, TuplesMatch;
    assert FutureCam(z.st) == FutureCam(y.st) - {d.tuple};
    forall t: Tuple, id: SessionId
      ensures (t in FutureCam(z.st) && FutureCam(z.st)[t] == id) <==> Binds(z.ledger[id], t)
    {
      assert (t in FutureCam(y.st) && FutureCam(y.st)[t] == id) <==> Binds(y.ledger[id], t);
    }
  }

  lemma SendDeleteKeepsFlight(y: System)
    requires Inv(y) && y.st.updates.inserts == [] && y.st.updates.deletes != []
    ensures FlightHolds(SendDelete(y))
  {
    hide CamHolds, LookupHolds, LedgerHolds, CountHolds, InFlight;
    var u := y.st.updates;
    DeleteFliesNowhere(u, u.deletes[0], SendDelete(y).st.updates);
  }

  lemma DeleteFliesNowhere(u: Updates, d: Update, u': Updates)
    requires d.op == Delete && u'.insertRsps == u.insertRsps && u'.fromCam == u.fromCam && u'.inserts == u.inserts
    requires u'.toCam == u.toCam + [d]
    ensures InFlight(u') == InFlight(u)
  {
    hide InsertsOf, ResponsesToInserts;
    InsertsOfAppend(u.toCam, [d]);
    InsertsOfOne(d);
    assert InsertsOf(u.toCam) + [] == InsertsOf(u.toCam);
  }

  lemma SendDeleteKeepsCount(y: System)
    requires Inv(y) && y.st.updates.inserts == [] && y.st.updates.deletes != []
    ensures CountHolds(SendDelete(y))
  {
    hide CamHolds, LookupHolds, LedgerHolds, FlightHolds;
    FewBound(y.ledger, MAX_SESSIONS);
    var id := y.st.updates.deletes[0].id;
    assert y.ledger[id].Leaving?;
    assert Bound(SendDelete(y).ledger) == Bound(y.ledger) - {id};
    assert id in Bound(y.ledger);
  }

  lemma SendDeleteKeeps(y: System)
    requires Inv(y) && y.st.updates.inserts == [] && y.st.updates.deletes != []
    ensures Inv(SendDelete(y))
  {
    SendDeleteKeepsLedger(y);
    SendDeleteKeepsCam(y);
    SendDeleteKeepsFlight(y);
    SendDeleteKeepsCount(y);
    hide CamHolds, LookupHolds, LedgerHolds, FlightHolds, CountHolds, TuplesMatch;
  }

  lemma PassMovesOn(u: Updates)
    requires u.fromCam != []
    ensures var r := u.fromCam[0];
            InFlight(u.(fromCam := u.fromCam[1..],
                        insertRsps := if r.op == Insert then u.insertRsps + [r] else u.insertRsps)) == InFlight(u)
  {
    hide InsertsOf;
    var r := u.fromCam[0];
    ResponsesAppend(u.insertRsps, [r]);
    ResponsesOne(r);
  }

  lemma PassKeeps(y: System)
    requires Inv(y)
    ensures Inv(UpdateRspStep(y))
  {
    hide InFlight, CamHolds, Bound, Count, UpdateIds, RevIds, Queued, AppliedAll;
    if y.st.updates.fromCam != [] {
      PassMovesOn(y.st.updates);
      QueuedIs(y.st.updates, UpdateRspStep(y).st.updates);
      CamHoldsFrame(y, UpdateRspStep(y));
    }
  }

  lemma QueuedIs(u: Updates, u': Updates)
    requires u.toCam == u'.toCam && u.inserts == u'.inserts
    ensures Queued(u) == Queued(u')
  {
  }

  // ---------- The CAM's own steps ----------

  lemma NoFlightNoInserts(u: Updates)
    requires InFlight(u) == []
    ensures InsertsOf(Queued(u)) == []
  {
    InsertsOfAppend(u.toCam, u.inserts);
    hide InsertsOf, ResponsesToInserts;
  }

  lemma CamLookupKeeps(y: System)
    requires Inv(y)
    ensures Inv(CamLookupStep(y))
  {
    hide InFlight, CamHolds, Bound, Count, UpdateIds, RevIds, Queued, AppliedAll;
    if y.st.lookups.requests != [] {
      var t := y.st.lookups.requests[0].tuple;
      NoFlightNoInserts(y.st.updates);
      if t !in y.st.cam {
        DeletesShrink(y.st.cam, Queued(y.st.updates), t);
      }
      CamHoldsFrame(y, CamLookupStep(y));
    }
  }

  lemma CamUpdateMovesOn(u: Updates, success: bool)
    requires u.toCam != []
    ensures var q := u.toCam[0];
            var u' := u.(toCam := u.toCam[1..],
                         fromCam := u.fromCam + [UpdateRsp(q.op, q.tuple, q.id, q.source, success)]);
            InFlight(u') == InFlight(u) && Queued(u) == [q] + Queued(u')
  {
    hide InFlight;
    var q := u.toCam[0];
    var r := UpdateRsp(q.op, q.tuple, q.id, q.source, success);
    var u' := u.(toCam := u.toCam[1..], fromCam := u.fromCam + [r]);
    FlightMovesOn(u, r, u');
    assert u.toCam == [q] + u.toCam[1..];
  }

  lemma FlightMovesOn(u: Updates, r: UpdateRsp, u': Updates)
    requires u.toCam != [] && u' == u.(toCam := u.toCam[1..], fromCam := u.fromCam + [r])
    requires u.toCam[0] == Update(r.op, r.tuple, r.id, r.source)
    ensures InFlight(u') == InFlight(u)
  {
    hide InsertsOf, ResponsesToInserts;
    ResponsesAppend(u.fromCam, [r]);
    ResponsesOne(r);
    InsertsHead(u.toCam);
    var one := if r.op == Insert then [u.toCam[0]] else [];
    SameJoined(ResponsesToInserts(u.insertRsps), ResponsesToInserts(u.fromCam), one,
               InsertsOf(u.toCam[1..]), InsertsOf(u.inserts));
  }

  lemma SameJoined(a: seq<Update>, b: seq<Update>, c: seq<Update>, d: seq<Update>, e: seq<Update>)
    ensures a + b + (c + d) + e == a + (b + c) + d + e
  {
  }

  lemma AppliedHead(cam: Cam, q: Update, rest: seq<Update>)
    ensures AppliedAll(cam, [q] + rest) == AppliedAll(Applied(cam, q), rest)
    ensures AllSucceed(cam, [q] + rest) <==> Succeeds(cam, q) && AllSucceed(Applied(cam, q), rest)
  {
    assert ([q] + rest)[1..] == rest;
  }

  lemma CamUpdateKeeps(y: System)
    requires Inv(y)
    ensures Inv(CamUpdateStep(y))
  {
    hide InFlight, Bound, Count, UpdateIds, RevIds, Queued, AppliedAll, AllSucceed, Applied;
    var u := y.st.updates;
    if u.toCam != [] {
      CamUpdateMovesOn(u, Succeeds(y.st.cam, u.toCam[0]));
      AppliedHead(y.st.cam, u.toCam[0], Queued(CamUpdateStep(y).st.updates));
      hide Succeeds, LedgerHolds, TuplesMatch, FlightHolds, Binds;
      assert FutureCam(CamUpdateStep(y).st) == FutureCam(y.st);
      LedgerFrame(y, CamUpdateStep(y));
    }
  }

  /** What the ledger says does not depend on the CAM's queues. */
  lemma LedgerFrame(y: System, z: System)
    requires LedgerHolds(y) && TuplesMatch(y) && FlightHolds(y)
    requires z.ledger == y.ledger && z.st.ids == y.st.ids && z.st.rev == y.st.rev
    requires z.st.handler.phase == y.st.handler.phase && z.st.handler.cache == y.st.handler.cache
    requires z.st.updates.deletes == y.st.updates.deletes && z.st.updates.inserts == y.st.updates.inserts
    requires z.st.updates.insertRsps == y.st.updates.insertRsps && InFlight(z.st.updates) == InFlight(y.st.updates)
    ensures LedgerHolds(z) && TuplesMatch(z) && FlightHolds(z)
  {
    hide InFlight, Count, UpdateIds, RevIds;
  }

  // ---------- The reverse table ----------

  lemma RevIdsTail(q: seq<RevInsert>)
    requires q != []
    ensures RevIds(q) != [] && RevIds(q)[0] == q[0].id && RevIds(q[1..]) == RevIds(q)[1..]
  {
  }

  lemma RevIdsAt(q: seq<RevInsert>, i: nat)
    requires i < |q|
    ensures |RevIds(q)| == |q| && RevIds(q)[i] == q[i].id
  {
  }

  lemma RevInsertKeepsLedger(y: System)
    requires Inv(y) && y.st.rev.inserts != []
    ensures LedgerHolds(RevInsertStep(y)) && TuplesMatch(RevInsertStep(y))
    ensures y.ledger[y.st.rev.inserts[0].id] == Filed(y.st.rev.inserts[0].tuple)
  {
    hide Count, UpdateIds, RevIds, CamHolds, CountHolds, FlightHolds, LookupHolds;
    var q := y.st.rev.inserts;
    RevIdsTail(q);
    forall id: SessionId
      ensures Count(RevIds(q), id) == Bit(q[0].id == id) + Count(RevIds(q[1..]), id)
    {
      CountHead(RevIds(q), id);
    }
    forall i | 0 < i < |q| ensures q[i].id != q[0].id {
      RevIdsAt(q, i);
      if q[i].id == q[0].id { CountTwice(RevIds(q), i); }
    }
  }

  lemma RevInsertKeeps(y: System)
    requires Inv(y) && y.st.rev.inserts != []
    ensures Inv(RevInsertStep(y))
  {
    hide InFlight, LedgerHolds, Queued, AppliedAll, CamHolds;
    RevInsertKeepsLedger(y);
    CamHoldsFrame(y, RevInsertStep(y));
    assert Bound(RevInsertStep(y).ledger) == Bound(y.ledger);
    hide TuplesMatch;
  }

  lemma ReleaseKeepsLedger(y: System)
    requires Inv(y) && y.st.rev.releases != []
    ensures LedgerHolds(ReleaseStep(y)) && TuplesMatch(ReleaseStep(y))
  {
    hide Count, UpdateIds, RevIds, CamHolds, CountHolds, FlightHolds, LookupHolds;
    var q, t := y.st.updates.deletes, y.st.rev;
    var id := t.releases[0];
    var d := Update(Delete, t.entries[id].tuple, id, Rx);
    UpdateIdsSnoc(q, d);
    forall i: SessionId
      ensures Count(UpdateIds(q + [d]), i) == Count(UpdateIds(q), i) + Bit(id == i)
    {
      CountSnoc(UpdateIds(q), id, i);
    }
  }

  lemma InFlightIs(u: Updates, u': Updates)
    requires u.insertRsps == u'.insertRsps && u.fromCam == u'.fromCam && u.toCam == u'.toCam && u.inserts == u'.inserts
    ensures InFlight(u) == InFlight(u')
  {
  }

  lemma ReleaseKeeps(y: System)
    requires Inv(y) && y.st.rev.releases != []
    ensures Inv(ReleaseStep(y))
  {
    hide InFlight, Queued, AppliedAll, CamHolds, Count, UpdateIds, RevIds, TuplesMatch;
    ReleaseKeepsLedger(y);
    QueuedIs(y.st.updates, ReleaseStep(y).st.updates);
    InFlightIs(y.st.updates, ReleaseStep(y).st.updates);
    assert Bound(ReleaseStep(y).ledger) == Bound(y.ledger);
    CamHoldsFrame(y, ReleaseStep(y));
    hide LedgerHolds;
  }

  // ---------- Runs ----------

  lemma AskKeeps(y: System, a: Action)
    requires Inv(y) && (a.TxAsks? || a.RxAsks? || a.Release?)
    ensures Inv(Next(y, a))
  {
    hide InFlight, Queued, AppliedAll, CamHolds, Count, UpdateIds, RevIds, Bound;
    CamHoldsFrame(y, Next(y, a));
  }

  lemma StepKeeps(y: System, a: Action)
    requires Inv(y)
    ensures Inv(Next(y, a))
  {
    hide Inv, ResponseStep, IdStep, SendInsert, SendDelete, RevInsertStep, ReleaseStep, InsertedStep, RequestStep,
         UpdateRspStep, CamLookupStep, CamUpdateStep;
    match a
    case GetId => IdKeeps(y);
    case HandleRequest => RequestKeeps(y);
    case HandleResponse => ResponseKeeps(y);
    case HandleInserted => InsertedKeeps(y);
    case Send =>
      if y.st.updates.inserts != [] {
        SendInsertKeeps(y);
      } else if y.st.updates.deletes != [] {
        SendDeleteKeeps(y);
      }
    case PassResponse => PassKeeps(y);
    case CamLookup => CamLookupKeeps(y);
    case CamUpdate => CamUpdateKeeps(y);
    case ReverseTable =>
      if y.st.rev.inserts != [] {
        RevInsertKeeps(y);
      } else if y.st.rev.releases != [] {
        ReleaseKeeps(y);
      }
    case TxAsks(_) => AskKeeps(y, a);
    case RxAsks(_) => AskKeeps(y, a);
    case Release(_) => AskKeeps(y, a);
  }

  lemma IdKeeps(y: System)
    requires Inv(y)
    ensures Inv(IdStep(y))
  {
    hide Inv;
    if y.st.ids.released != [] {
      RecycleKeeps(y);
    } else if y.st.ids.minted < MAX_SESSIONS {
      MintKeeps(y);
    }
  }

  lemma ResponseKeeps(y: System)
    requires Inv(y)
    ensures Inv(ResponseStep(y))
  {
    hide Inv;
    if Takes(y) {
      TakeKeeps(y);
    } else {
      ForwardKeeps(y);
    }
  }

  lemma InitialHolds()
    ensures Inv(Initial())
  {
    assert Bound(Initial().ledger) == {};
  }

  lemma {:induction false} RunKeeps(actions: seq<Action>)
    ensures Inv(Run(actions))
  {
    hide Inv, Next, Initial;
    if actions == [] {
      InitialHolds();
    } else {
      var n := |actions| - 1;
      RunKeeps(actions[..n]);
      StepKeeps(Run(actions[..n]), actions[n]);
    }
  }

  // ---------- What the invariant gives ----------

  /** Conservation: in every reachable state every ID is in exactly one place - not minted yet,
      available, released, in flight to the CAM, on its way to the reverse table, valid there, or
      waiting to be deleted. So no ID is ever handed out twice, however often its release is
      requested. */
  lemma EveryIdIsInOnePlace(actions: seq<Action>, id: SessionId)
    ensures Places(Run(actions).st, id) == 1
  {
    RunKeeps(actions);
    OnePlace(Run(actions), id);
  }

  lemma OnePlace(y: System, id: SessionId)
    requires Inv(y)
    ensures Places(y.st, id) == 1
  {
    hide InFlight, RevIds, CamHolds, LookupHolds, CountHolds, TuplesMatch;
    var f := InFlight(y.st.updates);
    if f != [] {
      assert f == [f[0]];
      assert UpdateIds(f) == [f[0].id];
      CountSnoc([], f[0].id, id);
    }
  }

  /** A tuple and an ID are tied together by a valid reverse entry, an insert in flight, an entry
      on its way to the reverse table, or a delete that waits. */
  ghost predicate Tied(s: State, t: Tuple, id: SessionId) {
    || (s.rev.valid[id] && s.rev.entries[id].tuple == t)
    || (exists i ::
          0 <= i < |InFlight(s.updates)| && InFlight(s.updates)[i].id == id && InFlight(s.updates)[i].tuple == t)
    || (exists i :: 0 <= i < |s.rev.inserts| && s.rev.inserts[i].id == id && s.rev.inserts[i].tuple == t)
    || (exists i :: 0 <= i < |s.updates.deletes| && s.updates.deletes[i].id == id && s.updates.deletes[i].tuple == t)
  }

  lemma CountMember(q: seq<SessionId>, id: SessionId) returns (i: nat)
    requires Count(q, id) > 0
    ensures i < |q| && q[i] == id
  {
    assert id in q;
    i :| 0 <= i < |q| && q[i] == id;
  }

  lemma LedgerIsTied(y: System, t: Tuple, id: SessionId)
    requires Inv(y)
    ensures Binds(y.ledger[id], t) <==> Tied(y.st, t, id)
  {
    hide InFlight, Count, RevIds, UpdateIds, CamHolds, LookupHolds, CountHolds;
    if y.ledger[id].Filed? {
      var i := CountMember(RevIds(y.st.rev.inserts), id);
      RevIdsLength(y.st.rev.inserts);
      RevIdsAt(y.st.rev.inserts, i);
    } else if y.ledger[id].Leaving? {
      var i := CountMember(UpdateIds(y.st.updates.deletes), id);
      UpdateIdsLength(y.st.updates.deletes);
      UpdateIdsAt(y.st.updates.deletes, i);
    }
  }

  lemma RevIdsLength(q: seq<RevInsert>)
    ensures |RevIds(q)| == |q|
  {
  }

  lemma UpdateIdsLength(q: seq<Update>)
    ensures |UpdateIds(q)| == |q|
  {
  }

  /** Agreement: in every reachable state the CAM, once its queued updates are applied, holds a
      tuple for an ID exactly when a valid reverse entry, an insert under way or a waiting delete
      ties them; and it never holds two tuples for one ID. */
  lemma CamAgrees(actions: seq<Action>, t: Tuple, id: SessionId)
    ensures var s := Run(actions).st;
            && ((t in FutureCam(s) && FutureCam(s)[t] == id) <==> Tied(s, t, id))
            && (forall t': Tuple ::
                  t in FutureCam(s) && t' in FutureCam(s) && FutureCam(s)[t] == FutureCam(s)[t'] ==> t == t')
  {
    RunKeeps(actions);
    hide Run;
    var y := Run(actions);
    LedgerIsTied(y, t, id);
    hide LedgerHolds, TuplesMatch, FlightHolds, LookupHolds, CountHolds, Tied, FutureCam;
    forall t': Tuple | t in FutureCam(y.st) && t' in FutureCam(y.st) && FutureCam(y.st)[t] == FutureCam(y.st)[t']
      ensures t == t'
    {
      assert Binds(y.ledger[FutureCam(y.st)[t]], t) && Binds(y.ledger[FutureCam(y.st)[t]], t');
    }
  }

  /** The CAM never meets an insert of a key it has, nor a delete of a key it lacks. */
  lemma UpdatesSucceed(actions: seq<Action>)
    requires Run(actions).st.updates.toCam != []
    ensures var s := Run(actions).st;
            Succeeds(s.cam, s.updates.toCam[0]) &&
            CamUpdateStep(Run(actions)).st.updates.fromCam[|s.updates.fromCam|].success
  {
    RunKeeps(actions);
    hide Run, Succeeds;
    NextSucceeds(Run(actions));
  }

  lemma NextSucceeds(y: System)
    requires CamHolds(y) && y.st.updates.toCam != []
    ensures Succeeds(y.st.cam, y.st.updates.toCam[0])
  {
    hide Succeeds;
    assert Queued(y.st.updates)[0] == y.st.updates.toCam[0];
  }

  /** The session counter is the number of inserts sent minus deletes sent, between 0 and 128; once
      no update waits it is the number of IDs that are valid or about to be. */
  lemma CountIsExact(actions: seq<Action>)
    ensures var y := Run(actions);
            && y.st.count == y.inserted - y.deleted && 0 <= y.st.count <= MAX_SESSIONS
            && (y.st.updates.inserts == [] ==> y.st.count == |Bound(y.ledger)|)
  {
    RunKeeps(actions);
    FewBound(Run(actions).ledger, MAX_SESSIONS);
  }

  /** Releasing an ID again before it is handed out anew does nothing but use up the request. */
  lemma SecondReleaseIsIgnored(y: System)
    requires y.st.rev.inserts == [] && |y.st.rev.releases| >= 2
    requires y.st.rev.releases[0] == y.st.rev.releases[1]
    ensures var once, twice := RevStep(y), RevStep(RevStep(y));
            twice == once.(st := once.st.(rev := once.st.rev.(releases := once.st.rev.releases[1..])))
  {
    var once := RevStep(y);
    var id := y.st.rev.releases[0];
    assert once.st.rev.releases[0] == id && !once.st.rev.valid[id];
    assert once.st.rev.valid[id := false] == once.st.rev.valid;
  }

  /** The answer to a request that opened a session names an ID the CAM ties to its tuple. */
  lemma NewSessionAnswerIsRight(y: System)
    requires Inv(y) && y.st.handler.phase == UpdRsp && y.st.updates.insertRsps != []
    ensures var z := InsertedStep(y);
            var a := z.st.handler.answers[|y.st.handler.answers|];
            && a.hit && a.role == y.st.handler.cache.role
            && y.st.handler.cache.tuple in FutureCam(z.st) && FutureCam(z.st)[y.st.handler.cache.tuple] == a.id
  {
    InsertedKeeps(y);
    hide Inv, FutureCam, InFlight;
    BindsIff(InsertedStep(y), y.st.handler.cache.tuple, y.st.updates.insertRsps[0].id);
  }

  // ---------- Look-ups that hit ----------

  /** Without inserts a queue keeps a tuple if it holds no delete of it, and loses it otherwise. */
  lemma {:induction false} DeletesDecide(cam: Cam, q: seq<Update>, t: Tuple)
    requires InsertsOf(q) == [] && t in cam
    ensures t in AppliedAll(cam, q) <==> forall u <- q :: u.tuple != t
    ensures t in AppliedAll(cam, q) ==> AppliedAll(cam, q)[t] == cam[t]
    decreases |q|
  {
    if q != [] {
      InsertsHead(q);
      assert q[0].op == Delete && InsertsOf(q[1..]) == [];
      if q[0].tuple == t {
        DeletesShrink(Applied(cam, q[0]), q[1..], t);
        assert q[0] in q;
      } else {
        DeletesDecide(Applied(cam, q[0]), q[1..], t);
        assert forall u <- q :: u == q[0] || u in q[1..];
      }
    }
  }

  /** An ID stands for a tuple in the reverse table, or is about to. */
  ghost predicate Live(s: State, t: Tuple, id: SessionId) {
    || (s.rev.valid[id] && s.rev.entries[id].tuple == t)
    || (exists i :: 0 <= i < |s.rev.inserts| && s.rev.inserts[i].id == id && s.rev.inserts[i].tuple == t)
  }

  ghost predicate DeleteWaits(u: Updates, t: Tuple) {
    (exists d <- u.deletes :: d.tuple == t) || (exists d <- u.toCam :: d.tuple == t)
  }

  /** In every run a look-up hits if and only if the CAM holds the tuple, and the ID it finds is that
      of a live session of the tuple if and only if no delete of the tuple waits, neither to be sent
      nor at the CAM. If one does, the answer names an ID that has been released. */
  lemma HitIsLiveIff(actions: seq<Action>)
    requires Run(actions).st.lookups.requests != []
    ensures var s := Run(actions).st;
            var t := s.lookups.requests[0].tuple;
            var r := CamLookupStep(Run(actions)).st.lookups.responses[|s.lookups.responses|];
            && (r.hit <==> t in s.cam)
            && (r.hit ==> r.id == s.cam[t] && (Live(s, t, r.id) <==> !DeleteWaits(s.updates, t)))
  {
    RunKeeps(actions);
    hide Run, Inv, Live, DeleteWaits;
    var s := Run(actions).st;
    if s.lookups.requests[0].tuple in s.cam { FoundIsLiveIff(Run(actions), s.lookups.requests[0].tuple); }
  }

  lemma FoundIsLiveIff(y: System, t: Tuple)
    requires Inv(y) && y.st.lookups.requests != [] && t in y.st.cam
    ensures Live(y.st, t, y.st.cam[t]) <==> !DeleteWaits(y.st.updates, t)
  {
    var id := y.st.cam[t];
    FoundInFuture(y, t);
    LiveIsBound(y, t, id);
    hide Inv, Live, FutureCam, DeleteWaits;
    BindsIff(y, t, id);
    if DeleteUnsent(y.st.updates, t) {
      UnsentIsLeaving(y, t);
    } else {
      hide DeleteUnsent;
    }
    DeleteWaitsIs(y.st.updates, t);
  }

  ghost predicate DeleteUnsent(u: Updates, t: Tuple) { exists d <- u.deletes :: d.tuple == t }

  lemma DeleteWaitsIs(u: Updates, t: Tuple)
    ensures DeleteWaits(u, t) <==> DeleteUnsent(u, t) || exists d <- u.toCam :: d.tuple == t
  {
  }

  /** What the CAM holds now it will hold, unless a delete is at the CAM. */
  lemma FoundInFuture(y: System, t: Tuple)
    requires Inv(y) && y.st.lookups.requests != [] && t in y.st.cam
    ensures t in FutureCam(y.st) <==> !(exists d <- y.st.updates.toCam :: d.tuple == t)
    ensures t in FutureCam(y.st) ==> FutureCam(y.st)[t] == y.st.cam[t]
    ensures y.st.handler.phase != UpdRsp
  {
    var u := y.st.updates;
    hide InFlight, InsertsOf, AppliedAll, AllSucceed, Count, CountHolds, LedgerHolds, CamHolds;
    NoFlightNoInserts(u);
    DeletesDecide(y.st.cam, Queued(u), t);
    NoneUnsent(u);
  }

  lemma BindsIff(y: System, t: Tuple, id: SessionId)
    requires Inv(y)
    ensures (t in FutureCam(y.st) && FutureCam(y.st)[t] == id) <==> Binds(y.ledger[id], t)
  {
    hide LedgerHolds, TuplesMatch, FlightHolds, LookupHolds, CountHolds, FutureCam;
  }

  lemma UnsentIsLeaving(y: System, t: Tuple)
    requires Inv(y) && DeleteUnsent(y.st.updates, t)
    ensures exists id: SessionId :: y.ledger[id] == Leaving(t) && t in FutureCam(y.st) && FutureCam(y.st)[t] == id
  {
    hide LedgerHolds, FlightHolds, LookupHolds, CountHolds, CamHolds, FutureCam;
    var d :| d in y.st.updates.deletes && d.tuple == t;
    var i :| 0 <= i < |y.st.updates.deletes| && y.st.updates.deletes[i] == d;
    assert y.ledger[d.id] == Leaving(t);
    BindsIff(y, t, d.id);
  }

  /** Nothing unsent while nothing is in flight. */
  lemma NoneUnsent(u: Updates)
    requires InFlight(u) == [] && forall i :: 0 <= i < |u.inserts| ==> u.inserts[i].op == Insert
    ensures u.inserts == [] && Queued(u) == u.toCam
  {
    if u.inserts != [] { InsertsHead(u.inserts); }
  }

  /** Bound and not on its way: live, or waiting for deletion. */
  lemma LiveIsBound(y: System, t: Tuple, id: SessionId)
    requires Inv(y) && y.st.handler.phase != UpdRsp
    ensures Live(y.st, t, id) <==> y.ledger[id] == Filed(t) || y.ledger[id] == Valid(t)
    ensures y.ledger[id] == Leaving(t) ==> DeleteUnsent(y.st.updates, t)
    ensures !y.ledger[id].Flying?
  {
    hide InFlight, Count, RevIds, UpdateIds, CamHolds, LookupHolds, CountHolds;
    if y.ledger[id].Filed? {
      var i := CountMember(RevIds(y.st.rev.inserts), id);
      RevIdsLength(y.st.rev.inserts);
      RevIdsAt(y.st.rev.inserts, i);
    } else if y.ledger[id].Leaving? {
      var i := CountMember(UpdateIds(y.st.updates.deletes), id);
      UpdateIdsLength(y.st.updates.deletes);
      UpdateIdsAt(y.st.updates.deletes, i);
      assert y.st.updates.deletes[i] in y.st.updates.deletes;
    }
  }

  // ---------- An open of a tuple that has a session ----------

  /** Both sides of a simultaneous open: the peer's segment names the tuple from its own side. The
      local port is 0x8000, the first one handed out, in network byte order. */
  const LOCAL := Tuple(1, 0x0080, 2, 0x5000)

  /** The steps that make a session for the peer, and those that answer the application. */
  function PeerActions(): seq<Action> {
    [GetId, RxAsks(RxRequest(Tuple(2, 0x5000, 1, 0x0080), true, 0)), HandleRequest, CamLookup, HandleResponse,
     Send, CamUpdate, PassResponse, HandleInserted]
  }

  function OpenActions(r: TxRequest): seq<Action> { [TxAsks(r), HandleRequest, CamLookup, HandleResponse] }

  ghost function Continue(y: System, actions: seq<Action>): System
    decreases |actions|
  {
    if actions == [] then y else Continue(Next(y, actions[0]), actions[1..])
  }

  lemma {:induction false} RunContinues(a: seq<Action>, b: seq<Action>)
    ensures Run(a + b) == Continue(Run(a), b)
    decreases |b|
  {
    hide Next;
    if b == [] {
      assert a + b == a;
    } else {
      assert (a + [b[0]])[..|a|] == a;
      RunContinues(a + [b[0]], b[1..]);
      assert a + b == (a + [b[0]]) + b[1..];
    }
  }

  lemma ContinueMore(y: System, a: Action, actions: seq<Action>)
    ensures Continue(y, [a] + actions) == Continue(Next(y, a), actions)
  {
    assert ([a] + actions)[1..] == actions;
  }

  /** An open whose tuple the CAM knows is answered with the ID the CAM has, whoever made it. */
  lemma KnownTupleIsAnswered(y: System, r: TxRequest)
    requires y.st.handler.phase == LupReq && y.st.handler.requests.tx == [] && y.st.lookups == Lookups([], [])
    requires r.tuple in y.st.cam
    ensures Continue(y, OpenActions(r)).st.handler.answers ==
            y.st.handler.answers + [Answer(y.st.cam[r.tuple], true, r.role, TxApp)]
  {
    var y1 := Next(y, TxAsks(r));
    var y2 := Next(y1, HandleRequest);
    var y3 := Next(y2, CamLookup);
    var y4 := Next(y3, HandleResponse);
    assert y3.st.lookups.responses == [LookupRsp(true, y.st.cam[r.tuple], TxApp)];
    hide Next;
    ContinueMore(y, TxAsks(r), [HandleRequest, CamLookup, HandleResponse]);
    ContinueMore(y1, HandleRequest, [CamLookup, HandleResponse]);
    ContinueMore(y2, CamLookup, [HandleResponse]);
    ContinueMore(y3, HandleResponse, []);
  }

  /** A segment of the peer names the tuple from its own side, source and destination exchanged: it is
      answered with the ID the CAM has for the tuple as seen from ours. */
  lemma KnownPeerIsAnswered(y: System, r: RxRequest)
    requires y.st.handler.phase == LupReq && y.st.handler.requests == Requests([], [])
    requires y.st.lookups == Lookups([], [])
    requires Tuple(r.tuple.dstIp, r.tuple.dstPort, r.tuple.srcIp, r.tuple.srcPort) in y.st.cam
    ensures Continue(y, [RxAsks(r), HandleRequest, CamLookup, HandleResponse]).st.handler.answers ==
            y.st.handler.answers +
            [Answer(y.st.cam[Tuple(r.tuple.dstIp, r.tuple.dstPort, r.tuple.srcIp, r.tuple.srcPort)], true, r.role, Rx)]
  {
    var t := Tuple(r.tuple.dstIp, r.tuple.dstPort, r.tuple.srcIp, r.tuple.srcPort);
    var y1 := Next(y, RxAsks(r));
    assert y1.st.handler.requests == Requests([], [r]);
    var y2 := Next(y1, HandleRequest);
    var y3 := Next(y2, CamLookup);
    var y4 := Next(y3, HandleResponse);
    assert y3.st.lookups.responses == [LookupRsp(true, y.st.cam[t], Rx)];
    hide Next;
    ContinueMore(y, RxAsks(r), [HandleRequest, CamLookup, HandleResponse]);
    ContinueMore(y1, HandleRequest, [CamLookup, HandleResponse]);
    ContinueMore(y2, CamLookup, [HandleResponse]);
    ContinueMore(y3, HandleResponse, []);
  }

  lemma PeerAsks()
    ensures var y := Continue(Initial(), PeerActions()[..5]);
            && y.st.handler == Handler(UpdRsp, Cache(LOCAL, true, Rx, 0), Requests([], []), [])
            && y.st.updates == Updates([Update(Insert, LOCAL, 0, Rx)], [], [], [], [])
            && y.st.cam == map[] && y.st.lookups == Lookups([], [])
            && y.st.rev == Initial().st.rev
  {
    var r := RxRequest(Tuple(2, 0x5000, 1, 0x0080), true, 0);
    var y1 := Next(Initial(), GetId);
    var y2 := Next(y1, RxAsks(r));
    var y3 := Next(y2, HandleRequest);
    assert y3.st.handler.cache == Cache(LOCAL, true, Rx, 0);
    var y4 := Next(y3, CamLookup);
    assert y4.st.lookups.responses == [LookupRsp(false, 0, Rx)];
    var y5 := Next(y4, HandleResponse);
    hide Next, Initial;
    assert PeerActions()[..5] == [GetId] + [RxAsks(r), HandleRequest, CamLookup, HandleResponse];
    ContinueMore(Initial(), GetId, [RxAsks(r), HandleRequest, CamLookup, HandleResponse]);
    ContinueMore(y1, RxAsks(r), [HandleRequest, CamLookup, HandleResponse]);
    ContinueMore(y2, HandleRequest, [CamLookup, HandleResponse]);
    ContinueMore(y3, CamLookup, [HandleResponse]);
    ContinueMore(y4, HandleResponse, []);
  }

  /** Its insert reaches the CAM. */
  lemma PeerIsSent(y: System)
    requires y.st.updates == Updates([Update(Insert, LOCAL, 0, Rx)], [], [], [], []) && y.st.cam == map[]
    ensures var z := Continue(y, [Send, CamUpdate]).st;
            && z.handler == y.st.handler && z.lookups == y.st.lookups && z.rev == y.st.rev
            && z.updates == Updates([], [], [], [UpdateRsp(Insert, LOCAL, 0, Rx, true)], [])
            && z.cam == map[LOCAL := 0]
  {
    var y1 := Next(y, Send);
    assert y1.st.updates == Updates([], [], [Update(Insert, LOCAL, 0, Rx)], [], []);
    var y2 := Next(y1, CamUpdate);
    assert y2.st.updates.fromCam == [UpdateRsp(Insert, LOCAL, 0, Rx, true)] && y2.st.cam == map[LOCAL := 0];
    hide Next;
    assert [Send, CamUpdate] == [Send] + [CamUpdate] && [CamUpdate] + [] == [CamUpdate];
    ContinueMore(y, Send, [CamUpdate]);
    ContinueMore(y1, CamUpdate, []);
  }

  /** The CAM's response reaches the handler. */
  lemma PeerIsFiled(y: System)
    requires y.st.handler == Handler(UpdRsp, Cache(LOCAL, true, Rx, 0), Requests([], []), [])
    requires y.st.updates == Updates([], [], [], [UpdateRsp(Insert, LOCAL, 0, Rx, true)], [])
    ensures var z := Continue(y, [PassResponse, HandleInserted]).st;
            && z.handler == Handler(LupReq, Cache(LOCAL, true, Rx, 0), Requests([], []), [Answer(0, true, 0, Rx)])
            && z.cam == y.st.cam && z.lookups == y.st.lookups && z.updates == Updates([], [], [], [], [])
            && z.rev == y.st.rev.(inserts := y.st.rev.inserts + [RevInsert(0, LOCAL, 0)])
  {
    var y1 := Next(y, PassResponse);
    assert y1.st.updates == Updates([], [], [], [], [UpdateRsp(Insert, LOCAL, 0, Rx, true)]);
    var y2 := Next(y1, HandleInserted);
    hide Next;
    assert [PassResponse, HandleInserted] == [PassResponse] + [HandleInserted];
    assert [HandleInserted] + [] == [HandleInserted];
    ContinueMore(y, PassResponse, [HandleInserted]);
    ContinueMore(y1, HandleInserted, []);
  }

  /** The peer's session is made. */
  lemma PeerIsMade()
    ensures var y := Run(PeerActions());
            && y.st.handler == Handler(LupReq, Cache(LOCAL, true, Rx, 0), Requests([], []), [Answer(0, true, 0, Rx)])
            && y.st.cam == map[LOCAL := 0] && y.st.lookups == Lookups([], [])
            && y.st.updates == Updates([], [], [], [], [])
            && y.st.rev == Initial().st.rev.(inserts := [RevInsert(0, LOCAL, 0)])
  {
    hide Run, Continue, Next, Initial;
    var ask, send, file := PeerActions()[..5], [Send, CamUpdate], [PassResponse, HandleInserted];
    assert [] + ask == ask && ask + send + file == PeerActions();
    hide PeerActions;
    RunsFromStart();
    PeerAsks();
    RunContinues([], ask);
    PeerIsSent(Run(ask));
    RunContinues(ask, send);
    PeerIsFiled(Run(ask + send));
    RunContinues(ask + send, file);
  }

  /** A run from the start in which an open is answered with a session it did not make: the peer's
      own SYN to the port just handed out is looked up first, and both get ID 0. */
  lemma OpenIsGivenPeersSession(role: nat)
    ensures Run(PeerActions() + OpenActions(TxRequest(LOCAL, role))).st.handler.answers ==
            [Answer(0, true, 0, Rx), Answer(0, true, role, TxApp)]
  {
    hide Run, Continue, Next, OpenActions, PeerActions;
    PeerIsMade();
    RunContinues(PeerActions(), OpenActions(TxRequest(LOCAL, role)));
    KnownTupleIsAnswered(Run(PeerActions()), TxRequest(LOCAL, role));
  }

  /** The peer's session is filed and released again, and then an open asks for its tuple. */
  function StaleActions(role: nat): seq<Action> {
    [ReverseTable, Release(0), ReverseTable] + [TxAsks(TxRequest(LOCAL, role)), HandleRequest]
  }

  lemma PeerIsReleased(y: System)
    requires y.st.updates == Updates([], [], [], [], [])
    requires y.st.rev == Initial().st.rev.(inserts := [RevInsert(0, LOCAL, 0)])
    ensures var z := Continue(y, [ReverseTable, Release(0), ReverseTable]).st;
            && z.handler == y.st.handler && z.lookups == y.st.lookups && z.cam == y.st.cam
            && z.updates == Updates([], [Update(Delete, LOCAL, 0, Rx)], [], [], [])
  {
    var y1 := Next(y, ReverseTable);
    assert y1.st.rev.valid[0] && y1.st.rev.entries[0].tuple == LOCAL && y1.st.rev.inserts == [];
    var y2 := Next(y1, Release(0));
    assert y2.st.rev.releases == [0];
    var y3 := Next(y2, ReverseTable);
    hide Next, Initial;
    ContinueMore(y, ReverseTable, [Release(0), ReverseTable]);
    ContinueMore(y1, Release(0), [ReverseTable]);
    ContinueMore(y2, ReverseTable, []);
  }

  lemma OpenAsks(y: System, r: TxRequest)
    requires y.st.handler.phase == LupReq && y.st.handler.requests == Requests([], [])
    requires y.st.lookups == Lookups([], [])
    ensures var z := Continue(y, [TxAsks(r), HandleRequest]).st;
            && z.lookups == Lookups([LookupReq(r.tuple, TxApp)], [])
            && z.updates == y.st.updates && z.cam == y.st.cam
  {
    var y1 := Next(y, TxAsks(r));
    assert y1.st.handler.requests.tx == [r];
    var y2 := Next(y1, HandleRequest);
    assert y2.st.lookups == Lookups([LookupReq(r.tuple, TxApp)], []);
    hide Next;
    assert [TxAsks(r), HandleRequest] == [TxAsks(r)] + [HandleRequest] && [HandleRequest] + [] == [HandleRequest];
    ContinueMore(y, TxAsks(r), [HandleRequest]);
    ContinueMore(y1, HandleRequest, []);
  }

  /** A run from the start in which an open's look-up finds an ID that has been released. */
  lemma StaleIdIsFound(role: nat)
    ensures var s := Run(PeerActions() + StaleActions(role)).st;
            && s.lookups.requests == [LookupReq(LOCAL, TxApp)]
            && LOCAL in s.cam && s.cam[LOCAL] == 0 && !Live(s, LOCAL, 0)
  {
    hide Run, Continue, Next, PeerActions, Initial, Live;
    var peer, release, open := PeerActions(), [ReverseTable, Release(0), ReverseTable],
                               [TxAsks(TxRequest(LOCAL, role)), HandleRequest];
    PeerIsMade();
    PeerIsReleased(Run(peer));
    RunContinues(peer, release);
    OpenAsks(Run(peer + release), TxRequest(LOCAL, role));
    RunContinues(peer + release, open);
    assert peer + StaleActions(role) == peer + release + open;
    var s := Run(peer + StaleActions(role)).st;
    assert s.updates.deletes[0] in s.updates.deletes;
    HitIsLiveIff(peer + StaleActions(role));
  }

  lemma RunsFromStart()
    ensures Run([]) == Initial() && Initial().st.rev.inserts == []
  {
  }

  // ---------- The five processes ----------

  class SessionLookupController {
    // GetNewAvailableSessionId
    var ids: IdSource
    // CamLookupRspHandler
    var handler: Handler
    // streams to and from the CAM
    var lookups: Lookups
    var updates: Updates
    // CamUpdateReqSender
    var count: u16
    // SlookupReverseTableInterface
    var rev: RevTable
    // the CAM
    var cam: Cam
    ghost var ledger: Ledger
    ghost var inserted: nat
    ghost var deleted: nat

    ghost function View(): System
      reads this
    {
      System(State(ids, handler, lookups, updates, cam, rev, count), ledger, inserted, deleted)
    }

    constructor ()
      ensures View() == Initial()
    {
      ids := IdSource(0, [], []);
      handler := Handler(LupReq, Cache(NO_TUPLE, false, Rx, 0), Requests([], []), []);
      lookups, updates, count := Lookups([], []), Updates([], [], [], [], []), 0;
      rev := RevTable([], seq(MAX_SESSIONS, i => RevEntry(NO_TUPLE, 0)), seq(MAX_SESSIONS, i => false), [], []);
      cam := map[];
      ledger, inserted, deleted := Initial().ledger, 0, 0;
    }

    method GetNewAvailableSessionId()
      modifies `ids, `ledger
      ensures View() == IdStep(old(View()))
    {
      if ids.released != [] {
        var id := ids.released[0];
        ids := ids.(released := ids.released[1..], available := ids.available + [id]);
      } else if ids.minted < MAX_SESSIONS {
        ledger := ledger[ids.minted := Free];
        ids := ids.(minted := ids.minted + 1, available := ids.available + [ids.minted]);
      }
    }

    /** LUP_REQ */
    method HandleRequest()
      modifies `handler, `lookups
      ensures View() == RequestStep(old(View()))
    {
      if handler.phase == LupReq {
        var queues := handler.requests;
        if queues.tx != [] {
          var r := queues.tx[0];
          var cache := Cache(r.tuple, true, TxApp, r.role);
          handler := handler.(phase := LupRsp, cache := cache, requests := queues.(tx := queues.tx[1..]));
          lookups := lookups.(requests := lookups.requests + [LookupReq(r.tuple, TxApp)]);
        } else if queues.rx != [] {
          var r := queues.rx[0];
          var cache := Cache(Reversed(r.tuple), r.allowCreation, Rx, r.role);
          handler := handler.(phase := LupRsp, cache := cache, requests := queues.(rx := queues.rx[1..]));
          lookups := lookups.(requests := lookups.requests + [LookupReq(Reversed(r.tuple), Rx)]);
        }
      }
    }

    /** LUP_RSP */
    method HandleResponse()
      modifies `handler, `lookups, `ids, `updates, `ledger
      ensures View() == ResponseStep(old(View()))
    {
      if handler.phase == LupRsp && lookups.responses != [] {
        var r, cache := lookups.responses[0], handler.cache;
        lookups := lookups.(responses := lookups.responses[1..]);
        if !r.hit && cache.allowCreation && ids.available != [] {
          var id := ids.available[0];
          ids := ids.(available := ids.available[1..]);
          updates := updates.(inserts := updates.inserts + [Update(Insert, cache.tuple, id, r.source)]);
          handler := handler.(phase := UpdRsp);
          ledger := ledger[id := Flying(cache.tuple)];
        } else {
          var answer := Answer(r.id, r.hit, cache.role, r.source);
          handler := handler.(phase := LupReq, answers := handler.answers + [answer]);
        }
      }
    }

    /** UPD_RSP */
    method HandleInserted()
      modifies `handler, `updates, `rev, `ledger
      ensures View() == InsertedStep(old(View()))
    {
      if handler.phase == UpdRsp && updates.insertRsps != [] {
        var r, cache := updates.insertRsps[0], handler.cache;
        updates := updates.(insertRsps := updates.insertRsps[1..]);
        rev := rev.(inserts := rev.inserts + [RevInsert(r.id, cache.tuple, cache.role)]);
        handler := handler.(phase := LupReq, answers := handler.answers + [Answer(r.id, true, cache.role, r.source)]);
        ledger := ledger[r.id := Filed(cache.tuple)];
      }
    }

    method CamUpdateReqSender()
      modifies `updates, `ids, `count, `ledger, `inserted, `deleted
      ensures View() == SendStep(old(View()))
    {
      hide To16;
      if updates.inserts != [] {
        updates := updates.(inserts := updates.inserts[1..], toCam := updates.toCam + [updates.inserts[0]]);
        count := To16(count + 1);
        inserted := inserted + 1;
      } else if updates.deletes != [] {
        var d := updates.deletes[0];
        updates := updates.(deletes := updates.deletes[1..], toCam := updates.toCam + [d]);
        ids := ids.(released := ids.released + [d.id]);
        count := To16(count - 1);
        ledger, deleted := ledger[d.id := Free], deleted + 1;
      }
    }

    method CamUpdateRspHandler()
      modifies `updates
      ensures View() == UpdateRspStep(old(View()))
    {
      if updates.fromCam != [] {
        var r := updates.fromCam[0];
        updates := updates.(fromCam := updates.fromCam[1..]);
        if r.op == Insert {
          updates := updates.(insertRsps := updates.insertRsps + [r]);
        }
      }
    }

    method MockCamLookup()
      modifies `lookups
      ensures View() == CamLookupStep(old(View()))
    {
      if lookups.requests != [] {
        var r := lookups.requests[0];
        var rsp := LookupRsp(false, 0, r.source);
        if r.tuple in cam {
          rsp := LookupRsp(true, cam[r.tuple], r.source);
        }
        lookups := Lookups(lookups.requests[1..], lookups.responses + [rsp]);
      }
    }

    method MockCamUpdate()
      modifies `cam, `updates
      ensures View() == CamUpdateStep(old(View()))
    {
      if updates.toCam != [] {
        var q := updates.toCam[0];
        var success := false;
        if q.op == Insert {
          if q.tuple !in cam {
            cam := cam[q.tuple := q.id];
            success := true;
          }
        } else if q.tuple in cam {
          cam := cam - {q.tuple};
          success := true;
        }
        var rsp := UpdateRsp(q.op, q.tuple, q.id, q.source, success);
        updates := updates.(toCam := updates.toCam[1..], fromCam := updates.fromCam + [rsp]);
      }
    }

    method SlookupReverseTableInterface()
      modifies `rev, `updates, `ledger
      ensures View() == RevStep(old(View()))
    {
      hide SwapBytes;
      if rev.inserts != [] {
        var r := rev.inserts[0];
        rev := rev.(inserts := rev.inserts[1..],
                    entries := rev.entries[r.id := RevEntry(r.tuple, r.role)],
                    valid := rev.valid[r.id := true]);
        ledger := ledger[r.id := Valid(r.tuple)];
      } else if rev.releases != [] {
        var id := rev.releases[0];
        var tuple := rev.entries[id].tuple;
        if rev.valid[id] {
          rev := rev.(ports := rev.ports + [SwapBytes(tuple.srcPort)]);
          updates := updates.(deletes := updates.deletes + [Update(Delete, tuple, id, Rx)]);
          ledger := ledger[id := Leaving(tuple)];
        }
        rev := rev.(releases := rev.releases[1..], valid := rev.valid[id := false]);
      }
    }
  }
}
