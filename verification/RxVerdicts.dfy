/** Payloads and verdicts on the receive side.

    The parser sends headers one way and payloads the other. Three modules look at the headers in
    turn - checksum, port and session, state machine - and each writes a verdict for each
    payload it sees; the dropper pairs verdicts and payloads by order alone.

    A packet carries the answers that the checksum unit, the port table, the session table and
    the state machine will give for it; what holds for all packets holds for all answers.
 */
module RxVerdicts {
  import opened Words
  import StateTable
  import TcpStates

  datatype Word = Word(data: int, last: bool)

  /** `length` is the payload length in bytes, as the header's meta data has it; `decision` is the state
      machine's verdict: true to drop, None if it writes none. */
  datatype Packet = Packet(words: seq<Word>, length: u16, sound: bool, open: bool, hit: bool, decision: Option<bool>) {
    /** A payload is a run of words that ends with its only `last`; there is one if the length says so. */
    ghost predicate Framed() {
      (length != 0 <==> words != []) && forall i :: 0 <= i < |words| ==> (words[i].last <==> i == |words| - 1)
    }

    predicate Loaded() { length != 0 }
  }

  // ---------- State ----------

  datatype Phase = RdChecksum | RdMeta | RdFsm | Fwd | Drop

  /** Headers on their way, module by module. */
  datatype Headers = Headers(
    metaIn: seq<Packet>,             // to RxEngVerifyChecksumAndPort
    verifying: Option<Packet>,       // its register
    valid: seq<Packet>,              // to RxEngTcpMetaHandler
    lookingUp: Option<Packet>,       // its register
    fsmMeta: seq<Packet>)            // to RxEngTcpFsm

  datatype Verdicts = Verdicts(checksum: seq<bool>, session: seq<bool>, fsm: seq<bool>)

  datatype State = State(
    headers: Headers, verdicts: Verdicts,
    phase: Phase, payload: seq<Word>,      // the dropper and its payload stream
    out: seq<Word>, commands: seq<nat>)    // payload words to memory, and memory write commands

  /** The packets with payload whose payload has left the dropper's input, and the others. */
  datatype System = System(st: State, done: seq<Packet>, rest: seq<Packet>)

  // ---------- Steps ----------

  ghost function ArriveStep(y: System, p: Packet): System {
    var s := y.st;
    System(s.(headers := s.headers.(metaIn := s.headers.metaIn + [p]), payload := s.payload + p.words),
           y.done, if p.Loaded() then y.rest + [p] else y.rest)
  }

  /** READ_META_INFO, then READ_CHECKSUM. */
  ghost function VerifyStep(y: System): System {
    var h, v := y.st.headers, y.st.verdicts;
    if h.verifying.None? then
      if h.metaIn == [] then y
      else y.(st := y.st.(headers := h.(metaIn := h.metaIn[1..], verifying := Some(h.metaIn[0]))))
    else
      var p := h.verifying.value;
      y.(st := y.st.(headers := h.(verifying := None, valid := if p.sound then h.valid + [p] else h.valid),
                     verdicts := if p.Loaded() then v.(checksum := v.checksum + [!p.sound]) else v))
  }

  /** META, then LOOKUP for open ports. */
  ghost function MetaStep(y: System): System {
    var h, v := y.st.headers, y.st.verdicts;
    if h.lookingUp.None? then
      if h.valid == [] then y
      else if h.valid[0].open then
        y.(st := y.st.(headers := h.(valid := h.valid[1..], lookingUp := Some(h.valid[0]))))
      else
        y.(st := y.st.(headers := h.(valid := h.valid[1..]),
                       verdicts := if h.valid[0].Loaded() then v.(session := v.session + [true]) else v))
    else
      var p := h.lookingUp.value;
      y.(st := y.st.(headers := h.(lookingUp := None, fsmMeta := if p.hit then h.fsmMeta + [p] else h.fsmMeta),
                     verdicts := if p.Loaded() then v.(session := v.session + [!p.hit]) else v))
  }

  /** A verdict, and with a verdict to keep the payload a memory write command. */
  ghost function FsmStep(y: System): System {
    var h, v := y.st.headers, y.st.verdicts;
    if h.fsmMeta == [] then y
    else
      var p := h.fsmMeta[0];
      var s := y.st.(headers := h.(fsmMeta := h.fsmMeta[1..]));
      if p.Loaded() && p.decision.Some? then
        y.(st := s.(verdicts := v.(fsm := v.fsm + [p.decision.value]),
                    commands := if p.decision.value then s.commands else s.commands + [p.length]))
      else y.(st := s)
  }

  /** The dropper: three verdicts at most, then the payload word by word. */
  ghost function DropStep(y: System): System {
    var s, v := y.st, y.st.verdicts;
    match s.phase
    case RdChecksum =>
      if v.checksum == [] then y
      else y.(st := s.(verdicts := v.(checksum := v.checksum[1..]), phase := if v.checksum[0] then Drop else RdMeta))
    case RdMeta =>
      if v.session == [] then y
      else y.(st := s.(verdicts := v.(session := v.session[1..]), phase := if v.session[0] then Drop else RdFsm))
    case RdFsm =>
      if v.fsm == [] then y
      else y.(st := s.(verdicts := v.(fsm := v.fsm[1..]), phase := if v.fsm[0] then Drop else Fwd))
    case _ =>
      if s.payload == [] then y
      else
        var w := s.payload[0];
        var s' := s.(payload := s.payload[1..],
                     out := if s.phase == Fwd then s.out + [w] else s.out,
                     phase := if w.last then RdChecksum else s.phase);
        if w.last && y.rest != [] then System(s', y.done + [y.rest[0]], y.rest[1..]) else y.(st := s')
  }

  datatype Action = Arrive(packet: Packet) | Verify | Meta | Fsm | DropOrForward

  ghost function Next(y: System, a: Action): System {
    match a
    case Arrive(p) => ArriveStep(y, p)
    case Verify => VerifyStep(y)
    case Meta => MetaStep(y)
    case Fsm => FsmStep(y)
    case DropOrForward => DropStep(y)
  }

  ghost function Initial(): System {
    System(State(Headers([], None, [], None, []), Verdicts([], [], []), RdChecksum, [], [], []), [], [])
  }

  ghost function Run(actions: seq<Action>): System {
    if actions == [] then Initial()
    else Next(Run(actions[..|actions| - 1]), actions[|actions| - 1])
  }

  // ---------- What should come out ----------

  predicate Reaches(p: Packet) { p.sound && p.open && p.hit }

  predicate Accepted(p: Packet) { p.Loaded() && Reaches(p) && p.decision == Some(false) }

  /** Every payload that reaches the state machine gets a verdict there. */
  predicate Judged(p: Packet) { p.Loaded() && Reaches(p) ==> p.decision.Some? }

  /** The payload-bearing packets of a run, in order of arrival. */
  ghost function Loads(actions: seq<Action>): seq<Packet> {
    if actions == [] then []
    else
      var a := actions[|actions| - 1];
      Loads(actions[..|actions| - 1]) + (if a.Arrive? && a.packet.Loaded() then [a.packet] else [])
  }

  /** What `f` makes of each packet, end to end. */
  ghost function Collect<T>(f: Packet -> seq<T>, q: seq<Packet>): seq<T> {
    if q == [] then [] else f(q[0]) + Collect(f, q[1..])
  }

  lemma CollectNone<T>(f: Packet -> seq<T>)
    ensures Collect(f, []) == []
  {
  }

  lemma {:induction false} CollectAppend<T>(f: Packet -> seq<T>, a: seq<Packet>, b: seq<Packet>)
    ensures Collect(f, a + b) == Collect(f, a) + Collect(f, b)
  {
    hide Collect;
    if a == [] {
      CollectNone(f);
      assert a + b == b;
    } else {
      CollectAppend(f, a[1..], b);
      CollectHead(f, a);
      CollectHead(f, a + b);
      assert (a + b)[1..] == a[1..] + b;
    }
  }

  lemma CollectOne<T>(f: Packet -> seq<T>, p: Packet)
    ensures Collect(f, [p]) == f(p)
  {
    assert [p][1..] == [];
  }

  lemma CollectHead<T>(f: Packet -> seq<T>, q: seq<Packet>)
    requires q != []
    ensures Collect(f, q) == f(q[0]) + Collect(f, q[1..])
  {
  }

  ghost function WordsOf(p: Packet): seq<Word> { p.words }
  ghost function IfSound(p: Packet): seq<Packet> { if p.sound then [p] else [] }
  ghost function IfHit(p: Packet): seq<Packet> { if p.open && p.hit then [p] else [] }
  ghost function ChecksumVerdict(p: Packet): seq<bool> { if p.Loaded() then [!p.sound] else [] }
  ghost function SessionVerdict(p: Packet): seq<bool> { if p.Loaded() then [!(p.open && p.hit)] else [] }
  ghost function FsmVerdict(p: Packet): seq<bool> {
    if p.Loaded() && p.decision.Some? then [p.decision.value] else []
  }
  ghost function Command(p: Packet): seq<nat> {
    if p.Loaded() && p.decision == Some(false) then [p.length] else []
  }

  ghost function Sound(q: seq<Packet>): seq<Packet> { Collect(IfSound, q) }
  ghost function Hits(q: seq<Packet>): seq<Packet> { Collect(IfHit, q) }

  /** The payloads, end to end, of the packets that passed every check, and their lengths. */
  ghost function KeptWords(p: Packet): seq<Word> { if Accepted(p) then p.words else [] }
  ghost function KeptLength(p: Packet): seq<nat> { if Accepted(p) then [p.length] else [] }
  ghost function Kept(q: seq<Packet>): seq<Word> { Collect(KeptWords, q) }
  ghost function KeptLengths(q: seq<Packet>): seq<nat> { Collect(KeptLength, q) }

  // ---------- Verdicts to come ----------

  ghost function Listed(o: Option<Packet>): seq<Packet> {
    if o.Some? then [o.value] else []
  }

  /** The headers each module still has before it. */
  ghost function ToVerify(h: Headers): seq<Packet> { Listed(h.verifying) + h.metaIn }
  ghost function ToLookUp(h: Headers): seq<Packet> { Listed(h.lookingUp) + h.valid + Sound(ToVerify(h)) }
  ghost function ToJudge(h: Headers): seq<Packet> { h.fsmMeta + Hits(ToLookUp(h)) }

  /** Every verdict and command there is or will be, in the order they are written. */
  datatype Outcome = Outcome(checksum: seq<bool>, session: seq<bool>, fsm: seq<bool>, commands: seq<nat>)

  ghost function Promised(s: State): Outcome {
    Outcome(s.verdicts.checksum + Collect(ChecksumVerdict, ToVerify(s.headers)),
            s.verdicts.session + Collect(SessionVerdict, ToLookUp(s.headers)),
            s.verdicts.fsm + Collect(FsmVerdict, ToJudge(s.headers)),
            s.commands + Collect(Command, ToJudge(s.headers)))
  }

  /** The verdicts that belong to these packets. */
  ghost function ChecksumFor(q: seq<Packet>): seq<bool> { Collect(ChecksumVerdict, q) }
  ghost function SessionFor(q: seq<Packet>): seq<bool> { Collect(SessionVerdict, Sound(q)) }
  ghost function FsmFor(q: seq<Packet>): seq<bool> { Collect(FsmVerdict, Hits(Sound(q))) }
  ghost function CommandsFor(q: seq<Packet>): seq<nat> { Collect(Command, Hits(Sound(q))) }

  // ---------- The header modules keep every promise ----------

  lemma VerifyReads(y: System)
    requires y.st.headers.verifying.None? && y.st.headers.metaIn != []
    ensures Promised(VerifyStep(y).st) == Promised(y.st)
  {
    var h, h' := y.st.headers, VerifyStep(y).st.headers;
    assert ToVerify(h') == ToVerify(h);
    hide Collect, ToVerify;
  }

  /** The packet under verification is the first of those to verify. */
  lemma VerifyShortens(y: System)
    requires y.st.headers.verifying.Some?
    ensures var h, h', p := y.st.headers, VerifyStep(y).st.headers, y.st.headers.verifying.value;
            ToVerify(h) == [p] + ToVerify(h') && ToVerify(h)[0] == p && ToVerify(h)[1..] == ToVerify(h')
  {
    var h, h' := y.st.headers, VerifyStep(y).st.headers;
    assert ToVerify(h) == [h.verifying.value] + h.metaIn && ToVerify(h') == h.metaIn;
  }

  lemma VerifyPassesOn(y: System)
    requires y.st.headers.verifying.Some?
    ensures ToLookUp(VerifyStep(y).st.headers) == ToLookUp(y.st.headers)
    ensures ToJudge(VerifyStep(y).st.headers) == ToJudge(y.st.headers)
  {
    hide Sound, Hits, ToVerify;
    var h, h' := y.st.headers, VerifyStep(y).st.headers;
    VerifyShortens(y);
    SoundHead(ToVerify(h));
    assert ToLookUp(h') == ToLookUp(h);
    hide ToLookUp;
  }

  lemma VerifyWrites(y: System)
    requires y.st.headers.verifying.Some?
    ensures Promised(VerifyStep(y).st) == Promised(y.st)
  {
    hide Collect, ToVerify, ToLookUp, ToJudge;
    VerifyShortens(y);
    VerifyPassesOn(y);
    CollectHead(ChecksumVerdict, ToVerify(y.st.headers));
  }

  lemma MetaReads(y: System)
    requires y.st.headers.lookingUp.None? && y.st.headers.valid != [] && y.st.headers.valid[0].open
    ensures Promised(MetaStep(y).st) == Promised(y.st)
  {
    var h, h' := y.st.headers, MetaStep(y).st.headers;
    assert ToVerify(h') == ToVerify(h);
    hide Collect, ToVerify, Sound;
    assert h.valid == [h.valid[0]] + h.valid[1..];
    assert ToLookUp(h') == ToLookUp(h);
    hide ToLookUp;
  }

  /** The oldest packet to look up leaves with its session verdict. */
  lemma MetaWrites(y: System, p: Packet)
    requires ToLookUp(y.st.headers) == [p] + ToLookUp(MetaStep(y).st.headers)
    requires var h, h', v := y.st.headers, MetaStep(y).st.headers, y.st.verdicts;
             && h'.metaIn == h.metaIn && h'.verifying == h.verifying
             && h'.fsmMeta == h.fsmMeta + IfHit(p)
             && MetaStep(y).st == y.st.(headers := h', verdicts := v.(session := v.session + SessionVerdict(p)))
    ensures Promised(MetaStep(y).st) == Promised(y.st)
  {
    var h, h' := y.st.headers, MetaStep(y).st.headers;
    hide Collect, IfHit, SessionVerdict, MetaStep, ToLookUp;
    CollectHead(SessionVerdict, ToLookUp(h));
    CollectHead(IfHit, ToLookUp(h));
    assert ToLookUp(h)[1..] == ToLookUp(h');
    assert ToJudge(h') == ToJudge(h);
    hide ToJudge;
  }

  lemma MetaKeepsPromise(y: System)
    requires y.st.headers.lookingUp.Some? ==> y.st.headers.lookingUp.value.open
    ensures Promised(MetaStep(y).st) == Promised(y.st)
  {
    hide Promised;
    var h := y.st.headers;
    if h.lookingUp.None? {
      if h.valid != [] {
        assert h.valid == [h.valid[0]] + h.valid[1..];
        if h.valid[0].open {
          MetaReads(y);
        } else {
          MetaWrites(y, h.valid[0]);
        }
      }
    } else {
      assert ToLookUp(h) == [h.lookingUp.value] + ToLookUp(MetaStep(y).st.headers);
      MetaWrites(y, h.lookingUp.value);
    }
  }

  lemma VerifyKeepsPromise(y: System)
    ensures Promised(VerifyStep(y).st) == Promised(y.st)
  {
    hide Promised;
    if y.st.headers.verifying.Some? {
      VerifyWrites(y);
    } else if y.st.headers.metaIn != [] {
      VerifyReads(y);
    }
  }

  lemma FsmKeepsPromise(y: System)
    ensures Promised(FsmStep(y).st) == Promised(y.st)
  {
    hide Collect, ToLookUp, ToVerify, ToJudge;
    if y.st.headers.fsmMeta != [] {
      FsmShortens(y);
      CollectHead(FsmVerdict, ToJudge(y.st.headers));
      CollectHead(Command, ToJudge(y.st.headers));
    }
  }

  /** The oldest packet to judge leaves. */
  lemma FsmShortens(y: System)
    requires y.st.headers.fsmMeta != []
    ensures var h, h' := y.st.headers, FsmStep(y).st.headers;
            && ToVerify(h') == ToVerify(h) && ToLookUp(h') == ToLookUp(h)
            && ToJudge(h) != [] && ToJudge(h)[0] == h.fsmMeta[0] && ToJudge(h)[1..] == ToJudge(h')
  {
    hide Collect, Hits;
    var h := y.st.headers;
    assert h.fsmMeta == [h.fsmMeta[0]] + h.fsmMeta[1..];
  }

  // ---------- Arrival ----------

  lemma SoundAppend(q: seq<Packet>, p: Packet)
    ensures Sound(q + [p]) == Sound(q) + IfSound(p)
  {
    CollectAppend(IfSound, q, [p]);
    CollectOne(IfSound, p);
  }

  lemma HitsAppend(q: seq<Packet>, r: seq<Packet>)
    ensures Hits(q + r) == Hits(q) + Hits(r)
  {
    CollectAppend(IfHit, q, r);
  }

  lemma ArriveLengthens(h: Headers, p: Packet)
    ensures var h' := h.(metaIn := h.metaIn + [p]);
            && ToVerify(h') == ToVerify(h) + [p]
            && ToLookUp(h') == ToLookUp(h) + IfSound(p)
            && ToJudge(h') == ToJudge(h) + Hits(IfSound(p))
  {
    var h' := h.(metaIn := h.metaIn + [p]);
    assert ToVerify(h') == ToVerify(h) + [p];
    SoundAppend(ToVerify(h), p);
    hide Sound, ToVerify, IfSound;
    assert ToLookUp(h') == ToLookUp(h) + IfSound(p);
    HitsAppend(ToLookUp(h), IfSound(p));
    hide Hits, ToLookUp;
  }

  lemma ArrivePromises(y: System, p: Packet)
    ensures var a, b := Promised(y.st), Promised(ArriveStep(y, p).st);
            && b.checksum == a.checksum + ChecksumVerdict(p)
            && b.session == a.session + Collect(SessionVerdict, IfSound(p))
            && b.fsm == a.fsm + Collect(FsmVerdict, Hits(IfSound(p)))
            && b.commands == a.commands + Collect(Command, Hits(IfSound(p)))
  {
    var h := y.st.headers;
    hide Collect, Hits, IfSound, ToVerify, ToLookUp, ToJudge, ChecksumVerdict;
    ArriveLengthens(h, p);
    CollectAppend(ChecksumVerdict, ToVerify(h), [p]);
    CollectOne(ChecksumVerdict, p);
    CollectAppend(SessionVerdict, ToLookUp(h), IfSound(p));
    CollectAppend(FsmVerdict, ToJudge(h), Hits(IfSound(p)));
    CollectAppend(Command, ToJudge(h), Hits(IfSound(p)));
  }

  /** The verdicts for a longer list of packets. */
  lemma ForAppend(q: seq<Packet>, p: Packet)
    ensures ChecksumFor(q + [p]) == ChecksumFor(q) + ChecksumVerdict(p)
    ensures SessionFor(q + [p]) == SessionFor(q) + Collect(SessionVerdict, IfSound(p))
    ensures FsmFor(q + [p]) == FsmFor(q) + Collect(FsmVerdict, Hits(IfSound(p)))
    ensures CommandsFor(q + [p]) == CommandsFor(q) + Collect(Command, Hits(IfSound(p)))
  {
    SoundAppend(q, p);
    CollectAppend(ChecksumVerdict, q, [p]);
    CollectOne(ChecksumVerdict, p);
    CollectAppend(SessionVerdict, Sound(q), IfSound(p));
    HitsAppend(Sound(q), IfSound(p));
    CollectAppend(FsmVerdict, Hits(Sound(q)), Hits(IfSound(p)));
    CollectAppend(Command, Hits(Sound(q)), Hits(IfSound(p)));
    hide Collect, Sound, Hits, ChecksumVerdict, IfSound;
  }

  /** A packet without payload has no verdict and no command. */
  lemma NothingForEmpty(p: Packet)
    requires !p.Loaded()
    ensures ChecksumVerdict(p) == [] && Collect(SessionVerdict, IfSound(p)) == []
    ensures Collect(FsmVerdict, Hits(IfSound(p))) == [] && Collect(Command, Hits(IfSound(p))) == []
  {
    CollectOne(SessionVerdict, p);
    CollectOne(IfHit, p);
    CollectOne(FsmVerdict, p);
    CollectOne(Command, p);
    assert IfSound(p) == [] || IfSound(p) == [p];
    assert IfHit(p) == [] || IfHit(p) == [p];
  }

  /** The head of a list of packets, check by check. */
  lemma SoundHead(q: seq<Packet>)
    requires q != []
    ensures Sound(q) == if q[0].sound then [q[0]] + Sound(q[1..]) else Sound(q[1..])
  {
    CollectHead(IfSound, q);
    hide Collect;
  }

  lemma HitsHead(q: seq<Packet>)
    requires q != []
    ensures Hits(q) == if q[0].open && q[0].hit then [q[0]] + Hits(q[1..]) else Hits(q[1..])
  {
    CollectHead(IfHit, q);
    hide Collect;
  }

  /** The head of a list of packets, check by check. */
  lemma ChecksumHead(q: seq<Packet>)
    requires q != [] && q[0].Loaded()
    ensures ChecksumFor(q) == [!q[0].sound] + ChecksumFor(q[1..])
    ensures !q[0].sound ==> SessionFor(q) == SessionFor(q[1..]) && FsmFor(q) == FsmFor(q[1..])
  {
    CollectHead(ChecksumVerdict, q);
    SoundHead(q);
    hide Collect, Sound;
  }

  lemma SessionHead(q: seq<Packet>)
    requires q != [] && q[0].Loaded() && q[0].sound
    ensures SessionFor(q) == [!(q[0].open && q[0].hit)] + SessionFor(q[1..])
    ensures !(q[0].open && q[0].hit) ==> FsmFor(q) == FsmFor(q[1..])
  {
    SoundHead(q);
    hide Sound;
    CollectHead(SessionVerdict, Sound(q));
    HitsHead(Sound(q));
    hide Collect, Hits;
    assert Sound(q)[1..] == Sound(q[1..]);
  }

  lemma FsmHead(q: seq<Packet>)
    requires q != [] && q[0].Loaded() && Reaches(q[0])
    ensures FsmFor(q) == FsmVerdict(q[0]) + FsmFor(q[1..])
  {
    SoundHead(q);
    hide Sound;
    HitsHead(Sound(q));
    hide Hits;
    assert Sound(q)[1..] == Sound(q[1..]);
    CollectHead(FsmVerdict, Hits(Sound(q)));
    assert Hits(Sound(q))[1..] == Hits(Sound(q[1..]));
    hide Collect;
  }

  // ---------- The invariant ----------

  ghost predicate Fine(p: Packet) { p.Loaded() && p.Framed() && Judged(p) }

  /** The promised verdicts are those of the payloads not yet done with, less what the dropper has
      read for the first of them. */
  ghost predicate Aligned(y: System) {
    var s, v, q := y.st, Promised(y.st), y.rest;
    match s.phase
    case RdChecksum =>
      v.checksum == ChecksumFor(q) && v.session == SessionFor(q) && v.fsm == FsmFor(q) &&
      s.payload == Collect(WordsOf, q)
    case RdMeta =>
      q != [] && q[0].sound &&
      v.checksum == ChecksumFor(q[1..]) && v.session == SessionFor(q) && v.fsm == FsmFor(q) &&
      s.payload == Collect(WordsOf, q)
    case RdFsm =>
      q != [] && Reaches(q[0]) &&
      v.checksum == ChecksumFor(q[1..]) && v.session == SessionFor(q[1..]) && v.fsm == FsmFor(q) &&
      s.payload == Collect(WordsOf, q)
    case _ =>
      q != [] && (s.phase == Fwd <==> Accepted(q[0])) &&
      v.checksum == ChecksumFor(q[1..]) && v.session == SessionFor(q[1..]) && v.fsm == FsmFor(q[1..])
  }

  /** The first `k` words of the payload under way have left the payload stream. */
  ghost predicate Amid(y: System, k: nat)
    requires y.rest != [] && k < |y.rest[0].words|
  {
    && y.st.payload == y.rest[0].words[k..] + Collect(WordsOf, y.rest[1..])
    && y.st.out == Kept(y.done) + (if y.st.phase == Fwd then y.rest[0].words[..k] else [])
  }

  /** What has come out: the kept payloads done with, and the beginning of the one under way. */
  ghost predicate Emitted(y: System) {
    var s, q := y.st, y.rest;
    if s.phase == Fwd || s.phase == Drop then
      q != [] && (exists k :: 0 <= k < |q[0].words| && Amid(y, k))
    else s.out == Kept(y.done)
  }

  ghost predicate Inv(y: System) {
    && Aligned(y) && Emitted(y)
    && Promised(y.st).commands == CommandsFor(y.done + y.rest)
    && (forall i :: 0 <= i < |y.rest| ==> Fine(y.rest[i]))
    && (y.st.headers.lookingUp.Some? ==> y.st.headers.lookingUp.value.open)
  }

  // ---------- Every step keeps the invariant ----------

  lemma HeaderStepKeeps(y: System, z: System)
    requires Inv(y) && Promised(z.st) == Promised(y.st) && z.done == y.done && z.rest == y.rest
    requires z.st.phase == y.st.phase && z.st.payload == y.st.payload && z.st.out == y.st.out
    requires z.st.headers.lookingUp.Some? ==> z.st.headers.lookingUp.value.open
    ensures Inv(z)
  {
    hide Promised, Collect, ChecksumFor, SessionFor, FsmFor, CommandsFor, Kept;
    if y.st.phase == Fwd || y.st.phase == Drop {
      var k :| 0 <= k < |y.rest[0].words| && Amid(y, k);
      assert Amid(z, k);
    }
  }

  lemma ReadPromise(y: System, z: System)
    requires z.st.headers == y.st.headers && z.st.commands == y.st.commands
    ensures y.st.verdicts.checksum != [] &&
            z.st.verdicts == y.st.verdicts.(checksum := y.st.verdicts.checksum[1..]) ==>
              Promised(y.st) == Promised(z.st).(checksum := [y.st.verdicts.checksum[0]] + Promised(z.st).checksum)
    ensures y.st.verdicts.session != [] &&
            z.st.verdicts == y.st.verdicts.(session := y.st.verdicts.session[1..]) ==>
              Promised(y.st) == Promised(z.st).(session := [y.st.verdicts.session[0]] + Promised(z.st).session)
    ensures y.st.verdicts.fsm != [] &&
            z.st.verdicts == y.st.verdicts.(fsm := y.st.verdicts.fsm[1..]) ==>
              Promised(y.st) == Promised(z.st).(fsm := [y.st.verdicts.fsm[0]] + Promised(z.st).fsm)
    ensures z.st.verdicts == y.st.verdicts ==> Promised(y.st) == Promised(z.st)
  {
    hide Collect, ToVerify, ToLookUp, ToJudge;
  }

  lemma ForNone()
    ensures ChecksumFor([]) == [] && SessionFor([]) == [] && FsmFor([]) == []
  {
  }

  /** The dropper turns to the payload of the first packet not done with. */
  lemma TurnsToPayload(y: System, z: System)
    requires y.rest != [] && y.rest[0].words != []
    requires y.st.payload == Collect(WordsOf, y.rest) && y.st.out == Kept(y.done)
    requires z.rest == y.rest && z.done == y.done && z.st.payload == y.st.payload && z.st.out == y.st.out
    ensures Amid(z, 0)
  {
    CollectHead(WordsOf, y.rest);
    hide Collect, Kept;
    assert y.rest[0].words[0..] == y.rest[0].words;
  }

  lemma SameHead(a: bool, x: seq<bool>, b: bool, y: seq<bool>)
    requires [a] + x == [b] + y
    ensures a == b && x == y
  {
    assert ([a] + x)[0] == ([b] + y)[0];
    assert x == ([a] + x)[1..] == ([b] + y)[1..] == y;
  }

  lemma ChecksumStepKeeps(y: System)
    requires Inv(y) && y.st.phase == RdChecksum
    ensures Inv(DropStep(y))
  {
    hide Promised, Collect, ChecksumFor, SessionFor, FsmFor, CommandsFor, Kept;
    var z := DropStep(y);
    ReadPromise(y, z);
    if y.st.verdicts.checksum != [] {
      ForNone();
      assert y.rest != [];
      ChecksumHead(y.rest);
      SameHead(y.st.verdicts.checksum[0], Promised(z.st).checksum, !y.rest[0].sound, ChecksumFor(y.rest[1..]));
      if z.st.phase == Drop {
        TurnsToPayload(y, z);
      }
    }
  }

  lemma SessionStepKeeps(y: System)
    requires Inv(y) && y.st.phase == RdMeta
    ensures Inv(DropStep(y))
  {
    hide Promised, Collect, ChecksumFor, SessionFor, FsmFor, CommandsFor, Kept;
    var z := DropStep(y);
    ReadPromise(y, z);
    if y.st.verdicts.session != [] {
      SessionHead(y.rest);
      SameHead(y.st.verdicts.session[0], Promised(z.st).session, !(y.rest[0].open && y.rest[0].hit),
               SessionFor(y.rest[1..]));
      if z.st.phase == Drop {
        TurnsToPayload(y, z);
      }
    }
  }

  lemma FsmVerdictStepKeeps(y: System)
    requires Inv(y) && y.st.phase == RdFsm
    ensures Inv(DropStep(y))
  {
    hide Promised, Collect, ChecksumFor, SessionFor, FsmFor, CommandsFor, Kept;
    var z := DropStep(y);
    ReadPromise(y, z);
    if y.st.verdicts.fsm != [] {
      FsmHead(y.rest);
      SameHead(y.st.verdicts.fsm[0], Promised(z.st).fsm, y.rest[0].decision.value, FsmFor(y.rest[1..]));
      TurnsToPayload(y, z);
    }
  }

  lemma WordStepKeeps(y: System)
    requires Inv(y) && (y.st.phase == Fwd || y.st.phase == Drop)
    ensures Inv(DropStep(y))
  {
    hide Promised, Collect, ChecksumFor, SessionFor, FsmFor, CommandsFor, Kept;
    var z := DropStep(y);
    ReadPromise(y, z);
    var k :| 0 <= k < |y.rest[0].words| && Amid(y, k);
    var p := y.rest[0];
    WordLeaves(p.words, k, Collect(WordsOf, y.rest[1..]));
    if k == |p.words| - 1 {
      KeptSnoc(y.done, p);
      assert y.done + y.rest == z.done + z.rest;
    } else {
      assert Amid(z, k + 1);
    }
  }

  lemma WordLeaves(words: seq<Word>, k: nat, more: seq<Word>)
    requires k < |words|
    ensures var payload := words[k..] + more;
            && payload[0] == words[k] && payload[1..] == words[k + 1..] + more
            && words[..k] + [words[k]] == words[..k + 1]
    ensures k == |words| - 1 ==> words[k + 1..] + more == more && words[..k + 1] == words
  {
  }

  lemma KeptSnoc(q: seq<Packet>, p: Packet)
    ensures Kept(q + [p]) == Kept(q) + KeptWords(p)
  {
    CollectAppend(KeptWords, q, [p]);
    CollectOne(KeptWords, p);
  }

  lemma ArriveKeeps(y: System, p: Packet)
    requires Inv(y) && p.Framed() && Judged(p)
    ensures Inv(ArriveStep(y, p))
  {
    hide Promised, Collect, ChecksumFor, SessionFor, FsmFor, CommandsFor, Kept, ChecksumVerdict, IfSound, Hits;
    ArrivePromises(y, p);
    var z := ArriveStep(y, p);
    if p.Loaded() {
      ForAppend(y.rest, p);
      ForAppend(y.done + y.rest, p);
      assert (y.done + y.rest) + [p] == y.done + (y.rest + [p]);
      CollectAppend(WordsOf, y.rest, [p]);
      CollectOne(WordsOf, p);
      ArriveShifts(y, p);
    } else {
      NothingForEmpty(p);
      if y.st.phase == Fwd || y.st.phase == Drop {
        var k :| 0 <= k < |y.rest[0].words| && Amid(y, k);
        assert Amid(z, k);
      }
    }
  }

  /** The packet that arrives stands behind the one under way. */
  lemma ArriveShifts(y: System, p: Packet)
    requires Inv(y) && p.Framed() && Judged(p) && p.Loaded()
    ensures var z := ArriveStep(y, p);
            y.rest != [] ==>
              && z.rest[1..] == y.rest[1..] + [p]
              && ChecksumFor(z.rest[1..]) == ChecksumFor(y.rest[1..]) + ChecksumVerdict(p)
              && SessionFor(z.rest[1..]) == SessionFor(y.rest[1..]) + Collect(SessionVerdict, IfSound(p))
              && FsmFor(z.rest[1..]) == FsmFor(y.rest[1..]) + Collect(FsmVerdict, Hits(IfSound(p)))
    ensures Emitted(ArriveStep(y, p))
  {
    hide Promised, Collect, ChecksumFor, SessionFor, FsmFor, CommandsFor, Kept, ChecksumVerdict, IfSound, Hits;
    var z := ArriveStep(y, p);
    if y.rest != [] {
      assert z.rest[1..] == y.rest[1..] + [p];
      ForAppend(y.rest[1..], p);
      CollectAppend(WordsOf, y.rest[1..], [p]);
      CollectOne(WordsOf, p);
    }
    if y.st.phase == Fwd || y.st.phase == Drop {
      var k :| 0 <= k < |y.rest[0].words| && Amid(y, k);
      assert Amid(z, k);
    }
  }

  ghost predicate Proper(a: Action) {
    a.Arrive? ==> a.packet.Framed() && Judged(a.packet)
  }

  lemma LookUpsAreOpen(y: System)
    requires Inv(y)
    ensures y.st.headers.lookingUp.Some? ==> y.st.headers.lookingUp.value.open
  {
  }

  lemma VerifyKeeps(y: System)
    requires Inv(y)
    ensures Inv(VerifyStep(y))
  {
    hide Promised, Inv;
    LookUpsAreOpen(y);
    VerifyKeepsPromise(y);
    HeaderStepKeeps(y, VerifyStep(y));
  }

  lemma MetaKeeps(y: System)
    requires Inv(y)
    ensures Inv(MetaStep(y))
  {
    hide Promised, Inv;
    LookUpsAreOpen(y);
    MetaKeepsPromise(y);
    HeaderStepKeeps(y, MetaStep(y));
  }

  lemma FsmKeeps(y: System)
    requires Inv(y)
    ensures Inv(FsmStep(y))
  {
    hide Promised, Inv;
    LookUpsAreOpen(y);
    FsmKeepsPromise(y);
    HeaderStepKeeps(y, FsmStep(y));
  }

  lemma StepKeeps(y: System, a: Action)
    requires Inv(y) && Proper(a)
    ensures Inv(Next(y, a))
  {
    hide Inv, VerifyStep, MetaStep, FsmStep, ArriveStep, DropStep;
    match a
    case Arrive(p) => ArriveKeeps(y, p);
    case Verify => VerifyKeeps(y);
    case Meta => MetaKeeps(y);
    case Fsm => FsmKeeps(y);
    case DropOrForward =>
      if y.st.phase == RdChecksum {
        ChecksumStepKeeps(y);
      } else if y.st.phase == RdMeta {
        SessionStepKeeps(y);
      } else if y.st.phase == RdFsm {
        FsmVerdictStepKeeps(y);
      } else {
        WordStepKeeps(y);
      }
  }

  lemma InitialHolds()
    ensures Inv(Initial())
  {
  }

  lemma {:induction false} RunKeeps(actions: seq<Action>)
    requires forall a <- actions :: Proper(a)
    ensures Inv(Run(actions)) && Run(actions).done + Run(actions).rest == Loads(actions)
  {
    hide Inv, Next, Proper;
    if actions == [] {
      InitialHolds();
    } else {
      var y, a := Run(actions[..|actions| - 1]), actions[|actions| - 1];
      RunKeeps(actions[..|actions| - 1]);
      StepKeeps(y, a);
      LoadsFollow(y, a);
    }
  }

  lemma LoadsFollow(y: System, a: Action)
    ensures Next(y, a).done + Next(y, a).rest ==
            (y.done + y.rest) + (if a.Arrive? && a.packet.Loaded() then [a.packet] else [])
  {
    hide VerifyStep, MetaStep, FsmStep;
    HeaderStepsLeaveLoads(y);
    if a.DropOrForward? && y.rest != [] {
      assert y.done + y.rest == (y.done + [y.rest[0]]) + y.rest[1..];
    }
  }

  lemma HeaderStepsLeaveLoads(y: System)
    ensures VerifyStep(y).done == y.done && VerifyStep(y).rest == y.rest
    ensures MetaStep(y).done == y.done && MetaStep(y).rest == y.rest
    ensures FsmStep(y).done == y.done && FsmStep(y).rest == y.rest
  {
  }

  // ---------- What the invariant gives ----------

  /** In every run in which every payload that reaches the state machine gets a verdict there, the
      words on their way to memory are, in order, the payloads of the packets that passed the
      checksum, port, session and state machine checks - all of those done with, and a beginning
      of the one under way. */
  lemma PayloadsNeverSlip(actions: seq<Action>)
    requires forall a <- actions :: Proper(a)
    ensures var y := Run(actions);
            && y.done + y.rest == Loads(actions)
            && Kept(y.done) <= y.st.out <= Kept(Loads(actions))
            && (y.st.phase == RdChecksum ==> y.st.out == Kept(y.done))
  {
    RunKeeps(actions);
    hide Run;
    OutIsPrefix(Run(actions));
  }

  lemma OutIsPrefix(y: System)
    requires Inv(y)
    ensures Kept(y.done) <= y.st.out <= Kept(y.done + y.rest)
    ensures y.st.phase == RdChecksum ==> y.st.out == Kept(y.done)
  {
    hide Promised, Collect, ChecksumFor, SessionFor, FsmFor, CommandsFor;
    CollectAppend(KeptWords, y.done, y.rest);
    if y.st.phase == Fwd {
      var k :| 0 <= k < |y.rest[0].words| && Amid(y, k);
      CollectHead(KeptWords, y.rest);
      assert y.rest[0].words[..k] <= y.rest[0].words;
    }
  }

  /** Once all headers and payloads have gone through, everything kept has come out. */
  lemma AllPayloadsComeOut(actions: seq<Action>)
    requires forall a <- actions :: Proper(a)
    requires Run(actions).st.payload == [] && Run(actions).st.phase == RdChecksum
    ensures Run(actions).st.out == Kept(Loads(actions))
  {
    RunKeeps(actions);
    hide Run;
    var y := Run(actions);
    OutIsPrefix(y);
    hide Promised, ChecksumFor, SessionFor, FsmFor, CommandsFor, Kept;
    if y.rest != [] {
      CollectHead(WordsOf, y.rest);
      assert false;
    }
    assert y.done + y.rest == y.done;
  }

  /** Nothing sticks: in every run, while a header or a payload word waits anywhere, one of the four modules
      can step. */
  lemma SomethingMoves(actions: seq<Action>)
    requires forall a <- actions :: Proper(a)
    requires Run(actions).st.headers != IDLE || Run(actions).st.payload != []
    ensures var y := Run(actions); VerifyStep(y) != y || MetaStep(y) != y || FsmStep(y) != y || DropStep(y) != y
  {
    RunKeeps(actions);
    hide Run;
    var y := Run(actions);
    if y.st.headers == IDLE {
      VerdictWaits(y);
    } else {
      HeaderMoves(y);
    }
  }

  lemma HeaderMoves(y: System)
    requires y.st.headers != IDLE
    ensures VerifyStep(y) != y || MetaStep(y) != y || FsmStep(y) != y
  {
    var h := y.st.headers;
    if h.verifying.Some? {
      assert VerifyStep(y).st.headers.verifying.None?;
    } else if h.metaIn != [] {
      assert VerifyStep(y).st.headers.verifying.Some?;
    } else if h.lookingUp.Some? {
      assert MetaStep(y).st.headers.lookingUp.None?;
    } else if h.valid != [] {
      assert |MetaStep(y).st.headers.valid| < |h.valid|;
    } else {
      assert |FsmStep(y).st.headers.fsmMeta| < |h.fsmMeta|;
    }
  }

  /** With no header left the dropper has the verdict it waits for, or a word to take. */
  lemma VerdictWaits(y: System)
    requires Inv(y) && y.st.headers == IDLE && y.st.payload != []
    ensures DropStep(y) != y
  {
    var s := y.st;
    NothingPromised(s);
    RestWaits(y);
    var p := y.rest[0];
    VerdictsOf(y.rest);
    hide Collect, Promised, Kept, ChecksumFor, SessionFor, FsmFor;
    match s.phase
    case RdChecksum => assert DropStep(y).st.phase != RdChecksum;
    case RdMeta => assert DropStep(y).st.phase != RdMeta;
    case RdFsm => assert DropStep(y).st.phase != RdFsm;
    case _ => assert |DropStep(y).st.payload| < |s.payload|;
  }

  lemma NothingPromised(s: State)
    requires s.headers == IDLE
    ensures var v := Promised(s);
            v.checksum == s.verdicts.checksum && v.session == s.verdicts.session && v.fsm == s.verdicts.fsm
  {
  }

  lemma RestWaits(y: System)
    requires Inv(y) && y.st.payload != []
    ensures y.rest != [] && Fine(y.rest[0])
  {
    hide Promised, ChecksumFor, SessionFor, FsmFor, CommandsFor, Kept;
    CollectNone(WordsOf);
    hide Collect;
  }

  /** The first payload's verdicts are the first ones. */
  lemma VerdictsOf(q: seq<Packet>)
    requires q != [] && Fine(q[0])
    ensures ChecksumFor(q) != []
    ensures q[0].sound ==> SessionFor(q) != []
    ensures Reaches(q[0]) ==> FsmFor(q) != []
  {
    ChecksumHead(q);
    if q[0].sound { SessionHead(q); }
    if Reaches(q[0]) { FsmHead(q); }
    hide Collect;
  }

  /** The memory write commands are the lengths of the kept payloads, in the same order, never more than
      those, and all of them once every header has gone through. */
  lemma OneCommandPerPayload(actions: seq<Action>)
    requires forall a <- actions :: Proper(a)
    ensures Run(actions).st.commands <= KeptLengths(Loads(actions))
    ensures Run(actions).st.headers == IDLE ==> Run(actions).st.commands == KeptLengths(Loads(actions))
  {
    RunKeeps(actions);
    hide Run;
    NothingToJudge();
    hide Collect, ToJudge;
    CommandsAreLengths(Loads(actions));
  }

  lemma NothingToJudge()
    ensures Collect(Command, ToJudge(IDLE)) == []
  {
  }

  lemma {:induction false} CommandsAreLengths(q: seq<Packet>)
    ensures CommandsFor(q) == KeptLengths(q)
  {
    if q != [] {
      CommandsAreLengths(q[1..]);
      SoundHead(q);
      CollectHead(KeptLength, q);
      hide Sound;
      if q[0].sound {
        HitsHead(Sound(q));
        assert Sound(q)[1..] == Sound(q[1..]);
        hide Hits;
        if q[0].open && q[0].hit {
          CollectHead(Command, Hits(Sound(q)));
          assert Hits(Sound(q))[1..] == Hits(Sound(q[1..]));
          hide Collect;
        }
      }
    }
  }

  /** The state machine writes a verdict for a payload exactly when the segment is a FIN with ACK,
      or a plain ACK that is in the window or meets a state that takes no acknowledgements. */
  lemma VerdictIff(s: StateTable.SessionState, g: TcpStates.Segment)
    requires g.length != 0
    ensures TcpStates.Decide(s, g).dropped.Some? <==> Answerable(s, g)
  {
  }

  /** The packet's verdict is what the state machine decides for its segment in the state it meets. */
  ghost predicate Decided(p: Packet, s: StateTable.SessionState, g: TcpStates.Segment) {
    p.decision == TcpStates.Decide(s, g).dropped && g.length == p.length
  }

  /** A FIN with ACK, or a plain ACK that is in the window or meets a state that takes none. */
  predicate Answerable(s: StateTable.SessionState, g: TcpStates.Segment) {
    !g.rst && g.ack && !g.syn && (g.fin || g.inWindow || !TcpStates.TakesAcks(s))
  }

  /** The two composed: `met[i]` is the state and the segment of the packet that arrives at step i. If
      every payload that reaches the state machine is that of an answerable segment, the payloads
      that come out are, in order, those that pass the checks and that the state machine keeps. */
  lemma SegmentsNeverSlip(actions: seq<Action>, met: seq<(StateTable.SessionState, TcpStates.Segment)>)
    requires |met| == |actions|
    requires forall i :: 0 <= i < |actions| && actions[i].Arrive? ==>
               actions[i].packet.Framed() && Decided(actions[i].packet, met[i].0, met[i].1)
    requires forall i :: 0 <= i < |actions| && actions[i].Arrive? ==>
               (actions[i].packet.Loaded() && Reaches(actions[i].packet) ==> Answerable(met[i].0, met[i].1))
    ensures var y := Run(actions);
            && y.done + y.rest == Loads(actions)
            && Kept(y.done) <= y.st.out <= Kept(Loads(actions))
            && (y.st.phase == RdChecksum ==> y.st.out == Kept(y.done))
  {
    forall a | a in actions ensures Proper(a) {
      var i :| 0 <= i < |actions| && actions[i] == a;
      if a.Arrive? && a.packet.Loaded() { VerdictIff(met[i].0, met[i].1); }
    }
    PayloadsNeverSlip(actions);
  }

  lemma RunSnoc(actions: seq<Action>, a: Action)
    ensures Run(actions + [a]) == Next(Run(actions), a)
    ensures Loads(actions + [a]) == Loads(actions) + (if a.Arrive? && a.packet.Loaded() then [a.packet] else [])
  {
    assert (actions + [a])[..|actions|] == actions;
  }

  const IDLE := Headers([], None, [], None, [])

  /** A packet that reaches the state machine, taken all the way there. */
  lemma Through(actions: seq<Action>, p: Packet) returns (more: seq<Action>)
    requires p.Loaded() && Reaches(p) && Run(actions).st.headers == IDLE
    ensures Loads(more) == Loads(actions) + [p]
    ensures var s, z := Run(actions).st, Run(more).st;
            z == s.(verdicts := Verdicts(s.verdicts.checksum + [false], s.verdicts.session + [false],
                                         s.verdicts.fsm + FsmVerdict(p)),
                    payload := s.payload + p.words,
                    commands := s.commands + Command(p))
  {
    hide Run, Loads;
    RunSnoc(actions, Arrive(p));
    more := actions + [Arrive(p)];
    var y1 := Run(more);
    RunSnoc(more, Verify);
    more := more + [Verify];
    var y2 := Run(more);
    assert y2.st == y1.st.(headers := Headers([], Some(p), [], None, []));
    RunSnoc(more, Verify);
    more := more + [Verify];
    var y3 := Run(more);
    assert y3.st.headers == Headers([], None, [p], None, []);
    RunSnoc(more, Meta);
    more := more + [Meta];
    var y4 := Run(more);
    assert y4.st.headers == Headers([], None, [], Some(p), []);
    RunSnoc(more, Meta);
    more := more + [Meta];
    assert Run(more).st.headers == Headers([], None, [], None, [p]);
    RunSnoc(more, Fsm);
    more := more + [Fsm];
    assert Run(more).st.headers == IDLE;
  }

  /** Everything that has arrived has gone through. */
  ghost predicate Settled(s: State) {
    s.headers == IDLE && s.verdicts == Verdicts([], [], []) && s.phase == RdChecksum && s.payload == []
  }

  /** The dropper reads its three verdicts. */
  lemma VerdictsRead(actions: seq<Action>, v: bool) returns (more: seq<Action>)
    requires var s := Run(actions).st;
             && s.phase == RdChecksum && s.verdicts.fsm == [v]
             && s.verdicts.checksum == [false, false] && s.verdicts.session == [false, false]
    ensures Loads(more) == Loads(actions)
    ensures Run(more).st ==
            Run(actions).st.(verdicts := Verdicts([false], [false], []), phase := if v then Drop else Fwd)
  {
    hide Run, Loads;
    RunSnoc(actions, DropOrForward);
    more := actions + [DropOrForward];
    assert Run(more).st.phase == RdMeta;
    RunSnoc(more, DropOrForward);
    more := more + [DropOrForward];
    assert Run(more).st.phase == RdFsm;
    RunSnoc(more, DropOrForward);
    more := more + [DropOrForward];
  }

  /** The dropper passes or drops one payload to its end. */
  lemma {:induction false} PayloadTaken(actions: seq<Action>, ws: seq<Word>, rest: seq<Word>)
    returns (more: seq<Action>)
    requires ws != [] && forall i :: 0 <= i < |ws| ==> (ws[i].last <==> i == |ws| - 1)
    requires var s := Run(actions).st; (s.phase == Fwd || s.phase == Drop) && s.payload == ws + rest
    ensures Loads(more) == Loads(actions)
    ensures var s := Run(actions).st;
            Run(more).st == s.(payload := rest, phase := RdChecksum, out := s.out + if s.phase == Fwd then ws else [])
    decreases |ws|
  {
    hide Run, Loads;
    var s := Run(actions).st;
    RunSnoc(actions, DropOrForward);
    more := actions + [DropOrForward];
    assert (ws + rest)[0] == ws[0] && (ws + rest)[1..] == ws[1..] + rest;
    if |ws| == 1 {
      assert ws == [ws[0]] && ws[1..] + rest == rest;
    } else {
      var t := Run(more).st;
      assert t == s.(payload := ws[1..] + rest, out := if s.phase == Fwd then s.out + [ws[0]] else s.out);
      more := PayloadTaken(more, ws[1..], rest);
      assert [ws[0]] + ws[1..] == ws;
      assert s.out + [ws[0]] + ws[1..] == s.out + ([ws[0]] + ws[1..]);
    }
  }

  /** Wherever a run has settled: if the payload of a stray segment that passes the other checks gets
      no verdict from the state machine, the verdict for the next good segment is taken for it. If
      that says keep, the stray payload goes to memory where the good one's should, under the good
      one's write command; and the good payload is left for the verdict after that. */
  lemma MissingVerdictSlips(actions: seq<Action>, stray: Packet, good: Packet) returns (more: seq<Action>)
    requires Settled(Run(actions).st)
    requires stray.Loaded() && stray.Framed() && Reaches(stray) && stray.decision.None?
    requires good.Loaded() && good.Framed() && Reaches(good) && good.decision.Some?
    ensures Loads(more) == Loads(actions) + [stray, good]
    ensures var s, z, keep := Run(actions).st, Run(more).st, !good.decision.value;
            && z.out == s.out + (if keep then stray.words else [])
            && Kept(Loads(more)) == Kept(Loads(actions)) + (if keep then good.words else [])
            && z.commands == s.commands + (if keep then [good.length] else [])
            && z.phase == RdChecksum && z.payload == good.words && z.verdicts == Verdicts([false], [false], [])
  {
    KeptStrayGood(Loads(actions), stray, good);
    hide Run, Loads, Kept;
    var both := BothThrough(actions, stray, good);
    var read := VerdictsRead(both, good.decision.value);
    more := PayloadTaken(read, stray.words, good.words);
  }

  lemma BothThrough(actions: seq<Action>, stray: Packet, good: Packet) returns (more: seq<Action>)
    requires Settled(Run(actions).st)
    requires stray.Loaded() && Reaches(stray) && stray.decision.None?
    requires good.Loaded() && Reaches(good) && good.decision.Some?
    ensures Loads(more) == Loads(actions) + [stray, good]
    ensures var s, keep := Run(actions).st, !good.decision.value;
            Run(more).st ==
            s.(verdicts := Verdicts([false, false], [false, false], [!keep]),
               payload := stray.words + good.words,
               commands := s.commands + (if keep then [good.length] else []))
  {
    hide Run, Loads;
    var s := Run(actions).st;
    var one := Through(actions, stray);
    assert Run(one).st == s.(verdicts := Verdicts([false], [false], []), payload := stray.words);
    more := Through(one, good);
    assert Loads(actions) + [stray] + [good] == Loads(actions) + [stray, good];
  }

  lemma KeptStrayGood(q: seq<Packet>, stray: Packet, good: Packet)
    requires stray.decision.None? && good.Loaded() && Reaches(good) && good.decision.Some?
    ensures Kept(q + [stray, good]) == Kept(q) + (if good.decision.value then [] else good.words)
  {
    CollectAppend(KeptWords, q, [stray, good]);
    assert [stray, good][1..] == [good];
    CollectHead(KeptWords, [stray, good]);
    CollectOne(KeptWords, good);
    hide Collect;
  }

  // ---------- The modules ----------

  class RxVerdictPath {
    var headers: Headers
    var verdicts: Verdicts
    var phase: Phase
    var payload: seq<Word>
    var out: seq<Word>
    var commands: seq<nat>
    ghost var done: seq<Packet>
    ghost var rest: seq<Packet>

    ghost function View(): System
      reads this
    {
      System(State(headers, verdicts, phase, payload, out, commands), done, rest)
    }

    constructor ()
      ensures View() == Initial()
    {
      headers, verdicts := Headers([], None, [], None, []), Verdicts([], [], []);
      phase, payload, out, commands := RdChecksum, [], [], [];
      done, rest := [], [];
    }

    /** The parser delivers a header and a payload. */
    method Deliver(p: Packet)
      modifies `headers, `payload, `rest
      ensures View() == ArriveStep(old(View()), p)
    {
      headers := headers.(metaIn := headers.metaIn + [p]);
      payload := payload + p.words;
      if p.Loaded() {
        rest := rest + [p];
      }
    }

    method RxEngVerifyChecksumAndPort()
      modifies `headers, `verdicts
      ensures View() == VerifyStep(old(View()))
    {
      match headers.verifying
      case None =>
        if headers.metaIn != [] {
          headers := headers.(verifying := Some(headers.metaIn[0]), metaIn := headers.metaIn[1..]);
        }
      case Some(p) =>
        if p.sound {
          headers := headers.(valid := headers.valid + [p]);
        }
        if p.length != 0 {
          verdicts := verdicts.(checksum := verdicts.checksum + [!p.sound]);
        }
        headers := headers.(verifying := None);
    }

    method RxEngTcpMetaHandler()
      modifies `headers, `verdicts
      ensures View() == MetaStep(old(View()))
    {
      match headers.lookingUp
      case None =>
        if headers.valid != [] {
          var p := headers.valid[0];
          headers := headers.(valid := headers.valid[1..]);
          if p.open {
            headers := headers.(lookingUp := Some(p));
          } else if p.length != 0 {
            verdicts := verdicts.(session := verdicts.session + [true]);
          }
        }
      case Some(p) =>
        if p.hit {
          headers := headers.(fsmMeta := headers.fsmMeta + [p]);
        }
        if p.length != 0 {
          verdicts := verdicts.(session := verdicts.session + [!p.hit]);
        }
        headers := headers.(lookingUp := None);
    }

    /** The state machine, as far as payloads are concerned. */
    method RxEngTcpFsm()
      modifies `headers, `verdicts, `commands
      ensures View() == FsmStep(old(View()))
    {
      if headers.fsmMeta != [] {
        var p := headers.fsmMeta[0];
        headers := headers.(fsmMeta := headers.fsmMeta[1..]);
        if p.length != 0 && p.decision.Some? {
          if !p.decision.value {
            commands := commands + [p.length];
          }
          verdicts := verdicts.(fsm := verdicts.fsm + [p.decision.value]);
        }
      }
    }

    method RxEngTcpPayloadDropper()
      modifies `phase, `verdicts, `payload, `out, `done, `rest
      ensures View() == DropStep(old(View()))
    {
      match phase
      case RdChecksum =>
        if verdicts.checksum != [] {
          phase := if verdicts.checksum[0] then Drop else RdMeta;
          verdicts := verdicts.(checksum := verdicts.checksum[1..]);
        }
      case RdMeta =>
        if verdicts.session != [] {
          phase := if verdicts.session[0] then Drop else RdFsm;
          verdicts := verdicts.(session := verdicts.session[1..]);
        }
      case RdFsm =>
        if verdicts.fsm != [] {
          phase := if verdicts.fsm[0] then Drop else Fwd;
          verdicts := verdicts.(fsm := verdicts.fsm[1..]);
        }
      case _ =>
        if payload != [] {
          var word := payload[0];
          var forwarded := if phase == Fwd then [word] else [];
          payload, out := payload[1..], out + forwarded;
          if word.last {
            phase := RdChecksum;
            if rest != [] {
              done, rest := done + [rest[0]], rest[1..];
            }
          }
        }
    }
  }
}
