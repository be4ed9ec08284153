/** One segment, decided once: the RX engine's verdict for the payload dropper and the move of its
    receive window come from the same switch. Here the two models of that switch - the state machine
    with its verdicts, and the receive window with its stream - are put side by side over whole runs,
    and behind them the dropper, which sees neither.
 */
module RxDecision {
  import opened Words
  import opened StateTable
  import opened TcpStates
  import RingMemory
  import RxWindow
  import RxVerdicts

  /** The state a segment met, and the segment as the state machine saw it. */
  datatype Met = Met(state: SessionState, segment: Segment)

  ghost predicate Decides(y: RxWindow.System, a: RxWindow.Action) {
    a.Decide? && y.st.engine.segment.Some? && y.st.engine.answers != []
  }

  /** The state machine sees the window's waiting segment: a plain ACK with the same payload length, whose
      outcome is that of the state and of the acknowledgement test, and whose comparisons are with the
      true receive position and the true free space, as of the read pointer the engine was given. */
  ghost predicate Sees(y: RxWindow.System, m: Met)
    requires y.st.engine.segment.Some? && y.st.engine.answers != []
  {
    var d, g, s := y.st.engine.segment.value, m.segment, m.state;
    && g.ack && !g.syn && !g.fin && !g.rst && g.length == |d.payload|
    && (d.outcome == RxWindow.WrongState <==>
          s == CLOSED || s == SYN_SENT || s == FIN_WAIT_2 || s == TIME_WAIT)
    && (d.outcome == RxWindow.InWindow ==> g.inWindow) && (d.outcome == RxWindow.OutOfWindow ==> !g.inWindow)
    && (g.inOrder <==> d.seqNumber == To32(y.pos.accepted))
    && (g.fits <==> |d.payload| < BUFFER_SIZE - 1 - (y.pos.accepted - y.st.engine.answers[0].readPos))
  }

  ghost predicate SeesAll(y: RxWindow.System, actions: seq<RxWindow.Action>, met: seq<Met>) {
    |met| == |actions| &&
    forall i :: 0 <= i < |actions| && Decides(RxWindow.Run(y, actions[..i]), actions[i]) ==>
      Sees(RxWindow.Run(y, actions[..i]), met[i])
  }

  /** A payload and the verdict it was given. */
  datatype Judgement = Judgement(payload: seq<byte>, verdict: Option<bool>)

  /** The payloads of a run, in the order in which the state machine met them, with its verdicts. */
  ghost function Judgements(y: RxWindow.System, actions: seq<RxWindow.Action>, met: seq<Met>): seq<Judgement>
    requires |met| == |actions|
  {
    if actions == [] then []
    else
      var n := |actions| - 1;
      var z := RxWindow.Run(y, actions[..n]);
      Judgements(y, actions[..n], met[..n]) +
      if Decides(z, actions[n]) then
        [Judgement(z.st.engine.segment.value.payload, Decide(met[n].state, met[n].segment).dropped)]
      else []
  }

  /** The bytes of the payloads that are to be kept, and all verdicts. */
  ghost function KeptBytes(q: seq<Judgement>): seq<byte> {
    if q == [] then []
    else KeptBytes(q[..|q| - 1]) + if q[|q| - 1].verdict == Some(false) then q[|q| - 1].payload else []
  }

  ghost function Given(q: seq<Judgement>): seq<bool> {
    if q == [] then []
    else Given(q[..|q| - 1]) + if q[|q| - 1].verdict.Some? then [q[|q| - 1].verdict.value] else []
  }

  /** The state machine keeps a payload exactly when the window takes it in, and drops it exactly when the
      window has it dropped; without a verdict neither happens. */
  lemma VerdictIsWindows(y: RxWindow.System, m: Met)
    requires RxWindow.Inv(y) && Decides(y, RxWindow.Decide) && Sees(y, m)
    ensures var z, d, v := RxWindow.DecideStep(y), y.st.engine.segment.value, Decide(m.state, m.segment).dropped;
            && (v == Some(false) <==> z.pos.accepted == y.pos.accepted + |d.payload| && d.payload != [])
            && z.pos.stream == y.pos.stream + (if v == Some(false) then d.payload else [])
            && z.st.drops == y.st.drops + (if v.Some? then [v.value] else [])
  {
    var d, a := y.st.engine.segment.value, y.st.engine.answers[0];
    RxWindow.FreeSpaceIsExact(a.recvdPos, a.readPos);
    hide To16, To18, To32, RxWindow.FreeSpace, RxWindow.WritePath, RxWindow.Submit, RxWindow.AppStream,
         RxWindow.MemoryHolds, RxWindow.DeliveredHolds;
  }

  lemma OthersJudgeNothing(y: RxWindow.System, a: RxWindow.Action)
    requires !Decides(y, a)
    ensures RxWindow.Next(y, a).pos.stream == y.pos.stream && RxWindow.Next(y, a).st.drops == y.st.drops
  {
    hide RingMemory.Store, RxWindow.Submit, RxWindow.WindowField, RxWindow.FreeSpace;
  }

  lemma JudgementsSnoc(q: seq<Judgement>, j: Judgement)
    ensures KeptBytes(q + [j]) == KeptBytes(q) + (if j.verdict == Some(false) then j.payload else [])
    ensures Given(q + [j]) == Given(q) + (if j.verdict.Some? then [j.verdict.value] else [])
  {
    assert (q + [j])[..|q|] == q;
  }

  /** In every run the accepted stream is, byte for byte, the payloads the state machine decides to keep
      in the states it meets, and the dropper is given the state machine's verdicts, in order. */
  lemma {:induction false} StreamIsKeptPayloads(
      irs: u32, winShift: RxWindow.Shift, actions: seq<RxWindow.Action>, met: seq<Met>)
    requires forall a <- actions :: RxWindow.Short(a)
    requires SeesAll(RxWindow.Initial(irs, winShift), actions, met)
    ensures var y, q := RxWindow.Run(RxWindow.Initial(irs, winShift), actions),
                        Judgements(RxWindow.Initial(irs, winShift), actions, met);
            y.pos.stream == KeptBytes(q) && y.st.drops == Given(q)
  {
    hide RxWindow.Inv, RxWindow.Next, Sees, Decide, RxWindow.DecideStep, RxWindow.Short;
    var y0 := RxWindow.Initial(irs, winShift);
    if actions == [] {
      assert Judgements(y0, actions, met) == [];
    } else {
      hide RxWindow.Initial, KeptBytes, Given;
      var n := |actions| - 1;
      var y, a, q := RxWindow.Run(y0, actions[..n]), actions[n], Judgements(y0, actions[..n], met[..n]);
      SeesEarlier(y0, actions, met);
      StreamIsKeptPayloads(irs, winShift, actions[..n], met[..n]);
      RxWindow.RunKeeps(irs, winShift, actions[..n]);
      if Decides(y, a) {
        VerdictIsWindows(y, met[n]);
        RxWindow.NextIsDecide(y);
        JudgementsSnoc(q, Judgement(y.st.engine.segment.value.payload, Decide(met[n].state, met[n].segment).dropped));
      } else {
        OthersJudgeNothing(y, a);
        assert q + [] == q;
      }
    }
  }

  lemma SeesEarlier(y: RxWindow.System, actions: seq<RxWindow.Action>, met: seq<Met>)
    requires actions != [] && SeesAll(y, actions, met)
    ensures SeesAll(y, actions[..|actions| - 1], met[..|actions| - 1])
    ensures var n := |actions| - 1;
            Decides(RxWindow.Run(y, actions[..n]), actions[n]) ==> Sees(RxWindow.Run(y, actions[..n]), met[n])
  {
    hide RxWindow.Run, Sees;
    var n := |actions| - 1;
    forall i | 0 <= i < n && Decides(RxWindow.Run(y, actions[..n][..i]), actions[..n][i])
      ensures Sees(RxWindow.Run(y, actions[..n][..i]), met[..n][i])
    {
      assert actions[..n][..i] == actions[..i];
    }
  }

  // ---------- The dropper forwards the accepted stream ----------

  /** The bytes of a run of words, each word holding what `bytes` says. */
  ghost function BytesOf(bytes: RxVerdicts.Word -> seq<byte>, words: seq<RxVerdicts.Word>): seq<byte> {
    if words == [] then [] else bytes(words[0]) + BytesOf(bytes, words[1..])
  }

  lemma {:induction false} BytesAppend(
      bytes: RxVerdicts.Word -> seq<byte>, a: seq<RxVerdicts.Word>, b: seq<RxVerdicts.Word>)
    ensures BytesOf(bytes, a + b) == BytesOf(bytes, a) + BytesOf(bytes, b)
  {
    if a == [] {
      assert a + b == b;
    } else {
      BytesAppend(bytes, a[1..], b);
      assert (a + b)[1..] == a[1..] + b;
    }
  }

  /** The payloads that reach the state machine, by the checks before it. */
  ghost function Reaching(q: seq<RxVerdicts.Packet>): seq<RxVerdicts.Packet> {
    if q == [] then []
    else Reaching(q[..|q| - 1]) + if RxVerdicts.Reaches(q[|q| - 1]) then [q[|q| - 1]] else []
  }

  ghost function Loaded(q: seq<Judgement>): seq<Judgement> {
    if q == [] then []
    else Loaded(q[..|q| - 1]) + if q[|q| - 1].payload != [] then [q[|q| - 1]] else []
  }

  /** The packets carry the judged payloads, cut into words, and the verdicts given for them. */
  ghost predicate Carry(bytes: RxVerdicts.Word -> seq<byte>, packets: seq<RxVerdicts.Packet>, q: seq<Judgement>) {
    |packets| == |q| &&
    forall i :: 0 <= i < |q| ==>
      packets[i].Loaded() && packets[i].decision == q[i].verdict && BytesOf(bytes, packets[i].words) == q[i].payload
  }

  lemma {:induction false} LoadedKeptBytes(q: seq<Judgement>)
    ensures KeptBytes(Loaded(q)) == KeptBytes(q)
  {
    if q != [] {
      var n := |q| - 1;
      LoadedKeptBytes(q[..n]);
      JudgementsSnoc(Loaded(q[..n]), q[n]);
      assert Loaded(q) == if q[n].payload != [] then Loaded(q[..n]) + [q[n]] else Loaded(q[..n]);
      assert q == q[..n] + [q[n]];
      JudgementsSnoc(q[..n], q[n]);
      hide Loaded;
    }
  }

  lemma {:induction false} KeptReaching(q: seq<RxVerdicts.Packet>)
    ensures RxVerdicts.Kept(Reaching(q)) == RxVerdicts.Kept(q)
  {
    hide RxVerdicts.Collect;
    if q != [] {
      var n := |q| - 1;
      KeptReaching(q[..n]);
      assert q == q[..n] + [q[n]];
      RxVerdicts.KeptSnoc(q[..n], q[n]);
      assert Reaching(q) == if RxVerdicts.Reaches(q[n]) then Reaching(q[..n]) + [q[n]] else Reaching(q[..n]);
      hide Reaching;
      if RxVerdicts.Reaches(q[n]) {
        RxVerdicts.KeptSnoc(Reaching(q[..n]), q[n]);
      }
    }
  }

  lemma {:induction false} KeptWordsAreBytes(
      bytes: RxVerdicts.Word -> seq<byte>, packets: seq<RxVerdicts.Packet>, q: seq<Judgement>)
    requires Carry(bytes, packets, q) && forall p <- packets :: RxVerdicts.Reaches(p)
    ensures BytesOf(bytes, RxVerdicts.Kept(packets)) == KeptBytes(q)
  {
    hide RxVerdicts.Collect, BytesOf;
    if q == [] {
      RxVerdicts.CollectNone(RxVerdicts.KeptWords);
      NoBytes(bytes);
    } else {
      var n := |q| - 1;
      KeptWordsAreBytes(bytes, packets[..n], q[..n]);
      assert packets == packets[..n] + [packets[n]] && q == q[..n] + [q[n]];
      RxVerdicts.KeptSnoc(packets[..n], packets[n]);
      JudgementsSnoc(q[..n], q[n]);
      BytesAppend(bytes, RxVerdicts.Kept(packets[..n]), RxVerdicts.KeptWords(packets[n]));
      NoBytes(bytes);
    }
  }

  lemma NoBytes(bytes: RxVerdicts.Word -> seq<byte>)
    ensures BytesOf(bytes, []) == []
  {
  }

  lemma {:induction false} ReachingReach(q: seq<RxVerdicts.Packet>)
    ensures forall p <- Reaching(q) :: RxVerdicts.Reaches(p)
  {
    if q != [] { ReachingReach(q[..|q| - 1]); }
  }

  /** What the dropper sends on to memory are the bytes of the receive window's accepted stream, in order
      and never more than those, and all of them once the payloads have gone through - whatever the
      dropper's own scheduling, and whatever other payloads were dropped before the state machine. */
  lemma DropperForwardsAcceptedStream(
      irs: u32, winShift: RxWindow.Shift, actions: seq<RxWindow.Action>, met: seq<Met>,
      steps: seq<RxVerdicts.Action>, bytes: RxVerdicts.Word -> seq<byte>)
    requires forall a <- actions :: RxWindow.Short(a)
    requires SeesAll(RxWindow.Initial(irs, winShift), actions, met)
    requires forall a <- steps :: RxVerdicts.Proper(a)
    requires Carry(bytes, Reaching(RxVerdicts.Loads(steps)),
                   Loaded(Judgements(RxWindow.Initial(irs, winShift), actions, met)))
    ensures var s, z := RxVerdicts.Run(steps).st, RxWindow.Run(RxWindow.Initial(irs, winShift), actions);
            && BytesOf(bytes, s.out) <= z.pos.stream
            && (s.payload == [] && s.phase == RxVerdicts.RdChecksum ==> BytesOf(bytes, s.out) == z.pos.stream)
  {
    hide RxVerdicts.Run, RxWindow.Run, RxWindow.Initial, Judgements, RxVerdicts.Loads, RxVerdicts.Proper, Sees,
         RxWindow.Short, RxVerdicts.Kept, Carry, BytesOf, KeptBytes, Given, Reaching, Loaded;
    var q, loads := Judgements(RxWindow.Initial(irs, winShift), actions, met), RxVerdicts.Loads(steps);
    StreamIsKeptPayloads(irs, winShift, actions, met);
    LoadedKeptBytes(q);
    ReachingReach(loads);
    KeptWordsAreBytes(bytes, Reaching(loads), Loaded(q));
    KeptReaching(loads);
    RxVerdicts.PayloadsNeverSlip(steps);
    var out, kept := RxVerdicts.Run(steps).st.out, RxVerdicts.Kept(loads);
    assert kept == out + kept[|out|..];
    BytesAppend(bytes, out, kept[|out|..]);
    if RxVerdicts.Run(steps).st.payload == [] && RxVerdicts.Run(steps).st.phase == RxVerdicts.RdChecksum {
      RxVerdicts.AllPayloadsComeOut(steps);
    }
  }
}
