/** Every move of a link keeps the stream: what was delivered and what is on its way is what was written,
    but for bytes dropped on record. */
module LinkData {
  import opened Bytes
  import opened Link
  import opened LinkInvariant
  import opened LinkSteps
  import opened LinkPhases
  import opened LinkSplices
  import opened LinkBytes
  import Slicer
  import opened Wrappers

  /** The hands on a stub are those of its goroutine or of the controller, never both. */
  lemma OnePairOfHands(s: State, i: nat)
    requires Phase(s) && i < |s.stubs|
    ensures !s.stubs[i].pc.Idle? ==> Hand(s, i) == []
    ensures Hand(s, i) != [] ==> Inflight(s.stubs[i].pc) == []
  {
  }

  // ----- stubs -----

  lemma StubSends(s: State, s': State, i: nat)
    requires Wiring(s) && CanSend(s, FromStub(i)) && Wired(s, i) && Hand(s, i) == []
    requires !s.chans[s.stubs[i].output].closed && s' == Send(s, FromStub(i))
    ensures Live(s') == Live(s) && Parts(s') == Parts(s)
  {
    var b := s.stubs[i];
    SentNear(s, s', i);
    ShipParts(s, s', i, b.pc.d, Rest(b.pc.after));
  }

  lemma SentNear(s: State, s': State, i: nat)
    requires CanSend(s, FromStub(i)) && Wired(s, i) && Hand(s, i) == []
    requires !s.chans[s.stubs[i].output].closed && s' == Send(s, FromStub(i))
    ensures var b := s.stubs[i];
      && Near(s, s', i, b.output)
      && Load(s, i) == b.pc.d + Rest(b.pc.after) && Load(s', i) == Rest(b.pc.after)
      && s'.chans[b.output].buf == s.chans[b.output].buf + [b.pc.d]
  {
    hide Flatten;
    SendLoad(s.stubs[i]);
  }

  lemma GaveUpNear(s: State, s': State, i: nat)
    requires CanSend(s, FromStub(i)) && Wired(s, i) && Hand(s, i) == []
    requires s' == Resume(s, FromStub(i)).(dropped := true)
    ensures var b := s.stubs[i];
      && Near(s, s', i, b.output) && s'.chans == s.chans
      && Load(s, i) == b.pc.d + Rest(b.pc.after) && Load(s', i) == Rest(b.pc.after)
  {
    hide Flatten, Node;
    SendLoad(s.stubs[i]);
  }

  lemma StubGivesUp(s: State, s': State, i: nat)
    requires Wiring(s) && CanSend(s, FromStub(i)) && Wired(s, i) && Hand(s, i) == []
    requires s' == Resume(s, FromStub(i)).(dropped := true)
    ensures Live(s') == Live(s) && Parts(s') == Parts(s)[i + 1 := Part(s', i + 1)]
    ensures Subseq(Part(s', i + 1), Part(s, i + 1))
  {
    var b := s.stubs[i];
    GaveUpNear(s, s', i);
    LoseParts(s, s', i, b.pc.d, Rest(b.pc.after));
  }

  lemma StubTakes(s: State, s': State, j: nat, draw: Slicer.Draws, h: Chunk, h': Chunk)
    requires Wiring(s) && CanReceive(s, ToStub(j)) && Wired(s, j) && Hand(s, j) == []
    requires s.chans[s.stubs[j].input].buf != [] && s' == Receive(s, ToStub(j), draw)
    requires h == s.chans[s.stubs[j].input].buf[0] && h' == Inflight(AfterReceive(s.stubs[j], h, draw).pc)
    ensures Live(s') == Live(s)
    ensures var ps := Parts(s);
      ps[j] == h + Part(s', j) && Parts(s') == ps[j := Part(s', j)][j + 1 := ps[j + 1] + h']
  {
    TookNear(s, s', j, draw, h, h');
    FetchParts(s, s', j, h, h');
  }

  lemma TookNear(s: State, s': State, j: nat, draw: Slicer.Draws, h: Chunk, h': Chunk)
    requires CanReceive(s, ToStub(j)) && Wired(s, j) && Hand(s, j) == []
    requires s.chans[s.stubs[j].input].buf != [] && s' == Receive(s, ToStub(j), draw)
    requires h == s.chans[s.stubs[j].input].buf[0] && h' == Inflight(AfterReceive(s.stubs[j], h, draw).pc)
    ensures Near(s, s', j, s.stubs[j].input) && Load(s, j) == [] && Load(s', j) == h'
    ensures s'.chans[s.stubs[j].input].buf == s.chans[s.stubs[j].input].buf[1..]
  {
  }

  lemma StubSendKeepsData(s: State, i: nat)
    requires Inv(s) && Can(s, Put(FromStub(i)))
    ensures Data(Do(s, Put(FromStub(i))))
  {
    RunningIsOpen(s, i);
    IsWired(s, i);
    OnePairOfHands(s, i);
    StubSends(s, Send(s, FromStub(i)), i);
    DataSame(s, Send(s, FromStub(i)));
  }

  lemma StubGiveUpKeepsData(s: State, i: nat)
    requires Inv(s) && Can(s, GiveUp(FromStub(i)))
    ensures Data(Do(s, GiveUp(FromStub(i))))
  {
    hide Parts, Part, Subseq, InOrder;
    var s' := Resume(s, FromStub(i)).(dropped := true);
    RunningIsOpen(s, i);
    IsWired(s, i);
    OnePairOfHands(s, i);
    StubGivesUp(s, s', i);
    DataShrinks(s, s', i + 1, Part(s', i + 1));
  }

  lemma StubTakeKeepsData(s: State, j: nat, draw: Slicer.Draws)
    requires Inv(s) && Can(s, Take(ToStub(j), draw))
    ensures Data(Do(s, Take(ToStub(j), draw)))
  {
    var s' := Receive(s, ToStub(j), draw);
    var h := s.chans[s.stubs[j].input].buf[0];
    var h' := Inflight(AfterReceive(s.stubs[j], h, draw).pc);
    RunningIsOpen(s, j);
    IsWired(s, j);
    OnePairOfHands(s, j);
    StubTakes(s, s', j, draw, h, h');
    ReceiveLoad(s.stubs[j], h, draw);
    DataTaken(s, s', Parts(s), j, h, h', Part(s', j));
  }

  // ----- the controller flushes and drains -----

  lemma ControllerSends(s: State, s': State)
    requires Wiring(s) && CanSend(s, FromController) && Wired(s, s.ctl.k) && s.stubs[s.ctl.k].pc.Idle?
    requires !s.chans[s.stubs[s.ctl.k].output].closed && s' == Send(s, FromController)
    ensures Live(s') == Live(s) && Parts(s') == Parts(s)
  {
    var k := s.ctl.k;
    assert Near(s, s', k, s.stubs[k].output);
    assert Load(s', k) == [] && Load(s, k) == s.ctl.hand.value == s.ctl.hand.value + [];
    ShipParts(s, s', k, s.ctl.hand.value, []);
  }

  lemma ControllerGivesUp(s: State, s': State)
    requires Wiring(s) && CanSend(s, FromController) && Wired(s, s.ctl.k) && s.stubs[s.ctl.k].pc.Idle?
    requires s' == Resume(s, FromController).(dropped := true)
    ensures Live(s') == Live(s) && Parts(s') == Parts(s)[s.ctl.k + 1 := Part(s', s.ctl.k + 1)]
    ensures Subseq(Part(s', s.ctl.k + 1), Part(s, s.ctl.k + 1))
  {
    var k := s.ctl.k;
    assert Near(s, s', k, s.stubs[k].output);
    assert Load(s', k) == [] && Load(s, k) == s.ctl.hand.value == s.ctl.hand.value + [];
    LoseParts(s, s', k, s.ctl.hand.value, []);
  }

  lemma ControllerTookNear(s: State, s': State, draw: Slicer.Draws, h: Chunk)
    requires CanReceive(s, ToController) && Wired(s, s.ctl.k) && s.stubs[s.ctl.k].pc.Idle?
    requires s.chans[s.stubs[s.ctl.k].input].buf != [] && s' == Receive(s, ToController, draw)
    requires h == s.chans[s.stubs[s.ctl.k].input].buf[0]
    ensures Live(s') == Live(s) && Near(s, s', s.ctl.k, s.stubs[s.ctl.k].input)
    ensures Load(s, s.ctl.k) == [] && Load(s', s.ctl.k) == h
    ensures s'.chans[s.stubs[s.ctl.k].input].buf == s.chans[s.stubs[s.ctl.k].input].buf[1..]
  {
    hide Flatten, Rest, Node;
    assert Load(s', s.ctl.k) == [] + h;
  }

  lemma ControllerTakes(s: State, s': State, draw: Slicer.Draws, h: Chunk)
    requires Wiring(s) && CanReceive(s, ToController) && Wired(s, s.ctl.k) && s.stubs[s.ctl.k].pc.Idle?
    requires s.chans[s.stubs[s.ctl.k].input].buf != [] && s' == Receive(s, ToController, draw)
    requires h == s.chans[s.stubs[s.ctl.k].input].buf[0]
    ensures Live(s') == Live(s)
    ensures var ps, k := Parts(s), s.ctl.k;
      ps[k] == h + Part(s', k) && Parts(s') == ps[k := Part(s', k)][k + 1 := ps[k + 1] + h]
  {
    hide Wiring, Near, Receive, Load, Part, Buffered, Flatten;
    ControllerTookNear(s, s', draw, h);
    FetchParts(s, s', s.ctl.k, h, h);
  }

  /** While the controller flushes or drains stub k, the stub is parked on the way to the output. */
  lemma FlushedStub(s: State)
    requires Core(s) && (s.ctl.Flushing? || s.ctl.Draining?)
    ensures Wired(s, s.ctl.k) && s.stubs[s.ctl.k].pc.Idle? && !s.chans[s.stubs[s.ctl.k].output].closed
  {
    IsWired(s, s.ctl.k);
  }

  lemma ControllerKeepsData(s: State, m: Move)
    requires Inv(s) && Can(s, m)
    requires m == Put(FromController) || m == GiveUp(FromController)
    ensures Data(Do(s, m))
  {
    FlushedStub(s);
    if m.Put? {
      ControllerSends(s, Send(s, FromController));
      DataSame(s, Send(s, FromController));
    } else {
      var s' := Resume(s, FromController).(dropped := true);
      ControllerGivesUp(s, s');
      DataShrinks(s, s', s.ctl.k + 1, Part(s', s.ctl.k + 1));
    }
  }

  lemma ControllerTakeKeepsData(s: State, draw: Slicer.Draws)
    requires Inv(s) && Can(s, Take(ToController, draw))
    ensures Data(Do(s, Take(ToController, draw)))
  {
    hide Aligned, Closure, Ends, Counts, Phase, Shaking, Part, InOrder, Subseq, InStream;
    var s', k := Receive(s, ToController, draw), s.ctl.k;
    FlushedStub(s);
    var h := s.chans[s.stubs[k].input].buf[0];
    ControllerTakes(s, s', draw, h);
    SubseqRefl(h);
    DataTaken(s, s', Parts(s), k, h, h, Part(s', k));
  }

  // ----- the ends of the link -----

  lemma OfferedParts(s: State, s': State, c: Chunk)
    requires Wiring(s) && s.pending.None? && s' == s.(pending := Some(c), written := s.written + c)
    ensures Live(s') == Live(s) && Parts(s') == Parts(s)[0 := Parts(s)[0] + c]
  {
    assert forall j :: 0 < j <= Live(s) ==> Part(s', j) == Part(s, j);
    assert Part(s, 0) == Buffered(s, s.input) + [] == Buffered(s, s.input);
  }

  lemma StreamGrows(delivered: Chunk, held: Chunk, written: Chunk, dropped: bool, c: Chunk)
    requires InStream(delivered, held, written, dropped)
    ensures InStream(delivered, held + c, written + c, dropped)
  {
    SubseqAppend(delivered + held, written, c);
    assert delivered + (held + c) == (delivered + held) + c;
  }

  lemma DataGrows(s: State, s': State, ps: seq<Chunk>, c: Chunk)
    requires Data(s) && 0 <= Live(s') && ps == Parts(s) && ps != [] && Parts(s') == ps[0 := ps[0] + c]
    requires s'.delivered == s.delivered && s'.written == s.written + c && s'.dropped == s.dropped
    ensures Data(s')
  {
    InOrderGrows(ps, c);
    StreamGrows(s.delivered, Held(s), s.written, s.dropped, c);
  }

  lemma OfferKeepsData(s: State, c: Chunk)
    requires Inv(s) && Can(s, Offer(c))
    ensures Data(Do(s, Offer(c)))
  {
    var s' := s.(pending := Some(c), written := s.written + c);
    OfferedParts(s, s', c);
    DataGrows(s, s', Parts(s), c);
  }

  lemma SourceSends(s: State, s': State)
    requires Wiring(s) && CanSend(s, Source) && !s.chans[s.input].closed && s' == Send(s, Source)
    ensures Live(s') == Live(s) && Parts(s') == Parts(s)
  {
    forall j | 0 < j <= Live(s) ensures Part(s', j) == Part(s, j) {
      NodesDiffer(s, 0, j);
    }
    FlattenSnoc(s.chans[s.input].buf, s.pending.value);
    var b := Buffered(s, s.input);
    assert Part(s', 0) == (b + s.pending.value) + [] == b + s.pending.value == Part(s, 0);
  }

  lemma SourceKeepsData(s: State)
    requires Inv(s) && Can(s, Put(Source))
    ensures Data(Do(s, Put(Source)))
  {
    SourceSends(s, Send(s, Source));
    DataSame(s, Send(s, Source));
  }

  lemma SinkLeavesParts(s: State, s': State, draw: Slicer.Draws, j: nat)
    requires Wiring(s) && CanReceive(s, Sink) && s.chans[s.output].buf != [] && s' == Receive(s, Sink, draw)
    requires j < s.reach
    ensures Part(s', j) == Part(s, j)
  {
    NodesDiffer(s, j, s.reach);
    assert Node(s, s.reach) == s.output;
    hide Wiring, Flatten, Inflight;
  }

  lemma SinkPart(s: State, s': State, draw: Slicer.Draws, h: Chunk)
    requires Wiring(s) && CanReceive(s, Sink) && s.chans[s.output].buf != []
    requires s' == Receive(s, Sink, draw) && h == s.chans[s.output].buf[0]
    ensures Live(s') == Live(s) && Part(s, s.reach) == h + Part(s', s.reach)
  {
    assert Node(s, s.reach) == s.output;
    hide Wiring, Inflight;
    var l := Load(s, s.reach - 1);
    assert Buffered(s, s.output) == h + Buffered(s', s.output);
    assert (h + Buffered(s', s.output)) + l == h + (Buffered(s', s.output) + l);
  }

  lemma SinkTakes(s: State, s': State, draw: Slicer.Draws, h: Chunk)
    requires Wiring(s) && CanReceive(s, Sink) && s.chans[s.output].buf != []
    requires s' == Receive(s, Sink, draw) && h == s.chans[s.output].buf[0]
    ensures Live(s') == Live(s) && Parts(s')[..s.reach] == Parts(s)[..s.reach]
    ensures Parts(s)[s.reach] == h + Parts(s')[s.reach]
  {
    SinkPart(s, s', draw, h);
    hide Part, Receive;
    forall j: nat | j < s.reach ensures Part(s', j) == Part(s, j) {
      SinkLeavesParts(s, s', draw, j);
    }
  }

  lemma SinkHeld(s: State, s': State, draw: Slicer.Draws, h: Chunk)
    requires Wiring(s) && Phase(s) && Wiring(s') && Phase(s')
    requires CanReceive(s, Sink) && s.chans[s.output].buf != []
    requires s' == Receive(s, Sink, draw) && h == s.chans[s.output].buf[0]
    ensures Held(s) == h + Held(s')
  {
    SinkTakes(s, s', draw, h);
    HeldEndsAtOutput(s);
    HeldEndsAtOutput(s');
    InOrderTop(Parts(s), Parts(s'), s.reach, h);
  }

  lemma DataDelivered(s: State, s': State, h: Chunk)
    requires Data(s) && 0 <= Live(s') && Held(s) == h + Held(s')
    requires s'.delivered == s.delivered + h && s'.written == s.written && s'.dropped == s.dropped
    ensures Data(s')
  {
    hide Parts, Held, Subseq;
    assert s.delivered + (h + Held(s')) == s'.delivered + Held(s');
  }

  lemma SinkKeepsData(s: State, draw: Slicer.Draws)
    requires Inv(s) && Can(s, Take(Sink, draw))
    ensures Data(Do(s, Take(Sink, draw)))
  {
    hide Wiring, Phase, Closure, Shaking, Ends, Counts, Aligned, Held, Subseq, InStream;
    var h := s.chans[s.output].buf[0];
    SinkKeeps(s, Take(Sink, draw));
    SinkHeld(s, Receive(s, Sink, draw), draw, h);
    DataDelivered(s, Receive(s, Sink, draw), h);
  }

  // ----- splices -----

  lemma AppendedParts(s: State, t: Toxic)
    requires Wiring(s) && CanBegin(s, Add(t))
    ensures var s' := BeginOp(s, Add(t)); Live(s') == Live(s) && Parts(s') == Parts(s)
  {
    hide Flatten, Inflight;
    var s' := BeginOp(s, Add(t));
    forall j | 0 <= j <= Live(s) ensures Part(s', j) == Part(s, j) {
      if j > 0 { assert s'.stubs[j - 1] == s.stubs[j - 1]; }
    }
  }

  /** s' is s with the appended stub n in front of the output. */
  ghost predicate SplicedIn(s: State, s': State, n: nat) {
    && s.ctl.Adding? && n >= 1 && |s.stubs| == |s'.stubs| == n + 1
    && s'.ctl == Free && s'.chans == s.chans && s'.input == s.input && s'.pending == s.pending
    && (forall i :: 0 <= i < n - 1 ==> s'.stubs[i] == s.stubs[i])
    && s.stubs[n - 1].pc.Idle? && Inflight(s'.stubs[n - 1].pc) == [] && Inflight(s'.stubs[n].pc) == []
    && s'.stubs[n - 1].output == s.stubs[n].input && s'.stubs[n].output == s.stubs[n - 1].output
    && s.stubs[n].input < |s.chans| && s.chans[s.stubs[n].input].buf == []
    && s'.delivered == s.delivered && s'.written == s.written && s'.dropped == s.dropped
  }

  lemma SpawnKeepsSplice(s: State, s1: State, n: nat, k: nat, t: Toxic)
    requires SplicedIn(s, s1, n) && n - 1 <= k <= n && s1.stubs[k].pc.Idle?
    ensures var s2 := Spawn(s1, k, t);
      && SplicedIn(s, s2, n) && s2 == s1.(stubs := s2.stubs) && n >= 1 && |s2.stubs| == n + 1
      && (k == n ==> s2.stubs[n - 1] == s1.stubs[n - 1])
  {
    SpawnIdle(s1, k, t);
    hide Spawn, Flatten;
  }

  lemma SplicedInStarts(s: State, s1: State, n: nat, t: Toxic)
    requires SplicedIn(s, s1, n) && s1.stubs[n - 1].pc.Idle? && s1.stubs[n].pc.Idle?
    ensures SplicedIn(s, SpawnFromChain(Spawn(s1, n, t), n - 1), n)
  {
    SpawnKeepsSplice(s, s1, n, n, t);
    hide Spawn, SplicedIn;
    var s2 := Spawn(s1, n, t);
    if n - 1 < |s2.chain| { SpawnKeepsSplice(s, s2, n, n - 1, s2.chain[n - 1]); }
    SpliceInFaults(s, s2, n);
  }

  lemma SpliceInIsSplicedIn(s: State)
    requires Wiring(s) && Phase(s) && s.ctl.Adding? && Parked(s, |s.stubs| - 2)
    ensures SplicedIn(s, SpliceIn(s), |s.stubs| - 1)
  {
    RewireInIsSplicedIn(s);
    SplicedInStarts(s, RewireIn(s), |s.stubs| - 1, s.ctl.t);
    hide RewireIn, Spawn, SpawnFromChain, SplicedIn;
  }

  lemma SpliceInFaults(s: State, s1: State, n: nat)
    requires SplicedIn(s, s1, n)
    ensures SplicedIn(s, s1.(fault := ChainIndex), n)
  {
  }

  lemma RewireInIsSplicedIn(s: State)
    requires Wiring(s) && Phase(s) && s.ctl.Adding? && Parked(s, |s.stubs| - 2)
    ensures SplicedIn(s, RewireIn(s), |s.stubs| - 1)
    ensures RewireIn(s).stubs[|s.stubs| - 1].pc.Idle? && RewireIn(s).stubs[|s.stubs| - 2].pc.Idle?
  {
  }

  /** The stub that is added brings an empty part. */
  lemma SplicedInParts(s: State, s': State, n: nat)
    requires SplicedIn(s, s', n)
    ensures |Parts(s)| == n + 1 && |Parts(s')| == n + 2
    ensures Parts(s')[..n] == Parts(s)[..n] && Parts(s')[n] == [] && Parts(s')[n + 1] == Parts(s)[n]
  {
    forall j | 0 <= j < n ensures Part(s', j) == Part(s, j) {
      if j > 0 { assert s'.stubs[j - 1] == s.stubs[j - 1]; }
    }
    assert Part(s', n) == [];
    assert Part(s', n + 1) == Part(s, n);
  }

  lemma SparePart(s: State, s': State)
    requires Phase(s) && s.ctl.Adding?
    requires var n := |s.stubs| - 1;
      s' == s.(stubs := s.stubs[n := s.stubs[n].(output := s.stubs[n].input)], ctl := Shutting(n, Test, Collected))
    ensures Live(s') == Live(s) + 1 == |s'.stubs| && Part(s', |s'.stubs|) == []
  {
  }

  lemma SpareKeepsPart(s: State, s': State, j: nat)
    requires s.ctl.Adding? && j <= Live(s)
    requires var n := |s.stubs| - 1;
      s' == s.(stubs := s.stubs[n := s.stubs[n].(output := s.stubs[n].input)], ctl := Shutting(n, Test, Collected))
    ensures Part(s', j) == Part(s, j)
  {
    hide Flatten, Inflight;
    if j > 0 { assert s'.stubs[j - 1] == s.stubs[j - 1]; }
  }

  lemma SpareParts(s: State, s': State)
    requires Wiring(s) && Phase(s) && s.ctl.Adding?
    requires var n := |s.stubs| - 1;
      s' == s.(stubs := s.stubs[n := s.stubs[n].(output := s.stubs[n].input)], ctl := Shutting(n, Test, Collected))
    ensures Live(s') == Live(s) + 1 && Parts(s') == Parts(s) + [[]]
  {
    SparePart(s, s');
    hide Part, Phase, Wiring;
    forall j: nat | j <= Live(s) ensures Part(s', j) == Part(s, j) {
      SpareKeepsPart(s, s', j);
    }
  }

  /** The stub that is removed takes an empty part with it. */
  lemma SplicedOutPart(s: State, s': State, k: nat, j: int)
    requires SplicedOut(s, s', k) && s.ctl == Draining(k, None) && s'.pending == s.pending && 0 <= j <= |s'.stubs|
    requires s.stubs[k].pc.Idle? && s.stubs[k - 1].pc.Idle? && Buffered(s, Node(s, k)) == []
    ensures Part(s, k) == []
    ensures Part(s', j) == Part(s, if j < k then j else j + 1)
  {
    hide Flatten;
    var i := if j < k then j else j + 1;
    assert Load(s, k - 1) == [] && Load(s, k) == [];
    if j > k {
      assert s'.stubs[j - 1] == s.stubs[j] && Load(s', j - 1) == Load(s, j);
    } else if j == k {
      assert Load(s', k - 1) == [];
    } else if j > 0 {
      assert s'.stubs[j - 1] == s.stubs[j - 1] && Load(s', j - 1) == Load(s, j - 1);
    }
    assert Node(s', j) == Node(s, i);
  }

  lemma SplicedOutParts(s: State, s': State, k: nat)
    requires SplicedOut(s, s', k) && s.ctl == Draining(k, None) && s'.pending == s.pending
    requires s.stubs[k].pc.Idle? && s.stubs[k - 1].pc.Idle? && Buffered(s, Node(s, k)) == []
    ensures var ps := Parts(s);
      |ps| > k + 1 && ps[k] == [] && Parts(s') == ps[..k] + ps[k + 1..]
  {
    hide Part, Buffered, Node;
    forall j | 0 <= j <= |s'.stubs| ensures Part(s, k) == [] && Part(s', j) == Part(s, if j < k then j else j + 1) {
      SplicedOutPart(s, s', k, j);
    }
    SplicedOutPart(s, s', k, 0);
  }

  /** Starting a goroutine, or panicking instead, moves no chunk. */
  lemma RestartedParts(s: State, s': State, k: nat)
    requires s.ctl.Free? && Parked(s, k) && s' == SpawnFromChain(s, k)
    ensures Parts(s') == Parts(s)
  {
    if k < |s.chain| {
      RespawnedParts(s, s', k, s.stubs[k].(pc := Spawned, toxic := s.chain[k]));
    } else {
      assert forall j :: 0 <= j <= |s.stubs| ==> Part(s', j) == Part(s, j);
    }
  }

  lemma RespawnedParts(s: State, s': State, k: nat, b': Stub)
    requires s.ctl.Free? && k < |s.stubs| && s' == s.(stubs := s.stubs[k := b'])
    requires b'.output == s.stubs[k].output && Inflight(b'.pc) == Inflight(s.stubs[k].pc)
    ensures Parts(s') == Parts(s)
  {
    hide Flatten, Inflight;
    forall j | 0 <= j <= |s.stubs| ensures Part(s', j) == Part(s, j) {
      assert j > 0 && j - 1 != k ==> s'.stubs[j - 1] == s.stubs[j - 1];
    }
  }

  lemma SkipInSeq(ps: seq<Chunk>, qs: seq<Chunk>, n: nat)
    requires |ps| == n + 1 && |qs| == n + 2 && qs[..n] == ps[..n] && qs[n] == [] && qs[n + 1] == ps[n]
    ensures InOrder(qs) == InOrder(ps)
  {
    assert ps == ps[..n] + [ps[n]];
    assert qs == ps[..n] + [[]] + [ps[n]];
    InOrderSkips(ps[..n], [ps[n]]);
  }

  lemma SpliceInKeepsData(s: State)
    requires Data(s) && Wiring(s) && Phase(s) && s.ctl.Adding? && Parked(s, |s.stubs| - 2)
    ensures Data(SpliceIn(s))
  {
    hide Parts, InOrder, Subseq, InStream;
    var n := |s.stubs| - 1;
    SpliceInIsSplicedIn(s);
    SplicedInParts(s, SpliceIn(s), n);
    SkipInSeq(Parts(s), Parts(SpliceIn(s)), n);
    hide SpliceIn, Wiring, Phase;
    DataSame(s, SpliceIn(s));
  }

  lemma SpareKeepsData(s: State, s': State)
    requires Data(s) && Wiring(s) && Phase(s) && s.ctl.Adding?
    requires var n := |s.stubs| - 1;
      s' == s.(stubs := s.stubs[n := s.stubs[n].(output := s.stubs[n].input)], ctl := Shutting(n, Test, Collected))
    ensures Data(s')
  {
    SpareParts(s, s');
    InOrderSkips(Parts(s), []);
    assert Parts(s) + [[]] + [] == Parts(s) + [[]] && Parts(s) + [] == Parts(s);
    DataSame(s, s');
  }

  lemma SpliceOutHeld(s: State, s1: State)
    requires Wiring(s) && Phase(s) && s.ctl.Draining? && s.ctl.hand.None? && s1 == RewireOut(s)
    requires s.chans[s.stubs[s.ctl.k].input].buf == []
    ensures Held(s1) == Held(s) && Parked(s1, s.ctl.k - 1)
  {
    var k := s.ctl.k;
    RewireOutSplices(s);
    IsWired(s, k);
    SplicedOutParts(s, s1, k);
    LeftOutOfSeq(Parts(s), k);
  }

  lemma LeftOutOfSeq(ps: seq<Chunk>, k: nat)
    requires k < |ps| && ps[k] == []
    ensures InOrder(ps[..k] + ps[k + 1..]) == InOrder(ps)
  {
    assert ps == ps[..k] + [[]] + ps[k + 1..];
    InOrderSkips(ps[..k], ps[k + 1..]);
  }

  lemma SpliceOutKeepsData(s: State, s1: State, s': State)
    requires Data(s) && Wiring(s) && Phase(s) && s.ctl.Draining? && s.ctl.hand.None? && s1 == RewireOut(s)
    requires s.chans[s.stubs[s.ctl.k].input].buf == [] && s' == SpawnFromChain(s1, s.ctl.k - 1)
    ensures Data(s')
  {
    SpliceOutHeld(s, s1);
    RestartedParts(s1, s', s.ctl.k - 1);
    assert Held(s') == Held(s1);
    DataSame(s, s');
  }

  // ----- everything else -----

  /** Stub i and channel c change at most, and no chunk does. */
  predicate NoChunkMoves(s: State, s': State, i: nat, c: nat) {
    && 0 <= Live(s) == Live(s') && |s'.stubs| == |s.stubs| && |s'.chans| == |s.chans|
    && s'.input == s.input && s'.pending == s.pending && SameHands(s.ctl, s'.ctl)
    && (s'.stubs == s.stubs ||
        (i < |s.stubs| && s'.stubs == s.stubs[i := s'.stubs[i]] &&
         s'.stubs[i].output == s.stubs[i].output && Inflight(s'.stubs[i].pc) == Inflight(s.stubs[i].pc)))
    && (s'.chans == s.chans ||
        (c < |s.chans| && s'.chans == s.chans[c := s'.chans[c]] && s'.chans[c].buf == s.chans[c].buf))
    && s'.delivered == s.delivered && s'.written == s.written && (s.dropped ==> s'.dropped)
  }

  lemma NoChunkMovesPlaces(s: State, s': State, i: nat, c: nat)
    requires Wiring(s) && NoChunkMoves(s, s', i, c)
    ensures SamePlaces(s, s')
  {
  }

  lemma NoChunkMovesKeeps(s: State, s': State, i: nat, c: nat)
    requires Data(s) && Wiring(s) && NoChunkMoves(s, s', i, c)
    ensures Data(s')
  {
    NoChunkMovesPlaces(s, s', i, c);
    PlacesKeep(s, s');
  }

  lemma TickMovesNoChunk(s: State, i: nat)
    requires 0 <= Live(s) && i < |s.stubs| && CanTick(s.stubs[i])
    ensures NoChunkMoves(s, Timer(s, i), i, 0)
  {
    TimerKeepsBytes(s.stubs[i]);
  }

  lemma CloseMovesNoChunk(s: State, i: nat)
    requires 0 <= Live(s) && i < |s.stubs| && s.stubs[i].output < |s.chans|
    requires s.stubs[i].pc.Closing? || s.stubs[i].pc.Exiting?
    ensures NoChunkMoves(s, CloseStep(s, i), i, s.stubs[i].output)
  {
  }

  lemma CloseOutputMovesNoChunk(s: State, i: nat)
    requires 0 <= Live(s) && i < |s.stubs| && s.stubs[i].output < |s.chans| && s.stubs[i].pc.ClosingOutput?
    ensures NoChunkMoves(s, CloseStep(s, i), i, s.stubs[i].output)
  {
    CloseChanIs(s, s.stubs[i].output);
    hide CloseChan;
  }

  lemma StartMovesNoChunk(s: State, i: nat, chosen: bool)
    requires 0 <= Live(s) && i < |s.stubs| && s.stubs[i].pc.Spawned?
    ensures NoChunkMoves(s, Run(s, i, chosen), i, 0)
  {
  }

  lemma EndMovesNoChunk(s: State, r: Receiver)
    requires 0 <= Live(s) && CanReceive(s, r) && (r.ToController? ==> s.ctl.Flushing?)
    ensures NoChunkMoves(s, ReceiveEnd(s, r), if r.ToStub? then r.j else 0, 0)
  {
  }

  lemma InterruptMovesNoChunk(s: State)
    requires 0 <= Live(s) && 0 <= Target(s) < |s.stubs| && Interruptible(s.stubs[Target(s)].pc)
    ensures NoChunkMoves(s, TakeInterrupt(s), Target(s), 0)
  {
    InterruptKeepsBytes(s.stubs[Target(s)].pc);
  }

  lemma BeginLeavesPlaces(s: State, op: Op)
    requires CanBegin(s, op) && !op.Add?
    ensures var s' := BeginOp(s, op);
      && s' == s.(tidy := s'.tidy, chain := s'.chain, ctl := s'.ctl, fault := s'.fault)
      && !s'.ctl.Flushing? && !s'.ctl.Draining? && !s'.ctl.Adding? && s.ctl.Free?
  {
    hide AllOpen;
  }

  lemma BeginMovesNoChunk(s: State, op: Op)
    requires CanBegin(s, op) && 0 <= Live(s) && !op.Add?
    ensures NoChunkMoves(s, BeginOp(s, op), 0, 0)
  {
    BeginLeavesPlaces(s, op);
    hide BeginOp, CanBegin;
  }

  lemma InputCloseMovesNoChunk(s: State)
    requires 0 <= Live(s) && s.input < |s.chans|
    ensures NoChunkMoves(s, CloseChan(s, s.input).(inputClosed := true), 0, s.input)
  {
    CloseChanIs(s, s.input);
    hide CloseChan;
  }

  lemma AnswerMovesNoChunk(s: State, h: Shake)
    requires 0 <= Live(s)
    ensures NoChunkMoves(s, s.(ctl := SetShake(s.ctl, h)), 0, 0)
  {
  }

  lemma ClosedChanMovesNoChunk(s: State, s': State, c: nat)
    requires 0 <= Live(s) && c < |s.chans| && s.ctl.Shutting? && s'.ctl.Shutting?
    requires s' == CloseChan(s, c).(ctl := s'.ctl)
    ensures NoChunkMoves(s, s', 0, c)
  {
    CloseChanIs(s, c);
    hide CloseChan;
  }

  lemma ShuttingMovesNoChunk(s: State)
    requires 0 <= Live(s) && s.ctl.Shutting? && s.ctl.k < |s.stubs| && s.stubs[s.ctl.k].output < |s.chans|
    requires s.ctl.stage != CloseOutput
    ensures NoChunkMoves(s, ShutStep(s), s.ctl.k, 0)
  {
    hide CloseChan, Inflight;
  }

  lemma ControllerMovesNoChunk(s: State)
    requires CanProceed(s) && 0 <= Live(s) && (s.ctl.Updating? || s.ctl.Removing? || s.ctl.Flushing?)
    requires s.ctl.Updating? && s.ctl.shake.ok ==> Parked(s, s.ctl.k)
    ensures NoChunkMoves(s, Advance(s), s.ctl.k, 0)
  {
  }

  lemma StubMoveKeepsData(s: State, m: Move)
    requires Data(s) && Wiring(s) && Can(s, m)
    requires m.Start? || m.Tick? || m.Close? || m.Deliver? || m.TakeEnd?
    ensures Data(Do(s, m))
  {
    var s' := Do(s, m);
    match m {
      case Start(i, chosen) =>
        StartMovesNoChunk(s, i, chosen);
        NoChunkMovesKeeps(s, s', i, 0);
      case Tick(i) =>
        TickMovesNoChunk(s, i);
        NoChunkMovesKeeps(s, s', i, 0);
      case Close(i) =>
        if s.stubs[i].pc.ClosingOutput? { CloseOutputMovesNoChunk(s, i); } else { CloseMovesNoChunk(s, i); }
        NoChunkMovesKeeps(s, s', i, s.stubs[i].output);
      case Deliver =>
        InterruptMovesNoChunk(s);
        NoChunkMovesKeeps(s, s', Target(s), 0);
      case TakeEnd(r) =>
        EndMovesNoChunk(s, r);
        NoChunkMovesKeeps(s, s', if r.ToStub? then r.j else 0, 0);
    }
  }

  lemma BeginKeepsData(s: State, op: Op)
    requires Data(s) && Wiring(s) && CanBegin(s, op)
    ensures Data(BeginOp(s, op))
  {
    hide Wiring, BeginOp, NoChunkMoves, Parts, Subseq, InOrder;
    if op.Add? {
      AppendedParts(s, op.t);
      AppendKeepsHistory(s, op.t);
      DataSame(s, BeginOp(s, op));
    } else {
      BeginMovesNoChunk(s, op);
      NoChunkMovesKeeps(s, BeginOp(s, op), 0, 0);
    }
  }

  lemma AppendKeepsHistory(s: State, t: Toxic)
    requires CanBegin(s, Add(t))
    ensures var s' := BeginOp(s, Add(t));
      s'.delivered == s.delivered && s'.written == s.written && s'.dropped == s.dropped
  {
    hide AllOpen;
  }

  lemma OtherMoveKeepsData(s: State, m: Move)
    requires Data(s) && Wiring(s) && Can(s, m) && (m.CloseInput? || m.Answer? || m.Begin?)
    ensures Data(Do(s, m))
  {
    hide Wiring, BeginOp, CanBegin, CloseChan, NoChunkMoves, SetShake, ShakeOf, Parts, Subseq, InOrder;
    if m.Begin? {
      BeginKeepsData(s, m.op);
    } else if m.CloseInput? {
      InputCloseMovesNoChunk(s);
      NoChunkMovesKeeps(s, Do(s, m), 0, s.input);
    } else {
      AnswerMovesNoChunk(s, Answered(ShakeOf(s.ctl).value == Taken));
      NoChunkMovesKeeps(s, Do(s, m), 0, 0);
    }
  }

  lemma AddedKeepsData(s: State, s': State)
    requires Data(s) && Wiring(s) && Phase(s) && s.ctl.Adding? && CanProceed(s) && s' == Advance(s)
    requires s.ctl.shake.ok ==> Parked(s, |s.stubs| - 2)
    ensures Data(s')
  {
    if s.ctl.shake.ok {
      SpliceInKeepsData(s);
    } else {
      SpareKeepsData(s, s');
    }
  }

  lemma ShutKeepsData(s: State)
    requires s.ctl.Shutting? && s.ctl.k < |s.stubs| && s.stubs[s.ctl.k].output < |s.chans| && Data(s) && Wiring(s)
    ensures Data(ShutStep(s))
  {
    hide Data, Wiring, NoChunkMoves, CloseChan;
    assert 0 <= Live(s);
    var k := s.ctl.k;
    if s.ctl.stage == CloseOutput {
      ClosedChanMovesNoChunk(s, ShutStep(s), s.stubs[k].output);
      NoChunkMovesKeeps(s, ShutStep(s), 0, s.stubs[k].output);
    } else {
      ShuttingMovesNoChunk(s);
      NoChunkMovesKeeps(s, ShutStep(s), k, 0);
    }
  }

  lemma ProceedKeepsData(s: State)
    requires Data(s) && Wiring(s) && Phase(s) && Shaking(s) && Can(s, Proceed)
    ensures Data(Do(s, Proceed))
  {
    hide Parts, Subseq, InOrder, InStream, Wiring;
    if s.ctl.Adding? {
      AddedKeepsData(s, Advance(s));
    } else if s.ctl.Draining? {
      SpliceOutKeepsData(s, RewireOut(s), Advance(s));
    } else if s.ctl.Shutting? {
      ShutKeepsData(s);
    } else {
      ControllerMovesNoChunk(s);
      NoChunkMovesKeeps(s, Advance(s), s.ctl.k, 0);
    }
  }

  // ----- all moves -----

  lemma SendKeepsData(s: State, m: Move)
    requires Inv(s) && Can(s, m) && (m.Put? || m.GiveUp?)
    ensures Data(Do(s, m))
  {
    match m.w {
      case Source => SourceKeepsData(s);
      case FromStub(i) => if m.Put? { StubSendKeepsData(s, i); } else { StubGiveUpKeepsData(s, i); }
      case FromController => ControllerKeepsData(s, m);
    }
  }

  lemma TakeKeepsData(s: State, r: Receiver, draw: Slicer.Draws)
    requires Inv(s) && Can(s, Take(r, draw))
    ensures Data(Do(s, Take(r, draw)))
  {
    match r {
      case Sink => SinkKeepsData(s, draw);
      case ToStub(j) => StubTakeKeepsData(s, j, draw);
      case ToController => ControllerTakeKeepsData(s, draw);
    }
  }

  lemma MoveKeepsData(s: State, m: Move)
    requires Inv(s) && Can(s, m)
    ensures Data(Do(s, m))
  {
    hide Do, Can, Data, Wiring, Phase, Shaking, Closure, Ends, Counts, Aligned;
    match m {
      case Offer(c) => OfferKeepsData(s, c);
      case Put(w) => SendKeepsData(s, m);
      case GiveUp(w) => SendKeepsData(s, m);
      case Take(r, draw) => TakeKeepsData(s, r, draw);
      case Begin(op) => OtherMoveKeepsData(s, m);
      case Proceed => ProceedKeepsData(s);
      case CloseInput => OtherMoveKeepsData(s, m);
      case Answer => OtherMoveKeepsData(s, m);
      case _ => StubMoveKeepsData(s, m);
    }
  }

  lemma SendKeepsCore(s: State, m: Move)
    requires Core(s) && Can(s, m) && (m.Put? || m.GiveUp?)
    ensures Core(Do(s, m))
  {
    match m.w {
      case Source => SourceKeeps(s, m);
      case FromStub(i) => StubSendKeeps(s, m);
      case FromController => ControllerSendKeeps(s, m);
    }
  }

  lemma ReceiveKeepsCore(s: State, m: Move)
    requires Core(s) && Can(s, m) && (m.Take? || m.TakeEnd?)
    ensures Core(Do(s, m))
  {
    match m.r {
      case Sink => SinkKeeps(s, m);
      case ToStub(_) => StubReceiveKeeps(s, m);
      case ToController => if m.Take? { ControllerTakeKeeps(s, m); } else { FlushEndsKeeps(s); }
    }
  }

  lemma BeginKeepsCore(s: State, op: Op)
    requires Core(s) && Can(s, Begin(op))
    ensures Core(Do(s, Begin(op)))
  {
    match op {
      case Add(t) => BeginAddKeeps(s, t);
      case Update(k, t) => BeginUpdateKeeps(s, k, t);
      case Remove(k) => BeginRemoveKeeps(s, k);
    }
  }

  lemma MoveKeepsCore(s: State, m: Move)
    requires Core(s) && Can(s, m)
    ensures Core(Do(s, m))
  {
    hide Core, Do, Can;
    match m {
      case Offer(_) => SourceKeeps(s, m);
      case CloseInput => CloseInputKeeps(s);
      case Put(_) => SendKeepsCore(s, m);
      case GiveUp(_) => SendKeepsCore(s, m);
      case Take(_, _) => ReceiveKeepsCore(s, m);
      case TakeEnd(_) => ReceiveKeepsCore(s, m);
      case Start(i, chosen) => StartKeeps(s, i, chosen);
      case Tick(i) => TickKeeps(s, i);
      case Close(i) => CloseKeeps(s, i);
      case Deliver => DeliverKeeps(s);
      case Answer => AnswerKeeps(s);
      case Begin(op) => BeginKeepsCore(s, op);
      case Proceed => ProceedKeepsCore(s);
    }
  }

  lemma ProceedKeepsCore(s: State)
    requires Core(s) && Can(s, Proceed)
    ensures Core(Do(s, Proceed))
  {
    match s.ctl {
      case Adding(_, _) => AddingKeeps(s);
      case Updating(_, _, _) => UpdatingKeeps(s);
      case Removing(_, _, _) => RemovingKeeps(s);
      case Flushing(_, _, _) => FlushingKeeps(s);
      case Draining(_, _) => DrainingKeeps(s);
      case Shutting(_, stage, _) =>
        match stage {
          case Test => ShutTestKeeps(s);
          case CloseOutput => ShutOutputKeeps(s);
          case Join => JoinKeeps(s);
        }
    }
  }

  /** Whatever any goroutine of the link does next, the invariant holds again. */
  lemma MoveKeepsInv(s: State, m: Move)
    requires Inv(s) && Can(s, m)
    ensures Inv(Do(s, m))
  {
    MoveKeepsCore(s, m);
    MoveKeepsData(s, m);
  }
}
