/** A link that can do nothing more has finished. */
module LinkRest {
  import opened Bytes
  import opened Link
  import opened LinkBytes
  import opened LinkData
  import opened LinkInvariant
  import LinkPipes
  import opened LinkSteps
  import opened LinkTheorems
  import Slicer
  import opened Wrappers

  // ----- goroutines that have returned, or are about to -----

  predicate Accepted(h: Shake) {
    h.Taken? || (h.Answered? && h.ok)
  }

  /** The operation has stopped the Pipe of stub i, or keeps it from running. */
  predicate Excused(c: Ctl, stubs: int, i: int) {
    match c
    case Free => false
    case Adding(_, h) => i == stubs - 1 || (i == stubs - 2 && Accepted(h))
    case Updating(k, _, h) => i == k && Accepted(h)
    case Removing(k, _, h) => i == k && Accepted(h)
    case Flushing(k, h, _) => i == k || (i == k - 1 && Accepted(h))
    case Draining(k, _) => i == k || i == k - 1
    case Shutting(k, stage, _) => i == k && stage == Test
  }

  /** Only the operation that is being carried out stops a goroutine whose stub stays open. */
  ghost predicate Awake(s: State) {
    s.fault == NoFault ==>
      && (forall i :: 0 <= i < |s.stubs| && Leaving(s.stubs[i].pc) && !s.stubs[i].closed ==>
            Excused(s.ctl, |s.stubs|, i))
      && (s.ctl.Shutting? && !s.ctl.shake.Collected? ==> 0 < s.ctl.k <= |s.stubs| && s.stubs[s.ctl.k - 1].closed)
  }

  /** A stub stays closed, and its goroutine does not begin to leave while it is open. */
  predicate StaysAwake(b: Stub, b': Stub) {
    (b.closed ==> b'.closed) && (Leaving(b'.pc) && !b'.closed ==> Leaving(b.pc) && !b.closed)
  }

  /** The operation excuses no fewer stubs than before. */
  ghost predicate ExcusesStill(c: Ctl, c': Ctl, stubs: int) {
    && (forall i :: 0 <= i < stubs && Excused(c, stubs, i) ==> Excused(c', stubs, i))
    && (c'.Shutting? && !c'.shake.Collected? ==> c.Shutting? && !c.shake.Collected? && c'.k == c.k)
  }

  ghost predicate AllStayAwake(s: State, s': State) {
    && |s'.stubs| == |s.stubs| && (s'.fault == NoFault ==> s.fault == NoFault)
    && forall i :: 0 <= i < |s.stubs| ==> StaysAwake(s.stubs[i], s'.stubs[i])
  }

  lemma QuietStaysAwake(s: State, s': State)
    requires Awake(s) && AllStayAwake(s, s') && ExcusesStill(s.ctl, s'.ctl, |s.stubs|)
    ensures Awake(s')
  {
    hide Excused, Leaving;
  }

  lemma OneStaysAwake(s: State, s': State, i: nat, b': Stub)
    requires i < |s.stubs| && StaysAwake(s.stubs[i], b') && s.fault == NoFault
    requires s'.stubs == s.stubs[i := b'] || s'.stubs == s.stubs
    ensures AllStayAwake(s, s')
  {
    hide Leaving;
  }

  lemma SendStaysAwake(b: Stub)
    requires b.pc.Sending?
    ensures StaysAwake(b, AfterSend(b))
  {
  }

  lemma ReceiveStaysAwake(b: Stub, h: Chunk, draw: Slicer.Draws)
    requires b.pc.Ready?
    ensures StaysAwake(b, AfterReceive(b, h, draw)) && StaysAwake(b, AfterEnd(b))
  {
    hide Slicer.Cut, Kept, Remaining;
  }

  lemma TimerStaysAwake(b: Stub)
    requires CanTick(b)
    ensures StaysAwake(b, AfterTimer(b))
  {
  }

  lemma SendsStayAwake(s: State, w: Sender)
    requires CanSend(s, w) && s.fault == NoFault
    ensures AllStayAwake(s, Resume(s, w)) && ExcusesStill(s.ctl, Resume(s, w).ctl, |s.stubs|)
  {
    hide AfterSend, StaysAwake;
    match w {
      case FromStub(i) =>
        SendStaysAwake(s.stubs[i]);
        OneStaysAwake(s, Resume(s, w), i, AfterSend(s.stubs[i]));
      case _ =>
        SameStaysAwake(s, Resume(s, w));
    }
  }

  lemma SameStaysAwake(s: State, s': State)
    requires s'.stubs == s.stubs && s.fault == NoFault
    ensures AllStayAwake(s, s')
  {
  }

  lemma PushStaysAwake(s: State, w: Sender)
    requires CanSend(s, w) && s.fault == NoFault && AllStayAwake(s, Resume(s, w))
    ensures AllStayAwake(s, Send(s, w)) && Send(s, w).ctl == Resume(s, w).ctl
  {
    hide Resume, StaysAwake;
  }

  lemma DroppingStaysAwake(s: State, s': State)
    requires AllStayAwake(s, s')
    ensures AllStayAwake(s, s'.(dropped := true))
  {
    hide StaysAwake;
  }

  lemma ReceivesStayAwake(s: State, r: Receiver, draw: Slicer.Draws)
    requires CanReceive(s, r) && s.chans[ReceiveChan(s, r)].buf != [] && s.fault == NoFault
    ensures AllStayAwake(s, Receive(s, r, draw)) && ExcusesStill(s.ctl, Receive(s, r, draw).ctl, |s.stubs|)
  {
    hide AfterReceive, Discards, StaysAwake;
    match r {
      case ToStub(j) =>
        var h := s.chans[s.stubs[j].input].buf[0];
        ReceiveStaysAwake(s.stubs[j], h, draw);
        OneStaysAwake(s, Receive(s, r, draw), j, AfterReceive(s.stubs[j], h, draw));
      case _ =>
        SameStaysAwake(s, Receive(s, r, draw));
    }
  }

  lemma ClosesAwake(b: Stub, b': Stub)
    requires Closes(b, b') && (b.pc.Closing? || (b.pc.ClosingOutput? && b.closed) || b.pc.Exiting?)
    ensures StaysAwake(b, b')
  {
  }

  lemma CloseStaysAwake(s: State, i: nat)
    requires Closure(s) && Can(s, Close(i))
    ensures AllStayAwake(s, Do(s, Close(i))) && Do(s, Close(i)).ctl == s.ctl
  {
    assert s.stubs[i].pc.ClosingOutput? ==> s.stubs[i].closed;
    hide Closure, CloseStep, Closes, StaysAwake, AllStayAwake;
    var b, s' := s.stubs[i], Do(s, Close(i));
    CloseStepIs(s, i);
    var b' :| Closes(b, b') && s' == s.(stubs := s.stubs[i := b'], chans := s'.chans, fault := s'.fault);
    ClosesAwake(b, b');
    OneStaysAwake(s, s', i, b');
  }

  lemma StartStaysAwake(s: State, i: nat, chosen: bool)
    requires Can(s, Start(i, chosen))
    ensures AllStayAwake(s, Run(s, i, chosen)) && Run(s, i, chosen).ctl == s.ctl
  {
  }

  lemma EndStaysAwake(s: State, j: nat)
    requires Can(s, TakeEnd(ToStub(j)))
    ensures AllStayAwake(s, Do(s, TakeEnd(ToStub(j)))) && Do(s, TakeEnd(ToStub(j))).ctl == s.ctl
  {
    hide AfterEnd, StaysAwake;
    ReceiveStaysAwake(s.stubs[j], [], (x, y) => 0);
    OneStaysAwake(s, Do(s, TakeEnd(ToStub(j))), j, AfterEnd(s.stubs[j]));
  }

  lemma InputStaysAwake(s: State)
    requires Can(s, CloseInput)
    ensures AllStayAwake(s, Do(s, CloseInput)) && Do(s, CloseInput).ctl == s.ctl
  {
    hide CloseChan;
    CloseChanIs(s, s.input);
  }

  lemma StubsStayAwake(s: State, m: Move)
    requires Can(s, m)
    requires m.Start? || m.Tick? || m.Offer? || m.CloseInput? || (m.TakeEnd? && !m.r.ToController?)
    ensures AllStayAwake(s, Do(s, m)) && Do(s, m).ctl == s.ctl
  {
    hide AfterTimer, AfterEnd, CanTick, StaysAwake, CanReceive, CloseChan, AllStayAwake;
    if m.Start? {
      StartStaysAwake(s, m.i, m.chosen);
    } else if m.Tick? {
      TimerStaysAwake(s.stubs[m.i]);
      OneStaysAwake(s, Do(s, m), m.i, AfterTimer(s.stubs[m.i]));
    } else if m.CloseInput? {
      InputStaysAwake(s);
    } else if m.TakeEnd? && m.r.ToStub? {
      EndStaysAwake(s, m.r.j);
    } else {
      SameStaysAwake(s, Do(s, m));
    }
  }

  lemma ShakesStayAwake(s: State, m: Move)
    requires Shaking(s) && Closure(s) && Can(s, m) && Awake(s) && (m.Deliver? || m.Answer?)
    ensures Awake(Do(s, m))
  {
  }

  /** The flush that sees the end of its input leaves the stub before it closed. */
  lemma FlushEndsAwake(s: State)
    requires Wiring(s) && Phase(s) && Closure(s) && Can(s, TakeEnd(ToController)) && Awake(s)
    ensures Awake(Do(s, TakeEnd(ToController)))
  {
    hide Awake;
    var k := s.ctl.k;
    assert s.stubs[k].input == s.stubs[k - 1].output;
    assert s.stubs[k - 1].closed;
    FlushGoesOn(s);
  }

  lemma FlushGoesOn(s: State)
    requires s.ctl.Flushing? && s.fault == NoFault && Awake(s) && 0 < s.ctl.k <= |s.stubs|
    requires s.stubs[s.ctl.k - 1].closed
    ensures Awake(s.(ctl := Shutting(s.ctl.k, Test, s.ctl.shake)))
  {
    hide Leaving;
  }

  lemma BeginsAwake(s: State, op: Op)
    requires Can(s, Begin(op)) && Awake(s)
    ensures Awake(Do(s, Begin(op)))
  {
    hide AllOpen, SameType;
  }

  lemma ProceedsAwake(s: State)
    requires Phase(s) && Can(s, Proceed) && Awake(s)
    ensures Awake(Do(s, Proceed))
  {
    hide Awake, Phase, SpliceIn, SpliceOut, SetAside, ShutStep, StartRemoval, Spawn;
    match s.ctl {
      case Adding(_, h) => if h.ok { AddingAwake(s); } else { SettingAsideAwake(s); }
      case Updating(_, _, _) => UpdatingAwake(s);
      case Draining(_, _) => DrainingAwake(s);
      case Shutting(_, _, _) => ShuttingAwake(s);
      case _ => FlushingAwake(s);
    }
  }

  lemma SpawnWakes(s: State, k: nat, t: Toxic)
    requires k < |s.stubs|
    ensures var s' := Spawn(s, k, t);
      && s'.ctl == s.ctl && |s'.stubs| == |s.stubs|
      && (s'.fault == NoFault ==>
            s.fault == NoFault && s'.stubs[k].pc.Spawned? && s'.stubs == s.stubs[k := s'.stubs[k]])
  {
  }

  lemma RestartWakes(s: State, k: nat)
    requires k < |s.stubs|
    ensures var s' := SpawnFromChain(s, k);
      && s'.ctl == s.ctl && |s'.stubs| == |s.stubs|
      && (s'.fault == NoFault ==>
            s.fault == NoFault && s'.stubs[k].pc.Spawned? && s'.stubs == s.stubs[k := s'.stubs[k]])
  {
    hide Spawn;
    if k < |s.chain| { SpawnWakes(s, k, s.chain[k]); }
  }

  lemma AddingAwake(s: State)
    requires CanProceed(s) && s.fault == NoFault && Awake(s) && s.ctl.Adding? && s.ctl.shake.ok
    ensures Awake(SpliceIn(s))
  {
    hide Spawn, SpawnFromChain;
    var n, s1 := |s.stubs| - 1, RewireIn(s);
    SpawnWakes(s1, n, s.ctl.t);
    RestartWakes(Spawn(s1, n, s.ctl.t), n - 1);
  }

  lemma SettingAsideAwake(s: State)
    requires CanProceed(s) && s.fault == NoFault && Awake(s) && s.ctl.Adding? && !s.ctl.shake.ok
    ensures Awake(SetAside(s))
  {
  }

  lemma UpdatingAwake(s: State)
    requires CanProceed(s) && s.fault == NoFault && Awake(s) && s.ctl.Updating?
    ensures Awake(Advance(s))
  {
    hide Spawn;
    SpawnWakes(s, s.ctl.k, s.ctl.t);
  }

  lemma DrainingAwake(s: State)
    requires CanProceed(s) && s.fault == NoFault && Awake(s) && s.ctl.Draining?
    ensures Awake(SpliceOut(s))
  {
    hide SpawnFromChain;
    RestartWakes(RewireOut(s), s.ctl.k - 1);
  }

  lemma NewCtlAwake(s: State, s': State)
    requires Awake(s) && s.fault == NoFault && s'.stubs == s.stubs
    requires forall i :: 0 <= i < |s.stubs| && Excused(s.ctl, |s.stubs|, i) ==> Excused(s'.ctl, |s.stubs|, i)
    requires s'.ctl.Shutting? ==> s'.ctl.shake.Collected?
    ensures Awake(s')
  {
    hide Leaving, Excused;
  }

  lemma ShuttingAwake(s: State)
    requires Phase(s) && CanProceed(s) && s.fault == NoFault && Awake(s) && s.ctl.Shutting?
    ensures Awake(ShutStep(s))
  {
    var k, s' := s.ctl.k, ShutStep(s);
    ShutStepIs(s);
    if s.ctl.stage == Join {
      hide Awake;
      NewCtlAwake(s, s');
    } else {
      CloseChanIs(s, s.stubs[k].output);
      assert s'.stubs[k].closed && s'.ctl.Shutting? && s'.ctl.shake == s.ctl.shake && s'.ctl.k == k;
      hide CloseChan, ShutStep, CanProceed, Phase, Leaving;
      forall i | 0 <= i < |s.stubs| && Leaving(s'.stubs[i].pc)
        ensures s'.stubs[i].closed
      {
        assert i == k || s.stubs[i].closed || Excused(s.ctl, |s.stubs|, i);
      }
    }
  }

  lemma FlushingAwake(s: State)
    requires CanProceed(s) && s.fault == NoFault && Awake(s) && (s.ctl.Removing? || s.ctl.Flushing?)
    ensures Awake(Advance(s))
  {
    hide Awake;
    NewCtlAwake(s, Advance(s));
  }

  lemma ExcusesSelf(c: Ctl, stubs: int)
    ensures ExcusesStill(c, c, stubs)
  {
  }

  lemma MoveKeepsAwake(s: State, m: Move)
    requires Core(s) && Can(s, m) && Awake(s)
    ensures Awake(Do(s, m))
  {
    hide Wiring, Phase, Shaking, Closure, Ends, Counts, Aligned, Awake, AllStayAwake, ExcusesStill, Do, Can;
    ExcusesSelf(s.ctl, |s.stubs|);
    match m {
      case Begin(op) => BeginsAwake(s, op);
      case Proceed => ProceedsAwake(s);
      case Deliver => ShakesStayAwake(s, m);
      case Answer => ShakesStayAwake(s, m);
      case Put(w) => SendKeepsAwake(s, m);
      case GiveUp(w) => SendKeepsAwake(s, m);
      case Take(r, draw) => TakeKeepsAwake(s, r, draw);
      case TakeEnd(ToController) => FlushEndsAwake(s);
      case Close(i) =>
        CloseStaysAwake(s, i);
        QuietStaysAwake(s, Do(s, m));
      case _ =>
        StubsStayAwake(s, m);
        QuietStaysAwake(s, Do(s, m));
    }
  }

  lemma SendKeepsAwake(s: State, m: Move)
    requires Can(s, m) && Awake(s) && (m.Put? || m.GiveUp?)
    ensures Awake(Do(s, m))
  {
    hide Awake, AllStayAwake, ExcusesStill, Resume, Send, CanSend;
    SendsStayAwake(s, m.w);
    PushStaysAwake(s, m.w);
    assert m.GiveUp? ==> AllStayAwake(s, Resume(s, m.w).(dropped := true)) by { DroppingStaysAwake(s, Resume(s, m.w)); }
    QuietStaysAwake(s, Do(s, m));
  }

  lemma TakeKeepsAwake(s: State, r: Receiver, draw: Slicer.Draws)
    requires Can(s, Take(r, draw)) && Awake(s)
    ensures Awake(Do(s, Take(r, draw)))
  {
    hide Awake, AllStayAwake, ExcusesStill, Receive, CanReceive;
    ReceivesStayAwake(s, r, draw);
    QuietStaysAwake(s, Do(s, Take(r, draw)));
  }

  lemma EventKeepsAwake(s: State, e: Event)
    requires Inv(s) && Enabled(s, e) && Awake(s)
    ensures Awake(Next(s, e))
  {
    hide Inv, Awake, Do, Can;
    match e {
      case One(m) =>
        InvIsCore(s);
        MoveKeepsAwake(s, m);
      case Handoff(w, r, draw) =>
        InvIsCore(s);
        MoveKeepsAwake(s, Put(w));
        MoveKeepsInv(s, Put(w));
        InvIsCore(Do(s, Put(w)));
        MoveKeepsAwake(Do(s, Put(w)), Take(r, draw));
    }
  }

  lemma InvIsCore(s: State)
    requires Inv(s)
    ensures Core(s)
  {
    hide Core;
  }

  lemma {:induction false} RunKeepsAwake(s: State, es: seq<Event>)
    requires Inv(s) && Legal(s, es) && Awake(s)
    ensures Awake(Outcome(s, es))
    decreases |es|
  {
    hide Inv, Awake, Enabled, Next;
    if es != [] {
      EventKeepsAwake(s, es[0]);
      EventKeepsInv(s, es[0]);
      RunKeepsAwake(Next(s, es[0]), es[1..]);
    }
  }

  // ----- a link at rest -----

  /** What others than the link's own goroutines and its operation do: new bytes, the end of the input, a new call. */
  predicate Outside(e: Event) {
    e.One? && (e.m.Offer? || e.m.CloseInput? || e.m.Begin?)
  }

  /** Nothing can happen on the link but for what comes from outside. */
  ghost predicate AtRest(s: State) {
    s.fault == NoFault && forall e :: Enabled(s, e) ==> Outside(e)
  }

  /** Only a bandwidth toxic waits for its charge, and flushes what it holds under a time-out. */
  predicate Fitting(b: Stub) {
    (b.pc.Metering? || (b.pc.Sending? && b.pc.timed)) ==> b.pipe.Bandwidth?
  }

  /** The other end of a channel waits for a chunk, or is closed. */
  ghost predicate Receptive(s: State, r: Receiver, c: nat) {
    && c < |s.chans| && s.chans[c].buf == []
    && (s.chans[c].closed || (CanReceive(s, r) && ReceiveChan(s, r) == c))
  }

  /** Sender and receiver are two. */
  predicate Apart(w: Sender, r: Receiver) {
    match w
    case Source => true
    case FromStub(i) => r != ToStub(i)
    case FromController => r != ToController
  }

  /** The sender's own step leaves the receiver where it is. */
  lemma ResumeLeavesReceiver(s: State, w: Sender, r: Receiver)
    requires CanSend(s, w) && Apart(w, r) && CanReceive(s, r)
    ensures var s1 := Resume(s, w);
      s1.chans == s.chans && s1.fault == s.fault && CanReceive(s1, r) && ReceiveChan(s1, r) == ReceiveChan(s, r)
  {
  }

  lemma PushLeavesReceiver(s: State, r: Receiver, c: nat, h: Chunk)
    requires CanReceive(s, r) && ReceiveChan(s, r) == c < |s.chans| && !s.chans[c].closed
    ensures var s1 := Push(s, c, h);
      s1.fault == s.fault && CanReceive(s1, r) && ReceiveChan(s1, r) == c && c < |s1.chans| && s1.chans[c].buf != []
  {
  }

  lemma StillReceives(s: State, w: Sender, r: Receiver)
    requires Can(s, Put(w)) && Apart(w, r) && CanReceive(s, r) && ReceiveChan(s, r) == SendChan(s, w)
    requires !s.chans[SendChan(s, w)].closed
    ensures var s' := Do(s, Put(w));
      && s'.fault == NoFault && CanReceive(s', r) && ReceiveChan(s', r) == SendChan(s, w) < |s'.chans|
      && s'.chans[SendChan(s, w)].buf != []
  {
    hide Resume, CanReceive, ReceiveChan, Push;
    ResumeLeavesReceiver(s, w, r);
    PushLeavesReceiver(Resume(s, w), r, SendChan(s, w), SendChunk(s, w));
  }

  /** A chunk for a channel whose other end waits can be sent at once. */
  lemma SendsAtOnce(s: State, w: Sender, r: Receiver)
    requires s.fault == NoFault && CanSend(s, w) && Apart(w, r) && Receptive(s, r, SendChan(s, w))
    ensures !AtRest(s)
  {
    hide Do, CanSend, CanReceive, SendChan, ReceiveChan;
    var c := SendChan(s, w);
    if s.chans[c].closed || s.chans[c].cap > 0 {
      assert Enabled(s, One(Put(w)));
    } else {
      StillReceives(s, w, r);
      var draw: Slicer.Draws := (x, y) => 0;
      assert Enabled(s, Handoff(w, r, draw));
    }
  }

  /** A stub that waits for others waits for a chunk, at a send, or for its next Run. */
  lemma StubAtRest(s: State, i: nat)
    requires AtRest(s) && i < |s.stubs| && Fitting(s.stubs[i])
    requires s.stubs[i].input < |s.chans| && s.stubs[i].output < |s.chans|
    ensures var b := s.stubs[i];
      && (b.pc.Ready? || b.pc.Idle? || (b.pc.Sending? && !b.pc.timed))
      && (b.pc.Ready? ==> s.chans[b.input].buf == [] && !s.chans[b.input].closed)
  {
    assert !Enabled(s, One(Start(i, true)));
    assert !Enabled(s, One(Tick(i)));
    assert !Enabled(s, One(Close(i)));
    assert !Enabled(s, One(GiveUp(FromStub(i))));
    var draw: Slicer.Draws := (x, y) => 0;
    assert !Enabled(s, One(Take(ToStub(i), draw)));
    assert !Enabled(s, One(TakeEnd(ToStub(i))));
  }

  /** Who reads the channel before stub i. */
  function ReaderOf(s: State, i: nat): Receiver {
    if i == s.reach then Sink else if i < |s.stubs| && s.stubs[i].pc.Ready? then ToStub(i) else ToController
  }

  /** A link at rest on which nothing was cut. */
  ghost predicate Resting(s: State) {
    AtRest(s) && Core(s) && Awake(s) && !s.cut && forall i :: 0 <= i < |s.stubs| ==> Fitting(s.stubs[i])
  }

  lemma SinkAtRest(s: State)
    requires AtRest(s) && Ends(s) && s.output < |s.chans|
    ensures Receptive(s, Sink, s.output) && (s.chans[s.output].closed ==> s.eof)
  {
    var draw: Slicer.Draws := (x, y) => 0;
    assert !Enabled(s, One(Take(Sink, draw)));
    assert !Enabled(s, One(TakeEnd(Sink)));
  }

  /** No interrupt that was taken waits for its answer, and no answer for the operation to go on. */
  lemma AnswersAtRest(s: State)
    requires AtRest(s) && Phase(s) && 0 <= Target(s) < |s.stubs| && ShakeOf(s.ctl).Some?
    requires s.stubs[Target(s)].pc.Idle? && Accepted(ShakeOf(s.ctl).value)
    ensures s.ctl.Shutting? || (s.ctl.Flushing? && s.ctl.hand.Some?)
  {
    assert !Enabled(s, One(Answer));
    assert !Enabled(s, One(Proceed));
  }

  /** The controller in the flush or drain loop holds nothing, and waits at an empty channel. */
  lemma HandAtRest(s: State)
    requires AtRest(s) && Wiring(s) && Phase(s) && (s.ctl.Flushing? || s.ctl.Draining?)
    requires Receptive(s, ReaderOf(s, s.ctl.k + 1), Node(s, s.ctl.k + 1))
    ensures s.ctl.Flushing? && Receptive(s, ToController, Node(s, s.ctl.k))
    ensures s.ctl.hand.None? && !s.chans[Node(s, s.ctl.k)].closed
  {
    var k := s.ctl.k;
    if s.ctl.hand.Some? {
      var r := ReaderOf(s, k + 1);
      SendsAtOnce(s, FromController, if r.ToController? then Sink else r);
    }
    var draw: Slicer.Draws := (x, y) => 0;
    assert !Enabled(s, One(Take(ToController, draw)));
    assert !Enabled(s, One(TakeEnd(ToController)));
    assert !Enabled(s, One(Proceed));
  }

  lemma ProceedAtRest(s: State)
    requires AtRest(s)
    ensures !CanProceed(s)
  {
    hide CanProceed;
    assert !Enabled(s, One(Proceed));
  }

  /** An open stub without a goroutine is the one that is being flushed. */
  lemma IdleAtRest(s: State, i: nat)
    requires AtRest(s) && Wiring(s) && Phase(s) && Closure(s) && Excused(s.ctl, |s.stubs|, i)
    requires i < s.reach && s.stubs[i].pc.Idle? && !s.stubs[i].closed
    requires Receptive(s, ReaderOf(s, i + 1), Node(s, i + 1))
    ensures Receptive(s, ToController, Node(s, i))
  {
    ProceedAtRest(s);
    hide AtRest;
    match s.ctl {
      case Flushing(k, _, _) =>
        if i == k { HandAtRest(s); } else { AnswersAtRest(s); }
      case Draining(k, _) =>
        if i == k { HandAtRest(s); }
      case Shutting(_, _, _) =>
      case Free =>
      case _ => AnswersAtRest(s);
    }
  }

  /** Where a stub that runs, or has closed, reads, there is nothing to be read. */
  lemma ReadyAtRest(s: State, i: nat)
    requires AtRest(s) && Wiring(s) && Ends(s) && !s.cut && i < s.reach <= |s.stubs|
    requires Fitting(s.stubs[i]) && Receptive(s, ReaderOf(s, i + 1), Node(s, i + 1))
    requires s.stubs[i].pc.Idle? ==> s.stubs[i].closed
    ensures Receptive(s, ReaderOf(s, i), Node(s, i))
  {
    StubAtRest(s, i);
    if s.stubs[i].pc.Sending? {
      SendsAtOnce(s, FromStub(i), ReaderOf(s, i + 1));
    }
    hide AtRest;
  }

  lemma NodeAtRest(s: State, i: nat)
    requires Resting(s) && i <= s.reach
    ensures i <= |s.stubs| && Receptive(s, ReaderOf(s, i), Node(s, i))
    decreases s.reach - i
  {
    hide Phase, Shaking, Closure, Ends, Counts, Aligned, Receptive, Fitting, Excused;
    if i == s.reach {
      SinkAtRest(s);
    } else {
      NodeAtRest(s, i + 1);
      hide Wiring;
      if s.stubs[i].pc.Idle? && !s.stubs[i].closed {
        IdleAtRest(s, i);
      } else {
        ReadyAtRest(s, i);
      }
    }
  }

  lemma SpareIsIdle(s: State, i: nat)
    requires Wiring(s) && Phase(s) && s.reach <= i < |s.stubs|
    ensures s.stubs[i].pc.Idle?
  {
  }

  /** Every stub waits for a chunk, or has no goroutine. */
  lemma StubsAreStill(s: State, i: nat)
    requires Resting(s) && i < |s.stubs|
    ensures s.stubs[i].pc.Ready? || s.stubs[i].pc.Idle?
  {
    hide Phase, Shaking, Closure, Ends, Counts, Aligned, Receptive, Excused;
    if i < s.reach {
      NodeAtRest(s, i + 1);
      hide Awake;
      StubAtRest(s, i);
      if s.stubs[i].pc.Sending? { SendsAtOnce(s, FromStub(i), ReaderOf(s, i + 1)); }
    } else {
      SpareIsIdle(s, i);
    }
  }

  lemma ShakeAtRest(s: State)
    requires AtRest(s) && Phase(s) && Shaking(s) && ShakeOf(s.ctl).Some? && 0 <= Target(s) < |s.stubs|
    requires s.stubs[Target(s)].pc.Ready? || s.stubs[Target(s)].pc.Idle?
    requires s.stubs[Target(s)].pc.Idle? && !s.stubs[Target(s)].closed ==> Excused(s.ctl, |s.stubs|, Target(s))
    ensures ShakeOf(s.ctl).value.Answered? || ShakeOf(s.ctl).value.Collected?
  {
    assert !Enabled(s, One(Deliver));
    assert !Enabled(s, One(Answer));
  }

  lemma FlushAtRest(s: State)
    requires Wiring(s) && Phase(s) && Shaking(s) && Closure(s) && s.ctl.Flushing? && s.ctl.shake.Collected?
    requires s.stubs[s.ctl.k - 1].pc.Ready? || s.stubs[s.ctl.k - 1].pc.Idle?
    ensures s.chans[Node(s, s.ctl.k)].closed
  {
  }

  lemma FlushIsNotAtRest(s: State)
    requires Resting(s)
    ensures !s.ctl.Flushing?
  {
    if s.ctl.Flushing? {
      var k := s.ctl.k;
      ProceedAtRest(s);
      NodeAtRest(s, k + 1);
      HandAtRest(s);
      StubsAreStill(s, k - 1);
      ShakeAtRest(s);
      FlushAtRest(s);
    }
  }

  /** No operation is being carried out. */
  lemma CtlAtRest(s: State)
    requires Resting(s)
    ensures s.ctl.Free?
  {
    if s.ctl.Flushing? {
      FlushIsNotAtRest(s);
    } else if !s.ctl.Free? {
      ProceedAtRest(s);
      if s.ctl.Draining? {
        NodeAtRest(s, s.ctl.k + 1);
        HandAtRest(s);
      } else {
        StubsAreStill(s, Target(s));
        ShakeAtRest(s);
      }
    }
  }

  /** An open stub on the way runs its Pipe. */
  lemma OpenAtRest(s: State, i: nat)
    requires Resting(s) && i < |s.stubs|
    ensures s.stubs[i].pc.Ready? <==> !s.stubs[i].closed
    ensures s.stubs[i].closed ==> s.stubs[i].pc.Idle?
  {
    CtlAtRest(s);
    StubsAreStill(s, i);
  }

  lemma SourceAtRest(s: State)
    requires Resting(s)
    ensures s.pending.None?
  {
    hide Phase, Shaking, Closure, Ends, Counts, Aligned, Receptive, Excused;
    NodeAtRest(s, 0);
    if s.pending.Some? { SendsAtOnce(s, Source, ReaderOf(s, 0)); }
  }

  lemma PartAtRest(s: State, i: nat)
    requires Resting(s) && i <= s.reach
    ensures i <= |s.stubs| && Part(s, i) == []
  {
    CtlAtRest(s);
    NodeAtRest(s, i);
    SourceAtRest(s);
    if i > 0 { StubsAreStill(s, i - 1); }
  }

  /** The end of the input has gone all the way. */
  lemma {:induction false} EndAtRest(s: State, i: nat)
    requires Resting(s) && i <= s.reach && s.inputClosed
    ensures i <= |s.stubs| && Ended(s, Node(s, i))
    ensures forall j :: 0 <= j < i ==> s.stubs[j].closed
  {
    NodeAtRest(s, i);
    if i > 0 {
      EndAtRest(s, i - 1);
      StubAtRest(s, i - 1);
      OpenAtRest(s, i - 1);
      CtlAtRest(s);
    }
  }

  lemma PartsAtRest(s: State)
    requires Resting(s)
    ensures 0 <= Live(s) && s.reach < |Parts(s)| && forall i :: 0 <= i <= s.reach ==> Parts(s)[i] == []
  {
    hide Part, AtRest, Awake, Phase, Shaking, Closure, Ends, Counts, Aligned;
    forall i | 0 <= i <= s.reach ensures i <= |s.stubs| && Part(s, i) == [] {
      PartAtRest(s, i);
    }
  }

  lemma RestHoldsNothing(s: State)
    requires Resting(s)
    ensures 0 <= Live(s) && Held(s) == []
  {
    hide Part, Parts, AtRest, Awake, Wiring, Phase, Shaking, Closure, Ends, Counts, Aligned;
    PartsAtRest(s);
    HeldEndsAtOutput(s);
    InOrderEmpty(Parts(s)[..s.reach + 1]);
  }

  lemma RestHasEnded(s: State)
    requires Resting(s)
    ensures s.reach <= |s.stubs| && s.eof == s.inputClosed
    ensures forall i :: 0 <= i < s.reach ==> if s.inputClosed then s.stubs[i].closed else s.stubs[i].pc.Ready?
  {
    NodeAtRest(s, 0);
    SinkAtRest(s);
    if s.inputClosed {
      EndAtRest(s, s.reach);
    } else {
      forall i | 0 <= i < s.reach ensures s.stubs[i].pc.Ready? {
        OpenAtRest(s, i);
        if s.stubs[i].closed { UpstreamEnded(s, i); }
      }
      if s.eof { UpstreamEnded(s, s.reach); }
    }
  }

  lemma RoundsFit(bs: seq<Stub>, rs: seq<LinkPipes.Round>)
    requires LinkPipes.AllInRound(bs, rs)
    ensures forall i :: 0 <= i < |bs| ==> Fitting(bs[i])
  {
    forall i | 0 <= i < |bs| ensures Fitting(bs[i]) {
      assert LinkPipes.InRound(bs[i], rs[i]);
    }
  }

  lemma InitialIsAwake(chain: seq<Toxic>)
    requires |chain| >= 1
    ensures Awake(Initial(chain))
  {
  }

  lemma RunRests(chain: seq<Toxic>, es: seq<Event>)
    requires |chain| >= 1 && Legal(Initial(chain), es)
    requires AtRest(Outcome(Initial(chain), es)) && !Outcome(Initial(chain), es).cut
    ensures Resting(Outcome(Initial(chain), es)) && Data(Outcome(Initial(chain), es))
  {
    hide Legal, Outcome, Initial, Core, Awake, AtRest, Fitting, Data, LinkPipes.RunRounds, LinkPipes.AllInRound;
    var s := Outcome(Initial(chain), es);
    RunInv(chain, es);
    InitialInv(chain);
    InitialIsAwake(chain);
    RunKeepsAwake(Initial(chain), es);
    LinkPipes.StubsKeepRounds(chain, es);
    RoundsFit(s.stubs, LinkPipes.RunRounds(Initial(chain), es, LinkPipes.NoRounds(|chain|)));
  }

  /** A link comes to rest only when it has finished. Where no goroutine and no operation can do anything more, and
      nothing was cut, whatever was added, updated and removed before: the operation has ended, every byte that was
      not dropped is delivered, the reader has seen the end if and only if the input was closed, and every stub on
      the way is closed then, and waits for a chunk otherwise. */
  lemma RestIsComplete(chain: seq<Toxic>, es: seq<Event>)
    requires |chain| >= 1 && Legal(Initial(chain), es)
    requires AtRest(Outcome(Initial(chain), es)) && !Outcome(Initial(chain), es).cut
    ensures var s := Outcome(Initial(chain), es);
      && s.ctl.Free? && s.pending.None? && 0 <= Live(s) && Held(s) == []
      && (!s.dropped ==> s.delivered == s.written) && s.eof == s.inputClosed && s.reach <= |s.stubs|
      && forall i :: 0 <= i < s.reach ==> if s.inputClosed then s.stubs[i].closed else s.stubs[i].pc.Ready?
  {
    hide Legal, Outcome, Initial, Resting, AtRest, Held, Subseq;
    var s := Outcome(Initial(chain), es);
    RunRests(chain, es);
    CtlAtRest(s);
    SourceAtRest(s);
    RestHoldsNothing(s);
    RestHasEnded(s);
    assert s.delivered + [] == s.delivered;
  }

  /** With toxics that pass every byte on and no time-outs, a link that can do nothing more has delivered every byte
      that was written, in order, and has passed the end on. */
  lemma LosslessLinkDelivers(chain: seq<Toxic>, es: seq<Event>)
    requires |chain| >= 1 && AllLossless(chain) && Legal(Initial(chain), es) && AllGentle(es)
    requires AtRest(Outcome(Initial(chain), es))
    ensures var s := Outcome(Initial(chain), es);
      s.delivered == s.written && s.eof == s.inputClosed && s.ctl.Free?
  {
    hide Legal, Outcome, Initial, AtRest, Held, AllLossless, AllGentle;
    CalmInitial(chain);
    CalmRun(Initial(chain), es);
    RestIsComplete(chain, es);
  }
}
