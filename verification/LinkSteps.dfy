/** Every move keeps everything in the invariant but the bytes.

    Most moves are steady: no stub is added, removed or rewired, and the controller stays in its phase.
    For those it is enough to say what happens to single stubs and channels. */
module LinkSteps {
  import opened Link
  import Slicer
  import opened LinkInvariant
  import opened Wrappers

  /** One stub across a steady move. */
  predicate SteadyStub(b: Stub, b': Stub) {
    && b'.input == b.input && b'.output == b.output && b'.toxic == b.toxic
    && (b.pc.Idle? ==> b' == b)
    && (b.closed ==> b'.closed)
    && (Leaving(b.pc) && !b.closed ==> Leaving(b'.pc) && !b'.closed)
    && (b.state.Some? ==> b'.state.Some?)
  }

  ghost predicate SteadyStubs(s: State, s': State) {
    && |s'.stubs| == |s.stubs|
    && (forall i :: 0 <= i < |s.stubs| ==> SteadyStub(s.stubs[i], s'.stubs[i]))
  }

  /** The phase stays; a handshake or the chunk in the controller's hand may move on. */
  predicate SamePhase(c: Ctl, c': Ctl) {
    match c
    case Free => c'.Free?
    case Adding(t, h) => c'.Adding? && c'.t == t && (h.Collected? <==> c'.shake.Collected?)
    case Updating(k, t, h) => c'.Updating? && c'.k == k && c'.t == t && (h.Collected? <==> c'.shake.Collected?)
    case Removing(k, t, h) => c'.Removing? && c'.k == k && c'.t == t && (h.Collected? <==> c'.shake.Collected?)
    case Flushing(k, _, _) => c'.Flushing? && c'.k == k
    case Draining(k, _) => c'.Draining? && c'.k == k
    case Shutting(k, stage, _) => c'.Shutting? && c'.k == k && c'.stage == stage
  }

  ghost predicate Steady(s: State, s': State) {
    && SteadyStubs(s, s') && SamePhase(s.ctl, s'.ctl)
    && |s'.chans| == |s.chans| && s'.chain == s.chain && s'.tidy == s.tidy
    && s'.input == s.input && s'.output == s.output && s'.reach == s.reach
    && (s'.fault == NoFault || (!s.tidy && (s'.fault == NoState || s'.fault == ChainIndex)))
    && (s.cut ==> s'.cut)
  }

  /** Channels that nobody writes stay as they are. */
  ghost predicate SteadyChans(s: State, s': State)
    requires Wiring(s) && Phase(s) && |s'.chans| == |s.chans|
  {
    && (forall i :: s.reach <= i < Live(s) ==> s'.chans[s.stubs[i].output] == s.chans[s.stubs[i].output])
    && (s.ctl.Adding? ==>
          s'.chans[s.stubs[|s.stubs| - 1].input] == s.chans[s.stubs[|s.stubs| - 1].input])
  }

  lemma SteadyWiring(s: State, s': State)
    requires Wiring(s) && Phase(s) && Steady(s, s') && SteadyChans(s, s')
    ensures Wiring(s')
  {
    forall i | s.reach <= i < Live(s) ensures Spare(s'.stubs[i], s'.chans, ShutBy(s'.ctl, i)) {
      assert Spare(s.stubs[i], s.chans, ShutBy(s.ctl, i));
    }
    SameWires(s, s');
  }

  /** Wiring depends on the stubs' channels, not on where their goroutines are. */
  lemma SameWires(s: State, s': State)
    requires Wiring(s) && Live(s') == Live(s) && |s'.stubs| == |s.stubs| && |s'.chans| == |s.chans|
    requires s'.input == s.input && s'.output == s.output && s'.reach == s.reach
    requires forall i :: 0 <= i < |s.stubs| ==>
      s'.stubs[i].input == s.stubs[i].input && s'.stubs[i].output == s.stubs[i].output &&
      (s.stubs[i].closed ==> s'.stubs[i].closed)
    requires forall i :: s.reach <= i < Live(s) ==> Spare(s'.stubs[i], s'.chans, ShutBy(s'.ctl, i))
    ensures Wiring(s')
  {
  }

  lemma SteadyPhase(s: State, s': State)
    requires Wiring(s) && Phase(s) && Steady(s, s') && SteadyChans(s, s')
    ensures Phase(s')
  {
  }

  lemma SteadyShaking(s: State, s': State)
    requires Wiring(s) && Phase(s) && Shaking(s) && Steady(s, s') && ShakeOf(s'.ctl) == ShakeOf(s.ctl)
    ensures Shaking(s')
  {
  }

  lemma SteadyCounts(s: State, s': State)
    requires Counts(s) && Steady(s, s')
    ensures Counts(s')
  {
  }

  lemma SteadyAligned(s: State, s': State)
    requires Aligned(s) && Steady(s, s') && (s.tidy ==> s'.fault == NoFault)
    ensures Aligned(s')
  {
  }

  /** Ended channels stay so, and a stub gets ready to close only when its input has ended. */
  ghost predicate EndsKept(s: State, s': State)
    requires |s'.stubs| == |s.stubs| && |s'.chans| == |s.chans|
  {
    && (forall c :: 0 <= c < |s.chans| && s.chans[c].closed && s.chans[c].buf == [] ==>
          s'.chans[c].closed && s'.chans[c].buf == [])
    && (!s'.cut ==> forall i :: 0 <= i < |s.stubs| ==>
          (Finishing(s'.stubs[i]) ==> Finishing(s.stubs[i]) || Ended(s, s.stubs[i].input)))
    && (s'.eof ==> s.eof || Ended(s, s.output))
  }

  lemma SteadyEnds(s: State, s': State)
    requires Wiring(s) && Ends(s) && Steady(s, s') && EndsKept(s, s')
    ensures Ends(s')
  {
  }

  /** No stub and no channel between stubs is closed by the move. */
  ghost predicate NothingCloses(s: State, s': State)
    requires |s'.stubs| == |s.stubs| && |s'.chans| == |s.chans|
  {
    && (forall c :: 0 <= c < |s.chans| ==> s'.chans[c].closed == s.chans[c].closed)
    && (forall i :: 0 <= i < |s.stubs| ==>
          && s'.stubs[i].closed == s.stubs[i].closed
          && (s'.stubs[i].pc.ClosingOutput? <==> s.stubs[i].pc.ClosingOutput?)
          && (s.stubs[i].closed && s.stubs[i].pc.Exiting? ==> s'.stubs[i].pc.Exiting? || s'.stubs[i].pc.Idle?))
    && s'.inputClosed == s.inputClosed && (s'.inputClosed ==> s'.pending.None?)
  }

  lemma SteadyClosure(s: State, s': State)
    requires Wiring(s) && Closure(s) && Steady(s, s') && NothingCloses(s, s')
    ensures Closure(s')
  {
    assert Live(s') == Live(s);
    assert forall i :: ShutBy(s'.ctl, i) ==> ShutBy(s.ctl, i) && s'.ctl.stage == s.ctl.stage;
    assert forall i :: ShutBy(s.ctl, i) ==> ShutBy(s'.ctl, i);
    hide SamePhase, Spare, Leaving, ShutBy;
  }

  lemma SteadyCore(s: State, s': State)
    requires Core(s) && Steady(s, s') && SteadyChans(s, s') && EndsKept(s, s')
    requires Closure(s') && Shaking(s') && (s.tidy ==> s'.fault == NoFault)
    ensures Core(s')
  {
    SteadyWiring(s, s');
    SteadyPhase(s, s');
    SteadyEnds(s, s');
    SteadyCounts(s, s');
    SteadyAligned(s, s');
  }

  lemma QuietCore(s: State, s': State)
    requires Core(s) && Steady(s, s') && SteadyChans(s, s') && EndsKept(s, s') && NothingCloses(s, s')
    requires ShakeOf(s'.ctl) == ShakeOf(s.ctl) && (s.tidy ==> s'.fault == NoFault)
    ensures Core(s')
  {
    SteadyShaking(s, s');
    SteadyClosure(s, s');
    SteadyCore(s, s');
  }

  // ----- stubs -----

  /** At most one channel changes, and only by a send to the own output or a receive from the own input. */
  predicate OwnChannel(s: State, s': State, i: nat)
    requires i < |s.stubs|
  {
    var b := s.stubs[i];
    && |s'.chans| == |s.chans|
    && (|| s'.chans == s.chans
        || (b.output < |s.chans| && !s.chans[b.output].closed && !s'.chans[b.output].closed &&
            s'.chans == s.chans[b.output := s'.chans[b.output]])
        || (b.input < |s.chans| && s.chans[b.input].buf != [] &&
            s'.chans[b.input].closed == s.chans[b.input].closed &&
            s'.chans == s.chans[b.input := s'.chans[b.input]]))
  }

  /** A step of the Pipe of stub i that does not close anything. */
  ghost predicate PipeStep(s: State, s': State, i: nat) {
    && i < |s.stubs| && i < |s'.stubs|
    && s' == s.(stubs := s.stubs[i := s'.stubs[i]], chans := s'.chans,
                dropped := s'.dropped, cut := s'.cut)
    && (s.cut ==> s'.cut)
    && var b, b' := s.stubs[i], s'.stubs[i];
    && !b.pc.Idle? && !b.pc.ClosingOutput? && !b.pc.Exiting? && !b'.pc.ClosingOutput? && !b'.pc.Idle?
    && SteadyStub(b, b') && b'.closed == b.closed
    && OwnChannel(s, s', i)
    && (Finishing(b') ==> s'.cut || Finishing(b) || Ended(s, b.input))
  }

  lemma PipeStepIsSteady(s: State, s': State, i: nat)
    requires Wiring(s) && Phase(s) && PipeStep(s, s', i) && s.fault == NoFault
    ensures Steady(s, s') && SteadyChans(s, s')
  {
    PipeStepIsOwn(s, s', i);
    hide Wiring, Phase;
  }

  /** Neither a channel of a stub that is not on the way nor that of an appended stub is next to stub i. */
  lemma PipeStepIsOwn(s: State, s': State, i: nat)
    requires Wiring(s) && Phase(s) && PipeStep(s, s', i)
    ensures SteadyChans(s, s')
  {
    hide SteadyStub;
  }

  lemma PipeStepKeepsEnds(s: State, s': State, i: nat)
    requires Wiring(s) && PipeStep(s, s', i) && (s.stubs[i].closed ==> s'.chans == s.chans)
    ensures |s'.chans| == |s.chans| && EndsKept(s, s')
  {
  }

  lemma PipeStepClosesNothing(s: State, s': State, i: nat)
    requires Wiring(s) && Closure(s) && PipeStep(s, s', i)
    ensures |s'.chans| == |s.chans| && NothingCloses(s, s')
  {
  }

  lemma PipeStepKeeps(s: State, s': State, i: nat)
    requires Core(s) && s.fault == NoFault && PipeStep(s, s', i)
    ensures Core(s')
  {
    PipeStepIsSteady(s, s', i);
    PipeStepKeepsEnds(s, s', i);
    PipeStepClosesNothing(s, s', i);
    QuietCore(s, s');
  }

  lemma PipeSends(s: State, i: nat)
    requires CanSend(s, FromStub(i)) && !s.stubs[i].closed && !s.chans[s.stubs[i].output].closed
    ensures PipeStep(s, Send(s, FromStub(i)), i)
  {
  }

  lemma PipeGivesUp(s: State, i: nat)
    requires CanSend(s, FromStub(i)) && !s.stubs[i].closed
    ensures PipeStep(s, Resume(s, FromStub(i)).(dropped := true), i)
  {
  }

  lemma PipeReceives(s: State, j: nat, draw: Slicer.Draws)
    requires CanReceive(s, ToStub(j)) && s.chans[s.stubs[j].input].buf != [] && !s.stubs[j].closed
    ensures PipeStep(s, Receive(s, ToStub(j), draw), j)
  {
  }

  lemma PipeTicks(s: State, i: nat)
    requires i < |s.stubs| && CanTick(s.stubs[i]) && !s.stubs[i].closed
    requires s.stubs[i].pc.Lingering? ==> s.cut || Ended(s, s.stubs[i].input)
    ensures PipeStep(s, Timer(s, i), i)
  {
  }

  lemma PipeRuns(s: State, i: nat, chosen: bool)
    requires i < |s.stubs| && s.stubs[i].pc.Spawned? && !s.stubs[i].closed
    ensures var s' := Run(s, i, chosen);
      PipeStep(s, s', i) || (s' == s.(fault := NoState) && s.stubs[i].toxic.LimitData? && s.stubs[i].state.None?)
  {
  }

  lemma StubSendKeeps(s: State, m: Move)
    requires Core(s) && Can(s, m) && (m.Put? || m.GiveUp?) && m.w.FromStub?
    ensures Core(Do(s, m))
  {
    RunningIsOpen(s, m.w.i);
    if m.Put? {
      PipeSends(s, m.w.i);
      PipeStepKeeps(s, Send(s, m.w), m.w.i);
    } else {
      PipeGivesUp(s, m.w.i);
      PipeStepKeeps(s, Resume(s, m.w).(dropped := true), m.w.i);
    }
  }

  lemma StubReceiveKeeps(s: State, m: Move)
    requires Core(s) && Can(s, m) && (m.Take? || m.TakeEnd?) && m.r.ToStub?
    ensures Core(Do(s, m))
  {
    hide Aligned, Counts;
    RunningIsOpen(s, m.r.j);
    if m.Take? {
      PipeReceives(s, m.r.j, m.draw);
      PipeStepKeeps(s, Receive(s, m.r, m.draw), m.r.j);
    } else {
      PipeStepKeeps(s, ReceiveEnd(s, m.r), m.r.j);
    }
  }

  lemma TickKeeps(s: State, i: nat)
    requires Core(s) && Can(s, Tick(i))
    ensures Core(Do(s, Tick(i)))
  {
    RunningIsOpen(s, i);
    PipeTicks(s, i);
    PipeStepKeeps(s, Timer(s, i), i);
  }

  lemma FaultIsQuiet(s: State, s': State)
    requires Wiring(s) && Phase(s) && Closure(s) && !s.tidy && s' == s.(fault := NoState)
    ensures Steady(s, s') && SteadyChans(s, s') && EndsKept(s, s') && NothingCloses(s, s')
  {
    hide Spare, Appended, Parked;
  }

  lemma StatelessKeeps(s: State)
    requires Core(s) && !s.tidy
    ensures Core(s.(fault := NoState))
  {
    hide Wiring, Phase, Closure, Shaking, Ends, Counts, Aligned, Steady, SteadyChans, EndsKept, NothingCloses;
    FaultIsQuiet(s, s.(fault := NoState));
    QuietCore(s, s.(fault := NoState));
  }

  lemma StartKeeps(s: State, i: nat, chosen: bool)
    requires Core(s) && Can(s, Start(i, chosen))
    ensures Core(Do(s, Start(i, chosen)))
  {
    hide Core, Run, PipeStep;
    RunningIsOpen(s, i);
    PipeRuns(s, i, chosen);
    if PipeStep(s, Run(s, i, chosen), i) {
      PipeStepKeeps(s, Run(s, i, chosen), i);
    } else {
      StatelessKeeps(s);
    }
  }

  /** A stub whose Pipe is at work is open, and so is its output; a lingering one has seen its input end. */
  lemma RunningIsOpen(s: State, i: nat)
    requires Core(s) && i < |s.stubs|
    requires !s.stubs[i].pc.Idle? && !s.stubs[i].pc.ClosingOutput? && !s.stubs[i].pc.Exiting?
    ensures i < s.reach && i < Live(s)
    ensures !s.stubs[i].closed && s.stubs[i].output < |s.chans| && !s.chans[s.stubs[i].output].closed
    ensures s.stubs[i].pc.Lingering? || s.stubs[i].pc.Closing? ==> s.cut || Ended(s, s.stubs[i].input)
    ensures s.tidy && s.stubs[i].toxic.LimitData? ==> s.stubs[i].state.Some?
  {
  }

  // ----- closing a stub -----

  lemma CloseChanIs(s: State, c: nat)
    requires c < |s.chans|
    ensures var s' := CloseChan(s, c);
      && s' == s.(chans := s'.chans, fault := s'.fault) && (s'.fault == s.fault || s'.fault == DoubleClose)
      && (s'.chans == s.chans || s'.chans == s.chans[c := s.chans[c].(closed := true)])
  {
  }

  lemma OutputStep(s: State, i: nat)
    requires i < |s.stubs| && s.stubs[i].output < |s.chans| && s.stubs[i].pc.ClosingOutput?
    ensures var s' := CloseStep(s, i);
      s' == s.(stubs := s.stubs[i := s.stubs[i].(pc := Exiting)], chans := s'.chans, fault := s'.fault)
  {
    CloseChanIs(s, s.stubs[i].output);
    hide CloseChan;
  }

  lemma StubStep(s: State, i: nat)
    requires i < |s.stubs| && s.stubs[i].output < |s.chans| && !s.stubs[i].pc.ClosingOutput?
    ensures exists b' :: Closes(s.stubs[i], b') && CloseStep(s, i) == s.(stubs := s.stubs[i := b'])
  {
    hide CloseChan;
    var b := s.stubs[i];
    if b.pc.Closing? {
      assert Closes(b, if b.closed then b.(pc := Exiting) else b.(closed := true, pc := ClosingOutput));
    } else {
      assert Closes(b, b.(pc := Idle));
    }
  }

  /** The steps of a Close move stub i and at most close its output. */
  lemma CloseStepIs(s: State, i: nat)
    requires i < |s.stubs| && s.stubs[i].output < |s.chans|
    ensures var b, s' := s.stubs[i], CloseStep(s, i);
      exists b' :: Closes(b, b') && s' == s.(stubs := s.stubs[i := b'], chans := s'.chans, fault := s'.fault)
  {
    if s.stubs[i].pc.ClosingOutput? {
      OutputStep(s, i);
      assert Closes(s.stubs[i], s.stubs[i].(pc := Exiting));
    } else {
      StubStep(s, i);
    }
    hide CloseStep;
  }

  /** The controller's steps of a Close move its stub and at most close its output. */
  lemma ShutStepIs(s: State)
    requires s.ctl.Shutting? && s.ctl.k < |s.stubs| && s.stubs[s.ctl.k].output < |s.chans|
    ensures var s', k := ShutStep(s), s.ctl.k;
      && s' == s.(stubs := s'.stubs, chans := s'.chans, ctl := s'.ctl, fault := s'.fault)
      && (s'.stubs == s.stubs || s'.stubs == s.stubs[k := s.stubs[k].(closed := true)])
      && (s'.fault == s.fault || s'.fault == DoubleClose)
      && if s.ctl.stage == Join then s'.ctl.Free? else s'.ctl.Shutting? && s'.ctl.k == k
  {
    if s.ctl.stage == CloseOutput {
      CloseChanIs(s, s.stubs[s.ctl.k].output);
      hide CloseChan;
    } else {
      hide CloseChan;
    }
  }

  predicate Closes(b: Stub, b': Stub) {
    && b' == b.(closed := b'.closed, pc := b'.pc) && (b.closed ==> b'.closed)
    && (b'.pc.ClosingOutput? || b'.pc.Exiting? || b'.pc.Idle?) && (b.pc.Closing? ==> b'.closed)
  }

  lemma ClosingKeeps(s: State, i: nat)
    requires Core(s) && s.fault == NoFault && i < |s.stubs| && s.stubs[i].pc.Closing?
    ensures s.stubs[i].output < |s.chans| && Core(CloseStep(s, i))
  {
    RunningIsOpen(s, i);
    var s' := CloseStep(s, i);
    StubCloses(s, s', i);
  }

  /** Stub i closes `closed`: its output is still open. */
  lemma StubCloses(s: State, s': State, i: nat)
    requires Core(s) && s.fault == NoFault && i < s.reach && i < Live(s) && s.stubs[i].pc.Closing?
    requires s' == s.(stubs := s.stubs[i := s.stubs[i].(closed := true, pc := ClosingOutput)])
    ensures Core(s')
  {
    hide Wiring, Phase, Closure, Shaking, Ends, Counts, Aligned, Steady, SteadyChans, EndsKept;
    StubClosesSteadily(s, s', i);
    SteadyShaking(s, s');
    StubClosesClosure(s, s', i);
    SteadyCore(s, s');
  }

  lemma StubClosesSteadily(s: State, s': State, i: nat)
    requires Wiring(s) && Phase(s) && s.fault == NoFault && i < |s.stubs| && s.stubs[i].pc.Closing?
    requires s' == s.(stubs := s.stubs[i := s.stubs[i].(closed := true, pc := ClosingOutput)])
    ensures Steady(s, s') && SteadyChans(s, s') && EndsKept(s, s')
  {
  }

  lemma StubClosesClosure(s: State, s': State, i: nat)
    requires Wiring(s) && Closure(s) && i < Live(s) && s.stubs[i].pc.Closing?
    requires s' == s.(stubs := s.stubs[i := s.stubs[i].(closed := true, pc := ClosingOutput)])
    ensures Closure(s')
  {
  }

  /** Closing the output of stub i, whose closed flag is set: the channel is open until then. */
  lemma OutputCloses(s: State, s': State, i: nat)
    requires Core(s) && s.fault == NoFault && i < s.reach && s.stubs[i].pc.ClosingOutput?
    requires s' == s.(stubs := s.stubs[i := s.stubs[i].(pc := Exiting)],
                      chans := s.chans[s.stubs[i].output := s.chans[s.stubs[i].output].(closed := true)])
    ensures !s.chans[s.stubs[i].output].closed && Core(s')
  {
    OutputClosesSteadily(s, s', i);
    SteadyShaking(s, s');
    OutputClosesClosure(s, s', i);
    SteadyCore(s, s');
  }

  lemma OutputClosesSteadily(s: State, s': State, i: nat)
    requires Wiring(s) && Phase(s) && s.fault == NoFault && i < s.reach
    requires s.stubs[i].pc.ClosingOutput? && s.stubs[i].closed
    requires s' == s.(stubs := s.stubs[i := s.stubs[i].(pc := Exiting)],
                      chans := s.chans[s.stubs[i].output := s.chans[s.stubs[i].output].(closed := true)])
    ensures Steady(s, s') && SteadyChans(s, s') && EndsKept(s, s')
  {
  }

  lemma OutputClosesClosure(s: State, s': State, i: nat)
    requires Wiring(s) && Closure(s) && Phase(s) && i < s.reach && s.stubs[i].pc.ClosingOutput?
    requires s' == s.(stubs := s.stubs[i := s.stubs[i].(pc := Exiting)],
                      chans := s.chans[s.stubs[i].output := s.chans[s.stubs[i].output].(closed := true)])
    ensures Closure(s')
  {
  }

  lemma ReturnKeeps(s: State, s': State, i: nat)
    requires Core(s) && s.fault == NoFault && i < |s.stubs| && s.stubs[i].pc.Exiting?
    requires s' == s.(stubs := s.stubs[i := s.stubs[i].(pc := Idle)])
    ensures Core(s')
  {
    hide Wiring, Phase, Aligned, Counts;
    QuietCore(s, s');
  }

  lemma ClosesOnPath(s: State, i: nat)
    requires Wiring(s) && Phase(s) && Closure(s) && i < |s.stubs| && s.stubs[i].pc.ClosingOutput?
    ensures i < s.reach && s.stubs[i].output < |s.chans| && !s.chans[s.stubs[i].output].closed
  {
  }

  lemma CloseKeeps(s: State, i: nat)
    requires Core(s) && Can(s, Close(i))
    ensures Core(Do(s, Close(i)))
  {
    hide Wiring, Phase, Closure, Shaking, Ends, Counts, Aligned;
    if s.stubs[i].pc.Closing? {
      ClosingKeeps(s, i);
    } else if s.stubs[i].pc.ClosingOutput? {
      ClosesOnPath(s, i);
      OutputCloses(s, CloseStep(s, i), i);
    } else {
      ReturnKeeps(s, CloseStep(s, i), i);
    }
  }

  // ----- the handshake -----

  lemma ShakeIsSteady(s: State, s': State, h: Shake)
    requires Wiring(s) && Phase(s) && Closure(s) && s.fault == NoFault && s' == s.(ctl := SetShake(s.ctl, h))
    requires ShakeOf(s.ctl).Some? && !h.Collected? && !ShakeOf(s.ctl).value.Collected?
    ensures Steady(s, s') && SteadyChans(s, s') && EndsKept(s, s') && NothingCloses(s, s')
  {
    hide Spare, Appended;
  }

  lemma ShakeKeeps(s: State, h: Shake)
    requires Core(s) && s.fault == NoFault && ShakeOf(s.ctl).Some? && !h.Collected? && !ShakeOf(s.ctl).value.Collected?
    requires Shaking(s.(ctl := SetShake(s.ctl, h)))
    ensures Core(s.(ctl := SetShake(s.ctl, h)))
  {
    hide Wiring, Phase, Closure, Shaking, Ends, Counts, Aligned, ShakeOf, SetShake, Steady, SteadyChans, EndsKept,
      NothingCloses;
    var s' := s.(ctl := SetShake(s.ctl, h));
    ShakeIsSteady(s, s', h);
    SteadyClosure(s, s');
    SteadyCore(s, s');
  }

  lemma PipeTakes(s: State, s': State, i: nat)
    requires Core(s) && s.fault == NoFault && i < |s.stubs| && Interruptible(s.stubs[i].pc)
    requires s' == SetPc(s, i, Interrupted(s.stubs[i].pc))
    ensures Core(s') && i < |s'.stubs| && Leaving(s'.stubs[i].pc) && !s'.stubs[i].closed
  {
    RunningIsOpen(s, i);
    PipeStepKeeps(s, s', i);
  }

  lemma ShakeSet(s: State, h: Shake)
    requires ShakeOf(s.ctl).Some?
    ensures ShakeOf(SetShake(s.ctl, h)) == Some(h) && Target(s.(ctl := SetShake(s.ctl, h))) == Target(s)
  {
  }

  lemma TakenKeeps(s: State, s': State)
    requires Core(s) && s.fault == NoFault && ShakeOf(s.ctl) == Some(Offered) && 0 <= Target(s) < |s.stubs|
    requires Leaving(s.stubs[Target(s)].pc) && !s.stubs[Target(s)].closed
    requires s' == s.(ctl := SetShake(s.ctl, Taken))
    ensures Core(s')
  {
    hide Core, ShakeOf, SetShake, Target, Leaving;
    ShakeSet(s, Taken);
    ShakeKeeps(s, Taken);
  }

  lemma DeliverKeeps(s: State)
    requires Core(s) && Can(s, Deliver)
    ensures Core(Do(s, Deliver))
  {
    var i := Target(s);
    var s1 := SetPc(s, i, Interrupted(s.stubs[i].pc));
    PipeTakes(s, s1, i);
    TakenKeeps(s1, TakeInterrupt(s));
  }

  lemma AnswerKeeps(s: State)
    requires Core(s) && Can(s, Answer)
    ensures Core(Do(s, Answer))
  {
    hide Wiring, Closure, Ends, Counts, Aligned;
    ShakeKeeps(s, Answered(ShakeOf(s.ctl).value == Taken));
  }

  // ----- the reader, the writer and the flushing controller -----

  /** The channel is on the way from link.input to link.output. */
  ghost predicate OnPath(s: State, c: nat) {
    c == s.input || exists i :: 0 <= i < s.reach <= |s.stubs| && s.stubs[i].output == c
  }

  /** No stub moves; at most channel c changes, by a send or a receive. */
  ghost predicate OuterStep(s: State, s': State, c: nat) {
    && s' == s.(chans := s'.chans, ctl := s'.ctl, pending := s'.pending, written := s'.written,
                delivered := s'.delivered, eof := s'.eof, dropped := s'.dropped)
    && SamePhase(s.ctl, s'.ctl) && ShakeOf(s'.ctl) == ShakeOf(s.ctl)
    && |s'.chans| == |s.chans| && c < |s.chans|
    && (s'.chans != s.chans ==>
        && OnPath(s, c)
        && s'.chans == s.chans[c := s'.chans[c]] && s'.chans[c].closed == s.chans[c].closed
        && !(s.chans[c].closed && s.chans[c].buf == []))
    && (s.inputClosed ==> s'.pending.None?)
    && (s'.eof ==> s.eof || Ended(s, s.output))
  }

  lemma OuterStepIsSteady(s: State, s': State, c: nat)
    requires Wiring(s) && Phase(s) && OuterStep(s, s', c) && s.fault == NoFault
    ensures Steady(s, s') && SteadyChans(s, s')
  {
  }

  lemma OuterStepKeeps(s: State, s': State, c: nat)
    requires Core(s) && s.fault == NoFault && OuterStep(s, s', c)
    ensures Core(s')
  {
    OuterStepIsSteady(s, s', c);
    OuterStepCloses(s, s', c);
    QuietCore(s, s');
  }

  lemma OuterStepCloses(s: State, s': State, c: nat)
    requires Wiring(s) && Closure(s) && OuterStep(s, s', c)
    ensures EndsKept(s, s') && NothingCloses(s, s')
  {
  }

  lemma SourceKeeps(s: State, m: Move)
    requires Core(s) && Can(s, m) && (m.Offer? || (m.Put? && m.w.Source?))
    ensures Core(Do(s, m))
  {
    OuterStepKeeps(s, Do(s, m), s.input);
  }

  lemma SinkKeeps(s: State, m: Move)
    requires Core(s) && Can(s, m) && (m.Take? || m.TakeEnd?) && m.r.Sink?
    ensures Core(Do(s, m))
  {
    hide Counts, Aligned, Phase;
    assert s.stubs[s.reach - 1].output == s.output;
    OuterStepKeeps(s, Do(s, m), s.output);
  }

  /** While the controller flushes or drains stub k, the stub is parked on the way to the output. */
  lemma FlushedIsOpen(s: State)
    requires Wiring(s) && Phase(s) && Closure(s) && (s.ctl.Flushing? || s.ctl.Draining?)
    ensures var k := s.ctl.k;
      && 1 <= k < |s.stubs| && OnPath(s, s.stubs[k].input) && OnPath(s, s.stubs[k].output)
      && s.stubs[k].output < |s.chans| && !s.chans[s.stubs[k].output].closed
      && (s.inputClosed ==> s.pending.None?)
  {
    assert s.stubs[s.ctl.k].input == s.stubs[s.ctl.k - 1].output;
  }

  lemma ControllerSendIsOuter(s: State, s': State, c: nat)
    requires CanSend(s, FromController) && c == s.stubs[s.ctl.k].output && OnPath(s, c) && !s.chans[c].closed
    requires s.inputClosed ==> s.pending.None?
    requires s' == Send(s, FromController) || s' == Resume(s, FromController).(dropped := true)
    ensures OuterStep(s, s', c)
  {
    hide OnPath, Ended;
  }

  lemma ControllerSendKeeps(s: State, m: Move)
    requires Core(s) && Can(s, m) && (m.Put? || m.GiveUp?) && m.w.FromController?
    ensures Core(Do(s, m))
  {
    hide Wiring, Phase, Closure, Shaking, Ends, Counts, Aligned, Send, Resume, OuterStep, OnPath;
    FlushedIsOpen(s);
    ControllerSendIsOuter(s, Do(s, m), s.stubs[s.ctl.k].output);
    OuterStepKeeps(s, Do(s, m), s.stubs[s.ctl.k].output);
  }

  lemma ControllerTakeIsOuter(s: State, draw: Slicer.Draws, c: nat)
    requires CanReceive(s, ToController) && c == s.stubs[s.ctl.k].input && OnPath(s, c) && s.chans[c].buf != []
    requires s.inputClosed ==> s.pending.None?
    ensures OuterStep(s, Receive(s, ToController, draw), c)
  {
    hide OnPath, Ended;
  }

  lemma ControllerTakeKeeps(s: State, m: Move)
    requires Core(s) && Can(s, m) && m.Take? && m.r.ToController?
    ensures Core(Do(s, m))
  {
    hide Wiring, Phase, Closure, Shaking, Ends, Counts, Aligned, Receive, OuterStep, OnPath;
    FlushedIsOpen(s);
    ControllerTakeIsOuter(s, m.draw, s.stubs[s.ctl.k].input);
    OuterStepKeeps(s, Do(s, m), s.stubs[s.ctl.k].input);
  }

  lemma CloseInputKeeps(s: State)
    requires Core(s) && Can(s, CloseInput)
    ensures Core(Do(s, CloseInput))
  {
    InputCloses(s, s.(chans := s.chans[s.input := s.chans[s.input].(closed := true)], inputClosed := true));
  }

  lemma InputCloses(s: State, s': State)
    requires Core(s) && s.fault == NoFault && s.pending.None? && !s.inputClosed
    requires s' == s.(chans := s.chans[s.input := s.chans[s.input].(closed := true)], inputClosed := true)
    ensures Core(s')
  {
    InputClosesSteadily(s, s');
    InputClosesClosure(s, s');
    SteadyShaking(s, s');
    SteadyCore(s, s');
  }

  lemma InputClosesSteadily(s: State, s': State)
    requires Wiring(s) && Phase(s) && s.fault == NoFault
    requires s' == s.(chans := s.chans[s.input := s.chans[s.input].(closed := true)], inputClosed := true)
    ensures Steady(s, s') && SteadyChans(s, s') && EndsKept(s, s')
  {
  }

  lemma InputClosesClosure(s: State, s': State)
    requires Wiring(s) && Closure(s) && s.pending.None?
    requires s' == s.(chans := s.chans[s.input := s.chans[s.input].(closed := true)], inputClosed := true)
    ensures Closure(s')
  {
  }
}
