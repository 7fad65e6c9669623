/** Where the goroutines of a link panic: AddToxic indexes beyond the chain, or limit_data is started on a stub
    without the state for it. Both need a stub that a removal has left behind. */
module LinkPanic {
  import opened Bytes
  import opened Link
  import opened LinkData
  import opened LinkInvariant
  import opened LinkRestarts
  import opened LinkSteps
  import opened LinkTheorems
  import Slicer
  import opened Wrappers

  /** The move panics by an index beyond the chain if and only if it is the step of AddToxic that restarts the
      last stub, on a link where at least two stubs were left behind; and by a missing state if and only if it is
      the step of Run that chooses limit_data on a stub without it. */
  predicate PanicsAsSaid(s: State, m: Move)
    requires Can(s, m)
  {
    && (Do(s, m).fault == ChainIndex <==> m.Proceed? && s.ctl.Adding? && s.ctl.shake.ok && Surplus(s) >= 2)
    && (Do(s, m).fault == NoState <==> m.Start? && m.chosen && Stateless(s.stubs[m.i]))
  }

  /** In every run these are the panics. `CallDecidesRestart` says when the call of an operation decides on the
      first, and when on a stub that will meet the second. */
  lemma PanicsOf(chain: seq<Toxic>, es: seq<Event>)
    requires |chain| >= 1 && Legal(Initial(chain), es)
    ensures var s := Outcome(Initial(chain), es);
      forall m :: Can(s, m) ==> PanicsAsSaid(s, m)
  {
    hide Legal, Outcome, Initial, Can, PanicsAsSaid, Wiring, Phase, Shaking, Closure, Ends, Aligned, Data;
    RunInv(chain, es);
    var s := Outcome(Initial(chain), es);
    forall m | Can(s, m)
      ensures PanicsAsSaid(s, m)
    {
      hide *;
      MoveFaults(s, m);
    }
  }

  predicate Benign(f: Fault) {
    f != ChainIndex && f != NoState
  }

  lemma SpawnFault(s: State, k: nat, t: Toxic)
    requires k < |s.stubs| && Benign(s.fault)
    ensures var s' := Spawn(s, k, t); Benign(s'.fault) && s'.chain == s.chain && |s'.stubs| == |s.stubs|
  {
  }

  lemma SpawnFromChainFault(s: State, k: nat)
    requires k < |s.stubs| && Benign(s.fault)
    ensures SpawnFromChain(s, k).fault == ChainIndex <==> k >= |s.chain|
    ensures SpawnFromChain(s, k).fault != NoState
  {
    hide Spawn;
    if k < |s.chain| {
      SpawnFault(s, k, s.chain[k]);
    }
  }

  lemma SpliceFault(s: State)
    requires s.fault == NoFault && (s.ctl.Adding? || s.ctl.Draining?) && CanProceed(s)
    ensures s.ctl.Adding? ==> (SpliceIn(s).fault == ChainIndex <==> Surplus(s) >= 2) && SpliceIn(s).fault != NoState
    ensures s.ctl.Draining? ==>
      (SpliceOut(s).fault == ChainIndex <==> s.ctl.k > |s.chain|) && SpliceOut(s).fault != NoState
  {
    hide Spawn, SpawnFromChain;
    if s.ctl.Adding? {
      var s1, n := RewireIn(s), |s.stubs| - 1;
      SpawnFault(s1, n, s.ctl.t);
      SpawnFromChainFault(Spawn(s1, n, s.ctl.t), n - 1);
    } else {
      SpawnFromChainFault(RewireOut(s), s.ctl.k - 1);
    }
  }

  lemma AdvanceFault(s: State)
    requires Can(s, Proceed) && (s.ctl.Draining? ==> s.ctl.k <= |s.chain|)
    ensures Advance(s).fault == ChainIndex <==> s.ctl.Adding? && s.ctl.shake.ok && Surplus(s) >= 2
    ensures Advance(s).fault != NoState
  {
    hide SpliceIn, SpliceOut, Spawn, SetAside, ShutStep;
    if s.ctl.Adding? {
      SpliceFault(s);
      SetAsideFault(s);
    } else if s.ctl.Draining? {
      SpliceFault(s);
    } else if s.ctl.Updating? {
      SpawnFault(s, s.ctl.k, s.ctl.t);
    } else if s.ctl.Shutting? {
      ShutStepIs(s);
    } else {
      assert Advance(s).fault == s.fault;
    }
  }

  lemma SetAsideFault(s: State)
    requires s.ctl.Adding? && |s.stubs| >= 2
    ensures SetAside(s).fault == s.fault
  {
  }

  lemma PushFault(s: State, ch: nat, c: Chunk)
    requires ch < |s.chans| && s.fault == NoFault
    ensures Benign(Push(s, ch, c).fault)
  {
  }

  lemma SendFault(s: State, w: Sender)
    requires CanSend(s, w) && s.fault == NoFault
    ensures Resume(s, w).fault == NoFault && Benign(Send(s, w).fault)
  {
    hide AfterSend, Push, Benign;
    var s1 := Resume(s, w);
    assert s1.fault == NoFault && s1.chans == s.chans;
    PushFault(s1, SendChan(s, w), SendChunk(s, w));
    hide Resume;
  }

  lemma ReceiveFault(s: State, r: Receiver, draw: Slicer.Draws)
    requires CanReceive(s, r) && s.fault == NoFault
    ensures s.chans[ReceiveChan(s, r)].buf != [] ==> Receive(s, r, draw).fault == NoFault
    ensures (r.ToController? ==> s.ctl.Flushing?) ==> ReceiveEnd(s, r).fault == NoFault
  {
    hide AfterReceive, AfterEnd, Discards;
  }

  lemma BeginFault(s: State, op: Op)
    requires CanBegin(s, op) && s.fault == NoFault
    ensures Benign(BeginOp(s, op).fault)
  {
    hide AllOpen;
  }

  lemma RunFault(s: State, i: nat, chosen: bool)
    requires i < |s.stubs| && s.stubs[i].pc.Spawned? && s.fault == NoFault
    ensures Run(s, i, chosen).fault == if chosen && Stateless(s.stubs[i]) then NoState else NoFault
  {
  }

  lemma QuietFault(s: State, m: Move)
    requires Can(s, m) && (m.Offer? || m.CloseInput? || m.Close? || m.Tick? || m.Deliver? || m.Answer?)
    ensures Benign(Do(s, m).fault)
  {
    hide AfterTimer, Interrupted, CanTick, CanAnswer, CloseChan;
    if m.CloseInput? {
      CloseChanIs(s, s.input);
    } else if m.Close? {
      CloseChanIs(s, s.stubs[m.i].output);
    }
  }

  lemma OtherFaults(s: State, m: Move)
    requires Can(s, m) && !m.Proceed? && !m.Start?
    ensures Benign(Do(s, m).fault)
  {
    hide Timer, CanTick, CanAnswer, Send, Resume, Receive, ReceiveEnd, CloseStep, TakeInterrupt, CloseChan, BeginOp,
      CanBegin, CanSend, CanReceive, SetShake, ShakeOf;
    if m.Put? || m.GiveUp? {
      SendFault(s, m.w);
    } else if m.Take? {
      ReceiveFault(s, m.r, m.draw);
    } else if m.TakeEnd? {
      ReceiveFault(s, m.r, (a, b) => a);
    } else if m.Begin? {
      BeginFault(s, m.op);
    } else {
      QuietFault(s, m);
    }
  }

  lemma MoveFaults(s: State, m: Move)
    requires Can(s, m) && Counts(s)
    ensures PanicsAsSaid(s, m)
  {
    hide Advance, Stateless, Surplus, Run;
    if m.Proceed? {
      AdvanceFault(s);
    } else if m.Start? {
      RunFault(s, m.i, m.chosen);
    } else {
      OtherFaults(s, m);
    }
  }

  // ----- links on which nothing was left behind -----

  predicate Tame(s: State) {
    Surplus(s) == 0 ==> s.fault == NoFault
  }

  lemma MoveIsTame(s: State, m: Move)
    requires Inv(s) && Even(s) && AllSound(s) && Can(s, m)
    ensures Tame(Do(s, m))
  {
    hide AllSound, Wiring, Closure, Ends, Aligned, Data, Do;
    MoveIsEven(s, m);
    MoveFaults(s, m);
    MoveKeepsInv(s, m);
    if Surplus(s) == 0 && m.Start? {
      assert !Stateless(s.stubs[m.i]);
    }
  }

  lemma EventIsTame(s: State, e: Event)
    requires Inv(s) && Even(s) && AllSound(s) && Enabled(s, e)
    ensures Tame(Next(s, e))
  {
    hide Inv, Even, AllSound, Tame, Do, Can;
    match e {
      case One(m) => MoveIsTame(s, m);
      case Handoff(w, r, draw) =>
        MoveKept(s, Put(w));
        MoveIsTame(Do(s, Put(w)), Take(r, draw));
    }
  }

  lemma MoveKept(s: State, m: Move)
    requires Inv(s) && Even(s) && AllSound(s) && Can(s, m)
    ensures Inv(Do(s, m)) && Even(Do(s, m)) && AllSound(Do(s, m))
  {
    hide Even, AllSound, Do, Can;
    MoveIsEven(s, m);
    MoveKeepsInv(s, m);
    MoveKeepsSound(s, m);
  }

  lemma {:induction false} RunIsTame(s: State, es: seq<Event>)
    requires Inv(s) && Even(s) && AllSound(s) && Tame(s) && Legal(s, es)
    ensures Tame(Outcome(s, es))
    decreases |es|
  {
    hide Inv, Even, AllSound, Tame;
    if es != [] {
      EventIsTame(s, es[0]);
      EventIsEven(s, es[0]);
      EventKeepsInv(s, es[0]);
      RunIsTame(Next(s, es[0]), es[1..]);
    }
  }

  /** No goroutine of a link panics before a removal has left a stub behind, whatever is closed. */
  lemma NoPanicUnlessLeftBehind(chain: seq<Toxic>, es: seq<Event>)
    requires |chain| >= 1 && Legal(Initial(chain), es)
    ensures Outcome(Initial(chain), es).fault != NoFault ==> Surplus(Outcome(Initial(chain), es)) > 0
  {
    hide Inv, Even, AllSound, Legal, Outcome;
    InitialInv(chain);
    InitialIsEven(chain);
    RunIsTame(Initial(chain), es);
    RunsAreEven(chain, es);
    CountsGiveSurplus(Outcome(Initial(chain), es));
  }

  lemma CountsGiveSurplus(s: State)
    requires Inv(s)
    ensures Surplus(s) >= 0
  {
  }

  // ----- runs without a call at risk -----

  ghost predicate NoRiskyCall(s: State, es: seq<Event>)
    requires Legal(s, es)
    decreases |es|
  {
    es == [] || ((es[0].One? ==> !RiskyCall(s, es[0].m)) && NoRiskyCall(Next(s, es[0]), es[1..]))
  }

  predicate Panicked(s: State) {
    s.fault == ChainIndex
  }

  lemma MoveHasState(s: State, m: Move)
    requires Supplied(s) && Inv(s) && Even(s) && AllSound(s) && Can(s, m) && !RiskyCall(s, m)
    ensures Do(s, m).fault != NoState && (Panicked(Do(s, m)) || Supplied(Do(s, m)))
  {
    hide AllSound, Even, Wiring, Phase, Shaking, Closure, Ends, Aligned, Data, Do, RiskyCall;
    MoveIsSupplied(s, m);
    MoveFaults(s, m);
  }

  lemma EventHasState(s: State, e: Event)
    requires Supplied(s) && Inv(s) && Even(s) && AllSound(s) && Enabled(s, e) && (e.One? ==> !RiskyCall(s, e.m))
    ensures Next(s, e).fault != NoState && (Panicked(Next(s, e)) || Supplied(Next(s, e)))
  {
    hide Supplied, AllSound, Even, Inv, Do, Can, AtRisk;
    match e {
      case One(m) => MoveHasState(s, m);
      case Handoff(w, r, draw) =>
        MoveHasState(s, Put(w));
        MoveKept(s, Put(w));
        NotPanicked(Do(s, Put(w)), Take(r, draw));
        MoveHasState(Do(s, Put(w)), Take(r, draw));
    }
  }

  lemma NotPanicked(s: State, m: Move)
    requires Can(s, m)
    ensures !Panicked(s)
  {
  }

  lemma EnabledNotPanicked(s: State, e: Event)
    requires Enabled(s, e)
    ensures !Panicked(s)
  {
  }

  lemma {:induction false} RunHasState(s: State, es: seq<Event>)
    requires (Panicked(s) || Supplied(s)) && s.fault != NoState && Inv(s) && Even(s) && AllSound(s)
    requires Legal(s, es) && NoRiskyCall(s, es)
    ensures Outcome(s, es).fault != NoState
    decreases |es|
  {
    hide Panicked, Supplied, Inv, Even, AllSound, Enabled, Next, RiskyCall;
    if es != [] {
      EnabledNotPanicked(s, es[0]);
      EventHasState(s, es[0]);
      EventIsEven(s, es[0]);
      EventKeepsInv(s, es[0]);
      RunHasState(Next(s, es[0]), es[1..]);
    }
  }

  /** A goroutine lacks the state of limit_data only in a run with a call at risk. The converse is
      `CallDecidesRestart` and `PanicsOf`: once the operation of such a call restarts its stub, the goroutine
      panics if it chooses the toxic. */
  lemma StateIsThereUnlessAtRisk(chain: seq<Toxic>, es: seq<Event>)
    requires |chain| >= 1 && Legal(Initial(chain), es) && NoRiskyCall(Initial(chain), es)
    ensures Outcome(Initial(chain), es).fault != NoState
  {
    hide Inv, Even, AllSound, Legal, Outcome, NoRiskyCall;
    InitialInv(chain);
    InitialIsEven(chain);
    assert Supplied(Initial(chain));
    RunHasState(Initial(chain), es);
  }

  // ----- a run that panics -----

  ghost predicate Reaches(s: State, s': State) {
    exists es :: Legal(s, es) && Outcome(s, es) == s'
  }

  lemma {:induction false} OutcomeAppend(s: State, es: seq<Event>, fs: seq<Event>)
    requires Legal(s, es) && Legal(Outcome(s, es), fs)
    ensures Legal(s, es + fs) && Outcome(s, es + fs) == Outcome(Outcome(s, es), fs)
    decreases |es|
  {
    hide Enabled, Next;
    if es == [] {
      assert es + fs == fs;
    } else {
      assert (es + fs)[1..] == es[1..] + fs;
      OutcomeAppend(Next(s, es[0]), es[1..], fs);
    }
  }

  lemma Then(s: State, s1: State, s2: State)
    requires Reaches(s, s1) && Reaches(s1, s2)
    ensures Reaches(s, s2)
  {
    var es :| Legal(s, es) && Outcome(s, es) == s1;
    var fs :| Legal(s1, fs) && Outcome(s1, fs) == s2;
    OutcomeAppend(s, es, fs);
  }

  /** One move more, which is not a send. */
  lemma ThenMove(s: State, s1: State, m: Move)
    requires Reaches(s, s1) && Can(s1, m) && !m.Put?
    ensures Reaches(s, Do(s1, m))
  {
    var es := [One(m)];
    assert es[1..] == [];
    assert Legal(Do(s1, m), []) && Outcome(Do(s1, m), []) == Do(s1, m);
    assert Legal(s1, es) && Outcome(s1, es) == Do(s1, m);
    Then(s, s1, Do(s1, m));
  }

  lemma ThenClose(s0: State, s: State, i: nat)
    requires Reaches(s0, s) && s.fault == NoFault && i < |s.stubs| && s.stubs[i].output < |s.chans|
    requires s.stubs[i].pc.Closing? || s.stubs[i].pc.ClosingOutput? || s.stubs[i].pc.Exiting?
    ensures Reaches(s0, CloseStep(s, i))
  {
    hide Reaches, CloseStep;
    ThenMove(s0, s, Close(i));
  }

  lemma ThenEnd(s0: State, s: State, j: nat)
    requires Reaches(s0, s) && s.fault == NoFault && j < |s.stubs| && s.stubs[j].pc.Ready?
    requires Ended(s, s.stubs[j].input)
    ensures Reaches(s0, s.(stubs := s.stubs[j := AfterEnd(s.stubs[j])]))
  {
    hide Reaches, AfterEnd;
    ThenMove(s0, s, TakeEnd(ToStub(j)));
    assert ReceiveEnd(s, ToStub(j)) == s.(stubs := s.stubs[j := AfterEnd(s.stubs[j])]);
  }

  /** Stub j has passed the end of the stream on and returned. */
  function Passed(s: State, j: nat): State
    requires j < |s.stubs| && s.stubs[j].output < |s.chans|
  {
    var b := s.stubs[j];
    s.(stubs := s.stubs[j := b.(closed := true, pc := Idle)],
       chans := s.chans[b.output := s.chans[b.output].(closed := true)])
  }

  lemma PassesEnd(s0: State, s: State, j: nat)
    requires Reaches(s0, s) && s.fault == NoFault && j < |s.stubs|
    requires s.stubs[j].pc.Ready? && !s.stubs[j].pipe.SlowClose? && !s.stubs[j].closed
    requires Ended(s, s.stubs[j].input) && s.stubs[j].output < |s.chans|
    requires s.stubs[j].output != s.stubs[j].input && !s.chans[s.stubs[j].output].closed
    ensures Reaches(s0, Passed(s, j))
  {
    hide Reaches;
    ThenEnd(s0, s, j);
    var s1 := s.(stubs := s.stubs[j := AfterEnd(s.stubs[j])]);
    assert s1.stubs[j].pc.Closing? && !s1.stubs[j].closed;
    ThenClose(s0, s1, j);
    var s2 := CloseStep(s1, j);
    assert s2.stubs[j].pc.ClosingOutput?;
    ThenClose(s0, s2, j);
    var s3 := CloseStep(s2, j);
    assert s3.stubs[j].pc.Exiting? && s3.fault == NoFault;
    ThenClose(s0, s3, j);
    assert CloseStep(s3, j) == Passed(s, j);
  }

  /** Removing a toxic whose stub is closed only shortens the chain. */
  function Shortened(s: State, k: nat): State
    requires k < |s.chain|
  {
    s.(chain := s.chain[..k] + s.chain[k + 1..], tidy := s.tidy && AllOpen(s))
  }

  lemma RemovesNothing(s0: State, s: State, k: nat)
    requires Reaches(s0, s) && s.fault == NoFault && s.ctl.Free?
    requires 1 <= k < |s.chain| && k < |s.stubs| && s.stubs[k].closed
    ensures Reaches(s0, Shortened(s, k))
  {
    ThenMove(s0, s, Begin(Remove(k)));
    var s1 := Do(s, Begin(Remove(k)));
    ThenMove(s0, s1, Answer);
    var s2 := Do(s1, Answer);
    assert s2.ctl == Removing(k, s.chain[k], Answered(false));
    ThenMove(s0, s2, Proceed);
    assert Do(s2, Proceed) == Shortened(s, k);
  }

  /** The last stub lingers, and AddToxic has interrupted it: its restart comes next. */
  ghost predicate Interrupting(s: State, t: Toxic, s': State) {
    && s'.fault == NoFault && s'.ctl == Adding(t, Answered(true)) && s'.chain == s.chain + [t]
    && |s'.stubs| == |s.stubs| + 1 >= 2 && s'.stubs[|s.stubs|].pc.Idle?
    && Parked(s', |s.stubs| - 1) && s'.stubs[|s.stubs| - 1].state == s.stubs[|s.stubs| - 1].state
  }

  lemma AddInterrupts(s0: State, s: State, t: Toxic)
    requires Reaches(s0, s) && s.fault == NoFault && s.ctl.Free? && |s.stubs| >= 1
    requires var b := s.stubs[|s.stubs| - 1]; b.pc.Lingering? && !b.closed && b.output < |s.chans|
    ensures exists s' :: Reaches(s0, s') && Interrupting(s, t, s')
  {
    hide Reaches, AllOpen, Flatten;
    var k := |s.stubs| - 1;
    ThenMove(s0, s, Begin(Add(t)));
    var s1 := Do(s, Begin(Add(t)));
    assert s1.stubs[k] == s.stubs[k] && s1.chain == s.chain + [t];
    InterruptReturns(s0, s1, t, k);
    var s4 :| Reaches(s0, s4) && Returned(s1, t, k, s4);
    assert Interrupting(s, t, s4);
  }

  ghost predicate Returned(s: State, t: Toxic, k: nat, s': State) {
    && k + 1 < |s.stubs| == |s'.stubs| && s'.fault == NoFault && s'.chain == s.chain
    && s'.ctl == Adding(t, Answered(true))
    && s'.stubs[k + 1] == s.stubs[k + 1] && s'.stubs[k] == s.stubs[k].(pc := Idle)
  }

  lemma ThenDeliver(s0: State, s: State, t: Toxic, k: nat)
    requires Reaches(s0, s) && s.fault == NoFault && s.ctl == Adding(t, Offered)
    requires k == |s.stubs| - 2 && s.stubs[k].pc.Lingering?
    ensures Reaches(s0, s.(stubs := s.stubs[k := s.stubs[k].(pc := Exiting)], ctl := Adding(t, Taken)))
  {
    hide Reaches;
    ThenMove(s0, s, Deliver);
    assert TakeInterrupt(s) == s.(stubs := s.stubs[k := s.stubs[k].(pc := Exiting)], ctl := Adding(t, Taken));
  }

  lemma InterruptReturns(s0: State, s: State, t: Toxic, k: nat)
    requires Reaches(s0, s) && s.fault == NoFault && s.ctl == Adding(t, Offered)
    requires k == |s.stubs| - 2 && s.stubs[k].pc.Lingering? && s.stubs[k].output < |s.chans|
    ensures exists s' :: Reaches(s0, s') && Returned(s, t, k, s')
  {
    hide Reaches;
    ThenDeliver(s0, s, t, k);
    var s1 := s.(stubs := s.stubs[k := s.stubs[k].(pc := Exiting)], ctl := Adding(t, Taken));
    ThenClose(s0, s1, k);
    var s2 := s.(stubs := s.stubs[k := s.stubs[k].(pc := Idle)], ctl := Adding(t, Taken));
    assert CloseStep(s1, k) == s2;
    hide CloseStep;
    ThenAnswer(s0, s2);
    assert Returned(s, t, k, s2.(ctl := Adding(t, Answered(true))));
  }

  lemma ThenAnswer(s0: State, s: State)
    requires Reaches(s0, s) && s.fault == NoFault && ShakeOf(s.ctl) == Some(Taken)
    requires 0 <= Target(s) < |s.stubs| && s.stubs[Target(s)].pc.Idle?
    ensures Reaches(s0, s.(ctl := SetShake(s.ctl, Answered(true))))
  {
    hide Reaches;
    ThenMove(s0, s, Answer);
  }

  /** Two stubs were left behind: the restart has no entry in the chain. */
  lemma AddPanics(s0: State, s: State, t: Toxic)
    requires Reaches(s0, s) && s.fault == NoFault && s.ctl.Free? && |s.stubs| >= |s.chain| + 2
    requires var b := s.stubs[|s.stubs| - 1]; b.pc.Lingering? && !b.closed && b.output < |s.chans|
    ensures exists s' :: Reaches(s0, s') && s'.fault == ChainIndex
  {
    hide Reaches;
    AddInterrupts(s0, s, t);
    var s1 :| Reaches(s0, s1) && Interrupting(s, t, s1);
    ThenMove(s0, s1, Proceed);
    SpliceFault(s1);
    assert Do(s1, Proceed).fault == ChainIndex;
  }

  /** One stub was left behind: the restart takes the new toxic's entry, and limit_data finds no state. */
  lemma AddStartsWithoutState(s0: State, s: State, t: Toxic)
    requires Reaches(s0, s) && s.fault == NoFault && s.ctl.Free? && |s.stubs| == |s.chain| + 1 && t.LimitData?
    requires var b := s.stubs[|s.stubs| - 1];
      b.pc.Lingering? && !b.closed && b.output < |s.chans| && b.state.None?
    ensures exists s' :: Reaches(s0, s') && s'.fault == NoState
  {
    hide Reaches;
    var k := |s.stubs| - 1;
    AddInterrupts(s0, s, t);
    var s1 :| Reaches(s0, s1) && Interrupting(s, t, s1);
    ThenMove(s0, s1, Proceed);
    AddRestarts(s1);
    var s2 := Do(s1, Proceed);
    assert s2.fault == NoFault && Stateless(s2.stubs[k]);
    ThenMove(s0, s2, Start(k, true));
    RunFault(s2, k, true);
    assert Do(s2, Start(k, true)).fault == NoState;
  }

  function Started(s: State, i: nat): State
    requires i < |s.stubs|
  {
    s.(stubs := s.stubs[i := s.stubs[i].(pipe := s.stubs[i].toxic, pc := Ready)])
  }

  lemma Starts(s0: State, s: State, i: nat)
    requires Reaches(s0, s) && s.fault == NoFault && i < |s.stubs|
    requires s.stubs[i].pc.Spawned? && !s.stubs[i].toxic.LimitData?
    ensures Reaches(s0, Started(s, i))
  {
    ThenMove(s0, s, Start(i, true));
  }

  /** Two toxics and a slow_close on a connection. */
  function Slow(): seq<Toxic> {
    [Noop, Latency, Latency, SlowClose]
  }

  lemma AllStart(s0: State)
    requires s0 == Initial(Slow())
    ensures Reaches(s0, Started(Started(Started(Started(s0, 0), 1), 2), 3))
  {
    assert Legal(s0, []) && Outcome(s0, []) == s0;
    Starts(s0, s0, 0);
    Starts(s0, Started(s0, 0), 1);
    Starts(s0, Started(Started(s0, 0), 1), 2);
    Starts(s0, Started(Started(Started(s0, 0), 1), 2), 3);
  }

  /** The client closes the connection: three stubs have passed the end on, slow_close delays it. */
  predicate EndDelayed(s: State) {
    && s.fault == NoFault && s.ctl.Free? && |s.stubs| == 4 && |s.chain| == 4
    && s.stubs[1].closed && !s.stubs[3].closed && s.stubs[3].pc.Lingering? && s.stubs[3].output < |s.chans|
    && s.stubs[3].state.None?
  }

  /** The first three stubs have passed the end on. */
  predicate EndComes(s: State) {
    && s.fault == NoFault && s.ctl.Free? && |s.stubs| == 4 && |s.chain| == 4 && |s.chans| == 5
    && s.stubs[1].closed && s.stubs[3].input == 3 && s.stubs[3].output == 4
    && !s.stubs[3].closed && s.stubs[3].pc.Ready? && s.stubs[3].pipe.SlowClose? && s.stubs[3].state.None?
    && s.chans[3].closed && s.chans[3].buf == []
  }

  lemma EndIsPassedOn(s0: State)
    requires s0 == Initial(Slow())
    ensures exists s :: Reaches(s0, s) && EndComes(s)
  {
    hide Reaches;
    AllStart(s0);
    var s1 := Started(Started(Started(Started(s0, 0), 1), 2), 3);
    ThenMove(s0, s1, CloseInput);
    var s2 := Do(s1, CloseInput);
    assert Ended(s2, 0);
    PassesEnd(s0, s2, 0);
    var s3 := Passed(s2, 0);
    PassesEnd(s0, s3, 1);
    var s4 := Passed(s3, 1);
    PassesEnd(s0, s4, 2);
    assert EndComes(Passed(s4, 2));
  }

  lemma EndGetsDelayed(s0: State)
    requires s0 == Initial(Slow())
    ensures exists s :: Reaches(s0, s) && EndDelayed(s)
  {
    hide Reaches, Initial;
    EndIsPassedOn(s0);
    var s :| Reaches(s0, s) && EndComes(s);
    ThenEnd(s0, s, 3);
    assert EndDelayed(s.(stubs := s.stubs[3 := AfterEnd(s.stubs[3])]));
  }

  /** A run that panics, with toxics that only pass data on: while slow_close delays the end of a stream,
      two toxics are removed and one is added. */
  lemma RunThatPanics(t: Toxic)
    ensures exists es :: Legal(Initial(Slow()), es) && Outcome(Initial(Slow()), es).fault == ChainIndex
  {
    var s0 := Initial(Slow());
    EndGetsDelayed(s0);
    var s :| Reaches(s0, s) && EndDelayed(s);
    RemovesNothing(s0, s, 1);
    RemovesNothing(s0, Shortened(s, 1), 1);
    var s2 := Shortened(Shortened(s, 1), 1);
    AddPanics(s0, s2, t);
    var s3 :| Reaches(s0, s3) && s3.fault == ChainIndex;
    var es :| Legal(s0, es) && Outcome(s0, es) == s3;
  }

  /** Another run that panics: one toxic is removed, and limit_data is added. */
  lemma RunWithoutState()
    ensures exists es :: Legal(Initial(Slow()), es) && Outcome(Initial(Slow()), es).fault == NoState
  {
    var s0 := Initial(Slow());
    EndGetsDelayed(s0);
    var s :| Reaches(s0, s) && EndDelayed(s);
    RemovesNothing(s0, s, 1);
    AddStartsWithoutState(s0, Shortened(s, 1), LimitData(10));
    var s1 :| Reaches(s0, s1) && s1.fault == NoState;
    var es :| Legal(s0, es) && Outcome(s0, es) == s1;
  }
}
