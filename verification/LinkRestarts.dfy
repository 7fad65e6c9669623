/** What AddToxic, UpdateToxic and RemoveToxic restart a stub with.

    They take the toxic from the chain at the stub's place in link.stubs. A closed stub whose toxic was removed
    stays in link.stubs, so on a partly closed link that entry can be another toxic's, or none. */
module LinkRestarts {
  import opened Bytes
  import opened Link
  import opened LinkInvariant
  import opened LinkData
  import opened LinkSplices
  import opened LinkSteps
  import opened LinkTheorems
  import Slicer
  import opened Wrappers

  // ----- stubs and the state of limit_data -----

  /** Its goroutine panics when the toxicity chooses the toxic: limit_data, and no state for it. */
  predicate Stateless(b: Stub) {
    b.pc.Spawned? && b.toxic.LimitData? && b.state.None?
  }

  /** A limit_data that runs has its state. */
  predicate Sound(b: Stub) {
    && (b.pipe.LimitData? && !b.pc.Idle? && !b.pc.Spawned? ==> b.state.Some?)
    && (b.pc.Sending? && b.pc.after.Count? ==> b.pipe.LimitData?)
  }

  ghost predicate AllSound(s: State) {
    forall i :: 0 <= i < |s.stubs| ==> Sound(s.stubs[i])
  }

  /** One stub across a move of anyone but the controller. */
  predicate Follows(b: Stub, b': Stub) {
    && b'.toxic == b.toxic && b'.input == b.input && b'.output == b.output && (b.closed ==> b'.closed)
    && (b'.state.None? <==> b.state.None?) && (b'.pc.Spawned? ==> b' == b) && Sound(b')
  }

  ghost predicate AllFollow(s: State, s': State) {
    && |s'.stubs| == |s.stubs| && s'.chain == s.chain
    && forall i :: 0 <= i < |s.stubs| ==> Follows(s.stubs[i], s'.stubs[i])
  }

  lemma SendFollows(b: Stub)
    requires Sound(b) && b.pc.Sending?
    ensures Follows(b, AfterSend(b))
  {
  }

  lemma ReceiveFollows(b: Stub, h: Chunk, draw: Slicer.Draws)
    requires Sound(b) && b.pc.Ready?
    ensures Follows(b, AfterReceive(b, h, draw)) && Follows(b, AfterEnd(b))
  {
    hide Slicer.Cut, Kept;
  }

  lemma TimerFollows(b: Stub)
    requires Sound(b)
    ensures CanTick(b) ==> Follows(b, AfterTimer(b))
    ensures Interruptible(b.pc) ==> Follows(b, b.(pc := Interrupted(b.pc)))
  {
  }

  lemma OneFollows(s: State, s': State, i: nat, b: Stub)
    requires AllSound(s) && i < |s.stubs| && Follows(s.stubs[i], b)
    requires s'.stubs == s.stubs[i := b] && s'.chain == s.chain
    ensures AllFollow(s, s')
  {
  }

  lemma NoneMoves(s: State, s': State)
    requires AllSound(s) && s'.stubs == s.stubs && s'.chain == s.chain
    ensures AllFollow(s, s')
  {
  }

  lemma ResumeFollows(s: State, w: Sender)
    requires AllSound(s) && CanSend(s, w)
    ensures AllFollow(s, Resume(s, w))
  {
    hide AfterSend, Follows, AllSound, AllFollow;
    if w.FromStub? {
      SendFollows(s.stubs[w.i]) by { SoundAt(s, w.i); }
      OneFollows(s, Resume(s, w), w.i, AfterSend(s.stubs[w.i]));
    } else {
      NoneMoves(s, Resume(s, w));
    }
  }

  lemma SendsFollow(s: State, m: Move)
    requires AllSound(s) && Can(s, m) && (m.Put? || m.GiveUp?)
    ensures AllFollow(s, Do(s, m))
  {
    hide Resume, AllSound, AllFollow;
    ResumeFollows(s, m.w);
    SameStubs(s, Resume(s, m.w), Do(s, m));
  }

  lemma SoundAt(s: State, i: nat)
    requires AllSound(s) && i < |s.stubs|
    ensures Sound(s.stubs[i])
  {
  }

  lemma SameStubs(s: State, s1: State, s': State)
    requires AllFollow(s, s1) && s'.stubs == s1.stubs && s'.chain == s1.chain
    ensures AllFollow(s, s')
  {
  }

  lemma StubReceives(s: State, j: nat, draw: Slicer.Draws)
    requires AllSound(s) && CanReceive(s, ToStub(j))
    ensures s.chans[s.stubs[j].input].buf != [] ==> AllFollow(s, Receive(s, ToStub(j), draw))
    ensures AllFollow(s, ReceiveEnd(s, ToStub(j)))
  {
    hide AfterReceive, AfterEnd, Discards, Follows, AllFollow;
    var b := s.stubs[j];
    if s.chans[b.input].buf != [] {
      var h := s.chans[b.input].buf[0];
      ReceiveFollows(b, h, draw);
      OneFollows(s, Receive(s, ToStub(j), draw), j, AfterReceive(b, h, draw));
    }
    ReceiveFollows(b, [], draw);
    OneFollows(s, ReceiveEnd(s, ToStub(j)), j, AfterEnd(b));
  }

  lemma OuterTakes(s: State, r: Receiver, draw: Slicer.Draws)
    requires CanReceive(s, r) && !r.ToStub?
    ensures s.chans[ReceiveChan(s, r)].buf != [] ==>
      var s' := Receive(s, r, draw); s'.stubs == s.stubs && s'.chain == s.chain
    ensures (r.ToController? ==> s.ctl.Flushing?) ==>
      var s' := ReceiveEnd(s, r); s'.stubs == s.stubs && s'.chain == s.chain
  {
  }

  lemma ReceivesFollow(s: State, m: Move)
    requires AllSound(s) && Can(s, m) && (m.Take? || m.TakeEnd?)
    ensures AllFollow(s, Do(s, m))
  {
    hide Receive, ReceiveEnd, AllFollow, AllSound;
    var draw := if m.Take? then m.draw else (x, y) => 0;
    if m.r.ToStub? {
      StubReceives(s, m.r.j, draw);
    } else {
      OuterTakes(s, m.r, draw);
      NoneMoves(s, Do(s, m));
    }
  }

  lemma TimersFollow(s: State, m: Move)
    requires AllSound(s) && Can(s, m) && (m.Tick? || m.Deliver?)
    ensures AllFollow(s, Do(s, m))
  {
    hide AfterTimer, Interrupted, CanTick, Interruptible, Follows, AllSound, AllFollow;
    var s' := Do(s, m);
    if m.Tick? {
      TimerFollows(s.stubs[m.i]) by { SoundAt(s, m.i); }
      OneFollows(s, s', m.i, AfterTimer(s.stubs[m.i]));
    } else {
      var b := s.stubs[Target(s)];
      TimerFollows(b) by { SoundAt(s, Target(s)); }
      OneFollows(s, s', Target(s), b.(pc := Interrupted(b.pc)));
    }
  }

  lemma RunFollows(s: State, i: nat, chosen: bool)
    requires AllSound(s) && i < |s.stubs| && s.stubs[i].pc.Spawned?
    ensures AllFollow(s, Run(s, i, chosen))
  {
    var s' := Run(s, i, chosen);
    if s'.stubs == s.stubs {
      NoneMoves(s, s');
    } else {
      OneFollows(s, s', i, s'.stubs[i]);
    }
  }

  lemma CloseFollows(s: State, i: nat)
    requires AllSound(s) && i < |s.stubs| && s.stubs[i].output < |s.chans|
    requires s.stubs[i].pc.Closing? || s.stubs[i].pc.ClosingOutput? || s.stubs[i].pc.Exiting?
    ensures AllFollow(s, CloseStep(s, i))
  {
    CloseStepIs(s, i);
    hide CloseStep, AllFollow;
    OneFollows(s, CloseStep(s, i), i, CloseStep(s, i).stubs[i]);
  }

  /** No move but the controller's own gives a stub another toxic, takes its state, or spawns it. */
  lemma OthersFollow(s: State, m: Move)
    requires AllSound(s) && Can(s, m) && !m.Begin? && !m.Proceed?
    ensures AllFollow(s, Do(s, m))
  {
    if m.Put? || m.GiveUp? {
      SendsFollow(s, m);
    } else if m.Take? || m.TakeEnd? {
      ReceivesFollow(s, m);
    } else if m.Tick? || m.Deliver? {
      TimersFollow(s, m);
    } else if m.Start? {
      RunFollows(s, m.i, m.chosen);
    } else if m.Close? {
      CloseFollows(s, m.i);
    } else {
      NoneMoves(s, Do(s, m));
    }
  }

  // ----- the controller -----

  lemma SpawnKeepsSound(s: State, k: nat, t: Toxic)
    requires AllSound(s) && k < |s.stubs|
    ensures AllSound(Spawn(s, k, t)) && AllSound(SpawnFromChain(s, k))
    ensures |Spawn(s, k, t).stubs| == |SpawnFromChain(s, k).stubs| == |s.stubs|
  {
  }

  lemma BeginKeepsSound(s: State, op: Op)
    requires AllSound(s) && CanBegin(s, op)
    ensures AllSound(BeginOp(s, op))
  {
    hide AllOpen;
  }

  lemma SplicesKeepSound(s: State)
    requires AllSound(s) && CanProceed(s) && Phase(s) && (s.ctl.Adding? || s.ctl.Draining?)
    ensures s.ctl.Adding? ==> AllSound(SpliceIn(s))
    ensures s.ctl.Draining? ==> AllSound(SpliceOut(s))
  {
    hide Spawn, SpawnFromChain, Sound;
    if s.ctl.Adding? {
      var s1, n := RewireIn(s), |s.stubs| - 1;
      assert AllSound(s1) by { RewireKeepsSound(s); }
      SpawnKeepsSound(s1, n, s.ctl.t);
      SpawnKeepsSound(Spawn(s1, n, s.ctl.t), n - 1, Noop);
    } else {
      assert AllSound(RewireOut(s)) by { RewireKeepsSound(s); }
      SpawnKeepsSound(RewireOut(s), s.ctl.k - 1, Noop);
    }
  }

  lemma RewireKeepsSound(s: State)
    requires AllSound(s) && CanProceed(s)
    ensures s.ctl.Adding? && s.stubs[|s.stubs| - 1].pc.Idle? ==> AllSound(RewireIn(s))
    ensures s.ctl.Draining? ==> AllSound(RewireOut(s))
  {
  }

  lemma ShutKeepsSound(s: State)
    requires AllSound(s) && s.ctl.Shutting? && s.ctl.k < |s.stubs| && s.stubs[s.ctl.k].output < |s.chans|
    ensures AllSound(ShutStep(s))
  {
    ShutStepIs(s);
    hide ShutStep;
  }

  lemma StepsKeepSound(s: State)
    requires AllSound(s) && CanProceed(s) && !s.ctl.Adding? && !s.ctl.Draining?
    ensures AllSound(Advance(s))
  {
    hide SpliceIn, SpliceOut, Spawn, SetAside, ShutStep;
    if s.ctl.Updating? {
      SpawnKeepsSound(s, s.ctl.k, s.ctl.t);
    } else if s.ctl.Shutting? {
      ShutKeepsSound(s);
    } else {
      assert Advance(s).stubs == s.stubs;
    }
  }

  lemma AdvanceKeepsSound(s: State)
    requires AllSound(s) && CanProceed(s) && Phase(s)
    ensures AllSound(Advance(s))
  {
    hide AllSound, SpliceIn, SpliceOut;
    if s.ctl.Draining? || (s.ctl.Adding? && s.ctl.shake.ok) {
      SplicesKeepSound(s);
    } else if s.ctl.Adding? {
      SpareKeepsSound(s);
    } else {
      StepsKeepSound(s);
    }
  }

  lemma SpareKeepsSound(s: State)
    requires AllSound(s) && s.ctl.Adding? && |s.stubs| >= 2
    ensures var n := |s.stubs| - 1;
      AllSound(SetStub(s, n, s.stubs[n].(output := s.stubs[n].input)).(ctl := Shutting(n, Test, Collected)))
  {
  }

  lemma MoveKeepsSound(s: State, m: Move)
    requires AllSound(s) && Can(s, m) && Phase(s)
    ensures AllSound(Do(s, m))
  {
    hide Phase, Sound;
    if m.Proceed? {
      AdvanceKeepsSound(s);
    } else if m.Begin? {
      BeginKeepsSound(s, m.op);
    } else {
      OthersFollow(s, m);
      FollowingIsSound(s, Do(s, m));
    }
  }

  lemma FollowingIsSound(s: State, s': State)
    requires AllFollow(s, s')
    ensures AllSound(s')
  {
  }

  // ----- an operation, from its call to its restart -----

  /** The operation can still restart a stub. */
  predicate Pending(c: Ctl) {
    c.Adding? || c.Updating? || c.Removing? || c.Flushing? || c.Draining?
  }

  /** The same call, in the same or a later phase. */
  predicate SameCall(c: Ctl, c': Ctl) {
    match c
    case Adding(t, _) => c'.Adding? && c'.t == t
    case Updating(k, t, _) => c'.Updating? && c'.k == k && c'.t == t
    case Free => c'.Free?
    case Shutting(k, _, _) => c'.Shutting? && c'.k == k
    case _ => (c'.Removing? || c'.Flushing? || c'.Draining?) && c'.k == c.k
  }

  /** What an operation relies on from its call to its restart. */
  ghost predicate GoesOn(s: State, s': State) {
    && SameCall(s.ctl, s'.ctl) && |s'.stubs| == |s.stubs| && s'.chain == s.chain
    && forall i :: 0 <= i < |s.stubs| ==>
         s'.stubs[i].toxic == s.stubs[i].toxic && (s'.stubs[i].state.None? <==> s.stubs[i].state.None?)
  }

  lemma SendsKeepCall(s: State, w: Sender)
    requires CanSend(s, w)
    ensures SameCall(s.ctl, Resume(s, w).ctl) && SameCall(s.ctl, Send(s, w).ctl)
  {
    hide AfterSend;
    assert Send(s, w).ctl == Resume(s, w).ctl;
  }

  lemma ReceivesKeepCall(s: State, r: Receiver, draw: Slicer.Draws)
    requires CanReceive(s, r) && s.chans[ReceiveChan(s, r)].buf != []
    ensures SameCall(s.ctl, Receive(s, r, draw).ctl)
  {
    hide AfterReceive, Discards;
  }

  lemma StubsKeepCall(s: State, m: Move)
    requires Can(s, m) && (m.Start? || m.Tick? || m.Close?)
    ensures Do(s, m).ctl == s.ctl
  {
    hide AfterTimer, CanTick, CloseStep;
    if m.Close? {
      CloseStepIs(s, m.i);
    }
  }

  lemma OthersCall(s: State, m: Move)
    requires Can(s, m) && !m.Begin? && !m.Proceed? && !(m.TakeEnd? && m.r.ToController?)
    ensures SameCall(s.ctl, Do(s, m).ctl)
  {
    hide Send, Resume, Receive, Run, Timer, CloseStep, AfterEnd, Interrupted, Interruptible, CanTick, CanAnswer,
      CanSend, CanReceive;
    if m.Put? || m.GiveUp? {
      SendsKeepCall(s, m.w);
    } else if m.Take? {
      ReceivesKeepCall(s, m.r, m.draw);
    } else if m.Start? || m.Tick? || m.Close? {
      StubsKeepCall(s, m);
    }
  }

  lemma FollowingGoesOn(s: State, s': State)
    requires AllFollow(s, s') && SameCall(s.ctl, s'.ctl)
    ensures GoesOn(s, s')
  {
  }

  lemma MoveGoesOn(s: State, m: Move)
    requires AllSound(s) && Can(s, m) && Pending(s.ctl) && Pending(Do(s, m).ctl)
    ensures GoesOn(s, Do(s, m))
  {
    if m.Proceed? {
      PhasesGoOn(s);
    } else {
      hide AllSound, GoesOn, AllFollow;
      OthersFollow(s, m);
      CallStays(s, m);
      FollowingGoesOn(s, Do(s, m));
    }
  }

  lemma CallStays(s: State, m: Move)
    requires Can(s, m) && !m.Proceed? && Pending(s.ctl) && Pending(Do(s, m).ctl)
    ensures SameCall(s.ctl, Do(s, m).ctl)
  {
    hide SameCall;
    if m.TakeEnd? && m.r.ToController? {
      assert false;
    } else {
      OthersCall(s, m);
    }
  }

  lemma RemovingStep(s: State)
    requires CanProceed(s) && (s.ctl.Removing? || s.ctl.Flushing?)
    ensures var s' := Advance(s);
      && s'.stubs == s.stubs && s'.chain == s.chain
      && (s'.ctl.Free? || ((s'.ctl.Flushing? || s'.ctl.Draining? || s'.ctl.Shutting?) && s'.ctl.k == s.ctl.k))
  {
    hide SpliceIn, SpliceOut, Spawn, SetAside, ShutStep;
  }

  lemma PhasesGoOn(s: State)
    requires CanProceed(s) && Pending(s.ctl) && Pending(Advance(s).ctl)
    ensures GoesOn(s, Advance(s))
  {
    hide SpliceIn, SpliceOut, Spawn, SetAside, ShutStep;
    if s.ctl.Adding? || s.ctl.Draining? {
      SplicesEnd(s);
    } else if s.ctl.Updating? {
      assert false;
    } else {
      RemovingStep(s);
      hide Advance;
    }
  }

  lemma SplicesEnd(s: State)
    requires CanProceed(s) && (s.ctl.Adding? || s.ctl.Draining?)
    ensures !Pending(Advance(s).ctl)
  {
    hide Spawn, SpawnFromChain;
    if s.ctl.Adding? && s.ctl.shake.ok {
      SpawnKeepsCtl(RewireIn(s), |s.stubs| - 1, s.ctl.t);
      SpawnKeepsCtl(Spawn(RewireIn(s), |s.stubs| - 1, s.ctl.t), |s.stubs| - 2, s.ctl.t);
    } else if s.ctl.Draining? {
      SpawnKeepsCtl(RewireOut(s), s.ctl.k - 1, Noop);
    }
  }

  lemma SpawnOnlyStub(s: State, k: nat, t: Toxic)
    requires k < |s.stubs|
    ensures var s' := Spawn(s, k, t);
      s'.ctl == s.ctl && s'.chain == s.chain && |s'.stubs| == |s.stubs|
  {
  }

  lemma SpawnKeepsCtl(s: State, k: nat, t: Toxic)
    requires k < |s.stubs|
    ensures Spawn(s, k, t).ctl == SpawnFromChain(s, k).ctl == s.ctl
    ensures Spawn(s, k, t).chain == SpawnFromChain(s, k).chain == s.chain
    ensures |Spawn(s, k, t).stubs| == |SpawnFromChain(s, k).stubs| == |s.stubs|
  {
    hide Spawn;
    SpawnOnlyStub(s, k, t);
    if k < |s.chain| {
      SpawnOnlyStub(s, k, s.chain[k]);
    }
  }

  // ----- what is left behind -----

  /** The stubs that are more than the chain has toxics: removals left them behind, because they were closed. */
  function Surplus(s: State): int {
    |s.stubs| - |s.chain| - (if s.ctl.Removing? || s.ctl.Flushing? || s.ctl.Draining? then 1 else 0)
  }

  /** Stub b is the one of toxic t. */
  predicate Runs(b: Stub, t: Toxic) {
    b.closed || (b.toxic == t && (t.LimitData? ==> b.state.Some?))
  }

  /** The stub that the operation is about. */
  predicate Concerned(s: State, i: int) {
    match s.ctl
    case Free => false
    case Adding(_, _) => i == |s.stubs| - 1
    case _ => i == s.ctl.k
  }

  /** The entry of the chain that is for stub i. */
  function Place(s: State, i: int): int {
    if (s.ctl.Removing? || s.ctl.Flushing? || s.ctl.Draining?) && s.ctl.k < i then i - 1 else i
  }

  ghost predicate Paired(s: State) {
    && (forall i :: 0 <= i < |s.stubs| && !Concerned(s, i) ==>
          0 <= Place(s, i) < |s.chain| && Runs(s.stubs[i], s.chain[Place(s, i)]))
    && (s.ctl.Updating? && s.ctl.k < |s.stubs| ==>
          s.stubs[s.ctl.k].closed || (s.ctl.t.LimitData? ==> s.stubs[s.ctl.k].state.Some?))
    && (forall i :: 0 <= i < |s.stubs| ==> !Stateless(s.stubs[i]))
  }

  /** The operation's toxic is in the chain already. */
  ghost predicate Called(s: State) {
    && (s.ctl.Adding? ==> |s.chain| >= 1 && s.chain[|s.chain| - 1] == s.ctl.t)
    && (s.ctl.Updating? ==> s.ctl.k < |s.chain| && s.chain[s.ctl.k] == s.ctl.t)
  }

  /** Where nothing is left behind, every open stub is the one of its entry in the chain. */
  ghost predicate Even(s: State) {
    Called(s) && (Surplus(s) == 0 ==> Paired(s))
  }

  lemma FollowingIsEven(s: State, s': State)
    requires Even(s) && AllFollow(s, s') && SameCall(s.ctl, s'.ctl)
    ensures Even(s') && Surplus(s') == Surplus(s)
  {
    if Surplus(s) == 0 {
      forall i | 0 <= i < |s'.stubs| && !Concerned(s', i)
        ensures 0 <= Place(s', i) < |s'.chain| && Runs(s'.stubs[i], s'.chain[Place(s', i)])
      {
        assert Follows(s.stubs[i], s'.stubs[i]);
        assert Place(s', i) == Place(s, i) && !Concerned(s, i);
      }
    }
  }

  lemma BeginAddIsEven(s: State, t: Toxic)
    requires Even(s) && CanBegin(s, Add(t))
    ensures Even(BeginOp(s, Add(t))) && Surplus(BeginOp(s, Add(t))) == Surplus(s)
  {
    var s' := BeginOp(s, Add(t));
    if Surplus(s) == 0 {
      forall i | 0 <= i < |s'.stubs| && !Concerned(s', i)
        ensures Runs(s'.stubs[i], s'.chain[i])
      {
        assert Runs(s.stubs[i], s.chain[Place(s, i)]);
      }
    }
  }

  lemma BeginUpdateIsEven(s: State, k: nat, t: Toxic)
    requires Even(s) && CanBegin(s, Update(k, t)) && k < |s.stubs|
    ensures Even(BeginOp(s, Update(k, t))) && Surplus(BeginOp(s, Update(k, t))) == Surplus(s)
  {
    var s' := BeginOp(s, Update(k, t));
    if Surplus(s) == 0 {
      forall i | 0 <= i < |s'.stubs|
        ensures Runs(s.stubs[i], s.chain[i])
      {
        assert Place(s, i) == i && !Concerned(s, i);
      }
    }
  }

  lemma BeginRemoveIsEven(s: State, k: nat)
    requires Even(s) && CanBegin(s, Remove(k)) && k < |s.stubs|
    ensures Even(BeginOp(s, Remove(k))) && Surplus(BeginOp(s, Remove(k))) == Surplus(s)
  {
    var s' := BeginOp(s, Remove(k));
    if Surplus(s) == 0 {
      forall i | 0 <= i < |s'.stubs| && !Concerned(s', i)
        ensures 0 <= Place(s', i) < |s'.chain| && Runs(s'.stubs[i], s'.chain[Place(s', i)])
      {
        assert Place(s, i) == i && !Concerned(s, i);
        assert s'.chain[Place(s', i)] == s.chain[i];
      }
    }
  }

  // ----- the restarts -----

  function Restarted(b: Stub, t: Toxic): Stub {
    b.(pc := Spawned, toxic := t)
  }

  /** AddToxic starts the new stub, with its state, and restarts the one before it with the entry of the chain
      at that place; if there is none it panics. */
  lemma AddRestarts(s: State)
    requires CanProceed(s) && s.ctl.Adding? && s.ctl.shake.ok && Parked(s, |s.stubs| - 2)
    requires s.stubs[|s.stubs| - 1].pc.Idle?
    ensures var n, s' := |s.stubs| - 1, Advance(s);
      if n - 1 >= |s.chain| then s'.fault == ChainIndex && s'.ctl.Free? && s'.chain == s.chain && |s'.stubs| == n + 1
      else
        && s'.ctl.Free? && s'.chain == s.chain && s'.fault == s.fault
        && s'.stubs == s.stubs[n - 1 := Restarted(RewireIn(s).stubs[n - 1], s.chain[n - 1])]
                              [n := Restarted(RewireIn(s).stubs[n], s.ctl.t)]
  {
    var n, s1 := |s.stubs| - 1, RewireIn(s);
    SpawnIdle(s1, n, s.ctl.t);
    var s2 := Spawn(s1, n, s.ctl.t);
    assert s2.stubs[n - 1] == s1.stubs[n - 1];
    hide Spawn;
    if n - 1 < |s.chain| {
      SpawnIdle(s2, n - 1, s.chain[n - 1]);
    }
  }

  /** RemoveToxic takes stub k out and restarts the one before it with the entry of the chain at that place. */
  lemma RemoveRestarts(s: State)
    requires CanProceed(s) && s.ctl.Draining? && Parked(s, s.ctl.k - 1) && s.ctl.k <= |s.chain|
    ensures var k, s' := s.ctl.k, Advance(s);
      && s'.ctl.Free? && s'.chain == s.chain && s'.fault == s.fault
      && s'.stubs == s.stubs[..k - 1] + [Restarted(s.stubs[k - 1].(output := s.stubs[k].output), s.chain[k - 1])]
                     + s.stubs[k + 1..]
  {
    var k, s1 := s.ctl.k, RewireOut(s);
    assert s1.stubs[k - 1] == s.stubs[k - 1].(output := s.stubs[k].output);
    SpawnIdle(s1, k - 1, s.chain[k - 1]);
  }

  lemma UpdateRestarts(s: State)
    requires CanProceed(s) && s.ctl.Updating? && s.ctl.shake.ok && Parked(s, s.ctl.k)
    ensures var k, s' := s.ctl.k, Advance(s);
      && s'.ctl.Free? && s'.chain == s.chain && s'.fault == s.fault
      && s'.stubs == s.stubs[k := Restarted(s.stubs[k], s.ctl.t)]
  {
    SpawnIdle(s, s.ctl.k, s.ctl.t);
  }

  lemma AddPairs(s: State, s': State, n: nat)
    requires Paired(s) && s.ctl.Adding? && s'.ctl.Free? && |s.stubs| == |s.chain| == n + 1 && n >= 1
    requires s'.chain == s.chain && s.chain[n] == s.ctl.t
    requires s'.stubs == s.stubs[n - 1 := Restarted(RewireIn(s).stubs[n - 1], s.chain[n - 1])]
                                [n := Restarted(RewireIn(s).stubs[n], s.ctl.t)]
    requires !s.stubs[n - 1].closed
    ensures Paired(s')
  {
    forall i | 0 <= i < |s'.stubs|
      ensures Runs(s'.stubs[i], s'.chain[i]) && !Stateless(s'.stubs[i])
    {
      assert i < n ==> Place(s, i) == i && !Concerned(s, i) && Runs(s.stubs[i], s.chain[i]);
    }
  }

  lemma AddIsEven(s: State)
    requires Even(s) && CanProceed(s) && s.ctl.Adding? && s.ctl.shake.ok && Phase(s) && Parked(s, |s.stubs| - 2)
    requires Surplus(s) >= 0
    ensures Even(Advance(s)) && Surplus(Advance(s)) == Surplus(s)
  {
    AddRestarts(s);
    hide Advance, Phase, RewireIn, Paired;
    if Surplus(s) == 0 {
      AddPairs(s, Advance(s), |s.stubs| - 1);
    }
  }

  lemma SpareIsEven(s: State)
    requires Even(s) && CanProceed(s) && s.ctl.Adding? && !s.ctl.shake.ok
    ensures Even(Advance(s)) && Surplus(Advance(s)) == Surplus(s)
  {
    var s', n := Advance(s), |s.stubs| - 1;
    assert s'.ctl == Shutting(n, Test, Collected) && s'.chain == s.chain;
    assert forall i :: 0 <= i < n ==> s'.stubs[i] == s.stubs[i];
    if Surplus(s) == 0 {
      forall i | 0 <= i < n
        ensures Runs(s'.stubs[i], s'.chain[i])
      {
        assert Place(s, i) == i && !Concerned(s, i);
      }
    }
  }

  lemma UpdateIsEven(s: State)
    requires Even(s) && CanProceed(s) && s.ctl.Updating? && Shaking(s)
    ensures Even(Advance(s)) && Surplus(Advance(s)) == Surplus(s)
  {
    var s', k := Advance(s), s.ctl.k;
    if s.ctl.shake.ok {
      UpdateRestarts(s);
    }
    if Surplus(s) == 0 {
      hide Shaking;
      forall i | 0 <= i < |s'.stubs|
        ensures Runs(s'.stubs[i], s'.chain[i])
      {
        assert i != k ==> Place(s, i) == i && !Concerned(s, i) && Runs(s.stubs[i], s.chain[i]);
      }
    }
  }

  lemma DrainIsEven(s: State)
    requires Even(s) && CanProceed(s) && s.ctl.Draining? && Parked(s, s.ctl.k - 1) && s.ctl.k <= |s.chain|
    requires Surplus(s) >= 0
    ensures Even(Advance(s)) && Surplus(Advance(s)) == Surplus(s)
  {
    RemoveRestarts(s);
    var s', k := Advance(s), s.ctl.k;
    hide Advance;
    if Surplus(s) == 0 {
      forall i | 0 <= i < |s'.stubs|
        ensures Runs(s'.stubs[i], s'.chain[i])
      {
        var j := if i < k then i else i + 1;
        assert Place(s, j) == i && !Concerned(s, j) && Runs(s.stubs[j], s.chain[i]);
      }
    }
  }

  /** The phases of a removal before its restart; one that ends early leaves its stub behind. */
  lemma RemovingIsEven(s: State)
    requires Even(s) && CanProceed(s) && (s.ctl.Removing? || s.ctl.Flushing?) && Surplus(s) >= 0
    ensures Even(Advance(s)) && Surplus(Advance(s)) >= Surplus(s)
  {
    RemovingStep(s);
    var s' := Advance(s);
    hide Advance;
    if Surplus(s') == 0 {
      assert s'.ctl.Flushing? || s'.ctl.Draining?;
      forall i | 0 <= i < |s'.stubs| && !Concerned(s', i)
        ensures 0 <= Place(s', i) < |s'.chain| && Runs(s'.stubs[i], s'.chain[Place(s', i)])
      {
        assert Place(s', i) == Place(s, i) && !Concerned(s, i);
      }
    }
  }

  lemma ShuttingStep(s: State)
    requires CanProceed(s) && s.ctl.Shutting? && Phase(s)
    ensures var s', k := Advance(s), s.ctl.k;
      && |s'.stubs| == |s.stubs| && s'.chain == s.chain && k < |s.stubs|
      && (s'.ctl.Free? ==> s'.stubs[k].closed) && (s'.ctl.Free? || (s'.ctl.Shutting? && s'.ctl.k == k))
      && (s'.stubs[k] == s.stubs[k] || s'.stubs[k] == s.stubs[k].(closed := true))
      && forall i :: 0 <= i < |s.stubs| && i != k ==> s'.stubs[i] == s.stubs[i]
  {
    ShutStepIs(s);
    assert Advance(s) == ShutStep(s);
    hide Advance, ShutStep, Parked;
  }

  lemma ShuttingIsEven(s: State)
    requires Even(s) && CanProceed(s) && s.ctl.Shutting? && Phase(s)
    ensures Even(Advance(s)) && Surplus(Advance(s)) == Surplus(s)
  {
    ShuttingStep(s);
    var s', k := Advance(s), s.ctl.k;
    hide Phase, Advance;
    if Surplus(s) == 0 {
      forall i | 0 <= i < |s'.stubs| && !Concerned(s', i)
        ensures 0 <= Place(s', i) < |s'.chain| && Runs(s'.stubs[i], s'.chain[Place(s', i)])
      {
        assert i != k ==> Place(s, i) == i && !Concerned(s, i) && Runs(s.stubs[i], s.chain[i]);
      }
    }
  }

  // ----- every run -----

  /** A removal meets the end of the stream in its flush loop. */
  lemma FlushEndIsEven(s: State)
    requires Even(s) && Can(s, TakeEnd(ToController)) && Surplus(s) >= 0
    ensures var s' := Do(s, TakeEnd(ToController)); Even(s') && Surplus(s') > Surplus(s)
  {
    var s' := Do(s, TakeEnd(ToController));
    assert s' == s.(ctl := Shutting(s.ctl.k, Test, s.ctl.shake));
  }

  lemma AdvanceIsEven(s: State)
    requires Even(s) && CanProceed(s) && Phase(s) && Shaking(s) && Counts(s)
    ensures Even(Advance(s)) && Surplus(Advance(s)) >= Surplus(s)
  {
    hide Advance, Even;
    assert Surplus(s) >= 0;
    if s.ctl.Adding? {
      hide Counts;
      if s.ctl.shake.ok { AddIsEven(s); } else { SpareIsEven(s); }
    } else if s.ctl.Updating? {
      UpdateIsEven(s);
    } else if s.ctl.Draining? {
      DrainIsEven(s);
    } else if s.ctl.Shutting? {
      ShuttingIsEven(s);
    } else {
      RemovingIsEven(s);
    }
  }

  lemma BeginIsEven(s: State, op: Op)
    requires Even(s) && CanBegin(s, op) && Counts(s)
    ensures Even(BeginOp(s, op)) && Surplus(BeginOp(s, op)) == Surplus(s)
  {
    hide BeginOp, Even;
    match op
    case Add(t) => BeginAddIsEven(s, t);
    case Update(k, t) => BeginUpdateIsEven(s, k, t);
    case Remove(k) => BeginRemoveIsEven(s, k);
  }

  lemma MoveIsEven(s: State, m: Move)
    requires Even(s) && AllSound(s) && Can(s, m) && Phase(s) && Shaking(s) && Counts(s)
    ensures Even(Do(s, m)) && Surplus(Do(s, m)) >= Surplus(s)
  {
    hide Even, AllSound, Phase, Shaking;
    assert Surplus(s) >= 0;
    hide Surplus, Counts;
    if m.Proceed? {
      AdvanceIsEven(s);
    } else if m.Begin? {
      BeginIsEven(s, m.op);
    } else if m == TakeEnd(ToController) {
      FlushEndIsEven(s);
    } else {
      OthersFollow(s, m);
      OthersCall(s, m);
      FollowingIsEven(s, Do(s, m));
    }
  }

  lemma EventIsEven(s: State, e: Event)
    requires Inv(s) && Even(s) && AllSound(s) && Enabled(s, e)
    ensures Even(Next(s, e)) && AllSound(Next(s, e)) && Surplus(Next(s, e)) >= Surplus(s)
  {
    hide Even, AllSound, Surplus, Wiring, Phase, Shaking, Closure, Ends, Counts, Aligned, Data, Can, Do;
    match e {
      case One(m) =>
        MoveIsEven(s, m);
        MoveKeepsSound(s, m);
      case Handoff(w, r, draw) =>
        MoveIsEven(s, Put(w));
        MoveKeepsSound(s, Put(w));
        MoveKeepsInv(s, Put(w));
        MoveIsEven(Do(s, Put(w)), Take(r, draw));
        MoveKeepsSound(Do(s, Put(w)), Take(r, draw));
    }
  }

  lemma {:induction false} RunIsEven(s: State, es: seq<Event>)
    requires Inv(s) && Even(s) && AllSound(s) && Legal(s, es)
    ensures Even(Outcome(s, es)) && AllSound(Outcome(s, es))
    decreases |es|
  {
    hide Even, AllSound, Inv;
    if es != [] {
      EventIsEven(s, es[0]);
      EventKeepsInv(s, es[0]);
      RunIsEven(Next(s, es[0]), es[1..]);
    }
  }

  lemma InitialIsEven(chain: seq<Toxic>)
    requires |chain| >= 1
    ensures Even(Initial(chain)) && AllSound(Initial(chain))
  {
  }

  lemma RunsAreEven(chain: seq<Toxic>, es: seq<Event>)
    requires |chain| >= 1 && Legal(Initial(chain), es)
    ensures Even(Outcome(Initial(chain), es)) && AllSound(Outcome(Initial(chain), es))
    ensures Inv(Outcome(Initial(chain), es))
  {
    hide Even, AllSound, Inv, Initial, Legal, Outcome;
    InitialInv(chain);
    InitialIsEven(chain);
    RunIsEven(Initial(chain), es);
    RunInv(chain, es);
  }

  /** No event of the list ends the operation's chance to restart a stub. */
  ghost predicate Busy(s: State, es: seq<Event>)
    requires Legal(s, es)
    decreases |es|
  {
    Pending(s.ctl) && (es == [] || Busy(Next(s, es[0]), es[1..]))
  }

  lemma EventGoesOn(s: State, e: Event)
    requires Inv(s) && AllSound(s) && Enabled(s, e) && Pending(s.ctl) && Pending(Next(s, e).ctl)
    ensures GoesOn(s, Next(s, e))
  {
    hide AllSound, Wiring, Phase, Shaking, Closure, Ends, Counts, Aligned, Data, Can, Do;
    match e {
      case One(m) => MoveGoesOn(s, m);
      case Handoff(w, r, draw) =>
        var s1 := Do(s, Put(w));
        OthersCall(s, Put(w));
        MoveGoesOn(s, Put(w));
        MoveKeepsSound(s, Put(w));
        MoveGoesOn(s1, Take(r, draw));
        GoesOnAndOn(s, s1, Do(s1, Take(r, draw)));
    }
  }

  lemma GoesOnAndOn(s: State, s1: State, s2: State)
    requires GoesOn(s, s1) && GoesOn(s1, s2)
    ensures GoesOn(s, s2)
  {
  }

  lemma {:induction false} RunGoesOn(s: State, es: seq<Event>)
    requires Inv(s) && Even(s) && AllSound(s) && Legal(s, es) && Busy(s, es)
    ensures GoesOn(s, Outcome(s, es))
    decreases |es|
  {
    hide Inv, Even, AllSound;
    if es != [] {
      var s1 := Next(s, es[0]);
      assert Pending(s1.ctl);
      EventGoesOn(s, es[0]);
      EventKeepsInv(s, es[0]);
      EventIsEven(s, es[0]);
      RunGoesOn(s1, es[1..]);
      GoesOnAndOn(s, s1, Outcome(s1, es[1..]));
    }
  }

  // ----- what a call decides -----

  /** The controller's next step restarts a stub. */
  predicate Restarts(s: State) {
    Can(s, Proceed) && (((s.ctl.Adding? || s.ctl.Updating?) && s.ctl.shake.ok) || s.ctl.Draining?)
  }

  /** The place of the stub that the operation restarts. */
  function RestartPlace(s: State, op: Op): int {
    match op
    case Add(_) => |s.stubs| - 1
    case Update(k, _) => k
    case Remove(k) => k - 1
  }

  /** At its call it is decided that the operation, if it comes to its restart, starts limit_data on a stub that
      has no state for it. */
  predicate AtRisk(s: State, op: Op)
    requires CanBegin(s, op) && 0 <= RestartPlace(s, op) < |s.stubs|
  {
    && s.stubs[RestartPlace(s, op)].state.None?
    && match op
       case Add(t) => |s.stubs| == |s.chain| + 1 && t.LimitData?
       case Update(k, t) => t.LimitData?
       case Remove(k) => s.chain[k - 1].LimitData?
  }

  /** Restarted stub r aside, the step from s to s' makes no stub Stateless. */
  ghost predicate OnlySpawns(s: State, s': State, r: int, removed: bool) {
    forall j :: 0 <= j < |s'.stubs| && j != r && Stateless(s'.stubs[j]) ==>
      var i := if removed && j > r then j + 1 else j;
      i < |s.stubs| && Stateless(s.stubs[i])
  }

  lemma AddCalled(s: State, t: Toxic, s': State)
    requires CanBegin(s, Add(t)) && GoesOn(BeginOp(s, Add(t)), s')
    ensures s'.ctl.Adding? && s'.ctl.t == t && |s'.stubs| == |s.stubs| + 1 && s'.chain == s.chain + [t]
    ensures var r := |s.stubs| - 1;
      s'.stubs[r].toxic == s.stubs[r].toxic && (s'.stubs[r].state.None? <==> s.stubs[r].state.None?)
  {
    var s1, r := BeginOp(s, Add(t)), |s.stubs| - 1;
    assert s1.stubs[r] == s.stubs[r] && s1.chain == s.chain + [t] && |s1.stubs| == |s.stubs| + 1;
  }

  lemma AddSpawns(s: State)
    requires Restarts(s) && s.ctl.Adding? && Phase(s) && Parked(s, |s.stubs| - 2) && Even(s)
    ensures var s2, r := Advance(s), |s.stubs| - 2;
      if r >= |s.chain| then s2.fault == ChainIndex
      else
        && s2.fault == NoFault && |s2.stubs| == |s.stubs| && s2.stubs[r].toxic == s.chain[r]
        && (Surplus(s) == 0 ==> s.chain[r] == s.stubs[r].toxic)
        && (Stateless(s2.stubs[r]) <==> s.chain[r].LimitData? && s.stubs[r].state.None?)
        && (Surplus(s) == 0 ==> !Stateless(s2.stubs[r])) && OnlySpawns(s, s2, r, false)
  {
    AddRestarts(s);
    hide Advance, Phase;
    if Surplus(s) == 0 {
      var r := |s.stubs| - 2;
      assert Place(s, r) == r && !Concerned(s, r) && Runs(s.stubs[r], s.chain[r]);
    }
  }

  lemma AddDecides(s: State, t: Toxic, s': State)
    requires CanBegin(s, Add(t)) && GoesOn(BeginOp(s, Add(t)), s') && Restarts(s')
    requires Phase(s') && Shaking(s') && Even(s') && Surplus(s) >= 0
    ensures var s2, r := Advance(s'), |s.stubs| - 1;
      && (s2.fault == ChainIndex <==> Surplus(s) >= 2)
      && (s2.fault != ChainIndex ==>
            && |s2.stubs| == |s.stubs| + 1
            && s2.stubs[r].toxic == (if Surplus(s) == 0 then s.stubs[r].toxic else t)
            && (Stateless(s2.stubs[r]) <==> AtRisk(s, Add(t))) && OnlySpawns(s', s2, r, false))
  {
    hide GoesOn, BeginOp, Phase, Even, OnlySpawns, Stateless;
    AddCalled(s, t, s');
    AddSpawns(s');
  }

  lemma UpdateDecides(s: State, k: nat, t: Toxic, s': State)
    requires CanBegin(s, Update(k, t)) && k < |s.stubs| && GoesOn(BeginOp(s, Update(k, t)), s') && Restarts(s')
    requires Shaking(s')
    ensures var s2 := Advance(s');
      && s2.fault != ChainIndex && |s2.stubs| == |s.stubs| && s2.stubs[k].toxic == t
      && (Stateless(s2.stubs[k]) <==> AtRisk(s, Update(k, t))) && OnlySpawns(s', s2, k, false)
  {
    var s1 := BeginOp(s, Update(k, t));
    assert s1.stubs == s.stubs && s1.ctl == Updating(k, t, Offered);
    assert Parked(s', k);
    hide BeginOp, Shaking;
    UpdateRestarts(s');
  }

  lemma RemoveCalled(s: State, k: nat, s': State)
    requires CanBegin(s, Remove(k)) && k < |s.stubs| && GoesOn(BeginOp(s, Remove(k)), s')
    ensures (s'.ctl.Removing? || s'.ctl.Flushing? || s'.ctl.Draining?) && s'.ctl.k == k && |s'.stubs| == |s.stubs|
    ensures |s'.chain| == |s.chain| - 1 && s'.chain[k - 1] == s.chain[k - 1]
    ensures s'.stubs[k - 1].toxic == s.stubs[k - 1].toxic
    ensures s'.stubs[k - 1].state.None? <==> s.stubs[k - 1].state.None?
  {
    var s1 := BeginOp(s, Remove(k));
    assert s1.stubs == s.stubs && s1.ctl.Removing? && s1.ctl.k == k && s1.chain == s.chain[..k] + s.chain[k + 1..];
  }

  lemma RemoveSpawns(s: State)
    requires Restarts(s) && s.ctl.Draining? && Parked(s, s.ctl.k - 1) && s.ctl.k <= |s.chain| && Even(s)
    ensures var s2, r := Advance(s), s.ctl.k - 1;
      && s2.fault == NoFault && |s2.stubs| == |s.stubs| - 1 && s2.stubs[r].toxic == s.chain[r]
      && (Surplus(s) == 0 ==> s.chain[r] == s.stubs[r].toxic)
      && (Stateless(s2.stubs[r]) <==> s.chain[r].LimitData? && s.stubs[r].state.None?)
      && OnlySpawns(s, s2, r, true)
  {
    RemoveRestarts(s);
    hide Advance;
    if Surplus(s) == 0 {
      var r := s.ctl.k - 1;
      assert Place(s, r) == r && !Concerned(s, r) && Runs(s.stubs[r], s.chain[r]);
    }
  }

  lemma RemoveDecides(s: State, k: nat, s': State)
    requires CanBegin(s, Remove(k)) && k < |s.stubs| && GoesOn(BeginOp(s, Remove(k)), s') && Restarts(s')
    requires Phase(s') && Even(s') && Counts(s') && Surplus(s) >= 0
    ensures var s2, r := Advance(s'), k - 1;
      && s2.fault != ChainIndex && |s2.stubs| == |s.stubs| - 1 && s2.stubs[r].toxic == s.chain[r]
      && (Surplus(s) == 0 ==> s.chain[r] == s.stubs[r].toxic)
      && (Stateless(s2.stubs[r]) <==> AtRisk(s, Remove(k))) && OnlySpawns(s', s2, r, true)
  {
    hide GoesOn, BeginOp, Even, OnlySpawns, Stateless;
    RemoveCalled(s, k, s');
    RemoveSpawns(s');
  }

  /** What the restart gives the stub: AddToxic, its own toxic if no removal has left a stub behind, and the
      new one if one has; RemoveToxic, the entry of the chain at its place, which is its own under the same
      condition. */
  function RestartToxic(s: State, op: Op): Toxic
    requires CanBegin(s, op) && 0 <= RestartPlace(s, op) < |s.stubs|
  {
    match op
    case Add(t) => if Surplus(s) == 0 then s.stubs[|s.stubs| - 1].toxic else t
    case Update(_, t) => t
    case Remove(k) => s.chain[k - 1]
  }

  /** The restart in s' of the operation called in s is as the call decided. */
  ghost predicate AsDecided(s: State, op: Op, s': State)
    requires CanBegin(s, op) && 0 <= RestartPlace(s, op) < |s.stubs| && Restarts(s')
  {
    var s2, r := Do(s', Proceed), RestartPlace(s, op);
    && (s2.fault == ChainIndex <==> op.Add? && Surplus(s) >= 2)
    && (s2.fault != ChainIndex ==>
          && r < |s2.stubs| && s2.stubs[r].toxic == RestartToxic(s, op)
          && (Stateless(s2.stubs[r]) <==> AtRisk(s, op)) && OnlySpawns(s', s2, r, op.Remove?))
    && (Surplus(s) == 0 && !op.Update? ==> RestartToxic(s, op) == s.stubs[r].toxic)
  }

  lemma RestartIsAsDecided(s: State, op: Op, s': State)
    requires CanBegin(s, op) && Counts(s) && GoesOn(BeginOp(s, op), s') && Restarts(s')
    requires Phase(s') && Shaking(s') && Counts(s') && Even(s) && Even(s')
    ensures 0 <= RestartPlace(s, op) < |s.stubs| && AsDecided(s, op, s')
  {
    hide BeginOp, GoesOn, Even, OnlySpawns, Stateless, Advance;
    match op
    case Add(t) => AddDecides(s, t, s');
    case Update(k, t) => UpdateDecides(s, k, t, s');
    case Remove(k) => RemoveDecides(s, k, s');
  }

  lemma CallDecides(s: State, op: Op, es: seq<Event>)
    requires Inv(s) && Even(s) && AllSound(s) && s.fault == NoFault && CanBegin(s, op)
    requires var s1 := BeginOp(s, op); Legal(s1, es) && Busy(s1, es) && Restarts(Outcome(s1, es))
    ensures 0 <= RestartPlace(s, op) < |s.stubs| && AsDecided(s, op, Outcome(BeginOp(s, op), es))
  {
    hide Wiring, Closure, Ends, Aligned, Data, Phase, Shaking, Counts, Legal, Outcome, Busy, Even, AllSound, GoesOn,
      Restarts, AsDecided, BeginOp, CanBegin, RestartPlace;
    var s1 := BeginOp(s, op);
    BeginKept(s, op);
    RunGoesOn(s1, es);
    RunKeptFrom(s1, es);
    RestartIsAsDecided(s, op, Outcome(s1, es));
  }

  /** An operation is called, in any run, and comes to its restart. Then it was decided at the call what the
      restart gives the stub, whether the chain has no entry for it, and whether that stub, and no other,
      starts limit_data without the state for it. */
  lemma CallDecidesRestart(chain: seq<Toxic>, es: seq<Event>, op: Op, es': seq<Event>)
    requires |chain| >= 1 && Legal(Initial(chain), es)
    requires var s := Outcome(Initial(chain), es);
      && s.fault == NoFault && CanBegin(s, op)
      && Legal(BeginOp(s, op), es') && Busy(BeginOp(s, op), es') && Restarts(Outcome(BeginOp(s, op), es'))
    ensures var s := Outcome(Initial(chain), es);
      && 0 <= RestartPlace(s, op) < |s.stubs|
      && AsDecided(s, op, Outcome(BeginOp(s, op), es'))
  {
    hide *;
    RunsAreEven(chain, es);
    CallDecides(Outcome(Initial(chain), es), op, es');
  }

  lemma BeginKept(s: State, op: Op)
    requires Inv(s) && Even(s) && AllSound(s) && s.fault == NoFault && CanBegin(s, op)
    ensures var s1 := BeginOp(s, op); Inv(s1) && Even(s1) && AllSound(s1)
  {
    hide Even, AllSound, BeginOp, CanBegin;
    MoveKeepsInv(s, Begin(op));
    MoveIsEven(s, Begin(op));
    MoveKeepsSound(s, Begin(op));
  }

  lemma RunKeptFrom(s: State, es: seq<Event>)
    requires Inv(s) && Even(s) && AllSound(s) && Legal(s, es)
    ensures Inv(Outcome(s, es)) && Even(Outcome(s, es))
  {
    hide Inv, Even, AllSound;
    RunKeepsInv(s, es);
    RunIsEven(s, es);
  }

  lemma BeginSpawnsNothing(s: State, op: Op, j: nat)
    requires CanBegin(s, op) && j < |BeginOp(s, op).stubs| && Stateless(BeginOp(s, op).stubs[j])
    ensures j < |s.stubs| && Stateless(s.stubs[j])
  {
    hide AllOpen;
  }

  lemma ShutSpawnsNothing(s: State, j: nat)
    requires CanProceed(s) && s.ctl.Shutting? && j < |ShutStep(s).stubs| && Stateless(ShutStep(s).stubs[j])
    ensures j < |s.stubs| && Stateless(s.stubs[j])
  {
    ShutStepIs(s);
    hide ShutStep;
  }

  lemma StepSpawnsNothing(s: State, j: nat)
    requires CanProceed(s) && s.fault == NoFault && !Restarts(s)
    requires j < |Advance(s).stubs| && Stateless(Advance(s).stubs[j])
    ensures j < |s.stubs| && Stateless(s.stubs[j])
  {
    if s.ctl.Shutting? {
      ShutSpawnsNothing(s, j);
    } else if s.ctl.Adding? {
      hide SpliceIn, SpliceOut, Spawn;
      assert Advance(s).stubs[j].pc == s.stubs[j].pc;
    } else if s.ctl.Updating? {
      hide SpliceIn, SpliceOut, Spawn;
      assert Advance(s) == s.(ctl := Free);
    } else {
      hide Stateless;
      RemovingStep(s);
    }
  }

  /** The controller's restarts aside, no move makes a stub Stateless. */
  lemma NothingElseSpawns(s: State, m: Move, j: nat)
    requires AllSound(s) && Can(s, m) && !(m.Proceed? && Restarts(s))
    requires j < |Do(s, m).stubs| && Stateless(Do(s, m).stubs[j])
    ensures j < |s.stubs| && Stateless(s.stubs[j])
  {
    hide Restarts, Advance, BeginOp, AllSound;
    if m.Proceed? {
      StepSpawnsNothing(s, j);
    } else if m.Begin? {
      BeginSpawnsNothing(s, m.op, j);
    } else {
      OthersFollow(s, m);
      assert Follows(s.stubs[j], Do(s, m).stubs[j]);
    }
  }

  // ----- runs without a call at risk -----

  /** The operation that is carried out was at risk at its call, as far as this state tells. */
  predicate RiskNow(s: State) {
    match s.ctl
    case Adding(t, _) =>
      |s.stubs| >= 2 && Surplus(s) == 1 && t.LimitData? && s.stubs[|s.stubs| - 2].state.None?
    case Updating(k, t, _) => k < |s.stubs| && t.LimitData? && s.stubs[k].state.None?
    case Free => false
    case Shutting(_, _, _) => false
    case _ =>
      var r := s.ctl.k - 1;
      0 <= r < |s.stubs| && r < |s.chain| && s.chain[r].LimitData? && s.stubs[r].state.None?
  }

  /** No goroutine lacks its state, and none will when the operation comes to its restart. */
  ghost predicate Supplied(s: State) {
    !RiskNow(s) && forall i :: 0 <= i < |s.stubs| ==> !Stateless(s.stubs[i])
  }

  lemma RiskIsDecided(s: State, op: Op)
    requires CanBegin(s, op) && 0 <= RestartPlace(s, op) < |s.stubs| && (op.Add? || op.k < |s.stubs|)
    ensures RiskNow(BeginOp(s, op)) <==> AtRisk(s, op)
  {
    hide AllOpen;
  }

  lemma RiskStays(s: State, s': State)
    requires GoesOn(s, s')
    ensures RiskNow(s') ==> RiskNow(s)
  {
  }

  lemma BeginIsSupplied(s: State, op: Op)
    requires Supplied(s) && CanBegin(s, op) && 0 <= RestartPlace(s, op) < |s.stubs| && !AtRisk(s, op)
    requires op.Add? || op.k < |s.stubs|
    ensures Supplied(BeginOp(s, op))
  {
    hide BeginOp, AtRisk, RiskNow, Stateless;
    RiskIsDecided(s, op);
    forall j | 0 <= j < |BeginOp(s, op).stubs|
      ensures !Stateless(BeginOp(s, op).stubs[j])
    {
      if Stateless(BeginOp(s, op).stubs[j]) { BeginSpawnsNothing(s, op, j); }
    }
  }

  lemma AddIsSupplied(s: State)
    requires Supplied(s) && Restarts(s) && s.ctl.Adding? && Phase(s) && Parked(s, |s.stubs| - 2) && Even(s)
    requires Surplus(s) >= 0
    ensures Advance(s).fault != ChainIndex ==> Supplied(Advance(s))
  {
    AddSpawns(s);
    AddRestarts(s);
    var s2, r := Advance(s), |s.stubs| - 2;
    hide Advance, Even, Phase;
    if s2.fault != ChainIndex {
      assert Surplus(s) == 1 ==> s.chain[r] == s.ctl.t by { EvenCalls(s); }
      assert !Stateless(s2.stubs[r]);
    }
  }

  lemma EvenCalls(s: State)
    requires Even(s) && s.ctl.Adding?
    ensures |s.chain| >= 1 && s.chain[|s.chain| - 1] == s.ctl.t
  {
  }

  lemma UpdateIsSupplied(s: State)
    requires Supplied(s) && Restarts(s) && s.ctl.Updating? && Parked(s, s.ctl.k)
    ensures Supplied(Advance(s))
  {
    UpdateRestarts(s);
  }

  lemma DrainIsSupplied(s: State)
    requires Supplied(s) && Restarts(s) && s.ctl.Draining? && Parked(s, s.ctl.k - 1) && s.ctl.k <= |s.chain| && Even(s)
    ensures Supplied(Advance(s))
  {
    RemoveSpawns(s);
    RemoveRestarts(s);
    hide Advance, Even, Restarts, Stateless;
    assert !Stateless(Advance(s).stubs[s.ctl.k - 1]);
  }

  lemma StepIsSupplied(s: State)
    requires Supplied(s) && CanProceed(s) && s.fault == NoFault && !Restarts(s)
    ensures Supplied(Advance(s))
  {
    hide Advance, Stateless, RiskNow, Restarts;
    forall j | 0 <= j < |Advance(s).stubs|
      ensures !Stateless(Advance(s).stubs[j])
    {
      if Stateless(Advance(s).stubs[j]) { StepSpawnsNothing(s, j); }
    }
    assert !RiskNow(Advance(s)) by {
      if Pending(Advance(s).ctl) {
        StaysPending(s);
        PhasesGoOn(s);
        RiskStays(s, Advance(s));
      } else {
        NoRiskWithout(Advance(s));
      }
    }
  }

  lemma StaysPending(s: State)
    requires CanProceed(s) && Pending(Advance(s).ctl)
    ensures Pending(s.ctl)
  {
    hide SpliceIn, SpliceOut, Spawn, SetAside, ShutStep, StartRemoval;
    if s.ctl.Shutting? {
      ShutStepIs(s);
    }
  }

  lemma NoRiskWithout(s: State)
    requires !Pending(s.ctl)
    ensures !RiskNow(s)
  {
  }

  lemma OthersAreSupplied(s: State, m: Move)
    requires Supplied(s) && AllSound(s) && Can(s, m) && !m.Begin? && !m.Proceed?
    ensures Supplied(Do(s, m))
  {
    hide AllSound, Do, Can, RiskNow, Stateless;
    forall j | 0 <= j < |Do(s, m).stubs|
      ensures !Stateless(Do(s, m).stubs[j])
    {
      if Stateless(Do(s, m).stubs[j]) { NothingElseSpawns(s, m, j); }
    }
    if m.TakeEnd? && m.r.ToController? {
      FlushEndHasNoRisk(s);
    } else {
      OthersFollow(s, m);
      OthersCall(s, m);
      FollowingGoesOn(s, Do(s, m));
      RiskStays(s, Do(s, m));
    }
  }

  lemma FlushEndHasNoRisk(s: State)
    requires Can(s, TakeEnd(ToController))
    ensures !RiskNow(Do(s, TakeEnd(ToController)))
  {
  }

  lemma AdvanceIsSupplied(s: State)
    requires Supplied(s) && Can(s, Proceed) && Phase(s) && Shaking(s) && Counts(s) && Even(s)
    ensures Advance(s).fault != ChainIndex ==> Supplied(Advance(s))
  {
    hide Advance, Supplied, Even;
    if !Restarts(s) {
      StepIsSupplied(s);
    } else if s.ctl.Adding? {
      AddIsSupplied(s);
    } else if s.ctl.Updating? {
      UpdateIsSupplied(s);
    } else {
      DrainIsSupplied(s);
    }
  }

  /** A call of an operation that was at risk. */
  predicate RiskyCall(s: State, m: Move)
    requires Can(s, m)
  {
    m.Begin? && 0 <= RestartPlace(s, m.op) < |s.stubs| && AtRisk(s, m.op)
  }

  lemma MoveIsSupplied(s: State, m: Move)
    requires Supplied(s) && Inv(s) && Even(s) && AllSound(s) && Can(s, m) && !RiskyCall(s, m)
    ensures Do(s, m).fault != ChainIndex ==> Supplied(Do(s, m))
  {
    hide Supplied, Even, AllSound, Wiring, Closure, Ends, Aligned, Data, Advance, BeginOp, AtRisk;
    if m.Proceed? {
      AdvanceIsSupplied(s);
    } else if m.Begin? {
      BeginIsSupplied(s, m.op);
    } else {
      OthersAreSupplied(s, m);
    }
  }
}
