/** How AddToxic, UpdateToxic and RemoveToxic end, once the stub that they interrupt has answered. */
module LinkOperations {
  import opened Bytes
  import opened Link
  import opened LinkData
  import opened LinkInvariant
  import opened LinkRestarts
  import opened LinkSplices
  import opened LinkSteps
  import opened LinkTheorems
  import Slicer
  import opened Wrappers

  // ----- while the controller waits -----

  /** The same stubs, at the same channels. */
  ghost predicate Alike(s: State, s': State) {
    && |s'.stubs| == |s.stubs| && s'.chain == s.chain
    && forall i :: 0 <= i < |s.stubs| ==>
         s'.stubs[i].input == s.stubs[i].input && s'.stubs[i].output == s.stubs[i].output
  }

  lemma FollowingIsAlike(s: State, s': State)
    requires AllFollow(s, s')
    ensures Alike(s, s')
  {
    assert forall i :: 0 <= i < |s.stubs| ==> Follows(s.stubs[i], s'.stubs[i]);
  }

  lemma AlikeAndAlike(s: State, s1: State, s2: State)
    requires Alike(s, s1) && Alike(s1, s2)
    ensures Alike(s, s2)
  {
  }

  /** The controller is where it was, but for its hand and for an interrupt that is not answered yet. */
  predicate Waits(c: Ctl, c': Ctl) {
    SamePhase(c, c') && (ShakeOf(c).Some? && ShakeOf(c).value.Answered? ==> ShakeOf(c') == ShakeOf(c))
  }

  lemma SendWaits(s: State, w: Sender)
    requires CanSend(s, w)
    ensures Waits(s.ctl, Resume(s, w).ctl) && Send(s, w).ctl == Resume(s, w).ctl
  {
    ResumeWaits(s, w);
    hide Resume, Waits;
  }

  lemma ResumeWaits(s: State, w: Sender)
    requires CanSend(s, w)
    ensures Waits(s.ctl, Resume(s, w).ctl) && Resume(s, w).chans == s.chans
  {
    hide AfterSend;
  }

  lemma ReceiveWaits(s: State, r: Receiver, draw: Slicer.Draws)
    requires CanReceive(s, r)
    ensures s.chans[ReceiveChan(s, r)].buf != [] ==> Waits(s.ctl, Receive(s, r, draw).ctl)
    ensures !r.ToController? ==> Waits(s.ctl, ReceiveEnd(s, r).ctl)
  {
    hide AfterReceive, AfterEnd, Discards;
  }

  lemma ShakeWaits(s: State, m: Move)
    requires Can(s, m) && (m.Deliver? || m.Answer?)
    ensures Waits(s.ctl, Do(s, m).ctl)
  {
    hide Interruptible, Interrupted;
  }

  lemma OthersWait(s: State, m: Move)
    requires Can(s, m) && !m.Begin? && !m.Proceed? && m != TakeEnd(ToController)
    ensures Waits(s.ctl, Do(s, m).ctl)
  {
    hide Send, Resume, Receive, ReceiveEnd, Run, Timer, CloseStep, CanTick, CanAnswer, CanSend, CanReceive,
      TakeInterrupt, CloseChan, Waits;
    if m.Put? || m.GiveUp? {
      SendWaits(s, m.w);
    } else if m.Take? {
      ReceiveWaits(s, m.r, m.draw);
    } else if m.TakeEnd? {
      ReceiveWaits(s, m.r, (x, y) => 0);
    } else if m.Deliver? || m.Answer? {
      ShakeWaits(s, m);
    } else if m.CloseInput? {
      CloseChanIs(s, s.input);
      StillWaits(s.ctl);
    } else {
      if m.Start? || m.Tick? || m.Close? { StubsKeepCall(s, m); }
      StillWaits(s.ctl);
    }
  }

  lemma StillWaits(c: Ctl)
    ensures Waits(c, c)
  {
  }

  lemma OthersAreAlike(s: State, m: Move)
    requires AllSound(s) && Can(s, m) && !m.Begin? && !m.Proceed?
    ensures Alike(s, Do(s, m))
  {
    OthersFollow(s, m);
    FollowingIsAlike(s, Do(s, m));
  }

  // ----- the end of an operation -----

  /** The last event of the list ends the operation, and none before it does. */
  ghost predicate Until(s: State, es: seq<Event>)
    requires Legal(s, es)
    decreases |es|
  {
    if es == [] then s.ctl.Free? else !s.ctl.Free? && Until(Next(s, es[0]), es[1..])
  }

  ghost predicate Good(s: State) {
    Inv(s) && Even(s) && AllSound(s)
  }

  lemma MoveIsGood(s: State, m: Move)
    requires Good(s) && Can(s, m)
    ensures Good(Do(s, m))
  {
    hide Even, AllSound, Do, Can;
    MoveKeepsInv(s, m);
    MoveIsEven(s, m);
    MoveKeepsSound(s, m);
  }

  lemma EventIsGood(s: State, e: Event)
    requires Good(s) && Enabled(s, e)
    ensures Good(Next(s, e))
  {
    hide Good, Do, Can;
    match e {
      case One(m) => MoveIsGood(s, m);
      case Handoff(w, r, draw) =>
        MoveIsGood(s, Put(w));
        MoveIsGood(Do(s, Put(w)), Take(r, draw));
    }
  }

  /** The stub has no goroutine, and it and its output are closed. */
  predicate IsShut(s: State, k: int) {
    && 0 <= k < |s.stubs| && s.stubs[k].closed && s.stubs[k].pc.Idle?
    && s.stubs[k].output < |s.chans| && s.chans[s.stubs[k].output].closed
  }

  lemma JoinProceeds(s: State)
    requires Can(s, Proceed) && s.ctl.Shutting? && s.ctl.stage == Join
    ensures Do(s, Proceed) == s.(ctl := Free)
  {
    hide CloseChan, SetStub;
  }

  lemma FreeIsShut(s: State, s': State, k: int)
    requires IsShut(s, k) && s' == s.(ctl := Free)
    ensures IsShut(s', k) && Alike(s, s')
  {
  }

  lemma StagesAreAlike(s: State)
    requires CanProceed(s) && s.ctl.Shutting? && Phase(s)
    ensures Alike(s, Advance(s))
  {
    ShuttingStep(s);
    hide Advance, Phase;
  }

  lemma ShutProceeds(s: State)
    requires Inv(s) && Can(s, Proceed) && s.ctl.Shutting?
    ensures var s' := Do(s, Proceed);
      && Alike(s, s')
      && ((s'.ctl.Shutting? && s'.ctl.k == s.ctl.k) || (s'.ctl.Free? && IsShut(s', s.ctl.k)))
  {
    hide Wiring, Phase, Shaking, Closure, Ends, Counts, Aligned, Data, Advance, CanProceed, Alike, IsShut;
    if s.ctl.stage == Join {
      JoinIsShut(s);
      JoinProceeds(s);
      FreeIsShut(s, s.(ctl := Free), s.ctl.k);
    } else {
      StagesAreAlike(s);
      StagesGoOn(s);
    }
  }

  lemma StagesGoOn(s: State)
    requires CanProceed(s) && s.ctl.Shutting? && s.ctl.stage != Join
    ensures Advance(s).ctl.Shutting? && Advance(s).ctl.k == s.ctl.k
  {
    ShutStepIs(s);
    hide ShutStep;
  }

  lemma JoinIsShut(s: State)
    requires Wiring(s) && Phase(s) && Closure(s) && s.ctl.Shutting? && s.ctl.stage == Join
    ensures IsShut(s, s.ctl.k)
  {
  }

  lemma ShutMoves(s: State, m: Move)
    requires Good(s) && Can(s, m) && s.ctl.Shutting?
    ensures var s' := Do(s, m);
      && Alike(s, s') && (!m.Proceed? ==> s'.ctl.Shutting?)
      && ((s'.ctl.Shutting? && s'.ctl.k == s.ctl.k) || (s'.ctl.Free? && IsShut(s', s.ctl.k)))
  {
    hide Inv, Even, AllSound, Alike, IsShut;
    if m.Proceed? {
      ShutProceeds(s);
    } else {
      OthersAreAlike(s, m);
      OthersWait(s, m);
    }
  }

  lemma ShutEvent(s: State, e: Event)
    requires Good(s) && Enabled(s, e) && s.ctl.Shutting?
    ensures var s' := Next(s, e);
      && Alike(s, s')
      && ((s'.ctl.Shutting? && s'.ctl.k == s.ctl.k) || (s'.ctl.Free? && IsShut(s', s.ctl.k)))
  {
    hide Good, Alike, IsShut, Do, Can;
    match e {
      case One(m) => ShutMoves(s, m);
      case Handoff(w, r, draw) =>
        ShutMoves(s, Put(w));
        MoveIsGood(s, Put(w));
        ShutMoves(Do(s, Put(w)), Take(r, draw));
        AlikeAndAlike(s, Do(s, Put(w)), Next(s, e));
    }
  }

  lemma {:induction false} ShutRun(s: State, es: seq<Event>)
    requires Good(s) && Legal(s, es) && Until(s, es) && s.ctl.Shutting?
    ensures var s2 := Outcome(s, es); Alike(s, s2) && IsShut(s2, s.ctl.k)
    decreases |es|
  {
    hide Good, Alike, IsShut, Enabled, Next;
    var s1 := Next(s, es[0]);
    ShutEvent(s, es[0]);
    EventIsGood(s, es[0]);
    if s1.ctl.Shutting? {
      ShutRun(s1, es[1..]);
      AlikeAndAlike(s, s1, Outcome(s1, es[1..]));
    }
  }

  // ----- RemoveToxic -----

  /** The interrupt was answered true, the toxic is not a timeout, and its stub has not been taken out yet. */
  predicate InFlush(c: Ctl, k: int) {
    && ((c.Removing? && c.shake == Answered(true) && !c.t.Timeout?) || c.Flushing? || c.Draining?)
    && c.k == k
  }

  /** s' is s without stub k; the stub before it has its output, and runs the entry of the chain at its place. */
  ghost predicate TakenOut(s: State, s': State, k: nat) {
    && 1 <= k < |s.stubs| == |s'.stubs| + 1 && s'.chain == s.chain && k <= |s.chain|
    && (forall i :: 0 <= i < k ==> s'.stubs[i].input == s.stubs[i].input)
    && (forall i :: 0 <= i < k - 1 ==> s'.stubs[i].output == s.stubs[i].output)
    && s'.stubs[k - 1].output == s.stubs[k].output
    && (forall i :: k <= i < |s'.stubs| ==>
          s'.stubs[i].input == s.stubs[i + 1].input && s'.stubs[i].output == s.stubs[i + 1].output)
    && s'.stubs[k - 1].pc.Spawned? && s'.stubs[k - 1].toxic == s.chain[k - 1]
  }

  lemma AlikeTakenOut(s: State, s1: State, s2: State, k: nat)
    requires Alike(s, s1) && TakenOut(s1, s2, k)
    ensures TakenOut(s, s2, k)
  {
  }

  predicate SawEnd(es: seq<Event>)
    decreases |es|
  {
    es != [] && (es[0] == One(TakeEnd(ToController)) || SawEnd(es[1..]))
  }

  lemma RestartTakesOut(s: State, s': State, k: nat, b: Stub)
    requires 1 <= k < |s.stubs| && k <= |s.chain| && s'.chain == s.chain
    requires b.input == s.stubs[k - 1].input && b.output == s.stubs[k].output
    requires b.pc.Spawned? && b.toxic == s.chain[k - 1]
    requires s'.stubs == s.stubs[..k - 1] + [b] + s.stubs[k + 1..]
    ensures TakenOut(s, s', k)
  {
  }

  lemma DrainIsParked(s: State)
    requires Phase(s) && Counts(s) && s.ctl.Draining?
    ensures 1 <= s.ctl.k <= |s.chain| && Parked(s, s.ctl.k - 1) && s.ctl.k < |s.stubs|
  {
  }

  lemma DrainTakesOut(s: State)
    requires Inv(s) && Can(s, Proceed) && s.ctl.Draining?
    ensures Do(s, Proceed).ctl.Free? && TakenOut(s, Do(s, Proceed), s.ctl.k)
  {
    hide Wiring, Phase, Shaking, Closure, Ends, Counts, Aligned, Data, Advance, CanProceed, TakenOut, Parked;
    DrainIsParked(s);
    RemoveRestarts(s);
    var k := s.ctl.k;
    RestartTakesOut(s, Do(s, Proceed), k, Restarted(s.stubs[k - 1].(output := s.stubs[k].output), s.chain[k - 1]));
  }

  lemma FlushProceeds(s: State, k: nat)
    requires Inv(s) && Can(s, Proceed) && InFlush(s.ctl, k)
    ensures var s' := Do(s, Proceed);
      || (Alike(s, s') && InFlush(s'.ctl, k))
      || (s'.ctl.Free? && TakenOut(s, s', k))
  {
    hide Inv, TakenOut, SpliceOut, SpliceIn, Spawn, SetAside, ShutStep;
    if s.ctl.Draining? {
      DrainTakesOut(s);
    } else {
      RemovingStep(s);
    }
  }

  lemma FlushMoves(s: State, m: Move, k: nat)
    requires Good(s) && Can(s, m) && InFlush(s.ctl, k)
    ensures var s' := Do(s, m);
      if m == TakeEnd(ToController) then Alike(s, s') && s'.ctl.Shutting? && s'.ctl.k == k
      else if m.Proceed? then (Alike(s, s') && InFlush(s'.ctl, k)) || (s'.ctl.Free? && TakenOut(s, s', k))
      else Alike(s, s') && InFlush(s'.ctl, k)
  {
    hide Inv, Even, AllSound, Alike, TakenOut;
    if m.Proceed? {
      FlushProceeds(s, k);
    } else if m == TakeEnd(ToController) {
      OthersAreAlike(s, m);
    } else {
      OthersAreAlike(s, m);
      OthersWait(s, m);
    }
  }

  lemma FlushEvent(s: State, e: Event, k: nat)
    requires Good(s) && Enabled(s, e) && InFlush(s.ctl, k)
    ensures var s' := Next(s, e);
      if e == One(TakeEnd(ToController)) then Alike(s, s') && s'.ctl.Shutting? && s'.ctl.k == k
      else (Alike(s, s') && InFlush(s'.ctl, k)) || (s'.ctl.Free? && TakenOut(s, s', k))
  {
    hide Good, Alike, TakenOut, InFlush, Do, Can;
    match e {
      case One(m) => FlushMoves(s, m, k);
      case Handoff(w, r, draw) =>
        FlushMoves(s, Put(w), k);
        MoveIsGood(s, Put(w));
        FlushMoves(Do(s, Put(w)), Take(r, draw), k);
        AlikeAndAlike(s, Do(s, Put(w)), Next(s, e));
    }
  }

  lemma {:induction false} FlushRun(s: State, es: seq<Event>, k: nat)
    requires Good(s) && Legal(s, es) && Until(s, es) && InFlush(s.ctl, k)
    ensures var s2 := Outcome(s, es);
      if SawEnd(es) then Alike(s, s2) && IsShut(s2, k) else TakenOut(s, s2, k)
    decreases |es|
  {
    hide Good, Alike, IsShut, TakenOut, Enabled, Next;
    assert !s.ctl.Free?;
    var s1 := Next(s, es[0]);
    FlushEvent(s, es[0], k);
    EventIsGood(s, es[0]);
    if es[0] == One(TakeEnd(ToController)) {
      ShutRun(s1, es[1..]);
      AlikeAndAlike(s, s1, Outcome(s1, es[1..]));
    } else if InFlush(s1.ctl, k) {
      FlushRun(s1, es[1..], k);
      if SawEnd(es[1..]) {
        AlikeAndAlike(s, s1, Outcome(s1, es[1..]));
      } else {
        AlikeTakenOut(s, s1, Outcome(s1, es[1..]), k);
      }
    } else {
      assert s1.ctl.Free? && es[1..] == [] && !SawEnd(es[1..]);
    }
  }

  // ----- all operations -----

  /** How an operation ends whose interrupt was answered in s. */
  ghost predicate Concluded(s: State, s2: State, sawEnd: bool) {
    match s.ctl
    case Adding(_, Answered(ok)) => if ok then PutIn(s, s2) else SetApart(s, s2)
    case Updating(k, t, Answered(ok)) =>
      && Alike(s, s2) && k < |s2.stubs|
      && (if ok then s2.stubs[k].pc.Spawned? && s2.stubs[k].toxic == t else s2.stubs[k].closed)
    case Removing(k, t, Answered(ok)) =>
      if !ok then Alike(s, s2) && k < |s2.stubs| && s2.stubs[k].closed
      else if t.Timeout? || sawEnd then Alike(s, s2) && IsShut(s2, k)
      else TakenOut(s, s2, k)
    case _ => true
  }

  /** The appended stub has the output of the last one, which now feeds it, and both are started; or there is no
      entry of the chain for the last one, and the goroutine has panicked. */
  ghost predicate PutIn(s: State, s2: State)
    requires s.ctl.Adding?
  {
    var n := |s.stubs| - 1;
    if s2.fault == ChainIndex then |s.chain| < n
    else
      && 1 <= n <= |s.chain| && |s2.stubs| == n + 1 && s2.chain == s.chain
      && (forall i :: 0 <= i <= n ==> s2.stubs[i].input == s.stubs[i].input)
      && (forall i :: 0 <= i < n - 1 ==> s2.stubs[i].output == s.stubs[i].output)
      && s2.stubs[n - 1].output == s.stubs[n].input && s2.stubs[n].output == s.stubs[n - 1].output
      && s2.stubs[n - 1].pc.Spawned? && s2.stubs[n - 1].toxic == s.chain[n - 1]
      && s2.stubs[n].pc.Spawned? && s2.stubs[n].toxic == s.ctl.t
  }

  /** The appended stub is shut, at a channel of its own, and the link is as before. */
  ghost predicate SetApart(s: State, s2: State) {
    var n := |s.stubs| - 1;
    && n >= 1 && |s2.stubs| == n + 1 && s2.chain == s.chain && IsShut(s2, n)
    && (forall i :: 0 <= i <= n ==> s2.stubs[i].input == s.stubs[i].input)
    && (forall i :: 0 <= i < n ==> s2.stubs[i].output == s.stubs[i].output)
    && s2.stubs[n].output == s.stubs[n].input
  }

  predicate HasAnswer(c: Ctl) {
    (c.Adding? || c.Updating? || c.Removing?) && c.shake.Answered?
  }

  lemma WaitsForController(s: State, m: Move)
    requires Good(s) && Can(s, m) && !m.Proceed? && HasAnswer(s.ctl)
    ensures m != TakeEnd(ToController) && Do(s, m).ctl == s.ctl && Alike(s, Do(s, m))
  {
    hide Inv, Even, AllSound, Alike;
    OthersAreAlike(s, m);
    OthersWait(s, m);
  }

  lemma ConcludedLater(s: State, s1: State, s2: State, sawEnd: bool)
    requires HasAnswer(s.ctl) && s1.ctl == s.ctl && Alike(s, s1) && Concluded(s1, s2, sawEnd)
    ensures Concluded(s, s2, sawEnd)
  {
    match s.ctl {
      case Removing(k, _, Answered(ok)) =>
        if TakenOut(s1, s2, k) { AlikeTakenOut(s, s1, s2, k); }
        hide TakenOut, IsShut;
      case _ =>
        hide IsShut;
    }
  }

  lemma RewiredIsPutIn(s: State, s2: State)
    requires s.ctl.Adding? && |s.stubs| >= 2 && |s.stubs| <= |s.chain| + 1 && s2.chain == s.chain
    requires var n, s1 := |s.stubs| - 1, RewireIn(s);
      s2.stubs == s.stubs[n - 1 := Restarted(s1.stubs[n - 1], s.chain[n - 1])][n := Restarted(s1.stubs[n], s.ctl.t)]
    requires s2.fault != ChainIndex && s.stubs[|s.stubs| - 1].output == s.stubs[|s.stubs| - 2].output
    ensures PutIn(s, s2)
  {
  }

  lemma AddProceeds(s: State)
    requires Phase(s) && Shaking(s) && Can(s, Proceed) && s.ctl.Adding? && s.ctl.shake == Answered(true)
    ensures Do(s, Proceed).ctl.Free? && PutIn(s, Do(s, Proceed))
  {
    hide Phase, Shaking, Advance, RewireIn, PutIn, Parked;
    AddIsParked(s);
    AddRestarts(s);
    if |s.stubs| - 2 < |s.chain| {
      RewiredIsPutIn(s, Do(s, Proceed));
    } else {
      BeyondIsPutIn(s, Do(s, Proceed));
    }
  }

  lemma BeyondIsPutIn(s: State, s2: State)
    requires s.ctl.Adding? && |s.stubs| - 2 >= |s.chain| && s2.fault == ChainIndex
    ensures PutIn(s, s2)
  {
  }

  lemma AddIsParked(s: State)
    requires Phase(s) && Shaking(s) && s.ctl.Adding? && s.ctl.shake == Answered(true)
    ensures |s.stubs| >= 2 && s.stubs[|s.stubs| - 1].pc.Idle? && Parked(s, |s.stubs| - 2)
    ensures s.stubs[|s.stubs| - 1].output == s.stubs[|s.stubs| - 2].output
  {
  }

  lemma AsideProceeds(s: State)
    requires Can(s, Proceed) && s.ctl.Adding? && s.ctl.shake == Answered(false)
    ensures var s1, n := Do(s, Proceed), |s.stubs| - 1;
      && n >= 1 && s1.ctl.Shutting? && s1.ctl.k == n && s1.chain == s.chain && |s1.stubs| == n + 1
      && (forall i :: 0 <= i < n ==> s1.stubs[i] == s.stubs[i])
      && s1.stubs[n] == s.stubs[n].(output := s.stubs[n].input)
  {
    hide SpliceIn;
  }

  lemma AsideIsSetApart(s: State, s1: State, s2: State)
    requires s.ctl.Adding? && |s.stubs| >= 2 && s1.chain == s.chain && |s1.stubs| == |s.stubs|
    requires var n := |s.stubs| - 1;
      && (forall i :: 0 <= i < n ==> s1.stubs[i] == s.stubs[i])
      && s1.stubs[n] == s.stubs[n].(output := s.stubs[n].input) && Alike(s1, s2) && IsShut(s2, n)
    ensures SetApart(s, s2)
  {
    hide IsShut;
  }

  lemma UpdateSteps(s: State)
    requires CanProceed(s) && s.ctl.Updating? && (s.ctl.shake.ok ==> s.stubs[s.ctl.k].pc.Idle?)
    ensures var s2, k := Advance(s), s.ctl.k;
      && s2.ctl.Free? && Alike(s, s2) && k < |s2.stubs|
      && if s.ctl.shake.ok then s2.stubs[k].pc.Spawned? && s2.stubs[k].toxic == s.ctl.t
         else s2.stubs[k] == s.stubs[k]
  {
    if s.ctl.shake.ok { SpawnIdle(s, s.ctl.k, s.ctl.t); }
    hide SpliceIn, SpliceOut, Spawn, SetAside, ShutStep, StartRemoval;
  }

  lemma UpdateProceeds(s: State)
    requires Shaking(s) && Can(s, Proceed) && s.ctl.Updating?
    ensures var s2, k := Do(s, Proceed), s.ctl.k;
      && s2.ctl.Free? && Alike(s, s2) && k < |s2.stubs|
      && if s.ctl.shake.ok then s2.stubs[k].pc.Spawned? && s2.stubs[k].toxic == s.ctl.t else s2.stubs[k].closed
  {
    hide Shaking, Advance, Alike;
    UpdateMeets(s);
    UpdateSteps(s);
  }

  lemma UpdateMeets(s: State)
    requires Shaking(s) && s.ctl.Updating? && s.ctl.shake.Answered?
    ensures 0 <= s.ctl.k < |s.stubs|
    ensures if s.ctl.shake.ok then s.stubs[s.ctl.k].pc.Idle? else s.stubs[s.ctl.k].closed
  {
  }

  lemma RemovalSteps(s: State)
    requires CanProceed(s) && s.ctl.Removing? && !InFlush(s.ctl, s.ctl.k)
    ensures var s1, k := Advance(s), s.ctl.k;
      && Alike(s, s1) && s1.stubs == s.stubs
      && if s.ctl.shake.ok then s1.ctl.Shutting? && s1.ctl.k == k else s1.ctl.Free?
  {
    hide SpliceIn, SpliceOut, Spawn, SetAside, ShutStep;
  }

  lemma RemovalProceeds(s: State)
    requires Shaking(s) && Can(s, Proceed) && s.ctl.Removing? && !InFlush(s.ctl, s.ctl.k)
    ensures var s1, k := Do(s, Proceed), s.ctl.k;
      && Alike(s, s1)
      && if s.ctl.shake.ok then s1.ctl.Shutting? && s1.ctl.k == k
         else s1.ctl.Free? && k < |s1.stubs| && s1.stubs[k].closed
  {
    hide Shaking, Advance, Alike;
    RemovalMeets(s);
    RemovalSteps(s);
  }

  lemma RemovalMeets(s: State)
    requires Shaking(s) && s.ctl.Removing? && s.ctl.shake.Answered?
    ensures !s.ctl.shake.ok ==> 0 <= s.ctl.k < |s.stubs| && s.stubs[s.ctl.k].closed
  {
  }

  /** The controller has gone on from the answer, and `rest` follows. */
  ghost predicate GoneOn(s: State, s1: State, rest: seq<Event>) {
    && Can(s, Proceed) && s1 == Do(s, Proceed) && Good(s1) && Legal(s1, rest)
    && (if s1.ctl.Free? then rest == [] else Until(s1, rest))
  }

  lemma AnswerConcludes(s: State, s1: State, rest: seq<Event>, sawEnd: bool)
    requires Good(s) && HasAnswer(s.ctl) && !InFlush(s.ctl, if s.ctl.Removing? then s.ctl.k else 0)
    requires GoneOn(s, s1, rest)
    ensures Concluded(s, Outcome(s1, rest), sawEnd)
  {
    hide GoneOn, Concluded, Wiring, Phase, Shaking, Closure, Ends, Counts, Aligned, Data, Even, AllSound, Legal,
      Outcome, InFlush;
    if s.ctl.Adding? {
      AddConcludes(s, s1, rest, sawEnd);
    } else if s.ctl.Updating? {
      UpdateConcludes(s, s1, rest, sawEnd);
    } else {
      RemovalConcludes(s, s1, rest, sawEnd);
    }
  }

  lemma AddConcludes(s: State, s1: State, rest: seq<Event>, sawEnd: bool)
    requires Phase(s) && Shaking(s) && s.ctl.Adding? && s.ctl.shake.Answered? && GoneOn(s, s1, rest)
    ensures Concluded(s, Outcome(s1, rest), sawEnd)
  {
    hide Phase, Shaking, Good, PutIn, SetApart, Alike, IsShut, Do, Can;
    if s.ctl.shake.ok {
      AddProceeds(s);
    } else {
      AsideProceeds(s);
      ShutRun(s1, rest);
      AsideIsSetApart(s, s1, Outcome(s1, rest));
    }
  }

  lemma UpdateConcludes(s: State, s1: State, rest: seq<Event>, sawEnd: bool)
    requires Shaking(s) && s.ctl.Updating? && s.ctl.shake.Answered? && GoneOn(s, s1, rest)
    ensures Concluded(s, Outcome(s1, rest), sawEnd)
  {
    hide Shaking, Good, Do, Can, Alike;
    UpdateProceeds(s);
  }

  lemma RemovalConcludes(s: State, s1: State, rest: seq<Event>, sawEnd: bool)
    requires Shaking(s) && s.ctl.Removing? && s.ctl.shake.Answered? && !InFlush(s.ctl, s.ctl.k) && GoneOn(s, s1, rest)
    ensures Concluded(s, Outcome(s1, rest), sawEnd)
  {
    hide Shaking, Good, TakenOut, Alike, IsShut, Do, Can;
    RemovalProceeds(s);
    if s.ctl.shake.ok {
      ShutRun(s1, rest);
      AlikeAndAlike(s, s1, Outcome(s1, rest));
    }
  }

  lemma GoesOnByProceed(s: State, es: seq<Event>)
    requires Good(s) && !s.ctl.Free? && es != [] && es[0] == One(Proceed) && Legal(s, es) && Until(s, es)
    ensures Can(s, Proceed) && GoneOn(s, Do(s, Proceed), es[1..]) && Outcome(s, es) == Outcome(Do(s, Proceed), es[1..])
  {
    hide Good, Do, Can;
    assert Enabled(s, es[0]);
    MoveIsGood(s, Proceed);
  }

  lemma {:induction false} AnsweredRun(s: State, es: seq<Event>)
    requires Good(s) && HasAnswer(s.ctl) && Legal(s, es) && Until(s, es)
    ensures Concluded(s, Outcome(s, es), SawEnd(es))
    decreases |es|
  {
    hide Good, Concluded, Alike, Enabled, Next;
    assert !s.ctl.Free?;
    if s.ctl.Removing? && InFlush(s.ctl, s.ctl.k) {
      FlushRun(s, es, s.ctl.k);
      FlushConcludes(s, Outcome(s, es), SawEnd(es));
    } else if es[0] == One(Proceed) {
      GoesOnByProceed(s, es);
      AnswerConcludes(s, Do(s, Proceed), es[1..], SawEnd(es));
    } else {
      var s1 := Next(s, es[0]);
      EventWaits(s, es[0]);
      EventIsGood(s, es[0]);
      AnsweredRun(s1, es[1..]);
      ConcludedLater(s, s1, Outcome(s1, es[1..]), SawEnd(es[1..]));
    }
  }

  lemma FlushConcludes(s: State, s2: State, sawEnd: bool)
    requires s.ctl.Removing? && InFlush(s.ctl, s.ctl.k)
    requires if sawEnd then Alike(s, s2) && IsShut(s2, s.ctl.k) else TakenOut(s, s2, s.ctl.k)
    ensures Concluded(s, s2, sawEnd)
  {
    hide Alike, IsShut, TakenOut;
  }

  lemma EventWaits(s: State, e: Event)
    requires Good(s) && Enabled(s, e) && HasAnswer(s.ctl) && e != One(Proceed)
    ensures e != One(TakeEnd(ToController)) && Next(s, e).ctl == s.ctl && Alike(s, Next(s, e))
  {
    hide Good, Alike, Do, Can;
    match e {
      case One(m) => WaitsForController(s, m);
      case Handoff(w, r, draw) =>
        WaitsForController(s, Put(w));
        MoveIsGood(s, Put(w));
        WaitsForController(Do(s, Put(w)), Take(r, draw));
        AlikeAndAlike(s, Do(s, Put(w)), Next(s, e));
    }
  }

  /** In every run: once the interrupted stub has answered AddToxic, UpdateToxic or RemoveToxic, and whatever other
      goroutines do until the operation returns, it ends as follows. AddToxic puts the new stub between the last one
      and its output, or, if that was closed, shuts it at a channel of its own. UpdateToxic restarts the stub with the
      toxic, or leaves it closed. RemoveToxic leaves a closed stub where it is; shuts the stub of a timeout, and its
      output, and leaves it where it is; and otherwise takes the stub out, unless its flush loop meets the end of the
      stream, which it then passes on by shutting the stub. */
  lemma OperationsConclude(chain: seq<Toxic>, es: seq<Event>, es': seq<Event>)
    requires |chain| >= 1 && Legal(Initial(chain), es)
    requires var s := Outcome(Initial(chain), es); HasAnswer(s.ctl) && Legal(s, es') && Until(s, es')
    ensures var s := Outcome(Initial(chain), es); Concluded(s, Outcome(s, es'), SawEnd(es'))
  {
    hide Legal, Outcome, Initial, Until, Concluded, HasAnswer, Inv, Even, AllSound, SawEnd;
    RunsAreEven(chain, es);
    AnsweredRun(Outcome(Initial(chain), es), es');
  }
}
