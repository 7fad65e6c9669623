/** What holds of a toxic link in every run. */
module LinkTheorems {
  import opened Bytes
  import opened Link
  import opened LinkInvariant
  import opened LinkSteps
  import opened LinkBytes
  import opened LinkData
  import Slicer
  import opened Wrappers

  // ----- the invariant over whole runs -----

  lemma InitialParts(chain: seq<Toxic>)
    requires |chain| >= 1
    ensures var s := Initial(chain); Held(s) == []
  {
    var s := Initial(chain);
    assert forall j :: 0 <= j <= Live(s) ==> Part(s, j) == [];
    InOrderEmpty(Parts(s));
  }

  lemma InitialInv(chain: seq<Toxic>)
    requires |chain| >= 1
    ensures Inv(Initial(chain))
  {
    InitialParts(chain);
    InitialWires(chain);
    InitialMatches(chain);
  }

  lemma InitialWires(chain: seq<Toxic>)
    requires |chain| >= 1
    ensures var s := Initial(chain); Wiring(s) && Phase(s) && Shaking(s) && Counts(s)
  {
  }

  lemma InitialMatches(chain: seq<Toxic>)
    requires |chain| >= 1
    ensures var s := Initial(chain); Closure(s) && Ends(s) && Aligned(s)
  {
  }

  lemma EventKeepsInv(s: State, e: Event)
    requires Inv(s) && Enabled(s, e)
    ensures Inv(Next(s, e))
  {
    match e {
      case One(m) => MoveKeepsInv(s, m);
      case Handoff(w, r, draw) =>
        MoveKeepsInv(s, Put(w));
        MoveKeepsInv(Do(s, Put(w)), Take(r, draw));
    }
  }

  lemma {:induction false} RunKeepsInv(s: State, es: seq<Event>)
    requires Inv(s) && Legal(s, es)
    ensures Inv(Outcome(s, es))
    decreases |es|
  {
    if es != [] {
      EventKeepsInv(s, es[0]);
      RunKeepsInv(Next(s, es[0]), es[1..]);
    }
  }

  lemma RunInv(chain: seq<Toxic>, es: seq<Event>)
    requires |chain| >= 1 && Legal(Initial(chain), es)
    ensures Inv(Outcome(Initial(chain), es))
  {
    InitialInv(chain);
    RunKeepsInv(Initial(chain), es);
  }

  // ----- bytes -----

  /** In every run, with any toxics, any reconfiguration and any time-outs, the bytes delivered and the bytes
      still on their way are the written bytes in order, none twice; and unless a byte was discarded on
      record, all of them. */
  lemma NothingReordered(chain: seq<Toxic>, es: seq<Event>)
    requires |chain| >= 1 && Legal(Initial(chain), es)
    ensures var s := Outcome(Initial(chain), es);
      && 0 <= Live(s) && Subseq(s.delivered + Held(s), s.written)
      && (!s.dropped ==> s.delivered + Held(s) == s.written)
  {
    RunInv(chain, es);
  }

  /** No time-out of WriteOutput, and only toxics that promise to pass every byte on. */
  predicate GentleMove(m: Move) {
    && !m.GiveUp?
    && (m.Begin? ==> (m.op.Add? ==> Lossless(m.op.t)) && (m.op.Update? ==> Lossless(m.op.t)))
  }

  predicate Gentle(e: Event) {
    e.One? ==> GentleMove(e.m)
  }

  predicate AllGentle(es: seq<Event>) {
    forall i :: 0 <= i < |es| ==> Gentle(es[i])
  }

  predicate AllLossless(ts: seq<Toxic>) {
    forall i :: 0 <= i < |ts| ==> Lossless(ts[i])
  }

  predicate CalmStub(b: Stub) {
    Lossless(b.toxic) && Lossless(b.pipe) && !(b.pc.Sending? && b.pc.after.Count?)
  }

  ghost predicate Calm(s: State) {
    && !s.dropped && !s.cut && AllLossless(s.chain)
    && (forall i :: 0 <= i < |s.stubs| ==> CalmStub(s.stubs[i]))
    && (s.ctl.Adding? || s.ctl.Updating? || s.ctl.Removing? ==> Lossless(s.ctl.t))
  }

  lemma CalmPipe(b: Stub, h: Chunk, draw: Slicer.Draws)
    requires CalmStub(b)
    ensures b.pc.Sending? ==> CalmStub(AfterSend(b)) && !AfterSend(b).pc.Closing?
    ensures CalmStub(AfterReceive(b, h, draw)) && !Discards(b, h)
    ensures b.pc.Ready? ==> !AfterReceive(b, h, draw).pc.Closing?
    ensures CalmStub(AfterEnd(b))
    ensures CanTick(b) ==> CalmStub(AfterTimer(b)) && !b.pc.Ready?
    ensures Interruptible(b.pc) ==> CalmStub(b.(pc := Interrupted(b.pc)))
  {
  }

  /** Stub i moves and stays calm. */
  lemma CalmStubMoves(s: State, s': State, i: nat, b': Stub)
    requires Calm(s) && i < |s.stubs| && s'.stubs == s.stubs[i := b'] && CalmStub(b')
    requires !s'.dropped && !s'.cut && s'.chain == s.chain
    requires s'.ctl == s.ctl || s'.ctl == SetShake(s.ctl, Taken)
    ensures Calm(s')
  {
  }

  lemma CalmSends(s: State, i: nat)
    requires Calm(s) && CanSend(s, FromStub(i))
    ensures Calm(Send(s, FromStub(i)))
  {
    var b := s.stubs[i];
    CalmPipe(b, [], (x, y) => 0);
    CalmStubMoves(s, Resume(s, FromStub(i)), i, AfterSend(b));
  }

  lemma CalmReceives(s: State, j: nat, draw: Slicer.Draws)
    requires Calm(s) && CanReceive(s, ToStub(j)) && s.chans[s.stubs[j].input].buf != []
    ensures Calm(Receive(s, ToStub(j), draw))
  {
    var b, h := s.stubs[j], s.chans[s.stubs[j].input].buf[0];
    CalmPipe(b, h, draw);
    CalmStubMoves(s, Receive(s, ToStub(j), draw), j, AfterReceive(b, h, draw));
  }

  lemma CalmStubMove(s: State, m: Move)
    requires Calm(s) && Can(s, m) && (m.Tick? || m.Deliver? || (m.TakeEnd? && m.r.ToStub?))
    ensures Calm(Do(s, m))
  {
    match m {
      case Tick(i) =>
        CalmPipe(s.stubs[i], [], (x, y) => 0);
        CalmStubMoves(s, Timer(s, i), i, AfterTimer(s.stubs[i]));
      case Deliver =>
        var b := s.stubs[Target(s)];
        CalmPipe(b, [], (x, y) => 0);
        CalmStubMoves(s, TakeInterrupt(s), Target(s), b.(pc := Interrupted(b.pc)));
      case TakeEnd(r) =>
        CalmPipe(s.stubs[r.j], [], (x, y) => 0);
        CalmStubMoves(s, ReceiveEnd(s, r), r.j, AfterEnd(s.stubs[r.j]));
    }
  }

  lemma CalmStarts(s: State, i: nat, chosen: bool)
    requires Calm(s) && i < |s.stubs|
    ensures Calm(Run(s, i, chosen))
  {
  }

  lemma CalmCloses(s: State, i: nat)
    requires Calm(s) && i < |s.stubs| && s.stubs[i].output < |s.chans|
    ensures Calm(CloseStep(s, i))
  {
    CloseStepIs(s, i);
    hide CloseStep, AllLossless, Lossless;
  }

  lemma CalmOuter(s: State, m: Move)
    requires Calm(s) && Can(s, m) && (m.Offer? || m.CloseInput? || m.Answer?)
    ensures Calm(Do(s, m))
  {
    if m.CloseInput? { CloseChanIs(s, s.input); }
    hide CloseChan, CalmStub, AllLossless, Lossless, CanAnswer, ShakeOf;
  }

  lemma CalmOuterSends(s: State, w: Sender)
    requires Calm(s) && CanSend(s, w) && !w.FromStub?
    ensures Calm(Send(s, w))
  {
    hide CalmStub, AllLossless, Lossless;
  }

  lemma CalmOuterTakes(s: State, m: Move)
    requires Calm(s) && Can(s, m) && (m.Take? || m.TakeEnd?) && !m.r.ToStub?
    ensures Calm(Do(s, m))
  {
  }

  lemma CalmBegins(s: State, op: Op)
    requires Calm(s) && CanBegin(s, op) && GentleMove(Begin(op))
    ensures Calm(BeginOp(s, op))
  {
  }

  lemma CalmSpawns(s: State, k: nat, t: Toxic)
    requires Calm(s) && k < |s.stubs| && Lossless(t)
    ensures Calm(Spawn(s, k, t)) && |Spawn(s, k, t).stubs| == |s.stubs|
  {
  }

  lemma CalmRestarts(s: State, k: nat)
    requires Calm(s) && k < |s.stubs|
    ensures Calm(SpawnFromChain(s, k))
  {
    hide Spawn;
    if k < |s.chain| { CalmSpawns(s, k, s.chain[k]); }
  }

  lemma CalmRewires(s: State)
    requires Calm(s) && CanProceed(s)
    ensures s.ctl.Adding? ==> Calm(RewireIn(s)) && |RewireIn(s).stubs| == |s.stubs| && Lossless(s.ctl.t)
    ensures s.ctl.Draining? ==> Calm(RewireOut(s)) && |RewireOut(s).stubs| == |s.stubs| - 1
  {
    hide Lossless;
  }

  lemma CalmSplices(s: State)
    requires Calm(s) && CanProceed(s) && (s.ctl.Draining? || (s.ctl.Adding? && s.ctl.shake.ok))
    ensures Calm(Advance(s))
  {
    hide Calm, Lossless, Spawn, SpawnFromChain, RewireIn, RewireOut;
    CalmRewires(s);
    if s.ctl.Draining? {
      CalmRestarts(RewireOut(s), s.ctl.k - 1);
    } else {
      var n := |s.stubs| - 1;
      CalmSpawns(RewireIn(s), n, s.ctl.t);
      CalmRestarts(Spawn(RewireIn(s), n, s.ctl.t), n - 1);
    }
  }

  lemma CalmSetsAside(s: State)
    requires Calm(s) && s.ctl.Adding? && |s.stubs| >= 2
    ensures Calm(SetAside(s))
  {
    hide AllLossless, Lossless;
  }

  lemma CalmShuts(s: State)
    requires Calm(s) && s.ctl.Shutting? && s.ctl.k < |s.stubs| && s.stubs[s.ctl.k].output < |s.chans|
    ensures Calm(ShutStep(s))
  {
    ShutStepIs(s);
    hide ShutStep, AllLossless, Lossless;
  }

  lemma CalmProceeds(s: State)
    requires Calm(s) && CanProceed(s) && !s.ctl.Draining? && !(s.ctl.Adding? && s.ctl.shake.ok)
    ensures Calm(Advance(s))
  {
    assert s.ctl.Removing? ==> !s.ctl.t.Timeout?;
    hide AllLossless, Lossless, CalmStub, Spawn, SetAside, ShutStep;
    if s.ctl.Updating? {
      CalmSpawns(s, s.ctl.k, s.ctl.t);
    } else if s.ctl.Shutting? {
      CalmShuts(s);
    } else if s.ctl.Adding? {
      CalmSetsAside(s);
    }
  }

  lemma CalmMoves(s: State, m: Move)
    requires Calm(s) && Can(s, m) && GentleMove(m)
    ensures Calm(Do(s, m))
  {
    match m {
      case Put(w) => if w.FromStub? { CalmSends(s, w.i); } else { CalmOuterSends(s, w); }
      case Take(r, draw) => if r.ToStub? { CalmReceives(s, r.j, draw); } else { CalmOuterTakes(s, m); }
      case TakeEnd(r) => if r.ToStub? { CalmStubMove(s, m); } else { CalmOuterTakes(s, m); }
      case Tick(_) => CalmStubMove(s, m);
      case Deliver => CalmStubMove(s, m);
      case Start(i, chosen) => CalmStarts(s, i, chosen);
      case Close(i) => CalmCloses(s, i);
      case Begin(op) => CalmBegins(s, op);
      case Proceed =>
        if s.ctl.Draining? || (s.ctl.Adding? && s.ctl.shake.ok) { CalmSplices(s); } else { CalmProceeds(s); }
      case _ => CalmOuter(s, m);
    }
  }

  lemma CalmEvent(s: State, e: Event)
    requires Calm(s) && Enabled(s, e) && Gentle(e)
    ensures Calm(Next(s, e))
  {
    match e {
      case One(m) => CalmMoves(s, m);
      case Handoff(w, r, draw) =>
        CalmMoves(s, Put(w));
        CalmMoves(Do(s, Put(w)), Take(r, draw));
    }
  }

  lemma CalmInitial(chain: seq<Toxic>)
    requires |chain| >= 1 && AllLossless(chain)
    ensures Calm(Initial(chain))
  {
  }

  lemma {:induction false} CalmRun(s: State, es: seq<Event>)
    requires Calm(s) && Legal(s, es) && AllGentle(es)
    ensures Calm(Outcome(s, es))
    decreases |es|
  {
    if es != [] {
      assert Gentle(es[0]);
      CalmEvent(s, es[0]);
      assert AllGentle(es[1..]) by {
        assert forall i :: 0 <= i < |es[1..]| ==> es[1..][i] == es[i + 1];
      }
      CalmRun(Next(s, es[0]), es[1..]);
    }
  }

  /** Live reconfiguration is lossless: with toxics that pass every byte on and no time-outs, whatever the
      interleaving and whenever toxics are added, updated and removed, also on links that are partly closed,
      nothing is lost, reordered or duplicated. */
  lemma LosslessReconfiguration(chain: seq<Toxic>, es: seq<Event>)
    requires |chain| >= 1 && AllLossless(chain) && Legal(Initial(chain), es) && AllGentle(es)
    ensures var s := Outcome(Initial(chain), es);
      0 <= Live(s) && s.delivered + Held(s) == s.written
  {
    hide Core, Held, Subseq, AllGentle, AllLossless, Legal, Outcome, Initial;
    RunInv(chain, es);
    CalmInitial(chain);
    CalmRun(Initial(chain), es);
  }

  /** If stub i - 1 and everything downstream has ended, everything upstream has. */
  lemma {:induction false} UpstreamEnded(s: State, i: nat)
    requires Wiring(s) && Closure(s) && Ends(s) && !s.cut && i <= s.reach && Ended(s, Node(s, i))
    ensures s.inputClosed
    ensures forall j :: 0 <= j <= i ==> Ended(s, Node(s, j)) && (j > 0 ==> s.stubs[j - 1].closed)
    decreases i
  {
    if i > 0 {
      assert s.stubs[i - 1].closed;
      assert s.stubs[i - 1].input == Node(s, i - 1);
      UpstreamEnded(s, i - 1);
    }
  }

  lemma EndedHoldsNothing(s: State)
    requires Core(s) && !s.cut && s.eof
    ensures s.inputClosed && Held(s) == []
  {
    UpstreamEnded(s, s.reach);
    HeldEndsAtOutput(s);
    EndedParts(s);
  }

  lemma EndedParts(s: State)
    requires Closure(s) && Phase(s) && s.inputClosed && 1 <= s.reach <= Live(s) <= |s.stubs|
    requires forall j :: 0 <= j <= s.reach ==> Ended(s, Node(s, j)) && (j > 0 ==> s.stubs[j - 1].closed)
    ensures InOrder(Parts(s)[..s.reach + 1]) == []
  {
    forall j | 0 <= j <= s.reach ensures Part(s, j) == [] {
      EndedPart(s, j);
    }
    InOrderEmpty(Parts(s)[..s.reach + 1]);
  }

  lemma EndedPart(s: State, j: nat)
    requires Closure(s) && Phase(s) && j <= |s.stubs| && s.inputClosed
    requires Ended(s, Node(s, j)) && (j > 0 ==> s.stubs[j - 1].closed)
    ensures Part(s, j) == []
  {
  }

  /** The reader of the link sees the end of the stream only after the input was closed and every written
      byte was delivered; removals that met a closed predecessor are among the runs. */
  lemma EndOfStreamIsComplete(chain: seq<Toxic>, es: seq<Event>)
    requires |chain| >= 1 && AllLossless(chain) && Legal(Initial(chain), es) && AllGentle(es)
    requires Outcome(Initial(chain), es).eof
    ensures var s := Outcome(Initial(chain), es);
      s.inputClosed && s.pending.None? && s.delivered == s.written
  {
    hide Wiring, Phase, Shaking, Ends, Counts, Aligned, Parts, InOrder, Subseq, AllGentle, AllLossless, Legal,
      Outcome, Initial;
    var s := Outcome(Initial(chain), es);
    RunInv(chain, es);
    CalmInitial(chain);
    CalmRun(Initial(chain), es);
    EndedHoldsNothing(s);
    assert s.delivered + [] == s.delivered;
  }

  // ----- channels and goroutines -----

  /** In every run no channel is closed twice or sent on after its close, no stub runs two Pipes and the
      index of an update or a removal is in range. */
  lemma ChannelsAreOwned(chain: seq<Toxic>, es: seq<Event>)
    requires |chain| >= 1 && Legal(Initial(chain), es)
    ensures var s := Outcome(Initial(chain), es);
      && s.fault != DoubleClose && s.fault != SendOnClosed && s.fault != DoubleRun && s.fault != StubIndex
      && (!s.ctl.Adding? ==>
            forall i, j :: 0 <= i < j < |s.stubs| ==> s.stubs[i].output != s.stubs[j].output)
      && (forall i :: 0 <= i < |s.stubs| && s.stubs[i].pc.Sending? ==>
            s.stubs[i].output < |s.chans| && !s.chans[s.stubs[i].output].closed)
  {
    hide Legal, Outcome, Initial, Phase, Shaking, Closure, Ends, Aligned, Data;
    var s := Outcome(Initial(chain), es);
    RunInv(chain, es);
    forall i | 0 <= i < |s.stubs| && s.stubs[i].pc.Sending?
      ensures s.stubs[i].output < |s.chans| && !s.chans[s.stubs[i].output].closed
    {
      RunningIsOpen(s, i);
    }
  }

  /** InterruptToxic answers true only when the Pipe it interrupted has returned and the stub is open,
      and false only when the stub is closed. */
  lemma InterruptAnswers(chain: seq<Toxic>, es: seq<Event>)
    requires |chain| >= 1 && Legal(Initial(chain), es)
    ensures var s := Outcome(Initial(chain), es);
      ShakeOf(s.ctl).Some? && ShakeOf(s.ctl).value.Answered? ==>
        && 0 <= Target(s) < |s.stubs|
        && if ShakeOf(s.ctl).value.ok
           then s.stubs[Target(s)].pc.Idle? && !s.stubs[Target(s)].closed
           else s.stubs[Target(s)].closed
  {
    hide Legal, Outcome, Initial, Wiring, Phase, Closure, Ends, Counts, Aligned, Data, ShakeOf, Target;
    RunInv(chain, es);
  }

  lemma SendLeavesStub(s: State, w: Sender, i: nat)
    requires CanSend(s, w) && i < |s.stubs| && (w.FromStub? ==> w.i != i)
    ensures i < |Resume(s, w).stubs| && Resume(s, w).stubs[i] == s.stubs[i]
    ensures i < |Send(s, w).stubs| && Send(s, w).stubs[i] == s.stubs[i]
  {
    hide AfterSend, SendChunk;
    var s1 := Resume(s, w);
    assert s1.stubs == s.stubs || (w.FromStub? && s1.stubs == s.stubs[w.i := AfterSend(s.stubs[w.i])]);
    assert Send(s, w).stubs == s1.stubs;
    hide Resume, Send;
  }

  lemma TakeLeavesStub(s: State, r: Receiver, draw: Slicer.Draws, i: nat)
    requires CanReceive(s, r) && s.chans[ReceiveChan(s, r)].buf != [] && i < |s.stubs| && (r.ToStub? ==> r.j != i)
    ensures i < |Receive(s, r, draw).stubs| && Receive(s, r, draw).stubs[i] == s.stubs[i]
  {
    hide AfterReceive, Discards;
  }

  lemma OuterLeavesStub(s: State, m: Move, i: nat)
    requires Can(s, m) && i < |s.stubs| && (m.Offer? || m.CloseInput? || m.Answer?)
    ensures i < |Do(s, m).stubs| && Do(s, m).stubs[i] == s.stubs[i]
  {
    if m.CloseInput? { CloseChanIs(s, s.input); }
    hide CloseChan, CanAnswer, SetShake, ShakeOf;
  }

  lemma PipesLeaveStub(s: State, m: Move, i: nat)
    requires Can(s, m) && i < |s.stubs| && s.stubs[i].pc.Idle?
    requires m.TakeEnd? || m.Start? || m.Tick?
    ensures i < |Do(s, m).stubs| && Do(s, m).stubs[i] == s.stubs[i]
  {
    hide AfterEnd, AfterTimer;
    match m
    case Start(j, _) => assert j != i;
    case Tick(j) => assert j != i;
    case _ =>
  }

  lemma CloseLeavesStub(s: State, j: nat, i: nat)
    requires i < |s.stubs| && j < |s.stubs| && i != j && s.stubs[j].output < |s.chans|
    ensures i < |CloseStep(s, j).stubs| && CloseStep(s, j).stubs[i] == s.stubs[i]
  {
    CloseStepIs(s, j);
    hide CloseStep;
  }

  lemma BeginLeavesStub(s: State, op: Op, i: nat)
    requires CanBegin(s, op) && i < |s.stubs|
    ensures i < |BeginOp(s, op).stubs| && BeginOp(s, op).stubs[i] == s.stubs[i]
  {
  }

  /** Until the controller itself goes on, nothing comes from a stub whose Pipe has returned. */
  lemma ParkedStaysParked(s: State, m: Move, i: nat)
    requires Can(s, m) && !m.Proceed? && i < |s.stubs| && s.stubs[i].pc.Idle?
    ensures i < |Do(s, m).stubs| && Do(s, m).stubs[i] == s.stubs[i]
  {
    hide Send, Resume, Receive, ReceiveEnd, CloseStep, BeginOp, CanBegin, CanAnswer, CloseChan, Timer, Run, CanTick;
    if m.TakeEnd? || m.Start? || m.Tick? {
      PipesLeaveStub(s, m, i);
    } else if m.Close? {
      CloseLeavesStub(s, m.i, i);
    } else if m.Begin? {
      BeginLeavesStub(s, m.op, i);
    } else if m.Deliver? {
      assert Target(s) != i;
    } else if m.Put? || m.GiveUp? {
      SendLeavesStub(s, m.w, i);
    } else if m.Take? {
      TakeLeavesStub(s, m.r, m.draw, i);
    } else {
      OuterLeavesStub(s, m, i);
    }
  }

  // ----- stubs and chain -----

  /** Between operations, a link none of whose stubs is closed is wired from input to output, has one stub
      for each toxic of the chain, and each stub runs its toxic. */
  lemma OpenLinksAreAligned(chain: seq<Toxic>, es: seq<Event>)
    requires |chain| >= 1 && Legal(Initial(chain), es)
    requires var s := Outcome(Initial(chain), es); s.ctl.Free? && AllOpen(s)
    ensures var s := Outcome(Initial(chain), es);
      && |s.stubs| == |s.chain| >= 1
      && (forall i :: 0 <= i < |s.stubs| ==> s.stubs[i].toxic == s.chain[i])
      && s.stubs[0].input == s.input && s.stubs[|s.stubs| - 1].output == s.output
      && (forall i, j :: 0 <= i && j == i + 1 < |s.stubs| ==> s.stubs[j].input == s.stubs[i].output)
  {
    hide Legal, Outcome, Initial, Wiring, Aligned, Phase, Shaking, Closure, Ends, Counts, Data, AllOpen;
    RunInv(chain, es);
    AlignedWhenOpen(Outcome(Initial(chain), es));
  }

  lemma AlignedWhenOpen(s: State)
    requires Wiring(s) && Aligned(s) && Counts(s) && s.ctl.Free? && AllOpen(s)
    ensures |s.stubs| == |s.chain| >= 1 && s.reach == |s.stubs|
    ensures forall i :: 0 <= i < |s.stubs| ==> s.stubs[i].toxic == s.chain[i]
    ensures s.stubs[0].input == s.input && s.stubs[|s.stubs| - 1].output == s.output
    ensures forall i, j :: 0 <= i && j == i + 1 < |s.stubs| ==> s.stubs[j].input == s.stubs[i].output
  {
    assert Matches(s);
  }

  /** On every link, also a partly closed one, the stubs are enough for the chain. */
  lemma StubsCoverChain(chain: seq<Toxic>, es: seq<Event>)
    requires |chain| >= 1 && Legal(Initial(chain), es)
    ensures |Outcome(Initial(chain), es).stubs| >= |Outcome(Initial(chain), es).chain|
  {
    RunInv(chain, es);
  }

  /** When every operation was begun while all stubs were open, no goroutine ever panics. */
  lemma TidyRunsNeverPanic(chain: seq<Toxic>, es: seq<Event>)
    requires |chain| >= 1 && Legal(Initial(chain), es)
    ensures Outcome(Initial(chain), es).tidy ==> Outcome(Initial(chain), es).fault == NoFault
  {
    RunInv(chain, es);
  }
}
