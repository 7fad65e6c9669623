/** Which moves can happen on a link in any run, what they put on record, and that no channel overflows. */
module LinkMoves {
  import opened Bytes
  import opened Link
  import opened LinkInvariant
  import LinkPipes
  import opened LinkSteps
  import opened LinkTheorems
  import Slicer
  import opened Wrappers

  // ----- capacities -----

  ghost predicate Fits(s: State) {
    forall c :: 0 <= c < |s.chans| ==> |s.chans[c].buf| <= s.chans[c].cap
  }

  /** No channel gets longer, or another capacity. */
  ghost predicate NoLonger(s: State, s': State) {
    |s'.chans| >= |s.chans| && forall c :: 0 <= c < |s.chans| ==>
      s'.chans[c].cap == s.chans[c].cap && |s'.chans[c].buf| <= |s.chans[c].buf|
  }

  lemma CloseIsNoLonger(s: State, c: nat)
    requires c < |s.chans|
    ensures NoLonger(s, CloseChan(s, c)) && |CloseChan(s, c).chans| == |s.chans|
  {
  }

  lemma ReceiveIsNoLonger(s: State, r: Receiver, draw: Slicer.Draws)
    requires CanReceive(s, r) && s.chans[ReceiveChan(s, r)].buf != []
    ensures var s' := Receive(s, r, draw); NoLonger(s, s') && |s'.chans| == |s.chans|
  {
    hide AfterReceive, Discards;
  }

  lemma ResumeKeepsChans(s: State, w: Sender)
    requires CanSend(s, w)
    ensures Resume(s, w).chans == s.chans
  {
    hide AfterSend;
  }

  lemma SpawnKeepsChans(s: State, k: nat, t: Toxic)
    requires k < |s.stubs|
    ensures Spawn(s, k, t).chans == s.chans && |Spawn(s, k, t).stubs| == |s.stubs|
  {
  }

  lemma RestartKeepsChans(s: State, k: nat)
    requires k < |s.stubs|
    ensures SpawnFromChain(s, k).chans == s.chans
  {
    hide Spawn;
    if k < |s.chain| { SpawnKeepsChans(s, k, s.chain[k]); }
  }

  lemma SplicesKeepChans(s: State)
    requires CanProceed(s)
    ensures s.ctl.Adding? ==> SpliceIn(s).chans == s.chans
    ensures s.ctl.Draining? ==> SpliceOut(s).chans == s.chans
  {
    hide Spawn, SpawnFromChain;
    if s.ctl.Adding? {
      var n, s1 := |s.stubs| - 1, RewireIn(s);
      SpawnKeepsChans(s1, n, s.ctl.t);
      RestartKeepsChans(Spawn(s1, n, s.ctl.t), n - 1);
    } else if s.ctl.Draining? {
      RestartKeepsChans(RewireOut(s), s.ctl.k - 1);
    }
  }

  lemma SameIsNoLonger(s: State)
    ensures forall s': State :: s'.chans == s.chans ==> NoLonger(s, s')
  {
  }

  lemma ProceedIsNoLonger(s: State)
    requires Can(s, Proceed)
    ensures var s' := Do(s, Proceed); NoLonger(s, s') && |s'.chans| == |s.chans|
  {
    hide SpliceIn, SpliceOut, Spawn, ShutStep, NoLonger;
    SameIsNoLonger(s);
    SplicesKeepChans(s);
    if s.ctl.Shutting? {
      ShutIsNoLonger(s);
    } else if s.ctl.Updating? {
      SpawnKeepsChans(s, s.ctl.k, s.ctl.t);
    }
  }

  lemma ShutIsNoLonger(s: State)
    requires s.ctl.Shutting? && s.ctl.k < |s.stubs| && s.stubs[s.ctl.k].output < |s.chans|
    ensures var s' := ShutStep(s); NoLonger(s, s') && |s'.chans| == |s.chans|
  {
    hide CloseChan;
    CloseIsNoLonger(s, s.stubs[s.ctl.k].output);
  }

  lemma CloseStepIsNoLonger(s: State, i: nat)
    requires i < |s.stubs| && s.stubs[i].output < |s.chans|
    ensures var s' := CloseStep(s, i); NoLonger(s, s') && |s'.chans| == |s.chans|
  {
    hide CloseChan;
    CloseIsNoLonger(s, s.stubs[i].output);
  }

  lemma QuietIsNoLonger(s: State, m: Move)
    requires Can(s, m) && !m.Put? && !m.Take? && !m.Begin? && !m.Proceed?
    ensures var s' := Do(s, m); NoLonger(s, s') && |s'.chans| == |s.chans|
  {
    hide Resume, CloseStep, CloseChan, AfterTimer, AfterEnd, Interrupted, CanTick, CanAnswer, CanSend, Interruptible;
    if m.GiveUp? {
      ResumeKeepsChans(s, m.w);
    } else if m.Close? {
      CloseStepIsNoLonger(s, m.i);
    } else if m.CloseInput? {
      CloseIsNoLonger(s, s.input);
    }
  }

  lemma BeginFits(s: State, op: Op)
    requires Can(s, Begin(op)) && Fits(s)
    ensures Fits(Do(s, Begin(op))) && NoLonger(s, Do(s, Begin(op)))
    ensures op.Add? ==> var s' := Do(s, Begin(op));
      && |s'.stubs| == |s.stubs| + 1 && |s'.chans| == |s.chans| + 1 && s'.stubs[|s.stubs|].input == |s.chans|
      && s'.chans[|s.chans|].cap == if op.t.Latency? then 1024 else 0
  {
    hide AllOpen;
  }

  lemma FewerFit(s: State, s': State)
    requires Fits(s) && NoLonger(s, s') && |s'.chans| == |s.chans|
    ensures Fits(s')
  {
  }

  lemma MoveFits(s: State, m: Move)
    requires Fits(s) && Can(s, m) && !m.Put?
    ensures Fits(Do(s, m))
  {
    hide Fits, NoLonger, Receive, BeginOp, Advance;
    if m.Begin? {
      BeginFits(s, m.op);
    } else {
      if m.Proceed? { ProceedIsNoLonger(s); }
      else if m.Take? { ReceiveIsNoLonger(s, m.r, m.draw); }
      else { QuietIsNoLonger(s, m); }
      FewerFit(s, Do(s, m));
    }
  }

  /** A send puts one chunk into its channel, or panics. */
  lemma PutGrows(s: State, w: Sender)
    requires Can(s, Put(w))
    ensures var s', ch := Do(s, Put(w)), SendChan(s, w);
      if s.chans[ch].closed then s'.chans == s.chans
      else s'.chans == s.chans[ch := s.chans[ch].(buf := s.chans[ch].buf + [SendChunk(s, w)])]
  {
    hide Resume;
    ResumeKeepsChans(s, w);
  }

  lemma PutFits(s: State, w: Sender)
    requires Fits(s) && Enabled(s, One(Put(w)))
    ensures Fits(Do(s, Put(w)))
  {
    PutGrows(s, w);
    hide Do, CanSend;
  }

  lemma HandoffFits(s: State, w: Sender, r: Receiver, draw: Slicer.Draws)
    requires Fits(s) && Enabled(s, Handoff(w, r, draw))
    ensures Fits(Next(s, Handoff(w, r, draw)))
  {
    PutGrows(s, w);
    TakeShrinks(Do(s, Put(w)), r, draw);
    hide Do, CanSend;
  }

  /** A receive takes the first chunk out of its channel. */
  lemma TakeShrinks(s: State, r: Receiver, draw: Slicer.Draws)
    requires Can(s, Take(r, draw))
    ensures var s', ch := Do(s, Take(r, draw)), ReceiveChan(s, r);
      s'.chans == s.chans[ch := s.chans[ch].(buf := s.chans[ch].buf[1..])]
  {
    hide AfterReceive, Discards;
  }

  lemma {:induction false} RunFits(s: State, es: seq<Event>)
    requires Fits(s) && Legal(s, es)
    ensures Fits(Outcome(s, es))
    decreases |es|
  {
    hide Fits, Do, Can;
    if es != [] {
      match es[0] {
        case One(m) => if m.Put? { PutFits(s, m.w); } else { MoveFits(s, m); }
        case Handoff(w, r, draw) => HandoffFits(s, w, r, draw);
      }
      RunFits(Next(s, es[0]), es[1..]);
    }
  }

  /** In every run no channel holds more chunks than its capacity: none, if it is unbuffered. */
  lemma NoChannelOverflows(chain: seq<Toxic>, es: seq<Event>)
    requires |chain| >= 1 && Legal(Initial(chain), es)
    ensures Fits(Outcome(Initial(chain), es))
  {
    assert Fits(Initial(chain));
    hide Fits, Legal, Outcome, Initial;
    RunFits(Initial(chain), es);
  }

  // ----- what can happen -----

  /** The goroutine of stub i is in its Pipe, and neither in a send nor about to return. */
  predicate Selects(b: Stub) {
    LinkPipes.Runs(b) && !b.pc.Sending? && !b.pc.Closing? && !b.pc.ClosingOutput? && !b.pc.Exiting?
  }

  /** What the goroutine of stub b waits for: a chunk or the end in its main select, its timers, and room for a send,
      for a limited time only where bandwidth flushes after an interrupt. */
  ghost predicate WaitsFor(s: State, i: nat, stopped: bool)
    requires i < |s.stubs|
  {
    var b := s.stubs[i];
    && b.input < |s.chans| && b.output < |s.chans|
    && (forall chosen :: Enabled(s, One(Start(i, chosen))) <==> b.pc.Spawned?)
    && (forall draw :: Enabled(s, One(Take(ToStub(i), draw))) <==> b.pc.Ready? && s.chans[b.input].buf != [])
    && (Enabled(s, One(TakeEnd(ToStub(i)))) <==> b.pc.Ready? && Ended(s, b.input))
    && (Enabled(s, One(Tick(i))) <==> Selects(b) && (b.pc.Ready? ==> b.pipe == Timeout(true)))
    && (Enabled(s, One(Put(FromStub(i)))) <==> b.pc.Sending? && |s.chans[b.output].buf| < s.chans[b.output].cap)
    && (Enabled(s, One(GiveUp(FromStub(i)))) <==> b.pc.Sending? && b.pipe.Bandwidth? && stopped)
    && (Enabled(s, One(Close(i))) <==> LinkPipes.Runs(b) && !Selects(b) && !b.pc.Sending?)
  }

  lemma RoundSays(b: Stub, r: LinkPipes.Round)
    requires LinkPipes.InRound(b, r)
    ensures b.pc.Metering? ==> b.pipe.Bandwidth?
    ensures b.pc.Sending? ==> (b.pc.timed <==> r.stopped && b.pipe.Bandwidth?)
  {
  }

  lemma WaitsAre(s: State, i: nat, stopped: bool)
    requires s.fault == NoFault && i < |s.stubs| && s.stubs[i].input < |s.chans| && s.stubs[i].output < |s.chans|
    requires s.stubs[i].pc.Metering? ==> s.stubs[i].pipe.Bandwidth?
    requires s.stubs[i].pc.Sending? ==>
      && (s.stubs[i].pc.timed <==> stopped && s.stubs[i].pipe.Bandwidth?) && !s.chans[s.stubs[i].output].closed
    ensures WaitsFor(s, i, stopped)
  {
  }

  lemma StubWaits(s: State, i: nat, r: LinkPipes.Round)
    requires s.fault == NoFault && Core(s) && i < |s.stubs| && LinkPipes.InRound(s.stubs[i], r)
    ensures WaitsFor(s, i, r.stopped)
  {
    hide WaitsFor, Phase, Shaking, Closure, Ends, Counts, Aligned, LinkPipes.InRound;
    RoundSays(s.stubs[i], r);
    if s.stubs[i].pc.Sending? { RunningIsOpen(s, i); }
    WaitsAre(s, i, r.stopped);
  }

  /** In every run, what the goroutine of each stub can do, and nothing else. */
  lemma StubsWait(chain: seq<Toxic>, es: seq<Event>)
    requires |chain| >= 1 && Legal(Initial(chain), es) && Outcome(Initial(chain), es).fault == NoFault
    ensures
      var s, rs := Outcome(Initial(chain), es), LinkPipes.RunRounds(Initial(chain), es, LinkPipes.NoRounds(|chain|));
      |rs| == |s.stubs| && forall i :: 0 <= i < |s.stubs| ==> WaitsFor(s, i, rs[i].stopped)
  {
    hide Legal, Outcome, Initial, Core, Data, WaitsFor, LinkPipes.RunRounds, LinkPipes.InRound, LinkPipes.Planned;
    var s, rs := Outcome(Initial(chain), es), LinkPipes.RunRounds(Initial(chain), es, LinkPipes.NoRounds(|chain|));
    RunInv(chain, es);
    LinkPipes.StubsKeepRounds(chain, es);
    forall i | 0 <= i < |s.stubs| ensures WaitsFor(s, i, rs[i].stopped) {
      StubWaits(s, i, rs[i]);
    }
  }

  /** In every run an interrupt that is offered is taken at once by a Pipe that is in any of its selects, and only then;
      it is refused at once by a closed stub, and only by one. */
  lemma InterruptsAreTaken(chain: seq<Toxic>, es: seq<Event>)
    requires |chain| >= 1 && Legal(Initial(chain), es)
    requires var s := Outcome(Initial(chain), es); s.fault == NoFault && ShakeOf(s.ctl) == Some(Offered)
    ensures var s := Outcome(Initial(chain), es);
      && 0 <= Target(s) < |s.stubs|
      && (Enabled(s, One(Deliver)) <==> Selects(s.stubs[Target(s)]))
      && (Enabled(s, One(Answer)) <==> s.stubs[Target(s)].closed)
  {
    hide Legal, Outcome, Initial, Wiring, Phase, Closure, Ends, Counts, Aligned, Data;
    RunInv(chain, es);
  }

  /** In every run an operation can begin whenever none is being carried out, at every place of the chain but the
      first. */
  lemma OperationsBegin(chain: seq<Toxic>, es: seq<Event>, op: Op)
    requires |chain| >= 1 && Legal(Initial(chain), es) && Outcome(Initial(chain), es).fault == NoFault
    ensures var s := Outcome(Initial(chain), es);
      Enabled(s, One(Begin(op))) <==>
        && s.ctl.Free?
        && (op.Add? || (1 <= op.k < |s.chain| && (op.Update? ==> SameType(s.chain[op.k], op.t))))
  {
    hide Legal, Outcome, Initial, Phase, Shaking, Closure, Ends, Counts, Aligned, Data, SameType;
    RunInv(chain, es);
  }

  /** What a removal that flushes or drains stub k waits for: room for the chunk it holds, for a limited time; or a
      chunk or, while it flushes, the end. */
  ghost predicate HandWaitsFor(s: State) {
    if s.ctl.Flushing? || s.ctl.Draining? then
      && s.ctl.k < |s.stubs| && s.stubs[s.ctl.k].input < |s.chans| && s.stubs[s.ctl.k].output < |s.chans|
      && var from, to := s.chans[s.stubs[s.ctl.k].input], s.chans[s.stubs[s.ctl.k].output];
      && (Enabled(s, One(Put(FromController))) <==> s.ctl.hand.Some? && |to.buf| < to.cap)
      && (Enabled(s, One(GiveUp(FromController))) <==> s.ctl.hand.Some?)
      && (forall draw :: Enabled(s, One(Take(ToController, draw))) <==> s.ctl.hand.None? && from.buf != [])
      && (Enabled(s, One(TakeEnd(ToController))) <==>
            s.ctl.Flushing? && s.ctl.hand.None? && from.buf == [] && from.closed)
    else
      && !Enabled(s, One(Put(FromController))) && !Enabled(s, One(GiveUp(FromController)))
      && !Enabled(s, One(TakeEnd(ToController))) && forall draw :: !Enabled(s, One(Take(ToController, draw)))
  }

  /** What an operation waits for before it goes on: its interrupt is answered by a stub that is closed, or whose
      goroutine has returned; it holds nothing; and its drain loop has emptied the channel. */
  ghost predicate StepWaitsFor(s: State) {
    && (Enabled(s, One(Answer)) <==>
          && ShakeOf(s.ctl).Some? && 0 <= Target(s) < |s.stubs|
          && ((ShakeOf(s.ctl).value.Offered? && s.stubs[Target(s)].closed) ||
              (ShakeOf(s.ctl).value.Taken? && s.stubs[Target(s)].pc.Idle?)))
    && (Enabled(s, One(Proceed)) <==>
          match s.ctl
          case Free => false
          case Flushing(_, h, hand) => h.Answered? && hand.None?
          case Draining(k, hand) =>
            hand.None? && k < |s.stubs| && s.stubs[k].input < |s.chans| && s.chans[s.stubs[k].input].buf == []
          case Shutting(_, stage, h) => stage == Join ==> h.Answered? || h.Collected?
          case _ => ShakeOf(s.ctl).value.Answered?)
  }

  lemma HandWaits(s: State)
    requires s.fault == NoFault && Wiring(s) && Phase(s) && Closure(s)
    ensures HandWaitsFor(s)
  {
    if s.ctl.Flushing? || s.ctl.Draining? {
      var k := s.ctl.k;
      assert s.stubs[k].input < |s.chans| && s.stubs[k].output < |s.chans| && !s.chans[s.stubs[k].output].closed;
    }
    hide Wiring, Phase, Closure;
  }

  lemma StepWaits(s: State)
    requires s.fault == NoFault && Wiring(s) && Phase(s)
    ensures StepWaitsFor(s)
  {
  }

  /** In every run, what the operation that is being carried out can do next, and nothing else. */
  lemma OperationWaits(chain: seq<Toxic>, es: seq<Event>)
    requires |chain| >= 1 && Legal(Initial(chain), es) && Outcome(Initial(chain), es).fault == NoFault
    ensures HandWaitsFor(Outcome(Initial(chain), es)) && StepWaitsFor(Outcome(Initial(chain), es))
  {
    hide Legal, Outcome, Initial, Wiring, Phase, Shaking, Closure, Ends, Counts, Aligned, Data, HandWaitsFor,
      StepWaitsFor;
    RunInv(chain, es);
    HandWaits(Outcome(Initial(chain), es));
    StepWaits(Outcome(Initial(chain), es));
  }

  /** In every run, what the reader of the input connection and the writer of the output connection can do. */
  lemma ConnectionsWait(chain: seq<Toxic>, es: seq<Event>, c: Chunk, draw: Slicer.Draws)
    requires |chain| >= 1 && Legal(Initial(chain), es) && Outcome(Initial(chain), es).fault == NoFault
    ensures var s := Outcome(Initial(chain), es);
      && s.input < |s.chans| && s.output < |s.chans|
      && (Enabled(s, One(Offer(c))) <==> s.pending.None? && !s.inputClosed)
      && (Enabled(s, One(CloseInput)) <==> s.pending.None? && !s.inputClosed)
      && (Enabled(s, One(Put(Source))) <==> s.pending.Some? && |s.chans[s.input].buf| < s.chans[s.input].cap)
      && (Enabled(s, One(Take(Sink, draw))) <==> !s.eof && s.chans[s.output].buf != [])
      && (Enabled(s, One(TakeEnd(Sink))) <==> !s.eof && Ended(s, s.output))
  {
    hide Legal, Outcome, Initial, Phase, Shaking, Ends, Counts, Aligned, Data;
    RunInv(chain, es);
  }

  // ----- what is on record -----

  /** The send that limit_data is blocked in is its last: its limit is reached. */
  predicate LastSend(b: Stub) {
    b.pc.Sending? && b.pc.after.Count? && (b.pipe.LimitData? ==> b.pipe.bytes <= Transmitted(b) + b.pc.after.size)
  }

  /** The Pipe does not pass all of the chunk on. */
  predicate Loses(b: Stub, h: Chunk) {
    b.pipe.Timeout? || (b.pipe.LimitData? && |h| > Max(b.pipe.bytes - Transmitted(b), 0))
  }

  /** The move discards bytes: a time-out of WriteOutput, a timeout, or a limit. */
  predicate Drops(s: State, m: Move)
    requires Can(s, m)
  {
    match m
    case GiveUp(_) => true
    case Take(ToStub(j), _) => Loses(s.stubs[j], s.chans[s.stubs[j].input].buf[0])
    case _ => false
  }

  /** The move makes a stub close although its input may go on: a timer or a removal of a timeout, or a limit. */
  predicate Cuts(s: State, m: Move)
    requires Can(s, m)
  {
    match m
    case Put(FromStub(i)) => LastSend(s.stubs[i])
    case GiveUp(FromStub(i)) => LastSend(s.stubs[i])
    case Take(ToStub(j), _) => s.stubs[j].pipe.LimitData? && s.stubs[j].pipe.bytes <= Transmitted(s.stubs[j])
    case Tick(i) => s.stubs[i].pc.Ready?
    case Proceed => s.ctl.Removing? && s.ctl.shake.ok && s.ctl.t.Timeout?
    case _ => false
  }

  ghost predicate SameRecord(s: State, s': State) {
    s'.written == s.written && s'.dropped == s.dropped && s'.cut == s.cut
  }

  /** The chunks that the reader of the input connection has handed over. */
  function Offers(es: seq<Event>): seq<Chunk> {
    if es == [] then []
    else (if es[0].One? && es[0].m.Offer? then [es[0].m.c] else []) + Offers(es[1..])
  }

  lemma ClosesAfter(b: Stub)
    requires b.pc.Sending?
    ensures AfterSend(b).pc.Closing? <==> LastSend(b)
  {
  }

  lemma ResumeRecords(s: State, w: Sender)
    requires CanSend(s, w)
    ensures SameRecord(s.(cut := s.cut || (w.FromStub? && LastSend(s.stubs[w.i]))), Resume(s, w))
  {
    hide AfterSend, LastSend;
    if w.FromStub? { ClosesAfter(s.stubs[w.i]); }
  }

  lemma PushRecords(s: State, ch: nat, c: Chunk)
    requires ch < |s.chans|
    ensures SameRecord(s, Push(s, ch, c))
  {
  }

  lemma SendRecords(s: State, w: Sender)
    requires CanSend(s, w)
    ensures SameRecord(Resume(s, w), Send(s, w))
  {
    hide Resume, Push;
    assert Resume(s, w).chans == s.chans by { ResumeKeepsChans(s, w); }
    PushRecords(Resume(s, w), SendChan(s, w), SendChunk(s, w));
  }

  lemma ClosesOnReceive(b: Stub, h: Chunk, draw: Slicer.Draws)
    requires b.pc.Ready?
    ensures AfterReceive(b, h, draw).pc.Closing? <==> b.pipe.LimitData? && b.pipe.bytes <= Transmitted(b)
    ensures Discards(b, h) <==> Loses(b, h)
  {
    hide Slicer.Cut;
  }

  lemma ReceiveRecords(s: State, r: Receiver, draw: Slicer.Draws)
    requires CanReceive(s, r) && s.chans[ReceiveChan(s, r)].buf != []
    ensures var s' := Receive(s, r, draw);
      && s'.written == s.written
      && (s'.dropped <==> s.dropped || (r.ToStub? && Loses(s.stubs[r.j], s.chans[s.stubs[r.j].input].buf[0])))
      && (s'.cut <==> s.cut || (r.ToStub? && s.stubs[r.j].pipe.LimitData? &&
                                s.stubs[r.j].pipe.bytes <= Transmitted(s.stubs[r.j])))
  {
    hide AfterReceive, Discards, Loses, Transmitted;
    if r.ToStub? { ClosesOnReceive(s.stubs[r.j], s.chans[s.stubs[r.j].input].buf[0], draw); }
  }

  lemma SpawnRecords(s: State, k: nat, t: Toxic)
    requires k < |s.stubs|
    ensures SameRecord(s, Spawn(s, k, t)) && |Spawn(s, k, t).stubs| == |s.stubs|
    ensures SameRecord(s, SpawnFromChain(s, k))
  {
  }

  lemma SplicesRecord(s: State)
    requires CanProceed(s)
    ensures s.ctl.Adding? ==> SameRecord(s, SpliceIn(s))
    ensures s.ctl.Draining? ==> SameRecord(s, SpliceOut(s))
  {
    hide Spawn, SpawnFromChain;
    if s.ctl.Adding? {
      var n, s1 := |s.stubs| - 1, RewireIn(s);
      SpawnRecords(s1, n, s.ctl.t);
      SpawnRecords(Spawn(s1, n, s.ctl.t), n - 1, s.ctl.t);
    } else if s.ctl.Draining? {
      SpawnRecords(RewireOut(s), s.ctl.k - 1, Noop);
    }
  }

  lemma ProceedRecords(s: State)
    requires CanProceed(s)
    ensures SameRecord(s.(cut := s.cut || (s.ctl.Removing? && s.ctl.shake.ok && s.ctl.t.Timeout?)), Advance(s))
  {
    hide Spawn, SpliceIn, SpliceOut, CloseChan, ShutStep;
    SplicesRecord(s);
    if s.ctl.Shutting? { ShutStepIs(s); }
    if s.ctl.Updating? { SpawnRecords(s, s.ctl.k, s.ctl.t); }
  }

  lemma StartRecords(s: State, i: nat, chosen: bool)
    requires i < |s.stubs|
    ensures SameRecord(s, Run(s, i, chosen))
  {
  }

  lemma TimerRecords(s: State, i: nat)
    requires i < |s.stubs| && CanTick(s.stubs[i])
    ensures SameRecord(s.(cut := s.cut || s.stubs[i].pc.Ready?), Timer(s, i))
  {
    hide AfterTimer, CanTick;
  }

  lemma EndRecords(s: State, r: Receiver)
    requires CanReceive(s, r) && (r.ToController? ==> s.ctl.Flushing?)
    ensures SameRecord(s, ReceiveEnd(s, r))
  {
    hide AfterEnd;
  }

  lemma CloseRecords(s: State, i: nat)
    requires i < |s.stubs| && s.stubs[i].output < |s.chans|
    ensures SameRecord(s, CloseStep(s, i))
  {
    hide CloseChan, SetStub;
    CloseChanIs(s, s.stubs[i].output);
    SetRecords(s, i);
    SetRecords(CloseChan(s, s.stubs[i].output), i);
  }

  lemma SetRecords(s: State, i: nat)
    requires i < |s.stubs|
    ensures forall b :: SameRecord(s, SetStub(s, i, b))
  {
  }

  lemma BeginRecords(s: State, op: Op)
    requires CanBegin(s, op)
    ensures SameRecord(s, BeginOp(s, op))
  {
    hide AllOpen;
  }

  lemma DeliverRecords(s: State)
    requires Can(s, Deliver)
    ensures SameRecord(s, TakeInterrupt(s))
  {
  }

  /** What `written`, `dropped` and `cut` say of a move is what it does. */
  lemma RecordIsTrue(s: State, m: Move)
    requires Can(s, m)
    ensures Do(s, m).written == s.written + if m.Offer? then m.c else []
    ensures Do(s, m).dropped <==> s.dropped || Drops(s, m)
    ensures Do(s, m).cut <==> s.cut || Cuts(s, m)
  {
    hide LastSend, Loses, Resume, Send, Receive, Advance, CanProceed, CanSend, CanReceive, CanTick, CanAnswer, Run,
      Timer, CloseStep, ReceiveEnd, CloseChan, TakeInterrupt, SetShake, BeginOp;
    match m {
      case Put(w) => ResumeRecords(s, w); SendRecords(s, w);
      case GiveUp(w) => ResumeRecords(s, w);
      case Take(r, draw) => ReceiveRecords(s, r, draw);
      case Proceed => ProceedRecords(s);
      case CloseInput => CloseChanIs(s, s.input);
      case Close(i) => CloseRecords(s, i);
      case Begin(op) => BeginRecords(s, op);
      case Deliver => DeliverRecords(s);
      case Start(i, chosen) => StartRecords(s, i, chosen);
      case Tick(i) => TimerRecords(s, i);
      case TakeEnd(r) => EndRecords(s, r);
      case Offer(_) =>
      case Answer =>
    }
    assert s.written + [] == s.written;
  }

  lemma EventWrites(s: State, e: Event)
    requires Enabled(s, e)
    ensures Next(s, e).written == s.written + Flatten(Offers([e]))
  {
    hide Do, Can;
    match e {
      case One(m) =>
        RecordIsTrue(s, m);
        if m.Offer? { FlattenOne(m.c); }
      case Handoff(w, r, draw) =>
        RecordIsTrue(s, Put(w));
        RecordIsTrue(Do(s, Put(w)), Take(r, draw));
    }
  }

  lemma NoOffers()
    ensures Flatten(Offers([])) == []
  {
  }

  lemma OffersStep(es: seq<Event>)
    requires es != []
    ensures Flatten(Offers(es)) == Flatten(Offers([es[0]])) + Flatten(Offers(es[1..]))
  {
    assert [es[0]][1..] == [];
    assert Offers(es) == Offers([es[0]]) + Offers(es[1..]);
    hide Offers;
    FlattenAppend(Offers([es[0]]), Offers(es[1..]));
  }

  lemma {:induction false} RunWrites(s: State, es: seq<Event>)
    requires Legal(s, es)
    ensures Outcome(s, es).written == s.written + Flatten(Offers(es))
    decreases |es|
  {
    hide Enabled, Next, Offers, Flatten;
    if es == [] {
      NoOffers();
      assert s.written + [] == s.written;
    } else {
      EventWrites(s, es[0]);
      RunWrites(Next(s, es[0]), es[1..]);
      OffersStep(es);
      assert s.written + (Flatten(Offers([es[0]])) + Flatten(Offers(es[1..])))
          == (s.written + Flatten(Offers([es[0]]))) + Flatten(Offers(es[1..]));
    }
  }

  /** What `written` says is what the input connection has handed to the link, chunk by chunk. */
  lemma WrittenIsOffered(chain: seq<Toxic>, es: seq<Event>)
    requires |chain| >= 1 && Legal(Initial(chain), es)
    ensures Outcome(Initial(chain), es).written == Flatten(Offers(es))
  {
    hide Legal, Outcome, Offers;
    RunWrites(Initial(chain), es);
    assert [] + Flatten(Offers(es)) == Flatten(Offers(es));
  }
}
