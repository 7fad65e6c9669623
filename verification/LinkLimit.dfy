/** limit_data in the interleavings of a link: what it sends, over all the runs of its Pipe on one stub, is a prefix
    of what it receives, as long as the limit allows, whatever is added, updated and removed meanwhile. */
module LinkLimit {
  import opened Bytes
  import LimitData
  import opened Link
  import opened LinkData
  import opened LinkBytes
  import opened LinkInvariant
  import opened LinkRestarts
  import opened LinkSteps
  import opened LinkTheorems
  import Slicer
  import opened Wrappers

  // ----- one round -----

  /** A round of the step system, a receive and the send that may follow, is one of the loop of `LimitData.Pipe`. */
  lemma RoundIsOfLoop(b: Stub, h: Chunk, draw: Slicer.Draws)
    requires b.pipe.LimitData? && b.pc.Ready?
    ensures var c, b1 := LimitData.Passed(b.pipe.bytes, Transmitted(b), h), AfterReceive(b, h, draw);
      && (if c == [] then !b1.pc.Sending? else b1.pc == Sending(c, false, Count(|c|)))
      && var b2 := if b1.pc.Sending? then AfterSend(b1) else b1;
         && Transmitted(b2) == Transmitted(b) + |c|
         && b2.pc == if b.pipe.bytes <= Transmitted(b2) then Closing else Ready
  {
    assert h[..|h|] == h;
  }

  // ----- ledgers -----

  /** What limit_data has received and sent on a stub since the stub was made, and the limits it did so with; and
      what the goroutine has taken with any toxic but a timeout, and given with any. */
  datatype Ledger = Ledger(received: Chunk, sent: Chunk, limits: set<int>, taken: Chunk, given: Chunk)

  const NOTHING := Ledger([], [], {}, [], [])

  predicate LimitSends(b: Stub) {
    b.pipe.LimitData? && b.pc.Sending?
  }

  /** The chunk that limit_data is sending. */
  function Carried(b: Stub): Chunk {
    if LimitSends(b) then b.pc.d else []
  }

  predicate Ending(b: Stub) {
    b.closed || b.pc.Closing?
  }

  /** Only limit_data counts what it sends, and its one select is the main one. */
  predicate CountsRight(b: Stub) {
    && (b.pipe.LimitData? ==> !b.pc.Waiting? && !b.pc.Metering? && !b.pc.Pausing? && !b.pc.Lingering?)
    && (b.pc.Sending? ==>
          if b.pipe.LimitData? then !b.pc.timed && b.pc.after == Count(|b.pc.d|) else !b.pc.after.Count?)
  }

  /** Sent bytes, with those being sent, are the first of the received ones; all of them, unless a limit in force
      is reached; and no more than some limit in force. */
  ghost predicate Balanced(b: Stub, l: Ledger) {
    var passed := l.sent + Carried(b);
    && CountsRight(b) && |l.sent| == Transmitted(b) && passed <= l.received
    && (passed == l.received || exists n :: n in l.limits && n <= |passed|)
    && (passed == [] || exists n :: n in l.limits && |passed| <= n)
    && (!Ending(b) ==> passed == l.received || (LimitSends(b) && Remaining(b) <= |b.pc.d|))
  }

  /** What a goroutine gives, and holds, it has taken, in this order, and not with a timeout. */
  ghost predicate Carries(b: Stub, l: Ledger) {
    Subseq(l.given + Inflight(b.pc), l.taken)
  }

  ghost predicate AllBalanced(bs: seq<Stub>, ls: seq<Ledger>) {
    |ls| == |bs| && forall i :: 0 <= i < |bs| ==> Balanced(bs[i], ls[i]) && Carries(bs[i], ls[i])
  }

  function Sent(l: Ledger, b: Stub): Ledger
    requires b.pc.Sending?
  {
    l.(sent := if b.pipe.LimitData? then l.sent + b.pc.d else l.sent, given := l.given + b.pc.d)
  }

  function Got(l: Ledger, b: Stub, h: Chunk): Ledger {
    l.(received := if b.pipe.LimitData? then l.received + h else l.received,
       limits := if b.pipe.LimitData? then l.limits + {b.pipe.bytes} else l.limits,
       taken := if b.pipe.Timeout? then l.taken else l.taken + h)
  }

  /** The ledgers of the stubs after a move: they follow their stubs, and a new stub has a new one. */
  function MoveLedgers(s: State, m: Move, ls: seq<Ledger>): seq<Ledger>
    requires Can(s, m)
  {
    match m
    case Put(FromStub(i)) => if i < |ls| then ls[i := Sent(ls[i], s.stubs[i])] else ls
    case Take(ToStub(j), _) =>
      if j < |ls| then ls[j := Got(ls[j], s.stubs[j], s.chans[s.stubs[j].input].buf[0])] else ls
    case Begin(Add(_)) => ls + [NOTHING]
    case Proceed => if s.ctl.Draining? && s.ctl.k < |ls| then ls[..s.ctl.k] + ls[s.ctl.k + 1..] else ls
    case _ => ls
  }

  function NextLedgers(s: State, e: Event, ls: seq<Ledger>): seq<Ledger>
    requires Enabled(s, e)
  {
    match e
    case One(m) => MoveLedgers(s, m, ls)
    case Handoff(w, r, draw) => MoveLedgers(Do(s, Put(w)), Take(r, draw), MoveLedgers(s, Put(w), ls))
  }

  function RunLedgers(s: State, es: seq<Event>, ls: seq<Ledger>): seq<Ledger>
    requires Legal(s, es)
    decreases |es|
  {
    if es == [] then ls else RunLedgers(Next(s, es[0]), es[1..], NextLedgers(s, es[0], ls))
  }

  // ----- stubs -----

  lemma SendBalanced(b: Stub, l: Ledger)
    requires Balanced(b, l) && b.pc.Sending? && !b.closed
    ensures Balanced(AfterSend(b), Sent(l, b))
  {
  }

  lemma SendCarries(b: Stub, l: Ledger)
    requires Carries(b, l) && b.pc.Sending?
    ensures Carries(AfterSend(b), Sent(l, b))
  {
    SendLoad(b);
    assert (l.given + b.pc.d) + Rest(b.pc.after) == l.given + (b.pc.d + Rest(b.pc.after));
    hide Subseq, Flatten;
  }

  /** A send that times out loses its chunk. */
  lemma GiveUpCarries(b: Stub, l: Ledger)
    requires Carries(b, l) && b.pc.Sending?
    ensures Carries(AfterSend(b), l)
  {
    SendLoad(b);
    hide Flatten, Subseq;
    SubseqDrop(l.given, b.pc.d, Rest(b.pc.after));
    SubseqTrans(l.given + Rest(b.pc.after), l.given + (b.pc.d + Rest(b.pc.after)), l.taken);
  }

  lemma ReceiveCarries(b: Stub, l: Ledger, h: Chunk, draw: Slicer.Draws)
    requires Carries(b, l) && b.pc.Ready?
    ensures Carries(AfterReceive(b, h, draw), Got(l, b, h))
  {
    var b', l' := AfterReceive(b, h, draw), Got(l, b, h);
    assert l.given + [] == l.given;
    if b.pipe.Timeout? {
    } else {
      ReceiveLoad(b, h, draw);
      hide Subseq, AfterReceive, Flatten;
      SubseqAppend(l.given, l.taken, h);
      SubseqPrefix(l.given, Inflight(b'.pc), h);
      SubseqTrans(l.given + Inflight(b'.pc), l.given + h, l.taken + h);
    }
  }

  lemma GiveUpBalanced(b: Stub, l: Ledger)
    requires Balanced(b, l) && b.pc.Sending? && b.pc.timed
    ensures Balanced(AfterSend(b), l)
  {
  }

  lemma ReceiveBalanced(b: Stub, l: Ledger, h: Chunk, draw: Slicer.Draws)
    requires Balanced(b, l) && b.pc.Ready? && !b.closed
    ensures Balanced(AfterReceive(b, h, draw), Got(l, b, h))
  {
    hide Slicer.Cut;
    if b.pipe.LimitData? {
      LimitReceives(b, l, h, draw);
    }
  }

  lemma LimitReceives(b: Stub, l: Ledger, h: Chunk, draw: Slicer.Draws)
    requires Balanced(b, l) && b.pc.Ready? && !b.closed && b.pipe.LimitData?
    ensures Balanced(AfterReceive(b, h, draw), Got(l, b, h))
  {
    var b', l' := AfterReceive(b, h, draw), Got(l, b, h);
    assert b.pipe.bytes in l'.limits;
    assert l.sent + [] == l.sent == l.received;
    assert l'.sent + Carried(b') == l.received + Kept(b, h);
    assert l.sent == [] || exists n :: n in l.limits && |l.sent| <= n;
  }

  /** The stub does not touch bytes that limit_data counts, and ends no less than before. */
  predicate Quiet(b: Stub, b': Stub) {
    && Transmitted(b') == Transmitted(b) && CountsRight(b') && !LimitSends(b) && !LimitSends(b')
    && Inflight(b'.pc) == Inflight(b.pc)
    && (Ending(b) ==> Ending(b'))
  }

  lemma QuietBalanced(b: Stub, b': Stub, l: Ledger)
    requires Balanced(b, l) && Carries(b, l) && Quiet(b, b')
    ensures Balanced(b', l) && Carries(b', l)
  {
    hide Subseq;
  }

  lemma OneBalanced(bs: seq<Stub>, ls: seq<Ledger>, i: nat, b: Stub, l: Ledger)
    requires AllBalanced(bs, ls) && i < |bs| && Balanced(b, l) && Carries(b, l)
    ensures AllBalanced(bs[i := b], ls[i := l])
  {
    hide Balanced, Carries;
  }

  lemma OneQuiet(bs: seq<Stub>, ls: seq<Ledger>, i: nat, b: Stub)
    requires AllBalanced(bs, ls) && i < |bs| && Quiet(bs[i], b)
    ensures AllBalanced(bs[i := b], ls)
  {
    QuietBalanced(bs[i], b, ls[i]);
    hide Balanced, Carries, Quiet;
    assert ls[i := ls[i]] == ls;
    OneBalanced(bs, ls, i, b, ls[i]);
  }

  // ----- the moves of a stub -----

  lemma EndIsQuiet(b: Stub)
    requires CountsRight(b) && b.pc.Ready?
    ensures Quiet(b, AfterEnd(b))
  {
  }

  lemma TimerIsQuiet(b: Stub)
    requires CountsRight(b)
    ensures CanTick(b) ==> Quiet(b, AfterTimer(b))
    ensures Interruptible(b.pc) ==> Quiet(b, b.(pc := Interrupted(b.pc)))
  {
    if CanTick(b) { TimerKeepsBytes(b); }
    if Interruptible(b.pc) { InterruptKeepsBytes(b.pc); }
    hide Inflight;
  }

  lemma CountsAt(bs: seq<Stub>, ls: seq<Ledger>, i: nat)
    requires AllBalanced(bs, ls) && i < |bs|
    ensures |ls| == |bs| && CountsRight(bs[i]) && Balanced(bs[i], ls[i]) && Carries(bs[i], ls[i])
  {
  }

  lemma StubResumeBalances(s: State, i: nat, ls: seq<Ledger>)
    requires AllBalanced(s.stubs, ls) && CanSend(s, FromStub(i)) && !s.stubs[i].closed
    ensures i < |ls| && AllBalanced(Resume(s, FromStub(i)).stubs, ls[i := Sent(ls[i], s.stubs[i])])
    ensures s.stubs[i].pc.timed ==> AllBalanced(Resume(s, FromStub(i)).stubs, ls)
  {
    hide AllBalanced, Balanced, Carries, AfterSend, Sent;
    CountsAt(s.stubs, ls, i);
    SendBalanced(s.stubs[i], ls[i]);
    SendCarries(s.stubs[i], ls[i]);
    if s.stubs[i].pc.timed {
      GiveUpBalanced(s.stubs[i], ls[i]);
      GiveUpCarries(s.stubs[i], ls[i]);
      assert ls[i := ls[i]] == ls;
      OneBalanced(s.stubs, ls, i, AfterSend(s.stubs[i]), ls[i]);
    }
    OneBalanced(s.stubs, ls, i, AfterSend(s.stubs[i]), Sent(ls[i], s.stubs[i]));
  }

  lemma PushKeepsStubs(s: State, c: nat, d: Chunk)
    requires c < |s.chans|
    ensures Push(s, c, d).stubs == s.stubs
  {
  }

  lemma OuterResumes(s: State, w: Sender)
    requires CanSend(s, w) && !w.FromStub?
    ensures Resume(s, w).stubs == s.stubs
  {
  }

  lemma SendKeepsStubs(s: State, w: Sender)
    requires CanSend(s, w)
    ensures Send(s, w).stubs == Resume(s, w).stubs
  {
    var s1 := Resume(s, w);
    assert |s1.chans| == |s.chans| by { hide AfterSend; }
    hide Resume, Push;
    PushKeepsStubs(s1, SendChan(s, w), SendChunk(s, w));
  }

  lemma SendsBalance(s: State, m: Move, ls: seq<Ledger>)
    requires Core(s) && AllBalanced(s.stubs, ls) && Can(s, m) && (m.Put? || m.GiveUp?)
    ensures AllBalanced(Do(s, m).stubs, MoveLedgers(s, m, ls))
  {
    hide Core, AllBalanced, Balanced, Resume, Send;
    SendKeepsStubs(s, m.w);
    if m.w.FromStub? {
      RunningIsOpen(s, m.w.i);
      hide Sent, CanSend;
      StubResumeBalances(s, m.w.i, ls);
    } else {
      OuterResumes(s, m.w);
    }
  }

  lemma StubReceiveBalances(s: State, j: nat, draw: Slicer.Draws, ls: seq<Ledger>)
    requires AllBalanced(s.stubs, ls) && CanReceive(s, ToStub(j)) && !s.stubs[j].closed
    ensures AllBalanced(ReceiveEnd(s, ToStub(j)).stubs, ls)
    ensures j < |ls| && (s.chans[s.stubs[j].input].buf != [] ==>
      AllBalanced(Receive(s, ToStub(j), draw).stubs,
                  ls[j := Got(ls[j], s.stubs[j], s.chans[s.stubs[j].input].buf[0])]))
  {
    hide AllBalanced, Balanced, Carries, AfterReceive, AfterEnd, Discards, Got, Quiet;
    var b := s.stubs[j];
    CountsAt(s.stubs, ls, j);
    EndIsQuiet(b);
    OneQuiet(s.stubs, ls, j, AfterEnd(b));
    if s.chans[b.input].buf != [] {
      var h := s.chans[b.input].buf[0];
      ReceiveBalanced(b, ls[j], h, draw);
      ReceiveCarries(b, ls[j], h, draw);
      OneBalanced(s.stubs, ls, j, AfterReceive(b, h, draw), Got(ls[j], b, h));
    }
  }

  lemma StubReceivesBalance(s: State, m: Move, ls: seq<Ledger>)
    requires AllBalanced(s.stubs, ls) && Can(s, m) && (m.Take? || m.TakeEnd?)
    requires m.r.ToStub? && !s.stubs[m.r.j].closed
    ensures AllBalanced(Do(s, m).stubs, MoveLedgers(s, m, ls))
  {
    hide AllBalanced, Receive, ReceiveEnd, Got;
    StubReceiveBalances(s, m.r.j, if m.Take? then m.draw else (x, y) => 0, ls);
  }

  lemma OuterReceivesBalance(s: State, m: Move, ls: seq<Ledger>)
    requires AllBalanced(s.stubs, ls) && Can(s, m) && (m.Take? || m.TakeEnd?) && !m.r.ToStub?
    ensures AllBalanced(Do(s, m).stubs, MoveLedgers(s, m, ls))
  {
    hide AllBalanced, Receive, ReceiveEnd;
    OuterTakes(s, m.r, if m.Take? then m.draw else (x, y) => 0);
  }

  lemma ReceivesBalance(s: State, m: Move, ls: seq<Ledger>)
    requires Core(s) && AllBalanced(s.stubs, ls) && Can(s, m) && (m.Take? || m.TakeEnd?)
    ensures AllBalanced(Do(s, m).stubs, MoveLedgers(s, m, ls))
  {
    hide Core, AllBalanced, Do, MoveLedgers;
    if m.r.ToStub? {
      RunningIsOpen(s, m.r.j);
      StubReceivesBalance(s, m, ls);
    } else {
      OuterReceivesBalance(s, m, ls);
    }
  }

  lemma TimersBalance(s: State, m: Move, ls: seq<Ledger>)
    requires AllBalanced(s.stubs, ls) && Can(s, m) && (m.Tick? || m.Deliver?)
    ensures AllBalanced(Do(s, m).stubs, ls)
  {
    hide AllBalanced, Balanced, AfterTimer, Interrupted, CanTick, Interruptible, Quiet, CountsRight;
    var i := if m.Tick? then m.i else Target(s);
    CountsAt(s.stubs, ls, i);
    TimerIsQuiet(s.stubs[i]);
    OneQuiet(s.stubs, ls, i, Do(s, m).stubs[i]);
  }

  lemma RunBalances(s: State, i: nat, chosen: bool, ls: seq<Ledger>)
    requires AllBalanced(s.stubs, ls) && i < |s.stubs| && s.stubs[i].pc.Spawned?
    ensures AllBalanced(Run(s, i, chosen).stubs, ls)
  {
    hide AllBalanced, Balanced;
    var s' := Run(s, i, chosen);
    if s'.stubs != s.stubs {
      OneQuiet(s.stubs, ls, i, s'.stubs[i]);
    }
  }

  lemma ClosesIsQuiet(b: Stub, b': Stub)
    requires Closes(b, b') && (b.pc.Closing? || b.pc.ClosingOutput? || b.pc.Exiting?)
    ensures Quiet(b, b')
  {
  }

  lemma CloseBalances(s: State, i: nat, ls: seq<Ledger>)
    requires AllBalanced(s.stubs, ls) && i < |s.stubs| && s.stubs[i].output < |s.chans|
    requires s.stubs[i].pc.Closing? || s.stubs[i].pc.ClosingOutput? || s.stubs[i].pc.Exiting?
    ensures AllBalanced(CloseStep(s, i).stubs, ls)
  {
    hide CloseStep, AllBalanced, Quiet, Closes;
    CloseStepIs(s, i);
    var s' := CloseStep(s, i);
    var b' :| Closes(s.stubs[i], b') && s' == s.(stubs := s.stubs[i := b'], chans := s'.chans, fault := s'.fault);
    ClosesIsQuiet(s.stubs[i], b');
    OneQuiet(s.stubs, ls, i, b');
  }

  lemma OthersBalance(s: State, m: Move, ls: seq<Ledger>)
    requires Core(s) && AllBalanced(s.stubs, ls) && Can(s, m) && !m.Begin? && !m.Proceed?
    ensures AllBalanced(Do(s, m).stubs, MoveLedgers(s, m, ls))
  {
    if m.Put? || m.GiveUp? {
      SendsBalance(s, m, ls);
    } else if m.Take? || m.TakeEnd? {
      ReceivesBalance(s, m, ls);
    } else {
      hide Core, AllBalanced, CloseChan, Run, CloseStep, Timer, CanTick, TakeInterrupt;
      if m.Tick? || m.Deliver? {
        TimersBalance(s, m, ls);
      } else if m.Start? {
        RunBalances(s, m.i, m.chosen, ls);
      } else if m.Close? {
        CloseBalances(s, m.i, ls);
      } else if m.CloseInput? {
        CloseChanIs(s, s.input);
      }
    }
  }

  // ----- the controller -----

  lemma SpawnBalances(s: State, k: nat, t: Toxic, ls: seq<Ledger>)
    requires AllBalanced(s.stubs, ls) && k < |s.stubs|
    ensures AllBalanced(Spawn(s, k, t).stubs, ls) && |Spawn(s, k, t).stubs| == |s.stubs|
  {
    hide AllBalanced, Balanced;
    if s.stubs[k].pc.Idle? {
      OneQuiet(s.stubs, ls, k, s.stubs[k].(pc := Spawned, toxic := t));
    }
  }

  lemma RestartBalances(s: State, k: nat, ls: seq<Ledger>)
    requires AllBalanced(s.stubs, ls) && k < |s.stubs|
    ensures AllBalanced(SpawnFromChain(s, k).stubs, ls)
  {
    hide AllBalanced, Spawn;
    if k < |s.chain| {
      SpawnBalances(s, k, s.chain[k], ls);
    }
  }

  /** While AddToxic interrupts, the ledger of the appended stub is empty. */
  ghost predicate Fresh(s: State, ls: seq<Ledger>) {
    s.ctl.Adding? ==> |ls| >= 1 && ls[|ls| - 1] == NOTHING
  }

  lemma NewStubIsQuiet(b: Stub, state: Option<nat>)
    requires Balanced(b, NOTHING) && b.pc.Idle? && (state.Some? ==> state.value == 0)
    ensures Quiet(b, b.(state := state))
  {
  }

  lemma RewireInBalances(s: State, ls: seq<Ledger>)
    requires AllBalanced(s.stubs, ls) && Fresh(s, ls) && s.ctl.Adding? && |s.stubs| >= 2
    requires s.stubs[|s.stubs| - 1].pc.Idle? && s.stubs[|s.stubs| - 2].pc.Idle?
    ensures AllBalanced(RewireIn(s).stubs, ls) && |RewireIn(s).stubs| == |s.stubs|
  {
    hide AllBalanced, Balanced, Carries;
    var n := |s.stubs| - 1;
    var last := s.stubs[n - 1].(output := s.stubs[n].input);
    var state := if s.ctl.t.LimitData? then Some(0) else None;
    assert RewireIn(s).stubs == s.stubs[n - 1 := last][n := s.stubs[n].(state := state)];
    hide RewireIn;
    CountsAt(s.stubs, ls, n - 1);
    OneQuiet(s.stubs, ls, n - 1, last);
    CountsAt(s.stubs, ls, n);
    NewStubIsQuiet(s.stubs[n], state);
    hide Quiet;
    OneQuiet(s.stubs[n - 1 := last], ls, n, s.stubs[n].(state := state));
  }

  lemma CutOut(bs: seq<Stub>, ls: seq<Ledger>, k: nat)
    requires AllBalanced(bs, ls) && k < |bs|
    ensures |ls| == |bs| && AllBalanced(bs[..k] + bs[k + 1..], ls[..k] + ls[k + 1..])
  {
    hide Balanced, Carries;
    var bs', ls' := bs[..k] + bs[k + 1..], ls[..k] + ls[k + 1..];
    forall i | 0 <= i < |bs'|
      ensures Balanced(bs'[i], ls'[i]) && Carries(bs'[i], ls'[i])
    {
      CutAt(bs, k, i);
      CutAt(ls, k, i);
    }
  }

  lemma CutAt<T>(xs: seq<T>, k: nat, i: nat)
    requires k < |xs| && i < |xs| - 1
    ensures (xs[..k] + xs[k + 1..])[i] == xs[if i < k then i else i + 1]
  {
  }

  lemma CutReplaced<T>(xs: seq<T>, k: nat, x: T)
    requires 1 <= k < |xs|
    ensures xs[k - 1 := x][..k] + xs[k - 1 := x][k + 1..] == xs[..k - 1] + [x] + xs[k + 1..]
  {
  }

  lemma CutBalanced(bs: seq<Stub>, ls: seq<Ledger>, k: nat, b: Stub)
    requires AllBalanced(bs, ls) && 1 <= k < |bs| && Quiet(bs[k - 1], b)
    ensures |ls| == |bs| && AllBalanced(bs[..k - 1] + [b] + bs[k + 1..], ls[..k] + ls[k + 1..])
  {
    hide AllBalanced, Quiet;
    OneQuiet(bs, ls, k - 1, b);
    CutOut(bs[k - 1 := b], ls, k);
    CutReplaced(bs, k, b);
  }

  lemma RewireOutBalances(s: State, ls: seq<Ledger>)
    requires AllBalanced(s.stubs, ls) && CanProceed(s) && s.ctl.Draining? && Parked(s, s.ctl.k - 1)
    ensures |ls| == |s.stubs| && |RewireOut(s).stubs| == |s.stubs| - 1
    ensures AllBalanced(RewireOut(s).stubs, ls[..s.ctl.k] + ls[s.ctl.k + 1..])
  {
    hide AllBalanced, Balanced;
    CutBalanced(s.stubs, ls, s.ctl.k, s.stubs[s.ctl.k - 1].(output := s.stubs[s.ctl.k].output));
  }

  lemma SpliceInBalances(s: State, ls: seq<Ledger>)
    requires AllBalanced(s.stubs, ls) && Fresh(s, ls) && s.ctl.Adding? && |s.stubs| >= 2
    requires s.stubs[|s.stubs| - 1].pc.Idle? && s.stubs[|s.stubs| - 2].pc.Idle?
    ensures AllBalanced(SpliceIn(s).stubs, ls)
  {
    hide AllBalanced, Fresh, Spawn, SpawnFromChain, RewireIn;
    RewireInBalances(s, ls);
    var s1, n := RewireIn(s), |s.stubs| - 1;
    SpawnBalances(s1, n, s.ctl.t, ls);
    RestartBalances(Spawn(s1, n, s.ctl.t), n - 1, ls);
  }

  lemma SpliceOutBalances(s: State, ls: seq<Ledger>)
    requires AllBalanced(s.stubs, ls) && CanProceed(s) && s.ctl.Draining? && Parked(s, s.ctl.k - 1)
    ensures |ls| == |s.stubs| && AllBalanced(SpliceOut(s).stubs, ls[..s.ctl.k] + ls[s.ctl.k + 1..])
  {
    hide AllBalanced, Parked, SpawnFromChain, RewireOut;
    RewireOutBalances(s, ls);
    RestartBalances(RewireOut(s), s.ctl.k - 1, ls[..s.ctl.k] + ls[s.ctl.k + 1..]);
  }

  lemma SetAsideBalances(s: State, ls: seq<Ledger>)
    requires AllBalanced(s.stubs, ls) && s.ctl.Adding? && |s.stubs| >= 2 && s.stubs[|s.stubs| - 1].pc.Idle?
    ensures AllBalanced(SetAside(s).stubs, ls)
  {
    hide AllBalanced, Balanced;
    var n := |s.stubs| - 1;
    var b := s.stubs[n].(output := s.stubs[n].input);
    CountsAt(s.stubs, ls, n);
    assert Quiet(s.stubs[n], b);
    hide Quiet;
    OneQuiet(s.stubs, ls, n, b);
  }

  lemma ShutBalances(s: State, ls: seq<Ledger>)
    requires AllBalanced(s.stubs, ls) && CanProceed(s) && s.ctl.Shutting? && Phase(s)
    ensures AllBalanced(ShutStep(s).stubs, ls)
  {
    ShutStepIs(s);
    hide ShutStep, AllBalanced, Balanced;
    var k := s.ctl.k;
    OneQuiet(s.stubs, ls, k, s.stubs[k].(closed := true));
  }

  lemma SplicesMeetIdle(s: State)
    requires Phase(s) && Shaking(s) && CanProceed(s)
    ensures s.ctl.Draining? ==> Parked(s, s.ctl.k - 1)
    ensures s.ctl.Adding? ==> |s.stubs| >= 2 && s.stubs[|s.stubs| - 1].pc.Idle?
    ensures s.ctl.Adding? && s.ctl.shake.ok ==> s.stubs[|s.stubs| - 2].pc.Idle?
  {
  }

  lemma AdvanceBalances(s: State, ls: seq<Ledger>)
    requires AllBalanced(s.stubs, ls) && Fresh(s, ls) && Can(s, Proceed) && Phase(s) && Shaking(s)
    ensures AllBalanced(Do(s, Proceed).stubs, MoveLedgers(s, Proceed, ls))
  {
    hide AllBalanced, Fresh, Phase, Shaking, Parked, SpliceIn, SpliceOut, Spawn, SetAside, ShutStep, StartRemoval;
    SplicesMeetIdle(s);
    if s.ctl.Draining? {
      SpliceOutBalances(s, ls);
    } else if s.ctl.Adding? {
      if s.ctl.shake.ok { SpliceInBalances(s, ls); } else { SetAsideBalances(s, ls); }
    } else if s.ctl.Shutting? {
      ShutBalances(s, ls);
    } else if s.ctl.Updating? {
      SpawnBalances(s, s.ctl.k, s.ctl.t, ls);
    } else {
      RemovingStep(s);
    }
  }

  lemma BeginBalances(s: State, op: Op, ls: seq<Ledger>)
    requires AllBalanced(s.stubs, ls) && Can(s, Begin(op))
    ensures AllBalanced(BeginOp(s, op).stubs, MoveLedgers(s, Begin(op), ls))
  {
    hide AllBalanced, AllOpen;
    if op.Add? {
      var b := Stub(|s.chans|, s.stubs[|s.stubs| - 1].output, false, op.t, op.t, None, Idle);
      AppendedIsBalanced(s.stubs, ls, b);
      assert BeginOp(s, op).stubs == s.stubs + [b];
    } else {
      assert BeginOp(s, op).stubs == s.stubs;
    }
  }

  lemma AppendedIsBalanced(bs: seq<Stub>, ls: seq<Ledger>, b: Stub)
    requires AllBalanced(bs, ls) && b.pc.Idle? && b.state.None?
    ensures AllBalanced(bs + [b], ls + [NOTHING])
  {
    assert Balanced(b, NOTHING) && Carries(b, NOTHING);
    hide Balanced, Carries;
  }

  lemma MoveBalances(s: State, m: Move, ls: seq<Ledger>)
    requires Core(s) && AllBalanced(s.stubs, ls) && Fresh(s, ls) && Can(s, m)
    ensures AllBalanced(Do(s, m).stubs, MoveLedgers(s, m, ls))
  {
    hide AllBalanced, Fresh, Advance, BeginOp, MoveLedgers, Wiring, Phase, Shaking, Closure, Ends, Counts, Aligned;
    if m.Proceed? {
      AdvanceBalances(s, ls);
    } else if m.Begin? {
      BeginBalances(s, m.op, ls);
    } else {
      OthersBalance(s, m, ls);
    }
  }

  // ----- the appended stub -----

  lemma StillAdding(s: State, m: Move)
    requires Can(s, m) && !m.Begin? && Do(s, m).ctl.Adding?
    ensures s.ctl.Adding? && !m.Proceed?
  {
    hide Do, Can;
    if m.Proceed? {
      NotAddingAfter(s);
    } else if m == TakeEnd(ToController) {
      FlushEndShuts(s);
    } else {
      OthersCall(s, m);
    }
  }

  lemma NotAddingAfter(s: State)
    requires Can(s, Proceed)
    ensures !Do(s, Proceed).ctl.Adding?
  {
    hide Advance, CanProceed;
    if Advance(s).ctl.Adding? {
      StaysPending(s);
      PhasesGoOn(s);
      SplicesEnd(s);
    }
  }

  lemma FlushEndShuts(s: State)
    requires Can(s, TakeEnd(ToController))
    ensures Do(s, TakeEnd(ToController)).ctl.Shutting?
  {
  }

  /** The goroutine of the appended stub has not been started, so that nothing is booked for it. */
  lemma AppendedIsIdle(s: State, m: Move, ls: seq<Ledger>)
    requires Phase(s) && s.ctl.Adding? && Can(s, m) && !m.Begin? && !m.Proceed? && |ls| == |s.stubs|
    ensures |ls| >= 1 && |MoveLedgers(s, m, ls)| == |ls| && MoveLedgers(s, m, ls)[|ls| - 1] == ls[|ls| - 1]
  {
    hide Got, Sent;
  }

  lemma MoveKeepsFresh(s: State, m: Move, ls: seq<Ledger>)
    requires Phase(s) && Fresh(s, ls) && Can(s, m) && |ls| == |s.stubs|
    ensures Fresh(Do(s, m), MoveLedgers(s, m, ls))
  {
    hide Do, Can, Phase;
    if Do(s, m).ctl.Adding? {
      if m.Begin? {
        BeginsFresh(s, m.op, ls);
      } else {
        StillAdding(s, m);
        AppendedIsIdle(s, m, ls);
      }
    }
  }

  lemma BeginsFresh(s: State, op: Op, ls: seq<Ledger>)
    requires Can(s, Begin(op))
    ensures Fresh(Do(s, Begin(op)), MoveLedgers(s, Begin(op), ls))
  {
    hide AllOpen;
  }

  // ----- every run -----

  ghost predicate Booked(s: State, ls: seq<Ledger>) {
    AllBalanced(s.stubs, ls) && Fresh(s, ls)
  }

  lemma MoveKeepsBooked(s: State, m: Move, ls: seq<Ledger>)
    requires Inv(s) && Booked(s, ls) && Can(s, m)
    ensures Inv(Do(s, m)) && Booked(Do(s, m), MoveLedgers(s, m, ls))
  {
    MoveKeepsInv(s, m);
    assert |ls| == |s.stubs|;
    hide Wiring, Phase, Shaking, Closure, Ends, Counts, Aligned, Data, AllBalanced, Fresh, Do, Can, MoveLedgers;
    MoveBalances(s, m, ls);
    MoveKeepsFresh(s, m, ls);
  }

  lemma EventKeepsBooked(s: State, e: Event, ls: seq<Ledger>)
    requires Inv(s) && Booked(s, ls) && Enabled(s, e)
    ensures Inv(Next(s, e)) && Booked(Next(s, e), NextLedgers(s, e, ls))
  {
    hide Inv, Booked, Do, Can, MoveLedgers;
    match e {
      case One(m) => MoveKeepsBooked(s, m, ls);
      case Handoff(w, r, draw) =>
        MoveKeepsBooked(s, Put(w), ls);
        MoveKeepsBooked(Do(s, Put(w)), Take(r, draw), MoveLedgers(s, Put(w), ls));
    }
  }

  lemma {:induction false} RunKeepsBooked(s: State, es: seq<Event>, ls: seq<Ledger>)
    requires Inv(s) && Booked(s, ls) && Legal(s, es)
    ensures Booked(Outcome(s, es), RunLedgers(s, es, ls))
    decreases |es|
  {
    hide Inv, Booked, Enabled, Next, NextLedgers;
    if es != [] {
      EventKeepsBooked(s, es[0], ls);
      RunKeepsBooked(Next(s, es[0]), es[1..], NextLedgers(s, es[0], ls));
    }
  }

  function Empty(n: nat): (ls: seq<Ledger>)
    ensures |ls| == n
  {
    seq(n, _ => NOTHING)
  }

  lemma InitialIsBooked(chain: seq<Toxic>)
    requires |chain| >= 1
    ensures Booked(Initial(chain), Empty(|chain|))
  {
  }

  /** With one limit throughout, exactly the first bytes up to the limit are passed on. */
  lemma OneLimit(b: Stub, l: Ledger, n: int)
    requires Balanced(b, l) && (l.limits == {n} || l.limits == {})
    ensures |l.sent + Carried(b)| == Min(|l.received|, Max(n, 0))
  {
  }

  /** What limit_data has sent on a stub, and what it is sending, in any run: the first bytes of what it has
      received there; all of them, unless a limit it ran with is reached, and no more than some limit it ran with,
      so with one limit exactly the first so many. A stub that is not about to close has withheld nothing. The
      state counts the bytes sent, whatever is added, updated and removed in between. */
  lemma LimitHolds(chain: seq<Toxic>, es: seq<Event>, i: nat)
    requires |chain| >= 1 && Legal(Initial(chain), es) && i < |Outcome(Initial(chain), es).stubs|
    ensures var s, ls := Outcome(Initial(chain), es), RunLedgers(Initial(chain), es, Empty(|chain|));
      && |ls| == |s.stubs|
      && var b, l := s.stubs[i], ls[i]; var passed := l.sent + Carried(b);
         && |l.sent| == Transmitted(b) && passed <= l.received
         && (passed == l.received || exists n :: n in l.limits && n <= |passed|)
         && (passed == [] || exists n :: n in l.limits && |passed| <= n)
         && (!Ending(b) && !LimitSends(b) ==> l.sent == l.received)
         && (forall n :: l.limits == {n} ==> |passed| == Min(|l.received|, Max(n, 0)))
  {
    hide Legal, Outcome, Initial, RunLedgers, Inv, Fresh;
    InitialInv(chain);
    InitialIsBooked(chain);
    RunKeepsBooked(Initial(chain), es, Empty(|chain|));
    var s, ls := Outcome(Initial(chain), es), RunLedgers(Initial(chain), es, Empty(|chain|));
    forall n | ls[i].limits == {n}
      ensures |ls[i].sent + Carried(s.stubs[i])| == Min(|ls[i].received|, Max(n, 0))
    {
      OneLimit(s.stubs[i], ls[i], n);
    }
  }

  /** Whatever toxics a stub runs one after the other, in any run, what its goroutine has sent and holds are bytes it
      has received with one that is not a timeout, in this order: nothing that a timeout receives is ever sent. */
  lemma GivenIsTaken(chain: seq<Toxic>, es: seq<Event>, i: nat)
    requires |chain| >= 1 && Legal(Initial(chain), es) && i < |Outcome(Initial(chain), es).stubs|
    ensures var s, ls := Outcome(Initial(chain), es), RunLedgers(Initial(chain), es, Empty(|chain|));
      |ls| == |s.stubs| && Subseq(ls[i].given + Inflight(s.stubs[i].pc), ls[i].taken)
  {
    hide Legal, Outcome, Initial, RunLedgers, Inv, Fresh, Subseq, Balanced;
    InitialInv(chain);
    InitialIsBooked(chain);
    RunKeepsBooked(Initial(chain), es, Empty(|chain|));
  }
}
