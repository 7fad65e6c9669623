/** What the goroutine of a stub does between two receives, toxic by toxic, in any run of a link. It is told by what
    has happened to the stub since its Pipe last received something. */
module LinkPipes {
  import Bandwidth
  import opened Bytes
  import LimitData
  import opened Link
  import opened LinkData
  import opened LinkInvariant
  import opened LinkLimit
  import opened LinkRestarts
  import opened LinkSteps
  import opened LinkTheorems
  import Slicer
  import opened Wrappers

  // ----- rounds -----

  /** What a Pipe has received last; `plan` are the chunks it is to send for it if nothing interrupts. */
  datatype Got = Nothing | Packet(h: Chunk, plan: seq<Chunk>) | End

  /** The last round of a Pipe: the toxic that Run chose, what was received, what has been sent since, how many
      timers have fired, whether an interrupt has come, and whether the flush after it has timed out. */
  datatype Round = Round(pipe: Toxic, got: Got, sent: seq<Chunk>, timers: nat, stopped: bool, lost: bool)

  const NO_ROUND := Round(Noop, Nothing, [], 0, false, false)

  /** The chunks that a toxic sends for the chunk h. A bandwidth of zero sends empty chunks and never h. */
  function Plan(t: Toxic, transmitted: nat, h: Chunk, draw: Slicer.Draws): seq<Chunk> {
    match t
    case Noop => [h]
    case SlowClose => [h]
    case Latency => [h]
    case Bandwidth(rate) => if rate > 0 then Bandwidth.Pieces(rate, h) else [h]
    case Slicing(sizes) => Slicer.Cut(sizes, h, draw)
    case Timeout(_) => []
    case LimitData(bytes) =>
      var c := LimitData.Passed(bytes, transmitted, h);
      if c == [] then [] else [c]
  }

  /** How many timers a toxic waits for before its send number `sends`, counted from zero. */
  function Waits(t: Toxic, sends: nat): nat {
    match t
    case Latency => sends + 1      // it waits before it sends
    case Bandwidth(_) => sends + 1
    case Slicing(_) => sends       // it waits after it has sent
    case _ => 0
  }

  /** How many timers have fired when a toxic has sent so many chunks and is ready for the next one. */
  function WaitsInAll(t: Toxic, sends: nat): nat {
    match t
    case Latency => sends
    case Bandwidth(_) => sends
    case Slicing(_) => sends
    case _ => 0
  }

  predicate NeverPasses(r: Round) {
    r.pipe == Toxic.Bandwidth(0) && r.got.Packet? && r.got.h != []
  }

  /** The chunks of a toxic's plan that come after the send it is blocked in. */
  function Later(t: Toxic, after: After): seq<Chunk> {
    match after
    case Meter(left) => if t.Bandwidth? && t.rate > 0 then Bandwidth.Pieces(t.rate, left) else [left]
    case Pause(slices) => slices
    case _ => []
  }

  /** The goroutine is blocked in a send of its round. */
  predicate SendsInRound(r: Round, d: Chunk, timed: bool, after: After) {
    && r.got.Packet? && !r.lost && (after.Exit? <==> r.stopped) && (timed <==> r.stopped && r.pipe.Bandwidth?)
    && !r.pipe.Timeout? && (Lossless(r.pipe) ==> Flatten(r.sent) + (d + Rest(after)) == r.got.h)
    && if r.stopped then Lossless(r.pipe)
       else
         && r.timers == Waits(r.pipe, |r.sent|)
         && (after.Count? <==> r.pipe.LimitData?) && (after.Pause? <==> r.pipe.Slicing?)
         && (after.Meter? ==> r.pipe.Bandwidth?)
         && if NeverPasses(r) then d == [] && Flatten(r.sent) == [] && after == Meter(r.got.h)
            else r.got.plan == r.sent + [d] + Later(r.pipe, after)
  }

  /** Why a goroutine closes its stub: the end has come, and slow_close has waited once; the timer of a timeout has
      fired; or limit_data has sent what its limit left. */
  predicate MayClose(b: Stub, r: Round) {
    && !r.stopped
    && (|| (r.got.End? && r.timers == if r.pipe.SlowClose? then 1 else 0)
        || (r.pipe.Timeout? && r.pipe.timed && !r.got.End? && r.timers == 1)
        || (r.pipe.LimitData? && r.got.Packet? && r.sent == r.got.plan && Remaining(b) == 0))
  }

  /** The plan is that of the toxic, for what was received. */
  ghost predicate Planned(r: Round) {
    && (r.got.Packet? ==> exists n: nat, draw: Slicer.Draws :: r.got.plan == Plan(r.pipe, n, r.got.h, draw))
    && (r.pipe.Timeout? ==> r.sent == [])
  }

  /** Where a goroutine is, by its round. */
  predicate InRound(b: Stub, r: Round) {
    match b.pc
    case Idle => true
    case Spawned => true
    case Ready =>
      && b.pipe == r.pipe && !r.stopped && !r.lost && !r.got.End? && !NeverPasses(r)
      && (r.got.Nothing? ==> r.sent == [] && r.timers == 0)
      && (r.got.Packet? ==> r.sent == r.got.plan && r.timers == WaitsInAll(r.pipe, |r.sent|))
      && (r.got.Packet? && Lossless(r.pipe) ==> Flatten(r.sent) == r.got.h)
    case Waiting(c) =>
      b.pipe == r.pipe == Latency && !r.stopped && !r.lost && r.got == Packet(c, [c]) && r.sent == [] && r.timers == 0
    case Metering(p) =>
      && b.pipe == r.pipe && r.pipe.Bandwidth? && !r.stopped && !r.lost && r.got.Packet? && r.timers == |r.sent|
      && Flatten(r.sent) + p == r.got.h
      && (if NeverPasses(r) then p == r.got.h else r.got.plan == r.sent + Later(r.pipe, Meter(p)))
    case Pausing(rest) =>
      && b.pipe == r.pipe && r.pipe.Slicing? && !r.stopped && !r.lost && r.got.Packet? && r.timers + 1 == |r.sent|
      && r.got.plan == r.sent + rest && Flatten(r.sent) + Flatten(rest) == r.got.h
    case Lingering => b.pipe == r.pipe == SlowClose && !r.stopped && r.got.End? && r.timers == 0
    case Sending(d, timed, after) => b.pipe == r.pipe && SendsInRound(r, d, timed, after)
    case Closing => b.pipe == r.pipe && MayClose(b, r)
    case ClosingOutput => b.pipe == r.pipe && MayClose(b, r)
    case Exiting =>
      && b.pipe == r.pipe
      && (MayClose(b, r) ||
          (r.stopped && (r.got.Packet? && Lossless(r.pipe) && !r.lost ==> Flatten(r.sent) == r.got.h)))
  }

  // ----- the steps of a stub -----

  lemma SendKeepsRound(b: Stub, r: Round)
    requires b.pc.Sending? && InRound(b, r)
    ensures InRound(AfterSend(b), r.(sent := r.sent + [b.pc.d]))
  {
    hide Flatten, Bandwidth.Pieces;
    var d := b.pc.d;
    FlattenSnoc(r.sent, d);
    assert (Flatten(r.sent) + d) + Rest(b.pc.after) == Flatten(r.sent) + (d + Rest(b.pc.after));
    assert d + [] == d;
  }

  lemma SendKeepsPlan(b: Stub, r: Round)
    requires b.pc.Sending? && InRound(b, r) && Planned(r)
    ensures Planned(r.(sent := r.sent + [b.pc.d]))
  {
    hide Plan, Flatten;
  }

  lemma GivesUpInRound(b: Stub, r: Round)
    requires b.pc.Sending? && b.pc.timed && InRound(b, r)
    ensures InRound(AfterSend(b), r.(lost := true))
  {
  }

  function Received(b: Stub, r: Round, h: Chunk, draw: Slicer.Draws): Round {
    Round(r.pipe, Packet(h, Plan(r.pipe, Transmitted(b), h, draw)), [], 0, false, false)
  }

  lemma ReceiveKeepsRound(b: Stub, r: Round, h: Chunk, draw: Slicer.Draws)
    requires b.pc.Ready? && InRound(b, r)
    ensures InRound(AfterReceive(b, h, draw), Received(b, r, h, draw))
  {
    assert Flatten([]) == [] && [] + h == h && h + [] == h;
    match b.pipe {
      case Slicing(sizes) =>
        SliceStarts(b, r, h, draw);
      case LimitData(_) =>
        LimitStarts(b, r, h, draw);
      case _ =>
        FlattenOne(h);
        hide Flatten, Bandwidth.Pieces, Slicer.Cut, Kept, LimitData.Passed;
    }
  }

  lemma LimitStarts(b: Stub, r: Round, h: Chunk, draw: Slicer.Draws)
    requires b.pc.Ready? && InRound(b, r) && b.pipe.LimitData?
    ensures InRound(AfterReceive(b, h, draw), Received(b, r, h, draw))
  {
    hide Flatten;
    assert h[..|h|] == h;
  }

  lemma SliceStarts(b: Stub, r: Round, h: Chunk, draw: Slicer.Draws)
    requires b.pc.Ready? && InRound(b, r) && b.pipe.Slicing?
    ensures InRound(AfterReceive(b, h, draw), Received(b, r, h, draw))
  {
    var slices := Slicer.Cut(b.pipe.sizes, h, draw);
    assert slices == [slices[0]] + slices[1..];
    assert [] + [slices[0]] + slices[1..] == slices;
    assert Flatten(slices) == slices[0] + Flatten(slices[1..]);
    assert Flatten([]) == [];
    hide Slicer.Cut;
  }

  lemma EndKeepsRound(b: Stub, r: Round)
    requires b.pc.Ready? && InRound(b, r)
    ensures InRound(AfterEnd(b), r.(got := End, sent := [], timers := 0))
  {
  }

  lemma TimerKeepsRound(b: Stub, r: Round)
    requires CanTick(b) && InRound(b, r)
    ensures InRound(AfterTimer(b), r.(timers := r.timers + 1))
  {
    assert Flatten([]) == [];
    match b.pc {
      case Metering(p) => PieceStarts(b, r, p);
      case Pausing(rest) => PauseEnds(b, r, rest);
      case _ =>
    }
  }

  lemma PauseEnds(b: Stub, r: Round, rest: seq<Chunk>)
    requires b.pc == Pausing(rest) && InRound(b, r)
    ensures InRound(AfterTimer(b), r.(timers := r.timers + 1))
  {
    if rest == [] {
      assert Flatten(rest) == [] && r.sent + rest == r.sent;
    } else {
      assert rest == [rest[0]] + rest[1..];
      assert r.sent + rest == r.sent + [rest[0]] + rest[1..];
    }
  }

  lemma PieceStarts(b: Stub, r: Round, p: Chunk)
    requires b.pc == Metering(p) && CanTick(b) && InRound(b, r)
    ensures InRound(AfterTimer(b), r.(timers := r.timers + 1))
  {
    var rate := b.pipe.rate;
    if |p| > rate * 100 {
      if rate > 0 { PieceSplits(b, r, p); } else { PieceIsEmpty(b, r, p); }
    } else {
      PieceIsLast(b, r, p);
    }
    hide InRound, AfterTimer;
  }

  lemma PieceSplits(b: Stub, r: Round, p: Chunk)
    requires b.pc == Metering(p) && CanTick(b) && InRound(b, r) && b.pipe.rate > 0 && |p| > b.pipe.rate * 100
    ensures InRound(AfterTimer(b), r.(timers := r.timers + 1))
  {
    PiecesSnoc(r.sent, b.pipe.rate, p);
    hide Flatten, Bandwidth.Pieces;
    assert p[..b.pipe.rate * 100] + p[b.pipe.rate * 100..] == p;
  }

  lemma PieceIsEmpty(b: Stub, r: Round, p: Chunk)
    requires b.pc == Metering(p) && CanTick(b) && InRound(b, r) && b.pipe.rate == 0 && p != []
    ensures InRound(AfterTimer(b), r.(timers := r.timers + 1))
  {
    hide Flatten, Bandwidth.Pieces;
    assert |Flatten(r.sent)| + |p| == |r.got.h|;
    assert NeverPasses(r) && Flatten(r.sent) == [];
    assert p[..0] + p[0..] == p && p[0..] == p && p[..0] == [];
  }

  lemma PieceIsLast(b: Stub, r: Round, p: Chunk)
    requires b.pc == Metering(p) && CanTick(b) && InRound(b, r) && |p| <= b.pipe.rate * 100
    ensures InRound(AfterTimer(b), r.(timers := r.timers + 1))
  {
    assert b.pipe.rate > 0 ==> Bandwidth.Pieces(b.pipe.rate, p) == [p];
    hide Flatten, Bandwidth.Pieces;
    assert r.sent + [p] + [] == r.sent + [p] && p + [] == p;
  }

  lemma PiecesSnoc(sent: seq<Chunk>, rate: nat, p: Chunk)
    requires rate > 0 && |p| > rate * 100
    ensures var piece := rate * 100;
      sent + Bandwidth.Pieces(rate, p) == sent + [p[..piece]] + Bandwidth.Pieces(rate, p[piece..])
  {
  }

  lemma InterruptKeepsRound(b: Stub, r: Round)
    requires Interruptible(b.pc) && InRound(b, r)
    ensures InRound(b.(pc := Interrupted(b.pc)), r.(stopped := true))
  {
    assert Flatten([]) == [];
  }

  lemma CloseKeepsRound(b: Stub, b': Stub, r: Round)
    requires Closes(b, b') && InRound(b, r) && (b.pc.Closing? || b.pc.ClosingOutput? || b.pc.Exiting?)
    ensures b'.pc.Idle? || !b.pc.Exiting? ==> InRound(b', r)
  {
  }

  // ----- rounds over a run -----

  ghost predicate AllInRound(bs: seq<Stub>, rs: seq<Round>) {
    |rs| == |bs| && forall i :: 0 <= i < |bs| ==> InRound(bs[i], rs[i]) && Planned(rs[i])
  }

  /** The rounds of the stubs after a move: they follow their stubs. */
  function MoveRounds(s: State, m: Move, rs: seq<Round>): seq<Round>
    requires Can(s, m)
  {
    match m
    case Start(i, chosen) =>
      if i < |rs| then rs[i := NO_ROUND.(pipe := if chosen then s.stubs[i].toxic else Noop)] else rs
    case Put(FromStub(i)) => if i < |rs| then rs[i := rs[i].(sent := rs[i].sent + [s.stubs[i].pc.d])] else rs
    case GiveUp(FromStub(i)) => if i < |rs| then rs[i := rs[i].(lost := true)] else rs
    case Take(ToStub(j), draw) =>
      if j < |rs| then rs[j := Received(s.stubs[j], rs[j], s.chans[s.stubs[j].input].buf[0], draw)] else rs
    case TakeEnd(ToStub(j)) => if j < |rs| then rs[j := rs[j].(got := End, sent := [], timers := 0)] else rs
    case Tick(i) => if i < |rs| then rs[i := rs[i].(timers := rs[i].timers + 1)] else rs
    case Deliver => if Target(s) < |rs| then rs[Target(s) := rs[Target(s)].(stopped := true)] else rs
    case Begin(Add(_)) => rs + [NO_ROUND]
    case Proceed => if s.ctl.Draining? && s.ctl.k < |rs| then rs[..s.ctl.k] + rs[s.ctl.k + 1..] else rs
    case _ => rs
  }

  function NextRounds(s: State, e: Event, rs: seq<Round>): seq<Round>
    requires Enabled(s, e)
  {
    match e
    case One(m) => MoveRounds(s, m, rs)
    case Handoff(w, r, draw) => MoveRounds(Do(s, Put(w)), Take(r, draw), MoveRounds(s, Put(w), rs))
  }

  function RunRounds(s: State, es: seq<Event>, rs: seq<Round>): seq<Round>
    requires Legal(s, es)
    decreases |es|
  {
    if es == [] then rs else RunRounds(Next(s, es[0]), es[1..], NextRounds(s, es[0], rs))
  }

  lemma OneInRound(bs: seq<Stub>, rs: seq<Round>, i: nat, b: Stub, r: Round)
    requires AllInRound(bs, rs) && i < |bs| && InRound(b, r) && Planned(r)
    ensures AllInRound(bs[i := b], rs[i := r])
  {
    hide InRound, Planned;
  }

  lemma InRoundAt(bs: seq<Stub>, rs: seq<Round>, i: nat)
    requires AllInRound(bs, rs) && i < |bs|
    ensures |rs| == |bs| && InRound(bs[i], rs[i]) && Planned(rs[i])
  {
  }

  /** Stubs that change have no goroutine, or one that has not begun its Pipe. */
  ghost predicate RestChanges(bs: seq<Stub>, bs': seq<Stub>) {
    |bs'| == |bs| && forall i :: 0 <= i < |bs| ==> bs'[i] == bs[i] || bs'[i].pc.Idle? || bs'[i].pc.Spawned?
  }

  lemma RestInRound(bs: seq<Stub>, bs': seq<Stub>, rs: seq<Round>)
    requires AllInRound(bs, rs) && RestChanges(bs, bs')
    ensures AllInRound(bs', rs)
  {
    hide Planned;
    forall i | 0 <= i < |bs'| ensures InRound(bs'[i], rs[i]) && Planned(rs[i]) {
      assert InRound(bs[i], rs[i]);
    }
  }

  lemma StubSendInRound(s: State, i: nat, rs: seq<Round>)
    requires AllInRound(s.stubs, rs) && CanSend(s, FromStub(i))
    ensures i < |rs|
    ensures AllInRound(Resume(s, FromStub(i)).stubs, rs[i := rs[i].(sent := rs[i].sent + [s.stubs[i].pc.d])])
    ensures s.stubs[i].pc.timed ==> AllInRound(Resume(s, FromStub(i)).stubs, rs[i := rs[i].(lost := true)])
  {
    hide AllInRound, InRound, AfterSend;
    var b := s.stubs[i];
    InRoundAt(s.stubs, rs, i);
    SendKeepsRound(b, rs[i]);
    SendKeepsPlan(b, rs[i]);
    OneInRound(s.stubs, rs, i, AfterSend(b), rs[i].(sent := rs[i].sent + [b.pc.d]));
    if b.pc.timed {
      GivesUpInRound(b, rs[i]);
      OneInRound(s.stubs, rs, i, AfterSend(b), rs[i].(lost := true));
    }
  }

  lemma SendsInRounds(s: State, m: Move, rs: seq<Round>)
    requires AllInRound(s.stubs, rs) && Can(s, m) && (m.Put? || m.GiveUp?)
    ensures AllInRound(Do(s, m).stubs, MoveRounds(s, m, rs))
  {
    hide AllInRound, Resume, Send, CanSend;
    SendKeepsStubs(s, m.w);
    if m.w.FromStub? {
      StubSendInRound(s, m.w.i, rs);
    } else {
      OuterResumes(s, m.w);
    }
  }

  lemma StubReceivesInRound(s: State, j: nat, draw: Slicer.Draws, rs: seq<Round>)
    requires AllInRound(s.stubs, rs) && CanReceive(s, ToStub(j))
    ensures j < |rs| && AllInRound(ReceiveEnd(s, ToStub(j)).stubs, rs[j := rs[j].(got := End, sent := [], timers := 0)])
    ensures s.chans[s.stubs[j].input].buf != [] ==>
      AllInRound(Receive(s, ToStub(j), draw).stubs,
                 rs[j := Received(s.stubs[j], rs[j], s.chans[s.stubs[j].input].buf[0], draw)])
  {
    hide AllInRound, InRound, AfterReceive, AfterEnd, Discards;
    var b := s.stubs[j];
    InRoundAt(s.stubs, rs, j);
    EndKeepsRound(b, rs[j]);
    OneInRound(s.stubs, rs, j, AfterEnd(b), rs[j].(got := End, sent := [], timers := 0));
    if s.chans[b.input].buf != [] {
      var h := s.chans[b.input].buf[0];
      ReceiveKeepsRound(b, rs[j], h, draw);
      assert Planned(Received(b, rs[j], h, draw));
      OneInRound(s.stubs, rs, j, AfterReceive(b, h, draw), Received(b, rs[j], h, draw));
    }
  }

  lemma ReceivesInRounds(s: State, m: Move, rs: seq<Round>)
    requires AllInRound(s.stubs, rs) && Can(s, m) && (m.Take? || m.TakeEnd?)
    ensures AllInRound(Do(s, m).stubs, MoveRounds(s, m, rs))
  {
    hide AllInRound, Receive, ReceiveEnd, Received;
    var draw := if m.Take? then m.draw else (x, y) => 0;
    if m.r.ToStub? {
      StubReceivesInRound(s, m.r.j, draw, rs);
    } else {
      OuterTakes(s, m.r, draw);
    }
  }

  lemma TimersInRounds(s: State, m: Move, rs: seq<Round>)
    requires AllInRound(s.stubs, rs) && Can(s, m) && (m.Tick? || m.Deliver?)
    ensures AllInRound(Do(s, m).stubs, MoveRounds(s, m, rs))
  {
    hide AllInRound, InRound, AfterTimer, Interrupted, CanTick, Interruptible;
    var i := if m.Tick? then m.i else Target(s);
    var b := s.stubs[i];
    InRoundAt(s.stubs, rs, i);
    if m.Tick? {
      TimerKeepsRound(b, rs[i]);
      OneInRound(s.stubs, rs, i, AfterTimer(b), rs[i].(timers := rs[i].timers + 1));
    } else {
      InterruptKeepsRound(b, rs[i]);
      OneInRound(s.stubs, rs, i, b.(pc := Interrupted(b.pc)), rs[i].(stopped := true));
    }
  }

  /** A run starts with the toxic's Pipe if the toxicity chooses it, and with a noop's otherwise. */
  lemma StartsInRound(s: State, i: nat, chosen: bool, rs: seq<Round>)
    requires AllInRound(s.stubs, rs) && i < |s.stubs| && s.stubs[i].pc.Spawned?
    ensures |rs| == |s.stubs|
    ensures AllInRound(Run(s, i, chosen).stubs,
                       rs[i := NO_ROUND.(pipe := if chosen then s.stubs[i].toxic else Noop)])
  {
    InRoundAt(s.stubs, rs, i);
    hide AllInRound;
    var s', r := Run(s, i, chosen), NO_ROUND.(pipe := if chosen then s.stubs[i].toxic else Noop);
    assert s'.stubs == s.stubs[i := s'.stubs[i]];
    OneInRound(s.stubs, rs, i, s'.stubs[i], r);
  }

  lemma ClosesInRound(s: State, i: nat, rs: seq<Round>)
    requires AllInRound(s.stubs, rs) && i < |s.stubs| && s.stubs[i].output < |s.chans|
    requires s.stubs[i].pc.Closing? || s.stubs[i].pc.ClosingOutput? || s.stubs[i].pc.Exiting?
    ensures AllInRound(CloseStep(s, i).stubs, rs)
  {
    hide CloseStep, AllInRound, InRound, Closes;
    InRoundAt(s.stubs, rs, i);
    CloseStepIs(s, i);
    var s' := CloseStep(s, i);
    var b' :| Closes(s.stubs[i], b') && s' == s.(stubs := s.stubs[i := b'], chans := s'.chans, fault := s'.fault);
    assert InRound(b', rs[i]) by { ExitsToIdle(s, i); CloseKeepsRound(s.stubs[i], b', rs[i]); }
    assert rs[i := rs[i]] == rs;
    OneInRound(s.stubs, rs, i, b', rs[i]);
  }

  lemma ExitsToIdle(s: State, i: nat)
    requires i < |s.stubs| && s.stubs[i].output < |s.chans|
    ensures i < |CloseStep(s, i).stubs| && (s.stubs[i].pc.Exiting? ==> CloseStep(s, i).stubs[i].pc.Idle?)
  {
    CloseStepIs(s, i);
    hide CloseChan;
  }

  lemma OthersInRounds(s: State, m: Move, rs: seq<Round>)
    requires AllInRound(s.stubs, rs) && Can(s, m) && !m.Begin? && !m.Proceed?
    ensures AllInRound(Do(s, m).stubs, MoveRounds(s, m, rs))
  {
    if m.Put? || m.GiveUp? {
      SendsInRounds(s, m, rs);
    } else if m.Take? || m.TakeEnd? {
      ReceivesInRounds(s, m, rs);
    } else if m.Tick? || m.Deliver? {
      TimersInRounds(s, m, rs);
    } else {
      hide AllInRound, CloseChan, Run, CloseStep;
      if m.Start? {
        StartsInRound(s, m.i, m.chosen, rs);
      } else if m.Close? {
        ClosesInRound(s, m.i, rs);
      } else if m.CloseInput? {
        CloseChanIs(s, s.input);
      }
    }
  }

  // ----- the controller -----

  lemma SpawnIsRest(s: State, k: nat, t: Toxic)
    requires k < |s.stubs|
    ensures RestChanges(s.stubs, Spawn(s, k, t).stubs)
  {
  }

  lemma RestartIsRest(s: State, k: nat)
    requires k < |s.stubs|
    ensures RestChanges(s.stubs, SpawnFromChain(s, k).stubs)
  {
    hide Spawn;
    if k < |s.chain| { SpawnIsRest(s, k, s.chain[k]); }
  }

  lemma RestAndRest(bs: seq<Stub>, bs': seq<Stub>, bs'': seq<Stub>)
    requires RestChanges(bs, bs') && RestChanges(bs', bs'')
    ensures RestChanges(bs, bs'')
  {
  }

  lemma SpliceInIsRest(s: State)
    requires s.ctl.Adding? && |s.stubs| >= 2
    requires s.stubs[|s.stubs| - 1].pc.Idle? && s.stubs[|s.stubs| - 2].pc.Idle?
    ensures RestChanges(s.stubs, SpliceIn(s).stubs)
  {
    var n, s1 := |s.stubs| - 1, RewireIn(s);
    assert RestChanges(s.stubs, s1.stubs);
    hide RestChanges, RewireIn, Spawn, SpawnFromChain;
    assert |s1.stubs| == |s.stubs| by { RestLength(s.stubs, s1.stubs); }
    SpawnIsRest(s1, n, s.ctl.t);
    var s2 := Spawn(s1, n, s.ctl.t);
    RestLength(s1.stubs, s2.stubs);
    RestartIsRest(s2, n - 1);
    RestAndRest(s.stubs, s1.stubs, s2.stubs);
    RestAndRest(s.stubs, s2.stubs, SpliceIn(s).stubs);
  }

  lemma RestLength(bs: seq<Stub>, bs': seq<Stub>)
    requires RestChanges(bs, bs')
    ensures |bs'| == |bs|
  {
  }

  lemma CutInRound(bs: seq<Stub>, rs: seq<Round>, k: nat)
    requires AllInRound(bs, rs) && k < |bs|
    ensures |rs| == |bs| && AllInRound(bs[..k] + bs[k + 1..], rs[..k] + rs[k + 1..])
  {
    hide InRound, Planned;
    var bs', rs' := bs[..k] + bs[k + 1..], rs[..k] + rs[k + 1..];
    forall i | 0 <= i < |bs'|
      ensures InRound(bs'[i], rs'[i]) && Planned(rs'[i])
    {
      CutAt(bs, k, i);
      CutAt(rs, k, i);
    }
  }

  lemma SpliceOutInRounds(s: State, rs: seq<Round>)
    requires AllInRound(s.stubs, rs) && CanProceed(s) && s.ctl.Draining? && s.stubs[s.ctl.k - 1].pc.Idle?
    ensures |rs| == |s.stubs| && AllInRound(SpliceOut(s).stubs, rs[..s.ctl.k] + rs[s.ctl.k + 1..])
  {
    var k := s.ctl.k;
    var prev := s.stubs[k - 1].(output := s.stubs[k].output);
    assert RestChanges(s.stubs, s.stubs[k - 1 := prev]);
    hide AllInRound, RestChanges, Spawn, SpawnFromChain;
    RestInRound(s.stubs, s.stubs[k - 1 := prev], rs);
    CutInRound(s.stubs[k - 1 := prev], rs, k);
    CutReplaced(s.stubs, k, prev);
    assert RewireOut(s).stubs == s.stubs[..k - 1] + [prev] + s.stubs[k + 1..];
    RestartIsRest(RewireOut(s), k - 1);
    RestInRound(RewireOut(s).stubs, SpliceOut(s).stubs, rs[..k] + rs[k + 1..]);
  }

  lemma AdvanceInRounds(s: State, rs: seq<Round>)
    requires AllInRound(s.stubs, rs) && Can(s, Proceed) && Phase(s) && Shaking(s)
    ensures AllInRound(Do(s, Proceed).stubs, MoveRounds(s, Proceed, rs))
  {
    hide AllInRound, Phase, Shaking, Parked, SpliceIn, SpliceOut, Spawn, SetAside, ShutStep, StartRemoval, RestChanges;
    SplicesMeetIdle(s);
    if s.ctl.Draining? {
      assert s.stubs[s.ctl.k - 1].pc.Idle? by { ParkedIsIdle(s, s.ctl.k - 1); }
      SpliceOutInRounds(s, rs);
    } else {
      if s.ctl.Adding? {
        if s.ctl.shake.ok { SpliceInIsRest(s); } else { SetAsideIsRest(s); }
      } else if s.ctl.Shutting? {
        ShutIsRest(s);
      } else if s.ctl.Updating? {
        if s.ctl.shake.ok { SpawnIsRest(s, s.ctl.k, s.ctl.t); } else { SameIsRest(s.stubs); }
      } else {
        RemovingStep(s);
        SameIsRest(s.stubs);
      }
      RestInRound(s.stubs, Advance(s).stubs, rs);
    }
  }

  lemma ParkedIsIdle(s: State, i: int)
    requires Parked(s, i)
    ensures 0 <= i < |s.stubs| && s.stubs[i].pc.Idle?
  {
  }

  lemma SameIsRest(bs: seq<Stub>)
    ensures RestChanges(bs, bs)
  {
  }

  lemma SetAsideIsRest(s: State)
    requires s.ctl.Adding? && |s.stubs| >= 2 && s.stubs[|s.stubs| - 1].pc.Idle?
    ensures RestChanges(s.stubs, SetAside(s).stubs)
  {
  }

  lemma ShutIsRest(s: State)
    requires CanProceed(s) && s.ctl.Shutting? && Phase(s)
    ensures RestChanges(s.stubs, ShutStep(s).stubs)
  {
    ShutStepIs(s);
    hide ShutStep, Parked;
  }

  lemma BeginInRounds(s: State, op: Op, rs: seq<Round>)
    requires AllInRound(s.stubs, rs) && Can(s, Begin(op))
    ensures AllInRound(BeginOp(s, op).stubs, MoveRounds(s, Begin(op), rs))
  {
    hide AllOpen;
    if op.Add? {
      var s' := BeginOp(s, op);
      assert s'.stubs == s.stubs + [s'.stubs[|s.stubs|]] && InRound(s'.stubs[|s.stubs|], NO_ROUND) && Planned(NO_ROUND);
      hide BeginOp, InRound, Planned;
    }
  }

  lemma MoveInRounds(s: State, m: Move, rs: seq<Round>)
    requires Core(s) && AllInRound(s.stubs, rs) && Can(s, m)
    ensures AllInRound(Do(s, m).stubs, MoveRounds(s, m, rs))
  {
    hide AllInRound, Advance, BeginOp, MoveRounds, Wiring, Phase, Shaking, Closure, Ends, Counts, Aligned;
    if m.Proceed? {
      AdvanceInRounds(s, rs);
    } else if m.Begin? {
      BeginInRounds(s, m.op, rs);
    } else {
      OthersInRounds(s, m, rs);
    }
  }

  // ----- every run -----

  lemma EventInRounds(s: State, e: Event, rs: seq<Round>)
    requires Inv(s) && AllInRound(s.stubs, rs) && Enabled(s, e)
    ensures AllInRound(Next(s, e).stubs, NextRounds(s, e, rs))
  {
    hide Wiring, Phase, Shaking, Closure, Ends, Counts, Aligned, Data, AllInRound, Do, Can, MoveRounds;
    match e {
      case One(m) => MoveInRounds(s, m, rs);
      case Handoff(w, r, draw) =>
        MoveInRounds(s, Put(w), rs);
        MoveKeepsInv(s, Put(w));
        MoveInRounds(Do(s, Put(w)), Take(r, draw), MoveRounds(s, Put(w), rs));
    }
  }

  lemma {:induction false} RunInRounds(s: State, es: seq<Event>, rs: seq<Round>)
    requires Inv(s) && AllInRound(s.stubs, rs) && Legal(s, es)
    ensures AllInRound(Outcome(s, es).stubs, RunRounds(s, es, rs))
    decreases |es|
  {
    hide Inv, AllInRound, Enabled, Next, NextRounds;
    if es != [] {
      EventInRounds(s, es[0], rs);
      EventKeepsInv(s, es[0]);
      RunInRounds(Next(s, es[0]), es[1..], NextRounds(s, es[0], rs));
    }
  }

  function NoRounds(n: nat): (rs: seq<Round>)
    ensures |rs| == n
  {
    seq(n, _ => NO_ROUND)
  }

  /** In every run every goroutine is where its round says. */
  lemma StubsKeepRounds(chain: seq<Toxic>, es: seq<Event>)
    requires |chain| >= 1 && Legal(Initial(chain), es)
    ensures AllInRound(Outcome(Initial(chain), es).stubs, RunRounds(Initial(chain), es, NoRounds(|chain|)))
  {
    assert AllInRound(Initial(chain).stubs, NoRounds(|chain|));
    hide Legal, Outcome, Initial, RunRounds, Inv, AllInRound;
    InitialInv(chain);
    RunInRounds(Initial(chain), es, NoRounds(|chain|));
  }

  // ----- what follows, toxic by toxic -----

  /** The goroutine of the stub is in a Pipe. */
  predicate Runs(b: Stub) {
    !b.pc.Idle? && !b.pc.Spawned?
  }

  /** A timeout holds and sends nothing, in any run, and nothing that it has received is sent later; and its timer,
      which is there if and only if its attribute is positive, makes it close its stub. */
  lemma TimeoutPassesNothing(chain: seq<Toxic>, es: seq<Event>, i: nat)
    requires |chain| >= 1 && Legal(Initial(chain), es) && i < |Outcome(Initial(chain), es).stubs|
    requires var s := Outcome(Initial(chain), es); Runs(s.stubs[i]) && s.stubs[i].pipe.Timeout?
    ensures var s, rs := Outcome(Initial(chain), es), RunRounds(Initial(chain), es, NoRounds(|chain|));
      var b := s.stubs[i];
      && |rs| == |s.stubs| && rs[i].pipe == b.pipe && rs[i].sent == [] && Inflight(b.pc) == [] && !b.pc.Sending?
      && (b.pc.Ready? && s.fault == NoFault ==> (Can(s, Tick(i)) <==> b.pipe.timed))
      && (Can(s, Tick(i)) ==> i < |Do(s, Tick(i)).stubs| && Do(s, Tick(i)).stubs[i] == b.(pc := Closing))
      && (b.pc.Closing? || b.pc.ClosingOutput? ==> rs[i].got.End? || (b.pipe.timed && rs[i].timers == 1))
  {
    hide Legal, Outcome, Initial, RunRounds, NoRounds, AllInRound;
    StubsKeepRounds(chain, es);
    var s, rs := Outcome(Initial(chain), es), RunRounds(Initial(chain), es, NoRounds(|chain|));
    InRoundAt(s.stubs, rs, i);
    TimeoutRound(s.stubs[i], rs[i]);
    TimeoutTicks(s, i, rs[i]);
  }

  lemma TimeoutRound(b: Stub, r: Round)
    requires Runs(b) && b.pipe.Timeout? && InRound(b, r) && Planned(r)
    ensures r.pipe == b.pipe && r.sent == [] && Inflight(b.pc) == [] && !b.pc.Sending?
    ensures b.pc.Closing? || b.pc.ClosingOutput? ==> r.got.End? || (b.pipe.timed && r.timers == 1)
  {
  }

  lemma TimeoutTicks(s: State, i: nat, r: Round)
    requires i < |s.stubs| && Runs(s.stubs[i]) && s.stubs[i].pipe.Timeout? && InRound(s.stubs[i], r)
    ensures var b := s.stubs[i];
      && (b.pc.Ready? && s.fault == NoFault ==> (Can(s, Tick(i)) <==> b.pipe.timed))
      && (Can(s, Tick(i)) ==> i < |Do(s, Tick(i)).stubs| && Do(s, Tick(i)).stubs[i] == b.(pc := Closing))
  {
  }
}
