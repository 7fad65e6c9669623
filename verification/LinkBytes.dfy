/** No move reorders or duplicates bytes on their way, and only recorded drops lose any. */
module LinkBytes {
  import opened Bytes
  import opened Link
  import opened LinkInvariant
  import Slicer
  import opened Wrappers

  // ----- frames -----

  lemma DataKept(s: State, s': State)
    requires Data(s) && 0 <= Live(s') && s'.delivered == s.delivered && s'.written == s.written
    requires s.dropped ==> s'.dropped
    requires Subseq(Held(s'), Held(s)) && (!s'.dropped ==> Held(s') == Held(s))
    ensures Data(s')
  {
    SubseqPrefix(s.delivered, Held(s'), Held(s));
    SubseqTrans(s.delivered + Held(s'), s.delivered + Held(s), s.written);
  }

  lemma DataSame(s: State, s': State)
    requires Data(s) && 0 <= Live(s') && Held(s') == Held(s)
    requires s'.delivered == s.delivered && s'.written == s.written && (s.dropped ==> s'.dropped)
    ensures Data(s')
  {
    SubseqRefl(Held(s));
    DataKept(s, s');
  }

  /** One part changes, into a subsequence. */
  lemma DataShrinks(s: State, s': State, i: nat, x: Chunk)
    requires Data(s) && 0 <= Live(s') && i <= Live(s) && Subseq(x, Part(s, i))
    requires Parts(s') == Parts(s)[i := x] && s'.dropped
    requires s'.delivered == s.delivered && s'.written == s.written
    ensures Data(s')
  {
    InOrderShrinks(Parts(s), i, x);
    DataKept(s, s');
  }

  /** The chunk h leaves the channel before stub i, and h' of it gets into the hands on stub i. */
  lemma DataTaken(s: State, s': State, ps: seq<Chunk>, i: nat, h: Chunk, h': Chunk, y: Chunk)
    requires Data(s) && 0 <= Live(s') && ps == Parts(s) && i + 1 < |ps|
    requires ps[i] == h + y && Parts(s') == ps[i := y][i + 1 := ps[i + 1] + h']
    requires Subseq(h', h) && (!s'.dropped ==> h' == h)
    requires s'.delivered == s.delivered && s'.written == s.written && (s.dropped ==> s'.dropped)
    ensures Data(s')
  {
    InOrderPasses(ps, i, h, h', y);
    assert h' == h ==> InOrder(Parts(s')) == InOrder(ps) by {
      if h' == h { InOrderMoves(ps, i, h, y); }
    }
    DataKept(s, s');
  }

  /** Nothing is beyond the last stub on the way to the output. */
  lemma HeldEndsAtOutput(s: State)
    requires Wiring(s) && Phase(s)
    ensures Held(s) == InOrder(Parts(s)[..s.reach + 1])
  {
    var ps := Parts(s);
    forall j | s.reach < j <= Live(s) ensures ps[j] == [] {
      assert Spare(s.stubs[j - 1], s.chans, ShutBy(s.ctl, j - 1));
    }
    InOrderStops(ps, s.reach + 1);
  }

  // ----- moves that leave every byte where it is -----

  predicate SameHands(c: Ctl, c': Ctl) {
    match c
    case Flushing(k, _, Some(h)) => c'.Flushing? && c'.k == k && c'.hand == Some(h)
    case Draining(k, Some(h)) => c'.Draining? && c'.k == k && c'.hand == Some(h)
    case _ => (c'.Flushing? || c'.Draining?) ==> c'.hand.None?
  }

  /** Whatever else changes: the same chunks are in the same places. */
  ghost predicate SamePlaces(s: State, s': State) {
    && 0 <= Live(s) == Live(s') && |s'.stubs| == |s.stubs| && |s'.chans| >= |s.chans|
    && s'.input == s.input < |s.chans| && s'.pending == s.pending && SameHands(s.ctl, s'.ctl)
    && (forall c :: 0 <= c < |s.chans| ==> s'.chans[c].buf == s.chans[c].buf)
    && (forall i :: 0 <= i < Live(s) ==>
          && s'.stubs[i].output == s.stubs[i].output < |s.chans|
          && Inflight(s'.stubs[i].pc) == Inflight(s.stubs[i].pc))
  }

  lemma PlacesKeep(s: State, s': State)
    requires Data(s) && SamePlaces(s, s')
    requires s'.delivered == s.delivered && s'.written == s.written && (s.dropped ==> s'.dropped)
    ensures Data(s')
  {
    forall j | 0 <= j <= Live(s) ensures Part(s', j) == Part(s, j) {
      if j > 0 { assert s'.stubs[j - 1].output == s.stubs[j - 1].output; }
    }
    assert Parts(s') == Parts(s);
    DataSame(s, s');
  }

  lemma TimerKeepsBytes(b: Stub)
    requires CanTick(b)
    ensures Inflight(AfterTimer(b).pc) == Inflight(b.pc)
  {
  }

  lemma InterruptKeepsBytes(pc: Pc)
    requires Interruptible(pc)
    ensures Inflight(Interrupted(pc)) == Inflight(pc)
  {
  }

  // ----- a chunk moves on -----

  /** The wires of stub i. */
  predicate Wired(s: State, i: nat) {
    && i < Live(s) <= |s.stubs| && s.input < |s.chans|
    && s.stubs[i].input == Node(s, i) && s.stubs[i].output != s.stubs[i].input
    && s.stubs[i].input < |s.chans| && s.stubs[i].output < |s.chans|
  }

  lemma IsWired(s: State, i: nat)
    requires Wiring(s) && i < s.reach
    ensures Wired(s, i)
  {
  }

  /** Nobody but the hands on stub i moves, and channel c, next to it, is all that changes. */
  ghost predicate Near(s: State, s': State, i: nat, c: nat) {
    && 0 <= Live(s) == Live(s') && |s'.stubs| == |s.stubs| && i < Live(s)
    && s'.input == s.input && s'.pending == s.pending
    && |s'.chans| == |s.chans| && c < |s.chans| && s'.chans == s.chans[c := s'.chans[c]]
    && (forall j :: 0 <= j < Live(s) ==> s'.stubs[j].output == s.stubs[j].output)
    && (forall j :: 0 <= j < Live(s) && j != i ==> Load(s', j) == Load(s, j))
  }

  /** The parts that do not belong to channel c or stub i stay. */
  lemma PartFar(s: State, s': State, i: nat, c: nat, j: int)
    requires Wiring(s) && Near(s, s', i, c) && 0 <= j <= Live(s) && j != i + 1 && Node(s, j) != c
    ensures Part(s', j) == Part(s, j)
  {
  }

  lemma NodesDiffer(s: State, i: int, j: int)
    requires Wiring(s) && 0 <= i < j <= Live(s)
    ensures Node(s, i) != Node(s, j)
  {
  }

  /** The chunk d goes from the hands on stub i into the channel after it. */
  lemma ShipParts(s: State, s': State, i: nat, d: Chunk, rest: Chunk)
    requires Wiring(s) && Wired(s, i) && Near(s, s', i, s.stubs[i].output)
    requires Load(s, i) == d + rest && Load(s', i) == rest
    requires s'.chans[s.stubs[i].output].buf == s.chans[s.stubs[i].output].buf + [d]
    ensures Parts(s') == Parts(s)
  {
    var out := s.stubs[i].output;
    forall j | 0 <= j <= Live(s) && j != i + 1 ensures Part(s', j) == Part(s, j) {
      if j < i + 1 { NodesDiffer(s, j, i + 1); } else { NodesDiffer(s, i + 1, j); }
      PartFar(s, s', i, out, j);
    }
    FlattenSnoc(s.chans[out].buf, d);
    assert Part(s', i + 1) == Part(s, i + 1);
  }

  /** The hands on stub i take the chunk h from the channel before it and keep h' of it. */
  lemma FetchPart(s: State, s': State, i: nat, h: Chunk, h': Chunk)
    requires Wired(s, i) && Near(s, s', i, s.stubs[i].input)
    requires Load(s, i) == [] && Load(s', i) == h'
    requires var buf := s.chans[s.stubs[i].input].buf;
      buf != [] && buf[0] == h && s'.chans[s.stubs[i].input].buf == buf[1..]
    ensures Part(s, i) == h + Part(s', i)
    ensures Part(s', i + 1) == Part(s, i + 1) + h'
  {
    hide Inflight, Hand;
    var above := if i > 0 then Load(s, i - 1) else if s.pending.Some? then s.pending.value else [];
    assert Part(s, i) == Buffered(s, s.stubs[i].input) + above;
    assert Part(s', i) == Buffered(s', s.stubs[i].input) + above;
    assert Buffered(s, s.stubs[i].input) == h + Buffered(s', s.stubs[i].input);
    var b := Buffered(s, s.stubs[i].output);
    assert Part(s, i + 1) == b + [] == b;
  }

  lemma FetchOthers(s: State, s': State, i: nat)
    requires Wiring(s) && Wired(s, i) && Near(s, s', i, s.stubs[i].input)
    ensures forall j :: 0 <= j <= Live(s) && j != i && j != i + 1 ==> Part(s', j) == Part(s, j)
  {
    forall j | 0 <= j <= Live(s) && j != i && j != i + 1 ensures Part(s', j) == Part(s, j) {
      if j < i { NodesDiffer(s, j, i); } else { NodesDiffer(s, i, j); }
      PartFar(s, s', i, s.stubs[i].input, j);
    }
  }

  lemma FetchParts(s: State, s': State, i: nat, h: Chunk, h': Chunk)
    requires Wiring(s) && Wired(s, i) && Near(s, s', i, s.stubs[i].input)
    requires Load(s, i) == [] && Load(s', i) == h'
    requires var buf := s.chans[s.stubs[i].input].buf;
      buf != [] && buf[0] == h && s'.chans[s.stubs[i].input].buf == buf[1..]
    ensures var ps := Parts(s);
      ps[i] == h + Part(s', i) && Parts(s') == ps[i := Part(s', i)][i + 1 := ps[i + 1] + h']
  {
    FetchPart(s, s', i, h, h');
    FetchOthers(s, s', i);
    PartsMatch(s, s', i);
  }

  lemma PartsMatch(s: State, s': State, i: nat)
    requires 0 <= Live(s) == Live(s') && i < Live(s)
    requires forall j :: 0 <= j <= Live(s) && j != i && j != i + 1 ==> Part(s', j) == Part(s, j)
    ensures Parts(s') == Parts(s)[i := Part(s', i)][i + 1 := Part(s', i + 1)]
  {
  }

  /** The hands on stub i discard the chunk d. */
  lemma LoseParts(s: State, s': State, i: nat, d: Chunk, rest: Chunk)
    requires Wiring(s) && Wired(s, i) && Near(s, s', i, s.stubs[i].output) && s'.chans == s.chans
    requires Load(s, i) == d + rest && Load(s', i) == rest
    ensures Parts(s') == Parts(s)[i + 1 := Part(s', i + 1)]
    ensures Subseq(Part(s', i + 1), Part(s, i + 1))
  {
    hide Subseq, InOrder, Flatten, Inflight;
    SubseqDrop(Buffered(s, s.stubs[i].output), d, rest);
  }

  /** What a send, a time-out and a receive do to the stub's hands. */
  lemma SendLoad(b: Stub)
    requires b.pc.Sending?
    ensures Inflight(b.pc) == b.pc.d + Rest(b.pc.after) && Inflight(AfterSend(b).pc) == Rest(b.pc.after)
  {
  }

  lemma ReceiveLoad(b: Stub, h: Chunk, draw: Slicer.Draws)
    requires b.pc.Ready?
    ensures var h' := Inflight(AfterReceive(b, h, draw).pc);
      Subseq(h', h) && (!Discards(b, h) ==> h' == h)
  {
    hide Subseq, Kept, Slicer.Cut;
    SubseqRefl(h);
    if b.pipe.LimitData? {
      KeptLoad(b, h);
      assert Kept(b, h) + [] == Kept(b, h);
    } else if b.pipe.Timeout? {
      SubseqDrop([], h, []);
      assert [] + (h + []) == h;
    } else {
      assert h + [] == h;
    }
  }

  lemma KeptLoad(b: Stub, h: Chunk)
    ensures Subseq(Kept(b, h), h)
  {
    SubseqRefl(h);
    var r := Remaining(b);
    if r < |h| {
      SubseqDrop(h[..r], h[r..], []);
      assert h[..r] + [] == h[..r] && h[..r] + (h[r..] + []) == h;
    }
  }
}
