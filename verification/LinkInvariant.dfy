/** What every move of a link keeps, as predicates on its states. */
module LinkInvariant {
  import opened Bytes
  import opened Link
  import opened Wrappers

  /** A stub that AddToxic appended to a closed link: it is alone on its own channel. */
  predicate Spare(b: Stub, chans: seq<Chan>, closing: bool) {
    && b.input == b.output < |chans| && chans[b.output].buf == [] && b.pc.Idle?
    && (b.closed || closing)
  }

  /** The controller is in the Close of stub i. */
  predicate ShutBy(c: Ctl, i: int) {
    c.Shutting? && c.k == i
  }

  /** The channels of the link: each stub reads what the previous one writes, no channel has two writers,
      and the way leads from link.input to link.output. */
  ghost predicate Wiring(s: State) {
    && 1 <= s.reach <= Live(s)
    && s.input < |s.chans| && s.output < |s.chans|
    && (forall i :: 0 <= i < |s.stubs| ==> s.stubs[i].input < |s.chans| && s.stubs[i].output < |s.chans|)
    && (forall i :: 0 <= i < Live(s) ==> s.stubs[i].output != s.input)
    && (forall i, j :: 0 <= i < j < Live(s) ==> s.stubs[i].output != s.stubs[j].output)
    && s.stubs[0].input == s.input
    && (forall i, j :: 0 <= i && j == i + 1 < s.reach ==> s.stubs[j].input == s.stubs[i].output)
    && s.stubs[s.reach - 1].output == s.output
    && (forall i :: s.reach <= i < Live(s) ==> Spare(s.stubs[i], s.chans, ShutBy(s.ctl, i)))
    && (s.reach < Live(s) ==> s.stubs[s.reach - 1].closed)
  }

  /** AddToxic has appended a stub, which reads a new channel and shares the output of the last stub. */
  ghost predicate Appended(s: State)
    requires s.ctl.Adding?
  {
    var n := |s.stubs| - 1;
    && n >= 1
    && s.stubs[n].pc.Idle? && !s.stubs[n].closed && s.stubs[n].toxic == s.ctl.t
    && s.stubs[n].output == s.stubs[n - 1].output
    && s.stubs[n].input < |s.chans| && s.chans[s.stubs[n].input].buf == [] && !s.chans[s.stubs[n].input].closed
    && s.stubs[n].input != s.input
    && (forall i :: 0 <= i < n ==> s.stubs[i].output != s.stubs[n].input)
  }

  /** A Pipe that has taken an interrupt only sends what it holds and returns. */
  predicate Leaving(pc: Pc) {
    pc.Idle? || pc.Exiting? || (pc.Sending? && pc.after.Exit?)
  }

  ghost predicate Parked(s: State, i: int) {
    0 <= i < |s.stubs| && s.stubs[i].pc.Idle? && !s.stubs[i].closed
  }

  /** What an interrupt handshake has established about the stub it is with. */
  ghost predicate Shaking(s: State) {
    ShakeOf(s.ctl).Some? ==>
      && 0 <= Target(s) < |s.stubs|
      && match ShakeOf(s.ctl).value
         case Offered => true
         case Taken => !s.stubs[Target(s)].closed && Leaving(s.stubs[Target(s)].pc)
         case Answered(ok) => if ok then Parked(s, Target(s)) else s.stubs[Target(s)].closed
         case Collected => s.ctl.Flushing? ==> s.stubs[Target(s)].closed
  }

  /** What each phase of the controller relies on. */
  ghost predicate Phase(s: State) {
    match s.ctl
    case Free => true
    case Adding(_, h) => !h.Collected? && Appended(s)
    case Updating(k, _, h) => !h.Collected? && 1 <= k < |s.stubs|
    case Removing(k, _, h) => !h.Collected? && 1 <= k < |s.stubs|
    case Flushing(k, _, _) => 1 <= k < s.reach && Parked(s, k)
    case Draining(k, _) => 1 <= k < s.reach && Parked(s, k) && Parked(s, k - 1)
    case Shutting(k, stage, h) =>
      && 1 <= k < |s.stubs| && s.stubs[k].pc.Idle? && (s.stubs[k].closed <==> stage != Test)
      && (k >= s.reach ==> k == |s.stubs| - 1)
  }

  /** A channel is closed exactly when its one writer has closed its stub; a closed stub sends no more. */
  ghost predicate Closure(s: State) {
    && s.input < |s.chans| && s.chans[s.input].closed == s.inputClosed
    && (s.inputClosed ==> s.pending.None?)
    && (forall i :: 0 <= i < |s.stubs| && s.stubs[i].closed ==>
          s.stubs[i].pc.Idle? || s.stubs[i].pc.ClosingOutput? || s.stubs[i].pc.Exiting?)
    && (forall i :: 0 <= i < |s.stubs| && s.stubs[i].pc.ClosingOutput? ==> s.stubs[i].closed)
    && (forall i :: 0 <= i < Live(s) ==>
          && s.stubs[i].output < |s.chans|
          && (s.chans[s.stubs[i].output].closed <==>
              s.stubs[i].closed && !s.stubs[i].pc.ClosingOutput?
              && !(ShutBy(s.ctl, i) && s.ctl.stage == CloseOutput)))
  }

  ghost predicate Ended(s: State, c: nat) {
    c < |s.chans| && s.chans[c].closed && s.chans[c].buf == []
  }

  predicate Finishing(b: Stub) {
    b.closed || b.pc.Closing? || b.pc.Lingering?
  }

  /** Nothing was cut: a stub closes, or is about to, only after its input has ended. */
  ghost predicate Ends(s: State) {
    && (s.eof ==> Ended(s, s.output))
    && (!s.cut ==> forall i :: 0 <= i < s.reach <= |s.stubs| ==>
          ((Finishing(s.stubs[i]) || ShutBy(s.ctl, i)) ==> Ended(s, s.stubs[i].input)))
  }

  // ----- the bytes on their way -----

  /** The chunk the controller has taken from the input of stub i and not written to its output yet. */
  function Hand(s: State, i: int): Chunk {
    match s.ctl
    case Flushing(k, _, Some(c)) => if k == i then c else []
    case Draining(k, Some(c)) => if k == i then c else []
    case _ => []
  }

  function Buffered(s: State, c: nat): Chunk {
    if c < |s.chans| then Flatten(s.chans[c].buf) else []
  }

  /** The bytes in the hands of the goroutine of stub i or of the controller on its behalf. */
  function Load(s: State, i: int): Chunk
    requires 0 <= i < |s.stubs|
  {
    Inflight(s.stubs[i].pc) + Hand(s, i)
  }

  /** The bytes in the channel after stub i-1 and in the hands on that stub, oldest first. */
  function Part(s: State, i: int): Chunk
    requires 0 <= i <= |s.stubs|
  {
    Buffered(s, Node(s, i)) +
    if i > 0 then Load(s, i - 1) else if s.pending.Some? then s.pending.value else []
  }

  function Parts(s: State): (ps: seq<Chunk>)
    requires 0 <= Live(s)
  {
    seq(Live(s) + 1, i requires 0 <= i <= Live(s) => Part(s, i))
  }

  /** Every byte between the writer and the reader of the link, output end first. */
  function Held(s: State): Chunk
    requires 0 <= Live(s)
  {
    InOrder(Parts(s))
  }

  /** Delivered and held bytes are the written ones in order, but for what was dropped. */
  ghost predicate InStream(delivered: Chunk, held: Chunk, written: Chunk, dropped: bool) {
    Subseq(delivered + held, written) && (!dropped ==> delivered + held == written)
  }

  ghost predicate Data(s: State) {
    0 <= Live(s) && InStream(s.delivered, Held(s), s.written, s.dropped)
  }

  // ----- stubs and chain -----

  /** No channel is closed twice or sent on after close, no stub runs two Pipes, and the collection's
      indices are in range: only AddToxic's own use of the chain and limit_data's state can fail. */
  ghost predicate Counts(s: State) {
    && (s.fault == NoFault || s.fault == ChainIndex || s.fault == NoState)
    && |s.chain| >= 1
    && |s.stubs| >= |s.chain| + (if s.ctl.Removing? || s.ctl.Flushing? || s.ctl.Draining? then 1 else 0)
    && (s.ctl.Removing? || s.ctl.Flushing? || s.ctl.Draining? ==> s.ctl.k <= |s.chain|)
  }

  /** Stub i runs entry i of the chain, up to the operation that is being carried out. */
  ghost predicate Matches(s: State) {
    match s.ctl
    case Updating(k, t, _) =>
      && |s.stubs| == |s.chain| && k < |s.chain| && s.chain[k] == t && SameType(s.stubs[k].toxic, t)
      && (forall i :: 0 <= i < |s.chain| && i != k ==> s.stubs[i].toxic == s.chain[i])
    case Removing(k, t, _) => Without(s, k) && s.stubs[k].toxic == t
    case Flushing(k, _, _) => Without(s, k)
    case Draining(k, _) => Without(s, k)
    case _ =>
      |s.stubs| == |s.chain| && forall i :: 0 <= i < |s.chain| ==> s.stubs[i].toxic == s.chain[i]
  }

  /** The chain is the stubs' toxics but for stub k. */
  ghost predicate Without(s: State, k: int) {
    && |s.stubs| == |s.chain| + 1 && 1 <= k < |s.stubs|
    && (forall i :: 0 <= i < k ==> s.stubs[i].toxic == s.chain[i])
    && (forall i :: k < i < |s.stubs| ==> s.stubs[i].toxic == s.chain[i - 1])
  }

  ghost predicate Aligned(s: State) {
    && (AllOpen(s) ==> s.tidy)
    && (s.tidy ==>
        && s.fault == NoFault
        && (forall i :: 0 <= i < Live(s) && s.stubs[i].toxic.LimitData? ==>
              s.stubs[i].state.Some? || s.stubs[i].closed || ShutBy(s.ctl, i))
        && (!s.ctl.Shutting? && (s.ctl.Free? ==> AllOpen(s)) ==> Matches(s)))
  }

  /** Everything but the bytes and the match of stubs and chain. */
  ghost predicate Body(s: State) {
    Wiring(s) && Phase(s) && Shaking(s) && Closure(s) && Ends(s) && Counts(s)
  }

  ghost predicate Core(s: State) {
    Body(s) && Aligned(s)
  }

  ghost predicate Inv(s: State) {
    Core(s) && Data(s)
  }
}
