/** link.go and toxics/toxic.go as a step system: one ToxicLink, its channels, one goroutine per stub,
    the reader and the writer of the link, and the controller that adds, updates and removes toxics.

    A move is one goroutine's next observable action. Between two moves of one goroutine any other
    goroutine may move, so a run (a list of events) is one interleaving. */
module Link {
  import opened Bytes
  import Slicer
  import opened Wrappers

  // ----- channels -----

  /** A Go channel of chunks, named by its index in `State.chans`. */
  datatype Chan = Chan(buf: seq<Chunk>, cap: nat, closed: bool)

  // ----- toxics -----

  datatype Toxic =
    | Noop
    | Latency
    | Bandwidth(rate: nat)
    | Slicing(sizes: Slicer.SlicerToxic)
    | SlowClose
    | LimitData(bytes: int)
    | Timeout(timed: bool)   // timed: Timeout > 0

  /** An update decodes new attributes into the toxic that is there: its type stays. */
  predicate SameType(a: Toxic, b: Toxic) {
    match a
    case Noop => b.Noop?
    case Latency => b.Latency?
    case Bandwidth(_) => b.Bandwidth?
    case Slicing(_) => b.Slicing?
    case SlowClose => b.SlowClose?
    case LimitData(_) => b.LimitData?
    case Timeout(_) => b.Timeout?
  }

  /** Toxics that promise to pass every byte on. */
  predicate Lossless(t: Toxic) {
    !t.LimitData? && !t.Timeout?
  }

  function BufferSize(t: Toxic): nat {
    if t.Latency? then 1024 else 0
  }

  // ----- stubs -----

  /** What a goroutine does after the send it is blocked in. */
  datatype After =
    | Loop                        // back to the main select
    | Exit                        // return from Pipe
    | Meter(left: Chunk)          // bandwidth: the rest of a split packet
    | Pause(slices: seq<Chunk>)   // slicer: the select after a slice
    | Count(size: nat)            // limit_data: account for the bytes sent

  /** Where the goroutine of a stub is. */
  datatype Pc =
    | Idle                        // no goroutine: Pipe has returned and `running` is closed
    | Spawned                     // `go stub.Run(toxic)` was issued
    | Ready                       // Pipe's select on Interrupt and Input
    | Waiting(c: Chunk)           // latency: select on the timer
    | Metering(p: Chunk)          // bandwidth: select on a timer, splitting or not
    | Pausing(rest: seq<Chunk>)   // slicer: select on the pause, slices still to send
    | Lingering                   // slow_close: select on the delay
    | Sending(d: Chunk, timed: bool, after: After)  // blocked in a send to Output; timed: WriteOutput
    | Closing                     // entering stub.Close()
    | ClosingOutput               // `closed` is closed, close(Output) comes next
    | Exiting                     // Pipe has returned, `running` is not closed yet

  /** `toxic` is the argument of the last Run, `pipe` the toxic whose Pipe it chose,
      `state` the bytesTransmitted of a LimitDataToxicState. */
  datatype Stub = Stub(input: nat, output: nat, closed: bool, toxic: Toxic, pipe: Toxic,
                       state: Option<nat>, pc: Pc)

  /** Bytes a goroutine has received and not sent yet, oldest first. */
  function Rest(a: After): Chunk {
    match a
    case Meter(left) => left
    case Pause(slices) => Flatten(slices)
    case _ => []
  }

  function Inflight(pc: Pc): Chunk {
    match pc
    case Waiting(c) => c
    case Metering(p) => p
    case Pausing(rest) => Flatten(rest)
    case Sending(d, _, after) => d + Rest(after)
    case _ => []
  }

  // ----- the Pipes: what a goroutine does next, stub by stub -----

  /** The bytes limit_data has let through. */
  function Transmitted(b: Stub): nat {
    if b.state.Some? then b.state.value else 0
  }

  /** The bytes limit_data may still let through. */
  function Remaining(b: Stub): nat {
    if b.pipe.LimitData? && b.pipe.bytes > Transmitted(b) then b.pipe.bytes - Transmitted(b) else 0
  }

  /** limit_data at the end of a round: the limit is recomputed, and reaching it closes the stub. */
  function Counted(b: Stub, sent: nat): Stub {
    var b1 := b.(state := Some(Transmitted(b) + sent));
    b1.(pc := if Remaining(b1) == 0 then Closing else Ready)
  }

  /** The send that a goroutine is blocked in has completed, or timed out. */
  function AfterSend(b: Stub): Stub
    requires b.pc.Sending?
  {
    match b.pc.after
    case Loop => b.(pc := Ready)
    case Exit => b.(pc := Exiting)
    case Meter(left) => b.(pc := Metering(left))
    case Pause(slices) => b.(pc := Pausing(slices))
    case Count(n) => Counted(b, n)
  }

  /** What limit_data lets through of a chunk. */
  function Kept(b: Stub, h: Chunk): Chunk {
    if Remaining(b) < |h| then h[..Remaining(b)] else h
  }

  /** The Pipe has received the chunk h in its main select. */
  function AfterReceive(b: Stub, h: Chunk, draw: Slicer.Draws): Stub {
    match b.pipe
    case Noop => b.(pc := Sending(h, false, Loop))
    case SlowClose => b.(pc := Sending(h, false, Loop))
    case Latency => b.(pc := Waiting(h))
    case Bandwidth(_) => b.(pc := Metering(h))
    case Slicing(sizes) =>
      var slices := Slicer.Cut(sizes, h, draw);
      b.(pc := Sending(slices[0], false, Pause(slices[1..])))
    case Timeout(_) => b
    case LimitData(_) =>
      if Kept(b, h) != [] then b.(pc := Sending(Kept(b, h), false, Count(|Kept(b, h)|))) else Counted(b, 0)
  }

  /** Bytes of the chunk are left on the ground. */
  predicate Discards(b: Stub, h: Chunk) {
    b.pipe.Timeout? || (b.pipe.LimitData? && Kept(b, h) != h)
  }

  /** The Pipe has received nil in its main select. */
  function AfterEnd(b: Stub): Stub {
    b.(pc := if b.pipe.SlowClose? then Lingering else Closing)
  }

  predicate CanTick(b: Stub) {
    || b.pc.Waiting? || b.pc.Pausing? || b.pc.Lingering?
    || (b.pc.Metering? && b.pipe.Bandwidth?)
    || (b.pc.Ready? && b.pipe.Timeout? && b.pipe.timed)
  }

  /** The timer of the select the Pipe is in has fired. */
  function AfterTimer(b: Stub): Stub
    requires CanTick(b)
  {
    match b.pc
    case Waiting(c) => b.(pc := Sending(c, false, Loop))
    case Metering(p) =>
      var piece := b.pipe.rate * 100;
      if |p| > piece then b.(pc := Sending(p[..piece], false, Meter(p[piece..])))
      else b.(pc := Sending(p, false, Loop))
    case Pausing(rest) =>
      if rest == [] then b.(pc := Ready) else b.(pc := Sending(rest[0], false, Pause(rest[1..])))
    case _ => b.(pc := Closing)
  }

  predicate Interruptible(pc: Pc) {
    pc.Ready? || pc.Waiting? || pc.Metering? || pc.Pausing? || pc.Lingering?
  }

  /** The interrupt arm of the select the Pipe is in. */
  function Interrupted(pc: Pc): Pc
    requires Interruptible(pc)
  {
    match pc
    case Waiting(c) => Sending(c, false, Exit)
    case Metering(p) => Sending(p, true, Exit)
    case Pausing(rest) => Sending(Flatten(rest), false, Exit)
    case _ => Exiting
  }

  // ----- the controller -----

  /** One call of InterruptToxic: offered on the Interrupt channel, taken by the stub's Pipe, answered;
      `Collected` once the caller of RemoveToxic has received a false answer. */
  datatype Shake = Offered | Taken | Answered(ok: bool) | Collected

  datatype Stage = Test | CloseOutput | Join

  datatype Ctl =
    | Free
    | Adding(t: Toxic, shake: Shake)             // interrupting the stub before the appended one
    | Updating(k: nat, t: Toxic, shake: Shake)   // interrupting stub k
    | Removing(k: nat, t: Toxic, shake: Shake)   // interrupting stub k
    | Flushing(k: nat, shake: Shake, hand: Option<Chunk>)  // flush loop, helper interrupting stub k-1
    | Draining(k: nat, hand: Option<Chunk>)      // emptying the buffer of stub k
    | Shutting(k: nat, stage: Stage, shake: Shake)  // stubs[k].Close(), then waiting for the helper

  // ----- states -----

  datatype Fault = NoFault | DoubleClose | SendOnClosed | DoubleRun | StubIndex | ChainIndex | NoState

  /** `written` are the bytes handed to link.input, `delivered` those received by link.output.
      `dropped`, `cut` and `tidy` are history: a byte was discarded; a stub was closed before its
      input ended; every operation so far was begun while every stub was open. `reach` counts the stubs
      on the way from link.input to link.output: a stub appended to a closed link is not one of them. */
  datatype State = State(
    chans: seq<Chan>, stubs: seq<Stub>, chain: seq<Toxic>, ctl: Ctl, input: nat, output: nat,
    pending: Option<Chunk>, inputClosed: bool, written: Chunk, delivered: Chunk, eof: bool,
    reach: nat, dropped: bool, cut: bool, tidy: bool, fault: Fault)

  /** stubs[..Live] are the stubs that run; while AddToxic interrupts, the appended stub does not. */
  function Live(s: State): int {
    if s.ctl.Adding? then |s.stubs| - 1 else |s.stubs|
  }

  /** The channel between stub i-1 and stub i; channel 0 is the input of the link. */
  function Node(s: State, i: int): nat
    requires 0 <= i <= |s.stubs|
  {
    if i == 0 then s.input else s.stubs[i - 1].output
  }

  predicate AllOpen(s: State) {
    forall i :: 0 <= i < |s.stubs| ==> !s.stubs[i].closed
  }

  // ----- moves -----

  datatype Sender = Source | FromStub(i: nat) | FromController
  datatype Receiver = Sink | ToStub(j: nat) | ToController

  datatype Op = Add(t: Toxic) | Update(k: nat, t: Toxic) | Remove(k: nat)

  datatype Move =
    | Offer(c: Chunk)                      // link.read calls ChanWriter.Write
    | CloseInput                           // link.read calls ChanWriter.Close
    | Put(w: Sender)                       // a send completes
    | GiveUp(w: Sender)                    // WriteOutput times out
    | Take(r: Receiver, draw: Slicer.Draws)  // a receive completes with a chunk
    | TakeEnd(r: Receiver)                 // a receive completes with nil
    | Start(i: nat, chosen: bool)          // Run compares the random number with the toxicity
    | Tick(i: nat)                         // a timer fires
    | Close(i: nat)                        // the next step of stub.Close() or Run's deferred close
    | Deliver                              // the interrupted Pipe receives from Interrupt
    | Answer                               // InterruptToxic returns
    | Begin(op: Op)                        // the collection calls AddToxic, UpdateToxic or RemoveToxic
    | Proceed                              // the controller's next local step

  function SetStub(s: State, i: nat, b: Stub): State
    requires i < |s.stubs|
  {
    s.(stubs := s.stubs[i := b])
  }

  function SetPc(s: State, i: nat, pc: Pc): State
    requires i < |s.stubs|
  {
    SetStub(s, i, s.stubs[i].(pc := pc))
  }

  /** The goroutine of stub i moves on, and may cut the stream short or discard bytes. */
  function StubMoves(s: State, i: nat, b: Stub, cuts: bool, drops: bool): State
    requires i < |s.stubs|
  {
    s.(stubs := s.stubs[i := b], cut := s.cut || cuts, dropped := s.dropped || drops)
  }

  function SetChan(s: State, c: nat, ch: Chan): State
    requires c < |s.chans|
  {
    s.(chans := s.chans[c := ch])
  }

  /** `close(ch)`: closing a closed channel panics. */
  function CloseChan(s: State, c: nat): State
    requires c < |s.chans|
  {
    if s.chans[c].closed then s.(fault := DoubleClose)
    else SetChan(s, c, s.chans[c].(closed := true))
  }

  /** `ch <- c`: sending on a closed channel panics. */
  function Push(s: State, ch: nat, c: Chunk): State
    requires ch < |s.chans|
  {
    if s.chans[ch].closed then s.(fault := SendOnClosed)
    else SetChan(s, ch, s.chans[ch].(buf := s.chans[ch].buf + [c]))
  }

  function Pop(s: State, ch: nat): State
    requires ch < |s.chans| && s.chans[ch].buf != []
  {
    SetChan(s, ch, s.chans[ch].(buf := s.chans[ch].buf[1..]))
  }

  /** `go stubs[k].Run(t)`; a second goroutine on one stub is a fault. */
  function Spawn(s: State, k: nat, t: Toxic): State
    requires k < |s.stubs|
  {
    if s.stubs[k].pc != Idle then s.(fault := DoubleRun)
    else SetStub(s, k, s.stubs[k].(pc := Spawned, toxic := t))
  }

  /** `go stubs[k].Run(chain[k])`; indexing past the chain panics. */
  function SpawnFromChain(s: State, k: nat): State
    requires k < |s.stubs|
  {
    if k >= |s.chain| then s.(fault := ChainIndex) else Spawn(s, k, s.chain[k])
  }

  // --- sends ---

  predicate CanSend(s: State, w: Sender) {
    match w
    case Source => s.pending.Some? && s.input < |s.chans|
    case FromStub(i) => i < |s.stubs| && s.stubs[i].pc.Sending? && s.stubs[i].output < |s.chans|
    case FromController =>
      && (s.ctl.Flushing? || s.ctl.Draining?) && s.ctl.hand.Some?
      && s.ctl.k < |s.stubs| && s.stubs[s.ctl.k].output < |s.chans|
  }

  function SendChan(s: State, w: Sender): nat
    requires CanSend(s, w)
  {
    match w
    case Source => s.input
    case FromStub(i) => s.stubs[i].output
    case FromController => s.stubs[s.ctl.k].output
  }

  function SendChunk(s: State, w: Sender): Chunk
    requires CanSend(s, w)
  {
    match w
    case Source => s.pending.value
    case FromStub(i) => s.stubs[i].pc.d
    case FromController => s.ctl.hand.value
  }

  /** The sender goes on: its chunk is gone from its hands. */
  function Resume(s: State, w: Sender): State
    requires CanSend(s, w)
  {
    match w
    case Source => s.(pending := None)
    case FromController => s.(ctl := s.ctl.(hand := None))
    case FromStub(i) => StubMoves(s, i, AfterSend(s.stubs[i]), AfterSend(s.stubs[i]).pc.Closing?, false)
  }

  // --- receives ---

  predicate CanReceive(s: State, r: Receiver) {
    match r
    case Sink => !s.eof && s.output < |s.chans|
    case ToStub(j) => j < |s.stubs| && s.stubs[j].pc.Ready? && s.stubs[j].input < |s.chans|
    case ToController =>
      && (s.ctl.Flushing? || s.ctl.Draining?) && s.ctl.hand.None?
      && s.ctl.k < |s.stubs| && s.stubs[s.ctl.k].input < |s.chans|
  }

  function ReceiveChan(s: State, r: Receiver): nat
    requires CanReceive(s, r)
  {
    match r
    case Sink => s.output
    case ToStub(j) => s.stubs[j].input
    case ToController => s.stubs[s.ctl.k].input
  }

  function Receive(s: State, r: Receiver, draw: Slicer.Draws): State
    requires CanReceive(s, r) && s.chans[ReceiveChan(s, r)].buf != []
  {
    var ch := ReceiveChan(s, r);
    var h := s.chans[ch].buf[0];
    var s1 := Pop(s, ch);
    match r
    case Sink => s1.(delivered := s.delivered + h)
    case ToStub(j) =>
      var b := s.stubs[j];
      StubMoves(s1, j, AfterReceive(b, h, draw), AfterReceive(b, h, draw).pc.Closing?, Discards(b, h))
    case ToController => s1.(ctl := s.ctl.(hand := Some(h)))
  }

  function ReceiveEnd(s: State, r: Receiver): State
    requires CanReceive(s, r)
    requires r.ToController? ==> s.ctl.Flushing?
  {
    match r
    case Sink => s.(eof := true)
    case ToStub(j) => StubMoves(s, j, AfterEnd(s.stubs[j]), false, false)
    case ToController => s.(ctl := Shutting(s.ctl.k, Test, s.ctl.shake))
  }

  // --- the stub's own steps ---

  function Timer(s: State, i: nat): State
    requires i < |s.stubs| && CanTick(s.stubs[i])
  {
    StubMoves(s, i, AfterTimer(s.stubs[i]), s.stubs[i].pc.Ready?, false)
  }

  function CloseStep(s: State, i: nat): State
    requires i < |s.stubs| && s.stubs[i].output < |s.chans|
  {
    var b := s.stubs[i];
    match b.pc
    case Closing =>
      if b.closed then SetPc(s, i, Exiting) else SetStub(s, i, b.(closed := true, pc := ClosingOutput))
    case ClosingOutput => SetPc(CloseChan(s, b.output), i, Exiting)
    case _ => SetPc(s, i, Idle)
  }

  // --- the interrupt handshake ---

  function ShakeOf(c: Ctl): Option<Shake> {
    match c
    case Free => None
    case Draining(_, _) => None
    case Adding(_, h) => Some(h)
    case Updating(_, _, h) => Some(h)
    case Removing(_, _, h) => Some(h)
    case Flushing(_, h, _) => Some(h)
    case Shutting(_, _, h) => Some(h)
  }

  function SetShake(c: Ctl, h: Shake): Ctl {
    match c
    case Free => c
    case Draining(_, _) => c
    case Adding(t, _) => Adding(t, h)
    case Updating(k, t, _) => Updating(k, t, h)
    case Removing(k, t, _) => Removing(k, t, h)
    case Flushing(k, _, hand) => Flushing(k, h, hand)
    case Shutting(k, stage, _) => Shutting(k, stage, h)
  }

  /** The stub that is being interrupted. */
  function Target(s: State): int {
    match s.ctl
    case Free => -1
    case Adding(_, _) => |s.stubs| - 2
    case Updating(k, _, _) => k
    case Removing(k, _, _) => k
    case Flushing(k, _, _) => k - 1
    case Draining(k, _) => k - 1
    case Shutting(k, _, _) => k - 1
  }

  predicate CanAnswer(s: State) {
    && 0 <= Target(s) < |s.stubs| && ShakeOf(s.ctl).Some?
    && match ShakeOf(s.ctl).value
       case Offered => s.stubs[Target(s)].closed
       case Taken => s.stubs[Target(s)].pc.Idle?
       case _ => false
  }

  // --- the controller ---

  predicate CanBegin(s: State, op: Op) {
    && s.ctl.Free? && |s.stubs| >= 1
    && match op
       case Add(t) => s.stubs[|s.stubs| - 1].output < |s.chans|
       case Update(k, t) => 1 <= k < |s.chain| && SameType(s.chain[k], t)
       case Remove(k) => 1 <= k < |s.chain|
  }

  function BeginOp(s: State, op: Op): State
    requires CanBegin(s, op)
  {
    var s1 := s.(tidy := s.tidy && AllOpen(s));
    match op
    case Add(t) =>
      var stub := Stub(|s.chans|, s.stubs[|s.stubs| - 1].output, false, t, t, None, Idle);
      s1.(chans := s.chans + [Chan([], BufferSize(t), false)], stubs := s.stubs + [stub],
          chain := s.chain + [t], ctl := Adding(t, Offered))
    case Update(k, t) =>
      if k >= |s.stubs| then s1.(fault := StubIndex)
      else s1.(chain := s.chain[k := t], ctl := Updating(k, t, Offered))
    case Remove(k) =>
      if k >= |s.stubs| then s1.(fault := StubIndex)
      else s1.(chain := s.chain[..k] + s.chain[k + 1..], ctl := Removing(k, s.chain[k], Offered))
  }

  /** AddToxic after the interrupt: the new stub n goes between the last stub and its output. */
  function RewireIn(s: State): State
    requires s.ctl.Adding? && |s.stubs| >= 2
  {
    var n := |s.stubs| - 1;
    var last := s.stubs[n - 1].(output := s.stubs[n].input);
    var added := s.stubs[n].(state := if s.ctl.t.LimitData? then Some(0) else None);
    s.(stubs := s.stubs[n - 1 := last][n := added], ctl := Free, reach := s.reach + 1)
  }

  function SpliceIn(s: State): State
    requires s.ctl.Adding? && |s.stubs| >= 2
  {
    var n := |s.stubs| - 1;
    SpawnFromChain(Spawn(RewireIn(s), n, s.ctl.t), n - 1)
  }

  /** RemoveToxic after the drain loop: the previous stub takes over the output of stub k, which is left out. */
  function RewireOut(s: State): State
    requires s.ctl.Draining? && 1 <= s.ctl.k < |s.stubs| && s.reach > 0
  {
    var k := s.ctl.k;
    var prev := s.stubs[k - 1].(output := s.stubs[k].output);
    s.(stubs := s.stubs[..k - 1] + [prev] + s.stubs[k + 1..], ctl := Free, reach := s.reach - 1)
  }

  function SpliceOut(s: State): State
    requires s.ctl.Draining? && 1 <= s.ctl.k < |s.stubs| && s.reach > 0
  {
    SpawnFromChain(RewireOut(s), s.ctl.k - 1)
  }

  predicate CanProceed(s: State) {
    match s.ctl
    case Free => false
    case Adding(_, h) => h.Answered? && |s.stubs| >= 2
    case Updating(k, _, h) => h.Answered? && k < |s.stubs|
    case Removing(k, _, h) => h.Answered? && k < |s.stubs|
    case Flushing(_, h, hand) => h.Answered? && hand.None?
    case Draining(k, hand) =>
      && hand.None? && 1 <= k < |s.stubs| && s.reach > 0
      && s.stubs[k].input < |s.chans| && s.chans[s.stubs[k].input].buf == []
    case Shutting(k, stage, h) =>
      k < |s.stubs| && s.stubs[k].output < |s.chans| && (stage == Join ==> h.Answered? || h.Collected?)
  }

  /** AddToxic on a closed link: the new stub gets its own channel for its output, and is closed next. */
  function SetAside(s: State): State
    requires s.ctl.Adding? && |s.stubs| >= 2
  {
    var n := |s.stubs| - 1;
    SetStub(s, n, s.stubs[n].(output := s.stubs[n].input)).(ctl := Shutting(n, Test, Collected))
  }

  /** RemoveToxic after its first interrupt: a closed stub stays, a timeout's Cleanup closes its stub. */
  function StartRemoval(s: State): State
    requires s.ctl.Removing? && s.ctl.shake.Answered?
  {
    if !s.ctl.shake.ok then s.(ctl := Free)
    else if s.ctl.t.Timeout? then s.(ctl := Shutting(s.ctl.k, Test, Collected), cut := true)
    else s.(ctl := Flushing(s.ctl.k, Offered, None))
  }

  /** The steps of stubs[k].Close(), and the wait for the helper that interrupts stub k-1. */
  function ShutStep(s: State): State
    requires s.ctl.Shutting? && s.ctl.k < |s.stubs| && s.stubs[s.ctl.k].output < |s.chans|
  {
    var k := s.ctl.k;
    match s.ctl.stage
    case Test =>
      if s.stubs[k].closed then s.(ctl := Shutting(k, Join, s.ctl.shake))
      else SetStub(s, k, s.stubs[k].(closed := true)).(ctl := Shutting(k, CloseOutput, s.ctl.shake))
    case CloseOutput => CloseChan(s, s.stubs[k].output).(ctl := Shutting(k, Join, s.ctl.shake))
    case Join => s.(ctl := Free)
  }

  function Advance(s: State): State
    requires CanProceed(s)
  {
    match s.ctl
    case Free => s
    case Adding(_, h) => if h.ok then SpliceIn(s) else SetAside(s)
    case Updating(k, t, h) => (if h.ok then Spawn(s, k, t) else s).(ctl := Free)
    case Removing(_, _, _) => StartRemoval(s)
    case Flushing(k, h, hand) =>
      s.(ctl := if h.ok then Draining(k, None) else Flushing(k, Collected, None))
    case Draining(_, _) => SpliceOut(s)
    case Shutting(_, _, _) => ShutStep(s)
  }

  // --- all moves ---

  /** When a move can happen, apart from the capacity of the channel a send goes to. */
  predicate Can(s: State, m: Move) {
    && s.fault == NoFault
    && match m
       case Offer(_) => s.pending.None? && !s.inputClosed
       case CloseInput => s.pending.None? && !s.inputClosed && s.input < |s.chans|
       case Put(w) => CanSend(s, w)
       case GiveUp(w) => CanSend(s, w) && !w.Source? && (w.FromStub? ==> s.stubs[w.i].pc.timed)
       case Take(r, _) => CanReceive(s, r) && s.chans[ReceiveChan(s, r)].buf != []
       case TakeEnd(r) =>
         && CanReceive(s, r) && (r.ToController? ==> s.ctl.Flushing?)
         && s.chans[ReceiveChan(s, r)].buf == [] && s.chans[ReceiveChan(s, r)].closed
       case Start(i, _) => i < |s.stubs| && s.stubs[i].pc.Spawned?
       case Tick(i) => i < |s.stubs| && CanTick(s.stubs[i])
       case Close(i) =>
         && i < |s.stubs| && s.stubs[i].output < |s.chans|
         && (s.stubs[i].pc.Closing? || s.stubs[i].pc.ClosingOutput? || s.stubs[i].pc.Exiting?)
       case Deliver =>
         && ShakeOf(s.ctl) == Some(Offered) && 0 <= Target(s) < |s.stubs|
         && Interruptible(s.stubs[Target(s)].pc)
       case Answer => CanAnswer(s)
       case Begin(op) => CanBegin(s, op)
       case Proceed => CanProceed(s)
  }

  function Send(s: State, w: Sender): State
    requires CanSend(s, w)
  {
    Push(Resume(s, w), SendChan(s, w), SendChunk(s, w))
  }

  /** The top of Run: the toxic's Pipe or a noop's. LimitDataToxic.Pipe panics without its state. */
  function Run(s: State, i: nat, chosen: bool): State
    requires i < |s.stubs|
  {
    var b := s.stubs[i];
    var pipe := if chosen then b.toxic else Noop;
    if pipe.LimitData? && b.state.None? then s.(fault := NoState)
    else SetStub(s, i, b.(pipe := pipe, pc := Ready))
  }

  function TakeInterrupt(s: State): State
    requires 0 <= Target(s) < |s.stubs| && Interruptible(s.stubs[Target(s)].pc)
  {
    SetPc(s, Target(s), Interrupted(s.stubs[Target(s)].pc)).(ctl := SetShake(s.ctl, Taken))
  }

  function Do(s: State, m: Move): State
    requires Can(s, m)
  {
    match m
    case Offer(c) => s.(pending := Some(c), written := s.written + c)
    case CloseInput => CloseChan(s, s.input).(inputClosed := true)
    case Put(w) => Send(s, w)
    case GiveUp(w) => Resume(s, w).(dropped := true)
    case Take(r, draw) => Receive(s, r, draw)
    case TakeEnd(r) => ReceiveEnd(s, r)
    case Start(i, chosen) => Run(s, i, chosen)
    case Tick(i) => Timer(s, i)
    case Close(i) => CloseStep(s, i)
    case Deliver => TakeInterrupt(s)
    case Answer => s.(ctl := SetShake(s.ctl, Answered(ShakeOf(s.ctl).value == Taken)))
    case Begin(op) => BeginOp(s, op)
    case Proceed => Advance(s)
  }

  // ----- events: moves under the channels' capacities -----

  /** On an unbuffered channel a send and a receive happen together. */
  datatype Event = One(m: Move) | Handoff(w: Sender, r: Receiver, draw: Slicer.Draws)

  predicate Enabled(s: State, e: Event) {
    match e
    case One(m) =>
      && Can(s, m)
      && (m.Put? ==> var ch := s.chans[SendChan(s, m.w)]; ch.closed || |ch.buf| < ch.cap)
    case Handoff(w, r, draw) =>
      && Can(s, Put(w))
      && s.chans[SendChan(s, w)] == Chan([], 0, false)
      && Can(Do(s, Put(w)), Take(r, draw))
      && ReceiveChan(Do(s, Put(w)), r) == SendChan(s, w)
  }

  function Next(s: State, e: Event): State
    requires Enabled(s, e)
  {
    match e
    case One(m) => Do(s, m)
    case Handoff(w, r, draw) => Do(Do(s, Put(w)), Take(r, draw))
  }

  predicate Legal(s: State, es: seq<Event>)
    decreases |es|
  {
    es == [] || (Enabled(s, es[0]) && Legal(Next(s, es[0]), es[1..]))
  }

  function Outcome(s: State, es: seq<Event>): State
    requires Legal(s, es)
    decreases |es|
  {
    if es == [] then s else Outcome(Next(s, es[0]), es[1..])
  }

  // ----- NewToxicLink and Start -----

  function NewStub(chain: seq<Toxic>, i: nat): Stub
    requires i < |chain|
  {
    Stub(i, i + 1, false, chain[i], chain[i], if chain[i].LimitData? then Some(0) else None, Spawned)
  }

  /** Channel i + 1 feeds toxic i + 1 and has its buffer size; the first and the last are unbuffered. */
  function NewChan(chain: seq<Toxic>, i: nat): Chan {
    Chan([], if 0 < i < |chain| then BufferSize(chain[i]) else 0, false)
  }

  /** A started link over a chain that begins with the noop. */
  function Initial(chain: seq<Toxic>): State
    requires |chain| >= 1
  {
    State(seq(|chain| + 1, i requires 0 <= i <= |chain| => NewChan(chain, i)),
          seq(|chain|, i requires 0 <= i < |chain| => NewStub(chain, i)),
          chain, Free, 0, |chain|, None, false, [], [], false, |chain|, false, false, true, NoFault)
  }

  /** NewToxicLink and Start: stubs and channels are made one by one along the chain. */
  method NewToxicLink(chain: seq<Toxic>) returns (s: State)
    requires |chain| >= 1
    ensures s == Initial(chain)
    ensures |s.stubs| == |chain| && |s.chans| == |chain| + 1 && s.input == 0 && s.output == |chain|
    ensures forall i :: 0 <= i < |chain| ==>
      && s.stubs[i].input == i && s.stubs[i].output == i + 1 && s.stubs[i].toxic == chain[i]
      && s.stubs[i].state == (if chain[i].LimitData? then Some(0) else None) && s.stubs[i].pc.Spawned?
    ensures forall c :: 0 <= c <= |chain| ==>
      && s.chans[c].buf == [] && !s.chans[c].closed
      && s.chans[c].cap == if 0 < c < |chain| && chain[c].Latency? then 1024 else 0
  {
    var chans := [Chan([], 0, false)];
    var stubs: seq<Stub> := [];
    var last := 0;
    for i := 0 to |chain|
      invariant last == i && |chans| == i + 1 && |stubs| == i
      invariant forall j :: 0 <= j <= i ==> chans[j] == NewChan(chain, j)
      invariant forall j :: 0 <= j < i ==> stubs[j] == NewStub(chain, j)
    {
      var next := |chans|;
      if i + 1 < |chain| {
        chans := chans + [Chan([], BufferSize(chain[i + 1]), false)];
      } else {
        chans := chans + [Chan([], 0, false)];
      }
      var state := if chain[i].LimitData? then Some(0) else None;
      stubs := stubs + [Stub(last, next, false, chain[i], chain[i], state, Spawned)];
      last := next;
    }
    s := State(chans, stubs, chain, Free, 0, last, None, false, [], [], false, |stubs|, false, false, true, NoFault);
  }
}
