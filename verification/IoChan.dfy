/** stream/io_chan.go: a channel of byte blocks read and written as a byte stream. */
module IoChan {
  import opened Bytes
  import opened Wrappers

  datatype Error = Nil | EOF | Interrupted

  /** What ends the wait of a reader that finds an open channel empty. */
  datatype Wakeup = Arrives(chunk: Chunk) | Closes | Interrupts

  // ----- what a read does -----

  /** The channel between a writer and a reader, and the reader's buffer; `done`: the buffer is nil. */
  datatype Stream = Stream(queue: seq<Chunk>, closed: bool, buffer: Chunk, done: bool)

  /** What a read leaves behind, returns, and received while it waited. */
  datatype Turn = Turn(next: Stream, bytes: Chunk, err: Error, arrived: Chunk)

  /** A chunk p has been received after k bytes of `out` were filled from the buffer. */
  function Received(s: Stream, p: Chunk, size: nat, got: Chunk, arrived: Chunk): Turn
    requires |got| <= size
  {
    var m := Min(size - |got|, |p|);
    Turn(s.(buffer := p[m..]), got + p[..m], Nil, arrived)
  }

  /** A read that finds bytes in the buffer never waits: it takes a chunk more only if there is room left and
      the channel is ready. */
  function ReadBuffered(s: Stream, size: nat): Turn {
    var k := Min(size, |s.buffer|);
    var got, rest := s.buffer[..k], s.buffer[k..];
    if size <= |rest| || (s.queue == [] && !s.closed) then Turn(s.(buffer := rest), got, Nil, [])
    else if s.queue == [] then Turn(s.(buffer := [], done := true), got, Nil, [])
    else Received(s.(queue := s.queue[1..]), s.queue[0], size, got, [])
  }

  /** A read of `size` bytes. `interrupted`: the select that may block takes the interrupt. */
  function ReadFrom(s: Stream, size: nat, interrupted: bool, wake: Wakeup): Turn {
    if s.done then Turn(s, [], EOF, [])
    else if s.buffer != [] || size == 0 then ReadBuffered(s, size)
    else if interrupted then Turn(s, [], Interrupted, [])
    else if s.queue != [] then Received(s.(queue := s.queue[1..]), s.queue[0], size, [], [])
    else if s.closed then Turn(s.(done := true), [], EOF, [])
    else match wake
         case Arrives(c) => Received(s, c, size, [], c)
         case Closes => Turn(s.(closed := true, done := true), [], EOF, [])
         case Interrupts => Turn(s, [], Interrupted, [])
  }

  // ----- the law of the byte stream -----

  /** The bytes that were written and not returned yet, first byte first. */
  function Unread(s: Stream): Chunk {
    s.buffer + Flatten(s.queue)
  }

  /** The nil buffer marks the end of the stream, after which nothing can be written. */
  predicate Proper(s: Stream) {
    s.done ==> s.buffer == [] && s.queue == [] && s.closed
  }

  /** More than one read's worth is buffered but less than two, and the channel has a chunk or its end to
      give. */
  predicate LosesBytes(s: Stream, size: nat) {
    size < |s.buffer| < 2 * size && (s.queue != [] || s.closed)
  }

  lemma ReceivedLaw(s: Stream, p: Chunk, size: nat, got: Chunk, arrived: Chunk)
    requires |got| <= size
    ensures var t := Received(s, p, size, got, arrived);
      && t.bytes + Unread(t.next) == got + p + Flatten(s.queue) && |got| <= |t.bytes| <= size
      && t.next.done == s.done && t.arrived == arrived
  {
    var m := Min(size - |got|, |p|);
    assert p == p[..m] + p[m..];
    hide Flatten;
    assert (got + p[..m]) + (p[m..] + Flatten(s.queue)) == got + (p[..m] + p[m..]) + Flatten(s.queue);
  }

  /** The unread bytes lose exactly the returned ones, at the front, if and only if `LosesBytes` does not hold
      before the read; otherwise what is left in the buffer after one read's worth is gone. */
  lemma ReadLaw(s: Stream, size: nat, interrupted: bool, wake: Wakeup)
    requires Proper(s)
    ensures var t := ReadFrom(s, size, interrupted, wake);
      && Proper(t.next) && |t.bytes| <= size
      && (t.bytes + Unread(t.next) == Unread(s) + t.arrived <==> !LosesBytes(s, size))
      && (LosesBytes(s, size) ==> t.bytes + Unread(t.next) == s.buffer[..size] + Flatten(s.queue) && t.arrived == [])
  {
    hide Received;
    var t := ReadFrom(s, size, interrupted, wake);
    if s.done {
    } else if s.buffer != [] || size == 0 {
      BufferedLaw(s, size);
    } else if !interrupted && s.queue != [] {
      ReceivedLaw(s.(queue := s.queue[1..]), s.queue[0], size, [], []);
      assert [] + s.queue[0] + Flatten(s.queue[1..]) == Unread(s) + [];
    } else if !interrupted && !s.closed && wake.Arrives? {
      ReceivedLaw(s, wake.chunk, size, [], wake.chunk);
      assert [] + wake.chunk + Flatten(s.queue) == Unread(s) + wake.chunk;
    }
  }

  lemma BufferedLaw(s: Stream, size: nat)
    requires Proper(s) && !s.done
    ensures var t := ReadBuffered(s, size);
      && Proper(t.next) && |t.bytes| <= size && t.arrived == []
      && (t.bytes + Unread(t.next) == Unread(s) <==> !LosesBytes(s, size))
      && (LosesBytes(s, size) ==> t.bytes + Unread(t.next) == s.buffer[..size] + Flatten(s.queue))
  {
    var k := Min(size, |s.buffer|);
    var got, rest := s.buffer[..k], s.buffer[k..];
    assert s.buffer == got + rest;
    assert got + (rest + Flatten(s.queue)) == Unread(s);
    if size <= |rest| || (s.queue == [] && !s.closed) {
    } else {
      BufferIsDropped(s, size, got);
      assert rest != [] ==> |got + Flatten(s.queue)| < |Unread(s)|;
    }
  }

  lemma BufferIsDropped(s: Stream, size: nat, got: Chunk)
    requires Proper(s) && !s.done && got == s.buffer[..Min(size, |s.buffer|)]
    requires |s.buffer| - |got| < size && (s.queue != [] || s.closed)
    ensures var t := ReadBuffered(s, size);
      && Proper(t.next) && |t.bytes| <= size && t.arrived == []
      && t.bytes + Unread(t.next) == got + Flatten(s.queue)
  {
    if s.queue != [] {
      ReceivedLaw(s.(queue := s.queue[1..]), s.queue[0], size, got, []);
      assert got + s.queue[0] + Flatten(s.queue[1..]) == got + Flatten(s.queue);
      hide Received, Flatten;
    }
  }

  /** An interrupted read returns nothing and changes nothing; the end comes when every byte was returned, and
      stays. */
  lemma EndIsPermanent(s: Stream, size: nat, interrupted: bool, wake: Wakeup)
    requires Proper(s)
    ensures var t := ReadFrom(s, size, interrupted, wake);
      && (t.err == Interrupted ==> t.bytes == [] && t.next == s)
      && (t.err == EOF ==> t.bytes == [] && t.next.done && Unread(s) == [])
      && (s.done ==> t.err == EOF && t.next == s)
  {
  }

  /** The read takes the chunk at the head of the queue: when bytes are buffered, if they are fewer than two reads'
      worth; otherwise, if the read is not empty and the select does not take the interrupt. */
  predicate TakesQueued(s: Stream, size: nat, interrupted: bool) {
    && !s.done && s.queue != [] && |s.buffer| < 2 * size
    && (s.buffer == [] ==> !interrupted)
  }

  /** The read has nothing buffered and room for something, so that it may have to wait. */
  predicate MayWait(s: Stream, size: nat) {
    !s.done && s.buffer == [] && size > 0
  }

  /** The one chunk that a read takes, from the queue or, when it waits, as it arrives. */
  function Taken(s: Stream, size: nat, interrupted: bool, wake: Wakeup): Option<Chunk> {
    if TakesQueued(s, size, interrupted) then Some(s.queue[0])
    else if MayWait(s, size) && !interrupted && s.queue == [] && !s.closed && wake.Arrives? then Some(wake.chunk)
    else None
  }

  /** How a read ends, from the state before it: with EOF after the end, or when it waits in vain; with Interrupted
      only when it may wait, and the select takes the interrupt or nothing else comes; and otherwise with as many
      bytes as the buffer and the one chunk it takes hold, up to its size. Only the queue's head is taken, and only
      the end of the channel ends the stream. */
  lemma ReadEnds(s: Stream, size: nat, interrupted: bool, wake: Wakeup)
    requires Proper(s)
    ensures var t, p := ReadFrom(s, size, interrupted, wake), Taken(s, size, interrupted, wake);
      var waits := MayWait(s, size) && !interrupted && s.queue == [];
      && (t.err == EOF <==> s.done || (waits && (s.closed || wake.Closes?)))
      && (t.err == Interrupted <==> MayWait(s, size) && (interrupted || (waits && !s.closed && wake.Interrupts?)))
      && (t.err == Nil ==> |t.bytes| == Min(size, |s.buffer| + if p.Some? then |p.value| else 0))
      && (t.err != Nil ==> t.bytes == [] && p.None?)
      && t.next.queue == (if TakesQueued(s, size, interrupted) then s.queue[1..] else s.queue)
      && t.arrived == (if p.Some? && s.queue == [] then p.value else [])
      && t.next.closed == (s.closed || (waits && wake.Closes?))
      && t.next.done == (t.err == EOF || (s.buffer != [] && s.queue == [] && s.closed && |s.buffer| < 2 * size))
  {
  }

  // ----- any sequence of writes, reads, interrupts and a close -----

  datatype Action = Write(data: Chunk) | Close | Read(size: nat, interrupted: bool, wake: Wakeup)

  /** A session so far: `safe` says that no read began in a state in which it loses bytes, `ended` that some
      read has reported the end. */
  datatype History = History(s: Stream, written: Chunk, returned: Chunk, safe: bool, ended: bool)

  /** What comes after Close is not written. */
  function Act(h: History, a: Action): History {
    match a
    case Write(data) =>
      if h.s.closed then h else h.(s := h.s.(queue := h.s.queue + [data]), written := h.written + data)
    case Close => h.(s := h.s.(closed := true))
    case Read(size, interrupted, wake) =>
      var t := ReadFrom(h.s, size, interrupted, wake);
      History(t.next, h.written + t.arrived, h.returned + t.bytes, h.safe && !LosesBytes(h.s, size),
              h.ended || t.err == EOF)
  }

  function Play(script: seq<Action>): History {
    if script == [] then History(Stream([], false, [], false), [], [], true, false)
    else Act(Play(script[..|script| - 1]), script[|script| - 1])
  }

  /** Returned and unread bytes are the written ones, or fewer once bytes were lost. */
  predicate Kept(returned: Chunk, unread: Chunk, written: Chunk, safe: bool) {
    if safe then returned + unread == written else |returned + unread| < |written|
  }

  predicate Law(h: History) {
    Proper(h.s) && (h.ended ==> h.s.done) && Kept(h.returned, Unread(h.s), h.written, h.safe)
  }

  lemma KeptByWrite(returned: Chunk, unread: Chunk, written: Chunk, safe: bool, data: Chunk)
    requires Kept(returned, unread, written, safe)
    ensures Kept(returned, unread + data, written + data, safe)
  {
    assert returned + (unread + data) == (returned + unread) + data;
  }

  lemma KeptByRead(returned: Chunk, before: Chunk, written: Chunk, safe: bool, got: Chunk, after: Chunk,
                   arrived: Chunk, loses: bool)
    requires Kept(returned, before, written, safe)
    requires if loses then |got + after| < |before + arrived| else got + after == before + arrived
    ensures Kept(returned + got, after, written + arrived, safe && !loses)
  {
    assert returned + (got + after) == (returned + got) + after;
    assert returned + (before + arrived) == (returned + before) + arrived;
  }

  lemma ActKeepsLaw(h: History, a: Action)
    requires Law(h)
    ensures Law(Act(h, a))
  {
    hide ReadFrom, Kept;
    match a {
      case Write(data) =>
        FlattenSnoc(h.s.queue, data);
        KeptByWrite(h.returned, Unread(h.s), h.written, h.safe, data);
        assert h.s.buffer + (Flatten(h.s.queue) + data) == Unread(h.s) + data;
      case Close =>
      case Read(size, interrupted, wake) =>
        var t := ReadFrom(h.s, size, interrupted, wake);
        ReadLaw(h.s, size, interrupted, wake);
        EndIsPermanent(h.s, size, interrupted, wake);
        KeptByRead(h.returned, Unread(h.s), h.written, h.safe, t.bytes, Unread(t.next), t.arrived,
                   LosesBytes(h.s, size));
    }
  }

  lemma {:induction false} PlayKeepsLaw(script: seq<Action>)
    ensures Law(Play(script))
  {
    if script != [] {
      PlayKeepsLaw(script[..|script| - 1]);
      ActKeepsLaw(Play(script[..|script| - 1]), script[|script| - 1]);
    }
  }

  /** The bytes returned and the bytes unread are the bytes written exactly if no read began in a state in
      which it loses bytes, and then the end comes after all of them. */
  lemma StreamLaw(script: seq<Action>)
    ensures var h := Play(script);
      && (h.returned + Unread(h.s) == h.written <==> h.safe)
      && (h.safe && h.ended ==> h.returned == h.written)
  {
    PlayKeepsLaw(script);
    var h := Play(script);
    assert h.returned + [] == h.returned;
  }

  /** Reads all use `size` bytes, and no block is longer. */
  predicate FixedSize(a: Action, size: nat) {
    match a
    case Write(data) => |data| <= size
    case Close => true
    case Read(n, _, wake) => n == size && (wake.Arrives? ==> |wake.chunk| <= size)
  }

  predicate Small(s: Stream, size: nat) {
    |s.buffer| <= size && forall i :: 0 <= i < |s.queue| ==> |s.queue[i]| <= size
  }

  /** Copying with one buffer size and no longer blocks never meets a state that loses bytes. */
  lemma {:induction false} FixedSizeIsSafe(script: seq<Action>, size: nat)
    requires forall i :: 0 <= i < |script| ==> FixedSize(script[i], size)
    ensures Play(script).safe && Small(Play(script).s, size)
  {
    if script != [] {
      FixedSizeIsSafe(script[..|script| - 1], size);
    }
  }

  lemma PlaySnoc(script: seq<Action>, a: Action)
    ensures Play(script + [a]) == Act(Play(script), a)
  {
    assert (script + [a])[..|script|] == script;
  }

  /** Five bytes are written and the channel is closed; a read of one byte and then one of three lose the
      last byte. */
  lemma LosingReads(data: Chunk)
    requires |data| == 5
    ensures ReadFrom(Stream([data], true, [], false), 1, false, Closes) ==
            Turn(Stream([], true, data[1..], false), data[..1], Nil, [])
    ensures ReadFrom(Stream([], true, data[1..], false), 3, false, Closes) ==
            Turn(Stream([], true, [], true), data[1..4], Nil, [])
  {
    assert data[1..][..3] == data[1..4] && data[..1] == [] + data[..1];
  }

  lemma ReadsThatLose(data: Chunk)
    requires |data| == 5
    ensures var h := Play([Write(data), Close] + [Read(1, false, Closes)] + [Read(3, false, Closes)]);
      h.returned == data[..4] && Unread(h.s) == [] && h.written == data && !h.safe
  {
    PlaySnoc([], Write(data));
    assert [] + [Write(data)] == [Write(data)] && [] + data == data && [] + [data] == [data];
    assert Play([Write(data)]) == History(Stream([data], false, [], false), data, [], true, false);
    hide Play, ReadFrom;
    PlaySnoc([Write(data)], Close);
    assert [Write(data)] + [Close] == [Write(data), Close];
    PlaySnoc([Write(data), Close], Read(1, false, Closes));
    PlaySnoc([Write(data), Close] + [Read(1, false, Closes)], Read(3, false, Closes));
    LosingReads(data);
    assert data + [] == data && [] + data[..1] == data[..1] && data[..1] + data[1..4] == data[..4];
  }

  // ----- the classes -----

  class Channel {
    var queue: seq<Chunk>
    var closed: bool

    constructor ()
      ensures queue == [] && !closed
    {
      queue, closed := [], false;
    }
  }

  class ChanWriter {
    const output: Channel

    constructor (output: Channel)
      ensures this.output == output
    {
      this.output := output;
    }

    /** The block is copied, so the caller may reuse `buf`; writing after Close panics. */
    method Write(buf: array<Byte>) returns (n: nat)
      requires !output.closed
      modifies output`queue
      ensures n == buf.Length && output.queue == old(output.queue) + [buf[..]]
    {
      output.queue := output.queue + [buf[..]];
      n := buf.Length;
    }

    method Close()
      requires !output.closed
      modifies output`closed
      ensures output.closed
    {
      output.closed := true;
    }
  }

  class ChanReader {
    const input: Channel
    var buffer: seq<Byte>
    var done: bool   // the buffer is nil

    constructor (input: Channel)
      ensures this.input == input && buffer == [] && !done
    {
      this.input, buffer, done := input, [], false;
    }

    ghost function State(): Stream
      reads this, input
    {
      Stream(input.queue, input.closed, buffer, done)
    }

    /** `copy(out[from:], data)`. */
    method Copy(out: array<Byte>, from: nat, data: Chunk) returns (n: nat)
      requires from <= out.Length
      modifies out
      ensures n == Min(out.Length - from, |data|)
      ensures out[..from] == old(out[..from]) && out[from..from + n] == data[..n]
      ensures out[from + n..] == old(out[from + n..])
    {
      n := Min(out.Length - from, |data|);
      forall i | 0 <= i < n {
        out[from + i] := data[i];
      }
    }

    /** A chunk has been received: it fills the rest of `out`, and what is left of it becomes the buffer. */
    method Take(out: array<Byte>, n: nat, p: Chunk) returns (m: nat)
      requires n <= out.Length
      modifies this`buffer, out
      ensures State() == Received(old(State()), p, out.Length, old(out[..n]), []).next
      ensures m <= out.Length && out[..m] == Received(old(State()), p, out.Length, old(out[..n]), []).bytes
      ensures out[m..] == old(out[m..])
    {
      var n2 := Copy(out, n, p);
      buffer := p[n2..];
      m := n + n2;
      assert out[..m] == out[..n] + out[n..m];
    }

    /** The select that may block, when nothing was buffered. */
    method Wait(out: array<Byte>, interrupted: bool, wake: Wakeup) returns (n: nat, err: Error)
      requires buffer == [] && !done && out.Length > 0
      modifies this`buffer, this`done, input, out
      ensures var t := ReadFrom(old(State()), out.Length, interrupted, wake);
        State() == t.next && n <= out.Length && out[..n] == t.bytes && err == t.err
      ensures out[n..] == old(out[n..])
    {
      var p: Chunk := [];
      if interrupted {
        return 0, Interrupted;
      } else if input.queue != [] {
        p := input.queue[0];
        input.queue := input.queue[1..];
      } else {
        if !input.closed {
          match wake {
            case Arrives(c) => p := c;
            case Closes => input.closed := true;
            case Interrupts => return 0, Interrupted;
          }
        }
        if input.closed {
          done := true;
          return 0, EOF;
        }
      }
      n := Take(out, 0, p);
      return n, Nil;
    }

    /** `wake` is what happens if the read has to wait. */
    method Read(out: array<Byte>, interrupted: bool, wake: Wakeup) returns (n: nat, err: Error)
      modifies this`buffer, this`done, input, out
      ensures var t := ReadFrom(old(State()), out.Length, interrupted, wake);
        State() == t.next && n <= out.Length && out[..n] == t.bytes && err == t.err
      ensures out[n..] == old(out[n..])
    {
      if done {
        return 0, EOF;
      }
      n := Copy(out, 0, buffer);
      buffer := buffer[n..];
      if out.Length <= |buffer| {
        return n, Nil;
      } else if n > 0 {
        if input.queue != [] {
          var p := input.queue[0];
          input.queue := input.queue[1..];
          n := Take(out, n, p);
        } else if input.closed {
          buffer, done := [], true;
        }
        return n, Nil;
      }
      n, err := Wait(out, interrupted, wake);
    }
  }

  /** A session on a new channel does what its script says. */
  method Session(script: seq<Action>) returns (returned: Chunk, ended: bool)
    ensures returned == Play(script).returned && ended == Play(script).ended
  {
    var channel := new Channel();
    var reader := new ChanReader(channel);
    var writer := new ChanWriter(channel);
    returned, ended := [], false;
    for i := 0 to |script|
      invariant reader.input == channel == writer.output && fresh(channel) && fresh(reader)
      invariant reader.State() == Play(script[..i]).s
      invariant returned == Play(script[..i]).returned && ended == Play(script[..i]).ended
    {
      assert script[..i + 1][..i] == script[..i];
      match script[i] {
        case Write(data) =>
          if !channel.closed {
            var buf := new Byte[|data|](j requires 0 <= j < |data| => data[j]);
            assert buf[..] == data;
            var _ := writer.Write(buf);
          }
        case Close =>
          if !channel.closed { writer.Close(); }
        case Read(size, interrupted, wake) =>
          var out := new Byte[size];
          var n, err := reader.Read(out, interrupted, wake);
          returned, ended := returned + out[..n], ended || err == EOF;
      }
    }
    assert script[..|script|] == script;
  }
}
