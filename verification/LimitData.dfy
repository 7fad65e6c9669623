/** toxics/limit_data.go: a byte limit that survives interrupted and resumed runs on one stub. */
module LimitData {
  import opened Bytes
  import opened Wrappers

  /** LimitDataToxicState, kept on the stub between runs. */
  class LimitState {
    var bytesTransmitted: nat

    constructor ()
      ensures bytesTransmitted == 0
    {
      bytesTransmitted := 0;
    }
  }

  /** What of a chunk is sent on when so many bytes have been transmitted before. */
  function Passed(bytes: int, transmitted: nat, c: Chunk): Chunk {
    c[..Min(|c|, Max(bytes - transmitted, 0))]
  }

  /** One run of Pipe over the chunks it receives before it is interrupted or closes the stub. `taken` counts
      the chunks it received; it returns before the last chunk only when it closes. */
  method Pipe(bytes: int, state: LimitState, chunks: seq<Chunk>) returns (out: Chunk, taken: nat, closed: bool)
    modifies state
    ensures taken <= |chunks| && (taken < |chunks| ==> closed)
    ensures var input := Flatten(chunks[..taken]);
      && |out| == Min(|input|, Max(bytes - old(state.bytesTransmitted), 0))
      && out == input[..|out|]
      && state.bytesTransmitted == old(state.bytesTransmitted) + |out|
      && (closed <==> taken > 0 && bytes <= state.bytesTransmitted)
      && (!closed ==> out == input)
    ensures taken > 1 ==> |Flatten(chunks[..taken - 1])| < bytes - old(state.bytesTransmitted)
    ensures taken > 0 ==>
      var whole := Flatten(chunks[..taken - 1]);
      out == whole + Passed(bytes, old(state.bytesTransmitted) + |whole|, chunks[taken - 1])
  {
    out, taken, closed := [], 0, false;
    var bytesRemaining := bytes - state.bytesTransmitted;
    ghost var before := state.bytesTransmitted;
    while taken < |chunks|
      invariant taken <= |chunks| && !closed
      invariant bytesRemaining == bytes - state.bytesTransmitted
      invariant state.bytesTransmitted == before + |out|
      invariant out == Flatten(chunks[..taken])
      invariant taken > 0 ==> bytesRemaining > 0
      invariant taken > 1 ==> |Flatten(chunks[..taken - 1])| < bytes - before
      invariant taken > 0 ==>
        var whole := Flatten(chunks[..taken - 1]);
        out == whole + Passed(bytes, before + |whole|, chunks[taken - 1])
    {
      var c := chunks[taken];
      assert chunks[..taken + 1] == chunks[..taken] + [c];
      FlattenSnoc(chunks[..taken], c);
      taken := taken + 1;
      if bytesRemaining < 0 {
        bytesRemaining := 0;
      }
      if bytesRemaining < |c| {
        c := c[..bytesRemaining];
      }
      if |c| > 0 {
        out := out + c;
        state.bytesTransmitted := state.bytesTransmitted + |c|;
      }
      bytesRemaining := bytes - state.bytesTransmitted;
      if bytesRemaining <= 0 {
        closed := true;
        return;
      }
    }
    assert chunks[..taken] == chunks;
  }

  /** A run as its surroundings see it: the limit in force and the chunks offered. */
  datatype Run = Run(bytes: int, chunks: seq<Chunk>)

  function Offered(runs: seq<Run>): Chunk {
    if runs == [] then [] else Offered(runs[..|runs| - 1]) + Flatten(runs[|runs| - 1].chunks)
  }

  /** What had been consumed when run `last` had received `taken` of its chunks. */
  function Consumed(runs: seq<Run>, last: nat, taken: nat): Chunk
    requires last < |runs| && taken <= |runs[last].chunks|
  {
    Offered(runs[..last]) + Flatten(runs[last].chunks[..taken])
  }

  ghost predicate SameLimit(runs: seq<Run>, bytes: int) {
    forall i :: 0 <= i < |runs| ==> runs[i].bytes == bytes
  }

  /** Runs one after the other on one stub until one of them closes it, with its chunk number `taken`. The
      output is a prefix of what was consumed, and all of it while the stub is open. With one limit
      throughout, it is exactly the first `bytes` bytes of it. */
  method Runs(runs: seq<Run>) returns (out: Chunk, last: nat, taken: nat, closed: bool)
    ensures !closed ==>
      && out == Offered(runs)
      && forall bytes :: SameLimit(runs, bytes) ==> |out| == Min(|Offered(runs)|, Max(bytes, 0))
    ensures closed ==>
      && last < |runs| && 0 < taken <= |runs[last].chunks|
      && var consumed := Consumed(runs, last, taken);
         && |out| <= |consumed| && out == consumed[..|out|]
         && |Offered(runs[..last])| <= |out| && runs[last].bytes <= |out|
         && (taken > 1 ==> |Consumed(runs, last, taken - 1)| < runs[last].bytes)
         && forall bytes :: SameLimit(runs, bytes) ==> |out| == Min(|consumed|, Max(bytes, 0))
  {
    var state := new LimitState();
    out, last, taken, closed := [], 0, 0, false;
    while last < |runs|
      invariant last <= |runs| && !closed && state.bytesTransmitted == |out|
      invariant out == Offered(runs[..last])
      invariant forall bytes :: SameLimit(runs, bytes) ==> out == [] || |out| < bytes
    {
      var run := runs[last];
      var o;
      o, taken, closed := Pipe(run.bytes, state, run.chunks);
      if closed {
        var consumed := Consumed(runs, last, taken);
        assert consumed[..|out + o|] == out + o;
        out := out + o;
        return;
      }
      assert runs[..last + 1][..last] == runs[..last] && run.chunks[..taken] == run.chunks;
      out, last := out + o, last + 1;
    }
    assert runs[..last] == runs;
  }
}
