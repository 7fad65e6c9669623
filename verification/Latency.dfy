/** toxics/latency.go: when an uninterrupted Pipe lets chunks go, with exact timers and an output that never
    blocks. Times are in nanoseconds, the toxic's attributes in milliseconds. */
module Latency {
  import opened Wrappers

  const MILLISECOND := 1_000_000

  datatype Toxic = Toxic(latency: int, jitter: int)

  /** `delay()`: latency +/- jitter, for one outcome of the random draw. */
  function Delay(t: Toxic, draw: int): (d: int)
    ensures (t.latency - Max(t.jitter, 0)) * MILLISECOND <= d <= (t.latency + Max(t.jitter, 0)) * MILLISECOND
  {
    var ms := if t.jitter > 0 then t.latency + draw % (t.jitter * 2) - t.jitter else t.latency;
    ms * MILLISECOND
  }

  /** The delay is a whole number of milliseconds, and the draw decides which: without jitter it is the latency, with
      jitter every one of the range is some draw's, and no other. */
  lemma DelayRanges(t: Toxic, ms: int)
    ensures (exists draw :: Delay(t, draw) == ms * MILLISECOND) <==>
      if t.jitter > 0 then t.latency - t.jitter <= ms < t.latency + t.jitter else ms == t.latency
    ensures forall draw :: 0 <= draw < t.jitter * 2 ==>
      Delay(t, draw) == (t.latency + draw - t.jitter) * MILLISECOND
  {
    var draw := ms - t.latency + t.jitter;
    if 0 <= draw < t.jitter * 2 { SmallMod(draw, t.jitter * 2); }
    assert (t.jitter > 0 ==> 0 <= draw < t.jitter * 2) && (t.jitter <= 0 ==> ms == t.latency) ==>
      Delay(t, draw) == ms * MILLISECOND;
    forall other | 0 <= other < t.jitter * 2
      ensures Delay(t, other) == (t.latency + other - t.jitter) * MILLISECOND
    {
      SmallMod(other, t.jitter * 2);
    }
  }

  /** A chunk on its way to the toxic: when it is there, and its timestamp. */
  datatype Arrival = Arrival(at: int, stamp: int)

  /** Chunks that are there at their timestamps. */
  function OnTime(stamps: seq<int>): (ins: seq<Arrival>)
    ensures |ins| == |stamps|
  {
    seq(|stamps|, i requires 0 <= i < |stamps| => Arrival(stamps[i], stamps[i]))
  }

  function Due(t: Toxic, a: Arrival, draw: int): int {
    Max(a.at, a.stamp + Delay(t, draw))
  }

  /** The time a chunk leaves the queue: the latest of the times at which it or a chunk before it is due. */
  function Exit(t: Toxic, ins: seq<Arrival>, draw: nat -> int, i: nat): int
    requires i < |ins|
  {
    var due := Due(t, ins[i], draw(i));
    if i == 0 then due else Max(Exit(t, ins, draw, i - 1), due)
  }

  /** The time the loop is free for a chunk that is there. */
  function Received(t: Toxic, ins: seq<Arrival>, draw: nat -> int, i: nat): int
    requires i < |ins|
  {
    if i == 0 then ins[i].at else Max(Exit(t, ins, draw, i - 1), ins[i].at)
  }

  /** The timestamp a chunk leaves with: it is moved by the sleep that was left when it was received. */
  function Stamp(t: Toxic, ins: seq<Arrival>, draw: nat -> int, i: nat): int
    requires i < |ins|
  {
    ins[i].stamp + (Delay(t, draw(i)) - (Received(t, ins, draw, i) - ins[i].stamp))
  }

  /** What a toxic passes on arrives at the next one when it leaves this one. */
  function Onward(t: Toxic, ins: seq<Arrival>, draw: nat -> int): (outs: seq<Arrival>)
    ensures |outs| == |ins|
  {
    seq(|ins|, i requires 0 <= i < |ins| => Arrival(Exit(t, ins, draw, i), Stamp(t, ins, draw, i)))
  }

  /** The loop over the chunks of a run, which receives a chunk as soon as it is there and the loop is free. */
  method Pipe(t: Toxic, ins: seq<Arrival>, draw: nat -> int) returns (outs: seq<Arrival>)
    ensures outs == Onward(t, ins, draw)
  {
    outs := [];
    var now := 0;
    for i := 0 to |ins|
      invariant |outs| == i
      invariant i > 0 ==> now == Exit(t, ins, draw, i - 1)
      invariant forall k :: 0 <= k < i ==> outs[k] == Onward(t, ins, draw)[k]
    {
      now := if i == 0 then ins[i].at else Max(now, ins[i].at);
      var sleep := Delay(t, draw(i)) - (now - ins[i].stamp);
      now := now + Max(sleep, 0);
      outs := outs + [Arrival(now, ins[i].stamp + sleep)];
    }
  }

  /** The exit time is the maximum over this chunk and the chunks before it. */
  lemma {:induction false} ExitIsLatestDue(t: Toxic, ins: seq<Arrival>, draw: nat -> int, i: nat)
    requires i < |ins|
    ensures forall j :: 0 <= j <= i ==> Due(t, ins[j], draw(j)) <= Exit(t, ins, draw, i)
    ensures exists j :: 0 <= j <= i && Due(t, ins[j], draw(j)) == Exit(t, ins, draw, i)
  {
    var k := i;
    if i > 0 {
      ExitIsLatestDue(t, ins, draw, i - 1);
      var j :| 0 <= j <= i - 1 && Due(t, ins[j], draw(j)) == Exit(t, ins, draw, i - 1);
      k := if Due(t, ins[i], draw(i)) < Exit(t, ins, draw, i) then j else i;
    }
    assert Due(t, ins[k], draw(k)) == Exit(t, ins, draw, i);
  }

  // ----- one latency toxic -----

  ghost predicate NonDecreasing(stamps: seq<int>) {
    forall i, j :: 0 <= i <= j < |stamps| ==> stamps[i] <= stamps[j]
  }

  /** Latency does not accumulate in the queue: every chunk leaves between its timestamp plus the least and
      its timestamp plus the greatest delay, however many chunks queue before it. */
  lemma {:induction false} LatencyDoesNotAccumulate(t: Toxic, stamps: seq<int>, draw: nat -> int, i: nat)
    requires NonDecreasing(stamps) && i < |stamps|
    ensures var exit := Exit(t, OnTime(stamps), draw, i);
      && stamps[i] + Max(0, (t.latency - Max(t.jitter, 0)) * MILLISECOND) <= exit
      && exit <= stamps[i] + Max(0, (t.latency + Max(t.jitter, 0)) * MILLISECOND)
  {
    var ins := OnTime(stamps);
    ExitIsLatestDue(t, ins, draw, i);
    var j :| 0 <= j <= i && Due(t, ins[j], draw(j)) == Exit(t, ins, draw, i);
    assert stamps[j] <= stamps[i];
    assert Due(t, ins[i], draw(i)) <= Exit(t, ins, draw, i);
  }

  /** The new timestamp is the exit time if and only if the chunk did not queue and its delay is not
      negative. */
  lemma StampIsExitTime(t: Toxic, stamps: seq<int>, draw: nat -> int, i: nat)
    requires i < |stamps|
    ensures Stamp(t, OnTime(stamps), draw, i) == Exit(t, OnTime(stamps), draw, i) <==>
            (i == 0 || Exit(t, OnTime(stamps), draw, i - 1) <= stamps[i]) && Delay(t, draw(i)) >= 0
  {
    var r := Received(t, OnTime(stamps), draw, i);
    assert Exit(t, OnTime(stamps), draw, i) == Max(r, stamps[i] + Delay(t, draw(i)));
  }

  // ----- two latency toxics in a row -----

  /** When chunk i leaves the second toxic. */
  function Exit2(t1: Toxic, t2: Toxic, stamps: seq<int>, draw1: nat -> int, draw2: nat -> int, i: nat): int
    requires i < |stamps|
  {
    Exit(t2, Onward(t1, OnTime(stamps), draw1), draw2, i)
  }

  /** Two Pipes, the first passing its chunks on to the second. */
  method InARow(t1: Toxic, t2: Toxic, stamps: seq<int>, draw1: nat -> int, draw2: nat -> int)
    returns (outs: seq<Arrival>)
    ensures |outs| == |stamps|
    ensures forall i :: 0 <= i < |stamps| ==> outs[i].at == Exit2(t1, t2, stamps, draw1, draw2, i)
  {
    var between := Pipe(t1, OnTime(stamps), draw1);
    outs := Pipe(t2, between, draw2);
  }

  /** A chunk leaves the second toxic at its timestamp plus both delays exactly if the second delay is not
      negative, neither its wait in the first toxic nor what the second one still has to do is longer than
      both delays together, and one of these holds: it did not wait in the first toxic; the second delay is
      zero; it waited in the first toxic for as long as both delays; the second toxic was busy for as long. */
  lemma {:induction false} LatenciesAddUp(t1: Toxic, t2: Toxic, stamps: seq<int>, draw1: nat -> int,
                                          draw2: nat -> int, i: nat)
    requires i < |stamps|
    ensures var d1, d2 := Delay(t1, draw1(i)), Delay(t2, draw2(i));
      var wait := Received(t1, OnTime(stamps), draw1, i) - stamps[i];
      var busy := if i == 0 then 0 else Exit2(t1, t2, stamps, draw1, draw2, i - 1) - stamps[i];
      Exit2(t1, t2, stamps, draw1, draw2, i) == stamps[i] + d1 + d2 <==>
        && d2 >= 0 && wait <= d1 + d2 && busy <= d1 + d2
        && (wait == 0 || d2 == 0 || wait == d1 + d2 || (i > 0 && busy == d1 + d2))
  {
    var d1 := Delay(t1, draw1(i));
    var wait := Received(t1, OnTime(stamps), draw1, i) - stamps[i];
    var between := Onward(t1, OnTime(stamps), draw1);
    assert wait >= 0;
    assert between[i].at == stamps[i] + Max(wait, d1);
    assert between[i].stamp == stamps[i] + d1 - wait;
  }

  /** Ten milliseconds twice, for two chunks five milliseconds apart: the second one waits in the first toxic
      and leaves five milliseconds before its timestamp plus both delays. */
  lemma {:induction false} LatenciesNeedNotAddUp(t: Toxic, draw: nat -> int)
    requires t == Toxic(10, 0)
    ensures Exit2(t, t, [0, 5 * MILLISECOND], draw, draw, 1) == 20 * MILLISECOND
    ensures 5 * MILLISECOND + Delay(t, draw(1)) + Delay(t, draw(1)) == 25 * MILLISECOND
  {
    var stamps := [0, 5 * MILLISECOND];
    var ins := OnTime(stamps);
    var between := Onward(t, ins, draw);
    assert Exit(t, ins, draw, 0) == 10 * MILLISECOND;
    assert Exit(t, ins, draw, 1) == 15 * MILLISECOND;
    assert between[0] == Arrival(10 * MILLISECOND, 10 * MILLISECOND);
    assert between[1] == Arrival(15 * MILLISECOND, 10 * MILLISECOND);
    assert Exit(t, between, draw, 0) == 20 * MILLISECOND;
  }
}
