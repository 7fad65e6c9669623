/** toxics/slicer.go: the recursive split of a packet and its interruptible emission. */
module Slicer {
  import opened Bytes
  import opened Wrappers

  datatype Sizes = Sizes(average: nat, variation: nat)

  /** The documented domain: the variation is smaller than the average size. */
  type SlicerToxic = s: Sizes | s.variation < s.average witness Sizes(1, 0)

  /** One random draw per split; `rand.Intn(2 * v)` is the draw reduced to 0 .. 2v-1. */
  type Draws = (int, int) -> int

  function Middle(t: SlicerToxic, start: int, end: int, draw: Draws): int {
    var mid := start + (end - start) / 2;
    if t.variation > 0
    then mid + draw(start, end) % (t.variation * 2) - t.variation
    else mid
  }

  /** A split leaves both halves with at least this many bytes. */
  function Least(t: SlicerToxic): (m: nat)
    ensures m >= 1
  {
    (t.average + t.variation + 1) / 2 - t.variation
  }

  lemma MiddleIsInside(t: SlicerToxic, start: int, end: int, draw: Draws)
    requires end - start - t.average > t.variation
    ensures start + Least(t) <= Middle(t, start, end, draw) <= end - Least(t)
  {
  }

  /** A packet is split at its half, moved by `variation` at most. The draw decides by how much: every place in the
      range is the draw's, and no other. */
  lemma MiddleRanges(t: SlicerToxic, start: int, end: int, d: int)
    ensures (exists draw: Draws :: Middle(t, start, end, draw) == start + (end - start) / 2 + d) <==>
      if t.variation > 0 then 0 <= d + t.variation < t.variation * 2 else d == 0
    ensures forall draw: Draws :: 0 <= draw(start, end) < t.variation * 2 ==>
      Middle(t, start, end, draw) == start + (end - start) / 2 + draw(start, end) - t.variation
  {
    var draw: Draws := (x, y) => d + t.variation;
    if 0 <= d + t.variation < t.variation * 2 { SmallMod(d + t.variation, t.variation * 2); }
    assert draw(start, end) == d + t.variation;
    assert (if t.variation > 0 then 0 <= d + t.variation < t.variation * 2 else d == 0) ==>
      Middle(t, start, end, draw) == start + (end - start) / 2 + d;
    forall other: Draws | 0 <= other(start, end) < t.variation * 2
      ensures Middle(t, start, end, other) == start + (end - start) / 2 + other(start, end) - t.variation
    {
      SmallMod(other(start, end), t.variation * 2);
    }
  }

  /** The offsets of the slices, flattened into start/end pairs. */
  function Offsets(t: SlicerToxic, start: int, end: int, draw: Draws): (offs: seq<int>)
    requires start <= end
    decreases end - start
  {
    if end - start - t.average <= t.variation then [start, end]
    else
      MiddleIsInside(t, start, end, draw);
      var mid := Middle(t, start, end, draw);
      Offsets(t, start, mid, draw) + Offsets(t, mid, end, draw)
  }

  /** Pairs of offsets covering [start, end) without gap or overlap, each slice `low` to `high` bytes long. */
  ghost predicate Tiles(offs: seq<int>, start: int, end: int, low: nat, high: nat)
    decreases |offs|
  {
    && |offs| >= 2 && offs[0] == start
    && low <= offs[1] - start <= high
    && if |offs| == 2 then offs[1] == end else Tiles(offs[2..], offs[1], end, low, high)
  }

  lemma {:induction false} TilesConcat(a: seq<int>, b: seq<int>, start: int, mid: int, end: int, low: nat, high: nat)
    requires Tiles(a, start, mid, low, high) && Tiles(b, mid, end, low, high)
    ensures Tiles(a + b, start, end, low, high)
    decreases |a|
  {
    assert (a + b)[2..] == a[2..] + b;
    if |a| > 2 {
      TilesConcat(a[2..], b, a[1], mid, end, low, high);
    }
  }

  /** Whatever is drawn, the pairs tile [start, end), no slice is longer than average + variation,
      and once the packet was split no slice is shorter than `Least`. */
  lemma {:induction false} OffsetsTile(t: SlicerToxic, start: int, end: int, draw: Draws, low: nat)
    requires start <= end
    requires low == 0 || (low == Least(t) && end - start >= low)
    ensures Tiles(Offsets(t, start, end, draw), start, end, low, t.average + t.variation)
    decreases end - start
  {
    if end - start - t.average > t.variation {
      MiddleIsInside(t, start, end, draw);
      var mid := Middle(t, start, end, draw);
      OffsetsTile(t, start, mid, draw, low);
      OffsetsTile(t, mid, end, draw, low);
      TilesConcat(Offsets(t, start, mid, draw), Offsets(t, mid, end, draw), start, mid, end,
                  low, t.average + t.variation);
    }
  }

  lemma {:induction false} TilesEnd(offs: seq<int>, start: int, end: int, low: nat, high: nat)
    requires Tiles(offs, start, end, low, high)
    ensures |offs| % 2 == 0 && offs[|offs| - 1] == end
    decreases |offs|
  {
    if |offs| > 2 { TilesEnd(offs[2..], offs[1], end, low, high); }
  }

  /** A slice ends, and the next one starts, at m. */
  predicate CutAt(offs: seq<int>, j: int, m: int) {
    0 < j < |offs| - 1 && offs[j] == m && offs[j + 1] == m
  }

  /** A packet that is longer than average + variation is cut at its middle, moved as the draw says. */
  lemma MiddleIsCut(t: SlicerToxic, start: int, end: int, draw: Draws)
    requires end - start > t.average + t.variation
    ensures exists j :: CutAt(Offsets(t, start, end, draw), j, Middle(t, start, end, draw))
  {
    MiddleIsInside(t, start, end, draw);
    var mid := Middle(t, start, end, draw);
    var left, right := Offsets(t, start, mid, draw), Offsets(t, mid, end, draw);
    OffsetsTile(t, start, mid, draw, 0);
    OffsetsTile(t, mid, end, draw, 0);
    TilesEnd(left, start, mid, 0, t.average + t.variation);
    var offs, j := Offsets(t, start, end, draw), |left| - 1;
    assert offs == left + right;
    assert CutAt(offs, j, mid);
  }

  function Doubled(average: nat, times: nat): nat {
    if times == 0 then average else 2 * Doubled(average, times - 1)
  }

  /** Without variation a packet of average * 2^n bytes is cut into slices of the average size. */
  lemma {:induction false} HalvesEvenly(t: SlicerToxic, start: int, n: nat, draw: Draws)
    requires t.variation == 0
    ensures var end := start + Doubled(t.average, n);
      Tiles(Offsets(t, start, end, draw), start, end, t.average, t.average)
    decreases n
  {
    DoubledGrows(t.average, n);
    if n > 0 {
      var half := Doubled(t.average, n - 1);
      var mid, end := start + half, start + half + half;
      HalvesEvenly(t, start, n - 1, draw);
      HalvesEvenly(t, mid, n - 1, draw);
      assert Middle(t, start, end, draw) == mid;
      TilesConcat(Offsets(t, start, mid, draw), Offsets(t, mid, end, draw), start, mid, end, t.average, t.average);
    }
  }

  lemma {:induction false} DoubledGrows(average: nat, n: nat)
    requires average >= 1
    ensures if n == 0 then Doubled(average, n) == average else Doubled(average, n) > average
  {
    if n > 0 { DoubledGrows(average, n - 1); }
  }

  /** A tiling by n slices of length low..high covers between n*low and n*high bytes. */
  lemma {:induction false} TilingLength(offs: seq<int>, start: int, end: int, low: nat, high: nat)
    requires Tiles(offs, start, end, low, high)
    ensures |offs| % 2 == 0 && |offs| / 2 >= 1
    ensures |offs| / 2 * low <= end - start <= |offs| / 2 * high
    decreases |offs|
  {
    if |offs| > 2 {
      TilingLength(offs[2..], offs[1], end, low, high);
      var n := |offs[2..]| / 2;
      assert |offs| / 2 == n + 1;
      assert (n + 1) * low == n * low + low && (n + 1) * high == n * high + high;
    } else {
      assert |offs| / 2 == 1;
    }
  }

  /** How many slices a packet of `len` bytes is cut into: one if it is short enough, otherwise at least
      two, and between len / (average + variation) and len / Least. */
  lemma SliceCount(t: SlicerToxic, len: nat, draw: Draws)
    ensures var n := |Offsets(t, 0, len, draw)| / 2;
      && (n == 1 <==> len <= t.average + t.variation)
      && len <= n * (t.average + t.variation)
      && (len > t.average + t.variation ==> n >= 2 && n * Least(t) <= len)
  {
    OffsetsTile(t, 0, len, draw, 0);
    var offs := Offsets(t, 0, len, draw);
    TilingLength(offs, 0, len, 0, t.average + t.variation);
    if len > t.average + t.variation {
      OffsetsTile(t, 0, len, draw, Least(t));
      TilingLength(offs, 0, len, Least(t), t.average + t.variation);
    }
  }

  /** The slices of `data` that the offsets describe. */
  function Pieces(data: Chunk, offs: seq<int>, start: nat, end: nat, high: nat): (ps: seq<Chunk>)
    requires end <= |data| && Tiles(offs, start, end, 0, high)
    ensures start <= end
    ensures |ps| == |offs| / 2 >= 1
    ensures Flatten(ps) == data[start..end]
    ensures forall i :: 0 <= i < |ps| ==> |ps[i]| <= high
    decreases |offs|
  {
    if |offs| == 2 then
      FlattenOne(data[start..end]);
      [data[start..end]]
    else
      var rest := Pieces(data, offs[2..], offs[1], end, high);
      assert data[start..end] == data[start..offs[1]] + data[offs[1]..end];
      [data[start..offs[1]]] + rest
  }

  /** The slices `Pipe` makes of one received chunk. */
  function Cut(t: SlicerToxic, data: Chunk, draw: Draws): (ps: seq<Chunk>)
    ensures |ps| >= 1
    ensures Flatten(ps) == data
  {
    OffsetsTile(t, 0, |data|, draw, 0);
    assert data[0..|data|] == data;
    Pieces(data, Offsets(t, 0, |data|, draw), 0, |data|, t.average + t.variation)
  }

  lemma FirstThen(first: Chunk, qs: seq<Chunk>, k: nat)
    requires k <= |qs|
    ensures ([first] + qs)[k] == if k == 0 then first else qs[k - 1]
    ensures Flatten(([first] + qs)[..k + 1]) == if k == 0 then first else first + Flatten(qs[..k])
  {
    hide Flatten;
    assert ([first] + qs)[..1] == [first];
    assert ([first] + qs)[..k + 1] == [first] + qs[..k];
    FlattenAppend([first], qs[..k]);
    FlattenOne(first);
  }

  lemma PiecesStep(data: Chunk, offs: seq<int>, start: nat, end: nat, high: nat)
    requires end <= |data| && Tiles(offs, start, end, 0, high)
    ensures |offs| >= 2 && 0 <= offs[0] == start <= offs[1] <= end
    ensures |offs| == 2 ==> Pieces(data, offs, start, end, high) == [data[start..offs[1]]]
    ensures |offs| > 2 ==>
      && Tiles(offs[2..], offs[1], end, 0, high)
      && Pieces(data, offs, start, end, high) == [data[start..offs[1]]] + Pieces(data, offs[2..], offs[1], end, high)
  {
    hide Flatten;
    if |offs| > 2 { TilingLength(offs[2..], offs[1], end, 0, high); }
  }

  /** Slice k lies between the offsets of pair k, and the slices up to it are the data up to its end. */
  ghost predicate PieceIsAt(data: Chunk, offs: seq<int>, start: nat, end: nat, ps: seq<Chunk>, k: nat) {
    && 2 * k + 1 < |offs| && k < |ps|
    && 0 <= start <= offs[2 * k] <= offs[2 * k + 1] <= end <= |data|
    && ps[k] == data[offs[2 * k]..offs[2 * k + 1]]
    && Flatten(ps[..k + 1]) == data[start..offs[2 * k + 1]]
  }

  lemma DropTwo(offs: seq<int>, i: nat)
    requires 2 <= i < |offs|
    ensures offs[2..][i - 2] == offs[i]
  {
  }

  lemma Joined(data: Chunk, a: nat, b: nat, c: nat)
    requires a <= b <= c <= |data|
    ensures data[a..b] + data[b..c] == data[a..c]
  {
  }

  lemma PieceAfter(data: Chunk, offs: seq<int>, start: nat, mid: nat, end: nat, qs: seq<Chunk>, k: nat)
    requires |offs| > 2 && k > 0 && start <= mid && PieceIsAt(data, offs[2..], mid, end, qs, k - 1)
    ensures PieceIsAt(data, offs, start, end, [data[start..mid]] + qs, k)
  {
    hide Flatten;
    DropTwo(offs, 2 * k);
    DropTwo(offs, 2 * k + 1);
    FirstThen(data[start..mid], qs, k);
    Joined(data, start, mid, offs[2 * k + 1]);
  }

  lemma {:induction false} PieceAt(data: Chunk, offs: seq<int>, start: nat, end: nat, high: nat, k: nat)
    requires end <= |data| && Tiles(offs, start, end, 0, high) && 2 * k + 1 < |offs|
    ensures PieceIsAt(data, offs, start, end, Pieces(data, offs, start, end, high), k)
    decreases |offs|
  {
    PiecesStep(data, offs, start, end, high);
    var first := data[start..offs[1]];
    var qs := if |offs| == 2 then [] else Pieces(data, offs[2..], offs[1], end, high);
    assert [first] + [] == [first];
    hide Flatten, Pieces, Tiles;
    if k == 0 {
      FirstThen(first, qs, 0);
    } else {
      PieceAt(data, offs[2..], offs[1], end, high, k - 1);
      hide PieceIsAt;
      PieceAfter(data, offs, start, offs[1], end, qs, k);
    }
  }

  lemma SliceAt(t: SlicerToxic, data: Chunk, draw: Draws, k: nat)
    requires 2 * k + 1 < |Offsets(t, 0, |data|, draw)|
    ensures var offs, ps := Offsets(t, 0, |data|, draw), Cut(t, data, draw);
      && k < |ps| && 0 <= offs[2 * k] <= offs[2 * k + 1] <= |data|
      && ps[k] == data[offs[2 * k]..offs[2 * k + 1]] && Flatten(ps[..k + 1]) == data[0..offs[2 * k + 1]]
  {
    hide Flatten, Offsets, Pieces, Tiles;
    OffsetsTile(t, 0, |data|, draw, 0);
    PieceAt(data, Offsets(t, 0, |data|, draw), 0, |data|, t.average + t.variation, k);
  }

  /** What an interrupt after slice k flushes are the slices still to come. */
  lemma FlushIsRest(t: SlicerToxic, data: Chunk, draw: Draws, k: nat)
    requires 2 * k + 1 < |Offsets(t, 0, |data|, draw)|
    ensures var offs, ps := Offsets(t, 0, |data|, draw), Cut(t, data, draw);
      && k < |ps| && 0 <= offs[2 * k + 1] <= |data|
      && Flatten(ps[k + 1..]) == data[offs[2 * k + 1]..]
  {
    hide Flatten, Offsets;
    SliceAt(t, data, draw, k);
    var ps, end := Cut(t, data, draw), Offsets(t, 0, |data|, draw)[2 * k + 1];
    assert ps[..k + 1] + ps[k + 1..] == ps;
    FlattenAppend(ps[..k + 1], ps[k + 1..]);
    assert data[end..] == (data[0..end] + Flatten(ps[k + 1..]))[end..];
  }

  /** The chunks sent for slices that are interrupted in the pause after slice number `stop`, if there is one. */
  function Emission(slices: seq<Chunk>, stop: nat): seq<Chunk> {
    if stop < |slices| then slices[..stop + 1] + [Flatten(slices[stop + 1..])] else slices
  }

  lemma EmissionAt(slices: seq<Chunk>, stop: nat)
    requires stop >= |slices|
    ensures Emission(slices, stop) == slices
  {
  }

  /** Whichever pause is interrupted, the chunks sent are the data. */
  lemma EmissionIsData(t: SlicerToxic, data: Chunk, draw: Draws, stop: nat)
    ensures Flatten(Emission(Cut(t, data, draw), stop)) == data
  {
    hide Flatten;
    var slices := Cut(t, data, draw);
    if stop < |slices| {
      var sent, rest := slices[..stop + 1], slices[stop + 1..];
      FlattenSnoc(sent, Flatten(rest));
      FlattenAppend(sent, rest);
      assert sent + rest == slices;
    }
  }

  datatype StreamChunk = StreamChunk(data: Chunk, timestamp: int)

  function StampAll(cs: seq<Chunk>, timestamp: int): seq<StreamChunk> {
    if cs == [] then [] else StampAll(cs[..|cs| - 1], timestamp) + [StreamChunk(cs[|cs| - 1], timestamp)]
  }

  lemma StampSnoc(cs: seq<Chunk>, c: Chunk, timestamp: int)
    ensures StampAll(cs + [c], timestamp) == StampAll(cs, timestamp) + [StreamChunk(c, timestamp)]
  {
    assert (cs + [c])[..|cs|] == cs;
  }

  lemma SliceIsSent(t: SlicerToxic, data: Chunk, timestamp: int, draw: Draws, n: nat)
    requires 2 * n + 1 < |Offsets(t, 0, |data|, draw)|
    ensures var offs, slices := Offsets(t, 0, |data|, draw), Cut(t, data, draw);
      && n < |slices| && 0 <= offs[2 * n] <= offs[2 * n + 1] <= |data|
      && StampAll(slices[..n + 1], timestamp) ==
         StampAll(slices[..n], timestamp) + [StreamChunk(data[offs[2 * n]..offs[2 * n + 1]], timestamp)]
  {
    hide Offsets, Cut, Flatten, StampAll;
    var slices := Cut(t, data, draw);
    SliceAt(t, data, draw, n);
    StampSnoc(slices[..n], slices[n], timestamp);
    assert slices[..n + 1] == slices[..n] + [slices[n]];
  }

  lemma RestIsFlushed(t: SlicerToxic, data: Chunk, timestamp: int, draw: Draws, n: nat)
    requires 2 * n + 1 < |Offsets(t, 0, |data|, draw)|
    ensures var offs, slices := Offsets(t, 0, |data|, draw), Cut(t, data, draw);
      && n < |slices| && 0 <= offs[2 * n + 1] <= |data|
      && StampAll(Emission(slices, n), timestamp) ==
         StampAll(slices[..n + 1], timestamp) + [StreamChunk(data[offs[2 * n + 1]..], timestamp)]
  {
    hide Offsets, Cut, Flatten, StampAll;
    var slices := Cut(t, data, draw);
    FlushIsRest(t, data, draw, n);
    StampSnoc(slices[..n + 1], Flatten(slices[n + 1..]), timestamp);
  }

  lemma OffsetsPerSlice(t: SlicerToxic, data: Chunk, draw: Draws)
    ensures |Offsets(t, 0, |data|, draw)| == 2 * |Cut(t, data, draw)|
  {
    OffsetsTile(t, 0, |data|, draw, 0);
    TilingLength(Offsets(t, 0, |data|, draw), 0, |data|, 0, t.average + t.variation);
  }

  /** One round of `Pipe`: send the slices of one chunk, pausing after each; the interrupt arrives in the
      pause after slice number `stop` (never, if there is no such slice) and flushes what is left in one piece.
      Every chunk sent has the timestamp of the one received. */
  method Emit(t: SlicerToxic, data: Chunk, timestamp: int, draw: Draws, stop: nat)
    returns (sent: seq<StreamChunk>, interrupted: bool)
    ensures sent == StampAll(Emission(Cut(t, data, draw), stop), timestamp)
    ensures interrupted <==> stop < |Cut(t, data, draw)|
  {
    var chunks := Offsets(t, 0, |data|, draw);
    ghost var slices := Cut(t, data, draw);
    OffsetsPerSlice(t, data, draw);
    sent := [];
    var i, n := 1, 0;
    assert slices[..0] == [] && StampAll([], timestamp) == [];
    hide Offsets, Cut, Flatten, StampAll, Emission;
    while i < |chunks|
      invariant i == 2 * n + 1 && n <= |slices| && n <= stop
      invariant sent == StampAll(slices[..n], timestamp)
    {
      SliceIsSent(t, data, timestamp, draw, n);
      sent := sent + [StreamChunk(data[chunks[i - 1]..chunks[i]], timestamp)];
      if n == stop {
        RestIsFlushed(t, data, timestamp, draw, n);
        return sent + [StreamChunk(data[chunks[i]..], timestamp)], true;
      }
      i, n := i + 2, n + 1;
    }
    assert slices[..n] == slices && Emission(slices, stop) == slices by { EmissionAt(slices, stop); }
    interrupted := false;
  }
}
