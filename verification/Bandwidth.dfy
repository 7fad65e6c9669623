/** toxics/bandwidth.go: the timing of an uninterrupted Pipe. Times are in nanoseconds, the rate is in
    bytes per millisecond (KB/s). */
module Bandwidth {
  import opened Bytes
  import opened Wrappers

  const MILLISECOND := 1_000_000
  const INTERVAL := 100 * MILLISECOND

  /** What the surroundings do to a run, event by event: how late timer n fires after its due time, how long
      send n blocks, and how long the wait for chunk n takes. */
  datatype World = World(late: nat -> nat, stall: nat -> nat, gap: nat -> nat)

  /** A send: when it was made, its bytes, and how many chunks had been received by then. */
  datatype Sent = Sent(at: int, data: Chunk, received: nat)

  function DataOf(log: seq<Sent>): (cs: seq<Chunk>)
    ensures |cs| == |log|
  {
    seq(|log|, i requires 0 <= i < |log| => log[i].data)
  }

  function Volume(log: seq<Sent>): nat {
    if log == [] then 0 else Volume(log[..|log| - 1]) + |log[|log| - 1].data|
  }

  /** The nanoseconds charged for a chunk: time.Duration(len) * time.Millisecond / time.Duration(rate). */
  function Charge(rate: nat, size: nat): nat
    requires rate > 0
  {
    size * MILLISECOND / rate
  }

  function Charges(rate: nat, chunks: seq<Chunk>): nat
    requires rate > 0
  {
    if chunks == [] then 0 else Charges(rate, chunks[..|chunks| - 1]) + Charge(rate, |chunks[|chunks| - 1]|)
  }

  /** At send k no more bytes have been sent than `rate` allows for the time since the run began, give or take
      one nanosecond's worth for each chunk received. */
  ghost predicate AllowedAt(log: seq<Sent>, rate: nat, k: nat)
    requires k < |log|
  {
    Volume(log[..k + 1]) * MILLISECOND <= rate * (log[k].at + log[k].received)
  }

  ghost predicate WithinRate(log: seq<Sent>, rate: nat) {
    forall k :: 0 <= k < |log| ==> AllowedAt(log, rate, k)
  }

  /** Send k is on record with its true time and with the chunk its bytes belong to. */
  ghost predicate RecordedAt(log: seq<Sent>, chunks: seq<Chunk>, now: int, k: nat)
    requires k < |log|
  {
    && log[k].at <= now && 1 <= log[k].received <= |chunks|
    && |Flatten(chunks[..log[k].received - 1])| <= Volume(log[..k + 1]) <= |Flatten(chunks[..log[k].received])|
  }

  ghost predicate Recorded(log: seq<Sent>, chunks: seq<Chunk>, now: int) {
    forall k :: 0 <= k < |log| ==> RecordedAt(log, chunks, now, k)
  }

  function Total(f: nat -> nat, n: nat): nat {
    if n == 0 then 0 else Total(f, n - 1) + f(n - 1)
  }

  /** The time of a run that is not for Pipe to choose: waiting for so many chunks, blocked in so many sends. */
  function Away(w: World, sends: nat, chunks: nat): nat {
    Total(w.stall, sends) + Total(w.gap, chunks)
  }

  /** The bytes that send k and the sends before it have sent of the chunk they belong to. */
  function SentOf(log: seq<Sent>, chunks: seq<Chunk>, k: nat): int
    requires k < |log| && 1 <= log[k].received <= |chunks|
  {
    Volume(log[..k + 1]) - |Flatten(chunks[..log[k].received - 1])|
  }

  /** When send k is due: the charges so far, on top of all waiting for chunks and all blocked sends before. */
  function Due(log: seq<Sent>, rate: nat, chunks: seq<Chunk>, w: World, k: nat): nat
    requires rate > 0 && k < |log| && 1 <= log[k].received <= |chunks| && SentOf(log, chunks, k) >= 0
  {
    Charges(rate, chunks[..log[k].received - 1]) + Charge(rate, SentOf(log, chunks, k)) + Away(w, k, log[k].received)
  }

  /** Send k is made when it is due, or late by no more than the timers so far together. */
  ghost predicate TimedAt(log: seq<Sent>, rate: nat, chunks: seq<Chunk>, w: World, k: nat)
    requires rate > 0 && k < |log|
  {
    && 1 <= log[k].received <= |chunks| && SentOf(log, chunks, k) >= 0
    && Due(log, rate, chunks, w, k) <= log[k].at <= Due(log, rate, chunks, w, k) + Total(w.late, k + 1)
  }

  ghost predicate Timed(log: seq<Sent>, rate: nat, chunks: seq<Chunk>, w: World)
    requires rate > 0
  {
    forall k :: 0 <= k < |log| ==> TimedAt(log, rate, chunks, w, k)
  }

  // ----- splitting -----

  /** A chunk in the pieces it is sent in: 100 ms worth of the rate each, and what is left. */
  function Pieces(rate: nat, c: Chunk): (ps: seq<Chunk>)
    requires rate > 0
    ensures |ps| >= 1
    decreases |c|
  {
    if |c| <= rate * 100 then [c] else [c[..rate * 100]] + Pieces(rate, c[rate * 100..])
  }

  function Tagged(ps: seq<Chunk>, received: nat): (ts: seq<(Chunk, nat)>)
    ensures |ts| == |ps|
  {
    seq(|ps|, j requires 0 <= j < |ps| => (ps[j], received))
  }

  /** The pieces of all chunks, each with the number of chunks received when it is sent. */
  function Split(rate: nat, chunks: seq<Chunk>): seq<(Chunk, nat)>
    requires rate > 0
  {
    if chunks == [] then []
    else Split(rate, chunks[..|chunks| - 1]) + Tagged(Pieces(rate, chunks[|chunks| - 1]), |chunks|)
  }

  function Labels(log: seq<Sent>): (ts: seq<(Chunk, nat)>)
    ensures |ts| == |log|
  {
    seq(|log|, k requires 0 <= k < |log| => (log[k].data, log[k].received))
  }

  lemma PiecesStep(rate: nat, p: Chunk)
    requires rate > 0 && (|Pieces(rate, p)| > 1 || |p| > rate * 100)
    ensures |p| > rate * 100 && Pieces(rate, p)[0] == p[..rate * 100]
    ensures Pieces(rate, p)[1..] == Pieces(rate, p[rate * 100..])
  {
  }

  /** Piece j is the bytes from j * rate * 100 on, rate * 100 of them but for the last piece. */
  lemma {:induction false} PieceIs(rate: nat, c: Chunk, j: nat)
    requires rate > 0 && j < |Pieces(rate, c)|
    ensures var ps, from := Pieces(rate, c), j * (rate * 100);
      && from <= |c| && (j > 0 ==> from < |c|)
      && if j + 1 < |ps| then from + rate * 100 < |c| && ps[j] == c[from..from + rate * 100]
         else |c| <= from + rate * 100 && ps[j] == c[from..]
    decreases |c|
  {
    var piece := rate * 100;
    if j == 0 {
      NoTimes(piece);
    } else {
      PiecesStep(rate, c);
      var rest, from := c[piece..], (j - 1) * piece;
      hide Pieces;
      PieceIs(rate, rest, j - 1);
      OnceMore(j, piece);
      SliceShifts(c, piece, from, |rest|);
      if j + 1 < |Pieces(rate, c)| { SliceShifts(c, piece, from, from + piece); }
    }
  }

  lemma NoTimes(n: int)
    ensures 0 * n == 0
  {
  }

  lemma OnceMore(j: int, n: int)
    ensures j * n == (j - 1) * n + n
  {
  }

  lemma SliceShifts(c: Chunk, n: nat, from: nat, to: nat)
    requires n <= |c| && from <= to <= |c| - n
    ensures c[n..][from..to] == c[from + n..to + n]
  {
  }

  lemma SplitSnoc(rate: nat, chunks: seq<Chunk>, n: nat)
    requires rate > 0 && n < |chunks|
    ensures Split(rate, chunks[..n + 1]) == Split(rate, chunks[..n]) + Tagged(Pieces(rate, chunks[n]), n + 1)
  {
    assert chunks[..n + 1][..n] == chunks[..n];
  }

  /** The first piece of p is sent. */
  lemma LabelsSnoc(log: seq<Sent>, x: Sent, ps: seq<Chunk>, all: seq<(Chunk, nat)>)
    requires ps != [] && x.data == ps[0] && Labels(log) + Tagged(ps, x.received) == all
    ensures Labels(log + [x]) + Tagged(ps[1..], x.received) == all
  {
    assert Tagged(ps, x.received) == [(x.data, x.received)] + Tagged(ps[1..], x.received);
    assert Labels(log + [x]) == Labels(log) + [(x.data, x.received)];
  }

  /** The first n chunks are sent, in their pieces. */
  ghost predicate SentSoFar(log: seq<Sent>, rate: nat, chunks: seq<Chunk>, n: nat)
    requires rate > 0 && n <= |chunks|
  {
    Labels(log) == Split(rate, chunks[..n]) && Flatten(DataOf(log)) == Flatten(chunks[..n])
  }

  /** Chunk n and those before it are sent, in their pieces, but for p. */
  ghost predicate SentBut(log: seq<Sent>, rate: nat, chunks: seq<Chunk>, n: nat, p: Chunk)
    requires rate > 0 && n < |chunks|
  {
    && Labels(log) + Tagged(Pieces(rate, p), n + 1) == Split(rate, chunks[..n + 1])
    && Flatten(DataOf(log)) + p == Flatten(chunks[..n + 1])
  }

  lemma PieceIsSent(log: seq<Sent>, x: Sent, rate: nat, chunks: seq<Chunk>, n: nat, p: Chunk)
    requires rate > 0 && n < |chunks| && SentBut(log, rate, chunks, n, p)
    requires |p| > rate * 100 && x.data == p[..rate * 100] && x.received == n + 1
    ensures SentBut(log + [x], rate, chunks, n, p[rate * 100..])
  {
    hide Flatten, Volume, Pieces, Split, Labels, Tagged, DataOf;
    PiecesStep(rate, p);
    LabelsSnoc(log, x, Pieces(rate, p), Split(rate, chunks[..n + 1]));
    LoggedData(log, x);
    TakenOff(Flatten(DataOf(log)), p, rate * 100);
  }

  lemma TakenOff(a: Chunk, p: Chunk, n: nat)
    requires n <= |p|
    ensures (a + p[..n]) + p[n..] == a + p
  {
    assert p[..n] + p[n..] == p;
  }

  lemma RestIsSent(log: seq<Sent>, x: Sent, rate: nat, chunks: seq<Chunk>, n: nat)
    requires rate > 0 && n < |chunks| && SentBut(log, rate, chunks, n, x.data)
    requires |x.data| <= rate * 100 && x.received == n + 1
    ensures SentSoFar(log + [x], rate, chunks, n + 1)
  {
    assert Pieces(rate, x.data) == [x.data] && Tagged([], n + 1) == [];
    hide Flatten, Volume, Pieces, Split, Labels;
    LabelsSnoc(log, x, [x.data], Split(rate, chunks[..n + 1]));
    LoggedData(log, x);
  }

  // ----- charges -----

  lemma ChargeCovers(rate: nat, size: nat)
    requires rate > 0
    ensures rate * Charge(rate, size) <= size * MILLISECOND < rate * (Charge(rate, size) + 1)
  {
    var x := size * MILLISECOND;
    assert x == rate * (x / rate) + x % rate;
    assert rate * (x / rate + 1) == rate * (x / rate) + rate;
  }

  lemma Cancel(rate: nat, a: int, b: int)
    requires rate > 0 && rate * a < rate * b
    ensures a < b
  {
    if a >= b {
      Monotone(rate, b, a);
    }
  }

  lemma Monotone(rate: nat, a: int, b: int)
    requires a <= b
    ensures rate * a <= rate * b
  {
    assert rate * (b - a) >= 0;
    assert rate * b == rate * a + rate * (b - a);
  }

  /** A send more keeps the rate if the total volume is within it. */
  lemma LoggedWithinRate(log: seq<Sent>, x: Sent, rate: nat)
    requires WithinRate(log, rate)
    requires (Volume(log) + |x.data|) * MILLISECOND <= rate * (x.at + x.received)
    ensures WithinRate(log + [x], rate)
  {
    hide Volume;
    var log' := log + [x];
    LoggedData(log, x);
    forall k | 0 <= k < |log'|
      ensures AllowedAt(log', rate, k)
    {
      if k < |log| {
        assert AllowedAt(log, rate, k);
        assert log'[..k + 1] == log[..k + 1];
      } else {
        assert log'[..k + 1] == log';
      }
    }
  }

  lemma LoggedData(log: seq<Sent>, x: Sent)
    ensures Volume(log + [x]) == Volume(log) + |x.data|
    ensures Flatten(DataOf(log + [x])) == Flatten(DataOf(log)) + x.data
  {
    assert (log + [x])[..|log|] == log;
    assert DataOf(log + [x]) == DataOf(log) + [x.data];
    FlattenSnoc(DataOf(log), x.data);
  }

  lemma RecordedOneMore(log: seq<Sent>, x: Sent, chunks: seq<Chunk>, before: int, now: int)
    requires Recorded(log, chunks, before) && before <= now && x.at <= now && 1 <= x.received <= |chunks|
    requires |Flatten(chunks[..x.received - 1])| <= Volume(log) + |x.data| <= |Flatten(chunks[..x.received])|
    ensures Recorded(log + [x], chunks, now)
  {
    hide Volume, Flatten;
    var log' := log + [x];
    LoggedData(log, x);
    forall k | 0 <= k < |log'|
      ensures RecordedAt(log', chunks, now, k)
    {
      if k < |log| {
        assert RecordedAt(log, chunks, before, k);
        assert log'[..k + 1] == log[..k + 1];
      } else {
        assert log'[..k + 1] == log';
      }
    }
  }

  lemma TimedOneMore(log: seq<Sent>, x: Sent, rate: nat, chunks: seq<Chunk>, w: World, sent: nat)
    requires rate > 0 && Timed(log, rate, chunks, w) && 1 <= x.received <= |chunks|
    requires Volume(log) + |x.data| == |Flatten(chunks[..x.received - 1])| + sent
    requires var due := Charges(rate, chunks[..x.received - 1]) + Charge(rate, sent) + Away(w, |log|, x.received);
      due <= x.at <= due + Total(w.late, |log| + 1)
    ensures Timed(log + [x], rate, chunks, w)
  {
    hide Volume, Flatten, Charges, Charge, Total, Away;
    var log' := log + [x];
    LoggedData(log, x);
    forall k | 0 <= k < |log'|
      ensures TimedAt(log', rate, chunks, w, k)
    {
      if k < |log| {
        assert TimedAt(log, rate, chunks, w, k);
        assert log'[..k + 1] == log[..k + 1];
      } else {
        assert log'[..k + 1] == log';
      }
    }
  }

  /** The charge of the pieces sent so far is the time they took. */
  lemma PiecesAreCharged(rate: nat, sent: nat, spent: nat)
    requires rate > 0 && rate * spent == sent * MILLISECOND
    ensures Charge(rate, sent) == spent
  {
    ChargeCovers(rate, sent);
    Cancel(rate, spent, Charge(rate, sent) + 1);
    assert rate * (spent + 1) == rate * spent + rate;
    Cancel(rate, Charge(rate, sent), spent + 1);
  }

  /** A piece of a split packet, sent `spent` nanoseconds after the chunk came: `due` are the charges of the
      chunks before it. */
  lemma PieceWithinRate(rate: nat, volume: nat, due: int, n: nat, spent: int, now: int)
    requires volume * MILLISECOND <= rate * (due + n + spent) && due + spent + INTERVAL <= now
    ensures (volume + rate * 100) * MILLISECOND <= rate * (due + n + (spent + INTERVAL))
    ensures (volume + rate * 100) * MILLISECOND <= rate * (now + (n + 1))
  {
    assert rate * (due + n + (spent + INTERVAL)) == rate * (due + n + spent) + rate * INTERVAL;
    Monotone(rate, due + n + (spent + INTERVAL), now + (n + 1));
  }

  lemma PieceIsPaidFor(rate: nat, sent: int, spent: int)
    requires rate * spent == sent * MILLISECOND
    ensures rate * (spent + INTERVAL) == (sent + rate * 100) * MILLISECOND
  {
    assert rate * (spent + INTERVAL) == rate * spent + rate * INTERVAL;
  }

  /** The rest of a chunk of `size` bytes, sent when its charge has been waited for. */
  lemma RestWithinRate(rate: nat, before: nat, size: nat, due: int, n: nat, now: int)
    requires rate > 0 && before * MILLISECOND <= rate * (due + n) && due + Charge(rate, size) <= now
    ensures (before + size) * MILLISECOND <= rate * (due + Charge(rate, size) + (n + 1))
    ensures (before + size) * MILLISECOND <= rate * (now + (n + 1))
  {
    ChargeCovers(rate, size);
    assert rate * (due + Charge(rate, size) + (n + 1)) == rate * (due + n) + rate * (Charge(rate, size) + 1);
    Monotone(rate, due + Charge(rate, size) + (n + 1), now + (n + 1));
  }

  /** The pieces sent so far never took longer than the whole chunk is charged for. */
  lemma SplittingIsPaidFor(rate: nat, size: nat, spent: int)
    requires rate > 0 && rate * spent <= size * MILLISECOND
    ensures spent <= Charge(rate, size)
  {
    ChargeCovers(rate, size);
    Cancel(rate, spent, Charge(rate, size) + 1);
  }

  /** The state of a run between two statements of Pipe: every send follows one timer. */
  datatype Run = Run(log: seq<Sent>, now: int, sleep: int)

  /** What the run has achieved once n chunks have been sent: the charges are covered by debt and time, and
      the sends by the charges. */
  ghost predicate Settled(r: Run, rate: nat, chunks: seq<Chunk>, n: nat, w: World)
    requires rate > 0 && n <= |chunks|
  {
    var due := Charges(rate, chunks[..n]);
    && r.sleep <= 0
    && due - r.sleep + Away(w, |r.log|, n) <= r.now <= due + Away(w, |r.log|, n) + Total(w.late, |r.log|)
    && Volume(r.log) == |Flatten(chunks[..n])|
    && Volume(r.log) * MILLISECOND <= rate * (due + n)
    && WithinRate(r.log, rate) && Recorded(r.log, chunks, r.now) && Timed(r.log, rate, chunks, w)
    && SentSoFar(r.log, rate, chunks, n)
  }

  /** While chunk n is being split: `spent` nanoseconds have gone into pieces of it, `left` bytes are left. */
  ghost predicate Paying(r: Run, rate: nat, chunks: seq<Chunk>, n: nat, left: nat, spent: int, w: World)
    requires rate > 0 && n < |chunks|
  {
    var due, charge := Charges(rate, chunks[..n]), Charge(rate, |chunks[n]|);
    var before, sent := |Flatten(chunks[..n])|, |chunks[n]| - left;
    && r.sleep <= charge - spent && spent >= 0
    && due + charge - r.sleep + Away(w, |r.log|, n + 1) <= r.now
    && r.now <= due + spent + Away(w, |r.log|, n + 1) + Total(w.late, |r.log|)
    && sent >= 0 && Volume(r.log) == before + sent && rate * spent == sent * MILLISECOND
    && before * MILLISECOND <= rate * (due + n)
    && Volume(r.log) * MILLISECOND <= rate * (due + n + spent)
    && before + |chunks[n]| == |Flatten(chunks[..n + 1])|
  }

  /** Chunk n is being split, and p is left of it. */
  ghost predicate Splitting(r: Run, rate: nat, chunks: seq<Chunk>, n: nat, p: Chunk, spent: int, w: World)
    requires rate > 0 && n < |chunks|
  {
    && Paying(r, rate, chunks, n, |p|, spent, w) && SentBut(r.log, rate, chunks, n, p)
    && WithinRate(r.log, rate) && Recorded(r.log, chunks, r.now) && Timed(r.log, rate, chunks, w)
  }

  lemma PiecePays(r: Run, rate: nat, chunks: seq<Chunk>, n: nat, left: nat, spent: int, w: World, x: Sent)
    requires rate > 0 && n < |chunks| && Paying(r, rate, chunks, n, left, spent, w)
    requires left > rate * 100 && |x.data| == rate * 100 && x.at == r.now + INTERVAL + w.late(|r.log|)
    ensures Paying(Run(r.log + [x], x.at + w.stall(|r.log|), r.sleep - INTERVAL), rate, chunks, n,
                   left - rate * 100, spent + INTERVAL, w)
  {
    hide Flatten, Volume, Charge, Charges;
    PieceWithinRate(rate, Volume(r.log), Charges(rate, chunks[..n]), n, spent, x.at);
    PieceIsPaidFor(rate, |chunks[n]| - left, spent);
    LoggedData(r.log, x);
  }

  lemma PieceOnRecord(r: Run, rate: nat, chunks: seq<Chunk>, n: nat, p: Chunk, spent: int, w: World, x: Sent)
    requires rate > 0 && n < |chunks| && Splitting(r, rate, chunks, n, p, spent, w)
    requires |p| > rate * 100 && |x.data| == rate * 100 && x.received == n + 1
    requires x.at == r.now + INTERVAL + w.late(|r.log|)
    ensures WithinRate(r.log + [x], rate) && Recorded(r.log + [x], chunks, x.at + w.stall(|r.log|))
    ensures Timed(r.log + [x], rate, chunks, w)
  {
    hide Flatten, Volume, Charge, Charges, SentBut, WithinRate, Recorded, Timed;
    var sent := |chunks[n]| - |p| + rate * 100;
    PieceWithinRate(rate, Volume(r.log), Charges(rate, chunks[..n]), n, spent, x.at);
    PieceIsPaidFor(rate, |chunks[n]| - |p|, spent);
    LoggedWithinRate(r.log, x, rate);
    RecordedOneMore(r.log, x, chunks, r.now, x.at + w.stall(|r.log|));
    PiecesAreCharged(rate, sent, spent + INTERVAL);
    TimedOneMore(r.log, x, rate, chunks, w, sent);
  }

  /** One 100 ms interval of the splitting loop. */
  method SendPiece(rate: nat, p: Chunk, ghost chunks: seq<Chunk>, n: nat, r: Run, w: World, ghost spent: int)
    returns (r': Run, p': Chunk)
    requires rate > 0 && n < |chunks| && |p| > rate * 100 && Splitting(r, rate, chunks, n, p, spent, w)
    ensures |p'| == |p| - rate * 100
    ensures Splitting(r', rate, chunks, n, p', spent + INTERVAL, w)
  {
    hide Paying, SentBut, WithinRate, Recorded, Timed;
    var at := r.now + INTERVAL + w.late(|r.log|);
    var x := Sent(at, p[..rate * 100], n + 1);
    PieceIsSent(r.log, x, rate, chunks, n, p);
    PiecePays(r, rate, chunks, n, |p|, spent, w, x);
    PieceOnRecord(r, rate, chunks, n, p, spent, w, x);
    r', p' := Run(r.log + [x], at + w.stall(|r.log|), r.sleep - INTERVAL), p[rate * 100..];
  }

  /** Waiting out the debt and sending what is left of chunk n. */
  method SendRest(rate: nat, p: Chunk, ghost chunks: seq<Chunk>, n: nat, r: Run, w: World, ghost spent: int)
    returns (r': Run)
    requires rate > 0 && n < |chunks| && |p| <= rate * 100 && Splitting(r, rate, chunks, n, p, spent, w)
    ensures Settled(r', rate, chunks, n + 1, w)
  {
    var at := r.now + Max(r.sleep, 0) + w.late(|r.log|);
    var x := Sent(at, p, n + 1);
    hide Flatten, Volume, SentBut, SentSoFar, WithinRate, Recorded, Timed;
    RestIsSent(r.log, x, rate, chunks, n);
    SplittingIsPaidFor(rate, |chunks[n]|, spent);
    RestWithinRate(rate, |Flatten(chunks[..n])|, |chunks[n]|, Charges(rate, chunks[..n]), n, at);
    LoggedWithinRate(r.log, x, rate);
    LoggedData(r.log, x);
    RecordedOneMore(r.log, x, chunks, r.now, at + w.stall(|r.log|));
    TimedOneMore(r.log, x, rate, chunks, w, |chunks[n]|);
    ChargesSnoc(rate, chunks, n);
    r' := Run(r.log + [x], at + w.stall(|r.log|), r.sleep - (at - r.now));
  }

  lemma ChargesSnoc(rate: nat, chunks: seq<Chunk>, n: nat)
    requires rate > 0 && n < |chunks|
    ensures Charges(rate, chunks[..n + 1]) == Charges(rate, chunks[..n]) + Charge(rate, |chunks[n]|)
    ensures Flatten(chunks[..n + 1]) == Flatten(chunks[..n]) + chunks[n]
  {
    assert chunks[..n + 1] == chunks[..n] + [chunks[n]];
    assert chunks[..n + 1][..n] == chunks[..n];
    FlattenSnoc(chunks[..n], chunks[n]);
  }

  lemma RecordedLater(log: seq<Sent>, chunks: seq<Chunk>, before: int, now: int)
    requires Recorded(log, chunks, before) && before <= now
    ensures Recorded(log, chunks, now)
  {
    assert forall k :: 0 <= k < |log| && RecordedAt(log, chunks, before, k) ==> RecordedAt(log, chunks, now, k);
  }

  /** Every send is timed, and the whole run takes the charges of all chunks, on top of the waiting for them and
      the blocked sends, and what the timers were late. */
  ghost predicate InTime(r: Run, rate: nat, chunks: seq<Chunk>, w: World)
    requires rate > 0
  {
    var due := Charges(rate, chunks) + Away(w, |r.log|, |chunks|);
    Timed(r.log, rate, chunks, w) && due <= r.now <= due + Total(w.late, |r.log|)
  }

  /** Pipe over the chunks of a whole run. The debt `sleep` is carried from chunk to chunk; it is negative
      when timers were late. Time spent waiting for a chunk or in a send earns nothing. */
  method Pipe(rate: nat, chunks: seq<Chunk>, w: World) returns (r: Run)
    requires rate > 0
    ensures Flatten(DataOf(r.log)) == Flatten(chunks)
    ensures WithinRate(r.log, rate) && Recorded(r.log, chunks, r.now) && InTime(r, rate, chunks, w)
    ensures Labels(r.log) == Split(rate, chunks)
  {
    r := Run([], 0, 0);
    assert chunks[..0] == [] && chunks[..|chunks|] == chunks;
    assert Split(rate, []) == [] && Labels([]) == [];
    hide Charge, Charges, Flatten, Volume, Splitting, Paying, Split, Labels;
    for n := 0 to |chunks|
      invariant Settled(r, rate, chunks, n, w)
    {
      hide Settled;
      ghost var before, spent := r, 0;
      var p := chunks[n];
      r := r.(now := r.now + w.gap(n), sleep := r.sleep + Charge(rate, |p|));
      ChunkComes(before, rate, chunks, n, w);
      while |p| > rate * 100
        invariant Splitting(r, rate, chunks, n, p, spent, w)
      {
        r, p := SendPiece(rate, p, chunks, n, r, w, spent);
        spent := spent + INTERVAL;
      }
      r := SendRest(rate, p, chunks, n, r, w, spent);
    }
  }

  /** Chunk n is received after its gap, and charged. */
  lemma ChunkComes(r: Run, rate: nat, chunks: seq<Chunk>, n: nat, w: World)
    requires rate > 0 && n < |chunks| && Settled(r, rate, chunks, n, w)
    ensures Splitting(r.(now := r.now + w.gap(n), sleep := r.sleep + Charge(rate, |chunks[n]|)),
                      rate, chunks, n, chunks[n], 0, w)
  {
    ChargesSnoc(rate, chunks, n);
    SplitSnoc(rate, chunks, n);
    RecordedLater(r.log, chunks, r.now, r.now + w.gap(n));
    hide Charge, Charges, Volume, WithinRate, Recorded, Timed;
  }

  lemma {:induction false} NothingLate(f: nat -> nat, n: nat)
    requires forall k: nat :: f(k) == 0
    ensures Total(f, n) == 0
  {
    if n > 0 {
      NothingLate(f, n - 1);
    }
  }

  /** With exact timers every send of a run is made when it is due, and a run whose output never blocks waits,
      beside waiting for chunks, exactly the sum of the charges. */
  lemma ExactTimers(r: Run, rate: nat, chunks: seq<Chunk>, w: World)
    requires rate > 0 && InTime(r, rate, chunks, w) && forall k: nat :: w.late(k) == 0
    ensures forall k :: 0 <= k < |r.log| ==>
      && 1 <= r.log[k].received <= |chunks| && SentOf(r.log, chunks, k) >= 0
      && r.log[k].at == Due(r.log, rate, chunks, w, k)
    ensures r.now == Charges(rate, chunks) + Total(w.gap, |chunks|) + Total(w.stall, |r.log|)
    ensures (forall k: nat :: w.stall(k) == 0) ==> r.now - Total(w.gap, |chunks|) == Charges(rate, chunks)
  {
    hide Volume, Charge, Charges;
    NothingLate(w.late, |r.log|);
    forall k | 0 <= k < |r.log|
      ensures TimedAt(r.log, rate, chunks, w, k) && r.log[k].at == Due(r.log, rate, chunks, w, k)
    {
      assert TimedAt(r.log, rate, chunks, w, k);
      NothingLate(w.late, k + 1);
    }
    if forall k: nat :: w.stall(k) == 0 {
      NothingLate(w.stall, |r.log|);
    }
  }

  // ----- when the pieces are sent -----

  /** The number of the first send of chunk n. */
  function First(rate: nat, chunks: seq<Chunk>, n: nat): nat
    requires rate > 0 && n <= |chunks|
  {
    |Split(rate, chunks[..n])|
  }

  lemma {:induction false} SplitAt(rate: nat, chunks: seq<Chunk>, n: nat, j: nat)
    requires rate > 0 && n < |chunks| && j < |Pieces(rate, chunks[n])|
    ensures var k := First(rate, chunks, n) + j;
      k < |Split(rate, chunks)| && Split(rate, chunks)[k] == (Pieces(rate, chunks[n])[j], n + 1)
    decreases |chunks|
  {
    var m := |chunks| - 1;
    assert chunks[..m + 1] == chunks;
    SplitSnoc(rate, chunks, m);
    if n < m {
      SplitAt(rate, chunks[..m], n, j);
      assert chunks[..m][..n] == chunks[..n];
    }
  }

  lemma FirstNext(rate: nat, chunks: seq<Chunk>, n: nat)
    requires rate > 0 && n < |chunks|
    ensures First(rate, chunks, n + 1) == First(rate, chunks, n) + |Pieces(rate, chunks[n])|
    ensures First(rate, chunks, 0) == 0
  {
    SplitSnoc(rate, chunks, n);
  }

  /** The bytes that the first j sends of a chunk carry. */
  function Upto(rate: nat, c: Chunk, j: nat): nat
    requires rate > 0 && j <= |Pieces(rate, c)|
  {
    if j < |Pieces(rate, c)| then j * (rate * 100) else |c|
  }

  lemma UptoNext(rate: nat, c: Chunk, j: nat)
    requires rate > 0 && j <= |Pieces(rate, c)|
    ensures Upto(rate, c, 0) == 0
    ensures j > 0 ==> Upto(rate, c, j) == Upto(rate, c, j - 1) + |Pieces(rate, c)[j - 1]|
  {
    if j > 0 {
      PieceIs(rate, c, j - 1);
      assert j * (rate * 100) == (j - 1) * (rate * 100) + rate * 100;
    }
  }

  lemma SendAt(log: seq<Sent>, rate: nat, chunks: seq<Chunk>, n: nat, j: nat)
    requires rate > 0 && Labels(log) == Split(rate, chunks) && n < |chunks| && j < |Pieces(rate, chunks[n])|
    ensures var k := First(rate, chunks, n) + j;
      k < |log| && log[k].data == Pieces(rate, chunks[n])[j] && log[k].received == n + 1
  {
    SplitAt(rate, chunks, n, j);
    hide Split;
    assert Labels(log)[First(rate, chunks, n) + j] == (Pieces(rate, chunks[n])[j], n + 1);
  }

  lemma {:induction false} VolumeAt(log: seq<Sent>, rate: nat, chunks: seq<Chunk>, n: nat, j: nat)
    requires rate > 0 && Labels(log) == Split(rate, chunks) && n < |chunks| && j <= |Pieces(rate, chunks[n])|
    ensures var k := First(rate, chunks, n) + j;
      k <= |log| && Volume(log[..k]) == |Flatten(chunks[..n])| + Upto(rate, chunks[n], j)
    decreases n, j
  {
    hide Flatten, Split, Labels, Upto, Pieces, First;
    UptoNext(rate, chunks[n], j);
    if j > 0 {
      var k := First(rate, chunks, n) + j - 1;
      VolumeAt(log, rate, chunks, n, j - 1);
      SendAt(log, rate, chunks, n, j - 1);
      assert log[..k + 1][..k] == log[..k];
    } else if n > 0 {
      FirstNext(rate, chunks, n - 1);
      VolumeAt(log, rate, chunks, n - 1, |Pieces(rate, chunks[n - 1])|);
      WholeUpto(rate, chunks[n - 1]);
      ChargesSnoc(rate, chunks, n - 1);
    } else {
      FirstNext(rate, chunks, 0);
      assert Flatten(chunks[..0]) == [] by { FlattenNothing(chunks[..0]); }
      assert log[..0] == [];
    }
  }

  lemma FlattenNothing(cs: seq<Chunk>)
    requires cs == []
    ensures Flatten(cs) == []
  {
  }

  /** When the loop takes chunk n: its gap after the last send of the chunks before it has gone through. */
  function ReceivedAt(log: seq<Sent>, rate: nat, chunks: seq<Chunk>, w: World, n: nat): int
    requires rate > 0 && n < |chunks| && First(rate, chunks, n) <= |log|
  {
    var k := First(rate, chunks, n);
    (if k == 0 then 0 else log[k - 1].at + w.stall(k - 1)) + w.gap(n)
  }

  lemma DueAt(r: Run, rate: nat, chunks: seq<Chunk>, w: World, n: nat, j: nat)
    requires rate > 0 && InTime(r, rate, chunks, w) && Labels(r.log) == Split(rate, chunks)
    requires forall k: nat :: w.late(k) == 0
    requires n < |chunks| && j < |Pieces(rate, chunks[n])|
    ensures var k := First(rate, chunks, n) + j;
      && k < |r.log|
      && r.log[k].at == Charges(rate, chunks[..n]) + Charge(rate, Upto(rate, chunks[n], j + 1)) + Away(w, k, n + 1)
  {
    hide Volume, Charge, Charges, Flatten, Split, Pieces, Away;
    SendAt(r.log, rate, chunks, n, j);
    VolumeAt(r.log, rate, chunks, n, j + 1);
    ExactTimers(r, rate, chunks, w);
    assert SentOf(r.log, chunks, First(rate, chunks, n) + j) == Upto(rate, chunks[n], j + 1);
  }

  /** With exact timers and an output that does not block, piece j of a chunk is sent (j + 1) * 100 ms after the
      chunk was received, and the last one when the chunk's charge is over. */
  lemma PieceTimes(r: Run, rate: nat, chunks: seq<Chunk>, w: World, n: nat, j: nat)
    requires rate > 0 && InTime(r, rate, chunks, w) && Labels(r.log) == Split(rate, chunks)
    requires (forall k: nat :: w.late(k) == 0) && (forall k: nat :: w.stall(k) == 0)
    requires n < |chunks| && j < |Pieces(rate, chunks[n])|
    ensures var k := First(rate, chunks, n) + j;
      && k < |r.log| && r.log[k].data == Pieces(rate, chunks[n])[j] && r.log[k].received == n + 1
      && r.log[k].at - ReceivedAt(r.log, rate, chunks, w, n) ==
         if j + 1 < |Pieces(rate, chunks[n])| then (j + 1) * INTERVAL else Charge(rate, |chunks[n]|)
  {
    hide Charge, Charges, Flatten, Split, Pieces, Upto, First, ReceivedAt, InTime;
    SendAt(r.log, rate, chunks, n, j);
    DueAt(r, rate, chunks, w, n, j);
    ReceivedWhen(r, rate, chunks, w, n);
    NothingLate(w.stall, First(rate, chunks, n) + j);
    UptoCharged(rate, chunks[n], j);
  }

  lemma UptoCharged(rate: nat, c: Chunk, j: nat)
    requires rate > 0 && j < |Pieces(rate, c)|
    ensures Charge(rate, Upto(rate, c, j + 1)) ==
            if j + 1 < |Pieces(rate, c)| then (j + 1) * INTERVAL else Charge(rate, |c|)
  {
    hide Charge, Pieces;
    if j + 1 < |Pieces(rate, c)| {
      Scaled(rate, j + 1);
      PiecesAreCharged(rate, (j + 1) * (rate * 100), (j + 1) * INTERVAL);
    }
  }

  lemma Scaled(rate: nat, j: nat)
    ensures rate * (j * INTERVAL) == (j * (rate * 100)) * MILLISECOND
  {
    assert j * INTERVAL == INTERVAL * j && j * (rate * 100) == 100 * (rate * j);
    assert rate * (INTERVAL * j) == INTERVAL * (rate * j);
  }

  lemma ReceivedWhen(r: Run, rate: nat, chunks: seq<Chunk>, w: World, n: nat)
    requires rate > 0 && InTime(r, rate, chunks, w) && Labels(r.log) == Split(rate, chunks)
    requires (forall k: nat :: w.late(k) == 0) && (forall k: nat :: w.stall(k) == 0)
    requires n < |chunks|
    ensures First(rate, chunks, n) <= |r.log|
    ensures ReceivedAt(r.log, rate, chunks, w, n) == Charges(rate, chunks[..n]) + Total(w.gap, n + 1)
  {
    hide Charge, Charges, Flatten, Split, Pieces, Upto, InTime;
    var m := First(rate, chunks, n);
    if n > 0 {
      FirstNext(rate, chunks, n - 1);
      WholeUpto(rate, chunks[n - 1]);
      DueAt(r, rate, chunks, w, n - 1, |Pieces(rate, chunks[n - 1])| - 1);
      ChargesSnoc(rate, chunks, n - 1);
      NothingLate(w.stall, m - 1);
    } else {
      FirstNext(rate, chunks, 0);
      assert Charges(rate, chunks[..0]) == 0 by { NoCharges(rate, chunks[..0]); }
    }
  }

  lemma WholeUpto(rate: nat, c: Chunk)
    requires rate > 0
    ensures Upto(rate, c, |Pieces(rate, c)|) == |c|
  {
  }

  lemma NoCharges(rate: nat, chunks: seq<Chunk>)
    requires rate > 0 && chunks == []
    ensures Charges(rate, chunks) == 0
  {
  }

  /** No send is longer than 100 ms worth, and one that is followed by another of the same chunk is as long. */
  lemma SendsAreSplit(log: seq<Sent>, rate: nat, chunks: seq<Chunk>, n: nat, j: nat)
    requires rate > 0 && Labels(log) == Split(rate, chunks) && n < |chunks| && j < |Pieces(rate, chunks[n])|
    ensures var k, c, from := First(rate, chunks, n) + j, chunks[n], j * (rate * 100);
      && k < |log| && log[k].received == n + 1 && from <= |c|
      && log[k].data == c[from..Min(from + rate * 100, |c|)]
      && (if from + rate * 100 < |c| then k + 1 < |log| && log[k + 1].received == n + 1
          else k + 1 == First(rate, chunks, n + 1))
  {
    hide Split;
    SendAt(log, rate, chunks, n, j);
    PieceIs(rate, chunks[n], j);
    FirstNext(rate, chunks, n);
    if j + 1 < |Pieces(rate, chunks[n])| {
      SendAt(log, rate, chunks, n, j + 1);
    }
  }
}
