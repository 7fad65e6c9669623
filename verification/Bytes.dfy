/** Byte streams: chunks, their concatenation, and the subsequence order on them. */
module Bytes {

  type Byte = bv8
  type Chunk = seq<Byte>

  /** The bytes of a list of chunks, first chunk first. */
  function Flatten(cs: seq<Chunk>): Chunk {
    if cs == [] then [] else cs[0] + Flatten(cs[1..])
  }

  lemma {:induction false} FlattenAppend(a: seq<Chunk>, b: seq<Chunk>)
    ensures Flatten(a + b) == Flatten(a) + Flatten(b)
  {
    if a == [] {
      assert a + b == b;
    } else {
      assert (a + b)[1..] == a[1..] + b;
      FlattenAppend(a[1..], b);
    }
  }

  lemma FlattenOne(c: Chunk)
    ensures Flatten([c]) == c
  {
    assert [c][1..] == [];
  }

  lemma FlattenSnoc(a: seq<Chunk>, c: Chunk)
    ensures Flatten(a + [c]) == Flatten(a) + c
  {
    FlattenAppend(a, [c]);
    FlattenOne(c);
  }

  /** `a` is `b` with some bytes left out: same order, no byte twice. */
  ghost predicate Subseq(a: Chunk, b: Chunk) {
    a == [] ||
    (b != [] && ((a[0] == b[0] && Subseq(a[1..], b[1..])) || Subseq(a, b[1..])))
  }

  lemma {:induction false} SubseqRefl(a: Chunk)
    ensures Subseq(a, a)
  {
    if a != [] {
      SubseqRefl(a[1..]);
    }
  }

  lemma {:induction false} SubseqPrefix(p: Chunk, a: Chunk, b: Chunk)
    requires Subseq(a, b)
    ensures Subseq(p + a, p + b)
  {
    if p == [] {
      assert p + a == a && p + b == b;
    } else {
      SubseqPrefix(p[1..], a, b);
      assert (p + a)[1..] == p[1..] + a && (p + b)[1..] == p[1..] + b;
    }
  }

  lemma {:induction false} SubseqSkip(d: Chunk, a: Chunk, b: Chunk)
    requires Subseq(a, b)
    ensures Subseq(a, d + b)
  {
    if d == [] {
      assert d + b == b;
    } else {
      SubseqSkip(d[1..], a, b);
      assert (d + b)[1..] == d[1..] + b;
    }
  }

  lemma {:induction false} SubseqAppend(a: Chunk, b: Chunk, x: Chunk)
    requires Subseq(a, b)
    ensures Subseq(a + x, b + x)
  {
    if a == [] {
      SubseqRefl(x);
      SubseqSkip(b, x, x);
      assert a + x == x;
    } else {
      assert (a + x)[1..] == a[1..] + x && (b + x)[1..] == b[1..] + x;
      if a[0] == b[0] && Subseq(a[1..], b[1..]) {
        SubseqAppend(a[1..], b[1..], x);
      } else {
        SubseqAppend(a, b[1..], x);
      }
    }
  }

  lemma {:induction false} SubseqTrans(a: Chunk, b: Chunk, c: Chunk)
    requires Subseq(a, b) && Subseq(b, c)
    ensures Subseq(a, c)
    decreases |b| + |c|
  {
    if a != [] {
      if b[0] == c[0] && Subseq(b[1..], c[1..]) {
        if a[0] == b[0] && Subseq(a[1..], b[1..]) {
          SubseqTrans(a[1..], b[1..], c[1..]);
        } else {
          SubseqTrans(a, b[1..], c[1..]);
        }
      } else {
        SubseqTrans(a, b, c[1..]);
      }
    }
  }

  /** Leaving out the middle part `d` gives a subsequence. */
  lemma SubseqDrop(p: Chunk, d: Chunk, q: Chunk)
    ensures Subseq(p + q, p + (d + q))
  {
    SubseqRefl(q);
    SubseqSkip(d, q, q);
    SubseqPrefix(p, q, d + q);
  }

  /** A pipeline's contents part by part, the part nearest to the output last: the bytes in stream order. */
  function InOrder(ps: seq<Chunk>): Chunk {
    if ps == [] then [] else ps[|ps| - 1] + InOrder(ps[..|ps| - 1])
  }

  lemma {:induction false} InOrderAppend(a: seq<Chunk>, b: seq<Chunk>)
    ensures InOrder(a + b) == InOrder(b) + InOrder(a)
  {
    if b == [] {
      assert a + b == a;
    } else {
      var c := b[..|b| - 1];
      assert (a + b)[..|a + b| - 1] == a + c;
      InOrderAppend(a, c);
    }
  }

  lemma InOrderSnoc(a: seq<Chunk>, c: Chunk)
    ensures InOrder(a + [c]) == c + InOrder(a)
  {
    assert (a + [c])[..|a|] == a;
  }

  lemma InOrderBetween(a: seq<Chunk>, c: Chunk, b: seq<Chunk>)
    ensures InOrder(a + [c] + b) == InOrder(b) + (c + InOrder(a))
  {
    hide InOrder;
    InOrderAppend(a + [c], b);
    InOrderSnoc(a, c);
  }

  lemma CutAfter(ps: seq<Chunk>, i: nat)
    requires i < |ps|
    ensures ps[..i + 1] == ps[..i] + [ps[i]]
    ensures ps[..i + 1] + ps[i + 1..] == ps
  {
  }

  lemma InOrderSplit(ps: seq<Chunk>, i: nat)
    requires i < |ps|
    ensures InOrder(ps) == InOrder(ps[i + 1..]) + (ps[i] + InOrder(ps[..i]))
  {
    hide InOrder;
    CutAfter(ps, i);
    InOrderAppend(ps[..i + 1], ps[i + 1..]);
    InOrderSnoc(ps[..i], ps[i]);
  }

  /** Bytes enter at the upstream end. */
  lemma InOrderGrows(ps: seq<Chunk>, c: Chunk)
    requires ps != []
    ensures InOrder(ps[0 := ps[0] + c]) == InOrder(ps) + c
  {
    var qs := ps[0 := ps[0] + c];
    InOrderSplit(ps, 0);
    InOrderSplit(qs, 0);
    assert qs[1..] == ps[1..] && InOrder(qs[..0]) == [] && InOrder(ps[..0]) == [];
  }

  /** Bytes are left out of one part. */
  lemma InOrderShrinks(ps: seq<Chunk>, i: nat, x: Chunk)
    requires i < |ps| && Subseq(x, ps[i])
    ensures Subseq(InOrder(ps[i := x]), InOrder(ps))
  {
    var qs := ps[i := x];
    InOrderSplit(ps, i);
    InOrderSplit(qs, i);
    assert qs[i + 1..] == ps[i + 1..] && qs[..i] == ps[..i];
    SubseqAppend(x, ps[i], InOrder(ps[..i]));
    SubseqPrefix(InOrder(ps[i + 1..]), x + InOrder(ps[..i]), ps[i] + InOrder(ps[..i]));
  }

  lemma MovesBetween(a: seq<Chunk>, h: Chunk, y: Chunk, x: Chunk, b: seq<Chunk>)
    ensures InOrder(a + [y] + [x + h] + b) == InOrder(a + [h + y] + [x] + b)
  {
    hide InOrder;
    InOrderBetween(a + [y], x + h, b);
    InOrderSnoc(a, y);
    InOrderBetween(a + [h + y], x, b);
    InOrderSnoc(a, h + y);
    assert (x + h) + (y + InOrder(a)) == x + ((h + y) + InOrder(a));
  }

  /** Bytes move from the front of one part to the back of the next. */
  lemma InOrderMoves(ps: seq<Chunk>, i: nat, h: Chunk, y: Chunk)
    requires i + 1 < |ps| && ps[i] == h + y
    ensures InOrder(ps[i := y][i + 1 := ps[i + 1] + h]) == InOrder(ps)
  {
    hide InOrder;
    var a, x, b := ps[..i], ps[i + 1], ps[i + 2..];
    assert ps == a + [h + y] + [x] + b;
    assert ps[i := y][i + 1 := x + h] == a + [y] + [x + h] + b;
    MovesBetween(a, h, y, x, b);
  }

  /** As before, but only h' of h arrives. */
  lemma InOrderPasses(ps: seq<Chunk>, i: nat, h: Chunk, h': Chunk, y: Chunk)
    requires i + 1 < |ps| && ps[i] == h + y && Subseq(h', h)
    ensures Subseq(InOrder(ps[i := y][i + 1 := ps[i + 1] + h']), InOrder(ps))
  {
    var qs := ps[i := y][i + 1 := ps[i + 1] + h];
    InOrderMoves(ps, i, h, y);
    SubseqPrefix(ps[i + 1], h', h);
    InOrderShrinks(qs, i + 1, ps[i + 1] + h');
    assert qs[i + 1 := ps[i + 1] + h'] == ps[i := y][i + 1 := ps[i + 1] + h'];
  }

  /** An empty part makes no difference. */
  lemma InOrderSkips(a: seq<Chunk>, b: seq<Chunk>)
    ensures InOrder(a + [[]] + b) == InOrder(a + b)
  {
    InOrderAppend(a + [[]], b);
    InOrderAppend(a, b);
    assert (a + [[]])[..|a|] == a;
  }

  lemma {:induction false} InOrderEmpty(ps: seq<Chunk>)
    requires forall i :: 0 <= i < |ps| ==> ps[i] == []
    ensures InOrder(ps) == []
  {
    if ps != [] {
      InOrderEmpty(ps[..|ps| - 1]);
    }
  }

  lemma InOrderStops(ps: seq<Chunk>, r: nat)
    requires r <= |ps| && forall i :: r <= i < |ps| ==> ps[i] == []
    ensures InOrder(ps) == InOrder(ps[..r])
  {
    assert ps == ps[..r] + ps[r..];
    InOrderAppend(ps[..r], ps[r..]);
    InOrderEmpty(ps[r..]);
  }

  /** Bytes leave at the output end, below which only empty parts are left. */
  lemma InOrderTop(ps: seq<Chunk>, qs: seq<Chunk>, r: nat, h: Chunk)
    requires r < |ps| == |qs| && ps[..r] == qs[..r] && ps[r] == h + qs[r]
    ensures InOrder(ps[..r + 1]) == h + InOrder(qs[..r + 1])
  {
    assert ps[..r + 1][..r] == ps[..r] && qs[..r + 1][..r] == qs[..r];
    assert (h + qs[r]) + InOrder(ps[..r]) == h + (qs[r] + InOrder(ps[..r]));
  }
}
