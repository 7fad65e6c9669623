/** What toxic_collection.go promises of the names of a proxy's toxics: two ordered lists, one a direction. */
module ToxicLists {
  import opened Wrappers

  datatype Direction = Upstream | Downstream

  datatype Error = InvalidStream | InvalidToxicType | ToxicAlreadyExists | ToxicNotFound | BadRequestBody

  /** A request to add a toxic: whether the body decodes at all, what ParseDirection makes of `stream`, whether
      the type is registered, and the attributes, if they decode. */
  datatype Request = Request(decodes: bool, name: string, kind: string, stream: string, toxicity: real,
                             direction: Option<Direction>, known: bool, attributes: Option<string>)

  /** A request to update a toxic: whether its body decodes, the toxicity in it, and the attributes it leaves
      the toxic with, which a body that fails to decode may have changed in part. */
  datatype Change = Change(decodes: bool, toxicity: Option<real>, attributes: Option<string>)

  datatype Call = Add(r: Request) | Update(name: string, u: Change) | Remove(name: string) | Reset

  datatype Lists = Lists(up: seq<string>, down: seq<string>)

  function NameOf(r: Request): string {
    if r.name == "" then r.kind + "_" + r.stream else r.name
  }

  predicate Found(l: Lists, name: string) {
    name in l.up || name in l.down
  }

  /** Why a request to add is refused, in the order of the checks. */
  function AddError(l: Lists, r: Request): Option<Error> {
    if !r.decodes then Some(BadRequestBody)
    else if r.direction.None? then Some(InvalidStream)
    else if !r.known then Some(InvalidToxicType)
    else if Found(l, NameOf(r)) then Some(ToxicAlreadyExists)
    else if r.attributes.None? then Some(BadRequestBody)
    else None
  }

  function Appended(l: Lists, d: Direction, name: string): Lists {
    match d
    case Upstream => l.(up := l.up + [name])
    case Downstream => l.(down := l.down + [name])
  }

  function Without(s: seq<string>, name: string): seq<string> {
    if s == [] then []
    else Without(s[..|s| - 1], name) + if s[|s| - 1] == name then [] else [s[|s| - 1]]
  }

  function Apply(l: Lists, c: Call): Lists {
    match c
    case Add(r) => if AddError(l, r).None? then Appended(l, r.direction.value, NameOf(r)) else l
    case Update(_, _) => l
    case Remove(name) => Lists(Without(l.up, name), Without(l.down, name))
    case Reset => Lists([], [])
  }

  function ApplyAll(calls: seq<Call>): Lists {
    if calls == [] then Lists([], []) else Apply(ApplyAll(calls[..|calls| - 1]), calls[|calls| - 1])
  }

  ghost predicate NoDuplicates(s: seq<string>) {
    forall i, j :: 0 <= i < j < |s| ==> s[i] != s[j]
  }

  /** No name is used twice, in one direction or across both. */
  ghost predicate Distinct(l: Lists) {
    NoDuplicates(l.up) && NoDuplicates(l.down) && forall name :: name in l.up ==> name !in l.down
  }

  /** x stands before y. */
  ghost predicate Before(s: seq<string>, x: string, y: string) {
    exists i, j :: 0 <= i < j < |s| && s[i] == x && s[j] == y
  }

  lemma {:induction false} WithoutKeepsOthers(s: seq<string>, name: string, x: string)
    ensures x in Without(s, name) <==> x in s && x != name
  {
    if s != [] {
      WithoutKeepsOthers(s[..|s| - 1], name, x);
      assert s == s[..|s| - 1] + [s[|s| - 1]];
    }
  }

  /** The survivors of a removal keep their order. */
  lemma {:induction false} WithoutKeepsOrder(s: seq<string>, name: string, x: string, y: string)
    requires x != name && y != name
    ensures Before(Without(s, name), x, y) <==> Before(s, x, y)
  {
    if s != [] {
      var p, z := s[..|s| - 1], s[|s| - 1];
      WithoutKeepsOrder(p, name, x, y);
      WithoutKeepsOthers(p, name, x);
      BeforeSnoc(p, z, x, y);
      BeforeSnoc(Without(p, name), z, x, y);
      assert p + [z] == s;
      assert Without(p, name) + [] == Without(p, name);
    }
  }

  lemma BeforeSnoc(s: seq<string>, z: string, x: string, y: string)
    ensures Before(s + [z], x, y) <==> Before(s, x, y) || (z == y && x in s)
  {
    var t := s + [z];
    if Before(t, x, y) {
      var i, j :| 0 <= i < j < |t| && t[i] == x && t[j] == y;
      assert s[i] == x;
      if j < |s| {
        assert s[j] == y;
      }
    }
    if Before(s, x, y) {
      var i, j :| 0 <= i < j < |s| && s[i] == x && s[j] == y;
      assert t[i] == x && t[j] == y;
    }
    if z == y && x in s {
      var i :| 0 <= i < |s| && s[i] == x;
      assert t[i] == x && t[|s|] == y;
    }
  }

  /** Cutting a name out at the index where it stands is removing it. */
  lemma {:induction false} WithoutIsCut(s: seq<string>, k: nat)
    requires k < |s| && NoDuplicates(s)
    ensures Without(s, s[k]) == s[..k] + s[k + 1..]
  {
    var p := s[..|s| - 1];
    if k == |s| - 1 {
      WithoutNothing(p, s[k]);
    } else {
      assert NoDuplicates(p) && p[k] == s[k];
      WithoutIsCut(p, k);
      assert s[k + 1..] == p[k + 1..] + [s[|s| - 1]];
    }
  }

  lemma {:induction false} WithoutNothing(s: seq<string>, name: string)
    requires name !in s
    ensures Without(s, name) == s
  {
    if s != [] {
      WithoutNothing(s[..|s| - 1], name);
    }
  }

  lemma {:induction false} WithoutIsDistinct(s: seq<string>, name: string)
    requires NoDuplicates(s)
    ensures NoDuplicates(Without(s, name))
  {
    if s != [] {
      var p := s[..|s| - 1];
      WithoutIsDistinct(p, name);
      WithoutKeepsOthers(p, name, s[|s| - 1]);
    }
  }

  lemma ApplyKeepsDistinct(l: Lists, c: Call)
    requires Distinct(l)
    ensures Distinct(Apply(l, c))
  {
    if c.Remove? {
      WithoutIsDistinct(l.up, c.name);
      WithoutIsDistinct(l.down, c.name);
      forall x | x in Without(l.up, c.name)
        ensures x !in Without(l.down, c.name)
      {
        WithoutKeepsOthers(l.up, c.name, x);
        WithoutKeepsOthers(l.down, c.name, x);
      }
    }
  }

  /** Whatever is called, no name is ever used twice. */
  lemma {:induction false} NamesStayDistinct(calls: seq<Call>)
    ensures Distinct(ApplyAll(calls))
  {
    if calls != [] {
      NamesStayDistinct(calls[..|calls| - 1]);
      ApplyKeepsDistinct(ApplyAll(calls[..|calls| - 1]), calls[|calls| - 1]);
    }
  }

  /** A request to add a toxic of this name that nothing but a name in use can refuse. */
  predicate Adds(c: Call, name: string) {
    c.Add? && c.r.decodes && c.r.direction.Some? && c.r.known && c.r.attributes.Some? && NameOf(c.r) == name
  }

  predicate Drops(c: Call, name: string) {
    c.Reset? || c == Remove(name)
  }

  lemma ApplyFinds(l: Lists, c: Call, name: string)
    ensures Found(Apply(l, c), name) <==> Adds(c, name) || (Found(l, name) && !Drops(c, name))
  {
    if c.Remove? {
      WithoutKeepsOthers(l.up, c.name, name);
      WithoutKeepsOthers(l.down, c.name, name);
    }
  }

  /** The request at i adds the toxic, and no later one removes it. */
  ghost predicate AddedLast(calls: seq<Call>, name: string, i: nat) {
    i < |calls| && Adds(calls[i], name) && forall j :: i < j < |calls| ==> !Drops(calls[j], name)
  }

  /** A toxic is found exactly when some request added it and no later one removed it. */
  lemma {:induction false} FoundExactlyWhenAdded(calls: seq<Call>, name: string)
    ensures Found(ApplyAll(calls), name) <==> exists i :: AddedLast(calls, name, i)
  {
    if calls != [] {
      var n, p := |calls| - 1, calls[..|calls| - 1];
      FoundExactlyWhenAdded(p, name);
      ApplyFinds(ApplyAll(p), calls[n], name);
      assert Adds(calls[n], name) <==> AddedLast(calls, name, n);
      forall i: nat | i < n
        ensures AddedLast(calls, name, i) <==> AddedLast(p, name, i) && !Drops(calls[n], name)
      {
        assert forall j :: i <= j < n ==> calls[j] == p[j];
      }
    }
  }
}
