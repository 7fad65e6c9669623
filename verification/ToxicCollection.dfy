/** toxic_collection.go: the toxics of a proxy, one chain of wrappers per direction. */
module ToxicCollection {
  import opened ToxicLists
  import opened Wrappers

  /** Name, type and direction are settled before a wrapper is put in a chain. */
  class ToxicWrapper {
    const name: string
    const kind: string
    const direction: Direction
    var attributes: string
    var toxicity: real
    var index: int

    constructor (name: string, kind: string, attributes: string, toxicity: real, direction: Direction)
      ensures this.name == name && this.kind == kind && this.attributes == attributes
      ensures this.toxicity == toxicity && this.direction == direction && this.index == 0
    {
      this.name, this.kind, this.direction := name, kind, direction;
      this.attributes, this.toxicity, this.index := attributes, toxicity, 0;
    }
  }

  type Chain = seq<ToxicWrapper>

  function Slot(d: Direction): nat {
    if d.Upstream? then 0 else 1
  }

  /** The names in a chain after its hidden noop. */
  ghost function NamesOf(c: Chain): seq<string>
    requires |c| >= 1
  {
    seq(|c| - 1, i requires 0 <= i < |c| - 1 => c[i + 1].name)
  }

  /** Entry 0 is the noop, and every other entry has the direction of its chain. */
  ghost predicate Shaped(c: Chain, noop: ToxicWrapper, d: Direction) {
    |c| >= 1 && c[0] == noop && forall i :: 1 <= i < |c| ==> c[i] != noop && c[i].direction == d
  }

  /** Every entry but the noop caches its own position. */
  ghost predicate Numbered(c: Chain)
    reads c
  {
    forall i :: 1 <= i < |c| ==> c[i].index == i
  }

  lemma NamesAt(c: Chain, i: nat)
    requires 1 <= i < |c|
    ensures |NamesOf(c)| == |c| - 1 && NamesOf(c)[i - 1] == c[i].name && c[i].name in NamesOf(c)
  {
    assert NamesOf(c)[i - 1] == c[i].name;
  }

  lemma NoEntryTwice(c: Chain, noop: ToxicWrapper, d: Direction)
    requires Shaped(c, noop, d) && NoDuplicates(NamesOf(c))
    ensures forall i, j :: 0 <= i < j < |c| ==> c[i] != c[j]
  {
    forall i, j | 0 <= i < j < |c|
      ensures c[i] != c[j]
    {
      if i >= 1 {
        NamesAt(c, i);
        NamesAt(c, j);
      }
    }
  }

  lemma NamesOfAppended(c: Chain, t: ToxicWrapper)
    requires |c| >= 1
    ensures NamesOf(c + [t]) == NamesOf(c) + [t.name]
  {
  }

  lemma NamesOfCut(c: Chain, k: nat)
    requires 1 <= k < |c| && NoDuplicates(NamesOf(c))
    ensures NamesOf(c[..k] + c[k + 1..]) == Without(NamesOf(c), c[k].name)
  {
    NamesAt(c, k);
    WithoutIsCut(NamesOf(c), k - 1);
    assert NamesOf(c[..k] + c[k + 1..]) == NamesOf(c)[..k - 1] + NamesOf(c)[k..];
  }

  /** What is left of a chain keeps its shape. */
  lemma CutShape(c: Chain, k: nat, noop: ToxicWrapper, d: Direction)
    requires Shaped(c, noop, d) && 1 <= k < |c|
    ensures Shaped(c[..k] + c[k + 1..], noop, d)
  {
  }

  lemma CutEntries(c: Chain, k: nat)
    requires k < |c| && c[k] !in c[..k] + c[k + 1..]
    ensures forall t :: t in c[..k] + c[k + 1..] <==> t in c && t != c[k]
  {
    assert c == c[..k] + [c[k]] + c[k + 1..];
  }

  /** Where names are not repeated, cutting an entry of one chain out removes its name from both. */
  lemma CutNames(c: Chain, k: nat, other: Chain)
    requires 1 <= k < |c| && |other| >= 1 && NoDuplicates(NamesOf(c))
    requires forall name :: name in NamesOf(c) ==> name !in NamesOf(other)
    ensures NamesOf(c[..k] + c[k + 1..]) == Without(NamesOf(c), c[k].name)
    ensures NamesOf(other) == Without(NamesOf(other), c[k].name)
  {
    NamesAt(c, k);
    NamesOfCut(c, k);
    WithoutNothing(NamesOf(other), c[k].name);
  }

  ghost function ListsOf(chain: seq<Chain>): Lists
    requires |chain| == 2 && |chain[0]| >= 1 && |chain[1]| >= 1
  {
    Lists(NamesOf(chain[0]), NamesOf(chain[1]))
  }

  /** Both chains are in shape and no name is used twice. */
  ghost predicate Fits(chain: seq<Chain>, noop: ToxicWrapper) {
    && |chain| == 2
    && Shaped(chain[0], noop, Upstream) && Shaped(chain[1], noop, Downstream)
    && Distinct(ListsOf(chain))
  }

  lemma AppendFits(chain: seq<Chain>, noop: ToxicWrapper, t: ToxicWrapper)
    requires Fits(chain, noop) && t != noop && !Found(ListsOf(chain), t.name)
    ensures var d := Slot(t.direction); var chain' := chain[d := chain[d] + [t]];
      && Fits(chain', noop) && ListsOf(chain') == Appended(ListsOf(chain), t.direction, t.name)
    ensures t !in chain[0] && t !in chain[1]
  {
    NamesOfAppended(chain[Slot(t.direction)], t);
    forall e, i | 0 <= e < 2 && 1 <= i < |chain[e]|
      ensures chain[e][i] != t
    {
      NamesAt(chain[e], i);
    }
  }

  lemma CutFits(chain: seq<Chain>, noop: ToxicWrapper, t: ToxicWrapper, k: nat)
    requires Fits(chain, noop)
    requires var c := chain[Slot(t.direction)]; 1 <= k < |c| && c[k] == t
    ensures var d := Slot(t.direction); var chain' := chain[d := chain[d][..k] + chain[d][k + 1..]];
      && Fits(chain', noop) && ListsOf(chain') == Apply(ListsOf(chain), Remove(t.name))
  {
    var d := Slot(t.direction);
    CutShape(chain[d], k, noop, t.direction);
    CutNames(chain[d], k, chain[1 - d]);
    ApplyKeepsDistinct(ListsOf(chain), Remove(t.name));
  }

  /** The entry cut out is in no chain any more, and the two chains share only the noop. */
  lemma CutApart(chain: seq<Chain>, noop: ToxicWrapper, t: ToxicWrapper, k: nat)
    requires Fits(chain, noop)
    requires var c := chain[Slot(t.direction)]; 1 <= k < |c| && c[k] == t
    ensures var d := Slot(t.direction); var rest, other := chain[d][..k] + chain[d][k + 1..], chain[1 - d];
      && (forall i, j :: 0 <= i < j < |rest| ==> rest[i] != rest[j]) && t !in rest
      && t !in other && forall i :: 1 <= i < |other| ==> other[i] !in chain[d]
  {
    NoEntryTwice(chain[Slot(t.direction)], noop, t.direction);
  }

  // ----- the links of the proxy's connections -----

  /** What a link is called to do: AddToxic, UpdateToxic and RemoveToxic, at a place of the chain. */
  datatype LinkCall = Append(t: ToxicWrapper) | Replace(k: nat, t: ToxicWrapper) | Cut(k: nat)

  /** A link: its direction, the chain when it was started, and the calls it has got since, oldest first. */
  datatype ToxicLink = ToxicLink(direction: Direction, start: Chain, calls: seq<LinkCall>)

  /** The chain that a call means; none if its place is not in the chain or is the noop's. */
  function Changed(c: Chain, call: LinkCall): Option<Chain> {
    match call
    case Append(t) => Some(c + [t])
    case Replace(k, t) => if 1 <= k < |c| then Some(c[k := t]) else None
    case Cut(k) => if 1 <= k < |c| then Some(c[..k] + c[k + 1..]) else None
  }

  function Followed(start: Chain, calls: seq<LinkCall>): Option<Chain> {
    if calls == [] then Some(start)
    else
      var c := Followed(start, calls[..|calls| - 1]);
      if c.None? then None else Changed(c.value, calls[|calls| - 1])
  }

  /** Every link, whenever it was started, has got exactly the calls that lead from its chain to the present
      one, each with a place in range. */
  ghost predicate AllFollow(links: map<string, ToxicLink>, chain: seq<Chain>)
    requires |chain| == 2
  {
    forall n :: n in links ==> Followed(links[n].start, links[n].calls) == Some(chain[Slot(links[n].direction)])
  }

  function Called(l: ToxicLink, d: Direction, call: LinkCall): ToxicLink {
    if l.direction == d then l.(calls := l.calls + [call]) else l
  }

  ghost function AllCalled(links: map<string, ToxicLink>, d: Direction, call: LinkCall): map<string, ToxicLink> {
    map n | n in links :: Called(links[n], d, call)
  }

  /** When the chain of one direction changes and all its links are called accordingly, they still follow. */
  lemma CallsFollow(links: map<string, ToxicLink>, chain: seq<Chain>, d: Direction, call: LinkCall, c: Chain)
    requires |chain| == 2 && AllFollow(links, chain) && Changed(chain[Slot(d)], call) == Some(c)
    ensures AllFollow(AllCalled(links, d, call), chain[Slot(d) := c])
  {
    forall n | n in links
      ensures var l := Called(links[n], d, call);
        Followed(l.start, l.calls) == Some(chain[Slot(d) := c][Slot(l.direction)])
    {
      assert (links[n].calls + [call])[..|links[n].calls|] == links[n].calls;
    }
  }

  /** Toxic t is cut out of its chain at place k, and all links of its direction are called to do the same. */
  ghost predicate CutEverywhere(chain: seq<Chain>, chain': seq<Chain>, links: map<string, ToxicLink>,
                                links': map<string, ToxicLink>, t: ToxicWrapper, k: nat) {
    var d := Slot(t.direction);
    && |chain| == 2 && 1 <= k < |chain[d]| && chain[d][k] == t
    && chain' == chain[d := chain[d][..k] + chain[d][k + 1..]]
    && links' == AllCalled(links, t.direction, Cut(k))
  }

  class ToxicCollection {
    const noop: ToxicWrapper
    var chain: seq<Chain>
    var links: map<string, ToxicLink>

    ghost function Toxics(): set<ToxicWrapper>
      reads this
    {
      if |chain| == 2 then set t | t in chain[0] + chain[1] else {}
    }

    ghost predicate Valid()
      reads this, Toxics()
    {
      Fits(chain, noop) && Numbered(chain[0]) && Numbered(chain[1]) && AllFollow(links, chain)
    }

    ghost function Names(): Lists
      requires Fits(chain, noop)
      reads this
    {
      ListsOf(chain)
    }

    /** Toxic t stands in its chain, where its Index says. */
    ghost predicate In(t: ToxicWrapper)
      reads this, t
    {
      |chain| == 2 && 1 <= t.index < |chain[Slot(t.direction)]| && chain[Slot(t.direction)][t.index] == t
    }

    constructor ()
      ensures Valid() && fresh(noop) && chain == [[noop], [noop]] && links == map[]
      ensures Names() == Lists([], [])
    {
      noop := new ToxicWrapper("", "noop", "", 0.0, Upstream);
      chain, links := [[noop], [noop]], map[];
    }

    /** A new link begins with the chain of its direction; one of the same name is forgotten. */
    method StartLink(name: string, direction: Direction)
      requires Valid()
      modifies this`links
      ensures Valid() && links == old(links)[name := ToxicLink(direction, chain[Slot(direction)], [])]
    {
      links := links[name := ToxicLink(direction, chain[Slot(direction)], [])];
    }

    method RemoveLink(name: string)
      requires Valid()
      modifies this`links
      ensures Valid() && links == old(links) - {name}
    {
      links := links - {name};
    }

    /** Calls all links of a direction, in any order, and returns when all have answered. */
    method CallLinks(d: Direction, call: LinkCall)
      modifies this`links
      ensures links == AllCalled(old(links), d, call)
    {
      ghost var before := links;
      var left := links.Keys;
      while left != {}
        invariant links.Keys == before.Keys && left <= links.Keys
        invariant forall n :: n in links ==> links[n] == if n in left then before[n] else Called(before[n], d, call)
        decreases |left|
      {
        var n :| n in left;
        links := links[n := Called(links[n], d, call)];
        left := left - {n};
      }
    }

    method FindToxicByName(name: string) returns (t: ToxicWrapper?)
      requires Valid()
      ensures t != null ==> In(t) && t.name == name
      ensures t == null <==> !Found(Names(), name)
    {
      for d := 0 to 2
        invariant forall e :: 0 <= e < d ==> name !in NamesOf(chain[e])
      {
        for i := 1 to |chain[d]|
          invariant forall j :: 1 <= j < i ==> chain[d][j].name != name
        {
          if chain[d][i].name == name {
            NamesAt(chain[d], i);
            return chain[d][i];
          }
        }
        assert forall i :: 0 <= i < |chain[d]| - 1 ==> NamesOf(chain[d])[i] == chain[d][i + 1].name;
      }
      return null;
    }

    method ChainAddToxic(t: ToxicWrapper)
      requires Valid() && t != noop && !Found(Names(), t.name)
      modifies this`chain, this`links, t`index
      ensures Valid() && In(t)
      ensures Names() == Appended(old(Names()), t.direction, t.name)
      ensures var d := Slot(t.direction); chain == old(chain)[d := old(chain)[d] + [t]]
      ensures links == AllCalled(old(links), t.direction, Append(t))
    {
      hide AllFollow, AllCalled, Distinct;
      var d := Slot(t.direction);
      AppendFits(chain, noop, t);
      CallsFollow(links, chain, t.direction, Append(t), chain[d] + [t]);
      t.index := |chain[d]|;
      chain := chain[d := chain[d] + [t]];
      CallLinks(t.direction, Append(t));
    }

    method ChainUpdateToxic(t: ToxicWrapper)
      requires Valid() && In(t)
      modifies this`chain, this`links
      ensures Valid() && chain == old(chain)
      ensures links == AllCalled(old(links), t.direction, Replace(t.index, t))
    {
      hide AllFollow, AllCalled;
      var d := Slot(t.direction);
      assert chain[d][t.index := t] == chain[d] && chain[d := chain[d]] == chain;
      CallsFollow(links, chain, t.direction, Replace(t.index, t), chain[d]);
      chain := chain[d := chain[d][t.index := t]];
      CallLinks(t.direction, Replace(t.index, t));
    }

    /** The toxics after the removed one move up by one. */
    method Renumber(c: Chain, k: nat)
      requires 1 <= k <= |c| && forall i, j :: 0 <= i < j < |c| ==> c[i] != c[j]
      requires forall i :: 1 <= i < k ==> c[i].index == i
      modifies (set t | t in c)`index
      ensures Numbered(c)
    {
      for i := k to |c|
        invariant forall j :: 1 <= j < i ==> c[j].index == j
      {
        c[i].index := i;
      }
    }

    method ChainRemoveToxic(t: ToxicWrapper)
      requires Valid() && In(t)
      modifies this`chain, this`links, (set u | u in chain[Slot(t.direction)])`index
      ensures Valid() && t.index == -1 && Toxics() == old(Toxics()) - {t}
      ensures Names() == Apply(old(Names()), Remove(t.name))
      ensures var d := Slot(t.direction);
        && old(In(t))
        && chain == old(chain)[d := old(chain)[d][..old(t.index)] + old(chain)[d][old(t.index) + 1..]]
        && links == AllCalled(old(links), t.direction, Cut(old(t.index)))
    {
      hide Distinct, NoDuplicates, NamesOf, Without, AllFollow, AllCalled;
      var d, k := Slot(t.direction), t.index;
      var c := chain[d];
      var rest := c[..k] + c[k + 1..];
      CutFits(chain, noop, t, k);
      CutApart(chain, noop, t, k);
      CallsFollow(links, chain, t.direction, Cut(k), rest);
      chain := chain[d := rest];
      Renumber(rest, k);
      CallLinks(t.direction, Cut(k));
      t.index := -1;
      assert Numbered(rest);
      assert Numbered(chain[1 - d]);
      CutEntries(c, k);
    }

    /** The added toxic goes to the end of its chain; a refused request changes nothing. */
    method AddToxicJson(r: Request) returns (result: Result<ToxicWrapper, Error>)
      requires Valid()
      modifies this`chain, this`links
      ensures Valid() && Names() == Apply(old(Names()), Add(r))
      ensures result == Err(InvalidStream) <==> r.decodes && r.direction.None?
      ensures result == Err(InvalidToxicType) <==> r.decodes && r.direction.Some? && !r.known
      ensures var name := if r.name == "" then r.kind + "_" + r.stream else r.name;
        var used := name in old(Names()).up || name in old(Names()).down;
        && (result == Err(ToxicAlreadyExists) <==> r.decodes && r.direction.Some? && r.known && used)
        && (result == Err(BadRequestBody) <==>
              !r.decodes || (r.direction.Some? && r.known && !used && r.attributes.None?))
        && (result.Ok? ==> result.value.name == name)
      ensures result.Err? ==> result.error != ToxicNotFound && chain == old(chain)
      ensures links == if result.Err? then old(links)
                       else AllCalled(old(links), result.value.direction, Append(result.value))
      ensures fresh(Toxics() - old(Toxics()))
      ensures result.Ok? ==> var t := result.value; var d := Slot(t.direction);
        && fresh(t) && In(t) && chain == old(chain)[d := old(chain)[d] + [t]]
        && t.kind == r.kind && Some(t.attributes) == r.attributes
        && t.toxicity == r.toxicity && Some(t.direction) == r.direction
    {
      if !r.decodes {
        return Err(BadRequestBody);
      }
      if r.direction.None? {
        return Err(InvalidStream);
      }
      var name := if r.name == "" then r.kind + "_" + r.stream else r.name;
      if !r.known {
        return Err(InvalidToxicType);
      }
      var found := FindToxicByName(name);
      if found != null {
        return Err(ToxicAlreadyExists);
      }
      if r.attributes.None? {
        return Err(BadRequestBody);
      }
      var t := new ToxicWrapper(name, r.kind, r.attributes.value, r.toxicity, r.direction.value);
      ChainAddToxic(t);
      return Ok(t);
    }

    /** Only attributes and toxicity of the named toxic change: no update moves or renames a toxic. A body that
        fails to decode leaves the toxicity. */
    method UpdateToxicJson(name: string, u: Change) returns (result: Result<ToxicWrapper, Error>)
      requires Valid()
      modifies this`chain, this`links, Toxics()`attributes, Toxics()`toxicity
      ensures Valid() && chain == old(chain) && Names() == Apply(old(Names()), Update(name, u))
      ensures !Found(Names(), name) ==> result == Err(ToxicNotFound)
      ensures Found(Names(), name) && !u.decodes ==> result == Err(BadRequestBody)
      ensures Found(Names(), name) && u.decodes ==> result.Ok? && In(result.value) && result.value.name == name
      ensures links == if result.Err? then old(links)
                       else AllCalled(old(links), result.value.direction, Replace(result.value.index, result.value))
      ensures forall t :: t in Toxics() && (t == noop || t.name != name) ==> unchanged(t)
      ensures forall t :: t in Toxics() && t != noop && t.name == name ==>
        && t.attributes == (if u.attributes.Some? then u.attributes.value else old(t.attributes))
        && t.toxicity == (if u.decodes && u.toxicity.Some? then u.toxicity.value else old(t.toxicity))
    {
      var t := FindToxicByName(name);
      NamedOnce(t, name);
      if t == null {
        return Err(ToxicNotFound);
      }
      t.attributes := if u.attributes.Some? then u.attributes.value else t.attributes;
      if !u.decodes {
        return Err(BadRequestBody);
      }
      t.toxicity := if u.toxicity.Some? then u.toxicity.value else t.toxicity;
      ChainUpdateToxic(t);
      return Ok(t);
    }

    /** At most one visible toxic has a name. */
    lemma NamedOnce(t: ToxicWrapper?, name: string)
      requires Valid() && (t == null <==> !Found(Names(), name)) && (t != null ==> In(t) && t.name == name)
      ensures forall u :: u in Toxics() && u != noop && u.name == name ==> u == t
    {
      forall d, i | 0 <= d < 2 && 1 <= i < |chain[d]| && chain[d][i].name == name
        ensures chain[d][i] == t
      {
        NamesAt(chain[d], i);
        NamesAt(chain[Slot(t.direction)], t.index);
      }
      forall u | u in Toxics() && u != noop && u.name == name
        ensures u == t
      {
        var d :| 0 <= d < 2 && u in chain[d];
        var i :| 0 <= i < |chain[d]| && chain[d][i] == u;
      }
    }

    method RemoveToxic(name: string) returns (error: Option<Error>)
      requires Valid()
      modifies this`chain, this`links, Toxics()`index
      ensures Valid() && Names() == Apply(old(Names()), Remove(name)) && !Found(Names(), name)
      ensures error == if old(Found(Names(), name)) then None else Some(ToxicNotFound)
      ensures error.Some? ==> chain == old(chain) && links == old(links)
      ensures error.None? ==>
        exists t, k :: t in old(Toxics()) && t.name == name && CutEverywhere(old(chain), chain, old(links), links, t, k)
      ensures Toxics() <= old(Toxics())
      ensures forall t :: t in old(Toxics()) && t !in Toxics() ==> t.name == name && t.index == -1
    {
      var t := FindToxicByName(name);
      ApplyFinds(Names(), Remove(name), name);
      if t == null {
        WithoutNothing(Names().up, name);
        WithoutNothing(Names().down, name);
        return Some(ToxicNotFound);
      }
      ghost var k := t.index;
      ChainRemoveToxic(t);
      assert t in old(Toxics()) && CutEverywhere(old(chain), chain, old(links), links, t, k);
      return None;
    }

    /** The inner loop ends because each removal shortens the chain it looks at. */
    method ResetToxics()
      requires Valid()
      modifies this`chain, this`links, Toxics()`index
      ensures Valid() && chain == [[noop], [noop]] && Names() == Apply(old(Names()), Reset)
      ensures links.Keys == old(links).Keys
      ensures Toxics() <= old(Toxics())
      ensures forall t :: t in old(Toxics()) && t != noop ==> t.index == -1
    {
      hide Distinct, NoDuplicates, Without;
      for d := 0 to 2
        invariant Valid()
        invariant Toxics() <= old(Toxics()) && links.Keys == old(links).Keys
        invariant forall e :: 0 <= e < d ==> chain[e] == [noop]
        invariant forall t :: t in old(Toxics()) && t !in Toxics() ==> t.index == -1
      {
        while |chain[d]| > 1
          invariant Valid()
          invariant Toxics() <= old(Toxics()) && links.Keys == old(links).Keys
          invariant forall e :: 0 <= e < d ==> chain[e] == [noop]
          invariant forall t :: t in old(Toxics()) && t !in Toxics() ==> t.index == -1
          decreases |chain[d]|
        {
          ChainRemoveToxic(chain[d][1]);
        }
      }
    }
  }

  // ----- any run -----

  datatype Event = Request(call: Call) | Connects(link: string, direction: Direction) | Closes(link: string)

  /** The requests among the events. */
  function Requests(events: seq<Event>): seq<Call> {
    if events == [] then []
    else
      var e := events[|events| - 1];
      Requests(events[..|events| - 1]) + if e.Request? then [e.call] else []
  }

  function ApplyEvent(l: Lists, e: Event): Lists {
    if e.Request? then Apply(l, e.call) else l
  }

  lemma ApplyNext(events: seq<Event>, i: nat)
    requires i < |events|
    ensures ApplyAll(Requests(events[..i + 1])) == ApplyEvent(ApplyAll(Requests(events[..i])), events[i])
  {
    var calls := Requests(events[..i]);
    assert events[..i + 1][..i] == events[..i];
    if events[i].Request? {
      assert (calls + [events[i].call])[..|calls|] == calls;
    } else {
      assert calls + [] == calls;
    }
  }

  /** Any requests, accepted or refused, with connections starting and ending between them, leave the two
      ordered lists that the requests describe; `Valid` says that every link has followed its chain. */
  method Serve(events: seq<Event>) returns (c: ToxicCollection)
    ensures fresh(c) && c.Valid() && c.Names() == ApplyAll(Requests(events))
  {
    c := new ToxicCollection();
    assert events[..0] == [];
    assert events[..|events|] == events;
    assert c.Toxics() == {c.noop};
    hide Requests, ApplyAll, ApplyEvent, Fits, AllFollow, Numbered, ListsOf, Connected, ToxicCollection.Toxics;
    for i := 0 to |events|
      invariant fresh(c) && c.Valid() && fresh(c.Toxics())
      invariant c.Names() == ApplyAll(Requests(events[..i]))
    {
      ApplyNext(events, i);
      ghost var before := c.Toxics();
      label Before:
      Answer(c, events[i]);
      forall t | t in c.Toxics()
        ensures fresh(t)
      {
        assert t !in before ==> fresh@Before(t);
      }
    }
  }

  /** What an event does to the links there are: requests start and remove none. */
  ghost predicate Connected(e: Event, chain: seq<Chain>, chain': seq<Chain>, links: map<string, ToxicLink>,
                            links': map<string, ToxicLink>) {
    match e
    case Connects(link, d) =>
      |chain| == 2 && chain' == chain && links' == links[link := ToxicLink(d, chain[Slot(d)], [])]
    case Closes(link) => chain' == chain && links' == links - {link}
    case Request(_) => links'.Keys == links.Keys
  }

  /** The toxic is as the request asks. */
  ghost predicate Carries(t: ToxicWrapper, r: Request)
    reads t
  {
    && t.name == NameOf(r) && t.kind == r.kind && Some(t.direction) == r.direction
    && Some(t.attributes) == r.attributes && t.toxicity == r.toxicity
  }

  method AnswerAdd(c: ToxicCollection, r: Request)
    requires c.Valid()
    modifies c`chain, c`links
    ensures c.Valid() && c.Names() == Apply(old(c.Names()), Add(r)) && fresh(c.Toxics() - old(c.Toxics()))
    ensures c.links.Keys == old(c.links).Keys
    ensures AddError(old(c.Names()), r).None? ==> exists t :: t in c.Toxics() && Carries(t, r)
  {
    hide AllFollow, Numbered, Distinct;
    var result := c.AddToxicJson(r);
    if result.Ok? {
      var t := result.value;
      assert c.In(t) && t in c.Toxics() && Carries(t, r);
    }
  }

  method Answer(c: ToxicCollection, e: Event)
    requires c.Valid()
    modifies c`chain, c`links, c.Toxics()
    ensures c.Valid() && c.Names() == ApplyEvent(old(c.Names()), e) && fresh(c.Toxics() - old(c.Toxics()))
    ensures Connected(e, old(c.chain), c.chain, old(c.links), c.links)
    ensures e.Request? && e.call.Update? ==>
      && c.chain == old(c.chain)
      && forall t :: t in c.Toxics() && t != c.noop && t.name == e.call.name ==>
           && t.attributes == (if e.call.u.attributes.Some? then e.call.u.attributes.value else old(t.attributes))
           && t.toxicity ==
              (if e.call.u.decodes && e.call.u.toxicity.Some? then e.call.u.toxicity.value else old(t.toxicity))
    ensures forall t :: t in old(c.Toxics()) &&
                        (e.Request? && e.call.Update? ==> t == c.noop || t.name != e.call.name) ==>
      t.attributes == old(t.attributes) && t.toxicity == old(t.toxicity)
    ensures e.Request? && e.call.Add? && AddError(old(c.Names()), e.call.r).None? ==>
      exists t :: t in c.Toxics() && Carries(t, e.call.r)
  {
    match e {
      case Connects(link, d) => c.StartLink(link, d);
      case Closes(link) => c.RemoveLink(link);
      case Request(Add(r)) => AnswerAdd(c, r);
      case Request(Update(name, u)) => var _ := c.UpdateToxicJson(name, u);
      case Request(Remove(name)) => var _ := c.RemoveToxic(name);
      case Request(Reset) => c.ResetToxics();
    }
  }
}
