/** proxy_collection.go: the proxies of a server by name, and the addresses they hold. */
module ProxyCollection {
  import opened Proxy
  import opened Wrappers

  // ----- what a client sees of the proxies, and who holds which address -----

  datatype Setting = Setting(proxy: Proxy, listen: string, upstream: string, enabled: bool)

  type Settings = map<string, Setting>

  function Own(s: Setting): set<string> {
    if s.enabled then {s.listen} else {}
  }

  function At(v: Settings, name: string): set<string> {
    if name in v then Own(v[name]) else {}
  }

  ghost predicate Holds(v: Settings, a: string) {
    exists k :: k in v && a in Own(v[k])
  }

  /** The bound addresses are exactly the Listen addresses of the enabled proxies, no two of which share
      one. */
  ghost predicate Exclusive(v: Settings, bound: set<string>) {
    && (forall k, l :: k in v && l in v && k != l ==> Own(v[k]) !! Own(v[l]))
    && (forall a :: a in bound <==> Holds(v, a))
  }

  lemma HeldIsBound(v: Settings, bound: set<string>, name: string)
    requires Exclusive(v, bound)
    ensures At(v, name) <= bound
  {
    forall a | a in At(v, name)
      ensures a in bound
    {
      assert Holds(v, a);
    }
  }

  /** What a name holds may be exchanged for an address nobody else has. */
  lemma Exchange(v: Settings, bound: set<string>, name: string, s: Setting)
    requires Exclusive(v, bound) && Own(s) !! bound - At(v, name)
    ensures Exclusive(v[name := s], bound - At(v, name) + Own(s))
  {
    var v', bound' := v[name := s], bound - At(v, name) + Own(s);
    forall k | k in v && k != name
      ensures Own(v[k]) !! Own(s) && Own(v[k]) !! At(v, name) && Own(v[k]) <= bound'
    {
      HeldIsBound(v, bound, k);
      assert At(v, k) == Own(v[k]);
    }
    forall a
      ensures a in bound' <==> Holds(v', a)
    {
      if a in Own(s) {
        assert a in Own(v'[name]);
      } else if a in bound' {
        var k :| k in v && a in Own(v[k]);
        assert a in Own(v'[k]);
      }
    }
  }

  /** A name that holds nothing may go. */
  lemma Forget(v: Settings, bound: set<string>, name: string)
    requires Exclusive(v, bound) && At(v, name) == {}
    ensures Exclusive(v - {name}, bound)
  {
    var v' := v - {name};
    forall a
      ensures Holds(v', a) <==> Holds(v, a)
    {
      if Holds(v, a) {
        var k :| k in v && a in Own(v[k]);
        assert k in v' && a in Own(v'[k]);
      }
    }
  }

  lemma NothingHeld(v: Settings, bound: set<string>)
    requires Exclusive(v, bound) && v == map[]
    ensures bound == {}
  {
    assert forall a :: !Holds(v, a);
  }

  // ----- populate requests -----

  /** One element of a decoded populate request; `enabled` may be absent. */
  datatype Entry = Entry(name: string, listen: string, upstream: string, enabled: Option<bool>)

  predicate Complete(e: Entry) {
    e.name != "" && e.upstream != ""
  }

  ghost predicate NamesDistinct(input: seq<Entry>) {
    forall i, j :: 0 <= i < j < |input| ==> input[i].name != input[j].name
  }

  /** A proxy of this name is there, listens at what `listen` resolves to and forwards to `upstream`. */
  ghost predicate Fits(v: Settings, net: Network, name: string, listen: string, upstream: string) {
    name in v && net.resolve(listen) == Some(v[name].listen) && v[name].upstream == upstream
  }

  /** The first n entries of the input fit. */
  ghost predicate SettledUpTo(v: Settings, net: Network, input: seq<Entry>, n: nat)
    requires n <= |input|
  {
    forall i :: 0 <= i < n ==> Fits(v, net, input[i].name, input[i].listen, input[i].upstream)
  }

  ghost predicate Settled(v: Settings, net: Network, input: seq<Entry>) {
    SettledUpTo(v, net, input, |input|)
  }

  /** Some of the proxies was not a member. */
  ghost predicate SomeNew(ps: seq<Proxy>, members: set<Proxy>) {
    exists i :: 0 <= i < |ps| && ps[i] !in members
  }

  lemma SomeNewSnoc(ps: seq<Proxy>, p: Proxy, members: set<Proxy>)
    ensures SomeNew(ps + [p], members) <==> SomeNew(ps, members) || p !in members
  {
    assert (ps + [p])[|ps|] == p;
    assert forall i :: 0 <= i < |ps| ==> (ps + [p])[i] == ps[i];
  }

  lemma SettledSteps(v: Settings, net: Network, input: seq<Entry>, n: nat)
    requires n < |input|
    ensures SettledUpTo(v, net, input, n + 1) <==>
            SettledUpTo(v, net, input, n) && Fits(v, net, input[n].name, input[n].listen, input[n].upstream)
    ensures Settled(v, net, input) ==> SettledUpTo(v, net, input, n + 1)
  {
  }

  /** A request may leave out whether the proxy is to run; then it is. */
  predicate Wanted(enabled: Option<bool>) {
    enabled.None? || enabled.value
  }

  /** The setting listens at what the text resolves to, as a proxy that was there may; or it is as a new proxy for
      the text is, at an address that the system gave for it, or stopped with the text itself. */
  ghost predicate Listens(s: Setting, net: Network, listen: string, enabled: bool) {
    || net.resolve(listen) == Some(s.listen)
    || (s.enabled == enabled && if enabled then net.grants(listen, s.listen) else s.listen == listen)
  }

  /** Proxy p stands under the name of the entry, listens and forwards as the entry asks. */
  ghost predicate Served(v: Settings, net: Network, p: Proxy, e: Entry) {
    && e.name in v && v[e.name].proxy == p && v[e.name].upstream == e.upstream
    && Listens(v[e.name], net, e.listen, Wanted(e.enabled))
  }

  /** The proxies serve the entries at their places. */
  ghost predicate AllServed(v: Settings, net: Network, ps: seq<Proxy>, input: seq<Entry>) {
    |ps| <= |input| && forall i :: 0 <= i < |ps| ==> Served(v, net, ps[i], input[i])
  }

  /** Every listen text resolves to the address that the proxy of that name has. */
  ghost predicate Resolved(v: Settings, net: Network, input: seq<Entry>) {
    forall i :: 0 <= i < |input| ==>
      input[i].name in v && net.resolve(input[i].listen) == Some(v[input[i].name].listen)
  }

  lemma ServedIsSettledIfResolved(v: Settings, net: Network, ps: seq<Proxy>, input: seq<Entry>)
    requires AllServed(v, net, ps, input) && |ps| == |input|
    ensures Settled(v, net, input) <==> Resolved(v, net, input)
  {
    assert forall i :: 0 <= i < |input| ==> Served(v, net, ps[i], input[i]);
  }

  lemma ServedBySame(v: Settings, net: Network, ps: seq<Proxy>, qs: seq<Proxy>, input: seq<Entry>)
    requires AllServed(v, net, ps, input) && AllServed(v, net, qs, input) && |ps| == |qs|
    ensures ps == qs
  {
    assert forall i :: 0 <= i < |ps| ==> Served(v, net, ps[i], input[i]) && Served(v, net, qs[i], input[i]);
  }

  /** The settings differ at most at this name. */
  ghost predicate OnlyAt(v: Settings, v': Settings, name: string) {
    v' == v || (name in v' && v' == v[name := v'[name]])
  }

  lemma StillServed(v: Settings, v': Settings, net: Network, ps: seq<Proxy>, input: seq<Entry>)
    requires AllServed(v, net, ps, input) && NamesDistinct(input) && |ps| < |input| && OnlyAt(v, v', input[|ps|].name)
    ensures AllServed(v', net, ps, input)
  {
  }

  lemma OneMoreServed(v: Settings, net: Network, ps: seq<Proxy>, input: seq<Entry>, p: Proxy)
    requires AllServed(v, net, ps, input) && |ps| < |input| && Served(v, net, p, input[|ps|])
    ensures AllServed(v, net, ps + [p], input)
  {
  }

  function NamesIn(input: seq<Entry>): set<string> {
    set e | e in input :: e.name
  }

  lemma NamesInNext(input: seq<Entry>, n: nat)
    requires n < |input|
    ensures NamesIn(input[..n + 1]) == NamesIn(input[..n]) + {input[n].name} <= NamesIn(input)
  {
    assert input[..n + 1] == input[..n] + [input[n]];
    assert forall e :: e in input[..n + 1] <==> e in input[..n] || e == input[n];
    forall name | name in NamesIn(input[..n]) + {input[n].name}
      ensures name in NamesIn(input[..n + 1])
    {
      if name == input[n].name { assert input[n] in input[..n + 1]; }
    }
  }

  /** The settings of other names are what they were. */
  ghost predicate OthersKept(v: Settings, v': Settings, names: set<string>) {
    forall k :: k in v && k !in names ==> k in v' && v'[k] == v[k]
  }

  lemma OnlyAtKeepsOthers(v: Settings, v': Settings, name: string)
    requires OnlyAt(v, v', name)
    ensures OthersKept(v, v', {name})
  {
  }

  lemma OthersKeptTwice(v: Settings, v1: Settings, v2: Settings, names: set<string>, name: string)
    requires OthersKept(v, v1, names) && OthersKept(v1, v2, {name})
    ensures OthersKept(v, v2, names + {name})
  {
  }

  /** What a request of which n entries are done has done to the names. */
  ghost predicate Progress(v: Settings, v': Settings, input: seq<Entry>, n: nat) {
    n <= |input| && v'.Keys == v.Keys + NamesIn(input[..n]) && OthersKept(v, v', NamesIn(input[..n]))
  }

  lemma NothingDone(v: Settings, net: Network, input: seq<Entry>)
    ensures Progress(v, v, input, 0) && AllServed(v, net, [], input) && SettledUpTo(v, net, input, 0)
    ensures Settled(v, net, input) == SettledUpTo(v, net, input, |input|)
  {
  }

  lemma MoreProgress(v: Settings, v1: Settings, v2: Settings, input: seq<Entry>, n: nat)
    requires n < |input| && Progress(v, v1, input, n)
    requires v2.Keys == v1.Keys + {input[n].name} && OthersKept(v1, v2, {input[n].name})
    ensures Progress(v, v2, input, n + 1)
  {
    NamesInNext(input, n);
    OthersKeptTwice(v, v1, v2, NamesIn(input[..n]), input[n].name);
    hide NamesIn, OthersKept;
  }

  /** A request that has stopped at entry n has touched no other names than those of the entries up to it. */
  ghost predicate Stopped(v: Settings, v': Settings, net: Network, input: seq<Entry>, n: nat, error: Error) {
    && n < |input| && v'.Keys == v.Keys + NamesIn(input[..n])
    && OthersKept(v, v', NamesIn(input[..n + 1]))
    && (error == NotResolved <==>
          net.resolve(input[n].listen).None? && (input[n].name in v || input[n].name in NamesIn(input[..n])))
  }

  lemma StopsThere(v: Settings, v1: Settings, v2: Settings, net: Network, input: seq<Entry>, n: nat, error: Error)
    requires n < |input| && Progress(v, v1, input, n) && v2.Keys == v1.Keys && OthersKept(v1, v2, {input[n].name})
    requires error == NotResolved <==> input[n].name in v1 && net.resolve(input[n].listen).None?
    ensures Stopped(v, v2, net, input, n, error)
  {
    NamesInNext(input, n);
    OthersKeptTwice(v, v1, v2, NamesIn(input[..n]), input[n].name);
    hide NamesIn, OthersKept;
  }

  // ----- calls -----

  datatype Call =
    | Create(e: Entry)
    | Change(name: string, input: Input)
    | Start(name: string)
    | Stop(name: string)
    | Delete(name: string)
    | Populate(entries: seq<Entry>)
    | Clear

  /** What a call does to the settings: it touches one at most, but for a populate request and a clearing. */
  ghost predicate Answered(call: Call, v: Settings, v': Settings, net: Network) {
    match call
    case Create(e) =>
      && OnlyAt(v, v', e.name) && (e.name in v ==> v' == v)
      && (e.name in v' && e.name !in v ==>
            && v'[e.name].upstream == e.upstream && v'[e.name].enabled == Wanted(e.enabled)
            && if Wanted(e.enabled) then net.grants(e.listen, v'[e.name].listen) else v'[e.name].listen == e.listen)
    case Change(name, input) =>
      if name !in v || net.resolve(input.listen).None? then v' == v
      else
        && name in v' && v' == v[name := v'[name]]
        && v'[name].upstream == input.upstream && (v'[name].enabled ==> input.enabled)
    case Start(name) =>
      || v' == v
      || (name in v && name in v' && !v[name].enabled && net.grants(v[name].listen, v'[name].listen)
          && v' == v[name := v[name].(enabled := true, listen := v'[name].listen)])
    case Stop(name) => v' == if name in v then v[name := v[name].(enabled := false)] else v
    case Delete(name) => v' == v - {name}
    case Populate(entries) =>
      v.Keys <= v'.Keys <= v.Keys + NamesIn(entries) && OthersKept(v, v', NamesIn(entries))
    case Clear => v' == map[]
  }

  lemma ProgressAnswers(v: Settings, v': Settings, net: Network, input: seq<Entry>)
    requires Progress(v, v', input, |input|)
    ensures Answered(Populate(input), v, v', net)
  {
    assert input[..|input|] == input;
  }

  lemma StoppedAnswers(v: Settings, v': Settings, net: Network, input: seq<Entry>, n: nat, error: Error)
    requires Stopped(v, v', net, input, n, error)
    ensures Answered(Populate(input), v, v', net)
  {
    NamesInNext(input, n);
  }

  // ----- the collection -----

  ghost function Seen(p: Proxy): Setting
    reads p
  {
    Setting(p, p.listen, p.upstream, p.enabled)
  }

  ghost function ViewOf(m: map<string, Proxy>): (v: Settings)
    reads set k | k in m :: m[k]
    ensures v.Keys == m.Keys
  {
    map k | k in m :: Seen(m[k])
  }

  class ProxyCollection {
    const net: Network
    var proxies: map<string, Proxy>

    ghost function Members(): set<Proxy>
      reads this
    {
      set k | k in proxies :: proxies[k]
    }

    lemma IsMember(name: string)
      requires name in proxies
      ensures proxies[name] in Members()
    {
    }

    /** Proxies of different names are different. */
    lemma MembersWithout(name: string)
      requires name in proxies && forall k :: k in proxies ==> proxies[k].name == k
      ensures (set k | k in proxies - {name} :: proxies[k]) == Members() - {proxies[name]}
      ensures proxies[name] in Members()
    {
    }

    ghost function View(): Settings
      reads this, Members()
    {
      ViewOf(proxies)
    }

    /** Keys are names, and no address is bound but for an enabled proxy of the collection. */
    ghost predicate Valid()
      reads this, net, Members()
    {
      && (forall k :: k in proxies ==> proxies[k].name == k)
      && (forall k :: k in proxies ==> proxies[k].Sound())
      && Exclusive(View(), net.bound)
    }

    /** A proxy that the collection may be given: one of its own, or one that is not running. */
    ghost predicate Admits(p: Proxy)
      reads this, p
    {
      p.Sound() && (p.enabled ==> p.name in proxies && proxies[p.name] == p)
    }

    /** What a step on one proxy does to the view and to the rest. */
    twostate lemma OneChanges(name: string)
      requires name in proxies && proxies == old(proxies)[name := proxies[name]] && old(Valid())
      requires forall k :: k in old(proxies) && k != name ==> unchanged(old(proxies)[k])
      ensures View() == old(View())[name := Seen(proxies[name])]
      ensures Exclusive(View(), net.bound) && proxies[name].name == name && proxies[name].Sound() ==> Valid()
    {
      hide Exclusive, Proxy.Sound;
    }

    twostate lemma NoneChanges()
      requires proxies == old(proxies) && net.bound == old(net.bound) && old(Valid())
      requires forall k :: k in proxies ==> Seen(proxies[k]) == old(Seen(proxies[k])) && proxies[k].Sound()
      ensures View() == old(View()) && Valid()
    {
    }

    lemma MemberAttached(name: string)
      requires Valid() && name in proxies
      ensures proxies[name].Attached(net)
      ensures name in View() && View()[name] == Seen(proxies[name]) && View()[name := View()[name]] == View()
    {
      HeldIsBound(View(), net.bound, name);
    }

    constructor (net: Network)
      requires net.bound == {}
      ensures Valid() && proxies == map[] && this.net == net
    {
      this.net, proxies := net, map[];
    }

    /** A member is stopped and its address released; it stays in the collection. */
    method StopMember(name: string)
      requires Valid() && name in proxies
      modifies proxies[name], net
      ensures Valid() && Seen(proxies[name]) == old(Seen(proxies[name])).(enabled := false)
      ensures View() == old(View())[name := old(View()[name]).(enabled := false)]
      ensures net.bound == old(net.bound) - old(At(View(), name))
    {
      hide Exclusive, Proxy.Sound;
      ghost var v, bound := View(), net.bound;
      MemberAttached(name);
      proxies[name].Stop(net);
      var s := v[name].(enabled := false);
      Exchange(v, bound, name, s);
      assert View() == v[name := s] && net.bound == bound - At(v, name) + {};
    }

    /** A proxy that does not run is started if asked, and then registered under its name. */
    method Register(p: Proxy, start: bool) returns (error: Option<Error>)
      requires Valid() && p.Sound() && !p.enabled && At(View(), p.name) == {}
      modifies this`proxies, p, net
      ensures Valid() && Admits(p) && p.upstream == old(p.upstream)
      ensures error.Some? ==> start && error == Some(BindFailed) && !p.enabled && p.listen == old(p.listen) &&
                              proxies == old(proxies) && View() == old(View()) && net.bound == old(net.bound)
      ensures error.None? ==>
        && proxies == old(proxies)[p.name := p] && p.enabled == start
        && (if start then net.grants(old(p.listen), p.listen) else p.listen == old(p.listen))
        && View() == old(View())[p.name := Seen(p)] && net.bound == old(net.bound) + p.Own()
    {
      hide Exclusive, Proxy.Sound, ViewOf;
      ghost var v, bound := View(), net.bound;
      if start {
        error := p.Start(net);
        if error.Some? {
          NoneChanges();
          return;
        }
      }
      proxies := proxies[p.name := p];
      OneChanges(p.name);
      Exchange(v, bound, p.name, Seen(p));
      assert net.bound == bound - {} + Own(Seen(p));
      return None;
    }

    /** A rejected duplicate and a failed start bind nothing and leave the collection as it was. */
    method Add(p: Proxy, start: bool) returns (error: Option<Error>)
      requires Valid() && Admits(p)
      modifies this`proxies, p, net
      ensures Valid() && Admits(p) && p.upstream == old(p.upstream)
      ensures p.name in old(proxies) <==> error == Some(ProxyAlreadyExists)
      ensures error.Some? ==> View() == old(View()) && net.bound == old(net.bound) && proxies == old(proxies)
      ensures error.Some? ==> p.enabled == old(p.enabled) && p.listen == old(p.listen)
      ensures error.Some? && error != Some(ProxyAlreadyExists) ==> start && error == Some(BindFailed)
      ensures error.None? ==>
        && p.enabled == start && View() == old(View())[p.name := Seen(p)] && net.bound == old(net.bound) + p.Own()
        && (if start then net.grants(old(p.listen), p.listen) else p.listen == old(p.listen))
        && proxies == old(proxies)[p.name := p]
    {
      if p.name in proxies {
        return Some(ProxyAlreadyExists);
      }
      error := Register(p, start);
    }

    /** A proxy of the same name that differs is stopped before the new one starts; when that start fails,
        it stays in the collection, stopped. */
    method AddOrReplace(p: Proxy, start: bool) returns (result: Result<Proxy, Error>)
      requires Valid() && Admits(p)
      modifies this`proxies, p, net, if p.name in proxies then {proxies[p.name]} else {}
      ensures Valid() && Admits(p) && p.upstream == old(p.upstream)
      ensures result == Err(NotResolved) <==> p.name in old(proxies) && net.resolve(old(p.listen)).None?
      ensures result == Err(NotResolved) || old(Fits(View(), net, p.name, p.listen, p.upstream)) ==>
        View() == old(View()) && net.bound == old(net.bound) && proxies == old(proxies)
      ensures old(Fits(View(), net, p.name, p.listen, p.upstream)) ==> result == Ok(View()[p.name].proxy)
      ensures proxies == if result == Ok(p) then old(proxies)[p.name := p] else old(proxies)
      ensures result.Ok? && !old(Fits(View(), net, p.name, p.listen, p.upstream)) ==>
        && result.value == p && p.enabled == start
        && (if start then net.grants(old(p.listen), p.listen) else p.listen == old(p.listen))
        && View() == old(View())[p.name := Seen(p)] && net.bound == old(net.bound) - old(At(View(), p.name)) + p.Own()
      ensures result.Err? && result != Err(NotResolved) ==>
        && result == Err(BindFailed) && start && !p.enabled && net.bound == old(net.bound) - old(At(View(), p.name))
        && View() == if p.name in old(View()) then old(View())[p.name := old(View()[p.name]).(enabled := false)]
                     else old(View())
    {
      hide Exclusive, Proxy.Sound, ViewOf;
      if p.name in proxies {
        var existing := proxies[p.name];
        MemberAttached(p.name);
        assert Fits(View(), net, p.name, p.listen, p.upstream) == existing.Matches(net, p.listen, p.upstream);
        var differs := existing.Differs(net, p.listen, p.upstream);
        if differs.Err? {
          return Err(differs.error);
        }
        if !differs.value {
          return Ok(existing);
        }
        StopMember(p.name);
      }
      var error := Register(p, start);
      return if error.Some? then Err(error.value) else Ok(p);
    }

    /** A stopped member leaves the collection. */
    method Drop(name: string)
      requires Valid() && name in proxies && !proxies[name].enabled
      modifies this`proxies
      ensures Valid() && proxies == old(proxies) - {name} && View() == old(View()) - {name}
      ensures Members() == old(Members()) - {old(proxies)[name]}
    {
      hide Exclusive, Proxy.Sound;
      MembersWithout(name);
      MemberAttached(name);
      ghost var v := View();
      Forget(v, net.bound, name);
      proxies := proxies - {name};
      assert View() == v - {name};
    }

    method Remove(name: string) returns (error: Option<Error>)
      requires Valid()
      modifies this`proxies, net, if name in proxies then {proxies[name]} else {}
      ensures Valid() && View() == old(View()) - {name} && net.bound == old(net.bound) - old(At(View(), name))
      ensures error == if name in old(proxies) then None else Some(ProxyNotFound)
      ensures name in old(proxies) ==> !old(proxies)[name].enabled
      ensures proxies == old(proxies) - {name}
      ensures name in old(proxies) ==> Members() == old(Members()) - {old(proxies)[name]}
    {
      if name !in proxies {
        return Some(ProxyNotFound);
      }
      hide Exclusive, Proxy.Sound, ViewOf;
      ghost var v := View();
      StopMember(name);
      Drop(proxies[name].name);
      assert v[name := v[name].(enabled := false)] - {name} == v - {name};
      return None;
    }

    lemma NoMembers()
      requires proxies == map[]
      ensures Members() == {}
    {
    }

    lemma EmptyHoldsNothing()
      requires Valid() && proxies == map[]
      ensures net.bound == {}
    {
      NothingHeld(View(), net.bound);
    }

    /** Every proxy is stopped and forgotten, and no address stays bound. */
    method Clear()
      requires Valid()
      modifies this`proxies, net, Members()
      ensures Valid() && proxies == map[] && net.bound == {}
      ensures forall p :: p in old(Members()) ==> !p.enabled
    {
      hide *;
      ghost var gone: set<Proxy> := {};
      while |proxies| > 0
        invariant Valid() && gone !! Members() && gone + Members() == old(Members())
        invariant forall p :: p in gone ==> !p.enabled
        decreases Members()
      {
        var name :| name in proxies;
        IsMember(name);
        gone := gone + {proxies[name]};
        var _ := Remove(name);
      }
      NoMembers();
      EmptyHoldsNothing();
    }

    method StartByName(name: string) returns (error: Option<Error>)
      requires Valid()
      modifies net, if name in proxies then {proxies[name]} else {}
      ensures Valid() && proxies == old(proxies)
      ensures error == Some(ProxyNotFound) <==> name !in proxies
      ensures error == Some(AlreadyStarted) <==> name in proxies && old(proxies[name].enabled)
      ensures error.Some? ==> View() == old(View()) && net.bound == old(net.bound)
      ensures error.None? ==> View() == old(View())[name := View()[name]] && !old(View())[name].enabled
      ensures error.None? ==>
        View()[name] == old(View()[name]).(enabled := true, listen := View()[name].listen) &&
        net.grants(old(View()[name].listen), View()[name].listen)
    {
      if name !in proxies {
        return Some(ProxyNotFound);
      }
      hide Exclusive, Proxy.Sound, ViewOf;
      ghost var v, bound := View(), net.bound;
      var p := proxies[name];
      MemberAttached(name);
      error := p.Start(net);
      OneChanges(name);
      if error.None? {
        Exchange(v, bound, name, Seen(p));
        assert net.bound == bound - At(v, name) + Own(Seen(p));
      }
    }

    /** A client's change of one proxy, found by name. */
    method UpdateByName(name: string, input: Input) returns (error: Option<Error>)
      requires Valid()
      modifies net, if name in proxies then {proxies[name]} else {}
      ensures Valid() && proxies == old(proxies)
      ensures error == Some(ProxyNotFound) <==> name !in proxies
      ensures name !in proxies ==> View() == old(View())
      ensures name in proxies ==> View() == old(View())[name := View()[name]]
      ensures error.None? ==> View()[name].enabled == input.enabled && View()[name].upstream == input.upstream
      ensures name in proxies ==> (error == Some(NotResolved) <==> net.resolve(input.listen).None?)
      ensures error == Some(NotResolved) ==> View() == old(View()) && net.bound == old(net.bound)
      ensures error.Some? && name in proxies ==>
        error == Some(NotResolved) || (error == Some(BindFailed) && !View()[name].enabled && input.enabled)
      ensures name in proxies && error != Some(NotResolved) ==>
        && View()[name].upstream == input.upstream
        && if old(Fits(View(), net, name, input.listen, input.upstream))
           then if View()[name].enabled && !old(View()[name].enabled)
                then net.grants(old(View()[name].listen), View()[name].listen)
                else View()[name].listen == old(View()[name].listen)
           else if View()[name].enabled then net.grants(input.listen, View()[name].listen)
                else View()[name].listen == input.listen
    {
      if name !in proxies {
        return Some(ProxyNotFound);
      }
      hide Exclusive, Proxy.Sound, Proxy.Matches, ViewOf;
      ghost var v, bound := View(), net.bound;
      var p := proxies[name];
      MemberAttached(name);
      error := p.Update(net, input);
      OneChanges(name);
      Exchange(v, bound, name, Seen(p));
      assert net.bound == bound - At(v, name) + Own(Seen(p));
    }

    /** An entry that fits changes nothing; any other puts a new proxy in. */
    method AddEntry(e: Entry) returns (result: Result<Proxy, Error>)
      requires Valid()
      modifies this`proxies, net, if e.name in proxies then {proxies[e.name]} else {}
      ensures Valid()
      ensures old(Fits(View(), net, e.name, e.listen, e.upstream)) ==>
        result.Ok? && View() == old(View()) && net.bound == old(net.bound)
      ensures result.Err? ==> result.error in {NotResolved, BindFailed} && proxies == old(proxies)
      ensures result == Err(NotResolved) <==> e.name in old(proxies) && net.resolve(e.listen).None?
      ensures result.Err? ==> View().Keys == old(View()).Keys
      ensures result.Ok? ==> View().Keys == old(View()).Keys + {e.name}
      ensures OnlyAt(old(View()), View(), e.name)
      ensures result.Ok? ==> Served(View(), net, result.value, e)
      ensures result.Ok? && !old(Fits(View(), net, e.name, e.listen, e.upstream)) ==>
        fresh(result.value) && result.value.enabled == Wanted(e.enabled)
      ensures fresh(Members() - old(Members()))
    {
      hide Exclusive, Proxy.Sound;
      ghost var v := View();
      var p := new Proxy(e.name, e.listen, e.upstream);
      assert View() == v;
      hide ViewOf;
      result := AddOrReplace(p, Wanted(e.enabled));
    }

    /** The entry after those that `result` is for; `v` and `members` are what the collection had before all of
        them. */
    method AddNext(input: seq<Entry>, result: seq<Proxy>, ghost v: Settings, ghost members: set<Proxy>)
      returns (next: Result<Proxy, Error>)
      requires Valid() && |result| < |input|
      requires SettledUpTo(v, net, input, |result|) ==> View() == v
      requires SettledUpTo(v, net, input, |result|) || SomeNew(result, members)
      requires Progress(v, View(), input, |result|)
      requires NamesDistinct(input) || SettledUpTo(v, net, input, |result|) ==> AllServed(View(), net, result, input)
      modifies this`proxies, net, Members()
      ensures Valid() && fresh(Members() - old(Members()))
      ensures SettledUpTo(v, net, input, |result| + 1) ==> next.Ok? && View() == v && net.bound == old(net.bound)
      ensures SettledUpTo(v, net, input, |result| + 1) ==> SettledUpTo(v, net, input, |result|)
      ensures next.Ok? ==> SettledUpTo(v, net, input, |result| + 1) || SomeNew(result + [next.value], members)
      ensures next.Err? ==> next.error in {NotResolved, BindFailed} && !Settled(v, net, input)
      ensures if next.Ok? then Progress(v, View(), input, |result| + 1)
              else Stopped(v, View(), net, input, |result|, next.error)
      ensures NamesDistinct(input) || SettledUpTo(v, net, input, |result| + 1) ==>
        AllServed(View(), net, if next.Ok? then result + [next.value] else result, input)
    {
      hide Valid, ViewOf, Fits, SettledUpTo, Settled, Served, AllServed, NamesDistinct, OnlyAt, SomeNew, Progress,
        Stopped;
      ghost var before := View();
      SettledSteps(v, net, input, |result|);
      next := AddEntry(input[|result|]);
      OnlyAtKeepsOthers(before, View(), input[|result|].name);
      if next.Ok? {
        MoreProgress(v, before, View(), input, |result|);
      } else {
        StopsThere(v, before, View(), net, input, |result|, next.error);
      }
      if NamesDistinct(input) {
        StillServed(before, View(), net, result, input);
      }
      if next.Ok? {
        SomeNewSnoc(result, next.value, members);
        if NamesDistinct(input) || SettledUpTo(v, net, input, |result| + 1) {
          OneMoreServed(View(), net, result, input, next.value);
        }
      }
    }

    method AddOrReplaceAll(input: seq<Entry>) returns (result: seq<Proxy>, error: Option<Error>)
      requires Valid()
      modifies this`proxies, net, Members()
      ensures Valid() && fresh(Members() - old(Members()))
      ensures old(Settled(View(), net, input)) ==>
        error.None? && View() == old(View()) && net.bound == old(net.bound)
      ensures error.Some? ==> error in {Some(NotResolved), Some(BindFailed)}
      ensures if error.None? then |result| == |input| else |result| < |input|
      ensures if error.None? then Progress(old(View()), View(), input, |input|)
              else Stopped(old(View()), View(), net, input, |result|, error.value)
      ensures error.None? && !old(Settled(View(), net, input)) ==> SomeNew(result, old(Members()))
      ensures NamesDistinct(input) || old(Settled(View(), net, input)) ==> AllServed(View(), net, result, input)
    {
      hide *;
      result := [];
      NothingDone(View(), net, input);
      while |result| < |input|
        invariant Valid() && |result| <= |input| && fresh(Members() - old(Members()))
        invariant Progress(old(View()), View(), input, |result|)
        invariant old(SettledUpTo(View(), net, input, |result|)) ==>
          View() == old(View()) && net.bound == old(net.bound)
        invariant old(SettledUpTo(View(), net, input, |result|)) || SomeNew(result, old(Members()))
        invariant NamesDistinct(input) || old(SettledUpTo(View(), net, input, |result|)) ==>
          AllServed(View(), net, result, input)
      {
        ghost var before := Members();
        label Before:
        var next := AddNext(input, result, old(View()), old(Members()));
        assert fresh@Before(Members() - before);
        assert fresh(Members() - before);
        forall p | p in Members() && p !in old(Members())
          ensures fresh(p)
        {
          assert p in Members() - before || p in before - old(Members());
        }
        if next.Err? {
          return result, Some(next.error);
        }
        result := result + [next.value];
      }
      return result, None;
    }

    /** Nothing is created, started, stopped or replaced exactly when the collection already has what the
        input asks for; otherwise some returned proxy is a new one. A failure after the checks leaves the
        proxies of the entries before the one that failed, and returns them. */
    method PopulateJson(input: seq<Entry>) returns (result: seq<Proxy>, error: Option<Error>)
      requires Valid()
      modifies this`proxies, net, Members()
      ensures Valid()
      ensures error == Some(MissingField) <==> exists e :: e in input && !Complete(e)
      ensures error == Some(MissingField) || old(Settled(View(), net, input)) ==>
        View() == old(View()) && net.bound == old(net.bound)
      ensures error.Some? ==> error in {Some(MissingField), Some(NotResolved), Some(BindFailed)}
      ensures old(Settled(View(), net, input)) ==> error.None? || error == Some(MissingField)
      ensures error == Some(MissingField) ==> result == []
      ensures error != Some(MissingField) ==> if error.None? then |result| == |input| else |result| < |input|
      ensures error.None? ==> Progress(old(View()), View(), input, |input|)
      ensures error.Some? && error != Some(MissingField) ==>
        Stopped(old(View()), View(), net, input, |result|, error.value)
      ensures fresh(Members() - old(Members()))
      ensures error.None? && !old(Settled(View(), net, input)) ==> SomeNew(result, old(Members()))
      ensures NamesDistinct(input) || old(Settled(View(), net, input)) ==> AllServed(View(), net, result, input)
    {
      for i := 0 to |input|
        invariant forall j :: 0 <= j < i ==> Complete(input[j])
      {
        if input[i].name == "" || input[i].upstream == "" {
          assert !Complete(input[i]);
          return [], Some(MissingField);
        }
      }
      result, error := AddOrReplaceAll(input);
    }

    lemma ServedAreMembers(ps: seq<Proxy>, input: seq<Entry>)
      requires AllServed(View(), net, ps, input)
      ensures !SomeNew(ps, Members())
    {
      forall i | 0 <= i < |ps|
        ensures ps[i] in Members()
      {
        assert Served(View(), net, ps[i], input[i]);
        IsMember(input[i].name);
      }
    }

    /** Repeating a successful request returns the same proxies exactly when every listen address asked for
        resolves to the one its proxy ended up with; then it changes nothing. `settings` and `bound` are what
        the first call leaves. */
    method PopulateTwice(input: seq<Entry>)
      returns (first: seq<Proxy>, error: Option<Error>, second: seq<Proxy>, again: Option<Error>,
               ghost settings: Settings, ghost bound: set<string>)
      requires Valid() && NamesDistinct(input)
      modifies this`proxies, net, Members()
      ensures Valid() && Exclusive(settings, bound)
      ensures error.None? ==> |first| == |input| && AllServed(settings, net, first, input)
      ensures error.None? ==>
        (again.None? && second == first <==> Resolved(settings, net, input))
      ensures error.None? && again.None? && second == first ==> View() == settings && net.bound == bound
    {
      hide Exclusive, Settled, Served, AllServed, Resolved, Complete, Listens, SomeNew, NamesDistinct, ViewOf,
        Proxy.Sound;
      first, error := PopulateJson(input);
      settings, bound := View(), net.bound;
      if error.Some? {
        return first, error, [], error, settings, bound;
      }
      ServedIsSettledIfResolved(settings, net, first, input);
      ServedAreMembers(first, input);
      second, again := PopulateJson(input);
      if again.None? && Settled(settings, net, input) {
        ServedBySame(settings, net, first, second, input);
      }
    }

    method Create(e: Entry)
      requires Valid()
      modifies this`proxies, net
      ensures Valid() && fresh(Members() - old(Members())) && Answered(Call.Create(e), old(View()), View(), net)
    {
      hide Exclusive, Proxy.Sound;
      ghost var v := View();
      var p := new Proxy(e.name, e.listen, e.upstream);
      assert View() == v;
      hide ViewOf;
      var _ := Add(p, Wanted(e.enabled));
    }

    /** One call of a client: what it did to the settings, of which it touches one at most, but for a populate
        request and a clearing of all. */
    method Answer(call: Call)
      requires Valid()
      modifies this`proxies, net, Members()
      ensures Valid() && fresh(Members() - old(Members()))
      ensures Answered(call, old(View()), View(), net)
      ensures call.Populate? && old(Settled(View(), net, call.entries)) ==> View() == old(View())
      ensures call.Clear? ==> net.bound == {}
    {
      hide Exclusive, Proxy.Sound, ViewOf, Settled, AllServed, SomeNew, NamesIn, OthersKept;
      match call {
        case Create(e) => Create(e);
        case Change(name, input) => var _ := UpdateByName(name, input);
        case Start(name) => var _ := StartByName(name);
        case Stop(name) =>
          if name in proxies {
            StopMember(name);
          }
        case Delete(name) => var _ := Remove(name);
        case Populate(entries) => Repopulate(entries);
        case Clear => Clear();
      }
    }

    method Repopulate(entries: seq<Entry>)
      requires Valid()
      modifies this`proxies, net, Members()
      ensures Valid() && fresh(Members() - old(Members())) && Answered(Populate(entries), old(View()), View(), net)
      ensures old(Settled(View(), net, entries)) ==> View() == old(View())
    {
      hide Valid, ViewOf, Settled, AllServed, SomeNew;
      ghost var v := View();
      var result, error := PopulateJson(entries);
      if error == Some(MissingField) {
        assert Answered(Populate(entries), v, View(), net);
      } else if error.None? {
        ProgressAnswers(v, View(), net, entries);
      } else {
        StoppedAnswers(v, View(), net, entries, |result|, error.value);
      }
    }
  }

  /** Whatever is called and whatever fails, no listener is leaked. */
  method Serve(net: Network, calls: seq<Call>) returns (c: ProxyCollection)
    requires net.bound == {}
    modifies net
    ensures fresh(c) && c.net == net && c.Valid()
  {
    c := new ProxyCollection(net);
    for i := 0 to |calls|
      invariant fresh(c) && c.net == net && c.Valid() && fresh(c.Members())
    {
      hide *;
      c.Answer(calls[i]);
    }
  }
}
