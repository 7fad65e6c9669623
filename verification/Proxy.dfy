/** proxy.go: one proxy and the address it listens on. */
module Proxy {
  import opened Wrappers

  datatype Error = AlreadyStarted | BindFailed | NotResolved | ProxyAlreadyExists | ProxyNotFound | MissingField

  /** What a client asks of a proxy that exists. */
  datatype Input = Input(listen: string, upstream: string, enabled: bool)

  /** The addresses this process listens on, the resolver, which is taken to be stable, and which addresses the
      system may give to one that asks for a text. */
  class Network {
    const resolve: string -> Option<string>
    const grants: (string, string) -> bool
    var bound: set<string>

    constructor (resolve: string -> Option<string>, grants: (string, string) -> bool)
      ensures this.resolve == resolve && this.grants == grants && bound == {}
    {
      this.resolve, this.grants, bound := resolve, grants, {};
    }

    /** The system picks an address for the text, or refuses; it never hands out one that is in use. */
    method Listen(address: string) returns (actual: Option<string>)
      modifies this
      ensures actual.None? ==> bound == old(bound)
      ensures actual.Some? ==> grants(address, actual.value)
      ensures actual.Some? ==> actual.value !in old(bound) && bound == old(bound) + {actual.value}
    {
      var refuses: bool := *;
      var picked: string := *;
      if refuses || picked in bound || !grants(address, picked) {
        return None;
      }
      bound := bound + {picked};
      return Some(picked);
    }

    method Close(address: string)
      modifies this
      ensures bound == old(bound) - {address}
    {
      bound := bound - {address};
    }
  }

  class Proxy {
    const name: string
    var listen: string
    var upstream: string
    var enabled: bool
    var listener: string                 // the address of the last listener opened
    var connections: map<string, bool>   // the connections on the list, and whether they are open

    constructor (name: string, listen: string, upstream: string)
      ensures this.name == name && this.listen == listen && this.upstream == upstream && !enabled && Sound()
    {
      this.name, this.listen, this.upstream, this.enabled, this.listener := name, listen, upstream, false, "";
      connections := map[];
    }

    /** An enabled proxy shows the address its listener has; a stopped one has no open connection. */
    ghost predicate Sound()
      reads this
    {
      if enabled then listener == listen else forall c :: c in connections ==> !connections[c]
    }

    ghost predicate Attached(net: Network)
      reads this, net
    {
      Sound() && (enabled ==> listen in net.bound)
    }

    /** The addresses the proxy occupies: its Listen while it is enabled. */
    function Own(): set<string>
      reads this
    {
      if enabled then {listen} else {}
    }

    predicate Matches(net: Network, listen: string, upstream: string)
      reads this
    {
      net.resolve(listen) == Some(this.listen) && this.upstream == upstream
    }

    function Differs(net: Network, listen: string, upstream: string): (differs: Result<bool, Error>)
      reads this
      ensures differs.Err? <==> net.resolve(listen).None?
      ensures differs.Err? ==> differs.error == NotResolved
      ensures differs.Ok? ==> (differs.value <==> !Matches(net, listen, upstream))
    {
      var resolved := net.resolve(listen);
      if resolved.None? then Err(NotResolved)
      else Ok(this.listen != resolved.value || this.upstream != upstream)
    }

    /** A failed start leaves the proxy stopped and nothing bound. */
    method Start(net: Network) returns (error: Option<Error>)
      requires Attached(net)
      modifies this, net
      ensures Attached(net) && upstream == old(upstream) && connections == old(connections)
      ensures error == Some(AlreadyStarted) <==> old(enabled)
      ensures error.None? ==> enabled && Own() !! old(net.bound) && net.bound == old(net.bound) + Own()
      ensures error.None? ==> net.grants(old(listen), listen)
      ensures error.Some? ==> error in {Some(AlreadyStarted), Some(BindFailed)} && net.bound == old(net.bound)
      ensures error.Some? ==> listen == old(listen) && enabled == old(enabled)
    {
      if enabled {
        return Some(AlreadyStarted);
      }
      var actual := net.Listen(listen);
      if actual.None? {
        return Some(BindFailed);
      }
      listener := actual.value;
      listen := listener;
      enabled := true;
      return None;
    }

    /** The server has accepted a client: both ends of it are on the list while they are open. */
    method Accept(client: string)
      requires enabled
      modifies this`connections
      ensures connections.Keys == old(connections.Keys) + {client + "upstream", client + "downstream"}
      ensures connections[client + "upstream"] && connections[client + "downstream"]
      ensures forall c :: c in old(connections) && c != client + "upstream" && c != client + "downstream" ==>
        connections[c] == old(connections[c])
    {
      connections := connections[client + "upstream" := true];
      connections := connections[client + "downstream" := true];
    }

    /** A stop releases the address and closes every connection; the links take them off the list. */
    method Stop(net: Network)
      requires Attached(net)
      modifies this, net
      ensures Attached(net) && !enabled && listen == old(listen) && upstream == old(upstream)
      ensures net.bound == old(net.bound) - old(Own())
      ensures connections.Keys == old(connections.Keys) && forall c :: c in connections ==> !connections[c]
    {
      if !enabled {
        return;
      }
      enabled := false;
      net.Close(listener);
      var open := connections.Keys;
      while open != {}
        invariant open <= connections.Keys == old(connections.Keys)
        invariant forall c :: c in connections && c !in open ==> !connections[c]
        invariant !enabled && listen == old(listen) && upstream == old(upstream)
        invariant net.bound == old(net.bound) - old(Own())
        decreases |open|
      {
        var c :| c in open;
        connections := connections[c := false];
        open := open - {c};
      }
    }

    /** An update that fails to bind leaves the proxy stopped; one that fails to resolve changes nothing. */
    method Update(net: Network, input: Input) returns (error: Option<Error>)
      requires Attached(net)
      modifies this, net
      ensures Attached(net)
      ensures Own() !! old(net.bound) - old(Own()) && net.bound == old(net.bound) - old(Own()) + Own()
      ensures error == Some(NotResolved) <==> net.resolve(input.listen).None?
      ensures error == Some(NotResolved) ==>
        listen == old(listen) && upstream == old(upstream) && enabled == old(enabled) && net.bound == old(net.bound)
      ensures error != Some(NotResolved) ==> upstream == input.upstream
      ensures error != Some(NotResolved) && !old(Matches(net, input.listen, input.upstream)) ==>
        if enabled then net.grants(input.listen, listen) else listen == input.listen
      ensures error != Some(NotResolved) && old(Matches(net, input.listen, input.upstream)) ==>
        if enabled && !old(enabled) then net.grants(old(listen), listen) else listen == old(listen)
      ensures connections.Keys == old(connections.Keys)
      ensures if error != Some(NotResolved) && (!old(Matches(net, input.listen, input.upstream)) || !input.enabled)
              then forall c :: c in connections ==> !connections[c]
              else connections == old(connections)
      ensures error.None? ==> enabled == input.enabled
      ensures old(Matches(net, input.listen, input.upstream)) && old(enabled) == input.enabled ==>
        error.None? && listen == old(listen) && enabled == old(enabled) && net.bound == old(net.bound)
      ensures error.Some? && error != Some(NotResolved) ==> error == Some(BindFailed) && !enabled && input.enabled
    {
      var differs := Differs(net, input.listen, input.upstream);
      if differs.Err? {
        return Some(differs.error);
      }
      if differs.value {
        Stop(net);
        listen, upstream := input.listen, input.upstream;
      }
      if input.enabled != enabled {
        if input.enabled {
          error := Start(net);
          return;
        }
        Stop(net);
      }
      return None;
    }
  }
}
