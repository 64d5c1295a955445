/** ICS-20 denominations, their traces, and the channels the traces run along. */
module Denoms {

  /** One hop of a trace: a port and a channel of the chain that holds the token. */
  datatype Hop = Hop(port: string, channel: string)

  /** A base denomination with the hops it arrived by; the latest hop comes last. */
  datatype Denom = Denom(trace: seq<Hop>, base: string)

  predicate StartsWith(d: Denom, hop: Hop) {
    d.trace != [] && d.trace[|d.trace| - 1] == hop
  }

  function AddPrefix(d: Denom, hop: Hop): Denom {
    d.(trace := d.trace + [hop])
  }

  function RemovePrefix(d: Denom, hop: Hop): Denom {
    if StartsWith(d, hop) then d.(trace := d.trace[..|d.trace| - 1]) else d
  }

  /** True when the token last came from the chain it is now being sent to. */
  predicate IsReceiverChainSource(src: Hop, d: Denom) {
    StartsWith(d, src)
  }

  predicate IsSenderChainSource(src: Hop, d: Denom) {
    !IsReceiverChainSource(src, d)
  }

  /** The denomination under which a token sent from `src` arrives at `dst`. */
  function Received(src: Hop, dst: Hop, d: Denom): Denom {
    if IsReceiverChainSource(src, d) then RemovePrefix(d, src) else AddPrefix(d, dst)
  }

  lemma RemoveUndoesAdd(d: Denom, hop: Hop)
    ensures StartsWith(AddPrefix(d, hop), hop)
    ensures RemovePrefix(AddPrefix(d, hop), hop) == d
    ensures StartsWith(d, hop) ==> AddPrefix(RemovePrefix(d, hop), hop) == d
  {
    assert (d.trace + [hop])[..|d.trace|] == d.trace;
    if StartsWith(d, hop) {
      assert d.trace[..|d.trace| - 1] + [hop] == d.trace;
    }
  }

  // ----- Channels -----

  /** A channel end: a chain, and a port and channel on it. */
  datatype End = End(chain: nat, hop: Hop)

  /** The open channels: every end with the end at its other side. */
  type Net = map<End, End>

  predicate ValidNet(net: Net) {
    forall e <- net :: net[e] in net && net[net[e]] == e && net[e] != e
  }

  /** The trace follows open channels back from `chain`, and never steps out
      along a channel and straight back through the same channel. */
  predicate Routed(net: Net, chain: nat, d: Denom)
    decreases |d.trace|
  {
    d.trace == [] ||
    var top := d.trace[|d.trace| - 1];
    var rest := d.(trace := d.trace[..|d.trace| - 1]);
    End(chain, top) in net &&
    var far := net[End(chain, top)];
    Routed(net, far.chain, rest) && !StartsWith(rest, far.hop)
  }

  /** A base token: the chain that issued it and its name there. */
  datatype Token = Token(chain: nat, base: string)

  /** The base token a traced denomination stands for. */
  function Origin(net: Net, chain: nat, d: Denom): Token
    requires Routed(net, chain, d)
    decreases |d.trace|
  {
    if d.trace == [] then Token(chain, d.base) else
      var top := d.trace[|d.trace| - 1];
      Origin(net, net[End(chain, top)].chain, d.(trace := d.trace[..|d.trace| - 1]))
  }

  /** Carrying a routed token across one channel keeps it routed and keeps its origin;
      carrying it back restores it and takes the other branch. */
  lemma CrossChannel(net: Net, e: End, d: Denom)
    requires ValidNet(net) && e in net && Routed(net, e.chain, d)
    ensures var f := net[e]; var r := Received(e.hop, f.hop, d);
      && Routed(net, f.chain, r)
      && Origin(net, f.chain, r) == Origin(net, e.chain, d)
      && Received(f.hop, e.hop, r) == d
      && (IsReceiverChainSource(f.hop, r) <==> IsSenderChainSource(e.hop, d))
  {
    var f := net[e];
    RemoveUndoesAdd(d, f.hop);
    RemoveUndoesAdd(d, e.hop);
    assert End(e.chain, e.hop) == e && End(f.chain, f.hop) == f;
    if !StartsWith(d, e.hop) {
      var r := AddPrefix(d, f.hop);
      assert r.(trace := r.trace[..|r.trace| - 1]) == d;
    }
  }

  // ----- Journeys over several channels -----

  /** A journey leaves each chain by the next listed end. */
  predicate IsRoute(net: Net, chain: nat, route: seq<End>)
    decreases |route|
  {
    route == [] ||
    (route[0] in net && route[0].chain == chain && IsRoute(net, net[route[0]].chain, route[1..]))
  }

  function Destination(net: Net, chain: nat, route: seq<End>): nat
    requires IsRoute(net, chain, route)
    decreases |route|
  {
    if route == [] then chain else Destination(net, net[route[0]].chain, route[1..])
  }

  function Carry(net: Net, chain: nat, route: seq<End>, d: Denom): Denom
    requires IsRoute(net, chain, route)
    decreases |route|
  {
    if route == [] then d else
      var far := net[route[0]];
      Carry(net, far.chain, route[1..], Received(route[0].hop, far.hop, d))
  }

  /** For each hop of a journey, whether the token is unescrowed (true) or minted (false). */
  function Branches(net: Net, chain: nat, route: seq<End>, d: Denom): seq<bool>
    requires IsRoute(net, chain, route)
    decreases |route|
  {
    if route == [] then [] else
      var far := net[route[0]];
      [IsReceiverChainSource(route[0].hop, d)] +
      Branches(net, far.chain, route[1..], Received(route[0].hop, far.hop, d))
  }

  /** The journey home: the far ends of the outward journey, last first. */
  function Homeward(net: Net, chain: nat, route: seq<End>): seq<End>
    requires IsRoute(net, chain, route)
    decreases |route|
  {
    if route == [] then [] else Homeward(net, net[route[0]].chain, route[1..]) + [net[route[0]]]
  }

  function Opposite(branches: seq<bool>): seq<bool> {
    if branches == [] then [] else Opposite(branches[1..]) + [!branches[0]]
  }

  lemma {:induction false} RouteAppend(net: Net, chain: nat, route: seq<End>, e: End)
    requires IsRoute(net, chain, route) && e in net && e.chain == Destination(net, chain, route)
    ensures IsRoute(net, chain, route + [e])
    ensures Destination(net, chain, route + [e]) == net[e].chain
    decreases |route|
  {
    if route == [] {
      assert (route + [e])[1..] == [];
    } else {
      RouteAppend(net, net[route[0]].chain, route[1..], e);
      assert (route + [e])[1..] == route[1..] + [e];
    }
  }

  lemma {:induction false} CarryAppend(net: Net, chain: nat, route: seq<End>, e: End, d: Denom)
    requires IsRoute(net, chain, route) && IsRoute(net, chain, route + [e]) && e in net
    ensures Carry(net, chain, route + [e], d) == Received(e.hop, net[e].hop, Carry(net, chain, route, d))
    decreases |route|
  {
    if route == [] {
      assert (route + [e])[1..] == [];
    } else {
      assert (route + [e])[1..] == route[1..] + [e];
      CarryAppend(net, net[route[0]].chain, route[1..], e, Received(route[0].hop, net[route[0]].hop, d));
    }
  }

  lemma {:induction false} BranchesAppend(net: Net, chain: nat, route: seq<End>, e: End, d: Denom)
    requires IsRoute(net, chain, route) && IsRoute(net, chain, route + [e]) && e in net
    ensures Branches(net, chain, route + [e], d)
         == Branches(net, chain, route, d) + [IsReceiverChainSource(e.hop, Carry(net, chain, route, d))]
    decreases |route|
  {
    if route == [] {
      assert (route + [e])[1..] == [];
    } else {
      assert (route + [e])[1..] == route[1..] + [e];
      BranchesAppend(net, net[route[0]].chain, route[1..], e, Received(route[0].hop, net[route[0]].hop, d));
    }
  }

  /** The journey home is a journey, back to where the outward one began. */
  lemma {:induction false} HomewardIsRoute(net: Net, chain: nat, route: seq<End>)
    requires ValidNet(net) && IsRoute(net, chain, route)
    ensures var there, home := Destination(net, chain, route), Homeward(net, chain, route);
      IsRoute(net, there, home) && Destination(net, there, home) == chain
    decreases |route|
  {
    if route != [] {
      var far := net[route[0]];
      HomewardIsRoute(net, far.chain, route[1..]);
      RouteAppend(net, Destination(net, chain, route), Homeward(net, far.chain, route[1..]), far);
    }
  }

  /** A journey, one hop at a time. */
  lemma FirstHop(net: Net, chain: nat, route: seq<End>, d: Denom)
    requires route != [] && IsRoute(net, chain, route)
    ensures var e, rest := route[0], route[1..];
      && e in net && e.chain == chain && IsRoute(net, net[e].chain, rest)
      && Destination(net, chain, route) == Destination(net, net[e].chain, rest)
      && Homeward(net, chain, route) == Homeward(net, net[e].chain, rest) + [net[e]]
      && Carry(net, chain, route, d) == Carry(net, net[e].chain, rest, Received(e.hop, net[e].hop, d))
      && Branches(net, chain, route, d)
         == [IsReceiverChainSource(e.hop, d)] + Branches(net, net[e].chain, rest, Received(e.hop, net[e].hop, d))
  {
  }

  /** A routed token carried along any journey stays routed, and carried home again is the token that left. */
  lemma {:induction false} CarriedHome(net: Net, chain: nat, route: seq<End>, d: Denom)
    requires ValidNet(net) && IsRoute(net, chain, route) && Routed(net, chain, d)
    requires IsRoute(net, Destination(net, chain, route), Homeward(net, chain, route))
    ensures var there, out := Destination(net, chain, route), Carry(net, chain, route, d);
      Routed(net, there, out) && Carry(net, there, Homeward(net, chain, route), out) == d
    decreases |route|
  {
    if route != [] {
      CarriedHomeStep(net, chain, route, d);
    }
  }

  lemma {:induction false} CarriedHomeStep(net: Net, chain: nat, route: seq<End>, d: Denom)
    requires ValidNet(net) && route != [] && IsRoute(net, chain, route) && Routed(net, chain, d)
    requires IsRoute(net, Destination(net, chain, route), Homeward(net, chain, route))
    ensures var there, out := Destination(net, chain, route), Carry(net, chain, route, d);
      Routed(net, there, out) && Carry(net, there, Homeward(net, chain, route), out) == d
    decreases |route|, 0
  {
    FirstHop(net, chain, route, d);
    var e, far, rest := route[0], net[route[0]], route[1..];
    var r, there, out := Received(e.hop, far.hop, d), Destination(net, chain, route), Carry(net, chain, route, d);
    var back := Homeward(net, far.chain, rest);
    assert Routed(net, far.chain, r) && Received(far.hop, e.hop, r) == d by {
      CrossChannel(net, e, d);
    }
    assert IsRoute(net, there, back) by {
      HomewardIsRoute(net, far.chain, rest);
    }
    assert Routed(net, there, out) && Carry(net, there, back, out) == r by {
      CarriedHome(net, far.chain, rest, r);
    }
    assert Carry(net, there, back + [far], out) == Received(far.hop, net[far].hop, r) by {
      CarryAppend(net, there, back, far, out);
    }
  }

  /** Every homeward hop takes the opposite branch of its outward hop. */
  lemma {:induction false} OppositeBranches(net: Net, chain: nat, route: seq<End>, d: Denom)
    requires ValidNet(net) && IsRoute(net, chain, route) && Routed(net, chain, d)
    requires IsRoute(net, Destination(net, chain, route), Homeward(net, chain, route))
    ensures Branches(net, Destination(net, chain, route), Homeward(net, chain, route), Carry(net, chain, route, d))
         == Opposite(Branches(net, chain, route, d))
    decreases |route|
  {
    if route != [] {
      OppositeBranchesStep(net, chain, route, d);
    }
  }

  lemma {:induction false} OppositeBranchesStep(net: Net, chain: nat, route: seq<End>, d: Denom)
    requires ValidNet(net) && route != [] && IsRoute(net, chain, route) && Routed(net, chain, d)
    requires IsRoute(net, Destination(net, chain, route), Homeward(net, chain, route))
    ensures Branches(net, Destination(net, chain, route), Homeward(net, chain, route), Carry(net, chain, route, d))
         == Opposite(Branches(net, chain, route, d))
    decreases |route|, 0
  {
    FirstHop(net, chain, route, d);
    var e, far, rest := route[0], net[route[0]], route[1..];
    var r, there, out := Received(e.hop, far.hop, d), Destination(net, chain, route), Carry(net, chain, route, d);
    var back, first := Homeward(net, far.chain, rest), IsReceiverChainSource(e.hop, d);
    assert Routed(net, far.chain, r) && IsReceiverChainSource(far.hop, r) == !first by {
      CrossChannel(net, e, d);
    }
    assert IsRoute(net, there, back) by {
      HomewardIsRoute(net, far.chain, rest);
    }
    assert Carry(net, there, back, out) == r by {
      CarriedHome(net, far.chain, rest, r);
    }
    assert Branches(net, there, back, out) == Opposite(Branches(net, far.chain, rest, r)) by {
      OppositeBranches(net, far.chain, rest, r);
    }
    assert Branches(net, there, back + [far], out) == Branches(net, there, back, out) + [!first] by {
      BranchesAppend(net, there, back, far, out);
    }
    OppositeStep(first, Branches(net, far.chain, rest, r));
  }

  lemma OppositeStep(first: bool, rest: seq<bool>)
    ensures Opposite([first] + rest) == Opposite(rest) + [!first]
  {
    assert ([first] + rest)[1..] == rest;
  }

  /** A routed token carried along any journey and home again is the token that left,
      and every homeward hop takes the opposite branch of its outward hop. */
  lemma ThereAndBack(net: Net, chain: nat, route: seq<End>, d: Denom)
    requires ValidNet(net) && IsRoute(net, chain, route) && Routed(net, chain, d)
    ensures var there := Destination(net, chain, route);
      var out := Carry(net, chain, route, d);
      var home := Homeward(net, chain, route);
      && Routed(net, there, out)
      && IsRoute(net, there, home)
      && Destination(net, there, home) == chain
      && Carry(net, there, home, out) == d
      && Branches(net, there, home, out) == Opposite(Branches(net, chain, route, d))
  {
    HomewardIsRoute(net, chain, route);
    CarriedHome(net, chain, route, d);
    OppositeBranches(net, chain, route, d);
  }
}
