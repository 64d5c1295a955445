/** Every denomination can be held: for any trace there is a network, and a state of it that satisfies the
    invariants, in which a user holds any amount of it. */
module Holdings {
  import opened Basics
  import opened Denoms
  import opened Sums
  import opened Transfer
  import opened TokenNetwork

  type Banks = map<nat, Coins>

  /** The banks alone satisfy the invariants. */
  ghost predicate Stocked(net: Net, banks: Banks)
    requires ValidNet(net)
  {
    Inv(net, State(banks, map[]))
  }

  /** A transfer that is no longer owed weighs nothing. */
  lemma PaidWeighsNothing(banks: Banks, k: Key, e: Entry, src: End, d: Denom)
    requires !Owed(e)
    ensures InFlight(State(banks, map[k := e]), src, d) == 0 && InFlight(State(banks, map[]), src, d) == 0
  {
    SumZero(map[k := e], InFlightWeight(src, d));
    SumZero<Key, Entry>(map[], InFlightWeight(src, d));
  }

  lemma PaidIsStocked(net: Net, banks: Banks, k: Key, e: Entry)
    requires ValidNet(net) && k.src in net && !Owed(e)
    ensures Inv(net, State(banks, map[k := e])) <==> Stocked(net, banks)
  {
    var s, t := State(banks, map[k := e]), State(banks, map[]);
    forall f: End, d: Denom | f in net ensures Pegged(net, s, f, d) <==> Pegged(net, t, f, d) {
      PaidWeighsNothing(banks, k, e, f, d);
      PaidWeighsNothing(banks, k, e, net[f], AddPrefix(d, net[f].hop));
    }
  }

  lemma CarriedStock(net: Net, banks: Banks, e: End, d: Denom, n: nat, name: string)
    requires ValidNet(net) && e in net && e.chain in banks && IsSenderChainSource(e.hop, d)
    requires n <= Balance(banks[e.chain], User(name), d)
    ensures var k, policy, data := Key(e, 0), Policy(true, true, {name}, {}), TransferData(d, n, name, name);
      var s := Act(net, Act(net, State(banks, map[]), Send(k, policy, data)), Deliver(k, policy));
      && s.packets == map[k := Entry(data, Delivered)] && e.chain in s.banks && net[e].chain in s.banks
      && n <= Balance(s.banks[net[e].chain], User(name), AddPrefix(d, net[e].hop))
      && n <= Balance(s.banks[e.chain], Escrow(e.hop), d)
  {
  }

  /** Carry an amount across a channel, away from its source. */
  lemma CarryStock(net: Net, banks: Banks, e: End, d: Denom, n: nat, name: string) returns (after: Banks)
    requires ValidNet(net) && e in net && e.chain in banks && Stocked(net, banks) && IsSenderChainSource(e.hop, d)
    requires n <= Balance(banks[e.chain], User(name), d)
    ensures Stocked(net, after) && e.chain in after && net[e].chain in after
    ensures n <= Balance(after[net[e].chain], User(name), AddPrefix(d, net[e].hop))
    ensures n <= Balance(after[e.chain], Escrow(e.hop), d)
  {
    var k, policy, data := Key(e, 0), Policy(true, true, {name}, {}), TransferData(d, n, name, name);
    var s0 := State(banks, map[]);
    var s1 := Act(net, s0, Send(k, policy, data));
    var s2 := Act(net, s1, Deliver(k, policy));
    ActKeepsInv(net, s0, Send(k, policy, data));
    ActKeepsInv(net, s1, Deliver(k, policy));
    after := s2.banks;
    CarriedStock(net, banks, e, d, n, name);
    PaidIsStocked(net, after, k, Entry(data, Delivered));
  }

  // ----- A line of chains for a trace -----

  /** Chain `i + 2` is where the first `i` hops of the trace lead. */
  function ChainAt(i: nat): nat {
    i + 2
  }

  /** The hop that leads from chain `i - 1` of the line to chain `i`: not the one by which the token came there. */
  function Onward(trace: seq<Hop>, i: nat): Hop
    requires 1 <= i <= |trace|
  {
    if i == 1 then Hop("", "") else Hop(trace[i - 2].port + "'", trace[i - 2].channel)
  }

  function Line(trace: seq<Hop>, i: nat): Net
    requires i <= |trace|
  {
    if i == 0 then map[] else
      var e, f := End(ChainAt(i - 1), Onward(trace, i)), End(ChainAt(i), trace[i - 1]);
      Line(trace, i - 1)[e := f][f := e]
  }

  lemma OnwardIsOther(trace: seq<Hop>, i: nat)
    requires 1 < i <= |trace|
    ensures Onward(trace, i) != trace[i - 2]
  {
    assert |Onward(trace, i).port| == |trace[i - 2].port| + 1;
  }

  /** Two new ends make a valid network larger. */
  lemma NewChannel(net: Net, e: End, f: End)
    requires ValidNet(net) && e !in net && f !in net && e != f
    ensures ValidNet(net[e := f][f := e]) && Within(net, net[e := f][f := e])
  {
  }

  /** All ends of the line are on its chains, and its last chain has one end only. */
  predicate OnLine(line: Net, trace: seq<Hop>, i: nat)
    requires i <= |trace|
  {
    forall e <- line :: 2 <= e.chain <= ChainAt(i) && (e.chain == ChainAt(i) ==> i > 0 && e.hop == trace[i - 1])
  }

  lemma {:induction false} LineIsValid(trace: seq<Hop>, i: nat)
    requires i <= |trace|
    ensures ValidNet(Line(trace, i)) && OnLine(Line(trace, i), trace, i)
    ensures i > 0 ==> Within(Line(trace, i - 1), Line(trace, i))
  {
    if i > 0 {
      LineIsValid(trace, i - 1);
      if i > 1 {
        OnwardIsOther(trace, i);
      }
      NewChannel(Line(trace, i - 1), End(ChainAt(i - 1), Onward(trace, i)), End(ChainAt(i), trace[i - 1]));
    }
  }

  /** The one network is part of the other. */
  predicate Within(line: Net, net: Net) {
    forall e <- line :: e in net && net[e] == line[e]
  }

  /** Carry an amount of a base token along the line. */
  lemma {:induction false} StockLine(net: Net, trace: seq<Hop>, base: string, i: nat, n: nat,
                                     name: string) returns (banks: Banks)
    requires ValidNet(net) && i <= |trace| && Within(Line(trace, i), net)
    ensures Stocked(net, banks) && ChainAt(i) in banks
    ensures n <= Balance(banks[ChainAt(i)], User(name), Denom(trace[..i], base))
  {
    if i == 0 {
      banks := map[ChainAt(0) := map[Slot(User(name), Denom([], base)) := n]];
      GenesisInv(net, State(banks, map[]));
      assert trace[..0] == [];
    } else {
      LineIsValid(trace, i);
      var before := StockLine(net, trace, base, i - 1, n, name);
      banks := StockNext(net, before, trace, base, i, n, name);
    }
  }

  lemma StockNext(net: Net, before: Banks, trace: seq<Hop>, base: string, i: nat, n: nat,
                  name: string) returns (banks: Banks)
    requires ValidNet(net) && 0 < i <= |trace| && Within(Line(trace, i), net) && Stocked(net, before)
    requires ChainAt(i - 1) in before && n <= Balance(before[ChainAt(i - 1)], User(name), Denom(trace[..i - 1], base))
    ensures Stocked(net, banks) && ChainAt(i) in banks
    ensures n <= Balance(banks[ChainAt(i)], User(name), Denom(trace[..i], base))
  {
    var e, d := End(ChainAt(i - 1), Onward(trace, i)), Denom(trace[..i - 1], base);
    assert e in Line(trace, i);
    if i > 1 {
      OnwardIsOther(trace, i);
    }
    banks := CarryStock(net, before, e, d, n, name);
    assert AddPrefix(d, trace[i - 1]) == Denom(trace[..i], base);
  }

  /** For any channel hops and any denomination that does not come through the sending one, there are a network with
      that channel, from chain `a` to chain 1, and banks that satisfy the invariants with any amount in its escrow. */
  lemma EscrowCanHold(src: Hop, dst: Hop, d: Denom, n: nat, name: string) returns (net: Net, banks: Banks, a: nat)
    requires !StartsWith(d, src)
    ensures ValidNet(net) && Stocked(net, banks) && a in banks && 1 in banks && a != 1
    ensures End(a, src) in net && net[End(a, src)] == End(1, dst)
    ensures n <= Balance(banks[a], Escrow(src), d)
  {
    var i := |d.trace|;
    var line := Line(d.trace, i);
    LineIsValid(d.trace, i);
    a := ChainAt(i);
    net := line[End(a, src) := End(1, dst)][End(1, dst) := End(a, src)];
    assert End(a, src) !in line && End(1, dst) !in line;
    NewChannel(line, End(a, src), End(1, dst));
    var stock := StockLine(net, d.trace, d.base, i, n, name);
    assert d.trace[..i] == d.trace && Denom(d.trace, d.base) == d;
    banks := CarryStock(net, stock, End(a, src), d, n, name);
  }
}
