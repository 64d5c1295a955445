/** The packet handlers together with the light clients that check their proofs: where a client files a state
    decides when a packet counts as timed out, so what holds of all runs holds of those without late headers. */
module EndToEnd {
  import opened Basics
  import opened Denoms
  import opened Transfer
  import opened TokenNetwork
  import opened Packets
  import opened Settlement
  import opened Journeys
  import opened Timeouts
  import TC = TendermintClient
  import CR = ClientRuns

  /** The channels, the client that each end uses for the chain at the other, and the states of each chain's blocks. */
  datatype Wiring = Wiring(net: Net, clients: map<End, nat>, blocks: map<nat, TC.ConsensusStates>)

  predicate ValidWiring(x: Wiring) {
    && ValidNet(x.net)
    && forall e <- x.net :: e in x.clients && x.net[e].chain in x.blocks && CR.NoSentinel(x.blocks[x.net[e].chain])
  }

  /** All chains, and the clients that each of them hosts. */
  type Hosts = map<nat, CR.Host>

  datatype System = System(world: World, hosts: Hosts)

  datatype Event = OfPacket(m: Msg) | OfClient(chain: nat, c: CR.Msg)

  /** A proof is checked against the root of the state that an active client has under the height the message names,
      and shows the store of a block with that root; what has timed out is judged by that height and the state's
      time. New blocks are the chain's own. */
  predicate Verified(x: Wiring, hosts: Hosts, m: Msg)
    requires ValidWiring(x)
  {
    if m.MsgTransfer? then true
    else if m.MsgNewBlock? then
      m.at.chain in x.blocks && m.height in x.blocks[m.at.chain] && x.blocks[m.at.chain][m.height].timestamp == m.time
    else
      && m.at in x.net && m.at.chain in hosts && x.clients[m.at] in hosts[m.at.chain].clients
      && var client, blocks := hosts[m.at.chain].clients[x.clients[m.at]], x.blocks[x.net[m.at].chain];
      && client.state.frozenHeight.None? && AtMost(m.filed.height, client.state.latestHeight)
      && m.filed.height in client.cons && client.cons[m.filed.height].timestamp == m.filed.time
      && CR.Shows(blocks, client.cons[m.filed.height], m.height)
  }

  ghost function Step(x: Wiring, s: System, e: Event): System
    requires ValidWiring(x)
  {
    match e
    case OfPacket(m) => if Verified(x, s.hosts, m) then s.(world := Dispatch(x.net, s.world, m)) else s
    case OfClient(chain, c) =>
      if chain in s.hosts then s.(hosts := s.hosts[chain := CR.Dispatch(s.hosts[chain], c)]) else s
  }

  ghost function RunAll(x: Wiring, s: System, events: seq<Event>): System
    requires ValidWiring(x)
    decreases |events|
  {
    if events == [] then s else RunAll(x, Step(x, s, events[0]), events[1..])
  }

  /** The packet messages of a run whose proofs are good: those that reach the packet handlers. */
  ghost function Reaching(x: Wiring, s: System, events: seq<Event>): seq<Msg>
    requires ValidWiring(x)
    decreases |events|
  {
    if events == [] then []
    else (if events[0].OfPacket? && Verified(x, s.hosts, events[0].m) then [events[0].m] else []) +
         Reaching(x, Step(x, s, events[0]), events[1..])
  }

  // ----- Runs without late headers -----

  /** The event installs no late or foreign header in a client that some channel end uses. */
  ghost predicate OnTime(x: Wiring, s: System, e: Event)
    requires ValidWiring(x)
  {
    e.OfClient? && e.chain in s.hosts ==>
      forall f <- x.net :: f.chain == e.chain ==>
        CR.OnTime(s.hosts[e.chain], e.c, x.clients[f], x.blocks[x.net[f].chain])
  }

  ghost predicate AllOnTime(x: Wiring, s: System, events: seq<Event>)
    requires ValidWiring(x)
    decreases |events|
  {
    events == [] || (OnTime(x, s, events[0]) && AllOnTime(x, Step(x, s, events[0]), events[1..]))
  }

  /** Every client in use has all states under the heights and times of the blocks they show. */
  predicate Filed(x: Wiring, s: System)
    requires ValidWiring(x)
  {
    forall f <- x.net :: f.chain in s.hosts ==>
      CR.ClientFiledRight(s.hosts[f.chain], x.clients[f], x.blocks[x.net[f].chain])
  }

  /** The past blocks of every chain have the times that are on record. */
  predicate Timed(x: Wiring, w: World) {
    forall chain <- w.chains, h <- w.chains[chain].past :: chain in x.blocks && h in x.blocks[chain] ==>
      w.chains[chain].past[h].time == x.blocks[chain][h].timestamp
  }

  lemma DispatchKeepsTimed(x: Wiring, w: World, hosts: Hosts, m: Msg)
    requires ValidWiring(x) && Timed(x, w) && Verified(x, hosts, m)
    ensures Timed(x, Dispatch(x.net, w, m))
  {
    if Accepted(x.net, w, m) {
      DispatchForm(x.net, w, m);
      PastGrows(x.net, w, m);
    }
  }

  /** Only a new block adds to a chain's past. */
  lemma PastGrows(net: Net, w: World, m: Msg)
    requires Accepted(net, w, m)
    ensures var c, d := w.chains[m.at.chain], Handle(net, w, m).value;
      if m.MsgNewBlock? then d.past == c.past[m.height := Snapshot(c.store, m.time)] else d.past == c.past
  {
  }

  lemma StepKeepsFiled(x: Wiring, s: System, e: Event)
    requires ValidWiring(x) && Filed(x, s) && OnTime(x, s, e)
    ensures Filed(x, Step(x, s, e))
  {
    if e.OfClient? && e.chain in s.hosts {
      forall f <- x.net | f.chain == e.chain
        ensures CR.ClientFiledRight(CR.Dispatch(s.hosts[e.chain], e.c), x.clients[f], x.blocks[x.net[f].chain])
      {
        CR.OnTimeKeepsFiling(s.hosts[e.chain], e.c, x.clients[f], x.blocks[x.net[f].chain]);
      }
    }
  }

  /** A state that is filed right gives its proofs the right date. */
  lemma VerifiedIsTruthful(x: Wiring, s: System, m: Msg)
    requires ValidWiring(x) && Filed(x, s) && Timed(x, s.world) && Verified(x, s.hosts, m)
    ensures Truthful(x.net, s.world, m)
  {
    if m.MsgTimeout? {
      var cons, blocks := s.hosts[m.at.chain].clients[x.clients[m.at]].cons, x.blocks[x.net[m.at].chain];
      assert CR.Genuine(blocks, m.filed.height, cons[m.filed.height]);
      assert m.height == m.filed.height && blocks[m.height].timestamp == m.filed.time;
    }
  }

  /** One event of the whole system, and then the rest of its run. */
  lemma RunAllStep(x: Wiring, s: System, events: seq<Event>)
    requires ValidWiring(x) && events != []
    ensures var e, v := events[0], Step(x, s, events[0]);
      && RunAll(x, s, events) == RunAll(x, v, events[1..])
      && (if e.OfPacket? && Verified(x, s.hosts, e.m)
          then Reaching(x, s, events) == [e.m] + Reaching(x, v, events[1..]) && v.world == Dispatch(x.net, s.world, e.m)
          else Reaching(x, s, events) == Reaching(x, v, events[1..]) && v.world == s.world)
  {
    var rest := Reaching(x, Step(x, s, events[0]), events[1..]);
    assert [] + rest == rest;
  }

  /** A run of the whole system is a run of the packet handlers on the messages that reach them. */
  lemma {:induction false} Projects(x: Wiring, s: System, events: seq<Event>)
    requires ValidWiring(x)
    ensures RunAll(x, s, events).world == Run(x.net, s.world, Reaching(x, s, events))
    decreases |events|
  {
    if events != [] {
      var e, v := events[0], Step(x, s, events[0]);
      RunAllStep(x, s, events);
      Projects(x, v, events[1..]);
      if e.OfPacket? && Verified(x, s.hosts, e.m) {
        RunStep(x.net, s.world, e.m, Reaching(x, v, events[1..]));
      }
    }
  }

  lemma TruthfulCons(net: Net, w: World, m: Msg, rest: seq<Msg>)
    requires Truthful(net, w, m) && AllTruthful(net, Dispatch(net, w, m), rest)
    ensures AllTruthful(net, w, [m] + rest)
  {
    assert ([m] + rest)[1..] == rest;
  }

  /** Without late headers, every timeout that reaches the handlers is dated right. */
  lemma {:induction false} OnTimeIsTruthful(x: Wiring, s: System, events: seq<Event>)
    requires ValidWiring(x) && Filed(x, s) && Timed(x, s.world) && AllOnTime(x, s, events)
    ensures AllTruthful(x.net, s.world, Reaching(x, s, events))
    decreases |events|
  {
    if events != [] {
      var e, v := events[0], Step(x, s, events[0]);
      RunAllStep(x, s, events);
      StepKeepsFiled(x, s, e);
      if e.OfPacket? && Verified(x, s.hosts, e.m) {
        DispatchKeepsTimed(x, s.world, s.hosts, e.m);
        OnTimeIsTruthful(x, v, events[1..]);
        VerifiedIsTruthful(x, s, e.m);
        TruthfulCons(x.net, s.world, e.m, Reaching(x, v, events[1..]));
      } else {
        OnTimeIsTruthful(x, v, events[1..]);
      }
    }
  }

  /** In every run of packets, clients and blocks without late headers: every channel end is backed and every trace
      reduced, every base token is conserved, and every packet is paid out at most once. */
  lemma OnTimeRunsAreSafe(x: Wiring, start: System, events: seq<Event>, t: Token, k: Key)
    requires ValidWiring(x) && Start(x.net, start.world) && Filed(x, start) && Timed(x, start.world)
    requires AllOnTime(x, start, events)
    ensures var before, after := Abs(x.net, start.world), Abs(x.net, RunAll(x, start, events).world);
      AllBacked(x.net, after) && AllRouted(x.net, after) && Wealth(x.net, after, t) == Wealth(x.net, before, t)
    ensures Payouts(x.net, start.world, Reaching(x, start, events), k)
         == if PaidOut(x.net, RunAll(x, start, events).world, k) then 1 else 0
  {
    var msgs := Reaching(x, start, events);
    Projects(x, start, events);
    OnTimeIsTruthful(x, start, events);
    StartInv(x.net, start.world);
    EveryRunIsBacked(x.net, start.world, msgs);
    EveryRunConserves(x.net, start.world, msgs, t);
    SettledOnce(x.net, start.world, msgs, k);
  }

  // ----- A run with a late header -----

  function PacketEvents(msgs: seq<Msg>): seq<Event> {
    if msgs == [] then [] else [OfPacket(msgs[0])] + PacketEvents(msgs[1..])
  }

  function ClientEvents(chain: nat, msgs: seq<CR.Msg>): seq<Event> {
    if msgs == [] then [] else [OfClient(chain, msgs[0])] + ClientEvents(chain, msgs[1..])
  }

  /** One event, and then the rest. */
  lemma ReachingStep(x: Wiring, s: System, e: Event, rest: seq<Event>)
    requires ValidWiring(x)
    ensures Reaching(x, s, [e] + rest)
         == (if e.OfPacket? && Verified(x, s.hosts, e.m) then [e.m] else []) + Reaching(x, Step(x, s, e), rest)
  {
    assert ([e] + rest)[1..] == rest;
  }

  lemma EventsPush(m: Msg, more: seq<Msg>, rest: seq<Event>)
    ensures PacketEvents([m] + more) + rest == [OfPacket(m)] + (PacketEvents(more) + rest)
  {
    assert ([m] + more)[1..] == more;
  }

  /** The first of several packet messages with good proofs. */
  lemma PacketFirst(x: Wiring, s: System, m: Msg, more: seq<Msg>, rest: seq<Event>)
    requires ValidWiring(x) && Verified(x, s.hosts, m)
    ensures Reaching(x, s, PacketEvents([m] + more) + rest)
         == [m] + Reaching(x, System(Dispatch(x.net, s.world, m), s.hosts), PacketEvents(more) + rest)
  {
    EventsPush(m, more, rest);
    ReachingStep(x, s, OfPacket(m), PacketEvents(more) + rest);
  }

  /** Packet messages with good proofs, one after the other. */
  lemma {:induction false} PacketSegment(x: Wiring, w: World, hosts: Hosts, msgs: seq<Msg>, rest: seq<Event>)
    requires ValidWiring(x) && forall m <- msgs :: Verified(x, hosts, m)
    ensures Reaching(x, System(w, hosts), PacketEvents(msgs) + rest)
         == msgs + Reaching(x, System(Run(x.net, w, msgs), hosts), rest)
    decreases |msgs|
  {
    if msgs == [] {
      assert PacketEvents(msgs) + rest == rest;
    } else {
      var m, more := msgs[0], msgs[1..];
      var v := Dispatch(x.net, w, m);
      var last := Reaching(x, System(Run(x.net, v, more), hosts), rest);
      assert msgs == [m] + more;
      assert Reaching(x, System(w, hosts), PacketEvents(msgs) + rest)
          == [m] + Reaching(x, System(v, hosts), PacketEvents(more) + rest) by {
        PacketFirst(x, System(w, hosts), m, more, rest);
      }
      assert Reaching(x, System(v, hosts), PacketEvents(more) + rest) == more + last by {
        PacketSegment(x, v, hosts, more, rest);
      }
      assert Run(x.net, w, msgs) == Run(x.net, v, more) by {
        RunStep(x.net, w, m, more);
      }
      assert [m] + (more + last) == msgs + last;
    }
  }

  /** The first of several client messages to one chain. */
  lemma ClientFirst(x: Wiring, s: System, chain: nat, c: CR.Msg, more: seq<CR.Msg>, rest: seq<Event>)
    requires ValidWiring(x) && chain in s.hosts
    ensures Reaching(x, s, ClientEvents(chain, [c] + more) + rest)
         == Reaching(x, System(s.world, s.hosts[chain := CR.Dispatch(s.hosts[chain], c)]),
                     ClientEvents(chain, more) + rest)
  {
    var later := ClientEvents(chain, more) + rest;
    assert ([c] + more)[1..] == more;
    assert ClientEvents(chain, [c] + more) + rest == [OfClient(chain, c)] + later;
    ReachingStep(x, s, OfClient(chain, c), later);
    assert [] + Reaching(x, Step(x, s, OfClient(chain, c)), later) == Reaching(x, Step(x, s, OfClient(chain, c)), later);
  }

  /** Client messages to one chain, one after the other. */
  lemma {:induction false} ClientSegment(x: Wiring, w: World, hosts: Hosts, chain: nat, msgs: seq<CR.Msg>,
                                         rest: seq<Event>)
    requires ValidWiring(x) && chain in hosts
    ensures Reaching(x, System(w, hosts), ClientEvents(chain, msgs) + rest)
         == Reaching(x, System(w, hosts[chain := CR.Run(hosts[chain], msgs)]), rest)
    decreases |msgs|
  {
    if msgs == [] {
      assert ClientEvents(chain, msgs) + rest == rest;
      assert hosts[chain := hosts[chain]] == hosts;
    } else {
      var after := hosts[chain := CR.Dispatch(hosts[chain], msgs[0])];
      assert msgs == [msgs[0]] + msgs[1..];
      ClientFirst(x, System(w, hosts), chain, msgs[0], msgs[1..], rest);
      ClientSegment(x, w, after, chain, msgs[1..], rest);
      assert after[chain := CR.Run(after[chain], msgs[1..])] == hosts[chain := CR.Run(hosts[chain], msgs)];
    }
  }

  const HOP := Hop("transfer", "channel-0")
  const ATOM := Denom([], "atom")
  const OPEN := Policy(true, true, {"alice", "bob"}, {})
  const NO_CLIENTS := CR.Host(map[], 0, map[], 0, Height(0, 1))

  /** Block 5 of chain 0, and the client of chain 0 on chain 1. */
  function NearState(): TC.ConsensusState {
    TC.ConsensusState("near5", 50, "validators")
  }

  function NearClient(cs: TC.ClientState): TC.ClientState {
    cs.(chainName := "near")
  }

  /** Chains 0 and 1 with one channel, and a block of each every ten seconds. */
  function Pair(): Wiring {
    Wiring(map[End(0, HOP) := End(1, HOP), End(1, HOP) := End(0, HOP)], map[End(0, HOP) := 0, End(1, HOP) := 0],
           map[0 := map[Height(0, 5) := NearState()],
               1 := map[Height(0, 5) := CR.StateAt(5), Height(0, 7) := CR.StateAt(7), Height(0, 10) := CR.StateAt(10)]])
  }

  /** Alice has 100 atoms on chain 0. */
  function Opening(): System {
    var store := Store(map[HOP := 1], map[], {}, map[]);
    System(World(map[0 := Chain(map[Slot(User("alice"), ATOM) := 100], store, Height(0, 4), 40, map[]),
                     1 := Chain(map[], store, Height(0, 5), 50, map[])], map[]),
           map[0 := NO_CLIENTS, 1 := NO_CLIENTS])
  }

  /** All of it goes to Bob on chain 1, to arrive there no later than block 9. */
  const GIFT := Packet(1, HOP, HOP, TransferData(ATOM, 100, "alice", "bob"), At(Height(0, 9)), None)

  /** The packet leaves; both chains make a block. */
  function Leaving(): seq<Msg> {
    [MsgTransfer(End(0, HOP), OPEN, GIFT, Height(0, 5), 50)] + [MsgNewBlock(End(1, HOP), Height(0, 7), 70)] +
    [MsgNewBlock(End(0, HOP), Height(0, 5), 50)]
  }

  /** It is received on top of block 7, and chain 1 goes on to block 10. */
  function Arriving(): seq<Msg> {
    [MsgRecvPacket(End(1, HOP), OPEN, GIFT, Height(0, 5), Tick(Height(0, 5), 50))] +
    [MsgNewBlock(End(1, HOP), Height(0, 10), 100)]
  }

  /** It is timed out on chain 0 by the state that the client there has under height 10. */
  function TimingOut(): seq<Msg> {
    [MsgTimeout(End(0, HOP), OPEN, GIFT, Height(0, 7), Tick(Height(0, 10), 70))]
  }

  /** Chain 0's client of chain 1 is created at block 5 and updated to block 10 and then to block 7. */
  function Story(cs: TC.ClientState): seq<Event> {
    PacketEvents(Leaving()) + (ClientEvents(1, [CR.MsgCreate(NearClient(cs), NearState())]) + (PacketEvents(Arriving()) +
    (ClientEvents(0, CR.Updates(NO_CLIENTS, cs, false) + [CR.MsgUpdate(0, CR.HeaderAt(7, 5))]) +
     (PacketEvents(TimingOut()) + []))))
  }

  lemma PairIsValid()
    ensures ValidWiring(Pair())
  {
  }

  lemma OpeningIsStart()
    ensures Start(Pair().net, Opening().world)
  {
    var w, s := Opening().world, Abs(Pair().net, Opening().world);
    assert s.banks[0] == w.chains[0].coins && s.banks[1] == w.chains[1].coins;
    assert Genesis(s);
  }

  lemma OpeningIsFiled()
    requires ValidWiring(Pair())
    ensures Filed(Pair(), Opening()) && Timed(Pair(), Opening().world)
  {
  }

  lemma GiftCanLeave()
    ensures CanSend(Pair().net, Opening().world, End(0, HOP), OPEN, GIFT, Tick(Height(0, 5), 50))
    ensures !Dated(GIFT, Tick(Height(0, 7), 70), Tick(Height(0, 10), 70))
  {
  }

  lemma GiftClocks()
    ensures var chains := Opening().world.chains;
      && Before(Clock(chains[0]), Tick(Height(0, 5), 50)) && Before(Clock(chains[1]), Tick(Height(0, 7), 70))
      && Balance(chains[0].coins, User("alice"), ATOM) == 100
      && Balance(chains[1].coins, User("bob"), AddPrefix(ATOM, HOP)) == 0
  {
  }

  /** The packet messages of the story pay the packet out twice. */
  lemma GiftPaidTwice()
    requires ValidWiring(Pair()) && Start(Pair().net, Opening().world)
    ensures var net, w, msgs := Pair().net, Opening().world, Leaving() + (Arriving() + TimingOut());
      && Payouts(net, w, msgs, Key(End(0, HOP), 1)) == 2
      && var chains := Run(net, w, msgs).chains;
      && 0 in chains && Balance(chains[0].coins, User("alice"), ATOM) == 100
      && 1 in chains && Balance(chains[1].coins, User("bob"), AddPrefix(ATOM, HOP)) == 100
  {
    StartInv(Pair().net, Opening().world);
    GiftCanLeave();
    GiftClocks();
    StoryIsTwice();
    MisdatedTimeoutPaysTwice(Pair().net, Opening().world, End(0, HOP), OPEN, OPEN, GIFT, Tick(Height(0, 5), 50),
                             Tick(Height(0, 5), 50), Tick(Height(0, 7), 70), Tick(Height(0, 10), 100),
                             Tick(Height(0, 10), 70));
    assert Received(HOP, HOP, ATOM) == AddPrefix(ATOM, HOP);
  }

  lemma LeavingIsVerified(hosts: Hosts)
    requires ValidWiring(Pair())
    ensures forall m <- Leaving() :: Verified(Pair(), hosts, m)
  {
  }

  lemma ArrivingIsVerified(hosts: Hosts, cs: TC.ClientState)
    requires ValidWiring(Pair()) && CR.FollowsChain(cs)
    requires 1 in hosts && hosts[1] == CR.Run(NO_CLIENTS, [CR.MsgCreate(NearClient(cs), NearState())])
    ensures forall m <- Arriving() :: Verified(Pair(), hosts, m)
  {
    var create := CR.MsgCreate(NearClient(cs), NearState());
    CR.RunAppend(NO_CLIENTS, [], create);
    assert [] + [create] == [create];
    CR.CreateStep(NO_CLIENTS, NearClient(cs), NearState());
  }

  lemma TimingOutIsVerified(hosts: Hosts, cs: TC.ClientState)
    requires ValidWiring(Pair()) && CR.FollowsChain(cs)
    requires 0 in hosts
    requires hosts[0] == CR.Run(NO_CLIENTS, CR.Updates(NO_CLIENTS, cs, false) + [CR.MsgUpdate(0, CR.HeaderAt(7, 5))])
    ensures forall m <- TimingOut() :: Verified(Pair(), hosts, m)
  {
    CR.LateHeaderIsMisfiled(NO_CLIENTS, cs, false);
    SevenIsShown(hosts[0]);
  }

  lemma SevenIsShown(h: CR.Host)
    requires ValidWiring(Pair())
    requires CR.Stands(h, 0, 10, CR.Kept(false)[Height(0, 10) := CR.StateAt(7)])
    ensures forall hosts: Hosts, m <- TimingOut() :: 0 in hosts && hosts[0] == h ==> Verified(Pair(), hosts, m)
  {
    var blocks := Pair().blocks[1];
    assert Height(0, 7) in blocks && blocks[Height(0, 7)] == CR.StateAt(7);
    assert CR.Shows(blocks, CR.StateAt(7), Height(0, 7));
  }

  /** All packet messages of the story get through. */
  lemma StoryIsDelivered(cs: TC.ClientState)
    requires CR.FollowsChain(cs) && ValidWiring(Pair())
    ensures Reaching(Pair(), Opening(), Story(cs)) == Leaving() + (Arriving() + TimingOut())
  {
    var x, w0, h0 := Pair(), Opening().world, Opening().hosts;
    var create := [CR.MsgCreate(NearClient(cs), NearState())];
    var late := CR.Updates(NO_CLIENTS, cs, false) + [CR.MsgUpdate(0, CR.HeaderAt(7, 5))];
    var last := PacketEvents(TimingOut()) + [];
    var w1, h1 := Run(x.net, w0, Leaving()), h0[1 := CR.Run(NO_CLIENTS, create)];
    var w2, h2 := Run(x.net, w1, Arriving()), h1[0 := CR.Run(NO_CLIENTS, late)];
    LeavingIsVerified(h0);
    PacketSegment(x, w0, h0, Leaving(),
                  ClientEvents(1, create) + (PacketEvents(Arriving()) + (ClientEvents(0, late) + last)));
    ClientSegment(x, w1, h0, 1, create, PacketEvents(Arriving()) + (ClientEvents(0, late) + last));
    ArrivingIsVerified(h1, cs);
    PacketSegment(x, w1, h1, Arriving(), ClientEvents(0, late) + last);
    ClientSegment(x, w2, h1, 0, late, last);
    TimingOutIsVerified(h2, cs);
    PacketSegment(x, w2, h2, TimingOut(), []);
    assert TimingOut() + [] == TimingOut();
  }

  /** The story is the general case of a misdated timeout. */
  lemma StoryIsTwice()
    ensures var net := Pair().net;
      Leaving() + (Arriving() + TimingOut())
      == [MsgTransfer(End(0, HOP), OPEN, GIFT, Height(0, 5), 50)] +
         Twice(net, End(0, HOP), OPEN, OPEN, GIFT, Tick(Height(0, 5), 50), Tick(Height(0, 7), 70),
               Tick(Height(0, 10), 100), Tick(Height(0, 10), 70))
  {
  }

  /** With one late header the packet is paid out twice: Bob has the amount, and so has Alice. */
  lemma LateHeaderPaysTwice(cs: TC.ClientState)
    requires CR.FollowsChain(cs)
    ensures ValidWiring(Pair()) && Start(Pair().net, Opening().world)
    ensures Filed(Pair(), Opening()) && Timed(Pair(), Opening().world)
    ensures Payouts(Pair().net, Opening().world, Reaching(Pair(), Opening(), Story(cs)), Key(End(0, HOP), 1)) == 2
    ensures var chains := RunAll(Pair(), Opening(), Story(cs)).world.chains;
      && 0 in chains && Balance(chains[0].coins, User("alice"), ATOM) == 100
      && 1 in chains && Balance(chains[1].coins, User("bob"), AddPrefix(ATOM, HOP)) == 100
  {
    PairIsValid();
    OpeningIsStart();
    OpeningIsFiled();
    GiftPaidTwice();
    StoryIsDelivered(cs);
    Projects(Pair(), Opening(), Story(cs));
  }

  // ----- A frozen client -----

  /** The client that the channel end uses is frozen. */
  predicate FrozenAt(x: Wiring, s: System, e: End) {
    && e in x.clients && e.chain in s.hosts && x.clients[e] in s.hosts[e.chain].clients
    && s.hosts[e.chain].clients[x.clients[e]].state.frozenHeight.Some?
  }

  predicate HostsOk(s: System) {
    forall chain <- s.hosts :: CR.HostOk(s.hosts[chain])
  }

  lemma StepKeepsFrozen(x: Wiring, s: System, e: Event, at: End)
    requires ValidWiring(x) && HostsOk(s) && FrozenAt(x, s, at)
    ensures HostsOk(Step(x, s, e)) && FrozenAt(x, Step(x, s, e), at)
  {
    if e.OfClient? && e.chain in s.hosts {
      CR.DispatchKeepsHost(s.hosts[e.chain], e.c);
      if e.chain == at.chain {
        assert CR.Evolves(s.hosts[at.chain].clients[x.clients[at]],
                          CR.Dispatch(s.hosts[at.chain], e.c).clients[x.clients[at]]);
      }
    }
  }

  /** Freezing is final and stops the channel end: once its client is frozen, then whatever events follow, no message to
      it that needs a proof changes anything. */
  lemma {:induction false} FrozenClientStopsPackets(x: Wiring, s: System, events: seq<Event>, m: Msg)
    requires ValidWiring(x) && HostsOk(s) && FrozenAt(x, s, m.at) && !m.MsgTransfer? && !m.MsgNewBlock?
    ensures Step(x, RunAll(x, s, events), OfPacket(m)) == RunAll(x, s, events)
    decreases |events|
  {
    if events != [] {
      StepKeepsFrozen(x, s, events[0], m.at);
      FrozenClientStopsPackets(x, Step(x, s, events[0]), events[1..], m);
    }
  }
}
