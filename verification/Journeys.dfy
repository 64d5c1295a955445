/** The handlers not only never go wrong, they also let a transfer through: whole journeys of a packet
    from any state of the world that satisfies the invariants, so from any reachable one. */
module Journeys {
  import opened Basics
  import opened Denoms
  import opened Transfer
  import opened TokenNetwork
  import opened Packets
  import opened Settlement

  predicate Before(t: Tick, u: Tick) {
    Below(t.height, u.height) && t.time <= u.time
  }

  function Clock(c: Chain): Tick {
    Tick(c.height, c.time)
  }

  /** The chain after a new block. */
  function Ticked(c: Chain, t: Tick): Chain {
    c.(height := t.height, time := t.time, past := c.past[t.height := Snapshot(c.store, t.time)])
  }

  function Put(w: World, chain: nat, c: Chain): World {
    World(w.chains[chain := c], w.sent)
  }

  /** Both chains of the end exist, and the packet names its ends. */
  predicate OnRoute(net: Net, w: World, at: End, p: Packet) {
    at in net && at.chain in w.chains && net[at].chain in w.chains && p.src == at.hop && p.dst == net[at].hop
  }

  /** The host at `at` will take the packet: it is addressed and numbered right, not expired, and its sender can pay. */
  predicate CanSend(net: Net, w: World, at: End, policy: Policy, p: Packet, seen: Tick) {
    && OnRoute(net, w, at, p)
    && !Expired(p, seen.height, seen.time)
    && p.src in w.chains[at.chain].store.nextSend && p.number == w.chains[at.chain].store.nextSend[p.src]
    && policy.canSend && p.data.sender in policy.accounts - policy.blocked
    && p.data.amount <= Balance(w.chains[at.chain].coins, User(p.data.sender), p.data.denom)
  }

  predicate Committed(s: Store, p: Packet) {
    Place(p.src, p.number) in s.commitments && s.commitments[Place(p.src, p.number)] == Commit(p)
  }

  predicate Unseen(s: Store, p: Packet) {
    Place(p.dst, p.number) !in s.receipts && Place(p.dst, p.number) !in s.acks
  }

  // ----- Single steps -----

  lemma RunStep(net: Net, w: World, m: Msg, rest: seq<Msg>)
    ensures Run(net, w, [m] + rest) == Run(net, Dispatch(net, w, m), rest)
  {
    assert ([m] + rest)[1..] == rest;
  }

  /** The chain after it has sent the packet. */
  function SentChain(c: Chain, coins: Coins, p: Packet): Chain {
    c.(coins := coins, store := c.store.(
      nextSend := c.store.nextSend[p.src := p.number + 1],
      commitments := c.store.commitments[Place(p.src, p.number) := Commit(p)]))
  }

  function AfterSend(net: Net, w: World, at: End, policy: Policy, p: Packet, seen: Tick): World {
    Dispatch(net, w, MsgTransfer(at, policy, p, seen.height, seen.time))
  }

  lemma SendStep(net: Net, w: World, at: End, policy: Policy, p: Packet, seen: Tick)
    requires CanSend(net, w, at, policy, p, seen)
    ensures var paid := SendTransfer(policy, w.chains[at.chain].coins, p.src, p.data);
      && paid.Some?
      && AfterSend(net, w, at, policy, p, seen)
         == World(w.chains[at.chain := SentChain(w.chains[at.chain], paid.value, p)], w.sent[Key(at, p.number) := p])
  {
  }

  lemma TickStep(net: Net, w: World, e: End, t: Tick)
    requires e.chain in w.chains && Before(Clock(w.chains[e.chain]), t)
    ensures Dispatch(net, w, MsgNewBlock(e, t.height, t.time)) == Put(w, e.chain, Ticked(w.chains[e.chain], t))
  {
  }

  /** The chain after it has received the packet and paid it out. */
  function ReceivedChain(c: Chain, coins: Coins, p: Packet): Chain {
    c.(coins := coins, store := c.store.(
      receipts := c.store.receipts + {Place(p.dst, p.number)}, acks := c.store.acks[Place(p.dst, p.number) := Success]))
  }

  lemma RecvStep(net: Net, w: World, at: End, policy: Policy, p: Packet, height: Height, filed: Tick)
    requires ValidNet(net) && OnRoute(net, w, at, p)
    requires height in w.chains[at.chain].past && Committed(w.chains[at.chain].past[height].store, p)
    requires var c := w.chains[net[at].chain];
      && !Expired(p, c.height, c.time) && Unseen(c.store, p)
      && ReceiveTransfer(policy, c.coins, p.src, p.dst, p.data).Some?
    ensures var m, c := MsgRecvPacket(net[at], policy, p, height, filed), w.chains[net[at].chain];
      && Pays(net, w, m, Key(at, p.number))
      && Dispatch(net, w, m)
         == Put(w, net[at].chain, ReceivedChain(c, ReceiveTransfer(policy, c.coins, p.src, p.dst, p.data).value, p))
  {
  }

  lemma AckStep(net: Net, w: World, at: End, policy: Policy, p: Packet, height: Height, filed: Tick)
    requires OnRoute(net, w, at, p) && Committed(w.chains[at.chain].store, p)
    requires var c := w.chains[net[at].chain];
      height in c.past && Place(p.dst, p.number) in c.past[height].store.acks
      && c.past[height].store.acks[Place(p.dst, p.number)] == Success
    ensures Dispatch(net, w, MsgAcknowledgement(at, policy, p, Success, height, filed))
         == Put(w, at.chain, Settled(w.chains[at.chain], w.chains[at.chain].coins, p))
  {
  }

  lemma TimeoutStep(net: Net, w: World, at: End, policy: Policy, p: Packet, height: Height, filed: Tick)
    requires OnRoute(net, w, at, p) && Committed(w.chains[at.chain].store, p)
    requires RefundTransfer(policy, w.chains[at.chain].coins, p.src, p.data).Some?
    requires var c := w.chains[net[at].chain];
      && height in c.past && Expired(p, filed.height, filed.time)
      && Place(p.dst, p.number) !in c.past[height].store.receipts
    ensures var m, c := MsgTimeout(at, policy, p, height, filed), w.chains[at.chain];
      && Pays(net, w, m, Key(at, p.number))
      && Dispatch(net, w, m) == Put(w, at.chain, Settled(c, RefundTransfer(policy, c.coins, p.src, p.data).value, p))
  {
  }

  // ----- Coins along the way -----

  /** A send moves nothing but the sent denomination, and takes the amount from the sender. */
  lemma SendBalances(policy: Policy, c: Coins, src: Hop, data: TransferData, a: Account, d: Denom)
    requires SendTransfer(policy, c, src, data).Some?
    ensures var after := SendTransfer(policy, c, src, data).value;
      && Balance(after, User(data.sender), data.denom) + data.amount == Balance(c, User(data.sender), data.denom)
      && (d != data.denom ==> Balance(after, a, d) == Balance(c, a, d))
  {
  }

  /** A receipt moves nothing but the denomination that arrives, and pays the amount to the receiver. */
  lemma ReceiveBalances(policy: Policy, c: Coins, src: Hop, dst: Hop, data: TransferData, a: Account, d: Denom)
    requires ReceiveTransfer(policy, c, src, dst, data).Some?
    ensures var after, arrived := ReceiveTransfer(policy, c, src, dst, data).value, Received(src, dst, data.denom);
      && Balance(after, User(data.receiver), arrived) == Balance(c, User(data.receiver), arrived) + data.amount
      && (d != arrived ==> Balance(after, a, d) == Balance(c, a, d))
      && arrived != data.denom
  {
  }

  // ----- What a sent packet will need is there -----

  lemma SendIsUnseen(net: Net, w: World, at: End, policy: Policy, p: Packet, seen: Tick)
    requires ValidNet(net) && WorldInv(net, w) && CanSend(net, w, at, policy, p, seen)
    ensures Unseen(w.chains[net[at].chain].store, p)
  {
    SendFacts(net, w, MsgTransfer(at, policy, p, seen.height, seen.time));
    NewIsUnreceived(net, w.sent, Key(at, p.number), w.chains[net[at].chain]);
  }

  lemma SendIsPending(net: Net, w: World, at: End, policy: Policy, p: Packet, seen: Tick)
    requires CanSend(net, w, at, policy, p, seen) && Unseen(w.chains[net[at].chain].store, p)
    ensures var v, k := AfterSend(net, w, at, policy, p, seen), Key(at, p.number);
      k in v.sent && v.sent[k] == p && Wired(net, v, k) && StatusOf(net, v, k) == Pending
  {
    SendStep(net, w, at, policy, p, seen);
  }

  lemma SendKeeps(net: Net, w: World, at: End, policy: Policy, p: Packet, seen: Tick)
    requires ValidNet(net) && WorldInv(net, w) && Inv(net, Abs(net, w))
    ensures Inv(net, Abs(net, AfterSend(net, w, at, policy, p, seen)))
  {
    var m := MsgTransfer(at, policy, p, seen.height, seen.time);
    Refines(net, w, m);
    ActKeepsInv(net, Abs(net, w), Image(net, w, m));
  }

  /** Its payout at the far end, and its refund at the near end. */
  lemma SendIsFunded(net: Net, w: World, at: End, policy: Policy, p: Packet, seen: Tick, other: Policy)
    requires ValidNet(net) && WorldInv(net, w) && Inv(net, Abs(net, w)) && CanSend(net, w, at, policy, p, seen)
    ensures Unseen(w.chains[net[at].chain].store, p)
    ensures var v := AfterSend(net, w, at, policy, p, seen);
      && OnRoute(net, v, at, p)
      && (other.canReceive && p.data.receiver in other.accounts - other.blocked ==>
          ReceiveTransfer(other, v.chains[net[at].chain].coins, p.src, p.dst, p.data).Some?)
      && (p.data.sender in other.accounts - other.blocked ==>
          RefundTransfer(other, v.chains[at.chain].coins, p.src, p.data).Some?)
  {
    SendIsUnseen(net, w, at, policy, p, seen);
    SendIsPending(net, w, at, policy, p, seen);
    SendKeeps(net, w, at, policy, p, seen);
    ChainsAreFunded(net, AfterSend(net, w, at, policy, p, seen), Key(at, p.number), other);
  }

  // ----- Arrival -----

  /** The far chain's clock after block `t` of the chain of `at`. */
  function FarClock(net: Net, w: World, at: End, t: Tick): Tick
    requires at in net && net[at].chain in w.chains
  {
    if net[at].chain == at.chain then t else Clock(w.chains[net[at].chain])
  }

  /** The receiver's balance rose by the amount, the sender's fell by it, and the packet is settled. */
  predicate Arrived(net: Net, w: World, v: World, at: End, p: Packet)
    requires OnRoute(net, w, at, p)
  {
    var arrived := Received(p.src, p.dst, p.data.denom);
    && OnRoute(net, v, at, p)
    && Balance(v.chains[at.chain].coins, User(p.data.sender), p.data.denom) + p.data.amount
       == Balance(w.chains[at.chain].coins, User(p.data.sender), p.data.denom)
    && Balance(v.chains[net[at].chain].coins, User(p.data.receiver), arrived)
       == Balance(w.chains[net[at].chain].coins, User(p.data.receiver), arrived) + p.data.amount
    && StatusOf(net, v, Key(at, p.number)) == Delivered
    && Place(p.src, p.number) !in v.chains[at.chain].store.commitments
  }

  /** The world after a block of the sender's chain and the receipt of the packet. */
  function Handed(net: Net, w: World, at: End, policy: Policy, p: Packet, t: Tick): World
    requires OnRoute(net, w, at, p)
    requires ReceiveTransfer(policy, w.chains[net[at].chain].coins, p.src, p.dst, p.data).Some?
  {
    var w2 := Put(w, at.chain, Ticked(w.chains[at.chain], t));
    var c := w2.chains[net[at].chain];
    Put(w2, net[at].chain, ReceivedChain(c, ReceiveTransfer(policy, c.coins, p.src, p.dst, p.data).value, p))
  }

  lemma HandedFacts(net: Net, w: World, at: End, policy: Policy, p: Packet, t: Tick)
    requires OnRoute(net, w, at, p)
    requires ReceiveTransfer(policy, w.chains[net[at].chain].coins, p.src, p.dst, p.data).Some?
    ensures var v := Handed(net, w, at, policy, p, t);
      && v.sent == w.sent && Clock(v.chains[net[at].chain]) == FarClock(net, w, at, t)
      && Place(p.dst, p.number) in v.chains[net[at].chain].store.acks
      && v.chains[net[at].chain].store.acks[Place(p.dst, p.number)] == Success
  {
  }

  /** A block of the sender's chain, and then the packet is received. */
  lemma HandOver(net: Net, w: World, at: End, policy: Policy, p: Packet, t: Tick, rest: seq<Msg>)
    requires ValidNet(net) && OnRoute(net, w, at, p) && Before(Clock(w.chains[at.chain]), t)
    requires Committed(w.chains[at.chain].store, p) && Unseen(w.chains[net[at].chain].store, p)
    requires !Expired(p, FarClock(net, w, at, t).height, FarClock(net, w, at, t).time)
    requires ReceiveTransfer(policy, w.chains[net[at].chain].coins, p.src, p.dst, p.data).Some?
    ensures Run(net, w,
                [MsgNewBlock(at, t.height, t.time), MsgRecvPacket(net[at], policy, p, t.height, t)] + rest)
         == Run(net, Handed(net, w, at, policy, p, t), rest)
  {
    var m2, m3 := MsgNewBlock(at, t.height, t.time), MsgRecvPacket(net[at], policy, p, t.height, t);
    var w2 := Put(w, at.chain, Ticked(w.chains[at.chain], t));
    TickStep(net, w, at, t);
    RecvStep(net, w2, at, policy, p, t.height, t);
    RunStep(net, w, m2, [m3] + rest);
    RunStep(net, w2, m3, rest);
    assert [m2, m3] + rest == [m2] + ([m3] + rest);
  }

  /** The world after a block of the receiver's chain and the acknowledgement of the packet. */
  function Confirmed(net: Net, w: World, at: End, p: Packet, t: Tick): World
    requires OnRoute(net, w, at, p)
  {
    var w2 := Put(w, net[at].chain, Ticked(w.chains[net[at].chain], t));
    Put(w2, at.chain, Settled(w2.chains[at.chain], w2.chains[at.chain].coins, p))
  }

  /** A block of the receiver's chain, and then the packet is acknowledged. */
  lemma Confirm(net: Net, w: World, at: End, policy: Policy, p: Packet, t: Tick)
    requires OnRoute(net, w, at, p) && Before(Clock(w.chains[net[at].chain]), t)
    requires Committed(w.chains[at.chain].store, p)
    requires Place(p.dst, p.number) in w.chains[net[at].chain].store.acks
    requires w.chains[net[at].chain].store.acks[Place(p.dst, p.number)] == Success
    ensures Run(net, w, [MsgNewBlock(net[at], t.height, t.time),
                         MsgAcknowledgement(at, policy, p, Success, t.height, t)])
         == Confirmed(net, w, at, p, t)
  {
    var m4, m5 := MsgNewBlock(net[at], t.height, t.time), MsgAcknowledgement(at, policy, p, Success, t.height, t);
    var w4 := Put(w, net[at].chain, Ticked(w.chains[net[at].chain], t));
    TickStep(net, w, net[at], t);
    AckStep(net, w4, at, policy, p, t.height, t);
    RunStep(net, w, m4, [m5]);
    RunStep(net, w4, m5, []);
    assert [m4] + [m5] == [m4, m5] && [m5] + [] == [m5];
  }

  function Delivery(net: Net, at: End, policyA: Policy, policyB: Policy, p: Packet, seen: Tick, tickA: Tick,
                    tickB: Tick): seq<Msg>
    requires at in net
  {
    [MsgTransfer(at, policyA, p, seen.height, seen.time)] +
    ([MsgNewBlock(at, tickA.height, tickA.time), MsgRecvPacket(net[at], policyB, p, tickA.height, tickA)] +
     [MsgNewBlock(net[at], tickB.height, tickB.time),
      MsgAcknowledgement(at, policyA, p, Success, tickB.height, tickB)])
  }

  /** A delivery in coins. */
  lemma DeliveryPays(net: Net, w: World, at: End, policyA: Policy, policyB: Policy, p: Packet, seen: Tick)
    requires CanSend(net, w, at, policyA, p, seen)
    requires var w1 := AfterSend(net, w, at, policyA, p, seen);
      OnRoute(net, w1, at, p) && ReceiveTransfer(policyB, w1.chains[net[at].chain].coins, p.src, p.dst, p.data).Some?
    ensures var w1, arrived := AfterSend(net, w, at, policyA, p, seen), Received(p.src, p.dst, p.data.denom);
      var b := ReceiveTransfer(policyB, w1.chains[net[at].chain].coins, p.src, p.dst, p.data).value;
      var a := if net[at].chain == at.chain then b else w1.chains[at.chain].coins;
      && Balance(a, User(p.data.sender), p.data.denom) + p.data.amount
         == Balance(w.chains[at.chain].coins, User(p.data.sender), p.data.denom)
      && Balance(b, User(p.data.receiver), arrived)
         == Balance(w.chains[net[at].chain].coins, User(p.data.receiver), arrived) + p.data.amount
  {
    SendStep(net, w, at, policyA, p, seen);
    var b := AfterSend(net, w, at, policyA, p, seen).chains[net[at].chain].coins;
    ReceiveBalances(policyB, b, p.src, p.dst, p.data, User(p.data.sender), p.data.denom);
    SendBalances(policyA, w.chains[at.chain].coins, p.src, p.data, User(p.data.receiver),
                 Received(p.src, p.dst, p.data.denom));
  }

  /** A delivery in coins and marks, from the world after the send. */
  lemma DeliveryLeaves(net: Net, w: World, at: End, policy: Policy, p: Packet, tickA: Tick, tickB: Tick)
    requires ValidNet(net) && OnRoute(net, w, at, p) && Committed(w.chains[at.chain].store, p)
    requires ReceiveTransfer(policy, w.chains[net[at].chain].coins, p.src, p.dst, p.data).Some?
    ensures var w3 := Handed(net, w, at, policy, p, tickA);
      && OnRoute(net, w3, at, p) && Committed(w3.chains[at.chain].store, p)
      && var v := Confirmed(net, w3, at, p, tickB);
      && var b := ReceiveTransfer(policy, w.chains[net[at].chain].coins, p.src, p.dst, p.data).value;
      && OnRoute(net, v, at, p) && v.chains[net[at].chain].coins == b
      && v.chains[at.chain].coins == (if net[at].chain == at.chain then b else w.chains[at.chain].coins)
      && StatusOf(net, v, Key(at, p.number)) == Delivered
      && Place(p.src, p.number) !in v.chains[at.chain].store.commitments
  {
  }

  lemma SentArrives(net: Net, w: World, at: End, policyA: Policy, policyB: Policy, p: Packet,
                    seen: Tick, tickA: Tick, tickB: Tick)
    requires ValidNet(net) && CanSend(net, w, at, policyA, p, seen) && Unseen(w.chains[net[at].chain].store, p)
    requires Before(Clock(w.chains[at.chain]), tickA) && Before(FarClock(net, w, at, tickA), tickB)
    requires !Expired(p, FarClock(net, w, at, tickA).height, FarClock(net, w, at, tickA).time)
    requires var w1 := AfterSend(net, w, at, policyA, p, seen);
      OnRoute(net, w1, at, p) && ReceiveTransfer(policyB, w1.chains[net[at].chain].coins, p.src, p.dst, p.data).Some?
    ensures Arrived(net, w, Run(net, w, Delivery(net, at, policyA, policyB, p, seen, tickA, tickB)), at, p)
  {
    var m, w1 := MsgTransfer(at, policyA, p, seen.height, seen.time), AfterSend(net, w, at, policyA, p, seen);
    var msgs := Delivery(net, at, policyA, policyB, p, seen, tickA, tickB);
    var late := [MsgNewBlock(net[at], tickB.height, tickB.time),
                 MsgAcknowledgement(at, policyA, p, Success, tickB.height, tickB)];
    SendStep(net, w, at, policyA, p, seen);
    RunStep(net, w, m, msgs[1..]);
    HandOver(net, w1, at, policyB, p, tickA, late);
    DeliveryLeaves(net, w1, at, policyB, p, tickA, tickB);
    DeliveryPays(net, w, at, policyA, policyB, p, seen);
    Confirm(net, Handed(net, w1, at, policyB, p, tickA), at, policyA, p, tickB);
  }

  /** From any state, a transfer its sender can pay for, relayed before it times out to a receiver the host serves,
      arrives. */
  lemma HonestTransferArrives(net: Net, w: World, at: End, policyA: Policy, policyB: Policy, p: Packet,
                              seen: Tick, tickA: Tick, tickB: Tick)
    requires ValidNet(net) && WorldInv(net, w) && Inv(net, Abs(net, w)) && CanSend(net, w, at, policyA, p, seen)
    requires Before(Clock(w.chains[at.chain]), tickA) && Before(FarClock(net, w, at, tickA), tickB)
    requires !Expired(p, FarClock(net, w, at, tickA).height, FarClock(net, w, at, tickA).time)
    requires policyB.canReceive && p.data.receiver in policyB.accounts - policyB.blocked
    ensures Arrived(net, w, Run(net, w, Delivery(net, at, policyA, policyB, p, seen, tickA, tickB)), at, p)
  {
    SendIsFunded(net, w, at, policyA, p, seen, policyB);
    SentArrives(net, w, at, policyA, policyB, p, seen, tickA, tickB);
  }

  // ----- Return -----

  function Lapse(net: Net, at: End, policyA: Policy, policyR: Policy, p: Packet, seen: Tick, tick: Tick): seq<Msg>
    requires at in net
  {
    [MsgTransfer(at, policyA, p, seen.height, seen.time)] +
    [MsgNewBlock(net[at], tick.height, tick.time), MsgTimeout(at, policyR, p, tick.height, tick)]
  }

  /** A block of the receiver's chain at which the packet has expired, and then its timeout. */
  lemma PendingReturns(net: Net, w: World, at: End, policy: Policy, p: Packet, t: Tick)
    requires OnRoute(net, w, at, p) && Before(Clock(w.chains[net[at].chain]), t) && Expired(p, t.height, t.time)
    requires Committed(w.chains[at.chain].store, p) && Unseen(w.chains[net[at].chain].store, p)
    requires RefundTransfer(policy, w.chains[at.chain].coins, p.src, p.data).Some?
    ensures var v := Run(net, w, [MsgNewBlock(net[at], t.height, t.time),
                                  MsgTimeout(at, policy, p, t.height, t)]);
      && at.chain in v.chains
      && v.chains[at.chain].coins == RefundTransfer(policy, w.chains[at.chain].coins, p.src, p.data).value
      && Place(p.src, p.number) !in v.chains[at.chain].store.commitments
  {
    var m2, m3 := MsgNewBlock(net[at], t.height, t.time), MsgTimeout(at, policy, p, t.height, t);
    var w2 := Put(w, net[at].chain, Ticked(w.chains[net[at].chain], t));
    TickStep(net, w, net[at], t);
    TimeoutStep(net, w2, at, policy, p, t.height, t);
    RunStep(net, w, m2, [m3]);
    RunStep(net, w2, m3, []);
    assert [m2] + [m3] == [m2, m3] && [m3] + [] == [m3];
  }

  lemma SentReturns(net: Net, w: World, at: End, policyA: Policy, policyR: Policy, p: Packet, seen: Tick, tick: Tick,
                    a: Account, d: Denom)
    requires CanSend(net, w, at, policyA, p, seen) && Unseen(w.chains[net[at].chain].store, p)
    requires Before(Clock(w.chains[net[at].chain]), tick) && Expired(p, tick.height, tick.time)
    requires var v := AfterSend(net, w, at, policyA, p, seen);
      at.chain in v.chains && RefundTransfer(policyR, v.chains[at.chain].coins, p.src, p.data).Some?
    ensures var v := Run(net, w, Lapse(net, at, policyA, policyR, p, seen, tick));
      && at.chain in v.chains
      && Balance(v.chains[at.chain].coins, a, d) == Balance(w.chains[at.chain].coins, a, d)
      && Place(p.src, p.number) !in v.chains[at.chain].store.commitments
  {
    var m, w1 := MsgTransfer(at, policyA, p, seen.height, seen.time), AfterSend(net, w, at, policyA, p, seen);
    var msgs := Lapse(net, at, policyA, policyR, p, seen, tick);
    SendStep(net, w, at, policyA, p, seen);
    RunStep(net, w, m, msgs[1..]);
    PendingReturns(net, w1, at, policyR, p, tick);
    RefundReversesSend(policyA, policyR, w.chains[at.chain].coins, w1.chains[at.chain].coins, p.src, p.data, a, d);
  }

  /** From any state, a transfer that nobody relays until it has timed out comes back: after the timeout every
      balance on the sender's chain is what it was, and the packet is settled. */
  lemma ExpiredTransferReturns(net: Net, w: World, at: End, policyA: Policy, policyR: Policy, p: Packet,
                               seen: Tick, tick: Tick, a: Account, d: Denom)
    requires ValidNet(net) && WorldInv(net, w) && Inv(net, Abs(net, w)) && CanSend(net, w, at, policyA, p, seen)
    requires Before(Clock(w.chains[net[at].chain]), tick) && Expired(p, tick.height, tick.time)
    requires p.data.sender in policyR.accounts - policyR.blocked
    ensures var v := Run(net, w, Lapse(net, at, policyA, policyR, p, seen, tick));
      && at.chain in v.chains
      && Balance(v.chains[at.chain].coins, a, d) == Balance(w.chains[at.chain].coins, a, d)
      && Place(p.src, p.number) !in v.chains[at.chain].store.commitments
  {
    SendIsFunded(net, w, at, policyA, p, seen, policyR);
    SentReturns(net, w, at, policyA, policyR, p, seen, tick, a, d);
  }

  // ----- Nothing is stuck -----

  /** The packet was sent and still has its commitment. */
  predicate Outstanding(net: Net, w: World, k: Key) {
    k in w.sent && Wired(net, w, k) && Departure(k) in w.chains[k.src.chain].store.commitments
  }

  /** The packet is settled: it has been paid out, and its commitment is gone. */
  predicate Done(net: Net, w: World, k: Key) {
    Wired(net, w, k) && PaidOut(net, w, k) && Departure(k) !in w.chains[k.src.chain].store.commitments
  }

  /** The host is willing to pay either party of the transfer. */
  predicate Serves(policy: Policy, data: TransferData) {
    policy.canReceive && {data.sender, data.receiver} <= policy.accounts - policy.blocked
  }

  function NextTick(c: Chain): Tick {
    Tick(c.height.(number := c.height.number + 1), c.time)
  }

  lemma {:induction false} NoTimeoutIsTruthful(net: Net, w: World, msgs: seq<Msg>)
    requires forall m <- msgs :: !m.MsgTimeout?
    ensures AllTruthful(net, w, msgs)
    decreases |msgs|
  {
    if msgs != [] {
      assert msgs[0] in msgs;
      NoTimeoutIsTruthful(net, Dispatch(net, w, msgs[0]), msgs[1..]);
    }
  }

  lemma TruthfulPair(net: Net, w: World, m: Msg, n: Msg)
    requires Truthful(net, w, m) && Truthful(net, Dispatch(net, w, m), n)
    ensures AllTruthful(net, w, [m, n])
  {
    assert [m, n][1..] == [n] && [n][1..] == [];
  }

  lemma ErrorStep(net: Net, w: World, at: End, policy: Policy, p: Packet, height: Height, filed: Tick)
    requires OnRoute(net, w, at, p) && Committed(w.chains[at.chain].store, p)
    requires RefundTransfer(policy, w.chains[at.chain].coins, p.src, p.data).Some?
    requires var c := w.chains[net[at].chain];
      height in c.past && Place(p.dst, p.number) in c.past[height].store.acks
      && c.past[height].store.acks[Place(p.dst, p.number)] == Error
    ensures var c := w.chains[at.chain];
      Dispatch(net, w, MsgAcknowledgement(at, policy, p, Error, height, filed))
      == Put(w, at.chain, Settled(c, RefundTransfer(policy, c.coins, p.src, p.data).value, p))
  {
  }

  /** A received packet: a block of the receiver's chain, and then its acknowledgement. */
  function Answer(net: Net, w: World, at: End, policy: Policy, p: Packet): seq<Msg>
    requires OnRoute(net, w, at, p) && Place(p.dst, p.number) in w.chains[net[at].chain].store.acks
  {
    var far, t := w.chains[net[at].chain], NextTick(w.chains[net[at].chain]);
    [MsgNewBlock(net[at], t.height, t.time),
     MsgAcknowledgement(at, policy, p, far.store.acks[Place(p.dst, p.number)], t.height, t)]
  }

  lemma ReceivedIsSettled(net: Net, w: World, at: End, policy: Policy, p: Packet)
    requires OnRoute(net, w, at, p) && Committed(w.chains[at.chain].store, p)
    requires Key(at, p.number) in w.sent && Place(p.dst, p.number) in w.chains[net[at].chain].store.acks
    requires w.chains[net[at].chain].store.acks[Place(p.dst, p.number)] == Error ==>
      RefundTransfer(policy, w.chains[at.chain].coins, p.src, p.data).Some?
    ensures Done(net, Run(net, w, Answer(net, w, at, policy, p)), Key(at, p.number))
  {
    var t, ack := NextTick(w.chains[net[at].chain]), w.chains[net[at].chain].store.acks[Place(p.dst, p.number)];
    var m4, m5 := MsgNewBlock(net[at], t.height, t.time), MsgAcknowledgement(at, policy, p, ack, t.height, t);
    var w4 := Put(w, net[at].chain, Ticked(w.chains[net[at].chain], t));
    TickStep(net, w, net[at], t);
    if ack == Success {
      AckStep(net, w4, at, policy, p, t.height, t);
    } else {
      ErrorStep(net, w4, at, policy, p, t.height, t);
    }
    RunStep(net, w, m4, [m5]);
    RunStep(net, w4, m5, []);
    assert [m4] + [m5] == [m4, m5] && [m5] + [] == [m5];
  }

  /** An unreceived packet that is too late: a block of the receiver's chain, and then its timeout. */
  function Giveup(net: Net, w: World, at: End, policy: Policy, p: Packet): seq<Msg>
    requires OnRoute(net, w, at, p)
  {
    var t := NextTick(w.chains[net[at].chain]);
    [MsgNewBlock(net[at], t.height, t.time), MsgTimeout(at, policy, p, t.height, t)]
  }

  lemma LateIsSettled(net: Net, w: World, at: End, policy: Policy, p: Packet)
    requires OnRoute(net, w, at, p) && Committed(w.chains[at.chain].store, p) && Key(at, p.number) in w.sent
    requires Unseen(w.chains[net[at].chain].store, p)
    requires Expired(p, NextTick(w.chains[net[at].chain]).height, w.chains[net[at].chain].time)
    requires RefundTransfer(policy, w.chains[at.chain].coins, p.src, p.data).Some?
    ensures AllTruthful(net, w, Giveup(net, w, at, policy, p))
    ensures Done(net, Run(net, w, Giveup(net, w, at, policy, p)), Key(at, p.number))
  {
    var t := NextTick(w.chains[net[at].chain]);
    var m2, m3 := MsgNewBlock(net[at], t.height, t.time), MsgTimeout(at, policy, p, t.height, t);
    var w2 := Put(w, net[at].chain, Ticked(w.chains[net[at].chain], t));
    TickStep(net, w, net[at], t);
    TimeoutStep(net, w2, at, policy, p, t.height, t);
    TruthfulPair(net, w, m2, m3);
    RunStep(net, w, m2, [m3]);
    RunStep(net, w2, m3, []);
    assert [m2] + [m3] == [m2, m3] && [m3] + [] == [m3];
  }

  /** An unreceived packet that is in time: it is handed over and confirmed. */
  function Handover(net: Net, w: World, at: End, policy: Policy, p: Packet): seq<Msg>
    requires OnRoute(net, w, at, p)
  {
    var t := NextTick(w.chains[at.chain]);
    var u := FarClock(net, w, at, t);
    var v := Tick(u.height.(number := u.height.number + 1), u.time);
    [MsgNewBlock(at, t.height, t.time), MsgRecvPacket(net[at], policy, p, t.height, t)] +
    [MsgNewBlock(net[at], v.height, v.time), MsgAcknowledgement(at, policy, p, Success, v.height, v)]
  }

  lemma ConfirmedIsDone(net: Net, w: World, at: End, policy: Policy, p: Packet, t: Tick, v: Tick)
    requires ValidNet(net) && OnRoute(net, w, at, p) && Committed(w.chains[at.chain].store, p)
    requires Key(at, p.number) in w.sent
    requires ReceiveTransfer(policy, w.chains[net[at].chain].coins, p.src, p.dst, p.data).Some?
    ensures var w3 := Handed(net, w, at, policy, p, t);
      && OnRoute(net, w3, at, p) && Committed(w3.chains[at.chain].store, p)
      && Done(net, Confirmed(net, w3, at, p, v), Key(at, p.number))
  {
    DeliveryLeaves(net, w, at, policy, p, t, v);
    HandedFacts(net, w, at, policy, p, t);
  }

  /** The world after the handover: received, confirmed. */
  lemma HandoverRun(net: Net, w: World, at: End, policy: Policy, p: Packet, t: Tick, v: Tick)
    requires ValidNet(net) && OnRoute(net, w, at, p) && Committed(w.chains[at.chain].store, p)
    requires Unseen(w.chains[net[at].chain].store, p) && Before(Clock(w.chains[at.chain]), t)
    requires var now := FarClock(net, w, at, t); !Expired(p, now.height, now.time) && Before(now, v)
    requires ReceiveTransfer(policy, w.chains[net[at].chain].coins, p.src, p.dst, p.data).Some?
    ensures var w3 := Handed(net, w, at, policy, p, t);
      && OnRoute(net, w3, at, p)
      && Run(net, w, [MsgNewBlock(at, t.height, t.time), MsgRecvPacket(net[at], policy, p, t.height, t)] +
                     [MsgNewBlock(net[at], v.height, v.time), MsgAcknowledgement(at, policy, p, Success, v.height, v)])
         == Confirmed(net, w3, at, p, v)
  {
    HandOver(net, w, at, policy, p, t, [MsgNewBlock(net[at], v.height, v.time),
                                        MsgAcknowledgement(at, policy, p, Success, v.height, v)]);
    HandedFacts(net, w, at, policy, p, t);
    DeliveryLeaves(net, w, at, policy, p, t, v);
    Confirm(net, Handed(net, w, at, policy, p, t), at, policy, p, v);
  }

  lemma InTimeIsSettled(net: Net, w: World, at: End, policy: Policy, p: Packet)
    requires ValidNet(net) && OnRoute(net, w, at, p) && Committed(w.chains[at.chain].store, p)
    requires Key(at, p.number) in w.sent
    requires Unseen(w.chains[net[at].chain].store, p)
    requires var now := FarClock(net, w, at, NextTick(w.chains[at.chain])); !Expired(p, now.height, now.time)
    requires ReceiveTransfer(policy, w.chains[net[at].chain].coins, p.src, p.dst, p.data).Some?
    ensures Done(net, Run(net, w, Handover(net, w, at, policy, p)), Key(at, p.number))
  {
    var t := NextTick(w.chains[at.chain]);
    var u := FarClock(net, w, at, t);
    var v := Tick(u.height.(number := u.height.number + 1), u.time);
    HandoverRun(net, w, at, policy, p, t, v);
    ConfirmedIsDone(net, w, at, policy, p, t, v);
  }

  /** The packet has its commitment, and what it needs next is there. */
  predicate Ready(net: Net, w: World, at: End, p: Packet, policy: Policy) {
    && OnRoute(net, w, at, p) && Committed(w.chains[at.chain].store, p) && Key(at, p.number) in w.sent
    && var near, far, to := w.chains[at.chain], w.chains[net[at].chain], Place(p.dst, p.number);
    && (to in far.store.acks || Unseen(far.store, p))
    && (to in far.store.acks && far.store.acks[to] == Error ==> RefundTransfer(policy, near.coins, p.src, p.data).Some?)
    && (Unseen(far.store, p) ==> RefundTransfer(policy, near.coins, p.src, p.data).Some?)
    && (Unseen(far.store, p) ==> ReceiveTransfer(policy, far.coins, p.src, p.dst, p.data).Some?)
  }

  /** What the invariants say of an outstanding packet. */
  lemma OutstandingFacts(net: Net, w: World, k: Key)
    requires ValidNet(net) && WorldInv(net, w) && Outstanding(net, w, k)
    ensures var p, near, far := w.sent[k], w.chains[k.src.chain], w.chains[net[k.src].chain];
      && OnRoute(net, w, k.src, p) && p.number == k.number && Committed(near.store, p)
      && far.store.acks.Keys == far.store.receipts
  {
    assert PacketInv(net, w, k);
    assert ChainOk(net, w.sent, k.src.chain, w.chains[k.src.chain]);
    assert End(k.src.chain, k.src.hop) == k.src && Key(k.src, k.number) == k;
    assert ChainOk(net, w.sent, net[k.src].chain, w.chains[net[k.src].chain]);
  }

  lemma OutstandingIsReady(net: Net, w: World, k: Key, policy: Policy)
    requires ValidNet(net) && WorldInv(net, w) && Inv(net, Abs(net, w))
    requires Outstanding(net, w, k) && Serves(policy, w.sent[k].data)
    ensures w.sent[k].number == k.number && Ready(net, w, k.src, w.sent[k], policy)
  {
    OutstandingFacts(net, w, k);
    ChainsAreFunded(net, w, k, policy);
  }

  lemma ReadyIsSettled(net: Net, w: World, at: End, p: Packet, policy: Policy) returns (msgs: seq<Msg>)
    requires ValidNet(net) && Ready(net, w, at, p, policy)
    ensures AllTruthful(net, w, msgs) && Done(net, Run(net, w, msgs), Key(at, p.number))
  {
    var far, now := w.chains[net[at].chain], FarClock(net, w, at, NextTick(w.chains[at.chain]));
    if Place(p.dst, p.number) in far.store.acks {
      msgs := Answer(net, w, at, policy, p);
      NoTimeoutIsTruthful(net, w, msgs);
      ReceivedIsSettled(net, w, at, policy, p);
    } else if Expired(p, now.height, now.time) {
      msgs := Giveup(net, w, at, policy, p);
      ExpiredStays(p, now.height, now.time, NextTick(far).height, far.time);
      LateIsSettled(net, w, at, policy, p);
    } else {
      msgs := Handover(net, w, at, policy, p);
      NoTimeoutIsTruthful(net, w, msgs);
      InTimeIsSettled(net, w, at, policy, p);
    }
  }

  /** From any state that satisfies the invariants, every packet that still has its commitment can be settled: by its
      acknowledgement, by its receipt and acknowledgement, or by its timeout, whichever it has come to. */
  lemma EveryPacketCanBeSettled(net: Net, w: World, k: Key, policy: Policy) returns (msgs: seq<Msg>)
    requires ValidNet(net) && WorldInv(net, w) && Inv(net, Abs(net, w))
    requires Outstanding(net, w, k) && Serves(policy, w.sent[k].data)
    ensures AllTruthful(net, w, msgs) && Done(net, Run(net, w, msgs), k)
  {
    OutstandingIsReady(net, w, k, policy);
    msgs := ReadyIsSettled(net, w, k.src, w.sent[k], policy);
  }
}
