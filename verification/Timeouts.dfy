/** A timeout compares the packet's limits with the height under which the sender's client has filed the proven
    state. When that is not the state's own height, a packet can be refunded that was delivered. This module
    says exactly when it cannot. */
module Timeouts {
  import opened Basics
  import opened Denoms
  import opened Transfer
  import opened TokenNetwork
  import opened Packets
  import opened Settlement
  import opened Journeys
  import opened Holdings

  /** An accepted timeout that settles packet `p`, in a world that satisfies the invariants, with the state of
      `block`, filed under the height and time `filed`. */
  ghost predicate Meets(net: Net, w: World, m: Msg, p: Packet, block: Tick, filed: Tick) {
    && ValidNet(net) && WorldInv(net, w) && Inv(net, Abs(net, w))
    && m.MsgTimeout? && m.packet == p && m.height == block.height && m.filed == filed
    && Accepted(net, w, m) && Settles(w, m)
    && w.chains[net[m.at].chain].past[block.height].time == block.time
  }

  /** The packet had not been paid out before, and all is in order after. */
  ghost predicate Safe(net: Net, w: World, m: Msg)
    requires ValidNet(net) && Accepted(net, w, m) && m.MsgTimeout?
  {
    && !PaidOut(net, w, KeyOf(net, m))
    && WorldInv(net, Dispatch(net, w, m)) && Inv(net, Abs(net, Dispatch(net, w, m)))
  }

  ghost predicate AlwaysSafe(p: Packet, block: Tick, filed: Tick) {
    forall net, w, m :: Meets(net, w, m, p, block, filed) ==> Safe(net, w, m)
  }

  lemma DatedIsSafe(net: Net, w: World, m: Msg, p: Packet, block: Tick, filed: Tick)
    requires Meets(net, w, m, p, block, filed) && Dated(p, block, filed)
    ensures Safe(net, w, m)
  {
    PaysExactly(net, w, m, KeyOf(net, m));
    DispatchKeepsInv(net, w, m);
    Refines(net, w, m);
    ActKeepsInv(net, Abs(net, w), Image(net, w, m));
  }

  // ----- A world in which a misdated timeout refunds a delivered packet -----

  const EMPTY := Store(map[], map[], {}, map[])

  /** Packet `p` went from chain `a` to chain 1, where it was received after `block`. */
  function DeliveredChain(p: Packet, banks: Banks, a: nat, block: Tick, chain: nat): Chain
    requires chain in banks
  {
    var to := Place(p.dst, p.number);
    if chain == a then
      Chain(banks[chain], Store(map[p.src := p.number + 1], map[Place(p.src, p.number) := Commit(p)], {}, map[]),
            Height(0, 0), 0, map[])
    else if chain == 1 then
      Chain(banks[chain], Store(map[], map[], {to}, map[to := Success]), block.height, block.time,
            map[block.height := Snapshot(EMPTY, block.time)])
    else
      Chain(banks[chain], EMPTY, Height(0, 0), 0, map[])
  }

  function DeliveredWorld(p: Packet, banks: Banks, a: nat, block: Tick): World {
    World(map chain <- banks :: DeliveredChain(p, banks, a, block, chain),
          map[Key(End(a, p.src), p.number) := p])
  }

  /** The banks of the world hold what a refund needs. */
  ghost predicate Refundable(net: Net, banks: Banks, a: nat, p: Packet) {
    && ValidNet(net) && Stocked(net, banks) && a in banks && 1 in banks && a != 1
    && End(a, p.src) in net && net[End(a, p.src)] == End(1, p.dst)
    && RefundTransfer(Policy(true, true, {p.data.sender}, {}), banks[a], p.src, p.data).Some?
  }

  /** Whatever the packet carries, there are a network and banks that satisfy the invariants and can refund it. */
  lemma RefundableBanks(p: Packet) returns (net: Net, banks: Banks, a: nat)
    ensures Refundable(net, banks, a, p)
  {
    if StartsWith(p.data.denom, p.src) {
      a, banks := 2, map[1 := map[], 2 := map[]];
      net := map[End(2, p.src) := End(1, p.dst), End(1, p.dst) := End(2, p.src)];
      GenesisInv(net, State(banks, map[]));
    } else {
      net, banks, a := EscrowCanHold(p.src, p.dst, p.data.denom, p.data.amount, p.data.sender);
    }
  }

  lemma DeliveredChains(net: Net, banks: Banks, a: nat, p: Packet, block: Tick, chain: nat)
    requires Refundable(net, banks, a, p) && chain in banks
    ensures ChainOk(net, map[Key(End(a, p.src), p.number) := p], chain,
                    DeliveredChain(p, banks, a, block, chain))
  {
    var sent, c := map[Key(End(a, p.src), p.number) := p], DeliveredChain(p, banks, a, block, chain);
    assert net[End(1, p.dst)] == End(a, p.src);
    forall h <- c.past ensures SnapshotOk(sent, chain, c, h, c.past[h]) {
      assert h == block.height;
    }
  }

  lemma DeliveredPacket(net: Net, banks: Banks, a: nat, p: Packet, block: Tick)
    requires Refundable(net, banks, a, p) && !Expired(p, block.height, block.time)
    ensures var w, k := DeliveredWorld(p, banks, a, block), Key(End(a, p.src), p.number);
      PacketInv(net, w, k) && StatusOf(net, w, k) == Delivered
  {
  }

  lemma DeliveredBanks(net: Net, banks: Banks, a: nat, p: Packet, block: Tick)
    requires Refundable(net, banks, a, p)
    requires StatusOf(net, DeliveredWorld(p, banks, a, block), Key(End(a, p.src), p.number)) == Delivered
    ensures Inv(net, Abs(net, DeliveredWorld(p, banks, a, block)))
  {
    var w, k := DeliveredWorld(p, banks, a, block), Key(End(a, p.src), p.number);
    PaidIsStocked(net, banks, k, Entry(p.data, Delivered));
    DeliveredAbs(net, banks, a, p, block);
  }

  lemma DeliveredAbs(net: Net, banks: Banks, a: nat, p: Packet, block: Tick)
    requires StatusOf(net, DeliveredWorld(p, banks, a, block), Key(End(a, p.src), p.number)) == Delivered
    ensures Abs(net, DeliveredWorld(p, banks, a, block))
         == State(banks, map[Key(End(a, p.src), p.number) := Entry(p.data, Delivered)])
  {
    var w := DeliveredWorld(p, banks, a, block);
    assert Abs(net, w).banks == banks;
  }

  lemma DeliveredWorldInv(net: Net, banks: Banks, a: nat, p: Packet, block: Tick)
    requires Refundable(net, banks, a, p) && !Expired(p, block.height, block.time)
    ensures var w, k := DeliveredWorld(p, banks, a, block), Key(End(a, p.src), p.number);
      WorldInv(net, w) && Inv(net, Abs(net, w)) && PaidOut(net, w, k)
  {
    var w := DeliveredWorld(p, banks, a, block);
    forall chain <- w.chains ensures ChainOk(net, w.sent, chain, w.chains[chain]) {
      DeliveredChains(net, banks, a, p, block, chain);
    }
    DeliveredPacket(net, banks, a, p, block);
    DeliveredBanks(net, banks, a, p, block);
  }

  lemma DeliveredIsTimedOut(net: Net, banks: Banks, a: nat, p: Packet, block: Tick, filed: Tick)
    requires Refundable(net, banks, a, p) && Expired(p, filed.height, filed.time)
    ensures var m := MsgTimeout(End(a, p.src), Policy(true, true, {p.data.sender}, {}), p, block.height, filed);
      var w := DeliveredWorld(p, banks, a, block);
      && Accepted(net, w, m) && Settles(w, m) && KeyOf(net, m) == Key(End(a, p.src), p.number)
      && w.chains[net[m.at].chain].past[block.height].time == block.time
  {
    TimeoutStep(net, DeliveredWorld(p, banks, a, block), End(a, p.src),
                Policy(true, true, {p.data.sender}, {}), p, block.height, filed);
  }

  lemma WitnessIsUnsafe(net: Net, w: World, m: Msg, p: Packet, block: Tick, filed: Tick)
    requires Meets(net, w, m, p, block, filed) && PaidOut(net, w, KeyOf(net, m))
    ensures !AlwaysSafe(p, block, filed)
  {
    assert !Safe(net, w, m);
  }

  lemma MisdatedIsUnsafe(p: Packet, block: Tick, filed: Tick)
    requires !Dated(p, block, filed)
    ensures !AlwaysSafe(p, block, filed)
  {
    var net, banks, a := RefundableBanks(p);
    var m := MsgTimeout(End(a, p.src), Policy(true, true, {p.data.sender}, {}), p, block.height, filed);
    DeliveredWorldInv(net, banks, a, p, block);
    DeliveredIsTimedOut(net, banks, a, p, block, filed);
    WitnessIsUnsafe(net, DeliveredWorld(p, banks, a, block), m, p, block, filed);
  }

  /** Timeouts of a packet, with the state of a given block filed under a given height and time, are safe in every
      world that satisfies the invariants if and only if the packet, expired by what is filed, has expired at the
      block itself. In particular they are safe when the state is filed under its own height and time. */
  lemma TimeoutsSafeExactly(p: Packet, block: Tick, filed: Tick)
    ensures AlwaysSafe(p, block, filed) <==> Dated(p, block, filed)
    ensures block == filed ==> AlwaysSafe(p, block, filed)
  {
    if Dated(p, block, filed) {
      forall net, w, m | Meets(net, w, m, p, block, filed) ensures Safe(net, w, m) {
        DatedIsSafe(net, w, m, p, block, filed);
      }
    } else {
      MisdatedIsUnsafe(p, block, filed);
    }
  }

  // ----- Two payouts in a run -----

  lemma PayoutsStep(net: Net, w: World, m: Msg, rest: seq<Msg>, k: Key)
    ensures Payouts(net, w, [m] + rest, k)
         == (if Pays(net, w, m, k) then 1 else 0) + Payouts(net, Dispatch(net, w, m), rest, k)
  {
    assert ([m] + rest)[1..] == rest;
  }

  /** The clocks along the way: `tickB` of the receiver's chain, `tickA` of the sender's, and then `later` of the
      receiver's; they are one chain's if the channel is of a chain with itself. */
  predicate InOrder(net: Net, w: World, at: End, tickA: Tick, tickB: Tick, later: Tick)
    requires at in net && at.chain in w.chains && net[at].chain in w.chains
  {
    && Before(Clock(w.chains[net[at].chain]), tickB)
    && Before(if net[at].chain == at.chain then tickB else Clock(w.chains[at.chain]), tickA)
    && Before(if net[at].chain == at.chain then tickA else tickB, later)
  }

  /** After the send: a block on each side, the receipt, another block of the receiver, and then a timeout with the
      state of the receiver's first block. */
  function Twice(net: Net, at: End, policyB: Policy, policyR: Policy, p: Packet,
                 tickA: Tick, tickB: Tick, later: Tick, filed: Tick): seq<Msg>
    requires at in net
  {
    [MsgNewBlock(net[at], tickB.height, tickB.time)] +
    ([MsgNewBlock(at, tickA.height, tickA.time)] +
     ([MsgRecvPacket(net[at], policyB, p, tickA.height, tickA)] +
      ([MsgNewBlock(net[at], later.height, later.time)] +
       [MsgTimeout(at, policyR, p, tickB.height, filed)])))
  }

  /** The world after the two blocks. */
  function Ticks(net: Net, w: World, at: End, tickA: Tick, tickB: Tick): World
    requires at in net && at.chain in w.chains && net[at].chain in w.chains
  {
    var w2 := Put(w, net[at].chain, Ticked(w.chains[net[at].chain], tickB));
    Put(w2, at.chain, Ticked(w2.chains[at.chain], tickA))
  }

  /** The world after the two blocks and the receipt. */
  function Reached(net: Net, w: World, at: End, policyB: Policy, p: Packet, tickA: Tick, tickB: Tick): World
    requires OnRoute(net, w, at, p)
    requires ReceiveTransfer(policyB, w.chains[net[at].chain].coins, p.src, p.dst, p.data).Some?
  {
    var w3 := Ticks(net, w, at, tickA, tickB);
    var far := w3.chains[net[at].chain];
    Put(w3, net[at].chain, ReceivedChain(far, ReceiveTransfer(policyB, far.coins, p.src, p.dst, p.data).value, p))
  }

  /** What the two blocks leave. */
  lemma TicksFacts(net: Net, w: World, at: End, p: Packet, tickA: Tick, tickB: Tick, later: Tick)
    requires OnRoute(net, w, at, p) && InOrder(net, w, at, tickA, tickB, later)
    requires Committed(w.chains[at.chain].store, p) && Unseen(w.chains[net[at].chain].store, p)
    ensures var v := Ticks(net, w, at, tickA, tickB);
      var near, far := v.chains[at.chain], v.chains[net[at].chain];
      && OnRoute(net, v, at, p) && near.coins == w.chains[at.chain].coins && far.coins == w.chains[net[at].chain].coins
      && Committed(near.store, p) && Unseen(far.store, p)
      && tickA.height in near.past && Committed(near.past[tickA.height].store, p)
      && tickB.height in far.past && Unseen(far.past[tickB.height].store, p) && far.past[tickB.height].time == tickB.time
      && Clock(far) == (if net[at].chain == at.chain then tickA else tickB) && tickB.height != later.height
  {
  }

  /** The two blocks and the receipt: one payout. */
  lemma FirstPayout(net: Net, w: World, at: End, policyB: Policy, p: Packet, tickA: Tick, tickB: Tick, later: Tick,
                    rest: seq<Msg>)
    requires ValidNet(net) && OnRoute(net, w, at, p) && InOrder(net, w, at, tickA, tickB, later)
    requires var now := if net[at].chain == at.chain then tickA else tickB; !Expired(p, now.height, now.time)
    requires Committed(w.chains[at.chain].store, p) && Unseen(w.chains[net[at].chain].store, p)
    requires ReceiveTransfer(policyB, w.chains[net[at].chain].coins, p.src, p.dst, p.data).Some?
    ensures var msgs := [MsgNewBlock(net[at], tickB.height, tickB.time)] + ([MsgNewBlock(at, tickA.height, tickA.time)] +
                        ([MsgRecvPacket(net[at], policyB, p, tickA.height, tickA)] + rest));
      var v, k := Reached(net, w, at, policyB, p, tickA, tickB), Key(at, p.number);
      Run(net, w, msgs) == Run(net, v, rest) && Payouts(net, w, msgs, k) == 1 + Payouts(net, v, rest, k)
  {
    var k := Key(at, p.number);
    var m2, m3 := MsgNewBlock(net[at], tickB.height, tickB.time), MsgNewBlock(at, tickA.height, tickA.time);
    var m4 := MsgRecvPacket(net[at], policyB, p, tickA.height, tickA);
    var w2 := Put(w, net[at].chain, Ticked(w.chains[net[at].chain], tickB));
    var w3 := Ticks(net, w, at, tickA, tickB);
    TickStep(net, w, net[at], tickB);
    TickStep(net, w2, at, tickA);
    TicksFacts(net, w, at, p, tickA, tickB, later);
    RecvStep(net, w3, at, policyB, p, tickA.height, tickA);
    PayoutsStep(net, w, m2, [m3] + ([m4] + rest), k);
    PayoutsStep(net, w2, m3, [m4] + rest, k);
    PayoutsStep(net, w3, m4, rest, k);
    RunStep(net, w, m2, [m3] + ([m4] + rest));
    RunStep(net, w2, m3, [m4] + rest);
    RunStep(net, w3, m4, rest);
  }

  /** What the receipt leaves. */
  lemma ReachedFacts(net: Net, w: World, at: End, policyB: Policy, p: Packet, tickA: Tick, tickB: Tick, later: Tick)
    requires OnRoute(net, w, at, p) && InOrder(net, w, at, tickA, tickB, later)
    requires Committed(w.chains[at.chain].store, p) && Unseen(w.chains[net[at].chain].store, p)
    requires ReceiveTransfer(policyB, w.chains[net[at].chain].coins, p.src, p.dst, p.data).Some?
    ensures var v := Reached(net, w, at, policyB, p, tickA, tickB);
      var near, far := v.chains[at.chain], v.chains[net[at].chain];
      var paid := ReceiveTransfer(policyB, w.chains[net[at].chain].coins, p.src, p.dst, p.data).value;
      && OnRoute(net, v, at, p) && Committed(near.store, p)
      && far.coins == paid && near.coins == (if net[at].chain == at.chain then paid else w.chains[at.chain].coins)
      && tickB.height in far.past && Unseen(far.past[tickB.height].store, p) && far.past[tickB.height].time == tickB.time
      && Before(Clock(far), later) && tickB.height != later.height
  {
    TicksFacts(net, w, at, p, tickA, tickB, later);
  }

  /** Another block and the timeout: one more payout. */
  lemma SecondPayout(net: Net, w: World, at: End, policyR: Policy, p: Packet, height: Height, later: Tick,
                     filed: Tick)
    requires OnRoute(net, w, at, p)
    requires Before(Clock(w.chains[net[at].chain]), later) && height != later.height
    requires height in w.chains[net[at].chain].past && Expired(p, filed.height, filed.time)
    requires Unseen(w.chains[net[at].chain].past[height].store, p)
    requires Committed(w.chains[at.chain].store, p)
    requires RefundTransfer(policyR, w.chains[at.chain].coins, p.src, p.data).Some?
    ensures var msgs := [MsgNewBlock(net[at], later.height, later.time)] + [MsgTimeout(at, policyR, p, height, filed)];
      && Payouts(net, w, msgs, Key(at, p.number)) == 1
      && var v, back := Run(net, w, msgs), RefundTransfer(policyR, w.chains[at.chain].coins, p.src, p.data).value;
      && OnRoute(net, v, at, p) && v.chains[at.chain].coins == back
      && v.chains[net[at].chain].coins == (if net[at].chain == at.chain then back else w.chains[net[at].chain].coins)
  {
    var k := Key(at, p.number);
    var m5, m6 := MsgNewBlock(net[at], later.height, later.time), MsgTimeout(at, policyR, p, height, filed);
    var w5 := Put(w, net[at].chain, Ticked(w.chains[net[at].chain], later));
    TickStep(net, w, net[at], later);
    TimeoutStep(net, w5, at, policyR, p, height, filed);
    PayoutsStep(net, w, m5, [m6], k);
    PayoutsStep(net, w5, m6, [], k);
    RunStep(net, w, m5, [m6]);
    RunStep(net, w5, m6, []);
    assert [m6] + [] == [m6];
  }

  /** The coins of the sender's chain when the timeout comes. */
  function NearCoins(net: Net, w: World, at: End, policyB: Policy, p: Packet): Coins
    requires OnRoute(net, w, at, p)
    requires ReceiveTransfer(policyB, w.chains[net[at].chain].coins, p.src, p.dst, p.data).Some?
  {
    if net[at].chain != at.chain then w.chains[at.chain].coins
    else ReceiveTransfer(policyB, w.chains[net[at].chain].coins, p.src, p.dst, p.data).value
  }

  lemma PendingPaidTwice(net: Net, w: World, at: End, policyB: Policy, policyR: Policy, p: Packet,
                         tickA: Tick, tickB: Tick, later: Tick, filed: Tick)
    requires ValidNet(net) && OnRoute(net, w, at, p) && InOrder(net, w, at, tickA, tickB, later)
    requires Expired(p, filed.height, filed.time)
    requires var now := if net[at].chain == at.chain then tickA else tickB; !Expired(p, now.height, now.time)
    requires Committed(w.chains[at.chain].store, p) && Unseen(w.chains[net[at].chain].store, p)
    requires ReceiveTransfer(policyB, w.chains[net[at].chain].coins, p.src, p.dst, p.data).Some?
    requires RefundTransfer(policyR, NearCoins(net, w, at, policyB, p), p.src, p.data).Some?
    ensures var msgs := Twice(net, at, policyB, policyR, p, tickA, tickB, later, filed);
      && Payouts(net, w, msgs, Key(at, p.number)) == 2
      && var v, back := Run(net, w, msgs), RefundTransfer(policyR, NearCoins(net, w, at, policyB, p), p.src,
                                                          p.data).value;
      && OnRoute(net, v, at, p) && v.chains[at.chain].coins == back
      && v.chains[net[at].chain].coins
         == (if net[at].chain == at.chain then back
             else ReceiveTransfer(policyB, w.chains[net[at].chain].coins, p.src, p.dst, p.data).value)
  {
    var rest := [MsgNewBlock(net[at], later.height, later.time)] + [MsgTimeout(at, policyR, p, tickB.height, filed)];
    FirstPayout(net, w, at, policyB, p, tickA, tickB, later, rest);
    ReachedFacts(net, w, at, policyB, p, tickA, tickB, later);
    SecondPayout(net, Reached(net, w, at, policyB, p, tickA, tickB), at, policyR, p, tickB.height, later, filed);
  }

  /** A refund pays the sender, and moves nothing but the sent denomination. */
  lemma RefundBalances(policy: Policy, c: Coins, src: Hop, data: TransferData, a: Account, d: Denom)
    requires RefundTransfer(policy, c, src, data).Some?
    ensures var after := RefundTransfer(policy, c, src, data).value;
      && Balance(after, User(data.sender), data.denom) == Balance(c, User(data.sender), data.denom) + data.amount
      && (d != data.denom ==> Balance(after, a, d) == Balance(c, a, d))
  {
  }

  /** A refund is as possible after the receipt as before it, even on the same bank. */
  lemma StillRefundable(policyB: Policy, policyR: Policy, c: Coins, src: Hop, dst: Hop, data: TransferData)
    requires ReceiveTransfer(policyB, c, src, dst, data).Some? && RefundTransfer(policyR, c, src, data).Some?
    ensures RefundTransfer(policyR, ReceiveTransfer(policyB, c, src, dst, data).value, src, data).Some?
  {
    ReceiveBalances(policyB, c, src, dst, data, Escrow(src), data.denom);
  }

  /** The receiver has the amount, and the sender has it back. */
  predicate PaidBoth(net: Net, w: World, v: World, at: End, p: Packet)
    requires OnRoute(net, w, at, p)
  {
    var arrived := Received(p.src, p.dst, p.data.denom);
    && OnRoute(net, v, at, p)
    && Balance(v.chains[at.chain].coins, User(p.data.sender), p.data.denom)
       == Balance(w.chains[at.chain].coins, User(p.data.sender), p.data.denom)
    && Balance(v.chains[net[at].chain].coins, User(p.data.receiver), arrived)
       == Balance(w.chains[net[at].chain].coins, User(p.data.receiver), arrived) + p.data.amount
  }

  /** The coins of the two chains after the send, the receipt and the refund. */
  lemma TwiceBalances(net: Net, w: World, w1: World, v: World, at: End, policyA: Policy, policyB: Policy, p: Packet)
    requires OnRoute(net, w, at, p) && OnRoute(net, w1, at, p) && OnRoute(net, v, at, p)
    requires SendTransfer(policyA, w.chains[at.chain].coins, p.src, p.data) == Some(w1.chains[at.chain].coins)
    requires net[at].chain != at.chain ==> w1.chains[net[at].chain].coins == w.chains[net[at].chain].coins
    requires ReceiveTransfer(policyB, w1.chains[net[at].chain].coins, p.src, p.dst, p.data).Some?
    requires RefundTransfer(policyA, NearCoins(net, w1, at, policyB, p), p.src, p.data) == Some(v.chains[at.chain].coins)
    requires net[at].chain != at.chain ==>
      ReceiveTransfer(policyB, w1.chains[net[at].chain].coins, p.src, p.dst, p.data) == Some(v.chains[net[at].chain].coins)
    ensures PaidBoth(net, w, v, at, p)
  {
    var arrived, sender, receiver := Received(p.src, p.dst, p.data.denom), User(p.data.sender), User(p.data.receiver);
    SendBalances(policyA, w.chains[at.chain].coins, p.src, p.data, receiver, arrived);
    ReceiveBalances(policyB, w1.chains[net[at].chain].coins, p.src, p.dst, p.data, sender, p.data.denom);
    RefundBalances(policyA, NearCoins(net, w1, at, policyB, p), p.src, p.data, receiver, arrived);
  }

  lemma SentPaidTwice(net: Net, w: World, at: End, policyA: Policy, policyB: Policy, p: Packet,
                      seen: Tick, tickA: Tick, tickB: Tick, later: Tick, filed: Tick)
    requires ValidNet(net) && CanSend(net, w, at, policyA, p, seen) && InOrder(net, w, at, tickA, tickB, later)
    requires Expired(p, filed.height, filed.time) && Unseen(w.chains[net[at].chain].store, p)
    requires var now := if net[at].chain == at.chain then tickA else tickB; !Expired(p, now.height, now.time)
    requires var w1 := AfterSend(net, w, at, policyA, p, seen);
      && OnRoute(net, w1, at, p)
      && ReceiveTransfer(policyB, w1.chains[net[at].chain].coins, p.src, p.dst, p.data).Some?
      && RefundTransfer(policyA, w1.chains[at.chain].coins, p.src, p.data).Some?
    ensures var msgs := [MsgTransfer(at, policyA, p, seen.height, seen.time)] +
                        Twice(net, at, policyB, policyA, p, tickA, tickB, later, filed);
      Payouts(net, w, msgs, Key(at, p.number)) == 2 && PaidBoth(net, w, Run(net, w, msgs), at, p)
  {
    var m, k := MsgTransfer(at, policyA, p, seen.height, seen.time), Key(at, p.number);
    var w1, rest := AfterSend(net, w, at, policyA, p, seen), Twice(net, at, policyB, policyA, p, tickA, tickB, later,
                                                                   filed);
    SendStep(net, w, at, policyA, p, seen);
    if net[at].chain == at.chain {
      StillRefundable(policyB, policyA, w1.chains[at.chain].coins, p.src, p.dst, p.data);
    }
    PendingPaidTwice(net, w1, at, policyB, policyA, p, tickA, tickB, later, filed);
    PayoutsStep(net, w, m, rest, k);
    RunStep(net, w, m, rest);
    TwiceBalances(net, w, w1, Run(net, w1, rest), at, policyA, policyB, p);
  }

  /** From any state, for any transfer and any misdated state: sent, received in time, and then timed out with that
      state, the packet is paid out twice. The receiver has the amount, and the sender has it back. */
  lemma MisdatedTimeoutPaysTwice(net: Net, w: World, at: End, policyA: Policy, policyB: Policy, p: Packet,
                                 seen: Tick, tickA: Tick, tickB: Tick, later: Tick, filed: Tick)
    requires ValidNet(net) && WorldInv(net, w) && Inv(net, Abs(net, w)) && CanSend(net, w, at, policyA, p, seen)
    requires InOrder(net, w, at, tickA, tickB, later) && !Dated(p, tickB, filed)
    requires net[at].chain == at.chain ==> !Expired(p, tickA.height, tickA.time)
    requires policyB.canReceive && p.data.receiver in policyB.accounts - policyB.blocked
    ensures var msgs := [MsgTransfer(at, policyA, p, seen.height, seen.time)] +
                        Twice(net, at, policyB, policyA, p, tickA, tickB, later, filed);
      Payouts(net, w, msgs, Key(at, p.number)) == 2 && PaidBoth(net, w, Run(net, w, msgs), at, p)
  {
    SendIsFunded(net, w, at, policyA, p, seen, policyB);
    SendIsFunded(net, w, at, policyA, p, seen, policyA);
    SentPaidTwice(net, w, at, policyA, policyB, p, seen, tickA, tickB, later, filed);
  }
}
