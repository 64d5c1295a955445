/** The transfer application and the packet handlers as they run on a host, changing its balances and packet
    store step by step; and a network of such hosts, of which the results about all runs hold. */
module TransferHost {
  import opened Basics
  import opened Denoms
  import opened Transfer
  import opened TokenNetwork
  import opened Packets
  import opened Settlement

  /** The host refuses to serve the account. */
  predicate Blocked(policy: Policy, a: Account) {
    a.User? && a.name in policy.blocked
  }

  lemma CoinsMoved(policy: Policy, before: Coins, after: Coins, from: Account, to: Account, denom: Denom, amount: nat)
    requires SendCoins(policy, before, from, to, denom, amount) == Some(after)
    ensures after.Keys == before.Keys + {Slot(from, denom), Slot(to, denom)}
    ensures forall a: Account, d: Denom ::
      Balance(after, a, d) + (if Slot(a, d) == Slot(from, denom) then amount else 0)
      == Balance(before, a, d) + (if Slot(a, d) == Slot(to, denom) then amount else 0)
    ensures forall d: Denom :: Supply(after, d) == Supply(before, d)
  {
    forall a: Account, d: Denom
      ensures Balance(after, a, d) + (if Slot(a, d) == Slot(from, denom) then amount else 0)
           == Balance(before, a, d) + (if Slot(a, d) == Slot(to, denom) then amount else 0)
    {
      SendCoinsMoves(policy, before, from, to, denom, amount, a, d);
    }
    forall d: Denom ensures Supply(after, d) == Supply(before, d) {
      SendCoinsMoves(policy, before, from, to, denom, amount, from, d);
    }
  }

  class Host {
    var coins: Coins
    var nextSend: map<Hop, nat>
    var commitments: map<Place, Commitment>
    var receipts: set<Place>
    var acks: map<Place, Ack>
    var height: Height
    var time: nat
    /** What the headers of earlier blocks commit to. */
    var past: map<Height, Snapshot>

    constructor (coins: Coins, nextSend: map<Hop, nat>, height: Height, time: nat)
      ensures View() == Chain(coins, Store(nextSend, map[], {}, map[]), height, time, map[])
    {
      this.coins, this.nextSend, this.height, this.time := coins, nextSend, height, time;
      commitments, receipts, acks, past := map[], {}, map[], map[];
    }

    function PacketStore(): Store
      reads this
    {
      Store(nextSend, commitments, receipts, acks)
    }

    /** This host as a chain of the model. */
    function View(): Chain
      reads this
    {
      Chain(coins, PacketStore(), height, time, past)
    }

    /** Move coins between two accounts, or refuse. Only the two balances change, and no supply does. */
    method MoveCoins(policy: Policy, from: Account, to: Account, denom: Denom, amount: nat) returns (ok: bool)
      modifies this`coins
      ensures ok <==> amount <= Balance(old(coins), from, denom) && !Blocked(policy, from) && !Blocked(policy, to)
      ensures !ok ==> coins == old(coins)
      ensures ok ==> coins.Keys == old(coins).Keys + {Slot(from, denom), Slot(to, denom)}
      ensures ok ==> forall a: Account, d: Denom ::
        Balance(coins, a, d) + (if Slot(a, d) == Slot(from, denom) then amount else 0)
        == Balance(old(coins), a, d) + (if Slot(a, d) == Slot(to, denom) then amount else 0)
      ensures forall d: Denom :: Supply(coins, d) == Supply(old(coins), d)
    {
      if Blocked(policy, from) || Blocked(policy, to) {
        return false;
      }
      if Balance(coins, from, denom) < amount {
        return false;
      }
      coins := coins[Slot(from, denom) := Balance(coins, from, denom) - amount];
      coins := coins[Slot(to, denom) := Balance(coins, to, denom) + amount];
      CoinsMoved(policy, old(coins), coins, from, to, denom, amount);
      return true;
    }

    /** New coins for an account: its balance and the supply rise by the amount, and nothing else changes. */
    method Mint(policy: Policy, name: string, denom: Denom, amount: nat) returns (ok: bool)
      modifies this`coins
      ensures ok <==> name !in policy.blocked
      ensures !ok ==> coins == old(coins)
      ensures ok ==> coins.Keys == old(coins).Keys + {Slot(User(name), denom)}
      ensures ok ==> forall a: Account, d: Denom ::
        Balance(coins, a, d) == Balance(old(coins), a, d) + (if Slot(a, d) == Slot(User(name), denom) then amount else 0)
      ensures ok ==> forall d: Denom :: Supply(coins, d) == Supply(old(coins), d) + (if d == denom then amount else 0)
    {
      if name in policy.blocked {
        return false;
      }
      coins := coins[Slot(User(name), denom) := Balance(coins, User(name), denom) + amount];
      forall d: Denom ensures Supply(coins, d) == Supply(old(coins), d) + (if d == denom then amount else 0) {
        CreditCounts(old(coins), User(name), denom, amount, OfDenom(d));
      }
      return true;
    }

    /** Coins of an account are gone: its balance and the supply fall by the amount, and nothing else changes. */
    method Burn(policy: Policy, name: string, denom: Denom, amount: nat) returns (ok: bool)
      modifies this`coins
      ensures ok <==> name !in policy.blocked && amount <= Balance(old(coins), User(name), denom)
      ensures !ok ==> coins == old(coins)
      ensures ok ==> coins.Keys == old(coins).Keys + {Slot(User(name), denom)}
      ensures ok ==> forall a: Account, d: Denom ::
        Balance(coins, a, d) + (if Slot(a, d) == Slot(User(name), denom) then amount else 0) == Balance(old(coins), a, d)
      ensures ok ==> forall d: Denom :: Supply(coins, d) + (if d == denom then amount else 0) == Supply(old(coins), d)
    {
      if name in policy.blocked || Balance(coins, User(name), denom) < amount {
        return false;
      }
      coins := coins[Slot(User(name), denom) := Balance(coins, User(name), denom) - amount];
      forall d: Denom ensures Supply(coins, d) + (if d == denom then amount else 0) == Supply(old(coins), d) {
        DebitCounts(old(coins), User(name), denom, amount, OfDenom(d));
      }
      return true;
    }

    /** The escrow-or-burn step of a transfer. */
    method TakeFromSender(policy: Policy, src: Hop, data: TransferData) returns (ok: bool)
      modifies this`coins
      ensures var r := SendTransfer(policy, old(coins), src, data);
        ok == r.Some? && coins == if ok then r.value else old(coins)
    {
      if !policy.canSend || data.sender !in policy.accounts {
        return false;
      }
      if IsSenderChainSource(src, data.denom) {
        ok := MoveCoins(policy, User(data.sender), Escrow(src), data.denom, data.amount);
      } else {
        ok := Burn(policy, data.sender, data.denom, data.amount);
      }
      if ok {
        SameCoins(coins, SendTransfer(policy, old(coins), src, data).value);
      }
    }

    /** The unescrow-or-mint step of a received transfer; the coin's trace is edited in place. */
    method PayReceiver(policy: Policy, src: Hop, dst: Hop, data: TransferData) returns (ok: bool)
      modifies this`coins
      ensures var r := ReceiveTransfer(policy, old(coins), src, dst, data);
        ok == r.Some? && coins == if ok then r.value else old(coins)
    {
      if !policy.canReceive || data.receiver !in policy.accounts {
        return false;
      }
      var trace := data.denom.trace;
      if IsReceiverChainSource(src, data.denom) {
        trace := trace[..|trace| - 1];
        ok := MoveCoins(policy, Escrow(dst), User(data.receiver), data.denom.(trace := trace), data.amount);
      } else {
        trace := trace + [dst];
        ok := Mint(policy, data.receiver, data.denom.(trace := trace), data.amount);
      }
      if ok {
        SameCoins(coins, ReceiveTransfer(policy, old(coins), src, dst, data).value);
      }
    }

    /** Give the sender back what the transfer took. */
    method RefundSender(policy: Policy, src: Hop, data: TransferData) returns (ok: bool)
      modifies this`coins
      ensures var r := RefundTransfer(policy, old(coins), src, data);
        ok == r.Some? && coins == if ok then r.value else old(coins)
    {
      if data.sender !in policy.accounts {
        return false;
      }
      if IsSenderChainSource(src, data.denom) {
        ok := MoveCoins(policy, Escrow(src), User(data.sender), data.denom, data.amount);
      } else {
        ok := Mint(policy, data.sender, data.denom, data.amount);
      }
      if ok {
        SameCoins(coins, RefundTransfer(policy, old(coins), src, data).value);
      }
    }

    /** Initiate a transfer: take the coins, advance the sequence and commit to the packet. */
    method Send(policy: Policy, packet: Packet, seenHeight: Height, seenTime: nat) returns (ok: bool)
      modifies this
      ensures var r := SendPacket(old(View()), policy, packet, seenHeight, seenTime);
        ok == r.Some? && View() == if ok then r.value else old(View())
    {
      if Expired(packet, seenHeight, seenTime) {
        return false;
      }
      if packet.src !in nextSend || packet.number != nextSend[packet.src] {
        return false;
      }
      ok := TakeFromSender(policy, packet.src, packet.data);
      if ok {
        nextSend := nextSend[packet.src := nextSend[packet.src] + 1];
        commitments := commitments[Place(packet.src, packet.number) := Commit(packet)];
      }
    }

    /** Receive a packet: pay it out and write the receipt and the acknowledgement. */
    method Recv(policy: Policy, packet: Packet, proven: Store) returns (ok: bool)
      modifies this
      ensures var r := RecvPacket(old(View()), policy, packet, proven);
        ok == r.Some? && View() == if ok then r.value else old(View())
    {
      var from, to := Place(packet.src, packet.number), Place(packet.dst, packet.number);
      if Expired(packet, height, time) {
        return false;
      }
      if from !in proven.commitments || proven.commitments[from] != Commit(packet) || to in acks {
        return false;
      }
      if to in receipts {
        return true;
      }
      var paid := PayReceiver(policy, packet.src, packet.dst, packet.data);
      receipts := receipts + {to};
      acks := acks[to := if paid then Success else Error];
      return true;
    }

    /** Settle a packet by its acknowledgement: refund on an error, then forget the commitment. */
    method Acknowledge(policy: Policy, packet: Packet, ack: Ack, proven: Store) returns (ok: bool)
      modifies this
      ensures var r := AcknowledgePacket(old(View()), policy, packet, ack, proven);
        ok == r.Some? && View() == if ok then r.value else old(View())
    {
      var from, to := Place(packet.src, packet.number), Place(packet.dst, packet.number);
      if from !in commitments {
        return true;
      }
      if commitments[from] != Commit(packet) || to !in proven.acks || proven.acks[to] != ack {
        return false;
      }
      if ack.Error? {
        ok := RefundSender(policy, packet.src, packet.data);
        if !ok {
          return;
        }
      }
      commitments := commitments - {from};
      return true;
    }

    /** Settle a packet that timed out before it was received. */
    method Timeout(policy: Policy, packet: Packet, filed: Tick, proven: Store) returns (ok: bool)
      modifies this
      ensures var r := TimeoutPacket(old(View()), policy, packet, filed, proven);
        ok == r.Some? && View() == if ok then r.value else old(View())
    {
      var from, to := Place(packet.src, packet.number), Place(packet.dst, packet.number);
      if from !in commitments {
        return true;
      }
      if commitments[from] != Commit(packet) || !Expired(packet, filed.height, filed.time) || to in proven.receipts {
        return false;
      }
      ok := RefundSender(policy, packet.src, packet.data);
      if ok {
        commitments := commitments - {from};
      }
    }

    /** A new block begins, unless it would go back. */
    method BeginBlock(newHeight: Height, newTime: nat) returns (ok: bool)
      modifies this
      ensures var r := NewBlock(old(View()), newHeight, newTime);
        ok == r.Some? && View() == if ok then r.value else old(View())
    {
      if !Below(height, newHeight) || newTime < time {
        return false;
      }
      height, time := newHeight, newTime;
      past := past[newHeight := Snapshot(PacketStore(), newTime)];
      return true;
    }
  }

  /** The state of the message's own chain after it. */
  function Next(net: Net, w: World, m: Msg): Chain
    requires m.at.chain in w.chains
  {
    if Accepted(net, w, m) then Handle(net, w, m).value else w.chains[m.at.chain]
  }

  /** A message changes its own chain and the history, and nothing else. */
  lemma DispatchIs(net: Net, w: World, m: Msg, sent: map<Key, Packet>)
    requires m.at.chain in w.chains && sent == if Accepted(net, w, m) then SentAfter(w, m) else w.sent
    ensures Dispatch(net, w, m) == World(w.chains[m.at.chain := Next(net, w, m)], sent)
  {
    assert !Accepted(net, w, m) ==> w.chains[m.at.chain := w.chains[m.at.chain]] == w.chains;
  }

  /** Hosts that see each other through proofs only. */
  class Network {
    const net: Net
    const hosts: map<nat, Host>
    ghost var sent: map<Key, Packet>

    ghost predicate Valid()
      reads this
    {
      ValidNet(net) && forall i <- hosts, j <- hosts :: hosts[i] == hosts[j] ==> i == j
    }

    ghost function View(): World
      reads this, hosts.Values
    {
      World(map chain <- hosts :: hosts[chain].View(), sent)
    }

    constructor (net: Net, hosts: map<nat, Host>)
      requires ValidNet(net) && forall i <- hosts, j <- hosts :: hosts[i] == hosts[j] ==> i == j
      ensures Valid() && this.net == net && this.hosts == hosts && sent == map[]
    {
      this.net, this.hosts, sent := net, hosts, map[];
    }

    /** When one host alone changes, the view changes at its chain alone. */
    twostate lemma OneHostChanged(chain: nat)
      requires old(Valid()) && chain in hosts && forall i <- hosts :: i != chain ==> unchanged(hosts[i])
      ensures View().chains == old(View()).chains[chain := hosts[chain].View()]
    {
    }

    /** Hand a message to the host it is for: the network of objects makes the step that the model makes. */
    method Deliver(m: Msg) returns (ok: bool)
      requires Valid()
      modifies this, hosts.Values
      ensures Valid() && View() == Dispatch(net, old(View()), m)
      ensures ok <==> Accepted(net, old(View()), m)
    {
      if m.at.chain !in hosts || (!m.MsgNewBlock? && (m.at !in net || net[m.at].chain !in hosts)) {
        return false;
      }
      ok := Hand(hosts[m.at.chain], m);
      sent := if ok then SentAfter(old(View()), m) else sent;
      OneHostChanged(m.at.chain);
      DispatchIs(net, old(View()), m, sent);
    }

    /** The message on its own host. */
    method Hand(host: Host, m: Msg) returns (ok: bool)
      requires Valid() && m.at.chain in hosts && host == hosts[m.at.chain]
      requires m.MsgNewBlock? || (m.at in net && net[m.at].chain in hosts)
      modifies host
      ensures ok <==> Accepted(net, old(View()), m)
      ensures host.View() == Next(net, old(View()), m)
    {
      if m.MsgNewBlock? {
        ok := host.BeginBlock(m.height, m.time);
        return;
      }
      if m.MsgTransfer? {
        if m.packet.src != m.at.hop || m.packet.dst != net[m.at].hop {
          return false;
        }
        ok := host.Send(m.policy, m.packet, m.seenHeight, m.seenTime);
      } else {
        ok := HandProven(host, m);
      }
    }

    /** A message with a proof: of an earlier state of the far host. */
    method HandProven(host: Host, m: Msg) returns (ok: bool)
      requires Valid() && m.at.chain in hosts && host == hosts[m.at.chain]
      requires !m.MsgNewBlock? && !m.MsgTransfer? && m.at in net && net[m.at].chain in hosts
      modifies host
      ensures ok <==> Accepted(net, old(View()), m)
      ensures host.View() == Next(net, old(View()), m)
    {
      var far := hosts[net[m.at].chain];
      if m.height !in far.past {
        return false;
      }
      if m.MsgRecvPacket? {
        if m.packet.dst != m.at.hop || m.packet.src != net[m.at].hop {
          return false;
        }
        ok := host.Recv(m.policy, m.packet, far.past[m.height].store);
      } else {
        if m.packet.src != m.at.hop || m.packet.dst != net[m.at].hop {
          return false;
        }
        if m.MsgAcknowledgement? {
          ok := host.Acknowledge(m.policy, m.packet, m.ack, far.past[m.height].store);
        } else {
          ok := host.Timeout(m.policy, m.packet, m.filed, far.past[m.height].store);
        }
      }
    }

    /** Deliver any messages, one after the other. The objects then are as the model says; from a start, and with
        timeouts dated right, every channel end is backed, tokens are conserved, and each packet is paid out once at
        most. */
    method DeliverAll(msgs: seq<Msg>)
      requires Valid()
      modifies this, hosts.Values
      ensures Valid() && View() == Run(net, old(View()), msgs)
      ensures Start(net, old(View())) && AllTruthful(net, old(View()), msgs) ==>
        && AllBacked(net, Abs(net, View())) && AllRouted(net, Abs(net, View()))
        && (forall t: Token :: Wealth(net, Abs(net, View()), t) == Wealth(net, Abs(net, old(View())), t))
        && (forall k: Key :: Payouts(net, old(View()), msgs, k) == if PaidOut(net, View(), k) then 1 else 0)
    {
      ghost var start := View();
      for i := 0 to |msgs|
        invariant Valid() && Run(net, View(), msgs[i..]) == Run(net, start, msgs)
      {
        assert msgs[i..][1..] == msgs[i + 1..];
        var _ := Deliver(msgs[i]);
      }
      assert msgs[|msgs|..] == [];
      if Start(net, start) && AllTruthful(net, start, msgs) {
        StartInv(net, start);
        EveryRunIsBacked(net, start, msgs);
        forall t: Token ensures Wealth(net, Abs(net, View()), t) == Wealth(net, Abs(net, start), t) {
          EveryRunConserves(net, start, msgs, t);
        }
        forall k: Key ensures Payouts(net, start, msgs, k) == if PaidOut(net, View(), k) then 1 else 0 {
          SettledOnce(net, start, msgs, k);
        }
      }
    }
  }
}
