/** The packet handlers settle every transfer at most once: they refine the token network,
    so what the network keeps, every run of the handlers keeps. */
module Settlement {
  import opened Basics
  import opened Denoms
  import opened Transfer
  import opened TokenNetwork
  import opened Packets

  /** What has become of a sent packet, read off the stores of its two chains. */
  function StatusOf(net: Net, w: World, k: Key): Status {
    if !Wired(net, w, k) then Pending else
      var acks, committed := w.chains[net[k.src].chain].store.acks, Departure(k) in w.chains[k.src.chain].store.commitments;
      if Arrival(net, k) in acks && acks[Arrival(net, k)].Success? then Delivered
      else if !committed then Refunded
      else if Arrival(net, k) in acks then Refused
      else Pending
  }

  /** The token network a world stands for. */
  function Abs(net: Net, w: World): State {
    State(map chain <- w.chains :: w.chains[chain].coins,
          map k <- w.sent :: Entry(w.sent[k].data, StatusOf(net, w, k)))
  }

  /** The step of the token network that a message amounts to. */
  function Image(net: Net, w: World, m: Msg): Action {
    if !Accepted(net, w, m) then Stutter else
    match m
    case MsgNewBlock(_, _, _) => Stutter
    case MsgTransfer(_, policy, p, _, _) => Send(KeyOf(net, m), policy, p.data)
    case MsgRecvPacket(_, policy, p, _, _) =>
      if Place(p.dst, p.number) in w.chains[m.at.chain].store.receipts then Stutter
      else if ReceiveTransfer(policy, w.chains[m.at.chain].coins, p.src, p.dst, p.data).Some? then
        Deliver(KeyOf(net, m), policy)
      else Refuse(KeyOf(net, m))
    case MsgAcknowledgement(_, policy, p, ack, _, _) =>
      if !Settles(w, m) || ack.Success? then Stutter else Refund(KeyOf(net, m), policy)
    case MsgTimeout(_, policy, p, _, _) =>
      if !Settles(w, m) then Stutter else Refund(KeyOf(net, m), policy)
  }

  /** A status depends on two places only. */
  lemma StatusFrame(net: Net, w: World, v: World, k: Key)
    requires Wired(net, w, k) && Wired(net, v, k)
    requires Departure(k) in w.chains[k.src.chain].store.commitments
        <==> Departure(k) in v.chains[k.src.chain].store.commitments
    requires var to, far := Arrival(net, k), net[k.src].chain;
      var old_, new_ := w.chains[far].store.acks, v.chains[far].store.acks;
      (to in old_ <==> to in new_) && (to in old_ ==> old_[to] == new_[to])
    ensures StatusOf(net, w, k) == StatusOf(net, v, k)
  {
  }

  lemma AbsPackets(net: Net, w: World, v: World, k: Key)
    requires k in v.sent && v.sent == w.sent[k := v.sent[k]]
    requires forall j <- w.sent :: j != k ==> StatusOf(net, v, j) == StatusOf(net, w, j)
    ensures Abs(net, v).packets == Abs(net, w).packets[k := Entry(v.sent[k].data, StatusOf(net, v, k))]
  {
    var p, q := Abs(net, v).packets, Abs(net, w).packets;
    assert p.Keys == q.Keys + {k};
  }

  lemma AbsChange(net: Net, w: World, v: World, chain: nat, k: Key)
    requires chain in v.chains && v.chains == w.chains[chain := v.chains[chain]]
    requires k in v.sent && v.sent == w.sent[k := v.sent[k]]
    requires forall j <- w.sent :: j != k ==> StatusOf(net, v, j) == StatusOf(net, w, j)
    ensures Abs(net, v) == State(Abs(net, w).banks[chain := v.chains[chain].coins],
                                 Abs(net, w).packets[k := Entry(v.sent[k].data, StatusOf(net, v, k))])
  {
    AbsPackets(net, w, v, k);
    assert Abs(net, v).banks == Abs(net, w).banks[chain := v.chains[chain].coins];
  }

  /** A message changes the status of no packet but its own. */
  lemma OthersKeepStatus(net: Net, w: World, m: Msg, k: Key)
    requires ValidNet(net) && Accepted(net, w, m) && Wired(net, w, k)
    requires m.MsgNewBlock? || k != KeyOf(net, m)
    ensures StatusOf(net, Dispatch(net, w, m), k) == StatusOf(net, w, k)
  {
    StatusFrame(net, w, Dispatch(net, w, m), k);
  }

  lemma AllWired(net: Net, w: World)
    requires WorldInv(net, w)
    ensures forall k <- w.sent :: Wired(net, w, k)
  {
    forall k <- w.sent ensures Wired(net, w, k) {
      assert PacketInv(net, w, k);
    }
  }

  /** The message turns the world into one where its own packet alone may have a new status. */
  lemma DispatchChanges(net: Net, w: World, m: Msg)
    requires ValidNet(net) && Accepted(net, w, m) && !m.MsgNewBlock?
    requires forall k <- w.sent :: Wired(net, w, k)
    requires m.MsgTransfer? || KeyOf(net, m) in w.sent
    ensures var v, k := Dispatch(net, w, m), KeyOf(net, m);
      k in v.sent && m.at.chain in v.chains &&
      Abs(net, v) == State(Abs(net, w).banks[m.at.chain := v.chains[m.at.chain].coins],
                           Abs(net, w).packets[k := Entry(v.sent[k].data, StatusOf(net, v, k))])
  {
    var v, k := Dispatch(net, w, m), KeyOf(net, m);
    forall j <- w.sent | j != k ensures StatusOf(net, v, j) == StatusOf(net, w, j) {
      OthersKeepStatus(net, w, m, j);
    }
    AbsChange(net, w, v, m.at.chain, k);
  }

  lemma TransferRefines(net: Net, w: World, m: Msg)
    requires ValidNet(net) && m.MsgTransfer? && Accepted(net, w, m)
    requires forall k <- w.sent :: Wired(net, w, k)
    requires KeyOf(net, m) !in w.sent && Arrival(net, KeyOf(net, m)) !in w.chains[net[m.at].chain].store.acks
    ensures Abs(net, Dispatch(net, w, m)) == Act(net, Abs(net, w), Image(net, w, m))
  {
    DispatchChanges(net, w, m);
    NewIsPending(net, w, m);
    assert Bank(Abs(net, w), m.at.chain) == w.chains[m.at.chain].coins;
  }

  /** Once received, a packet has an acknowledgement; a packet that can be received has neither. */
  lemma ReceivableIsPending(net: Net, w: World, m: Msg)
    requires ValidNet(net) && WorldInv(net, w) && m.MsgRecvPacket? && Accepted(net, w, m)
    ensures KeyOf(net, m) in w.sent && w.sent[KeyOf(net, m)] == m.packet && Wired(net, w, KeyOf(net, m))
    ensures StatusOf(net, w, KeyOf(net, m)) == Pending
    ensures Place(m.packet.dst, m.packet.number) !in w.chains[m.at.chain].store.receipts
  {
    RecvFacts(net, w, m);
    assert PacketInv(net, w, KeyOf(net, m));
    assert ChainOk(net, w.sent, m.at.chain, w.chains[m.at.chain]);
  }

  /** What receiving does to the two places and the coins. */
  lemma RecvPays(net: Net, w: World, m: Msg)
    requires ValidNet(net) && m.MsgRecvPacket? && Accepted(net, w, m) && Wired(net, w, KeyOf(net, m))
    requires StatusOf(net, w, KeyOf(net, m)) == Pending
    requires Place(m.packet.dst, m.packet.number) !in w.chains[m.at.chain].store.receipts
    ensures var v, c := Dispatch(net, w, m), w.chains[m.at.chain];
      var paid := ReceiveTransfer(m.policy, c.coins, m.packet.src, m.packet.dst, m.packet.data);
      && m.at.chain in v.chains
      && v.chains[m.at.chain].coins == (if paid.Some? then paid.value else c.coins)
      && StatusOf(net, v, KeyOf(net, m)) == (if paid.Some? then Delivered else Refused)
  {
  }

  lemma RecvIsPayment(net: Net, w: World, m: Msg)
    requires ValidNet(net) && m.MsgRecvPacket? && Accepted(net, w, m)
    requires KeyOf(net, m) in w.sent && w.sent[KeyOf(net, m)] == m.packet && StatusOf(net, w, KeyOf(net, m)) == Pending
    ensures Payment(net, Abs(net, w), Deliver(KeyOf(net, m), m.policy))
         == ReceiveTransfer(m.policy, w.chains[m.at.chain].coins, m.packet.src, m.packet.dst, m.packet.data)
    ensures Abs(net, w).packets[KeyOf(net, m)] == Entry(m.packet.data, Pending)
    ensures Abs(net, w).banks[m.at.chain := w.chains[m.at.chain].coins] == Abs(net, w).banks
  {
  }

  /** The packet had neither been received nor settled when it was received. */
  lemma RecvRefines(net: Net, w: World, m: Msg)
    requires ValidNet(net) && m.MsgRecvPacket? && Accepted(net, w, m)
    requires forall k <- w.sent :: Wired(net, w, k)
    requires KeyOf(net, m) in w.sent && w.sent[KeyOf(net, m)] == m.packet && StatusOf(net, w, KeyOf(net, m)) == Pending
    requires Place(m.packet.dst, m.packet.number) !in w.chains[m.at.chain].store.receipts
    ensures Abs(net, Dispatch(net, w, m)) == Act(net, Abs(net, w), Image(net, w, m))
  {
    DispatchChanges(net, w, m);
    RecvPays(net, w, m);
    RecvIsPayment(net, w, m);
  }

  /** A refund pays exactly what the token network says, and leaves no commitment behind. */
  lemma RefundPays(net: Net, w: World, m: Msg)
    requires Accepted(net, w, m) && Settles(w, m) && (m.MsgTimeout? || m.ack.Error?)
    ensures var v, k := Dispatch(net, w, m), KeyOf(net, m);
      && RefundTransfer(m.policy, w.chains[m.at.chain].coins, m.at.hop, m.packet.data) == Some(v.chains[m.at.chain].coins)
      && v.sent == w.sent && Wired(net, v, k)
      && Departure(k) !in v.chains[m.at.chain].store.commitments
      && v.chains[net[m.at].chain].store.acks == w.chains[net[m.at].chain].store.acks
  {
  }

  lemma RefundChanges(net: Net, w: World, m: Msg)
    requires ValidNet(net) && Accepted(net, w, m) && Settles(w, m) && (m.MsgTimeout? || m.ack.Error?)
    requires forall k <- w.sent :: Wired(net, w, k)
    requires KeyOf(net, m) in w.sent && w.sent[KeyOf(net, m)] == m.packet
    requires StatusOf(net, w, KeyOf(net, m)) in {Pending, Refused}
    ensures m.at.chain in Dispatch(net, w, m).chains
    ensures Abs(net, Dispatch(net, w, m))
         == State(Abs(net, w).banks[m.at.chain := Dispatch(net, w, m).chains[m.at.chain].coins],
                  Abs(net, w).packets[KeyOf(net, m) := Entry(m.packet.data, Refunded)])
  {
    DispatchChanges(net, w, m);
    RefundPays(net, w, m);
    assert StatusOf(net, Dispatch(net, w, m), KeyOf(net, m)) == Refunded;
  }

  lemma RefundIsPayment(net: Net, w: World, m: Msg)
    requires ValidNet(net) && Accepted(net, w, m) && Settles(w, m) && (m.MsgTimeout? || m.ack.Error?)
    requires KeyOf(net, m) in w.sent && w.sent[KeyOf(net, m)] == m.packet
    requires StatusOf(net, w, KeyOf(net, m)) in {Pending, Refused}
    ensures m.at.chain in Dispatch(net, w, m).chains
    ensures Payment(net, Abs(net, w), Refund(KeyOf(net, m), m.policy)) == Some(Dispatch(net, w, m).chains[m.at.chain].coins)
  {
    RefundPays(net, w, m);
    assert Abs(net, w).packets[KeyOf(net, m)] == Entry(m.packet.data, StatusOf(net, w, KeyOf(net, m)));
  }

  /** Refunding by timeout or by an error acknowledgement. */
  lemma RefundRefines(net: Net, w: World, m: Msg)
    requires ValidNet(net) && Accepted(net, w, m) && Settles(w, m) && (m.MsgTimeout? || m.ack.Error?)
    requires forall k <- w.sent :: Wired(net, w, k)
    requires KeyOf(net, m) in w.sent && w.sent[KeyOf(net, m)] == m.packet
    requires StatusOf(net, w, KeyOf(net, m)) in {Pending, Refused}
    ensures Abs(net, Dispatch(net, w, m)) == Act(net, Abs(net, w), Refund(KeyOf(net, m), m.policy))
  {
    var s, k := Abs(net, w), KeyOf(net, m);
    RefundChanges(net, w, m);
    RefundIsPayment(net, w, m);
    assert s.packets[k] == Entry(m.packet.data, StatusOf(net, w, k));
    RefundAct(net, s, k, m.policy);
  }

  lemma RefundAct(net: Net, s: State, k: Key, policy: Policy)
    requires ValidNet(net) && Payment(net, s, Refund(k, policy)).Some?
    ensures Act(net, s, Refund(k, policy))
         == State(s.banks[k.src.chain := Payment(net, s, Refund(k, policy)).value],
                  s.packets[k := Entry(s.packets[k].data, Refunded)])
  {
  }

  lemma AbsSame(net: Net, w: World, v: World)
    requires v.chains.Keys == w.chains.Keys && v.sent == w.sent
    requires forall chain <- w.chains :: v.chains[chain].coins == w.chains[chain].coins
    requires forall k <- w.sent :: StatusOf(net, v, k) == StatusOf(net, w, k)
    ensures Abs(net, v) == Abs(net, w)
  {
  }

  /** A new block moves no value. */
  lemma BlockRefines(net: Net, w: World, m: Msg)
    requires ValidNet(net) && Accepted(net, w, m) && m.MsgNewBlock?
    requires forall k <- w.sent :: Wired(net, w, k)
    ensures Abs(net, Dispatch(net, w, m)) == Abs(net, w)
  {
    var v := Dispatch(net, w, m);
    forall k <- w.sent ensures StatusOf(net, v, k) == StatusOf(net, w, k) {
      OthersKeepStatus(net, w, m, k);
    }
    AbsSame(net, w, v);
  }

  /** What an acknowledgement of success does to its chain. */
  lemma SuccessEffect(net: Net, w: World, m: Msg)
    requires Accepted(net, w, m) && m.MsgAcknowledgement? && m.ack.Success? && Settles(w, m)
    ensures var c := w.chains[m.at.chain];
      Dispatch(net, w, m) == World(w.chains[m.at.chain := Settled(c, c.coins, m.packet)], w.sent)
  {
  }

  lemma SuccessKeepsCoins(net: Net, w: World, m: Msg)
    requires Accepted(net, w, m) && m.MsgAcknowledgement? && m.ack.Success? && Settles(w, m)
    ensures var v := Dispatch(net, w, m);
      && v.chains.Keys == w.chains.Keys && v.sent == w.sent
      && forall chain <- w.chains :: v.chains[chain].coins == w.chains[chain].coins
  {
    SuccessEffect(net, w, m);
  }

  lemma DeliveredStays(net: Net, w: World, m: Msg)
    requires Accepted(net, w, m) && m.MsgAcknowledgement? && m.ack.Success? && Settles(w, m)
    requires StatusOf(net, w, KeyOf(net, m)) == Delivered
    ensures StatusOf(net, Dispatch(net, w, m), KeyOf(net, m)) == Delivered
  {
    SuccessEffect(net, w, m);
  }

  /** An acknowledgement of success moves no value. */
  lemma SuccessRefines(net: Net, w: World, m: Msg)
    requires ValidNet(net) && Accepted(net, w, m) && m.MsgAcknowledgement? && m.ack.Success? && Settles(w, m)
    requires forall k <- w.sent :: Wired(net, w, k)
    requires KeyOf(net, m) in w.sent && StatusOf(net, w, KeyOf(net, m)) == Delivered
    ensures Abs(net, Dispatch(net, w, m)) == Abs(net, w)
  {
    var v := Dispatch(net, w, m);
    forall k <- w.sent ensures StatusOf(net, v, k) == StatusOf(net, w, k) {
      if k == KeyOf(net, m) {
        DeliveredStays(net, w, m);
      } else {
        OthersKeepStatus(net, w, m, k);
      }
    }
    SuccessKeepsCoins(net, w, m);
    AbsSame(net, w, v);
  }

  /** Settled packets: received with the acknowledged result, or not received at all. */
  lemma SettleStatus(net: Net, w: World, m: Msg)
    requires ValidNet(net) && WorldInv(net, w) && Addressed(net, w, m) && Settles(w, m) && Proven(net, w, m)
    requires TruthfulProof(net, w, m)
    ensures KeyOf(net, m) in w.sent && w.sent[KeyOf(net, m)] == m.packet
    ensures StatusOf(net, w, KeyOf(net, m))
         == (if m.MsgTimeout? then Pending else if m.ack.Success? then Delivered else Refused)
  {
    SettleFacts(net, w, m);
    var k := KeyOf(net, m);
    assert PacketInv(net, w, k);
    var near, far := w.chains[m.at.chain], w.chains[net[m.at].chain];
    if m.MsgTimeout? {
      TimeoutKeepsPacket(net, w.sent, net[m.at].chain, k, m.packet, near, far, near.coins, m.height);
      assert ChainOk(net, w.sent, net[m.at].chain, far);
    }
  }

  lemma TransferMsgRefines(net: Net, w: World, m: Msg)
    requires ValidNet(net) && WorldInv(net, w) && m.MsgTransfer? && Accepted(net, w, m)
    ensures Abs(net, Dispatch(net, w, m)) == Act(net, Abs(net, w), Image(net, w, m))
  {
    AllWired(net, w);
    SendFacts(net, w, m);
    NewIsUnreceived(net, w.sent, KeyOf(net, m), w.chains[net[m.at].chain]);
    TransferRefines(net, w, m);
  }

  lemma RecvMsgRefines(net: Net, w: World, m: Msg)
    requires ValidNet(net) && WorldInv(net, w) && m.MsgRecvPacket? && Accepted(net, w, m)
    ensures Abs(net, Dispatch(net, w, m)) == Act(net, Abs(net, w), Image(net, w, m))
  {
    AllWired(net, w);
    ReceivableIsPending(net, w, m);
    RecvRefines(net, w, m);
  }

  lemma SettlingRefines(net: Net, w: World, m: Msg)
    requires ValidNet(net) && Accepted(net, w, m) && Settles(w, m)
    requires forall k <- w.sent :: Wired(net, w, k)
    requires KeyOf(net, m) in w.sent && w.sent[KeyOf(net, m)] == m.packet
    requires StatusOf(net, w, KeyOf(net, m))
          == (if m.MsgTimeout? then Pending else if m.ack.Success? then Delivered else Refused)
    ensures Abs(net, Dispatch(net, w, m)) == Act(net, Abs(net, w), Image(net, w, m))
  {
    if m.MsgAcknowledgement? && m.ack.Success? {
      SuccessRefines(net, w, m);
    } else {
      RefundRefines(net, w, m);
    }
  }

  lemma AcceptedIsProven(net: Net, w: World, m: Msg)
    requires Accepted(net, w, m) && Settles(w, m)
    ensures Proven(net, w, m)
  {
  }

  lemma SettleMsgRefines(net: Net, w: World, m: Msg)
    requires ValidNet(net) && WorldInv(net, w) && Settles(w, m) && Accepted(net, w, m) && Truthful(net, w, m)
    ensures Abs(net, Dispatch(net, w, m)) == Act(net, Abs(net, w), Image(net, w, m))
  {
    AllWired(net, w);
    AcceptedIsProven(net, w, m);
    SettleStatus(net, w, m);
    SettlingRefines(net, w, m);
  }

  lemma RepeatRefines(net: Net, w: World, m: Msg)
    requires ValidNet(net) && (m.MsgAcknowledgement? || m.MsgTimeout?) && !Settles(w, m)
    ensures Abs(net, Dispatch(net, w, m)) == Act(net, Abs(net, w), Image(net, w, m))
  {
    RepeatChangesNothing(net, w, m);
  }

  /** Every message is a step of the token network, or no step at all. */
  lemma Refines(net: Net, w: World, m: Msg)
    requires ValidNet(net) && WorldInv(net, w) && Truthful(net, w, m)
    ensures Abs(net, Dispatch(net, w, m)) == Act(net, Abs(net, w), Image(net, w, m))
  {
    if Accepted(net, w, m) {
      match m
      case MsgTransfer(_, _, _, _, _) => TransferMsgRefines(net, w, m);
      case MsgRecvPacket(_, _, _, _, _) => RecvMsgRefines(net, w, m);
      case MsgNewBlock(_, _, _) =>
        AllWired(net, w);
        BlockRefines(net, w, m);
      case _ =>
        if Settles(w, m) {
          SettleMsgRefines(net, w, m);
        } else {
          RepeatRefines(net, w, m);
        }
    }
  }

  // ----- Whole runs -----

  function Run(net: Net, w: World, msgs: seq<Msg>): World
    decreases |msgs|
  {
    if msgs == [] then w else Run(net, Dispatch(net, w, msgs[0]), msgs[1..])
  }

  /** Every timeout that settles a packet in the run is dated right in the state that it meets. */
  predicate AllTruthful(net: Net, w: World, msgs: seq<Msg>)
    decreases |msgs|
  {
    msgs == [] || (Truthful(net, w, msgs[0]) && AllTruthful(net, Dispatch(net, w, msgs[0]), msgs[1..]))
  }

  predicate EmptyStore(s: Store) {
    s.commitments == map[] && s.receipts == {} && s.acks == map[]
  }

  /** Nothing has been sent, and users hold tokens of their own chain only. */
  ghost predicate Start(net: Net, w: World) {
    && w.sent == map[]
    && Genesis(Abs(net, w))
    && forall chain <- w.chains :: var c := w.chains[chain];
         && EmptyStore(c.store)
         && forall h <- c.past :: AtMost(h, c.height) && c.past[h].time <= c.time && EmptyStore(c.past[h].store)
  }

  lemma StartInv(net: Net, w: World)
    requires ValidNet(net) && Start(net, w)
    ensures WorldInv(net, w) && Inv(net, Abs(net, w))
  {
    GenesisInv(net, Abs(net, w));
    forall chain <- w.chains ensures ChainOk(net, w.sent, chain, w.chains[chain]) {
      var c := w.chains[chain];
      forall h <- c.past ensures SnapshotOk(w.sent, chain, c, h, c.past[h]) {
        assert EmptyStore(c.past[h].store);
      }
    }
  }

  lemma {:induction false} RunKeeps(net: Net, w: World, msgs: seq<Msg>)
    requires ValidNet(net) && WorldInv(net, w) && Inv(net, Abs(net, w)) && AllTruthful(net, w, msgs)
    ensures WorldInv(net, Run(net, w, msgs)) && Inv(net, Abs(net, Run(net, w, msgs)))
    decreases |msgs|
  {
    if msgs != [] {
      DispatchKeepsInv(net, w, msgs[0]);
      Refines(net, w, msgs[0]);
      ActKeepsInv(net, Abs(net, w), Image(net, w, msgs[0]));
      RunKeeps(net, Dispatch(net, w, msgs[0]), msgs[1..]);
    }
  }

  /** From any start and under any messages, in any order and repeated at will, every channel end is backed:
      its escrow is the vouchers on the other side and the transfers still owed; and no coin held or
      owed has a trace that leaves by a channel and comes straight back. */
  lemma EveryRunIsBacked(net: Net, start: World, msgs: seq<Msg>)
    requires ValidNet(net) && Start(net, start) && AllTruthful(net, start, msgs)
    ensures var s := Abs(net, Run(net, start, msgs)); AllBacked(net, s) && AllRouted(net, s)
  {
    StartInv(net, start);
    RunKeeps(net, start, msgs);
  }

  /** No run creates or destroys any amount of any base token, summed over all chains, all users,
      all traces and all owed transfers; nor does it change any chain's supply of its own tokens. */
  lemma {:induction false} EveryRunConserves(net: Net, w: World, msgs: seq<Msg>, t: Token)
    requires ValidNet(net) && WorldInv(net, w) && Inv(net, Abs(net, w)) && AllTruthful(net, w, msgs)
    ensures Wealth(net, Abs(net, Run(net, w, msgs)), t) == Wealth(net, Abs(net, w), t)
    ensures SupplyOn(Abs(net, Run(net, w, msgs)), t.chain, Denom([], t.base))
         == SupplyOn(Abs(net, w), t.chain, Denom([], t.base))
    decreases |msgs|
  {
    if msgs != [] {
      var s, a := Abs(net, w), Image(net, w, msgs[0]);
      DispatchKeepsInv(net, w, msgs[0]);
      Refines(net, w, msgs[0]);
      ActKeepsInv(net, s, a);
      ActConservesWealth(net, s, a, t);
      ActKeepsNativeSupply(net, s, a, t.chain, Denom([], t.base));
      EveryRunConserves(net, Dispatch(net, w, msgs[0]), msgs[1..], t);
    }
  }

  lemma PaidIsFinal(net: Net, s: State, a: Action, k: Key)
    requires ValidNet(net) && k in s.packets && !Owed(s.packets[k])
    ensures k in Act(net, s, a).packets && Act(net, s, a).packets[k] == s.packets[k]
  {
  }

  lemma StatusIsFinal(net: Net, w: World, m: Msg, k: Key)
    requires ValidNet(net) && k in w.sent && StatusOf(net, w, k) in {Delivered, Refunded}
    requires Abs(net, Dispatch(net, w, m)) == Act(net, Abs(net, w), Image(net, w, m))
    ensures k in Dispatch(net, w, m).sent && StatusOf(net, Dispatch(net, w, m), k) == StatusOf(net, w, k)
  {
    PaidIsFinal(net, Abs(net, w), Image(net, w, m), k);
    assert k in Abs(net, Dispatch(net, w, m)).packets;
  }

  // ----- Payouts -----

  /** The message pays packet `k` out: to its receiver, or back to its sender. */
  predicate Pays(net: Net, w: World, m: Msg, k: Key) {
    && Accepted(net, w, m) && !m.MsgNewBlock? && !m.MsgTransfer? && KeyOf(net, m) == k
    && if m.MsgRecvPacket? then
         && Place(m.packet.dst, m.packet.number) !in w.chains[m.at.chain].store.receipts
         && ReceiveTransfer(m.policy, w.chains[m.at.chain].coins, m.packet.src, m.packet.dst, m.packet.data).Some?
       else
         Settles(w, m) && (m.MsgTimeout? || m.ack.Error?)
  }

  /** How often a run pays packet `k` out. */
  function Payouts(net: Net, w: World, msgs: seq<Msg>, k: Key): nat
    decreases |msgs|
  {
    if msgs == [] then 0
    else (if Pays(net, w, msgs[0], k) then 1 else 0) + Payouts(net, Dispatch(net, w, msgs[0]), msgs[1..], k)
  }

  /** No message but a transfer and a payout moves any coin on any chain. */
  lemma OnlyPayoutsMoveCoins(net: Net, w: World, m: Msg, chain: nat)
    requires chain in w.chains && !m.MsgTransfer?
    requires m.MsgNewBlock? || m.at !in net || !Pays(net, w, m, KeyOf(net, m))
    ensures chain in Dispatch(net, w, m).chains && Dispatch(net, w, m).chains[chain].coins == w.chains[chain].coins
  {
  }

  predicate PaidOut(net: Net, w: World, k: Key) {
    k in w.sent && StatusOf(net, w, k) in {Delivered, Refunded}
  }

  lemma RecvPaysOut(net: Net, w: World, m: Msg)
    requires ValidNet(net) && m.MsgRecvPacket? && Accepted(net, w, m) && Wired(net, w, KeyOf(net, m))
    requires KeyOf(net, m) in w.sent && StatusOf(net, w, KeyOf(net, m)) == Pending
    requires Place(m.packet.dst, m.packet.number) !in w.chains[m.at.chain].store.receipts
    ensures Pays(net, w, m, KeyOf(net, m)) <==> PaidOut(net, Dispatch(net, w, m), KeyOf(net, m))
  {
    RecvPays(net, w, m);
  }

  lemma PayingRecv(net: Net, w: World, m: Msg)
    requires ValidNet(net) && WorldInv(net, w) && m.MsgRecvPacket? && Accepted(net, w, m)
    ensures !PaidOut(net, w, KeyOf(net, m))
    ensures Pays(net, w, m, KeyOf(net, m)) <==> PaidOut(net, Dispatch(net, w, m), KeyOf(net, m))
  {
    ReceivableIsPending(net, w, m);
    RecvPaysOut(net, w, m);
  }

  lemma RefundPaysOut(net: Net, w: World, m: Msg)
    requires Accepted(net, w, m) && Settles(w, m) && (m.MsgTimeout? || m.ack.Error?) && KeyOf(net, m) in w.sent
    ensures PaidOut(net, Dispatch(net, w, m), KeyOf(net, m))
  {
    RefundPays(net, w, m);
  }

  lemma PayingSettlement(net: Net, w: World, m: Msg)
    requires Settles(w, m) && Accepted(net, w, m) && KeyOf(net, m) in w.sent
    requires StatusOf(net, w, KeyOf(net, m))
          == (if m.MsgTimeout? then Pending else if m.ack.Success? then Delivered else Refused)
    ensures Pays(net, w, m, KeyOf(net, m)) ==>
      !PaidOut(net, w, KeyOf(net, m)) && PaidOut(net, Dispatch(net, w, m), KeyOf(net, m))
    ensures !Pays(net, w, m, KeyOf(net, m)) ==> PaidOut(net, w, KeyOf(net, m))
  {
    if m.MsgTimeout? || m.ack.Error? {
      RefundPaysOut(net, w, m);
    }
  }

  lemma SettlementPays(net: Net, w: World, m: Msg)
    requires ValidNet(net) && WorldInv(net, w) && Settles(w, m) && Accepted(net, w, m) && Truthful(net, w, m)
    ensures Pays(net, w, m, KeyOf(net, m)) ==>
      !PaidOut(net, w, KeyOf(net, m)) && PaidOut(net, Dispatch(net, w, m), KeyOf(net, m))
    ensures !Pays(net, w, m, KeyOf(net, m)) ==> PaidOut(net, w, KeyOf(net, m))
  {
    AcceptedIsProven(net, w, m);
    SettleStatus(net, w, m);
    PayingSettlement(net, w, m);
  }

  lemma PaidOutStays(net: Net, w: World, m: Msg, k: Key)
    requires ValidNet(net) && WorldInv(net, w) && Truthful(net, w, m) && PaidOut(net, w, k)
    ensures PaidOut(net, Dispatch(net, w, m), k)
  {
    Refines(net, w, m);
    StatusIsFinal(net, w, m, k);
  }

  /** A packet that a message is not about, or only repeats, is paid out after it exactly if it was before. */
  lemma UnpaidStays(net: Net, w: World, m: Msg, k: Key)
    requires ValidNet(net) && WorldInv(net, w) && !PaidOut(net, w, k)
    requires !Accepted(net, w, m) || m.MsgNewBlock? || KeyOf(net, m) != k
    ensures !PaidOut(net, Dispatch(net, w, m), k)
  {
    if Accepted(net, w, m) && k in w.sent {
      assert PacketInv(net, w, k);
      OthersKeepStatus(net, w, m, k);
    }
  }

  lemma SendIsUnpaid(net: Net, w: World, m: Msg)
    requires ValidNet(net) && WorldInv(net, w) && m.MsgTransfer? && Accepted(net, w, m)
    ensures !PaidOut(net, Dispatch(net, w, m), KeyOf(net, m))
  {
    SendFacts(net, w, m);
    NewIsUnreceived(net, w.sent, KeyOf(net, m), w.chains[net[m.at].chain]);
    NewIsPending(net, w, m);
  }

  lemma NewIsPending(net: Net, w: World, m: Msg)
    requires m.MsgTransfer? && Accepted(net, w, m)
    requires Arrival(net, KeyOf(net, m)) !in w.chains[net[m.at].chain].store.acks
    ensures StatusOf(net, Dispatch(net, w, m), KeyOf(net, m)) == Pending
  {
  }

  /** A message pays a packet out exactly when it turns it from unpaid to paid. */
  lemma PaysExactly(net: Net, w: World, m: Msg, k: Key)
    requires ValidNet(net) && WorldInv(net, w) && Truthful(net, w, m)
    ensures Pays(net, w, m, k) <==> !PaidOut(net, w, k) && PaidOut(net, Dispatch(net, w, m), k)
    ensures PaidOut(net, w, k) ==> PaidOut(net, Dispatch(net, w, m), k)
  {
    if PaidOut(net, w, k) {
      PaidOutStays(net, w, m, k);
    }
    if !Accepted(net, w, m) || m.MsgNewBlock? || KeyOf(net, m) != k {
      if !PaidOut(net, w, k) {
        UnpaidStays(net, w, m, k);
      }
    } else if m.MsgTransfer? {
      SendIsUnpaid(net, w, m);
    } else if m.MsgRecvPacket? {
      PayingRecv(net, w, m);
    } else if Settles(w, m) {
      SettlementPays(net, w, m);
    } else {
      RepeatChangesNothing(net, w, m);
    }
  }

  /** Every packet is paid out at most once, to its receiver or back to its sender, whatever is delivered and
      however often: a run pays it out once if it is unpaid before and paid after, and never otherwise. */
  lemma {:induction false} SettledOnce(net: Net, w: World, msgs: seq<Msg>, k: Key)
    requires ValidNet(net) && WorldInv(net, w) && AllTruthful(net, w, msgs)
    ensures Payouts(net, w, msgs, k) == (if !PaidOut(net, w, k) && PaidOut(net, Run(net, w, msgs), k) then 1 else 0)
    ensures PaidOut(net, w, k) ==> PaidOut(net, Run(net, w, msgs), k)
    decreases |msgs|
  {
    if msgs != [] {
      PaysExactly(net, w, msgs[0], k);
      DispatchKeepsInv(net, w, msgs[0]);
      SettledOnce(net, Dispatch(net, w, msgs[0]), msgs[1..], k);
    }
  }

  /** The same funding as in the token network, in terms of the two chains. */
  lemma ChainsAreFunded(net: Net, w: World, k: Key, p: Policy)
    requires ValidNet(net) && Inv(net, Abs(net, w)) && k in w.sent && Wired(net, w, k)
    ensures StatusOf(net, w, k) == Pending && p.canReceive && w.sent[k].data.receiver in p.accounts - p.blocked ==>
      ReceiveTransfer(p, w.chains[net[k.src].chain].coins, k.src.hop, net[k.src].hop, w.sent[k].data).Some?
    ensures StatusOf(net, w, k) in {Pending, Refused} && w.sent[k].data.sender in p.accounts - p.blocked ==>
      RefundTransfer(p, w.chains[k.src.chain].coins, k.src.hop, w.sent[k].data).Some?
  {
    PayoutsAreFunded(net, Abs(net, w), k, p);
    assert Abs(net, w).packets[k] == Entry(w.sent[k].data, StatusOf(net, w, k));
  }

  lemma PaidIsAccepted(net: Net, w: World, m: Msg)
    requires Addressed(net, w, m) && Settles(w, m) && Proven(net, w, m)
    requires m.MsgTimeout? || m.ack.Error? ==>
      RefundTransfer(m.policy, w.chains[m.at.chain].coins, m.at.hop, m.packet.data).Some?
    ensures Accepted(net, w, m)
  {
  }

  /** A proven timeout or error acknowledgement of an unsettled packet is never turned away for lack of coins. */
  lemma RefundsSucceed(net: Net, w: World, m: Msg)
    requires ValidNet(net) && WorldInv(net, w) && Inv(net, Abs(net, w))
    requires Addressed(net, w, m) && Settles(w, m) && Proven(net, w, m) && TruthfulProof(net, w, m)
    requires m.packet.data.sender in m.policy.accounts - m.policy.blocked
    ensures Accepted(net, w, m)
  {
    SettleStatus(net, w, m);
    ChainsAreFunded(net, w, KeyOf(net, m), m.policy);
    PaidIsAccepted(net, w, m);
  }

  lemma PaidIsDelivered(net: Net, w: World, m: Msg)
    requires ValidNet(net) && m.MsgRecvPacket? && Accepted(net, w, m)
    requires Place(m.packet.dst, m.packet.number) !in w.chains[m.at.chain].store.receipts
    requires ReceiveTransfer(m.policy, w.chains[m.at.chain].coins, m.packet.src, m.packet.dst, m.packet.data).Some?
    ensures StatusOf(net, Dispatch(net, w, m), KeyOf(net, m)) == Delivered
    ensures Some(Dispatch(net, w, m).chains[m.at.chain].coins)
         == ReceiveTransfer(m.policy, w.chains[m.at.chain].coins, m.packet.src, m.packet.dst, m.packet.data)
  {
  }

  /** A packet accepted for a willing receiver is always paid out: returning vouchers find their escrow. */
  lemma ReceivesSucceed(net: Net, w: World, m: Msg)
    requires ValidNet(net) && WorldInv(net, w) && Inv(net, Abs(net, w))
    requires m.MsgRecvPacket? && Accepted(net, w, m)
    requires m.policy.canReceive && m.packet.data.receiver in m.policy.accounts - m.policy.blocked
    ensures StatusOf(net, Dispatch(net, w, m), KeyOf(net, m)) == Delivered
    ensures Some(Dispatch(net, w, m).chains[m.at.chain].coins)
         == ReceiveTransfer(m.policy, w.chains[m.at.chain].coins, m.packet.src, m.packet.dst, m.packet.data)
  {
    ReceivableIsPending(net, w, m);
    ChainsAreFunded(net, w, KeyOf(net, m), m.policy);
    PaidIsDelivered(net, w, m);
  }
}
