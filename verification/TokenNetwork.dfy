/** Token transfers between any number of chains, with each packet settled at most once:
    the abstract machine that the packet handlers refine. */
module TokenNetwork {
  import opened Basics
  import opened Denoms
  import opened Sums
  import opened Transfer

  datatype Status = Pending | Delivered | Refused | Refunded

  /** A sent transfer and what has become of it. */
  datatype Entry = Entry(data: TransferData, status: Status)

  /** A packet is named by the end it left from and its sequence number there. */
  datatype Key = Key(src: End, number: nat)

  datatype State = State(banks: map<nat, Coins>, packets: map<Key, Entry>)

  function Bank(s: State, chain: nat): Coins {
    if chain in s.banks then s.banks[chain] else map[]
  }

  function WithBank(s: State, chain: nat, c: Coins): State {
    s.(banks := s.banks[chain := c])
  }

  /** The value of the packet still has to be paid out at one end or the other. */
  predicate Owed(e: Entry) {
    e.status.Pending? || e.status.Refused?
  }

  datatype Action =
    | Send(key: Key, policy: Policy, data: TransferData)
    | Deliver(key: Key, policy: Policy)
    | Refuse(key: Key)
    | Refund(key: Key, policy: Policy)
    | Stutter

  /** The coins of the acting chain after the action; nothing if the action is not possible. */
  function Payment(net: Net, s: State, a: Action): Option<Coins>
    requires ValidNet(net)
  {
    match a
    case Send(k, p, data) =>
      if k.src !in net || k in s.packets then None
      else SendTransfer(p, Bank(s, k.src.chain), k.src.hop, data)
    case Deliver(k, p) =>
      if k.src !in net || k !in s.packets || !s.packets[k].status.Pending? then None
      else ReceiveTransfer(p, Bank(s, net[k.src].chain), k.src.hop, net[k.src].hop, s.packets[k].data)
    case Refund(k, p) =>
      if k.src !in net || k !in s.packets || !Owed(s.packets[k]) then None
      else RefundTransfer(p, Bank(s, k.src.chain), k.src.hop, s.packets[k].data)
    case Refuse(k) => None
    case Stutter => None
  }

  /** One step of the network. */
  function Act(net: Net, s: State, a: Action): State
    requires ValidNet(net)
  {
    var paid := Payment(net, s, a);
    match a
    case Send(k, p, data) =>
      if paid.None? then s else
        WithBank(s, k.src.chain, paid.value).(packets := s.packets[k := Entry(data, Pending)])
    case Deliver(k, p) =>
      if paid.None? then s else
        WithBank(s, net[k.src].chain, paid.value).(packets := s.packets[k := s.packets[k].(status := Delivered)])
    case Refund(k, p) =>
      if paid.None? then s else
        WithBank(s, k.src.chain, paid.value).(packets := s.packets[k := s.packets[k].(status := Refunded)])
    case Refuse(k) =>
      if k !in s.packets || !s.packets[k].status.Pending? then s
      else s.(packets := s.packets[k := s.packets[k].(status := Refused)])
    case Stutter => s
  }

  // ----- What every run keeps -----

  function Contribution(src: End, d: Denom, k: Key, e: Entry): nat {
    if Owed(e) && k.src == src && e.data.denom == d then e.data.amount else 0
  }

  function InFlightWeight(src: End, d: Denom): (Key, Entry) -> nat {
    (k: Key, e: Entry) => Contribution(src, d, k, e)
  }

  /** The owed amount of `d` in packets that left from `src`. */
  ghost function InFlight(s: State, src: End, d: Denom): nat {
    Sum(s.packets, InFlightWeight(src, d))
  }

  function Escrowed(s: State, e: End, d: Denom): nat {
    Balance(Bank(s, e.chain), Escrow(e.hop), d)
  }

  ghost function Vouchers(s: State, f: End, d: Denom): nat {
    Supply(Bank(s, f.chain), AddPrefix(d, f.hop))
  }

  /** The two-way peg at one channel end: what it holds in escrow is exactly the vouchers
      on the other side together with the owed transfers in both directions. */
  ghost predicate Backed(net: Net, s: State, e: End, d: Denom)
    requires ValidNet(net) && e in net
  {
    Escrowed(s, e, d) == Vouchers(s, net[e], d) + InFlight(s, e, d) + InFlight(s, net[e], AddPrefix(d, net[e].hop))
  }

  /** Every end is backed in every denomination; what came in through an end is never in escrow there. */
  ghost predicate AllBacked(net: Net, s: State)
    requires ValidNet(net)
  {
    forall e: End, d: Denom :: e in net ==> Pegged(net, s, e, d)
  }

  ghost predicate Pegged(net: Net, s: State, e: End, d: Denom)
    requires ValidNet(net) && e in net
  {
    if StartsWith(d, e.hop) then Escrowed(s, e, d) == 0 else Backed(net, s, e, d)
  }

  ghost predicate CoinsRouted(net: Net, chain: nat, c: Coins) {
    forall slot <- c :: c[slot] > 0 ==> Routed(net, chain, slot.denom)
  }

  ghost predicate AllRouted(net: Net, s: State) {
    && (forall chain <- s.banks :: CoinsRouted(net, chain, s.banks[chain]))
    && (forall k <- s.packets :: Owed(s.packets[k]) && s.packets[k].data.amount > 0 ==>
          Routed(net, k.src.chain, s.packets[k].data.denom))
  }

  ghost predicate Connected(net: Net, s: State) {
    forall k <- s.packets :: k.src in net
  }

  ghost predicate Inv(net: Net, s: State)
    requires ValidNet(net)
  {
    Connected(net, s) && AllRouted(net, s) && AllBacked(net, s)
  }

  /** At the start nothing has been sent, and users hold only tokens of their own chain. */
  ghost predicate Genesis(s: State) {
    && s.packets == map[]
    && forall chain <- s.banks, slot <- s.banks[chain] ::
         s.banks[chain][slot] > 0 ==> slot.account.User? && slot.denom.trace == []
  }

  lemma GenesisInv(net: Net, s: State)
    requires ValidNet(net) && Genesis(s)
    ensures Inv(net, s)
  {
    forall e: End, d: Denom | e in net ensures Pegged(net, s, e, d) {
      var f := net[e];
      SumZero(Bank(s, f.chain), Counted(OfDenom(AddPrefix(d, f.hop))));
    }
  }

  /** Changing one packet moves the in-flight totals by that packet alone. */
  lemma PacketChanges(s: State, k: Key, e: Entry, src: End, d: Denom)
    ensures InFlight(s.(packets := s.packets[k := e]), src, d)
          + (if k in s.packets then Contribution(src, d, k, s.packets[k]) else 0)
         == InFlight(s, src, d) + Contribution(src, d, k, e)
  {
    SumUpdate(s.packets, InFlightWeight(src, d), k, e);
  }

  /** The supply of one denomination on one chain. */
  ghost function SupplyOn(s: State, chain: nat, d: Denom): nat {
    Supply(Bank(s, chain), d)
  }

  /** What the transfer steps do to an escrow account. */
  lemma SendEscrows(p: Policy, c: Coins, src: Hop, data: TransferData, hop: Hop, d: Denom)
    requires SendTransfer(p, c, src, data).Some?
    ensures Balance(SendTransfer(p, c, src, data).value, Escrow(hop), d)
         == Balance(c, Escrow(hop), d)
          + (if IsSenderChainSource(src, data.denom) && src == hop && data.denom == d then data.amount else 0)
  {
  }

  lemma RefundEscrows(p: Policy, c: Coins, src: Hop, data: TransferData, hop: Hop, d: Denom)
    requires RefundTransfer(p, c, src, data).Some?
    ensures Balance(c, Escrow(hop), d) == Balance(RefundTransfer(p, c, src, data).value, Escrow(hop), d)
         + (if IsSenderChainSource(src, data.denom) && src == hop && data.denom == d then data.amount else 0)
  {
  }

  lemma ReceiveEscrows(p: Policy, c: Coins, src: Hop, dst: Hop, data: TransferData, hop: Hop, d: Denom)
    requires ReceiveTransfer(p, c, src, dst, data).Some?
    ensures Balance(c, Escrow(hop), d) == Balance(ReceiveTransfer(p, c, src, dst, data).value, Escrow(hop), d)
         + (if IsReceiverChainSource(src, data.denom) && dst == hop && Received(src, dst, data.denom) == d
            then data.amount else 0)
  {
  }

  lemma SendEffects(net: Net, s: State, k: Key, p: Policy, data: TransferData, e: End, d: Denom)
    requires ValidNet(net) && e in net && Payment(net, s, Send(k, p, data)).Some?
    ensures var t := Act(net, s, Send(k, p, data)); var escrows := IsSenderChainSource(k.src.hop, data.denom);
      && InFlight(t, e, d) == InFlight(s, e, d) + (if k.src == e && data.denom == d then data.amount else 0)
      && Escrowed(t, e, d) == Escrowed(s, e, d) + (if escrows && k.src == e && data.denom == d then data.amount else 0)
      && SupplyOn(s, e.chain, d)
         == SupplyOn(t, e.chain, d) + (if !escrows && k.src.chain == e.chain && data.denom == d then data.amount else 0)
  {
    PacketChanges(s, k, Entry(data, Pending), e, d);
    var c := Bank(s, k.src.chain);
    SendCounts(p, c, k.src.hop, data, OfDenom(d));
    SendEscrows(p, c, k.src.hop, data, e.hop, d);
  }

  lemma SendKeepsBacked(net: Net, s: State, k: Key, p: Policy, data: TransferData, e: End, d: Denom)
    requires ValidNet(net) && Payment(net, s, Send(k, p, data)).Some?
    requires e in net && !StartsWith(d, e.hop) && Backed(net, s, e, d)
    ensures Backed(net, Act(net, s, Send(k, p, data)), e, d)
  {
    var f := net[e];
    SendEffects(net, s, k, p, data, e, d);
    SendEffects(net, s, k, p, data, f, AddPrefix(d, f.hop));
    RemoveUndoesAdd(d, f.hop);
    RemoveUndoesAdd(data.denom, k.src.hop);
  }

  lemma RefundEffects(net: Net, s: State, k: Key, p: Policy, e: End, d: Denom)
    requires ValidNet(net) && e in net && Payment(net, s, Refund(k, p)).Some?
    ensures var t := Act(net, s, Refund(k, p)); var data := s.packets[k].data;
      var escrows := IsSenderChainSource(k.src.hop, data.denom);
      && InFlight(s, e, d) == InFlight(t, e, d) + (if k.src == e && data.denom == d then data.amount else 0)
      && Escrowed(s, e, d) == Escrowed(t, e, d) + (if escrows && k.src == e && data.denom == d then data.amount else 0)
      && SupplyOn(t, e.chain, d)
         == SupplyOn(s, e.chain, d) + (if !escrows && k.src.chain == e.chain && data.denom == d then data.amount else 0)
  {
    var data := s.packets[k].data;
    PacketChanges(s, k, Entry(data, Refunded), e, d);
    var c := Bank(s, k.src.chain);
    RefundCounts(p, c, k.src.hop, data, OfDenom(d));
    RefundEscrows(p, c, k.src.hop, data, e.hop, d);
  }

  lemma RefundKeepsBacked(net: Net, s: State, k: Key, p: Policy, e: End, d: Denom)
    requires ValidNet(net) && Payment(net, s, Refund(k, p)).Some?
    requires e in net && !StartsWith(d, e.hop) && Backed(net, s, e, d)
    ensures Backed(net, Act(net, s, Refund(k, p)), e, d)
  {
    var f := net[e];
    RefundEffects(net, s, k, p, e, d);
    RefundEffects(net, s, k, p, f, AddPrefix(d, f.hop));
    RemoveUndoesAdd(d, f.hop);
    RemoveUndoesAdd(s.packets[k].data.denom, k.src.hop);
  }

  lemma DeliverEffects(net: Net, s: State, k: Key, p: Policy, e: End, d: Denom)
    requires ValidNet(net) && e in net && Payment(net, s, Deliver(k, p)).Some?
    ensures var t := Act(net, s, Deliver(k, p)); var data := s.packets[k].data; var dst := net[k.src];
      var unescrows := IsReceiverChainSource(k.src.hop, data.denom);
      var paid := Received(k.src.hop, dst.hop, data.denom);
      && InFlight(s, e, d) == InFlight(t, e, d) + (if k.src == e && data.denom == d then data.amount else 0)
      && Escrowed(s, e, d) == Escrowed(t, e, d) + (if unescrows && dst == e && paid == d then data.amount else 0)
      && SupplyOn(t, e.chain, d)
         == SupplyOn(s, e.chain, d) + (if !unescrows && dst.chain == e.chain && paid == d then data.amount else 0)
  {
    var data := s.packets[k].data;
    PacketChanges(s, k, Entry(data, Delivered), e, d);
    var c := Bank(s, net[k.src].chain);
    ReceiveCounts(p, c, k.src.hop, net[k.src].hop, data, OfDenom(d));
    ReceiveEscrows(p, c, k.src.hop, net[k.src].hop, data, e.hop, d);
  }

  lemma DeliverKeepsBacked(net: Net, s: State, k: Key, p: Policy, e: End, d: Denom)
    requires ValidNet(net) && Payment(net, s, Deliver(k, p)).Some?
    requires e in net && !StartsWith(d, e.hop) && Backed(net, s, e, d)
    ensures Backed(net, Act(net, s, Deliver(k, p)), e, d)
  {
    var f := net[e];
    var denom := s.packets[k].data.denom;
    DeliverEffects(net, s, k, p, e, d);
    DeliverEffects(net, s, k, p, f, AddPrefix(d, f.hop));
    RemoveUndoesAdd(d, f.hop);
    RemoveUndoesAdd(denom, k.src.hop);
    RemoveUndoesAdd(denom, net[k.src].hop);
  }

  lemma RefuseKeepsBacked(net: Net, s: State, k: Key, e: End, d: Denom)
    requires ValidNet(net)
    requires e in net && Backed(net, s, e, d)
    ensures Backed(net, Act(net, s, Refuse(k)), e, d)
  {
    if k in s.packets {
      PacketChanges(s, k, s.packets[k].(status := Refused), e, d);
      PacketChanges(s, k, s.packets[k].(status := Refused), net[e], AddPrefix(d, net[e].hop));
    }
  }

  /** Only what the chain is the source of goes into escrow, and nothing is paid out of an empty one. */
  lemma ActKeepsEscrowEmpty(net: Net, s: State, a: Action, e: End, d: Denom)
    requires ValidNet(net) && e in net && StartsWith(d, e.hop) && Escrowed(s, e, d) == 0
    ensures Escrowed(Act(net, s, a), e, d) == 0
  {
    if Payment(net, s, a).Some? {
      match a
      case Send(k, p, data) => SendEffects(net, s, k, p, data, e, d);
      case Deliver(k, p) => DeliverEffects(net, s, k, p, e, d);
      case Refund(k, p) => RefundEffects(net, s, k, p, e, d);
    }
  }

  lemma ActKeepsBacked(net: Net, s: State, a: Action)
    requires ValidNet(net) && AllBacked(net, s)
    ensures AllBacked(net, Act(net, s, a))
  {
    forall e: End, d: Denom | e in net ensures Pegged(net, Act(net, s, a), e, d) {
      assert Pegged(net, s, e, d);
      if StartsWith(d, e.hop) {
        ActKeepsEscrowEmpty(net, s, a, e, d);
      } else if a.Refuse? {
        RefuseKeepsBacked(net, s, a.key, e, d);
      } else if Payment(net, s, a).Some? {
        match a
        case Send(k, p, data) => SendKeepsBacked(net, s, k, p, data, e, d);
        case Deliver(k, p) => DeliverKeepsBacked(net, s, k, p, e, d);
        case Refund(k, p) => RefundKeepsBacked(net, s, k, p, e, d);
      }
    }
  }

  lemma CreditRouted(net: Net, chain: nat, c: Coins, a: Account, d: Denom, n: nat)
    requires CoinsRouted(net, chain, c) && (n > 0 ==> Routed(net, chain, d))
    ensures CoinsRouted(net, chain, Credit(c, a, d, n))
  {
  }

  lemma DebitRouted(net: Net, chain: nat, c: Coins, a: Account, d: Denom, n: nat)
    requires CoinsRouted(net, chain, c) && n <= Balance(c, a, d)
    ensures CoinsRouted(net, chain, Debit(c, a, d, n)) && (n > 0 ==> Routed(net, chain, d))
  {
    assert n > 0 ==> Slot(a, d) in c;
  }

  /** The coins of a chain after a payment are routed, because what is paid in is. */
  lemma PaymentRouted(net: Net, s: State, a: Action, chain: nat)
    requires ValidNet(net) && Connected(net, s) && AllRouted(net, s) && Payment(net, s, a).Some?
    requires chain == (if a.Deliver? then net[a.key.src].chain else a.key.src.chain)
    ensures CoinsRouted(net, chain, Payment(net, s, a).value)
    ensures a.Send? && a.data.amount > 0 ==> Routed(net, chain, a.data.denom)
  {
    var c := Bank(s, chain);
    assert CoinsRouted(net, chain, c);
    var data := if a.Send? then a.data else s.packets[a.key].data;
    var hop, n := a.key.src.hop, data.amount;
    match a
    case Send(k, p, _) =>
      DebitRouted(net, chain, c, User(data.sender), data.denom, n);
      CreditRouted(net, chain, Debit(c, User(data.sender), data.denom, n), Escrow(hop), data.denom, n);
    case Refund(k, p) =>
      CreditRouted(net, chain, c, User(data.sender), data.denom, n);
      if IsSenderChainSource(hop, data.denom) {
        DebitRouted(net, chain, c, Escrow(hop), data.denom, n);
        CreditRouted(net, chain, Debit(c, Escrow(hop), data.denom, n), User(data.sender), data.denom, n);
      }
    case Deliver(k, p) =>
      var dst := net[k.src].hop;
      var d := Received(hop, dst, data.denom);
      if n > 0 {
        CrossChannel(net, k.src, data.denom);
      }
      CreditRouted(net, chain, c, User(data.receiver), d, n);
      if IsReceiverChainSource(hop, data.denom) {
        DebitRouted(net, chain, c, Escrow(dst), d, n);
        CreditRouted(net, chain, Debit(c, Escrow(dst), d, n), User(data.receiver), d, n);
      }
  }

  /** Coins that can be spent, or that are owed, are routed; so whatever they turn into is. */
  lemma ActKeepsRouted(net: Net, s: State, a: Action)
    requires ValidNet(net) && Connected(net, s) && AllRouted(net, s)
    ensures Connected(net, Act(net, s, a)) && AllRouted(net, Act(net, s, a))
  {
    if Payment(net, s, a).Some? {
      PaymentRouted(net, s, a, if a.Deliver? then net[a.key.src].chain else a.key.src.chain);
    }
  }

  /** Every step of the network keeps every channel backed and every trace routed. */
  lemma ActKeepsInv(net: Net, s: State, a: Action)
    requires ValidNet(net) && Inv(net, s)
    ensures Inv(net, Act(net, s, a))
  {
    ActKeepsRouted(net, s, a);
    ActKeepsBacked(net, s, a);
  }

  // ----- Every due payout is funded -----

  lemma OwedIsInFlight(s: State, k: Key)
    requires k in s.packets && Owed(s.packets[k])
    ensures s.packets[k].data.amount <= InFlight(s, k.src, s.packets[k].data.denom)
  {
    SumAtLeast(s.packets, InFlightWeight(k.src, s.packets[k].data.denom), k);
  }

  /** A returning voucher can always be paid out of escrow, and so can a refund: once the host
      is willing to serve the account, neither ever fails for lack of coins. */
  lemma PayoutsAreFunded(net: Net, s: State, k: Key, p: Policy)
    requires ValidNet(net) && Inv(net, s) && k in s.packets
    ensures s.packets[k].status.Pending? && p.canReceive
         && s.packets[k].data.receiver in p.accounts - p.blocked
         ==> Payment(net, s, Deliver(k, p)).Some?
    ensures Owed(s.packets[k]) && s.packets[k].data.sender in p.accounts - p.blocked
         ==> Payment(net, s, Refund(k, p)).Some?
  {
    if Owed(s.packets[k]) {
      var e, f, d := k.src, net[k.src], s.packets[k].data.denom;
      OwedIsInFlight(s, k);
      RemoveUndoesAdd(d, e.hop);
      if StartsWith(d, e.hop) {
        var home := RemovePrefix(d, e.hop);
        if s.packets[k].data.amount > 0 {
          assert End(e.chain, e.hop) == e;
          assert !StartsWith(home, f.hop);
          assert Pegged(net, s, f, home);
        }
      } else {
        assert Pegged(net, s, e, d);
      }
    }
  }

  // ----- Conservation of every base token -----

  predicate Stands(net: Net, chain: nat, d: Denom, t: Token) {
    Routed(net, chain, d) && Origin(net, chain, d) == t
  }

  function UserSlots(net: Net, chain: nat, t: Token): Slot -> bool {
    (s: Slot) => s.account.User? && Stands(net, chain, s.denom, t)
  }

  /** What the users of one chain hold of token `t`, under whatever trace. */
  ghost function UserWealth(net: Net, t: Token, chain: nat, c: Coins): nat {
    Sum(c, Counted(UserSlots(net, chain, t)))
  }

  ghost function BankWeight(net: Net, t: Token): (nat, Coins) -> nat {
    (chain: nat, c: Coins) => UserWealth(net, t, chain, c)
  }

  function OwedValue(net: Net, t: Token, k: Key, e: Entry): nat {
    if Owed(e) && Stands(net, k.src.chain, e.data.denom, t) then e.data.amount else 0
  }

  function PacketWeight(net: Net, t: Token): (Key, Entry) -> nat {
    (k: Key, e: Entry) => OwedValue(net, t, k, e)
  }

  /** Everything that stands for token `t`, in users' hands on any chain or on its way. */
  ghost function Wealth(net: Net, s: State, t: Token): nat {
    Sum<nat, Coins>(s.banks, BankWeight(net, t)) + Sum(s.packets, PacketWeight(net, t))
  }

  lemma WealthChanges(net: Net, s: State, t: Token, chain: nat, c: Coins, k: Key, e: Entry)
    ensures Wealth(net, State(s.banks[chain := c], s.packets[k := e]), t)
          + UserWealth(net, t, chain, Bank(s, chain))
          + (if k in s.packets then OwedValue(net, t, k, s.packets[k]) else 0)
         == Wealth(net, s, t) + UserWealth(net, t, chain, c) + OwedValue(net, t, k, e)
  {
    SumUpdate<nat, Coins>(s.banks, BankWeight(net, t), chain, c);
    SumUpdate(s.packets, PacketWeight(net, t), k, e);
    if chain !in s.banks {
      SumZero<Slot, nat>(map[], Counted(UserSlots(net, chain, t)));
    }
  }

  lemma SendConserves(net: Net, s: State, k: Key, p: Policy, data: TransferData, t: Token)
    requires ValidNet(net) && Payment(net, s, Send(k, p, data)).Some?
    ensures Wealth(net, Act(net, s, Send(k, p, data)), t) == Wealth(net, s, t)
  {
    var paid := Payment(net, s, Send(k, p, data)).value;
    WealthChanges(net, s, t, k.src.chain, paid, k, Entry(data, Pending));
    SendCounts(p, Bank(s, k.src.chain), k.src.hop, data, UserSlots(net, k.src.chain, t));
  }

  lemma RefundConserves(net: Net, s: State, k: Key, p: Policy, t: Token)
    requires ValidNet(net) && Payment(net, s, Refund(k, p)).Some?
    ensures Wealth(net, Act(net, s, Refund(k, p)), t) == Wealth(net, s, t)
  {
    var paid := Payment(net, s, Refund(k, p)).value;
    WealthChanges(net, s, t, k.src.chain, paid, k, s.packets[k].(status := Refunded));
    RefundCounts(p, Bank(s, k.src.chain), k.src.hop, s.packets[k].data, UserSlots(net, k.src.chain, t));
  }

  lemma DeliverConserves(net: Net, s: State, k: Key, p: Policy, t: Token)
    requires ValidNet(net) && AllRouted(net, s) && Payment(net, s, Deliver(k, p)).Some?
    ensures Wealth(net, Act(net, s, Deliver(k, p)), t) == Wealth(net, s, t)
  {
    var paid, dst, data := Payment(net, s, Deliver(k, p)).value, net[k.src], s.packets[k].data;
    WealthChanges(net, s, t, dst.chain, paid, k, s.packets[k].(status := Delivered));
    ReceiveCounts(p, Bank(s, dst.chain), k.src.hop, dst.hop, data, UserSlots(net, dst.chain, t));
    if data.amount > 0 {
      CrossChannel(net, k.src, data.denom);
    }
  }

  /** No step creates or destroys any amount of any base token anywhere in the network. */
  lemma ActConservesWealth(net: Net, s: State, a: Action, t: Token)
    requires ValidNet(net) && Inv(net, s)
    ensures Wealth(net, Act(net, s, a), t) == Wealth(net, s, t)
  {
    if a.Refuse? {
      if a.key in s.packets {
        SumUpdate(s.packets, PacketWeight(net, t), a.key, s.packets[a.key].(status := Refused));
      }
    } else if Payment(net, s, a).Some? {
      match a
      case Send(k, p, data) => SendConserves(net, s, k, p, data, t);
      case Refund(k, p) => RefundConserves(net, s, k, p, t);
      case Deliver(k, p) => DeliverConserves(net, s, k, p, t);
    }
  }

  /** No step changes how much of its own untraced tokens a chain holds, escrow included. */
  lemma ActKeepsNativeSupply(net: Net, s: State, a: Action, chain: nat, d: Denom)
    requires ValidNet(net) && d.trace == []
    ensures SupplyOn(Act(net, s, a), chain, d) == SupplyOn(s, chain, d)
  {
    if Payment(net, s, a).Some? {
      match a
      case Send(k, p, data) =>
        SendCounts(p, Bank(s, k.src.chain), k.src.hop, data, OfDenom(d));
      case Refund(k, p) =>
        RefundCounts(p, Bank(s, k.src.chain), k.src.hop, s.packets[k].data, OfDenom(d));
      case Deliver(k, p) =>
        ReceiveCounts(p, Bank(s, net[k.src].chain), k.src.hop, net[k.src].hop, s.packets[k].data, OfDenom(d));
    }
  }
}
