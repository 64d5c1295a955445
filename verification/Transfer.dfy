/** The bank of one chain and the three ICS-20 operations that move coins on it. */
module Transfer {
  import opened Basics
  import opened Denoms
  import opened Sums

  /** A user, or the escrow account of one of the chain's channel ends. */
  datatype Account = User(name: string) | Escrow(hop: Hop)

  datatype Slot = Slot(account: Account, denom: Denom)

  /** The balances of one chain; a missing slot holds nothing. */
  type Coins = map<Slot, nat>

  function Balance(c: Coins, a: Account, d: Denom): nat {
    if Slot(a, d) in c then c[Slot(a, d)] else 0
  }

  function Credit(c: Coins, a: Account, d: Denom, n: nat): Coins {
    c[Slot(a, d) := Balance(c, a, d) + n]
  }

  function Debit(c: Coins, a: Account, d: Denom, n: nat): Coins
    requires n <= Balance(c, a, d)
  {
    c[Slot(a, d) := Balance(c, a, d) - n]
  }

  /** A ledger is its slots and its balances. */
  lemma SameCoins(c: Coins, d: Coins)
    requires c.Keys == d.Keys && forall a: Account, x: Denom :: Balance(c, a, x) == Balance(d, a, x)
    ensures c == d
  {
    forall slot <- c ensures c[slot] == d[slot] {
      assert Balance(c, slot.account, slot.denom) == Balance(d, slot.account, slot.denom);
    }
  }

  /** The host's own say: whether it moves coins at all, which signers name an
      account, and which accounts it refuses to serve. */
  datatype Policy = Policy(canSend: bool, canReceive: bool, accounts: set<string>, blocked: set<string>)

  function SendCoins(p: Policy, c: Coins, from: Account, to: Account, d: Denom, n: nat): Option<Coins> {
    if (from.User? && from.name in p.blocked) || (to.User? && to.name in p.blocked) || Balance(c, from, d) < n
    then None
    else Some(Credit(Debit(c, from, d, n), to, d, n))
  }

  function MintCoins(p: Policy, c: Coins, name: string, d: Denom, n: nat): Option<Coins> {
    if name in p.blocked then None else Some(Credit(c, User(name), d, n))
  }

  function BurnCoins(p: Policy, c: Coins, name: string, d: Denom, n: nat): Option<Coins> {
    if name in p.blocked || Balance(c, User(name), d) < n then None
    else Some(Debit(c, User(name), d, n))
  }

  datatype TransferData = TransferData(denom: Denom, amount: nat, sender: string, receiver: string)

  /** Sending escrows a token this chain is the source of, and burns any other. */
  function SendTransfer(p: Policy, c: Coins, src: Hop, data: TransferData): Option<Coins> {
    if !p.canSend || data.sender !in p.accounts then None
    else if IsSenderChainSource(src, data.denom) then
      SendCoins(p, c, User(data.sender), Escrow(src), data.denom, data.amount)
    else
      BurnCoins(p, c, data.sender, data.denom, data.amount)
  }

  /** Receiving unescrows a token that comes home, and mints a voucher for any other. */
  function ReceiveTransfer(p: Policy, c: Coins, src: Hop, dst: Hop, data: TransferData): Option<Coins> {
    if !p.canReceive || data.receiver !in p.accounts then None
    else if IsReceiverChainSource(src, data.denom) then
      SendCoins(p, c, Escrow(dst), User(data.receiver), RemovePrefix(data.denom, src), data.amount)
    else
      MintCoins(p, c, data.receiver, AddPrefix(data.denom, dst), data.amount)
  }

  /** A refund gives back what sending took. */
  function RefundTransfer(p: Policy, c: Coins, src: Hop, data: TransferData): Option<Coins> {
    if data.sender !in p.accounts then None
    else if IsSenderChainSource(src, data.denom) then
      SendCoins(p, c, Escrow(src), User(data.sender), data.denom, data.amount)
    else
      MintCoins(p, c, data.sender, data.denom, data.amount)
  }

  /** However the ledger has changed since the send, its refund moves every balance
      by exactly the opposite of what the send moved it by. */
  lemma RefundReversesSend(p: Policy, q: Policy, before: Coins, later: Coins, src: Hop, data: TransferData,
                           a: Account, d: Denom)
    requires SendTransfer(p, before, src, data).Some?
    requires RefundTransfer(q, later, src, data).Some?
    ensures var sent := SendTransfer(p, before, src, data).value;
      var refunded := RefundTransfer(q, later, src, data).value;
      Balance(refunded, a, d) - Balance(later, a, d) == Balance(before, a, d) - Balance(sent, a, d)
  {
  }

  // ----- Totals -----

  function Counted(p: Slot -> bool): (Slot, nat) -> nat {
    (s: Slot, n: nat) => if p(s) then n else 0
  }

  function OfDenom(d: Denom): Slot -> bool {
    (s: Slot) => s.denom == d
  }

  /** The amount of `d` held on the chain, escrow accounts included. */
  ghost function Supply(c: Coins, d: Denom): nat {
    Sum(c, Counted(OfDenom(d)))
  }

  lemma CreditCounts(c: Coins, a: Account, d: Denom, n: nat, p: Slot -> bool)
    ensures Sum(Credit(c, a, d, n), Counted(p)) == Sum(c, Counted(p)) + (if p(Slot(a, d)) then n else 0)
  {
    SumUpdate<Slot, nat>(c, Counted(p), Slot(a, d), Balance(c, a, d) + n);
  }

  lemma DebitCounts(c: Coins, a: Account, d: Denom, n: nat, p: Slot -> bool)
    requires n <= Balance(c, a, d)
    ensures Sum(c, Counted(p)) == Sum(Debit(c, a, d, n), Counted(p)) + (if p(Slot(a, d)) then n else 0)
  {
    SumUpdate<Slot, nat>(c, Counted(p), Slot(a, d), Balance(c, a, d) - n);
  }

  /** Moving coins between accounts changes a total only by what crosses its border. */
  lemma SendCoinsCounts(p: Policy, c: Coins, from: Account, to: Account, d: Denom, n: nat, q: Slot -> bool)
    requires SendCoins(p, c, from, to, d, n).Some?
    ensures Sum(SendCoins(p, c, from, to, d, n).value, Counted(q)) + (if q(Slot(from, d)) then n else 0)
         == Sum(c, Counted(q)) + (if q(Slot(to, d)) then n else 0)
  {
    DebitCounts(c, from, d, n, q);
    CreditCounts(Debit(c, from, d, n), to, d, n, q);
  }

  /** Moving coins changes two balances by the amount, makes no other slots, and leaves every supply as it was. */
  lemma SendCoinsMoves(p: Policy, c: Coins, from: Account, to: Account, denom: Denom, n: nat, a: Account, d: Denom)
    requires SendCoins(p, c, from, to, denom, n).Some?
    ensures var after := SendCoins(p, c, from, to, denom, n).value;
      && after.Keys == c.Keys + {Slot(from, denom), Slot(to, denom)}
      && Balance(after, a, d) + (if Slot(a, d) == Slot(from, denom) then n else 0)
         == Balance(c, a, d) + (if Slot(a, d) == Slot(to, denom) then n else 0)
      && Supply(after, d) == Supply(c, d)
  {
    SendCoinsCounts(p, c, from, to, denom, n, OfDenom(d));
  }

  /** What a send takes out of any total: nothing leaves the supply when the coins are escrowed. */
  lemma SendCounts(p: Policy, c: Coins, src: Hop, data: TransferData, q: Slot -> bool)
    requires SendTransfer(p, c, src, data).Some?
    ensures Sum(SendTransfer(p, c, src, data).value, Counted(q))
          + (if q(Slot(User(data.sender), data.denom)) then data.amount else 0)
         == Sum(c, Counted(q))
          + (if IsSenderChainSource(src, data.denom) && q(Slot(Escrow(src), data.denom)) then data.amount else 0)
  {
    if IsSenderChainSource(src, data.denom) {
      SendCoinsCounts(p, c, User(data.sender), Escrow(src), data.denom, data.amount, q);
    } else {
      DebitCounts(c, User(data.sender), data.denom, data.amount, q);
    }
  }

  lemma RefundCounts(p: Policy, c: Coins, src: Hop, data: TransferData, q: Slot -> bool)
    requires RefundTransfer(p, c, src, data).Some?
    ensures Sum(RefundTransfer(p, c, src, data).value, Counted(q))
          + (if IsSenderChainSource(src, data.denom) && q(Slot(Escrow(src), data.denom)) then data.amount else 0)
         == Sum(c, Counted(q))
          + (if q(Slot(User(data.sender), data.denom)) then data.amount else 0)
  {
    if IsSenderChainSource(src, data.denom) {
      SendCoinsCounts(p, c, Escrow(src), User(data.sender), data.denom, data.amount, q);
    } else {
      CreditCounts(c, User(data.sender), data.denom, data.amount, q);
    }
  }

  lemma ReceiveCounts(p: Policy, c: Coins, src: Hop, dst: Hop, data: TransferData, q: Slot -> bool)
    requires ReceiveTransfer(p, c, src, dst, data).Some?
    ensures var d := Received(src, dst, data.denom);
      Sum(ReceiveTransfer(p, c, src, dst, data).value, Counted(q))
          + (if IsReceiverChainSource(src, data.denom) && q(Slot(Escrow(dst), d)) then data.amount else 0)
         == Sum(c, Counted(q))
          + (if q(Slot(User(data.receiver), d)) then data.amount else 0)
  {
    var d := Received(src, dst, data.denom);
    if IsReceiverChainSource(src, data.denom) {
      SendCoinsCounts(p, c, Escrow(dst), User(data.receiver), d, data.amount, q);
    } else {
      CreditCounts(c, User(data.receiver), d, data.amount, q);
    }
  }
}
