/** When the packet handlers accept, told in the packet's own limits, the two stores and the host's policy; and over
    whole runs, what must have happened for a packet to be committed, received or settled. */
module Admission {
  import opened Basics
  import opened Denoms
  import opened Transfer
  import opened TokenNetwork
  import opened Packets
  import opened Settlement

  /** Neither limit of the packet is passed. */
  predicate InTime(p: Packet, height: Height, time: nat) {
    && (p.timeoutHeight.Never? || AtMost(height, p.timeoutHeight.height))
    && (p.timeoutTime.None? || time <= p.timeoutTime.value)
  }

  predicate CommittedIn(s: Store, p: Packet) {
    var place := Place(p.src, p.number);
    place in s.commitments && s.commitments[place] == Commitment(p.data, p.timeoutHeight, p.timeoutTime)
  }

  predicate ReceivedIn(s: Store, p: Packet) {
    Place(p.dst, p.number) in s.receipts
  }

  predicate AckedIn(s: Store, p: Packet, ack: Ack) {
    Place(p.dst, p.number) in s.acks && s.acks[Place(p.dst, p.number)] == ack
  }

  // ----- The bank's say -----

  /** The host lets the sender pay, and the sender has the coins. */
  predicate CanPay(policy: Policy, coins: Coins, data: TransferData) {
    && policy.canSend && data.sender in policy.accounts && data.sender !in policy.blocked
    && data.amount <= Balance(coins, User(data.sender), data.denom)
  }

  /** The host lets the receiver be paid, and the escrow has the coins if they come home. */
  predicate CanBePaid(policy: Policy, coins: Coins, p: Packet) {
    && policy.canReceive && p.data.receiver in policy.accounts && p.data.receiver !in policy.blocked
    && (StartsWith(p.data.denom, p.src) ==>
          p.data.amount <= Balance(coins, Escrow(p.dst), RemovePrefix(p.data.denom, p.src)))
  }

  /** The host lets the sender be refunded, and the escrow has the coins if they went there. */
  predicate CanBeRefunded(policy: Policy, coins: Coins, p: Packet) {
    && p.data.sender in policy.accounts && p.data.sender !in policy.blocked
    && (!StartsWith(p.data.denom, p.src) ==> p.data.amount <= Balance(coins, Escrow(p.src), p.data.denom))
  }

  // ----- Single messages -----

  /** A packet is sent exactly when what the client has seen of the destination is within its limits, its number is the
      channel's next, and its sender can pay. */
  lemma SendAcceptedExactly(c: Chain, policy: Policy, p: Packet, seenHeight: Height, seenTime: nat)
    ensures SendPacket(c, policy, p, seenHeight, seenTime).Some? <==>
      && InTime(p, seenHeight, seenTime)
      && p.src in c.store.nextSend && p.number == c.store.nextSend[p.src]
      && CanPay(policy, c.coins, p.data)
  {
  }

  /** A packet is received exactly when it is proven committed, not acknowledged, and the chain is within its limits.
      The acknowledgement written for a new one says whether its receiver could be paid. */
  lemma ReceiveAcceptedExactly(c: Chain, policy: Policy, p: Packet, proven: Store)
    ensures RecvPacket(c, policy, p, proven).Some? <==>
      InTime(p, c.height, c.time) && CommittedIn(proven, p) && Place(p.dst, p.number) !in c.store.acks
    ensures RecvPacket(c, policy, p, proven).Some? && !ReceivedIn(c.store, p) ==>
      var d := RecvPacket(c, policy, p, proven).value;
      ReceivedIn(d.store, p) && AckedIn(d.store, p, if CanBePaid(policy, c.coins, p) then Success else Error)
  {
  }

  /** A committed packet is timed out exactly when the proven state is filed past one of its limits, shows no receipt,
      and its sender can be refunded. */
  lemma TimeoutAcceptedExactly(c: Chain, policy: Policy, p: Packet, filed: Tick, proven: Store)
    requires Place(p.src, p.number) in c.store.commitments
    ensures TimeoutPacket(c, policy, p, filed, proven).Some? <==>
      && CommittedIn(c.store, p) && !InTime(p, filed.height, filed.time)
      && !ReceivedIn(proven, p) && CanBeRefunded(policy, c.coins, p)
    ensures TimeoutPacket(c, policy, p, filed, proven).Some? ==>
      !CommittedIn(TimeoutPacket(c, policy, p, filed, proven).value.store, p)
  {
  }

  /** A committed packet is acknowledged exactly when the proven state has that acknowledgement, and after a failure
      its sender can be refunded. */
  lemma AcknowledgementAcceptedExactly(c: Chain, policy: Policy, p: Packet, ack: Ack, proven: Store)
    requires Place(p.src, p.number) in c.store.commitments
    ensures AcknowledgePacket(c, policy, p, ack, proven).Some? <==>
      CommittedIn(c.store, p) && AckedIn(proven, p, ack) && (ack.Error? ==> CanBeRefunded(policy, c.coins, p))
    ensures AcknowledgePacket(c, policy, p, ack, proven).Some? ==>
      !CommittedIn(AcknowledgePacket(c, policy, p, ack, proven).value.store, p)
  {
  }

  /** At every moment, a packet that is committed and unreceived has exactly one way out: it can be received, or it can
      be timed out by whoever sees the destination as it is now. */
  lemma OneWayOut(near: Chain, far: Chain, policy: Policy, policyR: Policy, p: Packet, proven: Store)
    requires CommittedIn(near.store, p) && CommittedIn(proven, p) && CanBeRefunded(policyR, near.coins, p)
    requires !ReceivedIn(far.store, p) && Place(p.dst, p.number) !in far.store.acks
    ensures RecvPacket(far, policy, p, proven).Some? <==>
      TimeoutPacket(near, policyR, p, Tick(far.height, far.time), far.store).None?
  {
    ReceiveAcceptedExactly(far, policy, p, proven);
    TimeoutAcceptedExactly(near, policyR, p, Tick(far.height, far.time), far.store);
  }

  /** A block begins exactly above the last one and not before it in time; it commits to the store as it was. */
  lemma BlockBeginsExactly(c: Chain, height: Height, time: nat)
    ensures NewBlock(c, height, time).Some? <==> Below(c.height, height) && c.time <= time
    ensures NewBlock(c, height, time).Some? ==>
      var d := NewBlock(c, height, time).value;
      && d.coins == c.coins && d.store == c.store && d.height == height && d.time == time
      && d.past == c.past[height := Snapshot(c.store, time)]
  {
  }

  // ----- Whole runs -----

  /** The state that message `i` of the run meets. */
  function Met(net: Net, w: World, msgs: seq<Msg>, i: nat): World
    requires i < |msgs|
  {
    Run(net, w, msgs[..i])
  }

  lemma MetLater(net: Net, w: World, msgs: seq<Msg>, i: nat)
    requires i + 1 < |msgs|
    ensures Met(net, Dispatch(net, w, msgs[0]), msgs[1..], i) == Met(net, w, msgs, i + 1)
  {
    assert msgs[..i + 1][1..] == msgs[1..][..i] && msgs[..i + 1][0] == msgs[0];
  }

  /** The store of the far chain that the message's proof is about. */
  function ProvenTo(net: Net, v: World, m: Msg): Option<Store>
    requires Addressed(net, v, m) && !m.MsgNewBlock? && !m.MsgTransfer?
  {
    var far := v.chains[net[m.at].chain];
    if m.height in far.past then Some(far.past[m.height].store) else None
  }

  /** The message sends packet number `place` of a channel, in time and paid for. */
  predicate Sends(net: Net, v: World, m: Msg, chain: nat, place: Place) {
    && m.MsgTransfer? && Addressed(net, v, m) && m.at == End(chain, place.hop) && m.packet.number == place.number
    && var c := v.chains[chain];
    && InTime(m.packet, m.seenHeight, m.seenTime)
    && place.hop in c.store.nextSend && c.store.nextSend[place.hop] == place.number
    && CanPay(m.policy, c.coins, m.packet.data)
  }

  /** The message delivers a packet to `place` in time, with proof that its sender committed to it. */
  predicate Delivers(net: Net, v: World, m: Msg, chain: nat, place: Place) {
    && m.MsgRecvPacket? && Addressed(net, v, m) && m.at == End(chain, place.hop) && m.packet.number == place.number
    && InTime(m.packet, v.chains[chain].height, v.chains[chain].time)
    && ProvenTo(net, v, m).Some? && CommittedIn(ProvenTo(net, v, m).value, m.packet)
  }

  /** The message settles the packet committed at `place`: by an acknowledgement that is proven, or, past its limits,
      by a proof that it was not received. */
  predicate SettlesAt(net: Net, v: World, m: Msg, chain: nat, place: Place) {
    && (m.MsgAcknowledgement? || m.MsgTimeout?) && Addressed(net, v, m)
    && m.at == End(chain, place.hop) && m.packet.number == place.number
    && CommittedIn(v.chains[chain].store, m.packet) && ProvenTo(net, v, m).Some?
    && var proven := ProvenTo(net, v, m).value;
    && (m.MsgAcknowledgement? ==> AckedIn(proven, m.packet, m.ack))
    && (m.MsgTimeout? ==> !InTime(m.packet, m.filed.height, m.filed.time) && !ReceivedIn(proven, m.packet))
  }

  lemma StepCommits(net: Net, w: World, m: Msg, chain: nat, place: Place)
    requires chain in w.chains
    ensures var v := Dispatch(net, w, m);
      && chain in v.chains
      && (place !in w.chains[chain].store.commitments && place in v.chains[chain].store.commitments ==>
            Sends(net, w, m, chain, place))
  {
    if m.MsgTransfer? && Addressed(net, w, m) {
      SendAcceptedExactly(w.chains[m.at.chain], m.policy, m.packet, m.seenHeight, m.seenTime);
    }
  }

  lemma StepReceives(net: Net, w: World, m: Msg, chain: nat, place: Place)
    requires chain in w.chains
    ensures var v := Dispatch(net, w, m);
      && chain in v.chains
      && (place !in w.chains[chain].store.receipts && place in v.chains[chain].store.receipts ==>
            Delivers(net, w, m, chain, place))
  {
    if m.MsgRecvPacket? && Addressed(net, w, m) && ProvenTo(net, w, m).Some? {
      ReceiveAcceptedExactly(w.chains[m.at.chain], m.policy, m.packet, ProvenTo(net, w, m).value);
    }
  }

  lemma StepSettles(net: Net, w: World, m: Msg, chain: nat, place: Place)
    requires chain in w.chains
    ensures var v := Dispatch(net, w, m);
      && chain in v.chains
      && (place in w.chains[chain].store.commitments && place !in v.chains[chain].store.commitments ==>
            SettlesAt(net, w, m, chain, place))
  {
    if Addressed(net, w, m) && m.MsgTimeout? && ProvenTo(net, w, m).Some?
       && Place(m.packet.src, m.packet.number) in w.chains[m.at.chain].store.commitments {
      TimeoutAcceptedExactly(w.chains[m.at.chain], m.policy, m.packet, m.filed, ProvenTo(net, w, m).value);
    }
  }

  /** In every run, a commitment that appears is of a packet sent in time, under the next number, and paid for. */
  lemma {:induction false} CommittedHasCause(net: Net, w: World, msgs: seq<Msg>, chain: nat, place: Place)
    requires chain in w.chains && place !in w.chains[chain].store.commitments
    requires chain in Run(net, w, msgs).chains && place in Run(net, w, msgs).chains[chain].store.commitments
    ensures exists i: nat :: i < |msgs| && Sends(net, Met(net, w, msgs, i), msgs[i], chain, place)
    decreases |msgs|
  {
    var v := Dispatch(net, w, msgs[0]);
    StepCommits(net, w, msgs[0], chain, place);
    if place in v.chains[chain].store.commitments {
      assert Met(net, w, msgs, 0) == w;
    } else {
      CommittedHasCause(net, v, msgs[1..], chain, place);
      var i: nat :| i < |msgs[1..]| && Sends(net, Met(net, v, msgs[1..], i), msgs[1..][i], chain, place);
      MetLater(net, w, msgs, i);
      assert Sends(net, Met(net, w, msgs, i + 1), msgs[i + 1], chain, place);
    }
  }

  /** In every run, a receipt that appears is of a packet that was proven committed and came within its limits. */
  lemma {:induction false} ReceivedHasCause(net: Net, w: World, msgs: seq<Msg>, chain: nat, place: Place)
    requires chain in w.chains && place !in w.chains[chain].store.receipts
    requires chain in Run(net, w, msgs).chains && place in Run(net, w, msgs).chains[chain].store.receipts
    ensures exists i: nat :: i < |msgs| && Delivers(net, Met(net, w, msgs, i), msgs[i], chain, place)
    decreases |msgs|
  {
    var v := Dispatch(net, w, msgs[0]);
    StepReceives(net, w, msgs[0], chain, place);
    if place in v.chains[chain].store.receipts {
      assert Met(net, w, msgs, 0) == w;
    } else {
      ReceivedHasCause(net, v, msgs[1..], chain, place);
      var i: nat :| i < |msgs[1..]| && Delivers(net, Met(net, v, msgs[1..], i), msgs[1..][i], chain, place);
      MetLater(net, w, msgs, i);
      assert Delivers(net, Met(net, w, msgs, i + 1), msgs[i + 1], chain, place);
    }
  }

  /** In every run, a commitment that goes was of a packet with a proven acknowledgement, or of one past its limits that
      was proven not received. */
  lemma {:induction false} SettledHasCause(net: Net, w: World, msgs: seq<Msg>, chain: nat, place: Place)
    requires chain in w.chains && place in w.chains[chain].store.commitments
    requires chain in Run(net, w, msgs).chains && place !in Run(net, w, msgs).chains[chain].store.commitments
    ensures exists i: nat :: i < |msgs| && SettlesAt(net, Met(net, w, msgs, i), msgs[i], chain, place)
    decreases |msgs|
  {
    var v := Dispatch(net, w, msgs[0]);
    StepSettles(net, w, msgs[0], chain, place);
    if place !in v.chains[chain].store.commitments {
      assert Met(net, w, msgs, 0) == w;
    } else {
      SettledHasCause(net, v, msgs[1..], chain, place);
      var i: nat :| i < |msgs[1..]| && SettlesAt(net, Met(net, v, msgs[1..], i), msgs[1..][i], chain, place);
      MetLater(net, w, msgs, i);
      assert SettlesAt(net, Met(net, w, msgs, i + 1), msgs[i + 1], chain, place);
    }
  }

  // ----- The past -----

  /** No past block is above the present one. */
  predicate PastBelow(w: World) {
    forall chain <- w.chains, h <- w.chains[chain].past :: AtMost(h, w.chains[chain].height)
  }

  lemma StepKeepsPast(net: Net, w: World, m: Msg, chain: nat, h: Height)
    requires PastBelow(w) && chain in w.chains && h in w.chains[chain].past
    ensures var v := Dispatch(net, w, m);
      && PastBelow(v) && chain in v.chains && h in v.chains[chain].past
      && v.chains[chain].past[h] == w.chains[chain].past[h]
  {
  }

  /** In every run, what a block committed to is never changed: a proof against it means the same for good. */
  lemma {:induction false} PastNeverChanges(net: Net, w: World, msgs: seq<Msg>, chain: nat, h: Height)
    requires PastBelow(w) && chain in w.chains && h in w.chains[chain].past
    ensures var v := Run(net, w, msgs);
      chain in v.chains && h in v.chains[chain].past && v.chains[chain].past[h] == w.chains[chain].past[h]
    decreases |msgs|
  {
    if msgs != [] {
      StepKeepsPast(net, w, msgs[0], chain, h);
      PastNeverChanges(net, Dispatch(net, w, msgs[0]), msgs[1..], chain, h);
    }
  }
}
