/** The ICS-04 packet handlers of an unordered transfer channel, together with the ICS-20
    callbacks they run, on any number of chains that see each other through proofs only. */
module Packets {
  import opened Basics
  import opened Denoms
  import opened Transfer
  import opened TokenNetwork

  datatype Packet = Packet(number: nat, src: Hop, dst: Hop, data: TransferData,
                           timeoutHeight: TimeoutHeight, timeoutTime: Option<nat>)

  /** What the sender commits to; the hash is taken to be free of collisions. */
  datatype Commitment = Commitment(data: TransferData, timeoutHeight: TimeoutHeight, timeoutTime: Option<nat>)

  function Commit(p: Packet): Commitment {
    Commitment(p.data, p.timeoutHeight, p.timeoutTime)
  }

  /** The height and time of a block. */
  datatype Tick = Tick(height: Height, time: nat)

  predicate Expired(p: Packet, height: Height, time: nat) {
    TimedOut(p.timeoutHeight, p.timeoutTime, height, time)
  }

  /** A place in the store: a port and channel, and a sequence number. */
  datatype Place = Place(hop: Hop, number: nat)

  datatype Ack = Success | Error

  /** The provable packet state of a chain. */
  datatype Store = Store(nextSend: map<Hop, nat>, commitments: map<Place, Commitment>,
                         receipts: set<Place>, acks: map<Place, Ack>)

  /** What the header of a block commits to: the store as the block began, and its time. */
  datatype Snapshot = Snapshot(store: Store, time: nat)

  datatype Chain = Chain(coins: Coins, store: Store, height: Height, time: nat, past: map<Height, Snapshot>)

  // ----- Handlers: `None` rejects the message and leaves the chain as it was -----

  /** Send a transfer from `src`; `seenHeight` and `seenTime` are the latest the sender's
      client knows of the destination. */
  function SendPacket(c: Chain, policy: Policy, p: Packet, seenHeight: Height, seenTime: nat): Option<Chain> {
    var paid := SendTransfer(policy, c.coins, p.src, p.data);
    if paid.None? || Expired(p, seenHeight, seenTime) then None
    else if p.src !in c.store.nextSend || p.number != c.store.nextSend[p.src] then None
    else Some(c.(
      coins := paid.value,
      store := c.store.(
        nextSend := c.store.nextSend[p.src := p.number + 1],
        commitments := c.store.commitments[Place(p.src, p.number) := Commit(p)])))
  }

  /** Receive a packet proven against the sender's store. */
  function RecvPacket(c: Chain, policy: Policy, p: Packet, proven: Store): Option<Chain> {
    var from, to := Place(p.src, p.number), Place(p.dst, p.number);
    if Expired(p, c.height, c.time) then None
    else if from !in proven.commitments || proven.commitments[from] != Commit(p) then None
    else if to in c.store.acks then None
    else if to in c.store.receipts then Some(c)
    else
      var paid := ReceiveTransfer(policy, c.coins, p.src, p.dst, p.data);
      Some(c.(
        coins := if paid.Some? then paid.value else c.coins,
        store := c.store.(
          receipts := c.store.receipts + {to},
          acks := c.store.acks[to := if paid.Some? then Success else Error])))
  }

  /** Forget the commitment of a settled packet. */
  function Settled(c: Chain, coins: Coins, p: Packet): Chain {
    c.(coins := coins, store := c.store.(commitments := c.store.commitments - {Place(p.src, p.number)}))
  }

  /** Settle a packet by an acknowledgement proven against the receiver's store. */
  function AcknowledgePacket(c: Chain, policy: Policy, p: Packet, ack: Ack, proven: Store): Option<Chain> {
    var from, to := Place(p.src, p.number), Place(p.dst, p.number);
    if from !in c.store.commitments then Some(c)
    else if c.store.commitments[from] != Commit(p) then None
    else if to !in proven.acks || proven.acks[to] != ack then None
    else if ack.Success? then Some(Settled(c, c.coins, p))
    else
      var paid := RefundTransfer(policy, c.coins, p.src, p.data);
      if paid.None? then None else Some(Settled(c, paid.value, p))
  }

  /** Settle a packet that had timed out, by its absence from a past store of the receiver. Whether it had is judged
      by the height and time under which the sender's client has `filed` the proven state. */
  function TimeoutPacket(c: Chain, policy: Policy, p: Packet, filed: Tick, proven: Store): Option<Chain> {
    var from, to := Place(p.src, p.number), Place(p.dst, p.number);
    if from !in c.store.commitments then Some(c)
    else if c.store.commitments[from] != Commit(p) then None
    else if !Expired(p, filed.height, filed.time) then None
    else if to in proven.receipts then None
    else
      var paid := RefundTransfer(policy, c.coins, p.src, p.data);
      if paid.None? then None else Some(Settled(c, paid.value, p))
  }

  /** A new block begins: the store is committed to under the new height and time. */
  function NewBlock(c: Chain, height: Height, time: nat): Option<Chain> {
    if !Below(c.height, height) || time < c.time then None
    else Some(c.(height := height, time := time, past := c.past[height := Snapshot(c.store, time)]))
  }

  // ----- The world -----

  /** All chains, and the history of every packet ever sent. */
  datatype World = World(chains: map<nat, Chain>, sent: map<Key, Packet>)

  /** A message to the chain of end `at`. A message with a proof has the `height` of the far block whose state
      is proven, and the height and time under which the client on this chain has `filed` that state. */
  datatype Msg =
    | MsgTransfer(at: End, policy: Policy, packet: Packet, seenHeight: Height, seenTime: nat)
    | MsgRecvPacket(at: End, policy: Policy, packet: Packet, height: Height, filed: Tick)
    | MsgAcknowledgement(at: End, policy: Policy, packet: Packet, ack: Ack, height: Height, filed: Tick)
    | MsgTimeout(at: End, policy: Policy, packet: Packet, height: Height, filed: Tick)
    | MsgNewBlock(at: End, height: Height, time: nat)

  /** Both ends exist, and the packet names them the right way round. */
  predicate Addressed(net: Net, w: World, m: Msg) {
    && m.at.chain in w.chains
    && (m.MsgNewBlock? ||
        (&& m.at in net && net[m.at].chain in w.chains
         && (if m.MsgRecvPacket? then m.packet.dst == m.at.hop && m.packet.src == net[m.at].hop
             else m.packet.src == m.at.hop && m.packet.dst == net[m.at].hop)))
  }

  /** The state of the chain at `m.at` after the message. */
  function Handle(net: Net, w: World, m: Msg): Option<Chain>
    requires Addressed(net, w, m)
  {
    var c := w.chains[m.at.chain];
    match m
    case MsgNewBlock(_, height, time) => NewBlock(c, height, time)
    case MsgTransfer(_, policy, p, seenHeight, seenTime) => SendPacket(c, policy, p, seenHeight, seenTime)
    case MsgRecvPacket(_, policy, p, height, _) =>
      var far := w.chains[net[m.at].chain];
      if height !in far.past then None else RecvPacket(c, policy, p, far.past[height].store)
    case MsgAcknowledgement(_, policy, p, ack, height, _) =>
      var far := w.chains[net[m.at].chain];
      if height !in far.past then None else AcknowledgePacket(c, policy, p, ack, far.past[height].store)
    case MsgTimeout(_, policy, p, height, filed) =>
      var far := w.chains[net[m.at].chain];
      if height !in far.past then None else TimeoutPacket(c, policy, p, filed, far.past[height].store)
  }

  /** One message delivered anywhere, in any order, by anyone. */
  function Dispatch(net: Net, w: World, m: Msg): World {
    if !Addressed(net, w, m) || Handle(net, w, m).None? then w
    else World(
      w.chains[m.at.chain := Handle(net, w, m).value],
      if m.MsgTransfer? then w.sent[Key(m.at, m.packet.number) := m.packet] else w.sent)
  }

  /** A state filed under another height or time than its own does not make the packet expire. */
  predicate Dated(p: Packet, block: Tick, filed: Tick) {
    Expired(p, filed.height, filed.time) ==> Expired(p, block.height, block.time)
  }

  /** The proof that the message carries, if it is a timeout, is dated right; where the proofs of other messages
      are filed decides nothing. */
  predicate TruthfulProof(net: Net, w: World, m: Msg) {
    m.MsgTimeout? && Addressed(net, w, m) && m.height in w.chains[net[m.at].chain].past ==>
      Dated(m.packet, Tick(m.height, w.chains[net[m.at].chain].past[m.height].time), m.filed)
  }

  // ----- What every run keeps -----

  type Log = map<Key, Packet>

  /** Every commitment in the store is of a packet that was really sent. */
  ghost predicate Logged(sent: Log, chain: nat, store: Store) {
    forall place <- store.commitments ::
      && Key(End(chain, place.hop), place.number) in sent
      && Commit(sent[Key(End(chain, place.hop), place.number)]) == store.commitments[place]
  }

  /** Receipts and acknowledgements are never taken back. */
  ghost predicate Grown(earlier: Store, now: Store) {
    && earlier.receipts <= now.receipts
    && forall place <- earlier.acks :: place in now.acks && now.acks[place] == earlier.acks[place]
  }

  ghost predicate SnapshotOk(sent: Log, chain: nat, c: Chain, h: Height, past: Snapshot) {
    AtMost(h, c.height) && past.time <= c.time && Logged(sent, chain, past.store) && Grown(past.store, c.store)
  }

  ghost predicate PastOk(sent: Log, chain: nat, c: Chain) {
    forall h <- c.past :: SnapshotOk(sent, chain, c, h, c.past[h])
  }

  ghost predicate ReceiptsOk(net: Net, sent: Log, chain: nat, store: Store) {
    && store.acks.Keys == store.receipts
    && forall place <- store.receipts ::
         End(chain, place.hop) in net && Key(net[End(chain, place.hop)], place.number) in sent
  }

  ghost predicate ChainOk(net: Net, sent: Log, chain: nat, c: Chain) {
    Logged(sent, chain, c.store) && PastOk(sent, chain, c) && ReceiptsOk(net, sent, chain, c.store)
  }

  /** The place at which the packet is marked on the receiving chain. */
  function Arrival(net: Net, k: Key): Place
    requires k.src in net
  {
    Place(net[k.src].hop, k.number)
  }

  function Departure(k: Key): Place {
    Place(k.src.hop, k.number)
  }

  ghost predicate KeyOk(net: Net, k: Key, p: Packet, near: Chain)
    requires k.src in net
  {
    && p.src == k.src.hop && p.dst == net[k.src].hop && p.number == k.number
    && k.src.hop in near.store.nextSend && k.number < near.store.nextSend[k.src.hop]
  }

  /** A packet received, but not yet when block `h` began, had not timed out at `h`. */
  ghost predicate ReceivedInTime(p: Packet, to: Place, far: Chain) {
    to in far.store.receipts ==>
      forall h <- far.past :: to in far.past[h].store.receipts || !Expired(p, h, far.past[h].time)
  }

  /** A packet settled without having been received can no longer be received. */
  ghost predicate LostForGood(p: Packet, from: Place, to: Place, near: Chain, far: Chain) {
    from !in near.store.commitments && to !in far.store.receipts ==> Expired(p, far.height, far.time)
  }

  ghost predicate PacketOk(net: Net, k: Key, p: Packet, near: Chain, far: Chain) {
    && k.src in net
    && KeyOk(net, k, p, near)
    && ReceivedInTime(p, Arrival(net, k), far)
    && LostForGood(p, Departure(k), Arrival(net, k), near, far)
  }

  predicate Wired(net: Net, w: World, k: Key) {
    k.src in net && k.src.chain in w.chains && net[k.src].chain in w.chains
  }

  ghost predicate PacketInv(net: Net, w: World, k: Key)
    requires k in w.sent
  {
    Wired(net, w, k) && PacketOk(net, k, w.sent[k], w.chains[k.src.chain], w.chains[net[k.src].chain])
  }

  ghost predicate WorldInv(net: Net, w: World) {
    && (forall chain <- w.chains :: ChainOk(net, w.sent, chain, w.chains[chain]))
    && (forall k <- w.sent :: PacketInv(net, w, k))
  }

  // ----- Each handler keeps its chain in order -----

  lemma LogGrows(net: Net, sent: Log, k: Key, p: Packet, chain: nat, c: Chain)
    requires k !in sent && ChainOk(net, sent, chain, c)
    ensures ChainOk(net, sent[k := p], chain, c)
  {
    forall h <- c.past ensures SnapshotOk(sent[k := p], chain, c, h, c.past[h]) {
      assert SnapshotOk(sent, chain, c, h, c.past[h]);
    }
  }

  lemma SendKeepsChain(net: Net, sent: Log, at: End, c: Chain, policy: Policy, p: Packet, seenHeight: Height,
                       seenTime: nat)
    requires ChainOk(net, sent, at.chain, c) && p.src == at.hop
    requires Key(at, p.number) in sent && sent[Key(at, p.number)] == p
    requires SendPacket(c, policy, p, seenHeight, seenTime).Some?
    ensures ChainOk(net, sent, at.chain, SendPacket(c, policy, p, seenHeight, seenTime).value)
  {
    var d := SendPacket(c, policy, p, seenHeight, seenTime).value;
    assert End(at.chain, p.src) == at;
    forall h <- d.past ensures SnapshotOk(sent, at.chain, d, h, d.past[h]) {
      assert SnapshotOk(sent, at.chain, c, h, c.past[h]);
    }
  }

  lemma RecvKeepsChain(net: Net, sent: Log, at: End, c: Chain, policy: Policy, p: Packet, proven: Store)
    requires ChainOk(net, sent, at.chain, c) && p.dst == at.hop && at in net && net[at].hop == p.src
    requires Logged(sent, net[at].chain, proven)
    requires RecvPacket(c, policy, p, proven).Some?
    ensures ChainOk(net, sent, at.chain, RecvPacket(c, policy, p, proven).value)
  {
    var d := RecvPacket(c, policy, p, proven).value;
    assert End(at.chain, p.dst) == at && End(net[at].chain, p.src) == net[at];
    forall h <- d.past ensures SnapshotOk(sent, at.chain, d, h, d.past[h]) {
      assert SnapshotOk(sent, at.chain, c, h, c.past[h]);
    }
  }

  lemma SettleKeepsChain(net: Net, sent: Log, chain: nat, c: Chain, coins: Coins, p: Packet)
    requires ChainOk(net, sent, chain, c)
    ensures ChainOk(net, sent, chain, Settled(c, coins, p))
  {
    var d := Settled(c, coins, p);
    forall h <- d.past ensures SnapshotOk(sent, chain, d, h, d.past[h]) {
      assert SnapshotOk(sent, chain, c, h, c.past[h]);
    }
  }

  lemma NewBlockKeepsChain(net: Net, sent: Log, chain: nat, c: Chain, height: Height, time: nat)
    requires ChainOk(net, sent, chain, c) && NewBlock(c, height, time).Some?
    ensures ChainOk(net, sent, chain, NewBlock(c, height, time).value)
  {
    var d := NewBlock(c, height, time).value;
    forall h <- d.past ensures SnapshotOk(sent, chain, d, h, d.past[h]) {
      if h != height {
        assert SnapshotOk(sent, chain, c, h, c.past[h]);
      }
    }
  }

  /** The packet is new to the history: its number is the next one of its channel. */
  lemma SendIsFresh(net: Net, w: World, m: Msg)
    requires WorldInv(net, w) && m.MsgTransfer? && Addressed(net, w, m) && Handle(net, w, m).Some?
    ensures Key(m.at, m.packet.number) !in w.sent
  {
    var k := Key(m.at, m.packet.number);
    assert k in w.sent ==> PacketInv(net, w, k);
  }

  /** What a header proves about the far chain. */
  lemma ProofIsSound(net: Net, w: World, chain: nat, height: Height)
    requires WorldInv(net, w) && chain in w.chains && height in w.chains[chain].past
    ensures var c := w.chains[chain];
      Logged(w.sent, chain, c.past[height].store) && Grown(c.past[height].store, c.store)
  {
    var c := w.chains[chain];
    assert ChainOk(net, w.sent, chain, c);
    assert SnapshotOk(w.sent, chain, c, height, c.past[height]);
  }

  lemma TransferKeepsChain(net: Net, w: World, m: Msg)
    requires WorldInv(net, w) && m.MsgTransfer? && Addressed(net, w, m) && Handle(net, w, m).Some?
    ensures ChainOk(net, w.sent[Key(m.at, m.packet.number) := m.packet], m.at.chain, Handle(net, w, m).value)
  {
    var c := w.chains[m.at.chain];
    SendIsFresh(net, w, m);
    LogGrows(net, w.sent, Key(m.at, m.packet.number), m.packet, m.at.chain, c);
    SendKeepsChain(net, w.sent[Key(m.at, m.packet.number) := m.packet], m.at, c, m.policy, m.packet, m.seenHeight,
                   m.seenTime);
  }

  lemma RecvMsgKeepsChain(net: Net, w: World, m: Msg)
    requires WorldInv(net, w) && m.MsgRecvPacket? && Addressed(net, w, m) && Handle(net, w, m).Some?
    ensures ChainOk(net, w.sent, m.at.chain, Handle(net, w, m).value)
  {
    ProofIsSound(net, w, net[m.at].chain, m.height);
    RecvKeepsChain(net, w.sent, m.at, w.chains[m.at.chain], m.policy, m.packet,
                   w.chains[net[m.at].chain].past[m.height].store);
  }

  lemma OtherMsgKeepsChain(net: Net, w: World, m: Msg)
    requires !m.MsgRecvPacket? && !m.MsgTransfer? && Addressed(net, w, m) && Handle(net, w, m).Some?
    requires ChainOk(net, w.sent, m.at.chain, w.chains[m.at.chain])
    ensures ChainOk(net, w.sent, m.at.chain, Handle(net, w, m).value)
  {
    var c := w.chains[m.at.chain];
    if m.MsgNewBlock? {
      NewBlockKeepsChain(net, w.sent, m.at.chain, c, m.height, m.time);
    } else {
      SettleKeepsChain(net, w.sent, m.at.chain, c, Handle(net, w, m).value.coins, m.packet);
    }
  }

  /** The history of sent packets after a message. */
  function SentAfter(w: World, m: Msg): Log {
    if m.MsgTransfer? then w.sent[Key(m.at, m.packet.number) := m.packet] else w.sent
  }

  lemma OwnChainKept(net: Net, w: World, m: Msg)
    requires WorldInv(net, w) && Addressed(net, w, m) && Handle(net, w, m).Some?
    ensures ChainOk(net, SentAfter(w, m), m.at.chain, Handle(net, w, m).value)
  {
    if m.MsgTransfer? {
      TransferKeepsChain(net, w, m);
    } else if m.MsgRecvPacket? {
      RecvMsgKeepsChain(net, w, m);
    } else {
      OtherMsgKeepsChain(net, w, m);
    }
  }

  lemma OtherChainKept(net: Net, w: World, m: Msg, chain: nat)
    requires WorldInv(net, w) && chain in w.chains && Addressed(net, w, m) && Handle(net, w, m).Some?
    ensures ChainOk(net, SentAfter(w, m), chain, w.chains[chain])
  {
    if m.MsgTransfer? {
      SendIsFresh(net, w, m);
      LogGrows(net, w.sent, Key(m.at, m.packet.number), m.packet, chain, w.chains[chain]);
    }
  }

  /** The state of any chain after an accepted message. */
  function ChainAfter(net: Net, w: World, m: Msg, chain: nat): Chain
    requires chain in w.chains && Addressed(net, w, m) && Handle(net, w, m).Some?
  {
    if chain == m.at.chain then Handle(net, w, m).value else w.chains[chain]
  }

  lemma ChainKept(net: Net, w: World, m: Msg, chain: nat)
    requires WorldInv(net, w) && chain in w.chains && Addressed(net, w, m) && Handle(net, w, m).Some?
    ensures ChainOk(net, SentAfter(w, m), chain, ChainAfter(net, w, m, chain))
  {
    if chain == m.at.chain {
      OwnChainKept(net, w, m);
    } else {
      OtherChainKept(net, w, m, chain);
    }
  }

  lemma DispatchForm(net: Net, w: World, m: Msg)
    requires Addressed(net, w, m) && Handle(net, w, m).Some?
    ensures var v := Dispatch(net, w, m);
      v.sent == SentAfter(w, m) && v.chains.Keys == w.chains.Keys
      && forall chain <- w.chains :: v.chains[chain] == ChainAfter(net, w, m, chain)
  {
  }

  // ----- Each handler keeps every packet in order -----

  lemma ExpiredStays(p: Packet, h: Height, t: nat, later: Height, u: nat)
    requires AtMost(h, later) && t <= u && Expired(p, h, t)
    ensures Expired(p, later, u)
  {
  }

  /** Nothing about the packet changed but, perhaps, the rest of the two chains. */
  ghost predicate Unmoved(from: Place, to: Place, near: Chain, far: Chain, near': Chain, far': Chain) {
    && (from in near.store.commitments ==> from in near'.store.commitments)
    && (to in far.store.receipts <==> to in far'.store.receipts)
    && far'.height == far.height && far'.time == far.time && far'.past == far.past
    && forall hop <- near.store.nextSend ::
         hop in near'.store.nextSend && near.store.nextSend[hop] <= near'.store.nextSend[hop]
  }

  lemma UnmovedKeepsPacket(net: Net, k: Key, p: Packet, near: Chain, far: Chain, near': Chain, far': Chain)
    requires PacketOk(net, k, p, near, far)
    requires Unmoved(Departure(k), Arrival(net, k), near, far, near', far')
    ensures PacketOk(net, k, p, near', far')
  {
  }

  lemma NewBlockKeepsPacket(net: Net, k: Key, p: Packet, near: Chain, far: Chain, height: Height, time: nat)
    requires PacketOk(net, k, p, near, far) && NewBlock(far, height, time).Some?
    ensures PacketOk(net, k, p, near, NewBlock(far, height, time).value)
  {
    if Expired(p, far.height, far.time) {
      ExpiredStays(p, far.height, far.time, height, time);
    }
  }

  /** Received now, and not expired now, so not expired at any earlier header either. */
  lemma RecvKeepsPacket(net: Net, sent: Log, chain: nat, k: Key, p: Packet, near: Chain, far: Chain, policy: Policy,
                        proven: Store)
    requires PacketOk(net, k, p, near, far) && PastOk(sent, chain, far)
    requires RecvPacket(far, policy, p, proven).Some?
    ensures PacketOk(net, k, p, near, RecvPacket(far, policy, p, proven).value)
  {
    var far' := RecvPacket(far, policy, p, proven).value;
    forall h <- far'.past ensures !Expired(p, h, far'.past[h].time) {
      assert SnapshotOk(sent, chain, far, h, far.past[h]);
      if Expired(p, h, far.past[h].time) {
        ExpiredStays(p, h, far.past[h].time, far.height, far.time);
        assert false;
      }
    }
  }

  /** Settled because it had been received: nothing is lost. */
  lemma AckKeepsPacket(net: Net, k: Key, p: Packet, near: Chain, far: Chain, coins: Coins)
    requires PacketOk(net, k, p, near, far) && Arrival(net, k) in far.store.receipts
    ensures PacketOk(net, k, p, Settled(near, coins, p), far)
  {
  }

  /** Settled by a timeout: the packet had not been received at `height`, cannot have been
      received since, and cannot be received any more. */
  lemma TimeoutKeepsPacket(net: Net, sent: Log, chain: nat, k: Key, p: Packet, near: Chain, far: Chain, coins: Coins,
                           height: Height)
    requires PacketOk(net, k, p, near, far) && PastOk(sent, chain, far)
    requires height in far.past && Expired(p, height, far.past[height].time)
    requires Arrival(net, k) !in far.past[height].store.receipts
    ensures Arrival(net, k) !in far.store.receipts
    ensures PacketOk(net, k, p, Settled(near, coins, p), far)
  {
    assert SnapshotOk(sent, chain, far, height, far.past[height]);
    ExpiredStays(p, height, far.past[height].time, far.height, far.time);
  }

  /** A new packet cannot have been received yet. */
  lemma NewIsUnreceived(net: Net, sent: Log, k: Key, far: Chain)
    requires ValidNet(net) && k.src in net && k !in sent
    requires ReceiptsOk(net, sent, net[k.src].chain, far.store)
    ensures Arrival(net, k) !in far.store.receipts
  {
    assert End(net[k.src].chain, net[k.src].hop) == net[k.src];
  }

  /** The packet in a message that carries a commitment proof is the packet that was sent. */
  lemma ProvenIsSent(net: Net, w: World, k: Key, p: Packet, store: Store)
    requires WorldInv(net, w) && k.src in net && Logged(w.sent, k.src.chain, store)
    requires p.src == k.src.hop && p.dst == net[k.src].hop && p.number == k.number
    requires Departure(k) in store.commitments && store.commitments[Departure(k)] == Commit(p)
    ensures k in w.sent && w.sent[k] == p
  {
    assert End(k.src.chain, k.src.hop) == k.src && Key(k.src, k.number) == k;
    assert PacketInv(net, w, k);
  }

  /** The key of the packet a message is about. */
  function KeyOf(net: Net, m: Msg): Key
    requires !m.MsgNewBlock? && m.at in net
  {
    Key(if m.MsgRecvPacket? then net[m.at] else m.at, m.packet.number)
  }

  predicate Accepted(net: Net, w: World, m: Msg) {
    Addressed(net, w, m) && Handle(net, w, m).Some?
  }

  lemma RecvFacts(net: Net, w: World, m: Msg)
    requires ValidNet(net) && WorldInv(net, w) && m.MsgRecvPacket? && Accepted(net, w, m)
    ensures KeyOf(net, m) in w.sent && w.sent[KeyOf(net, m)] == m.packet
    ensures PastOk(w.sent, m.at.chain, w.chains[m.at.chain])
  {
    ProofIsSound(net, w, net[m.at].chain, m.height);
    ProvenIsSent(net, w, KeyOf(net, m), m.packet, w.chains[net[m.at].chain].past[m.height].store);
    assert ChainOk(net, w.sent, m.at.chain, w.chains[m.at.chain]);
  }

  /** The message settles its packet, rather than finding it settled already. */
  predicate Settles(w: World, m: Msg) {
    && (m.MsgAcknowledgement? || m.MsgTimeout?)
    && m.at.chain in w.chains
    && Place(m.packet.src, m.packet.number) in w.chains[m.at.chain].store.commitments
  }

  /** If the message is a timeout and settles its packet, its proof is dated right. A timeout that is rejected, or
      that finds its packet settled, may carry any proof. */
  predicate Truthful(net: Net, w: World, m: Msg) {
    Accepted(net, w, m) && Settles(w, m) ==> TruthfulProof(net, w, m)
  }

  /** The message is about the packet that was sent; an acknowledgement says what was written, and a timeout
      shows a block at which the packet had expired unreceived. */
  ghost predicate SettleSound(net: Net, w: World, m: Msg)
    requires Addressed(net, w, m) && Settles(w, m)
  {
    var k, far := KeyOf(net, m), w.chains[net[m.at].chain];
    && k in w.sent && w.sent[k] == m.packet
    && PastOk(w.sent, net[m.at].chain, far)
    && (if m.MsgTimeout? then
          m.height in far.past && Expired(m.packet, m.height, far.past[m.height].time)
          && Arrival(net, k) !in far.past[m.height].store.receipts
        else
          && Arrival(net, k) in far.store.receipts
          && Arrival(net, k) in far.store.acks && far.store.acks[Arrival(net, k)] == m.ack)
  }

  /** The core checks of a settling message: the commitment matches, and the receiver's store at the proven block
      holds the acknowledgement, or holds no receipt though the packet has timed out by what is filed. */
  predicate Proven(net: Net, w: World, m: Msg)
    requires Addressed(net, w, m) && Settles(w, m)
  {
    var far, to := w.chains[net[m.at].chain], Place(m.packet.dst, m.packet.number);
    && w.chains[m.at.chain].store.commitments[Place(m.packet.src, m.packet.number)] == Commit(m.packet)
    && m.height in far.past
    && (if m.MsgTimeout? then
          Expired(m.packet, m.filed.height, m.filed.time) && to !in far.past[m.height].store.receipts
        else to in far.past[m.height].store.acks && far.past[m.height].store.acks[to] == m.ack)
  }

  lemma SettleFacts(net: Net, w: World, m: Msg)
    requires ValidNet(net) && WorldInv(net, w) && Addressed(net, w, m) && Settles(w, m) && Proven(net, w, m)
    requires TruthfulProof(net, w, m)
    ensures SettleSound(net, w, m)
  {
    ProofIsSound(net, w, net[m.at].chain, m.height);
    assert ChainOk(net, w.sent, m.at.chain, w.chains[m.at.chain]);
    ProvenIsSent(net, w, KeyOf(net, m), m.packet, w.chains[m.at.chain].store);
    assert ChainOk(net, w.sent, net[m.at].chain, w.chains[net[m.at].chain]);
  }

  lemma RecvDispatchKeepsPacket(net: Net, w: World, m: Msg, k: Key)
    requires ValidNet(net) && m.MsgRecvPacket? && Accepted(net, w, m) && k in w.sent && PacketInv(net, w, k)
    requires KeyOf(net, m) in w.sent && w.sent[KeyOf(net, m)] == m.packet
    requires PastOk(w.sent, m.at.chain, w.chains[m.at.chain])
    ensures PacketInv(net, Dispatch(net, w, m), k)
  {
    var near, far, p := w.chains[k.src.chain], w.chains[net[k.src].chain], w.sent[k];
    var v := Dispatch(net, w, m);
    if k == KeyOf(net, m) {
      var other := w.chains[net[m.at].chain];
      RecvKeepsPacket(net, w.sent, m.at.chain, k, p, near, far, m.policy, other.past[m.height].store);
      UnmovedKeepsPacket(net, k, p, near, v.chains[net[k.src].chain], v.chains[k.src.chain],
                         v.chains[net[k.src].chain]);
    } else {
      UnmovedKeepsPacket(net, k, p, near, far, v.chains[k.src.chain], v.chains[net[k.src].chain]);
    }
  }

  /** What a settling message does to the chain it is for. */
  lemma SettleEffect(net: Net, w: World, m: Msg)
    requires Accepted(net, w, m) && Settles(w, m)
    ensures var v, c := Dispatch(net, w, m), w.chains[m.at.chain];
      && m.at.chain in v.chains
      && v == World(w.chains[m.at.chain := Settled(c, v.chains[m.at.chain].coins, m.packet)], w.sent)
  {
  }

  /** A settled packet, on its own two chains. */
  lemma SettledKeepsOwn(net: Net, w: World, m: Msg, coins: Coins)
    requires Addressed(net, w, m) && Settles(w, m) && SettleSound(net, w, m) && PacketInv(net, w, KeyOf(net, m))
    ensures PacketOk(net, KeyOf(net, m), m.packet, Settled(w.chains[m.at.chain], coins, m.packet),
                     w.chains[net[m.at].chain])
  {
    var near, far, k := w.chains[m.at.chain], w.chains[net[m.at].chain], KeyOf(net, m);
    if m.MsgAcknowledgement? {
      AckKeepsPacket(net, k, m.packet, near, far, coins);
    } else {
      TimeoutKeepsPacket(net, w.sent, net[m.at].chain, k, m.packet, near, far, coins, m.height);
    }
  }

  /** Settling one packet removes the commitment of no other. */
  lemma SettledKeepsOther(net: Net, k: Key, q: Packet, near: Chain, far: Chain, chain: nat, c: Chain, coins: Coins,
                          p: Packet,
                          near': Chain, far': Chain)
    requires k.src in net && PacketOk(net, k, q, near, far)
    requires near' == if k.src.chain == chain then Settled(c, coins, p) else near
    requires k.src.chain == chain ==> near == c
    requires far' == if net[k.src].chain == chain then Settled(c, coins, p) else far
    requires net[k.src].chain == chain ==> far == c
    requires k != Key(End(chain, p.src), p.number)
    ensures PacketOk(net, k, q, near', far')
  {
    UnmovedKeepsPacket(net, k, q, near, far, near', far');
  }

  lemma SettleDispatchKeepsPacket(net: Net, w: World, m: Msg, k: Key)
    requires ValidNet(net) && Accepted(net, w, m) && Settles(w, m) && k in w.sent && PacketInv(net, w, k)
    requires SettleSound(net, w, m)
    ensures PacketInv(net, Dispatch(net, w, m), k)
  {
    var near, far, p := w.chains[k.src.chain], w.chains[net[k.src].chain], w.sent[k];
    var v := Dispatch(net, w, m);
    var near', far' := v.chains[k.src.chain], v.chains[net[k.src].chain];
    var coins := v.chains[m.at.chain].coins;
    SettleEffect(net, w, m);
    if k == KeyOf(net, m) {
      SettledKeepsOwn(net, w, m, coins);
      UnmovedKeepsPacket(net, k, p, near', far, near', far');
    } else {
      SettledKeepsOther(net, k, p, near, far, m.at.chain, w.chains[m.at.chain], coins, m.packet, near', far');
    }
  }

  lemma NewBlockDispatchKeepsPacket(net: Net, w: World, m: Msg, k: Key)
    requires ValidNet(net) && m.MsgNewBlock? && Accepted(net, w, m) && k in w.sent && PacketInv(net, w, k)
    ensures PacketInv(net, Dispatch(net, w, m), k)
  {
    var near, far, p := w.chains[k.src.chain], w.chains[net[k.src].chain], w.sent[k];
    var v := Dispatch(net, w, m);
    var far' := v.chains[net[k.src].chain];
    if net[k.src].chain == m.at.chain {
      NewBlockKeepsPacket(net, k, p, near, far, m.height, m.time);
    }
    UnmovedKeepsPacket(net, k, p, near, far', v.chains[k.src.chain], far');
  }

  lemma TransferDispatchKeepsPacket(net: Net, w: World, m: Msg, k: Key)
    requires ValidNet(net) && m.MsgTransfer? && Accepted(net, w, m)
    requires k in Dispatch(net, w, m).sent && KeyOf(net, m) !in w.sent
    requires k in w.sent ==> PacketInv(net, w, k)
    requires ReceiptsOk(net, w.sent, net[m.at].chain, w.chains[net[m.at].chain].store)
    ensures PacketInv(net, Dispatch(net, w, m), k)
  {
    var v := Dispatch(net, w, m);
    if k in w.sent {
      UnmovedKeepsPacket(net, k, w.sent[k], w.chains[k.src.chain], w.chains[net[k.src].chain],
                         v.chains[k.src.chain], v.chains[net[k.src].chain]);
    } else {
      NewIsUnreceived(net, w.sent, k, w.chains[net[k.src].chain]);
    }
  }

  lemma SendFacts(net: Net, w: World, m: Msg)
    requires WorldInv(net, w) && m.MsgTransfer? && Accepted(net, w, m)
    ensures KeyOf(net, m) !in w.sent
    ensures ReceiptsOk(net, w.sent, net[m.at].chain, w.chains[net[m.at].chain].store)
  {
    SendIsFresh(net, w, m);
    assert ChainOk(net, w.sent, net[m.at].chain, w.chains[net[m.at].chain]);
  }

  lemma RepeatChangesNothing(net: Net, w: World, m: Msg)
    requires (m.MsgAcknowledgement? || m.MsgTimeout?) && !Settles(w, m)
    ensures Dispatch(net, w, m) == w
  {
    assert w.chains == map chain <- w.chains :: w.chains[chain];
  }

  lemma SettlementKeepsPacket(net: Net, w: World, m: Msg, k: Key)
    requires ValidNet(net) && Accepted(net, w, m) && k in w.sent && PacketInv(net, w, k)
    requires m.MsgAcknowledgement? || m.MsgTimeout?
    requires Settles(w, m) ==> SettleSound(net, w, m)
    ensures k in Dispatch(net, w, m).sent && PacketInv(net, Dispatch(net, w, m), k)
  {
    if Settles(w, m) {
      SettleDispatchKeepsPacket(net, w, m, k);
    } else {
      RepeatChangesNothing(net, w, m);
    }
  }

  lemma DispatchKeepsPacket(net: Net, w: World, m: Msg, k: Key)
    requires ValidNet(net) && WorldInv(net, w) && Accepted(net, w, m) && Truthful(net, w, m)
    requires k in Dispatch(net, w, m).sent
    ensures PacketInv(net, Dispatch(net, w, m), k)
  {
    if m.MsgTransfer? {
      SendFacts(net, w, m);
      TransferDispatchKeepsPacket(net, w, m, k);
    } else if m.MsgRecvPacket? {
      RecvFacts(net, w, m);
      RecvDispatchKeepsPacket(net, w, m, k);
    } else if m.MsgNewBlock? {
      NewBlockDispatchKeepsPacket(net, w, m, k);
    } else {
      if Settles(w, m) {
        SettleFacts(net, w, m);
      }
      SettlementKeepsPacket(net, w, m, k);
    }
  }

  lemma ChainsKept(net: Net, w: World, m: Msg)
    requires WorldInv(net, w) && Accepted(net, w, m)
    ensures var v := Dispatch(net, w, m); forall chain <- v.chains :: ChainOk(net, v.sent, chain, v.chains[chain])
  {
    var v := Dispatch(net, w, m);
    DispatchForm(net, w, m);
    forall chain <- v.chains ensures ChainOk(net, v.sent, chain, v.chains[chain]) {
      ChainKept(net, w, m, chain);
    }
  }

  /** Whatever is delivered, wherever and whenever, the packet state of the world stays in order,
      as long as timeouts are dated right. */
  lemma DispatchKeepsInv(net: Net, w: World, m: Msg)
    requires ValidNet(net) && WorldInv(net, w) && Truthful(net, w, m)
    ensures WorldInv(net, Dispatch(net, w, m))
  {
    if Accepted(net, w, m) {
      var v := Dispatch(net, w, m);
      forall k <- v.sent ensures PacketInv(net, v, k) {
        DispatchKeepsPacket(net, w, m, k);
      }
      ChainsKept(net, w, m);
    }
  }
}
