/** The ICS-02 client handlers over whole runs: creating, updating, freezing and upgrading
    Tendermint clients, and the connection delay that updates start. */
module ClientRuns {
  import opened Basics
  import opened TendermintClient
  import opened Text

  datatype Record = Record(state: ClientState, cons: ConsensusStates)

  datatype Stamp = Stamp(time: nat, height: Height)

  datatype Update = Update(client: nat, height: Height)

  /** A host's clients, the counter for their identifiers, when each height was last processed,
      and the host's own time and height. */
  datatype Host = Host(clients: map<nat, Record>, counter: nat, processed: map<Update, Stamp>, time: nat,
                       height: Height)

  datatype Msg =
    | MsgCreate(state: ClientState, cons: ConsensusState)
    | MsgUpdate(client: nat, header: Header)
    | MsgMisbehaviour(client: nat, header1: Header, header2: Header)
    | MsgUpgrade(client: nat, upgraded: ClientState, upgradedCons: ConsensusState, proven: bool)
    | NewBlock(time: nat, height: Height)

  // ----- Handlers: `None` rejects the message -----

  function CreateClient(h: Host, cs: ClientState, cons: ConsensusState): Option<Host> {
    if cs.frozenHeight.Some? || !Validate(cs) || cons.root == "" || h.counter in h.clients then None
    else Some(h.(
      clients := h.clients[h.counter := Record(cs, map[cs.latestHeight := cons])],
      processed := h.processed[Update(h.counter, cs.latestHeight) := Stamp(h.time, h.height)],
      counter := h.counter + 1))
  }

  function Frozen(r: Record): Record {
    r.(state := r.state.(frozenHeight := Some(FROZEN_AT)))
  }

  ghost function UpdateClient(h: Host, id: nat, header: Header): Option<Host> {
    if id !in h.clients || h.clients[id].state.frozenHeight.Some? then None else
    var r := h.clients[id];
    if !VerifyHeader(r.state, r.cons, header) then None
    else if Misbehaves(r.state, r.cons, header) then Some(h.(clients := h.clients[id := Frozen(r)]))
    else Some(h.(
      clients := h.clients[id :=
        if header.height in r.cons then r else Record(WithHeader(r.state, header), Updated(r.state, r.cons, header))],
      processed := h.processed[Update(id, header.height) := Stamp(h.time, h.height)]))
  }

  /** One of the two headers of a misbehaviour, against the trusted state it names. */
  predicate VerifyEvidence(h: Host, r: Record, header: Header) {
    && ValidateBasic(header)
    && header.trustedHeight in r.cons
    && var trusted := r.cons[header.trustedHeight];
    && header.trustedNextValidators == trusted.nextValidators
    && trusted.timestamp <= h.time < trusted.timestamp + r.state.trustingPeriod
    && header.signed
  }

  function SubmitMisbehaviour(h: Host, id: nat, header1: Header, header2: Header): Option<Host> {
    if id !in h.clients || h.clients[id].state.frozenHeight.Some? then None else
    var r := h.clients[id];
    if header1.chainName != header2.chainName || header1.height.revision != header2.height.revision then None
    else if Below(header1.height, header2.height) then None
    else if !VerifyEvidence(h, r, header1) || !VerifyEvidence(h, r, header2) || !Evidence(header1, header2) then None
    else Some(h.(clients := h.clients[id := Frozen(r)]))
  }

  /** Chain-chosen parameters come from the upgraded client, client-chosen ones from the current. */
  function UpgradedState(cs: ClientState, upgraded: ClientState): ClientState {
    ClientState(upgraded.chainName, upgraded.revision, cs.trustLevel, cs.trustingPeriod, upgraded.unbondingPeriod,
                cs.maxClockDrift, upgraded.latestHeight, upgraded.proofSpecs, upgraded.upgradePath, cs.allowUpdate, None)
  }

  /** An upgrade path of one key stops the host with an index error; nothing is stored then either. */
  function UpgradeClient(h: Host, id: nat, upgraded: ClientState, upgradedCons: ConsensusState,
                         proven: bool): Option<Host> {
    if id !in h.clients || h.clients[id].state.frozenHeight.Some? then None else
    var r := h.clients[id];
    if r.state.latestHeight !in r.cons then None else
    var since := h.time - r.cons[r.state.latestHeight].timestamp;
    if since < 0 || since > r.state.trustingPeriod then None
    else if upgraded.frozenHeight.Some? || !Below(r.state.latestHeight, upgraded.latestHeight) then None
    else if |r.state.upgradePath| < 2 || !proven || !Validate(UpgradedState(r.state, upgraded)) then None
    else Some(h.(clients := h.clients[id := Record(
      UpgradedState(r.state, upgraded),
      r.cons[upgraded.latestHeight := ConsensusState(SENTINEL_ROOT, upgradedCons.timestamp,
                                                     upgradedCons.nextValidators)])]))
  }

  ghost function Handle(h: Host, m: Msg): Option<Host> {
    match m
    case MsgCreate(cs, cons) => CreateClient(h, cs, cons)
    case MsgUpdate(id, header) => UpdateClient(h, id, header)
    case MsgMisbehaviour(id, header1, header2) => SubmitMisbehaviour(h, id, header1, header2)
    case MsgUpgrade(id, upgraded, cons, proven) => UpgradeClient(h, id, upgraded, cons, proven)
    case NewBlock(time, height) =>
      if time < h.time || !AtMost(h.height, height) then None else Some(h.(time := time, height := height))
  }

  ghost function Dispatch(h: Host, m: Msg): Host {
    if Handle(h, m).None? then h else Handle(h, m).value
  }

  ghost function Run(h: Host, msgs: seq<Msg>): Host
    decreases |msgs|
  {
    if msgs == [] then h else Run(Dispatch(h, msgs[0]), msgs[1..])
  }

  // ----- What every run keeps -----

  predicate RecordOk(r: Record) {
    Validate(r.state) && IsHighest(r.cons, r.state.latestHeight)
  }

  predicate HostOk(h: Host) {
    forall id <- h.clients :: id < h.counter && RecordOk(h.clients[id])
  }

  /** Heights never fall, client-chosen parameters never change, and a frozen client never changes at all. */
  predicate Evolves(r: Record, s: Record) {
    && AtMost(r.state.latestHeight, s.state.latestHeight)
    && s.state.trustLevel == r.state.trustLevel && s.state.trustingPeriod == r.state.trustingPeriod
    && s.state.maxClockDrift == r.state.maxClockDrift && s.state.allowUpdate == r.state.allowUpdate
    && r.cons.Keys <= s.cons.Keys
    && (r.state.frozenHeight.Some? ==> s == r)
  }

  predicate HostEvolves(h: Host, k: Host) {
    && h.counter <= k.counter
    && forall id <- h.clients :: id in k.clients && Evolves(h.clients[id], k.clients[id])
  }

  lemma UpdateKeepsRecord(r: Record, header: Header)
    requires RecordOk(r) && VerifyHeader(r.state, r.cons, header) && header.height !in r.cons
    ensures RecordOk(Record(WithHeader(r.state, header), Updated(r.state, r.cons, header)))
  {
  }

  /** Replacing one client by what it evolved into. */
  lemma ReplaceKeepsHost(h: Host, k: Host, id: nat, r: Record)
    requires HostOk(h) && id in h.clients && k.counter == h.counter && k.clients == h.clients[id := r]
    requires RecordOk(r) && Evolves(h.clients[id], r)
    ensures HostOk(k) && HostEvolves(h, k)
  {
  }

  lemma UpdateKeepsHost(h: Host, id: nat, header: Header)
    requires HostOk(h) && UpdateClient(h, id, header).Some?
    ensures var k := UpdateClient(h, id, header).value; HostOk(k) && HostEvolves(h, k)
  {
    var k, r := UpdateClient(h, id, header).value, h.clients[id];
    if !Misbehaves(r.state, r.cons, header) && header.height !in r.cons {
      UpdateKeepsRecord(r, header);
    }
    ReplaceKeepsHost(h, k, id, k.clients[id]);
  }

  lemma UpgradeKeepsHost(h: Host, id: nat, upgraded: ClientState, cons: ConsensusState, proven: bool)
    requires HostOk(h) && UpgradeClient(h, id, upgraded, cons, proven).Some?
    ensures var k := UpgradeClient(h, id, upgraded, cons, proven).value; HostOk(k) && HostEvolves(h, k)
  {
    var k := UpgradeClient(h, id, upgraded, cons, proven).value;
    ReplaceKeepsHost(h, k, id, k.clients[id]);
  }

  lemma MisbehaviourKeepsHost(h: Host, id: nat, header1: Header, header2: Header)
    requires HostOk(h) && SubmitMisbehaviour(h, id, header1, header2).Some?
    ensures var k := SubmitMisbehaviour(h, id, header1, header2).value; HostOk(k) && HostEvolves(h, k)
  {
    var k := SubmitMisbehaviour(h, id, header1, header2).value;
    ReplaceKeepsHost(h, k, id, k.clients[id]);
  }

  lemma CreateKeepsHost(h: Host, cs: ClientState, cons: ConsensusState)
    requires HostOk(h) && CreateClient(h, cs, cons).Some?
    ensures var k := CreateClient(h, cs, cons).value; HostOk(k) && HostEvolves(h, k)
  {
  }

  /** One message keeps every client valid with its latest height the highest stored, and moves clients only forward. */
  lemma DispatchKeepsHost(h: Host, m: Msg)
    requires HostOk(h)
    ensures HostOk(Dispatch(h, m)) && HostEvolves(h, Dispatch(h, m))
  {
    if Handle(h, m).Some? {
      match m
      case MsgUpdate(id, header) => UpdateKeepsHost(h, id, header);
      case MsgUpgrade(id, upgraded, cons, proven) => UpgradeKeepsHost(h, id, upgraded, cons, proven);
      case MsgMisbehaviour(id, header1, header2) => MisbehaviourKeepsHost(h, id, header1, header2);
      case MsgCreate(state, cons) => CreateKeepsHost(h, state, cons);
      case NewBlock(_, _) =>
    }
  }

  lemma {:induction false} RunKeepsHost(h: Host, msgs: seq<Msg>)
    requires HostOk(h)
    ensures HostOk(Run(h, msgs)) && HostEvolves(h, Run(h, msgs))
    decreases |msgs|
  {
    if msgs != [] {
      var k := Dispatch(h, msgs[0]);
      DispatchKeepsHost(h, msgs[0]);
      RunKeepsHost(k, msgs[1..]);
      forall id <- h.clients ensures Evolves(h.clients[id], Run(h, msgs).clients[id]) {
        assert Evolves(h.clients[id], k.clients[id]) && Evolves(k.clients[id], Run(h, msgs).clients[id]);
      }
    }
  }

  // ----- Time in the store -----

  /** The message is an accepted update that does not freeze its client. */
  ghost predicate Installs(h: Host, m: Msg) {
    && m.MsgUpdate? && Handle(h, m).Some?
    && !Misbehaves(h.clients[m.client].state, h.clients[m.client].cons, m.header)
  }

  /** The message leaves time in order: a header that it installs is above the latest height, or stored, or next to
      the latest, and an upgraded state that it stores is later than the latest. Messages that are rejected or freeze
      a client may carry anything. */
  ghost predicate KeepsTime(h: Host, m: Msg) {
    && (Installs(h, m) ==>
          var r, height := h.clients[m.client], m.header.height;
          height in r.cons || Below(r.state.latestHeight, height) || !Between(r.cons, height, r.state.latestHeight))
    && (m.MsgUpgrade? && Handle(h, m).Some? ==>
          var r := h.clients[m.client];
          r.cons[r.state.latestHeight].timestamp < m.upgradedCons.timestamp)
  }

  ghost predicate AllKeepTime(h: Host, msgs: seq<Msg>)
    decreases |msgs|
  {
    msgs == [] || (KeepsTime(h, msgs[0]) && AllKeepTime(Dispatch(h, msgs[0]), msgs[1..]))
  }

  predicate TimesOk(h: Host) {
    forall id <- h.clients :: Monotone(h.clients[id].cons)
  }

  /** A verified header freezes the client exactly when storing it at its own height would contradict a stored
      state or break the order of time. */
  lemma FreezesExactly(h: Host, id: nat, header: Header)
    requires HostOk(h) && TimesOk(h) && id in h.clients && h.clients[id].state.frozenHeight.None?
    requires VerifyHeader(h.clients[id].state, h.clients[id].cons, header)
    ensures var before, after := h.clients[id].cons, Dispatch(h, MsgUpdate(id, header)).clients;
      && id in after
      && (after[id].state.frozenHeight.Some? <==>
          (header.height in before && before[header.height] != ConsensusOf(header))
          || !Monotone(before[header.height := ConsensusOf(header)]))
  {
    NeighbourCheckIsExact(h.clients[id].state, h.clients[id].cons, header);
  }

  lemma UpgradeKeepsTimeExactly(h: Host, m: Msg)
    requires HostOk(h) && m.MsgUpgrade? && Handle(h, m).Some? && Monotone(h.clients[m.client].cons)
    ensures var r := h.clients[m.client];
      Monotone(Dispatch(h, m).clients[m.client].cons) <==> r.cons[r.state.latestHeight].timestamp < m.upgradedCons.timestamp
  {
    var r, after := h.clients[m.client], Dispatch(h, m).clients[m.client].cons;
    var latest, new_ := r.state.latestHeight, m.upgraded.latestHeight;
    assert latest in after && new_ in after && Below(latest, new_);
    if r.cons[latest].timestamp < m.upgradedCons.timestamp {
      forall a <- after, b <- after | Below(a, b) ensures after[a].timestamp < after[b].timestamp {
        assert a in r.cons && AtMost(a, latest);
      }
    }
  }

  lemma InstallKeepsTimeExactly(h: Host, m: Msg)
    requires HostOk(h) && Installs(h, m) && Monotone(h.clients[m.client].cons)
    ensures Monotone(Dispatch(h, m).clients[m.client].cons) <==> KeepsTime(h, m)
  {
    UpdateKeepsTimeExactly(h.clients[m.client].state, h.clients[m.client].cons, m.header);
  }

  /** Only installed headers and upgrades change the states of a client that exists. */
  lemma OthersKeepStates(h: Host, m: Msg, id: nat)
    requires HostOk(h) && id in h.clients
    requires !((Installs(h, m) || (m.MsgUpgrade? && Handle(h, m).Some?)) && m.client == id)
    ensures id in Dispatch(h, m).clients && Dispatch(h, m).clients[id].cons == h.clients[id].cons
  {
  }

  lemma NewClientIsMonotone(h: Host, m: Msg, id: nat)
    requires id !in h.clients && id in Dispatch(h, m).clients
    ensures Monotone(Dispatch(h, m).clients[id].cons)
  {
  }

  lemma OtherClientsKeepTime(h: Host, m: Msg, id: nat)
    requires HostOk(h) && TimesOk(h) && id in Dispatch(h, m).clients
    requires !((Installs(h, m) || (m.MsgUpgrade? && Handle(h, m).Some?)) && m.client == id)
    ensures Monotone(Dispatch(h, m).clients[id].cons)
  {
    if id in h.clients {
      OthersKeepStates(h, m, id);
    } else {
      NewClientIsMonotone(h, m, id);
    }
  }

  /** One message keeps time increasing with height in every client exactly when it is one that keeps time. */
  lemma TimeStepExactly(h: Host, m: Msg)
    requires HostOk(h) && TimesOk(h)
    ensures TimesOk(Dispatch(h, m)) <==> KeepsTime(h, m)
  {
    forall id <- Dispatch(h, m).clients
      | !((Installs(h, m) || (m.MsgUpgrade? && Handle(h, m).Some?)) && m.client == id)
      ensures Monotone(Dispatch(h, m).clients[id].cons)
    {
      OtherClientsKeepTime(h, m, id);
    }
    if Installs(h, m) {
      InstallKeepsTimeExactly(h, m);
    } else if m.MsgUpgrade? && Handle(h, m).Some? {
      UpgradeKeepsTimeExactly(h, m);
    }
  }

  /** In every run of messages that keep time, the time of every client's stored states strictly increases with
      height. */
  lemma {:induction false} ForwardRunsKeepTimes(h: Host, msgs: seq<Msg>)
    requires HostOk(h) && TimesOk(h) && AllKeepTime(h, msgs)
    ensures TimesOk(Run(h, msgs))
    decreases |msgs|
  {
    if msgs != [] {
      DispatchKeepsHost(h, msgs[0]);
      TimeStepExactly(h, msgs[0]);
      ForwardRunsKeepTimes(Dispatch(h, msgs[0]), msgs[1..]);
    }
  }

  // ----- Where states are filed -----

  /** A good header at a height that is not stored yet: its state is stored under the new latest height. */
  lemma UpdateStores(h: Host, id: nat, header: Header)
    requires HostOk(h) && id in h.clients && h.clients[id].state.frozenHeight.None?
    requires VerifyHeader(h.clients[id].state, h.clients[id].cons, header) && header.height !in h.clients[id].cons
    requires Monotone(h.clients[id].cons) && Monotone(h.clients[id].cons[header.height := ConsensusOf(header)])
    ensures var r := h.clients[id];
      Dispatch(h, MsgUpdate(id, header)).clients
      == h.clients[id := Record(WithHeader(r.state, header),
                                r.cons[WithHeader(r.state, header).latestHeight := ConsensusOf(header)])]
    ensures Dispatch(h, MsgUpdate(id, header)).counter == h.counter
  {
    NeighbourCheckIsExact(h.clients[id].state, h.clients[id].cons, header);
  }

  /** A proof against the state is a proof about block `b`: the block has its root, and if the state is that of a
      block, it is that block's. */
  predicate Shows(blocks: ConsensusStates, state: ConsensusState, b: Height) {
    && b in blocks && blocks[b].root == state.root
    && ((exists c <- blocks :: blocks[c] == state) ==> blocks[b] == state)
  }

  /** If proofs against the state are about a block at all, that block has the given height and the state's time. */
  predicate Genuine(blocks: ConsensusStates, height: Height, state: ConsensusState) {
    forall b <- blocks :: Shows(blocks, state, b) ==> b == height && blocks[b].timestamp == state.timestamp
  }

  /** The client has no state under another height or time than that of the block it shows. */
  predicate FiledRight(cons: ConsensusStates, blocks: ConsensusStates) {
    forall f <- cons :: Genuine(blocks, f, cons[f])
  }

  /** A header of the chain keeps states under their own heights exactly when its height is stored or is above the
      latest. */
  lemma FilingExactly(r: Record, header: Header, blocks: ConsensusStates)
    requires RecordOk(r) && FiledRight(r.cons, blocks)
    requires header.height in blocks && blocks[header.height] == ConsensusOf(header)
    requires Genuine(blocks, header.height, ConsensusOf(header))
    ensures FiledRight(Updated(r.state, r.cons, header), blocks) <==>
      header.height in r.cons || Below(r.state.latestHeight, header.height)
  {
    var after, filed := Updated(r.state, r.cons, header), WithHeader(r.state, header).latestHeight;
    if header.height !in r.cons {
      assert filed in after && after[filed] == ConsensusOf(header);
      assert Shows(blocks, after[filed], header.height);
    }
  }

  /** The message installs a header below the latest height that is not stored: its state is filed wrong. */
  ghost predicate Late(h: Host, m: Msg, id: nat) {
    && Installs(h, m) && m.client == id && m.header.height !in h.clients[id].cons
    && !Below(h.clients[id].state.latestHeight, m.header.height)
  }

  /** The message does not file a state of client `id` wrong: what it stores is not another block's state, and no
      header that it installs is late. Messages that are rejected or freeze the client may carry anything. */
  ghost predicate OnTime(h: Host, m: Msg, id: nat, blocks: ConsensusStates) {
    && (m.MsgCreate? && Handle(h, m).Some? && h.counter == id ==> Genuine(blocks, m.state.latestHeight, m.cons))
    && (Installs(h, m) && m.client == id ==> Genuine(blocks, m.header.height, ConsensusOf(m.header)))
    && !Late(h, m, id)
  }

  /** No block has the stand-in root of an upgrade. */
  predicate NoSentinel(blocks: ConsensusStates) {
    forall b <- blocks :: blocks[b].root != SENTINEL_ROOT
  }

  predicate ClientFiledRight(h: Host, id: nat, blocks: ConsensusStates) {
    id in h.clients ==> FiledRight(h.clients[id].cons, blocks)
  }

  lemma OnTimeKeepsFiling(h: Host, m: Msg, id: nat, blocks: ConsensusStates)
    requires ClientFiledRight(h, id, blocks) && OnTime(h, m, id, blocks) && NoSentinel(blocks)
    ensures ClientFiledRight(Dispatch(h, m), id, blocks)
  {
  }

  ghost predicate AllOnTime(h: Host, msgs: seq<Msg>, id: nat, blocks: ConsensusStates)
    decreases |msgs|
  {
    msgs == [] || (OnTime(h, msgs[0], id, blocks) && AllOnTime(Dispatch(h, msgs[0]), msgs[1..], id, blocks))
  }

  /** In every run without late headers, whatever else happens to the client, all its states are under their own
      heights. */
  lemma {:induction false} OnTimeRunsFileRight(h: Host, msgs: seq<Msg>, id: nat, blocks: ConsensusStates)
    requires ClientFiledRight(h, id, blocks) && AllOnTime(h, msgs, id, blocks) && NoSentinel(blocks)
    ensures ClientFiledRight(Run(h, msgs), id, blocks)
    decreases |msgs|
  {
    if msgs != [] {
      OnTimeKeepsFiling(h, msgs[0], id, blocks);
      OnTimeRunsFileRight(Dispatch(h, msgs[0]), msgs[1..], id, blocks);
    }
  }

  /** No two blocks have the same state. */
  predicate Distinct(blocks: ConsensusStates) {
    forall a <- blocks, b <- blocks :: blocks[a] == blocks[b] ==> a == b
  }

  predicate IsBlock(blocks: ConsensusStates, height: Height, state: ConsensusState) {
    height in blocks && blocks[height] == state
  }

  /** What the message stores for client `id` is a block of the followed chain. */
  ghost predicate FromChain(h: Host, m: Msg, id: nat, blocks: ConsensusStates) {
    && (m.MsgCreate? && Handle(h, m).Some? && h.counter == id ==> IsBlock(blocks, m.state.latestHeight, m.cons))
    && (Installs(h, m) && m.client == id ==> IsBlock(blocks, m.header.height, ConsensusOf(m.header)))
  }

  ghost predicate AllFromChain(h: Host, msgs: seq<Msg>, id: nat, blocks: ConsensusStates)
    decreases |msgs|
  {
    msgs == [] || (FromChain(h, msgs[0], id, blocks) && AllFromChain(Dispatch(h, msgs[0]), msgs[1..], id, blocks))
  }

  ghost predicate NoneLate(h: Host, msgs: seq<Msg>, id: nat)
    decreases |msgs|
  {
    msgs == [] || (!Late(h, msgs[0], id) && NoneLate(Dispatch(h, msgs[0]), msgs[1..], id))
  }

  lemma InstallFilesExactly(h: Host, m: Msg, blocks: ConsensusStates)
    requires HostOk(h) && Installs(h, m) && Distinct(blocks) && IsBlock(blocks, m.header.height, ConsensusOf(m.header))
    ensures ClientFiledRight(Dispatch(h, m), m.client, blocks) <==>
      ClientFiledRight(h, m.client, blocks) && !Late(h, m, m.client)
  {
    var before, after := h.clients[m.client].cons, Dispatch(h, m).clients[m.client].cons;
    if m.header.height !in before {
      var filed := WithHeader(h.clients[m.client].state, m.header).latestHeight;
      assert after == before[filed := ConsensusOf(m.header)];
      assert Shows(blocks, after[filed], m.header.height);
      if Late(h, m, m.client) {
        assert !Genuine(blocks, filed, after[filed]);
      } else {
        assert filed !in before;
        assert forall f <- before :: f in after && after[f] == before[f];
      }
    }
  }

  lemma UpgradeFilesExactly(h: Host, m: Msg, id: nat, blocks: ConsensusStates)
    requires HostOk(h) && m.MsgUpgrade? && Handle(h, m).Some? && NoSentinel(blocks)
    ensures ClientFiledRight(Dispatch(h, m), id, blocks) <==> ClientFiledRight(h, id, blocks)
  {
    if id == m.client {
      var before, after := h.clients[id].cons, Dispatch(h, m).clients[id].cons;
      assert m.upgraded.latestHeight !in before;
      assert forall f <- before :: f in after && after[f] == before[f];
    }
  }

  lemma FilingStepExactly(h: Host, m: Msg, id: nat, blocks: ConsensusStates)
    requires HostOk(h) && Distinct(blocks) && NoSentinel(blocks) && FromChain(h, m, id, blocks)
    ensures ClientFiledRight(Dispatch(h, m), id, blocks) <==> ClientFiledRight(h, id, blocks) && !Late(h, m, id)
  {
    if Installs(h, m) && m.client == id {
      InstallFilesExactly(h, m, blocks);
    } else if m.MsgUpgrade? && Handle(h, m).Some? {
      UpgradeFilesExactly(h, m, id, blocks);
    }
  }

  /** After any run of headers of the followed chain, every state is under its own block's height if and only if it
      was before and no header that was installed came late: what is filed wrong once stays filed wrong. */
  lemma {:induction false} RunsFileRightExactly(h: Host, msgs: seq<Msg>, id: nat, blocks: ConsensusStates)
    requires HostOk(h) && Distinct(blocks) && NoSentinel(blocks) && AllFromChain(h, msgs, id, blocks)
    ensures ClientFiledRight(Run(h, msgs), id, blocks) <==> ClientFiledRight(h, id, blocks) && NoneLate(h, msgs, id)
    decreases |msgs|
  {
    if msgs != [] {
      FilingStepExactly(h, msgs[0], id, blocks);
      DispatchKeepsHost(h, msgs[0]);
      RunsFileRightExactly(Dispatch(h, msgs[0]), msgs[1..], id, blocks);
    }
  }

  // ----- Validators -----

  /** Every state of client `id` names the same next validators. */
  predicate OneValidatorSet(h: Host, id: nat, validators: string) {
    id in h.clients && forall f <- h.clients[id].cons :: h.clients[id].cons[f].nextValidators == validators
  }

  ghost predicate NeverUpgraded(h: Host, msgs: seq<Msg>, id: nat)
    decreases |msgs|
  {
    msgs == [] || (!(msgs[0].MsgUpgrade? && msgs[0].client == id && Handle(h, msgs[0]).Some?)
                   && NeverUpgraded(Dispatch(h, msgs[0]), msgs[1..], id))
  }

  lemma ValidatorsStay(h: Host, m: Msg, id: nat, validators: string)
    requires HostOk(h) && OneValidatorSet(h, id, validators)
    requires !(m.MsgUpgrade? && m.client == id && Handle(h, m).Some?)
    ensures OneValidatorSet(Dispatch(h, m), id, validators)
  {
  }

  /** A header must name the trusted next validators as its own, so a client that is not upgraded never follows a
      change of validators, whatever headers it is given. */
  lemma {:induction false} ValidatorsNeverChange(h: Host, msgs: seq<Msg>, id: nat, validators: string)
    requires HostOk(h) && OneValidatorSet(h, id, validators) && NeverUpgraded(h, msgs, id)
    ensures OneValidatorSet(Run(h, msgs), id, validators)
    decreases |msgs|
  {
    if msgs != [] {
      ValidatorsStay(h, msgs[0], id, validators);
      DispatchKeepsHost(h, msgs[0]);
      ValidatorsNeverChange(Dispatch(h, msgs[0]), msgs[1..], id, validators);
    }
  }

  // ----- A late header -----

  /** Block `n` of a chain with a block every ten seconds, and its header with trusted block `trusted`. */
  function StateAt(n: nat): ConsensusState {
    ConsensusState("root" + PrintNat(n), 10 * n, "validators")
  }

  function HeaderAt(n: nat, trusted: nat): Header {
    Header("chain", Height(0, n), 10 * n, "root" + PrintNat(n), "validators", "block" + PrintNat(n), "validators",
           "validators", Height(0, trusted), "validators", true)
  }

  /** An active client of that chain at block 5. */
  predicate FollowsChain(cs: ClientState) {
    Validate(cs) && cs.frozenHeight.None? && cs.chainName == "chain" && cs.latestHeight == Height(0, 5)
  }

  lemma CreateStep(h: Host, cs: ClientState, cons: ConsensusState)
    requires HostOk(h) && Validate(cs) && cs.frozenHeight.None? && cons.root != ""
    ensures Dispatch(h, MsgCreate(cs, cons)).clients == h.clients[h.counter := Record(cs, map[cs.latestHeight := cons])]
    ensures HostOk(Dispatch(h, MsgCreate(cs, cons)))
  {
    assert h.counter !in h.clients;
  }

  /** Client `id` of host `h` stands at block `latest`, active, with the states `cons`. */
  predicate Stands(h: Host, id: nat, latest: nat, cons: ConsensusStates) {
    && HostOk(h) && id in h.clients && h.clients[id].cons == cons
    && h.clients[id].state.latestHeight == Height(0, latest) && h.clients[id].state.revision == 0
    && h.clients[id].state.frozenHeight.None?
  }

  function Max(a: nat, b: nat): nat {
    if a < b then b else a
  }

  /** One update with the header of block `n`. */
  lemma HeaderStep(h: Host, id: nat, latest: nat, cons: ConsensusStates, n: nat, trusted: nat)
    requires Stands(h, id, latest, cons) && trusted < n && Height(0, n) !in cons
    requires Height(0, trusted) in cons && cons[Height(0, trusted)] == StateAt(trusted)
    requires Monotone(cons) && Monotone(cons[Height(0, n) := StateAt(n)])
    ensures Stands(Dispatch(h, MsgUpdate(id, HeaderAt(n, trusted))), id, Max(latest, n),
                   cons[Height(0, Max(latest, n)) := StateAt(n)])
  {
    UpdateStores(h, id, HeaderAt(n, trusted));
    DispatchKeepsHost(h, MsgUpdate(id, HeaderAt(n, trusted)));
  }

  lemma {:induction false} RunAppend(h: Host, msgs: seq<Msg>, m: Msg)
    ensures Run(h, msgs + [m]) == Dispatch(Run(h, msgs), m)
    decreases |msgs|
  {
    if msgs == [] {
      assert ([] + [m])[1..] == [];
    } else {
      assert (msgs + [m])[1..] == msgs[1..] + [m];
      RunAppend(Dispatch(h, msgs[0]), msgs[1..], m);
    }
  }

  /** A client created at block 5, updated to block 8 if so wanted, and then to block 10. */
  function Updates(h: Host, cs: ClientState, eight: bool): seq<Msg> {
    [MsgCreate(cs, StateAt(5))] + (if eight then [MsgUpdate(h.counter, HeaderAt(8, 5))] else []) +
    [MsgUpdate(h.counter, HeaderAt(10, 5))]
  }

  function Kept(eight: bool): ConsensusStates {
    if eight then map[Height(0, 5) := StateAt(5), Height(0, 8) := StateAt(8)] else map[Height(0, 5) := StateAt(5)]
  }

  lemma KeptIsMonotone(eight: bool, n: nat)
    requires n in {7, 8, 10}
    ensures Monotone(Kept(eight)) && Monotone(Kept(eight)[Height(0, n) := StateAt(n)])
    ensures Monotone(Kept(eight)[Height(0, 10) := StateAt(10)][Height(0, 7) := StateAt(7)])
  {
  }

  lemma CreatedAtFive(h: Host, cs: ClientState)
    requires HostOk(h) && FollowsChain(cs)
    ensures Stands(Run(h, [MsgCreate(cs, StateAt(5))]), h.counter, 5, Kept(false))
  {
    RunAppend(h, [], MsgCreate(cs, StateAt(5)));
    assert [] + [MsgCreate(cs, StateAt(5))] == [MsgCreate(cs, StateAt(5))];
    CreateStep(h, cs, StateAt(5));
  }

  lemma UpdatedToEight(h: Host, cs: ClientState)
    requires HostOk(h) && FollowsChain(cs)
    ensures Stands(Run(h, [MsgCreate(cs, StateAt(5))] + [MsgUpdate(h.counter, HeaderAt(8, 5))]), h.counter, 8,
                   Kept(true))
  {
    CreatedAtFive(h, cs);
    RunAppend(h, [MsgCreate(cs, StateAt(5))], MsgUpdate(h.counter, HeaderAt(8, 5)));
    KeptIsMonotone(false, 8);
    HeaderStep(Run(h, [MsgCreate(cs, StateAt(5))]), h.counter, 5, Kept(false), 8, 5);
    assert Kept(false)[Height(0, 8) := StateAt(8)] == Kept(true);
  }

  lemma UpdatesRun(h: Host, cs: ClientState, eight: bool)
    requires HostOk(h) && FollowsChain(cs)
    ensures Stands(Run(h, Updates(h, cs, eight)), h.counter, 10, Kept(eight)[Height(0, 10) := StateAt(10)])
  {
    var id := h.counter;
    var early := [MsgCreate(cs, StateAt(5))] + if eight then [MsgUpdate(id, HeaderAt(8, 5))] else [];
    if eight {
      UpdatedToEight(h, cs);
    } else {
      CreatedAtFive(h, cs);
      assert early == [MsgCreate(cs, StateAt(5))];
    }
    KeptIsMonotone(eight, 10);
    HeaderStep(Run(h, early), id, if eight then 8 else 5, Kept(eight), 10, 5);
    RunAppend(h, early, MsgUpdate(id, HeaderAt(10, 5)));
  }

  /** Then the late header of block 7 takes the place of block 10. */
  lemma LateHeaderIsMisfiled(h: Host, cs: ClientState, eight: bool)
    requires HostOk(h) && FollowsChain(cs)
    ensures Stands(Run(h, Updates(h, cs, eight) + [MsgUpdate(h.counter, HeaderAt(7, 5))]), h.counter, 10,
                   Kept(eight)[Height(0, 10) := StateAt(7)])
  {
    UpdatesRun(h, cs, eight);
    SevenTakesTen(Run(h, Updates(h, cs, eight)), h.counter, eight);
    RunAppend(h, Updates(h, cs, eight), MsgUpdate(h.counter, HeaderAt(7, 5)));
  }

  lemma SevenTakesTen(h: Host, id: nat, eight: bool)
    requires Stands(h, id, 10, Kept(eight)[Height(0, 10) := StateAt(10)])
    ensures Stands(Dispatch(h, MsgUpdate(id, HeaderAt(7, 5))), id, 10, Kept(eight)[Height(0, 10) := StateAt(7)])
  {
    var cons := Kept(eight)[Height(0, 10) := StateAt(10)];
    KeptIsMonotone(eight, 10);
    HeaderStep(h, id, 10, cons, 7, 5);
    assert cons[Height(0, 10) := StateAt(7)] == Kept(eight)[Height(0, 10) := StateAt(7)];
  }

  /** A late header of the very same chain, verified and not misbehaving, can break the order of time: a client
      created at block 5 and updated to 8, 10 and then 7 is not frozen, has block 7's state under height 10, and so a
      state at 8 that is later than the one at 10. */
  lemma LateHeaderBreaksTime(h: Host, cs: ClientState)
    requires HostOk(h) && FollowsChain(cs)
    ensures var before := Run(h, Updates(h, cs, true));
      var after := Run(h, Updates(h, cs, true) + [MsgUpdate(h.counter, HeaderAt(7, 5))]);
      && h.counter in before.clients && Monotone(before.clients[h.counter].cons)
      && h.counter in after.clients && after.clients[h.counter].state.frozenHeight.None?
      && after.clients[h.counter].cons
         == map[Height(0, 5) := StateAt(5), Height(0, 8) := StateAt(8), Height(0, 10) := StateAt(7)]
      && !Monotone(after.clients[h.counter].cons)
  {
    UpdatesRun(h, cs, true);
    KeptIsMonotone(true, 10);
    LateHeaderIsMisfiled(h, cs, true);
    var after := Kept(true)[Height(0, 10) := StateAt(7)];
    assert Height(0, 8) in after && Height(0, 10) in after && after[Height(0, 10)].timestamp < after[Height(0, 8)].timestamp;
  }

  // ----- The connection delay -----

  function AddBlocks(h: Height, blocks: nat): Height {
    h.(number := h.number + blocks)
  }

  /** Enough time and enough blocks have passed since the client learned of the proof height. */
  predicate DelayPassed(h: Host, u: Update, delay: nat, blocks: nat) {
    && u in h.processed
    && h.processed[u].time + delay <= h.time
    && AtMost(AddBlocks(h.processed[u].height, blocks), h.height)
  }

  /** The message stamps this very height of this very client again. */
  ghost predicate Restamps(h: Host, m: Msg, u: Update) {
    m.MsgUpdate? && m.client == u.client && m.header.height == u.height && Handle(h, m).Some?
    && !Misbehaves(h.clients[u.client].state, h.clients[u.client].cons, m.header)
  }

  /** No stamp lies in the future, and only created clients have stamps. */
  predicate StampsOk(h: Host) {
    forall u <- h.processed ::
      u.client < h.counter && h.processed[u].time <= h.time && AtMost(h.processed[u].height, h.height)
  }

  lemma StampsStayOk(h: Host, m: Msg)
    requires HostOk(h) && StampsOk(h)
    ensures StampsOk(Dispatch(h, m))
  {
  }

  /** A delay that has passed stays passed under every message but a new update for that height; and such an
      update starts the delay again, so that afterwards it has passed exactly if there is nothing to wait for. */
  lemma DelayStepExactly(h: Host, m: Msg, u: Update, delay: nat, blocks: nat)
    requires StampsOk(h) && DelayPassed(h, u, delay, blocks)
    ensures DelayPassed(Dispatch(h, m), u, delay, blocks) <==> !Restamps(h, m, u) || (delay == 0 && blocks == 0)
  {
  }

  /** The consensus state of the update's client at its height. */
  function StateOf(h: Host, u: Update): Option<ConsensusState> {
    if u.client in h.clients && u.height in h.clients[u.client].cons then Some(h.clients[u.client].cons[u.height]) else None
  }

  /** A stored state is replaced exactly by the installation of a late header with another state, and then it is the
      one at the latest height. */
  lemma ReplacedExactly(h: Host, m: Msg, u: Update)
    requires HostOk(h) && StateOf(h, u).Some?
    ensures StateOf(Dispatch(h, m), u) != StateOf(h, u) <==>
      && Late(h, m, u.client) && u.height == h.clients[u.client].state.latestHeight
      && Some(ConsensusOf(m.header)) != StateOf(h, u)
  {
  }

  /** A replaced state does not start its delay again: the late header is stamped at its own, lower height. */
  lemma ReplacedStateKeepsItsDelay(h: Host, m: Msg, u: Update, delay: nat, blocks: nat)
    requires HostOk(h) && StampsOk(h) && DelayPassed(h, u, delay, blocks)
    requires StateOf(h, u).Some? && StateOf(Dispatch(h, m), u) != StateOf(h, u)
    ensures DelayPassed(Dispatch(h, m), u, delay, blocks)
    ensures Late(h, m, u.client) && Below(m.header.height, u.height)
  {
    ReplacedExactly(h, m, u);
    DelayStepExactly(h, m, u, delay, blocks);
  }

  lemma UpdateStamps(h: Host, id: nat, latest: nat, cons: ConsensusStates, n: nat, trusted: nat)
    requires Stands(h, id, latest, cons) && trusted < n && Height(0, n) !in cons
    requires Height(0, trusted) in cons && cons[Height(0, trusted)] == StateAt(trusted)
    requires Monotone(cons) && Monotone(cons[Height(0, n) := StateAt(n)])
    ensures var v := Dispatch(h, MsgUpdate(id, HeaderAt(n, trusted)));
      && v.time == h.time && v.height == h.height
      && v.processed == h.processed[Update(id, Height(0, n)) := Stamp(h.time, h.height)]
  {
    NeighbourCheckIsExact(h.clients[id].state, h.clients[id].cons, HeaderAt(n, trusted));
  }

  /** The blocks and the time that the delay asks for. */
  function Wait(h: Host, delay: nat, blocks: nat): Msg {
    NewBlock(h.time + delay, AddBlocks(h.height, blocks))
  }

  /** Create at block 5, update to block 10, and wait for the delay. */
  function Patience(h: Host, cs: ClientState, delay: nat, blocks: nat): seq<Msg> {
    Updates(h, cs, false) + [Wait(h, delay, blocks)]
  }

  /** After the update to block 10, its stamp is the host's time and height. */
  lemma TenIsStamped(h: Host, cs: ClientState)
    requires HostOk(h) && FollowsChain(cs)
    ensures var v, u := Run(h, Updates(h, cs, false)), Update(h.counter, Height(0, 10));
      v.time == h.time && v.height == h.height && u in v.processed && v.processed[u] == Stamp(h.time, h.height)
  {
    var id, create := h.counter, MsgCreate(cs, StateAt(5));
    var h1 := Dispatch(h, create);
    RunAppend(h, [], create);
    assert [] + [create] == [create] && [create] + [] == [create];
    RunAppend(h, [create], MsgUpdate(id, HeaderAt(10, 5)));
    CreateStep(h, cs, StateAt(5));
    assert Stands(h1, id, 5, Kept(false)) && h1.time == h.time && h1.height == h.height;
    KeptIsMonotone(false, 10);
    UpdateStamps(h1, id, 5, Kept(false), 10, 5);
  }

  lemma WaitStep(h: Host, start: Host, u: Update, delay: nat, blocks: nat)
    requires h.time == start.time && h.height == start.height
    requires u in h.processed && h.processed[u] == Stamp(h.time, h.height)
    ensures var v := Dispatch(h, Wait(start, delay, blocks));
      v.clients == h.clients && v.counter == h.counter && DelayPassed(v, u, delay, blocks)
  {
  }

  lemma PatienceRun(h: Host, cs: ClientState, delay: nat, blocks: nat)
    requires HostOk(h) && FollowsChain(cs)
    ensures var v := Run(h, Patience(h, cs, delay, blocks));
      && Stands(v, h.counter, 10, Kept(false)[Height(0, 10) := StateAt(10)])
      && DelayPassed(v, Update(h.counter, Height(0, 10)), delay, blocks)
  {
    UpdatesRun(h, cs, false);
    TenIsStamped(h, cs);
    WaitStep(Run(h, Updates(h, cs, false)), h, Update(h.counter, Height(0, 10)), delay, blocks);
    RunAppend(h, Updates(h, cs, false), Wait(h, delay, blocks));
  }

  /** For any delay: once it has passed for block 10, the late header of block 7 replaces the state at height 10, and
      the delay counts as passed for it at once. */
  lemma LateHeaderSkipsDelay(h: Host, cs: ClientState, delay: nat, blocks: nat)
    requires HostOk(h) && FollowsChain(cs)
    ensures var u, before := Update(h.counter, Height(0, 10)), Run(h, Patience(h, cs, delay, blocks));
      var after := Run(h, Patience(h, cs, delay, blocks) + [MsgUpdate(h.counter, HeaderAt(7, 5))]);
      && StateOf(before, u) == Some(StateAt(10)) && DelayPassed(before, u, delay, blocks)
      && StateOf(after, u) == Some(StateAt(7)) && DelayPassed(after, u, delay, blocks)
  {
    var before, id, cons := Run(h, Patience(h, cs, delay, blocks)), h.counter, Kept(false)[Height(0, 10) := StateAt(10)];
    PatienceRun(h, cs, delay, blocks);
    KeptIsMonotone(false, 10);
    UpdateStamps(before, id, 10, cons, 7, 5);
    HeaderStep(before, id, 10, cons, 7, 5);
    RunAppend(h, Patience(h, cs, delay, blocks), MsgUpdate(id, HeaderAt(7, 5)));
  }

  ghost predicate NeverRestamped(h: Host, msgs: seq<Msg>, u: Update)
    decreases |msgs|
  {
    msgs == [] || (!Restamps(h, msgs[0], u) && NeverRestamped(Dispatch(h, msgs[0]), msgs[1..], u))
  }

  lemma {:induction false} DelayStaysPassed(h: Host, msgs: seq<Msg>, u: Update, delay: nat, blocks: nat)
    requires HostOk(h) && StampsOk(h) && DelayPassed(h, u, delay, blocks) && NeverRestamped(h, msgs, u)
    ensures DelayPassed(Run(h, msgs), u, delay, blocks)
    decreases |msgs|
  {
    if msgs != [] {
      DispatchKeepsHost(h, msgs[0]);
      StampsStayOk(h, msgs[0]);
      DelayStepExactly(h, msgs[0], u, delay, blocks);
      DelayStaysPassed(Dispatch(h, msgs[0]), msgs[1..], u, delay, blocks);
    }
  }
}
