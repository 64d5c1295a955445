/** What it takes to change a Tendermint client, told in the fields of headers and states; and over whole runs, where
    every stored state, every freeze and every change of the followed chain comes from. */
module ClientSafety {
  import opened Basics
  import opened TendermintClient
  import opened ClientRuns
  import opened Text

  predicate Active(h: Host, id: nat) {
    id in h.clients && h.clients[id].state.frozenHeight.None?
  }

  // ----- Single messages -----

  /** The header is well made for its trusted height, and the client has that height with the same next validators. */
  predicate Anchored(r: Record, header: Header) {
    && header.trustedHeight.revision == header.height.revision
    && header.trustedHeight.number < header.height.number
    && header.validators == header.validatorsHash
    && header.trustedHeight in r.cons
    && header.nextValidators == header.trustedNextValidators == r.cons[header.trustedHeight].nextValidators
  }

  /** An update is accepted exactly for an active client, with a signed header of the client's revision that is anchored
      in a stored state. */
  lemma UpdateAcceptedExactly(h: Host, id: nat, header: Header)
    ensures Handle(h, MsgUpdate(id, header)).Some? <==>
      && Active(h, id) && header.signed && header.height.revision == h.clients[id].state.revision
      && Anchored(h.clients[id], header)
  {
  }

  /** The header is signed and anchored in a stored state that is still within the trusting period. */
  predicate Trusted(h: Host, r: Record, header: Header) {
    && header.signed && Anchored(r, header)
    && var since := h.time - r.cons[header.trustedHeight].timestamp;
    && 0 <= since < r.state.trustingPeriod
  }

  /** One honest chain could have both headers. */
  ghost predicate Compatible(header1: Header, header2: Header) {
    exists chain :: HonestChain(chain) && Contains(chain, header1) && Contains(chain, header2)
  }

  /** A report of two headers that one honest chain has changes nothing. */
  lemma HonestReportChangesNothing(h: Host, id: nat, header1: Header, header2: Header)
    requires Compatible(header1, header2)
    ensures Dispatch(h, MsgMisbehaviour(id, header1, header2)) == h
  {
  }

  /** A report is accepted exactly for an active client, with two trusted headers of one chain, the higher first, that
      no honest chain has; and then the client is frozen and nothing else changes. */
  lemma ReportAcceptedExactly(h: Host, id: nat, header1: Header, header2: Header)
    requires header1.blockHash == header2.blockHash ==> header1.time == header2.time
    ensures Handle(h, MsgMisbehaviour(id, header1, header2)).Some? <==>
      && Active(h, id) && Trusted(h, h.clients[id], header1) && Trusted(h, h.clients[id], header2)
      && header1.chainName == header2.chainName && header1.height.revision == header2.height.revision
      && header2.height.number <= header1.height.number
      && !Compatible(header1, header2)
    ensures Handle(h, MsgMisbehaviour(id, header1, header2)).Some? ==>
      var r := h.clients[id];
      Dispatch(h, MsgMisbehaviour(id, header1, header2))
      == h.(clients := h.clients[id := r.(state := r.state.(frozenHeight := Some(Height(0, 1))))])
  {
    if AtMost(header2.height, header1.height) {
      EvidenceIsExact(header1, header2);
    }
  }

  /** The part of a client state that the followed chain decides. */
  datatype ChainPart = ChainPart(chainName: string, revision: nat, unbondingPeriod: nat, proofSpecs: seq<string>,
                                 upgradePath: seq<string>)

  function ChainPartOf(cs: ClientState): ChainPart {
    ChainPart(cs.chainName, cs.revision, cs.unbondingPeriod, cs.proofSpecs, cs.upgradePath)
  }

  /** The upgraded state is in order for the followed chain, and next to the client's own trusting period. */
  predicate FitsAfter(cs: ClientState, upgraded: ClientState) {
    && upgraded.frozenHeight.None? && Below(cs.latestHeight, upgraded.latestHeight)
    && 1 <= ByteLength(upgraded.chainName) <= 29 && upgraded.latestHeight.revision == upgraded.revision
    && cs.trustingPeriod < upgraded.unbondingPeriod
    && upgraded.proofSpecs != [] && forall key <- upgraded.upgradePath :: !IsBlank(key)
  }

  /** The latest state is not in the future and still within the trusting period. */
  predicate Fresh(h: Host, r: Record) {
    && r.state.latestHeight in r.cons
    && r.cons[r.state.latestHeight].timestamp <= h.time
    && h.time <= r.cons[r.state.latestHeight].timestamp + r.state.trustingPeriod
  }

  /** An upgrade is accepted exactly for an active and fresh client, with a state that fits, if it is proven. */
  lemma UpgradeAcceptedExactly(h: Host, id: nat, upgraded: ClientState, cons: ConsensusState, proven: bool)
    requires HostOk(h)
    ensures Handle(h, MsgUpgrade(id, upgraded, cons, proven)).Some? <==>
      && proven && Active(h, id) && Fresh(h, h.clients[id]) && |h.clients[id].state.upgradePath| >= 2
      && FitsAfter(h.clients[id].state, upgraded)
  {
    assert id in h.clients ==> RecordOk(h.clients[id]);
  }

  /** After an upgrade the client follows the upgraded chain at the upgraded height, with the upgraded time and next
      validators under a root that proves nothing; what the client itself chose stays. */
  lemma UpgradeTakesOver(h: Host, id: nat, upgraded: ClientState, cons: ConsensusState, proven: bool)
    requires Handle(h, MsgUpgrade(id, upgraded, cons, proven)).Some?
    ensures var k := Dispatch(h, MsgUpgrade(id, upgraded, cons, proven));
      && k.clients.Keys == h.clients.Keys
      && var r, s := h.clients[id], k.clients[id];
      && ChainPartOf(s.state) == ChainPartOf(upgraded) && s.state.latestHeight == upgraded.latestHeight
      && s.state.frozenHeight.None?
      && s.state.trustLevel == r.state.trustLevel && s.state.trustingPeriod == r.state.trustingPeriod
      && s.state.maxClockDrift == r.state.maxClockDrift && s.state.allowUpdate == r.state.allowUpdate
      && s.cons == r.cons[upgraded.latestHeight :=
                            ConsensusState("sentinel_root", cons.timestamp, cons.nextValidators)]
  {
  }

  /** Client parameters in order: a chain name of 1 to 29 bytes, a trust level between one third and one, a trusting
      period within the unbonding period, some clock drift, a height of the chain's own revision, proof specifications,
      and no blank key in the upgrade path. */
  predicate Sane(cs: ClientState) {
    && 1 <= ByteLength(cs.chainName) <= 29
    && 0 < cs.trustLevel.denominator && cs.trustLevel.numerator <= cs.trustLevel.denominator
    && cs.trustLevel.denominator <= 3 * cs.trustLevel.numerator
    && 0 < cs.trustingPeriod && cs.trustingPeriod < cs.unbondingPeriod
    && 0 < cs.maxClockDrift
    && cs.latestHeight.revision == cs.revision
    && |cs.proofSpecs| > 0
    && forall i: nat :: i < |cs.upgradePath| ==> !IsBlank(cs.upgradePath[i])
  }

  /** A client is created exactly from sane parameters that are not frozen, with a root; it takes the next identifier. */
  lemma CreateAcceptedExactly(h: Host, cs: ClientState, cons: ConsensusState)
    requires HostOk(h)
    ensures Handle(h, MsgCreate(cs, cons)).Some? <==> cs.frozenHeight.None? && Sane(cs) && cons.root != ""
    ensures Handle(h, MsgCreate(cs, cons)).Some? ==>
      var k := Dispatch(h, MsgCreate(cs, cons));
      && k.counter == h.counter + 1 && h.counter !in h.clients
      && k.clients == h.clients[h.counter := Record(cs, map[cs.latestHeight := cons])]
  {
  }

  function StampAt(h: Host, u: Update): Option<Stamp> {
    if u in h.processed then Some(h.processed[u]) else None
  }

  /** The message stores the first state of a new client, or passes the check of an update, at this very height. */
  ghost predicate Processes(h: Host, m: Msg, u: Update) {
    && Handle(h, m).Some?
    && ((m.MsgCreate? && u == Update(h.counter, m.state.latestHeight))
        || (Installs(h, m) && u == Update(m.client, m.header.height)))
  }

  /** A height is stamped exactly when it is processed, with the host's own time and height, and time alone passes by no
      message but a new block. */
  lemma StampedExactly(h: Host, m: Msg, u: Update)
    ensures StampAt(Dispatch(h, m), u) == if Processes(h, m, u) then Some(Stamp(h.time, h.height)) else StampAt(h, u)
    ensures !m.NewBlock? ==> Dispatch(h, m).time == h.time && Dispatch(h, m).height == h.height
    ensures m.NewBlock? ==>
      if h.time <= m.time && AtMost(h.height, m.height) then Dispatch(h, m) == h.(time := m.time, height := m.height)
      else Dispatch(h, m) == h
  {
  }

  // ----- Whole runs -----

  /** The state that message `i` of the run meets. */
  ghost function Met(h: Host, msgs: seq<Msg>, i: nat): Host
    requires i < |msgs|
  {
    Run(h, msgs[..i])
  }

  lemma MetLater(h: Host, msgs: seq<Msg>, i: nat)
    requires i + 1 < |msgs|
    ensures Met(Dispatch(h, msgs[0]), msgs[1..], i) == Met(h, msgs, i + 1)
  {
    assert msgs[..i + 1][1..] == msgs[1..][..i] && msgs[..i + 1][0] == msgs[0];
  }

  /** The message is an upgrade of the client that is proven and meets it fresh. */
  ghost predicate ProvenUpgrade(h: Host, m: Msg, id: nat) {
    m.MsgUpgrade? && m.client == id && m.proven && Active(h, id) && Fresh(h, h.clients[id])
  }

  /** The message is a report about the client of two trusted headers that no honest chain has. */
  ghost predicate TrueReport(h: Host, m: Msg, id: nat) {
    && m.MsgMisbehaviour? && m.client == id && Active(h, id)
    && Trusted(h, h.clients[id], m.header1) && Trusted(h, h.clients[id], m.header2)
    && !Compatible(m.header1, m.header2)
  }

  /** The message is an update of the client by a signed header anchored in a stored state. */
  ghost predicate SignedUpdate(h: Host, m: Msg, id: nat) {
    && m.MsgUpdate? && m.client == id && Active(h, id) && m.header.signed
    && m.header.height.revision == h.clients[id].state.revision && Anchored(h.clients[id], m.header)
  }

  /** What can change a client: an accepted signed update, true report or proven upgrade. */
  ghost predicate Changes(h: Host, m: Msg, id: nat) {
    Handle(h, m).Some? && (SignedUpdate(h, m, id) || TrueReport(h, m, id) || ProvenUpgrade(h, m, id))
  }

  lemma StepChanges(h: Host, m: Msg, id: nat)
    requires id in h.clients
    ensures id in Dispatch(h, m).clients
    ensures Dispatch(h, m).clients[id] != h.clients[id] ==> Changes(h, m, id)
  {
    if m.MsgMisbehaviour? && Compatible(m.header1, m.header2) {
      HonestReportChangesNothing(h, m.client, m.header1, m.header2);
    }
  }

  /** In every run, a client that changed was sent an accepted signed update, true report or proven upgrade. */
  lemma {:induction false} ChangeHasCause(h: Host, msgs: seq<Msg>, id: nat)
    requires id in h.clients
    ensures id in Run(h, msgs).clients
    ensures Run(h, msgs).clients[id] != h.clients[id] ==>
      exists i: nat :: i < |msgs| && Changes(Met(h, msgs, i), msgs[i], id)
    decreases |msgs|
  {
    if msgs != [] {
      var k := Dispatch(h, msgs[0]);
      StepChanges(h, msgs[0], id);
      ChangeHasCause(k, msgs[1..], id);
      if k.clients[id] != h.clients[id] {
        assert Met(h, msgs, 0) == h;
      } else if Run(h, msgs).clients[id] != h.clients[id] {
        var i: nat :| i < |msgs[1..]| && Changes(Met(k, msgs[1..], i), msgs[1..][i], id);
        MetLater(h, msgs, i);
        assert Changes(Met(h, msgs, i + 1), msgs[i + 1], id);
      }
    }
  }

  /** Without signatures and proofs nobody can change a client: if no update for it is signed, and every report and
      upgrade for it is rejected or lacks a signature or its proof, then after any run it is what it was. */
  lemma UnsignedChangesNothing(h: Host, msgs: seq<Msg>, id: nat)
    requires id in h.clients
    requires forall i: nat :: i < |msgs| && msgs[i].MsgUpdate? && msgs[i].client == id ==> !msgs[i].header.signed
    requires forall i: nat :: i < |msgs| && msgs[i].MsgMisbehaviour? && msgs[i].client == id ==>
      Handle(Met(h, msgs, i), msgs[i]).None? || !msgs[i].header1.signed || !msgs[i].header2.signed
    requires forall i: nat :: i < |msgs| && msgs[i].MsgUpgrade? && msgs[i].client == id ==>
      Handle(Met(h, msgs, i), msgs[i]).None? || !msgs[i].proven
    ensures id in Run(h, msgs).clients && Run(h, msgs).clients[id] == h.clients[id]
  {
    ChangeHasCause(h, msgs, id);
  }

  // ----- Where states come from -----

  /** The message stores this state of the client at this height: the first state of a new client; a proven upgrade's
      time and next validators; or that of a signed header, at the header's own height or else the latest. */
  ghost predicate Stores(h: Host, m: Msg, id: nat, height: Height, state: ConsensusState) {
    || (&& m.MsgCreate? && h.counter == id && id !in h.clients && Validate(m.state) && m.state.frozenHeight.None?
        && height == m.state.latestHeight && state == m.cons && state.root != "")
    || (&& ProvenUpgrade(h, m, id) && height == m.upgraded.latestHeight
        && state == ConsensusState("sentinel_root", m.upgradedCons.timestamp, m.upgradedCons.nextValidators))
    || (&& SignedUpdate(h, m, id)
        && state == ConsensusState(m.header.root, m.header.time, m.header.nextValidators)
        && (height == m.header.height
            || (height == h.clients[id].state.latestHeight && Below(m.header.height, height))))
  }

  ghost predicate HasState(h: Host, id: nat, height: Height, state: ConsensusState) {
    id in h.clients && height in h.clients[id].cons && h.clients[id].cons[height] == state
  }

  lemma StepStores(h: Host, m: Msg, id: nat, height: Height, state: ConsensusState)
    requires !HasState(h, id, height, state) && HasState(Dispatch(h, m), id, height, state)
    ensures Stores(h, m, id, height, state)
  {
  }

  /** In every run, each stored state was there at the start or was stored by one of the messages, in one of the three
      ways. */
  lemma {:induction false} StateHasSource(h: Host, msgs: seq<Msg>, id: nat, height: Height, state: ConsensusState)
    requires HasState(Run(h, msgs), id, height, state)
    ensures HasState(h, id, height, state) ||
      exists i: nat :: i < |msgs| && Stores(Met(h, msgs, i), msgs[i], id, height, state)
    decreases |msgs|
  {
    if msgs != [] {
      var k := Dispatch(h, msgs[0]);
      StateHasSource(k, msgs[1..], id, height, state);
      if HasState(k, id, height, state) {
        if !HasState(h, id, height, state) {
          StepStores(h, msgs[0], id, height, state);
          assert Met(h, msgs, 0) == h;
        }
      } else {
        var i: nat :| i < |msgs[1..]| && Stores(Met(k, msgs[1..], i), msgs[1..][i], id, height, state);
        MetLater(h, msgs, i);
        assert Stores(Met(h, msgs, i + 1), msgs[i + 1], id, height, state);
      }
    }
  }

  /** In every run that starts in order, every client is sane, has its latest height, and has none above it. */
  lemma ClientsStaySane(h: Host, msgs: seq<Msg>, id: nat)
    requires HostOk(h) && id in Run(h, msgs).clients
    ensures var r := Run(h, msgs).clients[id];
      && Sane(r.state) && r.state.latestHeight in r.cons
      && forall f <- r.cons :: f == r.state.latestHeight || Below(f, r.state.latestHeight)
  {
    RunKeepsHost(h, msgs);
    assert RecordOk(Run(h, msgs).clients[id]);
  }

  // ----- What chain is followed -----

  ghost predicate FollowsPart(h: Host, id: nat, part: ChainPart) {
    id in h.clients && ChainPartOf(h.clients[id].state) == part
  }

  /** The message makes the client follow this chain: by creating it, or by a proven upgrade. */
  ghost predicate Redirects(h: Host, m: Msg, id: nat, part: ChainPart) {
    || (m.MsgCreate? && h.counter == id && id !in h.clients && part == ChainPartOf(m.state))
    || (ProvenUpgrade(h, m, id) && Handle(h, m).Some? && part == ChainPartOf(m.upgraded))
  }

  lemma StepRedirects(h: Host, m: Msg, id: nat, part: ChainPart)
    requires !FollowsPart(h, id, part) && FollowsPart(Dispatch(h, m), id, part)
    ensures Redirects(h, m, id, part)
  {
  }

  /** In every run, the chain name, revision, unbonding period, proof specifications and upgrade path of a client are
      those that it started with, was created with, or took over by an accepted and proven upgrade. */
  lemma {:induction false} FollowedChainHasSource(h: Host, msgs: seq<Msg>, id: nat, part: ChainPart)
    requires FollowsPart(Run(h, msgs), id, part)
    ensures FollowsPart(h, id, part) ||
      exists i: nat :: i < |msgs| && Redirects(Met(h, msgs, i), msgs[i], id, part)
    decreases |msgs|
  {
    if msgs != [] {
      var k := Dispatch(h, msgs[0]);
      FollowedChainHasSource(k, msgs[1..], id, part);
      if FollowsPart(k, id, part) {
        if !FollowsPart(h, id, part) {
          StepRedirects(h, msgs[0], id, part);
          assert Met(h, msgs, 0) == h;
        }
      } else {
        var i: nat :| i < |msgs[1..]| && Redirects(Met(k, msgs[1..], i), msgs[1..][i], id, part);
        MetLater(h, msgs, i);
        assert Redirects(Met(h, msgs, i + 1), msgs[i + 1], id, part);
      }
    }
  }

  /** Without an accepted upgrade that is proven and meets the client fresh, a client never follows another chain,
      whatever headers and reports it is sent. */
  lemma {:induction false} NeverRedirected(h: Host, msgs: seq<Msg>, id: nat)
    requires id in h.clients
    requires forall i: nat :: i < |msgs| ==> !(ProvenUpgrade(Met(h, msgs, i), msgs[i], id)
                                               && Handle(Met(h, msgs, i), msgs[i]).Some?)
    ensures FollowsPart(Run(h, msgs), id, ChainPartOf(h.clients[id].state))
  {
    ChangeHasCause(h, msgs, id);
    StaysOnce(h, msgs, id);
    FollowedChainHasSource(h, msgs, id, ChainPartOf(Run(h, msgs).clients[id].state));
  }

  /** A client that exists is never created again. */
  lemma {:induction false} StaysOnce(h: Host, msgs: seq<Msg>, id: nat)
    requires id in h.clients
    ensures forall i: nat :: i < |msgs| ==> id in Met(h, msgs, i).clients
  {
    forall i: nat | i < |msgs| ensures id in Met(h, msgs, i).clients {
      ChangeHasCause(h, msgs[..i], id);
    }
  }

  // ----- Freezing -----

  /** The header does not fit what is stored: another state at its height, or an earlier state that is not earlier in
      time, or a later one that is not later. */
  ghost predicate Clashes(cons: ConsensusStates, header: Header) {
    || (header.height in cons && cons[header.height] != ConsensusState(header.root, header.time, header.nextValidators))
    || (exists q <- cons :: Below(q, header.height) && header.time <= cons[q].timestamp)
    || (exists q <- cons :: Below(header.height, q) && cons[q].timestamp <= header.time)
  }

  /** While time is in order, a signed header freezes the client exactly when it clashes with one of its states. */
  lemma ClashFreezesExactly(h: Host, m: Msg, id: nat)
    requires HostOk(h) && SignedUpdate(h, m, id) && Monotone(h.clients[id].cons)
    ensures !Active(Dispatch(h, m), id) <==> Clashes(h.clients[id].cons, m.header)
  {
    var cons := h.clients[id].cons;
    var after := cons[m.header.height := ConsensusOf(m.header)];
    NeighbourCheckIsExact(h.clients[id].state, cons, m.header);
    if Monotone(after) {
      assert m.header.height in after;
      assert forall q <- cons :: q in after;
    }
  }

  ghost predicate Freezes(h: Host, m: Msg, id: nat) {
    TrueReport(h, m, id) || (SignedUpdate(h, m, id) && Clashes(h.clients[id].cons, m.header))
  }

  lemma StepFreezes(h: Host, m: Msg, id: nat)
    requires Active(h, id) && !Active(Dispatch(h, m), id)
    ensures Freezes(h, m, id)
  {
    StepChanges(h, m, id);
  }

  /** In every run, a client that was frozen was sent a true report, or a signed header that clashes with its states. */
  lemma {:induction false} FreezeHasCause(h: Host, msgs: seq<Msg>, id: nat)
    requires Active(h, id) && !Active(Run(h, msgs), id)
    ensures exists i: nat :: i < |msgs| && Freezes(Met(h, msgs, i), msgs[i], id)
    decreases |msgs|
  {
    var k := Dispatch(h, msgs[0]);
    if !Active(k, id) {
      StepFreezes(h, msgs[0], id);
      assert Met(h, msgs, 0) == h;
    } else {
      FreezeHasCause(k, msgs[1..], id);
      var i: nat :| i < |msgs[1..]| && Freezes(Met(k, msgs[1..], i), msgs[1..][i], id);
      MetLater(h, msgs, i);
      assert Freezes(Met(h, msgs, i + 1), msgs[i + 1], id);
    }
  }

  /** Every signed header in the message that is about the client is a block of the chain. */
  predicate OfChain(m: Msg, id: nat, chain: map<Height, Block>) {
    && (m.MsgUpdate? && m.client == id && m.header.signed ==> Contains(chain, m.header))
    && (m.MsgMisbehaviour? && m.client == id && m.header1.signed ==> Contains(chain, m.header1))
    && (m.MsgMisbehaviour? && m.client == id && m.header2.signed ==> Contains(chain, m.header2))
  }

  /** A client whose signed headers are all blocks of one honest chain is never frozen by a report: no report about it
      changes anything, and if it was frozen, an update was to blame. */
  lemma HonestClientSurvivesReports(h: Host, msgs: seq<Msg>, id: nat, chain: map<Height, Block>)
    requires HonestChain(chain) && forall m <- msgs :: OfChain(m, id, chain)
    ensures forall i: nat :: i < |msgs| && msgs[i].MsgMisbehaviour? && msgs[i].client == id ==>
      Dispatch(Met(h, msgs, i), msgs[i]) == Met(h, msgs, i)
    ensures Active(h, id) && !Active(Run(h, msgs), id) ==>
      exists i: nat :: i < |msgs| && SignedUpdate(Met(h, msgs, i), msgs[i], id)
                       && Clashes(Met(h, msgs, i).clients[id].cons, msgs[i].header)
  {
    forall i: nat | i < |msgs| && msgs[i].MsgMisbehaviour? && msgs[i].client == id
      ensures Dispatch(Met(h, msgs, i), msgs[i]) == Met(h, msgs, i) && !TrueReport(Met(h, msgs, i), msgs[i], id)
    {
      assert OfChain(msgs[i], id, chain);
      if msgs[i].header1.signed && msgs[i].header2.signed {
        HonestReportChangesNothing(Met(h, msgs, i), id, msgs[i].header1, msgs[i].header2);
      }
    }
    if Active(h, id) && !Active(Run(h, msgs), id) {
      FreezeHasCause(h, msgs, id);
    }
  }

  /** The client is active and every state it has is that of the block at its height. */
  ghost predicate OnChain(h: Host, id: nat, blocks: ConsensusStates) {
    Active(h, id) && forall f <- h.clients[id].cons :: IsBlock(blocks, f, h.clients[id].cons[f])
  }

  /** The message does not upgrade the client, its header if signed is a block, and it does not come late. */
  ghost predicate Forward(h: Host, m: Msg, id: nat, chain: map<Height, Block>, blocks: ConsensusStates) {
    && OfChain(m, id, chain) && !ProvenUpgrade(h, m, id) && !Late(h, m, id)
    && (m.MsgUpdate? && m.client == id && m.header.signed ==> IsBlock(blocks, m.header.height, ConsensusOf(m.header)))
  }

  lemma BlockDoesNotClash(h: Host, id: nat, header: Header, blocks: ConsensusStates)
    requires HostOk(h) && OnChain(h, id, blocks) && Monotone(blocks)
    requires IsBlock(blocks, header.height, ConsensusOf(header))
    ensures !Misbehaves(h.clients[id].state, h.clients[id].cons, header)
  {
    var cons := h.clients[id].cons;
    var with := cons[header.height := ConsensusOf(header)];
    assert forall f <- cons :: f in blocks && blocks[f] == cons[f];
    assert forall f <- with :: f in blocks && blocks[f] == with[f];
    NeighbourCheckIsExact(h.clients[id].state, cons, header);
  }

  lemma ForwardStep(h: Host, m: Msg, id: nat, chain: map<Height, Block>, blocks: ConsensusStates)
    requires HostOk(h) && OnChain(h, id, blocks) && HonestChain(chain) && Monotone(blocks)
    requires Forward(h, m, id, chain, blocks)
    ensures OnChain(Dispatch(h, m), id, blocks)
  {
    if m.MsgMisbehaviour? && m.client == id && m.header1.signed && m.header2.signed {
      HonestReportChangesNothing(h, id, m.header1, m.header2);
    } else if m.MsgUpdate? && m.client == id && m.header.signed {
      BlockDoesNotClash(h, id, m.header, blocks);
    }
  }

  ghost predicate AllForward(h: Host, msgs: seq<Msg>, id: nat, chain: map<Height, Block>, blocks: ConsensusStates)
    decreases |msgs|
  {
    msgs == [] ||
    (Forward(h, msgs[0], id, chain, blocks) && AllForward(Dispatch(h, msgs[0]), msgs[1..], id, chain, blocks))
  }

  /** A client that is sent signed headers of one honest chain only, none of them late, is never frozen, and every state
      that it has is a block of the chain at the block's own height. */
  lemma {:induction false} HonestClientIsNeverFrozen(h: Host, msgs: seq<Msg>, id: nat, chain: map<Height, Block>,
                                                     blocks: ConsensusStates)
    requires HostOk(h) && OnChain(h, id, blocks) && HonestChain(chain) && Monotone(blocks)
    requires AllForward(h, msgs, id, chain, blocks)
    ensures OnChain(Run(h, msgs), id, blocks)
    decreases |msgs|
  {
    if msgs != [] {
      ForwardStep(h, msgs[0], id, chain, blocks);
      DispatchKeepsHost(h, msgs[0]);
      HonestClientIsNeverFrozen(Dispatch(h, msgs[0]), msgs[1..], id, chain, blocks);
    }
  }

  /** Blocks 5, 7 and 10 of the chain with a block every ten seconds. */
  function SomeBlocks(): map<Height, Block> {
    map[Height(0, 5) := Block("block" + PrintNat(5), 50), Height(0, 7) := Block("block" + PrintNat(7), 70),
        Height(0, 10) := Block("block" + PrintNat(10), 100)]
  }

  /** Create at block 5, update to 10 and then to 7. */
  function LateUpdates(h: Host, cs: ClientState): seq<Msg> {
    Updates(h, cs, false) + [MsgUpdate(h.counter, HeaderAt(7, 5))]
  }

  lemma LateUpdatesAreHonest(h: Host, cs: ClientState)
    ensures HonestChain(SomeBlocks())
    ensures forall m <- LateUpdates(h, cs) :: OfChain(m, h.counter, SomeBlocks())
    ensures OfChain(MsgUpdate(h.counter, HeaderAt(10, 5)), h.counter, SomeBlocks())
  {
  }

  lemma TenFreezes(g: Host, id: nat)
    requires Stands(g, id, 10, Kept(false)[Height(0, 10) := StateAt(7)])
    ensures var k := Dispatch(g, MsgUpdate(id, HeaderAt(10, 5))); id in k.clients && !Active(k, id)
  {
    var r := g.clients[id];
    assert r.cons[Height(0, 10)].timestamp == 70;
    assert VerifyHeader(r.state, r.cons, HeaderAt(10, 5)) && Misbehaves(r.state, r.cons, HeaderAt(10, 5));
  }

  /** One late header is enough to have an honest client frozen: created at block 5 and updated to 10, it takes the late
      header of block 7 for block 10, and block 10's own header then freezes it. All are blocks of one honest chain. */
  lemma LateHeaderFreezesHonestClient(h: Host, cs: ClientState)
    requires HostOk(h) && FollowsChain(cs)
    ensures HonestChain(SomeBlocks())
    ensures forall m <- LateUpdates(h, cs) :: OfChain(m, h.counter, SomeBlocks())
    ensures OfChain(MsgUpdate(h.counter, HeaderAt(10, 5)), h.counter, SomeBlocks())
    ensures Active(Run(h, LateUpdates(h, cs)), h.counter)
    ensures var k := Run(h, LateUpdates(h, cs) + [MsgUpdate(h.counter, HeaderAt(10, 5))]);
      h.counter in k.clients && !Active(k, h.counter)
  {
    LateUpdatesAreHonest(h, cs);
    LateHeaderIsMisfiled(h, cs, false);
    TenFreezes(Run(h, LateUpdates(h, cs)), h.counter);
    RunAppend(h, LateUpdates(h, cs), MsgUpdate(h.counter, HeaderAt(10, 5)));
  }
}
