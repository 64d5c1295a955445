/** The client handlers as they run on a host, changing its client store step by step. */
module ClientHost {
  import opened Basics
  import opened TendermintClient
  import opened ClientRuns

  /** Reading a client's state. */
  function StateIn(clients: map<nat, Record>, id: nat): Option<ClientState> {
    if id in clients then Some(clients[id].state) else None
  }

  /** Reading a client's consensus state at a height. */
  function ConsensusIn(clients: map<nat, Record>, id: nat, height: Height): Option<ConsensusState> {
    if id in clients && height in clients[id].cons then Some(clients[id].cons[height]) else None
  }

  /** A client store is what can be read back from it. */
  lemma SameClients(c: map<nat, Record>, d: map<nat, Record>)
    requires forall id :: StateIn(c, id) == StateIn(d, id)
    requires forall id, h :: ConsensusIn(c, id, h) == ConsensusIn(d, id, h)
    ensures c == d
  {
    forall id ensures id in c <==> id in d {
      assert StateIn(c, id) == StateIn(d, id);
    }
    forall id <- c ensures c[id] == d[id] {
      assert StateIn(c, id) == StateIn(d, id);
      forall h ensures h in c[id].cons <==> h in d[id].cons {
        assert ConsensusIn(c, id, h) == ConsensusIn(d, id, h);
      }
      forall h <- c[id].cons ensures c[id].cons[h] == d[id].cons[h] {
        assert ConsensusIn(c, id, h) == ConsensusIn(d, id, h);
      }
    }
  }

  class Store {
    var clients: map<nat, Record>
    var counter: nat
    var processed: map<Update, Stamp>
    var time: nat
    var height: Height

    constructor (time: nat, height: Height)
      ensures View() == Host(map[], 0, map[], time, height)
    {
      clients, counter, processed := map[], 0, map[];
      this.time, this.height := time, height;
    }

    /** This store as a host of the model. */
    function View(): Host
      reads this
    {
      Host(clients, counter, processed, time, height)
    }

    /** Reading back gives what was stored, and everything else as before. */
    method StoreClientState(id: nat, state: ClientState)
      modifies this`clients
      ensures forall j :: StateIn(clients, j) == if j == id then Some(state) else StateIn(old(clients), j)
      ensures forall j, h :: ConsensusIn(clients, j, h) == ConsensusIn(old(clients), j, h)
    {
      var cons := if id in clients then clients[id].cons else map[];
      clients := clients[id := Record(state, cons)];
    }

    /** Reading back gives what was stored, and everything else as before. */
    method StoreConsensusState(id: nat, height: Height, state: ConsensusState)
      requires id in clients
      modifies this`clients
      ensures forall j :: StateIn(clients, j) == StateIn(old(clients), j)
      ensures forall j, h ::
        ConsensusIn(clients, j, h) == if j == id && h == height then Some(state) else ConsensusIn(old(clients), j, h)
    {
      clients := clients[id := clients[id].(cons := clients[id].cons[height := state])];
    }

    method Create(state: ClientState, cons: ConsensusState) returns (ok: bool)
      modifies this
      ensures var r := CreateClient(old(View()), state, cons);
        ok == r.Some? && View() == if ok then r.value else old(View())
    {
      if state.frozenHeight.Some? || !Validate(state) || cons.root == "" || counter in clients {
        return false;
      }
      StoreClientState(counter, state);
      assert StateIn(clients, counter).Some?;
      StoreConsensusState(counter, state.latestHeight, cons);
      SameClients(clients, old(clients)[counter := Record(state, map[state.latestHeight := cons])]);
      processed := processed[Update(counter, state.latestHeight) := Stamp(time, height)];
      counter := counter + 1;
      return true;
    }

    /** Install a good header: nothing to do at a stored height, else store under the new latest height. */
    method UpdateState(id: nat, header: Header)
      requires id in clients
      modifies this`clients
      ensures var r := old(clients)[id];
        clients == old(clients)[id :=
          if header.height in r.cons then r else Record(WithHeader(r.state, header), Updated(r.state, r.cons, header))]
    {
      var r := clients[id];
      if header.height !in r.cons {
        var newState := r.state.(latestHeight := MaxHeight(r.state.latestHeight, header.height));
        StoreConsensusState(id, newState.latestHeight, ConsensusOf(header));
        StoreClientState(id, newState);
        SameClients(clients, old(clients)[id := Record(newState,
                                                       r.cons[newState.latestHeight := ConsensusOf(header)])]);
      }
    }

    method Freeze(id: nat)
      requires id in clients
      modifies this`clients
      ensures clients == old(clients)[id := Frozen(old(clients)[id])]
    {
      StoreClientState(id, clients[id].state.(frozenHeight := Some(FROZEN_AT)));
      SameClients(clients, old(clients)[id := Frozen(old(clients)[id])]);
    }

    method UpdateOrFreeze(id: nat, header: Header) returns (ok: bool)
      modifies this
      ensures var r := UpdateClient(old(View()), id, header);
        ok == r.Some? && View() == if ok then r.value else old(View())
    {
      if id !in clients || clients[id].state.frozenHeight.Some? {
        return false;
      }
      var r := clients[id];
      if !VerifyHeader(r.state, r.cons, header) {
        return false;
      }
      var found := CheckForMisbehaviour(r.state, r.cons, header);
      if found {
        Freeze(id);
      } else {
        UpdateState(id, header);
        processed := processed[Update(id, header.height) := Stamp(time, height)];
      }
      return true;
    }

    method Misbehaviour(id: nat, header1: Header, header2: Header) returns (ok: bool)
      modifies this
      ensures var r := SubmitMisbehaviour(old(View()), id, header1, header2);
        ok == r.Some? && View() == if ok then r.value else old(View())
    {
      if id !in clients || clients[id].state.frozenHeight.Some? {
        return false;
      }
      var r, h := clients[id], View();
      if header1.chainName != header2.chainName || header1.height.revision != header2.height.revision
         || Below(header1.height, header2.height) {
        return false;
      }
      if !VerifyEvidence(h, r, header1) || !VerifyEvidence(h, r, header2) || !Evidence(header1, header2) {
        return false;
      }
      Freeze(id);
      return true;
    }

    method Upgrade(id: nat, upgraded: ClientState, upgradedCons: ConsensusState, proven: bool)
      returns (ok: bool)
      modifies this
      ensures var r := UpgradeClient(old(View()), id, upgraded, upgradedCons, proven);
        ok == r.Some? && View() == if ok then r.value else old(View())
    {
      if id !in clients || clients[id].state.frozenHeight.Some? || clients[id].state.latestHeight !in clients[id].cons {
        return false;
      }
      var r := clients[id];
      var since := time - r.cons[r.state.latestHeight].timestamp;
      if since < 0 || since > r.state.trustingPeriod {
        return false;
      }
      if upgraded.frozenHeight.Some? || !Below(r.state.latestHeight, upgraded.latestHeight) {
        return false;
      }
      if |r.state.upgradePath| < 2 || !proven {
        return false;
      }
      var newState := UpgradedState(r.state, upgraded);
      if !Validate(newState) {
        return false;
      }
      StoreClientState(id, newState);
      assert StateIn(clients, id).Some?;
      StoreConsensusState(id, newState.latestHeight,
                          ConsensusState(SENTINEL_ROOT, upgradedCons.timestamp, upgradedCons.nextValidators));
      SameClients(clients, UpgradeClient(old(View()), id, upgraded, upgradedCons, proven).value.clients);
      return true;
    }

    /** Handle any message as the model does. */
    method Deliver(m: Msg) returns (ok: bool)
      modifies this
      ensures View() == Dispatch(old(View()), m)
      ensures ok <==> Handle(old(View()), m).Some?
    {
      match m
      case MsgCreate(state, cons) => ok := Create(state, cons);
      case MsgUpdate(id, header) => ok := UpdateOrFreeze(id, header);
      case MsgMisbehaviour(id, header1, header2) => ok := Misbehaviour(id, header1, header2);
      case MsgUpgrade(id, upgraded, cons, proven) => ok := Upgrade(id, upgraded, cons, proven);
      case NewBlock(newTime, newHeight) =>
        ok := newTime >= time && AtMost(height, newHeight);
        if ok {
          time, height := newTime, newHeight;
        }
    }

    /** Handle any messages, one after the other. The store is then as the model says; if it was in order it still is,
        with every client valid, its latest height the highest stored, and changed only as a client may change. */
    method DeliverAll(msgs: seq<Msg>)
      modifies this
      ensures View() == Run(old(View()), msgs)
      ensures HostOk(old(View())) ==> HostOk(View()) && HostEvolves(old(View()), View())
    {
      ghost var start := View();
      for n := 0 to |msgs|
        invariant Run(View(), msgs[n..]) == Run(start, msgs)
      {
        assert msgs[n..][1..] == msgs[n + 1..];
        var _ := Deliver(msgs[n]);
      }
      assert msgs[|msgs|..] == [];
      if HostOk(start) {
        RunKeepsHost(start, msgs);
      }
    }
  }
}
