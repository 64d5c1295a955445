/** The connection handlers as they run on a host, changing its connection store; and a network of such hosts, of
    which the results about all runs hold. */
module ConnectionHost {
  import opened Basics
  import opened Versions
  import opened Handshake

  class Host {
    const prefix: string
    const supported: seq<Version>
    var connections: Connections
    var counter: nat
    /** Every earlier store: what the counterparty's proofs are about. */
    var past: seq<Connections>
    /** Which connections began here. */
    ghost var started: set<nat>

    constructor (prefix: string, supported: seq<Version>)
      ensures this.prefix == prefix && this.supported == supported
      ensures View() == Chain(map[], 0, {}, [])
    {
      this.prefix, this.supported := prefix, supported;
      connections, counter, started, past := map[], 0, {}, [];
    }

    ghost function View(): Chain
      reads this
    {
      Chain(connections, counter, started, past)
    }

    method ConnOpenInit(client: string, farClient: string, farPrefix: string, version: Option<Version>, delay: nat)
      returns (ok: bool)
      modifies this
      ensures var r := OpenInit(supported, old(View()), client, farClient, farPrefix, version, delay);
        ok == r.Some? && View() == if ok then r.value else old(View())
    {
      var versions := supported;
      if version.Some? {
        if !IsSupported(version.value, supported) {
          return false;
        }
        versions := [version.value];
      }
      var id := counter;
      counter := counter + 1;
      connections := connections[id := ConnectionEnd(Init, client, Counterparty(farClient, None, farPrefix), versions,
                                                     delay)];
      started, past := started + {id}, past + [connections];
      return true;
    }

    method ConnOpenTry(client: string, counterparty: Counterparty, versions: seq<Version>, delay: nat,
                       selfClient: bool, far: Connections, farPrefix: string) returns (ok: bool)
      modifies this
      ensures var r := OpenTry(prefix, supported, old(View()), client, counterparty, versions, delay, selfClient, far,
                               farPrefix);
        ok == r.Some? && View() == if ok then r.value else old(View())
    {
      var picked := PickVersion(supported, versions);
      if picked.None? || counterparty.connection.None? || !selfClient {
        return false;
      }
      var expected := ConnectionEnd(Init, counterparty.client, Counterparty(client, None, prefix), versions, delay);
      if !Proves(far, farPrefix, counterparty.prefix, counterparty.connection.value, expected) {
        return false;
      }
      var id := counter;
      counter := counter + 1;
      connections := connections[id := ConnectionEnd(TryOpen, client, counterparty, [picked.value], delay)];
      past := past + [connections];
      return true;
    }

    method ConnOpenAck(id: nat, farId: nat, version: Version, selfClient: bool, far: Connections, farPrefix: string)
      returns (ok: bool)
      modifies this
      ensures var r := OpenAck(prefix, old(View()), id, farId, version, selfClient, far, farPrefix);
        ok == r.Some? && View() == if ok then r.value else old(View())
    {
      if id !in connections {
        return false;
      }
      var end := connections[id];
      if !selfClient || !IsSupported(version, end.versions) || !end.state.Init? {
        return false;
      }
      var expected := ConnectionEnd(TryOpen, end.counterparty.client, Counterparty(end.client, Some(id), prefix),
                                    [version], end.delay);
      if !Proves(far, farPrefix, end.counterparty.prefix, farId, expected) {
        return false;
      }
      end := end.(state := Open);
      end := end.(versions := [version]);
      end := end.(counterparty := end.counterparty.(connection := Some(farId)));
      connections := connections[id := end];
      past := past + [connections];
      return true;
    }

    method ConnOpenConfirm(id: nat, far: Connections, farPrefix: string) returns (ok: bool)
      modifies this
      ensures var r := OpenConfirm(prefix, old(View()), id, far, farPrefix);
        ok == r.Some? && View() == if ok then r.value else old(View())
    {
      if id !in connections {
        return false;
      }
      var end := connections[id];
      if !end.state.TryOpen? || end.counterparty.connection.None? {
        return false;
      }
      var expected := ConnectionEnd(Open, end.counterparty.client, Counterparty(end.client, Some(id), prefix),
                                    end.versions, end.delay);
      if !Proves(far, farPrefix, end.counterparty.prefix, end.counterparty.connection.value, expected) {
        return false;
      }
      end := end.(state := Open);
      connections := connections[id := end];
      past := past + [connections];
      return true;
    }
  }

  /** The state of the message's own chain after it. */
  function Next(s: Setting, w: World, m: Msg): Chain
    requires ValidSetting(s) && m.at in w
  {
    if Handle(s, w, m).Some? then Handle(s, w, m).value else w[m.at]
  }

  lemma DispatchIs(s: Setting, w: World, m: Msg)
    requires ValidSetting(s) && m.at in w
    ensures Dispatch(s, w, m) == w[m.at := Next(s, w, m)]
  {
    assert Handle(s, w, m).None? ==> w[m.at := w[m.at]] == w;
  }

  /** The host has the prefix and the versions that the setting gives its chain. */
  predicate Described(s: Setting, host: Host, chain: nat)
    requires ValidSetting(s)
  {
    chain in s.prefix && host.prefix == s.prefix[chain] && host.supported == s.versions[chain]
  }

  /** Hosts that see each other through proofs only. */
  class Network {
    const setting: Setting
    const hosts: map<nat, Host>

    /** The hosts are different objects with the prefixes and versions of the setting. */
    ghost predicate Valid() {
      && ValidSetting(setting)
      && (forall i <- hosts, j <- hosts :: hosts[i] == hosts[j] ==> i == j)
      && forall i <- hosts :: Described(setting, hosts[i], i)
    }

    ghost function View(): World
      reads hosts.Values
    {
      map chain <- hosts :: hosts[chain].View()
    }

    constructor (setting: Setting, hosts: map<nat, Host>)
      requires ValidSetting(setting) && (forall i <- hosts, j <- hosts :: hosts[i] == hosts[j] ==> i == j)
      requires forall i <- hosts :: Described(setting, hosts[i], i)
      ensures Valid() && this.setting == setting && this.hosts == hosts
    {
      this.setting, this.hosts := setting, hosts;
    }

    twostate lemma OneHostChanged(chain: nat)
      requires Valid() && chain in hosts && forall i <- hosts :: i != chain ==> unchanged(hosts[i])
      ensures View() == old(View())[chain := hosts[chain].View()]
    {
    }

    /** Hand a message to the host it is for: the network of objects makes the step that the model makes. */
    method Deliver(m: Msg) returns (ok: bool)
      requires Valid()
      modifies hosts.Values
      ensures View() == Dispatch(setting, old(View()), m)
      ensures ok <==> Handle(setting, old(View()), m).Some?
    {
      if m.at !in hosts {
        return false;
      }
      ok := Hand(hosts[m.at], m);
      OneHostChanged(m.at);
      DispatchIs(setting, old(View()), m);
    }

    /** The message on its own host. */
    method Hand(host: Host, m: Msg) returns (ok: bool)
      requires Valid() && m.at in hosts && host == hosts[m.at]
      modifies host
      ensures ok <==> Handle(setting, old(View()), m).Some?
      ensures host.View() == Next(setting, old(View()), m)
    {
      if m.MsgInit? {
        if Client(m.at, m.client) !in setting.tracks {
          return false;
        }
        ok := host.ConnOpenInit(m.client, m.farClient, m.farPrefix, m.version, m.delay);
      } else {
        ok := HandProven(host, m);
      }
    }

    /** A message with proofs: of an earlier store of the chain that the client follows. */
    method HandProven(host: Host, m: Msg) returns (ok: bool)
      requires Valid() && m.at in hosts && host == hosts[m.at] && !m.MsgInit?
      modifies host
      ensures ok <==> Handle(setting, old(View()), m).Some?
      ensures host.View() == Next(setting, old(View()), m)
    {
      if !m.MsgTry? && m.id !in host.connections {
        return false;
      }
      var client := Client(m.at, if m.MsgTry? then m.client else host.connections[m.id].client);
      if client !in setting.tracks || setting.tracks[client] !in hosts || m.height >= |hosts[setting.tracks[client]].past| {
        return false;
      }
      var far := setting.tracks[client];
      var store, prefix := hosts[far].past[m.height], hosts[far].prefix;
      if m.MsgTry? {
        ok := host.ConnOpenTry(m.client, m.counterparty, m.versions, m.delay,
                               Follows(setting, far, m.counterparty.client, m.at), store, prefix);
      } else if m.MsgAck? {
        ok := host.ConnOpenAck(m.id, m.farId, m.chosen,
                               Follows(setting, far, host.connections[m.id].counterparty.client, m.at), store, prefix);
      } else {
        ok := host.ConnOpenConfirm(m.id, store, prefix);
      }
    }

    /** Deliver any messages, one after the other: the objects are then as the model says, and from a start every
        open connection agrees with the one it names. */
    method DeliverAll(msgs: seq<Msg>)
      requires Valid()
      modifies hosts.Values
      ensures View() == Run(setting, old(View()), msgs)
      ensures Start(setting, old(View())) ==>
        forall chain <- hosts, i <- hosts[chain].connections ::
          hosts[chain].connections[i].state.Open? ==> Agrees(setting, View(), chain, i)
    {
      ghost var start := View();
      for n := 0 to |msgs|
        invariant Run(setting, View(), msgs[n..]) == Run(setting, start, msgs)
      {
        assert msgs[n..][1..] == msgs[n + 1..];
        var _ := Deliver(msgs[n]);
      }
      assert msgs[|msgs|..] == [];
      if Start(setting, start) {
        forall chain <- hosts, i <- hosts[chain].connections | hosts[chain].connections[i].state.Open?
          ensures Agrees(setting, View(), chain, i)
        {
          assert View()[chain].connections == hosts[chain].connections;
          Agreement(setting, start, msgs, chain, i);
        }
      }
    }
  }
}
