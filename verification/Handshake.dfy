/** The ICS-03 opening handshake between any number of chains, which see each other only
    through proofs about each other's past connection stores. */
module Handshake {
  import opened Basics
  import opened Versions

  datatype Progress = Init | TryOpen | Open

  datatype Counterparty = Counterparty(client: string, connection: Option<nat>, prefix: string)

  datatype ConnectionEnd = ConnectionEnd(
    state: Progress, client: string, counterparty: Counterparty, versions: seq<Version>, delay: nat)

  type Connections = map<nat, ConnectionEnd>

  /** A chain's connections, the counter for their identifiers, and every earlier connection store.
      `started` is the history of which connections began with an Init on this chain. */
  datatype Chain = Chain(connections: Connections, counter: nat, started: set<nat>, past: seq<Connections>)

  datatype Client = Client(chain: nat, id: string)

  /** What does not change: which chain each light client follows, each chain's store prefix
      and the versions it supports. */
  datatype Setting = Setting(tracks: map<Client, nat>, prefix: map<nat, string>, versions: map<nat, seq<Version>>)

  /** Every chain is described, and every client lives on one chain and follows one. */
  predicate ValidSetting(s: Setting) {
    && s.prefix.Keys == s.versions.Keys
    && forall c <- s.tracks :: c.chain in s.prefix && s.tracks[c] in s.prefix
  }

  /** A verified membership proof: under the chain's true prefix, its store held the value at the path. */
  predicate Proves(store: Connections, truePrefix: string, prefix: string, id: nat, end: ConnectionEnd) {
    prefix == truePrefix && id in store && store[id] == end
  }

  // ----- Handlers: `None` rejects the message -----

  /** Record the new store in the chain's past. */
  function Stored(c: Chain, connections: Connections): Chain {
    c.(connections := connections, past := c.past + [connections])
  }

  /** A new connection takes the counter as its identifier. */
  function Created(c: Chain, end: ConnectionEnd, starts: bool): Chain {
    Stored(c.(counter := c.counter + 1, started := if starts then c.started + {c.counter} else c.started),
           c.connections[c.counter := end])
  }

  function OpenInit(supported: seq<Version>, c: Chain, client: string, farClient: string, farPrefix: string,
                    version: Option<Version>, delay: nat): Option<Chain> {
    if version.Some? && !IsSupported(version.value, supported) then None
    else
      var versions := if version.Some? then [version.value] else supported;
      Some(Created(c, ConnectionEnd(Init, client, Counterparty(farClient, None, farPrefix), versions, delay), true))
  }

  /** `selfClient` says that the far chain's client `counterparty.client` follows this chain. */
  function OpenTry(ownPrefix: string, supported: seq<Version>, c: Chain, client: string, counterparty: Counterparty,
                   versions: seq<Version>, delay: nat, selfClient: bool, far: Connections, farPrefix: string): Option<Chain> {
    var picked := Pick(supported, versions);
    if picked.None? || counterparty.connection.None? || !selfClient then None
    else if !Proves(far, farPrefix, counterparty.prefix, counterparty.connection.value,
                    ConnectionEnd(Init, counterparty.client, Counterparty(client, None, ownPrefix), versions,
                                  delay)) then None
    else Some(Created(c, ConnectionEnd(TryOpen, client, counterparty, [picked.value], delay), false))
  }

  function OpenAck(ownPrefix: string, c: Chain, id: nat, farId: nat, version: Version, selfClient: bool,
                   far: Connections, farPrefix: string): Option<Chain> {
    if id !in c.connections then None else
    var e := c.connections[id];
    if !selfClient || !IsSupported(version, e.versions) || !e.state.Init? then None
    else if !Proves(far, farPrefix, e.counterparty.prefix, farId,
                    ConnectionEnd(TryOpen, e.counterparty.client, Counterparty(e.client, Some(id), ownPrefix),
                                  [version], e.delay)) then None
    else Some(Stored(c, c.connections[id := e.(
      state := Open, versions := [version], counterparty := e.counterparty.(connection := Some(farId)))]))
  }

  function OpenConfirm(ownPrefix: string, c: Chain, id: nat, far: Connections, farPrefix: string): Option<Chain> {
    if id !in c.connections then None else
    var e := c.connections[id];
    if !e.state.TryOpen? || e.counterparty.connection.None? then None
    else if !Proves(far, farPrefix, e.counterparty.prefix, e.counterparty.connection.value,
                    ConnectionEnd(Open, e.counterparty.client, Counterparty(e.client, Some(id), ownPrefix), e.versions,
                                  e.delay)) then None
    else Some(Stored(c, c.connections[id := e.(state := Open)]))
  }

  // ----- The world -----

  type World = map<nat, Chain>

  /** A message for chain `at`; `height` picks one of the far chain's past stores for its proofs. */
  datatype Msg =
    | MsgInit(at: nat, client: string, farClient: string, farPrefix: string, version: Option<Version>, delay: nat)
    | MsgTry(at: nat, client: string, counterparty: Counterparty, versions: seq<Version>, delay: nat, height: nat)
    | MsgAck(at: nat, id: nat, farId: nat, chosen: Version, height: nat)
    | MsgConfirm(at: nat, id: nat, height: nat)

  predicate Follows(s: Setting, chain: nat, client: string, target: nat) {
    Client(chain, client) in s.tracks && s.tracks[Client(chain, client)] == target
  }

  function Handle(s: Setting, w: World, m: Msg): Option<Chain>
    requires ValidSetting(s)
  {
    if m.at !in w || m.at !in s.prefix then None else
    var c, own, supported := w[m.at], s.prefix[m.at], s.versions[m.at];
    if m.MsgInit? then
      if Client(m.at, m.client) !in s.tracks then None
      else OpenInit(supported, c, m.client, m.farClient, m.farPrefix, m.version, m.delay)
    else
      if !m.MsgTry? && m.id !in c.connections then None else
      var client := Client(m.at, if m.MsgTry? then m.client else c.connections[m.id].client);
      if client !in s.tracks || s.tracks[client] !in w || m.height >= |w[s.tracks[client]].past| then None else
      var far := s.tracks[client];
      var store, prefix := w[far].past[m.height], s.prefix[far];
      if m.MsgTry? then
        OpenTry(own, supported, c, m.client, m.counterparty, m.versions, m.delay,
                Follows(s, far, m.counterparty.client, m.at), store, prefix)
      else if m.MsgAck? then
        OpenAck(own, c, m.id, m.farId, m.chosen,
                Follows(s, far, c.connections[m.id].counterparty.client, m.at), store, prefix)
      else
        OpenConfirm(own, c, m.id, store, prefix)
  }

  function Dispatch(s: Setting, w: World, m: Msg): World
    requires ValidSetting(s)
  {
    if Handle(s, w, m).None? then w else w[m.at := Handle(s, w, m).value]
  }

  function Run(s: Setting, w: World, msgs: seq<Msg>): World
    requires ValidSetting(s)
    decreases |msgs|
  {
    if msgs == [] then w else Run(s, Dispatch(s, w, msgs[0]), msgs[1..])
  }

  // ----- How a connection may change -----

  predicate Later(e: ConnectionEnd, f: ConnectionEnd) {
    && f.client == e.client && f.delay == e.delay
    && f.counterparty.client == e.counterparty.client && f.counterparty.prefix == e.counterparty.prefix
    && (f.state.Init? ==> f == e)
    && (!e.state.Init? ==> f.counterparty == e.counterparty && f.versions == e.versions)
    && (f.state.TryOpen? ==> e.state.TryOpen?)
    && (e.state.Open? ==> f == e)
  }

  /** Connections stay, and change only forward; identifiers are never used again. */
  predicate ChainLater(c: Chain, d: Chain) {
    && c.counter <= d.counter
    && c.started <= d.started
    && (forall i <- c.connections ::
          i in d.connections && Later(c.connections[i], d.connections[i]) && (i in d.started ==> i in c.started))
  }

  predicate WorldLater(w: World, v: World) {
    forall chain <- w :: chain in v && ChainLater(w[chain], v[chain])
  }

  // ----- What every run keeps -----

  /** Two ends that name each other, through clients that follow each other's chain. */
  predicate Mirror(s: Setting, chain: nat, i: nat, e: ConnectionEnd, far: nat, j: nat, f: ConnectionEnd) {
    && chain in s.prefix && far in s.prefix
    && Follows(s, chain, e.client, far) && Follows(s, far, f.client, chain)
    && e.counterparty == Counterparty(f.client, Some(j), s.prefix[far])
    && f.counterparty == Counterparty(e.client, Some(i), s.prefix[chain])
    && e.versions == f.versions && |e.versions| == 1
    && e.delay == f.delay
  }

  /** The end `f`, which began with an Init, is the one that `e` answers. */
  predicate Answers(s: Setting, chain: nat, e: ConnectionEnd, far: nat, f: ConnectionEnd) {
    && chain in s.prefix && far in s.prefix
    && Follows(s, far, f.client, chain)
    && e.counterparty.client == f.client && e.counterparty.prefix == s.prefix[far]
    && f.counterparty.client == e.client && f.counterparty.prefix == s.prefix[chain]
    && e.delay == f.delay
  }

  /** What holds of every connection `i` of every chain. */
  ghost predicate EndOk(s: Setting, w: World, chain: nat, i: nat)
    requires chain in w && i in w[chain].connections
  {
    var c := w[chain];
    var e := c.connections[i];
    && i < c.counter
    && (e.state.Init? ==> i in c.started && e.counterparty.connection.None?)
    && (e.state.TryOpen? ==> i !in c.started)
    && (!e.state.Init? ==> e.counterparty.connection.Some? && |e.versions| == 1)
    && Client(chain, e.client) in s.tracks
    && (!e.state.Init? ==>
          var far, j := s.tracks[Client(chain, e.client)], e.counterparty.connection.value;
          && far in w && j in w[far].connections
          && (i in c.started ==>
                && j !in w[far].started && !w[far].connections[j].state.Init?
                && Mirror(s, chain, i, e, far, j, w[far].connections[j]))
          && (i !in c.started ==>
                j in w[far].started && Answers(s, chain, e, far, w[far].connections[j]))
          && (i !in c.started && e.state.Open? ==>
                w[far].connections[j].state.Open? && Mirror(s, chain, i, e, far, j, w[far].connections[j])))
  }

  /** A past store is what the present one has grown from. */
  ghost predicate PastOk(c: Chain, store: Connections) {
    forall i <- store ::
      && i in c.connections && Later(store[i], c.connections[i])
      && (store[i].state.Init? ==> i in c.started)
      && (store[i].state.TryOpen? ==> i !in c.started)
  }

  ghost predicate ChainOk(s: Setting, w: World, chain: nat)
    requires chain in w
  {
    && chain in s.prefix
    && (forall i <- w[chain].started :: i < w[chain].counter)
    && (forall i <- w[chain].connections :: EndOk(s, w, chain, i))
    && (forall store <- w[chain].past :: PastOk(w[chain], store))
  }

  ghost predicate WorldInv(s: Setting, w: World) {
    forall chain <- w :: ChainOk(s, w, chain)
  }

  lemma LaterIsTransitive(e: ConnectionEnd, f: ConnectionEnd, g: ConnectionEnd)
    requires Later(e, f) && Later(f, g)
    ensures Later(e, g)
  {
  }

  /** An end that did not change stays in order while others move on. */
  lemma OthersKeepEnd(s: Setting, w: World, v: World, chain: nat, i: nat)
    requires WorldLater(w, v) && chain in w && i in w[chain].connections && EndOk(s, w, chain, i)
    requires v[chain].connections[i] == w[chain].connections[i]
    ensures EndOk(s, v, chain, i)
  {
    var e := w[chain].connections[i];
    if !e.state.Init? {
      var far, j := s.tracks[Client(chain, e.client)], e.counterparty.connection.value;
      assert ChainLater(w[far], v[far]);
      assert Later(w[far].connections[j], v[far].connections[j]);
    }
  }

  lemma PastStays(c: Chain, d: Chain, store: Connections)
    requires ChainLater(c, d) && PastOk(c, store)
    ensures PastOk(d, store)
  {
    forall i <- store ensures Later(store[i], d.connections[i]) {
      LaterIsTransitive(store[i], c.connections[i], d.connections[i]);
    }
  }

  /** What an accepted proof about connection `k` of the far chain says of its present. */
  lemma ProofIsSound(s: Setting, w: World, far: nat, height: nat, k: nat)
    requires WorldInv(s, w) && far in w && height < |w[far].past| && k in w[far].past[height]
    ensures var c, e := w[far], w[far].past[height][k];
      && k in c.connections && Later(e, c.connections[k])
      && (e.state.Init? ==> k in c.started) && (e.state.TryOpen? ==> k !in c.started)
  {
    assert ChainOk(s, w, far);
    assert PastOk(w[far], w[far].past[height]);
  }

  lemma HandleIsLater(s: Setting, w: World, m: Msg)
    requires ValidSetting(s) && Handle(s, w, m).Some? && ChainOk(s, w, m.at)
    ensures ChainLater(w[m.at], Handle(s, w, m).value)
  {
    forall i <- w[m.at].connections ensures i < w[m.at].counter {
      assert EndOk(s, w, m.at, i);
    }
    HandleMovesOn(s, w, m);
  }

  /** Whatever a message changes, it moves forward. */
  lemma HandleMovesOn(s: Setting, w: World, m: Msg)
    requires ValidSetting(s) && Handle(s, w, m).Some? && forall i <- w[m.at].connections :: i < w[m.at].counter
    ensures ChainLater(w[m.at], Handle(s, w, m).value)
  {
  }

  /** The connection a message creates or changes. */
  function Touched(w: World, m: Msg): nat
    requires m.at in w
  {
    if m.MsgInit? || m.MsgTry? then w[m.at].counter else m.id
  }

  /** The chain the message's proofs are about. */
  function FarOf(s: Setting, w: World, m: Msg): nat
    requires ValidSetting(s) && Handle(s, w, m).Some? && !m.MsgInit?
  {
    s.tracks[Client(m.at, if m.MsgTry? then m.client else w[m.at].connections[m.id].client)]
  }

  lemma TryIsOk(s: Setting, w: World, m: Msg)
    requires ValidSetting(s) && WorldInv(s, w) && m.MsgTry? && Handle(s, w, m).Some?
    requires WorldLater(w, Dispatch(s, w, m))
    ensures EndOk(s, Dispatch(s, w, m), m.at, w[m.at].counter)
  {
    var far, k := FarOf(s, w, m), m.counterparty.connection.value;
    ProofIsSound(s, w, far, m.height, k);
    assert ChainOk(s, w, m.at);
    assert w[m.at].counter !in w[m.at].started;
    var v := Dispatch(s, w, m);
    assert ChainLater(w[far], v[far]);
    assert Later(w[far].connections[k], v[far].connections[k]);
    LaterIsTransitive(w[far].past[m.height][k], w[far].connections[k], v[far].connections[k]);
  }

  lemma AckIsOk(s: Setting, w: World, m: Msg)
    requires ValidSetting(s) && WorldInv(s, w) && m.MsgAck? && Handle(s, w, m).Some?
    requires WorldLater(w, Dispatch(s, w, m))
    ensures EndOk(s, Dispatch(s, w, m), m.at, m.id)
  {
    var far := FarOf(s, w, m);
    ProofIsSound(s, w, far, m.height, m.farId);
    assert ChainOk(s, w, m.at);
    assert EndOk(s, w, m.at, m.id);
    var v := Dispatch(s, w, m);
    assert ChainLater(w[far], v[far]);
    LaterIsTransitive(w[far].past[m.height][m.farId], w[far].connections[m.farId], v[far].connections[m.farId]);
  }

  lemma ConfirmIsOk(s: Setting, w: World, m: Msg)
    requires ValidSetting(s) && WorldInv(s, w) && m.MsgConfirm? && Handle(s, w, m).Some?
    requires WorldLater(w, Dispatch(s, w, m))
    ensures EndOk(s, Dispatch(s, w, m), m.at, m.id)
  {
    var far := FarOf(s, w, m);
    var k := w[m.at].connections[m.id].counterparty.connection.value;
    ProofIsSound(s, w, far, m.height, k);
    assert ChainOk(s, w, m.at);
    assert EndOk(s, w, m.at, m.id);
    var v := Dispatch(s, w, m);
    assert ChainLater(w[far], v[far]);
    LaterIsTransitive(w[far].past[m.height][k], w[far].connections[k], v[far].connections[k]);
  }

  /** A handled message stores one connection, and records the new store in the past. */
  predicate Touches(c: Chain, d: Chain, i: nat) {
    && d.past == c.past + [d.connections]
    && forall j <- d.connections :: j != i ==> j in c.connections && d.connections[j] == c.connections[j]
  }

  lemma HandleTouches(s: Setting, w: World, m: Msg)
    requires ValidSetting(s) && Handle(s, w, m).Some?
    ensures Touches(w[m.at], Handle(s, w, m).value, Touched(w, m))
  {
  }

  lemma InitIsOk(s: Setting, w: World, m: Msg)
    requires ValidSetting(s) && m.MsgInit? && Handle(s, w, m).Some?
    ensures EndOk(s, Dispatch(s, w, m), m.at, w[m.at].counter)
  {
  }

  lemma TouchedIsOk(s: Setting, w: World, m: Msg)
    requires ValidSetting(s) && WorldInv(s, w) && Handle(s, w, m).Some? && WorldLater(w, Dispatch(s, w, m))
    requires Touched(w, m) in Dispatch(s, w, m)[m.at].connections
    ensures EndOk(s, Dispatch(s, w, m), m.at, Touched(w, m))
  {
    match m
    case MsgInit(_, _, _, _, _, _) => InitIsOk(s, w, m);
    case MsgTry(_, _, _, _, _, _) => TryIsOk(s, w, m);
    case MsgAck(_, _, _, _, _) => AckIsOk(s, w, m);
    case MsgConfirm(_, _, _) => ConfirmIsOk(s, w, m);
  }

  /** The connections that the message does not touch. */
  lemma UntouchedIsOk(s: Setting, w: World, at: nat, d: Chain, touched: nat, chain: nat, i: nat)
    requires at in w && Touches(w[at], d, touched) && WorldLater(w, w[at := d])
    requires chain in w && i in w[at := d][chain].connections && !(chain == at && i == touched)
    requires ChainOk(s, w, chain)
    ensures EndOk(s, w[at := d], chain, i)
  {
    assert EndOk(s, w, chain, i);
    OthersKeepEnd(s, w, w[at := d], chain, i);
  }

  lemma DispatchKeepsEnd(s: Setting, w: World, m: Msg, chain: nat, i: nat)
    requires ValidSetting(s) && WorldInv(s, w) && Handle(s, w, m).Some? && WorldLater(w, Dispatch(s, w, m))
    requires chain in w && i in Dispatch(s, w, m)[chain].connections
    ensures EndOk(s, Dispatch(s, w, m), chain, i)
  {
    if chain == m.at && i == Touched(w, m) {
      TouchedIsOk(s, w, m);
    } else {
      HandleTouches(s, w, m);
      UntouchedIsOk(s, w, m.at, Handle(s, w, m).value, Touched(w, m), chain, i);
    }
  }

  /** The past of a chain after a message, or after a message to another chain. */
  lemma PastKept(s: Setting, w: World, v: World, chain: nat, touched: nat, store: Connections)
    requires chain in w && chain in v && ChainOk(s, w, chain) && ChainLater(w[chain], v[chain])
    requires v[chain] == w[chain] || Touches(w[chain], v[chain], touched)
    requires store in v[chain].past && forall i <- v[chain].connections :: EndOk(s, v, chain, i)
    ensures PastOk(v[chain], store)
  {
    if store in w[chain].past {
      PastStays(w[chain], v[chain], store);
    } else {
      PresentIsPast(s, v, chain);
    }
  }

  lemma PresentIsPast(s: Setting, v: World, chain: nat)
    requires chain in v && forall i <- v[chain].connections :: EndOk(s, v, chain, i)
    ensures PastOk(v[chain], v[chain].connections)
  {
    var store := v[chain].connections;
    forall i <- store ensures Later(store[i], store[i])
      && (store[i].state.Init? ==> i in v[chain].started) && (store[i].state.TryOpen? ==> i !in v[chain].started)
    {
      assert EndOk(s, v, chain, i);
    }
  }

  lemma PutIsLater(w: World, at: nat, d: Chain)
    requires at in w && ChainLater(w[at], d)
    ensures WorldLater(w, w[at := d])
  {
  }

  lemma DispatchIsLater(s: Setting, w: World, m: Msg)
    requires ValidSetting(s) && WorldInv(s, w)
    ensures WorldLater(w, Dispatch(s, w, m))
  {
    if Handle(s, w, m).Some? {
      assert ChainOk(s, w, m.at);
      HandleIsLater(s, w, m);
      PutIsLater(w, m.at, Handle(s, w, m).value);
    }
  }

  lemma DispatchKeepsChain(s: Setting, w: World, m: Msg, chain: nat)
    requires ValidSetting(s) && WorldInv(s, w) && Handle(s, w, m).Some? && WorldLater(w, Dispatch(s, w, m))
    requires chain in w
    ensures ChainOk(s, Dispatch(s, w, m), chain)
  {
    var v := Dispatch(s, w, m);
    forall i <- v[chain].connections ensures EndOk(s, v, chain, i) {
      DispatchKeepsEnd(s, w, m, chain, i);
    }
    HandleTouches(s, w, m);
    forall store <- v[chain].past ensures PastOk(v[chain], store) {
      PastKept(s, w, v, chain, Touched(w, m), store);
    }
  }

  /** Whatever the relayers deliver, every connection stays in order. */
  lemma DispatchKeepsInv(s: Setting, w: World, m: Msg)
    requires ValidSetting(s) && WorldInv(s, w)
    ensures WorldInv(s, Dispatch(s, w, m))
  {
    if Handle(s, w, m).Some? {
      DispatchIsLater(s, w, m);
      forall chain <- w ensures ChainOk(s, Dispatch(s, w, m), chain) {
        DispatchKeepsChain(s, w, m, chain);
      }
    }
  }

  // ----- Whole runs -----

  /** No connection exists anywhere, now or in the past. */
  ghost predicate Start(s: Setting, w: World) {
    forall chain <- w :: chain in s.prefix && w[chain].connections == map[] && w[chain].started == {}
      && forall store <- w[chain].past :: store == map[]
  }

  lemma StartInv(s: Setting, w: World)
    requires Start(s, w)
    ensures WorldInv(s, w)
  {
  }

  lemma WorldLaterIsTransitive(u: World, v: World, w: World)
    requires WorldLater(u, v) && WorldLater(v, w)
    ensures WorldLater(u, w)
  {
    forall chain <- u ensures chain in w && ChainLater(u[chain], w[chain]) {
      assert ChainLater(u[chain], v[chain]) && ChainLater(v[chain], w[chain]);
      forall i <- u[chain].connections ensures Later(u[chain].connections[i], w[chain].connections[i]) {
        LaterIsTransitive(u[chain].connections[i], v[chain].connections[i], w[chain].connections[i]);
      }
    }
  }

  /** In every run connections only move forward: identifiers are never reused, an Open end never changes,
      and the clients, prefixes and delay of a connection are fixed when it is created. */
  lemma {:induction false} RunIsLater(s: Setting, w: World, msgs: seq<Msg>)
    requires ValidSetting(s) && WorldInv(s, w)
    ensures WorldInv(s, Run(s, w, msgs)) && WorldLater(w, Run(s, w, msgs))
    decreases |msgs|
  {
    if msgs != [] {
      DispatchKeepsInv(s, w, msgs[0]);
      DispatchIsLater(s, w, msgs[0]);
      RunIsLater(s, Dispatch(s, w, msgs[0]), msgs[1..]);
      WorldLaterIsTransitive(w, Dispatch(s, w, msgs[0]), Run(s, w, msgs));
    }
  }

  /** An Open end and the end it names mirror each other, with one common version; the named end is at least
      TryOpen, and is Open too when the first end answered an Init. */
  predicate Agrees(s: Setting, w: World, chain: nat, i: nat)
    requires chain in w && i in w[chain].connections
  {
    var e := w[chain].connections[i];
    && Client(chain, e.client) in s.tracks && e.counterparty.connection.Some?
    && var far, j := s.tracks[Client(chain, e.client)], e.counterparty.connection.value;
    && far in w && j in w[far].connections
    && var f := w[far].connections[j];
    && Mirror(s, chain, i, e, far, j, f)
    && !f.state.Init?
    && (i in w[chain].started <==> j !in w[far].started)
    && (i !in w[chain].started ==> f.state.Open?)
  }

  lemma OpenAgrees(s: Setting, w: World, chain: nat, i: nat)
    requires WorldInv(s, w) && chain in w && i in w[chain].connections && w[chain].connections[i].state.Open?
    ensures Agrees(s, w, chain, i)
  {
    assert ChainOk(s, w, chain);
    assert EndOk(s, w, chain, i);
  }

  /** Agreement: in every run, every Open end agrees with the end it names. */
  lemma Agreement(s: Setting, start: World, msgs: seq<Msg>, chain: nat, i: nat)
    requires ValidSetting(s) && Start(s, start)
    requires var w := Run(s, start, msgs); chain in w && i in w[chain].connections && w[chain].connections[i].state.Open?
    ensures Agrees(s, Run(s, start, msgs), chain, i)
  {
    StartInv(s, start);
    RunIsLater(s, start, msgs);
    OpenAgrees(s, Run(s, start, msgs), chain, i);
  }

  /** However often OpenTry is delivered for one Init, at most one of the ends it creates, on whatever chain, opens. */
  lemma OneOpensPerInit(s: Setting, start: World, msgs: seq<Msg>, chain1: nat, i1: nat, chain2: nat, i2: nat)
    requires ValidSetting(s) && Start(s, start)
    requires var w := Run(s, start, msgs);
      && chain1 in w && i1 in w[chain1].connections && w[chain1].connections[i1].state.Open? && i1 !in w[chain1].started
      && chain2 in w && i2 in w[chain2].connections && w[chain2].connections[i2].state.Open? && i2 !in w[chain2].started
      && Client(chain1, w[chain1].connections[i1].client) in s.tracks
      && Client(chain2, w[chain2].connections[i2].client) in s.tracks
      && s.tracks[Client(chain1, w[chain1].connections[i1].client)]
         == s.tracks[Client(chain2, w[chain2].connections[i2].client)]
      && w[chain1].connections[i1].counterparty.connection == w[chain2].connections[i2].counterparty.connection
    ensures chain1 == chain2 && i1 == i2
  {
    Agreement(s, start, msgs, chain1, i1);
    Agreement(s, start, msgs, chain2, i2);
  }

  /** Every end past Init has settled on exactly one version. */
  lemma OneVersion(s: Setting, start: World, msgs: seq<Msg>, chain: nat, i: nat)
    requires ValidSetting(s) && Start(s, start)
    requires var w := Run(s, start, msgs); chain in w && i in w[chain].connections && !w[chain].connections[i].state.Init?
    ensures |Run(s, start, msgs)[chain].connections[i].versions| == 1
  {
    StartInv(s, start);
    RunIsLater(s, start, msgs);
    assert ChainOk(s, Run(s, start, msgs), chain);
    assert EndOk(s, Run(s, start, msgs), chain, i);
  }

  // ----- An honest relayer can always finish -----

  /** What chain A offers: the version that its Init names, or all that it supports. */
  function Offered(s: Setting, a: nat, version: Option<Version>): seq<Version>
    requires ValidSetting(s) && a in s.prefix
  {
    if version.Some? then [version.value] else s.versions[a]
  }

  function InitMsg(s: Setting, a: nat, b: nat, clientA: string, clientB: string, version: Option<Version>,
                   delay: nat): Msg
    requires b in s.prefix
  {
    MsgInit(a, clientA, clientB, s.prefix[b], version, delay)
  }

  function TryMsg(s: Setting, w: World, a: nat, b: nat, clientA: string, clientB: string, offered: seq<Version>,
                  delay: nat): Msg
    requires ValidSetting(s) && a in w && a in s.prefix
  {
    MsgTry(b, clientB, Counterparty(clientA, Some(w[a].counter), s.prefix[a]), offered, delay, |w[a].past|)
  }

  /** One when a chain connects to itself: its Init comes before its Try in one counter and one past. */
  function Shift(a: nat, b: nat): nat {
    if a == b then 1 else 0
  }

  /** The identifier that chain B gives its end. */
  function FarId(w: World, a: nat, b: nat): nat
    requires b in w
  {
    w[b].counter + Shift(a, b)
  }

  function AckMsg(w: World, a: nat, b: nat, agreed: Version): Msg
    requires a in w && b in w
  {
    MsgAck(a, w[a].counter, FarId(w, a, b), agreed, |w[b].past| + Shift(a, b))
  }

  function ConfirmMsg(w: World, a: nat, b: nat): Msg
    requires a in w && b in w
  {
    MsgConfirm(b, FarId(w, a, b), |w[a].past| + 1 + Shift(a, b))
  }

  /** The end of chain A after its Init. */
  function InitEnd(s: Setting, b: nat, clientA: string, clientB: string, offered: seq<Version>,
                   delay: nat): ConnectionEnd
    requires b in s.prefix
  {
    ConnectionEnd(Init, clientA, Counterparty(clientB, None, s.prefix[b]), offered, delay)
  }

  /** The two ends that Init and Try leave, in the stores that Ack and Confirm need. */
  predicate Halfway(s: Setting, w: World, a: nat, b: nat, i: nat, j: nat, clientA: string, clientB: string,
                    offered: seq<Version>, version: Version, delay: nat)
    requires ValidSetting(s) && a in s.prefix && b in s.prefix
  {
    && a in w && b in w && i in w[a].connections && j in w[b].connections && !(a == b && i == j)
    && w[a].connections[i] == InitEnd(s, b, clientA, clientB, offered, delay)
    && w[b].connections[j]
       == ConnectionEnd(TryOpen, clientB, Counterparty(clientA, Some(i), s.prefix[a]), [version], delay)
    && |w[b].past| > 0 && w[b].past[|w[b].past| - 1] == w[b].connections
  }

  lemma HonestInit(s: Setting, w: World, a: nat, b: nat, clientA: string, clientB: string, version: Option<Version>,
                   delay: nat)
    requires ValidSetting(s) && a in w && a in s.prefix && b in s.prefix && Follows(s, a, clientA, b)
    requires version.Some? ==> IsSupported(version.value, s.versions[a])
    ensures Dispatch(s, w, InitMsg(s, a, b, clientA, clientB, version, delay))
         == w[a := Created(w[a], InitEnd(s, b, clientA, clientB, Offered(s, a, version), delay), true)]
  {
  }

  lemma HonestTry(s: Setting, w: World, a: nat, b: nat, i: nat, height: nat, clientA: string, clientB: string,
                  offered: seq<Version>, delay: nat)
    requires ValidSetting(s) && a in w && b in w && a in s.prefix && b in s.prefix
    requires Follows(s, a, clientA, b) && Follows(s, b, clientB, a) && Pick(s.versions[b], offered).Some?
    requires height < |w[a].past| && i in w[a].past[height]
    requires w[a].past[height][i] == InitEnd(s, b, clientA, clientB, offered, delay)
    ensures Dispatch(s, w, MsgTry(b, clientB, Counterparty(clientA, Some(i), s.prefix[a]), offered, delay, height))
         == w[b := Created(w[b], ConnectionEnd(TryOpen, clientB, Counterparty(clientA, Some(i), s.prefix[a]),
                                               [Pick(s.versions[b], offered).value], delay), false)]
  {
  }

  /** After Init and Try, both new ends are in the stores that the next proofs need. */
  lemma HonestTryStores(s: Setting, w: World, a: nat, b: nat, clientA: string, clientB: string,
                        version: Option<Version>, delay: nat)
    requires ValidSetting(s) && a in w && b in w && a in s.prefix && b in s.prefix
    requires Follows(s, a, clientA, b) && Follows(s, b, clientB, a)
    requires version.Some? ==> IsSupported(version.value, s.versions[a])
    requires Pick(s.versions[b], Offered(s, a, version)).Some?
    ensures var offered := Offered(s, a, version);
      var m1 := InitMsg(s, a, b, clientA, clientB, version, delay);
      var m2 := TryMsg(s, w, a, b, clientA, clientB, offered, delay);
      var w2, agreed := Dispatch(s, Dispatch(s, w, m1), m2), Pick(s.versions[b], offered).value;
      && Halfway(s, w2, a, b, w[a].counter, FarId(w, a, b), clientA, clientB, offered, agreed, delay)
      && |w2[a].past| == |w[a].past| + 1 + Shift(a, b) && |w2[b].past| == |w[b].past| + 1 + Shift(a, b)
  {
    HonestInit(s, w, a, b, clientA, clientB, version, delay);
    var w1 := Dispatch(s, w, InitMsg(s, a, b, clientA, clientB, version, delay));
    HonestTry(s, w1, a, b, w[a].counter, |w[a].past|, clientA, clientB, Offered(s, a, version), delay);
  }

  /** The end of chain A after an honest Ack. */
  function AckedEnd(s: Setting, b: nat, j: nat, clientA: string, clientB: string, version: Version,
                    delay: nat): ConnectionEnd
    requires b in s.prefix
  {
    ConnectionEnd(Open, clientA, Counterparty(clientB, Some(j), s.prefix[b]), [version], delay)
  }

  lemma HonestAck(s: Setting, w: World, a: nat, b: nat, i: nat, j: nat, clientA: string, clientB: string,
                  offered: seq<Version>, version: Version, delay: nat)
    requires ValidSetting(s) && a in s.prefix && b in s.prefix && Follows(s, a, clientA, b) && Follows(s, b, clientB, a)
    requires Halfway(s, w, a, b, i, j, clientA, clientB, offered, version, delay) && IsSupported(version, offered)
    ensures Dispatch(s, w, MsgAck(a, i, j, version, |w[b].past| - 1))
         == w[a := Stored(w[a], w[a].connections[i := AckedEnd(s, b, j, clientA, clientB, version, delay)])]
  {
  }

  lemma HonestConfirm(s: Setting, w: World, a: nat, b: nat, i: nat, j: nat, clientA: string, clientB: string,
                      version: Version, delay: nat)
    requires ValidSetting(s) && a in s.prefix && b in s.prefix && a in w && b in w && Follows(s, b, clientB, a)
    requires j in w[b].connections && w[b].connections[j]
      == ConnectionEnd(TryOpen, clientB, Counterparty(clientA, Some(i), s.prefix[a]), [version], delay)
    requires |w[a].past| > 0 && i in w[a].past[|w[a].past| - 1]
      && w[a].past[|w[a].past| - 1][i] == AckedEnd(s, b, j, clientA, clientB, version, delay)
    ensures Dispatch(s, w, MsgConfirm(b, j, |w[a].past| - 1))
         == w[b := Stored(w[b], w[b].connections[j := w[b].connections[j].(state := Open)])]
  {
  }

  /** The connection is open with this version and delay. */
  predicate OpenWith(w: World, chain: nat, i: nat, version: Version, delay: nat) {
    && chain in w && i in w[chain].connections
    && var e := w[chain].connections[i];
    && e.state.Open? && e.versions == [version] && e.delay == delay
  }

  lemma HonestFinish(s: Setting, w: World, a: nat, b: nat, i: nat, j: nat, clientA: string, clientB: string,
                     offered: seq<Version>, version: Version, delay: nat)
    requires ValidSetting(s) && a in s.prefix && b in s.prefix && Follows(s, a, clientA, b) && Follows(s, b, clientB, a)
    requires Halfway(s, w, a, b, i, j, clientA, clientB, offered, version, delay) && IsSupported(version, offered)
    ensures var v := Dispatch(s, Dispatch(s, w, MsgAck(a, i, j, version, |w[b].past| - 1)),
                              MsgConfirm(b, j, |w[a].past|));
      OpenWith(v, a, i, version, delay) && OpenWith(v, b, j, version, delay)
  {
    HonestAck(s, w, a, b, i, j, clientA, clientB, offered, version, delay);
    var w3 := Dispatch(s, w, MsgAck(a, i, j, version, |w[b].past| - 1));
    HonestConfirm(s, w3, a, b, i, j, clientA, clientB, version, delay);
  }

  /** The four messages one after the other, with the version that chain B picks. */
  lemma HonestSteps(s: Setting, w: World, a: nat, b: nat, clientA: string, clientB: string, version: Option<Version>,
                    agreed: Version, delay: nat)
    requires ValidSetting(s) && a in w && b in w && a in s.prefix && b in s.prefix
    requires Follows(s, a, clientA, b) && Follows(s, b, clientB, a)
    requires version.Some? ==> IsSupported(version.value, s.versions[a])
    requires Pick(s.versions[b], Offered(s, a, version)) == Some(agreed) && IsSupported(agreed, Offered(s, a, version))
    ensures var w1 := Dispatch(s, w, InitMsg(s, a, b, clientA, clientB, version, delay));
      var w2 := Dispatch(s, w1, TryMsg(s, w, a, b, clientA, clientB, Offered(s, a, version), delay));
      var v := Dispatch(s, Dispatch(s, w2, AckMsg(w, a, b, agreed)), ConfirmMsg(w, a, b));
      OpenWith(v, a, w[a].counter, agreed, delay) && OpenWith(v, b, FarId(w, a, b), agreed, delay)
  {
    var offered := Offered(s, a, version);
    var w1 := Dispatch(s, w, InitMsg(s, a, b, clientA, clientB, version, delay));
    var w2 := Dispatch(s, w1, TryMsg(s, w, a, b, clientA, clientB, offered, delay));
    HonestTryStores(s, w, a, b, clientA, clientB, version, delay);
    HonestFinish(s, w2, a, b, w[a].counter, FarId(w, a, b), clientA, clientB, offered, agreed, delay);
  }

  /** From any state, if the two chains have clients of each other, and B has a version in common with what A offers, be
      it a version that A supports or all of them, then relaying Init, Try, Ack and Confirm in turn opens a new
      connection on both, with B's choice and the delay that was asked for. */
  lemma HonestRelayOpens(s: Setting, w: World, a: nat, b: nat, clientA: string, clientB: string,
                         version: Option<Version>, delay: nat)
    requires ValidSetting(s) && a in w && b in w && a in s.prefix && b in s.prefix
    requires Follows(s, a, clientA, b) && Follows(s, b, clientB, a)
    requires version.Some? ==> IsSupported(version.value, s.versions[a])
    requires exists v <- s.versions[b] :: Compatible(v, Offered(s, a, version))
    ensures Pick(s.versions[b], Offered(s, a, version)).Some?
    ensures var offered, agreed := Offered(s, a, version), Pick(s.versions[b], Offered(s, a, version)).value;
      var v := Run(s, w, [InitMsg(s, a, b, clientA, clientB, version, delay),
                          TryMsg(s, w, a, b, clientA, clientB, offered, delay),
                          AckMsg(w, a, b, agreed), ConfirmMsg(w, a, b)]);
      OpenWith(v, a, w[a].counter, agreed, delay) && OpenWith(v, b, FarId(w, a, b), agreed, delay)
  {
    var offered := Offered(s, a, version);
    PickIsBest(s.versions[b], offered);
    var agreed := Pick(s.versions[b], offered).value;
    HonestSteps(s, w, a, b, clientA, clientB, version, agreed, delay);
    FourSteps(s, w, InitMsg(s, a, b, clientA, clientB, version, delay),
              TryMsg(s, w, a, b, clientA, clientB, offered, delay), AckMsg(w, a, b, agreed), ConfirmMsg(w, a, b));
  }

  lemma FourSteps(s: Setting, w: World, m1: Msg, m2: Msg, m3: Msg, m4: Msg)
    requires ValidSetting(s)
    ensures Run(s, w, [m1, m2, m3, m4]) == Dispatch(s, Dispatch(s, Dispatch(s, Dispatch(s, w, m1), m2), m3), m4)
  {
    var w1 := Dispatch(s, w, m1);
    var w2 := Dispatch(s, w1, m2);
    var w3 := Dispatch(s, w2, m3);
    calc {
      Run(s, w, [m1, m2, m3, m4]);
      { assert [m1, m2, m3, m4][1..] == [m2, m3, m4]; }
      Run(s, w1, [m2, m3, m4]);
      { assert [m2, m3, m4][1..] == [m3, m4]; }
      Run(s, w2, [m3, m4]);
      { assert [m3, m4][1..] == [m4]; }
      Run(s, w3, [m4]);
      { assert [m4][1..] == []; }
      Dispatch(s, w3, m4);
    }
  }
}
