/** The versions of connections over whole runs of the handshake: what an Init offers, and that what both ends agree on
    was offered and is supported by both chains. */
module VersionAgreement {
  import opened Basics
  import opened Versions
  import opened Handshake

  /** Some version of the list has the identifier and all the features. */
  predicate Covered(v: Version, versions: seq<Version>) {
    exists u <- versions :: u.id == v.id && forall f <- v.features :: f in u.features
  }

  predicate AllCovered(vs: seq<Version>, versions: seq<Version>) {
    forall v <- vs :: Covered(v, versions)
  }

  lemma CoveredByAll(v: Version, vs: seq<Version>, versions: seq<Version>)
    requires Covered(v, vs) && AllCovered(vs, versions)
    ensures Covered(v, versions)
  {
    var u :| u in vs && u.id == v.id && forall f <- v.features :: f in u.features;
    assert Covered(u, versions);
  }

  /** No identifier is listed twice. */
  predicate DistinctIds(versions: seq<Version>) {
    forall u <- versions, v <- versions :: u.id == v.id ==> u == v
  }

  /** The check on a version finds exactly those with features of a listed version, if no identifier is listed twice;
      what it finds is covered in any case. */
  lemma SupportedIsCovered(v: Version, versions: seq<Version>)
    ensures IsSupported(v, versions) ==> v.features != [] && Covered(v, versions)
    ensures DistinctIds(versions) ==> (IsSupported(v, versions) <==> v.features != [] && Covered(v, versions))
  {
    if v.features != [] && Covered(v, versions) && DistinctIds(versions) {
      var u :| u in versions && u.id == v.id && forall f <- v.features :: f in u.features;
      assert Find(v.id, versions) == Some(u);
    }
  }

  /** What a responder picks has features, its own and the initiator's. */
  lemma PickIsCovered(own: seq<Version>, theirs: seq<Version>)
    requires Pick(own, theirs).Some?
    ensures var p := Pick(own, theirs).value; p.features != [] && Covered(p, own) && Covered(p, theirs)
  {
    PickIsBest(own, theirs);
    SupportedIsCovered(Pick(own, theirs).value, theirs);
  }

  // ----- The Init -----

  /** An Init is accepted exactly if it names no version or one that the chain supports; it offers exactly the named
      version, or else all that the chain supports. Nothing else of the chain changes. */
  lemma InitOffersExactly(supported: seq<Version>, c: Chain, client: string, farClient: string, farPrefix: string,
                          version: Option<Version>, delay: nat)
    ensures var r := OpenInit(supported, c, client, farClient, farPrefix, version, delay);
      && (r.Some? <==> version.None? || IsSupported(version.value, supported))
      && (r.Some? ==>
            && r.value.connections == c.connections[c.counter :=
                 ConnectionEnd(Init, client, Counterparty(farClient, None, farPrefix),
                               if version.Some? then [version.value] else supported, delay)]
            && AllCovered(r.value.connections[c.counter].versions, supported)
            && r.value.counter == c.counter + 1 && r.value.past == c.past + [r.value.connections])
  {
    if version.Some? {
      SupportedIsCovered(version.value, supported);
    }
  }

  // ----- What every run keeps -----

  /** The connection has only versions that its chain supports, and past Init exactly one, with features. */
  predicate VersionsOk(supported: seq<Version>, e: ConnectionEnd) {
    && AllCovered(e.versions, supported)
    && (!e.state.Init? ==> |e.versions| == 1 && e.versions[0].features != [])
  }

  ghost predicate ChainVersionsOk(s: Setting, chain: nat, c: Chain) {
    chain in s.versions && forall i <- c.connections :: VersionsOk(s.versions[chain], c.connections[i])
  }

  ghost predicate AllVersionsOk(s: Setting, w: World) {
    forall chain <- w :: ChainVersionsOk(s, chain, w[chain])
  }

  lemma OneCovered(v: Version, versions: seq<Version>)
    requires Covered(v, versions)
    ensures AllCovered([v], versions)
  {
  }

  /** The connection that a message creates or changes. */
  lemma TouchedVersions(s: Setting, w: World, m: Msg)
    requires ValidSetting(s) && Handle(s, w, m).Some? && ChainVersionsOk(s, m.at, w[m.at])
    ensures var d := Handle(s, w, m).value;
      Touched(w, m) in d.connections && VersionsOk(s.versions[m.at], d.connections[Touched(w, m)])
  {
    var supported := s.versions[m.at];
    match m
    case MsgInit(_, client, farClient, farPrefix, version, delay) =>
      InitOffersExactly(supported, w[m.at], client, farClient, farPrefix, version, delay);
    case MsgTry(_, _, _, versions, _, _) =>
      PickIsCovered(supported, versions);
      OneCovered(Pick(supported, versions).value, supported);
    case MsgAck(_, id, _, chosen, _) =>
      SupportedIsCovered(chosen, w[m.at].connections[id].versions);
      CoveredByAll(chosen, w[m.at].connections[id].versions, supported);
      OneCovered(chosen, supported);
    case MsgConfirm(_, _, _) =>
  }

  lemma DispatchKeepsVersions(s: Setting, w: World, m: Msg)
    requires ValidSetting(s) && AllVersionsOk(s, w)
    ensures AllVersionsOk(s, Dispatch(s, w, m))
  {
    if Handle(s, w, m).Some? {
      TouchedVersions(s, w, m);
      HandleTouches(s, w, m);
    }
  }

  /** In every run, every connection has only versions that its chain supports. */
  lemma {:induction false} RunKeepsVersions(s: Setting, w: World, msgs: seq<Msg>)
    requires ValidSetting(s) && AllVersionsOk(s, w)
    ensures AllVersionsOk(s, Run(s, w, msgs))
    decreases |msgs|
  {
    if msgs != [] {
      DispatchKeepsVersions(s, w, msgs[0]);
      RunKeepsVersions(s, Dispatch(s, w, msgs[0]), msgs[1..]);
    }
  }

  // ----- What a connection agrees on -----

  lemma StepNarrows(s: Setting, w: World, m: Msg, chain: nat, i: nat)
    requires ValidSetting(s) && WorldInv(s, w) && chain in w && i in w[chain].connections
    ensures var v := Dispatch(s, w, m);
      && chain in v && i in v[chain].connections
      && AllCovered(v[chain].connections[i].versions, w[chain].connections[i].versions)
  {
    assert ChainOk(s, w, chain) && EndOk(s, w, chain, i);
    if Handle(s, w, m).Some? && m.at == chain && m.MsgAck? && m.id == i {
      SupportedIsCovered(m.chosen, w[chain].connections[i].versions);
      OneCovered(m.chosen, w[chain].connections[i].versions);
    }
  }

  /** In every run, a connection keeps to what it offered: each of its later versions is one of the earlier ones, perhaps
      with fewer features. */
  lemma {:induction false} RunNarrows(s: Setting, w: World, msgs: seq<Msg>, chain: nat, i: nat)
    requires ValidSetting(s) && WorldInv(s, w) && chain in w && i in w[chain].connections
    ensures var v := Run(s, w, msgs);
      && chain in v && i in v[chain].connections
      && AllCovered(v[chain].connections[i].versions, w[chain].connections[i].versions)
    decreases |msgs|
  {
    if msgs != [] {
      var u, v := Dispatch(s, w, msgs[0]), Run(s, w, msgs);
      StepNarrows(s, w, msgs[0], chain, i);
      DispatchKeepsInv(s, w, msgs[0]);
      RunNarrows(s, u, msgs[1..], chain, i);
      forall x <- v[chain].connections[i].versions ensures Covered(x, w[chain].connections[i].versions) {
        CoveredByAll(x, u[chain].connections[i].versions, w[chain].connections[i].versions);
      }
    }
  }

  lemma StartVersions(s: Setting, w: World)
    requires ValidSetting(s) && Start(s, w)
    ensures AllVersionsOk(s, w)
  {
  }

  /** In every run, the version of every open connection has features, and its identifier and features are supported by
      both chains. */
  lemma OpenVersionIsCommon(s: Setting, start: World, msgs: seq<Msg>, chain: nat, i: nat)
    requires ValidSetting(s) && Start(s, start)
    requires var w := Run(s, start, msgs); chain in w && i in w[chain].connections && w[chain].connections[i].state.Open?
    ensures var e := Run(s, start, msgs)[chain].connections[i];
      && |e.versions| == 1 && e.versions[0].features != []
      && chain in s.versions && Covered(e.versions[0], s.versions[chain])
      && Client(chain, e.client) in s.tracks && s.tracks[Client(chain, e.client)] in s.versions
      && Covered(e.versions[0], s.versions[s.tracks[Client(chain, e.client)]])
  {
    var w := Run(s, start, msgs);
    StartVersions(s, start);
    RunKeepsVersions(s, start, msgs);
    Agreement(s, start, msgs, chain, i);
    var e := w[chain].connections[i];
    var far, j := s.tracks[Client(chain, e.client)], e.counterparty.connection.value;
    assert ChainVersionsOk(s, chain, w[chain]) && ChainVersionsOk(s, far, w[far]);
    assert VersionsOk(s.versions[chain], e) && VersionsOk(s.versions[far], w[far].connections[j]);
  }

  /** If an Init names a version, then whatever happens after it, once the connection is open both its ends have that
      version, perhaps with fewer features. */
  lemma NamedVersionIsAgreed(s: Setting, start: World, before: seq<Msg>, m: Msg, after: seq<Msg>)
    requires ValidSetting(s) && Start(s, start) && m.MsgInit? && m.version.Some?
    requires Handle(s, Run(s, start, before), m).Some?
    requires var w, i := Run(s, start, before + [m] + after), Run(s, start, before)[m.at].counter;
      m.at in w && i in w[m.at].connections && w[m.at].connections[i].state.Open?
    ensures var w, i := Run(s, start, before + [m] + after), Run(s, start, before)[m.at].counter;
      && Agrees(s, w, m.at, i)
      && var e := w[m.at].connections[i];
      && var f := w[s.tracks[Client(m.at, e.client)]].connections[e.counterparty.connection.value];
      && e.versions == f.versions && |e.versions| == 1 && e.versions[0].features != []
      && e.versions[0].id == m.version.value.id
      && forall x <- e.versions[0].features :: x in m.version.value.features
  {
    var u := Run(s, start, before);
    var i, v := u[m.at].counter, Dispatch(s, u, m);
    var w := Run(s, start, before + [m] + after);
    StartInv(s, start);
    RunIsLater(s, start, before);
    DispatchKeepsInv(s, u, m);
    RunSplits(s, start, before, m, after);
    InitOffersExactly(s.versions[m.at], u[m.at], m.client, m.farClient, m.farPrefix, m.version, m.delay);
    RunNarrows(s, v, after, m.at, i);
    OpenVersionIsCommon(s, start, before + [m] + after, m.at, i);
    Agreement(s, start, before + [m] + after, m.at, i);
    assert Covered(w[m.at].connections[i].versions[0], [m.version.value]);
  }

  lemma {:induction false} RunSplits(s: Setting, w: World, before: seq<Msg>, m: Msg, after: seq<Msg>)
    requires ValidSetting(s)
    ensures Run(s, w, before + [m] + after) == Run(s, Dispatch(s, Run(s, w, before), m), after)
    decreases |before|
  {
    if before == [] {
      assert ([] + [m] + after)[1..] == after;
    } else {
      assert (before + [m] + after)[1..] == before[1..] + [m] + after;
      RunSplits(s, Dispatch(s, w, before[0]), before[1..], m, after);
    }
  }
}
