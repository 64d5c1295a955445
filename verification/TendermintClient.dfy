/** The ICS-07 Tendermint light client: its validity predicate, the neighbour check that stands
    for monotonic time, and its updates. */
module TendermintClient {
  import opened Basics
  import opened Text

  datatype ConsensusState = ConsensusState(root: string, timestamp: nat, nextValidators: string)

  type ConsensusStates = map<Height, ConsensusState>

  datatype TrustThreshold = TrustThreshold(numerator: nat, denominator: nat)

  datatype AllowUpdate = AllowUpdate(afterExpiry: bool, afterMisbehaviour: bool)

  /** The chain identifier is `{chainName}-{revision}`. */
  datatype ClientState = ClientState(
    chainName: string, revision: nat, trustLevel: TrustThreshold, trustingPeriod: nat, unbondingPeriod: nat,
    maxClockDrift: nat, latestHeight: Height, proofSpecs: seq<string>, upgradePath: seq<string>,
    allowUpdate: AllowUpdate, frozenHeight: Option<Height>)

  const MAX_CHAIN_ID_LENGTH := 50
  const SENTINEL_ROOT := "sentinel_root"
  const FROZEN_AT := Height(0, 1)

  /** The chain name fits the length limits with every revision number behind it. */
  predicate NameFits(name: string) {
    PrefixFits(name, 3, MAX_CHAIN_ID_LENGTH)
  }

  /** A trust threshold between one third and one. */
  predicate ValidThreshold(t: TrustThreshold) {
    t.denominator != 0 && t.numerator <= t.denominator && t.denominator <= 3 * t.numerator
  }

  predicate Validate(cs: ClientState) {
    && NameFits(cs.chainName)
    && ValidThreshold(cs.trustLevel)
    && 0 < cs.trustingPeriod < cs.unbondingPeriod
    && 0 < cs.maxClockDrift
    && cs.latestHeight.revision == cs.revision
    && cs.proofSpecs != []
    && forall key <- cs.upgradePath :: !IsBlank(key)
  }

  /** A header with the hashes that its checks compare; `signed` is the verdict of the
      Tendermint verifier on it against the trusted state it names. */
  datatype Header = Header(
    chainName: string, height: Height, time: nat, root: string, nextValidators: string, blockHash: string,
    validators: string, validatorsHash: string, trustedHeight: Height, trustedNextValidators: string, signed: bool)

  function ConsensusOf(h: Header): ConsensusState {
    ConsensusState(h.root, h.time, h.nextValidators)
  }

  predicate ValidateBasic(h: Header) {
    && h.height.revision == h.trustedHeight.revision
    && Below(h.trustedHeight, h.height)
    && h.validators == h.validatorsHash
    && h.trustedNextValidators == h.nextValidators
  }

  predicate VerifyHeader(cs: ClientState, cons: ConsensusStates, h: Header) {
    && ValidateBasic(h)
    && h.height.revision == cs.revision
    && h.trustedHeight in cons
    && h.trustedNextValidators == cons[h.trustedHeight].nextValidators
    && h.signed
  }

  // ----- Neighbours -----

  predicate IsPrev(cons: ConsensusStates, h: Height, p: Height) {
    p in cons && Below(p, h) && forall q <- cons :: Below(q, h) ==> AtMost(q, p)
  }

  predicate IsNext(cons: ConsensusStates, h: Height, n: Height) {
    n in cons && Below(h, n) && forall q <- cons :: Below(h, q) ==> AtMost(n, q)
  }

  ghost function Prev(cons: ConsensusStates, h: Height): Option<Height> {
    if exists p :: IsPrev(cons, h, p) then var p :| IsPrev(cons, h, p); Some(p) else None
  }

  ghost function Next(cons: ConsensusStates, h: Height): Option<Height> {
    if exists n :: IsNext(cons, h, n) then var n :| IsNext(cons, h, n); Some(n) else None
  }

  /** The heights are listed in ascending order, each once. */
  predicate Ascending(heights: seq<Height>) {
    forall i, j :: 0 <= i < j < |heights| ==> Below(heights[i], heights[j])
  }

  /** The stored heights in ascending order. */
  method SortedHeights(cons: ConsensusStates) returns (sorted: seq<Height>)
    ensures Ascending(sorted)
    ensures forall h :: h in sorted <==> h in cons
  {
    sorted := [];
    var left := cons.Keys;
    while left != {}
      invariant left <= cons.Keys && Ascending(sorted)
      invariant forall h :: h in sorted <==> h in cons && h !in left
      decreases left
    {
      var h :| h in left;
      left := left - {h};
      var i := 0;
      while i < |sorted| && Below(sorted[i], h)
        invariant 0 <= i <= |sorted|
        invariant forall j :: 0 <= j < i ==> Below(sorted[j], h)
      {
        i := i + 1;
      }
      assert h !in sorted;
      assert i < |sorted| ==> sorted[i] in sorted && Below(h, sorted[i]);
      sorted := sorted[..i] + [h] + sorted[i..];
    }
  }

  /** The stored state next above a height, found by scanning upwards. */
  method NextConsensusState(cons: ConsensusStates, height: Height) returns (r: Option<ConsensusState>)
    ensures r == match Next(cons, height) case None => None case Some(n) => Some(cons[n])
  {
    var heights := SortedHeights(cons);
    for i := 0 to |heights|
      invariant forall j :: 0 <= j < i ==> !Below(height, heights[j])
    {
      if Below(height, heights[i]) {
        forall q <- cons | Below(height, q) ensures AtMost(heights[i], q) {
          var j :| 0 <= j < |heights| && heights[j] == q;
        }
        assert heights[i] in heights && IsNext(cons, height, heights[i]);
        return Some(cons[heights[i]]);
      }
    }
    assert forall n <- cons :: n in heights;
    return None;
  }

  /** The stored state next below a height, found by scanning downwards. */
  method PrevConsensusState(cons: ConsensusStates, height: Height) returns (r: Option<ConsensusState>)
    ensures r == match Prev(cons, height) case None => None case Some(p) => Some(cons[p])
  {
    var heights := SortedHeights(cons);
    for i := |heights| downto 0
      invariant forall j :: i <= j < |heights| ==> !Below(heights[j], height)
    {
      if Below(heights[i], height) {
        forall q <- cons | Below(q, height) ensures AtMost(q, heights[i]) {
          var j :| 0 <= j < |heights| && heights[j] == q;
        }
        assert heights[i] in heights && IsPrev(cons, height, heights[i]);
        return Some(cons[heights[i]]);
      }
    }
    assert forall p <- cons :: p in heights;
    return None;
  }

  lemma {:induction false} PrevExists(cons: ConsensusStates, h: Height, q: Height)
    requires q in cons && Below(q, h)
    ensures Prev(cons, h).Some?
  {
    var p := HighestBelow(cons, cons.Keys, h, q);
    assert IsPrev(cons, h, p);
  }

  lemma {:induction false} HighestBelow(cons: ConsensusStates, some: set<Height>, h: Height,
                                        q: Height) returns (p: Height)
    requires some <= cons.Keys && q in some && Below(q, h)
    ensures p in some && Below(p, h) && forall r <- some :: Below(r, h) ==> AtMost(r, p)
    decreases some
  {
    p := q;
    if r :| r in some && Below(r, h) && !AtMost(r, q) {
      p := HighestBelow(cons, some - {q}, h, r);
    }
  }

  lemma {:induction false} NextExists(cons: ConsensusStates, h: Height, q: Height)
    requires q in cons && Below(h, q)
    ensures Next(cons, h).Some?
  {
    var n := LowestAbove(cons, cons.Keys, h, q);
    assert IsNext(cons, h, n);
  }

  lemma {:induction false} LowestAbove(cons: ConsensusStates, some: set<Height>, h: Height,
                                       q: Height) returns (n: Height)
    requires some <= cons.Keys && q in some && Below(h, q)
    ensures n in some && Below(h, n) && forall r <- some :: Below(h, r) ==> AtMost(n, r)
    decreases some
  {
    n := q;
    if r :| r in some && Below(h, r) && !AtMost(q, r) {
      n := LowestAbove(cons, some - {q}, h, r);
    }
  }

  // ----- Misbehaviour -----

  /** A header conflicts with what is stored, or does not fit in time between its neighbours. */
  ghost predicate Misbehaves(cs: ClientState, cons: ConsensusStates, h: Header) {
    if h.height in cons then cons[h.height] != ConsensusOf(h) else
      var p, n := Prev(cons, h.height), Next(cons, h.height);
      || (p.Some? && h.time <= cons[p.value].timestamp)
      || (Below(h.height, cs.latestHeight) && n.Some? && cons[n.value].timestamp <= h.time)
  }

  method CheckForMisbehaviour(cs: ClientState, cons: ConsensusStates, h: Header) returns (found: bool)
    ensures found == Misbehaves(cs, cons, h)
  {
    if h.height in cons {
      return cons[h.height] != ConsensusOf(h);
    }
    var prev := PrevConsensusState(cons, h.height);
    if prev.Some? && h.time <= prev.value.timestamp {
      return true;
    }
    if Below(h.height, cs.latestHeight) {
      var next := NextConsensusState(cons, h.height);
      if next.Some? && next.value.timestamp <= h.time {
        return true;
      }
    }
    return false;
  }

  /** Time strictly increases with height. */
  predicate Monotone(cons: ConsensusStates) {
    forall a <- cons, b <- cons :: Below(a, b) ==> cons[a].timestamp < cons[b].timestamp
  }

  /** The latest height is stored, and nothing is stored above it. */
  predicate IsHighest(cons: ConsensusStates, latest: Height) {
    latest in cons && forall h <- cons :: AtMost(h, latest)
  }

  /** The two neighbours decide for the whole store: a header passes exactly when storing it at its own
      height would contradict nothing stored and keep time strictly increasing everywhere. */
  lemma NeighbourCheckIsExact(cs: ClientState, cons: ConsensusStates, h: Header)
    requires Monotone(cons) && IsHighest(cons, cs.latestHeight)
    ensures !Misbehaves(cs, cons, h) <==>
      (h.height in cons ==> cons[h.height] == ConsensusOf(h)) && Monotone(cons[h.height := ConsensusOf(h)])
  {
    if h.height in cons {
      if cons[h.height] == ConsensusOf(h) {
        assert cons[h.height := ConsensusOf(h)] == cons;
      }
    } else {
      var all := cons[h.height := ConsensusOf(h)];
      if !Misbehaves(cs, cons, h) {
        forall q <- cons ensures Below(q, h.height) ==> cons[q].timestamp < h.time {
          if Below(q, h.height) { PrevExists(cons, h.height, q); }
        }
        forall q <- cons ensures Below(h.height, q) ==> h.time < cons[q].timestamp {
          if Below(h.height, q) { NextExists(cons, h.height, q); }
        }
        forall a <- all, b <- all | Below(a, b) ensures all[a].timestamp < all[b].timestamp {
        }
      }
    }
  }

  /** Two headers are evidence when they share a height but not a block, or the higher is not later. */
  predicate Evidence(h1: Header, h2: Header) {
    if h1.height == h2.height then h1.blockHash != h2.blockHash else h1.time <= h2.time
  }

  datatype Block = Block(hash: string, time: nat)

  predicate HonestChain(chain: map<Height, Block>) {
    forall a <- chain, b <- chain :: Below(a, b) ==> chain[a].time < chain[b].time
  }

  predicate Contains(chain: map<Height, Block>, h: Header) {
    h.height in chain && chain[h.height] == Block(h.blockHash, h.time)
  }

  /** Evidence is found exactly when no chain with increasing time could contain both headers. */
  lemma EvidenceIsExact(h1: Header, h2: Header)
    requires AtMost(h2.height, h1.height)
    requires h1.blockHash == h2.blockHash ==> h1.time == h2.time
    ensures Evidence(h1, h2) <==> !exists chain :: HonestChain(chain) && Contains(chain, h1) && Contains(chain, h2)
  {
    if !Evidence(h1, h2) {
      var chain := map[h1.height := Block(h1.blockHash, h1.time), h2.height := Block(h2.blockHash, h2.time)];
      assert HonestChain(chain) && Contains(chain, h1) && Contains(chain, h2);
    }
  }

  // ----- Updates -----

  function WithHeader(cs: ClientState, h: Header): ClientState {
    cs.(latestHeight := MaxHeight(cs.latestHeight, h.height))
  }

  /** The consensus states after a good header: a header at a stored height changes nothing, and any
      other is stored under the client's new latest height. */
  function Updated(cs: ClientState, cons: ConsensusStates, h: Header): ConsensusStates {
    if h.height in cons then cons else cons[WithHeader(cs, h).latestHeight := ConsensusOf(h)]
  }

  /** Some stored height lies strictly between the header and the latest height. */
  predicate Between(cons: ConsensusStates, low: Height, high: Height) {
    exists q <- cons :: Below(low, q) && Below(q, high)
  }

  /** A header that passes the check keeps time increasing in the store exactly when its height is stored
      already, is above the latest height, or has no stored height between it and the latest. */
  lemma UpdateKeepsTimeExactly(cs: ClientState, cons: ConsensusStates, h: Header)
    requires Monotone(cons) && IsHighest(cons, cs.latestHeight) && !Misbehaves(cs, cons, h)
    ensures Monotone(Updated(cs, cons, h)) <==>
      h.height in cons || Below(cs.latestHeight, h.height) || !Between(cons, h.height, cs.latestHeight)
  {
    NeighbourCheckIsExact(cs, cons, h);
    if h.height !in cons {
      var own := cons[h.height := ConsensusOf(h)];
      if Below(h.height, cs.latestHeight) {
        var latest, after := cs.latestHeight, Updated(cs, cons, h);
        if Between(cons, h.height, latest) {
          var q :| q in cons && Below(h.height, q) && Below(q, latest);
          assert own[h.height].timestamp < own[q].timestamp;
          assert after[latest].timestamp < after[q].timestamp;
        } else {
          forall a <- after, b <- after | Below(a, b) ensures after[a].timestamp < after[b].timestamp {
            assert a in cons && b in cons;
            if b == latest {
              assert Below(a, h.height);
              assert own[a].timestamp < own[h.height].timestamp;
            }
          }
        }
      }
    }
  }

  /** The state at a header's own height is the header's exactly when it was stored, or is the new highest. */
  lemma StoredUnderOwnHeightExactly(cs: ClientState, cons: ConsensusStates, h: Header)
    requires IsHighest(cons, cs.latestHeight) && !Misbehaves(cs, cons, h)
    ensures (h.height in Updated(cs, cons, h) && Updated(cs, cons, h)[h.height] == ConsensusOf(h)) <==>
      h.height in cons || Below(cs.latestHeight, h.height)
  {
  }
}
