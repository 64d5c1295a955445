/** The paths under which a chain stores its IBC state, printed and parsed. */
module Paths {
  import opened Basics
  import opened Text

  datatype Path =
    | ClientState(client: string)
    | ClientConsensusState(client: string, epoch: nat, height: nat)
    | ClientConnection(client: string)
    | Connection(connection: string)
    | Ports(port: string)
    | ChannelEnd(port: string, channel: string)
    | SeqSend(port: string, channel: string)
    | SeqRecv(port: string, channel: string)
    | SeqAck(port: string, channel: string)
    | Commitment(port: string, channel: string, sequence: nat)
    | Ack(port: string, channel: string, sequence: nat)
    | Receipt(port: string, channel: string, sequence: nat)
    | UpgradedClientState(height: nat)
    | UpgradedClientConsensusState(height: nat)

  predicate ValidPath(p: Path) {
    match p
    case ClientState(c) => IsClientId(c)
    case ClientConsensusState(c, epoch, height) => IsClientId(c) && epoch <= U64_MAX && height <= U64_MAX
    case ClientConnection(c) => IsClientId(c)
    case Connection(c) => IsConnectionId(c)
    case Ports(port) => IsPortId(port)
    case ChannelEnd(port, channel) => IsPortId(port) && IsChannelId(channel)
    case SeqSend(port, channel) => IsPortId(port) && IsChannelId(channel)
    case SeqRecv(port, channel) => IsPortId(port) && IsChannelId(channel)
    case SeqAck(port, channel) => IsPortId(port) && IsChannelId(channel)
    case Commitment(port, channel, n) => IsPortId(port) && IsChannelId(channel) && n <= U64_MAX
    case Ack(port, channel, n) => IsPortId(port) && IsChannelId(channel) && n <= U64_MAX
    case Receipt(port, channel, n) => IsPortId(port) && IsChannelId(channel) && n <= U64_MAX
    case UpgradedClientState(height) => height <= U64_MAX
    case UpgradedClientConsensusState(height) => height <= U64_MAX
  }

  // ----- Printing -----

  function ChannelParts(first: string, port: string, channel: string): seq<string> {
    [first, "ports", port, "channels", channel]
  }

  function SequenceParts(first: string, port: string, channel: string, n: nat): seq<string> {
    ChannelParts(first, port, channel) + ["sequences", PrintNat(n)]
  }

  function Parts(p: Path): seq<string> {
    match p
    case ClientState(c) => ["clients", c, "clientState"]
    case ClientConsensusState(c, epoch, height) => ["clients", c, "consensusStates",
                                                    PrintNat(epoch) + "-" + PrintNat(height)]
    case ClientConnection(c) => ["clients", c, "connections"]
    case Connection(c) => ["connections", c]
    case Ports(port) => ["ports", port]
    case ChannelEnd(port, channel) => ChannelParts("channelEnds", port, channel)
    case SeqSend(port, channel) => ChannelParts("nextSequenceSend", port, channel)
    case SeqRecv(port, channel) => ChannelParts("nextSequenceRecv", port, channel)
    case SeqAck(port, channel) => ChannelParts("nextSequenceAck", port, channel)
    case Commitment(port, channel, n) => SequenceParts("commitments", port, channel, n)
    case Ack(port, channel, n) => SequenceParts("acks", port, channel, n)
    case Receipt(port, channel, n) => SequenceParts("receipts", port, channel, n)
    case UpgradedClientState(height) => ["upgradedIBCState", PrintNat(height), "upgradedClient"]
    case UpgradedClientConsensusState(height) => ["upgradedIBCState", PrintNat(height), "upgradedConsState"]
  }

  function Print(p: Path): string {
    Join(Parts(p), '/')
  }

  // ----- Parsing -----

  /** A parser finds a path, finds none, or reads past the end of its components. */
  datatype Outcome = Found(path: Path) | NotFound | OutOfBounds

  function ParseClientPaths(c: seq<string>): Outcome {
    if c == [] || c[0] != "clients" then NotFound
    else if |c| == 1 then OutOfBounds
    else if !IsClientId(c[1]) then NotFound
    else if |c| == 3 then
      if c[2] == "clientState" then Found(ClientState(c[1]))
      else if c[2] == "connections" then Found(ClientConnection(c[1]))
      else NotFound
    else if |c| == 4 && c[2] == "consensusStates" then
      var heights := Split(c[3], '-');
      if |heights| != 2 || ParseU64(heights[0]).None? || ParseU64(heights[1]).None? then NotFound
      else Found(ClientConsensusState(c[1], ParseU64(heights[0]).value, ParseU64(heights[1]).value))
    else NotFound
  }

  function ParseConnections(c: seq<string>): Outcome {
    if |c| == 2 && c[0] == "connections" && IsConnectionId(c[1]) then Found(Connection(c[1])) else NotFound
  }

  function ParsePorts(c: seq<string>): Outcome {
    if |c| == 2 && c[0] == "ports" && IsPortId(c[1]) then Found(Ports(c[1])) else NotFound
  }

  predicate HasChannel(c: seq<string>) {
    |c| >= 5 && ParsePorts(c[1..3]).Found? && c[3] == "channels" && IsChannelId(c[4])
  }

  predicate HasSequence(c: seq<string>) {
    |c| == 7 && HasChannel(c) && c[5] == "sequences" && ParseU64(c[6]).Some?
  }

  function ParseChannelEnds(c: seq<string>): Outcome {
    if |c| == 5 && c[0] == "channelEnds" && HasChannel(c) then Found(ChannelEnd(c[2], c[4])) else NotFound
  }

  function ParseSeqs(c: seq<string>): Outcome {
    if |c| != 5 || !HasChannel(c) then NotFound
    else if c[0] == "nextSequenceSend" then Found(SeqSend(c[2], c[4]))
    else if c[0] == "nextSequenceRecv" then Found(SeqRecv(c[2], c[4]))
    else if c[0] == "nextSequenceAck" then Found(SeqAck(c[2], c[4]))
    else NotFound
  }

  function ParseCommitments(c: seq<string>): Outcome {
    if HasSequence(c) && c[0] == "commitments" then Found(Commitment(c[2], c[4], ParseU64(c[6]).value)) else NotFound
  }

  function ParseAcks(c: seq<string>): Outcome {
    if HasSequence(c) && c[0] == "acks" then Found(Ack(c[2], c[4], ParseU64(c[6]).value)) else NotFound
  }

  function ParseReceipts(c: seq<string>): Outcome {
    if HasSequence(c) && c[0] == "receipts" then Found(Receipt(c[2], c[4], ParseU64(c[6]).value)) else NotFound
  }

  function ParseUpgrades(c: seq<string>): Outcome {
    if |c| != 3 || c[0] != "upgradedIBCState" || ParseU64(c[1]).None? then NotFound
    else if c[2] == "upgradedClient" then Found(UpgradedClientState(ParseU64(c[1]).value))
    else if c[2] == "upgradedConsState" then Found(UpgradedClientConsensusState(ParseU64(c[1]).value))
    else NotFound
  }

  /** The nine parsers, in the order in which they are tried. */
  function Attempts(c: seq<string>): seq<Outcome> {
    [ParseClientPaths(c), ParseConnections(c), ParsePorts(c), ParseChannelEnds(c), ParseSeqs(c),
     ParseCommitments(c), ParseAcks(c), ParseReceipts(c), ParseUpgrades(c)]
  }

  /** The first outcome that is not a miss. */
  function FirstHit(outcomes: seq<Outcome>): Outcome {
    if outcomes == [] then NotFound
    else if outcomes[0].NotFound? then FirstHit(outcomes[1..])
    else outcomes[0]
  }

  function Parse(s: string): Outcome {
    FirstHit(Attempts(Split(s, '/')))
  }

  // ----- Properties -----

  /** The first components that each parser looks for. */
  function Heads(i: nat): set<string>
    requires i < 9
  {
    if i == 0 then {"clients"} else if i == 1 then {"connections"} else if i == 2 then {"ports"}
    else if i == 3 then {"channelEnds"} else if i == 4 then {"nextSequenceSend", "nextSequenceRecv", "nextSequenceAck"}
    else if i == 5 then {"commitments"} else if i == 6 then {"acks"} else if i == 7 then {"receipts"}
    else {"upgradedIBCState"}
  }

  lemma HitsHaveTheirHead(c: seq<string>, i: nat)
    requires i < 9 && !Attempts(c)[i].NotFound?
    ensures c != [] && c[0] in Heads(i)
  {
  }

  lemma HeadsAreDisjoint(i: nat, j: nat)
    requires i < j < 9
    ensures Heads(i) !! Heads(j)
  {
  }

  /** At most one of the nine parsers reacts to any list of components. */
  lemma AtMostOneHits(c: seq<string>, i: nat, j: nat)
    requires i < 9 && j < 9 && !Attempts(c)[i].NotFound? && !Attempts(c)[j].NotFound?
    ensures i == j
  {
    HitsHaveTheirHead(c, i);
    HitsHaveTheirHead(c, j);
    if i < j { HeadsAreDisjoint(i, j); }
    if j < i { HeadsAreDisjoint(j, i); }
  }

  lemma {:induction false} OnlyHitIsFirst(outcomes: seq<Outcome>, i: nat)
    requires i < |outcomes| && !outcomes[i].NotFound?
    requires forall j: nat :: j < |outcomes| && !outcomes[j].NotFound? ==> j == i
    ensures FirstHit(outcomes) == outcomes[i]
  {
    if i > 0 {
      assert outcomes[0].NotFound?;
      OnlyHitIsFirst(outcomes[1..], i - 1);
    }
  }

  /** The parser that is responsible for a path. */
  function ParserOf(p: Path): nat {
    match p
    case ClientState(_) => 0
    case ClientConsensusState(_, _, _) => 0
    case ClientConnection(_) => 0
    case Connection(_) => 1
    case Ports(_) => 2
    case ChannelEnd(_, _) => 3
    case SeqSend(_, _) => 4
    case SeqRecv(_, _) => 4
    case SeqAck(_, _) => 4
    case Commitment(_, _, _) => 5
    case Ack(_, _, _) => 6
    case Receipt(_, _, _) => 7
    case UpgradedClientState(_) => 8
    case UpgradedClientConsensusState(_) => 8
  }

  lemma NumberHasNoSeparator(n: nat)
    ensures '/' !in PrintNat(n) && '-' !in PrintNat(n)
  {
    PrintedDigits(n);
  }

  lemma HeightsSplit(epoch: nat, height: nat)
    ensures Split(PrintNat(epoch) + "-" + PrintNat(height), '-') == [PrintNat(epoch), PrintNat(height)]
  {
    NumberHasNoSeparator(epoch);
    NumberHasNoSeparator(height);
    SplitAfter(PrintNat(epoch), PrintNat(height), '-');
    SplitPiece(PrintNat(height), '-');
  }

  lemma ChannelPartsParse(first: string, port: string, channel: string, more: seq<string>)
    requires IsPortId(port) && IsChannelId(channel)
    ensures HasChannel(ChannelParts(first, port, channel) + more)
  {
    var c := ChannelParts(first, port, channel) + more;
    assert c[1..3] == ["ports", port];
  }

  lemma SequencePartsParse(first: string, port: string, channel: string, n: nat)
    requires IsPortId(port) && IsChannelId(channel) && n <= U64_MAX
    ensures HasSequence(SequenceParts(first, port, channel, n))
    ensures ParseU64(PrintNat(n)) == Some(n)
  {
    ChannelPartsParse(first, port, channel, ["sequences", PrintNat(n)]);
    ParseUndoesPrint(n);
  }

  lemma ClientPartsParse(p: Path)
    requires ValidPath(p) && ParserOf(p) == 0
    ensures ParseClientPaths(Parts(p)) == Found(p)
  {
    if p.ClientConsensusState? {
      HeightsSplit(p.epoch, p.height);
      ParseUndoesPrint(p.epoch);
      ParseUndoesPrint(p.height);
    }
  }

  lemma ChannelPathParse(p: Path)
    requires ValidPath(p) && 3 <= ParserOf(p) <= 4
    ensures (if p.ChannelEnd? then ParseChannelEnds(Parts(p)) else ParseSeqs(Parts(p))) == Found(p)
  {
    ChannelPartsParse(Parts(p)[0], p.port, p.channel, []);
    assert Parts(p) == ChannelParts(Parts(p)[0], p.port, p.channel) + [];
  }

  lemma SequencePathParse(p: Path)
    requires ValidPath(p) && 5 <= ParserOf(p) <= 7
    ensures (if p.Commitment? then ParseCommitments(Parts(p)) else if p.Ack? then ParseAcks(Parts(p))
             else ParseReceipts(Parts(p))) == Found(p)
  {
    SequencePartsParse(Parts(p)[0], p.port, p.channel, p.sequence);
  }

  lemma UpgradePathParse(p: Path)
    requires ValidPath(p) && ParserOf(p) == 8
    ensures ParseUpgrades(Parts(p)) == Found(p)
  {
    ParseUndoesPrint(p.height);
  }

  /** Its own parser reads back the components of a path. */
  lemma PartsParse(p: Path)
    requires ValidPath(p)
    ensures Attempts(Parts(p))[ParserOf(p)] == Found(p)
  {
    if ParserOf(p) == 0 { ClientPartsParse(p); }
    else if ParserOf(p) == 8 { UpgradePathParse(p); }
    else if 5 <= ParserOf(p) <= 7 { SequencePathParse(p); }
    else if 3 <= ParserOf(p) <= 4 { ChannelPathParse(p); }
  }

  predicate Clean(parts: seq<string>) {
    forall part <- parts :: '/' !in part
  }

  lemma ClientPartsClean(c: string, kind: string, more: seq<string>)
    requires IsClientId(c) && '/' !in kind && Clean(more)
    ensures Clean(["clients", c, kind] + more)
  {
    assert '/' !in "clients";
    IdentifierHasNoSlash(c, 9, 64);
  }

  lemma ChannelPartsClean(first: string, port: string, channel: string, more: seq<string>)
    requires '/' !in first && IsPortId(port) && IsChannelId(channel) && Clean(more)
    ensures Clean(ChannelParts(first, port, channel) + more)
  {
    assert '/' !in "ports" && '/' !in "channels";
    IdentifierHasNoSlash(port, 2, 128);
    IdentifierHasNoSlash(channel, 8, 64);
  }

  lemma SequencePartsClean(first: string, port: string, channel: string, n: nat)
    requires '/' !in first && IsPortId(port) && IsChannelId(channel)
    ensures Clean(SequenceParts(first, port, channel, n))
  {
    NumberHasNoSeparator(n);
    assert '/' !in "sequences";
    ChannelPartsClean(first, port, channel, ["sequences", PrintNat(n)]);
  }

  lemma ClientPathClean(p: Path)
    requires ValidPath(p) && ParserOf(p) == 0
    ensures Clean(Parts(p))
  {
    match p
    case ClientState(c) =>
      assert '/' !in "clientState";
      ClientPartsClean(c, "clientState", []);
      assert Parts(p) == ["clients", c, "clientState"] + [];
    case ClientConnection(c) =>
      assert '/' !in "connections";
      ClientPartsClean(c, "connections", []);
      assert Parts(p) == ["clients", c, "connections"] + [];
    case ClientConsensusState(c, epoch, height) =>
      NumberHasNoSeparator(epoch);
      NumberHasNoSeparator(height);
      assert '/' !in "consensusStates";
      var heights := PrintNat(epoch) + "-" + PrintNat(height);
      ClientPartsClean(c, "consensusStates", [heights]);
      assert Parts(p) == ["clients", c, "consensusStates"] + [heights];
  }

  lemma ChannelPathClean(p: Path)
    requires ValidPath(p) && 3 <= ParserOf(p) <= 7
    ensures Clean(Parts(p))
  {
    match p
    case ChannelEnd(port, channel) =>
      assert '/' !in "channelEnds";
      ChannelPartsClean("channelEnds", port, channel, []);
      assert Parts(p) == Parts(p) + [];
    case SeqSend(port, channel) =>
      assert '/' !in "nextSequenceSend";
      ChannelPartsClean("nextSequenceSend", port, channel, []);
      assert Parts(p) == Parts(p) + [];
    case SeqRecv(port, channel) =>
      assert '/' !in "nextSequenceRecv";
      ChannelPartsClean("nextSequenceRecv", port, channel, []);
      assert Parts(p) == Parts(p) + [];
    case SeqAck(port, channel) =>
      assert '/' !in "nextSequenceAck";
      ChannelPartsClean("nextSequenceAck", port, channel, []);
      assert Parts(p) == Parts(p) + [];
    case Commitment(port, channel, n) =>
      assert '/' !in "commitments";
      SequencePartsClean("commitments", port, channel, n);
    case Ack(port, channel, n) =>
      assert '/' !in "acks";
      SequencePartsClean("acks", port, channel, n);
    case Receipt(port, channel, n) =>
      assert '/' !in "receipts";
      SequencePartsClean("receipts", port, channel, n);
  }

  lemma OtherPathClean(p: Path)
    requires ValidPath(p) && ParserOf(p) in {1, 2, 8}
    ensures Clean(Parts(p))
  {
    match p
    case Connection(c) =>
      assert '/' !in "connections";
      IdentifierHasNoSlash(c, 10, 64);
    case Ports(port) =>
      assert '/' !in "ports";
      IdentifierHasNoSlash(port, 2, 128);
    case UpgradedClientState(height) =>
      assert '/' !in "upgradedIBCState" && '/' !in "upgradedClient";
      NumberHasNoSeparator(height);
    case UpgradedClientConsensusState(height) =>
      assert '/' !in "upgradedIBCState" && '/' !in "upgradedConsState";
      NumberHasNoSeparator(height);
  }

  /** Every valid path parses back from its printed form. */
  lemma ParseUndoesPrintPath(p: Path)
    requires ValidPath(p)
    ensures Parse(Print(p)) == Found(p)
  {
    if ParserOf(p) == 0 { ClientPathClean(p); }
    else if ParserOf(p) in {1, 2, 8} { OtherPathClean(p); }
    else { ChannelPathClean(p); }
    SplitUndoesJoin(Parts(p), '/');
    PartsParse(p);
    var i, outcomes := ParserOf(p), Attempts(Parts(p));
    forall j: nat | j < |outcomes| && !outcomes[j].NotFound? ensures j == i {
      AtMostOneHits(Parts(p), i, j);
    }
    OnlyHitIsFirst(outcomes, i);
  }

  /** Different paths have different keys in the store. */
  lemma KeysNeverCollide(p: Path, q: Path)
    requires ValidPath(p) && ValidPath(q) && Print(p) == Print(q)
    ensures p == q
  {
    ParseUndoesPrintPath(p);
    ParseUndoesPrintPath(q);
  }

  lemma OnlyClientsOutOfBounds(c: seq<string>, i: nat)
    requires i < 9
    ensures Attempts(c)[i].OutOfBounds? <==> i == 0 && c == ["clients"]
  {
  }

  /** Parsing reads out of bounds on one string only. */
  lemma OutOfBoundsExactly(s: string)
    ensures Parse(s).OutOfBounds? <==> s == "clients"
  {
    var c := Split(s, '/');
    JoinUndoesSplit(s, '/');
    if s == "clients" {
      SplitPiece(s, '/');
      OnlyClientsOutOfBounds(c, 0);
    } else if Parse(s).OutOfBounds? {
      var i := HitOf(Attempts(c));
      OnlyClientsOutOfBounds(c, i);
    }
  }

  lemma {:induction false} HitOf(outcomes: seq<Outcome>) returns (i: nat)
    requires !FirstHit(outcomes).NotFound?
    ensures i < |outcomes| && outcomes[i] == FirstHit(outcomes)
  {
    if outcomes[0].NotFound? {
      i := HitOf(outcomes[1..]);
      i := i + 1;
    } else {
      i := 0;
    }
  }

  // ----- What is parsed -----

  /** The components spell the path: as printed, but for how numbers are written. */
  ghost predicate Spells(c: seq<string>, p: Path) {
    match p
    case ClientConsensusState(client, epoch, height) =>
      && |c| == 4 && c[0] == "clients" && c[1] == client && c[2] == "consensusStates"
      && exists e, h ::
        c[3] == e + "-" + h && '-' !in e && '-' !in h && ParseU64(e) == Some(epoch) && ParseU64(h) == Some(height)
    case Commitment(_, _, n) => |c| == 7 && c[..6] == Parts(p)[..6] && ParseU64(c[6]) == Some(n)
    case Ack(_, _, n) => |c| == 7 && c[..6] == Parts(p)[..6] && ParseU64(c[6]) == Some(n)
    case Receipt(_, _, n) => |c| == 7 && c[..6] == Parts(p)[..6] && ParseU64(c[6]) == Some(n)
    case UpgradedClientState(n) =>
      |c| == 3 && c[0] == "upgradedIBCState" && ParseU64(c[1]) == Some(n) && c[2] == "upgradedClient"
    case UpgradedClientConsensusState(n) =>
      |c| == 3 && c[0] == "upgradedIBCState" && ParseU64(c[1]) == Some(n) && c[2] == "upgradedConsState"
    case _ => c == Parts(p)
  }

  lemma HeightsSpelled(s: string)
    requires |Split(s, '-')| == 2
    ensures s == Split(s, '-')[0] + "-" + Split(s, '-')[1]
  {
    JoinUndoesSplit(s, '-');
    assert Split(s, '-')[1..] == [Split(s, '-')[1]];
  }

  lemma ClientHitSpells(c: seq<string>, p: Path)
    requires ParseClientPaths(c) == Found(p)
    ensures ValidPath(p) && Spells(c, p)
  {
    if p.ClientConsensusState? {
      HeightsSpelled(c[3]);
    }
  }

  lemma ChannelHitSpells(c: seq<string>, p: Path)
    requires ParseChannelEnds(c) == Found(p) || ParseSeqs(c) == Found(p)
    ensures ValidPath(p) && Spells(c, p)
  {
    assert c[1..3] == [c[1], c[2]];
  }

  lemma SequenceHitSpells(c: seq<string>, p: Path)
    requires ParseCommitments(c) == Found(p) || ParseAcks(c) == Found(p) || ParseReceipts(c) == Found(p)
    ensures ValidPath(p) && Spells(c, p)
  {
    assert c[1..3] == [c[1], c[2]];
    assert c[..6] == [c[0], c[1], c[2], c[3], c[4], c[5]];
  }

  /** A parser that finds a path finds a valid one that the components spell. */
  lemma HitSpells(c: seq<string>, i: nat, p: Path)
    requires i < 9 && Attempts(c)[i] == Found(p)
    ensures ValidPath(p) && Spells(c, p)
  {
    if i == 0 { ClientHitSpells(c, p); }
    else if 3 <= i <= 4 { ChannelHitSpells(c, p); }
    else if 5 <= i <= 7 { SequenceHitSpells(c, p); }
  }

  lemma ConsensusSpelledHits(c: seq<string>, p: Path)
    requires ValidPath(p) && p.ClientConsensusState? && Spells(c, p)
    ensures ParseClientPaths(c) == Found(p)
  {
    var e, h :| c[3] == e + "-" + h && '-' !in e && '-' !in h && ParseU64(e) == Some(p.epoch)
                && ParseU64(h) == Some(p.height);
    SplitAfter(e, h, '-');
    SplitPiece(h, '-');
  }

  lemma SequenceSpelledHits(c: seq<string>, p: Path)
    requires ValidPath(p) && 5 <= ParserOf(p) <= 7 && Spells(c, p)
    ensures Attempts(c)[ParserOf(p)] == Found(p)
  {
    assert forall j :: 0 <= j < 6 ==> c[j] == c[..6][j] == Parts(p)[j];
    assert c[1..3] == ["ports", p.port];
  }

  lemma SpelledHits(c: seq<string>, p: Path)
    requires ValidPath(p) && Spells(c, p)
    ensures Attempts(c)[ParserOf(p)] == Found(p)
  {
    if p.ClientConsensusState? { ConsensusSpelledHits(c, p); }
    else if 5 <= ParserOf(p) <= 7 { SequenceSpelledHits(c, p); }
    else if ParserOf(p) != 8 { PartsParse(p); }
  }

  /** Text is parsed to a path exactly when the path is valid and the text spells it. */
  lemma ParsesExactly(s: string, p: Path)
    ensures Parse(s) == Found(p) <==> ValidPath(p) && Spells(Split(s, '/'), p)
  {
    var c := Split(s, '/');
    if Parse(s) == Found(p) {
      var i := HitOf(Attempts(c));
      HitSpells(c, i, p);
    } else if ValidPath(p) && Spells(c, p) {
      SpelledHits(c, p);
      forall j: nat | j < |Attempts(c)| && !Attempts(c)[j].NotFound? ensures j == ParserOf(p) {
        AtMostOneHits(c, ParserOf(p), j);
      }
      OnlyHitIsFirst(Attempts(c), ParserOf(p));
    }
  }
}
