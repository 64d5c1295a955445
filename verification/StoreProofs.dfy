/** What a proof that a client accepts says about the packet store of the other chain: the handlers read off the
    proven store exactly the entry that the proof is about. */
module StoreProofs {
  import opened Basics
  import opened Denoms
  import opened Transfer
  import opened Merkle
  import opened Packets
  import C = Commitments
  import P = Paths

  /** How paths, packet data and acknowledgements become bytes, the hash, and what is stored for a receipt. */
  datatype Encoding = Encoding(key: string -> Bytes, data: TransferData -> Bytes, ack: Ack -> Bytes, receipt: Bytes,
                               hash: Bytes -> Bytes)

  /** Different things have different bytes, and the hash never collides. */
  ghost predicate Faithful(enc: Encoding) {
    && (forall a, b :: enc.key(a) == enc.key(b) ==> a == b)
    && (forall a, b :: enc.data(a) == enc.data(b) ==> a == b)
    && (forall a, b :: enc.ack(a) == enc.ack(b) ==> a == b)
    && (forall a, b :: enc.hash(a) == enc.hash(b) ==> a == b)
  }

  function CommitmentBytes(enc: Encoding, c: Commitment): Bytes {
    enc.hash(C.PreImage(enc.hash(enc.data(c.data)), c.timeoutHeight, c.timeoutTime))
  }

  function AckBytes(enc: Encoding, ack: Ack): Bytes {
    enc.hash(enc.ack(ack))
  }

  // ----- The store as a tree -----

  function CommitmentPath(place: Place): P.Path {
    P.Commitment(place.hop.port, place.hop.channel, place.number)
  }

  function AckPath(place: Place): P.Path {
    P.Ack(place.hop.port, place.hop.channel, place.number)
  }

  function ReceiptPath(place: Place): P.Path {
    P.Receipt(place.hop.port, place.hop.channel, place.number)
  }

  function KeyOfPath(enc: Encoding, path: P.Path): Bytes {
    enc.key(P.Print(path))
  }

  /** What is stored under a path: the packet store's own entries, and those of the other parts of the chain. */
  function StoredAt(enc: Encoding, s: Store, others: P.Path -> Option<Bytes>, path: P.Path): Option<Bytes> {
    match path
    case Commitment(port, channel, n) =>
      var place := Place(Hop(port, channel), n);
      if place in s.commitments then Some(CommitmentBytes(enc, s.commitments[place])) else None
    case Ack(port, channel, n) =>
      var place := Place(Hop(port, channel), n);
      if place in s.acks then Some(AckBytes(enc, s.acks[place])) else None
    case Receipt(port, channel, n) => if Place(Hop(port, channel), n) in s.receipts then Some(enc.receipt) else None
    case _ => others(path)
  }

  type Tree = Bytes -> Option<Bytes>

  /** The tree holds every entry under its printed path, and nothing else. */
  ghost predicate Holds(enc: Encoding, tree: Tree, s: Store, others: P.Path -> Option<Bytes>) {
    && (forall path :: P.ValidPath(path) && StoredAt(enc, s, others, path).Some? ==>
          tree(KeyOfPath(enc, path)) == StoredAt(enc, s, others, path))
    && (forall k :: tree(k).Some? ==>
          exists path :: P.ValidPath(path) && KeyOfPath(enc, path) == k && StoredAt(enc, s, others, path).Some?)
  }

  lemma SameKey(enc: Encoding, p: P.Path, q: P.Path)
    requires Faithful(enc) && P.ValidPath(p) && P.ValidPath(q) && KeyOfPath(enc, p) == KeyOfPath(enc, q)
    ensures p == q
  {
    P.KeysNeverCollide(p, q);
  }

  /** Reading the tree at a printed path gives the entry of that very path. */
  lemma ReadBack(enc: Encoding, tree: Tree, s: Store, others: P.Path -> Option<Bytes>, path: P.Path)
    requires Faithful(enc) && Holds(enc, tree, s, others) && P.ValidPath(path)
    ensures tree(KeyOfPath(enc, path)) == StoredAt(enc, s, others, path)
  {
    if tree(KeyOfPath(enc, path)).Some? {
      var other :| P.ValidPath(other) && KeyOfPath(enc, other) == KeyOfPath(enc, path)
                   && StoredAt(enc, s, others, other).Some?;
      SameKey(enc, path, other);
    }
  }

  /** What belongs at a key: the entry of the path that prints to it. */
  ghost function At(enc: Encoding, s: Store, others: P.Path -> Option<Bytes>, k: Bytes): Option<Bytes> {
    if exists path :: P.ValidPath(path) && KeyOfPath(enc, path) == k then
      var path :| P.ValidPath(path) && KeyOfPath(enc, path) == k;
      StoredAt(enc, s, others, path)
    else None
  }

  ghost function TreeOf(enc: Encoding, s: Store, others: P.Path -> Option<Bytes>): Tree {
    (k: Bytes) => At(enc, s, others, k)
  }

  /** Every store can be laid out in a tree, because no two paths share a key. */
  lemma EveryStoreHasATree(enc: Encoding, s: Store, others: P.Path -> Option<Bytes>)
    requires Faithful(enc)
    ensures Holds(enc, TreeOf(enc, s, others), s, others)
  {
    var tree := TreeOf(enc, s, others);
    forall path | P.ValidPath(path) ensures tree(KeyOfPath(enc, path)) == StoredAt(enc, s, others, path) {
      AtPath(enc, s, others, path);
    }
  }

  lemma AtPath(enc: Encoding, s: Store, others: P.Path -> Option<Bytes>, path: P.Path)
    requires Faithful(enc) && P.ValidPath(path)
    ensures At(enc, s, others, KeyOfPath(enc, path)) == StoredAt(enc, s, others, path)
  {
    var k := KeyOfPath(enc, path);
    var q :| P.ValidPath(q) && KeyOfPath(enc, q) == k && At(enc, s, others, k) == StoredAt(enc, s, others, q);
    SameKey(enc, path, q);
  }

  // ----- What accepted proofs show -----

  function Subtree(trees: Trees, spec: Spec, root: Bytes): Tree {
    (k: Bytes) => trees(spec, root, k)
  }

  /** Under the root, at the prefix, is the root of a tree that holds the store. */
  ghost predicate StoreUnder(enc: Encoding, trees: Trees, specs: seq<Spec>, root: Bytes, prefix: Bytes, s: Store,
                             others: P.Path -> Option<Bytes>) {
    && |specs| == 2 && trees(specs[1], root, prefix).Some?
    && Holds(enc, Subtree(trees, specs[0], trees(specs[1], root, prefix).value), s, others)
  }

  lemma OneLevel(trees: Trees, spec: Spec, root: Bytes, key: Bytes)
    ensures Lookup(trees, [spec], root, [key]) == trees(spec, root, key)
  {
    var last: seq<Bytes> := [key];
    assert last[1..] == [] && [spec][..0] == [];
  }

  /** Looking a path up from the root, behind the prefix, gives its entry. */
  lemma LookupIsEntry(enc: Encoding, trees: Trees, specs: seq<Spec>, root: Bytes, prefix: Bytes, s: Store,
                      others: P.Path -> Option<Bytes>, path: P.Path)
    requires Faithful(enc) && StoreUnder(enc, trees, specs, root, prefix, s, others) && P.ValidPath(path)
    ensures Lookup(trees, specs, root, [prefix, KeyOfPath(enc, path)]) == StoredAt(enc, s, others, path)
  {
    var k, sub := KeyOfPath(enc, path), trees(specs[1], root, prefix).value;
    ReadBack(enc, Subtree(trees, specs[0], sub), s, others, path);
    assert [prefix, k][1..] == [k] && specs[..1] == [specs[0]];
    OneLevel(trees, specs[0], sub, k);
  }

  /** Commitments as the source builds them. */
  predicate WellFormedStore(s: Store) {
    forall place <- s.commitments :: C.WellFormed(s.commitments[place].timeoutTime, s.commitments[place].timeoutHeight)
  }

  lemma SameCommitment(enc: Encoding, c: Commitment, d: Commitment)
    requires Faithful(enc) && C.WellFormed(c.timeoutTime, c.timeoutHeight)
    requires C.WellFormed(d.timeoutTime, d.timeoutHeight)
    requires CommitmentBytes(enc, c) == CommitmentBytes(enc, d)
    ensures c == d
  {
    C.CommitmentBinds(enc.hash, enc.data(c.data), c.timeoutHeight, c.timeoutTime,
                      enc.data(d.data), d.timeoutHeight, d.timeoutTime);
  }

  /** An accepted proof of a packet's commitment means that the sender's store has that commitment of that packet:
      what receiving the packet asks of the store. */
  lemma CommitmentIsShown(enc: Encoding, x: Checks, trees: Trees, proofs: seq<CommitmentProof>, specs: seq<Spec>,
                          root: Bytes, prefix: Bytes, s: Store, others: P.Path -> Option<Bytes>, p: Packet)
    requires Faithful(enc) && Sound(x, trees, specs) && StoreUnder(enc, trees, specs, root, prefix, s, others)
    requires WellFormedStore(s) && C.WellFormed(p.timeoutTime, p.timeoutHeight)
    requires P.ValidPath(CommitmentPath(Place(p.src, p.number)))
    requires AcceptsMember(x, proofs, specs, root, [prefix, KeyOfPath(enc, CommitmentPath(Place(p.src, p.number)))],
                           CommitmentBytes(enc, Commit(p)), 0)
    ensures Place(p.src, p.number) in s.commitments && s.commitments[Place(p.src, p.number)] == Commit(p)
  {
    var place := Place(p.src, p.number);
    MemberIsThere(x, trees, proofs, specs, root, [prefix, KeyOfPath(enc, CommitmentPath(place))],
                  CommitmentBytes(enc, Commit(p)));
    LookupIsEntry(enc, trees, specs, root, prefix, s, others, CommitmentPath(place));
    SameCommitment(enc, Commit(p), s.commitments[place]);
  }

  /** An accepted proof of an acknowledgement means that the receiver's store has it: what settling the packet by it
      asks of the store. */
  lemma AckIsShown(enc: Encoding, x: Checks, trees: Trees, proofs: seq<CommitmentProof>, specs: seq<Spec>,
                   root: Bytes, prefix: Bytes, s: Store, others: P.Path -> Option<Bytes>, p: Packet, ack: Ack)
    requires Faithful(enc) && Sound(x, trees, specs) && StoreUnder(enc, trees, specs, root, prefix, s, others)
    requires P.ValidPath(AckPath(Place(p.dst, p.number)))
    requires AcceptsMember(x, proofs, specs, root, [prefix, KeyOfPath(enc, AckPath(Place(p.dst, p.number)))],
                           AckBytes(enc, ack), 0)
    ensures Place(p.dst, p.number) in s.acks && s.acks[Place(p.dst, p.number)] == ack
  {
    var place := Place(p.dst, p.number);
    MemberIsThere(x, trees, proofs, specs, root, [prefix, KeyOfPath(enc, AckPath(place))], AckBytes(enc, ack));
    LookupIsEntry(enc, trees, specs, root, prefix, s, others, AckPath(place));
  }

  /** An accepted proof of absence at a receipt's path means that the receiver's store has no such receipt: what timing
      the packet out asks of the store. */
  lemma AbsenceIsShown(enc: Encoding, x: Checks, trees: Trees, proofs: seq<CommitmentProof>, specs: seq<Spec>,
                       root: Bytes, prefix: Bytes, s: Store, others: P.Path -> Option<Bytes>, p: Packet)
    requires Faithful(enc) && Sound(x, trees, specs) && StoreUnder(enc, trees, specs, root, prefix, s, others)
    requires P.ValidPath(ReceiptPath(Place(p.dst, p.number)))
    requires AcceptsAbsent(x, proofs, specs, root, [prefix, KeyOfPath(enc, ReceiptPath(Place(p.dst, p.number)))])
    ensures Place(p.dst, p.number) !in s.receipts
  {
    var place := Place(p.dst, p.number);
    AbsentIsNotThere(x, trees, proofs, specs, root, [prefix, KeyOfPath(enc, ReceiptPath(place))]);
    LookupIsEntry(enc, trees, specs, root, prefix, s, others, ReceiptPath(place));
  }

  // ----- What can be shown -----

  /** The root and the root of the packet store are not empty, and the tree of the store has entries. */
  ghost predicate Committed(trees: Trees, specs: seq<Spec>, root: Bytes, prefix: Bytes) {
    && |specs| == 2 && root != [] && trees(specs[1], root, prefix).Some?
    && var subroot := trees(specs[1], root, prefix).value;
    && subroot != [] && Inhabited(trees, specs[0], subroot)
  }

  /** A packet's commitment has accepted proofs exactly when the sender's store has it: receiving the packet asks no
      more of the store, and no less, than what can be proven. */
  lemma CommitmentShownExactly(enc: Encoding, x: Checks, trees: Trees, specs: seq<Spec>, root: Bytes, prefix: Bytes,
                               s: Store, others: P.Path -> Option<Bytes>, p: Packet)
    requires Faithful(enc) && Sound(x, trees, specs) && Complete(x, trees, specs)
    requires StoreUnder(enc, trees, specs, root, prefix, s, others) && root != []
    requires WellFormedStore(s) && C.WellFormed(p.timeoutTime, p.timeoutHeight)
    requires P.ValidPath(CommitmentPath(Place(p.src, p.number))) && CommitmentBytes(enc, Commit(p)) != []
    ensures var place := Place(p.src, p.number);
      (exists proofs :: AcceptsMember(x, proofs, specs, root, [prefix, KeyOfPath(enc, CommitmentPath(place))],
                                      CommitmentBytes(enc, Commit(p)), 0))
      <==> place in s.commitments && s.commitments[place] == Commit(p)
  {
    var place, value := Place(p.src, p.number), CommitmentBytes(enc, Commit(p));
    LookupIsEntry(enc, trees, specs, root, prefix, s, others, CommitmentPath(place));
    MembersProvenExactly(x, trees, specs, root, [prefix, KeyOfPath(enc, CommitmentPath(place))], value);
    if place in s.commitments && CommitmentBytes(enc, s.commitments[place]) == value {
      SameCommitment(enc, Commit(p), s.commitments[place]);
    }
  }

  /** An acknowledgement has accepted proofs exactly when the receiver's store has it. */
  lemma AckShownExactly(enc: Encoding, x: Checks, trees: Trees, specs: seq<Spec>, root: Bytes, prefix: Bytes,
                        s: Store, others: P.Path -> Option<Bytes>, p: Packet, ack: Ack)
    requires Faithful(enc) && Sound(x, trees, specs) && Complete(x, trees, specs)
    requires StoreUnder(enc, trees, specs, root, prefix, s, others) && root != []
    requires P.ValidPath(AckPath(Place(p.dst, p.number))) && AckBytes(enc, ack) != []
    ensures var place := Place(p.dst, p.number);
      (exists proofs :: AcceptsMember(x, proofs, specs, root, [prefix, KeyOfPath(enc, AckPath(place))],
                                      AckBytes(enc, ack), 0))
      <==> place in s.acks && s.acks[place] == ack
  {
    var place := Place(p.dst, p.number);
    LookupIsEntry(enc, trees, specs, root, prefix, s, others, AckPath(place));
    MembersProvenExactly(x, trees, specs, root, [prefix, KeyOfPath(enc, AckPath(place))], AckBytes(enc, ack));
  }

  lemma AboveIsPrefix(trees: Trees, specs: seq<Spec>, root: Bytes, keys: seq<Bytes>)
    requires |specs| == |keys| == 2
    ensures Above(trees, specs, root, keys) == trees(specs[1], root, keys[0])
  {
    OneLevel(trees, specs[1], root, keys[0]);
    assert specs[1..] == [specs[1]] && keys[..1] == [keys[0]];
  }

  lemma TwoLevels(trees: Trees, specs: seq<Spec>, root: Bytes, keys: seq<Bytes>)
    requires |specs| == |keys| == 2 && trees(specs[1], root, keys[0]).Some?
    ensures Lookup(trees, specs, root, keys) == trees(specs[0], trees(specs[1], root, keys[0]).value, keys[1])
  {
    AboveIsPrefix(trees, specs, root, keys);
    LookupAppend(trees, specs[0], specs[1..], root, keys[..1], keys[1]);
    assert keys == keys[..1] + [keys[1]] && specs == [specs[0]] + specs[1..];
  }

  /** The absence of a receipt has accepted proofs exactly when the receiver's store does not have it, wherever its path
      sorts among the others. */
  lemma AbsenceShownExactly(enc: Encoding, x: Checks, trees: Trees, specs: seq<Spec>, root: Bytes, prefix: Bytes,
                            s: Store, others: P.Path -> Option<Bytes>, p: Packet)
    requires Faithful(enc) && Sound(x, trees, specs) && Complete(x, trees, specs)
    requires StoreUnder(enc, trees, specs, root, prefix, s, others) && Committed(trees, specs, root, prefix)
    requires P.ValidPath(ReceiptPath(Place(p.dst, p.number)))
    ensures var place := Place(p.dst, p.number);
      (exists proofs :: AcceptsAbsent(x, proofs, specs, root, [prefix, KeyOfPath(enc, ReceiptPath(place))]))
      <==> place !in s.receipts
  {
    var place := Place(p.dst, p.number);
    var keys := [prefix, KeyOfPath(enc, ReceiptPath(place))];
    LookupIsEntry(enc, trees, specs, root, prefix, s, others, ReceiptPath(place));
    AboveIsPrefix(trees, specs, root, keys);
    TwoLevels(trees, specs, root, keys);
    AbsenceProvenExactly(x, trees, specs, root, keys);
  }
}
