/** ICS-23 proofs chained through several stores: a leaf store inside a store, and so on to the root. */
module Merkle {
  import opened Basics

  datatype ExistenceProof = ExistenceProof(encoded: Bytes)

  datatype CommitmentProof =
    | Exist(proof: ExistenceProof)
    | Nonexist(left: Option<ExistenceProof>, right: Option<ExistenceProof>)
    | Unsupported

  datatype Spec = Spec(encoded: Bytes)

  /** The single-level checks of the ICS-23 library: the root an existence proof leads to, and the
      verdicts on a key and value, or on the absence of a key, under a root. */
  datatype Checks = Checks(
    root: ExistenceProof -> Option<Bytes>,
    member: (CommitmentProof, Spec, Bytes, Bytes, Bytes) -> bool,
    absent: (CommitmentProof, Spec, Bytes, Bytes) -> bool)

  function NonExistenceRoot(x: Checks, left: Option<ExistenceProof>, right: Option<ExistenceProof>): Option<Bytes> {
    if left.Some? then x.root(left.value) else if right.Some? then x.root(right.value) else None
  }

  /** The key for level `i`, counted from the leaf, in a path given from the root. */
  function KeyAt(keys: seq<Bytes>, i: nat): Bytes
    requires i < |keys|
  {
    keys[|keys| - 1 - i]
  }

  /** The root reached from `value` at level `i` by checking one level after the other. */
  function Climb(x: Checks, proofs: seq<CommitmentProof>, specs: seq<Spec>, keys: seq<Bytes>, i: nat,
                 value: Bytes): Option<Bytes>
    requires |specs| == |keys| == |proofs|
    decreases |proofs| - i
  {
    if i >= |proofs| then Some(value)
    else if !proofs[i].Exist? || x.root(proofs[i].proof).None? then None
    else
      var subroot := x.root(proofs[i].proof).value;
      if !x.member(proofs[i], specs[i], subroot, KeyAt(keys, i), value) then None
      else Climb(x, proofs, specs, keys, i + 1, subroot)
  }

  predicate WellShaped(proofs: seq<CommitmentProof>, specs: seq<Spec>, root: Bytes, keys: seq<Bytes>) {
    proofs != [] && root != [] && |specs| == |proofs| && |keys| == |proofs|
  }

  /** The membership proof from level `start` up is accepted. */
  predicate AcceptsMember(x: Checks, proofs: seq<CommitmentProof>, specs: seq<Spec>, root: Bytes, keys: seq<Bytes>,
                          value: Bytes, start: nat) {
    WellShaped(proofs, specs, root, keys) && value != [] && Climb(x, proofs, specs, keys, start, value) == Some(root)
  }

  predicate AcceptsAbsent(x: Checks, proofs: seq<CommitmentProof>, specs: seq<Spec>, root: Bytes, keys: seq<Bytes>) {
    && WellShaped(proofs, specs, root, keys)
    && proofs[0].Nonexist?
    && var subroot := NonExistenceRoot(x, proofs[0].left, proofs[0].right);
    && subroot.Some?
    && x.absent(proofs[0], specs[0], subroot.value, KeyAt(keys, 0))
    && AcceptsMember(x, proofs, specs, root, keys, subroot.value, 1)
  }

  method VerifyMembership(x: Checks, proofs: seq<CommitmentProof>, specs: seq<Spec>, root: Bytes, keys: seq<Bytes>,
                          leaf: Bytes, start: nat) returns (ok: bool)
    ensures ok == AcceptsMember(x, proofs, specs, root, keys, leaf, start)
  {
    if proofs == [] || root == [] || |specs| != |proofs| || |keys| != |proofs| || leaf == [] {
      return false;
    }
    var subroot, value := leaf, leaf;
    var i := start;
    while i < |proofs|
      invariant start <= i && subroot == value
      invariant Climb(x, proofs, specs, keys, start, leaf) == Climb(x, proofs, specs, keys, i, value)
      decreases |proofs| - i
    {
      if !proofs[i].Exist? {
        return false;
      }
      var calculated := x.root(proofs[i].proof);
      if calculated.None? {
        return false;
      }
      subroot := calculated.value;
      if !x.member(proofs[i], specs[i], subroot, KeyAt(keys, i), value) {
        return false;
      }
      value := subroot;
      i := i + 1;
    }
    return root == subroot;
  }

  method VerifyNonMembership(x: Checks, proofs: seq<CommitmentProof>, specs: seq<Spec>, root: Bytes, keys: seq<Bytes>)
    returns (ok: bool)
    ensures ok == AcceptsAbsent(x, proofs, specs, root, keys)
  {
    if proofs == [] || root == [] || |specs| != |proofs| || |keys| != |proofs| {
      return false;
    }
    if !proofs[0].Nonexist? {
      return false;
    }
    var subroot := NonExistenceRoot(x, proofs[0].left, proofs[0].right);
    if subroot.None? || !x.absent(proofs[0], specs[0], subroot.value, KeyAt(keys, 0)) {
      return false;
    }
    ok := VerifyMembership(x, proofs, specs, root, keys, subroot.value, 1);
  }

  // ----- What acceptance means -----

  /** What the tree that a specification builds over a given root holds under a key. */
  type Trees = (Spec, Bytes, Bytes) -> Option<Bytes>

  /** The single-level checks never lie about the trees of the given specifications. */
  ghost predicate Sound(x: Checks, trees: Trees, specs: seq<Spec>) {
    && (forall p, spec, root, key, value :: spec in specs && x.member(p, spec, root, key, value) ==>
          trees(spec, root, key) == Some(value))
    && (forall p, spec, root, key :: spec in specs && x.absent(p, spec, root, key) ==> trees(spec, root, key) == None)
  }

  /** Follow a path of keys down from a root, each value being the root of the next tree;
      specifications are listed from the leaf up, so the last is that of the root. */
  function Lookup(trees: Trees, specs: seq<Spec>, root: Bytes, keys: seq<Bytes>): Option<Bytes>
    requires |specs| == |keys|
    decreases |keys|
  {
    if keys == [] then Some(root)
    else
      var below := trees(specs[|specs| - 1], root, keys[0]);
      if below.None? then None else Lookup(trees, specs[..|specs| - 1], below.value, keys[1..])
  }

  lemma {:induction false} LookupAppend(trees: Trees, spec: Spec, specs: seq<Spec>, root: Bytes, keys: seq<Bytes>,
                                        key: Bytes)
    requires |specs| == |keys|
    ensures Lookup(trees, [spec] + specs, root, keys + [key])
         == (var above := Lookup(trees, specs, root, keys); if above.None? then None else trees(spec, above.value, key))
    decreases |keys|
  {
    if keys == [] {
      assert ([] + [key])[1..] == [] && ([spec] + specs)[..|specs|] == [];
    } else {
      assert (keys + [key])[1..] == keys[1..] + [key];
      assert ([spec] + specs)[..|specs|] == [spec] + specs[..|specs| - 1];
      var below := trees(specs[|specs| - 1], root, keys[0]);
      if below.Some? {
        LookupAppend(trees, spec, specs[..|specs| - 1], below.value, keys[1..], key);
      }
    }
  }

  lemma {:induction false} ClimbIsLookup(x: Checks, trees: Trees, proofs: seq<CommitmentProof>, specs: seq<Spec>,
                                         keys: seq<Bytes>, i: nat, value: Bytes)
    requires Sound(x, trees, specs) && |specs| == |keys| == |proofs| && i <= |proofs|
    requires Climb(x, proofs, specs, keys, i, value).Some?
    ensures Lookup(trees, specs[i..], Climb(x, proofs, specs, keys, i, value).value, keys[..|keys| - i]) == Some(value)
    decreases |proofs| - i
  {
    if i < |proofs| {
      var subroot := x.root(proofs[i].proof).value;
      ClimbIsLookup(x, trees, proofs, specs, keys, i + 1, subroot);
      var root := Climb(x, proofs, specs, keys, i, value).value;
      LookupAppend(trees, specs[i], specs[i + 1..], root, keys[..|keys| - i - 1], KeyAt(keys, i));
      assert keys[..|keys| - i] == keys[..|keys| - i - 1] + [KeyAt(keys, i)];
      assert specs[i..] == [specs[i]] + specs[i + 1..];
    }
  }

  /** An accepted membership proof, of any depth, means that looking the path up from the root gives the value. */
  lemma MemberIsThere(x: Checks, trees: Trees, proofs: seq<CommitmentProof>, specs: seq<Spec>, root: Bytes,
                      keys: seq<Bytes>, value: Bytes)
    requires Sound(x, trees, specs) && AcceptsMember(x, proofs, specs, root, keys, value, 0)
    ensures Lookup(trees, specs, root, keys) == Some(value)
  {
    ClimbIsLookup(x, trees, proofs, specs, keys, 0, value);
    assert keys[..|keys|] == keys && specs[0..] == specs;
  }

  /** An accepted non-membership proof means that the path leads to a tree that lacks the last key. */
  lemma AbsentIsNotThere(x: Checks, trees: Trees, proofs: seq<CommitmentProof>, specs: seq<Spec>, root: Bytes,
                         keys: seq<Bytes>)
    requires Sound(x, trees, specs) && AcceptsAbsent(x, proofs, specs, root, keys)
    ensures var above := Lookup(trees, specs[1..], root, keys[..|keys| - 1]);
      above.Some? && above.value != [] && trees(specs[0], above.value, keys[|keys| - 1]) == None
    ensures Lookup(trees, specs, root, keys) == None
  {
    var subroot := NonExistenceRoot(x, proofs[0].left, proofs[0].right).value;
    ClimbIsLookup(x, trees, proofs, specs, keys, 1, subroot);
    LookupAppend(trees, specs[0], specs[1..], root, keys[..|keys| - 1], keys[|keys| - 1]);
    assert keys == keys[..|keys| - 1] + [keys[|keys| - 1]];
    assert specs == [specs[0]] + specs[1..];
  }

  /** A client, with its one list of specifications, never accepts both presence and absence for one root and
      path, whatever the proofs. */
  lemma NeverBoth(x: Checks, trees: Trees, specs: seq<Spec>, root: Bytes, keys: seq<Bytes>, value: Bytes,
                  proofs1: seq<CommitmentProof>, proofs2: seq<CommitmentProof>)
    requires Sound(x, trees, specs)
    ensures !(AcceptsMember(x, proofs1, specs, root, keys, value, 0) && AcceptsAbsent(x, proofs2, specs, root, keys))
  {
    if AcceptsMember(x, proofs1, specs, root, keys, value, 0) {
      MemberIsThere(x, trees, proofs1, specs, root, keys, value);
      if AcceptsAbsent(x, proofs2, specs, root, keys) {
        AbsentIsNotThere(x, trees, proofs2, specs, root, keys);
      }
    }
  }

  // ----- Good proofs are accepted -----

  /** The neighbours that an absence proof names, at least one of them, are all entries under the root. */
  predicate Neighbours(x: Checks, left: Option<ExistenceProof>, right: Option<ExistenceProof>, root: Bytes) {
    && (left.Some? || right.Some?)
    && (left.Some? ==> x.root(left.value) == Some(root))
    && (right.Some? ==> x.root(right.value) == Some(root))
  }

  ghost predicate Inhabited(trees: Trees, spec: Spec, root: Bytes) {
    exists key :: trees(spec, root, key).Some?
  }

  ghost predicate HasEntryProof(x: Checks, spec: Spec, root: Bytes, key: Bytes, value: Bytes) {
    exists e :: x.root(e) == Some(root) && x.member(Exist(e), spec, root, key, value)
  }

  ghost predicate HasAbsenceProof(x: Checks, spec: Spec, root: Bytes, key: Bytes) {
    exists left, right :: Neighbours(x, left, right, root) && x.absent(Nonexist(left, right), spec, root, key)
  }

  /** Every entry of a tree has an existence proof with the tree's root, and every key that a tree with entries lacks
      has an absence proof by one or two neighbours: at either end of the tree there is only one. */
  ghost predicate Complete(x: Checks, trees: Trees, specs: seq<Spec>) {
    && (forall spec, root, key, value :: spec in specs && trees(spec, root, key) == Some(value) ==>
          HasEntryProof(x, spec, root, key, value))
    && (forall spec, root, key :: spec in specs && trees(spec, root, key) == None && Inhabited(trees, spec, root) ==>
          HasAbsenceProof(x, spec, root, key))
  }

  /** Climbing past one level more is climbing the rest. */
  lemma {:induction false} ClimbShift(x: Checks, p: CommitmentProof, proofs: seq<CommitmentProof>, spec: Spec,
                                      specs: seq<Spec>, keys: seq<Bytes>, key: Bytes, i: nat, value: Bytes)
    requires |specs| == |keys| == |proofs|
    ensures Climb(x, [p] + proofs, [spec] + specs, keys + [key], i + 1, value) == Climb(x, proofs, specs, keys, i, value)
    decreases |proofs| - i
  {
    if i < |proofs| {
      assert KeyAt(keys + [key], i + 1) == KeyAt(keys, i);
      if proofs[i].Exist? && x.root(proofs[i].proof).Some? {
        ClimbShift(x, p, proofs, spec, specs, keys, key, i + 1, x.root(proofs[i].proof).value);
      }
    }
  }

  /** Every path that leads to a value has proofs, one a level, that climb from the value to the root. */
  lemma {:induction false} ProofsClimb(x: Checks, trees: Trees, specs: seq<Spec>, root: Bytes, keys: seq<Bytes>,
                                       value: Bytes) returns (proofs: seq<CommitmentProof>)
    requires Complete(x, trees, specs) && |specs| == |keys| && Lookup(trees, specs, root, keys) == Some(value)
    ensures |proofs| == |keys| && Climb(x, proofs, specs, keys, 0, value) == Some(root)
    decreases |keys|
  {
    if keys == [] {
      proofs := [];
    } else {
      var n := |keys| - 1;
      assert keys == keys[..n] + [keys[n]] && specs == [specs[0]] + specs[1..];
      LookupAppend(trees, specs[0], specs[1..], root, keys[..n], keys[n]);
      var subroot := Lookup(trees, specs[1..], root, keys[..n]).value;
      assert HasEntryProof(x, specs[0], subroot, keys[n], value);
      var e :| x.root(e) == Some(subroot) && x.member(Exist(e), specs[0], subroot, keys[n], value);
      var rest := ProofsClimb(x, trees, specs[1..], root, keys[..n], subroot);
      proofs := [Exist(e)] + rest;
      ClimbShift(x, Exist(e), rest, specs[0], specs[1..], keys[..n], keys[n], 0, subroot);
    }
  }

  /** A path has membership proofs for a value that are accepted, at whatever depth, if and only if it has a key for every
      specification and leads from a root to the value, neither of them empty. */
  lemma MembersProvenExactly(x: Checks, trees: Trees, specs: seq<Spec>, root: Bytes, keys: seq<Bytes>, value: Bytes)
    requires Sound(x, trees, specs) && Complete(x, trees, specs)
    ensures (exists proofs :: AcceptsMember(x, proofs, specs, root, keys, value, 0)) <==>
      && |specs| == |keys| && keys != [] && root != [] && value != []
      && Lookup(trees, specs, root, keys) == Some(value)
  {
    if |specs| == |keys| && keys != [] && root != [] && value != [] && Lookup(trees, specs, root, keys) == Some(value) {
      var proofs := ProofsClimb(x, trees, specs, root, keys, value);
      assert AcceptsMember(x, proofs, specs, root, keys, value, 0);
    }
    forall proofs | AcceptsMember(x, proofs, specs, root, keys, value, 0)
      ensures |specs| == |keys| && Lookup(trees, specs, root, keys) == Some(value)
    {
      MemberIsThere(x, trees, proofs, specs, root, keys, value);
    }
  }

  /** The root of the tree that the last key of a path is looked up in. */
  function Above(trees: Trees, specs: seq<Spec>, root: Bytes, keys: seq<Bytes>): Option<Bytes>
    requires |specs| == |keys| && keys != []
  {
    Lookup(trees, specs[1..], root, keys[..|keys| - 1])
  }

  /** The root of an absence proof is that of its neighbours, whichever of them it names. */
  lemma NeighboursGiveRoot(x: Checks, left: Option<ExistenceProof>, right: Option<ExistenceProof>, root: Bytes)
    requires Neighbours(x, left, right, root)
    ensures NonExistenceRoot(x, left, right) == Some(root)
  {
  }

  /** An absence proof on top of proofs that climb from its root is accepted. */
  lemma AbsenceClimbs(x: Checks, left: Option<ExistenceProof>, right: Option<ExistenceProof>,
                      rest: seq<CommitmentProof>, spec: Spec, specs: seq<Spec>, root: Bytes, keys: seq<Bytes>,
                      key: Bytes, subroot: Bytes)
    requires |specs| == |keys| == |rest| && root != [] && subroot != []
    requires Neighbours(x, left, right, subroot) && x.absent(Nonexist(left, right), spec, subroot, key)
    requires Climb(x, rest, specs, keys, 0, subroot) == Some(root)
    ensures AcceptsAbsent(x, [Nonexist(left, right)] + rest, [spec] + specs, root, keys + [key])
  {
    NeighboursGiveRoot(x, left, right, subroot);
    ClimbShift(x, Nonexist(left, right), rest, spec, specs, keys, key, 0, subroot);
  }

  lemma AbsenceIsProven(x: Checks, trees: Trees, specs: seq<Spec>, root: Bytes, keys: seq<Bytes>)
    returns (proofs: seq<CommitmentProof>)
    requires Complete(x, trees, specs) && |specs| == |keys| && keys != [] && root != []
    requires Above(trees, specs, root, keys).Some? && Above(trees, specs, root, keys).value != []
    requires Inhabited(trees, specs[0], Above(trees, specs, root, keys).value)
    requires trees(specs[0], Above(trees, specs, root, keys).value, keys[|keys| - 1]) == None
    ensures AcceptsAbsent(x, proofs, specs, root, keys)
  {
    var n, subroot := |keys| - 1, Above(trees, specs, root, keys).value;
    assert HasAbsenceProof(x, specs[0], subroot, keys[n]);
    var left, right :| Neighbours(x, left, right, subroot) && x.absent(Nonexist(left, right), specs[0], subroot, keys[n]);
    var rest := ProofsClimb(x, trees, specs[1..], root, keys[..n], subroot);
    AbsenceClimbs(x, left, right, rest, specs[0], specs[1..], root, keys[..n], keys[n], subroot);
    assert keys == keys[..n] + [keys[n]] && specs == [specs[0]] + specs[1..];
    proofs := [Nonexist(left, right)] + rest;
  }

  /** A path has absence proofs that are accepted if and only if it has a key for every specification and leads from a
      root to the root of a tree, neither of them empty, that lacks the last key: be it in the middle, before every entry
      or after every entry. The one thing that cannot be shown is that a tree without entries lacks a key. */
  lemma AbsenceProvenExactly(x: Checks, trees: Trees, specs: seq<Spec>, root: Bytes, keys: seq<Bytes>)
    requires Sound(x, trees, specs) && Complete(x, trees, specs)
    requires |specs| == |keys| && keys != [] && Above(trees, specs, root, keys).Some? ==>
      Inhabited(trees, specs[0], Above(trees, specs, root, keys).value)
    ensures (exists proofs :: AcceptsAbsent(x, proofs, specs, root, keys)) <==>
      && |specs| == |keys| && keys != [] && root != []
      && var above := Above(trees, specs, root, keys);
      && above.Some? && above.value != [] && trees(specs[0], above.value, keys[|keys| - 1]) == None
  {
    if |specs| == |keys| && keys != [] && root != [] {
      var above := Above(trees, specs, root, keys);
      if above.Some? && above.value != [] && trees(specs[0], above.value, keys[|keys| - 1]) == None {
        var proofs := AbsenceIsProven(x, trees, specs, root, keys);
      }
    }
    forall proofs | AcceptsAbsent(x, proofs, specs, root, keys)
      ensures var above := Above(trees, specs, root, keys);
        above.Some? && above.value != [] && trees(specs[0], above.value, keys[|keys| - 1]) == None
    {
      AbsentIsNotThere(x, trees, proofs, specs, root, keys);
    }
  }

  /** The checks that know the trees: a proof is the root that it is about. */
  function IdealChecks(trees: Trees): Checks {
    Checks(
      (e: ExistenceProof) => Some(e.encoded),
      (p: CommitmentProof, spec: Spec, root: Bytes, key: Bytes, value: Bytes) => trees(spec, root, key) == Some(value),
      (p: CommitmentProof, spec: Spec, root: Bytes, key: Bytes) => trees(spec, root, key) == None)
  }

  /** Whatever the trees are, checks can be sound and complete for them. */
  lemma IdealChecksAreExact(trees: Trees, specs: seq<Spec>)
    ensures Sound(IdealChecks(trees), trees, specs) && Complete(IdealChecks(trees), trees, specs)
  {
    var x := IdealChecks(trees);
    forall spec, root, key, value | spec in specs && trees(spec, root, key) == Some(value)
      ensures HasEntryProof(x, spec, root, key, value)
    {
      var e := ExistenceProof(root);
      assert x.root(e) == Some(root) && x.member(Exist(e), spec, root, key, value);
    }
    forall spec, root, key | spec in specs && trees(spec, root, key) == None ensures HasAbsenceProof(x, spec, root, key) {
      var left, right := None, Some(ExistenceProof(root));
      assert Neighbours(x, left, right, root) && x.absent(Nonexist(left, right), spec, root, key);
    }
  }
}
