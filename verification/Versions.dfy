/** Connection versions and the choice of a common one. */
module Versions {
  import opened Basics

  datatype Version = Version(id: string, features: seq<string>)

  /** The first version with the given identifier. */
  /** Version `i` is the first of that identifier. */
  predicate FirstAt(id: string, versions: seq<Version>, i: nat)
    requires i < |versions|
  {
    versions[i].id == id && forall j: nat :: j < i ==> versions[j].id != id
  }

  function Find(id: string, versions: seq<Version>): (r: Option<Version>)
    ensures r.Some? ==> exists i: nat :: i < |versions| && FirstAt(id, versions, i) && r.value == versions[i]
    ensures r.None? ==> forall v <- versions :: v.id != id
  {
    if versions == [] then None
    else if versions[0].id == id then assert FirstAt(id, versions, 0); Some(versions[0])
    else
      var rest := Find(id, versions[1..]);
      assert forall i: nat :: i < |versions[1..]| && FirstAt(id, versions[1..], i) ==> FirstAt(id, versions, i + 1);
      rest
  }

  /** The identifier is known, and the features are some of those known under it. */
  predicate IsSupported(v: Version, supported: seq<Version>) {
    var found := Find(v.id, supported);
    found.Some? && v.features != [] && forall f <- v.features :: f in found.value.features
  }

  /** The own features that the other side has too, in their own order. */
  function Shared(own: seq<string>, theirs: seq<string>): (r: seq<string>)
    ensures forall f :: f in r <==> f in own && f in theirs
  {
    if own == [] then []
    else if own[0] in theirs then [own[0]] + Shared(own[1..], theirs)
    else Shared(own[1..], theirs)
  }

  /** An own version that has features in common with the other side's version of that name. */
  predicate Compatible(v: Version, theirs: seq<Version>) {
    var found := Find(v.id, theirs);
    found.Some? && exists f <- v.features :: f in found.value.features
  }

  /** What an own version is narrowed to: the features in common. */
  function Narrowed(v: Version, theirs: seq<Version>): Version {
    var found := Find(v.id, theirs);
    Version(v.id, if found.Some? then Shared(v.features, found.value.features) else [])
  }

  function Candidates(own: seq<Version>, theirs: seq<Version>): seq<Version> {
    if own == [] then [] else
      var last := own[|own| - 1];
      var rest := Candidates(own[..|own| - 1], theirs);
      if Narrowed(last, theirs).features != [] then rest + [Narrowed(last, theirs)] else rest
  }

  // ----- The order of identifiers, and sorting by it -----

  /** Lexicographic order of strings. */
  predicate Precedes(a: string, b: string) {
    b != [] && (a == [] || a[0] < b[0] || (a[0] == b[0] && Precedes(a[1..], b[1..])))
  }

  lemma {:induction false} PrecedesIsTotal(a: string, b: string)
    ensures a == b || Precedes(a, b) || Precedes(b, a)
    ensures !(Precedes(a, b) && Precedes(b, a))
    ensures !Precedes(a, a)
  {
    if a != [] && b != [] {
      PrecedesIsTotal(a[1..], b[1..]);
      assert a == [a[0]] + a[1..] && b == [b[0]] + b[1..];
    }
    if a != [] && a[1..] != b {
      PrecedesIsTotal(a[1..], a[1..]);
    }
  }

  /** The strings agree before position `i`, and there the first ends or has the smaller character. */
  predicate DiffersAt(a: string, b: string, i: nat) {
    && i <= |a| && i < |b| && a[..i] == b[..i]
    && (i == |a| || a[i] < b[i])
  }

  lemma {:induction false} DiffersLater(a: string, b: string, i: nat)
    requires a != [] && b != [] && a[0] == b[0]
    ensures DiffersAt(a, b, i + 1) <==> DiffersAt(a[1..], b[1..], i)
  {
    if i <= |a[1..]| && i < |b[1..]| {
      assert a[..i + 1] == [a[0]] + a[1..][..i] && b[..i + 1] == [b[0]] + b[1..][..i];
      assert a[..i + 1] == b[..i + 1] ==> a[..i + 1][1..] == b[..i + 1][1..];
    }
  }

  lemma DiffersFirst(a: string, b: string, i: nat)
    requires DiffersAt(a, b, i)
    ensures i == 0 || (a != [] && b != [] && a[0] == b[0])
  {
    assert i > 0 ==> a[..i][0] == a[0] && b[..i][0] == b[0];
  }

  /** One string precedes another exactly when it is smaller where they first differ. */
  lemma {:induction false} PrecedesExactly(a: string, b: string)
    ensures Precedes(a, b) <==> exists i: nat :: DiffersAt(a, b, i)
  {
    if a != [] && b != [] && a[0] == b[0] {
      PrecedesExactly(a[1..], b[1..]);
      if i: nat :| DiffersAt(a[1..], b[1..], i) {
        DiffersLater(a, b, i);
      }
      forall i: nat | DiffersAt(a, b, i) ensures Precedes(a, b) {
        assert i > 0;
        DiffersLater(a, b, i - 1);
      }
    } else {
      assert DiffersAt(a, b, 0) <==> Precedes(a, b);
      forall i: nat | DiffersAt(a, b, i) ensures i == 0 {
        DiffersFirst(a, b, i);
      }
    }
  }

  lemma {:induction false} PrecedesIsTransitive(a: string, b: string, c: string)
    requires Precedes(a, b) && Precedes(b, c)
    ensures Precedes(a, c)
  {
    if a != [] && a[0] == b[0] == c[0] {
      PrecedesIsTransitive(a[1..], b[1..], c[1..]);
    }
  }

  /** Insert a version behind all that do not come after it. */
  function Insert(sorted: seq<Version>, v: Version): seq<Version> {
    if sorted == [] then [v]
    else if Precedes(v.id, sorted[0].id) then [v] + sorted
    else [sorted[0]] + Insert(sorted[1..], v)
  }

  /** The versions sorted by identifier, equal ones in their given order. */
  function StableSort(versions: seq<Version>): seq<Version> {
    if versions == [] then [] else
      Insert(StableSort(versions[..|versions| - 1]), versions[|versions| - 1])
  }

  /** `v` is the first of the versions whose identifier nothing precedes. */
  ghost predicate IsFirstLeast(v: Version, versions: seq<Version>) {
    exists i: nat :: i < |versions| && versions[i] == v && LeastAt(versions, i)
  }

  ghost predicate LeastAt(versions: seq<Version>, i: nat)
    requires i < |versions|
  {
    && (forall u <- versions :: !Precedes(u.id, versions[i].id))
    && (forall j: nat :: j < i ==> versions[j].id != versions[i].id)
  }

  lemma LeastAppend(versions: seq<Version>, i: nat, v: Version)
    requires i < |versions| && LeastAt(versions, i)
    ensures LeastAt(versions + [v], if Precedes(v.id, versions[i].id) then |versions| else i)
  {
    var all := versions + [v];
    if Precedes(v.id, versions[i].id) {
      forall u <- all ensures !Precedes(u.id, v.id) {
        if Precedes(u.id, v.id) {
          PrecedesIsTotal(u.id, v.id);
          PrecedesIsTransitive(u.id, v.id, versions[i].id);
        }
      }
      forall j: nat | j < |versions| ensures all[j].id != v.id {
        assert all[j] == versions[j];
      }
    }
  }

  lemma {:induction false} SortPutsLeastFirst(versions: seq<Version>)
    requires versions != []
    ensures StableSort(versions) != [] && IsFirstLeast(StableSort(versions)[0], versions)
  {
    var n := |versions| - 1;
    var rest, v := versions[..n], versions[n];
    assert versions == rest + [v];
    if n == 0 {
      PrecedesIsTotal(v.id, v.id);
      assert LeastAt(versions, 0);
    } else {
      SortPutsLeastFirst(rest);
      var i: nat :| i < |rest| && rest[i] == StableSort(rest)[0] && LeastAt(rest, i);
      LeastAppend(rest, i, v);
      assert LeastAt(versions, if Precedes(v.id, rest[i].id) then n else i);
    }
  }

  // ----- The choice -----

  /** The common version of the lowest identifier. */
  function Pick(own: seq<Version>, theirs: seq<Version>): Option<Version> {
    var sorted := StableSort(Candidates(own, theirs));
    if sorted == [] then None else Some(sorted[0])
  }

  /** Build the list of common versions, sort it, and take its head. */
  method PickVersion(own: seq<Version>, theirs: seq<Version>) returns (r: Option<Version>)
    ensures r == Pick(own, theirs)
  {
    var intersection: seq<Version> := [];
    for i := 0 to |own|
      invariant intersection == Candidates(own[..i], theirs)
    {
      assert own[..i + 1][..i] == own[..i];
      var cv := Find(own[i].id, theirs);
      if cv.Some? {
        var features := Shared(own[i].features, cv.value.features);
        if features != [] {
          intersection := intersection + [Version(cv.value.id, features)];
        }
      }
    }
    assert own[..|own|] == own;
    var sorted: seq<Version> := [];
    for i := 0 to |intersection|
      invariant sorted == StableSort(intersection[..i])
    {
      assert intersection[..i + 1][..i] == intersection[..i];
      sorted := Insert(sorted, intersection[i]);
    }
    assert intersection[..|intersection|] == intersection;
    return if sorted == [] then None else Some(sorted[0]);
  }

  lemma {:induction false} CandidatesAreCommon(own: seq<Version>, theirs: seq<Version>)
    ensures forall c <- Candidates(own, theirs) :: exists v <- own :: Compatible(v, theirs) && c == Narrowed(v, theirs)
    ensures forall v <- own :: Compatible(v, theirs) ==> Narrowed(v, theirs) in Candidates(own, theirs)
  {
    if own != [] {
      var rest, last := own[..|own| - 1], own[|own| - 1];
      CandidatesAreCommon(rest, theirs);
      assert own == rest + [last];
      var shared := Narrowed(last, theirs).features;
      assert Compatible(last, theirs) <==> shared != [] by {
        if shared != [] { assert shared[0] in shared; }
      }
      forall c <- Candidates(own, theirs) ensures exists v <- own :: Compatible(v, theirs) && c == Narrowed(v, theirs) {
        if c in Candidates(rest, theirs) {
          var v :| v in rest && Compatible(v, theirs) && c == Narrowed(v, theirs);
          assert v in own;
        } else {
          assert last in own;
        }
      }
    }
  }

  /** A version is chosen exactly when some own version is compatible; the choice is an own version
      narrowed to the common features, none compatible has a lower identifier, and the other side supports it. */
  lemma PickIsBest(own: seq<Version>, theirs: seq<Version>)
    ensures Pick(own, theirs).Some? <==> exists v <- own :: Compatible(v, theirs)
    ensures var p := Pick(own, theirs); p.Some? ==>
      && (exists v <- own :: Compatible(v, theirs) && p.value == Narrowed(v, theirs))
      && (forall v <- own :: Compatible(v, theirs) ==> !Precedes(v.id, p.value.id))
      && IsSupported(p.value, theirs)
  {
    var all := Candidates(own, theirs);
    CandidatesAreCommon(own, theirs);
    if all != [] {
      SortPutsLeastFirst(all);
      assert all[0] in all;
      var p := Pick(own, theirs).value;
      var i: nat :| i < |all| && all[i] == p && LeastAt(all, i);
      assert p in all;
      forall v <- own | Compatible(v, theirs) ensures !Precedes(v.id, p.id) {
        assert Narrowed(v, theirs) in all;
      }
      var v :| v in own && Compatible(v, theirs) && p == Narrowed(v, theirs);
      var f :| f in v.features && f in Find(v.id, theirs).value.features;
      assert f in p.features;
    }
  }

  // ----- Order -----

  /** The common features keep their order and number: what two lists have in common with the other side is what the
      first has and then what the second has, and one feature is kept exactly when it is common. */
  lemma {:induction false} SharedKeepsOrder(a: seq<string>, b: seq<string>, theirs: seq<string>)
    ensures Shared(a + b, theirs) == Shared(a, theirs) + Shared(b, theirs)
    ensures |a| == 1 ==> Shared(a, theirs) == if a[0] in theirs then a else []
  {
    if a == [] {
      assert [] + b == b;
    } else {
      assert (a + b)[1..] == a[1..] + b;
      SharedKeepsOrder(a[1..], b, theirs);
      if |a| == 1 {
        assert a == [a[0]] && a[1..] == [];
      }
    }
  }

  /** Version `i` is compatible, nothing compatible has a lower identifier, and nothing before it the same one. */
  ghost predicate BestAt(own: seq<Version>, theirs: seq<Version>, i: nat)
    requires i < |own|
  {
    && Compatible(own[i], theirs)
    && (forall v <- own :: Compatible(v, theirs) ==> !Precedes(v.id, own[i].id))
    && (forall j: nat :: j < i && Compatible(own[j], theirs) ==> own[j].id != own[i].id)
  }

  lemma CandidatesOfOne(own: seq<Version>, theirs: seq<Version>)
    requires own != []
    ensures var last := own[|own| - 1];
      Candidates(own, theirs) == Candidates(own[..|own| - 1], theirs)
        + if Compatible(last, theirs) then [Narrowed(last, theirs)] else []
  {
    var shared := Narrowed(own[|own| - 1], theirs).features;
    assert Compatible(own[|own| - 1], theirs) <==> shared != [] by {
      if shared != [] { assert shared[0] in shared; }
    }
  }

  /** Each candidate comes from an own version, and the candidates are in the order of those. */
  lemma {:induction false} CandidateSource(own: seq<Version>, theirs: seq<Version>, k: nat) returns (i: nat)
    requires k < |Candidates(own, theirs)|
    ensures i < |own| && Compatible(own[i], theirs) && Candidates(own, theirs)[k] == Narrowed(own[i], theirs)
    ensures forall j: nat :: j < i && Compatible(own[j], theirs) ==>
      exists l: nat :: l < k && Candidates(own, theirs)[l] == Narrowed(own[j], theirs)
    decreases |own|
  {
    var n := |own| - 1;
    var rest := Candidates(own[..n], theirs);
    CandidatesOfOne(own, theirs);
    if k < |rest| {
      i := CandidateSource(own[..n], theirs, k);
      forall j: nat | j < i && Compatible(own[j], theirs)
        ensures exists l: nat :: l < k && Candidates(own, theirs)[l] == Narrowed(own[j], theirs)
      {
        assert own[..n][j] == own[j];
        var l: nat :| l < k && rest[l] == Narrowed(own[j], theirs);
        assert Candidates(own, theirs)[l] == rest[l];
      }
    } else {
      i := n;
      CandidatesAreCommon(own[..n], theirs);
      forall j: nat | j < i && Compatible(own[j], theirs)
        ensures exists l: nat :: l < k && Candidates(own, theirs)[l] == Narrowed(own[j], theirs)
      {
        assert own[..n][j] == own[j] && own[j] in own[..n];
        assert Narrowed(own[j], theirs) in rest;
        var l: nat :| l < |rest| && rest[l] == Narrowed(own[j], theirs);
        assert Candidates(own, theirs)[l] == rest[l];
      }
    }
  }

  /** The choice is the first own version among those that are compatible and of the lowest identifier, narrowed to the
      common features. */
  lemma PickIsFirst(own: seq<Version>, theirs: seq<Version>)
    requires Pick(own, theirs).Some?
    ensures exists i: nat :: i < |own| && BestAt(own, theirs, i) && Pick(own, theirs).value == Narrowed(own[i], theirs)
  {
    var all, p := Candidates(own, theirs), Pick(own, theirs).value;
    assert all != [];
    SortPutsLeastFirst(all);
    var k: nat :| k < |all| && all[k] == p && LeastAt(all, k);
    var i := CandidateSource(own, theirs, k);
    PickIsBest(own, theirs);
    forall j: nat | j < i && Compatible(own[j], theirs) ensures own[j].id != own[i].id {
      var l: nat :| l < k && all[l] == Narrowed(own[j], theirs);
      assert all[l].id != all[k].id;
    }
    assert BestAt(own, theirs, i);
  }
}
