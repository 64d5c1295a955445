/** What a packet commitment hashes: three numbers of eight bytes each, then the hash of the data. */
module Commitments {
  import opened Basics
  import opened Text

  function Power256(width: nat): (p: nat)
    ensures p >= 1
  {
    if width == 0 then 1 else 256 * Power256(width - 1)
  }

  /** Big-endian bytes of fixed width. */
  function BigEndian(n: nat, width: nat): (bytes: Bytes)
    ensures |bytes| == width
  {
    if width == 0 then [] else BigEndian(n / 256, width - 1) + [n % 256]
  }

  function Value(bytes: Bytes): nat {
    if bytes == [] then 0 else 256 * Value(bytes[..|bytes| - 1]) + bytes[|bytes| - 1]
  }

  lemma {:induction false} BigEndianValue(n: nat, width: nat)
    requires n < Power256(width)
    ensures Value(BigEndian(n, width)) == n
  {
    if width > 0 {
      BigEndianValue(n / 256, width - 1);
      assert BigEndian(n, width)[..width - 1] == BigEndian(n / 256, width - 1);
    }
  }

  lemma EightBytes()
    ensures Power256(8) == U64_MAX + 1
  {
    assert Power256(4) == 0x1_0000_0000;
    assert Power256(8) == 256 * (256 * (256 * (256 * Power256(4))));
  }

  // ----- The numbers that stand for "no timeout" -----

  function TimestampNanos(t: Option<nat>): nat {
    if t.Some? then t.value else 0
  }

  function RevisionNumber(t: TimeoutHeight): nat {
    if t.At? then t.height.revision else 0
  }

  function RevisionHeight(t: TimeoutHeight): nat {
    if t.At? then t.height.number else 0
  }

  /** Timestamps and heights as the source builds them: a set one is never zero, and both fit 64 bits. */
  predicate WellFormed(time: Option<nat>, height: TimeoutHeight) {
    && (time.Some? ==> 0 < time.value <= U64_MAX)
    && (height.At? ==> height.height.revision <= U64_MAX && 0 < height.height.number <= U64_MAX)
  }

  function PreImage(dataHash: Bytes, height: TimeoutHeight, time: Option<nat>): Bytes {
    BigEndian(TimestampNanos(time), 8) + BigEndian(RevisionNumber(height), 8) +
    BigEndian(RevisionHeight(height), 8) + dataHash
  }

  /** The buffer, appended to field by field, and its hash. */
  method ComputePacketCommitment(data: Bytes, height: TimeoutHeight, time: Option<nat>,
                                 hash: Bytes -> Bytes)
    returns (commitment: Bytes)
    ensures commitment == hash(PreImage(hash(data), height, time))
  {
    var hashInput := BigEndian(TimestampNanos(time), 8);
    var revisionNumber := BigEndian(RevisionNumber(height), 8);
    hashInput := hashInput + revisionNumber;
    var revisionHeight := BigEndian(RevisionHeight(height), 8);
    hashInput := hashInput + revisionHeight;
    var dataHash := hash(data);
    hashInput := hashInput + dataHash;
    return hash(hashInput);
  }

  lemma SameNumber(m: nat, n: nat)
    requires m <= U64_MAX && n <= U64_MAX && BigEndian(m, 8) == BigEndian(n, 8)
    ensures m == n
  {
    EightBytes();
    BigEndianValue(m, 8);
    BigEndianValue(n, 8);
  }

  lemma Fields(dataHash: Bytes, height: TimeoutHeight, time: Option<nat>)
    ensures var p := PreImage(dataHash, height, time);
      |p| >= 24 && p[..8] == BigEndian(TimestampNanos(time), 8) && p[8..16] == BigEndian(RevisionNumber(height), 8) &&
      p[16..24] == BigEndian(RevisionHeight(height), 8) && p[24..] == dataHash
  {
  }

  /** Equal pre-images come from equal timeouts and equal data hashes; "never" is no height's encoding. */
  lemma PreImageIsInjective(h1: Bytes, height1: TimeoutHeight, time1: Option<nat>,
                            h2: Bytes, height2: TimeoutHeight, time2: Option<nat>)
    requires WellFormed(time1, height1) && WellFormed(time2, height2)
    requires PreImage(h1, height1, time1) == PreImage(h2, height2, time2)
    ensures h1 == h2 && height1 == height2 && time1 == time2
  {
    Fields(h1, height1, time1);
    Fields(h2, height2, time2);
    SameNumber(TimestampNanos(time1), TimestampNanos(time2));
    SameNumber(RevisionNumber(height1), RevisionNumber(height2));
    SameNumber(RevisionHeight(height1), RevisionHeight(height2));
  }

  /** With a hash that never collides, equal commitments come from equal packets' data and timeouts. */
  lemma CommitmentBinds(hash: Bytes -> Bytes, data1: Bytes, height1: TimeoutHeight, time1: Option<nat>,
                        data2: Bytes, height2: TimeoutHeight, time2: Option<nat>)
    requires forall x, y :: hash(x) == hash(y) ==> x == y
    requires WellFormed(time1, height1) && WellFormed(time2, height2)
    requires hash(PreImage(hash(data1), height1, time1)) == hash(PreImage(hash(data2), height2, time2))
    ensures data1 == data2 && height1 == height2 && time1 == time2
  {
    PreImageIsInjective(hash(data1), height1, time1, hash(data2), height2, time2);
  }
}
