/** Strings: blank text, splitting at a separator, joining, decimal numbers and identifiers. */
module Text {
  import opened Basics

  /** The characters that trimming removes. */
  predicate IsWhitespace(c: char) {
    var n := c as int;
    9 <= n <= 13 || n == 32 || n == 0x85 || n == 0xA0 || n == 0x1680 || 0x2000 <= n <= 0x200A ||
    n == 0x2028 || n == 0x2029 || n == 0x202F || n == 0x205F || n == 0x3000
  }

  /** Nothing is left after trimming. */
  predicate IsBlank(s: string) {
    forall c <- s :: IsWhitespace(c)
  }

  // ----- Splitting and joining -----

  /** The pieces between separators; there is always at least one. */
  function Split(s: string, sep: char): (parts: seq<string>)
    ensures parts != []
    ensures forall p <- parts :: sep !in p
  {
    if s == "" then [""]
    else if s[0] == sep then [""] + Split(s[1..], sep)
    else
      var rest := Split(s[1..], sep);
      [[s[0]] + rest[0]] + rest[1..]
  }

  function Join(parts: seq<string>, sep: char): string {
    if parts == [] then ""
    else if |parts| == 1 then parts[0]
    else parts[0] + [sep] + Join(parts[1..], sep)
  }

  lemma {:induction false} JoinUndoesSplit(s: string, sep: char)
    ensures Join(Split(s, sep), sep) == s
  {
    if s != "" {
      JoinUndoesSplit(s[1..], sep);
      var rest := Split(s[1..], sep);
      if s[0] == sep {
        assert ([""] + rest)[1..] == rest;
      } else if |rest| > 1 {
        assert ([[s[0]] + rest[0]] + rest[1..])[1..] == rest[1..];
      }
    }
  }

  lemma {:induction false} SplitPiece(p: string, sep: char)
    requires sep !in p
    ensures Split(p, sep) == [p]
  {
    if p != "" {
      SplitPiece(p[1..], sep);
      assert p == [p[0]] + p[1..];
    }
  }

  lemma {:induction false} SplitAfter(p: string, s: string, sep: char)
    requires sep !in p
    ensures Split(p + [sep] + s, sep) == [p] + Split(s, sep)
  {
    var all := p + [sep] + s;
    if p == "" {
      assert all[1..] == s;
    } else {
      SplitAfter(p[1..], s, sep);
      assert all[1..] == p[1..] + [sep] + s && all[0] == p[0];
      assert ([p[1..]] + Split(s, sep))[1..] == Split(s, sep);
      assert p == [p[0]] + p[1..];
    }
  }

  lemma {:induction false} SplitUndoesJoin(parts: seq<string>, sep: char)
    requires parts != [] && forall p <- parts :: sep !in p
    ensures Split(Join(parts, sep), sep) == parts
  {
    if |parts| == 1 {
      SplitPiece(parts[0], sep);
    } else {
      SplitUndoesJoin(parts[1..], sep);
      SplitAfter(parts[0], Join(parts[1..], sep), sep);
    }
  }

  // ----- Numbers -----

  const U64_MAX: nat := 0xFFFF_FFFF_FFFF_FFFF

  predicate IsDigit(c: char) {
    '0' <= c <= '9'
  }

  predicate AllDigits(s: string) {
    forall c <- s :: IsDigit(c)
  }

  function PrintNat(n: nat): string {
    if n < 10 then [('0' as int + n) as char] else PrintNat(n / 10) + [('0' as int + n % 10) as char]
  }

  function DigitsValue(s: string): nat
    requires AllDigits(s)
  {
    if s == "" then 0 else
      assert s[|s| - 1] in s;
      10 * DigitsValue(s[..|s| - 1]) + (s[|s| - 1] as int - '0' as int)
  }

  /** Reading a 64-bit number: digits, perhaps after a plus sign, and no overflow. */
  function ParseU64(s: string): Option<nat> {
    var digits := if s != "" && s[0] == '+' then s[1..] else s;
    if digits == "" || !AllDigits(digits) || DigitsValue(digits) > U64_MAX then None
    else Some(DigitsValue(digits))
  }

  lemma {:induction false} PrintedDigits(n: nat)
    ensures PrintNat(n) != "" && AllDigits(PrintNat(n)) && DigitsValue(PrintNat(n)) == n
  {
    if n >= 10 {
      PrintedDigits(n / 10);
      var s := PrintNat(n);
      assert s[..|s| - 1] == PrintNat(n / 10);
    } else {
      assert PrintNat(n)[..0] == "";
    }
  }

  lemma ParseUndoesPrint(n: nat)
    requires n <= U64_MAX
    ensures ParseU64(PrintNat(n)) == Some(n)
    ensures forall c <- PrintNat(n) :: IsDigit(c)
  {
    PrintedDigits(n);
    assert PrintNat(n)[0] in PrintNat(n);
  }

  /** As many zeros as wanted. */
  function Zeros(k: nat): string {
    if k == 0 then "" else Zeros(k - 1) + "0"
  }

  /** Zeros in front do not change a number. */
  lemma {:induction false} LeadingZeros(k: nat, s: string)
    requires AllDigits(s)
    ensures AllDigits(Zeros(k) + s) && DigitsValue(Zeros(k) + s) == DigitsValue(s)
    decreases |s|, k
  {
    if s != "" {
      assert s[|s| - 1] in s;
      LeadingZeros(k, s[..|s| - 1]);
      assert (Zeros(k) + s)[..|Zeros(k) + s| - 1] == Zeros(k) + s[..|s| - 1];
    } else if k > 0 {
      LeadingZeros(k - 1, "");
      assert Zeros(k) + "" == Zeros(k) && Zeros(k - 1) + "" == Zeros(k - 1);
      assert Zeros(k)[..|Zeros(k)| - 1] == Zeros(k - 1);
    }
  }

  /** One more digit behind a number. */
  lemma PrintStep(m: nat, c: char)
    requires IsDigit(c)
    ensures var n := 10 * m + (c as int - '0' as int); PrintNat(n) == if m == 0 then [c] else PrintNat(m) + [c]
  {
  }

  /** Digits are the printed number with zeros in front. */
  lemma {:induction false} DigitsAreZerosAndNumber(s: string) returns (k: nat)
    requires s != "" && AllDigits(s)
    ensures s == Zeros(k) + PrintNat(DigitsValue(s))
  {
    var init, c := s[..|s| - 1], s[|s| - 1];
    assert c in s && s == init + [c];
    PrintStep(DigitsValue(init), c);
    if init == "" {
      k := 0;
    } else {
      var j := DigitsAreZerosAndNumber(init);
      k := if DigitsValue(init) == 0 then j + 1 else j;
      ZerosStep(j, DigitsValue(init), c);
    }
  }

  lemma ZerosStep(j: nat, m: nat, c: char)
    ensures (Zeros(j) + PrintNat(m)) + [c] == if m == 0 then Zeros(j + 1) + [c] else Zeros(j) + (PrintNat(m) + [c])
  {
  }

  function Sign(plus: bool): string {
    if plus then "+" else ""
  }

  lemma SignedDigitsParse(plus: bool, digits: string)
    requires digits != "" && AllDigits(digits) && DigitsValue(digits) <= U64_MAX
    ensures ParseU64(Sign(plus) + digits) == Some(DigitsValue(digits))
  {
    assert digits[0] in digits;
    if plus {
      assert ("+" + digits)[1..] == digits;
    } else {
      assert "" + digits == digits;
    }
  }

  lemma SpelledNumberParses(plus: bool, k: nat, n: nat)
    requires n <= U64_MAX
    ensures ParseU64(Sign(plus) + (Zeros(k) + PrintNat(n))) == Some(n)
  {
    PrintedDigits(n);
    LeadingZeros(k, PrintNat(n));
    SignedDigitsParse(plus, Zeros(k) + PrintNat(n));
  }

  lemma ParsedNumberIsSpelled(s: string, n: nat)
    requires ParseU64(s) == Some(n)
    ensures exists plus: bool, k: nat :: s == Sign(plus) + (Zeros(k) + PrintNat(n))
  {
    var plus := s[0] == '+';
    var digits := if plus then s[1..] else s;
    assert s == Sign(plus) + digits;
    var k := DigitsAreZerosAndNumber(digits);
  }

  /** Text is read as a number exactly when it is that number printed, with zeros and then a plus sign allowed in front,
      and the number fits 64 bits. */
  lemma ParsesNumberExactly(s: string, n: nat)
    ensures ParseU64(s) == Some(n) <==>
      n <= U64_MAX && exists plus: bool, k: nat :: s == Sign(plus) + (Zeros(k) + PrintNat(n))
  {
    if ParseU64(s) == Some(n) {
      ParsedNumberIsSpelled(s, n);
    } else if plus: bool, k: nat :| s == Sign(plus) + (Zeros(k) + PrintNat(n)) {
      if n <= U64_MAX {
        SpelledNumberParses(plus, k, n);
      }
    }
  }

  // ----- Identifiers -----

  /** Letters and digits; every character outside ASCII is let through. */
  predicate IsAlphanumeric(c: char) {
    'a' <= c <= 'z' || 'A' <= c <= 'Z' || IsDigit(c) || 128 <= c as int
  }

  predicate IsIdentifierChar(c: char) {
    IsAlphanumeric(c) || c in "._+-#[]<>"
  }

  /** The length of the UTF-8 form. */
  function ByteLength(s: string): nat {
    if s == "" then 0 else
      var n := s[0] as int;
      (if n < 0x80 then 1 else if n < 0x800 then 2 else if n < 0x1_0000 then 3 else 4) + ByteLength(s[1..])
  }

  predicate IsIdentifier(id: string, min: nat, max: nat) {
    id != "" && (forall c <- id :: IsIdentifierChar(c)) && min <= ByteLength(id) <= max
  }

  predicate IsClientId(id: string) { IsIdentifier(id, 9, 64) }

  predicate IsConnectionId(id: string) { IsIdentifier(id, 10, 64) }

  predicate IsPortId(id: string) { IsIdentifier(id, 2, 128) }

  predicate IsChannelId(id: string) { IsIdentifier(id, 8, 64) }

  lemma IdentifierHasNoSlash(id: string, min: nat, max: nat)
    requires IsIdentifier(id, min, max)
    ensures '/' !in id
  {
  }

  // ----- Numbered identifiers -----

  function Power10(k: nat): nat {
    if k == 0 then 1 else 10 * Power10(k - 1)
  }

  lemma {:induction false} PrintedLength(n: nat, k: nat)
    requires n < Power10(k) && k > 0
    ensures 1 <= |PrintNat(n)| <= k
  {
    if n >= 10 {
      PrintedLength(n / 10, k - 1);
    }
  }

  lemma TwentyDigits()
    ensures U64_MAX < Power10(20) && |PrintNat(U64_MAX)| == 20
  {
    assert Power10(5) == 10_0000;
    assert Power10(10) == 100_0000_0000 by { assert Power10(10) == 10 * (10 * (10 * (10 * (10 * Power10(5))))); }
    assert Power10(15) == 10 * (10 * (10 * (10 * (10 * Power10(10)))));
    assert Power10(20) == 10 * (10 * (10 * (10 * (10 * Power10(15)))));
    AtLeast(U64_MAX, 19);
    PrintedLength(U64_MAX, 20);
  }

  lemma {:induction false} AtLeast(n: nat, k: nat)
    requires Power10(k) <= n
    ensures k < |PrintNat(n)|
  {
    if k > 0 {
      AtLeast(n / 10, k - 1);
    }
  }

  lemma {:induction false} AsciiLength(s: string, t: string)
    requires forall c <- t :: c as int < 0x80
    ensures ByteLength(s + t) == ByteLength(s) + |t|
    decreases |s| + |t|
  {
    if s != "" {
      assert (s + t)[1..] == s[1..] + t;
      AsciiLength(s[1..], t);
    } else if t != "" {
      assert t[0] in t && forall c <- t[1..] :: c in t;
      assert "" + t == t && "" + t[1..] == t[1..];
      AsciiLength("", t[1..]);
    }
  }

  lemma NumberedLength(prefix: string, n: nat)
    ensures ByteLength(prefix + "-" + PrintNat(n)) == ByteLength(prefix) + 1 + |PrintNat(n)|
  {
    PrintedDigits(n);
    AsciiLength(prefix, "-" + PrintNat(n));
    assert prefix + ("-" + PrintNat(n)) == prefix + "-" + PrintNat(n);
  }

  /** The prefix leaves room for the shortest and for the longest number. */
  predicate PrefixFits(prefix: string, min: nat, max: nat) {
    && min <= ByteLength(prefix) + 2 && ByteLength(prefix) + 2 <= max
    && min <= ByteLength(prefix) + 21 && ByteLength(prefix) + 21 <= max
  }

  /** A number adds its dash and one to twenty digits to the prefix. */
  lemma NumberedRange(prefix: string, n: nat)
    requires n <= U64_MAX
    ensures ByteLength(prefix) + 2 <= ByteLength(prefix + "-" + PrintNat(n)) <= ByteLength(prefix) + 21
  {
    TwentyDigits();
    PrintedLength(n, 20);
    NumberedLength(prefix, n);
  }

  lemma NumberedEnds(prefix: string)
    ensures ByteLength(prefix + "-" + PrintNat(0)) == ByteLength(prefix) + 2
    ensures ByteLength(prefix + "-" + PrintNat(U64_MAX)) == ByteLength(prefix) + 21
  {
    TwentyDigits();
    NumberedLength(prefix, 0);
    NumberedLength(prefix, U64_MAX);
    assert |PrintNat(0)| == 1;
  }

  /** The two ends decide for all: a prefix fits exactly when it fits with every 64-bit number behind it. */
  lemma PrefixFitsExactly(prefix: string, min: nat, max: nat)
    ensures PrefixFits(prefix, min, max) <==>
      forall n: nat :: n <= U64_MAX ==> min <= ByteLength(prefix + "-" + PrintNat(n)) <= max
  {
    NumberedEnds(prefix);
    forall n: nat | n <= U64_MAX
      ensures ByteLength(prefix) + 2 <= ByteLength(prefix + "-" + PrintNat(n)) <= ByteLength(prefix) + 21
    {
      NumberedRange(prefix, n);
    }
  }

  lemma NumberedIsIdentifier(prefix: string, n: nat, min: nat, max: nat)
    requires n <= U64_MAX && PrefixFits(prefix, min, max) && forall c <- prefix :: IsIdentifierChar(c)
    ensures IsIdentifier(prefix + "-" + PrintNat(n), min, max)
  {
    PrefixFitsExactly(prefix, min, max);
    PrintedDigits(n);
    assert '-' in "._+-#[]<>";
  }

  lemma PlainLength(s: string)
    requires forall c <- s :: c as int < 0x80
    ensures ByteLength(s) == |s|
  {
    AsciiLength("", s);
    assert "" + s == s;
  }

  /** A letter, a digit or one of nine signs. */
  predicate IsPlainChar(c: char) {
    || 'a' <= c <= 'z' || 'A' <= c <= 'Z' || '0' <= c <= '9'
    || c == '.' || c == '_' || c == '+' || c == '-' || c == '#' || c == '[' || c == ']' || c == '<' || c == '>'
  }

  lemma PlainCharsExactly(c: char)
    requires c as int < 0x80
    ensures IsIdentifierChar(c) <==> IsPlainChar(c)
  {
    var signs := "._+-#[]<>";
    assert signs == ['.', '_', '+', '-', '#', '[', ']', '<', '>'];
  }

  /** ASCII text is an identifier exactly when it has only letters, digits and the nine signs, and its length is within
      the limits of its kind. */
  lemma IdentifiersExactly(id: string)
    requires forall c <- id :: c as int < 0x80
    ensures var plain := forall c <- id :: IsPlainChar(c);
      && (IsClientId(id) <==> plain && 9 <= |id| <= 64)
      && (IsConnectionId(id) <==> plain && 10 <= |id| <= 64)
      && (IsPortId(id) <==> plain && 2 <= |id| <= 128)
      && (IsChannelId(id) <==> plain && 8 <= |id| <= 64)
  {
    PlainLength(id);
    forall c <- id ensures IsIdentifierChar(c) <==> IsPlainChar(c) {
      PlainCharsExactly(c);
    }
  }

  lemma ClientTypeChars()
    ensures forall c <- "07-tendermint" :: IsIdentifierChar(c) && c as int < 0x80
  {
    assert IsIdentifierChar('-');
    forall c <- "07-tendermint" ensures IsIdentifierChar(c) && c as int < 0x80 {
      assert c == '-' || '0' <= c <= '7' || 'a' <= c <= 'z';
    }
  }

  lemma ClientTypeFits()
    ensures PrefixFits("07-tendermint", 9, 64)
  {
    ClientTypeChars();
    PlainLength("07-tendermint");
  }

  lemma ConnectionChars()
    ensures forall c <- "connection" :: IsIdentifierChar(c) && c as int < 0x80
  {
    forall c <- "connection" ensures IsIdentifierChar(c) && c as int < 0x80 {
      assert 'a' <= c <= 'z';
    }
  }

  lemma ConnectionFits()
    ensures PrefixFits("connection", 10, 64)
  {
    ConnectionChars();
    PlainLength("connection");
  }

  lemma ChannelChars()
    ensures forall c <- "channel" :: IsIdentifierChar(c) && c as int < 0x80
  {
    forall c <- "channel" ensures IsIdentifierChar(c) && c as int < 0x80 {
      assert 'a' <= c <= 'z';
    }
  }

  lemma ChannelFits()
    ensures PrefixFits("channel", 8, 64)
  {
    ChannelChars();
    PlainLength("channel");
  }

  /** The identifiers that a host makes for its clients, connections and channels are valid, whatever the counter. */
  lemma OwnIdentifiersAreValid(n: nat)
    requires n <= U64_MAX
    ensures IsClientId("07-tendermint" + "-" + PrintNat(n))
    ensures IsConnectionId("connection" + "-" + PrintNat(n))
    ensures IsChannelId("channel" + "-" + PrintNat(n))
  {
    ClientTypeChars();
    ClientTypeFits();
    ConnectionChars();
    ConnectionFits();
    ChannelChars();
    ChannelFits();
    NumberedIsIdentifier("07-tendermint", n, 9, 64);
    NumberedIsIdentifier("connection", n, 10, 64);
    NumberedIsIdentifier("channel", n, 8, 64);
  }
}
