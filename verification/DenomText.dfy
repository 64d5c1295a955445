/** Denominations as text: `port/channel/port/channel/base`, the latest hop first. */
module DenomText {
  import opened Basics
  import opened Denoms
  import opened Text

  predicate ValidHop(h: Hop) {
    IsPortId(h.port) && IsChannelId(h.channel)
  }

  predicate ValidTrace(trace: seq<Hop>) {
    forall h <- trace :: ValidHop(h)
  }

  /** A base that can stand at the end of the text: not blank, and without the separator. */
  predicate ValidBase(base: string) {
    !IsBlank(base) && '/' !in base
  }

  // ----- Printing -----

  function PrintHop(h: Hop): string {
    h.port + "/" + h.channel
  }

  /** The hops as text, last first. */
  function HopTexts(trace: seq<Hop>): seq<string> {
    if trace == [] then [] else [PrintHop(trace[|trace| - 1])] + HopTexts(trace[..|trace| - 1])
  }

  function PrintTrace(trace: seq<Hop>): string {
    Join(HopTexts(trace), '/')
  }

  function PrintDenom(d: Denom): string {
    if d.trace == [] then d.base else PrintTrace(d.trace) + "/" + d.base
  }

  // ----- Parsing -----

  /** Pairs of components, read from the right and each put on top of the last. */
  function TraceOf(parts: seq<string>): Option<seq<Hop>> {
    if parts == [] then Some([])
    else if |parts| == 1 then None
    else
      var rest := TraceOf(parts[2..]);
      if rest.None? || !ValidHop(Hop(parts[0], parts[1])) then None
      else Some(rest.value + [Hop(parts[0], parts[1])])
  }

  /** The loop that builds the trace: an odd number of components is refused, as is any bad identifier. */
  method ParseTrace(parts: seq<string>) returns (r: Option<seq<Hop>>)
    ensures r == TraceOf(parts)
  {
    if |parts| % 2 != 0 {
      OddIsRefused(parts);
      return None;
    }
    var trace: seq<Hop> := [];
    var i := |parts|;
    while i > 0
      invariant 0 <= i <= |parts| && i % 2 == 0
      invariant TraceOf(parts[i..]) == Some(trace)
    {
      i := i - 2;
      assert parts[i..][2..] == parts[i + 2..];
      var hop := Hop(parts[i], parts[i + 1]);
      if !IsPortId(hop.port) || !IsChannelId(hop.channel) {
        BadTailIsRefused(parts, i);
        return None;
      }
      trace := trace + [hop];
    }
    assert parts[0..] == parts;
    return Some(trace);
  }

  lemma {:induction false} OddIsRefused(parts: seq<string>)
    requires |parts| % 2 != 0
    ensures TraceOf(parts) == None
  {
    if |parts| > 1 {
      OddIsRefused(parts[2..]);
    }
  }

  lemma {:induction false} BadTailIsRefused(parts: seq<string>, i: nat)
    requires i <= |parts| && i % 2 == 0 && TraceOf(parts[i..]).None?
    ensures TraceOf(parts).None?
  {
    if i > 0 {
      assert parts[2..][i - 2..] == parts[i..];
      BadTailIsRefused(parts[2..], i - 2);
    } else {
      assert parts[0..] == parts;
    }
  }

  /** A denomination from its text and the components of that text. */
  function FromParts(s: string, parts: seq<string>): Option<Denom>
    requires parts != []
  {
    var last, front := parts[|parts| - 1], parts[..|parts| - 1];
    if IsBlank(last) then None
    else if last == s then Some(Denom([], s))
    else
      var trace := TraceOf(front);
      if trace.None? then None else Some(Denom(trace.value, last))
  }

  function ParseDenom(s: string): Option<Denom> {
    FromParts(s, Split(s, '/'))
  }

  /** A trace on its own: blank text is the empty trace. */
  function ParseTracePath(s: string): Option<seq<Hop>> {
    var parts := Split(s, '/');
    TraceOf(if |parts| == 1 && IsBlank(parts[0]) then [] else parts)
  }

  // ----- Round trips -----

  /** The components of a printed trace. */
  function TraceParts(trace: seq<Hop>): seq<string> {
    if trace == [] then [] else
      [trace[|trace| - 1].port, trace[|trace| - 1].channel] + TraceParts(trace[..|trace| - 1])
  }

  lemma JoinCons(first: string, rest: seq<string>, sep: char)
    ensures Join([first] + rest, sep) == if rest == [] then first else first + [sep] + Join(rest, sep)
  {
    assert ([first] + rest)[1..] == rest;
  }

  /** Adding a hop on top of a trace, in its text and in its components. */
  lemma TextPush(rest: seq<Hop>, top: Hop)
    ensures PrintTrace(rest + [top])
         == if HopTexts(rest) == [] then PrintHop(top) else PrintHop(top) + "/" + PrintTrace(rest)
  {
    assert (rest + [top])[..|rest|] == rest;
    JoinCons(PrintHop(top), HopTexts(rest), '/');
  }

  lemma JoinPush(tail: seq<string>, top: Hop)
    ensures Join([top.port, top.channel] + tail, '/')
         == if tail == [] then PrintHop(top) else PrintHop(top) + "/" + Join(tail, '/')
  {
    JoinCons(top.port, [top.channel] + tail, '/');
    JoinCons(top.channel, tail, '/');
    assert [top.port, top.channel] + tail == [top.port] + ([top.channel] + tail);
    Associate(top, Join(tail, '/'));
  }

  lemma Associate(top: Hop, tail: string)
    ensures PrintHop(top) + "/" + tail == top.port + "/" + (top.channel + "/" + tail)
  {
  }

  lemma {:induction false} PrintedParts(trace: seq<Hop>)
    ensures PrintTrace(trace) == Join(TraceParts(trace), '/')
    ensures |TraceParts(trace)| == 2 * |trace| && |HopTexts(trace)| == |trace|
  {
    if trace != [] {
      var top, rest := trace[|trace| - 1], trace[..|trace| - 1];
      assert trace == rest + [top];
      PrintedParts(rest);
      TextPush(rest, top);
      PartsPush(rest, top);
      JoinPush(TraceParts(rest), top);
    }
  }

  lemma {:induction false} JoinAppend(parts: seq<string>, last: string, sep: char)
    requires parts != []
    ensures Join(parts + [last], sep) == Join(parts, sep) + [sep] + last
  {
    assert (parts + [last])[1..] == parts[1..] + [last];
    if |parts| > 1 {
      JoinAppend(parts[1..], last, sep);
    } else {
      assert parts[1..] + [last] == [last];
    }
  }

  /** A hop on top of a trace comes first in its components. */
  lemma PartsPush(rest: seq<Hop>, top: Hop)
    ensures TraceParts(rest + [top]) == [top.port, top.channel] + TraceParts(rest)
  {
    assert (rest + [top])[..|rest|] == rest;
  }

  lemma TraceOfPush(parts: seq<string>, port: string, channel: string)
    ensures TraceOf([port, channel] + parts)
         == (var rest := TraceOf(parts);
             if rest.None? || !ValidHop(Hop(port, channel)) then None else Some(rest.value + [Hop(port, channel)]))
  {
    assert ([port, channel] + parts)[2..] == parts;
  }

  lemma {:induction false} TraceOfParts(trace: seq<Hop>)
    requires ValidTrace(trace)
    ensures TraceOf(TraceParts(trace)) == Some(trace)
  {
    if trace != [] {
      var top, rest := trace[|trace| - 1], trace[..|trace| - 1];
      assert trace == rest + [top] && top in trace;
      TraceOfParts(rest);
      PartsPush(rest, top);
      TraceOfPush(TraceParts(rest), top.port, top.channel);
    }
  }

  lemma {:induction false} PartsAreClean(trace: seq<Hop>)
    requires ValidTrace(trace)
    ensures forall p <- TraceParts(trace) :: '/' !in p
  {
    if trace != [] {
      var top := trace[|trace| - 1];
      assert top in trace;
      PartsAreClean(trace[..|trace| - 1]);
      IdentifierHasNoSlash(top.port, 2, 128);
      IdentifierHasNoSlash(top.channel, 8, 64);
    }
  }

  lemma PartsOfPush(tail: seq<string>, port: string, channel: string)
    requires TraceOf(tail).Some? && TraceParts(TraceOf(tail).value) == tail && ValidHop(Hop(port, channel))
    ensures TraceOf([port, channel] + tail).Some?
    ensures TraceParts(TraceOf([port, channel] + tail).value) == [port, channel] + tail
  {
    TraceOfPush(tail, port, channel);
    PartsPush(TraceOf(tail).value, Hop(port, channel));
  }

  lemma {:induction false} PartsOfTrace(parts: seq<string>)
    requires TraceOf(parts).Some?
    ensures TraceParts(TraceOf(parts).value) == parts
  {
    if parts != [] {
      var tail := parts[2..];
      assert parts == [parts[0], parts[1]] + tail;
      TraceOfPush(tail, parts[0], parts[1]);
      PartsOfTrace(tail);
      PartsOfPush(tail, parts[0], parts[1]);
    }
  }

  lemma {:induction false} ParsedTraceIsValid(parts: seq<string>)
    requires TraceOf(parts).Some?
    ensures ValidTrace(TraceOf(parts).value)
  {
    if parts != [] {
      ParsedTraceIsValid(parts[2..]);
    }
  }

  lemma DenomParts(d: Denom)
    ensures PrintDenom(d) == Join(TraceParts(d.trace) + [d.base], '/')
  {
    PrintedParts(d.trace);
    if d.trace != [] {
      JoinAppend(TraceParts(d.trace), d.base, '/');
    }
  }

  /** Printing and then parsing gives every well-formed denomination back. */
  lemma ParseUndoesPrintDenom(d: Denom)
    requires ValidTrace(d.trace) && ValidBase(d.base)
    ensures ParseDenom(PrintDenom(d)) == Some(d)
  {
    var parts := TraceParts(d.trace) + [d.base];
    DenomParts(d);
    TraceOfParts(d.trace);
    PartsAreClean(d.trace);
    SplitUndoesJoin(parts, '/');
    assert parts[..|parts| - 1] == TraceParts(d.trace);
    PrintedParts(d.trace);
    if d.trace != [] {
      assert PrintDenom(d)[|PrintTrace(d.trace)|] == '/';
      assert PrintDenom(d) != d.base;
    }
  }

  lemma PrintedTrace(front: seq<string>, last: string)
    requires TraceOf(front).Some?
    ensures PrintDenom(Denom(TraceOf(front).value, last)) == Join(front + [last], '/')
  {
    PartsOfTrace(front);
    DenomParts(Denom(TraceOf(front).value, last));
  }

  /** Parsing and then printing gives every accepted text back. */
  lemma PrintUndoesParseDenom(s: string)
    requires ParseDenom(s).Some?
    ensures PrintDenom(ParseDenom(s).value) == s
  {
    var parts := Split(s, '/');
    var last, front := parts[|parts| - 1], parts[..|parts| - 1];
    if last != s {
      JoinUndoesSplit(s, '/');
      PrintedTrace(front, last);
      assert front + [last] == parts;
    }
  }

  /** What is accepted is well formed. */
  lemma ParsedIsWellFormed(s: string)
    requires ParseDenom(s).Some?
    ensures ValidTrace(ParseDenom(s).value.trace) && ValidBase(ParseDenom(s).value.base)
  {
    var parts := Split(s, '/');
    assert parts[|parts| - 1] in parts;
    if parts[|parts| - 1] != s {
      ParsedTraceIsValid(parts[..|parts| - 1]);
    }
  }

  /** A trace alone also comes back from its text, the empty trace from the empty text. */
  lemma ParseUndoesPrintTrace(trace: seq<Hop>)
    requires ValidTrace(trace)
    ensures ParseTracePath(PrintTrace(trace)) == Some(trace)
  {
    PrintedParts(trace);
    TraceOfParts(trace);
    PartsAreClean(trace);
    if trace == [] {
      assert Split("", '/') == [""];
    } else {
      SplitUndoesJoin(TraceParts(trace), '/');
    }
  }

  /** Text is read as a trace exactly when it is that trace printed, or blank for the empty trace. */
  lemma TraceParsesExactly(s: string, trace: seq<Hop>)
    ensures ParseTracePath(s) == Some(trace) <==>
      ValidTrace(trace) && (s == PrintTrace(trace) || (trace == [] && IsBlank(s)))
  {
    var parts := Split(s, '/');
    JoinUndoesSplit(s, '/');
    if ParseTracePath(s) == Some(trace) && !(|parts| == 1 && IsBlank(parts[0])) {
      ParsedTraceIsValid(parts);
      PartsOfTrace(parts);
      PrintedParts(trace);
    }
    if ValidTrace(trace) && s == PrintTrace(trace) {
      ParseUndoesPrintTrace(trace);
    }
    if IsBlank(s) {
      assert '/' !in s;
      SplitPiece(s, '/');
    }
  }

  /** Text is read as a denomination exactly when it is that denomination printed, with valid hops and base. */
  lemma DenomParsesExactly(s: string, d: Denom)
    ensures ParseDenom(s) == Some(d) <==> ValidTrace(d.trace) && ValidBase(d.base) && s == PrintDenom(d)
  {
    if ParseDenom(s) == Some(d) {
      ParsedIsWellFormed(s);
      PrintUndoesParseDenom(s);
    } else if ValidTrace(d.trace) && ValidBase(d.base) {
      ParseUndoesPrintDenom(d);
    }
  }
}
