// JSONL telemetry of a child process: read chunk by chunk, or from the whole text at once.

module Telemetry {
  import opened Wrappers
  import opened JsText

  const NEWLINE: CodeUnit := 10
  const RETURN: CodeUnit := 13
  const CARRY_LIMIT := 512 * 1024

  // ---------------------------------------------------------------------
  // Lines

  function NewlineAt(t: Text): (i: nat)
    ensures i <= |t|
    ensures i < |t| ==> t[i] == NEWLINE
    ensures forall k :: 0 <= k < i ==> t[k] != NEWLINE
  {
    if t == [] || t[0] == NEWLINE then 0 else 1 + NewlineAt(t[1..])
  }

  function StripReturn(line: Text): Text {
    if line != [] && line[|line| - 1] == RETURN then line[..|line| - 1] else line
  }

  /** `split(/\r?\n/)`: every piece but the last was ended by a line break. */
  function Split(t: Text): (lines: seq<Text>)
    ensures lines != []
  {
    var i := NewlineAt(t);
    if i == |t| then [t] else [StripReturn(t[..i])] + Split(t[i + 1..])
  }

  function Pending(t: Text): Text {
    Split(t)[|Split(t)| - 1]
  }

  function Closed(t: Text): seq<Text> {
    Split(t)[..|Split(t)| - 1]
  }

  predicate Unbroken(line: Text) {
    forall k :: 0 <= k < |line| ==> line[k] != NEWLINE
  }

  lemma {:induction false} FirstBreak(line: Text, tail: Text)
    requires Unbroken(line) && tail != [] && tail[0] == NEWLINE
    ensures NewlineAt(line + tail) == |line|
  {
    if line == [] {
      assert line + tail == tail;
    } else {
      assert (line + tail)[0] == line[0] && (line + tail)[1..] == line[1..] + tail;
      FirstBreak(line[1..], tail);
    }
  }

  lemma SplitAtBreak(line: Text, rest: Text)
    requires Unbroken(line)
    ensures Split(line + ([NEWLINE] + rest)) == [StripReturn(line)] + Split(rest)
  {
    FirstBreak(line, [NEWLINE] + rest);
    var t := line + ([NEWLINE] + rest);
    assert t[..|line|] == line && t[|line| + 1..] == rest;
  }

  lemma BreakEndsLine(line: Text, rest: Text)
    requires Unbroken(line)
    ensures Closed(line + ([NEWLINE] + rest)) == [StripReturn(line)] + Closed(rest)
    ensures Pending(line + ([NEWLINE] + rest)) == Pending(rest)
  {
    SplitAtBreak(line, rest);
  }

  lemma UnbrokenIsPending(t: Text)
    requires Unbroken(t)
    ensures Split(t) == [t] && Closed(t) == [] && Pending(t) == t
  {
  }

  /** A text has no line break, or a first line, its break and the rest. */
  lemma FirstLine(t: Text) returns (line: Text, rest: Text)
    ensures Unbroken(t) || (Unbroken(line) && t == line + ([NEWLINE] + rest))
  {
    var i := NewlineAt(t);
    line, rest := [], [];
    if i < |t| {
      line, rest := t[..i], t[i + 1..];
    }
  }

  lemma Regrouped(line: Text, rest: Text, b: Text)
    ensures line + ([NEWLINE] + rest) + b == line + ([NEWLINE] + (rest + b))
  {
  }

  /** Only the pending piece needs to be kept to split a text that goes on. */
  lemma {:induction false} SplitGoesOn(a: Text, b: Text)
    ensures Split(a + b) == Closed(a) + Split(Pending(a) + b)
    decreases |a|
  {
    var line, rest := FirstLine(a);
    if Unbroken(a) {
      UnbrokenIsPending(a);
    } else {
      Regrouped(line, rest, b);
      SplitAtBreak(line, rest + b);
      BreakEndsLine(line, rest);
      SplitGoesOn(rest, b);
    }
  }

  /** Cutting off the pending piece leaves the closed lines and an empty pending piece. */
  lemma {:induction false} SplitWithoutPending(t: Text)
    ensures |Pending(t)| <= |t|
    ensures Split(t[..|t| - |Pending(t)|]) == Closed(t) + [[]]
    decreases |t|
  {
    var line, rest := FirstLine(t);
    if Unbroken(t) {
      UnbrokenIsPending(t);
      assert t[..0] == [];
    } else {
      BreakEndsLine(line, rest);
      SplitWithoutPending(rest);
      var kept := rest[..|rest| - |Pending(rest)|];
      CutAfterBreak(line, rest, |Pending(rest)|);
      SplitAtBreak(line, kept);
    }
  }

  lemma CutAfterBreak(line: Text, rest: Text, n: nat)
    requires n <= |rest|
    ensures
      var t := line + ([NEWLINE] + rest);
      t[..|t| - n] == line + ([NEWLINE] + rest[..|rest| - n])
  {
  }

  // ---------------------------------------------------------------------
  // Events

  datatype EventType = ThreadStarted | TurnCompleted | OtherType

  /** Token usage as `numberOrNull` reads it from the event. */
  datatype Usage = Usage(input: Option<real>, cached: Option<real>, output: Option<real>, reasoning: Option<real>)

  datatype Event = NullEvent | Event(eventType: EventType, threadId: Option<Text>, usage: Usage)

  /** `JSON.parse`; `None` when it throws. */
  type Parser = Text -> Option<Event>

  const NO_USAGE := Usage(None, None, None, None)

  /** Empty lines and lines that are not JSON are skipped. */
  function Accepted(parse: Parser, line: Text): seq<Event> {
    if line == [] then [] else if parse(line).None? then [] else [parse(line).value]
  }

  function Events(parse: Parser, lines: seq<Text>): seq<Event> {
    if lines == [] then [] else Events(parse, lines[..|lines| - 1]) + Accepted(parse, lines[|lines| - 1])
  }

  lemma {:induction false} EventsGoOn(parse: Parser, a: seq<Text>, b: seq<Text>)
    ensures Events(parse, a + b) == Events(parse, a) + Events(parse, b)
  {
    if b == [] {
      assert a + b == a;
    } else {
      var n := |b| - 1;
      assert (a + b)[..|a + b| - 1] == a + b[..n];
      EventsGoOn(parse, a, b[..n]);
    }
  }

  datatype Found = Nothing | Found(event: Event) | Crashed

  /** `find`, reading `type` off each event up to the first hit; reading it off `null` throws. */
  function FindFirst(events: seq<Event>, wanted: EventType): Found {
    if events == [] then Nothing
    else if events[0].NullEvent? then Crashed
    else if events[0].eventType == wanted then Found.Found(events[0])
    else FindFirst(events[1..], wanted)
  }

  /** `[...events].reverse().find(...)`. */
  function FindLast(events: seq<Event>, wanted: EventType): Found {
    if events == [] then Nothing
    else
      var last := events[|events| - 1];
      if last.NullEvent? then Crashed
      else if last.eventType == wanted then Found.Found(last)
      else FindLast(events[..|events| - 1], wanted)
  }

  datatype Summary = Summary(threadId: Option<Text>, usage: Usage, eventCount: nat) | Thrown

  function Summarize(started: Found, completed: Found, eventCount: nat): Summary {
    Summary(if started.Found? && started.event.Event? then started.event.threadId else None,
            if completed.Found? && completed.event.Event? then completed.event.usage else NO_USAGE,
            eventCount)
  }

  function ParseTelemetry(parse: Parser, text: Text): Summary {
    var events := Events(parse, Split(text));
    var completed := FindLast(events, TurnCompleted);
    if completed.Crashed? then Thrown
    else
      var started := FindFirst(events, ThreadStarted);
      if started.Crashed? then Thrown else Summarize(started, completed, |events|)
  }

  ghost predicate NoNull(events: seq<Event>) {
    forall i :: 0 <= i < |events| ==> events[i].Event?
  }

  lemma {:induction false} FindFirstGoesOn(events: seq<Event>, last: Event, wanted: EventType)
    requires NoNull(events)
    ensures FindFirst(events + [last], wanted) ==
      if FindFirst(events, wanted).Found? then FindFirst(events, wanted) else FindFirst([last], wanted)
    ensures !FindFirst(events, wanted).Crashed?
  {
    if events == [] {
      assert events + [last] == [last];
    } else {
      assert (events + [last])[0] == events[0] && (events + [last])[1..] == events[1..] + [last];
      FindFirstGoesOn(events[1..], last, wanted);
    }
  }

  lemma {:induction false} FindLastWithoutNull(events: seq<Event>, wanted: EventType)
    requires NoNull(events)
    ensures !FindLast(events, wanted).Crashed?
  {
    if events != [] {
      FindLastWithoutNull(events[..|events| - 1], wanted);
    }
  }

  // ---------------------------------------------------------------------
  // The accumulator

  /** `Buffer.byteLength`: bytes of the UTF-8 encoding, lone surrogates replaced by a three-byte character. */
  function ByteLength(t: Text): nat {
    if t == [] then 0
    else if t[0] < 0x80 then 1 + ByteLength(t[1..])
    else if t[0] < 0x800 then 2 + ByteLength(t[1..])
    else if |t| > 1 && 0xD800 <= t[0] <= 0xDBFF && 0xDC00 <= t[1] <= 0xDFFF then 4 + ByteLength(t[2..])
    else 3 + ByteLength(t[1..])
  }

  /** The text the accumulator accounts for: a pending piece over the limit is dropped. */
  function Trimmed(t: Text): Text {
    SplitWithoutPending(t);
    if ByteLength(Pending(t)) > CARRY_LIMIT then t[..|t| - |Pending(t)|] else t
  }

  function Kept(chunks: seq<Text>): Text {
    if chunks == [] then [] else Trimmed(Kept(chunks[..|chunks| - 1]) + chunks[|chunks| - 1])
  }

  class Accumulator {
    const parse: Parser
    var carry: Text
    var started: Option<Event>
    var completed: Option<Event>
    var eventCount: nat
    ghost var seen: seq<Event>

    ghost predicate Tallied()
      reads this
    {
      && NoNull(seen)
      && eventCount == |seen|
      && FindFirst(seen, ThreadStarted) == (if started.Some? then Found.Found(started.value) else Nothing)
      && FindLast(seen, TurnCompleted) == (if completed.Some? then Found.Found(completed.value) else Nothing)
    }

    /** The accumulator has read `text`, keeping back only its pending piece. */
    ghost predicate HasRead(text: Text)
      reads this
    {
      Tallied() && seen == Events(parse, Closed(text)) && carry == Pending(text)
    }

    constructor (parse: Parser)
      ensures this.parse == parse && HasRead([])
    {
      this.parse := parse;
      carry, started, completed, eventCount := [], None, None, 0;
      seen := [];
    }

    /** False when reading the event's type throws. */
    method AcceptLine(line: Text) returns (ok: bool)
      requires Tallied()
      modifies this`started, this`completed, this`eventCount, this`seen
      ensures ok <==> NoNull(Accepted(parse, line))
      ensures ok ==> Tallied() && seen == old(seen) + Accepted(parse, line)
    {
      if line == [] { return true; }
      var event := parse(line);
      if event.None? { return true; }
      var e := event.value;
      eventCount := eventCount + 1;
      if e.NullEvent? {
        assert Accepted(parse, line)[0].NullEvent?;
        return false;
      }
      FindFirstGoesOn(seen, e, ThreadStarted);
      assert (seen + [e])[..|seen + [e]| - 1] == seen;
      if started.None? && e.eventType.ThreadStarted? { started := Some(e); }
      if e.eventType.TurnCompleted? { completed := Some(e); }
      seen := seen + [e];
      return true;
    }

    /** A chunk of text arrives; `text` is what was accounted for before it. */
    method Append(value: Text, ghost text: Text) returns (ok: bool)
      requires HasRead(text)
      modifies this
      ensures ok <==> NoNull(Events(parse, Closed(text + value)))
      ensures ok ==> HasRead(Trimmed(text + value))
    {
      ClosedGoesOn(parse, text, value);
      ghost var added := Closed(Pending(text) + value);
      carry := carry + value;
      var lines := Split(carry);
      carry := lines[|lines| - 1];
      assert carry == Pending(text + value) && lines[..|lines| - 1] == added;
      ok := AcceptLines(lines[..|lines| - 1]);
      if !ok { return; }
      assert seen == Events(parse, Closed(text + value));
      TrimmedKeepsLines(text + value);
      if ByteLength(carry) > CARRY_LIMIT { carry := []; }
    }

    method AcceptLines(lines: seq<Text>) returns (ok: bool)
      requires Tallied()
      modifies this`started, this`completed, this`eventCount, this`seen
      ensures ok <==> NoNull(Events(parse, lines))
      ensures ok ==> Tallied() && seen == old(seen) + Events(parse, lines)
    {
      for i := 0 to |lines|
        invariant Tallied() && seen == old(seen) + Events(parse, lines[..i]) && NoNull(Events(parse, lines[..i]))
      {
        NextLine(parse, lines, i);
        ok := AcceptLine(lines[i]);
        if !ok {
          NullLine(parse, lines, i);
          return;
        }
      }
      assert lines[..|lines|] == lines;
      return true;
    }

    /** The end of the output: the pending piece is a line after all. */
    method Finish(ghost text: Text) returns (ok: bool)
      requires HasRead(text)
      modifies this
      ensures ok <==> NoNull(Events(parse, Split(text)))
      ensures ok ==> Tallied() && seen == Events(parse, Split(text))
    {
      assert Split(text) == Closed(text) + [carry];
      assert Split(text)[..|Split(text)| - 1] == Closed(text);
      NoNullInParts(seen, Accepted(parse, carry));
      ok := AcceptLine(carry);
      carry := [];
    }

    method Snapshot() returns (s: Summary)
      requires Tallied()
      ensures s == Summarize(FindFirst(seen, ThreadStarted), FindLast(seen, TurnCompleted), |seen|)
    {
      return Summary(if started.Some? && started.value.Event? then started.value.threadId else None,
                     if completed.Some? && completed.value.Event? then completed.value.usage else NO_USAGE,
                     eventCount);
    }
  }

  lemma NoNullInParts(a: seq<Event>, b: seq<Event>)
    ensures NoNull(a + b) <==> NoNull(a) && NoNull(b)
  {
    if NoNull(a + b) {
      forall i | 0 <= i < |a| ensures a[i].Event? { assert (a + b)[i] == a[i]; }
      forall i | 0 <= i < |b| ensures b[i].Event? { assert (a + b)[|a| + i] == b[i]; }
    }
  }

  /** The lines a chunk closes, and the events they add. */
  lemma ClosedGoesOn(parse: Parser, text: Text, value: Text)
    ensures
      var added := Closed(Pending(text) + value);
      && Closed(text + value) == Closed(text) + added
      && Pending(text + value) == Pending(Pending(text) + value)
      && Events(parse, Closed(text + value)) == Events(parse, Closed(text)) + Events(parse, added)
      && (NoNull(Events(parse, Closed(text + value)))
          <==> NoNull(Events(parse, Closed(text))) && NoNull(Events(parse, added)))
  {
    SplitGoesOn(text, value);
    var added := Closed(Pending(text) + value);
    EventsGoOn(parse, Closed(text), added);
    NoNullInParts(Events(parse, Closed(text)), Events(parse, added));
  }

  lemma NextLine(parse: Parser, lines: seq<Text>, i: nat)
    requires i < |lines|
    ensures Events(parse, lines[..i + 1]) == Events(parse, lines[..i]) + Accepted(parse, lines[i])
    ensures NoNull(Events(parse, lines[..i])) && NoNull(Accepted(parse, lines[i])) ==>
      NoNull(Events(parse, lines[..i + 1]))
  {
    assert lines[..i + 1][..i] == lines[..i];
  }

  lemma EventOfLine(parse: Parser, line: Text)
    ensures Events(parse, [line]) == Accepted(parse, line)
  {
  }

  lemma {:induction false} NullLine(parse: Parser, lines: seq<Text>, i: nat)
    requires i < |lines| && !NoNull(Accepted(parse, lines[i]))
    ensures !NoNull(Events(parse, lines))
  {
    var n := |lines| - 1;
    NoNullInParts(Events(parse, lines[..n]), Accepted(parse, lines[n]));
    if i < n {
      NullLine(parse, lines[..n], i);
    }
  }

  lemma TrimmedKeepsLines(t: Text)
    ensures Closed(Trimmed(t)) == Closed(t)
    ensures Pending(Trimmed(t)) == if ByteLength(Pending(t)) > CARRY_LIMIT then [] else Pending(t)
  {
    SplitWithoutPending(t);
  }

  // ---------------------------------------------------------------------
  // Chunks do not matter

  /** Lines once closed stay closed, so an event once read stays read. */
  lemma NullStays(parse: Parser, text: Text, more: Text)
    requires !NoNull(Events(parse, Closed(text)))
    ensures !NoNull(Events(parse, Closed(text + more))) && !NoNull(Events(parse, Closed(Trimmed(text + more))))
  {
    ClosedGoesOn(parse, text, more);
    TrimmedKeepsLines(text + more);
  }

  lemma {:induction false} NullStaysInKept(parse: Parser, chunks: seq<Text>, i: nat)
    requires i <= |chunks| && !NoNull(Events(parse, Closed(Kept(chunks[..i]))))
    ensures !NoNull(Events(parse, Closed(Kept(chunks))))
  {
    if i == |chunks| {
      assert chunks[..i] == chunks;
    } else {
      var before := chunks[..|chunks| - 1];
      assert before[..i] == chunks[..i];
      NullStaysInKept(parse, before, i);
      NullStays(parse, Kept(before), chunks[|chunks| - 1]);
    }
  }

  lemma NullClosedIsNull(parse: Parser, text: Text)
    requires !NoNull(Events(parse, Closed(text)))
    ensures !NoNull(Events(parse, Split(text)))
  {
    assert Split(text) == Closed(text) + [Pending(text)];
    EventsGoOn(parse, Closed(text), [Pending(text)]);
    NoNullInParts(Events(parse, Closed(text)), Events(parse, [Pending(text)]));
  }

  /** What streaming a text yields, however it is cut: the batch parse, unless some line is JSON `null`. */
  ghost function Streamed(parse: Parser, text: Text): Summary {
    if NoNull(Events(parse, Split(text))) then ParseTelemetry(parse, text) else Thrown
  }

  method StreamTelemetry(parse: Parser, chunks: seq<Text>) returns (s: Summary)
    ensures s == Streamed(parse, Kept(chunks))
  {
    var accumulator := new Accumulator(parse);
    assert chunks[..0] == [];
    for i := 0 to |chunks|
      invariant accumulator.HasRead(Kept(chunks[..i])) && fresh(accumulator) && accumulator.parse == parse
    {
      assert chunks[..i + 1][..i] == chunks[..i];
      var ok := accumulator.Append(chunks[i], Kept(chunks[..i]));
      if !ok {
        TrimmedKeepsLines(Kept(chunks[..i]) + chunks[i]);
        NullStaysInKept(parse, chunks, i + 1);
        NullClosedIsNull(parse, Kept(chunks));
        return Thrown;
      }
    }
    assert chunks[..|chunks|] == chunks;
    var ok := accumulator.Finish(Kept(chunks));
    if !ok { return Thrown; }
    FindLastWithoutNull(accumulator.seen, TurnCompleted);
    s := accumulator.Snapshot();
  }

  function Join(chunks: seq<Text>): Text {
    if chunks == [] then [] else Join(chunks[..|chunks| - 1]) + chunks[|chunks| - 1]
  }

  /** No pending line outgrows the limit at any chunk boundary. */
  ghost predicate PendingFits(chunks: seq<Text>) {
    forall i :: 0 <= i <= |chunks| ==> ByteLength(Pending(Join(chunks[..i]))) <= CARRY_LIMIT
  }

  lemma {:induction false} NothingDropped(chunks: seq<Text>)
    requires PendingFits(chunks)
    ensures Kept(chunks) == Join(chunks)
  {
    if chunks != [] {
      var before := chunks[..|chunks| - 1];
      forall i | 0 <= i <= |before| ensures ByteLength(Pending(Join(before[..i]))) <= CARRY_LIMIT {
        assert before[..i] == chunks[..i];
      }
      NothingDropped(before);
      assert chunks[..|chunks|] == chunks;
    }
  }

  /** Two ways of cutting the same text into chunks give the same telemetry, that of the whole text. */
  lemma ChunkingDoesNotMatter(parse: Parser, a: seq<Text>, b: seq<Text>)
    requires PendingFits(a) && PendingFits(b) && Join(a) == Join(b)
    ensures Streamed(parse, Kept(a)) == Streamed(parse, Kept(b)) == Streamed(parse, Join(a))
  {
    NothingDropped(a);
    NothingDropped(b);
  }

  // ---------------------------------------------------------------------
  // Where streaming and batch parsing part

  predicate IsOfType(e: Event, wanted: EventType) {
    e.Event? && e.eventType == wanted
  }

  /** A `null` line comes before any thread start, or after the last turn completion. */
  ghost predicate NullInTheWay(events: seq<Event>) {
    exists i :: 0 <= i < |events| && events[i].NullEvent?
      && ((forall k :: 0 <= k < i ==> !IsOfType(events[k], ThreadStarted))
          || (forall k :: i < k < |events| ==> !IsOfType(events[k], TurnCompleted)))
  }

  lemma {:induction false} FirstCrash(events: seq<Event>, wanted: EventType)
    ensures FindFirst(events, wanted).Crashed? <==>
      exists i :: 0 <= i < |events| && events[i].NullEvent? && forall k :: 0 <= k < i ==> !IsOfType(events[k], wanted)
  {
    if events != [] && events[0].Event? && events[0].eventType != wanted {
      FirstCrash(events[1..], wanted);
      if FindFirst(events[1..], wanted).Crashed? {
        var i :| 0 <= i < |events[1..]| && events[1..][i].NullEvent?
          && forall k :: 0 <= k < i ==> !IsOfType(events[1..][k], wanted);
        assert events[i + 1].NullEvent?;
        forall k | 0 <= k < i + 1 ensures !IsOfType(events[k], wanted) {
          assert k > 0 ==> events[k] == events[1..][k - 1];
        }
      }
      if i :| 0 <= i < |events| && events[i].NullEvent? && forall k :: 0 <= k < i ==> !IsOfType(events[k], wanted) {
        assert events[1..][i - 1].NullEvent?;
        assert forall k :: 0 <= k < i - 1 ==> events[1..][k] == events[k + 1];
      }
    } else if events != [] && events[0].NullEvent? {
      assert events[0].NullEvent?;
    } else if events != [] {
      assert IsOfType(events[0], wanted);
    }
  }

  lemma {:induction false} LastCrash(events: seq<Event>, wanted: EventType)
    ensures FindLast(events, wanted).Crashed? <==>
      exists i :: 0 <= i < |events| && events[i].NullEvent?
        && forall k :: i < k < |events| ==> !IsOfType(events[k], wanted)
  {
    if events != [] {
      var n := |events| - 1;
      if events[n].NullEvent? {
        assert events[n].NullEvent?;
      } else if events[n].eventType == wanted {
        assert IsOfType(events[n], wanted);
      } else {
        LastCrash(events[..n], wanted);
        if FindLast(events[..n], wanted).Crashed? {
          var i :| 0 <= i < n && events[..n][i].NullEvent?
            && forall k :: i < k < n ==> !IsOfType(events[..n][k], wanted);
          assert events[i].NullEvent?;
          forall k | i < k < |events| ensures !IsOfType(events[k], wanted) {
            assert k < n ==> events[k] == events[..n][k];
          }
        }
        if i :| && 0 <= i < |events| && events[i].NullEvent?
                && forall k :: i < k < |events| ==> !IsOfType(events[k], wanted)
        {
          assert events[..n][i].NullEvent?;
        }
      }
    }
  }

  /** The batch parse throws exactly when a `null` line is in the way of one of its two searches. */
  lemma BatchThrowsExactly(parse: Parser, text: Text)
    ensures ParseTelemetry(parse, text).Thrown? <==> NullInTheWay(Events(parse, Split(text)))
  {
    FirstCrash(Events(parse, Split(text)), ThreadStarted);
    LastCrash(Events(parse, Split(text)), TurnCompleted);
  }

  /** Streaming agrees with the batch parse exactly when there is no `null` line or one is in the way. */
  lemma StreamingAgreesExactly(parse: Parser, text: Text)
    ensures
      var events := Events(parse, Split(text));
      Streamed(parse, text) == ParseTelemetry(parse, text) <==> NoNull(events) || NullInTheWay(events)
  {
    BatchThrowsExactly(parse, text);
  }

  /** A line as `split` gives it back: some text, without a line break in it or a carriage return at its end. */
  predicate Line(line: Text) {
    line != [] && Unbroken(line) && line[|line| - 1] != RETURN
  }

  function ThreeLines(a: Text, b: Text, c: Text): Text {
    a + ([NEWLINE] + (b + ([NEWLINE] + c)))
  }

  lemma SplitThreeLines(a: Text, b: Text, c: Text)
    requires Line(a) && Line(b) && Line(c)
    ensures Split(ThreeLines(a, b, c)) == [a, b, c]
  {
    SplitAtBreak(a, b + ([NEWLINE] + c));
    SplitAtBreak(b, c);
    UnbrokenIsPending(c);
  }

  lemma ThreeEvents(parse: Parser, a: Text, b: Text, c: Text)
    ensures Events(parse, [a, b, c]) == Accepted(parse, a) + Accepted(parse, b) + Accepted(parse, c)
  {
    EventOfLine(parse, a);
    EventOfLine(parse, b);
    EventOfLine(parse, c);
    EventsGoOn(parse, [a], [b]);
    EventsGoOn(parse, [a] + [b], [c]);
    assert [a] + [b] + [c] == [a, b, c];
  }

  lemma FoundAround(start: Event, end: Event)
    requires IsOfType(start, ThreadStarted) && IsOfType(end, TurnCompleted)
    ensures
      var events := [start, NullEvent, end];
      && FindFirst(events, ThreadStarted) == Found.Found(start) && FindLast(events, TurnCompleted) == Found.Found(end)
      && !NoNull(events)
  {
    assert [start, NullEvent, end][1].NullEvent?;
  }

  const NULL_LINE := Ascii("null")

  /**
   * The line `null` between the lines of a thread start and a turn completion: the batch parse counts it, streaming
   * throws. `JSON.parse` reads it as null.
   */
  lemma NullLineDivides(parse: Parser, a: Text, c: Text, start: Event, end: Event)
    requires Line(a) && Line(c) && parse(a) == Some(start) && parse(c) == Some(end)
    requires IsOfType(start, ThreadStarted) && IsOfType(end, TurnCompleted)
    requires parse(NULL_LINE) == Some(NullEvent)
    ensures
      var text := ThreeLines(a, NULL_LINE, c);
      && ParseTelemetry(parse, text) == Summary(start.threadId, end.usage, 3)
      && Streamed(parse, text) == Thrown
  {
    SplitThreeLines(a, NULL_LINE, c);
    ThreeEvents(parse, a, NULL_LINE, c);
    FoundAround(start, end);
    assert Events(parse, [a, NULL_LINE, c]) == [start, NullEvent, end];
  }
}
