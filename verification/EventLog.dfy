/** What a reader of a JSONL file finds in it: `bufio.Scanner`'s lines, decoded one by one,
    lines that do not decode being skipped. */
module EventLog {
  import opened Text

  /** How events are written on one line and read back. */
  datatype Codec<!E(==)> = Codec(encode: E -> string, decode: string -> Option<E>)

  /** Encoded events are one line that reads back as the event; a line's final carriage
      return would not survive. */
  ghost predicate Faithful<E(!new)>(c: Codec<E>) {
    forall e: E :: Free(c.encode(e), '\n') && c.encode(e) != "" && c.encode(e)[|c.encode(e)| - 1] != '\r' &&
                   c.decode(c.encode(e)) == Some(e)
  }

  /** `bufio.ScanLines` drops one carriage return from the end of a line. */
  function DropCR(line: string): string {
    if line != "" && line[|line| - 1] == '\r' then line[..|line| - 1] else line
  }

  function EventOf<E(==)>(c: Codec<E>, line: string): seq<E> {
    match c.decode(DropCR(line))
    case None => []
    case Some(e) => [e]
  }

  /** The events of a text: of its lines, and of what follows the last newline unless empty. */
  function EventsIn<E(==)>(c: Codec<E>, text: string): seq<E>
    decreases |text|
  {
    var i := IndexOf(text, '\n');
    if i >= 0 then EventOf(c, text[..i]) + EventsIn(c, text[i + 1..])
    else if text != "" then EventOf(c, text)
    else []
  }

  /** The text ends at the end of a line. */
  predicate Whole(text: string) {
    text == "" || text[|text| - 1] == '\n'
  }

  lemma FirstLine(a: string, b: string)
    requires Free(a, '\n')
    ensures IndexOf(a + "\n" + b, '\n') == |a| && (a + "\n" + b)[..|a|] == a && (a + "\n" + b)[|a| + 1..] == b
  {
    IndexOfAppend(a, '\n', b);
    assert a + "\n" + b == a + ['\n'] + b;
  }

  /** A whole text is empty, or a first line and the whole rest. */
  lemma WholeSplits(text: string)
    requires Whole(text) && text != ""
    ensures var i := IndexOf(text, '\n');
            i >= 0 && text == text[..i] + "\n" + text[i + 1..] && Whole(text[i + 1..]) && Free(text[..i], '\n')
  {
    assert text[|text| - 1] == '\n';
  }

  lemma NoEvents<E>(c: Codec<E>)
    ensures EventsIn(c, "") == []
  {}

  lemma EventsFirst<E>(c: Codec<E>, line: string, rest: string)
    requires Free(line, '\n')
    ensures EventsIn(c, line + "\n" + rest) == EventOf(c, line) + EventsIn(c, rest)
  {
    FirstLine(line, rest);
  }

  lemma LineInPlace<E>(c: Codec<E>, before: string, line: string, rest: string)
    requires Whole(before) && Free(line, '\n')
    ensures EventsIn(c, before + (line + "\n" + rest)) == EventsIn(c, before) + (EventOf(c, line) + EventsIn(c, rest))
  {
    hide *;
    EventsFirst(c, line, rest);
    EventsAppend(c, before, line + "\n" + rest);
  }

  lemma SameLine<E>(c: Codec<E>, line: string)
    requires Free(line, '\n') && (line == "" || line[|line| - 1] != '\r')
    ensures Free(line + "\r", '\n') && EventOf(c, line + "\r") == EventOf(c, line)
    ensures EventOf(c, line) == if c.decode(line).Some? then [c.decode(line).value] else []
  {
    assert (line + "\r")[..|line|] == line;
  }

  /** A final carriage return does not change what a line says. */
  lemma CarriageReturnDropped<E>(c: Codec<E>, before: string, line: string, rest: string)
    requires Whole(before) && Free(line, '\n') && (line == "" || line[|line| - 1] != '\r')
    ensures EventsIn(c, before + (line + "\r" + "\n" + rest)) == EventsIn(c, before + (line + "\n" + rest))
    ensures EventsIn(c, before + (line + "\n" + rest)) ==
            EventsIn(c, before) + ((if c.decode(line).Some? then [c.decode(line).value] else []) + EventsIn(c, rest))
  {
    SameLine(c, line);
    hide *;
    LineInPlace(c, before, line, rest);
    LineInPlace(c, before, line + "\r", rest);
  }

  /** Reading goes on where it ended, if that was at the end of a line. */
  lemma {:induction false} EventsAppend<E>(c: Codec<E>, a: string, b: string)
    requires Whole(a)
    ensures EventsIn(c, a + b) == EventsIn(c, a) + EventsIn(c, b)
    decreases |a|
  {
    hide *;
    if a == "" {
      NoEvents(c);
      assert a + b == b;
    } else {
      WholeSplits(a);
      var i := IndexOf(a, '\n');
      var line, rest := a[..i], a[i + 1..];
      assert a + b == line + "\n" + (rest + b);
      EventsFirst(c, line, rest);
      EventsFirst(c, line, rest + b);
      EventsAppend(c, rest, b);
      assert EventOf(c, line) + (EventsIn(c, rest) + EventsIn(c, b)) == EventOf(c, line) + EventsIn(c, rest) + EventsIn(c, b);
    }
  }

  function Lines<E(==)>(c: Codec<E>, events: seq<E>): string {
    if events == [] then "" else Lines(c, events[..|events| - 1]) + c.encode(events[|events| - 1]) + "\n"
  }

  lemma {:induction false} LinesAppend<E>(c: Codec<E>, a: seq<E>, b: seq<E>)
    ensures Lines(c, a + b) == Lines(c, a) + Lines(c, b)
  {
    if b == [] {
      assert a + b == a;
    } else {
      var n := |b| - 1;
      assert (a + b)[..|a + b| - 1] == a + b[..n];
      LinesAppend(c, a, b[..n]);
      assert Lines(c, b) == Lines(c, b[..n]) + c.encode(b[n]) + "\n";
      assert Lines(c, a) + Lines(c, b[..n]) + c.encode(b[n]) + "\n" == Lines(c, a) + Lines(c, b);
    }
  }

  lemma LinesWhole<E>(c: Codec<E>, events: seq<E>)
    ensures Whole(Lines(c, events))
  {}

  lemma OneEvent<E(!new)>(c: Codec<E>, e: E)
    requires Faithful(c)
    ensures EventsIn(c, c.encode(e) + "\n") == [e]
  {
    var line := c.encode(e);
    assert Free(line, '\n') && line != "" && line[|line| - 1] != '\r' && c.decode(line) == Some(e);
    hide Faithful;
    FirstLine(line, "");
    assert line + "\n" + "" == line + "\n";
    assert EventsIn(c, "") == [];
  }

  lemma LinesNext<E>(c: Codec<E>, events: seq<E>)
    requires events != []
    ensures var n := |events| - 1;
            Lines(c, events) == Lines(c, events[..n]) + (c.encode(events[n]) + "\n")
  {}

  lemma NoLines<E>(c: Codec<E>)
    ensures EventsIn(c, Lines(c, [])) == []
  {}

  /** What was published is what is read, in order. */
  lemma {:induction false} LinesRead<E(!new)>(c: Codec<E>, events: seq<E>)
    requires Faithful(c)
    ensures EventsIn(c, Lines(c, events)) == events
  {
    hide *;
    if events == [] {
      NoLines(c);
    } else {
      var n := |events| - 1;
      LinesRead(c, events[..n]);
      LinesNext(c, events);
      LinesWhole(c, events[..n]);
      OneEvent(c, events[n]);
      EventsAppend(c, Lines(c, events[..n]), c.encode(events[n]) + "\n");
      assert events == events[..n] + [events[n]];
    }
  }

  /** A reader that stops inside a line that holds an event, in a place where neither piece holds
      one, loses the event for good: the next read starts after the first piece. */
  lemma TornLineIsLost<E>(c: Codec<E>, a: string, b: string)
    requires Free(a, '\n') && Free(b, '\n') && a != "" && c.decode(DropCR(a + b)).Some?
    requires c.decode(DropCR(a)).None? && c.decode(DropCR(b)).None?
    ensures EventsIn(c, a) + EventsIn(c, b + "\n") == []
    ensures EventsIn(c, a + (b + "\n")) == [c.decode(DropCR(a + b)).value]
  {
    assert EventsIn(c, "") == [];
    FirstLine(b, "");
    FirstLine(a + b, "");
    assert b + "\n" + "" == b + "\n" && a + b + "\n" + "" == a + (b + "\n");
  }

  /** After a line that was left unfinished the next event is read exactly when it is what the two
      make together. */
  lemma UnfinishedLineSwallows<E>(c: Codec<E>, torn: string, e: E)
    requires Free(torn, '\n') && Free(c.encode(e), '\n')
    ensures var joined := c.decode(DropCR(torn + c.encode(e)));
            EventsIn(c, torn + (c.encode(e) + "\n")) == if joined.Some? then [joined.value] else []
    ensures EventsIn(c, torn + (c.encode(e) + "\n")) == [e] <==> c.decode(DropCR(torn + c.encode(e))) == Some(e)
  {
    assert EventsIn(c, "") == [];
    var line := torn + c.encode(e);
    FirstLine(line, "");
    assert line + "\n" + "" == torn + (c.encode(e) + "\n");
  }

  // ----- the scanner's limit -----

  /** The largest token a `bufio.Scanner` holds. */
  const MAX_TOKEN := 65536

  /** Every line is shorter than the scanner's buffer. */
  predicate Fits(text: string)
    decreases |text|
  {
    var i := IndexOf(text, '\n');
    if i >= 0 then i < MAX_TOKEN && Fits(text[i + 1..]) else |text| < MAX_TOKEN
  }

  lemma {:induction false} FitsFirst(line: string, rest: string)
    requires Free(line, '\n')
    ensures Fits(line + "\n" + rest) <==> |line| < MAX_TOKEN && Fits(rest)
  {
    FirstLine(line, rest);
    hide IndexOf;
  }

  lemma NothingFits()
    ensures Fits("")
  {}

  lemma {:induction false} FitsAppend(a: string, b: string)
    requires Whole(a)
    ensures Fits(a + b) <==> Fits(a) && Fits(b)
    decreases |a|
  {
    hide *;
    if a == "" {
      NothingFits();
      assert a + b == b;
    } else {
      WholeSplits(a);
      var i := IndexOf(a, '\n');
      var line, rest := a[..i], a[i + 1..];
      assert a + b == line + "\n" + (rest + b);
      FitsFirst(line, rest);
      FitsFirst(line, rest + b);
      FitsAppend(rest, b);
    }
  }

  lemma {:induction false} OneLineFits(line: string)
    requires Free(line, '\n')
    ensures Fits(line + "\n") <==> |line| < MAX_TOKEN
  {
    hide *;
    FitsFirst(line, "");
    NothingFits();
    assert line + "\n" + "" == line + "\n";
  }

  ghost predicate AllShort<E>(c: Codec<E>, events: seq<E>) {
    forall e | e in events :: |c.encode(e)| < 65536
  }

  lemma AllShortNext<E>(c: Codec<E>, events: seq<E>, e: E)
    ensures AllShort(c, events + [e]) <==> AllShort(c, events) && |c.encode(e)| < MAX_TOKEN
  {
    assert e in events + [e];
    assert forall x :: x in events + [e] <==> x in events || x == e;
  }

  lemma NothingLong<E>(c: Codec<E>)
    ensures AllShort(c, []) && Fits(Lines(c, []))
  {}

  /** A log can be read exactly when every event's line is shorter than the limit. */
  lemma {:induction false} LinesFit<E(!new)>(c: Codec<E>, events: seq<E>)
    requires Faithful(c)
    ensures Fits(Lines(c, events)) <==> AllShort(c, events)
  {
    hide *;
    if events == [] {
      NothingLong(c);
    } else {
      var n := |events| - 1;
      LinesFit(c, events[..n]);
      LastLineFits(c, events[..n], events[n]);
      AllShortNext(c, events[..n], events[n]);
      assert events == events[..n] + [events[n]];
    }
  }

  lemma LastLineFits<E(!new)>(c: Codec<E>, events: seq<E>, e: E)
    requires Faithful(c)
    ensures Fits(Lines(c, events + [e])) <==> Fits(Lines(c, events)) && |c.encode(e)| < MAX_TOKEN
  {
    assert Free(c.encode(e), '\n');
    hide Fits, Lines, Whole, Faithful, Free;
    LinesNext(c, events + [e]);
    assert (events + [e])[..|events|] == events;
    LinesWhole(c, events);
    FitsAppend(Lines(c, events), c.encode(e) + "\n");
    OneLineFits(c.encode(e));
  }

  /** One token more: a line that the buffer holds to its newline. */
  lemma TokenRead<E>(c: Codec<E>, consumed: string, line: string)
    requires Whole(consumed) && Free(line, '\n')
    ensures var next := consumed + line + "\n";
            Whole(next) && EventsIn(c, next) == EventsIn(c, consumed) + EventOf(c, line) &&
            (Fits(next) <==> Fits(consumed) && |line| < MAX_TOKEN)
  {
    OneLineIn(c, line);
    LineEnds(consumed, line);
    hide *;
    EventsAppend(c, consumed, line + "\n");
    FitsAppend(consumed, line + "\n");
    OneLineFits(line);
  }

  lemma OneLineIn<E>(c: Codec<E>, line: string)
    requires Free(line, '\n')
    ensures EventsIn(c, line + "\n") == EventOf(c, line)
  {
    hide *;
    NoEvents(c);
    EventsFirst(c, line, "");
    assert line + "\n" + "" == line + "\n";
  }

  lemma LineEnds(consumed: string, line: string)
    ensures Whole(consumed + line + "\n") && consumed + line + "\n" == consumed + (line + "\n")
  {}

  /** What is left when no newline follows. */
  lemma RestRead<E>(c: Codec<E>, consumed: string, rest: string)
    requires Whole(consumed) && Free(rest, '\n')
    ensures EventsIn(c, consumed + rest) == EventsIn(c, consumed) + if rest == "" then [] else EventOf(c, rest)
    ensures Fits(consumed + rest) <==> Fits(consumed) && |rest| < MAX_TOKEN
  {
    EventsAppend(c, consumed, rest);
    FitsAppend(consumed, rest);
  }

  // ----- scanning -----

  /** A scanner that started at `offset` has read up to `pos`, holds `buffer` and has found
      these events in the lines before it. */
  ghost predicate Scanned<E(!new)>(c: Codec<E>, file: string, offset: nat, pos: nat, buffer: string, events: seq<E>) {
    && offset <= pos <= |file| && |buffer| <= pos - offset && |buffer| <= MAX_TOKEN
    && buffer == file[pos - |buffer|..pos]
    && Whole(file[offset..pos - |buffer|]) && Fits(file[offset..pos - |buffer|])
    && events == EventsIn(c, file[offset..pos - |buffer|])
  }

  lemma ScanStarts<E(!new)>(c: Codec<E>, file: string, offset: nat)
    requires offset <= |file|
    ensures Scanned(c, file, offset, offset, "", [])
  {
    assert file[offset..offset] == "";
  }

  /** The file grows at its end. */
  lemma ScanSeesGrowth<E(!new)>(c: Codec<E>, file: string, grown: string, offset: nat, pos: nat, buffer: string, events: seq<E>)
    requires Scanned(c, file, offset, pos, buffer, events) && file <= grown
    ensures Scanned(c, grown, offset, pos, buffer, events)
  {
    hide EventsIn, Fits, Whole;
    assert file == grown[..|file|];
    assert file[offset..pos - |buffer|] == grown[offset..pos - |buffer|];
    assert file[pos - |buffer|..pos] == grown[pos - |buffer|..pos];
  }

  lemma ScanToken<E(!new)>(c: Codec<E>, file: string, offset: nat, pos: nat, buffer: string, events: seq<E>, i: nat)
    requires Scanned(c, file, offset, pos, buffer, events) && i < |buffer| && buffer[i] == '\n' && Free(buffer[..i], '\n')
    ensures Scanned(c, file, offset, pos, buffer[i + 1..], events + EventOf(c, buffer[..i]))
  {
    hide EventsIn, Fits, Whole, EventOf;
    var consumed := file[offset..pos - |buffer|];
    TokenRead(c, consumed, buffer[..i]);
    assert file[offset..pos - |buffer[i + 1..]|] == consumed + buffer[..i] + "\n";
    assert buffer[i + 1..] == file[pos - |buffer[i + 1..]|..pos];
  }

  lemma ScanChunk<E(!new)>(c: Codec<E>, file: string, offset: nat, pos: nat, buffer: string, events: seq<E>, n: nat)
    requires Scanned(c, file, offset, pos, buffer, events) && pos + n <= |file| && |buffer| + n <= MAX_TOKEN
    ensures Scanned(c, file, offset, pos + n, buffer + file[pos..pos + n], events)
  {
    hide EventsIn, Fits, Whole;
    var next := buffer + file[pos..pos + n];
    assert next == file[pos + n - |next|..pos + n];
  }

  /** The end of the file, or a line that is longer than the buffer. */
  lemma ScanEnds<E(!new)>(c: Codec<E>, file: string, offset: nat, pos: nat, buffer: string, events: seq<E>)
    requires Scanned(c, file, offset, pos, buffer, events) && Free(buffer, '\n')
    ensures offset <= pos <= |file|
    ensures EventsIn(c, file[offset..pos]) == events + if buffer == "" then [] else EventOf(c, buffer)
    ensures Fits(file[offset..pos]) <==> |buffer| < MAX_TOKEN
  {
    hide EventsIn, Fits, Whole, EventOf;
    var consumed := file[offset..pos - |buffer|];
    RestRead(c, consumed, buffer);
    assert file[offset..pos] == consumed + buffer;
  }
}
