/** Which lines the step parser takes for headers and directives, and what one more line
    adds to a step. */
module StepLines {
  import opened Text
  import opened Numbers
  import opened Lines
  import opened StepParser
  import opened StepPrinter

  // ----- words in any case -----

  /** A character that RE2, ignoring case, matches against a lower-case one. */
  predicate SameLetter(c: char, lower: char) {
    || c == lower
    || ('a' <= lower <= 'z' && c as int == lower as int - 32)
    || (lower == 's' && c == '\U{017F}')
    || (lower == 'k' && c == '\U{212A}')
  }

  predicate Spelled(word: string, lower: string) {
    |word| == |lower| && forall i | 0 <= i < |word| :: SameLetter(word[i], lower[i])
  }

  predicate LowerWord(s: string) {
    forall c | c in s :: 'a' <= c <= 'z' || c == ':'
  }

  lemma FoldIsSpelled(word: string, lower: string)
    requires LowerWord(lower)
    ensures Fold(word) == lower <==> Spelled(word, lower)
  {
    assert forall i | 0 <= i < |lower| :: lower[i] in lower;
    if |word| == |lower| {
      assert forall i | 0 <= i < |word| :: FoldChar(word[i]) == lower[i] <==> SameLetter(word[i], lower[i]);
    }
    if Spelled(word, lower) {
      assert forall i | 0 <= i < |word| :: Fold(word)[i] == lower[i];
    }
  }

  predicate Spaces(s: string) {
    forall c | c in s :: c == '\t' || c == '\n' || c == '\U{000C}' || c == '\r' || c == ' '
  }

  lemma SpacesTwo(a: string, b: string)
    requires Spaces(a) && Spaces(b)
    ensures Spaces(a + b)
  {}

  lemma SkipOnce(s: string)
    ensures if s != "" && ReSpace(s[0]) then SkipReSpace(s) == SkipReSpace(s[1..]) && Spaces(s[..1]) else SkipReSpace(s) == s
  {}

  lemma {:induction false} SkipSplits(s: string) returns (gap: string)
    ensures s == gap + SkipReSpace(s) && Spaces(gap)
    ensures SkipReSpace(s) == "" || !ReSpace(SkipReSpace(s)[0])
  {
    hide *;
    SkipOnce(s);
    if s != "" && ReSpace(s[0]) {
      var rest := SkipSplits(s[1..]);
      gap := s[..1] + rest;
      SpacesTwo(s[..1], rest);
      assert s == s[..1] + s[1..];
      TogetherIs(s[..1], rest, SkipReSpace(s));
    } else {
      gap := "";
      NoSpaces();
      assert s == "" + s;
    }
  }

  lemma NoSpaces()
    ensures Spaces("")
  {}

  lemma {:induction false} SkipSkips(gap: string, s: string)
    requires Spaces(gap) && (s == "" || !ReSpace(s[0]))
    ensures SkipReSpace(gap + s) == s
  {
    if gap == "" {
      assert gap + s == s;
    } else {
      assert (gap + s)[1..] == gap[1..] + s && (gap + s)[0] == gap[0] && gap[0] in gap;
      assert forall c | c in gap[1..] :: c in gap;
      SkipSkips(gap[1..], s);
    }
  }

  lemma DropOnce(s: string)
    ensures if s != "" && ReSpace(s[|s| - 1]) then DropReSpace(s) == DropReSpace(s[..|s| - 1]) && Spaces(s[|s| - 1..])
            else DropReSpace(s) == s
  {}

  lemma {:induction false} DropSplits(s: string) returns (gap: string)
    ensures s == DropReSpace(s) + gap && Spaces(gap)
    ensures DropReSpace(s) == "" || !ReSpace(DropReSpace(s)[|DropReSpace(s)| - 1])
  {
    hide *;
    DropOnce(s);
    if s != "" && ReSpace(s[|s| - 1]) {
      var n := |s| - 1;
      var rest := DropSplits(s[..n]);
      gap := rest + s[n..];
      SpacesTwo(rest, s[n..]);
      assert s == s[..n] + s[n..];
      TogetherIs(DropReSpace(s), rest, s[n..]);
    } else {
      gap := "";
      NoSpaces();
      assert s == s + "";
    }
  }

  lemma {:induction false} DropDrops(s: string, gap: string)
    requires Spaces(gap) && (s == "" || !ReSpace(s[|s| - 1]))
    ensures DropReSpace(s + gap) == s
  {
    if gap == "" {
      assert s + gap == s;
    } else {
      var n := |gap| - 1;
      assert (s + gap)[..|s + gap| - 1] == s + gap[..n] && (s + gap)[|s + gap| - 1] == gap[n] && gap[n] in gap;
      assert forall c | c in gap[..n] :: c in gap;
      DropDrops(s, gap[..n]);
    }
  }

  // ----- headers -----

  /** `## Step: ref`, the word in any case, with any white space around. */
  predicate IsHeaderOf(line: string, ref: string, a: string, word: string, b: string, c: string) {
    && line == "##" + (a + (word + (b + (ref + c))))
    && Spaces(a) && Spaces(b) && Spaces(c) && Spelled(word, "step:")
    && ref != "" && forall x | x in ref :: !Spaces([x])
  }

  lemma HeaderReadsAs(line: string, ref: string, a: string, word: string, b: string, c: string)
    requires IsHeaderOf(line, ref, a, word, b, c)
    ensures HeaderRef(line) == Some(ref)
  {
    var tail := b + (ref + c);
    assert line[2..] == a + (word + tail);
    assert LowerWord("step:");
    FoldIsSpelled(word, "step:");
    assert forall x | x in ref :: !ReSpace(x) by { assert forall x | x in ref :: !Spaces([x]); assert forall x: char :: x in [x]; }
    assert !ReSpace(word[0]) by { assert SameLetter(word[0], "step:"[0]); }
    SkipSkips(a, word + tail);
    assert (word + tail)[..5] == word && (word + tail)[5..] == tail;
    assert ref[0] in ref && ref[|ref| - 1] in ref;
    SkipSkips(b, ref + c);
    DropDrops(ref, c);
    assert "##" <= line;
  }

  lemma HeaderHasForm(line: string) returns (a: string, word: string, b: string, c: string)
    requires HeaderRef(line).Some?
    ensures IsHeaderOf(line, HeaderRef(line).value, a, word, b, c)
  {
    var ref := HeaderRef(line).value;
    var rest := SkipReSpace(line[2..]);
    a := SkipSplits(line[2..]);
    word := rest[..5];
    FoldIsSpelled(word, "step:");
    var body := rest[5..];
    b := SkipSplits(body);
    c := DropSplits(SkipReSpace(body));
    assert rest == word + body && line == "##" + line[2..];
    assert forall x | x in ref :: !Spaces([x]) by { assert forall x: char :: [x][0] == x && [x][0] in [x]; }
  }

  /** A line is a header with this ref exactly when it has that form. */
  lemma HeaderIff(line: string, ref: string)
    ensures HeaderRef(line) == Some(ref) <==> exists a, word, b, c :: IsHeaderOf(line, ref, a, word, b, c)
  {
    if HeaderRef(line) == Some(ref) {
      var a, word, b, c := HeaderHasForm(line);
    }
    if a, word, b, c :| IsHeaderOf(line, ref, a, word, b, c) {
      HeaderReadsAs(line, ref, a, word, b, c);
    }
  }

  // ----- directives -----

  /** The line begins, in any case, with this word, and more follows it. */
  predicate Begins(line: string, word: string) {
    |line| > |word| && Spelled(line[..|word|], word)
  }

  /** What follows the word, without white space around it. */
  function Rest(line: string, word: string): string
    requires Begins(line, word)
  {
    DropReSpace(SkipReSpace(line[|word|..]))
  }

  lemma ArgumentIff(t: string, word: string)
    requires LowerWord(word)
    ensures Argument(t, word).Some? <==> Begins(t, word)
    ensures Begins(t, word) ==> Argument(t, word) == Some(SkipReSpace(t[|word|..]))
  {
    if |t| >= |word| {
      FoldIsSpelled(t[..|word|], word);
    }
  }

  lemma Names()
    ensures LowerWord("needs:") && LowerWord("tier:") && LowerWord("waitsfor:") && LowerWord("type:") && LowerWord("backoff:")
    ensures LowerWord("haiku") && LowerWord("sonnet") && LowerWord("opus")
  {}

  predicate IsTier(word: string) {
    Spelled(word, "haiku") || Spelled(word, "sonnet") || Spelled(word, "opus")
  }

  predicate IsTierLine(t: string) {
    Begins(t, "tier:") && IsTier(Rest(t, "tier:"))
  }

  predicate IsTypeLine(t: string) {
    Begins(t, "type:") && IsWord(Rest(t, "type:"))
  }

  lemma TierIff(word: string)
    ensures Fold(word) in TIERS <==> IsTier(word)
  {
    Names();
    FoldIsSpelled(word, "haiku");
    FoldIsSpelled(word, "sonnet");
    FoldIsSpelled(word, "opus");
    hide Fold, Spelled;
  }

  /** No line begins with two of the words. */
  lemma OneName(t: string)
    ensures Begins(t, "needs:") ==> !Begins(t, "tier:") && !Begins(t, "waitsfor:") && !Begins(t, "type:") && !Begins(t, "backoff:")
    ensures Begins(t, "tier:") ==> !Begins(t, "waitsfor:") && !Begins(t, "type:") && !Begins(t, "backoff:")
    ensures Begins(t, "waitsfor:") ==> !Begins(t, "type:") && !Begins(t, "backoff:")
    ensures Begins(t, "type:") ==> !Begins(t, "backoff:")
  {
    FirstLetter(t, "needs:");
    FirstLetter(t, "tier:");
    FirstLetter(t, "waitsfor:");
    FirstLetter(t, "type:");
    FirstLetter(t, "backoff:");
    hide Spelled;
    assert "needs:"[0] == 'n' && "tier:"[0] == 't' && "tier:"[1] == 'i' && "type:"[0] == 't' && "type:"[1] == 'y';
    assert "waitsfor:"[0] == 'w' && "backoff:"[0] == 'b';
  }

  lemma FirstLetter(t: string, word: string)
    requires |word| >= 2
    ensures Begins(t, word) ==> SameLetter(t[0], word[0]) && SameLetter(t[1], word[1])
  {
    if Begins(t, word) {
      assert t[..|word|][0] == t[0] && t[..|word|][1] == t[1];
    }
  }

  /** What a content line is, told by how its trimmed text begins. A tier or a type is a directive
      only with one of the three names, or a word, after it. */
  lemma DirectiveIff(line: string)
    ensures var t := TrimSpace(line);
            && (Classify(line).NeedsLine? <==> Begins(t, "needs:"))
            && (Classify(line).TierLine? <==> IsTierLine(t))
            && (Classify(line).WaitsForLine? <==> Begins(t, "waitsfor:"))
            && (Classify(line).TypeLine? <==> IsTypeLine(t))
            && (Classify(line).BackoffLine? <==> Begins(t, "backoff:"))
    ensures var t, d := TrimSpace(line), Classify(line);
            && (d.NeedsLine? ==> d.items == Items(Split(SkipReSpace(t[6..]), ',')))
            && (d.TierLine? ==> d.tier == ToLower(Rest(t, "tier:")))
            && (d.WaitsForLine? ==> d.conditions == Items(Split(SkipReSpace(t[9..]), ',')))
            && (d.TypeLine? ==> d.kind == ToLower(Rest(t, "type:")))
            && (d.BackoffLine? ==> d.config == ParseBackoff(SkipReSpace(t[8..])))
  {
    var t := TrimSpace(line);
    Names();
    OneName(t);
    ArgumentIff(t, "needs:");
    ArgumentIff(t, "tier:");
    ArgumentIff(t, "waitsfor:");
    ArgumentIff(t, "type:");
    ArgumentIff(t, "backoff:");
    if Begins(t, "tier:") {
      TierIff(Rest(t, "tier:"));
    }
    assert |"needs:"| == 6 && |"waitsfor:"| == 9 && |"backoff:"| == 8;
    hide Begins, Argument, TrimSpace, Fold, ToLower, IsWord, ParseBackoff, Items, Split, IsTier, SkipReSpace, DropReSpace, LowerWord;
  }

  /** The items of a list are its parts, trimmed, in order, without the empty ones. */
  lemma {:induction false} ItemsAdd(a: seq<string>, b: seq<string>)
    ensures Items(a + b) == Items(a) + Items(b)
  {
    if b == [] {
      assert a + b == a;
    } else {
      var n := |b| - 1;
      hide TrimSpace;
      assert (a + b)[..|a + b| - 1] == a + b[..n] && (a + b)[|a + b| - 1] == b[n];
      ItemsAdd(a, b[..n]);
    }
  }

  lemma ItemsOne(part: string)
    ensures Items([]) == [] && Items([part]) == if Blank(part) then [] else [TrimSpace(part)]
  {
    hide TrimSpace;
    assert [part][..0] == [];
  }

  // ----- one more line -----

  /** What one more line adds to a step: needs and wait conditions are added to those before, a
      tier, type or backoff replaces the one before, prose only shows in the text, and nothing
      else changes. */
  lemma OneMoreLine(ref: string, body: seq<string>, line: string)
    ensures var before, after, d := MakeStep(ref, body), MakeStep(ref, body + [line]), Classify(line);
            && after.ref == before.ref == ref
            && after.needs == before.needs + (if d.NeedsLine? then d.items else [])
            && after.waitsFor == before.waitsFor + (if d.WaitsForLine? then d.conditions else [])
            && after.tier == (if d.TierLine? then d.tier else before.tier)
            && after.kind == (if d.TypeLine? then d.kind else before.kind)
            && after.backoff == (if d.BackoffLine? then d.config else before.backoff)
            && (!d.Prose? ==> after.instructions == before.instructions && after.title == before.title)
  {
    hide *;
    StepFields(ref, body);
    StepFields(ref, body + [line]);
    LineSays(line);
    CollectMore(body, line, NeedsIn);
    CollectMore(body, line, WaitsForIn);
    CollectMore(body, line, ProseIn);
    LatestMore(body, line, TierIn);
    LatestMore(body, line, KindIn);
    LatestMore(body, line, BackoffIn);
  }

  lemma StepFields(ref: string, body: seq<string>)
    ensures var step := MakeStep(ref, body);
            && step.ref == ref && step.title == TitleOf(ref, step.instructions)
            && step.instructions == TrimSpace(Join(Collect(body, ProseIn), '\n'))
            && step.needs == Collect(body, NeedsIn) && step.waitsFor == Collect(body, WaitsForIn)
            && step.tier == (if Latest(body, TierIn).Some? then Latest(body, TierIn).value else "")
            && step.kind == (if Latest(body, KindIn).Some? then Latest(body, KindIn).value else "")
            && step.backoff == (if Latest(body, BackoffIn).Some? then Latest(body, BackoffIn).value else None)
  {
    hide Collect, Latest, TitleOf, TrimSpace, Join;
  }

  lemma LineSays(line: string)
    ensures var d := Classify(line);
            && NeedsIn(line) == (if d.NeedsLine? then d.items else [])
            && WaitsForIn(line) == (if d.WaitsForLine? then d.conditions else [])
            && TierIn(line) == (if d.TierLine? then Some(d.tier) else None)
            && KindIn(line) == (if d.TypeLine? then Some(d.kind) else None)
            && BackoffIn(line) == (if d.BackoffLine? then Some(d.config) else None)
            && ProseIn(line) == (if d.Prose? then [line] else [])
  {
    hide Classify;
  }

  lemma CollectMore<T>(body: seq<string>, line: string, pick: string -> seq<T>)
    ensures Collect(body + [line], pick) == Collect(body, pick) + pick(line)
    ensures pick(line) == [] ==> Collect(body + [line], pick) == Collect(body, pick)
  {
    assert (body + [line])[..|body|] == body;
  }

  lemma LatestMore<T>(body: seq<string>, line: string, read: string -> Option<T>)
    ensures Latest(body + [line], read) == if read(line).Some? then read(line) else Latest(body, read)
  {
    assert (body + [line])[..|body|] == body;
  }

  /** A step without lines, and one with text only. */
  lemma FirstLines(ref: string, text: seq<string>)
    requires forall l | l in text :: Classify(l).Prose?
    ensures MakeStep(ref, []) == Step(ref, ref, "", [], [], "", "", None)
    ensures var step := MakeStep(ref, text);
            step.instructions == TrimSpace(Join(text, '\n')) && step.needs == [] && step.waitsFor == [] &&
            step.tier == "" && step.kind == "" && step.backoff == None
  {
    TextOnly(text);
    assert TrimSpace(Join([], '\n')) == "" && Split("", '\n') == [""] && TrimSpace("") == "";
    hide Classify, TrimSpace, Split, Join;
  }

  lemma {:induction false} TextOnly(text: seq<string>)
    requires forall l | l in text :: Classify(l).Prose?
    ensures Collect(text, ProseIn) == text && Collect(text, NeedsIn) == [] && Collect(text, WaitsForIn) == []
    ensures Latest(text, TierIn).None? && Latest(text, KindIn).None? && Latest(text, BackoffIn).None?
  {
    hide Classify;
    if text != [] {
      var n := |text| - 1;
      assert text[n] in text && text == text[..n] + [text[n]];
      TextOnly(text[..n]);
    }
  }

  // ----- backoffs -----

  /** A backoff without a multiplier has 2. */
  lemma BackoffBase(base: string)
    requires base != "" && Trimmed(base) && Free(base, ',')
    ensures ParseBackoff("base=" + base) == Some(Backoff(base, 2, ""))
  {
    assert Free("base=" + base, ',');
    hide *;
    OnePart("base=" + base);
    AppliesBase(Backoff("", 2, ""), base);
    ParsedParts("base=" + base);
  }

  /** One without a base is none. */
  lemma BackoffWithoutBase(max: string)
    requires Trimmed(max) && Free(max, ',')
    ensures ParseBackoff("max=" + max) == None
  {
    assert Free("max=" + max, ',');
    hide *;
    OnePart("max=" + max);
    BareMax(max);
    ParsedParts("max=" + max);
  }

  /** A multiplier that is no number leaves 2. */
  lemma BackoffBadMultiplier(base: string, junk: string)
    requires base != "" && Trimmed(base) && Free(base, ',') && Trimmed(junk) && Free(junk, ',') && Atoi(junk).None?
    ensures ParseBackoff("base=" + base + [','] + ("multiplier=" + junk)) == Some(Backoff(base, 2, ""))
  {
    var b, m := "base=" + base, "multiplier=" + junk;
    assert Free(b, ',') && Free(m, ',');
    hide *;
    TwoParts(b, m);
    AppliesBase(Backoff("", 2, ""), base);
    BadMultiplier(Backoff(base, 2, ""), junk);
    ParsedParts(b + [','] + m);
  }

  lemma ParsedParts(config: string)
    ensures var cfg := ApplyParts(Split(config, ','));
            ParseBackoff(config) == if cfg.base == "" then None else Some(cfg)
  {
    hide ApplyParts, Split;
  }

  lemma BareMax(max: string)
    requires Trimmed(max)
    ensures ApplyPart(Backoff("", 2, ""), "max=" + max) == Backoff("", 2, max)
  {
    BarePairReads("max", max);
    assert "max=" + max == "max" + "=" + max;
    hide PartPair;
  }

  lemma BadMultiplier(cfg: Backoff, junk: string)
    requires Trimmed(junk)
    ensures Atoi(junk).None? ==> ApplyPart(cfg, "multiplier=" + junk) == cfg
  {
    hide *;
    MultiplierWord(junk);
    BarePairReads("multiplier", junk);
    AppliesPair(cfg, "multiplier=" + junk, junk);
  }

  lemma MultiplierWord(junk: string)
    ensures Trimmed("multiplier") && IsLower("multiplier") && Free("multiplier", '=')
    ensures "multiplier=" + junk == "multiplier" + "=" + junk
  {}

  lemma AppliesPair(cfg: Backoff, part: string, value: string)
    requires PartPair(part) == Some(("multiplier", value))
    ensures Atoi(value).None? ==> ApplyPart(cfg, part) == cfg
  {
    hide PartPair, Atoi;
  }

  lemma OnePart(p: string)
    requires Free(p, ',')
    ensures ApplyParts(Split(p, ',')) == ApplyPart(Backoff("", 2, ""), p)
  {
    SplitFree(p, ',');
    hide ApplyPart;
    assert [p][..0] == [];
  }

  lemma TwoParts(p: string, q: string)
    requires Free(p, ',') && Free(q, ',')
    ensures ApplyParts(Split(p + [','] + q, ',')) == ApplyPart(ApplyPart(Backoff("", 2, ""), p), q)
  {
    SplitAppend(p, q, ',');
    SplitFree(p, ',');
    SplitFree(q, ',');
    hide ApplyPart, Split;
    assert [p] + [q] == [p, q] && [p, q][..1] == [p] && [p][..0] == [];
    assert ApplyParts([p]) == ApplyPart(Backoff("", 2, ""), p);
  }
}
