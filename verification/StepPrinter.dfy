/** The canonical text of a step list, and the parser as its inverse. */
module StepPrinter {
  import opened Text
  import opened Numbers
  import opened Lines
  import opened StepParser
  import opened StepMeaning

  /** An item of a comma-separated list: what the list loops can give back unchanged. */
  predicate IsItem(s: string) {
    s != "" && Trimmed(s) && Free(s, ',') && Free(s, '\n')
  }

  predicate IsBackoff(b: Backoff) {
    && IsItem(b.base) && InRange(b.multiplier)
    && Trimmed(b.max) && Free(b.max, ',') && Free(b.max, '\n')
  }

  /** A step that the format can express. */
  ghost predicate WellFormed(s: Step) {
    && IsRef(s.ref)
    && Trimmed(s.instructions) && TitledBy(s.title, s.ref, ProseLines(s))
    && (s.instructions != "" ==> forall l | l in Split(s.instructions, '\n') :: Classify(l).Prose? && !IsHeader(l))
    && (forall n | n in s.needs :: IsItem(n)) && (forall w | w in s.waitsFor :: IsItem(w))
    && (s.tier != "" ==> s.tier in TIERS)
    && (s.kind != "" ==> IsWord(s.kind) && IsLower(s.kind))
    && (s.backoff.Some? ==> IsBackoff(s.backoff.value))
  }

  function Spaced(items: seq<string>): seq<string> {
    if items == [] then [] else [" " + items[0]] + Spaced(items[1..])
  }

  /** `a, b, c` */
  function CommaList(items: seq<string>): string
    requires items != []
  {
    Join([items[0]] + Spaced(items[1..]), ',')
  }

  function BackoffParts(b: Backoff): seq<string> {
    ["base=" + b.base, " " + ("multiplier=" + Itoa(b.multiplier)), " " + ("max=" + b.max)]
  }

  /** `base=30s, multiplier=2, max=10m` */
  function BackoffText(b: Backoff): string {
    Join(BackoffParts(b), ',')
  }

  /** A directive line, or nothing when there is nothing to say. */
  function DirectiveLine(name: string, argument: string): seq<string> {
    if argument == "" then [] else [name + " " + argument]
  }

  function ListText(items: seq<string>): string {
    if items == [] then "" else CommaList(items)
  }

  function Directives(s: Step): seq<string> {
    DirectiveLine("Needs:", ListText(s.needs)) +
    DirectiveLine("Tier:", s.tier) +
    DirectiveLine("WaitsFor:", ListText(s.waitsFor)) +
    DirectiveLine("Type:", s.kind) +
    DirectiveLine("Backoff:", if s.backoff.Some? then BackoffText(s.backoff.value) else "")
  }

  function Body(s: Step): seq<string> {
    ProseLines(s) + Directives(s)
  }

  function Printed(steps: seq<Step>): seq<Section> {
    if steps == [] then []
    else [Section("## Step: " + steps[0].ref, Body(steps[0]))] + Printed(steps[1..])
  }

  function Print(steps: seq<Step>): string {
    Join(Flatten(Printed(steps)), '\n')
  }

  // ----- single lines -----

  lemma AfterKeyHit(name: string, key: string, rest: string)
    requires Fold(name) == key
    ensures AfterKey(name + rest, key) == Some(rest)
  {
    assert (name + rest)[..|key|] == name;
  }

  lemma AfterKeyMiss(s: string, key: string, i: nat)
    requires i < |key| && (i < |s| ==> FoldChar(s[i]) != key[i])
    ensures AfterKey(s, key).None?
  {
    if |key| <= |s| {
      assert Fold(s[..|key|])[i] == FoldChar(s[i]);
    }
  }

  lemma NoReSpaceEnds(s: string)
    requires s != "" ==> !ReSpace(s[0]) && !ReSpace(s[|s| - 1])
    ensures SkipReSpace(s) == s && DropReSpace(s) == s
    ensures SkipReSpace(" " + s) == s
  {
    assert (" " + s)[1..] == s;
  }

  /** A directive line with a non-empty trimmed argument keeps it. */
  lemma ArgumentOf(name: string, key: string, argument: string)
    requires Fold(name) == key && name != "" && !IsSpace(name[0])
    requires argument != "" && Trimmed(argument)
    ensures TrimSpace(name + " " + argument) == name + " " + argument
    ensures Argument(name + " " + argument, key) == Some(argument)
  {
    var line := name + " " + argument;
    assert line[|line| - 1] == argument[|argument| - 1];
    TrimSpaceTrims(line);
    assert line == name + (" " + argument);
    AfterKeyHit(name, key, " " + argument);
    NoReSpaceEnds(argument);
  }

  lemma {:induction false} SpacedItems(items: seq<string>)
    requires forall n | n in items :: IsItem(n)
    ensures AllFree(Spaced(items), ',') && AllFree(Spaced(items), '\n')
    ensures |Spaced(items)| == |items| && forall i | 0 <= i < |items| :: TrimSpace(Spaced(items)[i]) == items[i]
  {
    if items != [] {
      SpacedItems(items[1..]);
      assert items[0] in items;
      TrimSpaceTrims(items[0]);
      assert (" " + items[0])[1..] == items[0];
    }
  }

  lemma {:induction false} ItemsOf(parts: seq<string>, items: seq<string>)
    requires |parts| == |items|
    requires forall i | 0 <= i < |items| :: items[i] != "" && TrimSpace(parts[i]) == items[i]
    ensures Items(parts) == items
  {
    if parts != [] {
      var n := |parts| - 1;
      ItemsOf(parts[..n], items[..n]);
      assert Items(parts) == Items(parts[..n]) + [items[n]];
    }
  }

  lemma {:induction false} JoinEnds(parts: seq<string>, c: char)
    requires |parts| >= 1 && parts[0] != "" && parts[|parts| - 1] != ""
    ensures Join(parts, c) != "" && Join(parts, c)[0] == parts[0][0]
    ensures Join(parts, c)[|Join(parts, c)| - 1] == parts[|parts| - 1][|parts[|parts| - 1]| - 1]
  {
    if |parts| > 1 {
      var rest := parts[1..];
      if rest[0] != "" {
        JoinEnds(rest, c);
      } else {
        JoinEndsRight(rest, c);
      }
    }
  }

  lemma {:induction false} JoinEndsRight(parts: seq<string>, c: char)
    requires |parts| >= 1 && parts[|parts| - 1] != ""
    ensures Join(parts, c) != ""
    ensures Join(parts, c)[|Join(parts, c)| - 1] == parts[|parts| - 1][|parts[|parts| - 1]| - 1]
  {
    if |parts| > 1 {
      JoinEndsRight(parts[1..], c);
    }
  }

  lemma {:induction false} JoinFree(parts: seq<string>, sep: char, c: char)
    requires AllFree(parts, c) && sep != c
    ensures Free(Join(parts, sep), c)
  {
    if |parts| > 1 {
      JoinFree(parts[1..], sep, c);
      assert parts[0] in parts;
    } else if |parts| == 1 {
      assert parts[0] in parts;
    }
  }

  /** The parts of a comma list: the items, all but the first after a space. */
  function CommaParts(items: seq<string>): seq<string>
    requires items != []
  {
    [items[0]] + Spaced(items[1..])
  }

  lemma CommaPartsAre(items: seq<string>)
    requires items != [] && forall n | n in items :: IsItem(n)
    ensures var parts := CommaParts(items);
            |parts| == |items| && AllFree(parts, ',') && AllFree(parts, '\n') &&
            forall i | 0 <= i < |items| :: items[i] != "" && TrimSpace(parts[i]) == items[i]
  {
    var parts := CommaParts(items);
    assert items[0] in items;
    SpacedItems(items[1..]);
    TrimSpaceTrims(items[0]);
    hide TrimSpace, Spaced;
    forall i | 0 <= i < |items| ensures items[i] != "" && TrimSpace(parts[i]) == items[i] {
      assert items[i] in items;
    }
  }

  lemma CommaPartsEnd(items: seq<string>)
    requires items != [] && forall n | n in items :: IsItem(n)
    ensures var parts := CommaParts(items);
            |parts| >= 1 && parts[0] != "" && !IsSpace(parts[0][0]) &&
            var last := parts[|parts| - 1];
            last != "" && !IsSpace(last[|last| - 1])
  {
    var item := items[|items| - 1];
    assert item in items && items[0] in items;
    hide IsSpace;
    if |items| > 1 {
      SpacedLast(items[1..]);
    }
  }

  lemma CommaListIs(items: seq<string>)
    requires items != []
    ensures CommaList(items) == Join(CommaParts(items), ',')
  {}

  /** A comma list is one line, is trimmed, and reads back as its items. */
  lemma CommaListReads(items: seq<string>)
    requires items != [] && forall n | n in items :: IsItem(n)
    ensures CommaList(items) != "" && Trimmed(CommaList(items)) && Free(CommaList(items), '\n')
    ensures Items(Split(CommaList(items), ',')) == items
  {
    var parts := CommaParts(items);
    CommaListIs(items);
    CommaPartsAre(items);
    CommaPartsEnd(items);
    hide CommaList, CommaParts, Split, Join, TrimSpace, Items, IsItem, IsSpace;
    SplitJoin(parts, ',');
    ItemsOf(parts, items);
    JoinFree(parts, ',', '\n');
    JoinEnds(parts, ',');
  }

  lemma {:induction false} SpacedLast(items: seq<string>)
    requires items != []
    ensures |Spaced(items)| == |items| && Spaced(items)[|items| - 1] == " " + items[|items| - 1]
  {
    if |items| > 1 {
      SpacedLast(items[1..]);
    }
  }

  lemma BarePairReads(key: string, value: string)
    requires key != "" && Trimmed(key) && IsLower(key) && Free(key, '=') && Trimmed(value)
    ensures Trimmed(key + "=" + value) && PartPair(key + "=" + value) == Some((key, value))
  {
    var bare := key + "=" + value;
    assert bare[|bare| - 1] == if value == "" then '=' else value[|value| - 1];
    TrimSpaceTrims(bare);
    IndexOfAppend(key, '=', value);
    assert bare[..|key|] == key && bare[|key| + 1..] == value;
    ToLowerId(key);
    TrimSpaceTrims(key);
    TrimSpaceTrims(value);
  }

  lemma PairReads(key: string, value: string)
    requires key != "" && Trimmed(key) && IsLower(key) && Free(key, '=') && Trimmed(value)
    ensures PartPair(" " + (key + "=" + value)) == Some((key, value))
  {
    BarePairReads(key, value);
    TrimLeadingSpace(key + "=" + value);
  }

  lemma AppliesBase(cfg: Backoff, base: string)
    requires Trimmed(base)
    ensures ApplyPart(cfg, "base=" + base) == cfg.(base := base)
  {
    BarePairReads("base", base);
    assert "base=" + base == "base" + "=" + base;
  }

  lemma AppliesMultiplier(cfg: Backoff, m: int)
    requires InRange(m)
    ensures ApplyPart(cfg, " " + ("multiplier=" + Itoa(m))) == cfg.(multiplier := m)
  {
    ItoaPlain(m);
    ItoaRoundTrip(m);
    PairReads("multiplier", Itoa(m));
    assert "multiplier=" + Itoa(m) == "multiplier" + "=" + Itoa(m);
  }

  lemma AppliesMax(cfg: Backoff, max: string)
    requires Trimmed(max)
    ensures ApplyPart(cfg, " " + ("max=" + max)) == cfg.(max := max)
  {
    PairReads("max", max);
    assert "max=" + max == "max" + "=" + max;
  }

  lemma ApplyThree(p0: string, p1: string, p2: string)
    ensures ApplyParts([p0, p1, p2]) == ApplyPart(ApplyPart(ApplyPart(Backoff("", 2, ""), p0), p1), p2)
  {
    assert [p0, p1, p2][..2] == [p0, p1] && [p0, p1][..1] == [p0] && [p0][..0] == [];
    assert ApplyParts([p0]) == ApplyPart(Backoff("", 2, ""), p0);
    assert ApplyParts([p0, p1]) == ApplyPart(ApplyParts([p0]), p1);
  }

  lemma BackoffPartsPlain(b: Backoff)
    requires IsBackoff(b)
    ensures AllFree(BackoffParts(b), ',') && AllFree(BackoffParts(b), '\n')
    ensures !IsSpace(BackoffParts(b)[2][|BackoffParts(b)[2]| - 1])
  {
    ItoaPlain(b.multiplier);
    var p2 := BackoffParts(b)[2];
    assert p2[|p2| - 1] == if b.max == "" then '=' else b.max[|b.max| - 1];
  }

  lemma BackoffReads(b: Backoff)
    requires IsBackoff(b)
    ensures Trimmed(BackoffText(b)) && Free(BackoffText(b), '\n') && BackoffText(b) != ""
    ensures ParseBackoff(BackoffText(b)) == Some(b)
  {
    var parts := BackoffParts(b);
    BackoffPartsPlain(b);
    SplitJoin(parts, ',');
    JoinFree(parts, ',', '\n');
    JoinEnds(parts, ',');
    AppliesBase(Backoff("", 2, ""), b.base);
    AppliesMultiplier(Backoff(b.base, 2, ""), b.multiplier);
    AppliesMax(Backoff(b.base, b.multiplier, ""), b.max);
    ApplyThree(parts[0], parts[1], parts[2]);
  }

  // ----- directive lines -----

  /** `lines` is the directive `d` on one line, or nothing. */
  predicate Says(lines: seq<string>, d: Option<Directive>) {
    && |lines| == (if d.None? then 0 else 1)
    && (d.Some? ==> Classify(lines[0]) == d.value && Free(lines[0], '\n') && !IsHeader(lines[0]))
  }

  lemma PlainLine(name: string, argument: string, d: Directive)
    requires name != "" && name[0] != '#' && Free(name, '\n') && Free(argument, '\n')
    requires Classify(name + " " + argument) == d
    ensures Says([name + " " + argument], Some(d))
  {
    var line := name + " " + argument;
    assert forall c | c in line :: c in name || c == ' ' || c in argument;
    assert line[0] == name[0];
    hide Classify, IsHeader;
  }

  /** The names of the directives in lower case, and that none begins like an earlier one. */
  lemma Names()
    ensures Fold("Needs:") == "needs:" && Fold("Tier:") == "tier:" && Fold("WaitsFor:") == "waitsfor:"
    ensures Fold("Type:") == "type:" && Fold("Backoff:") == "backoff:"
  {}

  lemma NotNamed(name: string, argument: string, key: string, i: nat)
    requires i < |name| && i < |key| && FoldChar(name[i]) != key[i]
    ensures Argument(name + " " + argument, key).None?
  {
    AfterKeyMiss(name + " " + argument, key, i);
  }

  lemma NeedsLineReads(items: seq<string>)
    requires items != [] && forall n | n in items :: IsItem(n)
    ensures Says(["Needs:" + " " + CommaList(items)], Some(NeedsLine(items)))
  {
    CommaListReads(items);
    hide CommaList, Split, Argument, TrimSpace, Says, Items;
    Names();
    ArgumentOf("Needs:", "needs:", CommaList(items));
    PlainLine("Needs:", CommaList(items), NeedsLine(items));
  }

  lemma TierPlain(tier: string)
    requires tier in TIERS
    ensures tier != "" && Trimmed(tier) && Free(tier, '\n') && ToLower(tier) == tier == Fold(tier)
  {
    assert tier == "haiku" || tier == "sonnet" || tier == "opus";
    ToLowerId(tier);
  }

  lemma ClassifiesTier(line: string, tier: string)
    requires TrimSpace(line) == line && Argument(line, "needs:").None? && Argument(line, "tier:") == Some(tier)
    requires DropReSpace(tier) == tier && ToLower(tier) == tier == Fold(tier) && tier in TIERS
    ensures Classify(line) == TierLine(tier)
  {
    hide Argument, TrimSpace, DropReSpace, ToLower, Fold, IsWord, ParseBackoff, Split, Items;
  }

  lemma TierLineReads(tier: string)
    requires tier in TIERS
    ensures Says(["Tier:" + " " + tier], Some(TierLine(tier)))
  {
    TierPlain(tier);
    Names();
    NoReSpaceEnds(tier);
    NotNamed("Tier:", tier, "needs:", 0);
    assert Free("Tier:", '\n') && !IsSpace("Tier:"[0]);
    hide *;
    ArgumentOf("Tier:", "tier:", tier);
    ClassifiesTier("Tier:" + " " + tier, tier);
    PlainLine("Tier:", tier, TierLine(tier));
  }

  lemma WaitsForLineReads(items: seq<string>)
    requires items != [] && forall n | n in items :: IsItem(n)
    ensures Says(["WaitsFor:" + " " + CommaList(items)], Some(WaitsForLine(items)))
  {
    CommaListReads(items);
    hide CommaList, Split, Argument, TrimSpace, Says, Items;
    Names();
    ArgumentOf("WaitsFor:", "waitsfor:", CommaList(items));
    NotNamed("WaitsFor:", CommaList(items), "needs:", 0);
    NotNamed("WaitsFor:", CommaList(items), "tier:", 0);
    PlainLine("WaitsFor:", CommaList(items), WaitsForLine(items));
  }

  lemma KindPlain(kind: string)
    requires IsWord(kind) && IsLower(kind)
    ensures kind != "" && Trimmed(kind) && Free(kind, '\n') && ToLower(kind) == kind
  {
    assert kind[0] in kind && kind[|kind| - 1] in kind;
    ToLowerId(kind);
  }

  lemma ClassifiesType(line: string, kind: string)
    requires TrimSpace(line) == line && Argument(line, "needs:").None? && Argument(line, "tier:").None?
    requires Argument(line, "waitsfor:").None? && Argument(line, "type:") == Some(kind)
    requires DropReSpace(kind) == kind && ToLower(kind) == kind && IsWord(kind)
    ensures Classify(line) == TypeLine(kind)
  {
    hide Argument, TrimSpace, DropReSpace, ToLower, Fold, IsWord, ParseBackoff, Split, Items;
  }

  lemma TypeIsNoOther(argument: string)
    ensures var line := "Type:" + " " + argument;
            Argument(line, "needs:").None? && Argument(line, "tier:").None? && Argument(line, "waitsfor:").None?
  {
    hide Argument;
    NotNamed("Type:", argument, "needs:", 0);
    NotNamed("Type:", argument, "tier:", 1);
    NotNamed("Type:", argument, "waitsfor:", 0);
  }

  lemma TypeLineReads(kind: string)
    requires IsWord(kind) && IsLower(kind)
    ensures Says(["Type:" + " " + kind], Some(TypeLine(kind)))
  {
    KindPlain(kind);
    Names();
    NoReSpaceEnds(kind);
    assert Free("Type:", '\n') && !IsSpace("Type:"[0]);
    hide *;
    ArgumentOf("Type:", "type:", kind);
    TypeIsNoOther(kind);
    ClassifiesType("Type:" + " " + kind, kind);
    PlainLine("Type:", kind, TypeLine(kind));
  }

  lemma BackoffLineReads(b: Backoff)
    requires IsBackoff(b)
    ensures Says(["Backoff:" + " " + BackoffText(b)], Some(BackoffLine(Some(b))))
  {
    BackoffReads(b);
    hide IsBackoff, BackoffText, ParseBackoff, Split, Argument, TrimSpace, Says;
    Names();
    ArgumentOf("Backoff:", "backoff:", BackoffText(b));
    NotNamed("Backoff:", BackoffText(b), "needs:", 0);
    NotNamed("Backoff:", BackoffText(b), "tier:", 0);
    NotNamed("Backoff:", BackoffText(b), "waitsfor:", 0);
    NotNamed("Backoff:", BackoffText(b), "type:", 0);
    PlainLine("Backoff:", BackoffText(b), BackoffLine(Some(b)));
  }

  predicate IsRef(ref: string) {
    ref != "" && forall c | c in ref :: !ReSpace(c)
  }

  lemma RefPlain(ref: string)
    requires IsRef(ref)
    ensures !ReSpace(ref[0]) && !ReSpace(ref[|ref| - 1]) && Free(ref, '\n')
  {
    assert ref[0] in ref && ref[|ref| - 1] in ref;
  }

  lemma HeaderTail(ref: string)
    requires IsRef(ref)
    ensures SkipReSpace(("## Step: " + ref)[2..]) == "Step:" + (" " + ref)
  {
    assert ("## Step: " + ref)[2..] == " " + ("Step:" + (" " + ref));
    SkipOne("Step:" + (" " + ref));
  }

  lemma HeaderReads(ref: string)
    requires IsRef(ref)
    ensures HeaderRef("## Step: " + ref) == Some(ref)
  {
    HeaderTail(ref);
    AfterKeyHit("Step:", "step:", " " + ref);
    RefPlain(ref);
    NoReSpaceEnds(ref);
  }

  lemma SkipOne(s: string)
    requires s != "" && !ReSpace(s[0])
    ensures SkipReSpace(" " + s) == s
  {
    assert (" " + s)[1..] == s;
  }

  // ----- a whole step -----

  lemma Reads(lines: seq<string>, d: Option<Directive>)
    requires Says(lines, d)
    ensures Collect(lines, NeedsIn) == if d.Some? && d.value.NeedsLine? then d.value.items else []
    ensures Collect(lines, WaitsForIn) == if d.Some? && d.value.WaitsForLine? then d.value.conditions else []
    ensures Collect(lines, ProseIn) == if d == Some(Prose) then lines else []
    ensures Latest(lines, TierIn) == if d.Some? && d.value.TierLine? then Some(d.value.tier) else None
    ensures Latest(lines, KindIn) == if d.Some? && d.value.TypeLine? then Some(d.value.kind) else None
    ensures Latest(lines, BackoffIn) == if d.Some? && d.value.BackoffLine? then Some(d.value.config) else None
  {
    if d.Some? {
      assert lines == [lines[0]] && [lines[0]][..0] == [];
    }
  }

  function Opt(present: bool, d: Directive): Option<Directive> {
    if present then Some(d) else None
  }

  lemma DirectivesSay(s: Step)
    requires WellFormed(s)
    ensures Says(DirectiveLine("Needs:", ListText(s.needs)), Opt(s.needs != [], NeedsLine(s.needs)))
    ensures Says(DirectiveLine("Tier:", s.tier), Opt(s.tier != "", TierLine(s.tier)))
    ensures Says(DirectiveLine("WaitsFor:", ListText(s.waitsFor)), Opt(s.waitsFor != [], WaitsForLine(s.waitsFor)))
    ensures Says(DirectiveLine("Type:", s.kind), Opt(s.kind != "", TypeLine(s.kind)))
    ensures Says(DirectiveLine("Backoff:", if s.backoff.Some? then BackoffText(s.backoff.value) else ""),
                 Opt(s.backoff.Some?, BackoffLine(s.backoff)))
  {
    hide Classify, IsHeader, CommaList, BackoffText;
    if s.needs != [] { CommaListReads(s.needs); NeedsLineReads(s.needs); }
    if s.tier != "" { TierLineReads(s.tier); }
    if s.waitsFor != [] { CommaListReads(s.waitsFor); WaitsForLineReads(s.waitsFor); }
    if s.kind != "" { TypeLineReads(s.kind); }
    if s.backoff.Some? { BackoffReads(s.backoff.value); BackoffLineReads(s.backoff.value); }
  }

  lemma CollectSix<T>(p: seq<string>, a: seq<string>, b: seq<string>, c: seq<string>, d: seq<string>,
                      e: seq<string>, pick: string -> seq<T>)
    ensures Collect(p + (a + b + c + d + e), pick) ==
            Collect(p, pick) + (Collect(a, pick) + Collect(b, pick) + Collect(c, pick) + Collect(d, pick) + Collect(e, pick))
  {
    CollectAppend(p, a + b + c + d + e, pick);
    CollectAppend(a + b + c + d, e, pick);
    CollectAppend(a + b + c, d, pick);
    CollectAppend(a + b, c, pick);
    CollectAppend(a, b, pick);
  }

  lemma LatestSix<T>(p: seq<string>, a: seq<string>, b: seq<string>, c: seq<string>, d: seq<string>,
                     e: seq<string>, read: string -> Option<T>)
    ensures Latest(p + (a + b + c + d + e), read) ==
            if Latest(e, read).Some? then Latest(e, read)
            else if Latest(d, read).Some? then Latest(d, read)
            else if Latest(c, read).Some? then Latest(c, read)
            else if Latest(b, read).Some? then Latest(b, read)
            else if Latest(a, read).Some? then Latest(a, read)
            else Latest(p, read)
  {
    LatestAppend(p, a + b + c + d + e, read);
    LatestAppend(a + b + c + d, e, read);
    LatestAppend(a + b + c, d, read);
    LatestAppend(a + b, c, read);
    LatestAppend(a, b, read);
  }

  lemma {:induction false} ProseReads(lines: seq<string>)
    requires forall l | l in lines :: Classify(l).Prose?
    ensures Collect(lines, ProseIn) == lines
    ensures Collect(lines, NeedsIn) == [] && Collect(lines, WaitsForIn) == []
    ensures Latest(lines, TierIn).None? && Latest(lines, KindIn).None? && Latest(lines, BackoffIn).None?
  {
    if lines != [] {
      var n := |lines| - 1;
      assert lines[n] in lines && lines == lines[..n] + [lines[n]];
      ProseReads(lines[..n]);
    }
  }

  function ProseLines(s: Step): seq<string> {
    if s.instructions == "" then [] else Split(s.instructions, '\n')
  }

  lemma ProseLinesRead(s: Step)
    requires WellFormed(s)
    ensures Collect(ProseLines(s), ProseIn) == ProseLines(s)
    ensures Collect(ProseLines(s), NeedsIn) == [] && Collect(ProseLines(s), WaitsForIn) == []
    ensures Latest(ProseLines(s), TierIn).None? && Latest(ProseLines(s), KindIn).None?
    ensures Latest(ProseLines(s), BackoffIn).None?
    ensures TrimSpace(Join(ProseLines(s), '\n')) == s.instructions
  {
    ProseReads(ProseLines(s));
    JoinSplit(s.instructions, '\n');
    TrimSpaceTrims(s.instructions);
  }

  lemma BodyCollects(s: Step)
    requires WellFormed(s)
    ensures Collect(Body(s), ProseIn) == ProseLines(s)
    ensures Collect(Body(s), NeedsIn) == s.needs && Collect(Body(s), WaitsForIn) == s.waitsFor
  {
    hide Classify, IsHeader, CommaList, BackoffText, DirectiveLine, Collect, Latest, Split, TrimSpace, Join;
    hide IsItem, IsBackoff, ProseLines;
    var p := ProseLines(s);
    var a, b := DirectiveLine("Needs:", ListText(s.needs)), DirectiveLine("Tier:", s.tier);
    var c, d := DirectiveLine("WaitsFor:", ListText(s.waitsFor)), DirectiveLine("Type:", s.kind);
    var e := DirectiveLine("Backoff:", if s.backoff.Some? then BackoffText(s.backoff.value) else "");
    DirectivesSay(s);
    ProseLinesRead(s);
    Reads(a, Opt(s.needs != [], NeedsLine(s.needs)));
    Reads(b, Opt(s.tier != "", TierLine(s.tier)));
    Reads(c, Opt(s.waitsFor != [], WaitsForLine(s.waitsFor)));
    Reads(d, Opt(s.kind != "", TypeLine(s.kind)));
    Reads(e, Opt(s.backoff.Some?, BackoffLine(s.backoff)));
    CollectSix(p, a, b, c, d, e, NeedsIn);
    CollectSix(p, a, b, c, d, e, WaitsForIn);
    CollectSix(p, a, b, c, d, e, ProseIn);
  }

  lemma BodyKeepsLast(s: Step)
    requires WellFormed(s)
    ensures Latest(Body(s), TierIn).GetOr("") == s.tier && Latest(Body(s), KindIn).GetOr("") == s.kind
    ensures Latest(Body(s), BackoffIn).GetOr(None) == s.backoff
  {
    hide Classify, IsHeader, CommaList, BackoffText, DirectiveLine, Collect, Latest, Split, TrimSpace, Join;
    hide IsItem, IsBackoff, ProseLines;
    var p := ProseLines(s);
    var a, b := DirectiveLine("Needs:", ListText(s.needs)), DirectiveLine("Tier:", s.tier);
    var c, d := DirectiveLine("WaitsFor:", ListText(s.waitsFor)), DirectiveLine("Type:", s.kind);
    var e := DirectiveLine("Backoff:", if s.backoff.Some? then BackoffText(s.backoff.value) else "");
    DirectivesSay(s);
    ProseLinesRead(s);
    Reads(a, Opt(s.needs != [], NeedsLine(s.needs)));
    Reads(b, Opt(s.tier != "", TierLine(s.tier)));
    Reads(c, Opt(s.waitsFor != [], WaitsForLine(s.waitsFor)));
    Reads(d, Opt(s.kind != "", TypeLine(s.kind)));
    Reads(e, Opt(s.backoff.Some?, BackoffLine(s.backoff)));
    LatestSix(p, a, b, c, d, e, TierIn);
    LatestSix(p, a, b, c, d, e, KindIn);
    LatestSix(p, a, b, c, d, e, BackoffIn);
  }

  lemma TitleReads(s: Step)
    requires WellFormed(s)
    ensures TitleOf(s.ref, s.instructions) == s.title
  {
    var lines := ProseLines(s);
    ProseLinesRead(s);
    SplitPartsFree(s.instructions, '\n');
    MakeStepTitled(s.ref, lines);
    assert MakeStep(s.ref, lines).title == TitleOf(s.ref, s.instructions);
    hide Classify, IsHeader, Split, TrimSpace, Join, Collect, Latest, Blank, IsItem, IsBackoff, TitleOf, MakeStep, ProseLines;
    if HasText(lines) {
      var k := FirstTextIn(lines);
    }
  }

  lemma BodyReads(s: Step)
    requires WellFormed(s)
    ensures MakeStep(s.ref, Body(s)) == s
  {
    BodyCollects(s);
    BodyKeepsLast(s);
    ProseLinesRead(s);
    TitleReads(s);
    hide TitledBy, Body, Collect, Latest, Split, TrimSpace, Join, TitleOf, ProseLines, IsItem, IsBackoff, Classify, IsHeader;
  }

  predicate Plain(lines: seq<string>) {
    AllFree(lines, '\n') && NoHeader(lines, IsHeader)
  }

  lemma PlainSix(p: seq<string>, a: seq<string>, b: seq<string>, c: seq<string>, d: seq<string>, e: seq<string>)
    requires Plain(p) && Plain(a) && Plain(b) && Plain(c) && Plain(d) && Plain(e)
    ensures Plain(p + (a + b + c + d + e))
  {
    hide IsHeader;
    assert forall l | l in p + (a + b + c + d + e) :: l in p || l in a || l in b || l in c || l in d || l in e;
  }

  lemma SaysPlain(lines: seq<string>, d: Option<Directive>)
    requires Says(lines, d)
    ensures Plain(lines)
  {
    hide IsHeader, Classify;
  }

  lemma ProsePlain(s: Step)
    requires WellFormed(s)
    ensures Plain(ProseLines(s))
  {
    hide IsHeader, Classify;
    SplitPartsFree(s.instructions, '\n');
  }

  lemma BodyPlain(s: Step)
    requires WellFormed(s)
    ensures Plain(Body(s))
  {
    ProsePlain(s);
    DirectivesSay(s);
    hide WellFormed, Says, Plain, DirectiveLine, ListText, BackoffText, ProseLines;
    var a, b := DirectiveLine("Needs:", ListText(s.needs)), DirectiveLine("Tier:", s.tier);
    var c, d := DirectiveLine("WaitsFor:", ListText(s.waitsFor)), DirectiveLine("Type:", s.kind);
    var e := DirectiveLine("Backoff:", if s.backoff.Some? then BackoffText(s.backoff.value) else "");
    SaysPlain(a, Opt(s.needs != [], NeedsLine(s.needs)));
    SaysPlain(b, Opt(s.tier != "", TierLine(s.tier)));
    SaysPlain(c, Opt(s.waitsFor != [], WaitsForLine(s.waitsFor)));
    SaysPlain(d, Opt(s.kind != "", TypeLine(s.kind)));
    SaysPlain(e, Opt(s.backoff.Some?, BackoffLine(s.backoff)));
    PlainSix(ProseLines(s), a, b, c, d, e);
  }

  lemma SectionPlain(s: Step)
    requires WellFormed(s)
    ensures HeaderRef("## Step: " + s.ref) == Some(s.ref) && Free("## Step: " + s.ref, '\n')
    ensures Plain(Body(s))
  {
    BodyPlain(s);
    HeaderReads(s.ref);
    RefPlain(s.ref);
    hide *;
  }

  lemma {:induction false} PrintedSections(steps: seq<Step>)
    requires forall s | s in steps :: WellFormed(s)
    ensures AreSections(Printed(steps), IsHeader) && AllFree(Flatten(Printed(steps)), '\n')
    ensures StepsOf(Printed(steps)) == steps
  {
    hide WellFormed, Body, MakeStep, HeaderRef;
    if steps != [] {
      var s := steps[0];
      assert s in steps;
      PrintedSections(steps[1..]);
      SectionPlain(s);
      BodyReads(s);
      var printed := Printed(steps);
      assert printed[0] == Section("## Step: " + s.ref, Body(s)) && printed[1..] == Printed(steps[1..]);
    }
  }

  /** Parsing the canonical printing of a well-formed step list gives the list back. */
  lemma ParseInvertsPrint(steps: seq<Step>)
    requires forall s | s in steps :: WellFormed(s)
    ensures Denotes(Print(steps)) == steps
  {
    PrintedSections(steps);
    var lines := Flatten(Printed(steps));
    if steps == [] {
      assert Split(Print(steps), '\n') == [""];
      assert [""][1..] == [];
    } else {
      SplitJoin(lines, '\n');
      SectionsUnique([], Printed(steps), IsHeader);
      assert [] + lines == lines;
    }
  }
}
