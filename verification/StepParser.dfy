/** Molecule definitions embedded in markdown: the step parser. */
module StepParser {
  import opened Text
  import opened Numbers
  import opened Lines

  datatype Backoff = Backoff(base: string, multiplier: int, max: string)

  datatype Step = Step(ref: string, title: string, instructions: string, needs: seq<string>,
                       waitsFor: seq<string>, tier: string, kind: string, backoff: Option<Backoff>)

  // ----- the line regular expressions -----

  /** RE2's \s. Every such character is also removed by TrimSpace. */
  predicate ReSpace(c: char) {
    c == '\t' || c == '\n' || c == '\U{000C}' || c == '\r' || c == ' '
  }

  function SkipReSpace(s: string): (r: string)
    ensures |r| <= |s|
  {
    if s != "" && ReSpace(s[0]) then SkipReSpace(s[1..]) else s
  }

  function DropReSpace(s: string): (r: string)
    ensures |r| <= |s|
  {
    if s != "" && ReSpace(s[|s| - 1]) then DropReSpace(s[..|s| - 1]) else s
  }

  /** Case-insensitive matching in RE2: besides A-Z, U+017F and U+212A fold into ASCII letters. */
  function FoldChar(c: char): char {
    if 'A' <= c <= 'Z' then (c as int + 32) as char
    else if c == '\U{017F}' then 's'
    else if c == '\U{212A}' then 'k'
    else c
  }

  function Fold(s: string): (r: string)
    ensures |r| == |s|
    ensures forall i | 0 <= i < |s| :: r[i] == FoldChar(s[i])
  {
    seq(|s|, i requires 0 <= i < |s| => FoldChar(s[i]))
  }

  /** What follows `key` at the start of `s`, case-insensitively. */
  function AfterKey(s: string, key: string): Option<string> {
    if |key| <= |s| && Fold(s[..|key|]) == key then Some(s[|key|..]) else None
  }

  /** `^##\s*Step:\s*(\S+)\s*$`, case-insensitive, on the untrimmed line. */
  function HeaderRef(line: string): Option<string> {
    if !("##" <= line) then None
    else
      var rest := AfterKey(SkipReSpace(line[2..]), "step:");
      if rest.None? then None
      else
        var ref := DropReSpace(SkipReSpace(rest.value));
        if ref != "" && forall c | c in ref :: !ReSpace(c) then Some(ref) else None
  }

  /** `\w+`, case-insensitive. */
  predicate IsWord(s: string) {
    s != "" && forall c | c in s :: 'a' <= FoldChar(c) <= 'z' || '0' <= c <= '9' || c == '_'
  }

  const TIERS: set<string> := {"haiku", "sonnet", "opus"}

  datatype Directive =
    | NeedsLine(items: seq<string>)
    | TierLine(tier: string)
    | WaitsForLine(conditions: seq<string>)
    | TypeLine(kind: string)
    | BackoffLine(config: Option<Backoff>)
    | Prose

  /** The argument of `^key\s*(.+)$` on a trimmed line: at least one character is needed. */
  function Argument(trimmed: string, key: string): Option<string> {
    var rest := AfterKey(trimmed, key);
    if rest.Some? && rest.value != "" then Some(SkipReSpace(rest.value)) else None
  }

  /** Comma-separated items, trimmed, without the empty ones. */
  function Items(parts: seq<string>): seq<string> {
    if parts == [] then []
    else
      var item := TrimSpace(parts[|parts| - 1]);
      Items(parts[..|parts| - 1]) + if item == "" then [] else [item]
  }

  /** Which directive a content line is, tried in the order the source tries them. */
  function Classify(line: string): Directive {
    var t := TrimSpace(line);
    var needs, tier := Argument(t, "needs:"), Argument(t, "tier:");
    var waits, kind, backoff := Argument(t, "waitsfor:"), Argument(t, "type:"), Argument(t, "backoff:");
    if needs.Some? then NeedsLine(Items(Split(needs.value, ',')))
    else if tier.Some? && Fold(DropReSpace(tier.value)) in TIERS then TierLine(ToLower(DropReSpace(tier.value)))
    else if waits.Some? then WaitsForLine(Items(Split(waits.value, ',')))
    else if kind.Some? && IsWord(DropReSpace(kind.value)) then TypeLine(ToLower(DropReSpace(kind.value)))
    else if backoff.Some? then BackoffLine(ParseBackoff(backoff.value))
    else Prose
  }

  /** The key and value of one `key=value` part of a backoff configuration. */
  function PartPair(part: string): Option<(string, string)> {
    var p := TrimSpace(part);
    var eq := IndexOf(p, '=');
    if eq == -1 then None else Some((TrimSpace(ToLower(p[..eq])), TrimSpace(p[eq + 1..])))
  }

  function ApplyPart(cfg: Backoff, part: string): Backoff {
    match PartPair(part)
    case None => cfg
    case Some((key, value)) =>
      if key == "base" then cfg.(base := value)
      else if key == "multiplier" then cfg.(multiplier := Atoi(value).GetOr(cfg.multiplier))
      else if key == "max" then cfg.(max := value)
      else cfg
  }

  function ApplyParts(parts: seq<string>): Backoff {
    if parts == [] then Backoff("", 2, "")
    else ApplyPart(ApplyParts(parts[..|parts| - 1]), parts[|parts| - 1])
  }

  /** `parseBackoffConfig`: None when no base was given. */
  function ParseBackoff(config: string): Option<Backoff> {
    var cfg := ApplyParts(Split(config, ','));
    if cfg.base == "" then None else Some(cfg)
  }

  // ----- what a header and its body mean -----

  function NeedsIn(line: string): seq<string> {
    var d := Classify(line);
    if d.NeedsLine? then d.items else []
  }

  function WaitsForIn(line: string): seq<string> {
    var d := Classify(line);
    if d.WaitsForLine? then d.conditions else []
  }

  function TierIn(line: string): Option<string> {
    var d := Classify(line);
    if d.TierLine? then Some(d.tier) else None
  }

  function KindIn(line: string): Option<string> {
    var d := Classify(line);
    if d.TypeLine? then Some(d.kind) else None
  }

  function BackoffIn(line: string): Option<Option<Backoff>> {
    var d := Classify(line);
    if d.BackoffLine? then Some(d.config) else None
  }

  function ProseIn(line: string): seq<string> {
    if Classify(line).Prose? then [line] else []
  }

  function TitleOf(ref: string, instructions: string): string {
    var first := TrimSpace(Split(instructions, '\n')[0]);
    if first != "" then first else ref
  }

  /** The step that a header's ref and the lines up to the next header denote: needs and
      wait conditions accumulate over all their lines, the other directives keep the last. */
  function MakeStep(ref: string, body: seq<string>): Step {
    var instructions := TrimSpace(Join(Collect(body, ProseIn), '\n'));
    Step(ref, TitleOf(ref, instructions), instructions, Collect(body, NeedsIn), Collect(body, WaitsForIn),
         Latest(body, TierIn).GetOr(""), Latest(body, KindIn).GetOr(""), Latest(body, BackoffIn).GetOr(None))
  }

  predicate IsHeader(line: string) {
    HeaderRef(line).Some?
  }

  function StepOf(s: Section): Step {
    MakeStep(HeaderRef(s.header).GetOr(""), s.body)
  }

  function StepsOf(sections: seq<Section>): seq<Step> {
    if sections == [] then [] else [StepOf(sections[0])] + StepsOf(sections[1..])
  }

  /** The steps a description denotes: one per section, and the sections are the unique
      split of its lines at the header lines (Lines.SectionsPartition, SectionsUnique). */
  function Denotes(description: string): seq<Step> {
    StepsOf(Sections(Split(description, '\n'), IsHeader))
  }

  /** The items loop of the Needs and WaitsFor branches. */
  method CollectItems(argument: string) returns (items: seq<string>)
    ensures items == Items(Split(argument, ','))
  {
    items := [];
    var deps := Split(argument, ',');
    for i := 0 to |deps|
      invariant items == Items(deps[..i])
    {
      assert deps[..i + 1][..i] == deps[..i];
      var dep := TrimSpace(deps[i]);
      if dep != "" {
        items := items + [dep];
      }
    }
    assert deps[..|deps|] == deps;
  }

  lemma NextPart(parts: seq<string>, i: nat)
    requires i < |parts|
    ensures ApplyParts(parts[..i + 1]) == ApplyPart(ApplyParts(parts[..i]), parts[i])
  {
    assert parts[..i + 1][..i] == parts[..i];
    hide ApplyPart;
  }

  /** `parseBackoffConfig`. */
  method ParseBackoffConfig(config: string) returns (r: Option<Backoff>)
    ensures r == ParseBackoff(config)
  {
    var cfg := Backoff("", 2, "");
    var parts := Split(config, ',');
    for i := 0 to |parts|
      invariant cfg == ApplyParts(parts[..i])
    {
      NextPart(parts, i);
      hide ApplyParts, TrimSpace, ToLower, Atoi, IndexOf;
      var part := TrimSpace(parts[i]);
      var eq := IndexOf(part, '=');
      if part == "" || eq == -1 {
        continue;
      }
      var key := TrimSpace(ToLower(part[..eq]));
      var value := TrimSpace(part[eq + 1..]);
      match key {
        case "base" => cfg := cfg.(base := value);
        case "multiplier" =>
          var m := Atoi(value);
          if m.Some? {
            cfg := cfg.(multiplier := m.value);
          }
        case "max" => cfg := cfg.(max := value);
        case _ =>
      }
    }
    assert parts[..|parts|] == parts;
    r := if cfg.base == "" then None else Some(cfg);
  }

  /** One line of the finalizing loop: the regular expressions in the source's order. */
  method MatchDirective(line: string) returns (d: Directive)
    ensures d == Classify(line)
  {
    var trimmed := TrimSpace(line);
    var needs := Argument(trimmed, "needs:");
    if needs.Some? {
      var items := CollectItems(needs.value);
      return NeedsLine(items);
    }
    var tier := Argument(trimmed, "tier:");
    if tier.Some? && Fold(DropReSpace(tier.value)) in TIERS {
      return TierLine(ToLower(DropReSpace(tier.value)));
    }
    var waits := Argument(trimmed, "waitsfor:");
    if waits.Some? {
      var conditions := CollectItems(waits.value);
      return WaitsForLine(conditions);
    }
    var kind := Argument(trimmed, "type:");
    if kind.Some? && IsWord(DropReSpace(kind.value)) {
      return TypeLine(ToLower(DropReSpace(kind.value)));
    }
    var backoff := Argument(trimmed, "backoff:");
    if backoff.Some? {
      var config := ParseBackoffConfig(backoff.value);
      return BackoffLine(config);
    }
    return Prose;
  }

  /** The `finalizeStep` closure: fills in a step from its content lines. */
  method FinalizeStep(ref: string, contentLines: seq<string>) returns (step: Step)
    ensures step == MakeStep(ref, contentLines)
  {
    step := Step(ref, "", "", [], [], "", "", None);
    var instructionLines: seq<string> := [];
    for i := 0 to |contentLines|
      invariant step.ref == ref && step.title == "" && step.instructions == ""
      invariant step.needs == Collect(contentLines[..i], NeedsIn)
      invariant step.waitsFor == Collect(contentLines[..i], WaitsForIn)
      invariant step.tier == Latest(contentLines[..i], TierIn).GetOr("")
      invariant step.kind == Latest(contentLines[..i], KindIn).GetOr("")
      invariant step.backoff == Latest(contentLines[..i], BackoffIn).GetOr(None)
      invariant instructionLines == Collect(contentLines[..i], ProseIn)
    {
      assert contentLines[..i + 1][..i] == contentLines[..i];
      var directive := MatchDirective(contentLines[i]);
      match directive {
        case NeedsLine(items) => step := step.(needs := step.needs + items);
        case TierLine(tier) => step := step.(tier := tier);
        case WaitsForLine(conditions) => step := step.(waitsFor := step.waitsFor + conditions);
        case TypeLine(kind) => step := step.(kind := kind);
        case BackoffLine(config) => step := step.(backoff := config);
        case Prose => instructionLines := instructionLines + [contentLines[i]];
      }
    }
    assert contentLines[..|contentLines|] == contentLines;

    step := step.(instructions := TrimSpace(Join(instructionLines, '\n')));
    if step.instructions != "" {
      step := step.(title := TrimSpace(Split(step.instructions, '\n')[0]));
    }
    if step.title == "" {
      step := step.(title := step.ref);
    }
  }

  /** The steps still to come when `content` has been collected for the current header. */
  function Pending(current: Option<string>, content: seq<string>, rest: seq<string>): seq<Step> {
    var later := StepsOf(Sections(rest, IsHeader));
    if current.None? then later
    else [MakeStep(current.value, content + Preamble(rest, IsHeader))] + later
  }

  lemma PendingAtHeader(current: Option<string>, content: seq<string>, lines: seq<string>)
    requires lines != [] && IsHeader(lines[0])
    ensures Pending(current, content, lines) ==
            (if current.Some? then [MakeStep(current.value, content)] else []) +
            Pending(HeaderRef(lines[0]), [], lines[1..])
  {
    var body := Preamble(lines[1..], IsHeader);
    assert content + [] == content && [] + body == body;
  }

  lemma PendingAtContent(current: Option<string>, content: seq<string>, lines: seq<string>)
    requires lines != [] && !IsHeader(lines[0])
    ensures Pending(current, content, lines) == Pending(current, content + [lines[0]], lines[1..])
  {
    assert content + Preamble(lines, IsHeader) == content + [lines[0]] + Preamble(lines[1..], IsHeader);
  }

  /** `ParseMoleculeSteps`. */
  method ParseMoleculeSteps(description: string) returns (steps: seq<Step>)
    ensures steps == Denotes(description)
  {
    if description == "" {
      return [];
    }
    var lines := Split(description, '\n');
    steps := [];
    var currentStep: Option<string> := None;
    var contentLines: seq<string> := [];
    for i := 0 to |lines|
      invariant steps + Pending(currentStep, contentLines, lines[i..]) == Denotes(description)
    {
      assert lines[i..][1..] == lines[i + 1..];
      var header := HeaderRef(lines[i]);
      if header.Some? {
        PendingAtHeader(currentStep, contentLines, lines[i..]);
        if currentStep.Some? {
          var step := FinalizeStep(currentStep.value, contentLines);
          steps := steps + [step];
        }
        currentStep := header;
        contentLines := [];
        continue;
      }
      PendingAtContent(currentStep, contentLines, lines[i..]);
      if currentStep.Some? {
        contentLines := contentLines + [lines[i]];
      }
    }
    assert contentLines + Preamble([], IsHeader) == contentLines;
    if currentStep.Some? {
      var step := FinalizeStep(currentStep.value, contentLines);
      steps := steps + [step];
    }
  }
}
