/** The description text of an escalation bead. */
module EscalationFields {
  import opened Text
  import opened Numbers
  import opened Lines
  import opened FieldBlock
  import opened FieldSheet

  datatype Field =
    | Severity | Reason | Source | EscalatedBy | EscalatedAt | AckedBy | AckedAt | ClosedBy | ClosedReason
    | RelatedBead | OriginalSeverity | Count | LastAt | LastBy

  /** The record's text fields by name (an absent one is empty) and its reescalation count. */
  datatype Escalation = Escalation(texts: map<Field, string>, count: int)

  function KeyOf(f: Field): string {
    match f
    case Severity => "severity"
    case Reason => "reason"
    case Source => "source"
    case EscalatedBy => "escalated_by"
    case EscalatedAt => "escalated_at"
    case AckedBy => "acked_by"
    case AckedAt => "acked_at"
    case ClosedBy => "closed_by"
    case ClosedReason => "closed_reason"
    case RelatedBead => "related_bead"
    case OriginalSeverity => "original_severity"
    case Count => "reescalation_count"
    case LastAt => "last_reescalated_at"
    case LastBy => "last_reescalated_by"
  }

  function FieldOf(key: string): Option<Field> {
    match key
    case "severity" => Some(Severity)
    case "reason" => Some(Reason)
    case "source" => Some(Source)
    case "escalated_by" => Some(EscalatedBy)
    case "escalated_at" => Some(EscalatedAt)
    case "acked_by" => Some(AckedBy)
    case "acked_at" => Some(AckedAt)
    case "closed_by" => Some(ClosedBy)
    case "closed_reason" => Some(ClosedReason)
    case "related_bead" => Some(RelatedBead)
    case "original_severity" => Some(OriginalSeverity)
    case "reescalation_count" => Some(Count)
    case "last_reescalated_at" => Some(LastAt)
    case "last_reescalated_by" => Some(LastBy)
    case _ => None
  }

  const SCHEMA: Schema<Field> := Schema(
    [Severity, Reason, Source, EscalatedBy, EscalatedAt, AckedBy, AckedAt, ClosedBy, ClosedReason,
     RelatedBead, OriginalSeverity, Count, LastAt, LastBy], KeyOf, FieldOf)

  function TextOf(e: Escalation, f: Field): string {
    if f in e.texts then e.texts[f] else ""
  }

  function With(e: Escalation, f: Field, v: string): Escalation {
    e.(texts := if v == "" then e.texts - {f} else e.texts[f := v])
  }

  /** A count that is not a number is passed over. */
  function CountText(v: string): Option<string> {
    if Atoi(Unnull(v)).Some? then Some(v) else None
  }

  function Decode(f: Field): string -> Option<string> {
    if f == Count then CountText else Read
  }

  function Raw(lines: seq<string>, f: Field): Option<string> {
    Find(lines, SCHEMA, f, Decode(f))
  }

  function Gathered(lines: seq<string>): Escalation {
    Escalation(map f: Field | f != Count && Raw(lines, f).GetOr("") != "" :: Raw(lines, f).value,
               Atoi(Raw(lines, Count).GetOr("")).GetOr(0))
  }

  /** The escalation a description holds: each field's last occurrence, null standing for
      empty, and the last readable count. */
  function Parsed(description: string): Escalation {
    Gathered(Split(description, '\n'))
  }

  /** Fields that are written as they are even when they are empty. */
  predicate WrittenRaw(f: Field) {
    f == Severity || f == Reason || f == EscalatedBy || f == EscalatedAt
  }

  function Shown(e: Escalation, f: Field): string {
    if f == Count then Itoa(e.count) else if WrittenRaw(f) then TextOf(e, f) else OrNull(TextOf(e, f))
  }

  function Values(e: Escalation): Field -> string {
    f => Shown(e, f)
  }

  /** `FormatEscalationDescription`: the title, a blank line and a line for every field. */
  function Description(title: string, fields: Option<Escalation>): string {
    match fields
    case None => title
    case Some(e) => Sheet(title, SCHEMA, Values(e))
  }

  // ----- the schema -----

  lemma ShortKeyIsPlain(f: Field)
    requires f.Severity? || f.Reason? || f.Source? || f.AckedBy? || f.AckedAt? || f.ClosedBy?
    ensures PlainKey(KeyOf(f))
  {}

  lemma MiddleKeyIsPlain(f: Field)
    requires f.EscalatedBy? || f.EscalatedAt? || f.ClosedReason? || f.RelatedBead?
    ensures PlainKey(KeyOf(f))
  {}

  lemma CountKeyIsPlain(f: Field)
    requires f.OriginalSeverity? || f.Count?
    ensures PlainKey(KeyOf(f))
  {}

  lemma LastKeyIsPlain(f: Field)
    requires f.LastAt? || f.LastBy?
    ensures PlainKey(KeyOf(f))
  {}

  lemma KeyIsPlain(f: Field)
    ensures PlainKey(KeyOf(f))
  {
    hide PlainKey, KeyOf;
    match f {
      case OriginalSeverity => CountKeyIsPlain(f);
      case Count => CountKeyIsPlain(f);
      case LastAt => LastKeyIsPlain(f);
      case LastBy => LastKeyIsPlain(f);
      case EscalatedBy => MiddleKeyIsPlain(f);
      case EscalatedAt => MiddleKeyIsPlain(f);
      case ClosedReason => MiddleKeyIsPlain(f);
      case RelatedBead => MiddleKeyIsPlain(f);
      case _ => ShortKeyIsPlain(f);
    }
  }

  lemma KeyIsRead(f: Field)
    ensures FieldOf(KeyOf(f)) == Some(f)
  {}

  lemma AllFields(f: Field)
    ensures f in SCHEMA.fields
  {}

  lemma SchemaIsProper()
    ensures Proper(SCHEMA)
  {
    hide PlainKey, KeyOf, FieldOf;
    forall f | f in SCHEMA.fields ensures PlainKey(SCHEMA.keyOf(f)) && SCHEMA.fieldOf(SCHEMA.keyOf(f)) == Some(f) {
      KeyIsPlain(f);
      KeyIsRead(f);
    }
  }

  // ----- ParseEscalationFields -----

  lemma RawNext(lines: seq<string>, i: nat, f: Field)
    requires i < |lines|
    ensures Raw(lines[..i + 1], f) ==
            var e := Entry(lines[i]);
            if e.Some? && FieldOf(e.value.0) == Some(f) && Decode(f)(e.value.1).Some? then Decode(f)(e.value.1)
            else Raw(lines[..i], f)
  {
    hide FieldOf, Entry, Atoi;
    FindNext(lines, i, SCHEMA, f, Decode(f));
  }

  lemma GatheredNext(lines: seq<string>, i: nat, field: Option<Field>, value: string)
    requires i < |lines|
    requires var e := Entry(lines[i]);
             if e.Some? then field == FieldOf(e.value.0) && value == e.value.1 else field == None
    ensures var before, after := Gathered(lines[..i]), Gathered(lines[..i + 1]);
            if field.None? then after == before
            else if field == Some(Count) then
              after == (if Atoi(Unnull(value)).Some? then before.(count := Atoi(value).GetOr(0)) else before)
            else after == With(before, field.value, Unnull(value))
  {
    hide FieldOf, Entry, Atoi, Raw, Unnull;
    forall g: Field ensures Raw(lines[..i + 1], g) ==
                            if field == Some(g) && Decode(g)(value).Some? then Decode(g)(value) else Raw(lines[..i], g)
    {
      RawNext(lines, i, g);
    }
    if field.Some? && field != Some(Count) {
      assert Gathered(lines[..i + 1]).texts == With(Gathered(lines[..i]), field.value, Unnull(value)).texts;
    } else {
      assert Gathered(lines[..i + 1]).texts == Gathered(lines[..i]).texts;
    }
  }

  lemma NoNumber(value: string)
    ensures Atoi("").None?
    ensures value == "null" || value == "" ==> Atoi(value).None?
  {
    assert "null"[0] in "null";
  }

  lemma NothingGathered()
    ensures Gathered([]) == Escalation(map[], 0)
  {}

  /** `ParseEscalationFields`. */
  method ParseEscalationFields(description: string) returns (fields: Escalation)
    ensures fields == Parsed(description)
  {
    hide Gathered, FieldOf, Atoi, With;
    fields := Escalation(map[], 0);
    var lines := Split(description, '\n');
    NothingGathered();
    for i := 0 to |lines|
      invariant fields == Gathered(lines[..i])
    {
      var line := TrimSpace(lines[i]);
      var colon := IndexOf(line, ':');
      if line == "" || colon == -1 {
        GatheredNext(lines, i, None, "");
        continue;
      }
      var key, value := TrimSpace(line[..colon]), TrimSpace(line[colon + 1..]);
      var field := FieldOf(ToLower(key));
      GatheredNext(lines, i, field, value);
      NoNumber(value);
      if value == "null" || value == "" {
        value := "";
      }
      if field == Some(Count) {
        var n := Atoi(value);
        if n.Some? {
          fields := fields.(count := n.value);
        }
      } else if field.Some? {
        fields := With(fields, field.value, value);
      }
    }
    assert lines[..|lines|] == lines;
  }

  // ----- FormatEscalationDescription -----

  lemma RaisingLines(e: Escalation)
    ensures SCHEMA.fields[0] == Severity && FieldLine(SCHEMA, Values(e), Severity) == Line("severity", TextOf(e, Severity))
    ensures SCHEMA.fields[1] == Reason && FieldLine(SCHEMA, Values(e), Reason) == Line("reason", TextOf(e, Reason))
    ensures SCHEMA.fields[2] == Source && FieldLine(SCHEMA, Values(e), Source) == Line("source", OrNull(TextOf(e, Source)))
    ensures SCHEMA.fields[3] == EscalatedBy && FieldLine(SCHEMA, Values(e), EscalatedBy) == Line("escalated_by", TextOf(e, EscalatedBy))
    ensures SCHEMA.fields[4] == EscalatedAt && FieldLine(SCHEMA, Values(e), EscalatedAt) == Line("escalated_at", TextOf(e, EscalatedAt))
  {
    hide Line, OrNull, TextOf, FieldOf, Itoa;
  }

  lemma HandlingLines(e: Escalation)
    ensures SCHEMA.fields[5] == AckedBy && FieldLine(SCHEMA, Values(e), AckedBy) == Line("acked_by", OrNull(TextOf(e, AckedBy)))
    ensures SCHEMA.fields[6] == AckedAt && FieldLine(SCHEMA, Values(e), AckedAt) == Line("acked_at", OrNull(TextOf(e, AckedAt)))
    ensures SCHEMA.fields[7] == ClosedBy && FieldLine(SCHEMA, Values(e), ClosedBy) == Line("closed_by", OrNull(TextOf(e, ClosedBy)))
    ensures SCHEMA.fields[8] == ClosedReason && FieldLine(SCHEMA, Values(e), ClosedReason) == Line("closed_reason", OrNull(TextOf(e, ClosedReason)))
    ensures SCHEMA.fields[9] == RelatedBead && FieldLine(SCHEMA, Values(e), RelatedBead) == Line("related_bead", OrNull(TextOf(e, RelatedBead)))
  {
    hide Line, OrNull, TextOf, FieldOf, Itoa;
  }

  lemma ReescalatingLines(e: Escalation)
    ensures SCHEMA.fields[10] == OriginalSeverity && FieldLine(SCHEMA, Values(e), OriginalSeverity) == Line("original_severity", OrNull(TextOf(e, OriginalSeverity)))
    ensures SCHEMA.fields[11] == Count && FieldLine(SCHEMA, Values(e), Count) == Line("reescalation_count", Itoa(e.count))
    ensures SCHEMA.fields[12] == LastAt && FieldLine(SCHEMA, Values(e), LastAt) == Line("last_reescalated_at", OrNull(TextOf(e, LastAt)))
    ensures SCHEMA.fields[13] == LastBy && FieldLine(SCHEMA, Values(e), LastBy) == Line("last_reescalated_by", OrNull(TextOf(e, LastBy)))
  {
    hide Line, OrNull, TextOf, FieldOf, Itoa;
  }

  lemma OneMoreLine(title: string, e: Escalation, i: nat, lines: seq<string>, f: Field, line: string)
    requires i < |SCHEMA.fields| && SCHEMA.fields[i] == f && line == FieldLine(SCHEMA, Values(e), f)
    requires lines == [title, ""] + FieldLines(SCHEMA, Values(e), i)
    ensures lines + [line] == [title, ""] + FieldLines(SCHEMA, Values(e), i + 1)
  {
    hide FieldLine;
  }

  lemma NoLinesYet(title: string, e: Escalation)
    ensures [title, ""] == [title, ""] + FieldLines(SCHEMA, Values(e), 0)
    ensures Description(title, Some(e)) == Join([title, ""] + FieldLines(SCHEMA, Values(e), 14), '\n')
    ensures |SCHEMA.fields| == 14
  {
    hide FieldLine;
  }

  /** Why, by whom and when it was raised: all but the source may be written empty. */
  function Raising(e: Escalation): seq<string> {
    ["severity" + ": " + TextOf(e, Severity), "reason" + ": " + TextOf(e, Reason), "source" + ": " + OrNull(TextOf(e, Source)),
     "escalated_by" + ": " + TextOf(e, EscalatedBy), "escalated_at" + ": " + TextOf(e, EscalatedAt)]
  }

  function Handling(e: Escalation): seq<string> {
    ["acked_by" + ": " + OrNull(TextOf(e, AckedBy)), "acked_at" + ": " + OrNull(TextOf(e, AckedAt)),
     "closed_by" + ": " + OrNull(TextOf(e, ClosedBy)), "closed_reason" + ": " + OrNull(TextOf(e, ClosedReason)),
     "related_bead" + ": " + OrNull(TextOf(e, RelatedBead))]
  }

  function Reescalating(e: Escalation): seq<string> {
    ["original_severity" + ": " + OrNull(TextOf(e, OriginalSeverity)), "reescalation_count" + ": " + Itoa(e.count),
     "last_reescalated_at" + ": " + OrNull(TextOf(e, LastAt)), "last_reescalated_by" + ": " + OrNull(TextOf(e, LastBy))]
  }

  lemma LinesAre(e: Escalation)
    ensures Raising(e) == [Line("severity", TextOf(e, Severity)), Line("reason", TextOf(e, Reason)),
                           Line("source", OrNull(TextOf(e, Source))), Line("escalated_by", TextOf(e, EscalatedBy)),
                           Line("escalated_at", TextOf(e, EscalatedAt))]
    ensures Handling(e) == [Line("acked_by", OrNull(TextOf(e, AckedBy))), Line("acked_at", OrNull(TextOf(e, AckedAt))),
                            Line("closed_by", OrNull(TextOf(e, ClosedBy))), Line("closed_reason", OrNull(TextOf(e, ClosedReason))),
                            Line("related_bead", OrNull(TextOf(e, RelatedBead)))]
    ensures Reescalating(e) == [Line("original_severity", OrNull(TextOf(e, OriginalSeverity))),
                                Line("reescalation_count", Itoa(e.count)), Line("last_reescalated_at", OrNull(TextOf(e, LastAt))),
                                Line("last_reescalated_by", OrNull(TextOf(e, LastBy)))]
  {
    hide TextOf, OrNull, Itoa;
  }

  /** The lines of a description on the escalation itself. */
  method WriteRaising(title: string, e: Escalation, before: seq<string>) returns (lines: seq<string>)
    requires |SCHEMA.fields| == 14 && before == [title, ""] + FieldLines(SCHEMA, Values(e), 0)
    ensures lines == [title, ""] + FieldLines(SCHEMA, Values(e), 5) == before + Raising(e)
  {
    hide *;
    LinesAre(e);
    RaisingLines(e);
    lines := before;
    OneMoreLine(title, e, 0, lines, Severity, Line("severity", TextOf(e, Severity)));
    lines := lines + [Line("severity", TextOf(e, Severity))];
    OneMoreLine(title, e, 1, lines, Reason, Line("reason", TextOf(e, Reason)));
    lines := lines + [Line("reason", TextOf(e, Reason))];
    OneMoreLine(title, e, 2, lines, Source, Line("source", OrNull(TextOf(e, Source))));
    lines := lines + [Line("source", OrNull(TextOf(e, Source)))];
    OneMoreLine(title, e, 3, lines, EscalatedBy, Line("escalated_by", TextOf(e, EscalatedBy)));
    lines := lines + [Line("escalated_by", TextOf(e, EscalatedBy))];
    OneMoreLine(title, e, 4, lines, EscalatedAt, Line("escalated_at", TextOf(e, EscalatedAt)));
    lines := lines + [Line("escalated_at", TextOf(e, EscalatedAt))];
  }

  /** The lines of a description on how it was acknowledged and closed. */
  method WriteHandling(title: string, e: Escalation, before: seq<string>) returns (lines: seq<string>)
    requires |SCHEMA.fields| == 14 && before == [title, ""] + FieldLines(SCHEMA, Values(e), 5)
    ensures lines == [title, ""] + FieldLines(SCHEMA, Values(e), 10) == before + Handling(e)
  {
    hide *;
    LinesAre(e);
    HandlingLines(e);
    lines := before;
    OneMoreLine(title, e, 5, lines, AckedBy, Line("acked_by", OrNull(TextOf(e, AckedBy))));
    lines := lines + [Line("acked_by", OrNull(TextOf(e, AckedBy)))];
    OneMoreLine(title, e, 6, lines, AckedAt, Line("acked_at", OrNull(TextOf(e, AckedAt))));
    lines := lines + [Line("acked_at", OrNull(TextOf(e, AckedAt)))];
    OneMoreLine(title, e, 7, lines, ClosedBy, Line("closed_by", OrNull(TextOf(e, ClosedBy))));
    lines := lines + [Line("closed_by", OrNull(TextOf(e, ClosedBy)))];
    OneMoreLine(title, e, 8, lines, ClosedReason, Line("closed_reason", OrNull(TextOf(e, ClosedReason))));
    lines := lines + [Line("closed_reason", OrNull(TextOf(e, ClosedReason)))];
    OneMoreLine(title, e, 9, lines, RelatedBead, Line("related_bead", OrNull(TextOf(e, RelatedBead))));
    lines := lines + [Line("related_bead", OrNull(TextOf(e, RelatedBead)))];
  }

  /** The lines of a description on its reescalations. */
  method WriteReescalating(title: string, e: Escalation, before: seq<string>) returns (lines: seq<string>)
    requires |SCHEMA.fields| == 14 && before == [title, ""] + FieldLines(SCHEMA, Values(e), 10)
    ensures lines == [title, ""] + FieldLines(SCHEMA, Values(e), 14) == before + Reescalating(e)
  {
    hide *;
    LinesAre(e);
    ReescalatingLines(e);
    lines := before;
    OneMoreLine(title, e, 10, lines, OriginalSeverity, Line("original_severity", OrNull(TextOf(e, OriginalSeverity))));
    lines := lines + [Line("original_severity", OrNull(TextOf(e, OriginalSeverity)))];
    OneMoreLine(title, e, 11, lines, Count, Line("reescalation_count", Itoa(e.count)));
    lines := lines + [Line("reescalation_count", Itoa(e.count))];
    OneMoreLine(title, e, 12, lines, LastAt, Line("last_reescalated_at", OrNull(TextOf(e, LastAt))));
    lines := lines + [Line("last_reescalated_at", OrNull(TextOf(e, LastAt)))];
    OneMoreLine(title, e, 13, lines, LastBy, Line("last_reescalated_by", OrNull(TextOf(e, LastBy))));
    lines := lines + [Line("last_reescalated_by", OrNull(TextOf(e, LastBy)))];
  }

  /** `FormatEscalationDescription`. */
  method FormatEscalationDescription(title: string, fields: Option<Escalation>) returns (r: string)
    ensures r == Description(title, fields)
    ensures fields.None? ==> r == title
    ensures fields.Some? ==>
              r == Join([title, ""] + Raising(fields.value) + Handling(fields.value) + Reescalating(fields.value), '\n')
  {
    if fields.None? {
      return title;
    }
    hide *;
    var e := fields.value;
    NoLinesYet(title, e);
    var lines := WriteRaising(title, e, [title, ""]);
    lines := WriteHandling(title, e, lines);
    lines := WriteReescalating(title, e, lines);
    r := Join(lines, '\n');
  }

  // ----- laws -----

  predicate OneLineEach(e: Escalation) {
    forall f | f in e.texts :: f != Count && Free(e.texts[f], '\n')
  }

  /** Every text is one trimmed line, not empty and not the word null; the count is 64-bit. */
  predicate Clean(e: Escalation) {
    (forall f | f in e.texts :: f != Count && e.texts[f] != "" && CleanText(e.texts[f])) && InRange(e.count)
  }

  function SettledAll(e: Escalation): Escalation {
    e.(texts := map f | f in e.texts && Settled(e.texts[f]) != "" :: Settled(e.texts[f]))
  }

  lemma ShownIsOneLine(e: Escalation)
    requires OneLineEach(e)
    ensures OneLine(SCHEMA, Values(e))
  {
    ItoaPlain(e.count);
    hide Itoa;
    forall f | f in SCHEMA.fields ensures Free(Values(e)(f), '\n') {
      assert f in e.texts ==> Free(e.texts[f], '\n');
    }
  }

  lemma CountComesBack(n: int)
    requires InRange(n)
    ensures TrimSpace(Itoa(n)) == Itoa(n) && CountText(Itoa(n)) == Some(Itoa(n)) && Atoi(Itoa(n)) == Some(n)
  {
    ItoaPlain(n);
    ItoaRoundTrip(n);
    TrimSpaceTrims(Itoa(n));
    hide Itoa, Atoi;
  }

  lemma ShownComesBack(e: Escalation, f: Field)
    requires InRange(e.count)
    ensures Decode(f)(TrimSpace(Shown(e, f))) == Some(if f == Count then Itoa(e.count) else Settled(TextOf(e, f)))
  {
    OrNullSettles(TextOf(e, f));
    CountComesBack(e.count);
    hide TrimSpace, OrNull, Unnull, Atoi, Itoa, TextOf;
  }

  lemma RawOfDescription(title: string, e: Escalation, f: Field)
    requires OneLineEach(e) && InRange(e.count)
    ensures Raw(Split(Description(title, Some(e)), '\n'), f) ==
            Some(if f == Count then Itoa(e.count) else Settled(TextOf(e, f)))
  {
    SchemaIsProper();
    ShownIsOneLine(e);
    AllFields(f);
    ShownComesBack(e, f);
    hide KeyOf, FieldOf, OneLineEach, Proper, OneLine, TrimSpace, Sheet, Split, Shown, Decode, Settled, Itoa;
    FindInSheet(title, SCHEMA, Values(e), f, Decode(f));
  }

  /** Reading back a formatted description gives every text trimmed, null as empty, and the
      count, whatever the title says. */
  lemma FormatThenParse(title: string, e: Escalation)
    requires OneLineEach(e) && InRange(e.count)
    ensures Parsed(Description(title, Some(e))) == SettledAll(e)
  {
    var lines := Split(Description(title, Some(e)), '\n');
    forall f: Field ensures Raw(lines, f) == Some(if f == Count then Itoa(e.count) else Settled(TextOf(e, f))) {
      RawOfDescription(title, e, f);
    }
    hide *;
    GatherSettled(lines, e);
    assert Parsed(Description(title, Some(e))) == Gathered(lines) by { ParsedIsGathered(Description(title, Some(e))); }
  }

  lemma ParsedIsGathered(text: string)
    ensures Parsed(text) == Gathered(Split(text, '\n'))
  {}

  lemma GatherSettled(lines: seq<string>, e: Escalation)
    requires OneLineEach(e) && InRange(e.count)
    requires forall f: Field :: Raw(lines, f) == Some(if f == Count then Itoa(e.count) else Settled(TextOf(e, f)))
    ensures Gathered(lines) == SettledAll(e)
  {
    CountComesBack(e.count);
    EmptySettles();
    hide Raw, Settled, Itoa, Atoi;
    assert Gathered(lines).texts == SettledAll(e).texts;
  }

  lemma EmptySettles()
    ensures Settled("") == ""
  {
    NullSettles();
  }

  lemma CleanSettlesAll(e: Escalation)
    requires Clean(e)
    ensures SettledAll(e) == e && OneLineEach(e)
  {
    forall f | f in e.texts ensures Settled(e.texts[f]) == e.texts[f] && Free(e.texts[f], '\n') {
      CleanSettles(e.texts[f]);
    }
    hide Settled, CleanText;
  }

  lemma RawCountInRange(text: string)
    ensures InRange(Parsed(text).count)
  {}

  /** What is parsed is always clean. */
  lemma ParsedIsClean(text: string)
    ensures Clean(Parsed(text))
  {
    RawCountInRange(text);
    hide CleanText, Split, Latest, Atoi;
    forall f: Field | f != Count ensures CleanText(Raw(Split(text, '\n'), f).GetOr("")) {
      FoundIsCleanText(text, SCHEMA, f);
    }
  }

  /** The round trip holds for exactly the clean records, under every title. */
  lemma FormatThenParseIff(title: string, e: Escalation)
    ensures Parsed(Description(title, Some(e))) == e <==> Clean(e)
  {
    ParsedIsClean(Description(title, Some(e)));
    hide Description, Parsed, Clean, SettledAll, OneLineEach;
    if Clean(e) {
      CleanSettlesAll(e);
      assert InRange(e.count) by { CleanCount(e); }
      FormatThenParse(title, e);
    }
  }

  lemma CleanCount(e: Escalation)
    requires Clean(e)
    ensures InRange(e.count)
  {}
}
