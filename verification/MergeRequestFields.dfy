/** The merge-request block of a bead's description. */
module MergeRequestFields {
  import opened Text
  import opened Numbers
  import opened Lines
  import opened FieldBlock

  datatype Field =
    | Branch | Target | SourceIssue | Worker | Rig | MergeCommit | CloseReason | AgentBead
    | RetryCount | LastConflictSHA | ConflictTaskID | ConvoyID | ConvoyCreatedAt

  /** The record's text fields by name (an absent one is empty) and its retry count. */
  datatype MergeRequest = MergeRequest(texts: map<Field, string>, retryCount: int)

  const EMPTY := MergeRequest(map[], 0)

  function KeyOf(f: Field): string {
    match f
    case Branch => "branch"
    case Target => "target"
    case SourceIssue => "source_issue"
    case Worker => "worker"
    case Rig => "rig"
    case MergeCommit => "merge_commit"
    case CloseReason => "close_reason"
    case AgentBead => "agent_bead"
    case RetryCount => "retry_count"
    case LastConflictSHA => "last_conflict_sha"
    case ConflictTaskID => "conflict_task_id"
    case ConvoyID => "convoy_id"
    case ConvoyCreatedAt => "convoy_created_at"
  }

  function FieldOf(key: string): Option<Field> {
    match key
    case "branch" => Some(Branch)
    case "target" => Some(Target)
    case "source_issue" => Some(SourceIssue)
    case "source-issue" => Some(SourceIssue)
    case "sourceissue" => Some(SourceIssue)
    case "worker" => Some(Worker)
    case "rig" => Some(Rig)
    case "merge_commit" => Some(MergeCommit)
    case "merge-commit" => Some(MergeCommit)
    case "mergecommit" => Some(MergeCommit)
    case "close_reason" => Some(CloseReason)
    case "close-reason" => Some(CloseReason)
    case "closereason" => Some(CloseReason)
    case "agent_bead" => Some(AgentBead)
    case "agent-bead" => Some(AgentBead)
    case "agentbead" => Some(AgentBead)
    case "retry_count" => Some(RetryCount)
    case "retry-count" => Some(RetryCount)
    case "retrycount" => Some(RetryCount)
    case "last_conflict_sha" => Some(LastConflictSHA)
    case "last-conflict-sha" => Some(LastConflictSHA)
    case "lastconflictsha" => Some(LastConflictSHA)
    case "conflict_task_id" => Some(ConflictTaskID)
    case "conflict-task-id" => Some(ConflictTaskID)
    case "conflicttaskid" => Some(ConflictTaskID)
    case "convoy_id" => Some(ConvoyID)
    case "convoy-id" => Some(ConvoyID)
    case "convoyid" => Some(ConvoyID)
    case "convoy" => Some(ConvoyID)
    case "convoy_created_at" => Some(ConvoyCreatedAt)
    case "convoy-created-at" => Some(ConvoyCreatedAt)
    case "convoycreatedat" => Some(ConvoyCreatedAt)
    case _ => None
  }

  const SCHEMA: Schema<Field> := Schema(
    [Branch, Target, SourceIssue, Worker, Rig, MergeCommit, CloseReason, AgentBead,
     RetryCount, LastConflictSHA, ConflictTaskID, ConvoyID, ConvoyCreatedAt], KeyOf, FieldOf)

  function NonEmpty(v: string): Option<string> {
    if v == "" then None else Some(v)
  }

  /** A retry count that does not start with a number is passed over. */
  function CountText(v: string): Option<string> {
    if v == "" || ScanInt(v).None? then None else Some(v)
  }

  function Decode(f: Field): string -> Option<string> {
    if f == RetryCount then CountText else NonEmpty
  }

  function TextOf(m: MergeRequest, f: Field): string {
    if f in m.texts then m.texts[f] else ""
  }

  function ValueOf(m: MergeRequest, f: Field): string {
    if f != RetryCount then TextOf(m, f) else if m.retryCount > 0 then Itoa(m.retryCount) else ""
  }

  function Values(m: MergeRequest): Field -> string {
    f => ValueOf(m, f)
  }

  // ----- what the functions compute -----

  function Raw(lines: seq<string>, f: Field): Option<string> {
    Find(lines, SCHEMA, f, Decode(f))
  }

  predicate HasFields(lines: seq<string>) {
    exists f: Field :: Raw(lines, f).Some?
  }

  function Gathered(lines: seq<string>): MergeRequest {
    MergeRequest(map f: Field | f != RetryCount && Raw(lines, f).Some? :: Raw(lines, f).value,
                 ScanInt(Raw(lines, RetryCount).GetOr("")).GetOr(0))
  }

  /** The merge request a description holds: for each field its last readable occurrence. */
  function Parsed(text: string): Option<MergeRequest> {
    var lines := Split(text, '\n');
    if HasFields(lines) then Some(Gathered(lines)) else None
  }

  /** The description with its merge-request block replaced; None writes no block. */
  function Updated(text: string, m: Option<MergeRequest>): string {
    Put(text, SCHEMA, Values(m.GetOr(EMPTY)))
  }

  lemma ShortKeyIsPlain(f: Field)
    requires f.Branch? || f.Target? || f.SourceIssue? || f.Worker? || f.Rig? || f.MergeCommit?
    ensures PlainKey(KeyOf(f))
  {}

  lemma LongKeyIsPlain(f: Field)
    requires f.LastConflictSHA? || f.ConflictTaskID? || f.ConvoyID? || f.ConvoyCreatedAt?
    ensures PlainKey(KeyOf(f))
  {}

  lemma OtherKeyIsPlain(f: Field)
    requires f.CloseReason? || f.AgentBead? || f.RetryCount?
    ensures PlainKey(KeyOf(f))
  {}

  lemma KeyIsPlain(f: Field)
    ensures PlainKey(KeyOf(f))
  {
    hide PlainKey, KeyOf;
    match f {
      case CloseReason => OtherKeyIsPlain(f);
      case AgentBead => OtherKeyIsPlain(f);
      case RetryCount => OtherKeyIsPlain(f);
      case LastConflictSHA => LongKeyIsPlain(f);
      case ConflictTaskID => LongKeyIsPlain(f);
      case ConvoyID => LongKeyIsPlain(f);
      case ConvoyCreatedAt => LongKeyIsPlain(f);
      case _ => ShortKeyIsPlain(f);
    }
  }

  lemma KeyIsRead(f: Field)
    ensures FieldOf(KeyOf(f)) == Some(f)
  {}

  lemma AllFields(f: Field)
    ensures f in SCHEMA.fields
  {}

  lemma SchemaIsProper()
    ensures Proper(SCHEMA)
  {
    hide PlainKey, KeyOf, FieldOf;
    forall f | f in SCHEMA.fields ensures PlainKey(SCHEMA.keyOf(f)) && SCHEMA.fieldOf(SCHEMA.keyOf(f)) == Some(f) {
      KeyIsPlain(f);
      KeyIsRead(f);
    }
  }

  lemma RawNext(lines: seq<string>, i: nat, f: Field)
    requires i < |lines|
    ensures Raw(lines[..i + 1], f) ==
            var e := Entry(lines[i]);
            if e.Some? && FieldOf(e.value.0) == Some(f) && Decode(f)(e.value.1).Some? then Some(e.value.1)
            else Raw(lines[..i], f)
  {
    hide FieldOf, Entry, ScanInt;
    FindNext(lines, i, SCHEMA, f, Decode(f));
  }

  /** What is found is not empty, and a retry count is a number. */
  lemma RawIsDecoded(lines: seq<string>, f: Field)
    ensures Raw(lines, f).Some? ==> Raw(lines, f).value != ""
    ensures f == RetryCount && Raw(lines, f).Some? ==> ScanInt(Raw(lines, f).value).Some?
  {
    FoundIsDecoded(lines, SCHEMA, f, Decode(f));
  }

  // ----- the methods -----

  lemma GatheredNext(lines: seq<string>, i: nat, field: Option<Field>, value: string)
    requires i < |lines|
    requires var e := Entry(lines[i]);
             if e.Some? then field == FieldOf(e.value.0) && value == e.value.1 else field == None
    ensures var before, after := Gathered(lines[..i]), Gathered(lines[..i + 1]);
            if field.None? || Decode(field.value)(value).None? then after == before
            else if field == Some(RetryCount) then after == before.(retryCount := ScanInt(value).value)
            else after == before.(texts := before.texts[field.value := value])
    ensures HasFields(lines[..i + 1]) <==> HasFields(lines[..i]) || (field.Some? && Decode(field.value)(value).Some?)
  {
    hide FieldOf, Entry, ScanInt, Raw;
    forall g: Field ensures Raw(lines[..i + 1], g) ==
                            if field == Some(g) && Decode(g)(value).Some? then Some(value) else Raw(lines[..i], g)
    {
      RawNext(lines, i, g);
    }
    if field.Some? && Decode(field.value)(value).Some? {
      assert Raw(lines[..i + 1], field.value).Some?;
    } else if HasFields(lines[..i + 1]) {
      var f: Field :| Raw(lines[..i + 1], f).Some?;
      assert Raw(lines[..i], f).Some?;
    }
    if HasFields(lines[..i]) {
      var f: Field :| Raw(lines[..i], f).Some?;
      assert Raw(lines[..i + 1], f).Some?;
    }
  }

  lemma NothingGathered()
    ensures Gathered([]) == EMPTY && !HasFields([])
  {}

  /** `ParseMRFields`. */
  method ParseMRFields(issue: Option<string>) returns (r: Option<MergeRequest>)
    ensures r == if issue.Some? then Parsed(issue.value) else None
  {
    hide Gathered, HasFields, FieldOf, ScanInt;
    if issue.None? {
      return None;
    }
    var fields, hasFields := EMPTY, false;
    var lines := Split(issue.value, '\n');
    NothingGathered();
    for i := 0 to |lines|
      invariant fields == Gathered(lines[..i]) && hasFields == HasFields(lines[..i])
    {
      var line := TrimSpace(lines[i]);
      var colon := IndexOf(line, ':');
      if line == "" || colon == -1 {
        GatheredNext(lines, i, None, "");
        continue;
      }
      var key, value := TrimSpace(line[..colon]), TrimSpace(line[colon + 1..]);
      var field := FieldOf(ToLower(key));
      GatheredNext(lines, i, field, value);
      if value == "" || field.None? {
        continue;
      }
      if field == Some(RetryCount) {
        var n := ScanInt(value);
        if n.Some? {
          fields, hasFields := fields.(retryCount := n.value), true;
        }
      } else {
        fields, hasFields := fields.(texts := fields.texts[field.value := value]), true;
      }
    }
    assert lines[..|lines|] == lines;
    r := if !hasFields then None else Some(fields);
  }

  /** `FormatMRFields`: a line for each field that has a value, in schema order. */
  function FormatMRFields(m: MergeRequest): string {
    Join(Block(SCHEMA, Values(m)), '\n')
  }

  lemma FirstRows(m: MergeRequest)
    ensures Rows(SCHEMA, Values(m), 7) ==
            Row("branch", TextOf(m, Branch)) + Row("target", TextOf(m, Target)) + Row("source_issue", TextOf(m, SourceIssue)) +
            Row("worker", TextOf(m, Worker)) + Row("rig", TextOf(m, Rig)) + Row("merge_commit", TextOf(m, MergeCommit)) +
            Row("close_reason", TextOf(m, CloseReason))
  {
    hide Row, TextOf, FieldOf;
    var v := Values(m);
    assert [] + Row("branch", TextOf(m, Branch)) == Row("branch", TextOf(m, Branch));
    assert Rows(SCHEMA, v, 1) == [] + Row("branch", TextOf(m, Branch));
    assert Rows(SCHEMA, v, 2) == Rows(SCHEMA, v, 1) + Row("target", TextOf(m, Target));
    assert Rows(SCHEMA, v, 3) == Rows(SCHEMA, v, 2) + Row("source_issue", TextOf(m, SourceIssue));
    assert Rows(SCHEMA, v, 4) == Rows(SCHEMA, v, 3) + Row("worker", TextOf(m, Worker));
    assert Rows(SCHEMA, v, 5) == Rows(SCHEMA, v, 4) + Row("rig", TextOf(m, Rig));
    assert Rows(SCHEMA, v, 6) == Rows(SCHEMA, v, 5) + Row("merge_commit", TextOf(m, MergeCommit));
    assert Rows(SCHEMA, v, 7) == Rows(SCHEMA, v, 6) + Row("close_reason", TextOf(m, CloseReason));
  }

  /** The lines of a merge request, key by key. */
  lemma FormatIs(m: MergeRequest)
    ensures FormatMRFields(m) ==
            Join(Row("branch", TextOf(m, Branch)) + Row("target", TextOf(m, Target)) + Row("source_issue", TextOf(m, SourceIssue)) +
                 Row("worker", TextOf(m, Worker)) + Row("rig", TextOf(m, Rig)) + Row("merge_commit", TextOf(m, MergeCommit)) +
                 Row("close_reason", TextOf(m, CloseReason)) + Row("agent_bead", TextOf(m, AgentBead)) +
                 Row("retry_count", if m.retryCount > 0 then Itoa(m.retryCount) else "") +
                 Row("last_conflict_sha", TextOf(m, LastConflictSHA)) + Row("conflict_task_id", TextOf(m, ConflictTaskID)) +
                 Row("convoy_id", TextOf(m, ConvoyID)) + Row("convoy_created_at", TextOf(m, ConvoyCreatedAt)), '\n')
  {
    hide Row, TextOf, FieldOf, Join, Itoa;
    var v := Values(m);
    FirstRows(m);
    assert Rows(SCHEMA, v, 8) == Rows(SCHEMA, v, 7) + Row("agent_bead", TextOf(m, AgentBead));
    assert Rows(SCHEMA, v, 9) == Rows(SCHEMA, v, 8) + Row("retry_count", if m.retryCount > 0 then Itoa(m.retryCount) else "");
    assert Rows(SCHEMA, v, 10) == Rows(SCHEMA, v, 9) + Row("last_conflict_sha", TextOf(m, LastConflictSHA));
    assert Rows(SCHEMA, v, 11) == Rows(SCHEMA, v, 10) + Row("conflict_task_id", TextOf(m, ConflictTaskID));
    assert Rows(SCHEMA, v, 12) == Rows(SCHEMA, v, 11) + Row("convoy_id", TextOf(m, ConvoyID));
    assert Rows(SCHEMA, v, 13) == Rows(SCHEMA, v, 12) + Row("convoy_created_at", TextOf(m, ConvoyCreatedAt));
  }

  lemma {:induction false} NothingWritten(n: nat)
    requires n <= |SCHEMA.fields|
    ensures Rows(SCHEMA, Values(EMPTY), n) == []
  {
    hide KeyOf, FieldOf;
    if n > 0 { NothingWritten(n - 1); }
  }

  /** `SetMRFields`. */
  method SetMRFields(issue: Option<string>, fields: Option<MergeRequest>) returns (r: string)
    ensures r == Updated(issue.GetOr(""), fields)
  {
    ghost var values := Values(fields.GetOr(EMPTY));
    BlockEmptyIff(SCHEMA, values);
    EmptyKept(SCHEMA);
    NothingWritten(|SCHEMA.fields|);
    hide Kept, Rows;
    var formatted := if fields.None? then "" else FormatMRFields(fields.value);
    if issue.None? {
      return formatted;
    }
    r := ReplaceBlock(issue.value, SCHEMA, formatted, values);
  }

  // ----- laws -----

  /** No text spans lines. */
  predicate OneLineEach(m: MergeRequest) {
    forall f | f in m.texts :: Free(m.texts[f], '\n')
  }

  predicate CleanText(s: string) {
    s != "" && Trimmed(s) && Free(s, '\n')
  }

  /** Every text is one trimmed line and the retry count is not negative. */
  predicate Clean(m: MergeRequest) {
    && (forall f | f in m.texts :: f != RetryCount && CleanText(m.texts[f]))
    && 0 <= m.retryCount <= MAX_INT
  }

  lemma ValuesAreOneLine(m: MergeRequest)
    requires OneLineEach(m)
    ensures OneLine(SCHEMA, Values(m))
  {
    ItoaPlain(m.retryCount);
  }

  lemma RawAfterSet(text: string, m: MergeRequest, f: Field)
    requires OneLineEach(m) && (f != RetryCount ==> Trimmed(TextOf(m, f))) && m.retryCount <= MAX_INT
    ensures Raw(Split(Put(text, SCHEMA, Values(m)), '\n'), f) == NonEmpty(ValueOf(m, f))
  {
    hide FieldOf, KeyOf;
    SchemaIsProper();
    ValuesAreOneLine(m);
    AllFields(f);
    FindAfterPut(text, SCHEMA, Values(m), f, Decode(f));
    if f == RetryCount && m.retryCount > 0 {
      ItoaPlain(m.retryCount);
      ItoaRoundTrip(m.retryCount);
    }
    TrimSpaceTrims(ValueOf(m, f));
  }

  /** What was set is what is parsed, on every description (nil when nothing was set). */
  lemma SetThenParse(text: string, m: MergeRequest)
    requires Clean(m)
    ensures Parsed(Updated(text, Some(m))) == if m == EMPTY then None else Some(m)
  {
    var lines := Split(Updated(text, Some(m)), '\n');
    forall f: Field ensures Raw(lines, f) == NonEmpty(ValueOf(m, f)) { RawAfterSet(text, m, f); }
    hide Updated, Split, Raw, Clean, ValueOf, HasFields, Gathered;
    GatherWritten(lines, m);
  }

  lemma GatherWritten(lines: seq<string>, m: MergeRequest)
    requires Clean(m) && forall f: Field :: Raw(lines, f) == NonEmpty(ValueOf(m, f))
    ensures Gathered(lines) == m && (HasFields(lines) <==> m != EMPTY)
  {
    hide Raw, ScanInt, Itoa;
    CountReads(m);
    assert Gathered(lines).texts == m.texts;
    if m.retryCount > 0 {
      ItoaPlain(m.retryCount);
      assert Raw(lines, RetryCount).Some?;
    } else if f: Field :| f in m.texts {
      assert Raw(lines, f).Some?;
    }
  }

  lemma CountReads(m: MergeRequest)
    requires 0 <= m.retryCount <= MAX_INT
    ensures ScanInt(NonEmpty(ValueOf(m, RetryCount)).GetOr("")).GetOr(0) == m.retryCount
  {
    ItoaRoundTrip(m.retryCount);
  }

  lemma ParsedTextsAreClean(text: string)
    ensures Parsed(text).Some? ==> forall f | f in Parsed(text).value.texts ::
              f != RetryCount && CleanText(Parsed(text).value.texts[f])
    ensures Parsed(text).Some? ==> InRange(Parsed(text).value.retryCount)
  {
    var lines := Split(text, '\n');
    hide Split, FieldOf, Trimmed, Free;
    RawIsDecoded(lines, RetryCount);
    hide ScanInt;
    forall f: Field ensures Raw(lines, f).Some? ==> CleanText(Raw(lines, f).value) {
      FoundIsClean(text, SCHEMA, f, Decode(f));
      RawIsDecoded(lines, f);
    }
    CountInRange(lines);
  }

  lemma CountInRange(lines: seq<string>)
    ensures InRange(Gathered(lines).retryCount)
  {}

  /** Round trips work for exactly the records whose texts are one trimmed line each and
      whose retry count is not negative. */
  lemma SetThenParseIff(text: string, m: MergeRequest)
    ensures Parsed(Updated(text, Some(m))) == (if m == EMPTY then None else Some(m)) <==> Clean(m)
  {
    if Clean(m) {
      SetThenParse(text, m);
    } else if Parsed(Updated(text, Some(m))) == Some(m) {
      ParsedTextsAreClean(Updated(text, Some(m)));
      RawAfterSet(text, m, RetryCount);
    }
  }

  /** Setting twice is setting once, byte for byte. */
  lemma SetThenSet(text: string, m: MergeRequest, n: Option<MergeRequest>)
    requires OneLineEach(m)
    ensures Updated(Updated(text, Some(m)), n) == Updated(text, n)
  {
    SchemaIsProper();
    ValuesAreOneLine(m);
    PutAfterPut(text, SCHEMA, Values(m), Values(n.GetOr(EMPTY)));
  }

  /** Writing back what was parsed loses nothing exactly when the retry count found is not
      negative and is not all there is, being zero. */
  lemma ParseThenSet(text: string)
    ensures Parsed(Updated(text, Parsed(text))) == Parsed(text) <==>
            Parsed(text).None? || (Parsed(text) != Some(EMPTY) && Parsed(text).value.retryCount >= 0)
  {
    var m := Parsed(text).GetOr(EMPTY);
    ParsedTextsAreClean(text);
    SetThenParseIff(text, m);
    hide Parsed, Updated;
    if Parsed(text).None? {
      assert Updated(text, None) == Updated(text, Some(EMPTY)) by { NoneWritesNothing(text); }
    }
  }

  lemma NoneWritesNothing(text: string)
    ensures Updated(text, None) == Updated(text, Some(EMPTY))
  {}

  /** Everything else in the description survives, in order, up to blank lines at the ends. */
  lemma SetKeepsTheRest(text: string, m: MergeRequest)
    requires OneLineEach(m)
    ensures Kept(Updated(text, Some(m)), SCHEMA) == Kept(text, SCHEMA)
  {
    SchemaIsProper();
    ValuesAreOneLine(m);
    KeptAfterPut(text, SCHEMA, Values(m));
  }
}
