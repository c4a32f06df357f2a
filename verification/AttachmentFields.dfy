/** The attachment block of a pinned bead's description. */
module AttachmentFields {
  import opened Text
  import opened Lines
  import opened FieldBlock

  datatype Attachment = Attachment(molecule: string, at: string, args: string, dispatchedBy: string, noMerge: bool)

  datatype Field = Molecule | At | Args | DispatchedBy | NoMerge

  function KeyOf(f: Field): string {
    match f
    case Molecule => "attached_molecule"
    case At => "attached_at"
    case Args => "attached_args"
    case DispatchedBy => "dispatched_by"
    case NoMerge => "no_merge"
  }

  function FieldOf(key: string): Option<Field> {
    match key
    case "attached_molecule" => Some(Molecule)
    case "attached-molecule" => Some(Molecule)
    case "attachedmolecule" => Some(Molecule)
    case "attached_at" => Some(At)
    case "attached-at" => Some(At)
    case "attachedat" => Some(At)
    case "attached_args" => Some(Args)
    case "attached-args" => Some(Args)
    case "attachedargs" => Some(Args)
    case "dispatched_by" => Some(DispatchedBy)
    case "dispatched-by" => Some(DispatchedBy)
    case "dispatchedby" => Some(DispatchedBy)
    case "no_merge" => Some(NoMerge)
    case "no-merge" => Some(NoMerge)
    case "nomerge" => Some(NoMerge)
    case _ => None
  }

  const SCHEMA: Schema<Field> := Schema([Molecule, At, Args, DispatchedBy, NoMerge], KeyOf, FieldOf)

  /** Empty values are skipped by the parser. */
  function NonEmpty(v: string): Option<string> {
    if v == "" then None else Some(v)
  }

  function ValueOf(a: Attachment, f: Field): string {
    match f
    case Molecule => a.molecule
    case At => a.at
    case Args => a.args
    case DispatchedBy => a.dispatchedBy
    case NoMerge => if a.noMerge then "true" else ""
  }

  function Values(a: Attachment): Field -> string {
    f => ValueOf(a, f)
  }

  const EMPTY := Attachment("", "", "", "", false)

  // ----- what the functions compute -----

  function Raw(lines: seq<string>, f: Field): Option<string> {
    Find(lines, SCHEMA, f, NonEmpty)
  }

  predicate HasFields(lines: seq<string>) {
    Raw(lines, Molecule).Some? || Raw(lines, At).Some? || Raw(lines, Args).Some? ||
    Raw(lines, DispatchedBy).Some? || Raw(lines, NoMerge).Some?
  }

  function Gathered(lines: seq<string>): Attachment {
    Attachment(Raw(lines, Molecule).GetOr(""), Raw(lines, At).GetOr(""), Raw(lines, Args).GetOr(""),
               Raw(lines, DispatchedBy).GetOr(""), ToLower(Raw(lines, NoMerge).GetOr("")) == "true")
  }

  /** The attachment a description holds: for each field its last non-empty occurrence. */
  function Parsed(text: string): Option<Attachment> {
    var lines := Split(text, '\n');
    if HasFields(lines) then Some(Gathered(lines)) else None
  }

  /** The description with its attachment replaced; None writes no block. */
  function Updated(text: string, a: Option<Attachment>): string {
    Put(text, SCHEMA, Values(a.GetOr(EMPTY)))
  }

  lemma KeyIsPlain(f: Field)
    ensures PlainKey(KeyOf(f))
  {}

  lemma KeyIsRead(f: Field)
    ensures FieldOf(KeyOf(f)) == Some(f)
  {}

  lemma SchemaIsProper()
    ensures Proper(SCHEMA)
  {
    hide PlainKey, KeyOf, FieldOf;
    forall f | f in SCHEMA.fields ensures PlainKey(SCHEMA.keyOf(f)) && SCHEMA.fieldOf(SCHEMA.keyOf(f)) == Some(f) {
      KeyIsPlain(f);
      KeyIsRead(f);
    }
  }

  /** What one more line adds to what is known of a field. */
  lemma RawNext(lines: seq<string>, i: nat, f: Field)
    requires i < |lines|
    ensures Raw(lines[..i + 1], f) ==
            var e := Entry(lines[i]);
            if e.Some? && FieldOf(e.value.0) == Some(f) && e.value.1 != "" then Some(e.value.1) else Raw(lines[..i], f)
  {
    FindNext(lines, i, SCHEMA, f, NonEmpty);
  }

  /** Empty values are never what is found. */
  lemma RawIsNotEmpty(lines: seq<string>, f: Field)
    ensures Raw(lines, f).Some? ==> Raw(lines, f).value != ""
  {
    FoundIsDecoded(lines, SCHEMA, f, NonEmpty);
  }

  // ----- the methods -----

  /** `ParseAttachmentFields`. */
  method ParseAttachmentFields(issue: Option<string>) returns (r: Option<Attachment>)
    ensures r == if issue.Some? then Parsed(issue.value) else None
  {
    if issue.None? {
      return None;
    }
    var fields, hasFields := EMPTY, false;
    var lines := Split(issue.value, '\n');
    for i := 0 to |lines|
      invariant fields == Gathered(lines[..i]) && hasFields == HasFields(lines[..i])
    {
      hide Raw, FieldOf, ToLower;
      RawNext(lines, i, Molecule);
      RawNext(lines, i, At);
      RawNext(lines, i, Args);
      RawNext(lines, i, DispatchedBy);
      RawNext(lines, i, NoMerge);
      var line := TrimSpace(lines[i]);
      var colon := IndexOf(line, ':');
      if line == "" || colon == -1 {
        continue;
      }
      var key, value := TrimSpace(line[..colon]), TrimSpace(line[colon + 1..]);
      if value == "" {
        continue;
      }
      match FieldOf(ToLower(key)) {
        case Some(Molecule) => fields, hasFields := fields.(molecule := value), true;
        case Some(At) => fields, hasFields := fields.(at := value), true;
        case Some(Args) => fields, hasFields := fields.(args := value), true;
        case Some(DispatchedBy) => fields, hasFields := fields.(dispatchedBy := value), true;
        case Some(NoMerge) => fields, hasFields := fields.(noMerge := ToLower(value) == "true"), true;
        case None =>
      }
    }
    assert lines[..|lines|] == lines;
    r := if !hasFields then None else Some(fields);
  }

  /** `FormatAttachmentFields`. */
  function FormatAttachmentFields(a: Attachment): string {
    Join(Row("attached_molecule", a.molecule) + Row("attached_at", a.at) + Row("attached_args", a.args) +
         Row("dispatched_by", a.dispatchedBy) + Row("no_merge", if a.noMerge then "true" else ""), '\n')
  }

  lemma FormatIsBlock(a: Attachment)
    ensures FormatAttachmentFields(a) == Join(Block(SCHEMA, Values(a)), '\n')
  {
    BlockIs(a);
    hide Row, Block, Join;
  }

  lemma BlockIs(a: Attachment)
    ensures Block(SCHEMA, Values(a)) ==
            Row("attached_molecule", a.molecule) + Row("attached_at", a.at) + Row("attached_args", a.args) +
            Row("dispatched_by", a.dispatchedBy) + Row("no_merge", if a.noMerge then "true" else "")
  {
    hide Row;
    var v := Values(a);
    assert [] + Row("attached_molecule", a.molecule) == Row("attached_molecule", a.molecule);
    assert Rows(SCHEMA, v, 1) == [] + Row("attached_molecule", a.molecule);
    assert Rows(SCHEMA, v, 2) == Rows(SCHEMA, v, 1) + Row("attached_at", a.at);
    assert Rows(SCHEMA, v, 3) == Rows(SCHEMA, v, 2) + Row("attached_args", a.args);
    assert Rows(SCHEMA, v, 4) == Rows(SCHEMA, v, 3) + Row("dispatched_by", a.dispatchedBy);
    assert Rows(SCHEMA, v, 5) == Rows(SCHEMA, v, 4) + Row("no_merge", if a.noMerge then "true" else "");
  }

  /** `SetAttachmentFields`. */
  method SetAttachmentFields(issue: Option<string>, fields: Option<Attachment>) returns (r: string)
    ensures r == Updated(issue.GetOr(""), fields)
  {
    ghost var values := Values(fields.GetOr(EMPTY));
    FormatIsBlock(fields.GetOr(EMPTY));
    BlockEmptyIff(SCHEMA, values);
    assert FormatAttachmentFields(EMPTY) == "";
    var formatted := if fields.None? then "" else FormatAttachmentFields(fields.value);
    r := ReplaceBlock(issue.GetOr(""), SCHEMA, formatted, values);
  }

  /** What is written: the lines in their order, key by key, and after them the rest of the text. */
  lemma UpdatedIs(text: string, a: Attachment)
    ensures Updated(text, Some(a)) ==
            Compose(Row("attached_molecule", a.molecule) + Row("attached_at", a.at) + Row("attached_args", a.args) +
                    Row("dispatched_by", a.dispatchedBy) + Row("no_merge", if a.noMerge then "true" else ""),
                    Kept(text, SCHEMA))
  {
    BlockIs(a);
    hide Compose, Kept, Row, Block;
  }

  // ----- laws -----

  /** Every value is one trimmed line. */
  predicate Clean(a: Attachment) {
    && Trimmed(a.molecule) && Free(a.molecule, '\n') && Trimmed(a.at) && Free(a.at, '\n')
    && Trimmed(a.args) && Free(a.args, '\n') && Trimmed(a.dispatchedBy) && Free(a.dispatchedBy, '\n')
  }

  predicate OneLineEach(a: Attachment) {
    Free(a.molecule, '\n') && Free(a.at, '\n') && Free(a.args, '\n') && Free(a.dispatchedBy, '\n')
  }

  lemma CleanIsOneLine(a: Attachment)
    requires OneLineEach(a)
    ensures OneLine(SCHEMA, Values(a))
  {
    forall s | s in SCHEMA.fields ensures Free(Values(a)(s), '\n') {
      match s {
        case Molecule =>
        case At =>
        case Args =>
        case DispatchedBy =>
        case NoMerge =>
      }
    }
  }

  lemma RawAfterSet(text: string, a: Attachment, f: Field)
    requires Clean(a)
    ensures Raw(Split(Put(text, SCHEMA, Values(a)), '\n'), f) == NonEmpty(ValueOf(a, f))
  {
    SchemaIsProper();
    CleanIsOneLine(a);
    assert f in SCHEMA.fields;
    FindAfterPut(text, SCHEMA, Values(a), f, NonEmpty);
    TrimSpaceTrims(ValueOf(a, f));
  }

  /** What was set is what is parsed, on every description (nil when nothing was set). */
  lemma SetThenParse(text: string, a: Attachment)
    requires Clean(a)
    ensures Parsed(Updated(text, Some(a))) == if a == EMPTY then None else Some(a)
  {
    hide Put, Split, Raw;
    forall f: Field { RawAfterSet(text, a, f); }
    assert ToLower("true") == "true" && ToLower("") == "";
  }

  lemma ParsedIsClean(text: string)
    ensures Parsed(text).Some? ==> Clean(Parsed(text).value)
  {
    forall f: Field ensures Trimmed(Raw(Split(text, '\n'), f).GetOr("")) && Free(Raw(Split(text, '\n'), f).GetOr(""), '\n') {
      FoundIsClean(text, SCHEMA, f, NonEmpty);
    }
  }

  /** Round trips work for exactly the values that are one trimmed line each. */
  lemma SetThenParseIff(text: string, a: Attachment)
    ensures Parsed(Updated(text, Some(a))) == (if a == EMPTY then None else Some(a)) <==> Clean(a)
  {
    if Clean(a) {
      SetThenParse(text, a);
    }
    ParsedIsClean(Updated(text, Some(a)));
  }

  /** Setting twice is setting once, byte for byte. */
  lemma SetThenSet(text: string, a: Attachment, b: Option<Attachment>)
    requires OneLineEach(a)
    ensures Updated(Updated(text, Some(a)), b) == Updated(text, b)
  {
    SchemaIsProper();
    CleanIsOneLine(a);
    PutAfterPut(text, SCHEMA, Values(a), Values(b.GetOr(EMPTY)));
  }

  /** Writing back what was parsed changes nothing a parse can see, unless all that was
      found is a no_merge other than true: that block disappears. */
  lemma ParseThenSet(text: string)
    ensures Parsed(Updated(text, Parsed(text))) == Parsed(text) <==> Parsed(text) != Some(EMPTY)
  {
    ParsedIsClean(text);
    SetThenParse(text, Parsed(text).GetOr(EMPTY));
  }

  /** Everything else in the description survives, in order, up to blank lines at the ends. */
  lemma SetKeepsTheRest(text: string, a: Attachment)
    requires OneLineEach(a)
    ensures Kept(Updated(text, Some(a)), SCHEMA) == Kept(text, SCHEMA)
  {
    SchemaIsProper();
    CleanIsOneLine(a);
    KeptAfterPut(text, SCHEMA, Values(a));
  }
}
