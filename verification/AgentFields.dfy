/** The description text of an agent bead: a title, a blank line and seven fields. */
module AgentFields {
  import opened Text
  import opened Lines
  import opened FieldBlock
  import opened FieldSheet

  datatype Agent = Agent(
    roleType: string, rig: string, agentState: string, hookBead: string,
    cleanupStatus: string, activeMR: string, notificationLevel: string)

  datatype Field = RoleType | Rig | AgentState | HookBead | CleanupStatus | ActiveMR | NotificationLevel

  const EMPTY := Agent("", "", "", "", "", "", "")

  function KeyOf(f: Field): string {
    match f
    case RoleType => "role_type"
    case Rig => "rig"
    case AgentState => "agent_state"
    case HookBead => "hook_bead"
    case CleanupStatus => "cleanup_status"
    case ActiveMR => "active_mr"
    case NotificationLevel => "notification_level"
  }

  /** The key role_bead of older descriptions is ignored like any unknown key. */
  function FieldOf(key: string): Option<Field> {
    match key
    case "role_type" => Some(RoleType)
    case "rig" => Some(Rig)
    case "agent_state" => Some(AgentState)
    case "hook_bead" => Some(HookBead)
    case "cleanup_status" => Some(CleanupStatus)
    case "active_mr" => Some(ActiveMR)
    case "notification_level" => Some(NotificationLevel)
    case _ => None
  }

  const SCHEMA: Schema<Field> := Schema(
    [RoleType, Rig, AgentState, HookBead, CleanupStatus, ActiveMR, NotificationLevel], KeyOf, FieldOf)

  function Get(a: Agent, f: Field): string {
    match f
    case RoleType => a.roleType
    case Rig => a.rig
    case AgentState => a.agentState
    case HookBead => a.hookBead
    case CleanupStatus => a.cleanupStatus
    case ActiveMR => a.activeMR
    case NotificationLevel => a.notificationLevel
  }

  // ----- what the functions compute -----

  function Raw(lines: seq<string>, f: Field): Option<string> {
    Find(lines, SCHEMA, f, Read)
  }

  function Gathered(lines: seq<string>): Agent {
    Agent(Raw(lines, RoleType).GetOr(""), Raw(lines, Rig).GetOr(""), Raw(lines, AgentState).GetOr(""),
          Raw(lines, HookBead).GetOr(""), Raw(lines, CleanupStatus).GetOr(""), Raw(lines, ActiveMR).GetOr(""),
          Raw(lines, NotificationLevel).GetOr(""))
  }

  /** The agent a description holds: each field's last occurrence, null standing for empty. */
  function Parsed(description: string): Agent {
    Gathered(Split(description, '\n'))
  }

  /** An empty value is written as null, except for role_type and agent_state. */
  function Shown(a: Agent, f: Field): string {
    if f == RoleType || f == AgentState then Get(a, f) else OrNull(Get(a, f))
  }

  function Values(a: Agent): Field -> string {
    f => Shown(a, f)
  }

  /** The description of an agent bead; without fields it is the bare title. */
  function Description(title: string, fields: Option<Agent>): string {
    match fields
    case None => title
    case Some(a) => Sheet(title, SCHEMA, Values(a))
  }

  // ----- the methods -----

  /** `FormatAgentDescription`. */
  method FormatAgentDescription(title: string, fields: Option<Agent>) returns (r: string)
    ensures r == Description(title, fields)
  {
    if fields.None? {
      return title;
    }
    hide Line;
    var a := fields.value;
    var lines := [title, ""];
    lines := lines + [Line("role_type", a.roleType)];
    lines := lines + [Line("rig", OrNull(a.rig))];
    lines := lines + [Line("agent_state", a.agentState)];
    lines := lines + [Line("hook_bead", OrNull(a.hookBead))];
    lines := lines + [Line("cleanup_status", OrNull(a.cleanupStatus))];
    lines := lines + [Line("active_mr", OrNull(a.activeMR))];
    lines := lines + [Line("notification_level", OrNull(a.notificationLevel))];
    SevenLines(a);
    hide FieldLines, OrNull;
    assert lines == [title, ""] + FieldLines(SCHEMA, Values(a), 7);
    r := Join(lines, '\n');
  }

  lemma FourLines(a: Agent)
    ensures FieldLines(SCHEMA, Values(a), 4) ==
            [Line("role_type", a.roleType), Line("rig", OrNull(a.rig)), Line("agent_state", a.agentState),
             Line("hook_bead", OrNull(a.hookBead))]
  {
    hide Line, OrNull;
    var v := Values(a);
    assert FieldLines(SCHEMA, v, 0) == [];
    assert FieldLines(SCHEMA, v, 1) == [Line("role_type", a.roleType)];
    assert FieldLines(SCHEMA, v, 2) == FieldLines(SCHEMA, v, 1) + [Line("rig", OrNull(a.rig))];
    assert FieldLines(SCHEMA, v, 3) == FieldLines(SCHEMA, v, 2) + [Line("agent_state", a.agentState)];
  }

  lemma SevenLines(a: Agent)
    ensures FieldLines(SCHEMA, Values(a), 7) ==
            [Line("role_type", a.roleType), Line("rig", OrNull(a.rig)), Line("agent_state", a.agentState),
             Line("hook_bead", OrNull(a.hookBead)), Line("cleanup_status", OrNull(a.cleanupStatus)),
             Line("active_mr", OrNull(a.activeMR)), Line("notification_level", OrNull(a.notificationLevel))]
  {
    hide Line, OrNull;
    var v := Values(a);
    FourLines(a);
    assert FieldLines(SCHEMA, v, 5) == FieldLines(SCHEMA, v, 4) + [Line("cleanup_status", OrNull(a.cleanupStatus))];
    assert FieldLines(SCHEMA, v, 6) == FieldLines(SCHEMA, v, 5) + [Line("active_mr", OrNull(a.activeMR))];
  }

  /** The description line by line: only role type and state may be written empty. */
  lemma DescriptionIs(title: string, a: Agent)
    ensures Description(title, None) == title
    ensures Description(title, Some(a)) ==
            Join([title, "",
                  "role_type" + ": " + a.roleType,
                  "rig" + ": " + (if a.rig == "" then "null" else a.rig),
                  "agent_state" + ": " + a.agentState,
                  "hook_bead" + ": " + (if a.hookBead == "" then "null" else a.hookBead),
                  "cleanup_status" + ": " + (if a.cleanupStatus == "" then "null" else a.cleanupStatus),
                  "active_mr" + ": " + (if a.activeMR == "" then "null" else a.activeMR),
                  "notification_level" + ": " + (if a.notificationLevel == "" then "null" else a.notificationLevel)], '\n')
  {
    SevenLines(a);
    assert |SCHEMA.fields| == 7;
    hide FieldLines, Join;
    assert Description(title, Some(a)) == Join([title, ""] + FieldLines(SCHEMA, Values(a), 7), '\n');
  }

  lemma RawNext(lines: seq<string>, i: nat, f: Field)
    requires i < |lines|
    ensures Raw(lines[..i + 1], f) ==
            var e := Entry(lines[i]);
            if e.Some? && FieldOf(e.value.0) == Some(f) then Some(Unnull(e.value.1)) else Raw(lines[..i], f)
  {
    FindNext(lines, i, SCHEMA, f, Read);
  }

  /** `ParseAgentFields`. */
  method ParseAgentFields(description: string) returns (fields: Agent)
    ensures fields == Parsed(description)
  {
    fields := EMPTY;
    var lines := Split(description, '\n');
    for i := 0 to |lines|
      invariant fields == Gathered(lines[..i])
    {
      hide Raw, FieldOf;
      RawNext(lines, i, RoleType);
      RawNext(lines, i, Rig);
      RawNext(lines, i, AgentState);
      RawNext(lines, i, HookBead);
      RawNext(lines, i, CleanupStatus);
      RawNext(lines, i, ActiveMR);
      RawNext(lines, i, NotificationLevel);
      var line := TrimSpace(lines[i]);
      if line == "" {
        continue;
      }
      var colon := IndexOf(line, ':');
      if colon == -1 {
        continue;
      }
      var key, value := TrimSpace(line[..colon]), TrimSpace(line[colon + 1..]);
      if value == "null" || value == "" {
        value := "";
      }
      match FieldOf(ToLower(key)) {
        case Some(RoleType) => fields := fields.(roleType := value);
        case Some(Rig) => fields := fields.(rig := value);
        case Some(AgentState) => fields := fields.(agentState := value);
        case Some(HookBead) => fields := fields.(hookBead := value);
        case Some(CleanupStatus) => fields := fields.(cleanupStatus := value);
        case Some(ActiveMR) => fields := fields.(activeMR := value);
        case Some(NotificationLevel) => fields := fields.(notificationLevel := value);
        case None =>
      }
    }
    assert lines[..|lines|] == lines;
  }

  // ----- laws -----

  lemma LongKeyIsPlain(f: Field)
    requires f.CleanupStatus? || f.NotificationLevel?
    ensures PlainKey(KeyOf(f))
  {}

  lemma ShortKeyIsPlain(f: Field)
    requires !f.CleanupStatus? && !f.NotificationLevel?
    ensures PlainKey(KeyOf(f))
  {}

  lemma KeyIsPlain(f: Field)
    ensures PlainKey(KeyOf(f))
  {
    hide PlainKey, KeyOf;
    if f.CleanupStatus? || f.NotificationLevel? {
      LongKeyIsPlain(f);
    } else {
      ShortKeyIsPlain(f);
    }
  }

  lemma KeyIsRead(f: Field)
    ensures FieldOf(KeyOf(f)) == Some(f)
  {}

  lemma AllFields(f: Field)
    ensures f in SCHEMA.fields
  {
    assert SCHEMA.fields[0] == RoleType && SCHEMA.fields[1] == Rig && SCHEMA.fields[2] == AgentState;
    assert SCHEMA.fields[3] == HookBead && SCHEMA.fields[4] == CleanupStatus;
    assert SCHEMA.fields[5] == ActiveMR && SCHEMA.fields[6] == NotificationLevel;
  }

  function SettledAll(a: Agent): Agent {
    Agent(Settled(a.roleType), Settled(a.rig), Settled(a.agentState), Settled(a.hookBead),
          Settled(a.cleanupStatus), Settled(a.activeMR), Settled(a.notificationLevel))
  }

  predicate OneLineEach(a: Agent) {
    forall f: Field :: Free(Get(a, f), '\n')
  }

  /** Every value is one trimmed line and none is the word null. */
  predicate Clean(a: Agent) {
    forall f: Field :: CleanText(Get(a, f))
  }

  lemma SchemaIsProper()
    ensures Proper(SCHEMA)
  {
    hide PlainKey, KeyOf, FieldOf;
    forall f | f in SCHEMA.fields ensures PlainKey(SCHEMA.keyOf(f)) && SCHEMA.fieldOf(SCHEMA.keyOf(f)) == Some(f) {
      KeyIsPlain(f);
      KeyIsRead(f);
    }
  }

  lemma ShownIsOneLine(a: Agent)
    requires OneLineEach(a)
    ensures OneLine(SCHEMA, Values(a))
  {
    forall f | f in SCHEMA.fields ensures Free(Values(a)(f), '\n') {
      assert Free(Get(a, f), '\n');
    }
  }

  lemma RawOfDescription(title: string, a: Agent, f: Field)
    requires OneLineEach(a)
    ensures Raw(Split(Description(title, Some(a)), '\n'), f) == Some(Settled(Get(a, f)))
  {
    SchemaIsProper();
    ShownIsOneLine(a);
    AllFields(f);
    OrNullSettles(Get(a, f));
    hide KeyOf, FieldOf, OneLineEach, Proper, OneLine, TrimSpace, Sheet, Split, OrNull, Unnull;
    FindInSheet(title, SCHEMA, Values(a), f, Read);
  }

  /** Reading back a formatted description gives every value trimmed, null as empty,
      whatever the title says. */
  lemma FormatThenParse(title: string, a: Agent)
    requires OneLineEach(a)
    ensures Parsed(Description(title, Some(a))) == SettledAll(a)
  {
    hide Raw, Description, Split, Settled;
    RawOfDescription(title, a, RoleType);
    RawOfDescription(title, a, Rig);
    RawOfDescription(title, a, AgentState);
    RawOfDescription(title, a, HookBead);
    RawOfDescription(title, a, CleanupStatus);
    RawOfDescription(title, a, ActiveMR);
    RawOfDescription(title, a, NotificationLevel);
  }

  lemma CleanSettlesAll(a: Agent)
    requires Clean(a)
    ensures SettledAll(a) == a && OneLineEach(a)
  {
    hide Settled, CleanText;
    forall f: Field ensures Settled(Get(a, f)) == Get(a, f) && Free(Get(a, f), '\n') {
      assert CleanText(Get(a, f));
      CleanSettles(Get(a, f));
    }
    assert SettledAll(a).rig == Settled(Get(a, Rig)) && SettledAll(a).roleType == Settled(Get(a, RoleType));
    assert SettledAll(a).agentState == Settled(Get(a, AgentState)) && SettledAll(a).hookBead == Settled(Get(a, HookBead));
    assert SettledAll(a).cleanupStatus == Settled(Get(a, CleanupStatus));
    assert SettledAll(a).activeMR == Settled(Get(a, ActiveMR));
    assert SettledAll(a).notificationLevel == Settled(Get(a, NotificationLevel));
  }

  /** What is parsed is always clean. */
  lemma ParsedIsClean(text: string)
    ensures Clean(Parsed(text))
  {
    hide CleanText, Split, Latest;
    forall f: Field ensures CleanText(Get(Parsed(text), f)) {
      FoundIsCleanText(text, SCHEMA, f);
    }
  }

  /** The round trip holds for exactly the clean records, under every title. */
  lemma FormatThenParseIff(title: string, a: Agent)
    ensures Parsed(Description(title, Some(a))) == a <==> Clean(a)
  {
    hide Description, Parsed, Clean, SettledAll, OneLineEach;
    ParsedIsClean(Description(title, Some(a)));
    if Clean(a) {
      CleanSettlesAll(a);
      FormatThenParse(title, a);
    }
  }
}
