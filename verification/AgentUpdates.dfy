/** What the writers of agent beads do to one bead, alone: on the stored text and, seen
    through the parser, on a record. */
module AgentUpdates {
  import opened Text
  import opened AgentFields
  import opened FieldSheet

  /** Fields to change; None leaves a field alone. */
  datatype Updates = Updates(cleanupStatus: Option<string>, activeMR: Option<string>, notificationLevel: Option<string>)

  predicate ValidLevel(u: Updates) {
    u.notificationLevel.Some? ==> u.notificationLevel.value in {"", "verbose", "normal", "muted"}
  }

  /** A request to `CreateOrReopenAgentBead`, `ResetAgentBeadForReuse`,
      `UpdateAgentDescriptionFields` or `CloseAndClearAgentBead`. */
  datatype Op =
    | Create(title: string, fields: Option<Agent>)
    | Reset
    | Update(updates: Updates)
    | Close

  /** The part of a bead the writers read, change and write back. */
  datatype Content = Content(title: string, description: string)

  function Cleared(a: Agent, agentState: string): Agent {
    a.(hookBead := "", activeMR := "", cleanupStatus := "", agentState := agentState)
  }

  function Updated(a: Agent, u: Updates): Agent {
    a.(cleanupStatus := u.cleanupStatus.GetOr(a.cleanupStatus), activeMR := u.activeMR.GetOr(a.activeMR),
       notificationLevel := u.notificationLevel.GetOr(a.notificationLevel))
  }

  /** The fields an operation other than Create writes, given the fields it read. */
  function Changed(op: Op, a: Agent): Agent {
    match op
    case Reset => Cleared(a, "nuked")
    case Close => Cleared(a, "closed")
    case Update(u) => Updated(a, u)
    case Create(_, _) => a
  }

  /** The content an operation writes over the content it read. */
  function Rewritten(op: Op, seen: Content): Content {
    match op
    case Create(title, fields) => Content(title, Description(title, fields))
    case _ => Content(seen.title, Description(seen.title, Some(Changed(op, Parsed(seen.description)))))
  }

  /** The content of a new bead: for a Create it does not matter what was there. */
  function Created(op: Op): Content {
    Rewritten(op, Content("", ""))
  }

  /** One operation after another: what a single process would leave behind. */
  function Replay(start: Option<Content>, ops: seq<Op>): Option<Content> {
    if ops == [] then start
    else
      var before, op := Replay(start, ops[..|ops| - 1]), ops[|ops| - 1];
      if before.Some? then Some(Rewritten(op, before.value))
      else if op.Create? then Some(Created(op))
      else None
  }

  // ----- the same on records -----

  predicate Settles(op: Op) {
    match op
    case Create(_, fields) => fields.Some? ==> OneLineEach(fields.value)
    case Update(u) => Free(u.cleanupStatus.GetOr(""), '\n') && Free(u.activeMR.GetOr(""), '\n') &&
                      Free(u.notificationLevel.GetOr(""), '\n')
    case _ => true
  }

  function SettledUpdates(u: Updates): Updates {
    Updates(if u.cleanupStatus.Some? then Some(Settled(u.cleanupStatus.value)) else None,
            if u.activeMR.Some? then Some(Settled(u.activeMR.value)) else None,
            if u.notificationLevel.Some? then Some(Settled(u.notificationLevel.value)) else None)
  }

  /** What an operation does to the record, as a reader of the bead sees it. */
  function OnRecord(op: Op, a: Agent): Agent {
    match op
    case Create(title, None) => Parsed(title)
    case Create(_, Some(fields)) => SettledAll(fields)
    case Update(u) => Updated(a, SettledUpdates(u))
    case _ => Changed(op, a)
  }

  function ReplayRecord(start: Agent, ops: seq<Op>): Agent {
    if ops == [] then start else OnRecord(ops[|ops| - 1], ReplayRecord(start, ops[..|ops| - 1]))
  }

  lemma WordsSettle()
    ensures Settled("") == "" && Settled("nuked") == "nuked" && Settled("closed") == "closed"
  {
    CleanSettles("nuked");
    CleanSettles("closed");
  }

  lemma FreeEach(a: Agent)
    ensures OneLineEach(a) <==>
            Free(a.roleType, '\n') && Free(a.rig, '\n') && Free(a.agentState, '\n') && Free(a.hookBead, '\n') &&
            Free(a.cleanupStatus, '\n') && Free(a.activeMR, '\n') && Free(a.notificationLevel, '\n')
  {
    assert OneLineEach(a) ==> Free(Get(a, RoleType), '\n') && Free(Get(a, Rig), '\n') && Free(Get(a, AgentState), '\n') &&
                              Free(Get(a, HookBead), '\n') && Free(Get(a, CleanupStatus), '\n') &&
                              Free(Get(a, ActiveMR), '\n') && Free(Get(a, NotificationLevel), '\n');
    hide Free;
  }

  lemma ChangedSettles(op: Op, a: Agent)
    requires Clean(a) && Settles(op) && !op.Create?
    ensures OneLineEach(Changed(op, a)) && SettledAll(Changed(op, a)) == OnRecord(op, a)
  {
    CleanSettlesAll(a);
    WordsSettle();
    FreeEach(a);
    FreeEach(Changed(op, a));
    assert Free("", '\n') && Free("nuked", '\n') && Free("closed", '\n');
    hide Settled, Free, OneLineEach, Clean;
  }

  /** Writing the changed text and reading it back is changing the record. */
  lemma RewrittenRefines(op: Op, seen: Content)
    requires Settles(op)
    ensures Parsed(Rewritten(op, seen).description) == OnRecord(op, Parsed(seen.description))
  {
    hide Parsed, Description, OneLineEach, SettledAll;
    if op.Create? {
      if op.fields.Some? {
        FormatThenParse(op.title, op.fields.value);
      } else {
        assert Description(op.title, None) == op.title by { BareTitle(op.title); }
      }
    } else {
      ParsedIsClean(seen.description);
      ChangedSettles(op, Parsed(seen.description));
      FormatThenParse(seen.title, Changed(op, Parsed(seen.description)));
    }
  }

  lemma BareTitle(title: string)
    ensures Description(title, None) == title
  {}

  /** The record of a bead that may not be there yet. */
  function RecordOf(content: Option<Content>): Agent {
    if content.Some? then Parsed(content.value.description) else EMPTY
  }

  lemma CreateIgnores(op: Op, a: Agent, b: Agent)
    requires op.Create?
    ensures OnRecord(op, a) == OnRecord(op, b)
  {
    hide Parsed, SettledAll;
  }

  /** A sequence of operations on the text, of a bead that is there or comes to be there, refines
      the same sequence on the record. */
  lemma {:induction false} ReplayRefines(start: Option<Content>, ops: seq<Op>)
    requires forall op | op in ops :: Settles(op)
    ensures start.Some? ==> Replay(start, ops).Some?
    ensures Replay(start, ops).Some? ==>
              Parsed(Replay(start, ops).value.description) == ReplayRecord(RecordOf(start), ops)
  {
    hide Parsed, Rewritten, OnRecord, Settles;
    if ops != [] {
      var n := |ops| - 1;
      ReplayRefines(start, ops[..n]);
      var before := Replay(start, ops[..n]);
      if before.Some? {
        RewrittenRefines(ops[n], before.value);
      } else if ops[n].Create? {
        RewrittenRefines(ops[n], Content("", ""));
        CreateIgnores(ops[n], Parsed(""), ReplayRecord(RecordOf(start), ops[..n]));
      }
    }
  }

  // ----- lost updates -----

  /** The operations that write a field. */
  predicate Touches(op: Op, f: Field) {
    match op
    case Create(_, _) => true
    case Update(u) => (f == CleanupStatus && u.cleanupStatus.Some?) || (f == ActiveMR && u.activeMR.Some?) ||
                      (f == NotificationLevel && u.notificationLevel.Some?)
    case _ => f in {AgentState, HookBead, CleanupStatus, ActiveMR}
  }

  lemma UntouchedStays(op: Op, f: Field, a: Agent)
    requires !Touches(op, f)
    ensures Get(OnRecord(op, a), f) == Get(a, f)
  {}

  /** What an operation leaves in a field it writes does not depend on what was there. */
  lemma TouchedIsSet(op: Op, f: Field, a: Agent, b: Agent)
    requires Touches(op, f)
    ensures Get(OnRecord(op, a), f) == Get(OnRecord(op, b), f)
  {
    hide Settled, Parsed, SettledAll;
  }

  /** No update is lost: a field holds what the last operation that writes it wrote, however
      many operations on other fields come later, and if none writes it, what it held before. */
  lemma {:induction false} LastWriterWins(start: Agent, ops: seq<Op>, f: Field, k: nat)
    requires k < |ops| && Touches(ops[k], f)
    requires forall i | k < i < |ops| :: !Touches(ops[i], f)
    ensures Get(ReplayRecord(start, ops), f) == Get(OnRecord(ops[k], EMPTY), f)
    decreases |ops|
  {
    hide OnRecord, Touches;
    var n := |ops| - 1;
    if k == n {
      TouchedIsSet(ops[n], f, ReplayRecord(start, ops[..n]), EMPTY);
    } else {
      LastWriterWins(start, ops[..n], f, k);
      UntouchedStays(ops[n], f, ReplayRecord(start, ops[..n]));
    }
  }

  lemma {:induction false} NobodyWrites(start: Agent, ops: seq<Op>, f: Field)
    requires forall op | op in ops :: !Touches(op, f)
    ensures Get(ReplayRecord(start, ops), f) == Get(start, f)
  {
    hide OnRecord, Touches;
    if ops != [] {
      var n := |ops| - 1;
      NobodyWrites(start, ops[..n], f);
      UntouchedStays(ops[n], f, ReplayRecord(start, ops[..n]));
    }
  }
}
