/** The writers of agent beads as programs: what each does when it runs alone. Their
    interleavings are the subject of AgentLock. */
module AgentBeads {
  import opened Text
  import opened AgentUpdates
  import opened AgentLock
  import opened AgentAlone
  import opened AgentEffects
  import AF = AgentFields

  /** Only this bead differs. */
  predicate Elsewhere(before: map<Id, Bead>, after: map<Id, Bead>, id: Id) {
    after - {id} == before - {id}
  }

  /** The bead's content is what it was, or what the operation writes over it. */
  predicate MayWrite(before: map<Id, Bead>, after: map<Id, Bead>, id: Id, op: Op) {
    && Elsewhere(before, after, id)
    && (if id in before then
          id in after && (after[id].content == before[id].content || Wrote(before, after, id, op))
        else id in after ==> Wrote(before, after, id, op))
  }

  /** The operation's content is stored. */
  predicate Wrote(before: map<Id, Bead>, after: map<Id, Bead>, id: Id, op: Op) {
    && id in after && (id in before || op.Create?)
    && after[id].content == (if id in before then Rewritten(op, before[id].content) else Created(op))
  }

  /** Only the bead's hook slot differs, if anything. */
  predicate MovesSlot(before: map<Id, Bead>, after: map<Id, Bead>, id: Id) {
    && Elsewhere(before, after, id)
    && (id in after <==> id in before)
    && (id in after ==> after[id] == before[id].(hook := after[id].hook))
  }

  function At(beads: map<Id, Bead>, id: Id): Option<Bead> {
    if id in beads then Some(beads[id]) else None
  }

  /** What the writer does when nothing fails. */
  predicate Does(before: map<Id, Bead>, after: map<Id, Bead>, id: Id, op: Op, ok: bool) {
    ok == Succeeds(op, At(before, id)) && Elsewhere(before, after, id) && At(after, id) == Undisturbed(op, At(before, id))
  }

  /** What the programs below promise however their commands turn out, the step machine keeps
      as well: it stores the operation's content or leaves it, and success means that it is
      stored, or for a Close that the bead is closed. */
  lemma MachineKeepsPromises(beads: map<Id, Bead>, ticket: nat, id: Id, op: Op, outcomes: seq<Outcome>)
    ensures var end := Driven(Fresh(ticket, id, op), At(beads, id), outcomes);
            var after := Holding(beads, id, end.1);
            && MayWrite(beads, after, id, op)
            && (end.0.stage == Return && end.0.ok ==>
                  if op.Close? then id in after && after[id].closed else Wrote(beads, after, id, op))
  {
    var job, bead := Fresh(ticket, id, op), At(beads, id);
    var end := Driven(job, bead, outcomes);
    hide Driven, Replay, Rewritten, Created;
    assert Underway(ContentOf(bead), job, bead);
    hide Underway;
    DrivenKeeps(ContentOf(bead), job, bead, outcomes);
    ReplayOne(ContentOf(bead), op);
    PromisesKept(beads, id, op, end.0, end.1);
  }

  lemma PromisesKept(beads: map<Id, Bead>, id: Id, op: Op, job: Job, bead: Option<Bead>)
    requires Underway(ContentOf(At(beads, id)), job, bead) && job.op == op
    requires Replay(ContentOf(At(beads, id)), [op]) ==
             if id in beads then Some(Rewritten(op, beads[id].content)) else if op.Create? then Some(Created(op)) else None
    ensures var after := Holding(beads, id, bead);
            && MayWrite(beads, after, id, op)
            && (job.stage == Return && job.ok ==>
                  if op.Close? then id in after && after[id].closed else Wrote(beads, after, id, op))
  {
    hide Replay, Rewritten, Created, UpToDate, Placed;
  }

  class Writers {
    const reliable: bool  // no command fails
    var beads: map<Id, Bead>
    var held: set<Id>  // the file locks this process holds

    constructor (reliable: bool)
      ensures this.reliable == reliable && beads == map[] && held == {}
    {
      this.reliable, beads, held := reliable, map[], {};
    }

    // ----- commands; a failing one may have had its effect -----

    method Lock(id: Id) returns (ok: bool)
      requires id !in held
      modifies this`held
      ensures held == old(held) + if ok then {id} else {}
      ensures reliable ==> ok
    {
      ok := *;
      ok := ok || reliable;
      if ok {
        held := held + {id};
      }
    }

    method Unlock(id: Id)
      requires id in held
      modifies this`held
      ensures held == old(held) - {id}
    {
      held := held - {id};
    }

    /** Beads are shown, and changed in anything but their slot, only under their lock. */
    method Show(id: Id) returns (r: Option<Bead>)
      requires id in held
      ensures r.Some? ==> id in beads && r.value == beads[id]
      ensures reliable ==> r == At(beads, id)
    {
      var readable: bool := *;
      r := if (readable || reliable) && id in beads then Some(beads[id]) else None;
    }

    /** Change one bead, if it is there. */
    method Change(id: Id, bead: Bead) returns (ok: bool)
      requires id in held
      modifies this`beads
      ensures beads == old(beads) || (id in old(beads) && beads == old(beads)[id := bead])
      ensures ok ==> id in old(beads) && beads == old(beads)[id := bead]
      ensures beads.Keys == old(beads).Keys && Elsewhere(old(beads), beads, id)
      ensures reliable ==> ok == (id in old(beads))
    {
      var effective: bool := *;
      effective := effective || reliable;
      ok := *;
      ok := (ok || reliable) && effective && id in beads;
      if effective && id in beads {
        beads := beads[id := bead];
      }
    }

    /** Change a bead's hook slot, which no lock protects. */
    method ChangeSlot(id: Id, hook: string) returns (ok: bool)
      modifies this`beads
      ensures MovesSlot(old(beads), beads, id)
      ensures ok ==> id in beads && beads[id].hook == hook
      ensures reliable && id in old(beads) ==> ok
    {
      var effective: bool := *;
      effective := effective || reliable;
      ok := *;
      ok := (ok || reliable) && effective && id in beads;
      if effective && id in beads {
        beads := beads[id := beads[id].(hook := hook)];
      }
    }

    /** The slot command of the database: it does not fill a slot that is taken. */
    method SetFreeSlot(id: Id, hook: string) returns (ok: bool, occupied: bool)
      modifies this`beads
      ensures MovesSlot(old(beads), beads, id)
      ensures reliable && id in old(beads) ==>
                ok == !occupied && occupied == (old(beads)[id].hook != "") &&
                beads[id].hook == if ok then hook else old(beads)[id].hook
    {
      ok, occupied := false, id in beads && beads[id].hook != "";
      if id in beads && !occupied {
        ok := ChangeSlot(id, hook);
      }
    }

    /** `ClearHookBead`. */
    method ClearHookBead(id: Id) returns (ok: bool)
      modifies this`beads
      ensures MovesSlot(old(beads), beads, id)
      ensures reliable && id in old(beads) ==> ok && beads[id].hook == ""
    {
      ok := ChangeSlot(id, "");
    }

    /** `SetHookBead`: a slot that is taken is emptied and filled again. */
    method SetHookBead(id: Id, hook: string) returns (ok: bool)
      modifies this`beads
      ensures MovesSlot(old(beads), beads, id)
      ensures reliable && id in old(beads) ==> ok && beads[id].hook == hook
    {
      var occupied: bool;
      ok, occupied := SetFreeSlot(id, hook);
      if occupied {
        var _ := ClearHookBead(id);
        ok, occupied := SetFreeSlot(id, hook);
      }
    }

    // ----- the writers -----

    /** `CreateAgentBead`. */
    method CreateAgentBead(id: Id, title: string, fields: Option<AF.Agent>) returns (ok: bool)
      modifies this`beads
      ensures MayWrite(old(beads), beads, id, Create(title, fields))
      ensures ok ==> id !in old(beads) && Wrote(old(beads), beads, id, Create(title, fields))
      ensures ok ==> !beads[id].closed && beads[id].agentType
      ensures id in old(beads) ==> beads == old(beads)
      ensures reliable && id !in old(beads) ==> Does(old(beads), beads, id, Create(title, fields), ok)
    {
      ok := false;
      if id in beads {
        return;
      }
      var effective: bool := *;
      if !effective && !reliable {
        return;
      }
      ok := *;
      ok := ok || reliable;
      var description := AF.FormatAgentDescription(title, fields);
      beads := beads[id := Bead(Content(title, description), false, true, "")];
      assert beads[id].content == Created(Create(title, fields));
      if ok && fields.Some? && fields.value.hookBead != "" {
        var _ := SetHookBead(id, fields.value.hookBead);
      }
    }

    /** `UpdateAgentDescriptionFields`. */
    method UpdateAgentDescriptionFields(id: Id, updates: Updates) returns (ok: bool)
      requires id !in held
      modifies this
      ensures held == old(held) && MayWrite(old(beads), beads, id, Update(updates))
      ensures ok ==> ValidLevel(updates) && id in old(beads) && Wrote(old(beads), beads, id, Update(updates))
      ensures !ValidLevel(updates) ==> beads == old(beads)
      ensures reliable ==> Does(old(beads), beads, id, Update(updates), ok)
      ensures id in old(beads) ==> beads[id] == old(beads)[id].(content := beads[id].content)
      ensures ok && Settles(Update(updates)) ==> Changes(updates, old(beads)[id].content, beads[id].content)
    {
      ok := CheckLevel(updates);
      if !ok {
        return;
      }
      hide AF.Parsed, AF.Description, Updated, ValidLevel, Changes, Settles;
      ok := Lock(id);
      if !ok {
        return;
      }
      var issue := Show(id);
      if issue.None? {
        Unlock(id);
        return false;
      }
      var fields := AF.ParseAgentFields(issue.value.content.description);
      fields := ApplyUpdates(fields, updates);
      ok := WriteBack(id, issue.value, fields);
      if Settles(Update(updates)) {
        UpdateChanges(updates, issue.value.content);
      }
      Unlock(id);
    }

    /** Is the notification level, if one is given, one of the three or empty? */
    method CheckLevel(updates: Updates) returns (ok: bool)
      ensures ok == ValidLevel(updates)
      ensures ok <==> updates.notificationLevel.None? || updates.notificationLevel.value in {"", "verbose", "normal", "muted"}
    {
      ok := true;
      if updates.notificationLevel.Some? {
        var level := updates.notificationLevel.value;
        if level != "" && level != "verbose" && level != "normal" && level != "muted" {
          ok := false;
        }
      }
    }

    method ApplyUpdates(fields: AF.Agent, updates: Updates) returns (r: AF.Agent)
      ensures r == Updated(fields, updates)
    {
      r := fields;
      if updates.cleanupStatus.Some? {
        r := r.(cleanupStatus := updates.cleanupStatus.value);
      }
      if updates.activeMR.Some? {
        r := r.(activeMR := updates.activeMR.value);
      }
      if updates.notificationLevel.Some? {
        r := r.(notificationLevel := updates.notificationLevel.value);
      }
    }

    /** Replace the description by the formatted fields. */
    method WriteBack(id: Id, issue: Bead, fields: AF.Agent) returns (ok: bool)
      requires id in held && id in beads && beads[id] == issue
      modifies this`beads
      ensures beads.Keys == old(beads).Keys && Elsewhere(old(beads), beads, id)
      ensures var next := issue.(content := Content(issue.content.title, AF.Description(issue.content.title, Some(fields))));
              (beads[id] == next || (!ok && beads[id] == issue)) && (reliable ==> ok)
    {
      var description := AF.FormatAgentDescription(issue.content.title, Some(fields));
      ok := Change(id, issue.(content := Content(issue.content.title, description)));
    }

    /** `ResetAgentBeadForReuse`. */
    method ResetAgentBeadForReuse(id: Id) returns (ok: bool)
      requires id !in held
      modifies this
      ensures held == old(held) && MayWrite(old(beads), beads, id, Reset)
      ensures ok ==> id in old(beads) && Wrote(old(beads), beads, id, Reset)
      ensures reliable ==> Does(old(beads), beads, id, Reset, ok)
      ensures ok ==> Nuked(old(beads)[id].content, beads[id].content)
      ensures id in old(beads) ==> beads[id] == old(beads)[id].(content := beads[id].content, hook := beads[id].hook)
    {
      hide AF.Parsed, AF.Description, Nuked;
      ok := Lock(id);
      if !ok {
        return;
      }
      var issue := Show(id);
      if issue.None? {
        Unlock(id);
        return false;
      }
      var fields := AF.ParseAgentFields(issue.value.content.description);
      fields := fields.(hookBead := "", activeMR := "", cleanupStatus := "", agentState := "nuked");
      ok := WriteBack(id, issue.value, fields);
      ResetNukes(issue.value.content);
      if ok {
        var _ := ClearHookBead(id);
      }
      Unlock(id);
    }

    /** `CloseAndClearAgentBead`: closes even when it can neither read nor rewrite the bead. */
    method CloseAndClearAgentBead(id: Id) returns (ok: bool)
      requires id !in held
      modifies this
      ensures held == old(held) && MayWrite(old(beads), beads, id, Close)
      ensures ok ==> id in beads && beads[id].closed
      ensures reliable ==> Does(old(beads), beads, id, Close, ok)
      ensures id in old(beads) ==>
                id in beads && (ClosedDown(old(beads)[id].content, beads[id].content) ||
                                (!reliable && beads[id].content == old(beads)[id].content)) &&
                beads[id].agentType == old(beads)[id].agentType && (old(beads)[id].closed ==> beads[id].closed)
    {
      hide AF.Parsed, AF.Description, ClosedDown;
      ok := Lock(id);
      if !ok {
        return;
      }
      var issue := Show(id);
      if issue.Some? {
        var fields := AF.ParseAgentFields(issue.value.content.description);
        fields := fields.(hookBead := "", activeMR := "", cleanupStatus := "", agentState := "closed");
        var _ := WriteBack(id, issue.value, fields);
        CloseClosesDown(issue.value.content);
        var _ := ClearHookBead(id);
      }
      ok := false;
      if id in beads {
        ok := Change(id, beads[id].(closed := true));
      }
      Unlock(id);
    }

    /** `CreateOrReopenAgentBead`. */
    method CreateOrReopenAgentBead(id: Id, title: string, fields: Option<AF.Agent>) returns (ok: bool)
      requires id !in held
      modifies this
      ensures held == old(held) && MayWrite(old(beads), beads, id, Create(title, fields))
      ensures ok ==> Wrote(old(beads), beads, id, Create(title, fields))
      ensures reliable ==> Does(old(beads), beads, id, Create(title, fields), ok)
      ensures ok && fields.Some? && AF.OneLineEach(fields.value) ==> Shows(title, fields.value, beads[id].content)
      ensures ok ==> !beads[id].closed && beads[id].agentType
    {
      hide AF.Description, Shows;
      if fields.Some? && AF.OneLineEach(fields.value) {
        CreateShows(title, fields.value, Content("", ""));
        CreateOverwrites(Create(title, fields), if id in beads then beads[id].content else Content("", ""));
      }
      ok := CreateAgentBead(id, title, fields);
      if ok {
        return;
      }
      ok := Lock(id);
      if !ok {
        return;
      }
      ok := Reopen(id, title, fields);
      Unlock(id);
    }

    /** Reopen a closed bead, if need be by an update, for databases where reopen does not work. */
    method EnsureOpen(id: Id) returns (ok: bool)
      requires id in held && id in beads
      modifies this`beads
      ensures beads.Keys == old(beads).Keys && Elsewhere(old(beads), beads, id)
      ensures beads[id].content == old(beads)[id].content && (ok ==> !beads[id].closed)
      ensures reliable ==> ok && beads[id] == old(beads)[id].(closed := false)
    {
      ok := true;
      if beads[id].closed {
        ok := Change(id, beads[id].(closed := false));
        if !ok {
          ok := Change(id, beads[id].(closed := false));
        }
      }
    }

    /** Fix the type, then empty the hook slot and fill it again. */
    method FixTypeAndSlot(id: Id, hook: string) returns (ok: bool)
      requires id in held && id in beads
      modifies this`beads
      ensures id in beads && Elsewhere(old(beads), beads, id)
      ensures beads[id].content == old(beads)[id].content && beads[id].closed == old(beads)[id].closed
      ensures ok ==> beads[id].agentType
      ensures reliable ==> ok && beads[id] == old(beads)[id].(agentType := true, hook := hook)
    {
      ok := Change(id, beads[id].(agentType := true));
      if !ok {
        return false;
      }
      var _ := ClearHookBead(id);
      if hook != "" {
        var _ := SetHookBead(id, hook);
      }
      var shown := Show(id);
      ok := shown.Some?;
    }

    /** The locked part of `CreateOrReopenAgentBead`. */
    method Reopen(id: Id, title: string, fields: Option<AF.Agent>) returns (ok: bool)
      requires id in held
      modifies this`beads
      ensures MayWrite(old(beads), beads, id, Create(title, fields))
      ensures ok ==> id in old(beads) && Wrote(old(beads), beads, id, Create(title, fields))
      ensures ok ==> !beads[id].closed && beads[id].agentType
      ensures reliable && id in old(beads) ==> Does(old(beads), beads, id, Create(title, fields), ok)
    {
      var existing := Show(id);
      if existing.None? {
        return false;
      }
      ok := EnsureOpen(id);
      if !ok {
        return false;
      }
      var description := AF.FormatAgentDescription(title, fields);
      ok := Change(id, beads[id].(content := Content(title, description)));
      if !ok {
        return false;
      }
      ok := FixTypeAndSlot(id, if fields.Some? then fields.value.hookBead else "");
    }
  }
}
