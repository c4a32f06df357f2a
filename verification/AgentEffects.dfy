/** What the writers of agent beads leave for readers to see, field by field. */
module AgentEffects {
  import opened Text
  import opened FieldSheet
  import opened AgentFields
  import opened AgentUpdates
  import L = AgentLock

  /** Ready for reuse: the state says so, the work's fields are empty, the rest is as it was. */
  predicate Nuked(before: Content, after: Content) {
    var was, now := Parsed(before.description), Parsed(after.description);
    && after.title == before.title
    && now.agentState == "nuked" && now.hookBead == "" && now.activeMR == "" && now.cleanupStatus == ""
    && now.roleType == was.roleType && now.rig == was.rig && now.notificationLevel == was.notificationLevel
  }

  /** Closed for good. */
  predicate ClosedDown(before: Content, after: Content) {
    var was, now := Parsed(before.description), Parsed(after.description);
    && after.title == before.title
    && now.agentState == "closed" && now.hookBead == "" && now.activeMR == "" && now.cleanupStatus == ""
    && now.roleType == was.roleType && now.rig == was.rig && now.notificationLevel == was.notificationLevel
  }

  /** How a value that was written reads: trimmed, and the word null as nothing. */
  predicate ReadsAs(written: string, read: string) {
    read == if TrimSpace(written) == "null" then "" else TrimSpace(written)
  }

  predicate Given(update: Option<string>, was: string, now: string) {
    if update.Some? then ReadsAs(update.value, now) else now == was
  }

  /** The given fields are set, the rest is as it was. */
  predicate Changes(u: Updates, before: Content, after: Content) {
    var was, now := Parsed(before.description), Parsed(after.description);
    && after.title == before.title
    && Given(u.cleanupStatus, was.cleanupStatus, now.cleanupStatus) && Given(u.activeMR, was.activeMR, now.activeMR)
    && Given(u.notificationLevel, was.notificationLevel, now.notificationLevel)
    && now.roleType == was.roleType && now.rig == was.rig && now.agentState == was.agentState && now.hookBead == was.hookBead
  }

  /** The title and the seven fields asked for. */
  predicate Shows(title: string, a: Agent, after: Content) {
    var now := Parsed(after.description);
    && after.title == title
    && ReadsAs(a.roleType, now.roleType) && ReadsAs(a.rig, now.rig) && ReadsAs(a.agentState, now.agentState)
    && ReadsAs(a.hookBead, now.hookBead) && ReadsAs(a.cleanupStatus, now.cleanupStatus)
    && ReadsAs(a.activeMR, now.activeMR) && ReadsAs(a.notificationLevel, now.notificationLevel)
  }

  lemma SettledReads(v: string)
    ensures ReadsAs(v, Settled(v))
  {
    hide TrimSpace;
  }

  lemma ResetNukes(seen: Content)
    ensures Nuked(seen, Rewritten(Reset, seen))
  {
    RewrittenRefines(Reset, seen);
    hide Parsed, Description;
  }

  lemma CloseClosesDown(seen: Content)
    ensures ClosedDown(seen, Rewritten(Close, seen))
  {
    RewrittenRefines(Close, seen);
    hide Parsed, Description;
  }

  lemma UpdateChanges(u: Updates, seen: Content)
    requires Settles(Update(u))
    ensures Changes(u, seen, Rewritten(Update(u), seen))
  {
    RewrittenRefines(Update(u), seen);
    SettledReads(u.cleanupStatus.GetOr(""));
    SettledReads(u.activeMR.GetOr(""));
    SettledReads(u.notificationLevel.GetOr(""));
    hide Parsed, Description, ReadsAs, Settled;
  }

  lemma CreateShows(title: string, a: Agent, seen: Content)
    requires OneLineEach(a)
    ensures Shows(title, a, Rewritten(Create(title, Some(a)), seen))
  {
    FormatThenParse(title, a);
    SettledReads(a.roleType);
    SettledReads(a.rig);
    SettledReads(a.agentState);
    SettledReads(a.hookBead);
    SettledReads(a.cleanupStatus);
    SettledReads(a.activeMR);
    SettledReads(a.notificationLevel);
    hide Parsed, Description, ReadsAs, Settled, OneLineEach;
  }

  // ----- over runs -----

  /** The k-th stored operation is the last that writes the field. */
  ghost predicate LastOn(ops: seq<Op>, f: Field, k: nat) {
    k < |ops| && Touches(ops[k], f) && forall i | k < i < |ops| :: !Touches(ops[i], f)
  }

  ghost predicate AllSettle(ops: seq<Op>) {
    forall op | op in ops :: Settles(op)
  }

  lemma WritesState(op: Op)
    ensures op.Reset? ==> OnRecord(op, EMPTY).agentState == "nuked" && OnRecord(op, EMPTY).hookBead == ""
    ensures op.Close? ==> OnRecord(op, EMPTY).agentState == "closed" && OnRecord(op, EMPTY).hookBead == ""
    ensures op.Create? && op.fields.Some? ==> ReadsAs(op.fields.value.agentState, OnRecord(op, EMPTY).agentState)
    ensures op.Update? && op.updates.cleanupStatus.Some? ==>
              ReadsAs(op.updates.cleanupStatus.value, OnRecord(op, EMPTY).cleanupStatus)
    ensures op.Update? && op.updates.activeMR.Some? ==> ReadsAs(op.updates.activeMR.value, OnRecord(op, EMPTY).activeMR)
  {
    hide Parsed, TrimSpace;
  }

  /** However the processes interleave and fail: the state that readers see is that of the last
      stored operation that writes it, nuked after a reset, closed after a close, the one given
      after a create. */
  lemma StateShows(beads: map<L.Id, L.Bead>, events: seq<L.Event>, id: L.Id, k: nat)
    requires L.IsRun(L.Initial(beads), events)
    requires var s := L.Final(L.Initial(beads), events);
             id in s.beads && AllSettle(L.LogAt(s, id)) && LastOn(L.LogAt(s, id), AgentState, k)
    ensures var s := L.Final(L.Initial(beads), events);
            var op, seen := L.LogAt(s, id)[k], Parsed(s.beads[id].content.description);
            && (op.Reset? ==> seen.agentState == "nuked")
            && (op.Close? ==> seen.agentState == "closed")
            && (op.Create? && op.fields.Some? ==> ReadsAs(op.fields.value.agentState, seen.agentState))
  {
    L.NoLostUpdate(beads, events, id, AgentState, k);
    WritesState(L.LogAt(L.Final(L.Initial(beads), events), id)[k]);
    hide L.IsRun, L.Final, Parsed, OnRecord, Touches, Settles, ReadsAs, L.LogAt;
  }

  /** The same for the two fields that polecats report themselves. */
  lemma ReportShows(beads: map<L.Id, L.Bead>, events: seq<L.Event>, id: L.Id, f: Field, k: nat)
    requires L.IsRun(L.Initial(beads), events) && f in {CleanupStatus, ActiveMR}
    requires var s := L.Final(L.Initial(beads), events);
             id in s.beads && AllSettle(L.LogAt(s, id)) && LastOn(L.LogAt(s, id), f, k) && L.LogAt(s, id)[k].Update?
    ensures var s := L.Final(L.Initial(beads), events);
            var u, seen := L.LogAt(s, id)[k].updates, Parsed(s.beads[id].content.description);
            if f == CleanupStatus then u.cleanupStatus.Some? && ReadsAs(u.cleanupStatus.value, seen.cleanupStatus)
            else u.activeMR.Some? && ReadsAs(u.activeMR.value, seen.activeMR)
  {
    var op := L.LogAt(L.Final(L.Initial(beads), events), id)[k];
    L.NoLostUpdate(beads, events, id, f, k);
    WritesState(op);
    assert Touches(op, f);
    hide L.IsRun, L.Final, Parsed, OnRecord, Settles, ReadsAs, L.LogAt;
  }
}
