/** What a writer does when nothing fails and nobody interferes: the step machine and the
    programs agree on it, command by command. */
module AgentAlone {
  import opened Text
  import opened AgentUpdates
  import opened AgentLock

  /** The bead an operation leaves. */
  function Undisturbed(op: Op, bead: Option<Bead>): Option<Bead> {
    match op
    case Create(_, _) => Some(Bead(Created(op), false, true, Hook(op)))
    case Update(u) =>
      if bead.None? || !ValidLevel(u) then bead else Some(bead.value.(content := Rewritten(op, bead.value.content)))
    case Reset => if bead.None? then None else Some(bead.value.(content := Rewritten(op, bead.value.content), hook := ""))
    case Close =>
      if bead.None? then None
      else Some(bead.value.(content := Rewritten(op, bead.value.content), hook := "", closed := true))
  }

  predicate Succeeds(op: Op, bead: Option<Bead>) {
    match op
    case Create(_, _) => true
    case Update(u) => bead.Some? && ValidLevel(u)
    case _ => bead.Some?
  }

  /** The job and the bead when the process has run all its commands and all worked. */
  function Alone(job: Job, bead: Option<Bead>): (Job, Option<Bead>)
    decreases Rank(job.stage)
  {
    if job.stage == Return then (job, bead)
    else
      CommandProgress(job, bead, Works);
      var eff := Command(job, bead, Works);
      Alone(eff.job, eff.bead)
  }

  /** The job as `Begin` makes it. */
  function Fresh(ticket: nat, id: Id, op: Op): Job {
    Job(ticket, id, op, if op.Create? then TryCreate else Lock, false, None, false, 0)
  }

  lemma Unroll(job: Job, bead: Option<Bead>)
    ensures job.stage == Return ==> Alone(job, bead) == (job, bead)
    ensures job.stage != Return ==>
              Alone(job, bead) == Alone(Command(job, bead, Works).job, Command(job, bead, Works).bead)
  {
    hide Command;
  }

  /** The commands after the content is written, by a locked Create. */
  lemma CreateEnds(job: Job, bead: Bead)
    requires job.op.Create? && job.locked && job.stage == FixType
    ensures Alone(job, Some(bead)).0.ok && Alone(job, Some(bead)).1 == Some(bead.(agentType := true, hook := Hook(job.op)))
  {
    hide Rewritten, Created, Alone;
    var fixed := bead.(agentType := true);
    var cleared := fixed.(hook := "");
    var slotted := fixed.(hook := Hook(job.op));
    Unroll(job, Some(bead));
    Unroll(GoTo(job, ClearSlot), Some(fixed));
    Unroll(GoTo(job, SetSlot), Some(cleared));
    Unroll(GoTo(job, ShowAgain), Some(slotted));
    Unroll(Finish(job, true), Some(slotted));
  }

  /** From the locked Show of a bead that is there to the end. */
  lemma WriteEnds(job: Job, bead: Bead)
    requires job.locked && job.stage == Write && job.seen.Some? && job.seen.value.content == bead.content
    ensures var end := Alone(job, Some(bead));
            var next := bead.(content := Rewritten(job.op, bead.content));
            end.0.ok && end.1 == Some(match job.op
                                      case Create(_, _) => next.(agentType := true, hook := Hook(job.op))
                                      case Update(_) => next
                                      case Reset => next.(hook := "")
                                      case Close => next.(hook := "", closed := true))
  {
    hide Rewritten, Created, Alone;
    var next := bead.(content := Rewritten(job.op, bead.content));
    var written := Command(job, Some(bead), Works).job;
    Unroll(job, Some(bead));
    match job.op {
      case Create(_, _) =>
        CreateEnds(written, next);
      case Update(_) =>
        Unroll(written, Some(next));
      case Reset =>
        Unroll(written, Some(next));
        Unroll(Finish(written, true), Some(next.(hook := "")));
      case Close =>
        Unroll(written, Some(next));
        Unroll(GoTo(written, CloseBead), Some(next.(hook := "")));
        Unroll(Finish(written, true), Some(next.(hook := "", closed := true)));
    }
  }

  /** From the locked Show to the end. */
  lemma ShowEnds(job: Job, bead: Option<Bead>)
    requires job.locked && job.stage == Show && (job.op.Update? ==> ValidLevel(job.op.updates))
    requires job.op.Create? ==> bead.Some?
    ensures Alone(job, bead).0.ok == Succeeds(job.op, bead) && Alone(job, bead).1 == Undisturbed(job.op, bead)
  {
    hide Rewritten, Created, Alone, ValidLevel;
    Unroll(job, bead);
    var shown := Command(job, bead, Works).job;
    if bead.None? {
      Unroll(shown, bead);
      if job.op.Close? {
        Unroll(Finish(shown, false), bead);
      }
    } else {
      CreateOverwrites(job.op, bead.value.content);
      if shown.stage == Reopen {
        Unroll(shown, bead);
        WriteEnds(GoTo(shown, Write), bead.value.(closed := false));
      } else {
        WriteEnds(shown, bead.value);
      }
    }
  }

  lemma CreateOverwrites(op: Op, c: Content)
    ensures op.Create? ==> Rewritten(op, c) == Created(op)
  {}

  /** A writer that nothing disturbs leaves exactly the bead its operation asks for, hook slot,
      closed mark and type included, and says whether it did. */
  lemma AloneIsUndisturbed(ticket: nat, id: Id, op: Op, bead: Option<Bead>)
    requires op.Update? ==> ValidLevel(op.updates)
    ensures var end := Alone(Fresh(ticket, id, op), bead);
            end.0.ok == Succeeds(op, bead) && end.1 == Undisturbed(op, bead)
  {
    hide Rewritten, Created, Alone, ValidLevel;
    var job := Fresh(ticket, id, op);
    Unroll(job, bead);
    if op.Create? && bead.None? {
      var made := Command(job, bead, Works);
      Unroll(made.job, made.bead);
      if made.job.stage == SetSlot {
        Unroll(Finish(made.job, true), Some(made.bead.value.(hook := Hook(op))));
      }
    } else {
      var free := GoTo(job, Lock);
      Unroll(free, bead);
      ShowEnds(free.(stage := Show, locked := true), bead);
    }
  }

  /** The bead a state has for the process's operation, replaced. */
  function Holding(beads: map<Id, Bead>, id: Id, bead: Option<Bead>): map<Id, Bead> {
    if bead.Some? then beads[id := bead.value] else beads
  }

  /** Among any number of other processes, a process whose lock is free or its own can run
      to its end without them, and what it then does is what it does alone. */
  lemma {:induction false} RunsAlone(s: State, p: Proc) returns (events: seq<Event>)
    requires p in s.jobs && Placed(s.jobs[p]) && (s.jobs[p].locked || s.jobs[p].id !in s.locks)
    ensures (forall e | e in events :: e == Run(p, Works)) && IsRun(s, events)
    ensures var t := Final(s, events);
            var end := Alone(s.jobs[p], BeadAt(s, s.jobs[p].id));
            && t.beads == Holding(s.beads, s.jobs[p].id, end.1)
            && t.jobs == s.jobs - {p}
            && t.results == s.results + [Result(s.jobs[p].ticket, s.jobs[p].id, s.jobs[p].op, end.0.ok, end.0.commits)]
    decreases Rank(s.jobs[p].stage)
  {
    hide Command, Rank, Alone, LogAt;
    var job := s.jobs[p];
    var bead := BeadAt(s, job.id);
    var e := Run(p, Works);
    var t := After(s, e);
    Unroll(job, bead);
    if job.stage == Return {
      assert IsRun(t, []) && [e][1..] == [];
      return [e];
    }
    CommandProgress(job, bead, Works);
    CommandFrame(job, bead, Works);
    CommandKeepsPlace(job, bead, Works);
    var eff := Command(job, bead, Works);
    assert t.jobs[p] == eff.job && BeadAt(t, job.id) == eff.bead;
    var rest := RunsAlone(t, p);
    events := [e] + rest;
    assert events[1..] == rest;
    assert t.jobs - {p} == s.jobs - {p};
    AloneKeepsBead(eff.job, eff.bead);
  }

  lemma {:induction false} AloneKeepsBead(job: Job, bead: Option<Bead>)
    ensures bead.Some? ==> Alone(job, bead).1.Some?
    decreases Rank(job.stage)
  {
    hide Command, Rank, Alone;
    Unroll(job, bead);
    if job.stage != Return {
      CommandProgress(job, bead, Works);
      CommandFrame(job, bead, Works);
      AloneKeepsBead(Command(job, bead, Works).job, Command(job, bead, Works).bead);
    }
  }

  /** In any state a newcomer that finds the lock free can do its whole operation. */
  lemma NewcomerFinishes(s: State, p: Proc, id: Id, op: Op) returns (events: seq<Event>)
    requires p !in s.jobs && id !in s.locks && (op.Update? ==> ValidLevel(op.updates))
    ensures IsRun(s, [Begin(p, id, op)] + events) && forall e | e in events :: e == Run(p, Works)
    ensures var t := Final(s, [Begin(p, id, op)] + events);
            && t.beads == Holding(s.beads, id, Undisturbed(op, BeadAt(s, id)))
            && t.jobs == s.jobs && |t.results| == |s.results| + 1
            && t.results[|s.results|].ok == Succeeds(op, BeadAt(s, id))
  {
    hide Undisturbed, Alone, ValidLevel;
    var e := Begin(p, id, op);
    var t := After(s, e);
    assert t.jobs[p] == Fresh(s.tickets, id, op) && BeadAt(t, id) == BeadAt(s, id);
    events := RunsAlone(t, p);
    assert ([e] + events)[1..] == events;
    assert t.jobs - {p} == s.jobs;
    AloneIsUndisturbed(s.tickets, id, op, BeadAt(s, id));
  }

  // ----- failing commands -----

  /** The job and the bead when the process has run commands that end like this, nobody
      interfering. */
  function Driven(job: Job, bead: Option<Bead>, outcomes: seq<Outcome>): (Job, Option<Bead>)
    decreases |outcomes|
  {
    if job.stage == Return || outcomes == [] then (job, bead)
    else
      var eff := Command(job, bead, outcomes[0]);
      Driven(eff.job, eff.bead, outcomes[1..])
  }

  /** Where an operation can be that began with this content, alone. */
  predicate Underway(start: Option<Content>, job: Job, bead: Option<Bead>) {
    && JobOk(job) && UpToDate(job, bead)
    && ContentOf(bead) == (if job.commits == 0 then start else Replay(start, [job.op]))
    && (job.commits > 0 ==> bead.Some?)
    && (job.stage == Return && job.ok && job.op.Close? ==> bead.Some? && bead.value.closed)
  }

  lemma CommandCloses(job: Job, bead: Option<Bead>, o: Outcome)
    requires job.stage != Return && job.op.Close? && Placed(job)
    ensures var eff := Command(job, bead, o);
            eff.job.stage == Return && eff.job.ok ==> eff.bead.Some? && eff.bead.value.closed
  {
    hide Rewritten, Created, Hook;
  }

  lemma ReplayTwice(start: Option<Content>, op: Op)
    ensures op.Create? ==> Replay(Replay(start, [op]), [op]) == Replay(start, [op])
  {
    ReplayOne(start, op);
    ReplayOne(Replay(start, [op]), op);
    hide Replay, Rewritten;
  }

  lemma CommandKeepsUnderway(start: Option<Content>, job: Job, bead: Option<Bead>, o: Outcome)
    requires Underway(start, job, bead) && job.stage != Return
    ensures Underway(start, Command(job, bead, o).job, Command(job, bead, o).bead)
  {
    CommandKeepsPlace(job, bead, o);
    CommandKeepsCount(job, bead, o);
    CommandContent(job, bead, o);
    CommandFrame(job, bead, o);
    ReplayTwice(start, job.op);
    if job.op.Close? {
      CommandCloses(job, bead, o);
    }
    hide Command, Placed, Replay;
  }

  lemma {:induction false} DrivenKeeps(start: Option<Content>, job: Job, bead: Option<Bead>, outcomes: seq<Outcome>)
    requires Underway(start, job, bead)
    ensures Underway(start, Driven(job, bead, outcomes).0, Driven(job, bead, outcomes).1)
    ensures Driven(job, bead, outcomes).0.op == job.op
    decreases |outcomes|
  {
    hide Command, Underway;
    if job.stage != Return && outcomes != [] {
      var eff := Command(job, bead, outcomes[0]);
      CommandKeepsUnderway(start, job, bead, outcomes[0]);
      CommandFrame(job, bead, outcomes[0]);
      DrivenKeeps(start, eff.job, eff.bead, outcomes[1..]);
    }
  }

  /** The bead's type was fixed. */
  predicate TypeFixed(job: Job) {
    job.stage.ClearSlot? || SettingSlot(job.stage) || (job.stage == Return && job.ok)
  }

  /** What a Create has done to the bead's marks by now. */
  predicate MarksSet(job: Job, bead: Option<Bead>) {
    job.op.Create? ==>
      && (job.stage.Write? || job.stage.FixType? || TypeFixed(job) ==> bead.Some? && !bead.value.closed)
      && (TypeFixed(job) ==> bead.value.agentType)
  }

  lemma CommandSetsMarks(job: Job, bead: Option<Bead>, o: Outcome)
    requires MarksSet(job, bead) && Placed(job) && job.stage != Return
    ensures MarksSet(Command(job, bead, o).job, Command(job, bead, o).bead)
  {
    hide Rewritten, Created, Hook;
  }

  lemma {:induction false} DrivenSetsMarks(job: Job, bead: Option<Bead>, outcomes: seq<Outcome>)
    requires MarksSet(job, bead) && Placed(job)
    ensures MarksSet(Driven(job, bead, outcomes).0, Driven(job, bead, outcomes).1)
    decreases |outcomes|
  {
    hide Command, MarksSet, Placed;
    if job.stage != Return && outcomes != [] {
      var eff := Command(job, bead, outcomes[0]);
      CommandSetsMarks(job, bead, outcomes[0]);
      CommandKeepsPlace(job, bead, outcomes[0]);
      DrivenSetsMarks(eff.job, eff.bead, outcomes[1..]);
    }
  }

  /** However its commands fail, a create that reports success leaves the bead open and typed. */
  lemma CreatedIsOpen(ticket: nat, id: Id, op: Op, bead: Option<Bead>, outcomes: seq<Outcome>)
    requires op.Create?
    ensures var end := Driven(Fresh(ticket, id, op), bead, outcomes);
            end.0.stage == Return && end.0.ok ==> end.1.Some? && !end.1.value.closed && end.1.value.agentType
  {
    var job := Fresh(ticket, id, op);
    assert Placed(job) && MarksSet(job, bead);
    hide Driven, Placed;
    DrivenSetsMarks(job, bead, outcomes);
    DrivenIs(job, bead, outcomes);
  }

  lemma {:induction false} DrivenIs(job: Job, bead: Option<Bead>, outcomes: seq<Outcome>)
    ensures Driven(job, bead, outcomes).0.op == job.op
    decreases |outcomes|
  {
    hide Command;
    if job.stage != Return && outcomes != [] {
      CommandFrame(job, bead, outcomes[0]);
      DrivenIs(Command(job, bead, outcomes[0]).job, Command(job, bead, outcomes[0]).bead, outcomes[1..]);
    }
  }

  // ----- failures that do not matter -----

  lemma Drive(job: Job, bead: Option<Bead>, o: Outcome, rest: seq<Outcome>)
    requires job.stage != Return
    ensures Driven(job, bead, [o] + rest) == Driven(Command(job, bead, o).job, Command(job, bead, o).bead, rest)
  {
    hide Command;
    assert ([o] + rest)[1..] == rest;
  }

  /** A close that can neither read nor rewrite the bead still closes it. */
  lemma CloseTolerates(ticket: nat, id: Id, bead: Bead)
    ensures var job := Fresh(ticket, id, Close);
            var unread, unwritten :=
              Driven(job, Some(bead), [Works, Fails, Works]), Driven(job, Some(bead), [Works, Works, Fails, Fails, Works]);
            && unread.0.stage == unwritten.0.stage == Return && unread.0.ok && unwritten.0.ok
            && unread.1 == unwritten.1 == Some(bead.(closed := true))
  {
    hide Driven, Rewritten, Created;
    var job := Fresh(ticket, id, Close);
    var shown := job.(stage := Show, locked := true);
    var read := shown.(stage := Write, seen := Some(bead));
    assert [Works, Fails, Works] == [Works] + ([Fails] + ([Works] + []));
    assert [Works, Works, Fails, Fails, Works] == [Works] + ([Works] + ([Fails] + ([Fails] + ([Works] + []))));
    Drive(job, Some(bead), Works, [Fails] + ([Works] + []));
    Drive(shown, Some(bead), Fails, [Works] + []);
    Drive(GoTo(shown, CloseBead), Some(bead), Works, []);
    Drive(job, Some(bead), Works, [Works] + ([Fails] + ([Fails] + ([Works] + []))));
    Drive(shown, Some(bead), Works, [Fails] + ([Fails] + ([Works] + [])));
    Drive(read, Some(bead), Fails, [Fails] + ([Works] + []));
    Drive(GoTo(read, ClearSlot), Some(bead), Fails, [Works] + []);
    Drive(GoTo(read, CloseBead), Some(bead), Works, []);
    NothingDriven(Finish(GoTo(shown, CloseBead), true), Some(bead.(closed := true)));
    NothingDriven(Finish(GoTo(read, CloseBead), true), Some(bead.(closed := true)));
  }

  /** A reset whose hook slot cannot be emptied is a success all the same. */
  lemma ResetTolerates(ticket: nat, id: Id, bead: Bead)
    ensures var end := Driven(Fresh(ticket, id, Reset), Some(bead), [Works, Works, Works, Fails]);
            end.0.stage == Return && end.0.ok && end.1 == Some(bead.(content := Rewritten(Reset, bead.content)))
  {
    hide Driven, Rewritten, Created;
    var job := Fresh(ticket, id, Reset);
    var shown := job.(stage := Show, locked := true);
    var read := shown.(stage := Write, seen := Some(bead));
    var next := bead.(content := Rewritten(Reset, bead.content));
    var written := read.(stage := ClearSlot, commits := 1);
    assert [Works, Works, Works, Fails] == [Works] + ([Works] + ([Works] + ([Fails] + [])));
    Drive(job, Some(bead), Works, [Works] + ([Works] + ([Fails] + [])));
    Drive(shown, Some(bead), Works, [Works] + ([Fails] + []));
    Drive(read, Some(bead), Works, [Fails] + []);
    Drive(written, Some(next), Fails, []);
    NothingDriven(Finish(written, true), Some(next));
  }

  /** A create over a bead whose hook slot cannot be emptied: the slot that is taken is emptied and
      filled after all, and if that fails as well the create still succeeds. */
  lemma SlotIsTakenOver(job: Job, bead: Bead)
    requires job.locked && job.stage == ClearSlot && job.op.Create? && Hook(job.op) != "" && bead.hook != ""
    ensures var end := Driven(job, Some(bead), [Fails, Works, Works, Works, Works]);
            end.0.stage == Return && end.0.ok && end.1 == Some(bead.(hook := Hook(job.op)))
    ensures var end := Driven(job, Some(bead), [Fails, Fails, Works]);
            end.0.stage == Return && end.0.ok && end.1 == Some(bead)
  {
    hide Driven, Rewritten, Created, Hook;
    assert [Fails, Works, Works, Works, Works] == [Fails] + ([Works] + ([Works] + ([Works] + ([Works] + []))));
    assert [Fails, Fails, Works] == [Fails] + ([Fails] + ([Works] + []));
    var free, full := bead.(hook := ""), bead.(hook := Hook(job.op));
    Drive(job, Some(bead), Fails, [Works] + ([Works] + ([Works] + ([Works] + []))));
    Drive(GoTo(job, SetSlot), Some(bead), Works, [Works] + ([Works] + ([Works] + [])));
    Drive(GoTo(job, FreeSlot), Some(bead), Works, [Works] + ([Works] + []));
    Drive(GoTo(job, SetSlotAgain), Some(free), Works, [Works] + []);
    Drive(GoTo(job, ShowAgain), Some(full), Works, []);
    NothingDriven(Finish(job, true), Some(full));
    Drive(job, Some(bead), Fails, [Fails] + ([Works] + []));
    Drive(GoTo(job, SetSlot), Some(bead), Fails, [Works] + []);
    Drive(GoTo(job, ShowAgain), Some(bead), Works, []);
    NothingDriven(Finish(job, true), Some(bead));
  }

  /** A create that cannot show the bead in the end reports failure, with everything done. */
  lemma LastShowCounts(job: Job, bead: Bead, o: Outcome)
    requires job.locked && job.stage == ShowAgain && job.op.Create?
    ensures var end := Driven(job, Some(bead), [o]);
            end.0.stage == Return && (end.0.ok <==> o == Works) && end.1 == Some(bead)
  {
    hide Driven, Rewritten, Created;
    assert [o] == [o] + [];
    Drive(job, Some(bead), o, []);
    NothingDriven(Finish(job, o == Works), Some(bead));
  }

  /** A closed bead that cannot be reopened by command is reopened by an update. */
  lemma ReopenFallsBack(job: Job, bead: Bead)
    requires job.locked && job.stage == Reopen && job.op.Create? && job.seen.Some?
    ensures var end := Driven(job, Some(bead), [Fails, Works]);
            end.0.stage == Write && end.1 == Some(bead.(closed := false))
    ensures Driven(job, Some(bead), [Fails, Fails]).0.stage == Return && !Driven(job, Some(bead), [Fails, Fails]).0.ok
  {
    hide Driven, Rewritten, Created;
    assert [Fails, Works] == [Fails] + ([Works] + []) && [Fails, Fails] == [Fails] + ([Fails] + []);
    Drive(job, Some(bead), Fails, [Works] + []);
    Drive(job, Some(bead), Fails, [Fails] + []);
    Drive(GoTo(job, ReopenByUpdate), Some(bead), Works, []);
    Drive(GoTo(job, ReopenByUpdate), Some(bead), Fails, []);
    NothingDriven(Finish(GoTo(job, ReopenByUpdate), false), Some(bead));
    NothingDriven(GoTo(job, Write), Some(bead.(closed := false)));
  }

  lemma NothingDriven(job: Job, bead: Option<Bead>)
    ensures Driven(job, bead, []) == (job, bead)
  {}
}
