/** Who stored what: the log of a bead, entry by entry, against what operations report. */
module AgentLedger {
  import opened Text
  import opened AgentUpdates
  import opened AgentLock

  /** How often the operation with this ticket is in the log of a bead. */
  function Stores(s: State, id: Id, op: Op, ticket: nat): nat {
    multiset(StoredAt(s, id))[Stored(op, ticket)]
  }

  ghost predicate TicketsTaken(s: State) {
    && (forall id, e | e in StoredAt(s, id) :: e.ticket < s.tickets)
    && (forall p | p in s.jobs :: s.jobs[p].ticket < s.tickets)
    && (forall r | r in s.results :: r.ticket < s.tickets)
  }

  predicate TicketsDiffer(s: State) {
    && (forall p, q | p in s.jobs && q in s.jobs && p != q :: s.jobs[p].ticket != s.jobs[q].ticket)
    && (forall p, i | p in s.jobs && 0 <= i < |s.results| :: s.jobs[p].ticket != s.results[i].ticket)
    && (forall i, k | 0 <= i < k < |s.results| :: s.results[i].ticket != s.results[k].ticket)
  }

  predicate JobCounted(s: State, job: Job) {
    Stores(s, job.id, job.op, job.ticket) == job.commits
  }

  predicate ResultCounted(s: State, r: Result) {
    Stores(s, r.id, r.op, r.ticket) == r.commits
  }

  /** Every operation, running or returned, is in the log of its bead as often as it says. */
  ghost predicate Accounted(s: State) {
    && TicketsTaken(s) && TicketsDiffer(s)
    && (forall p | p in s.jobs :: JobCounted(s, s.jobs[p]))
    && (forall r | r in s.results :: ResultCounted(s, r))
  }

  lemma StoresNext(log: seq<Stored>, mine: Stored, e: Stored)
    ensures multiset(log + [e])[mine] == multiset(log)[mine] + if e == mine then 1 else 0
    ensures multiset(log + [])[mine] == multiset(log)[mine]
  {
    assert log + [] == log;
  }

  /** What a command adds to the count of any operation. */
  lemma RanStores(s: State, p: Proc, o: Outcome, id: Id, op: Op, ticket: nat)
    requires p in s.jobs
    ensures var job := s.jobs[p];
            Stores(Ran(s, p, o), id, op, ticket) == Stores(s, id, op, ticket) +
            if Command(job, BeadAt(s, job.id), o).stored && id == job.id && op == job.op && ticket == job.ticket then 1 else 0
  {
    RanAt(s, p, o, id);
    StoresNext(StoredAt(s, id), Stored(op, ticket), Stored(s.jobs[p].op, s.jobs[p].ticket));
    hide Command, Ran, StoredAt, BeadAt;
  }

  lemma RanKeepsTickets(s: State, p: Proc, o: Outcome)
    requires p in s.jobs && s.jobs[p].stage != Return && TicketsTaken(s) && TicketsDiffer(s)
    ensures TicketsTaken(Ran(s, p, o)) && TicketsDiffer(Ran(s, p, o))
  {
    var t := Ran(s, p, o);
    CommandFrame(s.jobs[p], BeadAt(s, s.jobs[p].id), o);
    hide Command, BeadAt;
    forall id, e | e in StoredAt(t, id) ensures e.ticket < t.tickets {
      RanAt(s, p, o, id);
    }
  }

  lemma RanCountsJob(s: State, p: Proc, o: Outcome, q: Proc)
    requires p in s.jobs && q in s.jobs && s.jobs[p].stage != Return && JobCounted(s, s.jobs[q])
    requires q != p ==> s.jobs[q].ticket != s.jobs[p].ticket
    ensures q in Ran(s, p, o).jobs && JobCounted(Ran(s, p, o), Ran(s, p, o).jobs[q])
  {
    var job := s.jobs[p];
    CommandFrame(job, BeadAt(s, job.id), o);
    RanStores(s, p, o, s.jobs[q].id, s.jobs[q].op, s.jobs[q].ticket);
    hide Command, BeadAt, Stores, StoredAt;
  }

  lemma RanCountsResult(s: State, p: Proc, o: Outcome, r: Result)
    requires p in s.jobs && r.ticket != s.jobs[p].ticket && ResultCounted(s, r)
    ensures ResultCounted(Ran(s, p, o), r)
  {
    RanStores(s, p, o, r.id, r.op, r.ticket);
    hide Command, Ran, BeadAt, Stores;
  }

  lemma RanKeepsAccounts(s: State, p: Proc, o: Outcome)
    requires p in s.jobs && s.jobs[p].stage != Return && Accounted(s)
    ensures Accounted(Ran(s, p, o))
  {
    var t := Ran(s, p, o);
    RanKeepsTickets(s, p, o);
    assert t.results == s.results && t.jobs.Keys == s.jobs.Keys;
    hide Ran, JobCounted, ResultCounted, TicketsTaken;
    forall q | q in t.jobs ensures JobCounted(t, t.jobs[q]) {
      RanCountsJob(s, p, o, q);
    }
    forall r | r in t.results ensures ResultCounted(t, r) {
      RanCountsResult(s, p, o, r);
    }
  }

  /** Nothing is stored, and jobs and results are among those there were. */
  lemma NothingStored(s: State, t: State)
    requires Accounted(s) && t.log == s.log && t.tickets == s.tickets && t.results == s.results
    requires forall p | p in t.jobs :: p in s.jobs && t.jobs[p] == s.jobs[p]
    ensures Accounted(t)
  {
    assert forall id :: StoredAt(t, id) == StoredAt(s, id);
  }

  lemma SameStores(s: State, t: State)
    requires t.log == s.log
    ensures forall id: Id, op: Op, ticket: nat :: Stores(t, id, op, ticket) == Stores(s, id, op, ticket)
    ensures forall id: Id :: StoredAt(t, id) == StoredAt(s, id)
  {
    assert forall id :: StoredAt(t, id) == StoredAt(s, id);
  }

  lemma NewTicketIsNowhere(s: State, id: Id, op: Op)
    requires TicketsTaken(s)
    ensures Stores(s, id, op, s.tickets) == 0
  {
    assert Stored(op, s.tickets) !in StoredAt(s, id);
  }

  lemma JoinedTickets(s: State, t: State, p: Proc, job: Job)
    requires TicketsTaken(s) && TicketsDiffer(s) && p !in s.jobs && job.ticket == s.tickets
    requires t.log == s.log && t.results == s.results && t.jobs == s.jobs[p := job] && t.tickets == s.tickets + 1
    ensures TicketsTaken(t) && TicketsDiffer(t)
  {
    SameStores(s, t);
    hide Stores, StoredAt;
  }

  /** A process begins with a ticket of its own and nothing stored. */
  lemma Joined(s: State, t: State, p: Proc, job: Job)
    requires Accounted(s) && p !in s.jobs && job.ticket == s.tickets && job.commits == 0
    requires t.log == s.log && t.results == s.results && t.jobs == s.jobs[p := job] && t.tickets == s.tickets + 1
    ensures Accounted(t)
  {
    SameStores(s, t);
    JoinedTickets(s, t, p, job);
    NewTicketIsNowhere(s, job.id, job.op);
    hide Stores, StoredAt, TicketsTaken, TicketsDiffer;
    assert JobCounted(t, job);
    forall q | q in t.jobs && q != p ensures JobCounted(t, t.jobs[q]) { assert JobCounted(s, s.jobs[q]); }
    forall r | r in t.results ensures ResultCounted(t, r) { assert ResultCounted(s, r); }
  }

  lemma BeginKeepsAccounts(s: State, p: Proc, id: Id, op: Op)
    requires Accounted(s) && Enabled(s, Begin(p, id, op))
    ensures Accounted(After(s, Begin(p, id, op)))
  {
    var t := After(s, Begin(p, id, op));
    hide Accounted, ValidLevel;
    Joined(s, t, p, t.jobs[p]);
  }

  lemma ReportedTickets(s: State, t: State, r: Result)
    requires TicketsTaken(s) && TicketsDiffer(s) && r.ticket < s.tickets
    requires (forall p | p in s.jobs :: s.jobs[p].ticket != r.ticket) && forall q | q in s.results :: q.ticket != r.ticket
    requires t.log == s.log && t.results == s.results + [r] && t.jobs == s.jobs && t.tickets == s.tickets
    ensures TicketsTaken(t) && TicketsDiffer(t)
  {
    SameStores(s, t);
    hide Stores, StoredAt;
  }

  /** A result that no running process and no other result shares its ticket with. */
  lemma Reported(s: State, t: State, r: Result)
    requires Accounted(s) && ResultCounted(s, r) && r.ticket < s.tickets
    requires (forall p | p in s.jobs :: s.jobs[p].ticket != r.ticket) && forall q | q in s.results :: q.ticket != r.ticket
    requires t.log == s.log && t.results == s.results + [r] && t.jobs == s.jobs && t.tickets == s.tickets
    ensures Accounted(t)
  {
    SameStores(s, t);
    ReportedTickets(s, t, r);
    hide Stores, StoredAt, TicketsTaken, TicketsDiffer;
    forall p | p in t.jobs ensures JobCounted(t, t.jobs[p]) { assert JobCounted(s, s.jobs[p]); }
    forall q | q in t.results ensures ResultCounted(t, q) {
      assert q == r || q in s.results;
      assert ResultCounted(s, q);
    }
  }

  lemma ReturnKeepsAccounts(s: State, p: Proc, o: Outcome)
    requires Accounted(s) && p in s.jobs && s.jobs[p].stage == Return
    ensures Accounted(After(s, Run(p, o)))
  {
    var job, rest := s.jobs[p], Gone(s, p);
    var r := Result(job.ticket, job.id, job.op, job.ok, job.commits);
    assert JobCounted(s, job);
    NothingStored(s, rest);
    SameStores(s, rest);
    assert TicketsTaken(s) && TicketsDiffer(s);
    hide Accounted, Stores, StoredAt;
    assert ResultCounted(rest, r);
    Reported(rest, After(s, Run(p, o)), r);
  }

  lemma StepKeepsAccounts(s: State, e: Event)
    requires Accounted(s) && Enabled(s, e)
    ensures Accounted(After(s, e))
  {
    match e {
      case Begin(p, id, op) => BeginKeepsAccounts(s, p, id, op);
      case Crash(p) => NothingStored(s, Gone(s, p));
      case Slot(id, hook) => NothingStored(s, After(s, e));
      case Run(p, o) =>
        if s.jobs[p].stage == Return {
          ReturnKeepsAccounts(s, p, o);
        } else {
          RanKeepsAccounts(s, p, o);
        }
    }
    hide Accounted, Ran;
  }

  lemma {:induction false} RunKeepsAccounts(s: State, events: seq<Event>)
    requires Accounted(s) && IsRun(s, events)
    ensures Accounted(Final(s, events))
    decreases |events|
  {
    hide Accounted, Enabled, After;
    if events != [] {
      StepKeepsAccounts(s, events[0]);
      RunKeepsAccounts(After(s, events[0]), events[1..]);
    }
  }

  /** What operations report is what the logs say. An operation that returned is in the log of
      its bead as often as it counted: at most once, or twice for a Create; and at least once
      if it reports success, unless it is a Close, which may succeed without its content. */
  lemma ResultsAreHonest(beads: map<Id, Bead>, events: seq<Event>, r: Result)
    requires IsRun(Initial(beads), events) && r in Final(Initial(beads), events).results
    ensures var s := Final(Initial(beads), events);
            var stores := Stores(s, r.id, r.op, r.ticket);
            && stores == r.commits <= (if r.op.Create? then 2 else 1)
            && (r.ok && !r.op.Close? ==> stores >= 1 && r.op in LogAt(s, r.id))
  {
    var s := Final(Initial(beads), events);
    LogStarts(beads);
    RunKeeps(beads, Initial(beads), events);
    assert Honest(r);
    RunKeepsAccounts(Initial(beads), events);
    assert ResultCounted(s, r);
    hide IsRun, Final, Accounted, Inv;
    CountedIsThere(StoredAt(s, r.id), Stored(r.op, r.ticket));
  }

  lemma CountedIsThere(log: seq<Stored>, e: Stored)
    ensures multiset(log)[e] >= 1 ==> e.op in Ops(log)
  {
    if e in log {
      var k :| 0 <= k < |log| && log[k] == e;
      assert Ops(log)[k] == e.op;
    }
  }

  /** No two operations that returned, or are still running, share their entries. */
  lemma TicketsAreUnique(beads: map<Id, Bead>, events: seq<Event>)
    requires IsRun(Initial(beads), events)
    ensures TicketsDiffer(Final(Initial(beads), events))
  {
    RunKeepsAccounts(Initial(beads), events);
    hide IsRun, Final;
  }

  // ----- levels that do not exist -----

  predicate Refused(op: Op) {
    op.Update? && !ValidLevel(op.updates)
  }

  /** Refused operations are over without success, and none is in a log. */
  ghost predicate Refusing(s: State) {
    && (forall p | p in s.jobs && Refused(s.jobs[p].op) :: s.jobs[p].stage == Return && !s.jobs[p].ok)
    && (forall id, e | e in StoredAt(s, id) :: !Refused(e.op))
    && (forall r | r in s.results && Refused(r.op) :: !r.ok)
  }

  lemma RanKeepsRefusing(s: State, p: Proc, o: Outcome)
    requires p in s.jobs && s.jobs[p].stage != Return && Refusing(s)
    ensures Refusing(Ran(s, p, o))
  {
    var t := Ran(s, p, o);
    CommandFrame(s.jobs[p], BeadAt(s, s.jobs[p].id), o);
    hide Command, BeadAt, Refused;
    forall id, e | e in StoredAt(t, id) ensures !Refused(e.op) {
      RanAt(s, p, o, id);
    }
  }

  lemma StepKeepsRefusing(s: State, e: Event)
    requires Refusing(s) && Enabled(s, e)
    ensures Refusing(After(s, e))
  {
    var t := After(s, e);
    if e.Run? && s.jobs[e.p].stage != Return {
      RanKeepsRefusing(s, e.p, e.outcome);
    } else {
      SameStores(s, t);
      hide Ran, StoredAt, ValidLevel;
    }
  }

  lemma {:induction false} RunKeepsRefusing(s: State, events: seq<Event>)
    requires Refusing(s) && IsRun(s, events)
    ensures Refusing(Final(s, events))
    decreases |events|
  {
    hide Refusing, Enabled, After;
    if events != [] {
      StepKeepsRefusing(s, events[0]);
      RunKeepsRefusing(After(s, events[0]), events[1..]);
    }
  }

  /** An update that asks for a level there is not is never stored and never reports success. */
  lemma LevelsAreKnown(beads: map<Id, Bead>, events: seq<Event>)
    requires IsRun(Initial(beads), events)
    ensures var s := Final(Initial(beads), events);
            && (forall id, op | op in LogAt(s, id) && op.Update? :: ValidLevel(op.updates))
            && (forall r | r in s.results && r.ok && r.op.Update? :: ValidLevel(r.op.updates))
  {
    RunKeepsRefusing(Initial(beads), events);
    var s := Final(Initial(beads), events);
    hide IsRun, Final, ValidLevel;
    forall id, op | op in LogAt(s, id) && op.Update? ensures ValidLevel(op.updates) {
      var k :| 0 <= k < |LogAt(s, id)| && LogAt(s, id)[k] == op;
      assert StoredAt(s, id)[k].op == op && StoredAt(s, id)[k] in StoredAt(s, id);
    }
  }
}
