/** Any number of processes writing agent beads of one database, each bead behind its own
    file lock. A run is a sequence of events; a process may fail at any command or die
    between any two. */
module AgentLock {
  import opened Text
  import opened AgentUpdates
  import AF = AgentFields

  type Id = string
  type Proc = nat

  datatype Bead = Bead(content: Content, closed: bool, agentType: bool, hook: string)

  /** Where a process is inside an operation: the command it runs next. */
  datatype Stage =
    | TryCreate | Lock | Show | Reopen | ReopenByUpdate | Write | FixType | ClearSlot
    | SetSlot | FreeSlot | SetSlotAgain | CloseBead | ShowAgain | Return

  /** Operations are numbered as they begin; `commits` counts how often one has stored its content. */
  datatype Job = Job(ticket: nat, id: Id, op: Op, stage: Stage, locked: bool, seen: Option<Bead>, ok: bool, commits: nat)

  /** How a command ends: it works, it fails without effect, or its effect happens although
      it reports failure. */
  datatype Outcome = Works | Fails | FailsLate

  datatype Result = Result(ticket: nat, id: Id, op: Op, ok: bool, commits: nat)

  /** A log entry: what was stored, and by which operation. */
  datatype Stored = Stored(op: Op, ticket: nat)

  datatype State = State(
    beads: map<Id, Bead>, locks: map<Id, Proc>, jobs: map<Proc, Job>, log: map<Id, seq<Stored>>, results: seq<Result>,
    tickets: nat)

  datatype Event =
    | Begin(p: Proc, id: Id, op: Op)
    | Run(p: Proc, outcome: Outcome)
    | Crash(p: Proc)
    | Slot(id: Id, hook: string)  // another command moves the hook slot, which no lock protects

  // ----- one command of one process -----

  /** What a command does: the process afterwards, the bead afterwards, and whether the
      operation's content was stored. */
  datatype Effect = Effect(job: Job, bead: Option<Bead>, stored: bool)

  function Hook(op: Op): string {
    if op.Create? && op.fields.Some? then op.fields.value.hookBead else ""
  }

  function GoTo(job: Job, stage: Stage): Job {
    job.(stage := stage)
  }

  function Finish(job: Job, ok: bool): Job {
    job.(stage := Return, ok := ok)
  }

  /** After the hook slot is set, or not: a locked Create shows the bead, an unlocked one is done. */
  function SlotDone(job: Job): Job {
    if job.locked then GoTo(job, ShowAgain) else Finish(job, true)
  }

  function Command(job: Job, bead: Option<Bead>, o: Outcome): Effect {
    var none := Effect(job, bead, false);
    match job.stage
    case TryCreate =>
      if bead.Some? || o == Fails then none.(job := GoTo(job, Lock))
      else
        var made := job.(commits := job.commits + 1);
        Effect(if o == FailsLate then GoTo(made, Lock)
               else if Hook(job.op) != "" then GoTo(made, SetSlot) else Finish(made, true),
               Some(Bead(Created(job.op), false, true, "")), true)
    case Lock =>
      if o == Works then none.(job := job.(stage := Show, locked := true)) else none.(job := Finish(job, false))
    case Show =>
      if bead.None? || o != Works then
        none.(job := if job.op.Close? then GoTo(job, CloseBead) else Finish(job, false))
      else
        none.(job := job.(seen := bead, stage := if job.op.Create? && bead.value.closed then Reopen else Write))
    case Reopen => Reopened(job, bead, o, GoTo(job, ReopenByUpdate))
    case ReopenByUpdate => Reopened(job, bead, o, Finish(job, false))
    case Write =>
      var written := if bead.None? || o == Fails then none
                     else Effect(job.(commits := job.commits + 1), Some(bead.value.(content := Rewritten(job.op, job.seen.GetOr(bead.value).content))), true);
      written.(job := if o != Works || bead.None? then
                        (if job.op.Close? then GoTo(written.job, ClearSlot) else Finish(written.job, false))
                      else
                        match job.op
                        case Create(_, _) => GoTo(written.job, FixType)
                        case Update(_) => Finish(written.job, true)
                        case _ => GoTo(written.job, ClearSlot))
    case FixType =>
      Effect(if o == Works then GoTo(job, ClearSlot) else Finish(job, false),
             if bead.Some? && o != Fails then Some(bead.value.(agentType := true)) else bead, false)
    case ClearSlot =>
      Effect(match job.op
             case Create(_, _) => if Hook(job.op) != "" then GoTo(job, SetSlot) else GoTo(job, ShowAgain)
             case Close => GoTo(job, CloseBead)
             case _ => Finish(job, true),
             Slotted(bead, o, ""), false)
    case SetSlot =>
      if bead.Some? && bead.value.hook != "" then
        none.(job := if o == Works then GoTo(job, FreeSlot) else SlotDone(job))
      else Effect(SlotDone(job), Slotted(bead, o, Hook(job.op)), false)
    case FreeSlot => Effect(GoTo(job, SetSlotAgain), Slotted(bead, o, ""), false)
    case SetSlotAgain =>
      Effect(SlotDone(job), if bead.Some? && bead.value.hook != "" then bead else Slotted(bead, o, Hook(job.op)), false)
    case CloseBead =>
      Effect(Finish(job, o == Works && bead.Some?),
             if bead.Some? && o != Fails then Some(bead.value.(closed := true)) else bead, false)
    case ShowAgain => none.(job := Finish(job, bead.Some? && o == Works))
    case Return => none
  }

  function Reopened(job: Job, bead: Option<Bead>, o: Outcome, otherwise: Job): Effect {
    Effect(if o == Works && bead.Some? then GoTo(job, Write) else otherwise,
           if bead.Some? && o != Fails then Some(bead.value.(closed := false)) else bead, false)
  }

  function Slotted(bead: Option<Bead>, o: Outcome, hook: string): Option<Bead> {
    if bead.Some? && o != Fails then Some(bead.value.(hook := hook)) else bead
  }

  // ----- runs -----

  predicate Enabled(s: State, e: Event) {
    match e
    case Begin(p, _, _) => p !in s.jobs
    case Run(p, o) => p in s.jobs && (s.jobs[p].stage == Lock && o == Works ==> s.jobs[p].id !in s.locks)
    case Crash(p) => p in s.jobs
    case Slot(id, _) => id in s.beads
  }

  function BeadAt(s: State, id: Id): Option<Bead> {
    if id in s.beads then Some(s.beads[id]) else None
  }

  function StoredAt(s: State, id: Id): seq<Stored> {
    if id in s.log then s.log[id] else []
  }

  function Ops(log: seq<Stored>): seq<Op> {
    seq(|log|, i requires 0 <= i < |log| => log[i].op)
  }

  /** The operations stored at a bead, in the order of their stores. */
  function LogAt(s: State, id: Id): seq<Op> {
    Ops(StoredAt(s, id))
  }

  /** The process is gone; the system drops its file lock. */
  function Gone(s: State, p: Proc): State
    requires p in s.jobs
  {
    s.(jobs := s.jobs - {p}, locks := if s.jobs[p].locked then s.locks - {s.jobs[p].id} else s.locks)
  }

  function Ran(s: State, p: Proc, o: Outcome): State
    requires p in s.jobs
  {
    var job := s.jobs[p];
    var eff := Command(job, BeadAt(s, job.id), o);
    s.(beads := if eff.bead.Some? then s.beads[job.id := eff.bead.value] else s.beads,
       locks := if eff.job.locked && !job.locked then s.locks[job.id := p] else s.locks,
       jobs := s.jobs[p := eff.job],
       log := if eff.stored then s.log[job.id := StoredAt(s, job.id) + [Stored(job.op, job.ticket)]] else s.log)
  }

  function After(s: State, e: Event): State
    requires Enabled(s, e)
  {
    match e
    case Begin(p, id, op) =>
      var job := Job(s.tickets, id, op, if op.Create? then TryCreate else Lock, false, None, false, 0);
      s.(jobs := s.jobs[p := if op.Update? && !ValidLevel(op.updates) then Finish(job, false) else job],
         tickets := s.tickets + 1)
    case Run(p, o) =>
      var job := s.jobs[p];
      if job.stage == Return then Gone(s, p).(results := s.results + [Result(job.ticket, job.id, job.op, job.ok, job.commits)])
      else Ran(s, p, o)
    case Crash(p) => Gone(s, p)
    case Slot(id, hook) => s.(beads := s.beads[id := s.beads[id].(hook := hook)])
  }

  function Initial(beads: map<Id, Bead>): State {
    State(beads, map[], map[], map[], [], 0)
  }

  /** Every event of the run is enabled when it happens. */
  predicate IsRun(s: State, events: seq<Event>)
    decreases |events|
  {
    events == [] || (Enabled(s, events[0]) && IsRun(After(s, events[0]), events[1..]))
  }

  function Final(s: State, events: seq<Event>): State
    requires IsRun(s, events)
    decreases |events|
  {
    if events == [] then s else Final(After(s, events[0]), events[1..])
  }

  // ----- what one process keeps -----

  predicate NeedsLock(stage: Stage) {
    HasSeen(stage) || stage.Show? || stage.FixType? || stage.ClearSlot? || stage.CloseBead? || stage.ShowAgain?
  }

  predicate HasSeen(stage: Stage) {
    stage.Reopen? || stage.ReopenByUpdate? || stage.Write?
  }

  predicate SettingSlot(stage: Stage) {
    stage.SetSlot? || stage.FreeSlot? || stage.SetSlotAgain? || stage.ShowAgain?
  }

  predicate OnlyCreate(stage: Stage) {
    stage.TryCreate? || stage.Reopen? || stage.ReopenByUpdate? || stage.FixType? || SettingSlot(stage)
  }

  /** Where a job can be, and what it then holds. */
  predicate Placed(job: Job) {
    && (NeedsLock(job.stage) ==> job.locked)
    && (job.stage.TryCreate? || job.stage.Lock? ==> !job.locked)
    && (OnlyCreate(job.stage) ==> job.op.Create?)
    && (job.stage.CloseBead? ==> job.op.Close?)
    && (HasSeen(job.stage) ==> job.seen.Some?)
  }

  /** How often a job has stored its content by now: at most once, or twice for a Create
      whose first try took effect but reported failure. */
  predicate Counted(job: Job) {
    && (job.stage.TryCreate? ==> job.commits == 0)
    && (job.stage.Lock? || job.stage.Show? || HasSeen(job.stage) ==> job.commits <= if job.op.Create? then 1 else 0)
    && job.commits <= (if job.op.Create? then 2 else 1)
    && ((job.stage.FixType? || job.stage.ClearSlot? || SettingSlot(job.stage)) && !job.op.Close? ==> job.commits >= 1)
    && (job.stage == Return && job.ok && !job.op.Close? ==> job.commits >= 1)
  }

  predicate JobOk(job: Job) {
    Placed(job) && Counted(job)
  }

  function ContentOf(bead: Option<Bead>): Option<Content> {
    if bead.Some? then Some(bead.value.content) else None
  }

  /** What the process has read is still there. */
  predicate UpToDate(job: Job, bead: Option<Bead>) {
    HasSeen(job.stage) ==> ContentOf(bead) == ContentOf(job.seen)
  }

  function Rank(stage: Stage): nat {
    match stage
    case TryCreate => 13 case Lock => 12 case Show => 11 case Reopen => 10 case ReopenByUpdate => 9
    case Write => 8 case FixType => 7 case ClearSlot => 6 case SetSlot => 5 case FreeSlot => 4
    case SetSlotAgain => 3 case CloseBead => 2 case ShowAgain => 1 case Return => 0
  }

  predicate Early(stage: Stage) {
    stage.TryCreate? || stage.Lock? || HasSeen(stage) || stage.Show?
  }

  lemma WriteProgress(job: Job, bead: Option<Bead>, o: Outcome)
    requires job.stage == Write
    ensures Rank(Command(job, bead, o).job.stage) < Rank(job.stage)
  {
    hide Rewritten, Created, Hook, Slotted, Reopened;
  }

  lemma EarlyProgress(job: Job, bead: Option<Bead>, o: Outcome)
    requires Early(job.stage) && job.stage != Write
    ensures Rank(Command(job, bead, o).job.stage) < Rank(job.stage)
  {
    hide Rewritten, Created, Hook, Slotted;
  }

  lemma LateProgress(job: Job, bead: Option<Bead>, o: Outcome)
    requires !Early(job.stage) && job.stage != Return
    ensures Rank(Command(job, bead, o).job.stage) < Rank(job.stage)
  {
    hide Rewritten, Created, Hook, Slotted, Reopened;
  }

  /** Every command brings its process nearer to the end of its operation. */
  lemma CommandProgress(job: Job, bead: Option<Bead>, o: Outcome)
    requires job.stage != Return
    ensures Rank(Command(job, bead, o).job.stage) < Rank(job.stage)
  {
    hide Command, Rank, Early;
    if job.stage == Write {
      WriteProgress(job, bead, o);
    } else if Early(job.stage) {
      EarlyProgress(job, bead, o);
    } else {
      LateProgress(job, bead, o);
    }
  }

  /** A process cannot tell whether a command that failed took effect: it goes on in the same way. */
  lemma FailuresLookAlike(job: Job, bead: Option<Bead>)
    ensures var late, fails := Command(job, bead, FailsLate).job, Command(job, bead, Fails).job;
            late.(commits := job.commits) == fails.(commits := job.commits)
  {
    hide Rewritten, Created, Hook, Slotted;
  }

  /** What no command changes, and what it counts. */
  lemma CommandFrame(job: Job, bead: Option<Bead>, o: Outcome)
    requires job.stage != Return
    ensures var eff := Command(job, bead, o);
            && eff.job.ticket == job.ticket && eff.job.id == job.id && eff.job.op == job.op
            && (job.locked ==> eff.job.locked)
            && eff.job.commits == job.commits + (if eff.stored then 1 else 0)
            && (bead.Some? || eff.stored ==> eff.bead.Some?)
  {
    hide Rewritten, Created, Hook;
  }

  lemma CommandKeepsPlace(job: Job, bead: Option<Bead>, o: Outcome)
    requires Placed(job) && job.stage != Return
    ensures var after := Command(job, bead, o).job;
            Placed(after) && after.id == job.id && after.op == job.op && (job.locked ==> after.locked) &&
            (after.locked && !job.locked ==> job.stage == Lock && o == Works)
  {
    hide Rewritten, Created;
  }

  lemma CommandKeepsCount(job: Job, bead: Option<Bead>, o: Outcome)
    requires Placed(job) && Counted(job) && job.stage != Return
    ensures Counted(Command(job, bead, o).job)
  {
    hide Rewritten, Created, Hook;
  }

  /** A command either stores the operation's content over the current one or leaves the content alone. */
  lemma CommandContent(job: Job, bead: Option<Bead>, o: Outcome)
    requires JobOk(job) && UpToDate(job, bead) && job.stage != Return
    ensures var eff := Command(job, bead, o);
            if eff.stored then
              eff.bead.Some? && ContentOf(eff.bead) == Replay(ContentOf(bead), [job.op]) && (job.locked || bead.None?)
            else ContentOf(eff.bead) == ContentOf(bead)
    ensures UpToDate(Command(job, bead, o).job, Command(job, bead, o).bead)
  {
    ReplayOne(ContentOf(bead), job.op);
    hide Rewritten, Replay;
  }

  lemma ReplayOne(start: Option<Content>, op: Op)
    ensures Replay(start, [op]) == if start.Some? then Some(Rewritten(op, start.value))
                                   else if op.Create? then Some(Created(op)) else None
    ensures op.Create? && start.Some? ==> Rewritten(op, start.value) == Created(op)
  {
    assert [op][..0] == [];
  }

  lemma ReplayNext(start: Option<Content>, ops: seq<Op>, op: Op)
    ensures Replay(start, ops + [op]) == Replay(Replay(start, ops), [op])
  {
    assert (ops + [op])[..|ops|] == ops && [op][..0] == [];
  }

  lemma OpsNext(log: seq<Stored>, e: Stored)
    ensures Ops(log + [e]) == Ops(log) + [e.op]
  {}

  // ----- what every run keeps -----

  predicate Locking(s: State) {
    && (forall p | p in s.jobs && s.jobs[p].locked :: s.jobs[p].id in s.locks && s.locks[s.jobs[p].id] == p)
    && (forall id | id in s.locks ::
          s.locks[id] in s.jobs && s.jobs[s.locks[id]].locked && s.jobs[s.locks[id]].id == id)
  }

  predicate Jobs(s: State) {
    forall p | p in s.jobs :: JobOk(s.jobs[p]) && UpToDate(s.jobs[p], BeadAt(s, s.jobs[p].id))
  }

  ghost predicate Logged(beads: map<Id, Bead>, s: State) {
    forall id: Id :: ContentOf(BeadAt(s, id)) == Replay(ContentOf(BeadAt(Initial(beads), id)), LogAt(s, id))
  }

  /** An operation that reports success stored its content, a Close excepted. */
  predicate Honest(r: Result) {
    && (r.ok && !r.op.Close? ==> r.commits >= 1)
    && r.commits <= (if r.op.Create? then 2 else 1)
  }

  ghost predicate Inv(beads: map<Id, Bead>, s: State) {
    Locking(s) && Jobs(s) && Logged(beads, s) && forall r | r in s.results :: Honest(r)
  }

  lemma LogStarts(beads: map<Id, Bead>)
    ensures Inv(beads, Initial(beads))
  {}

  /** A process's own command: only its bead, its lock and its job change. */
  lemma RanKeepsLocking(s: State, p: Proc, o: Outcome)
    requires Locking(s) && Jobs(s) && Enabled(s, Run(p, o)) && s.jobs[p].stage != Return
    ensures Locking(Ran(s, p, o))
  {
    var job := s.jobs[p];
    CommandKeepsPlace(job, BeadAt(s, job.id), o);
    hide Command, Jobs, JobOk, Placed, LogAt, BeadAt;
  }

  lemma RanKeepsOwnJob(s: State, p: Proc, o: Outcome)
    requires Jobs(s) && Enabled(s, Run(p, o)) && s.jobs[p].stage != Return
    ensures var t := Ran(s, p, o);
            JobOk(t.jobs[p]) && UpToDate(t.jobs[p], BeadAt(t, t.jobs[p].id))
  {
    var job := s.jobs[p];
    var bead := BeadAt(s, job.id);
    CommandKeepsPlace(job, bead, o);
    CommandKeepsCount(job, bead, o);
    CommandContent(job, bead, o);
    hide Command, Counted, Placed, Replay, LogAt;
  }

  lemma RanKeepsOtherJob(s: State, p: Proc, o: Outcome, q: Proc)
    requires Locking(s) && Jobs(s) && Enabled(s, Run(p, o)) && s.jobs[p].stage != Return && q in s.jobs && q != p
    ensures var t := Ran(s, p, o);
            JobOk(t.jobs[q]) && UpToDate(t.jobs[q], BeadAt(t, t.jobs[q].id))
  {
    var job, other := s.jobs[p], s.jobs[q];
    assert JobOk(other) && UpToDate(other, BeadAt(s, other.id)) && JobOk(job) && UpToDate(job, BeadAt(s, job.id));
    CommandContent(job, BeadAt(s, job.id), o);
    if other.id == job.id && HasSeen(other.stage) {
      assert other.locked && !job.locked;
    }
    hide Command, Counted, Placed, Replay, LogAt, Jobs, Locking;
  }

  lemma RanKeepsJobs(s: State, p: Proc, o: Outcome)
    requires Locking(s) && Jobs(s) && Enabled(s, Run(p, o)) && s.jobs[p].stage != Return
    ensures Jobs(Ran(s, p, o))
  {
    var t := Ran(s, p, o);
    forall q | q in t.jobs ensures JobOk(t.jobs[q]) && UpToDate(t.jobs[q], BeadAt(t, t.jobs[q].id)) {
      if q == p {
        RanKeepsOwnJob(s, p, o);
      } else {
        RanKeepsOtherJob(s, p, o, q);
      }
    }
    hide Command, JobOk, UpToDate, BeadAt;
  }

  /** What a command leaves at each bead and in its log. */
  lemma RanAt(s: State, p: Proc, o: Outcome, id: Id)
    requires p in s.jobs
    ensures var job, t := s.jobs[p], Ran(s, p, o);
            var eff := Command(job, BeadAt(s, job.id), o);
            StoredAt(t, id) == StoredAt(s, id) + (if id == job.id && eff.stored then [Stored(job.op, job.ticket)] else []) &&
            BeadAt(t, id) == if id == job.id && eff.bead.Some? then eff.bead else BeadAt(s, id)
  {
    hide Command;
  }

  lemma RanKeepsLogAt(beads: map<Id, Bead>, s: State, p: Proc, o: Outcome, id: Id)
    requires Jobs(s) && Logged(beads, s) && Enabled(s, Run(p, o)) && s.jobs[p].stage != Return
    ensures var t := Ran(s, p, o);
            ContentOf(BeadAt(t, id)) == Replay(ContentOf(BeadAt(Initial(beads), id)), LogAt(t, id))
  {
    var job, bead := s.jobs[p], BeadAt(s, s.jobs[p].id);
    assert JobOk(job) && UpToDate(job, bead);
    var start := ContentOf(BeadAt(Initial(beads), id));
    assert ContentOf(BeadAt(s, id)) == Replay(start, LogAt(s, id));
    hide *;
    RanAt(s, p, o, id);
    CommandContent(job, bead, o);
    NothingMore(s, Ran(s, p, o), id);
    OpsNext(StoredAt(s, id), Stored(job.op, job.ticket));
    ReplayNext(start, LogAt(s, id), job.op);
    LogIsOps(s, id);
    LogIsOps(Ran(s, p, o), id);
    NoBeadNoContent(Command(job, bead, o).bead, bead);
  }

  lemma LogIsOps(s: State, id: Id)
    ensures LogAt(s, id) == Ops(StoredAt(s, id))
  {}

  lemma NothingMore(s: State, t: State, id: Id)
    ensures StoredAt(t, id) == StoredAt(s, id) + [] ==> LogAt(t, id) == LogAt(s, id)
  {
    assert StoredAt(s, id) + [] == StoredAt(s, id);
  }

  lemma NoBeadNoContent(after: Option<Bead>, before: Option<Bead>)
    ensures after.None? && ContentOf(after) == ContentOf(before) ==> before.None?
  {}

  lemma RanKeepsLog(beads: map<Id, Bead>, s: State, p: Proc, o: Outcome)
    requires Jobs(s) && Logged(beads, s) && Enabled(s, Run(p, o)) && s.jobs[p].stage != Return
    ensures Logged(beads, Ran(s, p, o))
  {
    forall id: Id ensures ContentOf(BeadAt(Ran(s, p, o), id)) ==
                          Replay(ContentOf(BeadAt(Initial(beads), id)), LogAt(Ran(s, p, o), id)) {
      RanKeepsLogAt(beads, s, p, o, id);
    }
    hide Ran, Replay, BeadAt, LogAt, Initial, ContentOf;
  }

  lemma LogIsThere(beads: map<Id, Bead>, s: State, t: State)
    requires Logged(beads, s) && t.beads == s.beads && t.log == s.log
    ensures Logged(beads, t)
  {
    hide Replay, ContentOf;
    assert forall id :: BeadAt(t, id) == BeadAt(s, id) && LogAt(t, id) == LogAt(s, id);
  }

  lemma GoneKeepsLocking(s: State, p: Proc)
    requires Locking(s) && p in s.jobs
    ensures Locking(Gone(s, p))
  {}

  lemma JobsStay(s: State, t: State)
    requires Jobs(s) && t.beads == s.beads && forall p | p in t.jobs :: p in s.jobs && t.jobs[p] == s.jobs[p]
    ensures Jobs(t)
  {
    hide JobOk, UpToDate;
    assert forall id :: BeadAt(t, id) == BeadAt(s, id);
  }

  lemma GoneKeeps(beads: map<Id, Bead>, s: State, p: Proc)
    requires Inv(beads, s) && p in s.jobs
    ensures Inv(beads, Gone(s, p))
  {
    GoneKeepsLocking(s, p);
    LogIsThere(beads, s, Gone(s, p));
    JobsStay(s, Gone(s, p));
    hide Locking, Jobs, Logged, Honest;
  }

  lemma BeginKeepsJobs(s: State, p: Proc, id: Id, op: Op)
    requires Jobs(s) && Locking(s) && Enabled(s, Begin(p, id, op))
    ensures Jobs(After(s, Begin(p, id, op))) && Locking(After(s, Begin(p, id, op)))
  {
    var t := After(s, Begin(p, id, op));
    assert JobOk(t.jobs[p]) && !HasSeen(t.jobs[p].stage);
    hide JobOk, ValidLevel;
    assert forall i :: BeadAt(t, i) == BeadAt(s, i);
  }

  lemma BeginKeeps(beads: map<Id, Bead>, s: State, p: Proc, id: Id, op: Op)
    requires Inv(beads, s) && Enabled(s, Begin(p, id, op))
    ensures Inv(beads, After(s, Begin(p, id, op)))
  {
    BeginKeepsJobs(s, p, id, op);
    LogIsThere(beads, s, After(s, Begin(p, id, op)));
    hide Locking, Jobs, Logged, Honest, ValidLevel;
  }

  lemma SlotKeeps(beads: map<Id, Bead>, s: State, id: Id, hook: string)
    requires Inv(beads, s) && id in s.beads
    ensures Inv(beads, After(s, Slot(id, hook)))
  {
    hide Replay, JobOk, Honest;
    var t := After(s, Slot(id, hook));
    assert forall i :: ContentOf(BeadAt(t, i)) == ContentOf(BeadAt(s, i)) && LogAt(t, i) == LogAt(s, i);
  }

  lemma StepKeeps(beads: map<Id, Bead>, s: State, e: Event)
    requires Inv(beads, s) && Enabled(s, e)
    ensures Inv(beads, After(s, e))
  {
    match e {
      case Begin(p, id, op) => BeginKeeps(beads, s, p, id, op);
      case Crash(p) => GoneKeeps(beads, s, p);
      case Slot(id, hook) => SlotKeeps(beads, s, id, hook);
      case Run(p, o) =>
        if s.jobs[p].stage == Return {
          assert JobOk(s.jobs[p]);
          GoneKeeps(beads, s, p);
          FinishKeeps(beads, s, p, o);
        } else {
          RanKeepsLocking(s, p, o);
          RanKeepsJobs(s, p, o);
          RanKeepsLog(beads, s, p, o);
        }
    }
  }

  lemma FinishKeeps(beads: map<Id, Bead>, s: State, p: Proc, o: Outcome)
    requires Inv(beads, s) && p in s.jobs && s.jobs[p].stage == Return
    ensures Inv(beads, After(s, Run(p, o)))
  {
    var t := After(s, Run(p, o));
    GoneKeeps(beads, s, p);
    LogIsThere(beads, Gone(s, p), t);
    JobsStay(Gone(s, p), t);
    assert JobOk(s.jobs[p]);
    assert Honest(Result(s.jobs[p].ticket, s.jobs[p].id, s.jobs[p].op, s.jobs[p].ok, s.jobs[p].commits));
    LocksStay(Gone(s, p), t);
    hide Locking, Jobs, Logged, Honest, JobOk, Gone;
  }

  lemma LocksStay(s: State, t: State)
    requires Locking(s) && t.locks == s.locks && t.jobs == s.jobs
    ensures Locking(t)
  {}

  lemma {:induction false} RunKeeps(beads: map<Id, Bead>, s: State, events: seq<Event>)
    requires Inv(beads, s) && IsRun(s, events)
    ensures Inv(beads, Final(s, events))
    decreases |events|
  {
    hide Inv, Enabled, After;
    if events != [] {
      StepKeeps(beads, s, events[0]);
      RunKeeps(beads, After(s, events[0]), events[1..]);
    }
  }

  // ----- the theorems -----

  /** Linearizability. However the processes interleave, fail and crash, every bead's title
      and description are those of its stored operations applied one after the other, each to
      the whole result of the one before. */
  lemma Linearizable(beads: map<Id, Bead>, events: seq<Event>, id: Id)
    requires IsRun(Initial(beads), events)
    ensures var s := Final(Initial(beads), events);
            ContentOf(BeadAt(s, id)) == Replay(ContentOf(BeadAt(Initial(beads), id)), LogAt(s, id))
  {
    LogStarts(beads);
    RunKeeps(beads, Initial(beads), events);
    hide Replay;
  }

  /** What readers of a bead see, one made during the run included, is a record to which the
      same operations were applied in the same order. */
  lemma RefinesRecord(beads: map<Id, Bead>, events: seq<Event>, id: Id)
    requires IsRun(Initial(beads), events) && id in Final(Initial(beads), events).beads
    requires forall op | op in LogAt(Final(Initial(beads), events), id) :: Settles(op)
    ensures var s := Final(Initial(beads), events);
            AF.Parsed(s.beads[id].content.description) ==
            ReplayRecord(if id in beads then AF.Parsed(beads[id].content.description) else AF.EMPTY, LogAt(s, id))
  {
    Linearizable(beads, events, id);
    ReplayRefines(ContentOf(BeadAt(Initial(beads), id)), LogAt(Final(Initial(beads), events), id));
    hide Replay, ReplayRecord, AF.Parsed, IsRun, Final, Settles;
  }

  /** A process that dies leaves the beads as they are and its lock to others. */
  lemma CrashFrees(beads: map<Id, Bead>, events: seq<Event>, p: Proc)
    requires IsRun(Initial(beads), events) && p in Final(Initial(beads), events).jobs
    ensures var s := Final(Initial(beads), events);
            var job, t := s.jobs[p], After(s, Crash(p));
            && t.beads == s.beads && t.log == s.log && t.results == s.results
            && t.jobs == s.jobs - {p}
            && (job.locked ==> s.locks == t.locks[job.id := p] && job.id !in t.locks)
            && (!job.locked ==> t.locks == s.locks)
  {
    LogStarts(beads);
    RunKeeps(beads, Initial(beads), events);
    hide IsRun, Final, Logged, Jobs, Honest;
  }

  /** Beads that were there stay. */
  lemma BeadsStay(beads: map<Id, Bead>, events: seq<Event>, id: Id)
    requires IsRun(Initial(beads), events) && id in beads
    ensures id in Final(Initial(beads), events).beads
  {
    Linearizable(beads, events, id);
    ReplayStays(ContentOf(BeadAt(Initial(beads), id)), LogAt(Final(Initial(beads), events), id));
    hide Replay, IsRun, Final;
  }

  lemma {:induction false} ReplayStays(start: Option<Content>, ops: seq<Op>)
    ensures start.Some? ==> Replay(start, ops).Some?
  {
    if ops != [] {
      ReplayStays(start, ops[..|ops| - 1]);
    }
  }

  /** No update is lost: whatever else was written to other fields, before or after, by
      whichever process, a field shows what the last stored operation on it wrote. */
  lemma NoLostUpdate(beads: map<Id, Bead>, events: seq<Event>, id: Id, f: AF.Field, k: nat)
    requires IsRun(Initial(beads), events) && id in Final(Initial(beads), events).beads
    requires var log := LogAt(Final(Initial(beads), events), id);
             && (forall op | op in log :: Settles(op))
             && k < |log| && Touches(log[k], f) && forall i | k < i < |log| :: !Touches(log[i], f)
    ensures var s := Final(Initial(beads), events);
            AF.Get(AF.Parsed(s.beads[id].content.description), f) ==
            AF.Get(OnRecord(LogAt(s, id)[k], AF.EMPTY), f)
  {
    RefinesRecord(beads, events, id);
    LastWriterWins(if id in beads then AF.Parsed(beads[id].content.description) else AF.EMPTY,
                   LogAt(Final(Initial(beads), events), id), f, k);
    hide ReplayRecord, AF.Parsed, IsRun, Final, Settles, Touches, OnRecord;
  }

  /** At any time at most one process is inside the locked part for a bead, and content is
      only ever stored from there or by the command that makes the bead. */
  lemma StoresAreExclusive(beads: map<Id, Bead>, events: seq<Event>, p: Proc, q: Proc, o: Outcome)
    requires IsRun(Initial(beads), events)
    requires var s := Final(Initial(beads), events);
             p in s.jobs && q in s.jobs && s.jobs[p].id == s.jobs[q].id && s.jobs[q].locked
    ensures var s := Final(Initial(beads), events);
            var id := s.jobs[p].id;
            s.jobs[p].stage != Return && Command(s.jobs[p], BeadAt(s, id), o).stored ==> p == q || id !in s.beads
  {
    LogStarts(beads);
    RunKeeps(beads, Initial(beads), events);
    hide IsRun, Final, Logged;
    var s := Final(Initial(beads), events);
    var job := s.jobs[p];
    assert JobOk(job) && UpToDate(job, BeadAt(s, job.id));
    if job.stage != Return {
      CommandContent(job, BeadAt(s, job.id), o);
    }
    hide Command, JobOk, Replay;
  }

  /** The order of stores is the order in time: what is stored stays where it is in the log. */
  lemma {:induction false} LogGrows(s: State, events: seq<Event>, id: Id)
    requires IsRun(s, events)
    ensures LogAt(s, id) <= LogAt(Final(s, events), id)
    decreases |events|
  {
    if events != [] {
      LogStep(s, events[0], id);
      hide Enabled, After, LogAt;
      LogGrows(After(s, events[0]), events[1..], id);
    }
  }

  lemma LogStep(s: State, e: Event, id: Id)
    requires Enabled(s, e)
    ensures LogAt(s, id) <= LogAt(After(s, e), id)
  {
    hide Command, ValidLevel;
  }

  /** A lock is never stuck: its holder gets to the end of its operation by itself, without
      waiting for anybody, however its commands turn out. */
  lemma {:induction false} HolderFinishes(beads: map<Id, Bead>, s: State, p: Proc, o: Outcome) returns (events: seq<Event>)
    requires Inv(beads, s) && p in s.jobs && s.jobs[p].locked
    ensures |events| <= Rank(s.jobs[p].stage) + 1 && (forall e | e in events :: e == Run(p, o))
    ensures IsRun(s, events) && s.jobs[p].id !in Final(s, events).locks && p !in Final(s, events).jobs
    decreases Rank(s.jobs[p].stage)
  {
    var job := s.jobs[p];
    assert JobOk(job);
    var e := Run(p, o);
    StepKeeps(beads, s, e);
    var t := After(s, e);
    if job.stage == Return {
      assert IsRun(t, []) && [e][1..] == [];
      return [e];
    }
    CommandProgress(job, BeadAt(s, job.id), o);
    CommandKeepsPlace(job, BeadAt(s, job.id), o);
    hide Inv, Command, JobOk, Replay;
    assert t.jobs[p] == Command(job, BeadAt(s, job.id), o).job;
    var rest := HolderFinishes(beads, t, p, o);
    events := [e] + rest;
    assert events[1..] == rest;
  }
}
