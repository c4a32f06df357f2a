/** What one run of `gt done` may do, in which order, and the exact conditions under which
    it does it. A run is the history of its steps; a crash leaves a prefix of one. */
module DoneProtocol {
  import opened Text

  datatype ExitType = Completed | Escalated | Deferred | PhaseComplete

  // ----- what the run finds -----

  /** The command line: BD_ACTOR, --phase-complete, --gate, --status, --issue, --cleanup-status. */
  datatype Flags = Flags(actor: string, phaseComplete: bool, gate: string, status: string, issue: string, cleanup: string)

  /** Role detection: whether the caller is a polecat, with which names, and its agent bead. */
  datatype Role = Role(polecat: bool, rig: string, name: string, agentBead: string)

  /** Where the run finds itself. `branch` is None when neither git nor the environment tells;
      `role(n)` is what the n-th role detection of the run says. */
  datatype Place = Place(
    inTown: bool, cwdAvailable: bool, rigName: string, envBranch: string, branch: Option<string>, branchIssue: string,
    hookIssue: string, role: nat -> Option<Role>)

  /** The state of the work: what the first look at the worktree says, for the cleanup status;
      whether it is dirty (None: unknown) when it matters; commits ahead of the remote and of
      the local default branch; the source issue; and a merge request already there. */
  datatype Work = Work(
    defaultBranch: string, dirtyAtFirst: Option<bool>, stashed: bool, pushed: Option<bool>, dirty: Option<bool>,
    ahead: Option<nat>, aheadLocal: Option<nat>, noMerge: bool, dispatcher: string, existingMR: Option<string>)

  /** What the agent bead says: its hook (None: no such bead), whether the hooked bead is
      still hooked, and the molecule attached to it; whether done-intent labels are found. */
  datatype AgentBead = AgentBead(hook: Option<string>, stillHooked: bool, molecule: string, labelled: bool, envRole: Option<Role>)

  /** What the removal of the worktree finds: the manager, the remotes and the branch. */
  datatype Clone = Clone(managed: bool, remotes: nat, branch: Option<string>, onRemote: nat -> bool)

  /** Everything a run can meet; `works(s, n)` says whether the n-th attempt at a step succeeds. */
  datatype World = World(
    flags: Flags, place: Place, work: Work, agent: AgentBead, clone: Clone, dataBranch: bool, works: (Step, nat) -> bool)

  // ----- what the run does -----

  /** The steps other processes can see or that guard one. CheckWork succeeds when the
      worktree is clean, CountAhead when there may be commits to submit, SeeRemote when the
      checked-out branch is on a remote. */
  datatype Step =
    | SetIntent | CheckWork | CountAhead | ForceClose | Push | MailDispatcher | CreateMR | LinkMR | Nudge
    | JoinGate | MergeData | MailDone | MailWorkDone | ReadAgent | CloseMolecule | CloseHooked | ClearHook
    | SetState | ReportCleanup | ClearIntent | SeeRemote | RemoveWorktree | KillSession | Exit

  datatype Event = Event(step: Step, ok: bool)

  type History = seq<Event>

  predicate Did(h: History, s: Step) {
    Event(s, true) in h
  }

  predicate Failed(h: History, s: Step) {
    Event(s, false) in h
  }

  predicate Tried(h: History, s: Step) {
    Did(h, s) || Failed(h, s)
  }

  function Failures(h: History, s: Step): nat {
    if h == [] then 0 else Failures(h[..|h| - 1], s) + if h[|h| - 1] == Event(s, false) then 1 else 0
  }

  // ----- derived from the world -----

  function UpperChar(c: char): char {
    if 'a' <= c <= 'z' then (c as int - 32) as char
    else if c == '\U{0131}' then 'I'
    else if c == '\U{017F}' then 'S'
    else c
  }

  function ToUpper(s: string): string {
    seq(|s|, i requires 0 <= i < |s| => UpperChar(s[i]))
  }

  /** `isPolecatActor`: rig/polecats/name. */
  predicate IsPolecatActor(actor: string) {
    var parts := Split(actor, '/');
    |parts| >= 2 && parts[1] == "polecats"
  }

  /** The exit type the flags ask for, or None when they are refused. */
  function ExitOf(f: Flags): Option<ExitType> {
    if f.actor != "" && !IsPolecatActor(f.actor) then None
    else if f.phaseComplete then (if f.gate == "" then None else Some(PhaseComplete))
    else
      match ToUpper(f.status)
      case "COMPLETED" => Some(Completed)
      case "ESCALATED" => Some(Escalated)
      case "DEFERRED" => Some(Deferred)
      case _ => None
  }

  function BranchOf(p: Place): Option<string> {
    if !p.cwdAvailable && p.envBranch != "" then Some(p.envBranch) else p.branch
  }

  /** The town, the rig and the branch are known. */
  predicate Located(p: Place) {
    p.inTown && p.rigName != "" && BranchOf(p).Some?
  }

  function AgentBeadOf(role: Option<Role>): string {
    if role.Some? then role.value.agentBead else ""
  }

  predicate IsPolecat(role: Option<Role>) {
    role.Some? && role.value.polecat
  }

  function IssueOf(w: World): string {
    if w.flags.issue != "" then w.flags.issue
    else if w.place.branchIssue != "" then w.place.branchIssue
    else if AgentBeadOf(w.place.role(1)) != "" then w.place.hookIssue
    else ""
  }

  /** Commits to submit; when neither comparison works, they are assumed to exist. */
  predicate MayBeAhead(w: Work) {
    w.ahead.GetOr(w.aheadLocal.GetOr(1)) > 0
  }

  /** Not a default branch, and the worktree is there. */
  predicate BranchMayComplete(w: World) {
    && BranchOf(w.place).Some? && BranchOf(w.place).value != w.work.defaultBranch && BranchOf(w.place).value != "master"
    && w.place.cwdAvailable
  }

  predicate Completable(w: World) {
    BranchMayComplete(w) && w.work.dirty == Some(false)
  }

  predicate PushFails(w: World) {
    MayBeAhead(w.work) && !w.works(Push, 1)
  }

  /** The run gets past validation and role detection. */
  predicate Starts(w: World) {
    ExitOf(w.flags).Some? && Located(w.place)
  }

  /** The run gets to the notification of the witness instead of returning an error. */
  predicate ReachesWitness(w: World) {
    && Starts(w)
    && (ExitOf(w.flags) == Some(Completed) ==>
          Completable(w) && (MayBeAhead(w.work) && w.works(Push, 1) ==> IssueOf(w) != ""))
  }

  predicate SubmitsMR(w: World) {
    && ReachesWitness(w) && ExitOf(w.flags) == Some(Completed)
    && MayBeAhead(w.work) && w.works(Push, 1) && !w.work.noMerge && w.work.existingMR.None?
  }

  predicate SeenOnRemote(c: Clone) {
    c.branch.Some? && exists i | 0 <= i < c.remotes :: c.onRemote(i)
  }

  /** Exactly when the removal of the worktree is attempted. */
  predicate Removes(w: World) {
    && ReachesWitness(w) && ExitOf(w.flags) == Some(Completed) && !PushFails(w)
    && IsPolecat(w.place.role(3)) && w.place.role(3).value.rig != "" && w.place.role(3).value.name != ""
    && w.clone.managed && SeenOnRemote(w.clone)
  }

  /** Exactly when a session kill is attempted: by the end of the run or by the deferred
      backstop, each trusting its own role detection. */
  predicate Kills(w: World) {
    if ReachesWitness(w) then IsPolecat(w.place.role(3)) else Starts(w) && IsPolecat(w.place.role(1))
  }

  /** The agent bead that the state update works on: role detection again, or the environment. */
  function FinalAgentBead(w: World): string {
    AgentBeadOf(if w.place.role(2).Some? then w.place.role(2) else w.agent.envRole)
  }

  /** The hooked bead has a molecule to close first. */
  predicate MoleculeBlocks(a: AgentBead) {
    a.hook.Some? && a.hook.value != "" && a.stillHooked && a.molecule != ""
  }

  predicate MoleculeCloses(w: World) {
    w.works(CloseMolecule, 1) || w.works(CloseMolecule, 2) || w.works(CloseMolecule, 3)
  }

  /** The agent bead is there and nothing blocks the hooked bead. */
  predicate ClearsHook(w: World) {
    ReachesWitness(w) && FinalAgentBead(w) != "" && w.agent.hook.Some? && (MoleculeBlocks(w.agent) ==> MoleculeCloses(w))
  }

  /** Exactly when closing the hooked bead is attempted. */
  predicate ClosesHooked(w: World) {
    ClearsHook(w) && w.agent.hook.value != "" && w.agent.stillHooked
  }

  /** The cleanup status that is reported: as given, or as seen in the worktree. */
  function CleanupOf(w: World): string {
    if w.flags.cleanup != "" then w.flags.cleanup
    else if !w.place.cwdAvailable then "unknown"
    else if w.work.dirtyAtFirst.None? then ""
    else if w.work.dirtyAtFirst.value then "uncommitted"
    else if w.work.stashed then "stash"
    else if w.work.pushed == Some(true) then "clean"
    else "unpushed"
  }

  predicate KnownCleanup(s: string) {
    ToLower(s) in {"clean", "uncommitted", "has_uncommitted", "stash", "has_stash", "unpushed", "has_unpushed"}
  }

  /** Exactly when the done-intent labels are removed from the agent bead. */
  predicate ClearsIntent(w: World) {
    && ClearsHook(w) && w.agent.labelled
    && (KnownCleanup(CleanupOf(w)) ==> w.works(ReportCleanup, 1))
  }

  // ----- the history of a whole run -----
  // Each function takes the history so far and gives it with what its part of the run adds.

  function Then(h: History, s: Step, ok: bool): History {
    h + [Event(s, ok)]
  }

  function Once(w: World, h: History, s: Step): History {
    Then(h, s, w.works(s, 1))
  }

  function OnceIf(b: bool, w: World, h: History, s: Step): History {
    if b then Once(w, h, s) else h
  }

  /** Attempts number n to 3, up to the first that works. */
  function Retry(w: World, h: History, s: Step, n: nat): History
    decreases 4 - n
  {
    if n > 3 then h
    else if w.works(s, n) then Then(h, s, true)
    else Retry(w, Then(h, s, false), s, n + 1)
  }

  /** The completion of work: checks, push and merge request, as far as the run gets. */
  function Submission(w: World, h: History): History {
    if !BranchMayComplete(w) then h
    else if w.work.dirty != Some(false) then Then(h, CheckWork, false)
    else
      var counted := Then(Then(h, CheckWork, true), CountAhead, MayBeAhead(w.work));
      if !MayBeAhead(w.work) then (if IssueOf(w) != "" then Retry(w, counted, ForceClose, 1) else counted)
      else
        var pushed := Once(w, counted, Push);
        if w.works(Push, 1) && IssueOf(w) != "" then MergeRequest(w, pushed) else pushed
  }

  function MergeRequest(w: World, h: History): History {
    if w.work.noMerge then OnceIf(w.work.dispatcher != "", w, h, MailDispatcher)
    else if w.work.existingMR.Some? then h
    else
      var created := Once(w, h, CreateMR);
      if w.works(CreateMR, 1) then Once(w, OnceIf(AgentBeadOf(w.place.role(1)) != "", w, created, LinkMR), Nudge)
      else created
  }

  /** Up to the notification of the witness, or to the error that comes before it. */
  function Begun(w: World, h: History): History {
    var marked := OnceIf(AgentBeadOf(w.place.role(1)) != "", w, h, SetIntent);
    if ExitOf(w.flags) == Some(Completed) then Submission(w, marked)
    else OnceIf(ExitOf(w.flags) == Some(PhaseComplete), w, marked, JoinGate)
  }

  function Witnessed(w: World, h: History): History {
    OnceIf(IssueOf(w) != "", w, Once(w, OnceIf(w.dataBranch, w, h, MergeData), MailDone), MailWorkDone)
  }

  /** The agent state update. */
  function AgentUpdated(w: World, h: History): History {
    if FinalAgentBead(w) == "" then h
    else
      var read := Then(h, ReadAgent, w.agent.hook.Some?);
      if w.agent.hook.None? then read
      else
        var freed := if MoleculeBlocks(w.agent) then Retry(w, read, CloseMolecule, 1) else read;
        if MoleculeBlocks(w.agent) && !MoleculeCloses(w) then freed
        else Reported(w, OnceIf(w.agent.hook.value != "" && w.agent.stillHooked, w, freed, CloseHooked))
  }

  function Reported(w: World, h: History): History {
    var state := ExitOf(w.flags) == Some(Escalated) || ExitOf(w.flags) == Some(PhaseComplete);
    var stated := OnceIf(state, w, Once(w, h, ClearHook), SetState);
    if KnownCleanup(CleanupOf(w)) then
      var told := Once(w, stated, ReportCleanup);
      OnceIf(w.works(ReportCleanup, 1) && w.agent.labelled, w, told, ClearIntent)
    else OnceIf(w.agent.labelled, w, stated, ClearIntent)
  }

  /** Looking for the branch on the remotes from the i-th on, up to the first that has it. */
  function Looked(c: Clone, h: History, i: nat): History
    decreases c.remotes - i
  {
    if i >= c.remotes then h
    else if c.onRemote(i) then Then(h, SeeRemote, true)
    else Looked(c, Then(h, SeeRemote, false), i + 1)
  }

  function Removed(w: World, h: History, role: Role): History {
    if role.name == "" || role.rig == "" || !w.clone.managed || w.clone.branch.None? then h
    else OnceIf(SeenOnRemote(w.clone), w, Looked(w.clone, h, 0), RemoveWorktree)
  }

  function CleanedUp(w: World, h: History): History {
    var role := w.place.role(3);
    var ended :=
      if !IsPolecat(role) then h
      else Once(w, if ExitOf(w.flags) == Some(Completed) && !PushFails(w) then Removed(w, h, role.value) else h, KillSession);
    Then(ended, Exit, true)
  }

  /** The history of a run that does not crash. */
  function Trace(w: World): History {
    if !Starts(w) then []
    else if ReachesWitness(w) then CleanedUp(w, AgentUpdated(w, Witnessed(w, Begun(w, []))))
    else if IsPolecat(w.place.role(1)) then Then(Once(w, Begun(w, []), KillSession), Exit, true)
    else Begun(w, [])
  }

  // ----- what must come before what -----

  /** The order in which a run takes its steps. */
  function Order(s: Step): nat {
    match s
    case SetIntent => 0 case CheckWork => 1 case CountAhead => 2 case ForceClose => 3 case Push => 4
    case MailDispatcher => 5 case CreateMR => 6 case LinkMR => 7 case Nudge => 8 case JoinGate => 9
    case MergeData => 10 case MailDone => 11 case MailWorkDone => 12 case ReadAgent => 13 case CloseMolecule => 14
    case CloseHooked => 15 case ClearHook => 16 case SetState => 17 case ReportCleanup => 18 case ClearIntent => 19
    case SeeRemote => 20 case RemoveWorktree => 21 case KillSession => 22 case Exit => 23
  }

  /** Steps that are tried again when they fail. */
  predicate Retried(s: Step) {
    s.ForceClose? || s.CloseMolecule? || s.SeeRemote?
  }

  /** What must have happened for a step to be taken. */
  predicate Grounds(w: World, h: History, s: Step) {
    match s
    case CheckWork => ExitOf(w.flags) == Some(Completed)
    case CountAhead => Did(h, CheckWork)
    case ForceClose => Failed(h, CountAhead) && Failures(h, ForceClose) < 3
    case Push => Did(h, CountAhead)
    case MailDispatcher => Did(h, Push) && w.work.noMerge
    case CreateMR => Did(h, Push) && !w.work.noMerge
    case LinkMR => Did(h, CreateMR)
    case Nudge => Did(h, CreateMR)
    case JoinGate => ExitOf(w.flags) == Some(PhaseComplete)
    case MailWorkDone => Tried(h, MailDone)
    case ReadAgent => Tried(h, MailDone)
    case CloseMolecule => Did(h, ReadAgent) && Failures(h, CloseMolecule) < 3
    case CloseHooked => Did(h, ReadAgent) && (MoleculeBlocks(w.agent) ==> Did(h, CloseMolecule))
    case ClearHook => Did(h, ReadAgent) && (MoleculeBlocks(w.agent) ==> Did(h, CloseMolecule))
    case SetState => Tried(h, ClearHook)
    case ReportCleanup => Tried(h, ClearHook)
    case ClearIntent => Tried(h, ClearHook) && !Failed(h, ReportCleanup)
    case SeeRemote => Did(h, CheckWork) && (Did(h, Push) || Failed(h, CountAhead))
    case RemoveWorktree => Did(h, SeeRemote)
    case _ => true
  }

  /** A step comes after the earlier ones, is repeated only where it failed, and has its grounds. */
  predicate Allowed(w: World, h: History, s: Step) {
    && (forall e | e in h :: Order(e.step) < Order(s) || (e == Event(s, false) && Retried(s)))
    && Grounds(w, h, s)
  }

  /** Every step was allowed when it was taken. */
  predicate Safe(w: World, h: History) {
    h == [] || (Safe(w, h[..|h| - 1]) && Allowed(w, h[..|h| - 1], h[|h| - 1].step))
  }
}
