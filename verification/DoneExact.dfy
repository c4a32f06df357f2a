/** Every step of `gt done`: exactly when it is taken and how it ends, told by what the run
    finds and not by the notions the run itself works with. */
module DoneExact {
  import opened Text
  import opened DoneProtocol
  import opened DoneGuarantees

  // ----- what the run finds -----

  /** The status, in any case; besides a-z two letters have an upper-case ASCII one. */
  predicate Says(status: string, word: string) {
    |status| == |word| && forall i | 0 <= i < |word| ::
      || status[i] == word[i] || ('A' <= word[i] <= 'Z' && status[i] as int == word[i] as int + 32)
      || (word[i] == 'I' && status[i] == '\U{0131}') || (word[i] == 'S' && status[i] == '\U{017F}')
  }

  /** No actor is set, or its second component is `polecats`. */
  predicate Admitted(f: Flags) {
    f.actor == "" || (|Split(f.actor, '/')| >= 2 && Split(f.actor, '/')[1] == "polecats")
  }

  predicate Asks(f: Flags, word: string) {
    Admitted(f) && !f.phaseComplete && Says(f.status, word)
  }

  predicate AsksPhase(f: Flags) {
    Admitted(f) && f.phaseComplete && f.gate != ""
  }

  predicate Completes(w: World) {
    Asks(w.flags, "COMPLETED")
  }

  /** A known exit type, in a town and a rig, on a branch or told one by the environment when the
      worktree is gone. */
  predicate Begins(w: World) {
    && (Completes(w) || Asks(w.flags, "ESCALATED") || Asks(w.flags, "DEFERRED") || AsksPhase(w.flags))
    && w.place.inTown && w.place.rigName != ""
    && (w.place.branch.Some? || (!w.place.cwdAvailable && w.place.envBranch != ""))
  }

  predicate HasAgent(w: World) {
    w.place.role(1).Some? && w.place.role(1).value.agentBead != ""
  }

  /** The issue is given, or in the branch name, or on the agent's hook. */
  predicate HasIssue(w: World) {
    w.flags.issue != "" || w.place.branchIssue != "" || (HasAgent(w) && w.place.hookIssue != "")
  }

  /** On a branch of its own, in a worktree that is there. */
  predicate OnBranch(w: World) {
    w.place.cwdAvailable && w.place.branch.Some? && w.place.branch.value !in {w.work.defaultBranch, "master"}
  }

  predicate Committed(w: World) {
    Begins(w) && Completes(w) && OnBranch(w) && w.work.dirty == Some(false)
  }

  /** The first of the two counts that is known is positive, or none is known. */
  predicate HasCommits(k: Work) {
    match k.ahead
    case Some(n) => n > 0
    case None => match k.aheadLocal case Some(n) => n > 0 case None => true
  }

  predicate Pushed(w: World) {
    Committed(w) && HasCommits(w.work) && w.works(Push, 1)
  }

  /** The run gets to the witness. */
  predicate Arrives(w: World) {
    Begins(w) && (Completes(w) ==> Committed(w) && (Pushed(w) ==> HasIssue(w)))
  }

  predicate Creates(w: World) {
    Pushed(w) && HasIssue(w) && !w.work.noMerge && w.work.existingMR.None?
  }

  /** The agent bead by the second role detection, or if that fails by the environment. */
  function StateBead(w: World): string {
    if w.place.role(2).Some? then w.place.role(2).value.agentBead
    else if w.agent.envRole.Some? then w.agent.envRole.value.agentBead else ""
  }

  predicate Hooked(a: AgentBead) {
    a.hook.Some? && a.hook.value != "" && a.stillHooked
  }

  predicate ThirdTime(w: World, s: Step) {
    w.works(s, 1) || w.works(s, 2) || w.works(s, 3)
  }

  /** The agent bead is there, and the molecule of a bead that is still hooked closes. */
  predicate Frees(w: World) {
    && Arrives(w) && StateBead(w) != "" && w.agent.hook.Some?
    && (Hooked(w.agent) && w.agent.molecule != "" ==> ThirdTime(w, CloseMolecule))
  }

  const STATUSES: set<string> :=
    {"clean", "uncommitted", "has_uncommitted", "stash", "has_stash", "unpushed", "has_unpushed"}

  /** The cleanup status given is one of the known ones, or none is given and the worktree could
      be looked at. */
  predicate KnowsStatus(w: World) {
    if w.flags.cleanup != "" then ToLower(w.flags.cleanup) in STATUSES
    else w.place.cwdAvailable && w.work.dirtyAtFirst.Some?
  }

  predicate Polecat(w: World, n: nat) {
    w.place.role(n).Some? && w.place.role(n).value.polecat
  }

  /** A completion that did not fail to push, of a polecat with a name and a clone on a branch. */
  predicate Looks(w: World) {
    && Arrives(w) && Completes(w) && (HasCommits(w.work) ==> w.works(Push, 1))
    && Polecat(w, 3) && w.place.role(3).value.rig != "" && w.place.role(3).value.name != ""
    && w.clone.managed && w.clone.branch.Some?
  }

  predicate OnSomeRemote(c: Clone, from: nat) {
    exists i | from <= i < c.remotes :: c.onRemote(i)
  }

  // ----- every event -----

  predicate First(w: World, e: Event) {
    e.ok == w.works(e.step, 1)
  }

  /** How up to three attempts show in a history: the first failed, or one worked. */
  predicate Tries(w: World, e: Event) {
    if e.ok then ThirdTime(w, e.step) else !w.works(e.step, 1)
  }

  /** Up to the merge queue, or the gate. */
  predicate AtWork(w: World, e: Event) {
    match e.step
    case SetIntent => Begins(w) && HasAgent(w) && First(w, e)
    case CheckWork => Begins(w) && Completes(w) && OnBranch(w) && e.ok == (w.work.dirty == Some(false))
    case CountAhead => Committed(w) && e.ok == HasCommits(w.work)
    case ForceClose => Committed(w) && !HasCommits(w.work) && HasIssue(w) && Tries(w, e)
    case Push => Committed(w) && HasCommits(w.work) && First(w, e)
    case MailDispatcher => Pushed(w) && HasIssue(w) && w.work.noMerge && w.work.dispatcher != "" && First(w, e)
    case CreateMR => Creates(w) && First(w, e)
    case LinkMR => Creates(w) && w.works(CreateMR, 1) && HasAgent(w) && First(w, e)
    case Nudge => Creates(w) && w.works(CreateMR, 1) && First(w, e)
    case JoinGate => Begins(w) && AsksPhase(w.flags) && First(w, e)
    case _ => false
  }

  predicate AtWitness(w: World, e: Event) {
    match e.step
    case MergeData => Arrives(w) && w.dataBranch && First(w, e)
    case MailDone => Arrives(w) && First(w, e)
    case MailWorkDone => Arrives(w) && HasIssue(w) && First(w, e)
    case _ => false
  }

  /** The agent bead. */
  predicate AtAgent(w: World, e: Event) {
    match e.step
    case ReadAgent => Arrives(w) && StateBead(w) != "" && e.ok == w.agent.hook.Some?
    case CloseMolecule => Arrives(w) && StateBead(w) != "" && Hooked(w.agent) && w.agent.molecule != "" && Tries(w, e)
    case CloseHooked => Frees(w) && Hooked(w.agent) && First(w, e)
    case _ => AtReport(w, e)
  }

  predicate AtReport(w: World, e: Event) {
    match e.step
    case ClearHook => Frees(w) && First(w, e)
    case SetState => Frees(w) && (Asks(w.flags, "ESCALATED") || AsksPhase(w.flags)) && First(w, e)
    case ReportCleanup => Frees(w) && KnowsStatus(w) && First(w, e)
    case ClearIntent => Frees(w) && w.agent.labelled && (KnowsStatus(w) ==> w.works(ReportCleanup, 1)) && First(w, e)
    case _ => false
  }

  predicate AtEnd(w: World, e: Event) {
    match e.step
    case SeeRemote => Looks(w) && w.clone.remotes > 0 && if e.ok then OnSomeRemote(w.clone, 0) else !w.clone.onRemote(0)
    case RemoveWorktree => Looks(w) && OnSomeRemote(w.clone, 0) && First(w, e)
    case KillSession => (if Arrives(w) then Polecat(w, 3) else Begins(w) && Polecat(w, 1)) && First(w, e)
    case Exit => (Arrives(w) || (Begins(w) && Polecat(w, 1))) && e.ok
    case _ => false
  }

  /** What happens in a run of this world. */
  predicate Happens(w: World, e: Event) {
    AtWork(w, e) || AtWitness(w, e) || AtAgent(w, e) || AtEnd(w, e)
  }

  // ----- the notions of the run, told by what it finds -----

  lemma UpperIs(status: string, word: string)
    requires forall c | c in word :: 'A' <= c <= 'Z'
    ensures ToUpper(status) == word <==> Says(status, word)
  {
    assert forall i | 0 <= i < |word| :: word[i] in word;
    if |status| == |word| {
      assert forall i | 0 <= i < |word| :: ToUpper(status)[i] == UpperChar(status[i]);
    }
    if Says(status, word) {
      assert forall i | 0 <= i < |word| :: ToUpper(status)[i] == word[i];
    }
  }

  /** The exit types: a status in any case, a phase only with a gate, and none for an actor that is
      no polecat. */
  lemma ExitIs(f: Flags)
    ensures ExitOf(f) == Some(Completed) <==> Asks(f, "COMPLETED")
    ensures ExitOf(f) == Some(Escalated) <==> Asks(f, "ESCALATED")
    ensures ExitOf(f) == Some(Deferred) <==> Asks(f, "DEFERRED")
    ensures ExitOf(f) == Some(PhaseComplete) <==> AsksPhase(f)
    ensures ExitOf(f).Some? <==> Asks(f, "COMPLETED") || Asks(f, "ESCALATED") || Asks(f, "DEFERRED") || AsksPhase(f)
  {
    UpperIs(f.status, "COMPLETED");
    UpperIs(f.status, "ESCALATED");
    UpperIs(f.status, "DEFERRED");
    hide ToUpper, Says;
  }

  /** The issue is the first that is known: given, in the branch name, or on the agent's hook. */
  lemma IssueIs(w: World)
    ensures IssueOf(w) != "" <==> HasIssue(w)
    ensures w.flags.issue != "" ==> IssueOf(w) == w.flags.issue
    ensures w.flags.issue == "" && w.place.branchIssue != "" ==> IssueOf(w) == w.place.branchIssue
    ensures w.flags.issue == "" && w.place.branchIssue == "" && HasAgent(w) ==> IssueOf(w) == w.place.hookIssue
  {}

  lemma CommitsAre(k: Work)
    ensures MayBeAhead(k) <==> HasCommits(k)
  {}

  /** The branch is the one git tells; without a worktree the environment comes first. */
  lemma BranchIs(p: Place)
    ensures p.cwdAvailable || p.envBranch == "" ==> BranchOf(p) == p.branch
    ensures !p.cwdAvailable && p.envBranch != "" ==> BranchOf(p) == Some(p.envBranch)
  {}

  lemma StatusIs(w: World)
    ensures KnownCleanup(CleanupOf(w)) <==> KnowsStatus(w)
  {
    KnownWords();
    hide ToLower;
  }

  lemma KnownWords()
    ensures ToLower("uncommitted") == "uncommitted" && ToLower("stash") == "stash" && ToLower("clean") == "clean"
    ensures ToLower("unpushed") == "unpushed" && ToLower("unknown") == "unknown" && ToLower("") == ""
  {}

  /** The status that is reported when none is given. */
  lemma CleanupIs(w: World)
    requires w.flags.cleanup == "" && w.place.cwdAvailable && w.work.dirtyAtFirst.Some?
    ensures CleanupOf(w) in {"uncommitted", "stash", "clean", "unpushed"}
    ensures CleanupOf(w) == "uncommitted" <==> w.work.dirtyAtFirst == Some(true)
    ensures CleanupOf(w) == "stash" <==> w.work.dirtyAtFirst == Some(false) && w.work.stashed
    ensures CleanupOf(w) == "clean" <==> w.work.dirtyAtFirst == Some(false) && !w.work.stashed && w.work.pushed == Some(true)
  {}

  lemma StartIs(w: World)
    ensures Starts(w) <==> Begins(w)
    ensures ExitOf(w.flags) == Some(Completed) <==> Completes(w)
    ensures BranchMayComplete(w) <==> OnBranch(w)
    ensures ReachesWitness(w) <==> Arrives(w)
    ensures FinalAgentBead(w) == StateBead(w)
    ensures AgentBeadOf(w.place.role(1)) != "" <==> HasAgent(w)
  {
    ExitIs(w.flags);
    IssueIs(w);
    CommitsAre(w.work);
    hide ExitOf, Says, Admitted, IssueOf, HasIssue, MayBeAhead, HasCommits;
  }

  // ----- the parts of a run -----

  lemma InThen(h: History, s: Step, ok: bool, e: Event)
    ensures e in Then(h, s, ok) <==> e in h || e == Event(s, ok)
  {}

  lemma InOnceIf(b: bool, w: World, h: History, s: Step, e: Event)
    ensures e in OnceIf(b, w, h, s) <==> e in h || (b && e.step == s && First(w, e))
    ensures e in Once(w, h, s) <==> e in h || (e.step == s && First(w, e))
  {}

  lemma InRetry(w: World, h: History, s: Step, e: Event)
    ensures e in Retry(w, h, s, 1) <==> e in h || (e.step == s && Tries(w, e))
  {
    var h1 := Then(h, s, false);
    var h2 := Then(h1, s, false);
    assert Retry(w, h, s, 1) == if w.works(s, 1) then Then(h, s, true) else Retry(w, h1, s, 2);
    assert Retry(w, h1, s, 2) == if w.works(s, 2) then Then(h1, s, true) else Retry(w, h2, s, 3);
    assert Retry(w, h2, s, 3) == if w.works(s, 3) then Then(h2, s, true) else Then(h2, s, false);
  }

  lemma InMergeRequest(w: World, h: History, e: Event)
    requires Pushed(w) && HasIssue(w)
    ensures e in MergeRequest(w, h) <==> e in h || (e.step in {MailDispatcher, CreateMR, LinkMR, Nudge} && AtWork(w, e))
  {
    var created := Once(w, h, CreateMR);
    StartIs(w);
    hide Pushed, HasIssue, HasAgent, AgentBeadOf, First, Once, OnceIf;
    var agent := AgentBeadOf(w.place.role(1)) != "";
    InOnceIf(w.work.dispatcher != "", w, h, MailDispatcher, e);
    InOnceIf(true, w, h, CreateMR, e);
    InOnceIf(agent, w, created, LinkMR, e);
    InOnceIf(true, w, OnceIf(agent, w, created, LinkMR), Nudge, e);
  }

  lemma InSubmission(w: World, h: History, e: Event)
    requires Begins(w) && Completes(w)
    ensures e in Submission(w, h) <==> e in h || (e.step !in {SetIntent, JoinGate} && AtWork(w, e))
  {
    var checked := Then(h, CheckWork, true);
    var counted := Then(checked, CountAhead, MayBeAhead(w.work));
    StartIs(w);
    IssueIs(w);
    CommitsAre(w.work);
    InThen(h, CheckWork, false, e);
    InThen(h, CheckWork, true, e);
    InThen(checked, CountAhead, MayBeAhead(w.work), e);
    InRetry(w, counted, ForceClose, e);
    InOnceIf(true, w, counted, Push, e);
    if Pushed(w) && HasIssue(w) {
      InMergeRequest(w, Once(w, counted, Push), e);
    }
    hide Then, Once, Retry, MergeRequest, Begins, Completes, OnBranch, HasIssue, HasCommits, MayBeAhead, IssueOf, BranchMayComplete, First, Tries, HasAgent;
  }

  lemma NotBoth(w: World)
    ensures Completes(w) ==> !AsksPhase(w.flags)
  {}

  lemma InBegun(w: World, e: Event)
    requires Begins(w)
    ensures e in Begun(w, []) <==> AtWork(w, e)
  {
    var agent := AgentBeadOf(w.place.role(1)) != "";
    var marked := OnceIf(agent, w, [], SetIntent);
    StartIs(w);
    ExitIs(w.flags);
    NotBoth(w);
    InOnceIf(agent, w, [], SetIntent, e);
    InOnceIf(ExitOf(w.flags) == Some(PhaseComplete), w, marked, JoinGate, e);
    if Completes(w) {
      InSubmission(w, marked, e);
    } else {
      NoSubmission(w, e);
    }
    hide Submission, OnceIf, Begins, AsksPhase, Completes, HasAgent, AgentBeadOf, First, ExitOf, Committed, Pushed, Creates, HasIssue, HasCommits, OnBranch, Tries, ThirdTime;
  }

  lemma NoSubmission(w: World, e: Event)
    requires !Completes(w)
    ensures AtWork(w, e) ==> e.step in {SetIntent, JoinGate}
  {
    hide Completes, Begins, HasAgent, HasIssue, HasCommits, OnBranch, First, Tries, AsksPhase;
  }

  lemma InWitnessed(w: World, h: History, e: Event)
    requires Arrives(w)
    ensures e in Witnessed(w, h) <==> e in h || AtWitness(w, e)
  {
    var merged := OnceIf(w.dataBranch, w, h, MergeData);
    var told := Once(w, merged, MailDone);
    IssueIs(w);
    InOnceIf(w.dataBranch, w, h, MergeData, e);
    InOnceIf(true, w, merged, MailDone, e);
    InOnceIf(IssueOf(w) != "", w, told, MailWorkDone, e);
    hide OnceIf, Once, Arrives, HasIssue, IssueOf, First;
  }

  lemma InReported(w: World, h: History, e: Event)
    requires Frees(w)
    ensures e in Reported(w, h) <==> e in h || AtReport(w, e)
  {
    var state := ExitOf(w.flags) == Some(Escalated) || ExitOf(w.flags) == Some(PhaseComplete);
    ExitIs(w.flags);
    StatusIs(w);
    hide OnceIf, Once, Frees, KnowsStatus, KnownCleanup, CleanupOf, ExitOf, Asks, AsksPhase, First;
    var cleared := Once(w, h, ClearHook);
    var stated := OnceIf(state, w, cleared, SetState);
    var told := Once(w, stated, ReportCleanup);
    InOnceIf(true, w, h, ClearHook, e);
    InOnceIf(state, w, cleared, SetState, e);
    if KnowsStatus(w) {
      InOnceIf(true, w, stated, ReportCleanup, e);
      InOnceIf(w.works(ReportCleanup, 1) && w.agent.labelled, w, told, ClearIntent, e);
    } else {
      InOnceIf(w.agent.labelled, w, stated, ClearIntent, e);
    }
  }

  /** Freeing the hook: the molecule first. */
  lemma InFreed(w: World, h: History, e: Event)
    requires Arrives(w) && StateBead(w) != "" && w.agent.hook.Some?
    ensures var freed := if MoleculeBlocks(w.agent) then Retry(w, h, CloseMolecule, 1) else h;
            e in freed <==> e in h || (e.step == CloseMolecule && AtAgent(w, e))
    ensures Frees(w) <==> !(MoleculeBlocks(w.agent) && !MoleculeCloses(w))
  {
    InRetry(w, h, CloseMolecule, e);
    hide Retry, Arrives, StateBead, Tries;
  }

  lemma InClosed(w: World, h: History, e: Event)
    requires Frees(w)
    ensures var closed := OnceIf(w.agent.hook.value != "" && w.agent.stillHooked, w, h, CloseHooked);
            e in Reported(w, closed) <==> e in h || (e.step == CloseHooked && AtAgent(w, e)) || AtReport(w, e)
  {
    var hooked := w.agent.hook.value != "" && w.agent.stillHooked;
    InOnceIf(hooked, w, h, CloseHooked, e);
    InReported(w, OnceIf(hooked, w, h, CloseHooked), e);
    hide OnceIf, Reported, Frees, First, AtReport;
  }

  lemma AgentCases(w: World, e: Event)
    ensures AtAgent(w, e) <==>
            || (e.step == ReadAgent && Arrives(w) && StateBead(w) != "" && e.ok == w.agent.hook.Some?)
            || (e.step == CloseMolecule && AtAgent(w, e))
            || (e.step == CloseHooked && AtAgent(w, e))
            || AtReport(w, e)
    ensures AtReport(w, e) || (e.step == CloseHooked && AtAgent(w, e)) ==> Frees(w)
    ensures AtAgent(w, e) ==> Arrives(w) && StateBead(w) != ""
    ensures AtAgent(w, e) && w.agent.hook.None? ==> e == Event(ReadAgent, false)
  {
    hide Arrives, StateBead, First, Tries, KnowsStatus, Asks, AsksPhase;
  }

  lemma InAgentUpdated(w: World, h: History, e: Event)
    requires Arrives(w)
    ensures e in AgentUpdated(w, h) <==> e in h || AtAgent(w, e)
  {
    StartIs(w);
    AgentCases(w, e);
    hide Then, OnceIf, Retry, Reported, Arrives, StateBead, FinalAgentBead, AtAgent, AtReport, MoleculeBlocks, MoleculeCloses, Frees;
    var read := Then(h, ReadAgent, w.agent.hook.Some?);
    InThen(h, ReadAgent, w.agent.hook.Some?, e);
    if StateBead(w) != "" && w.agent.hook.Some? {
      var freed := if MoleculeBlocks(w.agent) then Retry(w, read, CloseMolecule, 1) else read;
      InFreed(w, read, e);
      if Frees(w) {
        InClosed(w, freed, e);
      }
    }
  }

  lemma {:induction false} InLooked(c: Clone, h: History, i: nat, e: Event)
    ensures e in Looked(c, h, i) <==>
            e in h || (i < c.remotes && e.step == SeeRemote && if e.ok then OnSomeRemote(c, i) else !c.onRemote(i))
    decreases c.remotes - i
  {
    if i < c.remotes {
      InThen(h, SeeRemote, c.onRemote(i), e);
      if !c.onRemote(i) {
        InLooked(c, Then(h, SeeRemote, false), i + 1, e);
        hide Then, Looked;
        assert OnSomeRemote(c, i) <==> OnSomeRemote(c, i + 1);
      }
    }
  }

  lemma SomeRemote(c: Clone)
    ensures SeenOnRemote(c) <==> c.branch.Some? && OnSomeRemote(c, 0)
  {}

  lemma InRemoved(w: World, h: History, role: Role, e: Event)
    requires w.place.role(3) == Some(role) && Arrives(w) && Polecat(w, 3)
    ensures var removed := if Completes(w) && !PushFails(w) then Removed(w, h, role) else h;
            e in removed <==> e in h || (e.step in {SeeRemote, RemoveWorktree} && AtEnd(w, e))
  {
    CommitsAre(w.work);
    SomeRemote(w.clone);
    hide OnceIf, Looked, Arrives, Completes, HasCommits, MayBeAhead, SeenOnRemote, OnSomeRemote, First;
    InLooked(w.clone, h, 0, e);
    InOnceIf(SeenOnRemote(w.clone), w, Looked(w.clone, h, 0), RemoveWorktree, e);
  }

  lemma EndCases(w: World, e: Event)
    requires Arrives(w)
    ensures AtEnd(w, e) <==>
            || (e.step in {SeeRemote, RemoveWorktree} && AtEnd(w, e))
            || (e.step == KillSession && Polecat(w, 3) && First(w, e))
            || e == Event(Exit, true)
    ensures e.step in {SeeRemote, RemoveWorktree} && AtEnd(w, e) ==> Polecat(w, 3)
  {
    hide Arrives, First, Polecat, OnSomeRemote;
  }

  lemma InCleanedUp(w: World, h: History, e: Event)
    requires Arrives(w)
    ensures e in CleanedUp(w, h) <==> e in h || AtEnd(w, e)
  {
    var role := w.place.role(3);
    StartIs(w);
    EndCases(w, e);
    assert IsPolecat(role) <==> Polecat(w, 3);
    hide Then, Once, Removed, Arrives, Completes, AtEnd, PushFails, ExitOf, First, Polecat;
    if IsPolecat(role) {
      var removed := if Completes(w) && !PushFails(w) then Removed(w, h, role.value) else h;
      InRemoved(w, h, role.value, e);
      InOnceIf(true, w, removed, KillSession, e);
      InThen(Once(w, removed, KillSession), Exit, true, e);
    } else {
      InThen(h, Exit, true, e);
    }
  }

  // ----- the theorems -----

  lemma Early(w: World, e: Event)
    requires !Arrives(w)
    ensures Happens(w, e) <==>
            AtWork(w, e) || (Begins(w) && Polecat(w, 1) && ((e.step == KillSession && First(w, e)) || e == Event(Exit, true)))
    ensures !Begins(w) ==> !AtWork(w, e)
  {
    hide Begins, Arrives, HasAgent, HasIssue, OnBranch, Completes, HasCommits, AsksPhase, First, Tries, Polecat, StateBead, KnowsStatus, Asks, OnSomeRemote;
  }

  lemma ArrivesBegins(w: World)
    requires Arrives(w)
    ensures Begins(w)
  {}

  /** An event is in the history of a run that does not crash exactly when it may happen. */
  lemma TraceExactly(w: World, e: Event)
    ensures e in Trace(w) <==> Happens(w, e)
  {
    StartIs(w);
    assert IsPolecat(w.place.role(1)) <==> Polecat(w, 1);
    hide Begun, Witnessed, AgentUpdated, CleanedUp, Once, Then, Starts, ReachesWitness, Begins, Arrives;
    hide AtWork, AtWitness, AtAgent, AtEnd, First, Polecat, IsPolecat, BranchMayComplete, OnBranch, Completes, StateBead, HasAgent;
    if Arrives(w) {
      ArrivesBegins(w);
      InBegun(w, e);
      var begun := Begun(w, []);
      var told := Witnessed(w, begun);
      InWitnessed(w, begun, e);
      InAgentUpdated(w, told, e);
      InCleanedUp(w, AgentUpdated(w, told), e);
    } else {
      Early(w, e);
      if Begins(w) {
        InBegun(w, e);
        InOnceIf(true, w, Begun(w, []), KillSession, e);
        InThen(Once(w, Begun(w, []), KillSession), Exit, true, e);
      }
    }
  }

  /** What is pushed: the commits ahead of the remote branch are counted first, those ahead of the
      local one only when that fails, and when neither can be counted there may be some. */
  lemma PushesExactly(w: World)
    requires Committed(w)
    ensures Tried(Trace(w), Push) <==>
            match w.work.ahead
            case Some(n) => n > 0
            case None => w.work.aheadLocal.None? || w.work.aheadLocal.value > 0
    ensures Tried(Trace(w), ForceClose) ==>
              w.work.ahead == Some(0) || (w.work.ahead.None? && w.work.aheadLocal == Some(0))
  {
    Decides(w, Push);
    Decides(w, ForceClose);
    hide Trace, Happens, Committed;
    WorkCases(w);
  }

  lemma WorkCases(w: World)
    requires Committed(w)
    ensures forall ok :: Happens(w, Event(Push, ok)) <==> HasCommits(w.work) && ok == w.works(Push, 1)
    ensures forall ok :: Happens(w, Event(ForceClose, ok)) ==> !HasCommits(w.work)
  {
    hide Committed, HasIssue, HasCommits, Tries;
  }

  lemma Decides(w: World, s: Step)
    ensures Tried(Trace(w), s) <==> Happens(w, Event(s, true)) || Happens(w, Event(s, false))
  {
    TraceExactly(w, Event(s, true));
    TraceExactly(w, Event(s, false));
    hide Trace, Happens;
  }

  // ----- the local count -----

  /** The same world with another count ahead of the local branch. */
  function Recounted(w: World, aheadLocal: Option<nat>): World {
    w.(work := w.work.(aheadLocal := aheadLocal))
  }

  lemma RetrySame(w: World, v: World, h: History, s: Step)
    requires v.works == w.works
    ensures Retry(v, h, s, 1) == Retry(w, h, s, 1)
  {
    assert Retry(w, Then(Then(h, s, false), s, false), s, 3) == Retry(v, Then(Then(h, s, false), s, false), s, 3);
    assert Retry(w, Then(h, s, false), s, 2) == Retry(v, Then(h, s, false), s, 2);
  }

  lemma BegunSame(w: World, aheadLocal: Option<nat>)
    requires w.work.ahead.Some?
    ensures Begun(Recounted(w, aheadLocal), []) == Begun(w, [])
  {
    var v := Recounted(w, aheadLocal);
    var marked := OnceIf(AgentBeadOf(w.place.role(1)) != "", w, [], SetIntent);
    RetrySame(w, v, Then(Then(marked, CheckWork, true), CountAhead, MayBeAhead(w.work)), ForceClose);
    hide ExitOf, Retry, IssueOf, AgentBeadOf;
    assert IssueOf(v) == IssueOf(w) by { IssueSame(w, aheadLocal); }
  }

  lemma IssueSame(w: World, aheadLocal: Option<nat>)
    ensures IssueOf(Recounted(w, aheadLocal)) == IssueOf(w)
  {}

  lemma AgentSame(w: World, aheadLocal: Option<nat>, h: History)
    ensures AgentUpdated(Recounted(w, aheadLocal), h) == AgentUpdated(w, h)
  {
    var v := Recounted(w, aheadLocal);
    RetrySame(w, v, Then(h, ReadAgent, w.agent.hook.Some?), CloseMolecule);
    forall t: History ensures Reported(v, t) == Reported(w, t) { ReportedSame(w, aheadLocal, t); }
    hide ExitOf, Retry, Reported, AgentBeadOf;
  }

  lemma ReportedSame(w: World, aheadLocal: Option<nat>, h: History)
    ensures Reported(Recounted(w, aheadLocal), h) == Reported(w, h)
  {
    hide ExitOf, KnownCleanup;
  }

  lemma EndSame(w: World, aheadLocal: Option<nat>, h: History)
    requires w.work.ahead.Some?
    ensures CleanedUp(Recounted(w, aheadLocal), h) == CleanedUp(w, h)
  {
    hide ExitOf, Looked, SeenOnRemote;
  }

  lemma ReachSame(w: World, aheadLocal: Option<nat>)
    requires w.work.ahead.Some?
    ensures Starts(Recounted(w, aheadLocal)) == Starts(w) && ReachesWitness(Recounted(w, aheadLocal)) == ReachesWitness(w)
    ensures forall h :: Witnessed(Recounted(w, aheadLocal), h) == Witnessed(w, h)
  {
    IssueSame(w, aheadLocal);
    hide ExitOf, IssueOf, Located;
  }

  /** While the commits ahead of the remote branch can be counted, the local branch does not matter. */
  lemma LocalCountIgnored(w: World, aheadLocal: Option<nat>)
    requires w.work.ahead.Some?
    ensures Trace(Recounted(w, aheadLocal)) == Trace(w)
  {
    var v := Recounted(w, aheadLocal);
    ReachSame(w, aheadLocal);
    BegunSame(w, aheadLocal);
    AgentSame(w, aheadLocal, Witnessed(w, Begun(w, [])));
    EndSame(w, aheadLocal, AgentUpdated(w, Witnessed(w, Begun(w, []))));
    hide Starts, ReachesWitness, Begun, Witnessed, AgentUpdated, CleanedUp;
  }

  // ----- the order -----

  /** The steps in the order of the program. */
  const SEQUENCE: seq<Step> :=
    [SetIntent, CheckWork, CountAhead, ForceClose, Push, MailDispatcher, CreateMR, LinkMR, Nudge, JoinGate,
     MergeData, MailDone, MailWorkDone, ReadAgent, CloseMolecule, CloseHooked, ClearHook, SetState, ReportCleanup,
     ClearIntent, SeeRemote, RemoveWorktree, KillSession, Exit]

  lemma PlaceOf(s: Step)
    ensures Order(s) < |SEQUENCE| == 24 && SEQUENCE[Order(s)] == s
  {}

  lemma AllowedAfter(w: World, h: History, i: nat, s: Step)
    requires Allowed(w, h, s) && i < |h|
    ensures Order(h[i].step) < Order(s) || (h[i] == Event(s, false) && s in {ForceClose, CloseMolecule, SeeRemote})
  {
    hide Grounds, Order;
    assert h[i] in h;
  }

  /** Later events are later steps of the program, or further attempts at a step that failed. */
  lemma InSequence(w: World, i: nat, j: nat) returns (p: nat, q: nat)
    requires i < j < |Trace(w)|
    ensures p <= q < 24 && SEQUENCE[p] == Trace(w)[i].step && SEQUENCE[q] == Trace(w)[j].step
    ensures p == q ==> !Trace(w)[i].ok && Trace(w)[i].step in {ForceClose, CloseMolecule, SeeRemote}
  {
    var t := Trace(w);
    TraceIsSafe(w);
    AllowedAt(w, t, j);
    hide Trace, Safe, Allowed;
    AllowedAfter(w, t[..j], i, t[j].step);
    PlaceOf(t[i].step);
    PlaceOf(t[j].step);
    p, q := Order(t[i].step), Order(t[j].step);
  }
}
