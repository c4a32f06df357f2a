/** The program `gt done`, step by step. */
module DoneRun {
  import opened Text
  import opened DoneProtocol

  class Run {
    const w: World
    var history: History
    // captured by the deferred session cleanup
    var sessionCleanupNeeded: bool
    var sessionKilled: bool

    constructor (w: World)
      ensures this.w == w && history == [] && !sessionCleanupNeeded && !sessionKilled
    {
      this.w := w;
      history, sessionCleanupNeeded, sessionKilled := [], false, false;
    }

    /** The n-th attempt at a step. */
    method Do(s: Step, n: nat) returns (ok: bool)
      modifies this`history
      ensures ok == w.works(s, n) && history == Then(old(history), s, ok)
    {
      ok := w.works(s, n);
      history := Then(history, s, ok);
    }

    // ----- runDone -----

    /** `runDone`; the error it returns, if any, is returned to the caller only when the
        deferred cleanup does not exit first. */
    method RunDone() returns (failed: bool)
      requires history == [] && !sessionCleanupNeeded && !sessionKilled
      modifies this
      ensures history == Trace(w) && (failed <==> !Starts(w) || (!ReachesWitness(w) && !IsPolecat(w.place.role(1))))
    {
      failed := RunUntilExit();
      if failed && sessionCleanupNeeded && !sessionKilled {
        var _ := Do(KillSession, 1);
        history := Then(history, Exit, true);
        failed := false;
      }
    }

    /** The validation of the caller and the flags. */
    method ExitType() returns (r: Option<ExitType>)
      ensures r == ExitOf(w.flags)
    {
      var flags := w.flags;
      if flags.actor != "" && !IsPolecatActor(flags.actor) {
        return None;
      }
      if flags.phaseComplete {
        if flags.gate == "" {
          return None;
        }
        return Some(PhaseComplete);
      }
      match ToUpper(flags.status) {
        case "COMPLETED" => return Some(Completed);
        case "ESCALATED" => return Some(Escalated);
        case "DEFERRED" => return Some(Deferred);
        case _ => return None;
      }
    }

    /** The body: true when it returns an error, false when it ends in os.Exit, which runs no
        deferred function. */
    method RunUntilExit() returns (failed: bool)
      requires history == [] && !sessionCleanupNeeded && !sessionKilled
      modifies this
      ensures failed <==> !ReachesWitness(w)
      ensures failed ==> !sessionKilled && (sessionCleanupNeeded <==> Starts(w) && IsPolecat(w.place.role(1)))
      ensures if failed then history == (if Starts(w) then Begun(w, []) else []) else history == Trace(w)
    {
      hide ToUpper, IsPolecatActor, ExitOf, MayBeAhead;
      var flags := w.flags;
      var exit := ExitType();
      if exit.None? {
        return true;
      }
      var exitType := exit.value;
      if !w.place.inTown || w.place.rigName == "" {
        return true;
      }
      var branch := BranchOf(w.place);
      if branch.None? {
        return true;
      }
      var roleInfo := w.place.role(1);
      var agentBeadID := AgentBeadOf(roleInfo);
      if roleInfo.Some? && roleInfo.value.polecat {
        sessionCleanupNeeded := true;
      }
      var issueID := if flags.issue != "" then flags.issue else w.place.branchIssue;
      if issueID == "" && agentBeadID != "" {
        issueID := w.place.hookIssue;
      }
      if agentBeadID != "" {
        var _ := Do(SetIntent, 1);
      }
      var pushFailed := false;
      if exitType == Completed {
        failed, pushFailed := Submit(branch.value, issueID, agentBeadID);
        if failed {
          return;
        }
      } else if exitType == PhaseComplete {
        var _ := Do(JoinGate, 1);
      }
      assert history == Begun(w, []);
      NotifyWitness(issueID);
      UpdateAgentStateOnDone(exitType);
      CleanUpAndExit(exitType, pushFailed);
      failed := false;
    }

    /** The COMPLETED case: check that there is work and that it is committed, push it, and put
        it in the merge queue. */
    method Submit(branch: string, issueID: string, agentBeadID: string) returns (failed: bool, pushFailed: bool)
      requires BranchOf(w.place) == Some(branch) && issueID == IssueOf(w) && agentBeadID == AgentBeadOf(w.place.role(1))
      modifies this`history
      ensures history == Submission(w, old(history))
      ensures failed <==> !Completable(w) || (MayBeAhead(w.work) && w.works(Push, 1) && issueID == "")
      ensures !failed ==> pushFailed == PushFails(w)
    {
      failed, pushFailed := false, false;
      if branch == w.work.defaultBranch || branch == "master" || !w.place.cwdAvailable {
        return true, false;
      }
      if w.work.dirty != Some(false) {
        history := Then(history, CheckWork, false);
        return true, false;
      }
      history := Then(history, CheckWork, true);
      var aheadCount := w.work.ahead;
      if aheadCount.None? {
        aheadCount := w.work.aheadLocal;
        if aheadCount.None? {
          aheadCount := Some(1);
        }
      }
      history := Then(history, CountAhead, aheadCount.value > 0);
      label submission: {
        if aheadCount.value == 0 {
          if issueID != "" {
            ForceCloseWithRetry();
          }
          break submission;
        }
        var pushed := Do(Push, 1);
        if !pushed {
          pushFailed := true;
          break submission;
        }
        if issueID == "" {
          return true, false;
        }
        if w.work.noMerge {
          if w.work.dispatcher != "" {
            var _ := Do(MailDispatcher, 1);
          }
          break submission;
        }
        if w.work.existingMR.None? {
          var created := Do(CreateMR, 1);
          if !created {
            break submission;
          }
          if agentBeadID != "" {
            var _ := Do(LinkMR, 1);
          }
          var _ := Do(Nudge, 1);
        }
      }
    }

    /** Up to three attempts to close the issue that needs no merge request. */
    method ForceCloseWithRetry()
      modifies this`history
      ensures history == Retry(w, old(history), ForceClose, 1)
    {
      for attempt := 1 to 4
        invariant Retry(w, history, ForceClose, attempt) == Retry(w, old(history), ForceClose, 1)
      {
        var closed := Do(ForceClose, attempt);
        if closed {
          break;
        }
      }
    }

    method NotifyWitness(issueID: string)
      requires issueID == IssueOf(w)
      modifies this`history
      ensures history == Witnessed(w, old(history))
    {
      if w.dataBranch {
        var _ := Do(MergeData, 1);
      }
      var _ := Do(MailDone, 1);
      if issueID != "" {
        var _ := Do(MailWorkDone, 1);
      }
    }

    // ----- updateAgentStateOnDone -----

    /** `updateAgentStateOnDone`: close the attached molecule, then the hooked bead, then clear the
        hook, report, and last of all take the done-intent label away. */
    method UpdateAgentStateOnDone(exitType: ExitType)
      requires ExitOf(w.flags) == Some(exitType)
      modifies this`history
      ensures history == AgentUpdated(w, old(history))
    {
      var roleInfo := w.place.role(2);
      if roleInfo.None? {
        roleInfo := w.agent.envRole;
      }
      if AgentBeadOf(roleInfo) == "" {
        return;
      }
      history := Then(history, ReadAgent, w.agent.hook.Some?);
      if w.agent.hook.None? {
        return;
      }
      var hookedBeadID := w.agent.hook.value;
      if hookedBeadID != "" && w.agent.stillHooked {
        if w.agent.molecule != "" {
          var moleculeClosed := CloseMoleculeWithRetry();
          if !moleculeClosed {
            return;
          }
        }
        var _ := Do(CloseHooked, 1);
      }
      ClearHookAndReport(exitType);
    }

    /** Up to three attempts to close the molecule. */
    method CloseMoleculeWithRetry() returns (moleculeClosed: bool)
      modifies this`history
      ensures history == Retry(w, old(history), CloseMolecule, 1)
      ensures moleculeClosed == MoleculeCloses(w)
    {
      moleculeClosed := false;
      for attempt := 1 to 4
        invariant Retry(w, history, CloseMolecule, attempt) == Retry(w, old(history), CloseMolecule, 1)
        invariant !moleculeClosed && forall n | 1 <= n < attempt :: !w.works(CloseMolecule, n)
      {
        moleculeClosed := Do(CloseMolecule, attempt);
        if moleculeClosed {
          break;
        }
      }
    }

    method ClearHookAndReport(exitType: ExitType)
      requires ExitOf(w.flags) == Some(exitType)
      modifies this`history
      ensures history == Reported(w, old(history))
    {
      var _ := Do(ClearHook, 1);
      if exitType == Escalated || exitType == PhaseComplete {
        var _ := Do(SetState, 1);
      }
      var cleanup := CleanupOf(w);
      if KnownCleanup(cleanup) {
        var reported := Do(ReportCleanup, 1);
        if !reported {
          return;
        }
      }
      ClearDoneIntentLabel();
    }

    /** `clearDoneIntentLabel`. */
    method ClearDoneIntentLabel()
      modifies this`history
      ensures history == OnceIf(w.agent.labelled, w, old(history), ClearIntent)
    {
      if !w.agent.labelled {
        return;
      }
      var _ := Do(ClearIntent, 1);
    }

    // ----- selfNukePolecat and the end -----

    /** `selfNukePolecat`: remove the worktree if its branch is on some remote. */
    method SelfNukePolecat(roleInfo: Role)
      modifies this`history
      ensures history == Removed(w, old(history), roleInfo)
    {
      if roleInfo.name == "" || roleInfo.rig == "" || !w.clone.managed {
        return;
      }
      if w.clone.remotes == 0 || w.clone.branch.None? {
        return;
      }
      var pushed := false;
      for i := 0 to w.clone.remotes
        invariant !pushed && forall j | 0 <= j < i :: !w.clone.onRemote(j)
        invariant Looked(w.clone, history, i) == Looked(w.clone, old(history), 0)
      {
        pushed := w.clone.onRemote(i);
        history := Then(history, SeeRemote, pushed);
        if pushed {
          break;
        }
      }
      if !pushed {
        return;
      }
      var _ := Do(RemoveWorktree, 1);
    }

    /** Remove the own worktree, kill the own session, exit. */
    method CleanUpAndExit(exitType: ExitType, pushFailed: bool)
      requires ExitOf(w.flags) == Some(exitType) && (exitType == Completed ==> pushFailed == PushFails(w))
      modifies this
      ensures history == CleanedUp(w, old(history))
    {
      var roleInfo := w.place.role(3);
      if roleInfo.Some? && roleInfo.value.polecat {
        if exitType == Completed && !pushFailed {
          SelfNukePolecat(roleInfo.value);
        }
        var killed := Do(KillSession, 1);
        if killed {
          sessionKilled := true;
        }
      }
      history := Then(history, Exit, true);
    }
  }
}
