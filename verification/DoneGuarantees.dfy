/** The promises of `gt done`: exactly when each irreversible step is taken, and what has
    happened before it, in whole runs and in runs that crash anywhere. */
module DoneGuarantees {
  import opened Text
  import opened DoneProtocol
  import opened DoneLaws

  lemma TraceIsSafe(w: World)
    ensures Safe(w, Trace(w))
  {
    if !Starts(w) {
    } else if ReachesWitness(w) {
      ReachingFacts(w);
    } else {
      FailingFacts(w);
    }
    hide ReachesWitness, Starts;
  }

  /** A crash leaves a prefix of the history, and that is as safe. */
  lemma {:induction false} CrashIsSafe(w: World, h: History, k: nat)
    requires Safe(w, h) && k <= |h|
    ensures Safe(w, h[..k])
    decreases |h|
  {
    hide Allowed;
    if k == |h| {
      assert h[..k] == h;
    } else {
      CrashIsSafe(w, h[..|h| - 1], k);
      assert h[..|h| - 1][..k] == h[..k];
    }
  }

  lemma AllowedAt(w: World, h: History, i: nat)
    requires Safe(w, h) && i < |h|
    ensures Allowed(w, h[..i], h[i].step)
  {
    CrashIsSafe(w, h, i + 1);
    assert h[..i + 1][..i] == h[..i];
    hide Allowed;
  }

  // ----- exactly when -----

  /** The worktree's removal is attempted exactly when the run completes committed work that was
      pushed, or had nothing to push, and the branch is seen on a remote. */
  lemma RemovesExactly(w: World)
    ensures Tried(Trace(w), RemoveWorktree) <==> Removes(w)
  {
    var t := Trace(w);
    RemovalMeans(w);
    hide Removes, Starts, ReachesWitness, Safe, Trace, RemovalDue;
    if ReachesWitness(w) {
      ReachingFacts(w);
    } else if Starts(w) {
      FailingFacts(w);
    } else {
      NothingTried(w, RemoveWorktree);
    }
  }

  lemma RemovalMeans(w: World)
    ensures Removes(w) <==> ReachesWitness(w) && RemovalDue(w)
    ensures ReachesWitness(w) ==> Starts(w)
  {
    hide ExitOf, Located, Completable, MayBeAhead, IssueOf, SeenOnRemote, PushFails;
  }

  lemma NothingTried(w: World, s: Step)
    requires !Starts(w)
    ensures Trace(w) == [] && !Tried(Trace(w), s) && !ReachesWitness(w)
  {}

  /** A merge-request bead is asked for exactly when new work was pushed and none exists. */
  lemma SubmitsExactly(w: World)
    ensures Tried(Trace(w), CreateMR) <==> SubmitsMR(w)
  {
    assert SubmitsMR(w) ==> ReachesWitness(w);
    RemovalMeans(w);
    hide SubmitsMR, Starts, ReachesWitness, Safe, Trace;
    if ReachesWitness(w) {
      ReachingFacts(w);
    } else if Starts(w) {
      FailingFacts(w);
    } else {
      NothingTried(w, CreateMR);
    }
  }

  /** The witness is notified exactly when the run does not return an error first. */
  lemma NotifiesExactly(w: World)
    ensures Tried(Trace(w), MailDone) <==> ReachesWitness(w)
  {
    RemovalMeans(w);
    hide Starts, ReachesWitness, Safe, Trace;
    if ReachesWitness(w) {
      ReachingFacts(w);
    } else if Starts(w) {
      FailingFacts(w);
    } else {
      NothingTried(w, MailDone);
    }
  }

  lemma KillsExactly(w: World)
    ensures Tried(Trace(w), KillSession) <==> Kills(w)
  {
    RemovalMeans(w);
    hide Starts, ReachesWitness, Safe, Trace;
    if ReachesWitness(w) {
      ReachingFacts(w);
    } else if Starts(w) {
      FailingFacts(w);
    } else {
      NothingTried(w, KillSession);
    }
  }

  /** The hooked bead's closing and the label's removal are attempted exactly as described. */
  lemma ClosesExactly(w: World)
    ensures Tried(Trace(w), CloseHooked) <==> ClosesHooked(w)
    ensures Tried(Trace(w), ClearIntent) <==> ClearsIntent(w)
  {
    RemovalMeans(w);
    ClearingMeans(w);
    hide Starts, ReachesWitness, Safe, Trace, ClosesHooked, ClearsIntent, HookIsFree, ReportsAll;
    if ReachesWitness(w) {
      ReachingFacts(w);
    } else if Starts(w) {
      FailingFacts(w);
    } else {
      NothingTried(w, CloseHooked);
      NothingTried(w, ClearIntent);
    }
  }

  lemma ClearingMeans(w: World)
    ensures ClearsIntent(w) <==> ReachesWitness(w) && HookIsFree(w) && ReportsAll(w)
    ensures HookIsFree(w) ==> w.agent.hook.Some?
    ensures ClosesHooked(w) <==> ReachesWitness(w) && HookIsFree(w) && w.agent.hook.value != "" && w.agent.stillHooked
  {
    hide ReachesWitness, KnownCleanup, CleanupOf, MoleculeBlocks, MoleculeCloses, FinalAgentBead;
  }

  // ----- one session kill -----

  function Attempts(h: History, s: Step): nat {
    if h == [] then 0 else Attempts(h[..|h| - 1], s) + if h[|h| - 1].step == s then 1 else 0
  }

  lemma Unfold(w: World, h: History)
    requires Safe(w, h) && h != []
    ensures var before, last := h[..|h| - 1], h[|h| - 1];
            h == Then(before, last.step, last.ok) && Safe(w, before) && Allowed(w, before, last.step)
  {}

  lemma NotTriedBefore(w: World, h: History, s: Step)
    requires Allowed(w, h, s) && !Retried(s)
    ensures !Did(h, s) && !Failed(h, s)
  {
    hide Grounds, Order;
    assert Event(s, true) !in h && Event(s, false) !in h;
  }

  lemma ThenTried(h: History, s: Step, ok: bool, t: Step)
    ensures Did(Then(h, s, ok), t) == (Did(h, t) || (t == s && ok))
    ensures Failed(Then(h, s, ok), t) == (Failed(h, t) || (t == s && !ok))
  {}

  lemma ThenAttempts(h: History, s: Step, ok: bool, t: Step)
    ensures Attempts(Then(h, s, ok), t) == Attempts(h, t) + if s == t then 1 else 0
  {
    assert Then(h, s, ok)[..|h|] == h;
  }

  /** Steps that are not retried are taken at most once. */
  lemma {:induction false} AtMostOnce(w: World, h: History, s: Step)
    requires Safe(w, h) && !Retried(s)
    ensures Attempts(h, s) == if Did(h, s) || Failed(h, s) then 1 else 0
  {
    if h == [] {
      assert Attempts([], s) == 0;
    } else {
      hide *;
      var before, last := h[..|h| - 1], h[|h| - 1];
      Unfold(w, h);
      AtMostOnce(w, before, s);
      ThenTried(before, last.step, last.ok, s);
      ThenAttempts(before, last.step, last.ok, s);
      if last.step == s {
        NotTriedBefore(w, before, s);
      }
    }
  }

  /** How often the session is killed in a run that does not crash. */
  lemma KillCount(w: World)
    ensures Attempts(Trace(w), KillSession) == if Kills(w) then 1 else 0
  {
    TraceIsSafe(w);
    AtMostOnce(w, Trace(w), KillSession);
    KillsExactly(w);
    hide Safe, Trace, Kills;
  }

  /** With stable role detection, every run of a polecat that gets past validation makes
      exactly one session-kill attempt, however it ends. */
  lemma ExactlyOneKill(w: World)
    requires Starts(w) && IsPolecat(w.place.role(1)) && w.place.role(3) == w.place.role(1)
    ensures Attempts(Trace(w), KillSession) == 1
  {
    KillCount(w);
    hide Starts, Trace, ReachesWitness;
  }

  /** Without it, a confirmed polecat's session survives exactly in the runs that reach the
      witness and fail the last role detection: os.Exit skips the deferred kill. */
  lemma SessionSurvivesIff(w: World)
    requires Starts(w) && IsPolecat(w.place.role(1))
    ensures Attempts(Trace(w), KillSession) == 0 <==> ReachesWitness(w) && !IsPolecat(w.place.role(3))
  {
    KillCount(w);
    hide Starts, Trace, ReachesWitness;
  }

  /** There are such runs: one that defers its work and whose last detection fails. */
  lemma SessionCanSurvive() returns (w: World)
    ensures Starts(w) && IsPolecat(w.place.role(1)) && ReachesWitness(w) && Attempts(Trace(w), KillSession) == 0
  {
    var role := Some(Role(true, "rig", "toast", "gt-rig-polecat-toast"));
    var flags := Flags("", false, "", "DEFERRED", "", "");
    var place := Place(true, true, "rig", "", Some("polecat/toast"), "", "", n => if n == 3 then None else role);
    var work := Work("main", None, false, None, None, None, None, false, "", None);
    var agent := AgentBead(None, false, "", false, None);
    w := World(flags, place, work, agent, Clone(false, 0, None, i => false), false, (s, n) => true);
    assert ExitOf(flags) == Some(Deferred) by { DeferredFlag(); }
    hide ExitOf;
    SessionSurvivesIff(w);
    hide Trace;
  }

  lemma DeferredFlag()
    ensures ExitOf(Flags("", false, "", "DEFERRED", "", "")) == Some(Deferred)
  {
    assert ToUpper("DEFERRED") == "DEFERRED";
  }

  // ----- what came before -----

  /** When the worktree's removal is attempted, in a complete run or one that crashes later,
      the run is a completion, its worktree was seen clean, its checked-out branch was seen on
      a remote, and its commits were pushed unless there were none. */
  lemma NoWorkLost(w: World, i: nat)
    requires i < |Trace(w)| && Trace(w)[i].step == RemoveWorktree
    ensures var h := Trace(w)[..i];
            Did(h, CheckWork) && Did(h, SeeRemote) && (Did(h, Push) || Failed(h, CountAhead))
    ensures ExitOf(w.flags) == Some(Completed)
  {
    var t := Trace(w);
    hide Trace;
    TraceIsSafe(w);
    AllowedAt(w, t, i);
    assert Did(t[..i], SeeRemote);
    var j :| 0 <= j < i && t[..i][j] == Event(SeeRemote, true);
    AllowedAt(w, t, j);
    hide Safe;
    assert t[..i][..j] == t[..j];
    StaysDone(t, j, i);
    assert Did(t[..j], CheckWork);
    var k :| 0 <= k < j && t[..j][k] == Event(CheckWork, true);
    AllowedAt(w, t, k);
  }

  lemma StaysDone(t: History, j: nat, i: nat)
    requires j <= i <= |t|
    ensures forall s: Step :: (Did(t[..j], s) ==> Did(t[..i], s)) && (Failed(t[..j], s) ==> Failed(t[..i], s))
  {
    assert t[..i] == t[..j] + t[j..i];
  }

  /** A merge-request bead is asked for only after this run's push succeeded. */
  lemma MergeRequestAfterPush(w: World, i: nat)
    requires i < |Trace(w)| && Trace(w)[i].step == CreateMR
    ensures Did(Trace(w)[..i], Push) && !w.work.noMerge
  {
    TraceIsSafe(w);
    AllowedAt(w, Trace(w), i);
    hide Trace, Safe;
  }

  /** The issue is closed by force only when there is nothing to merge, and at most three times tried. */
  lemma ForceCloseWithoutCommits(w: World, i: nat)
    requires i < |Trace(w)| && Trace(w)[i].step == ForceClose
    ensures Failed(Trace(w)[..i], CountAhead) && Failures(Trace(w)[..i], ForceClose) < 3
  {
    TraceIsSafe(w);
    AllowedAt(w, Trace(w), i);
    hide Trace, Safe;
  }

  /** The hooked bead is never closed, nor the hook cleared, before the molecule that blocks it. */
  lemma MoleculeFirst(w: World, i: nat)
    requires i < |Trace(w)| && (Trace(w)[i].step == CloseHooked || Trace(w)[i].step == ClearHook)
    ensures MoleculeBlocks(w.agent) ==> Did(Trace(w)[..i], CloseMolecule)
  {
    TraceIsSafe(w);
    AllowedAt(w, Trace(w), i);
    hide Trace, Safe, MoleculeBlocks;
  }

  // ----- the done-intent label -----

  /** Whether the bead that was labelled still carries the label, as far as the run is concerned. */
  predicate Labelled(w: World, h: History) {
    Did(h, SetIntent) && !(Did(h, ClearIntent) && FinalAgentBead(w) == AgentBeadOf(w.place.role(1)))
  }

  /** Wherever the run crashes, a label that was written is there until the agent's own clean-up
      is over: the witness told, the molecule closed, the hook dealt with, the status reported. */
  lemma IntentStays(w: World, k: nat)
    requires k <= |Trace(w)|
    ensures var h := Trace(w)[..k];
            Did(h, SetIntent) && !Labelled(w, h) ==>
              Tried(h, ClearHook) && !Failed(h, ReportCleanup) && Did(h, ReadAgent) && Tried(h, MailDone) &&
              (MoleculeBlocks(w.agent) ==> Did(h, CloseMolecule))
  {
    var t := Trace(w);
    hide Trace;
    TraceIsSafe(w);
    CrashIsSafe(w, t, k);
    var h := t[..k];
    if Did(h, ClearIntent) {
      ClearedLate(w, h);
    }
    hide Safe, MoleculeBlocks, FinalAgentBead;
  }

  lemma ClearedLate(w: World, h: History)
    requires Safe(w, h) && Did(h, ClearIntent)
    ensures Tried(h, ClearHook) && !Failed(h, ReportCleanup) && Did(h, ReadAgent) && Tried(h, MailDone)
    ensures MoleculeBlocks(w.agent) ==> Did(h, CloseMolecule)
  {
    hide Safe, MoleculeBlocks, Did, Failed;
    ClearIntentNeeds(w, h);
    ClearHookNeeds(w, h);
    ReadAgentNeeds(w, h);
  }

  lemma {:induction false} ClearIntentNeeds(w: World, h: History)
    requires Safe(w, h) && Did(h, ClearIntent)
    ensures (Did(h, ClearHook) || Failed(h, ClearHook)) && !Failed(h, ReportCleanup)
  {
    NonEmpty(h, ClearIntent);
    hide *;
    var before, last := h[..|h| - 1], h[|h| - 1];
    Unfold(w, h);
    OrderOfSteps();
    ThenTried(before, last.step, last.ok, ClearIntent);
    ThenTried(before, last.step, last.ok, ClearHook);
    ThenTried(before, last.step, last.ok, ReportCleanup);
    if last.step == ClearIntent {
      assert Grounds(w, before, ClearIntent) by { AllowedMeans(w, before, ClearIntent); }
      GroundsOfAgent(w, before);
    } else {
      ClearIntentNeeds(w, before);
      InOrder(w, before, ClearIntent, last.step);
    }
  }

  lemma {:induction false} ClearHookNeeds(w: World, h: History)
    requires Safe(w, h) && (Did(h, ClearHook) || Failed(h, ClearHook))
    ensures Did(h, ReadAgent) && (MoleculeBlocks(w.agent) ==> Did(h, CloseMolecule))
  {
    NonEmpty(h, ClearHook);
    hide *;
    var before, last := h[..|h| - 1], h[|h| - 1];
    Unfold(w, h);
    ThenTried(before, last.step, last.ok, ClearHook);
    ThenTried(before, last.step, last.ok, ReadAgent);
    ThenTried(before, last.step, last.ok, CloseMolecule);
    if last.step == ClearHook {
      assert Grounds(w, before, ClearHook) by { AllowedMeans(w, before, ClearHook); }
      GroundsOfAgent(w, before);
    } else {
      ClearHookNeeds(w, before);
    }
  }

  lemma {:induction false} ReadAgentNeeds(w: World, h: History)
    requires Safe(w, h) && Did(h, ReadAgent)
    ensures Did(h, MailDone) || Failed(h, MailDone)
  {
    NonEmpty(h, ReadAgent);
    hide *;
    var before, last := h[..|h| - 1], h[|h| - 1];
    Unfold(w, h);
    ThenTried(before, last.step, last.ok, ReadAgent);
    ThenTried(before, last.step, last.ok, MailDone);
    if last.step == ReadAgent {
      assert Grounds(w, before, ReadAgent) by { AllowedMeans(w, before, ReadAgent); }
      GroundsOfAgent(w, before);
    } else {
      ReadAgentNeeds(w, before);
    }
  }

  lemma NonEmpty(h: History, s: Step)
    requires Did(h, s) || Failed(h, s)
    ensures h != []
  {}

  lemma AllowedMeans(w: World, h: History, s: Step)
    requires Allowed(w, h, s)
    ensures Grounds(w, h, s)
  {}

  lemma InOrder(w: World, h: History, s: Step, t: Step)
    requires Did(h, s) && Allowed(w, h, t)
    ensures Order(s) < Order(t)
  {
    hide Grounds, Order;
    assert Event(s, true) in h;
  }

  /** Exactly when a run that does not crash leaves the label for the witness to find. */
  lemma IntentLeftIff(w: World)
    requires Starts(w)
    ensures Labelled(w, Trace(w)) <==>
            AgentBeadOf(w.place.role(1)) != "" && w.works(SetIntent, 1) &&
            !(ClearsIntent(w) && w.works(ClearIntent, 1) && FinalAgentBead(w) == AgentBeadOf(w.place.role(1)))
  {
    ClearingMeans(w);
    hide Starts, ReachesWitness, Safe, Trace, ClearsIntent, HookIsFree, ReportsAll, FinalAgentBead, AgentBeadOf;
    if ReachesWitness(w) {
      ReachingFacts(w);
    } else {
      FailingFacts(w);
    }
  }
}
