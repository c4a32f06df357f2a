/** What every run of `gt done` keeps, at the end and wherever it crashes. */
module DoneLaws {
  import opened Text
  import opened DoneProtocol

  // ----- one part of a run after another -----

  /** Only steps before the n-th have been taken. */
  predicate Below(h: History, n: nat) {
    forall e | e in h :: Order(e.step) < n
  }

  /** The parts of the history outside these steps are the same. */
  ghost predicate SameOutside(h: History, t: History, low: nat, high: nat) {
    forall e: Event | !(low <= Order(e.step) < high) :: e in t <==> e in h
  }

  lemma SafeThen(w: World, h: History, s: Step, ok: bool)
    requires Safe(w, h) && Allowed(w, h, s)
    ensures Safe(w, Then(h, s, ok)) && (Below(h, Order(s) + 1) ==> Below(Then(h, s, ok), Order(s) + 1))
    ensures SameOutside(h, Then(h, s, ok), Order(s), Order(s) + 1)
  {
    hide Allowed, Order;
    var t := Then(h, s, ok);
    assert t[..|t| - 1] == h;
  }

  lemma NewStep(h: History, s: Step, ok: bool)
    requires Below(h, Order(s))
    ensures Did(Then(h, s, ok), s) == ok && Failed(Then(h, s, ok), s) == !ok
  {
    hide Order;
    assert Event(s, ok) in Then(h, s, ok);
    assert Event(s, !ok) !in h;
  }

  lemma AllowedStep(w: World, h: History, s: Step)
    requires Below(h, Order(s)) && Grounds(w, h, s)
    ensures Allowed(w, h, s) && Below(h, Order(s) + 1)
  {
    hide Order, Grounds;
  }

  /** A step that is taken once, after everything before it. */
  lemma SafeStep(w: World, h: History, s: Step, ok: bool)
    requires Safe(w, h) && Below(h, Order(s)) && Grounds(w, h, s)
    ensures Safe(w, Then(h, s, ok)) && Below(Then(h, s, ok), Order(s) + 1)
    ensures SameOutside(h, Then(h, s, ok), Order(s), Order(s) + 1)
    ensures Did(Then(h, s, ok), s) == ok && Failed(Then(h, s, ok), s) == !ok
  {
    hide *;
    AllowedStep(w, h, s);
    NewStep(h, s, ok);
    SafeThen(w, h, s, ok);
  }

  lemma SameTrans(h: History, t: History, u: History, low: nat, middle: nat, mid: nat, high: nat)
    requires low <= middle && mid <= high && low <= mid && middle <= high
    requires SameOutside(h, t, low, mid) && SameOutside(t, u, middle, high)
    ensures SameOutside(h, u, low, high)
  {
    hide Order;
  }

  lemma FailuresThen(h: History, s: Step, ok: bool)
    ensures Failures(Then(h, s, ok), s) == Failures(h, s) + if ok then 0 else 1
  {
    assert Then(h, s, ok)[..|h|] == h;
  }

  lemma {:induction false} NoFailures(h: History, s: Step)
    requires !Failed(h, s)
    ensures Failures(h, s) == 0
  {
    if h != [] {
      NoFailures(h[..|h| - 1], s);
    }
  }

  lemma AllowedRetry(w: World, h: History, s: Step)
    requires s == ForceClose || s == CloseMolecule
    requires Below(h, Order(s) + 1) && Failures(h, s) < 3 && !Did(h, s)
    requires (s == ForceClose ==> Failed(h, CountAhead)) && (s == CloseMolecule ==> Did(h, ReadAgent))
    ensures Allowed(w, h, s)
  {
    hide Failures;
    forall e | e in h ensures Order(e.step) < Order(s) || e == Event(s, false) {
      if Order(e.step) == Order(s) {
        OrderInjective(e.step, s);
      }
    }
  }

  lemma OrderInjective(s: Step, t: Step)
    requires Order(s) == Order(t)
    ensures s == t
  {}

  lemma RetriedStep(h: History, s: Step, ok: bool)
    requires !Did(h, s)
    ensures Did(Then(h, s, ok), s) == ok
    ensures Failed(h, CountAhead) ==> Failed(Then(h, s, ok), CountAhead)
    ensures Did(h, ReadAgent) ==> Did(Then(h, s, ok), ReadAgent)
  {}

  lemma RetryUnfolds(w: World, h: History, s: Step, n: nat)
    ensures Retry(w, h, s, n) ==
            if n > 3 then h
            else if w.works(s, n) then Then(h, s, true) else Retry(w, Then(h, s, false), s, n + 1)
  {}

  lemma SameSelf(h: History, low: nat, high: nat)
    ensures SameOutside(h, h, low, high)
  {
    hide Order;
  }

  /** A step with at most three attempts. */
  lemma {:induction false} SafeRetry(w: World, h: History, s: Step, n: nat)
    requires s == ForceClose || s == CloseMolecule
    requires Safe(w, h) && Below(h, Order(s) + 1) && 1 <= n <= 4 && Failures(h, s) == n - 1
    requires !Did(h, s) && (s == ForceClose ==> Failed(h, CountAhead)) && (s == CloseMolecule ==> Did(h, ReadAgent))
    ensures var t := Retry(w, h, s, n);
            Safe(w, t) && Below(t, Order(s) + 1) && SameOutside(h, t, Order(s), Order(s) + 1) &&
            (Did(t, s) <==> exists m | n <= m <= 3 :: w.works(s, m))
    decreases 4 - n
  {
    hide *;
    if n > 3 {
      assert Retry(w, h, s, n) == h by { RetryUnfolds(w, h, s, n); }
      SameSelf(h, Order(s), Order(s) + 1);
    } else {
      var ok := w.works(s, n);
      RetryUnfolds(w, h, s, n);
      AllowedRetry(w, h, s);
      SafeThen(w, h, s, ok);
      FailuresThen(h, s, ok);
      RetriedStep(h, s, ok);
      if !ok {
        SafeRetry(w, Then(h, s, false), s, n + 1);
        SameTrans(h, Then(h, s, false), Retry(w, h, s, n), Order(s), Order(s), Order(s) + 1, Order(s) + 1);
      }
    }
  }

  /** What is known of a step stays known while other steps are taken. */
  lemma Persists(h: History, t: History, low: nat, high: nat, s: Step)
    requires SameOutside(h, t, low, high) && !(low <= Order(s) < high)
    ensures Did(t, s) == Did(h, s) && Failed(t, s) == Failed(h, s)
  {
    hide Order;
    assert Event(s, true).step == s && Event(s, false).step == s;
  }

  lemma NotYet(h: History, n: nat, s: Step)
    requires Below(h, n) && Order(s) >= n
    ensures !Did(h, s) && !Failed(h, s)
  {
    hide Order;
  }

  lemma Higher(h: History, n: nat, m: nat)
    requires Below(h, n) && n <= m
    ensures Below(h, m)
  {
    hide Order;
  }

  lemma Wider(h: History, t: History, low: nat, high: nat, lower: nat, higher: nat)
    requires SameOutside(h, t, low, high) && lower <= low && high <= higher
    ensures SameOutside(h, t, lower, higher)
  {
    hide Order;
  }

  /** A part of a run: it is safe, its steps are from one range, and the rest is the same. */
  ghost predicate Part(w: World, h: History, t: History, low: nat, high: nat) {
    Safe(w, t) && Below(t, high) && SameOutside(h, t, low, high)
  }

  lemma PartStep(w: World, h: History, s: Step, ok: bool)
    requires Safe(w, h) && Below(h, Order(s)) && Grounds(w, h, s)
    ensures Part(w, h, Then(h, s, ok), Order(s), Order(s) + 1)
    ensures Did(Then(h, s, ok), s) == ok && Failed(Then(h, s, ok), s) == !ok
  {
    SafeStep(w, h, s, ok);
  }

  lemma PartOptional(w: World, b: bool, h: History, s: Step)
    requires Safe(w, h) && Below(h, Order(s)) && (b ==> Grounds(w, h, s))
    ensures Part(w, h, OnceIf(b, w, h, s), Order(s), Order(s) + 1)
    ensures Did(OnceIf(b, w, h, s), s) == (b && w.works(s, 1)) && Failed(OnceIf(b, w, h, s), s) == (b && !w.works(s, 1))
  {
    if b {
      PartStep(w, h, s, w.works(s, 1));
    } else {
      PartNothing(w, h, Order(s), Order(s) + 1);
      NotYet(h, Order(s), s);
    }
    hide Grounds, Part, Did, Failed, Below, Order;
  }

  lemma PartNothing(w: World, h: History, low: nat, high: nat)
    requires Safe(w, h) && Below(h, low) && low <= high
    ensures Part(w, h, h, low, high)
  {
    Higher(h, low, high);
    SameSelf(h, low, high);
  }

  lemma PartTrans(w: World, h: History, t: History, u: History, low: nat, middle: nat, mid: nat, high: nat)
    requires Part(w, h, t, low, middle) && Part(w, t, u, mid, high) && low <= middle <= mid <= high
    ensures Part(w, h, u, low, high)
  {
    hide Safe, Below, SameOutside;
    SameTrans(h, t, u, low, mid, middle, high);
  }

  lemma PartWider(w: World, h: History, t: History, low: nat, high: nat, lower: nat, higher: nat)
    requires Part(w, h, t, low, high) && lower <= low && high <= higher
    ensures Part(w, h, t, lower, higher)
  {
    hide Safe, Below, SameOutside;
    Higher(t, high, higher);
    Wider(h, t, low, high, lower, higher);
  }

  lemma OrderOfWork()
    ensures Order(SetIntent) == 0 && Order(CheckWork) == 1 && Order(CountAhead) == 2 && Order(ForceClose) == 3
    ensures Order(Push) == 4 && Order(MailDispatcher) == 5
  {}

  lemma OrderOfRequest()
    ensures Order(CreateMR) == 6 && Order(LinkMR) == 7 && Order(Nudge) == 8 && Order(JoinGate) == 9
    ensures Order(MergeData) == 10 && Order(MailDone) == 11
  {}

  lemma OrderOfAgent()
    ensures Order(MailWorkDone) == 12 && Order(ReadAgent) == 13 && Order(CloseMolecule) == 14
    ensures Order(CloseHooked) == 15 && Order(ClearHook) == 16 && Order(SetState) == 17
  {}

  lemma OrderOfEnd()
    ensures Order(ReportCleanup) == 18 && Order(ClearIntent) == 19 && Order(SeeRemote) == 20
    ensures Order(RemoveWorktree) == 21 && Order(KillSession) == 22 && Order(Exit) == 23
  {}

  lemma OrderOfSteps()
    ensures Order(SetIntent) == 0 && Order(CheckWork) == 1 && Order(CountAhead) == 2 && Order(ForceClose) == 3
    ensures Order(Push) == 4 && Order(MailDispatcher) == 5 && Order(CreateMR) == 6 && Order(LinkMR) == 7
    ensures Order(Nudge) == 8 && Order(JoinGate) == 9 && Order(MergeData) == 10 && Order(MailDone) == 11
    ensures Order(MailWorkDone) == 12 && Order(ReadAgent) == 13 && Order(CloseMolecule) == 14
    ensures Order(CloseHooked) == 15 && Order(ClearHook) == 16 && Order(SetState) == 17 && Order(ReportCleanup) == 18
    ensures Order(ClearIntent) == 19 && Order(SeeRemote) == 20 && Order(RemoveWorktree) == 21
    ensures Order(KillSession) == 22 && Order(Exit) == 23
  {
    hide *;
    OrderOfWork();
    OrderOfRequest();
    OrderOfAgent();
    OrderOfEnd();
  }

  // The grounds, with the facts of the history spelled out.

  lemma GroundsOfWork(w: World, h: History)
    ensures Grounds(w, h, Push) == Did(h, CountAhead)
    ensures Grounds(w, h, MailDispatcher) == (Did(h, Push) && w.work.noMerge)
    ensures Grounds(w, h, CreateMR) == (Did(h, Push) && !w.work.noMerge)
    ensures Grounds(w, h, LinkMR) == Did(h, CreateMR) == Grounds(w, h, Nudge)
    ensures Grounds(w, h, JoinGate) == (ExitOf(w.flags) == Some(PhaseComplete))
  {
    hide Did, Failed, MoleculeBlocks, ExitOf, Failures;
  }

  lemma GroundsOfAgent(w: World, h: History)
    ensures Grounds(w, h, MailWorkDone) == Grounds(w, h, ReadAgent) == (Did(h, MailDone) || Failed(h, MailDone))
    ensures Grounds(w, h, CloseHooked) == Grounds(w, h, ClearHook) ==
            (Did(h, ReadAgent) && (MoleculeBlocks(w.agent) ==> Did(h, CloseMolecule)))
    ensures Grounds(w, h, SetState) == Grounds(w, h, ReportCleanup) == (Did(h, ClearHook) || Failed(h, ClearHook))
    ensures Grounds(w, h, ClearIntent) == ((Did(h, ClearHook) || Failed(h, ClearHook)) && !Failed(h, ReportCleanup))
  {
    hide Did, Failed, MoleculeBlocks, ExitOf, Failures;
  }

  lemma GroundsOfEnd(w: World, h: History)
    ensures Grounds(w, h, SetIntent) && Grounds(w, h, MergeData) && Grounds(w, h, MailDone)
    ensures Grounds(w, h, KillSession) && Grounds(w, h, Exit)
    ensures Grounds(w, h, SeeRemote) == (Did(h, CheckWork) && (Did(h, Push) || Failed(h, CountAhead)))
    ensures Grounds(w, h, RemoveWorktree) == Did(h, SeeRemote)
  {
    hide Did, Failed, MoleculeBlocks, ExitOf, Failures;
  }

  // ----- submission -----

  lemma MergeRequestUnfolds(w: World, h: History)
    ensures MergeRequest(w, h) ==
            if w.work.noMerge then OnceIf(w.work.dispatcher != "", w, h, MailDispatcher)
            else if w.work.existingMR.Some? then h
            else if !w.works(CreateMR, 1) then Then(h, CreateMR, false)
            else Then(OnceIf(AgentBeadOf(w.place.role(1)) != "", w, Then(h, CreateMR, true), LinkMR), Nudge, w.works(Nudge, 1))
  {
    hide AgentBeadOf, Then, OnceIf;
  }

  lemma CreatedFacts(w: World, h: History)
    requires Safe(w, h) && Below(h, 5) && Did(h, Push) && !w.work.noMerge && w.work.existingMR.None?
    ensures Part(w, h, MergeRequest(w, h), 5, 9)
    ensures Did(MergeRequest(w, h), CreateMR) || Failed(MergeRequest(w, h), CreateMR)
  {
    hide *;
    MergeRequestUnfolds(w, h);
    OrderOfSteps();
    GroundsOfWork(w, h);
    Higher(h, 5, 6);
    var ok := w.works(CreateMR, 1);
    var created := Then(h, CreateMR, ok);
    PartStep(w, h, CreateMR, ok);
    if !ok {
      PartWider(w, h, created, 6, 7, 5, 9);
    } else {
      var link := AgentBeadOf(w.place.role(1)) != "";
      var linked := OnceIf(link, w, created, LinkMR);
      var t := Then(linked, Nudge, w.works(Nudge, 1));
      PartParts(w, h, created, 6, 7);
      GroundsOfWork(w, created);
      PartOptional(w, link, created, LinkMR);
      PartParts(w, created, linked, 7, 8);
      PartFact(w, created, linked, 7, 8, CreateMR);
      GroundsOfWork(w, linked);
      PartStep(w, linked, Nudge, w.works(Nudge, 1));
      PartFact(w, linked, t, 8, 9, CreateMR);
      PartTrans(w, h, created, linked, 6, 7, 7, 8);
      PartTrans(w, h, linked, t, 6, 8, 8, 9);
      PartWider(w, h, t, 6, 9, 5, 9);
    }
  }

  lemma MergeRequestFacts(w: World, h: History)
    requires Safe(w, h) && Below(h, 5) && Did(h, Push)
    ensures var t := MergeRequest(w, h);
            Part(w, h, t, 5, 9) && (Did(t, CreateMR) || Failed(t, CreateMR) <==> !w.work.noMerge && w.work.existingMR.None?)
  {
    hide *;
    MergeRequestUnfolds(w, h);
    OrderOfSteps();
    NotYet(h, 5, CreateMR);
    if w.work.noMerge {
      GroundsOfWork(w, h);
      PartOptional(w, w.work.dispatcher != "", h, MailDispatcher);
      PartWider(w, h, MergeRequest(w, h), 5, 6, 5, 9);
      PartFact(w, h, MergeRequest(w, h), 5, 6, CreateMR);
    } else if w.work.existingMR.Some? {
      PartNothing(w, h, 5, 9);
    } else {
      CreatedFacts(w, h);
    }
  }

  lemma PartParts(w: World, h: History, t: History, low: nat, high: nat)
    requires Part(w, h, t, low, high)
    ensures Safe(w, t) && Below(t, high)
  {}

  lemma PartFact(w: World, h: History, t: History, low: nat, high: nat, s: Step)
    requires Part(w, h, t, low, high) && !(low <= Order(s) < high)
    ensures Did(t, s) == Did(h, s) && Failed(t, s) == Failed(h, s)
  {
    Persists(h, t, low, high, s);
  }

  /** The two looks at the work: committed, and ahead of the default branch. */
  function Counted(w: World, h: History): History {
    Then(Then(h, CheckWork, true), CountAhead, MayBeAhead(w.work))
  }

  lemma CountedFacts(w: World, h: History)
    requires Safe(w, h) && Below(h, 1) && ExitOf(w.flags) == Some(Completed)
    ensures var t := Counted(w, h);
            Part(w, h, t, 1, 3) && Did(t, CheckWork) && !Failed(t, CheckWork) &&
            Did(t, CountAhead) == MayBeAhead(w.work) && Failed(t, CountAhead) == !MayBeAhead(w.work)
  {
    hide Safe, Below, Part, SameOutside, Failures, MayBeAhead, ExitOf;
    var checked := Then(h, CheckWork, true);
    PartStep(w, h, CheckWork, true);
    PartParts(w, h, checked, 1, 2);
    PartStep(w, checked, CountAhead, MayBeAhead(w.work));
    PartFact(w, checked, Counted(w, h), 2, 3, CheckWork);
    PartTrans(w, h, checked, Counted(w, h), 1, 2, 2, 3);
  }

  /** What a submission leaves in the history. */
  ghost predicate SubmissionSays(w: World, t: History) {
    && Did(t, CheckWork) == Completable(w)
    && Failed(t, CountAhead) == (Completable(w) && !MayBeAhead(w.work))
    && Did(t, Push) == (Completable(w) && MayBeAhead(w.work) && w.works(Push, 1))
    && Failed(t, Push) == (Completable(w) && PushFails(w))
    && (Tried(t, CreateMR) <==>
          Completable(w) && MayBeAhead(w.work) && w.works(Push, 1) && IssueOf(w) != "" && !w.work.noMerge &&
          w.work.existingMR.None?)
  }

  lemma SubmissionUnfolds(w: World, h: History)
    requires Completable(w)
    ensures Submission(w, h) ==
            if !MayBeAhead(w.work) then
              (if IssueOf(w) != "" then Retry(w, Counted(w, h), ForceClose, 1) else Counted(w, h))
            else if w.works(Push, 1) && IssueOf(w) != "" then MergeRequest(w, Then(Counted(w, h), Push, true))
            else Then(Counted(w, h), Push, w.works(Push, 1))
  {
    hide MayBeAhead, IssueOf, BranchOf, MergeRequest, Retry, Then;
  }

  lemma NoCommitsFacts(w: World, h: History)
    requires Safe(w, h) && Below(h, 1) && ExitOf(w.flags) == Some(Completed) && Completable(w) && !MayBeAhead(w.work)
    ensures var t := Submission(w, h);
            Part(w, h, t, 1, 9) && SubmissionSays(w, t)
  {
    hide *;
    var t, counted := Submission(w, h), Counted(w, h);
    SubmissionUnfolds(w, h);
    OrderOfSteps();
    CountedFacts(w, h);
    PartParts(w, h, counted, 1, 3);
    NotYet(counted, 3, ForceClose);
    NoFailures(counted, ForceClose);
    Higher(counted, 3, 4);
    if IssueOf(w) != "" {
      SafeRetry(w, counted, ForceClose, 1);
      MakePart(w, counted, t, 3, 4);
    } else {
      PartNothing(w, counted, 3, 4);
    }
    SubmissionKeeps(w, counted, t, 3, 4);
    NotYet(counted, 3, Push);
    NotYet(counted, 3, CreateMR);
    PartTrans(w, h, counted, t, 1, 3, 3, 4);
    PartWider(w, h, t, 1, 4, 1, 9);
    assert SubmissionSays(w, t) by { NoCommitsSay(w, t); }
  }

  lemma NoCommitsSay(w: World, t: History)
    requires Completable(w) && !MayBeAhead(w.work)
    requires Did(t, CheckWork) && Failed(t, CountAhead) && !Did(t, Push) && !Failed(t, Push) &&
             !Did(t, CreateMR) && !Failed(t, CreateMR)
    ensures SubmissionSays(w, t)
  {
    hide Completable, MayBeAhead, Did, Failed;
  }

  lemma MakePart(w: World, h: History, t: History, low: nat, high: nat)
    requires Safe(w, t) && Below(t, high) && SameOutside(h, t, low, high)
    ensures Part(w, h, t, low, high)
  {}

  /** The facts a submission is about stay while other steps are taken. */
  lemma SubmissionKeeps(w: World, h: History, t: History, low: nat, high: nat)
    requires Part(w, h, t, low, high) && ((3 <= low && high <= 4) || 10 <= low)
    ensures Did(t, CheckWork) == Did(h, CheckWork) && Failed(t, CountAhead) == Failed(h, CountAhead)
    ensures Did(t, Push) == Did(h, Push) && Failed(t, Push) == Failed(h, Push)
    ensures Did(t, CreateMR) == Did(h, CreateMR) && Failed(t, CreateMR) == Failed(h, CreateMR)
  {
    hide Part, Did, Failed;
    PartFact(w, h, t, low, high, CheckWork);
    PartFact(w, h, t, low, high, CountAhead);
    PartFact(w, h, t, low, high, Push);
    PartFact(w, h, t, low, high, CreateMR);
  }

  lemma CommitsFacts(w: World, h: History)
    requires Safe(w, h) && Below(h, 1) && ExitOf(w.flags) == Some(Completed) && Completable(w) && MayBeAhead(w.work)
    ensures var t := Submission(w, h);
            Part(w, h, t, 1, 9) && SubmissionSays(w, t)
  {
    hide *;
    var t, counted := Submission(w, h), Counted(w, h);
    var pushed := Then(counted, Push, w.works(Push, 1));
    SubmissionUnfolds(w, h);
    OrderOfSteps();
    CountedFacts(w, h);
    PartParts(w, h, counted, 1, 3);
    Higher(counted, 3, 4);
    NotYet(counted, 3, Push);
    NotYet(counted, 3, CreateMR);
    GroundsOfWork(w, counted);
    PartStep(w, counted, Push, w.works(Push, 1));
    PartParts(w, counted, pushed, 4, 5);
    PartTrans(w, h, counted, pushed, 1, 3, 4, 5);
    PartFact(w, counted, pushed, 4, 5, CheckWork);
    PartFact(w, counted, pushed, 4, 5, CountAhead);
    PartFact(w, counted, pushed, 4, 5, CreateMR);
    if w.works(Push, 1) && IssueOf(w) != "" {
      MergeRequestFacts(w, pushed);
      PartFact(w, pushed, t, 5, 9, CheckWork);
      PartFact(w, pushed, t, 5, 9, CountAhead);
      PartFact(w, pushed, t, 5, 9, Push);
      PartTrans(w, h, pushed, t, 1, 5, 5, 9);
    } else {
      PartWider(w, h, pushed, 1, 5, 1, 9);
    }
    assert SubmissionSays(w, t) by { CommitsSay(w, t); }
  }

  lemma CommitsSay(w: World, t: History)
    requires Completable(w) && MayBeAhead(w.work)
    requires Did(t, CheckWork) && !Failed(t, CountAhead)
    requires Did(t, Push) == w.works(Push, 1) && Failed(t, Push) == !w.works(Push, 1)
    requires Did(t, CreateMR) || Failed(t, CreateMR) <==>
             w.works(Push, 1) && IssueOf(w) != "" && !w.work.noMerge && w.work.existingMR.None?
    ensures SubmissionSays(w, t)
  {
    hide Completable, MayBeAhead, Did, Failed;
  }

  lemma SubmissionFacts(w: World, h: History)
    requires Safe(w, h) && Below(h, 1) && ExitOf(w.flags) == Some(Completed)
    ensures var t := Submission(w, h);
            Part(w, h, t, 1, 9) && SubmissionSays(w, t)
  {
    hide Safe, Below, Part, SameOutside, Failures, MayBeAhead, ExitOf, IssueOf, BranchMayComplete, MergeRequest;
    if Completable(w) {
      if MayBeAhead(w.work) {
        CommitsFacts(w, h);
      } else {
        NoCommitsFacts(w, h);
      }
    } else {
      NotYet(h, 1, CheckWork);
      NotYet(h, 1, CountAhead);
      NotYet(h, 1, Push);
      NotYet(h, 1, CreateMR);
      if BranchMayComplete(w) {
        var t := Then(h, CheckWork, false);
        PartStep(w, h, CheckWork, false);
        PartFact(w, h, t, 1, 2, CountAhead);
        PartFact(w, h, t, 1, 2, Push);
        PartFact(w, h, t, 1, 2, CreateMR);
        PartWider(w, h, t, 1, 2, 1, 9);
      } else {
        PartNothing(w, h, 1, 9);
      }
    }
  }

  lemma BegunUnfolds(w: World)
    ensures var marked := OnceIf(AgentBeadOf(w.place.role(1)) != "", w, [], SetIntent);
            Begun(w, []) ==
            if ExitOf(w.flags) == Some(Completed) then Submission(w, marked)
            else OnceIf(ExitOf(w.flags) == Some(PhaseComplete), w, marked, JoinGate)
  {
    hide AgentBeadOf, OnceIf, ExitOf, Submission;
  }

  lemma BegunFacts(w: World)
    ensures Part(w, [], Begun(w, []), 0, 10)
    ensures ExitOf(w.flags) == Some(Completed) ==> SubmissionSays(w, Begun(w, []))
    ensures ExitOf(w.flags) != Some(Completed) ==> !Did(Begun(w, []), CreateMR) && !Failed(Begun(w, []), CreateMR)
    ensures Did(Begun(w, []), SetIntent) == (AgentBeadOf(w.place.role(1)) != "" && w.works(SetIntent, 1))
  {
    hide *;
    var marked, t := OnceIf(AgentBeadOf(w.place.role(1)) != "", w, [], SetIntent), Begun(w, []);
    OrderOfSteps();
    BegunUnfolds(w);
    NothingYet(w);
    GroundsOfEnd(w, []);
    PartOptional(w, AgentBeadOf(w.place.role(1)) != "", [], SetIntent);
    PartParts(w, [], marked, 0, 1);
    if ExitOf(w.flags) == Some(Completed) {
      SubmissionFacts(w, marked);
      PartTrans(w, [], marked, t, 0, 1, 1, 9);
      PartFact(w, marked, t, 1, 9, SetIntent);
      PartWider(w, [], t, 0, 9, 0, 10);
    } else {
      Higher(marked, 1, 9);
      NotYet(marked, 1, CreateMR);
      GroundsOfWork(w, marked);
      PartOptional(w, ExitOf(w.flags) == Some(PhaseComplete), marked, JoinGate);
      PartTrans(w, [], marked, t, 0, 1, 9, 10);
      PartFact(w, marked, t, 9, 10, SetIntent);
      PartFact(w, marked, t, 9, 10, CreateMR);
    }
  }

  lemma NothingYet(w: World)
    ensures Safe(w, []) && Below([], 0)
  {}

  lemma WitnessedUnfolds(w: World, h: History)
    ensures Witnessed(w, h) ==
            OnceIf(IssueOf(w) != "", w, Then(OnceIf(w.dataBranch, w, h, MergeData), MailDone, w.works(MailDone, 1)), MailWorkDone)
  {
    hide IssueOf, Then, OnceIf;
  }

  lemma WitnessedFacts(w: World, h: History)
    requires Safe(w, h) && Below(h, 10)
    ensures var t := Witnessed(w, h);
            Part(w, h, t, 10, 13) && (Did(t, MailDone) || Failed(t, MailDone))
  {
    var merged := OnceIf(w.dataBranch, w, h, MergeData);
    var mailed := Then(merged, MailDone, w.works(MailDone, 1));
    var t := OnceIf(IssueOf(w) != "", w, mailed, MailWorkDone);
    hide *;
    WitnessedUnfolds(w, h);
    OrderOfSteps();
    GroundsOfEnd(w, h);
    PartOptional(w, w.dataBranch, h, MergeData);
    PartParts(w, h, merged, 10, 11);
    GroundsOfEnd(w, merged);
    PartStep(w, merged, MailDone, w.works(MailDone, 1));
    PartParts(w, merged, mailed, 11, 12);
    GroundsOfAgent(w, mailed);
    PartOptional(w, IssueOf(w) != "", mailed, MailWorkDone);
    PartFact(w, mailed, t, 12, 13, MailDone);
    PartTrans(w, h, merged, mailed, 10, 11, 11, 12);
    PartTrans(w, h, mailed, t, 10, 12, 12, 13);
  }

  lemma ReportedUnfolds(w: World, h: History)
    ensures var state := ExitOf(w.flags) == Some(Escalated) || ExitOf(w.flags) == Some(PhaseComplete);
            var report := KnownCleanup(CleanupOf(w));
            Reported(w, h) ==
            OnceIf(w.agent.labelled && (report ==> w.works(ReportCleanup, 1)), w,
                   OnceIf(report, w, OnceIf(state, w, Then(h, ClearHook, w.works(ClearHook, 1)), SetState), ReportCleanup),
                   ClearIntent)
  {
    hide KnownCleanup, CleanupOf, ExitOf, Then;
  }

  lemma ReportedFacts(w: World, h: History)
    requires Safe(w, h) && Below(h, 16) && Did(h, ReadAgent) && (MoleculeBlocks(w.agent) ==> Did(h, CloseMolecule))
    ensures var t := Reported(w, h);
            var last := w.agent.labelled && (KnownCleanup(CleanupOf(w)) ==> w.works(ReportCleanup, 1));
            Part(w, h, t, 16, 20) && (Did(t, ClearHook) || Failed(t, ClearHook)) &&
            Did(t, ClearIntent) == (last && w.works(ClearIntent, 1)) && Failed(t, ClearIntent) == (last && !w.works(ClearIntent, 1))
  {
    hide *;
    OrderOfSteps();
    ReportedUnfolds(w, h);
    var state := ExitOf(w.flags) == Some(Escalated) || ExitOf(w.flags) == Some(PhaseComplete);
    var report := KnownCleanup(CleanupOf(w));
    var last := w.agent.labelled && (report ==> w.works(ReportCleanup, 1));
    var cleared := Then(h, ClearHook, w.works(ClearHook, 1));
    var stated := OnceIf(state, w, cleared, SetState);
    var told := OnceIf(report, w, stated, ReportCleanup);
    var t := OnceIf(last, w, told, ClearIntent);
    GroundsOfAgent(w, h);
    PartStep(w, h, ClearHook, w.works(ClearHook, 1));
    PartParts(w, h, cleared, 16, 17);
    GroundsOfAgent(w, cleared);
    PartOptional(w, state, cleared, SetState);
    PartParts(w, cleared, stated, 17, 18);
    PartFact(w, cleared, stated, 17, 18, ClearHook);
    GroundsOfAgent(w, stated);
    PartOptional(w, report, stated, ReportCleanup);
    PartParts(w, stated, told, 18, 19);
    PartFact(w, stated, told, 18, 19, ClearHook);
    GroundsOfAgent(w, told);
    PartOptional(w, last, told, ClearIntent);
    PartFact(w, told, t, 19, 20, ClearHook);
    PartTrans(w, h, cleared, stated, 16, 17, 17, 18);
    PartTrans(w, h, stated, told, 16, 18, 18, 19);
    PartTrans(w, h, told, t, 16, 19, 19, 20);
  }

  /** Nothing stands in the way of clearing the hook. */
  predicate HookIsFree(w: World) {
    FinalAgentBead(w) != "" && w.agent.hook.Some? && (MoleculeBlocks(w.agent) ==> MoleculeCloses(w))
  }

  predicate ReportsAll(w: World) {
    w.agent.labelled && (KnownCleanup(CleanupOf(w)) ==> w.works(ReportCleanup, 1))
  }

  lemma AgentUpdatedUnfolds(w: World, h: History)
    ensures var read := Then(h, ReadAgent, true);
            var freed := if MoleculeBlocks(w.agent) then Retry(w, read, CloseMolecule, 1) else read;
            AgentUpdated(w, h) ==
            if FinalAgentBead(w) == "" then h
            else if w.agent.hook.None? then Then(h, ReadAgent, false)
            else if !HookIsFree(w) then freed
            else Reported(w, OnceIf(w.agent.hook.value != "" && w.agent.stillHooked, w, freed, CloseHooked))
  {
    hide FinalAgentBead, MoleculeBlocks, MoleculeCloses, Then, Retry, Reported, OnceIf;
  }

  /** From reading the agent bead to the closed molecule. */
  lemma FreedFacts(w: World, h: History)
    requires Safe(w, h) && Below(h, 13) && (Did(h, MailDone) || Failed(h, MailDone))
    ensures var read := Then(h, ReadAgent, true);
            var t := if MoleculeBlocks(w.agent) then Retry(w, read, CloseMolecule, 1) else read;
            Part(w, h, t, 13, 15) && Did(t, ReadAgent) &&
            (MoleculeBlocks(w.agent) ==> Did(t, CloseMolecule) == MoleculeCloses(w))
  {
    hide *;
    OrderOfSteps();
    GroundsOfAgent(w, h);
    var read := Then(h, ReadAgent, true);
    PartStep(w, h, ReadAgent, true);
    PartParts(w, h, read, 13, 14);
    if MoleculeBlocks(w.agent) {
      var t := Retry(w, read, CloseMolecule, 1);
      NotYet(read, 14, CloseMolecule);
      NoFailures(read, CloseMolecule);
      Higher(read, 14, 15);
      SafeRetry(w, read, CloseMolecule, 1);
      MakePart(w, read, t, 14, 15);
      PartTrans(w, h, read, t, 13, 14, 14, 15);
      PartFact(w, read, t, 14, 15, ReadAgent);
      ThreeTries(w);
    } else {
      PartWider(w, h, read, 13, 14, 13, 15);
    }
  }

  lemma ThreeTries(w: World)
    ensures MoleculeCloses(w) <==> exists m | 1 <= m <= 3 :: w.works(CloseMolecule, m)
  {
    if m :| 1 <= m <= 3 && w.works(CloseMolecule, m) {
      assert m == 1 || m == 2 || m == 3;
    }
  }

  /** What the agent state update leaves in the history. */
  ghost predicate AgentSays(w: World, t: History) {
    && (Did(t, ClearHook) || Failed(t, ClearHook) <==> HookIsFree(w))
    && (Did(t, CloseHooked) || Failed(t, CloseHooked) <==> HookIsFree(w) && w.agent.hook.value != "" && w.agent.stillHooked)
    && Did(t, ClearIntent) == (HookIsFree(w) && ReportsAll(w) && w.works(ClearIntent, 1))
    && Failed(t, ClearIntent) == (HookIsFree(w) && ReportsAll(w) && !w.works(ClearIntent, 1))
  }

  lemma NothingCleared(w: World, t: History)
    requires Below(t, 15) && !HookIsFree(w)
    ensures AgentSays(w, t)
  {
    OrderOfSteps();
    hide HookIsFree, ReportsAll, Did, Failed, Below, Order;
    NotYet(t, 15, ClearHook);
    NotYet(t, 15, CloseHooked);
    NotYet(t, 15, ClearIntent);
  }

  lemma ClearedFacts(w: World, h: History, freed: History)
    requires Part(w, h, freed, 13, 15) && HookIsFree(w)
    requires Did(freed, ReadAgent) && (MoleculeBlocks(w.agent) ==> Did(freed, CloseMolecule))
    ensures var close := w.agent.hook.value != "" && w.agent.stillHooked;
            var t := Reported(w, OnceIf(close, w, freed, CloseHooked));
            Part(w, h, t, 13, 20) && AgentSays(w, t)
  {
    var close := w.agent.hook.value != "" && w.agent.stillHooked;
    hide *;
    OrderOfSteps();
    var closed := OnceIf(close, w, freed, CloseHooked);
    var t := Reported(w, closed);
    PartParts(w, h, freed, 13, 15);
    GroundsOfAgent(w, freed);
    PartOptional(w, close, freed, CloseHooked);
    PartParts(w, freed, closed, 15, 16);
    PartFact(w, freed, closed, 15, 16, ReadAgent);
    PartFact(w, freed, closed, 15, 16, CloseMolecule);
    ReportedFacts(w, closed);
    PartFact(w, closed, t, 16, 20, CloseHooked);
    PartTrans(w, h, freed, closed, 13, 15, 15, 16);
    PartTrans(w, h, closed, t, 13, 16, 16, 20);
    ClearedSay(w, t, close);
  }

  lemma ClearedSay(w: World, t: History, close: bool)
    requires HookIsFree(w) && close == (w.agent.hook.value != "" && w.agent.stillHooked)
    requires (Did(t, ClearHook) || Failed(t, ClearHook)) && (Did(t, CloseHooked) || Failed(t, CloseHooked) <==> close)
    requires var last := w.agent.labelled && (KnownCleanup(CleanupOf(w)) ==> w.works(ReportCleanup, 1));
             Did(t, ClearIntent) == (last && w.works(ClearIntent, 1)) && Failed(t, ClearIntent) == (last && !w.works(ClearIntent, 1))
    ensures AgentSays(w, t)
  {
    hide KnownCleanup, CleanupOf, Did, Failed, MoleculeBlocks, MoleculeCloses;
  }

  lemma AgentUpdatedFacts(w: World, h: History)
    requires Safe(w, h) && Below(h, 13) && (Did(h, MailDone) || Failed(h, MailDone))
    ensures Part(w, h, AgentUpdated(w, h), 13, 20) && AgentSays(w, AgentUpdated(w, h))
  {
    var free := HookIsFree(w);
    assert free ==> FinalAgentBead(w) != "" && w.agent.hook.Some? && (MoleculeBlocks(w.agent) ==> MoleculeCloses(w));
    hide *;
    var t := AgentUpdated(w, h);
    AgentUpdatedUnfolds(w, h);
    OrderOfSteps();
    GroundsOfAgent(w, h);
    if FinalAgentBead(w) == "" {
      PartNothing(w, h, 13, 20);
      Higher(h, 13, 15);
      NothingCleared(w, t);
    } else if w.agent.hook.None? {
      PartStep(w, h, ReadAgent, false);
      PartWider(w, h, t, 13, 14, 13, 20);
      PartParts(w, h, t, 13, 14);
      Higher(t, 14, 15);
      NothingCleared(w, t);
    } else {
      FreedFacts(w, h);
      var read := Then(h, ReadAgent, true);
      var freed := if MoleculeBlocks(w.agent) then Retry(w, read, CloseMolecule, 1) else read;
      if free {
        ClearedFacts(w, h, freed);
      } else {
        PartParts(w, h, freed, 13, 15);
        PartWider(w, h, freed, 13, 15, 13, 20);
        NothingCleared(w, freed);
      }
    }
  }

  // ----- removal and end -----

  lemma AllowedLook(w: World, h: History)
    requires Below(h, 21) && !Did(h, SeeRemote) && Grounds(w, h, SeeRemote)
    ensures Allowed(w, h, SeeRemote)
  {
    hide Grounds;
    OrderOfEnd();
    forall e | e in h ensures Order(e.step) < Order(SeeRemote) || e == Event(SeeRemote, false) {
      if Order(e.step) == Order(SeeRemote) {
        OrderInjective(e.step, SeeRemote);
      }
    }
  }

  lemma LookedUnfolds(c: Clone, h: History, i: nat)
    ensures Looked(c, h, i) ==
            if i >= c.remotes then h
            else if c.onRemote(i) then Then(h, SeeRemote, true) else Looked(c, Then(h, SeeRemote, false), i + 1)
  {}

  lemma {:induction false} LookedFacts(w: World, h: History, i: nat)
    requires Safe(w, h) && Below(h, 21) && !Did(h, SeeRemote) && Grounds(w, h, SeeRemote)
    ensures var t := Looked(w.clone, h, i);
            Part(w, h, t, 20, 21) && (Did(t, SeeRemote) <==> exists j | i <= j < w.clone.remotes :: w.clone.onRemote(j))
    decreases w.clone.remotes - i
  {
    hide *;
    LookedUnfolds(w.clone, h, i);
    OrderOfEnd();
    if i >= w.clone.remotes {
      SameSelf(h, 20, 21);
      MakePart(w, h, h, 20, 21);
    } else {
      var ok := w.clone.onRemote(i);
      var next := Then(h, SeeRemote, ok);
      AllowedLook(w, h);
      SafeThen(w, h, SeeRemote, ok);
      RetriedStep(h, SeeRemote, ok);
      MakePart(w, h, next, 20, 21);
      if !ok {
        LookGroundsStay(w, h, next);
        LookedFacts(w, next, i + 1);
        PartAgain(w, h, next, Looked(w.clone, next, i + 1), 20, 21);
      }
    }
  }

  lemma LookGroundsStay(w: World, h: History, t: History)
    requires Part(w, h, t, 20, 21) && Grounds(w, h, SeeRemote)
    ensures Grounds(w, t, SeeRemote)
  {
    hide *;
    OrderOfSteps();
    GroundsOfEnd(w, h);
    GroundsOfEnd(w, t);
    PartFact(w, h, t, 20, 21, CheckWork);
    PartFact(w, h, t, 20, 21, Push);
    PartFact(w, h, t, 20, 21, CountAhead);
  }

  lemma PartAgain(w: World, h: History, t: History, u: History, low: nat, high: nat)
    requires Part(w, h, t, low, high) && Part(w, t, u, low, high) && low <= high
    ensures Part(w, h, u, low, high)
  {
    hide Safe, Below, SameOutside;
    SameTrans(h, t, u, low, low, high, high);
  }

  predicate Removable(w: World, role: Role) {
    role.name != "" && role.rig != "" && w.clone.managed && SeenOnRemote(w.clone)
  }

  lemma RemovedUnfolds(w: World, h: History, role: Role)
    ensures Removed(w, h, role) ==
            if role.name == "" || role.rig == "" || !w.clone.managed || w.clone.branch.None? then h
            else OnceIf(SeenOnRemote(w.clone), w, Looked(w.clone, h, 0), RemoveWorktree)
    ensures w.clone.branch.Some? ==>
              (SeenOnRemote(w.clone) <==> exists j | 0 <= j < w.clone.remotes :: w.clone.onRemote(j))
    ensures w.clone.branch.None? ==> !SeenOnRemote(w.clone)
  {
    hide OnceIf, Looked;
  }

  lemma RemovedFacts(w: World, h: History, role: Role)
    requires Safe(w, h) && Below(h, 20) && Grounds(w, h, SeeRemote)
    ensures var t := Removed(w, h, role);
            Part(w, h, t, 20, 22) && (Did(t, RemoveWorktree) || Failed(t, RemoveWorktree) <==> Removable(w, role))
  {
    var due := Removable(w, role);
    assert due <==> role.name != "" && role.rig != "" && w.clone.managed && SeenOnRemote(w.clone);
    hide *;
    RemovedUnfolds(w, h, role);
    OrderOfSteps();
    var t := Removed(w, h, role);
    if role.name == "" || role.rig == "" || !w.clone.managed || w.clone.branch.None? {
      PartNothing(w, h, 20, 22);
      NotYet(h, 20, RemoveWorktree);
    } else {
      var looked := Looked(w.clone, h, 0);
      NotYet(h, 20, SeeRemote);
      Higher(h, 20, 21);
      LookedFacts(w, h, 0);
      PartParts(w, h, looked, 20, 21);
      GroundsOfEnd(w, looked);
      PartOptional(w, SeenOnRemote(w.clone), looked, RemoveWorktree);
      PartTrans(w, h, looked, t, 20, 21, 21, 22);
    }
  }

  lemma CleanedUpUnfolds(w: World, h: History)
    ensures var role := w.place.role(3);
            CleanedUp(w, h) ==
            Then(if !IsPolecat(role) then h
                 else Then(if ExitOf(w.flags) == Some(Completed) && !PushFails(w) then Removed(w, h, role.value) else h,
                           KillSession, w.works(KillSession, 1)), Exit, true)
  {
    hide PushFails, ExitOf, Removed, Then;
  }

  predicate RemovalDue(w: World) {
    && IsPolecat(w.place.role(3)) && ExitOf(w.flags) == Some(Completed) && !PushFails(w)
    && Removable(w, w.place.role(3).value)
  }

  /** What the end of a run leaves in the history. */
  ghost predicate EndSays(w: World, t: History, killed: bool) {
    && (Did(t, RemoveWorktree) || Failed(t, RemoveWorktree) <==> RemovalDue(w))
    && (Did(t, KillSession) || Failed(t, KillSession) <==> killed)
    && Did(t, Exit)
  }

  lemma KilledFacts(w: World, h: History, removed: History)
    requires Part(w, h, removed, 20, 22)
    requires Did(removed, RemoveWorktree) || Failed(removed, RemoveWorktree) <==> RemovalDue(w)
    ensures var t := Then(Then(removed, KillSession, w.works(KillSession, 1)), Exit, true);
            Part(w, h, t, 20, 24) && EndSays(w, t, true)
  {
    hide Part, Safe, Below, SameOutside, RemovalDue, Did, Failed, Then, Grounds, Order;
    OrderOfSteps();
    var killed := Then(removed, KillSession, w.works(KillSession, 1));
    var t := Then(killed, Exit, true);
    PartParts(w, h, removed, 20, 22);
    GroundsOfEnd(w, removed);
    PartStep(w, removed, KillSession, w.works(KillSession, 1));
    PartParts(w, removed, killed, 22, 23);
    GroundsOfEnd(w, killed);
    PartStep(w, killed, Exit, true);
    PartFact(w, removed, killed, 22, 23, RemoveWorktree);
    PartFact(w, killed, t, 23, 24, RemoveWorktree);
    PartFact(w, killed, t, 23, 24, KillSession);
    PartTrans(w, h, removed, killed, 20, 22, 22, 23);
    PartTrans(w, h, killed, t, 20, 23, 23, 24);
  }

  lemma CleanedUpFacts(w: World, h: History)
    requires Safe(w, h) && Below(h, 20)
    requires ExitOf(w.flags) == Some(Completed) && !PushFails(w) ==> Grounds(w, h, SeeRemote)
    ensures Part(w, h, CleanedUp(w, h), 20, 24) && EndSays(w, CleanedUp(w, h), IsPolecat(w.place.role(3)))
  {
    hide Part, Safe, Below, SameOutside, Removable, Did, Failed, Then, Grounds, Order, ExitOf, PushFails, CleanedUp, Removed;
    OrderOfSteps();
    CleanedUpUnfolds(w, h);
    var role := w.place.role(3);
    NotYet(h, 20, RemoveWorktree);
    NotYet(h, 20, KillSession);
    if IsPolecat(role) {
      if ExitOf(w.flags) == Some(Completed) && !PushFails(w) {
        RemovedFacts(w, h, role.value);
        KilledFacts(w, h, Removed(w, h, role.value));
      } else {
        PartNothing(w, h, 20, 22);
        KilledFacts(w, h, h);
      }
    } else {
      Higher(h, 20, 23);
      GroundsOfEnd(w, h);
      PartStep(w, h, Exit, true);
      PartFact(w, h, Then(h, Exit, true), 23, 24, RemoveWorktree);
      PartFact(w, h, Then(h, Exit, true), 23, 24, KillSession);
      PartWider(w, h, Then(h, Exit, true), 23, 24, 20, 24);
    }
  }

  // ----- whole runs -----

  /** The whole run of a world that reaches the witness: its parts and what they leave. */
  lemma ReachingFacts(w: World)
    requires ReachesWitness(w)
    ensures var t := Trace(w);
            Safe(w, t) && AgentSays(w, t) && EndSays(w, t, IsPolecat(w.place.role(3))) &&
            (Did(t, MailDone) || Failed(t, MailDone)) &&
            Did(t, SetIntent) == (AgentBeadOf(w.place.role(1)) != "" && w.works(SetIntent, 1)) &&
            (Did(t, CreateMR) || Failed(t, CreateMR) <==> SubmitsMR(w))
  {
    var begun := Begun(w, []);
    var witnessed := Witnessed(w, begun);
    var updated := AgentUpdated(w, witnessed);
    var t := CleanedUp(w, updated);
    assert t == Trace(w);
    ReachingMeans(w);
    SubmittedMeans(w, begun);
    hide *;
    OrderOfSteps();
    BegunFacts(w);
    PartParts(w, [], begun, 0, 10);
    WitnessedFacts(w, begun);
    PartParts(w, begun, witnessed, 10, 13);
    AgentUpdatedFacts(w, witnessed);
    PartParts(w, witnessed, updated, 13, 20);
    SubmissionKeeps(w, begun, witnessed, 10, 13);
    SubmissionKeeps(w, witnessed, updated, 13, 20);
    GroundsOfEnd(w, updated);
    CleanedUpFacts(w, updated);
    PartParts(w, updated, t, 20, 24);
    SubmissionKeeps(w, updated, t, 20, 24);
    PartFact(w, begun, witnessed, 10, 13, SetIntent);
    PartFact(w, witnessed, updated, 13, 20, SetIntent);
    PartFact(w, updated, t, 20, 24, SetIntent);
    PartFact(w, witnessed, updated, 13, 20, MailDone);
    PartFact(w, updated, t, 20, 24, MailDone);
    AgentKeeps(w, updated, t);
  }

  lemma ReachingMeans(w: World)
    requires ReachesWitness(w)
    ensures ExitOf(w.flags) == Some(Completed) ==> Completable(w)
    ensures ExitOf(w.flags) == Some(Completed) && MayBeAhead(w.work) && w.works(Push, 1) ==> IssueOf(w) != ""
    ensures PushFails(w) <==> MayBeAhead(w.work) && !w.works(Push, 1)
  {}

  /** Enough for the removal's grounds, and for the merge request. */
  lemma SubmittedMeans(w: World, t: History)
    requires ReachesWitness(w)
    ensures SubmissionSays(w, t) && ExitOf(w.flags) == Some(Completed) && !PushFails(w) ==>
              Did(t, CheckWork) && (Did(t, Push) || Failed(t, CountAhead))
    ensures SubmissionSays(w, t) && ExitOf(w.flags) == Some(Completed) ==>
              (Did(t, CreateMR) || Failed(t, CreateMR) <==> SubmitsMR(w))
    ensures ExitOf(w.flags) != Some(Completed) ==> !SubmitsMR(w)
  {
    ReachingMeans(w);
    hide Did, Failed, Completable, MayBeAhead, IssueOf;
  }

  lemma AgentKeeps(w: World, h: History, t: History)
    requires Part(w, h, t, 20, 24) && AgentSays(w, h)
    ensures AgentSays(w, t)
  {
    OrderOfSteps();
    hide Part, Did, Failed, Order, HookIsFree, ReportsAll;
    PartFact(w, h, t, 20, 24, ClearHook);
    PartFact(w, h, t, 20, 24, CloseHooked);
    PartFact(w, h, t, 20, 24, ClearIntent);
  }

  /** The whole run of a world that starts and then returns an error. */
  lemma FailingFacts(w: World)
    requires Starts(w) && !ReachesWitness(w)
    ensures var t := Trace(w);
            Safe(w, t) && Did(t, SetIntent) == (AgentBeadOf(w.place.role(1)) != "" && w.works(SetIntent, 1)) &&
            (Did(t, KillSession) || Failed(t, KillSession) <==> IsPolecat(w.place.role(1))) &&
            !Did(t, MailDone) && !Failed(t, MailDone) && !Did(t, CreateMR) && !Failed(t, CreateMR) &&
            !Did(t, ClearIntent) && !Failed(t, ClearIntent) && !Did(t, RemoveWorktree) && !Failed(t, RemoveWorktree) &&
            !Did(t, CloseHooked) && !Failed(t, CloseHooked)
  {
    var begun := Begun(w, []);
    var killed := Then(begun, KillSession, w.works(KillSession, 1));
    var t := Then(killed, Exit, true);
    hide *;
    FailingTrace(w);
    OrderOfSteps();
    BegunFacts(w);
    FailingSubmits(w, begun);
    var polecat := IsPolecat(w.place.role(1));
    PartParts(w, [], begun, 0, 10);
    NoneBelow(begun);
    if polecat {
      Higher(begun, 10, 22);
      GroundsOfEnd(w, begun);
      PartStep(w, begun, KillSession, w.works(KillSession, 1));
      PartParts(w, begun, killed, 22, 23);
      GroundsOfEnd(w, killed);
      PartStep(w, killed, Exit, true);
      PartTrans(w, begun, killed, t, 22, 23, 23, 24);
      PartParts(w, begun, t, 22, 24);
      PartFact(w, killed, t, 23, 24, KillSession);
      PartFact(w, begun, t, 22, 24, SetIntent);
      PartFact(w, begun, t, 22, 24, MailDone);
      PartFact(w, begun, t, 22, 24, CreateMR);
      PartFact(w, begun, t, 22, 24, ClearIntent);
      PartFact(w, begun, t, 22, 24, CloseHooked);
      PartFact(w, begun, t, 22, 24, RemoveWorktree);
    }
  }

  lemma FailingTrace(w: World)
    requires Starts(w) && !ReachesWitness(w)
    ensures ExitOf(w.flags) == Some(Completed)
    ensures var begun := Begun(w, []);
            Trace(w) == if IsPolecat(w.place.role(1)) then Then(Then(begun, KillSession, w.works(KillSession, 1)), Exit, true)
                        else begun
  {
    hide Begun, Then, ExitOf, Located, Completable, MayBeAhead, IssueOf;
  }

  lemma FailingSubmits(w: World, t: History)
    requires Starts(w) && !ReachesWitness(w) && SubmissionSays(w, t)
    ensures !Did(t, CreateMR) && !Failed(t, CreateMR)
  {
    hide Did, Failed, MayBeAhead, IssueOf, Completable;
  }

  lemma NoneBelow(h: History)
    requires Below(h, 10)
    ensures !Did(h, MailDone) && !Failed(h, MailDone) && !Did(h, ClearIntent) && !Failed(h, ClearIntent)
    ensures !Did(h, RemoveWorktree) && !Failed(h, RemoveWorktree) && !Did(h, KillSession) && !Failed(h, KillSession)
    ensures !Did(h, CloseHooked) && !Failed(h, CloseHooked)
  {
    hide *;
    OrderOfSteps();
    NotYet(h, 10, MailDone);
    NotYet(h, 10, ClearIntent);
    NotYet(h, 10, RemoveWorktree);
    NotYet(h, 10, KillSession);
    NotYet(h, 10, CloseHooked);
  }
}
