# Gas Town, verified

A Dafny model of the parts of Gas Town that carry real logic, with proofs of what they promise.
`dafny verify dfyconfig.toml` checks everything.

| part | modules | what is proved |
|---|---|---|
| molecules | StepGraph, StepParser, StepMeaning, StepLines, StepPrinter, Molecule, Instantiation, ChildContent, Progress | the step parser refines a header-split specification, inverts a canonical printer, and every line it takes for a header or a directive has exactly the documented form; the three-colour search is exact; instantiation yields the isomorphic image of the Needs graph, and the created issues can be worked off without stalling exactly when that graph is acyclic |
| `gt done` | DoneProtocol, DoneRun, DoneLaws, DoneGuarantees, DoneExact | the whole run, with its early returns, its deferred function, its retries and its `os.Exit`, is one history; for every step and every outcome the exact condition under which it is in that history, and what has happened before it wherever the run crashes |
| agent beads | AgentFields, AgentUpdates, AgentEffects, AgentLock, AgentLedger, AgentAlone, AgentBeads | any number of processes behind per-bead file locks, failing and dying anywhere, are linearizable; read through the text codec they refine a sequential record, for beads made on the way as well; no update is lost; what operations report is what the logs say; a writer that nothing disturbs leaves exactly the bead asked for |
| Towers of Hanoi | Hanoi, HanoiFormula | the generated moves are legal and are the only shortest solution; every run of the generated workflow, whatever sessions it is split over, makes exactly these moves |
| description fields | FieldBlock, AttachmentFields, MergeRequestFields, FieldIndependence, FieldSheet, FieldKeys | lens laws of the field blocks down to lines and bytes, each with its exact condition, and exactly when setting one block changes what is read of the other |
| escalations | EscalationFields, Reescalation | a closed form for every run of reescalations, carried through the description text |
| redirects | Paths, Redirect, RedirectSetup | resolution follows at most four redirects; a worktree set up at any depth shares the beads of its rig |
| agent IDs | AgentIds | when IDs read back, when they are accepted, and where the two disagree |
| event bus | EventLog, EventBus | readers that thread offsets get each event once, in order, while others publish |
| costs and channels | CostDigest, CostLog, ChannelRetention | entries are conserved, and exactly when they are not; what retention leaves |

Text, Lines and Numbers hold the string, line and number operations of Go that the rest rests on.

## How it is modelled

Code that works by changing things step by step is a method with loops, or a class whose methods
update its fields, and its contract equates the result with a specification function; the laws are
lemmas about that function. The agent-bead writers appear twice: as methods of a class, each running
alone (AgentBeads), and as step machines whose commands interleave (AgentLock); both keep the same
promises however commands fail (`MachineKeepsPromises`), and do the same when none does
(AgentAlone). A run of `gt done` is a method that appends to a history (DoneRun); the history of a
world is a function of everything the run can meet (DoneProtocol), and the guarantees are about
every prefix of it. Which events that history has is told a second time by predicates on the world
alone (DoneExact), and likewise what a line of text means to the parsers (StepMeaning, StepLines,
FieldKeys) and what writers leave for readers (ChildContent, AgentEffects), without the functions
that compute it.

The database, git, tmux and the mail system are replaced by stores and by commands whose success or
failure is arbitrary. A store may be declared reliable when it is made; what a program then achieves
is part of its contract. Strings are sequences of characters; lengths that Go measures in bytes are
measured in characters.

Where the code and its comments disagree, the model follows the code:

- Instantiation is described as atomic (internal/beads/molecule.go:265) but leaves issues behind when a
  creation fails after an earlier one worked (`AllOrNothingIff`, `HalfInstantiated`), and without some
  of its edges when a dependency fails (`PartlyWired`).
- `instantiateFromMarkdown` does not look for cycles; only `ValidateMolecule` does, and only for markdown.
- The deferred session kill of `gt done` is described as running on any exit path
  (internal/cmd/done.go:111-114), but `os.Exit` at line 683 skips it (`SessionSurvivesIff`).
- Validation of agent IDs allows hyphens in rig names (internal/beads/agent_ids.go:181-182), parsing does
  not (`ValidButMisread`).
- The costs log is rewritten in place, so a digest can lose entries of other days
  (`SafeAtEveryMomentIff`), and appends that come in between can be lost (`ConcurrentAppendsIff`).

## Model

| member | source | states |
|---|---|---|
| StepParser.ParseMoleculeSteps | internal/beads/molecule.go:67-175 | the loop over lines with its current step yields one step per section of the unique header split of the text |
| Lines.SectionsPartition | internal/beads/molecule.go:151-169 | the sections put back together are the text's lines in order; each starts with a header and no other line is one |
| Lines.SectionsUnique | internal/beads/molecule.go:151-169 | only one grouping of the lines has that shape, so the split determines the steps |
| StepParser.FinalizeStep | internal/beads/molecule.go:78-149 | needs and wait conditions accumulate over all their lines in order, tier, type and backoff keep the last, every other line is prose; the title falls back to the ref |
| StepParser.MatchDirective | internal/beads/molecule.go:85-131 | each line is taken by the first regular expression, in the source's order, that matches its trimmed text |
| StepParser.ParseBackoffConfig | internal/beads/molecule.go:180-220 | key=value parts read from left to right, default multiplier 2, nothing without a base |
| StepMeaning.MakeStepTitled | internal/beads/molecule.go:133-144 | the title is the first prose line that is not blank, trimmed; it is the ref exactly for want of one, and then the instructions are empty |
| StepLines.HeaderIff | internal/beads/molecule.go:32-33 | a line is the header of a ref exactly when it is ## and Step: in any case, white space allowed around, then the ref and nothing else |
| StepLines.DirectiveIff | internal/beads/molecule.go:35-52 | which lines are which directive, told by how their trimmed text begins, and what each says; no line is two |
| StepLines.OneMoreLine | internal/beads/molecule.go:85-131 | what one more line adds to a step, field by field |
| StepLines.FirstLines | internal/beads/molecule.go:133-144 | a step without lines has only its ref; one with text only has no directive field set |
| StepLines.ItemsOne | internal/beads/molecule.go:86-93 | an item of a list is its trimmed text, a blank one is none |
| StepLines.BackoffBase | internal/beads/molecule.go:180-220 | a base alone gives multiplier 2 and no maximum |
| StepLines.BackoffWithoutBase | internal/beads/molecule.go:180-220 | a configuration without a base is none |
| StepLines.BackoffBadMultiplier | internal/beads/molecule.go:205-208 | a multiplier that is no number leaves 2 |
| StepPrinter.ParseInvertsPrint | internal/beads/molecule.go:55-175 | parsing the documented layout of any well-formed step list gives the list back; well-formed titles are first lines of text |
| StepPrinter.BodyReads | internal/beads/molecule.go:78-149 | the printed lines of one step, finalized, are the step, its title included |
| Molecule.DetectCycles | internal/beads/molecule.go:513-568 | silence exactly on acyclic graphs, witnessed by a topological rank; an error is a closed chain of dependency edges |
| StepGraph.CycleFinder.Dfs | internal/beads/molecule.go:527-557 | from a reachable node the search ends in a genuine cycle or with the node ranked, the path as before and no finished node changed |
| StepGraph.CycleFinder.Visit | internal/beads/molecule.go:545-556 | entering, searching the needs and leaving keeps the colours, the path and the ranks consistent |
| StepGraph.CycleFinder.FirstOnPath | internal/beads/molecule.go:531-541 | a node in state 1 is always found on the path, so the slice at cycleStart never gets -1 |
| StepGraph.RankedIsAcyclic | internal/beads/molecule.go:527-557 | a graph with a rank that falls along every edge has no cycle |
| Molecule.CheckRefs | internal/beads/molecule.go:480-489 | passes exactly step lists whose refs are not empty and not repeated, and names a real offender otherwise |
| Molecule.CheckNeeds | internal/beads/molecule.go:491-501 | passes exactly when every need is a known ref other than the step's own, and names a real offender otherwise |
| Molecule.ValidateMolecule | internal/beads/molecule.go:461-509 | nil exactly for molecules whose steps are non-empty, distinct, known, without self-needs and acyclic; each error is true of the steps |
| Instantiation.CreateChildren | internal/beads/molecule.go:300-337 | either all children exist with fresh IDs and the template's fields, or only those made before the failure, each open or closed again: all closed when closing works; a reliable database gives all |
| Instantiation.WireNeeds | internal/beads/molecule.go:345-356 | exactly the needs inside the template become dependencies, in order, up to the first failure |
| Instantiation.WireNodes | internal/beads/molecule.go:339-357 | all edges of the template are added, or after a failure a proper prefix of them |
| Instantiation.InstantiateFromMarkdown | internal/beads/molecule.go:363-450 | no steps and unknown needs are refused exactly when that is so, before anything is created; otherwise the full instance, the partly wired one or the cleaned-up one, and with a reliable database the full one |
| Instantiation.InstantiateMolecule | internal/beads/molecule.go:267-360 | template children when the listing finds some, else the markdown, with the corresponding database and, if that is reliable, the full instance |
| Instantiation.WiredToLast | internal/beads/molecule.go:299-360 | whatever keys are repeated, the child of node i depends on that of node j exactly when both are the last with their keys and some node with the key of i needs that of j |
| Instantiation.Isomorphism | internal/beads/molecule.go:389-447 | with distinct keys, the child of node i depends on the child of node j exactly when i needs j |
| ChildContent.ChildrenAre | internal/beads/molecule.go:402-424 | every child has the title of its step, the priority of the parent and the kind task, hangs under the parent, and its description is the expanded instructions, a blank line and the lines instantiated_from, step and tier; no other issue is new, so none hangs under the template |
| ChildContent.TemplateChildrenAre | internal/beads/molecule.go:300-337 | the same for template issues, with their own kind, or task |
| ChildContent.TemplateEdges | internal/beads/molecule.go:339-357 | children of template issues depend on each other exactly as those do |
| ChildContent.DescribedLines | internal/beads/molecule.go:404-415 | the lines of such a description |
| ChildContent.ParseMoleculeMetadata | internal/cmd/prime_molecule.go:176-190 | the molecule of the first line that mentions one, or nothing |
| ChildContent.MoleculeReadBackIff | internal/cmd/molecule_status.go:294-304 | readers of a child find its template exactly when its text does not mention another one first |
| Instantiation.AllOrNothingIff | internal/beads/molecule.go:265-337 | all children or none are left exactly when no creation failed after an earlier one had worked |
| Instantiation.HalfInstantiated | internal/beads/molecule.go:321-332 | a failing second creation leaves the first child behind, closed |
| StepGraph.NeverStuckIffAcyclic | internal/beads/molecule.go:511-568 | in every state of every graph something is ready, whatever was closed before, exactly when there is no cycle |
| Progress.InstanceNeverStallsIff | internal/beads/molecule.go:363-450 | for every template, repeated keys included, the created issues can be closed without ever stalling exactly when the graph is acyclic in which equal keys are one node with the needs of all |
| Progress.ValidatedMoleculeNeverStalls | internal/beads/molecule.go:461-509 | a molecule that passed validation and was instantiated is the isomorphic image of its Needs and never stalls |
| Hanoi.Solver.Solve | scripts/gen_hanoi.py:26-32 | the recursive closure appends exactly the solution for n disks to the captured list |
| Hanoi.HanoiMoves | scripts/gen_hanoi.py:23-34 | the move list from A to C over B |
| Hanoi.SolutionLegal | scripts/gen_hanoi.py:23-34 | from any configuration with the n smallest disks together every move is legal and exactly those disks end on the target |
| Hanoi.SolutionLength | scripts/gen_hanoi.py:8-12 | 2^n - 1 moves |
| Hanoi.SolutionOptimal | scripts/gen_hanoi.py:23-34 | no legal way of moving the tower is shorter, and the only one that is as short is this one |
| HanoiFormula.GenerateFormula | scripts/gen_hanoi.py:36-99 | setup, a step per move and verify, each needing the one before |
| HanoiFormula.FormulaNames | scripts/gen_hanoi.py:74-99 | the steps by name, and what each needs |
| HanoiFormula.ReadyIsNext | scripts/gen_hanoi.py:85-99 | after k closings the one ready step is step k |
| HanoiFormula.RunsStayInStep | scripts/gen_hanoi.py:46-55 | in every run over crashing sessions the closed steps are always a beginning of the chain |
| HanoiFormula.MovesMadeAreLegal | scripts/gen_hanoi.py:46-60 | at every point of every run the moves made are a legal beginning of the solution |
| HanoiFormula.EveryFinishedRunSolves | scripts/gen_hanoi.py:46-74 | every run with nothing left to do made exactly the moves in order and has all disks on C |
| FieldBlock.ReplaceBlock | internal/beads/fields.go:113-179 | the setters' loops: other lines in order, blank lines trimmed at both ends, the new block first |
| FieldBlock.FindAfterPut | internal/beads/fields.go:30-179 | for every schema, every field reads as it was written |
| FieldBlock.KeptAfterPut | internal/beads/fields.go:113-179 | for every schema, the lines that are no field survive in order, up to blank lines at the ends |
| FieldBlock.PutAfterPut | internal/beads/fields.go:113-179 | for every schema, the last replacement wins byte for byte |
| FieldBlock.ReadPastPut | internal/beads/fields.go:113-179 | for any values, a reader blind to the schema's lines and to blank ones sees what it saw before, or else what the further lines of the values say |
| FieldBlock.ReadFramedByPut | internal/beads/fields.go:113-179 | with one-line values it sees no difference |
| FieldKeys.AttachmentKeyIff | internal/beads/fields.go:56-73 | each attachment field is read under exactly its key, with underscores, hyphens or nothing between the words |
| FieldKeys.AttachmentLineReads | internal/beads/fields.go:30-80 | what a text of one such line, the key in any case and white space around key and value, says; no_merge is set by true in any case |
| FieldKeys.MergeRequestKeyIff | internal/beads/fields.go:232-262 | the same for the merge-request fields |
| FieldKeys.ConvoyKeyIff | internal/beads/fields.go:263-275 | and for the conflict and convoy fields, of which one is also read under the key convoy |
| FieldKeys.MergeRequestLineReads | internal/beads/fields.go:206-282 | what a text of one such line says; a retry count that is no number says nothing |
| FieldKeys.AgentKeyIff | internal/beads/beads_agent.go:122-139 | each agent field is read under exactly one key |
| FieldKeys.AgentLineReads | internal/beads/beads_agent.go:102-143 | what a text of one such line says, null standing for nothing |
| FieldKeys.EscalationKeyIff | internal/beads/beads_escalation.go:130-161 | each escalation field is read under exactly one key |
| AttachmentFields.ParseAttachmentFields | internal/beads/fields.go:30-80 | each field's last non-empty line, under any of its spellings; nil when there is none |
| AttachmentFields.SetAttachmentFields | internal/beads/fields.go:84-179 | the description with its attachment block replaced, for every description and nil |
| AttachmentFields.UpdatedIs | internal/beads/fields.go:84-179 | what is written: five lines in their order, empty values left out, then the rest of the text |
| AttachmentFields.SetThenParseIff | internal/beads/fields.go:30-179 | what was set is parsed again exactly when every value is one trimmed line |
| AttachmentFields.SetThenSet | internal/beads/fields.go:113-179 | setting twice is the last setting, byte for byte |
| AttachmentFields.ParseThenSet | internal/beads/fields.go:30-179 | writing back what was parsed is invisible to the parser unless all that was found is a no_merge that is not true |
| AttachmentFields.SetKeepsTheRest | internal/beads/fields.go:113-179 | everything else in the description survives in order |
| MergeRequestFields.ParseMRFields | internal/beads/fields.go:206-282 | each field's last readable line; an unreadable retry count is passed over |
| MergeRequestFields.SetMRFields | internal/beads/fields.go:293-433 | the description with its merge-request block replaced |
| MergeRequestFields.FormatIs | internal/beads/fields.go:293-343 | the lines in their order, key by key, empty values left out and the retry count only when positive |
| Numbers.ScanIntStops | internal/beads/fields.go:284-289 | a retry count is read from the start of its value, up to the first character that is no digit |
| Numbers.AtoiTakesAll | internal/beads/molecule.go:206-208 | a multiplier or reescalation count must be a number to its end |
| Numbers.PlusIsRead | internal/beads/molecule.go:206-208 | numbers may have a plus sign |
| Text.SpaceIff | internal/beads/fields.go:39-51 | what trimming takes away |
| Text.LowerCharIs | internal/beads/fields.go:56-57 | what ignoring case ignores |
| MergeRequestFields.SetThenParseIff | internal/beads/fields.go:206-433 | what was set is parsed again exactly when the texts are one trimmed line each and the retry count is not negative |
| MergeRequestFields.SetThenSet | internal/beads/fields.go:346-433 | setting twice is the last setting, byte for byte |
| MergeRequestFields.ParseThenSet | internal/beads/fields.go:206-433 | writing back what was parsed loses nothing exactly when the retry count found is not negative and not a zero standing alone |
| MergeRequestFields.SetKeepsTheRest | internal/beads/fields.go:346-433 | everything else in the description survives in order |
| FieldIndependence.SetAttachmentShows | internal/beads/fields.go:113-282 | for every text and attachment, each merge-request field reads as before, or if it was absent as the further lines of the values say |
| FieldIndependence.SetAttachmentKeepsMergeRequestIff | internal/beads/fields.go:113-282 | what ParseMRFields returns stays the same exactly when no further line of a value adds a field, a zero retry count beside other fields excepted |
| FieldIndependence.SetAttachmentKeepsMergeRequest | internal/beads/fields.go:113-282 | so one-line values never change it |
| FieldIndependence.SetMergeRequestShows | internal/beads/fields.go:30-80 | for every text and merge request, each attachment field reads as before, or if it was absent as the further lines of the texts say |
| FieldIndependence.SetMergeRequestKeepsAttachmentIff | internal/beads/fields.go:30-80 | what ParseAttachmentFields returns stays the same exactly when no further line of a text adds a field, a no_merge other than true beside other fields excepted |
| FieldIndependence.SetMergeRequestKeepsAttachment | internal/beads/fields.go:346-433 | so one-line texts never change it |
| FieldIndependence.LineBreakInjects | internal/beads/fields.go:84-108 | an argument text that makes a merge request appear |
| FieldIndependence.LineBreakAttaches | internal/beads/fields.go:293-343 | a branch name that makes an attachment appear |
| FieldSheet.FindInSheet | internal/beads/beads_agent.go:54-143 | in a titled description every field reads as it was written, whatever the title says |
| AgentFields.FormatAgentDescription | internal/beads/beads_agent.go:54-99 | the title, a blank line and all seven fields, empty ones as null except role_type and agent_state |
| AgentFields.DescriptionIs | internal/beads/beads_agent.go:54-99 | the description line by line |
| AgentFields.ParseAgentFields | internal/beads/beads_agent.go:102-143 | each field's last line, null as empty, role_bead ignored |
| AgentFields.FormatThenParse | internal/beads/beads_agent.go:54-143 | for one-line values, reading back gives every value trimmed and null as empty |
| AgentFields.FormatThenParseIff | internal/beads/beads_agent.go:54-143 | under every title the round trip holds exactly when no value is untrimmed, spans lines or is the word null |
| AgentEffects.StateShows | internal/beads/beads_agent.go:228-613 | in every interleaving with failures and crashes readers see the state of the last stored operation that writes it: nuked after a reset, closed after a close, the one given after a create |
| AgentEffects.ReportShows | internal/beads/beads_agent.go:455-492 | and the cleanup status and merge request of the last update that set them |
| AgentEffects.ResetNukes | internal/beads/beads_agent.go:342-350 | rewriting for a reset: readers see state nuked, no hook, no merge request, no cleanup status, the rest as before |
| AgentEffects.CloseClosesDown | internal/beads/beads_agent.go:589-598 | rewriting for a close: the same with state closed |
| AgentEffects.UpdateChanges | internal/beads/beads_agent.go:478-491 | rewriting for an update: exactly the given fields read as given |
| AgentEffects.CreateShows | internal/beads/beads_agent.go:276-286 | what a create writes: the title and the seven fields as given |
| AgentBeads.Writers.CheckLevel | internal/beads/beads_agent.go:456-462 | the notification levels that are accepted |
| AgentBeads.Writers.CreateOrReopenAgentBead | internal/beads/beads_agent.go:228-308 | success means the content is stored, reads as the fields given, and the bead is open and typed; on failure it is stored or unchanged; the lock is given back; if no command fails the hook slot is the one given, whatever was there |
| AgentBeads.Writers.ResetAgentBeadForReuse | internal/beads/beads_agent.go:317-359 | after success readers see the state nuked, no hook, no merge request and no cleanup status, the title and the other fields as they were; in any case the bead is as open or closed as before; if no command fails the hook slot is empty too |
| AgentBeads.Writers.UpdateAgentDescriptionFields | internal/beads/beads_agent.go:455-492 | after success exactly the given fields read as given, and nothing but the content changed; invalid levels change nothing; if no command fails it succeeds exactly on a bead that is there and a valid level |
| AgentBeads.Writers.CloseAndClearAgentBead | internal/beads/beads_agent.go:556-613 | success means closed; the content is untouched or reads as closed down, untouched only if some command failed; if none fails the hook slot is cleared as well |
| AgentUpdates.RewrittenRefines | internal/beads/beads_agent.go:336-350 | rewriting the text and reading it back is changing the record |
| AgentUpdates.ReplayRefines | internal/beads/beads_agent.go:228-492 | a sequence of rewritings of the text, from a bead that is there or comes to be there, refines the same sequence on the record |
| AgentUpdates.LastWriterWins | internal/beads/beads_agent.go:441-454 | a field holds what the last operation that writes it wrote |
| AgentUpdates.NobodyWrites | internal/beads/beads_agent.go:441-454 | a field that no operation writes holds what it held |
| AgentAlone.AloneIsUndisturbed | internal/beads/beads_agent.go:228-613 | an operation whose commands all work leaves exactly the intended bead, content, hook slot, closed mark and type, and reports success exactly when the bead was there or is to be made |
| AgentAlone.RunsAlone | internal/beads/beads_agent.go:19-30 | among other processes in any state, one whose lock is free or its own reaches its end by itself with the effect it has alone, and touches no other bead or job |
| AgentAlone.NewcomerFinishes | internal/beads/beads_agent.go:228-613 | from any state a newcomer that finds the bead's lock free can do its whole operation, with exactly the intended bead as the outcome |
| AgentAlone.CloseTolerates | internal/beads/beads_agent.go:577-612 | a close that cannot read or rewrite the bead still closes it |
| AgentAlone.ResetTolerates | internal/beads/beads_agent.go:355-358 | a reset whose slot cannot be cleared still succeeds |
| AgentAlone.ReopenFallsBack | internal/beads/beads_agent.go:263-274 | a create over a closed bead reopens it by an update when reopening fails |
| AgentAlone.CreatedIsOpen | internal/beads/beads_agent.go:228-308 | however its commands fail, a create that reports success leaves the bead open and typed |
| AgentAlone.SlotIsTakenOver | internal/beads/beads_agent.go:294-307 | a hook slot that could not be emptied is emptied and filled after all; if that fails as well the create still succeeds |
| AgentAlone.LastShowCounts | internal/beads/beads_agent.go:306-308 | a create reports what its last reading of the bead says |
| AgentLock.Linearizable | internal/beads/beads_agent.go:19-30 | in every interleaving with failures and crashes a bead's content is that of its stored operations applied one after the other |
| AgentLock.RefinesRecord | internal/beads/beads_agent.go:455-492 | what readers see of any bead, one made during the run included, is a record to which these operations were applied in that order |
| AgentLock.BeadsStay | internal/beads/beads_agent.go:228-613 | no run of the writers makes a bead that was there vanish |
| AgentLock.NoLostUpdate | internal/beads/beads_agent.go:464-466 | whatever else was written, on every bead a field shows what the last stored operation on it wrote |
| AgentLock.StoresAreExclusive | internal/beads/beads_agent.go:229-242 | content is stored only by the one holder of the bead's lock or by the command that makes the bead |
| AgentLedger.ResultsAreHonest | internal/beads/beads_agent.go:228-308 | an operation is in the log of its bead as often as it counted, at most once, or twice for a Create whose first try failed late; at least once if it reports success, a Close excepted |
| AgentLedger.TicketsAreUnique | internal/beads/beads_agent.go:19-30 | no two operations share entries of a log |
| AgentLedger.LevelsAreKnown | internal/beads/beads_agent.go:456-462 | in no run is an update with an unknown level stored or reported as a success |
| AgentBeads.MachineKeepsPromises | internal/beads/beads_agent.go:228-613 | however its commands fail, the step machine of an operation keeps what the programs promise: content stored or untouched, and success only for stored content or a closed bead |
| AgentLock.LogGrows | internal/beads/beads_agent.go:19-30 | what is stored keeps its place in the order, so the order of stores is the order in time |
| AgentLock.HolderFinishes | internal/beads/beads_agent.go:238-242 | the holder of a lock reaches the end of its operation by itself and releases the lock, however its commands turn out |
| AgentLock.CrashFrees | internal/beads/beads_agent.go:19-30 | a process that dies leaves the beads as they are and its lock to others |
| AgentLock.FailuresLookAlike | internal/beads/beads_agent.go:228-613 | an operation goes on in the same way whether or not a command that failed took effect |
| DoneRun.Run.RunDone | internal/cmd/done.go:86-686 | the run with its deferred cleanup appends exactly the history of its world, and the error reaches the caller exactly when no session is to be killed |
| DoneRun.Run.RunUntilExit | internal/cmd/done.go:139-683 | the body ends in os.Exit exactly when it reaches the witness, otherwise it returns an error with the cleanup flag set for polecats |
| DoneRun.Run.Submit | internal/cmd/done.go:309-539 | checks, push and merge request with their two jumps, and which of them fail the run |
| DoneRun.Run.ForceCloseWithRetry | internal/cmd/done.go:361-382 | up to three attempts, stopping at the first success |
| DoneRun.Run.UpdateAgentStateOnDone | internal/cmd/done.go:747-901 | molecule, hooked bead, hook, state, cleanup status, label: with every early return |
| DoneRun.Run.CloseMoleculeWithRetry | internal/cmd/done.go:831-843 | up to three attempts, and whether the molecule got closed |
| DoneRun.Run.SelfNukePolecat | internal/cmd/done.go:941-984 | the remotes are searched up to the first that has the branch, and only then is the worktree removed |
| DoneRun.Run.CleanUpAndExit | internal/cmd/done.go:643-683 | removal for completed runs whose push did not fail, the session kill for polecats, exit |
| DoneExact.TraceExactly | internal/cmd/done.go:86-984 | for every step and outcome: it is in the history of a run exactly when a condition on what the run finds holds, said without the notions the run works with |
| DoneExact.InSequence | internal/cmd/done.go:86-984 | the events come in the order of the program, and a step comes again only where it failed and is one of the three that are retried |
| DoneExact.PushesExactly | internal/cmd/done.go:335-407 | committed work is pushed exactly when the count ahead of the remote branch, or else that ahead of the local one, is positive or neither is known; an issue is closed by force only when it is 0 |
| DoneExact.LocalCountIgnored | internal/cmd/done.go:335-347 | while the first count is known the second changes nothing in the whole run |
| DoneExact.ExitIs | internal/cmd/done.go:86-109 | the four exit types: a status in any case, a phase only with a gate, and nothing for an actor that is no polecat |
| DoneExact.IssueIs | internal/cmd/done.go:242-289 | the issue: as given, else from the branch name, else from the agent's hook |
| DoneExact.BranchIs | internal/cmd/done.go:187-205 | the branch: as git tells, the environment first when the worktree is gone |
| DoneExact.CleanupIs | internal/cmd/done.go:207-240 | the cleanup status that is reported when none is given |
| DoneGuarantees.RemovesExactly | internal/cmd/done.go:643-661 | the worktree's removal is attempted exactly when a completion of clean work reached the witness, its push did not fail, the last role detection says polecat, and the branch is on a remote |
| DoneGuarantees.NoWorkLost | internal/cmd/done.go:935-984 | when it is attempted the worktree was seen clean, the branch was seen on a remote, and the commits were pushed unless there were none |
| DoneGuarantees.SubmitsExactly | internal/cmd/done.go:388-515 | a merge-request bead is asked for exactly when new work was pushed, is to be merged and has none yet |
| DoneGuarantees.MergeRequestAfterPush | internal/cmd/done.go:388-407 | and only after this run's push succeeded |
| DoneGuarantees.ForceCloseWithoutCommits | internal/cmd/done.go:349-386 | an issue is closed by force only when nothing is to be merged, and tried at most three times |
| DoneGuarantees.NotifiesExactly | internal/cmd/done.go:567-634 | the witness is notified exactly when no error is returned first |
| DoneGuarantees.ClosesExactly | internal/cmd/done.go:818-900 | exactly when closing the hooked bead and clearing the label are attempted |
| DoneGuarantees.MoleculeFirst | internal/cmd/done.go:822-857 | the hooked bead is never closed nor the hook cleared before the molecule that blocks it |
| DoneGuarantees.ExactlyOneKill | internal/cmd/done.go:111-137 | with stable role detection every polecat run past validation makes exactly one session-kill attempt |
| DoneGuarantees.KillCount | internal/cmd/done.go:125-137 | in general the number of attempts is one or none, by the role detection that decides |
| DoneGuarantees.SessionSurvivesIff | internal/cmd/done.go:643-683 | a confirmed polecat's session survives exactly in runs that reach the witness and fail the last detection |
| DoneGuarantees.SessionCanSurvive | internal/cmd/done.go:683-685 | there is such a run |
| DoneGuarantees.IntentStays | internal/cmd/done.go:291-297 | at every crash point a written done-intent label is still there unless the agent's clean-up is over |
| DoneGuarantees.IntentLeftIff | internal/cmd/done.go:688-735 | exactly when a complete run leaves the label |
| DoneGuarantees.AtMostOnce | internal/cmd/done.go:86-686 | steps that are not retried are taken at most once |
| DoneGuarantees.CrashIsSafe | internal/cmd/done.go:688-693 | what a crash leaves of a run is as safe as the run |
| Redirect.ResolvedFollows | internal/beads/beads_redirect.go:25-102 | resolution follows the chain of redirects to where it settles, or four hops |
| Redirect.AnchorExact | internal/beads/beads_redirect.go:217-221 | the ups of the redirect lead to the rig root exactly for worktrees at most one level outside the town |
| Redirect.SharesRigBeads | internal/beads/beads_redirect.go:161-306 | after SetupRedirect without the mayor fallback the beads directory of a worktree at any depth resolves to what that of its rig root resolves to |
| Redirect.FallsBackToMayor | internal/beads/beads_redirect.go:204-226 | with the fallback it resolves along the chain from mayor/rig/.beads |
| Redirect.FallbackIff | internal/beads/beads_redirect.go:185-215 | the mayor's beads are used exactly when the rig has no beads directory with a database in it, and the mayor's is not missing |
| Redirect.RefusedIff | internal/beads/beads_redirect.go:161-214 | no redirect is computed exactly for the mayor's directories, fewer than two levels below the town, and where neither has a beads directory |
| RedirectSetup.FileTree.ResolveBeadsDir | internal/beads/beads_redirect.go:25-69 | returns what resolution says; only a redirect to itself may be removed, is removed if that works, and that changes no answer |
| RedirectSetup.FileTree.ComputeRedirectTarget | internal/beads/beads_redirect.go:161-245 | the redirect text with its error cases, the database check and the skipped hop |
| RedirectSetup.FileTree.CleanBeadsRuntimeFiles | internal/beads/beads_redirect.go:107-149 | only runtime files go, all of them when no error is reported and directories can be listed |
| RedirectSetup.FileTree.SetupRedirect | internal/beads/beads_redirect.go:261-306 | success means the redirect is written and, if the directory was there and could be listed, no other runtime file is left in it; it succeeds when files can be written and none is in the way; no file outside the worktree's beads directory and no tracked file changes, whatever fails |
| RedirectSetup.TrackedIsNotRuntime | internal/beads/beads_redirect.go:104-130 | none of the runtime patterns matches a tracked file |
| RedirectSetup.RuntimeIff | internal/beads/beads_redirect.go:112-130 | the patterns take exactly the names with .db in them, those that begin as merge artifacts do, and twelve names |
| AgentIds.BuildThenParseIff | internal/beads/agent_ids.go:317-446 | exactly when an ID with a hyphen-free prefix reads back as the agent it was built for |
| AgentIds.BuildIsInjective | internal/beads/agent_ids.go:317-328 | no two such agents share an ID |
| AgentIds.DogThenParseIff | internal/beads/agent_ids.go:354-446 | a dog's ID reads back unless its name has exactly one hyphen |
| AgentIds.DogsApart | internal/beads/agent_ids.go:317-360 | dogs share no ID with agents of rigs not called dog |
| AgentIds.ValidateAgentID | internal/beads/agent_ids.go:184-297 | the cases by number of segments and the scan from the right for the last role token |
| AgentIds.NamedIdIsValidIff | internal/beads/agent_ids.go:184-328 | the ID of a crew member or polecat is valid exactly when the rig does not begin with a hyphen and the name's last role token, if any, is harmless |
| AgentIds.RigIdIsValidIff | internal/beads/agent_ids.go:276-284 | the ID of a witness or refinery is valid exactly when the rig does not begin with a hyphen |
| AgentIds.DogIdIsValidIff | internal/beads/agent_ids.go:217-274 | the ID of a dog is valid exactly for hyphen-free and for harmless names |
| AgentIds.OneWordVerdict | internal/beads/agent_ids.go:202-215 | the verdict on every ID of one word after the prefix |
| AgentIds.TwoWordVerdict | internal/beads/agent_ids.go:217-236 | the verdict on every ID of two words |
| AgentIds.ScannedVerdict | internal/beads/agent_ids.go:238-294 | the verdict on every ID of three words or more, by the last role word, what stands before it and what after |
| AgentIds.NoRoleVerdict | internal/beads/agent_ids.go:240-252 | one of three words or more without a role word is refused |
| AgentIds.NoPrefixVerdict | internal/beads/agent_ids.go:184-200 | nothing is no ID, and exactly those without a prefix are refused for it |
| AgentIds.ValidButMisread | internal/beads/agent_ids.go:172-446 | a valid ID of a named agent is misread by the parser exactly when its rig is hyphenated, or is dog with a hyphenated name |
| EscalationFields.ParseEscalationFields | internal/beads/beads_escalation.go:110-165 | each field's last line, null as empty, and the last readable count |
| EscalationFields.FormatEscalationDescription | internal/beads/beads_escalation.go:40-107 | the title, a blank line and fourteen lines; empty values are null except the four that are always written |
| EscalationFields.FormatThenParseIff | internal/beads/beads_escalation.go:40-165 | under every title the round trip holds exactly for clean records with a 64-bit count |
| Reescalation.Beads.ReescalateEscalation | internal/beads/beads_escalation.go:367-426 | each outcome exactly when its guard holds, and the bead changed exactly when bumped |
| Reescalation.ReescalatedRefines | internal/beads/beads_escalation.go:398-425 | through the text, a reescalation is a bump of the record |
| Reescalation.OneCall | internal/beads/beads_escalation.go:367-441 | what one call does to a record: low becomes medium, medium high and anything else critical, the count goes up, the first severity, the time and the caller are noted |
| Reescalation.MarkStays | internal/beads/beads_escalation.go:416-421 | a bumped bead is labelled reescalated for good |
| Reescalation.RunFollows | internal/beads/beads_escalation.go:363-441 | after any number of calls severity, count, original severity, the time and caller of the last bump and all other fields are given by a closed form of the start |
| Reescalation.RunBounds | internal/beads/beads_escalation.go:363-441 | from a valid severity: at most three bumps, rank min(critical, start + bumps), the count within its limit, the original severity that of the start |
| Reescalation.LabelAlwaysMatches | internal/beads/beads_escalation.go:416-421 | the severity label matches the text, and no other level's label is there, over every run |
| EventBus.Bus.Publish | internal/bus/bus.go:41-77 | appends the event's line or nothing, and the line whenever appending works |
| EventBus.Bus.Tail | internal/bus/bus.go:82-111 | for a read in chunks while others publish: the events of the part it read, an error exactly when that part has a line of 65536 characters or more, and nothing published before the call is left out |
| EventBus.Bus.Watch | internal/bus/bus.go:115-136 | threading offsets delivers what was there and every published event once, in order; it does not fail while all lines fit |
| EventLog.EventsAppend | internal/bus/bus.go:82-111 | reading on from the end of a line continues exactly |
| EventLog.LinesRead | internal/bus/bus.go:41-111 | what was published is what is read, in order |
| EventLog.LinesFit | internal/bus/bus.go:98-110 | a log can be read to its end exactly when every event's line is shorter than the scanner's limit |
| EventLog.CarriageReturnDropped | internal/bus/bus.go:98-110 | a carriage return at the end of a line changes nothing |
| EventLog.TornLineIsLost | internal/bus/bus.go:100-110 | atomic appends are needed: a reader that stops inside a line loses the event on it, which a reader from the start sees |
| EventLog.UnfinishedLineSwallows | internal/bus/bus.go:72-74 | after a line that was left unfinished the next event is read exactly when it is what both make together |
| CostLog.Costs.QuerySessionCostEntries | internal/cmd/costs.go:1222-1270 | exactly the entries of the day, in order |
| CostLog.Costs.Summarize | internal/cmd/costs.go:1166-1181 | total, count and the totals per role and per rig |
| CostLog.Costs.DeleteSessionCostEntries | internal/cmd/costs.go:1341-1396 | the log without the entries of the day, or, when writing fails, some beginning of that; what others append after it has read goes, unless there is nothing to delete or the log cannot be read or opened |
| CostLog.Costs.RunCostsDigest | internal/cmd/costs.go:1137-1219 | with others appending after the first and after the second reading, the run stops at one of the moments of a digest, and the digest summarizes the entries of the day that it read |
| CostDigest.RolesAddUp | internal/cmd/costs.go:1174-1181 | the totals by role add up to the total |
| CostDigest.TotalsNext | internal/cmd/costs.go:1174-1181 | what one more entry adds to the total, its role's and its rig's; entries without a rig count for none |
| CostDigest.RewrittenKeeps | internal/cmd/costs.go:1357-1389 | exactly the entries of the day go; the rest stays in order, unparseable lines included |
| CostDigest.UnreadableKept | internal/cmd/costs.go:1357-1389 | lines that cannot be parsed survive, all of them and in order |
| CostDigest.EntryInPlace | internal/cmd/costs.go:1237-1262 | a line that can be parsed is one entry in its place |
| CostDigest.DigestConserves | internal/cmd/costs.go:1155-1207 | a complete run neither loses nor duplicates an entry |
| CostDigest.SecondRunCountsTwice | internal/cmd/costs.go:1200-1210 | stopping before the deletion loses nothing, and the next run digests the day's entries a second time |
| CostDigest.SafeAtEveryMomentIff | internal/cmd/costs.go:1385-1393 | entries are somewhere at every moment exactly when there is nothing to digest or all entries of other days are in earlier digests |
| CostDigest.ConcurrentAppendsIff | internal/cmd/costs.go:1206-1391 | with sessions ending meanwhile exactly the day's entries that came after the query and all that came before the rewriting are lost; nothing is lost exactly when there are none or the run finds nothing to digest |
| ChannelRetention.Channel.Enforce | internal/beads/beads_channel.go:386-453 | marks by age and number, closes what is marked; what cannot be closed stays |
| ChannelRetention.PrunedBounds | internal/beads/beads_channel.go:421-450 | no expired message is left, the number is within bounds, and exactly the messages that are neither expired nor too many survive |
| ChannelRetention.Survives | internal/beads/beads_channel.go:386-453 | a message survives exactly when it is not older than so many hours of 60 times 60 seconds, or of unknown age, and among the latest so many |
| ChannelRetention.PrunedAgain | internal/beads/beads_channel.go:509-525 | pruning again at the same time closes nothing, with or without the tolerance of the patrol |

## Left out

- StepPrinter.ParseInvertsPrint: an indented header line inside prose would become a header when printed, so well-formed prose has none.
- Instantiation.InstantiateFromMarkdown: the expansion of template variables is an arbitrary function.
- AgentLock.Linearizable: one database and one lock directory; routing to other databases is not modelled. The hook slot is set outside the lock and is not part of the linearized content.
- AgentBeads.Writers.CreateOrReopenAgentBead: the setup of custom types is part of the create that may fail; labels are left out.
- DoneProtocol: parsing the branch name, detecting the sender, the target branch and the priority are inputs of a run; mail bodies, logs and console output are left out. Merge requests are found or not found; how the search lists them, with its priority filter, is not modelled.
- Redirect.SharesRigBeads: symbolic links. A worktree or rig that is itself called .beads shares its beads directory too, but `ResolveBeadsDir` takes its own path for that directory.
- RedirectSetup.FileTree.CleanBeadsRuntimeFiles: glob characters in directory names are not special.
- AgentIds.BuildThenParseIff: the length of a prefix is counted in characters, not bytes.
- Reescalation.RunFollows: identities and times that span lines are excluded, as they would inject fields.
- EventBus.Bus.Tail: JSON is an arbitrary codec that reads back what it wrote on one line; a missing file is an empty one.
- EventBus.Bus.Publish: an append is atomic; what happens otherwise is stated by EventLog.TornLineIsLost and EventLog.UnfinishedLineSwallows.
- CostLog.Costs.RunCostsDigest: what others append between the truncation and the end of the writing is not modelled; dates that cannot be parsed and dry runs stop before the modelled part.
- CostLog.Costs.Summarize: money is whole units, not floating point.
- ChannelRetention.Channel.Enforce: the tolerance of the patrol is any number not below the count, in place of the factor 1.1; the overflow of very large retention hours is left out.
- MergeRequestFields.ParseMRFields: the record's text fields are a map from field to text.
- Acknowledging and closing escalations, queues, groups, synthesis and role fields: further codecs of the same kind.
- Session naming, version comparison, claim patterns, wisp lifetimes and console output: easy members only.
