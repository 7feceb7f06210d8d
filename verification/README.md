# Valyria: a verified model of five cores

This project models five parts of the Valyria workspace in Dafny and proves what they promise.

**The agent's step machine** (`Agent`, `Journal`, `Repair`, `LoopDetect`, `Plans`, and the modules
`Agent...`). The driver is a write-ahead-journal protocol. Each handler is a function from the agent
task and the answers of the outside world to the list of durable writes it makes, in order, and the
memory it leaves. A handler that runs to its end makes all its writes; a crash makes some prefix of
them and loses the memory. A run is any sequence of such events: driver steps, pauses, cancels,
resumes, user answers, permission decisions, and a crash at any write of any of them. The theorems
quantify over all runs. `AgentDriver.Driver` is the mutable object with the source's handlers and
loops; each method is proved to make exactly the writes of the step machine in their order, so a crash
between two of them leaves a prefix. Every transition it makes is checked against the transition table.
Where each event leads is told a second time without the handlers, from the state before and the answers
alone (`AgentOutcomes`, `AgentWaves`), what the detectors report in the recorded fields
(`LoopDetectProofs`), and what the journal queries mean entry by entry (`JournalProofs`).

**The crate-layering check** (`Layering`): the recursive search over mutable marks and a mutable stack,
proved sound and complete for the whole internal graph.

**The context budget, compressor and prompt assembler** (`Budget`, `Compress`, `Assemble` and their
proofs): the allocator's loops and their closed form, rendering by whole lines and symbols, and the
fitting loops over an arbitrary token counter.

**Layered configuration** (`ConfigTree`, `ConfigMerge`, `ConfigWriter`): merging with origins, the
environment overlay, and the cursor loop of the key writer.

**Multi-span editing** (`Utf8`, `Splice`): back-to-front splicing against simultaneous replacement, and
validity as section 4 of RFC 3629 defines it.

`Sequences` and `Options` hold what several modules share, `Discipline` the notion of a journal whose
every entry was allowed by the entries before it.

## Assumptions about the outside

The model's answers, tool outcomes, check outcomes, fingerprints, file hashes, plan validation, child
tasks, the fence nonce, the token counter, lower-casing and scalar parsing are parameters: the theorems
hold for all of them. One driver runs per agent task, clients act between handler executions, and no
other live process keeps memory of the agent task: one that was left with an older verify state and
resumed later would act on it. A handler that returns an error makes the application append a note and
fail the agent task (crates/valyria-app/src/runtime.rs:1830-1852). Every executed tool call counts as an
edit.

## Where the code and its comments differ

- crates/valyria-agent/src/driver.rs:1836-1840 says a replay gives the state of a process that never
  crashed. For the ledger it does. For the detector it does not, for two reasons: the step fed at
  driver.rs:1091 is not journaled (`AgentDivergence.CrashChangesTheReport`), and the lists of touched files
  shrink at a crash, because the change ledger is process memory (crates/valyria-ledger/src/ledger.rs:13-17),
  while a replay keeps their union (`AgentRounds.CrashChangesTheDecision`).
- crates/valyria-agent/src/driver.rs:1103-1105 handles a repair edit that waits for a permission. The
  transition table has no such edge, so that agent task fails (`AgentFindings.RepairEditNeedsNoPermission`).
- crates/valyria-agent/src/driver.rs:1332 says an approval resumes whichever phase asked. The table has no
  edge from waiting for a permission to Verifying (`AgentFindings.ApprovalResumes`).
- crates/valyria-agent/src/driver.rs:1352-1360 says the next model call sees the answer to a question. Inside a
  plan step there is no next model call: the stored question is asked again
  (`AgentFindings.AnswerIsAskedAgain`).
- crates/valyria-agent/src/repair.rs:1-3 describes the loop as diagnose, edit, verify again. An edit made after
  the user answered a question of that loop is not verified: the failed check is remembered, and the agent
  task goes straight back to Diagnosing (`AgentFindings.AnsweredEditIsChecked`,
  `AgentWitnesses.UnverifiedEditIsReached`).
- crates/valyria-agent/src/plan_exec.rs:465-469 says a crash after the answer replays the stored action. Not
  after a step's third turn (`AgentFindings.StoredActionReplayed`).
- crates/valyria-context/src/budget.rs:14 says every demanding section gets at least its `min`. It gets the
  smaller of `min` and its demand (`BudgetProofs.CapBounds`).
- crates/valyria-context/src/budget.rs:31-32 says the compiled-in policy is never degraded and never
  dropped. That prompt is no candidate: it is charged whole, before any. A candidate put into its section
  is degraded when it does not fit (`AssembleProofs.PolicyIsDegraded`), and dropped unless its trust is
  the policy's (`AssembleProofs.PolicySectionDrops`).
- crates/valyria-context/src/compress.rs:29-30 says a rendering is never larger than the level at full size.
  The marker can make a text larger (`Compress.MarkerMakesLarger`), and the note about omitted symbols a
  source (`Compress.NoteMakesLarger`).
- crates/valyria-config/src/env_layer.rs:5-9 says no setting's name needs an underscore. Two writable keys have
  one and cannot be set from the environment (`ConfigWriter.TwoKeysUnreachable`).

## Model

| member | source | states |
|---|---|---|
| `AgentLedger.CrashRefinement` | crates/valyria-agent/src/driver.rs:1841-1941 | At every write inside every handler, replaying the journal gives the ledger from before the handler or that ledger with the one mutation just journaled; after the last write it gives exactly the ledger left in memory. |
| `AgentLedger.LedgerSurvivesCrashes` | crates/valyria-agent/src/driver.rs:1434-1456 | On every run with any number of crashes, the remembered repair ledger (attempts, `escalated`, `switched_role`, budget) is the replayed one. |
| `AgentLedger.DecisionsSurviveCrashes` | crates/valyria-agent/src/repair.rs:109-162 | A restarted process takes every later repair decision as the process that did not die would. |
| `AgentLedger.AttemptsAreNumbered` | crates/valyria-agent/src/repair.rs:100-107 | Attempts in a replayed ledger are numbered 1, 2, 3, ... in journal order. |
| `AgentLedger.LedgerCounts` | crates/valyria-agent/src/driver.rs:1905-1941 | The replayed ledger holds as many attempts as the journal, and its two flags are set if and only if the matching decision was journaled. |
| `AgentLedger.RepairBudgetHolds` | crates/valyria-agent/src/driver.rs:64 | Every journal after c crashes holds at most 4 + c repair attempts, at most one strategy escalation, and at most one role switch, after it. |
| `AgentDetector.DetectorAgreesAlways` | crates/valyria-agent/src/driver.rs:1440-1456 | On every run the remembered loop detector is the fold of everything it was fed. |
| `AgentDetector.DetectorReplay` | crates/valyria-agent/src/driver.rs:1849-1903 | On every run with any number of crashes: a replay knows the steps, failures and number of snapshots that the live detector's history gives without the unjournaled steps after repair turns. It is that detector if and only if every diagnosis of this process that took a snapshot listed every file listed before; and it is the live detector if and only if, besides, no repair turn has ended since its memory was built. |
| `AgentDetector.ReplayWithoutCrash` | crates/valyria-agent/src/driver.rs:1836-1840 | Without a crash the replay is wrong about nothing but those steps. |
| `AgentRounds.CrashShrinksLists` | crates/valyria-agent/src/driver.rs:1863-1869 | One crash after a diagnosis was journaled, and no repair turn: the live detector is not the replayed one, because the new process's list of touched files is shorter and the replay keeps the union. |
| `AgentRounds.CrashChangesTheDecision` | crates/valyria-agent/src/driver.rs:820-882 | A run from a new task on which the live process finds nothing and goes on, with or without the unjournaled steps, while after one more crash the process that takes over reports a stall on the same journal and failure and escalates. |
| `AgentDetector.CumulativeWithoutCrash` | crates/valyria-agent/src/driver.rs:820-823 | Without a crash those lists are cumulative. |
| `AgentDivergence.CrashChangesTheReport` | crates/valyria-agent/src/driver.rs:1091-1093 | A run of twelve driver steps from a new task after which the live process reports a repeated failure, while after a crash before the twelfth the process that takes over reports a repeated step, on the same journal. |
| `AgentCompletion.CompletionIsEarned` | crates/valyria-agent/src/driver.rs:690-703 | On every run, whenever commands are recorded as verified, the last things that happened to the workspace are passing runs of exactly the checks of that non-empty plan. |
| `AgentCompletion.CompletesOnlyVerified` | crates/valyria-agent/src/driver.rs:643-709 | An agent task completes only from Verifying, and only with nothing to verify or with every check of its plan passed after the last edit. |
| `AgentCompletion.PausesAreSound` | crates/valyria-task/src/manager.rs:307-329 | A paused agent task always remembers a live state it was paused from. |
| `AgentPlanSteps.StepBudgetHolds` | crates/valyria-agent/src/plan_exec.rs:397-506 | Every reachable journal holds, for each plan step, at most one start, at most one completion and at most three model calls, none after its completion. |
| `AgentPlanSteps.DisciplineHolds` | crates/valyria-agent/src/plan_exec.rs:816-877 | Every entry of every reachable journal was allowed by the entries before it: a start once, a completion once and only of a started step, a call only while started, open and under the limit. |
| `AgentPlanning.PlanningDecidesOnce` | crates/valyria-agent/src/plan_exec.rs:179-268 | Planning answers and decisions alternate, nothing follows an acceptance, and there are at most three answers and three rejections, whatever the number of crashes. |
| `AgentPlanning.RestartRedecides` | crates/valyria-agent/src/plan_exec.rs:757-793 | A crash between the planning answer and its decision leads to a decision on the stored submission, without another model call. |
| `AgentOutcomes.UnplannedTurnLeads` | crates/valyria-agent/src/driver.rs:555-634 | Where a turn without a plan leads, from every such state: waiting for the user if and only if the model asked, Verifying if and only if it finished, waiting for a permission if and only if its tool call needs one, on in Implementing if and only if the call ran, and otherwise failed; only a call that ran changes the workspace. |
| `AgentOutcomes.NothingBeforeTheAnswer` | crates/valyria-agent/src/driver.rs:376-378 | On every run from a state that waits for the user or for a permission, until the answer: whatever is driven, paused, resumed, cancelled or crashes, nothing is journaled, edited, checked or completed. |
| `AgentOutcomes.QuestionIsAnsweredFirst` | crates/valyria-agent/src/driver.rs:621-625 | So after a question in Implementing no check runs and nothing completes before the user answers. |
| `AgentOutcomes.WalkedPlanLeads` | crates/valyria-agent/src/plan_exec.rs:358-408 | A planned agent task whose plan no longer validates fails; one all of whose steps are completed is verified. |
| `AgentOutcomes.InterruptedCallRedone` | crates/valyria-agent/src/driver.rs:556-567 | A tool call cut off by a crash is made again before anything else, without a model call, and where that leads. |
| `AgentOutcomes.PlanningDecides` | crates/valyria-agent/src/plan_exec.rs:148-268 | Where a round of planning leads: it decides the stored submission or else the model's, rejects an answer without one whatever validation says, stores exactly the validated plan, and fails with the rejection that uses up the attempts. |
| `AgentOutcomes.SilenceFailsPlanning` | crates/valyria-agent/src/plan_exec.rs:179-268 | A planner that gives no readable answer fails the agent task with one model call journaled. |
| `AgentOutcomes.VerificationLeads` | crates/valyria-agent/src/driver.rs:638-795 | Where a verification leads, from whatever is remembered: which check runs next, when it completes, goes to Diagnosing or fails, and what is journaled, done and remembered. |
| `AgentOutcomes.DiagnosisLeads` | crates/valyria-agent/src/driver.rs:797-957 | Where a diagnosis leads for each decision, with its journal entries in order. |
| `AgentOutcomes.DiagnosisRemembers` | crates/valyria-agent/src/driver.rs:904-955 | And exactly what it remembers: the diagnosis, the union of touched files, and per decision the escalation, the broader verification, the role and the dropped plan. |
| `AgentOutcomes.RepairLeads` | crates/valyria-agent/src/driver.rs:959-1113 | Where a repair turn leads, which attempt it records, if any, and what is remembered of it. |
| `AgentOutcomes.SignalsLead` | crates/valyria-task/src/manager.rs:307-329 | A pause or a cancel reaches exactly the agent tasks that are neither over nor paused, and a resume undoes a pause; they change nothing else. |
| `AgentOutcomes.ReachedFrom` | crates/valyria-types/src/state.rs:58-125 | The transition table read the other way: from which states each state can be reached. |
| `AgentOutcomes.PermissionLeads` | crates/valyria-agent/src/driver.rs:1263-1351 | Where a permission decision leads: a refused or denied call fails the agent task, one that runs is an edit, whatever comes of the transition after it. |
| `AgentTermination.RepairLoopTerminates` | crates/valyria-agent/src/driver.rs:638-1113 | From every reachable state in verify, diagnose, repair, without a crash or a user, the driver reaches Completed, Failed or waiting for the user after finitely many steps. |
| `AgentPlanLoop.PlanProgress` | crates/valyria-agent/src/plan_exec.rs:351-507 | Each plan-driven Implementing step leaves Implementing or decreases the measure: steps left, turns left, stored action, interrupted call. |
| `AgentPlanLoop.PlanLoopTerminates` | crates/valyria-agent/src/plan_exec.rs:351-507 | So plan-driven Implementing ends, whatever journal it starts from. |
| `AgentWaves.WorksOnEligibleSteps` | crates/valyria-plan/src/schedule.rs:93-104 | Every step that a driven step of a plan opens, calls the model for, answers or completes is the first one not completed, unless that one is parallel and its wave holds another parallel step not completed: then it is some parallel step of that wave not completed, and no model or tool is called. |
| `AgentWaves.WaveLeads` | crates/valyria-agent/src/plan_exec.rs:416-432 | When all children of such a wave complete, each of its unfinished parallel steps is completed exactly once more and has edited once, and no other step is; when any child does not, the agent task fails. |
| `AgentWaves.WaveOpensItsSteps` | crates/valyria-agent/src/plan_exec.rs:967-1003 | Each of them then has its start in the journal, and its checkpoint if the plan asks for one. |
| `AgentWaves.ChildrenTakeTurns` | crates/valyria-agent/src/plan_exec.rs:935-1008 | In a wave at most four children edit before one is folded back; of two steps that name a common file the second edits after the first was completed; and no step is completed before its child edited. |
| `AgentWaveOrder.FoldedInPlanOrder` | crates/valyria-agent/src/plan_exec.rs:943-1003 | Children that ran at once are folded back in the plan's order. |
| `AgentWaveOrder.NextIsCompletedFirst` | crates/valyria-agent/src/plan_exec.rs:943-1003 | The first step a wave completes is the one that was next. |
| `AgentWaves.PlannedTurnLeads` | crates/valyria-agent/src/plan_exec.rs:434-506 | Where a turn on a single step leads: a step out of turns is completed, otherwise what is stored is done or the model is asked; state, journal and workspace for every answer and tool outcome. |
| `AgentFindings.RepairEditNeedsNoPermission` | crates/valyria-types/src/state.rs:76 | A repair turn's tool call goes on to Verifying if and only if it just runs: one that needs a permission fails the agent task, because Repairing may not wait for a permission. |
| `AgentFindings.ApprovalResumes` | crates/valyria-agent/src/driver.rs:1333-1345 | An approved call resumes the agent task if and only if this process holds no verify state for it; otherwise the state stays put with nothing left to approve. |
| `AgentFindings.StrandedForever` | crates/valyria-types/src/state.rs:77 | Nothing but a cancel moves such a task again. |
| `AgentFindings.ApprovalAfterVerificationStrands` | crates/valyria-agent/src/driver.rs:1333-1345 | How it gets there: implementing again after a verification in the same process, asking and being allowed. |
| `AgentFindings.AnswerIsAskedAgain` | crates/valyria-agent/src/plan_exec.rs:498-503 | Answering a question stored by a plan step asks it again without a model call, if and only if the step has turns left. |
| `AgentFindings.NoAnswerGetsThrough` | crates/valyria-agent/src/plan_exec.rs:613-622 | However many answers: the journal grows by them and by nothing else. |
| `AgentFindings.StoredActionReplayed` | crates/valyria-agent/src/plan_exec.rs:460-478 | After a crash the stored action is taken if and only if its turn was not the step's last; otherwise the step is completed and the action never taken. |
| `AgentFindings.ChecksUnlessKept` | crates/valyria-agent/src/driver.rs:676-689 | On every run: a driven verification runs a check or completes if and only if this process does not remember a verification plan whose last check failed; otherwise it only goes back to Diagnosing. It remembers one afterwards if and only if it went there. |
| `AgentFindings.KeptUntilForgotten` | crates/valyria-agent/src/driver.rs:889-1113 | On every run from a failed check on: the failure stays remembered if and only if there is no crash, no diagnosis that escalates, switches the role or gives up, and no recorded repair turn other than a question; and while it does, no check runs and nothing completes, whatever the user answers and the model edits. |
| `AgentFindings.AnsweredEditIsChecked` | crates/valyria-agent/src/driver.rs:1360-1382 | After any answered question, what is edited on the way back to Verifying is checked there if and only if this process remembered no verification plan when the question was asked. |
| `AgentFindings.DiagnosisQuestionsKeep` | crates/valyria-agent/src/driver.rs:929-941 | On every run without crashes each diagnosis has the failed check remembered, and a question it asks leaves it so: no edit after such a question is checked on the way back. |
| `AgentFindings.CrashGrantsAttempt` | crates/valyria-agent/src/driver.rs:1045-1102 | Any repair turn that goes on records one attempt; a crash between that entry and the transition after it lets the restart record another without a decision: the c in 4 + c. |
| `AgentAsking.AsksOnlyAboutOscillation` | crates/valyria-agent/src/repair.rs:109-162 | On every run without crashes, whatever the user answered: a diagnosis asks the user only about an oscillation, and gives up once the role was switched. |
| `AgentAsking.QuestionsAreOscillations` | crates/valyria-agent/src/driver.rs:872-901 | So in every journal without crashes each decision to ask stands right after the report of an oscillation. |
| `AgentWitnesses.RefusedRepairIsReached` | crates/valyria-types/src/state.rs:76 | A run without a crash from a new task to a repair edit that needs a permission, and the agent task has failed. |
| `AgentWitnesses.StrandingIsReached` | crates/valyria-agent/src/driver.rs:1333-1345 | A run without a crash from a new task to a stranded one, and all that follows it. |
| `AgentWitnesses.QuestionIsReached` | crates/valyria-agent/src/plan_exec.rs:498-503 | A run without a crash to a stored question, and any number of answers to it. |
| `AgentWitnesses.DroppedActionIsReached` | crates/valyria-agent/src/plan_exec.rs:460-478 | A run to a third turn whose decided edit a crash loses: the restart completes the step instead. |
| `AgentWitnesses.UnverifiedEditIsReached` | crates/valyria-agent/src/driver.rs:676-689 | Twelve events from a new task, no crash and no escalation: the first repair turn asks, the user answers, the model edits, and the agent task is back in Diagnosing without a check. |
| `AgentWitnesses.BudgetIsReached` | crates/valyria-agent/src/driver.rs:64 | For every c a run with c crashes that journals 4 + c attempts. |
| `LoopDetectProofs.CountersAreExact` | crates/valyria-agent/src/loop_detect.rs:210-292 | After any history, with any thresholds, both run counters equal their definition over the whole recorded history, which no other number meets. |
| `LoopDetectProofs.StallReportedIff` | crates/valyria-agent/src/loop_detect.rs:118-122 | After any history a snapshot is reported as a stall if and only if in each of the last `stall_at` recorded ones, itself among them, the frontier did not rise, the failures did not become fewer and the touched files did not become more. |
| `LoopDetectProofs.MovingNeverStalls` | crates/valyria-agent/src/loop_detect.rs:276-292 | So an agent whose every diagnosis is further than all before it, by a higher frontier alone or by fewer failures alone, is never told that it stalls, on any history. |
| `LoopDetectProofs.StepReportsExactly` | crates/valyria-agent/src/loop_detect.rs:210-338 | Which finding a step is reported with: idling for the longest unchanged run if something acted in it, else a repeat of a distinctive step, else the least period; each if and only if. |
| `LoopDetectProofs.FailureReportedIff` | crates/valyria-agent/src/loop_detect.rs:249-274 | A failure is reported if and only if it and those right before it, as many as the threshold, are the same; a pass forgets the failures and nothing else. |
| `LoopDetectProofs.CycleRecords` | crates/valyria-agent/src/driver.rs:857-870 | What one diagnosis cycle records and reports, from any detector: the step always, the failure only if the step was not reported, the snapshot only if the failure was not either, and the first finding. |
| `LoopDetectProofs.CycleMeans` | crates/valyria-agent/src/loop_detect.rs:319-338 | Ending in a cycle of length p, key by key: over the last 3p each key is the one p places before it, and two of p differ. |
| `LoopDetectProofs.OscillationIsExactAndPrimitive` | crates/valyria-agent/src/loop_detect.rs:319-338 | Period p is reported if and only if it is the least one up to the maximum whose last 3p keys are one non-constant block three times over; and that block is no power of a shorter one. |
| `LoopDetectProofs.ShorterCycle` | crates/valyria-agent/src/loop_detect.rs:319-338 | A repeated block that is a power would already be reported at the shorter period. |
| `LoopDetectProofs.NoSilentSpinning` | crates/valyria-agent/src/driver.rs:857-870 | Among as many diagnosis cycles with one fingerprint as the threshold (three), with no passing run between, one reports a finding, from any detector state. |
| `LoopDetectProofs.NoChangeNeverReported` | crates/valyria-agent/src/driver.rs:857-859 | The driver's signatures never act, so the no-change detector never reports anything to it. |
| `LoopDetect.LoopDetector.ObserveStep` | crates/valyria-agent/src/loop_detect.rs:210-247 | The object's step observation and answer are those of the specification. |
| `LoopDetect.LoopDetector.ObserveFailure` | crates/valyria-agent/src/loop_detect.rs:249-274 | The same for failures, with the clearing on a pass. |
| `LoopDetect.LoopDetector.ObserveProgress` | crates/valyria-agent/src/loop_detect.rs:276-292 | The object's update and answer are those of the specification, which `StallReportedIff` tells apart from any other. |
| `LoopDetect.LoopDetector.RepeatedStep` | crates/valyria-agent/src/loop_detect.rs:294-317 | The exact-repeat loop counts the trailing run of the last key. |
| `LoopDetect.LoopDetector.OscillatingSteps` | crates/valyria-agent/src/loop_detect.rs:319-338 | The period loop returns the least period. |
| `LoopDetect.TrailingRun` | crates/valyria-agent/src/loop_detect.rs:300-308 | The run is the longest: every element in it equals x and the one before does not. |
| `LoopDetect.LeastPeriod` | crates/valyria-agent/src/loop_detect.rs:322-336 | No smaller period fits, and none is missed. |
| `Repair.Ledger.Decide` | crates/valyria-agent/src/repair.rs:109-162 | Exactly when each of the five decisions is taken: the budget first, then trouble (a regression, a finding that is no oscillation, or two different earlier attempts on this diagnosis, whatever lies between them) by the first escalation not used up, then an oscillation. |
| `Repair.Ledger.CountFor` | crates/valyria-agent/src/repair.rs:85-90 | The number of places in the list of attempts at which one was made on this diagnosis. |
| `Repair.RepairLedger.Decide` | crates/valyria-agent/src/repair.rs:109-150 | The object decides as the ledger value does. |
| `Repair.RepairLedger.Record` | crates/valyria-agent/src/repair.rs:100-107 | Recording appends the attempt with its number. |
| `Repair.RepairLedger.CountFor` | crates/valyria-agent/src/repair.rs:85-90 | The loop counts the attempts with one fingerprint. |
| `Journal.ReconstructVerifyState` | crates/valyria-agent/src/driver.rs:1841-1941 | One pass over the journal rebuilds detector and ledger as the two specification folds. |
| `Journal.ObserveDiagnosis` | crates/valyria-agent/src/driver.rs:860-870 | The chained observations of one cycle, each made only if the ones before found nothing. |
| `Journal.FindUnprocessedSubmission` | crates/valyria-agent/src/plan_exec.rs:757-793 | The backward search finds the latest planning answer unless a decision follows it. |
| `Journal.FindUnprocessedAction` | crates/valyria-agent/src/plan_exec.rs:601-641 | The backward search finds a step's stored action; `ActionIs` says which. |
| `Journal.ModelTurnsForStep` | crates/valyria-agent/src/plan_exec.rs:839-862 | The scan counts a step's model calls since its first start. |
| `JournalProofs.ActionIs` | crates/valyria-agent/src/plan_exec.rs:601-641 | What is stored for a step: the action of its latest answer, if and only if no tool call, completed step or scope note of whatever step stands after it. |
| `JournalProofs.SubmissionIs` | crates/valyria-agent/src/plan_exec.rs:757-793 | What is stored of planning: the latest answer, if and only if neither an acceptance nor a rejection stands after it. |
| `JournalProofs.ToolQueries` | crates/valyria-task/src/manager.rs:485-560 | A call is interrupted, or waits for a permission, if and only if the latest entry about any call is its issue, or the request. |
| `JournalProofs.TurnsAre` | crates/valyria-agent/src/plan_exec.rs:839-862 | A step's turns are the model calls for it that stand after some start of it, each counted once. |
| `JournalProofs.ObservationsAre` | crates/valyria-agent/src/driver.rs:1849-1903 | A replay feeds the detector one observation per diagnosis and per passing check, in their order, with every file named so far. |
| `JournalProofs.LedgerIs` | crates/valyria-agent/src/driver.rs:1905-1941 | And rebuilds the ledger from the attempts and the two escalations among the decisions. |
| `Plans.PartitionConflictFree` | crates/valyria-agent/src/plan_exec.rs:1204-1223 | Batches hold every step once and no two steps of a batch name a common file. |
| `Plans.Chunks` | crates/valyria-agent/src/plan_exec.rs:944 | Chunks put together are the batch again, and none is empty or longer than four. |
| `Plans.FirstFit` | crates/valyria-agent/src/plan_exec.rs:1208-1216 | The first batch without a conflict. |
| `Plans.FirstOutside` | crates/valyria-plan/src/schedule.rs:57-62 | The first step not done: it is not done, and everything before it is; none if all are. |
| `AgentDriver.Driver.Transition` | crates/valyria-task/src/manager.rs:307-326 | Every transition the driver makes is one the table allows; a paused task only goes back. |
| `AgentDriver.Driver.TakeVerifyState` | crates/valyria-agent/src/driver.rs:1440-1456 | The remembered verify state, or one rebuilt from the journal and remembered. |
| `AgentDriver.Driver.IssueAndExecute` | crates/valyria-agent/src/driver.rs:1117-1234 | A tool call's journal entries and transitions, and whether it returned an error. |
| `AgentDriver.Driver.StepVerifying` | crates/valyria-agent/src/driver.rs:638-795 | Makes exactly the writes of the step machine's verification, in order, and leaves its memory. |
| `AgentDriver.Driver.RunCheck` | crates/valyria-agent/src/driver.rs:711-794 | Running one check: issue, run, result, and what is remembered of it. |
| `AgentDriver.Driver.StepDiagnosing` | crates/valyria-agent/src/driver.rs:797-957 | The same for a diagnosis: entry, observations, finding, decision, consequences. |
| `AgentDriver.Driver.FollowDecision` | crates/valyria-agent/src/driver.rs:904-955 | What each of the five decisions changes and where it leads. |
| `AgentDriver.Driver.StepRepairing` | crates/valyria-agent/src/driver.rs:959-1113 | The same for a repair turn, including a redone tool call. |
| `AgentDriver.Driver.RecordAttempt` | crates/valyria-agent/src/driver.rs:1045-1112 | The attempt is journaled before it is recorded; then the plan is dropped and the files observed. |
| `AgentDriver.Driver.StepImplementing` | crates/valyria-agent/src/driver.rs:555-634 | The same for an unplanned turn. |
| `AgentDriver.Driver.StepImplementingPlan` | crates/valyria-agent/src/plan_exec.rs:351-507 | The same for a planned one. |
| `AgentDriver.Driver.SoloTurn` | crates/valyria-agent/src/plan_exec.rs:434-506 | Opening a step, its turn limit, its stored or fresh action. |
| `AgentDriver.Driver.FoldChunk` | crates/valyria-agent/src/plan_exec.rs:957-1003 | Folding children back, up to the first that failed. |
| `AgentDriver.Driver.RunParallelGroup` | crates/valyria-agent/src/plan_exec.rs:935-1008 | The nested loops over batches and chunks make the writes of the specification's wave: queries against the growing journal agree with the journal the wave began with. |
| `AgentDriver.Driver.StepPlanning` | crates/valyria-agent/src/plan_exec.rs:148-268 | The planning loop, which counts rejections in memory, is a number of rounds that each count them in the journal. |
| `AgentDriver.Driver.Drive` | crates/valyria-agent/src/driver.rs:282-393 | One iteration of the driver's loop is a step of the step machine, or the rounds of one planning phase. |
| `AgentDriver.Driver.Respond` | crates/valyria-agent/src/driver.rs:1361-1388 | A user's answer. |
| `AgentDriver.Driver.ResolvePermission` | crates/valyria-agent/src/driver.rs:1263-1351 | A permission decision. |
| `AgentDriver.Driver.PauseTask` | crates/valyria-agent/src/driver.rs:296-316 | A pause moves a task to Paused if and only if the table allows it and it is not paused already, and otherwise changes nothing. |
| `AgentDriver.Driver.CancelTask` | crates/valyria-agent/src/driver.rs:296-316 | The same for a cancel. |
| `AgentDriver.Driver.ResumeTask` | crates/valyria-app/src/runtime.rs:668-697 | Recovery of a task whose driver died, and resume of a paused one. |
| `AgentDriver.WaveConcat` | crates/valyria-agent/src/plan_exec.rs:943-1008 | A wave reaches its later chunks if and only if every child of the earlier ones completed. |
| `Layering.FindViolations` | xtask/src/main.rs:55-85 | Reports nothing if and only if every internal edge goes to the same or a lower layer and the whole internal graph has no directed cycle; every upward dependency is reported as often as it is listed, and before the cycles; a layer is reported if and only if it holds a cycle, once, the lower layers first. |
| `Layering.CycleSearch.Visit` | xtask/src/main.rs:106-138 | The recursive search ends, restores the stack, keeps the finished crates in dependency order; a reported path is a walk whose last crate occurs earlier. |
| `Layering.FindCycle` | xtask/src/main.rs:95-147 | A cycle is reported in a layer if and only if there is one. |
| `Layering.GroupByLayer` | xtask/src/main.rs:87-93 | Each layer's crates, in order. |
| `Layering.FindUpward` | xtask/src/main.rs:58-73 | The upward dependencies, all and only, each as often as it is listed. |
| `Layering.WalksGoDown` | xtask/src/main.rs:106-138 | No walk from a finished crate comes back to it or to a later one. |
| `Layering.NoCycleWithin` | xtask/src/main.rs:95-147 | So a finished layer holds no cycle. |
| `Layering.CycleStaysInLayer` | xtask/src/main.rs:75-76 | Without upward edges every cycle stays within one layer. |
| `Budget.Allocate` | crates/valyria-context/src/budget.rs:196-260 | The loops compute the allocation function, error cases included. |
| `Budget.TopUpAll` | crates/valyria-context/src/budget.rs:239-254 | One pass of the top-up loop, with its early exit. |
| `BudgetProofs.SucceedsIff` | crates/valyria-context/src/budget.rs:203-228 | Succeeds if and only if every demanded section has a spec and the capped floors fit (or saturate while everything is available). |
| `BudgetProofs.FailureSays` | crates/valyria-context/src/budget.rs:203-228 | What a failure says: the first demanded section without a spec in declared order, or the sum of the floors, as far as a machine word tells, and the tokens there are. |
| `BudgetProofs.OutputIsReserved` | crates/valyria-context/src/budget.rs:164-166 | What is handed out and the reserve for the output stay within the whole, and come to all of it unless every section has all it may; with a reserve beyond the whole nothing is handed out. |
| `BudgetProofs.CapsMean` | crates/valyria-context/src/budget.rs:215-252 | What the floor, ideal and maximum of a cap are, in the section's own three bounds and its demand. |
| `BudgetProofs.TotalIs` | crates/valyria-context/src/budget.rs:230-260 | The total is the available tokens less what could not be placed; it stays within them if and only if the floors do. |
| `BudgetProofs.NeverOverspends` | crates/valyria-context/src/budget.rs:196-260 | Even with repeated kinds no more is handed out than is available, short of saturation. |
| `BudgetProofs.SaturationOverspends` | crates/valyria-context/src/budget.rs:219-222 | The input on which the saturating sum hides floors that do not fit. |
| `BudgetProofs.ClosedForm` | crates/valyria-context/src/budget.rs:232-254 | Every cap in closed form: floor, plus what earlier sections leave of its two shares. |
| `BudgetProofs.CapBounds` | crates/valyria-context/src/budget.rs:15-16 | For min <= ideal <= max every cap lies between floor and min(max, demand). |
| `BudgetProofs.PriorityWins` | crates/valyria-context/src/budget.rs:15-16 | No section rises above its floor (its ideal) while one served before it, by priority or among equals by kind, is short of its ideal (its max). |
| `BudgetProofs.NothingWasted` | crates/valyria-context/src/budget.rs:15-16 | All tokens are given out, or every section has all it may, unless the floors fit only by saturation. |
| `BudgetProofs.MoreIsMore` | crates/valyria-context/src/budget.rs:230-254 | More available tokens never lower a cap. |
| `BudgetProofs.ListingOrderIrrelevant` | crates/valyria-context/src/budget.rs:232-239 | The order in which distinct sections are listed does not matter, errors included. |
| `BudgetProofs.DefaultAlwaysServes` | crates/valyria-context/src/budget.rs:96-155 | Wherever its products fit a machine word the default budget is well formed and, from 258 tokens on, serves every demand. |
| `BudgetProofs.DefaultOfEightThousand` | crates/valyria-context/src/budget.rs:96-155 | The default shape of a budget of 8000 tokens, in numbers. |
| `BudgetProofs.OverflowsIff` | crates/valyria-context/src/budget.rs:96-101 | They fit if and only if the total is at most 301171331815666148. |
| `Sequences.SortSorts` | crates/valyria-context/src/budget.rs:234-239 | The stable sort sorts by every total preorder. |
| `Sequences.SortPermutes` | crates/valyria-context/src/budget.rs:234-239 | And permutes. |
| `Compress.RenderText` | crates/valyria-context/src/compress.rs:53-112 | The truncation loop. |
| `Compress.TextIsCutAtLines` | crates/valyria-context/src/compress.rs:53-112 | A truncated text is a whole-line prefix (one line at least, if there is any) and the marker, no longer whole-line prefix would fit, and the count of dropped lines is right. |
| `Compress.TextNeverLargerIff` | crates/valyria-context/src/compress.rs:25-30 | A text is charged no more than at full size if and only if it fits, or whole lines of it do, or its first line with the marker costs no more than the text. |
| `Compress.MarkerMakesLarger` | crates/valyria-context/src/compress.rs:100-111 | The input on which a truncated text is larger than the whole one. |
| `Compress.SourceNeverLarger` | crates/valyria-context/src/compress.rs:25-30 | With any counter that goes by length, a source is charged no more than at full size if the note about omitted symbols is no longer than they are. |
| `Compress.SourceNeverLargerIff` | crates/valyria-context/src/compress.rs:199-212 | With a counter that charges a token for every n characters begun, it is charged no more if and only if that note exceeds the omitted symbols by no more characters than the full source's last token leaves unused. |
| `Compress.ChargesByLength` | crates/valyria-util/src/token_count.rs:20-27 | Such counters, the heuristic one (n = 4) among them, go by length. |
| `Compress.NoteMakesLarger` | crates/valyria-context/src/compress.rs:199-212 | With the heuristic counter, a source of two one-character symbols that is larger with the note than whole, at every level that shows symbols. |
| `Compress.RenderSource` | crates/valyria-context/src/compress.rs:115-213 | The symbol loop. |
| `Compress.SourceKeepsMostRelevant` | crates/valyria-context/src/compress.rs:146-213 | A source keeps whole symbols, the most relevant ones, at least one. |
| `Compress.ConsideredByRelevance` | crates/valyria-context/src/compress.rs:133-145 | The symbols are taken in falling relevance, those of one relevance by their first line, each once. |
| `Compress.SourceShows` | crates/valyria-context/src/compress.rs:155-176 | A rendered source shows every symbol it keeps: in full its documentation and body, in outline its signature under the documentation's first line, as a signature that alone. |
| `Compress.SourceFrame` | crates/valyria-context/src/compress.rs:146-155 | It begins with the path and the header, says how many symbols are left out if any are, and is marked truncated if and only if some are. |
| `Compress.ReferenceNames` | crates/valyria-context/src/compress.rs:120-132 | A reference to a source names every symbol of it. |
| `Compress.Digits` | crates/valyria-context/src/compress.rs:202 | The number of symbols left out is written in decimal, without leading zeros. |
| `Compress.KeptFits` | crates/valyria-context/src/compress.rs:181-197 | How many: those kept fit unless it is only one, and one more would not. |
| `Compress.KeepsAllIff` | crates/valyria-context/src/compress.rs:181-197 | All are kept if and only if there is at most one, or they fit and those before the last leave room. |
| `Compress.Lines` | crates/valyria-context/src/compress.rs:86 | The lines put together are the text, and each but the last ends in a line break. |
| `Assemble.AssemblePrompt` | crates/valyria-context/src/assemble.rs:145-274 | Partition, demand, allocation and the nested fitting loops compute the assembly function. |
| `Assemble.FitOne` | crates/valyria-context/src/assemble.rs:280-299 | The first level from full fidelity down that fits the room. |
| `Assemble.FitCandidate` | crates/valyria-context/src/assemble.rs:280-299 | The ladder loop finds it. |
| `AssembleProofs.AssemblyIsSound` | crates/valyria-context/src/assemble.rs:195-253 | Every candidate is placed or dropped exactly once; sections stay within their caps and the accounted whole within max(available, fixed overhead); every item has the first level that fits its room. |
| `AssembleOrder.MostRelevantFirst` | crates/valyria-context/src/assemble.rs:154-161 | Within a section the placed candidates, and likewise the dropped ones, come in falling relevance and, of one relevance, by name. |
| `AssembleOrder.DroppedForMoreRelevant` | crates/valyria-context/src/assemble.rs:195-253 | A dropped candidate did not fit at any level in the room left by items of which those of its section are no less relevant, and every later item of its section is no more relevant. |
| `AssembleOrder.DegradedForMoreRelevant` | crates/valyria-context/src/assemble.rs:280-299 | A better level of a degraded candidate did not fit in the room left by the items before it, and those of its section are no less relevant. |
| `AssembleOrder.GivesUpForPolicy` | crates/valyria-context/src/assemble.rs:229-240 | An assembly gives up only for a policy candidate no level of which fits what the items before it leave, and reports its full cost and its section's cap. |
| `AssembleOrder.ChargedInFull` | crates/valyria-context/src/assemble.rs:301-326 | The accounted whole, and what each item is charged for its header or fence, told from policy, frame, intent, names and nonce. |
| `AssembleProofs.PolicyAlwaysPlaced` | crates/valyria-context/src/assemble.rs:223-236 | A successful assembly contains every policy candidate. |
| `AssembleProofs.DegradedIff` | crates/valyria-context/src/assemble.rs:280-299 | In every successful assembly an item, whatever its trust, is below full fidelity if and only if its full rendering exceeds the room it had. |
| `AssembleProofs.PolicyIsDegraded` | crates/valyria-context/src/budget.rs:31-33 | An assembly that places a candidate of policy trust in the policy section as a mere reference. |
| `AssembleProofs.PolicySectionDrops` | crates/valyria-context/src/assemble.rs:229-250 | An assembly that drops a candidate of the policy section, its trust being another. |
| `AssembleProofs.WholePromptFits` | crates/valyria-context/src/assemble.rs:170-253 | A prompt whose full renderings fit, section by section and as a whole: every candidate is placed as it was measured and nothing is dropped, if and only if each renders whole in what it and the candidates after it in its section cost. Then the accounted whole is their cost and the fixed overhead. |
| `AssembleProofs.FittingSourceDropped` | crates/valyria-context/src/compress.rs:181-213 | The input on which that fails: with the heuristic counter a source whose full cost is exactly what its section may have is dropped. |
| `AssembleProofs.DemandMet` | crates/valyria-context/src/budget.rs:196-260 | A demand that fits the available tokens, exactly or with some to spare, is met in full. |
| `AssembleProofs.RendersWholeIff` | crates/valyria-context/src/compress.rs:181-213 | A candidate renders whole in its own cost and some room more: every text does, and a source if and only if it has at most one symbol or counting it piece by piece comes to no more than that, and to less before its last symbol. |
| `ConfigMerge.LayeredConfig.ApplyLayer` | crates/valyria-config/src/merge.rs:24-26 | Applying a layer merges it and records the origin of each of its leaves. |
| `ConfigMerge.ApplyLayers` | crates/valyria-config/src/merge.rs:16-26 | Applying layers one after another gives their merged tree and recorded origins. |
| `ConfigMerge.LayeredConfig.MergeInto` | crates/valyria-config/src/merge.rs:35-71 | The recursive merge, keys in any order. |
| `ConfigMerge.LayeredConfig.RecordLeafOrigins` | crates/valyria-config/src/merge.rs:73-89 | The recursive recording. |
| `ConfigMerge.MergedLeaf` | crates/valyria-config/src/merge.rs:52-70 | A merged leaf is the layer's, or the one below unless the layer hides it. |
| `ConfigMerge.EffectiveValue` | crates/valyria-config/src/merge.rs:1-4 | After any layers, a path holds the leaf of the last layer that has one there, if and only if no later layer hides it. |
| `ConfigMerge.OriginIsTruthful` | crates/valyria-config/src/merge.rs:24-89 | With dot-free keys and no empty key at the top every leaf has an origin, which is the last layer with a leaf there, and the value is that layer's. |
| `ConfigMerge.OriginTruthfulIff` | crates/valyria-config/src/merge.rs:53-57 | For any keys: the origin is truthful if and only if the last layer with a leaf of that name has the same source. |
| `ConfigMerge.RecordedOrigin` | crates/valyria-config/src/merge.rs:84-87 | The recorded origin of a name is the source of the last layer with a leaf of that name. |
| `ConfigMerge.DottedKeyMisattributed` | crates/valyria-config/src/merge.rs:53-57 | The layers on which a dotted key is given the wrong origin. |
| `ConfigMerge.EmptyKeyMisattributed` | crates/valyria-config/src/merge.rs:53-57 | The layers on which an empty key at the top gives another key the wrong origin. |
| `ConfigTree.NamesInjective` | crates/valyria-config/src/merge.rs:53-57 | Dotted names determine their path when keys are dot-free and the first is not empty. |
| `ConfigTree.ReadsBack` | crates/valyria-config/src/env_layer.rs:38-56 | Reading back gives the written value. |
| `ConfigTree.OthersUnchanged` | crates/valyria-config/src/env_layer.rs:38-56 | Every path neither above nor below reads as before. |
| `ConfigTree.WritesCommute` | crates/valyria-config/src/env_layer.rs:38-56 | Writes to unrelated paths commute. |
| `ConfigWriter.SetDotted` | crates/valyria-config/src/writer.rs:140-161 | The cursor loop builds the tree of the recursive insertion on the split key. |
| `ConfigWriter.WrittenLeaf` | crates/valyria-config/src/writer.rs:140-161 | Read-back and frame of a key write. |
| `ConfigWriter.WritableKeysCommute` | crates/valyria-config/src/writer.rs:25-33 | Writes to any two distinct writable keys commute on every document. |
| `ConfigWriter.EnvLayer` | crates/valyria-config/src/env_layer.rs:15-36 | The fold over the variables. |
| `ConfigWriter.EnvReadsBack` | crates/valyria-config/src/env_layer.rs:15-36 | A variable's value is at its path unless a later one writes at, above or below it. |
| `ConfigWriter.VariableSets` | crates/valyria-config/src/env_layer.rs:15-36 | Which path a variable sets, for all names: with the prefix, the parts between underscores in lower case, empty ones skipped; without it, none. |
| `ConfigWriter.PermissionModeVariable` | crates/valyria-config/src/env_layer.rs:26-30 | So `VALYRIA_PERMISSION_MODE` sets `permission.mode`. |
| `ConfigWriter.ReachableFromEnv` | crates/valyria-config/src/env_layer.rs:3-7 | A lower-case setting can be set from the environment if and only if no part of its name holds an underscore. |
| `ConfigWriter.TwoKeysUnreachable` | crates/valyria-config/src/writer.rs:29-30 | Two of the writable keys have no environment variable. |
| `Splice.FloorCharBoundary` | crates/valyria-edit/src/ast.rs:267-275 | The nearest boundary at or before a byte. |
| `Splice.SpliceOne` | crates/valyria-edit/src/ast.rs:182-190 | One splice, its ends snapped and ordered. |
| `Splice.SpliceMany` | crates/valyria-edit/src/ast.rs:195-204 | The back-to-front loop. |
| `Splice.SimultaneousEdit` | crates/valyria-edit/src/ast.rs:192-204 | For disjoint in-range spans with distinct starts on boundaries, in any order: the unchanged gaps interleaved with the replacements. |
| `Splice.SpliceManyKeepsValid` | crates/valyria-edit/src/ast.rs:180-204 | For arbitrary spans valid UTF-8 stays valid. |
| `Splice.SpliceKeepsValid` | crates/valyria-edit/src/ast.rs:180-190 | The same for one span. |
| `Splice.ListedEdit` | crates/valyria-edit/src/ast.rs:192-204 | Whenever the stable sort leaves the spans in source order back to front, spans with one start included, the edit is that interleaving, of spans with one start the later listed first. |
| `Splice.EqualStarts` | crates/valyria-edit/src/ast.rs:197 | For an insertion and a replacement at one place in any text: listed last, the insertion lands in front; listed first, the replacement takes the inserted bytes before any of the text. |
| `Splice.EqualStartsDependOnOrder` | crates/valyria-edit/src/ast.rs:197 | So the listing order shows: both results on a text of one letter. |
| `Splice.ExpandToWholeLines` | crates/valyria-edit/src/ast.rs:209-242 | Each side goes to its line's edge if and only if only blanks lie between. |
| `Utf8.ValidSplit` | crates/valyria-edit/src/ast.rs:267-275 | A valid text splits into valid texts at every boundary. |
| `Utf8.BoundaryIff` | crates/valyria-edit/src/ast.rs:267-275 | In a valid text the boundaries are exactly the places at which it can be cut into valid texts. |
| `Utf8.ValidConcat` | crates/valyria-edit/src/ast.rs:186-188 | Valid texts put together are valid. |
| `Utf8.ValidIffEncoded` | crates/valyria-edit/src/ast.rs:180-204 | A text is valid if and only if it is the encoding of a sequence of Unicode scalar values, as section 3 of RFC 3629 encodes them. |

## Left out

- Model calls, prompts, tool execution, sandboxing, clocks and the database: their outcomes are parameters. A failing write to the store is not an event: the source then fails the agent task and keeps its memory.
- Journal fields that no query reads (effect ids, step ids, turn indices, texts) and entry kinds the driver never queries; a completion answers the latest issued call, as one driver per agent task makes sure.
- Child tasks' own journals, checkpoint contents and rollback: a child enters by whether it completed.
- The cancellation token: a cancel is an event between handlers, which is how the driver polls its control signals.
- Events inside a handler other than a crash: with one driver, the handlers of one agent task do not interleave.
- The planning mode is fixed for a driver; the step machine lets it vary, which only adds runs.
- `broaden` and `repair_role_primary` after a crash: a replay does not restore them, and nothing here says it does.
- After a crash in Diagnosing the failures of the last run are gone; the fingerprint and the file state of a diagnosis are parameters, so what a diagnosis of nothing reports is not modelled, only that its counts are zero.
- The joined text of a step signature's key: a tuple of its parts instead, so separators inside parts are not modelled.
- `normalized_tool_call`: the driver's signatures carry no canonical tool call, so no run depends on it.
- Termination of unplanned Implementing: a model that keeps calling tools keeps it going, and the code sets no limit.
- AgentPlanLoop.PlanLoopTerminates: a question counts as leaving the loop, since the user answers it.
- The default budget beyond `BudgetProofs.LARGEST_DEFAULT`: a product overflows there, and what the build makes of that is not modelled.
- The accounting loop's sums are unbounded integers; only the allocator's saturating sum is modelled with its width.
- Relevance is a totally ordered value, so comparisons with not-a-number are left out.
- Injection scanning, fence strings and the rendered messages: the accounted cost is what the loop charges, and nothing is claimed about the rendered prompt's count.
- Reading, validating and replacing the configuration file, and the policy floor.
- Syntax trees, symbol resolution, patches and the regression check: spans are given.
- Updates of the configuration tree and of the verify state in place: they are values held in fields; the cursor of the key writer is the path it stands at.
- `indent_block`, `indentation_at`, the role pipeline, benchmarks, clients, the daemon and the terminal interface: easy or plumbing.
