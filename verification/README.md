# A verified model of the mca agent core

mca is a coding agent. Everything it does is written as facts to an append-only rollout file, and the session is what a
reducer makes of these facts. This project models the parts on which its promises rest, in the form that the program
itself has (values and folds as functions, objects with fields as classes, loops as methods), and proves those promises
for all inputs, all runs and all interleavings.

- **Session** (`Domain`, `Reducer`, `ReducerInvariant`, `ReducerRuns`, `ReducerMeaning`, `Sessions`): the reducer over all
  accepted events, as a function and as the object that changes in place; the invariant of every reachable state; what runs
  can never undo; what each part of the session says about the log.
- **Projection** (`Conversation`, `Projection`, `ProjectionSteps`, `ProjectionTheorem`, `ProjectionConverse`,
  `ProjectedContent`): which accepted logs become a valid provider conversation, in both directions, and what it says.
- **Recovery** (`Recovery`, `RecoverySteps`, `RecoveryRuns`, `RecoveryTheorem`, `RecoveredOutcomes`, `RecoveredProjection`):
  resuming after a crash at any fact, when that comes to an end, how each call ends by it, and when the session can go on.
- **Code Mode graphs** (`CodeDag`, `DagScheduler`, `DagPlanning`, `GraphExchange`, `GraphFacts`, `GraphRuns`,
  `CodeExchange`, `CodeWorker`): the parallel scheduler against a plain recursive evaluation, and the whole exchange
  between a worker and its parent over any number of requests, down to the facts in the rollout.
- **Code Mode programs** (`Interpreter`, `Semantics`, `SemanticsTheorem`, `InterpreterBudget`, `Evaluation`): the metered
  interpreter against a semantics of rules that knows no budget, and the budget itself.
- **Files** (`UndoFiles`, `UndoRuns`, `FileLock`, `ParentDirectories`): undo among other processes and crashes, file
  changes under a ticket queue, shared parent directories.
- **Streams, store, compaction, output** (`Utf8`, `Sse`, `SseAssembler`, `ResponseMeaning`, `StreamProtocol`, `Store`,
  `BatchScheduler`, `Compaction`, `CompactionTheorem`, `OutputBounds`, `Layout`, `LayoutRoutes`).
- **Where it fails** (`UntaggedVerdict`, `AbandonedTurn`, `RefusedRequest`, `TakenKeys`, `UndoFailures`): concrete inputs for
  the findings below, and the exact conditions.

Oracles stand for what the program takes from outside: JSON (a payload gives a document; a record decodes to itself, and
no proper prefix of it decodes), SHA-256 (equal content instead of equal digests), the results of tools, approvals, and
the order in which parallel work finishes. Every choice of these is covered.

## Findings

Where the code does not do what it is meant to do, the model follows the code.

1. *Verdicts are written without their origin.* A user's verdict on a code call with an unknown outcome is recorded without
   `origin` (`src/mca/session.py:432-437`, and `:158-170` when a turn is abandoned). The reducer accepts it; the projector
   then looks for a model call and refuses the session for ever. `UntaggedVerdict.VerdictBreaksProjection` is such a log.
   `ProjectionConverse.ProjectionExact` gives the exact condition for every log that tags no model result before its last
   cut, and `RecoveredProjection.RecoveredProjects` the exact condition for a recovery: no abandon of a code call.
2. *A turn can be abandoned while another call is open.* The reducer takes the abandon intent as soon as one outcome is
   unknown (`src/mca/domain.py:1008-1060`), and from then on refuses every fact that could close an open call.
   `ReducerRuns.AbandonTrap` shows that nothing ends such a turn, `AbandonedTurn.TrapIsReachable` gives a log of six events
   that leads there, and `RecoveryTheorem.Resume` shows that recovery succeeds if and only if the state is `Harmless`.
3. *A dependency named twice is noticed too late.* No check of a graph request rejects it (`src/mca/code_scheduler.py:87-136`),
   the planning fact is appended, and the reducer refuses it (`src/mca/domain.py:944`): the rollout can no longer be
   replayed. `GraphExchange.GraphSession.Submit` has the exact condition, `RefusedRequest.TwiceIsRefused` a request. The
   worker never sends one: `CodeWorker.GraphClient.Execute`.
4. *A refused assistant fact may leave calls behind.* When a call key is already taken, the calls before it in the same
   batch have been recorded (`src/mca/domain.py:688-695`). `Sessions.SessionState.Apply` and `TakenKeys.LeftBehind` say
   exactly what is left: nothing if and only if the first key is taken. `TakenKeys.RefusedForKey` says when it happens: a
   code node has the name of the key. `TakenKeys.HalfABatch` is such a log. Nodes named by the scheduler never collide,
   because their run ids contain a hyphen (`TakenKeys.OwnNodesTakeNoKey`), so the log must come from elsewhere.
5. *A pure mode change cannot be undone.* Managed writes keep a file's mode. When it is changed from outside between two
   writes of one turn and the second write restores the first content, the first look calls the untouched result a
   conflict (`src/mca/undo.py:187-308`). `UndoFailures.ModeChangeIsRefused` is such a turn, and
   `UndoFailures.TurnsThatCanBeUndone` has the exact condition for every turn.
6. *The limit of 512 layout vertices is only looked at when an edge is drawn* (`src/mca/terminal.py:409-428`).
   `LayoutRoutes.LoneNodes` lays out any number of nodes without edges, `LayoutRoutes.LinkedNodes` is refused beyond 512
   nodes with one edge, and `LayoutRoutes.LayeredVertices` has the exact condition.
7. *Undo can take an empty file of others for its own reservation.* A reservation is recognised by being empty with mode
   0600 (`src/mca/undo.py:592-593`). Such a file may be left under the quarantine name, for example by an earlier undo that
   moved it aside and found its place taken again. A later undo that sees the turn's write under the target name removes
   it (`src/mca/undo.py:375-385`, `:506-516`). `UndoFailures.EmptyFileIsTaken` is such a directory, and
   `UndoFailures.TakesReservation` says that, alone, undo removes such a file exactly when it undoes the turn.
   `UndoRuns.UndoAmongOthers` shows that nothing else of others is lost in any interleaving, empty files included.

## Model

| member | source | states |
|---|---|---|
| ReducerRuns.StepKeeps | src/mca/domain.py:553-574 | Every event that the reducer accepts keeps the session invariant: one active turn, open calls only in it, the block flag exactly when an outcome is unknown, code calls and nodes mirroring each other, dependencies planned earlier. |
| ReducerRuns.ReachableInv | src/mca/domain.py:546-551 | Replaying any accepted log from the empty session ends in a state with that invariant. |
| ReducerRuns.StepAdvances | src/mca/domain.py:105-129 | One event moves a call by at most one step of the transition table, with an unknown outcome leaving only through a verdict; finished runs stay, and planned nodes keep their ordinal, run and dependencies. |
| ReducerRuns.LaterIsTransitions | src/mca/domain.py:105-129 | The order of statuses used for whole runs is exactly the reflexive and transitive closure of the single transitions. |
| ReducerRuns.SettledForever | src/mca/domain.py:756-770 | A call with a final status, result and finish number keeps all of them through every later run. |
| ReducerRuns.FinishedRunForever | src/mca/domain.py:985-1005 | A finished code run gains no node in any later run, and each of its nodes stays finished. |
| ReducerRuns.GraphIsAcyclic | src/mca/domain.py:922-982 | In every reachable session no chain of dependencies between code nodes comes back to its start. |
| ReducerRuns.AbandonTrap | src/mca/domain.py:1008-1060 | After an abandon intent with an open call no accepted event closes that call, clears the intent or ends the turn. |
| ReducerMeaning.StepMovesCall | src/mca/domain.py:697-896 | An accepted decision, start, finish or verdict moves exactly the call it is about, to the state, and with the result, that the fact tells. |
| ReducerMeaning.CallsAsTold | src/mca/domain.py:756-896 | Each ended call of a session was ended by the fact at its recorded place, whose status and result it carries, or whose verdict and note; no fact ends two calls. |
| ReducerMeaning.SettingsAsTold | src/mca/domain.py:697-735 | The standing approval, plan mode, the pending intent, the checkpoint and the active turn are those that the last fact about each sets or takes back. |
| ReducerMeaning.EndsAsTold | src/mca/domain.py:1157-1188 | Every turn that is over, and every code run that is, was ended by a fact of the log with just its status. |
| ReducerMeaning.OriginsAsTold | src/mca/domain.py:606-695 | Every call of a session was asked for, at its recorded place, under its name by an assistant fact with its id or by a planning fact with its run and ordinal, and every node has the dependencies of its planning fact. |
| AbandonedTurn.NoRecovery | src/mca/session.py:174-249 | From a state with an abandon intent and an open call no recovery of any length comes to its end. |
| AbandonedTurn.TrapIsReachable | src/mca/domain.py:1008-1060 | A concrete accepted log of six events leads to that state, so recovery fails on a session that the reducer accepts. |
| Sessions.SessionState.Apply | src/mca/domain.py:553-574 | Applying an event in place does exactly what the reducer function says, and a refusal changes nothing, except that a taken call key leaves exactly the calls of its batch before the first taken one recorded. |
| Sessions.SessionState.FindById | src/mca/domain.py:1404-1438 | The lookup by provider id finds exactly the calls of the active turn that carry it, each once. |
| TakenKeys.LeftBehind | src/mca/domain.py:688-695 | The calls before the first taken key are left behind, in order, so a refused batch changes nothing if and only if its first key is taken. |
| TakenKeys.RefusedForKey | src/mca/domain.py:606-695 | In a reachable session a batch is refused for a taken key if and only if nothing else refuses it and a code node has the name of one of its keys. |
| TakenKeys.OwnNodesTakeNoKey | src/mca/code_scheduler.py:174-199 | A node of a run whose id has a hyphen before any colon never has the name of a call key. |
| TakenKeys.HalfABatch | src/mca/domain.py:688-695 | On a concrete accepted log the next assistant fact is refused and its first call is recorded all the same. |
| Conversation.Validate | src/mca/conversation.py:57-174 | The validator reports no fault exactly for the valid conversations: each batch of calls is followed by one result for every id before anything else. |
| Conversation.ScanAfterClosed | src/mca/conversation.py:57-174 | Between complete batches the validator has no memory: what was scanned before decides nothing about the rest. |
| Projection.EventCallTracker.ProjectEvent | src/mca/projection.py:312-339 | One event is projected, and the tracker of unanswered calls changed in place, as the projector's fold says, with the same errors; what the messages hold is `ProjectedContent.ProjectionSays`. |
| Projection.RunProjection | src/mca/projection.py:345-430 | The projector's loop gives the same messages or the same error as the fold over the log; what the messages hold is `ProjectedContent.ProjectionSays`. |
| ProjectionTheorem.ProjectionSucceeds | src/mca/projection.py:345-430 | Every accepted, settled and rightly tagged log projects to a valid provider conversation, also behind a checkpoint that replaces a prefix. |
| ProjectionTheorem.CheckpointMeaning | src/mca/domain.py:1191-1233 | The latest checkpoint of an accepted log holds a valid conversation, reaches before itself, and was written with nothing unsettled and no call across its cut. |
| ProjectionTheorem.CutIsSettled | src/mca/domain.py:1191-1233 | A call that is unsettled at the cut but settled at the end straddles the cut, so a cut without straddling calls lies between batches. |
| ProjectionConverse.ProjectionExact | src/mca/projection.py:345-430 | A settled log in which no result of a model call is tagged before the latest cut projects if and only if every result tag and assistant fact in it, before the cut and after it, is right. |
| ProjectionConverse.RightOrStopped | src/mca/projection.py:312-339 | Up to a cut, a log that hides no result of a model call is right or has made the projection fail already. |
| ProjectionConverse.DoomStep | src/mca/projection.py:312-339 | A projection that has gone wrong stays wrong whatever accepted event follows. |
| ProjectedContent.ProjectionSays | src/mca/projection.py:312-430 | Behind the system message and the checkpoint's, the conversation is, fact by fact and in order: the input of each turn, the content and calls of each assistant fact, and for each call of the model one result with its text, or with the verdict's text and note. |
| ProjectedContent.SaidIsOneThing | src/mca/projection.py:312-339 | What the facts of a log say is one conversation only: no second list of messages fits them. |
| UntaggedVerdict.VerdictBreaksProjection | src/mca/session.py:432-437 | A concrete accepted and settled log whose verdict on a code call carries no origin does not project. |
| Recovery.ResumeAfterCut | src/mca/session.py:210-249 | A recovery cut after any fact is continued by exactly the missing facts and ends in the same state. |
| RecoverySteps.FirstClosing | src/mca/domain.py:1474-1528 | The first closing fact planned is about the first open call, and closing it leaves exactly the rest of the plan. |
| RecoveryRuns.RunWorkShrinks | src/mca/session.py:251-323 | The first fact owed to an interrupted code run is accepted, the run then owes the rest, and no other run owes more. |
| RecoveryRuns.Rollout.CloseActiveRun | src/mca/session.py:257-303 | Closing an active run writes its open nodes and then its end, and leaves only what its parent call is owed. |
| RecoveryRuns.Rollout.CompleteRecoveryIntent | src/mca/session.py:174-207 | Completing an intent ends the turn with nothing open if and only if it interrupts, or abandons with no call open. |
| RecoveryRuns.Rollout.RecoverOpenCalls | src/mca/session.py:210-249 | The recovery of a session succeeds and owes nothing more if and only if the state was harmless. |
| RecoveryTheorem.Resume | src/mca/session.py:210-323 | A resume appends accepted facts only, and these are the complete chain of owed facts if and only if no pending intent is harmful. |
| RecoveryTheorem.NothingLeft | src/mca/session.py:326-357 | Where recovery owes nothing, no call is open, no code run is active and no intent is pending. |
| RecoveryTheorem.CrashAnywhere | src/mca/session.py:174-323 | After a crash behind any of its facts the state is harmless again, and the next recovery writes exactly the missing ones and reaches the same end, so any number of crashes is harmless. |
| RecoveryTheorem.RecoveryTagsRight | src/mca/session.py:251-323 | Every closing fact of recovery carries the tag that the projector expects; only a verdict may not. |
| RecoveredOutcomes.Outcomes | src/mca/session.py:210-357 | After a complete recovery a call that was only requested was not executed, a started one has an unknown outcome, or has failed if it is the model's parent of a run, an unknown one is abandoned exactly under an abandon intent, settled ones stay, and active runs have failed. |
| RecoveredProjection.RecoveredProjects | src/mca/session.py:147-249 | A recovered session is refused as blocked while an outcome waits for the user, and otherwise projects if and only if no code call was given up. |
| CodeDag.EvalIsUnique | src/mca/code_scheduler.py:221-279 | The recursive evaluation of a graph does not depend on the order chosen for it. |
| DagScheduler.MustProgress | src/mca/code_scheduler.py:221-279 | While nodes of a closed set wait, one of them is blocked by a failure or ready to run: the scheduler never gets stuck. |
| DagScheduler.CodeDagScheduler.ExecuteWave | src/mca/code_scheduler.py:333-393 | A wave starts calls under the limit and commits them in whatever order they finish; unless interrupted every staged node has ended and no other has changed. |
| DagScheduler.CodeDagScheduler.NextExecutionWave | src/mca/code_scheduler.py:312-331 | A wave takes the first call on each written path and puts off every later one, in order, losing none. |
| DagScheduler.CodeDagScheduler.ExecuteReady | src/mca/code_scheduler.py:280-310 | All ready nodes are refused, run in waves, or closed after a cancellation; unless interrupted all of them have ended. |
| DagScheduler.CodeDagScheduler.RootFailures | src/mca/code_scheduler.py:221-279 | The causes recorded for a skipped node are the root failures of its blockers, each once. |
| DagScheduler.CodeDagScheduler.SkipIfBlocked | src/mca/code_scheduler.py:221-279 | A planned node is closed as failed upstream exactly when a direct dependency has ended without success, with exactly these as blockers. |
| DagScheduler.CodeDagScheduler.ExecuteClosure | src/mca/code_scheduler.py:221-279 | Whatever the timing, every node of a closed set ends, no other node changes, and without a cancellation each ends as told: failed upstream exactly when a direct dependency did not succeed, else by its own refusal, else as its body reports, and failed when that is no status; after a cancellation an ended node may also not have been executed. Dependencies end before a start, starts and ends happen once, and the limit and path exclusion hold throughout. |
| DagScheduler.EndedAsTold | src/mca/executor.py:671-690 | A table that agrees with the recursive evaluation gives every node the status that its body reports, its refusal, or failed upstream, said of bodies, refusals and direct dependencies alone. |
| DagPlanning.RankedIsSound | src/mca/code_scheduler.py:148-172 | A batch with a ranking has neither a cycle nor an unknown reference. |
| DagPlanning.Topological | src/mca/code_scheduler.py:148-172 | The parent orders a request, each node once behind its dependencies, if and only if it is closed and acyclic, and each error names a cycle or a reference that is really there. |
| DagPlanning.WorkerClosure | src/mca/code_worker.py:169-192 | The worker collects, by ordinal, exactly the unsent nodes that the targets need, and nothing that they need is missing. |
| DagPlanning.Closure | src/mca/code_scheduler.py:206-219 | The parent's closure is closed under dependencies and holds exactly what the targets need. |
| GraphExchange.PlanAccepted | src/mca/domain.py:922-982 | Of a node that passed the parent's checks, the reducer accepts the planning fact if and only if it names no dependency twice. |
| GraphExchange.GraphSession.Submit | src/mca/code_scheduler.py:60-199 | A request is rejected with nothing changed, planned as a whole under session-wide names, or, if and only if some node names a dependency twice, refused with the rollout unreadable. |
| GraphExchange.RunGraphRanked | src/mca/domain.py:922-982 | The nodes of a run are closed under dependencies and ranked by the order of planning, as the scheduler needs them. |
| RefusedRequest.TwiceIsRefused | src/mca/code_scheduler.py:174-199 | A concrete request passes all of the parent's checks and is refused by the reducer, and the log no longer replays. |
| GraphFacts.NodeNoteAccepted | src/mca/executor.py:586-752 | The reducer accepts an approval decision, a start or an end of a node whose status allows it, and moves only this call and its mirror. |
| GraphFacts.NotesAccepted | src/mca/executor.py:167-330 | Every sequence of notes that is legal for each node, with decisions, mutation plans and snapshots anywhere between, is accepted fact by fact, and the session then says what the notes say. |
| GraphFacts.RunMayFinish | src/mca/domain.py:985-1005 | When every node of the run has ended, the reducer accepts its end. |
| GraphRuns.NoteAct | src/mca/executor.py:167-330 | The executor's notes around one act are legal after those before it, and hold that act and nothing else of the scheduler. |
| CodeExchange.RunScheduler | src/mca/code_scheduler.py:221-279 | A scheduler that takes over a run in the middle, with ended nodes beside new ones, drives a closed set to its end, keeps log, causes and results right, and without a cancellation every node of the set ends as its body, its refusal or its dependencies tell. |
| CodeExchange.Exchange.constructor | src/mca/code_scheduler.py:36-58 | For a run that has just started, session, table and notes agree, with nothing planned. |
| CodeExchange.Exchange.Record | src/mca/executor.py:586-720 | The facts of the notes are appended to a rollout that keeps replaying to the session, and the session says what the notes say. |
| CodeExchange.Exchange.Drive | src/mca/code_scheduler.py:221-279 | A closed set of nodes is driven to its end and every act noted, after which session, table and notes agree again, every node has ended as told unless cancelled, and what was planned stays. |
| CodeExchange.Exchange.ExecuteGraph | src/mca/code_scheduler.py:60-86 | After any earlier requests: a request is rejected unchanged, refused for a repeated dependency, or planned, each node with the name, ordinal and renamed dependencies of the request, and answered for every target, and for every node that the targets need, with the status that its body, refusal or dependencies tell, and with everything in agreement for the next request. |
| CodeExchange.Exchange.FinishRun | src/mca/code_mode.py:132-140 | When all nodes have ended, the end of the run is appended and accepted. |
| CodeExchange.Exchange.AnswersAgree | src/mca/code_scheduler.py:60-86 | Without a cancellation each answer, in whichever request it is given, is the recursive evaluation of the run's whole graph. |
| CodeExchange.Exchange.RunAsTold | src/mca/code_scheduler.py:221-279 | When all nodes of an uncancelled run have ended, each has ended as its body, its refusal or its direct dependencies tell, over all requests. |
| CodeExchange.Exchange.RunEndsFairly | src/mca/code_scheduler.py:221-279 | At any moment between requests an ended node has its refusal if it is refused, and otherwise a status that a body can report, or has failed upstream, or, only after a cancellation, was not executed. |
| CodeExchange.Exchange.RunCauses | src/mca/domain.py:878-893 | A node of the session that failed upstream names failed direct dependencies as its blockers, and as roots failed ancestors that are not blocked themselves; every other ended node names none. |
| CodeWorker.GraphClient.Create | src/mca/code_worker.py:112-131 | A new node has the next ordinal, each of its dependencies once and exactly the name asked for; older nodes and their names stay as they are. |
| CodeWorker.GraphClient.After | src/mca/code_worker.py:69-79 | More dependencies are added to an unsent node, each once, but never the node itself; a sent node is left alone. |
| CodeWorker.GraphClient.Execute | src/mca/code_worker.py:133-192 | Awaiting sends exactly the unsent nodes that the targets need; unless the request is rejected, cyclic or cancelled, every one of them and every target gets its final outcome, old outcomes stay, the parent never refuses its own fact, and its session holds for every node sent a call with the name, ordinal and dependencies of its creation. |
| CodeWorker.GraphClient.OutcomesAsTold | src/mca/code_worker.py:133-192 | Without a cancellation every outcome the worker holds is that of the planned node: its body's, its refusal, or failed upstream. |
| CodeWorker.RunProgram | src/mca/code_worker.py:102-192 | Through any program of creating, ordering and awaiting, worker and parent stay agreed, the rollout replays to the session, and unless cancelled the end of the run is accepted; every node has the name it was created with, every node sent is planned under it, and without a cancellation every outcome is the one that bodies, refusals and dependencies tell. |
| InterpreterBudget.ExecExtends | src/mca/code_ast.py:153-170 | With a larger budget statements do the same, effect by effect, or this budget was too small and the longer run takes more steps. |
| InterpreterBudget.BudgetIsExact | src/mca/code_ast.py:153-163 | A program is cut short if and only if, with budget enough, it takes more steps than this budget has; otherwise the budget makes no difference. |
| InterpreterBudget.NothingBeyondTheBudget | src/mca/code_ast.py:153-163 | The limit error ends a program exactly when it spent its budget, even with `try` and `finally`, and no call or other effect happens beyond it. |
| SemanticsTheorem.DerivedAgrees | src/mca/code_ast.py:142-467 | Every derivation, of whatever statement, loop, handler, expression or comprehension, that ends within the budget is what the interpreter does. |
| SemanticsTheorem.MeaningIsRun | src/mca/code_ast.py:142-467 | A run ends with a result and effects before its budget does, if and only if the rules of the language, one for each form of statement and expression and none of them knowing a budget, derive just these in that many steps. |
| SemanticsTheorem.OneMeaning | src/mca/code_ast.py:170-252 | The rules give a program at most one result with one history of effects. |
| SemanticsTheorem.ProgramEnds | src/mca/code_ast.py:158-163 | A program whose meaning takes no more steps than the budget ends with just this result and these effects, and one that takes more ends with the limit error. |
| Interpreter.Visit | src/mca/code_ast.py:438-467 | A list or dictionary comprehension over any iterable that goes through has at most as many items as the collection limit. |
| Evaluation.Evaluator.RunProgram | src/mca/code_ast.py:158-163 | The evaluator that changes its environment in place and leaves by exceptions ends, unless the budget stops it, with a result and effects that the rules of the language derive; it ends so whenever the derived meaning takes no more steps than the budget, and is stopped whenever it takes more. |
| UndoFiles.IntactPasses | src/mca/undo.py:187-308 | An untouched written file passes the first look if and only if its snapshot is complete, small, and not a pure mode change. |
| UndoFiles.RecoverablePasses | src/mca/undo.py:187-308 | Whatever an interrupted undo leaves passes the first look of the next one. |
| UndoRuns.Disk.Claim | src/mca/undo.py:356-420 | Undo goes on only when the turn's own write, verified, is in quarantine; alone on the directory it always gets there. |
| UndoRuns.Disk.AtomicRestore | src/mca/undo.py:346-484 | From wherever an earlier undo stopped, the target ends at its baseline unless others move on it; among others, a file reported restored was at its baseline at some moment, the baseline having been installed by this undo, and nothing is left in quarantine but the turn's write or a file whose place was taken. |
| UndoRuns.Disk.VerifiedDelete | src/mca/undo.py:487-572 | From wherever an earlier undo stopped, a created file ends absent unless others move on it; among others, a file reported deleted was absent at some moment, by this undo, and nothing is left in quarantine but the turn's write or a file whose place was taken. |
| UndoRuns.Disk.UndoTurn | src/mca/undo.py:78-183 | Among others nothing of theirs is lost, but for a file found in quarantine that looks like a reservation, and nothing leaves quarantine that may not; each result tells the truth: restored or deleted only what was at its baseline at some moment, and is still there if nobody else moved on it, not modified only where nothing was touched, and a conflict or failure only where others moved or the first look rejects the file as found. Alone it succeeds if and only if no file is rejected, and otherwise nothing is touched. |
| UndoRuns.OwedUntilTaken | src/mca/undo.py:346-572 | A file of others that is in the way stays accounted for until they themselves take it back or it is mistaken for a reservation. |
| UndoRuns.LawlessIsRejected | src/mca/undo.py:187-308 | The first look rejects every file in a state that neither a turn nor an interrupted undo leaves. |
| UndoRuns.UndoAmongOthers | src/mca/undo.py:78-572 | For every interleaving with other processes: each file that they put under a target name, empty ones included, and each found there, is at the end under that name or in quarantine, unless they removed or replaced it; the one exception is a file found under the quarantine name that looks like a reservation, once the turn's write was seen under the target name. Every result tells the truth, and undo succeeds only if every file was at its baseline at some moment of the run. |
| UndoRuns.UndoAfterCrashes | src/mca/undo.py:78-572 | From any state a crash may leave, and after any number of further crashes between any two operations, one more undo brings every target to its baseline and leaves nothing in quarantine. |
| UndoFailures.TakesReservation | src/mca/undo.py:375-385 | Alone on the directory, undo removes a file found under the quarantine name that looks like a reservation if and only if it undoes the turn. |
| UndoFailures.EmptyFileIsTaken | src/mca/undo.py:592-593 | On a concrete directory undo succeeds and an empty file of others is gone. |
| UndoFailures.TurnsThatCanBeUndone | src/mca/undo.py:187-308 | Whatever writes and outside changes a turn consists of, its last write passes the first look if and only if both versions are small and the turn is not a pure mode change, and without outside changes it never is one. |
| UndoFailures.ModeChangeIsRefused | src/mca/undo.py:187-308 | For two writes with a change of mode from outside between them the first look reports a conflict on the untouched result. |
| FileLock.RunKeeps | src/mca/file_versions.py:293-315 | Over every interleaving of any number of threads and other programs the queues count their users, tickets are served in order, and versions never come back. |
| FileLock.MutualExclusion | src/mca/file_versions.py:293-315 | Two threads are never inside the turn of one path. |
| FileLock.NoLostUpdate | src/mca/tools/filesystem.py:170-225 | In every run the threads on a path share one queue, enter one at a time in order of arrival, and of the changes prepared against one version at most one commits. |
| FileLock.LaterIsStale | src/mca/tools/filesystem.py:344-363 | Whoever enters with a version that was replaced is told so, and the file stays. |
| FileLock.UndisturbedCommits | src/mca/tools/filesystem.py:170-225 | A thread that enters with the current version, and meets no failure and no other program on its path, still has it while it goes on, and commits by its third own step, whatever all other threads do. |
| FileLock.SomebodyMoves | src/mca/file_versions.py:293-315 | As long as a thread is in, some thread can move: the queues do not deadlock. |
| FileLock.CommitsChain | src/mca/tools/filesystem.py:170-225 | With no other program about, each commit replaces exactly what the commit before it on that path left. |
| ParentDirectories.RunKeeps | src/mca/file_versions.py:208-291 | Over every interleaving the counts of users are right, and what is created or claimed is on disk, in use, and not both. |
| ParentDirectories.CleanupSpares | src/mca/file_versions.py:268-291 | A failed mutation removes no directory that another live mutation reserves or that a successful one claimed. |
| ParentDirectories.CleanupRemoves | src/mca/file_versions.py:268-291 | A failed mutation removes every empty directory that it created, or that it reserved and nobody owns, when no other live mutation reserves it and none has claimed it. |
| ParentDirectories.SuccessReports | src/mca/file_versions.py:251-266 | A successful mutation claims and reports the creation of every reserved parent that nobody has owned so far. |
| ParentDirectories.ClaimLasts | src/mca/file_versions.py:232-239 | A claimed directory stays claimed and on disk as long as somebody uses it. |
| ParentDirectories.ReportedOnce | src/mca/file_versions.py:251-266 | In every run no creation of a directory is reported by two mutations. |
| ParentDirectories.FileMutationCoordinator.SuccessfulProvenance | src/mca/file_versions.py:251-266 | The loop over the reserved parents adopts exactly the unowned, unclaimed ones on disk and updates the shared fields as the state machine says. |
| ParentDirectories.FileMutationCoordinator.CleanupFailed | src/mca/file_versions.py:268-291 | The loop, deepest first, removes exactly the directories that may go, hold nothing of others and hold only directories that go too, and leaves the shared fields and the disk as the cleanup step of the state machine does. |
| ParentDirectories.FileMutationCoordinator.LeaveMutation | src/mca/file_versions.py:228-239 | Leaving gives up each reserved parent once, and forgets claims and creations of those without a user. |
| Store.ParseRollout | src/mca/store.py:40-102 | The line loop finds the events, the committed length and the repair that the recursive reading finds, or corruption. |
| Store.ParseCut | src/mca/store.py:40-102 | A log cut at any byte gives exactly the events whose last byte is inside the cut, and says how its tail is to be repaired. |
| Store.RepairIsLog | src/mca/store.py:210-221 | The repaired file is exactly the log of the surviving events. |
| Store.RolloutStore.Append | src/mca/store.py:258-314 | An append adds one whole record, or leaves a prefix of it behind and poisons the store, which then never writes again. |
| Store.Reopen | src/mca/store.py:210-221 | A file cut at any byte opens as a store with exactly the surviving events, its file their log. |
| Store.Rounds | src/mca/store.py:258-314 | Through any rounds of appending, failing at any byte and reopening, every acknowledged event is still there in its place. |
| BatchScheduler.ToolBatchScheduler.Execute | src/mca/tool_scheduler.py:30-63 | Calls start and commit once each in model order, those that never start are closed in order, exclusive calls run alone, the limit holds, and nothing starts after an interrupted result. |
| BatchScheduler.ToolBatchScheduler.RunParallelGroup | src/mca/tool_scheduler.py:65-147 | A group of parallel calls finishing in any order is committed in order as a whole, or drained and closed from the first call that did not start. |
| BatchScheduler.ToolBatchScheduler.CommitReady | src/mca/tool_scheduler.py:76-89 | Ready results are committed as far as they reach without a gap, and an interrupted one among them is noticed. |
| Utf8.DecodeEncode | src/mca/sse.py:20-38 | Decoding gives back every text from its encoding, with nothing pending. |
| Utf8.EncodeDecode | src/mca/sse.py:20-38 | Only the encoding of a text decodes to it: overlong forms, surrogates and out-of-range values have no reading. |
| Utf8.DecodeConcat | src/mca/sse.py:29-38 | Decoding bytes piece by piece gives what decoding them at once gives. |
| Sse.ConsumeConcat | src/mca/sse.py:50-78 | Text that comes in two parts, even between CR and LF, is read as if it came at once. |
| Sse.ConsumeIsReference | src/mca/sse.py:50-97 | The decoder's line reading gives the events of the WHATWG HTML standard (sections 9.2.5 and 9.2.6) and drops an unfinished event. |
| Sse.SSEDecoder.Feed | src/mca/sse.py:29-38 | A chunk is refused exactly when no UTF-8 text can begin with all bytes so far; otherwise the events so far are those of the text so far. |
| Sse.SSEDecoder.Close | src/mca/sse.py:40-48 | Closing succeeds exactly when all bytes are UTF-8, and all events given are then those of the whole stream. |
| Sse.DecodeStream | src/mca/sse.py:20-97 | However a stream is cut into chunks, it decodes exactly when the whole is UTF-8, and to the events of the whole. |
| SseAssembler.DoneIsLast | src/mca/sse.py:233-278 | In an accepted stream the completion marker is the last event or does not occur. |
| SseAssembler.SampledInOrder | src/mca/sse.py:181-231 | The calls of a response come by index, each complete, and none is left out. |
| SseAssembler.AssembledInOrder | src/mca/sse.py:280-345 | The text, the reasoning and the arguments of each call are the streamed pieces in stream order. |
| ResponseMeaning.ResponseSays | src/mca/sse.py:181-345 | Content and reasoning are the pieces streamed under just these names, the finish is the only one named, the usage the last one, and each call has the id, kind, name and arguments streamed under its index. |
| ResponseMeaning.StreamSays | src/mca/sse.py:149-345 | The response of a stream holds its content, its reasoning, its finish, its last usage and its calls as its bytes have them. |
| StreamProtocol.TakesOrderly | src/mca/sse.py:233-345 | The assembler takes a list of events, without an error, exactly when each is in order after those before it. |
| StreamProtocol.ResponseGiven | src/mca/sse.py:181-231 | The events of a stream give a response exactly when they are orderly, end with the marker, name a finish, and their calls are numbered without gap and complete. |
| StreamProtocol.BytesHaveResponse | src/mca/sse.py:149-345 | Bytes have a response if and only if they are UTF-8 and their events are an orderly stream that is finished, marked as done and complete. |
| SseAssembler.StreamAssembler.Finish | src/mca/sse.py:181-231 | Finishing gives the response of all bytes fed, exactly when they have one, and only once. |
| SseAssembler.AssembleStream | src/mca/sse.py:149-345 | The response, and whether there is one, depends on the bytes and not on where they were cut. |
| Compaction.GroupsPartition | src/mca/compact.py:140-178 | The groups are the conversation cut into non-empty pieces, nothing added or lost. |
| Compaction.ValidByGroups | src/mca/compact.py:140-178 | A conversation is valid exactly when each group is: calls and their results are never separated. |
| Compaction.AtomicGroups | src/mca/compact.py:140-178 | The grouping loop accepts exactly the valid conversations and gives their groups. |
| Compaction.AtMostTwoMore | src/mca/compact.py:240-336 | A replacement has at most two groups more than the tail asked for. |
| Compaction.KeptHolds | src/mca/compact.py:240-336 | The first task, the last task and every group of the tail is in the replacement. |
| Compaction.Prepare | src/mca/compact.py:211-336 | There is a draft if and only if the conversation is valid, has a task, ends its prefix at a boundary, and fits, as it stands or with old outputs shortened; it then keeps the first and the last task and the tail and summarizes exactly the plain or the shortened rest, and each refusal names what is missing first. |
| Compaction.ShortenedAbridges | src/mca/compact.py:283-305 | Shortening leaves retained groups as they are and changes only tool outputs over the limit, to within it, and such an output keeps both of its ends. |
| Compaction.SummaryIsValid | src/mca/compact.py:262-282 | What is sent to be summarized is itself a valid conversation. |
| CompactionTheorem.BoundaryIsFound | src/mca/compact.py:391-480 | Compacting a session that was compacted before always finds the group boundary it looks for, and summarizes exactly what came after the last checkpoint. |
| CompactionTheorem.Finalize | src/mca/compact.py:338-359 | A checkpoint is made exactly for a summary with text and a valid replacement without a system message, and then holds just these. |
| CompactionTheorem.CheckpointAccepted | src/mca/domain.py:1191-1233 | The checkpoint of a draft is accepted by the reducer, and the session then projects to exactly the system message and the replacement. |
| OutputBounds.Utf8Prefix | src/mca/tools/registry.py:373-382 | The result is the longest decodable prefix within the limit. |
| OutputBounds.Utf8Suffix | src/mca/tools/registry.py:384-392 | The result is the longest decodable suffix within the limit. |
| OutputBounds.TruncateOutput | src/mca/tools/registry.py:322-371 | The output is within both budgets for every text, unchanged exactly when it fits, and otherwise keeps both ends around the marker unless there is no room for them. |
| OutputBounds.RenderStreams | src/mca/tools/shell.py:494-516 | Both streams under their headers, the standard output first, each whole or shortened to its own half with both ends kept, within the byte budget, cut exactly when one does not fit its half, and refused exactly when the budget leaves a stream no byte. |
| OutputBounds.CaptureBound | src/mca/tools/shell.py:86-124 | A capture shows no byte twice, fills its limit when it has to cut, keeps ends of equal size, and is within its limit exactly when the stream is or the limit leaves room for both ends. |
| OutputBounds.Drain | src/mca/tools/shell.py:86-124 | However a pipe is read in chunks, the window shows the whole stream, or its first and last bytes around the marker, and says so exactly when bytes are missing. |
| OutputBounds.ShellOutput | src/mca/tools/shell.py:305-336 | Every window that a runner can open keeps within its limit, and so does the rendered text, which shows both streams in their order and is the whole of both unless it says that something was cut; limits that are too small are refused. |
| Layout.AllEmitted | src/mca/terminal.py:378-400 | Kahn's loop emits every node exactly when the graph has no cycle. |
| Layout.ChainsAreShort | src/mca/terminal.py:378-400 | No chain of dependencies is longer than the rank of its last node allows. |
| Layout.LongestChain | src/mca/terminal.py:378-400 | Some chain is that long: ranks are lengths of longest paths. |
| Layout.Kahn | src/mca/terminal.py:378-400 | The loop with its counters and sorted ready list takes at each turn the least node that waits for nothing, until none is left. |
| Layout.TopologicalNodes | src/mca/terminal.py:526-547 | Each node comes once, in Kahn's order, or in ordinal order exactly when there is a cycle. |
| LayoutRoutes.EdgesJoinAdjacentRanks | src/mca/terminal.py:409-428 | Every edge drawn joins vertices of adjacent ranks. |
| LayoutRoutes.LayeredVertices | src/mca/terminal.py:367-432 | Every dependency is drawn as a path through one vertex per rank; there is no layout exactly for a cycle, or for more than 512 vertices when an edge is drawn. |
| LayoutRoutes.LoneNodes | src/mca/terminal.py:409-428 | Any number of nodes without edges is laid out. |
| LayoutRoutes.LinkedNodes | src/mca/terminal.py:409-428 | More than 512 nodes with a single edge are refused. |
| LayoutRoutes.RouteLanes | src/mca/terminal.py:488-499 | Edges that share a lane never share a row, and at some row every lane is busy. |
| LayoutRoutes.LanesNeeded | src/mca/terminal.py:488-499 | Any assignment of lanes that keeps edges apart needs as many lanes as edges cross any row. |
| LayoutRoutes.LanesAreOptimal | src/mca/terminal.py:488-499 | The router uses exactly as many lanes as the busiest row has edges, so none could do with fewer. |
| LayoutRoutes.RawEdges | src/mca/terminal.py:481-487 | The edges routed are exactly the dependencies between rows shown, from above to below. |
| LayoutRoutes.EveryDependencyRouted | src/mca/terminal.py:474-487 | In an acyclic graph no dependency is without its edge. |

## Left out

- Payload typing, UUIDs, timestamps, JSON encoding and frozen documents; usage figures in the rollout; the text, argument
  and source-hash fields that no decision depends on; the live environment text of the system message, which is a parameter.
- File facts: the contents of file snapshots and mutation plans, their acceptance by the reducer and its check of a
  confirmed mutation against the disk, and the contents of `undo_finished`. They are neutral facts of the log here.
- White space is space, tab, CR and LF where the code strips Unicode white space.
- ProjectionConverse.ProjectionExact: demands that no result of a model call is tagged before the latest cut. The checkpoint
  hides such a tag until the provider id is used again, so the equivalence is false without this.
- RecoveredProjection.RecoveredProjects: demands that code runs are started by calls of the model; the reducer would also
  accept a `run_code` node as the parent of a run, which no tool set of Code Mode offers.
- The early return of `_complete_recovery_intent` while recovery is still blocked, which no reachable state takes.
- Code Mode runs that are aborted: `_close_aborted_run` closes open nodes as recovery does (`RecoveryRuns`); after a
  cancellation in the middle of a wave, and after an approval interrupted while nodes are prepared, the exchange stops.
- GraphRuns.NoteAct: puts the decision, plan and snapshot of a node right before its first act, where the executor may have
  written them earlier, between the notes of other nodes; `GraphFacts.NotesAccepted` covers every such order.
- Wait timeouts of the scheduler are a finite number per wave; a second interrupt while interrupted work is drained, and
  an interrupt while a thread waits for its ticket, are left out.
- The worker's own node limit (`>` at `src/mca/code_worker.py:124`, one node later than its name says) and the results of
  nodes beyond their status.
- Interpreter.Visit: an iteration takes its items when it begins, so a collection that changes while it is iterated is
  left out; so are keyword and starred arguments, starred targets, dictionary displays, comparison chains and mutation
  through aliases of a list. What calls, awaits and operators answer, and what texts, dictionaries and ranges hold, is up
  to the world, which may depend on everything done before.
- Undo: checks of paths and parent directories, removal of created directories, hashes instead of contents, directory
  flushes, and the name chosen for a temporary file. A crash may leave temporary files behind, as in the code. Other
  processes act on target names only.
- UndoRuns.UndoAmongOthers: a file of others with exactly the content and mode of the turn's write counts as that write, as
  it does in the code.
- FileLock: other programs may replace a file but not remove it, and versions are fresh numbers where the code compares
  metadata and digests.
- ParentDirectories.FileMutationCoordinator.CleanupFailed: which directory lies in which, and which hold files, are
  parameters, and the candidates come sorted, deepest first.
- ParentDirectories.FileMutationCoordinator.SuccessfulProvenance: the reserved parents are distinct, as the one caller
  gives them.
- Store: locking, permissions, flushes and reading a snapshot beside a writer.
- Streams: byte order marks, event names and ids, retry, and the callbacks for observed text.
- Compaction: redaction of secrets, the summary request and its prompt.
- Terminal: crossing reduction, painting, and widths of characters.
- The agent loop, the command line, configuration, approvals policy, search tools, and the shell process itself.
