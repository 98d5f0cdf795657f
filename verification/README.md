# Durable task protocol: a Dafny model

A replayed Workflow drives a Durable Object that holds guarded Task and subtask
tables; each subtask is executed by a resumable child under a turn budget. This
project models that protocol and the pure transformations around it, and proves
what the code's comments and documentation rely on.

The files follow the program:

| files | what they model |
|---|---|
| `tasks.dfy`, `subtasks.dfy` | the two guarded tables, as classes over maps and as functions of their rows |
| `agent.dfy` | the Durable Object's step bodies, split at the points where the object really gives up control |
| `workflow.dfy`, `replay.dfy` | the Workflow body as a deterministic function of its journal, the loops that compute it, and what replaying it does |
| `asked.dfy` | the same body read flat: which journal asks for which step, and how it ends |
| `protocol.dfy`, `safety.dfy`, `callbacks.dfy`, `silence.dfy` | the machine of journal, step bodies, tables, Session and callbacks, its inductive invariant, and the theorems over all runs |
| `traces.dfy`, `origins.dfy`, `effects.dfy` | what a run and what it leaves say of each other: recorded values and the clock, rows and messages and who brought them, and what each kind of action comes to |
| `progress.dfy`, `detours.dfy` | runs of that machine: one that gets to its callback, and those that get where the program is said not to |
| `children.dfy` | the machine joined with one subtask's child |
| `budget.dfy`, `control.dfy`, `ladder.dfy`, `rounds.dfy` | one round: endings, primary, fallback and repairs under one budget |
| `history.dfy`, `render.dfy`, `shown.dfy` | deterministic message ids, the rendered history and its catalog, and what the model sees of a round |
| `transcript.dfy`, `runner.dfy`, `facet.dfy` | trimming, one chunk of a recipe, and the child's two slots |
| `json.dfy`, `fingerprint.dfy` | the canonical text of a request |
| `alarm.dfy`, `job.dfy` | many deadlines over one alarm, and the job that the alarm owns |
| `paging.dfy` | ListTasks |
| `text.dfy`, `sublists.dfy`, `wrappers.dfy` | decimal numerals, white space, sublists, options and results |

## How to read the machine

A *journal* maps a step's name to its recorded result, or to `Threw` when its
retries were exhausted. `Workflow.Run` says, for a journal, which steps the body
asks for, with which inputs, and how it ends; a crash of the body needs no action
of its own, because its position is a function of the journal. `Protocol.Action`
lists what may happen next: a step's body starts, goes on to its next segment,
crashes, is recorded or gives up; a Task is accepted or canceled; the host writes
a Task; a cancellation's later segment resolves a running row; other Tasks work on
the same table. Attempts of one step follow each other, different steps overlap.
What models, children, plugins and the clock answer is chosen freely by each
action, within what `Ladder` proves of a round.

Session messages are keyed by a datatype; `History.IdsNeverCollide` is what allows
it. Integers are unbounded unless a bound is written out.

## Where the code differs from its own words

* `save` lets a non-terminal Task replace a completed one, although a terminal
  state is documented as final. `Tasks.SaveReopensACompletedTask` is the case,
  `Tasks.SaveKeepsTerminalStateExactlyWhen` and
  `Callbacks.HostSaveAgreesExactlyWhenTame` say when it is kept.
* `runBranch` is documented never to reject. `Replay.BranchRejectsExactlyWhen` says
  when it does, and `Detours.ABranchCanReject` is a run in which it does; so the
  theorem about terminal rows is about normal ends.
* The delivery behind the round loop is called unreachable. A round that was
  recovered from its rows costs nothing, and one is enough
  (`Detours.OneFreeRoundReachesTheTail`).
* A final round is said to cost two turns at most. That holds exactly when at most
  one turn is left (`Ladder.TwoAtMostExactlyWhen`); with more left it can cost up to
  eight (`Ladder.FinalRoundCost`).
* A recovery that resolves is said to mean that the gatekeeper has been told. When
  the ordinary save lands in an attempt that is not recorded and then gives up, the
  recovery is refused by that save and resolves with nothing posted
  (`Detours.ADecidedTaskCanEndUntold`, `Silence.EndedIsSilentExactlyWhen`).
* `arm` is said to have one window that strands a job. Its second and third write,
  outside the guarded call, are two more (`Job.ThrowingArmUnwindsExactlyWhen`).
* A round's failure quotes the length of the model's text in a message that is
  then searched for provider codes (`Ladder.NarrationCanReadAsTransient`).

## Model

| member | source | states |
|---|---|---|
| `Callbacks.CallbackIsTheRowForGood` | src/a2a/deliver.ts:92-135 | In every run of deliveries, recoveries, cancellations, crashes, retries and replays whose host writes do not overwrite the Task's terminal row, each callback equals the stored row when it is posted and after every continuation of the run; so all callbacks of a Task are one Task in one terminal state |
| `Callbacks.CanceledTaskIsNeverCalledBack` | src/a2a/deliver.ts:98-107 | A Task that is canceled at the end of a run has had no callback at any point of it |
| `Callbacks.HostSaveAgreesExactlyWhenTame` | src/db/models/tasks.ts:211-242 | After a callback, a host write of this Task changes the row if and only if it brings a non-terminal Task over it, or other content in the same terminal state; a different terminal state is refused |
| `Callbacks.CallbackCarriesTheReply` | src/round/workflow.ts:404-407 | Over every run, a completed Task is posted with exactly the reply that the Session stores under the final-reply key |
| `Progress.AnAnswerReachesTheCaller` | src/round/workflow.ts:272-407 | From every submitted Task nobody has worked on, and for every reply, some run of the machine ends with exactly one callback, the completed Task with that reply, and with that Task as its row: the promises about all runs are not empty |
| `Silence.EndedIsSilentExactlyWhen` | src/round/workflow.ts:220-254 | Where host writes neither overwrite the Task's terminal row nor decide the Task themselves, a Workflow that ended without an error posted nothing if and only if the Task was canceled, or the ordinary save gave up after one of its attempts had landed and the recovery's save was refused by what it left |
| `Silence.SilentExactlyWhenRefused` | src/a2a/deliver.ts:92-135 | Where host writes do not overwrite the Task's terminal row, an ended Workflow posted nothing if and only if the Task was canceled or a recorded save was refused |
| `Silence.EndedMeansClosed` | src/round/workflow.ts:220-254 | Told or not, a Workflow that ended without an error leaves the Task's row terminal |
| `Detours.ADecidedTaskCanEndUntold` | src/round/workflow.ts:220-254 | From every Task whose row is not terminal and which may take a turn, and for every reply, some run of the machine ends without an error and without a callback while the row is the completed Task with that reply |
| `Callbacks.SavingAlone` | src/a2a/deliver.ts:221-267 | While a delivery's terminal save may still start, no other delivery has saved or is about to: the recovery is entered only when the ordinary delivery saved nothing |
| `Safety.EveryEndedRunIsComplete` | src/round/workflow.ts:272-422 | Over every run, whenever `orchestrate` has come to a normal end by any of its exits, no subtask row of the Task is pending or running |
| `Safety.PassedRowIsSettled` | src/round/agent.ts:400-488 | A branch whose recorded chunks or last-resort step say it is over has a terminal row; rows the scan left out were terminal already |
| `Safety.VerdictsAgree` | src/round/agent.ts:191-277 | Over any crashes and sequential retries: all answers of a Task are the one stored text, all hand-outs of a round are the same rows under the same acknowledgment, and no round does both |
| `Safety.CanceledTaskStaysIdle` | src/host/agent.ts:460-470 | Whenever in a run the Task was canceled, after every continuation it is still canceled, no subtask of it was created or claimed since, and none is pending |
| `Safety.CanceledStep` | src/round/agent.ts:259-274 | The same for each single action, the commit after the model's answer and the claim before a child starts included |
| `Safety.EveryRunIsMetered` | src/round/workflow.ts:299-422 | In every reachable state the replayed rounds are metered at most `maxTurns + 3` turns, and the delivery behind the round loop is not asked for unless a delegated round was recovered for free |
| `Origins.UserIsHeardFirst` | src/round/turn.ts:690-697 | In every run that starts without the Task's messages: when a turn is past its entry or came to anything but a cancellation, or the Task has an answer, an acknowledgment or a row, the user's message is stored and is the Task's text |
| `Origins.MessagesStay` | src/agent/session.ts:62-69 | Whatever a run has stored in the Session stands there, word for word, after every continuation |
| `Origins.SessionTellsTheRun` | src/round/turn.ts:690-833 | In such a run the stored user message is the Task's text, the stored answer is one that some round's model gave, and each acknowledgment is what that round's model delegated with |
| `Origins.RowsTellTheRun` | src/round/agent.ts:400-617 | In every run each subtask row says what happened: its draft is one its round's model delegated, its recipe one its type was resolved to, its results and its error are what its child returned, or the malformed-result note, or why there was no recipe, or the host's words for a branch given up; it is canceled only with the Task |
| `Origins.DelegatedRowsAreTheDrafts` | src/round/agent.ts:256-277 | In every run a round's rows are exactly the drafts of one decision of its model, one row each, under consecutive ids in their order |
| `Traces.DeadlineIsTheClock` | src/round/workflow.ts:306-328 | In every run a round's deadline is recorded as passed if and only if its step's last start read a clock at least `maxWallMs` past the reading of the last start of the clock step |
| `Traces.FinalExactlyWhen` | src/round/workflow.ts:315-365 | In every run a turn is asked for in final mode if and only if that was so, or the rounds before it used the turns up; with exactly the turns they left |
| `Detours.AnyRoundCanBeOverdue` | src/round/workflow.ts:324-331 | For every round below `maxTurns` some run of the machine reaches it with turns to spare and out of time, and asks it for its last words |
| `Traces.WorkingTells` | src/round/workflow.ts:290-294 | The first step goes on if and only if its last start did not find the Task canceled |
| `Traces.ScanTells` | src/round/agent.ts:325-332 | A recorded scan is the cancellation, or exactly the round's rows that were pending or running when it last started |
| `Traces.DeliveryTells` | src/a2a/deliver.ts:92-107 | A recorded delivery saved the Task that says exactly what a round recorded, an answer as completed and every failure as failed, unless the row was canceled or in another terminal state when it last started; then it saved nothing |
| `Effects.ModelIsAskedExactlyWhen` | src/round/agent.ts:207-229 | A turn that starts asks the model if and only if the Task is not canceled and has neither an answer nor a row of the round; otherwise it ends at once and free, with the cancellation, the stored answer or the hand-out, in that order |
| `Effects.DecisionsEndTheAsking` | src/round/agent.ts:191-229 | After any crashes and retries: once an answer is stored no round's model is being asked, and once a round has rows its own is not |
| `Effects.TurnSeesTheCancellation` | src/round/agent.ts:259-262 | A turn that ends says canceled only if the Task is canceled at that instant, and on a canceled Task it says nothing else unless its model failed |
| `Effects.TurnIsCharged` | src/round/agent.ts:191-277 | A turn that ended where it started is charged nothing, and any other exactly the turns of a decision that its model brought and that its verdict is of |
| `Effects.VerdictsAreSaid` | src/round/agent.ts:191-277 | Nothing a turn came to is unsaid: every recorded or finished answer, and every hand-out with exactly the round's rows, is among what the Task has told its caller |
| `Effects.ChunkOpensAs` | src/round/agent.ts:512-617 | A chunk that starts leaves a terminal row alone, cancels a canceled Task's row, fails a row without a usable recipe, and otherwise runs on a running row under the recipe it was first claimed with |
| `Effects.ChunkIsReceivedAs` | src/round/agent.ts:420-446 | What a chunk brings is used if and only if the Task is not canceled by then: a yield is not done and writes nothing, a result goes on whole; on a canceled Task it is dropped and the row canceled |
| `Effects.ResultIsRecordedAs` | src/round/agent.ts:456-488 | A running row records the result whole: its parts when one has text, otherwise the error, its own or the malformed-result note; a row settled meanwhile is left alone |
| `Effects.WorkIsMarked` | src/db/models/tasks.ts:251-265 | The first step moves a submitted Task to working at its own instant, and changes no other |
| `Effects.CancellationSettles` | src/host/agent.ts:460-470 | Canceling a submitted or working Task, by its caller or by a host's save, settles it: after every continuation it is canceled, the rows that were pending are canceled as of that instant, and none is pending |
| `Effects.LateCancellationIsNothing` | src/db/models/tasks.ts:277-295 | On a Task in any other state, or on none, the caller's cancellation changes nothing |
| `Effects.ResolvedRowIsCanceled` | src/round/agent.ts:807-813 | A running row that a cancellation found idle is canceled as of that instant after every continuation |
| `Protocol.StepKeepsInv` | src/round/agent.ts:191-617 | Every action, from every state that satisfies it, keeps the invariant: recorded and unrecorded step results agree with the tables and the Session, a canceled Task has nothing pending, a running row is covered by a recorded scan, a round with rows was open and acknowledged |
| `Protocol.AnswerKeeps` | src/round/turn.ts:807-817 | Storing the final reply contradicts nothing: every round with rows has its turn recorded by then |
| `Protocol.RowsKeep` | src/round/agent.ts:263-276 | Writing a round's rows contradicts nothing known: no scan of the round exists and no answer is stored |
| `Protocol.FlipKeeps` | src/host/agent.ts:464-468 | The cancel flip and the bulk cancel of pending rows, as one segment, keep the invariant |
| `Protocol.ReceivingIsFine` | src/round/agent.ts:423-433 | A chunk whose Task was canceled meanwhile reports done only with a terminal row |
| `Protocol.PersistingIsFine` | src/round/agent.ts:452-488 | A persisted, refused or malformed result reports done only with a terminal row |
| `Protocol.PreparingIsFine` | src/round/agent.ts:512-617 | Every short cut of the chunk's front half (terminal, canceled, unusable recipe) reports done only with a terminal row, and a claim is covered by the recorded scan |
| `Replay.ReplayIsDeterministic` | src/round/workflow.ts:272-422 | Restarted from any prefix of its journal the body makes the same calls and the same (round, turnsUsed, mode) decisions, and an end it reached stays reached |
| `Replay.NamesAreAskedForOneWay` | src/round/workflow.ts:290-551 | Over the ordinary pass and the recovery, a step name is asked for with one input only, `fail:<id>` excepted |
| `Replay.StepNamesAreDistinct` | src/round/workflow.ts:322-551 | Distinct rounds, (subtask, chunk) pairs, step kinds and deliveries have distinct step-name strings |
| `Replay.OneTurnAtATime` | src/round/workflow.ts:308-384 | At most one round's turn is asked for and unrecorded |
| `Replay.OrchestrationPlaced` | src/round/workflow.ts:438-478 | Every call of a replay comes from records that say so: a scan from a recorded delegation, a chunk from a recorded scan that named its subtask, a callback from a recorded save of that Task |
| `Replay.OrchestrationEnds` | src/round/workflow.ts:308-422 | A normal end has seen every delegated round through; a recorded save is never followed by a fault that would let the recovery in |
| `Replay.RunExplained` | src/round/workflow.ts:220-254 | A normal end is explained by the first step, a canceled round, a canceled scan, a refused save, or an accepted callback |
| `Asked.AskedExactlyWhen` | src/round/workflow.ts:272-551 | A flat reading of the body: it asks for a step with an input if and only if the journal shows that it is the step's turn: which chunk of which branch, which mode and turns for a round, which outcome for a delivery, and the recovery exactly when the order was lost |
| `Asked.EndsExactlyWhen` | src/round/workflow.ts:220-422 | It ends, or fails with or without a saved Task, if and only if the journal shows a delivery over, a cancellation found, a callback untold or an order and its recovery lost |
| `Asked.DeliveryInput` | src/round/workflow.ts:386-421 | The ordinary delivery is asked for with an answer or a failure, kind and words, that some round recorded, or with the budget's when every round was passed through; the recovery's only with its own when the order was lost |
| `Asked.MeteredExactly` | src/round/workflow.ts:299-384 | A pass decides each round it comes to once, in order, on the turns of the rounds before it, and meters exactly the turns they recorded |
| `Replay.OverdueRoundIsLast` | src/round/workflow.ts:315-331 | A round recorded as overdue is the last round whose deadline is ever read, because it was final and a final round does not delegate; `Traces.DeadlineIsTheClock` says when a round is recorded so |
| `Replay.TaskIsMetered` | src/round/workflow.ts:299-384 | If every round keeps to its ceiling and final rounds do not delegate, a Task is metered at most `maxTurns + 3` turns |
| `Replay.TailIsUnreachable` | src/round/workflow.ts:415-421 | The delivery after the last round is never asked for unless some delegated round was metered nothing |
| `Replay.TailIsReachedExactlyWhen` | src/round/workflow.ts:308-421 | It is asked for if and only if every round up to `maxTurns` delegated, was found alive and had its branches end |
| `Replay.RunReachesTheTailExactlyWhen` | src/round/workflow.ts:272-421 | The whole body, recovery included, asks for it if and only if it started and every round up to `maxTurns` was timed and passed through |
| `Detours.OneFreeRoundReachesTheTail` | src/round/workflow.ts:415-421 | Although the source calls it unreachable, under every positive budget a run of the machine reaches it in which only the first round was free: its body committed its rows, crashed, and recovered them on the retry |
| `Replay.BranchRejectsExactlyWhen` | src/round/workflow.ts:506-551 | A branch rejects if and only if some chunk exhausted its retries behind chunks that were not done, or forty chunks were not done, and its `fail:<id>` step exhausted its own |
| `Detours.ABranchCanReject` | src/round/workflow.ts:540-550 | A run of the machine in which a branch rejects, although it is documented never to, and the orchestration with it while the subtask's row stays open |
| `Replay.GivingUpNeedsEveryChunk` | src/round/workflow.ts:514-537 | The chunk give-up is asked for only behind forty recorded chunks that were not done |
| `Workflow.RunHandleTask` | src/round/workflow.ts:220-254 | The outer body computes the replay function, recovery and rethrow included |
| `Workflow.RunOrchestration` | src/round/workflow.ts:272-422 | The round loop with its accumulated `turnsUsed` computes the recursive replay function that the replay theorems are about |
| `Workflow.RunRound` | src/round/workflow.ts:308-384 | One iteration reads the deadline, fixes the mode and asks for the turn, or stops where the function stops |
| `Workflow.RunTurnStep` | src/round/workflow.ts:350-413 | The turn's verdict decides between return, delivery and execution, with its turns added either way |
| `Workflow.RunSubtasks` | src/round/workflow.ts:438-478 | Scan, then cancel or all branches |
| `Workflow.RunBranches` | src/round/workflow.ts:462-475 | All branches run; one rejection rejects the whole and stops no sibling |
| `Workflow.RunBranch` | src/round/workflow.ts:506-551 | The chunk loop with its two give-up paths computes the branch function |
| `Workflow.RunDelivery` | src/a2a/deliver.ts:92-135 | Save, sweep, notify with their error handling compute the delivery function |
| `Tasks.TaskTable.Begin` | src/db/models/tasks.ts:108-135 | Idempotent on the message id; otherwise a submitted row, or an error when the Task id is taken; no other row changes |
| `Tasks.TaskTable.Save` | src/db/models/tasks.ts:211-242 | Applies exactly when the guarded state change is admitted, and then upserts, keeping message id and creation instant |
| `Tasks.TaskTable.MarkWorking` | src/db/models/tasks.ts:251-265 | Only an actual cancellation answers no; only a submitted row moves |
| `Tasks.TaskTable.Cancel` | src/db/models/tasks.ts:277-295 | Flips exactly a submitted or working row and returns the flipped Task |
| `Tasks.TaskTable.Cleanup` | src/db/models/tasks.ts:298-302 | Exactly the rows older than thirty days go |
| `Tasks.WritersTouchOneRow` | src/db/models/tasks.ts:211-295 | The three writers change one Task's row, as the single-row state machine says, and no other |
| `Tasks.CanceledIsFinal` | src/db/models/tasks.ts:211-295 | Over any sequence of writers a canceled row stays canceled |
| `Tasks.TerminalIsFinal` | src/db/models/tasks.ts:211-295 | Over any sequence of the Workflow's own writers (terminal saves, working, cancel) a terminal state never changes |
| `Tasks.SaveKeepsTerminalStateExactlyWhen` | src/db/models/tasks.ts:218-239 | `save` keeps a terminal state if and only if the incoming state is terminal or the row is canceled |
| `Tasks.SaveReopensACompletedTask` | src/db/models/tasks.ts:211-242 | A concrete late save that reopens a completed Task, which can then be canceled |
| `Tasks.BeginIsIdempotent` | src/db/models/tasks.ts:108-135 | Whatever writers ran in between, accepting a message again changes nothing and finds the one row it was accepted for |
| `Tasks.WriteKeepsColumns` | src/db/models/tasks.ts:97-295 | No writer changes a row's message id or creation instant, and one that changes the row stamps it |
| `Subtasks.TableInvariant` | src/db/models/subtasks.ts:96-301 | Over every operation sequence: `completedAt` exactly in terminal states, results exactly in completed and with text, an error exactly in failed, ordinals in id order, rounds of at most `maxSubtasks` rows with one creation instant; terminal rows never change and no row changes its work |
| `Subtasks.CreatedRowsAreTheDrafts` | src/db/models/subtasks.ts:126-181 | A created round has exactly one pending row per draft, in draft order, under fresh ids |
| `Subtasks.CreatedRowsGoOnTop` | src/db/models/subtasks.ts:145-158 | Each new row's ordinal exceeds that of every surviving row of the Task, however much the cleanup deleted |
| `Subtasks.CeilingReached` | src/db/models/subtasks.ts:148-155 | The next ordinal is one above the highest, and no more |
| `Subtasks.ApplyKeepsValid` | src/db/models/subtasks.ts:96-301 | Each single operation keeps the invariant and settles nothing anew |
| `Subtasks.RowsAreExplained` | src/db/models/subtasks.ts:96-301 | Over every operation sequence each new row is explained by it: created by an insert of its draft at its place in the list, claimed with its recipe, and ended by the one operation whose parts, error or cancellation and whose instant it shows |
| `Subtasks.OperationsTakeEffect` | src/db/models/subtasks.ts:126-300 | Each operation takes effect on every row it is for, and an insert of an acceptable number of drafts into an empty round makes that many rows |
| `Subtasks.SubtaskTable.ListRound` | src/db/models/subtasks.ts:85-94 | Exactly the round's rows, in ordinal order |
| `Subtasks.SubtaskTable.CreateDecomposition` | src/db/models/subtasks.ts:126-181 | All rows or none: returns existing rows unchanged, refuses a wrong number of drafts, otherwise inserts them all above the Task's highest ordinal |
| `Subtasks.SubtaskTable.StartRow` | src/db/models/subtasks.ts:209-218 | Claims exactly a pending row and says whether it did |
| `Subtasks.SubtaskTable.CompleteRow` | src/db/models/subtasks.ts:225-235 | Refuses results without text, then completes exactly a running row |
| `Subtasks.SubtaskTable.FailRow` | src/db/models/subtasks.ts:250-256 | Fails exactly a pending or running row |
| `Subtasks.SubtaskTable.CancelRunningRow` | src/db/models/subtasks.ts:265-270 | Cancels exactly a running row |
| `Subtasks.SubtaskTable.CancelPendingRows` | src/db/models/subtasks.ts:285-294 | Cancels exactly the Task's pending rows, stamping each |
| `Subtasks.SubtaskTable.CleanupRows` | src/db/models/subtasks.ts:297-300 | Exactly the rows older than thirty days go |
| `Agent.RoundAgent.Append` | src/agent/session.ts:62-69 | Appends once under a key and returns what is stored there |
| `Agent.RoundAgent.Enter` | src/round/agent.ts:207-229 | Computes the entry segment in place, the user turn's append in round 0 included; `Effects.ModelIsAskedExactlyWhen` and `Origins.UserIsHeardFirst` say what the segment means |
| `Agent.RoundAgent.Decide` | src/round/turn.ts:807-833 | Appends the answer or the acknowledgment before anything else and goes on with what is stored |
| `Agent.RoundAgent.Commit` | src/round/agent.ts:259-276 | Re-reads cancellation in the segment that writes the rows |
| `Agent.RoundAgent.Prepare` | src/round/agent.ts:512-617 | Terminal, canceled and unusable rows end here; otherwise the row is claimed or found running |
| `Agent.RoundAgent.Receive` | src/round/agent.ts:420-446 | Cancellation is read before anything a chunk produced is used |
| `Agent.RoundAgent.Persist` | src/round/agent.ts:456-488 | Records the result, a malformed one as a failure, and throws when the row is still open without it |
| `Agent.RoundAgent.Scan` | src/round/agent.ts:325-332 | A cancellation, or exactly the round's rows that still owe an outcome |
| `Agent.RoundAgent.CancelPendingSubtasks` | src/round/agent.ts:335-337 | The canceled scan's sweep cancels the Task's pending rows and touches nothing else |
| `Agent.RoundAgent.Fail` | src/round/agent.ts:351-370 | The guarded write's verdict decides whether anything is torn down |
| `Agent.RoundAgent.MarkCanceled` | src/host/agent.ts:460-470 | The flip's verdict decides whether pending rows are canceled with it |
| `Agent.RoundAgent.SaveTask` | src/host/agent.ts:424-429 | A canceled Task takes the cancellation path, any other the guarded write |
| `Agent.RoundAgent.ResolveRunningRow` | src/round/agent.ts:807-813 | A running row whose child had nothing in flight is canceled by the cancellation itself |
| `Ladder.RunTurn` | src/round/turn.ts:718-848 | The loop over slots and repairs computes the ladder function, of which `Ladder.LogIsTheLawfulOne` and `Ladder.ResultExactly` are the meaning |
| `Ladder.RunSlot` | src/round/turn.ts:728-834 | One slot's loop: repair its own refused call while attempts and turns remain, stop on a decision or a dead credential |
| `Ladder.RoundCost` | src/agent/budget.ts:33-53 | Primary, fallback and all repairs spend at most one turn above the allowance; a final round at most eight, and at most two when no more than one turn is left; a decision is never free |
| `Ladder.FinalRoundCost` | src/round/turn.ts:320-328 | No legal model makes a final round cost more than a ceiling that depends on its allowance alone, and a model that is refused at every call makes it cost exactly that: two, then up to eight |
| `Ladder.TwoAtMostExactlyWhen` | src/round/turn.ts:320-328 | The promise that every final round costs two turns at most holds of an allowance if and only if it is at most one |
| `Ladder.AttemptsInOrder` | src/round/turn.ts:718-805 | A repair answers the same model's own refusal, the fallback starts from a clean sheet, and nothing follows a decision or a dead credential |
| `Ladder.LogIsTheLawfulOne` | src/round/turn.ts:718-834 | A log of attempts is the round's if and only if it is lawful: it begins with the primary on a clean sheet, each attempt is what the model answers to what it was shown within the steps left, each refused one that may still be repaired is, a slot that is through hands over to the fallback in either mode, and it stops only at a decision, a dead credential or a fallback that is through |
| `Ladder.OnlyTheFallbackOverdraws` | src/agent/budget.ts:46-51 | Under a positive allowance only the fallback's first attempt can begin with nothing left |
| `Ladder.ResultExactly` | src/round/turn.ts:741-848 | The result is read off the last attempt, whether a transient fault was met and whether a branch completed: decided, joined, failed with its kind, or thrown for a retry |
| `Ladder.NarrationCanReadAsTransient` | src/round/turn.ts:557-562 | A concrete model whose undecided answers of 3040 characters are taken for a transient fault, because their length is quoted in the message that is searched |
| `Ladder.RoundsArePermitted` | src/round/turn.ts:690-848 | Every round keeps to its ceiling, never delegates in final mode, and never delegates for nothing |
| `Rounds.LadderIsLegal` | src/round/turn.ts:690-848 | Whatever the models do within their step allowances, what the ladder hands to the round is what the protocol allows, the number of drafts included |
| `Control.DelegationDecided` | src/agent/control.ts:114-197 | A delegation is decided if and only if the round may delegate and its one delegate call is well typed and each subtask acceptable, all written out; then its reply is the call's, trimmed, and every draft is its own subtask, trimmed, in order |
| `Control.AnswerDecided` | src/agent/control.ts:125-148 | An answer is decided if and only if no delegation was called for and the last reply has text; it is that text, trimmed |
| `Control.RefusalsAreTrue` | src/agent/control.ts:114-197 | A refusal of a round's ending names what is really wrong: the times a delegation was called, the input that is not well typed, the index that is repeated or unknown and in which subtask, or the parameters' own complaint |
| `Control.ReferencesAreSnapshots` | src/subtasks/decomposition.ts:122-147 | A selection is accepted if and only if its indexes are distinct and in the catalog, and is then the entries' own words in ascending order |
| `Control.ResolveReferences` | src/subtasks/decomposition.ts:122-147 | The loop with its seen set computes that, repeats refused before unknown indexes |
| `Control.ReferencesAreQuotations` | src/subtasks/decomposition.ts:160-186 | Whatever the model emitted, each reference of an accepted draft is verbatim something said in the rendered history, neither an acknowledgment nor a summary, no message twice, in conversation order |
| `Render.RenderTurnMessages` | src/round/turn.ts:232-296 | The renderer's loops compute the walk over the history followed by the orphaned rounds' pairs |
| `Render.ByRound` | src/round/turn.ts:146-156 | Groups the branches by round in listing order |
| `Render.RenderedIsWellFormed` | src/round/turn.ts:171-200 | Every call has its result right behind it under the same id, every result its call in front, and each pair is some round's rows |
| `Render.EachRoundIsCalledOnce` | src/round/turn.ts:232-296 | With distinct message ids each delegated round is called exactly once and no other round at all |
| `Render.PairStandsAtItsAcknowledgment` | src/round/turn.ts:249-256 | A round's pair stands where its acknowledgment stood, with its text |
| `Render.UnacknowledgedRoundsComeLast` | src/round/turn.ts:285-293 | The rounds nothing acknowledges come last, ascending, without text |
| `Render.SpeechAndCatalogAgree` | src/round/turn.ts:244-283 | Every other message of user or assistant appears once, in order, marked with its catalog index exactly when citable, and entry k is the k-th marked message, verbatim |
| `Render.FateOfAcknowledgment` | src/round/turn.ts:249-273 | What becomes of any acknowledgment: anchored with its rows, dropped when it is this Task's and has none, kept as uncitable context otherwise; only Task ids with line breaks escape the rule |
| `Render.CatalogProvenance` | src/subtasks/catalog.ts:44-48 | Every catalog entry is verbatim a message somebody said, not blank, not a summary, not an acknowledgment |
| `Render.Bounded` | src/subtasks/delegate.ts:130-136 | An output of at most 8000 characters is kept; a longer one becomes exactly 8000 that end in the truncation note |
| `Render.CallIdInjective` | src/subtasks/delegate.ts:83-85 | Rounds of a Task have distinct call ids |
| `Shown.CallsShowTheirRounds` | src/subtasks/delegate.ts:153-193 | Every call the model is shown is one round's: in listing order one proposal and one outcome for each of exactly its rows, the outcome with the row's id, type and status and its results or its error, cut to fit, or nothing |
| `Shown.FateExactly` | src/round/turn.ts:244-283 | What becomes of any message of the history, by its speaker, the form of its id, the rounds that have rows and its text: unheard, put back as its round's call, dropped, said, or said with a mark |
| `History.AckRoundTrip` | src/agent/history.ts:102-126 | The parser gives back exactly the Task id and round, whatever the id contains, if and only if the Task id is not empty and has no line break |
| `History.ParseIsThePattern` | src/agent/history.ts:108-126 | The parser finds the pattern's groups whenever there are any, and only then: the greedy group has no choice |
| `History.IdsNeverCollide` | src/agent/history.ts:91-131 | User, acknowledgment and final-reply ids are injective and pairwise disjoint |
| `History.TaskIdsAreTheirOwn` | src/agent/history.ts:86-88 | None of them is a compaction summary's id or shaped like a random one |
| `Transcript.WindowMessages` | src/subagent/run.ts:129-141 | The window function computed as the source does, a zero window's repetition of the seed included |
| `Transcript.ElideToolOutputs` | src/subagent/run.ts:198-275 | The elision function computed as the source does: cutoff, newest result per tool, then each part; `Transcript.StubbedExactlyWhen` is its meaning |
| `Transcript.StubbedExactlyWhen` | src/subagent/run.ts:198-275 | A trimmed part differs from the original if and only if it is a text or serialized output of at least 200 characters, or one that cannot be serialized, a later message has a result of the same tool, and the detail width lies behind it; it is then the stub with its call id and tool, so every error and denial is verbatim |
| `Transcript.WindowKeepsTheLastTurns` | src/subagent/run.ts:129-141 | The window is the seed and the shortest end of the transcript that holds the last turns, or everything when there are no more than that |
| `Transcript.CarriedIsTheWholeTrimmed` | src/subagent/run.ts:413-426 | Folded over any steps, trimming after each turn equals trimming the whole untrimmed transcript once, for every window of at least one and every detail width |
| `Transcript.TrimsCompose` | src/subagent/run.ts:413-426 | Trimming a trimmed transcript with more messages behind it equals trimming all of it once, when it does not begin with a tool message |
| `Transcript.WindowsCompose` | src/subagent/run.ts:129-141 | The same for the window alone, for every transcript |
| `Transcript.TrimIsIdempotent` | src/subagent/run.ts:195-196 | Trimming twice is trimming once |
| `Transcript.ZeroWindowRepeatsTheSeed` | src/subagent/run.ts:136-140 | With a window of zero both fail: the seed is repeated |
| `Transcript.TrimKeepsPairs` | src/subagent/run.ts:123-128 | If every tool result follows its call with only results between, the same holds after trimming |
| `Runner.RunResumableChunk` | src/subagent/run.ts:376-570 | One chunk computed as the source does: entry guards, primary, fallback, completion, yield or report; `Runner.ResultExactly` and `Runner.ChunkLeaves` are its meaning |
| `Runner.SummarizeBudget` | src/subagent/run.ts:583-683 | The report's two attempts and their fallbacks |
| `Runner.ResultExactly` | src/subagent/run.ts:376-683 | Each outcome of a chunk if and only if: a reported text is the trimmed text of the primary that stopped, of the fallback after a lost primary, or of the first summary that returned text once the budget was spent; the notice when both summaries were lost for good; blocked, exhausted and thrown by the faults that were met; a yield by an abort or by a budget that is not spent |
| `Runner.ChunkLeaves` | src/subagent/run.ts:376-570 | What a chunk leaves: a context that carries every step it asked for, one checkpoint a turn that carries the steps up to it, the start of the run and one model call more for each that was made |
| `Runner.ChunkAdvances` | src/subagent/run.ts:376-570 | Each checkpoint is exactly one turn on, no chunk passes `maxTurns + 1`, and a yield that no abort caused is strictly further on and still below `maxTurns` |
| `Runner.RunRecipeExecution` | src/subagent/run.ts:699-744 | A whole run ends within as many chunks as it has turns and never reaches the runner's give-up |
| `Runner.ContextIsTheTrimmedTranscript` | src/subagent/run.ts:413-426 | After any chunks, whatever each of them met, the model's context is the seed and the steps of every call they made, trimmed once |
| `Runner.ReportsHaveText` | src/subagent/run.ts:503-512 | A completed result always has text, the notices included |
| `Facet.SubagentFacet.ExecuteChunk` | src/subagent/index.ts:232-358 | Terminal slot, deterministic refusals, checkpoint slot, run and writes, in the source's order, with a crash between any two checkpoints |
| `Facet.CallKeeps` | src/subagent/index.ts:232-421 | A call never changes a written terminal slot, never trades a checkpoint's fingerprint, never lowers its turns; a mismatch changes nothing |
| `Facet.RunsAreAnswered` | src/subagent/index.ts:232-358 | A call runs the recipe if and only if there is no terminal result, no flaw and no other request's checkpoint; its answer is then the run's outcome, and a call that may not run is answered by what stops it |
| `Facet.ResultsComeFromRuns` | src/subagent/index.ts:232-421 | Over any calls and crashes a child's terminal result is one that some call's run came to, or the flaw of some call's request, under that call's fingerprint |
| `Facet.RunsKeep` | src/subagent/index.ts:232-421 | The same over any sequence of calls and crashes |
| `Facet.TerminalIsForGood` | src/subagent/index.ts:246-256 | Once there is a terminal result every later call with its fingerprint returns it and any other is refused |
| `Facet.TerminalNeedsNoModel` | src/subagent/index.ts:246-256 | Such a call is answered the same whatever a model would have done |
| `Facet.YieldsAreBounded` | src/subagent/run.ts:376-570 | However often calls crash and are repeated, a child yields fewer times than its budget has turns |
| `Facet.OneRequestNeverMismatches` | src/subagent/index.ts:246-300 | A child that is only ever sent one request never answers with a fingerprint mismatch |
| `Children.BranchNeverRunsOutOfChunks` | src/round/workflow.ts:514-537 | Over every run of the machine joined with one subtask's child, under any crashes and retries, with a budget of at most forty turns the chunk give-up is never asked for |
| `Fingerprint.OneTextPerExecution` | src/subagent/fingerprint.ts:34-88 | Two requests have one canonical text if and only if their identity fields agree, params compared as maps, each limit only as the positive integer it is, if it is one, and models ignored |
| `Fingerprint.ParamsListedAlike` | src/subagent/fingerprint.ts:61-66 | Params are listed alike if and only if they hold the same entries |
| `Fingerprint.ParamsAreListedInOrder` | src/subagent/fingerprint.ts:61-66 | Params are listed as an object lists sorted keys: array indexes first, by value, then the rest by code units |
| `Fingerprint.LimitsInjective` | src/subagent/fingerprint.ts:77-88 | Left-out limits leave no room for confusion between the two fields |
| `Fingerprint.TextIsWellFormed` | src/subagent/fingerprint.ts:95-103 | The text has no unpaired surrogate, so encoding it as UTF-8 before the digest loses nothing |
| `Json.StringsAreReadBack` | src/subagent/fingerprint.ts:68-68 | A reader by the grammar of RFC 8259 reads back every string, lone surrogates included, from what is written for it, up to where it ends |
| `Json.PrintedSplits` | src/subagent/fingerprint.ts:68-68 | No JSON value is written like another or like the beginning of another |
| `Json.EscapedSplits` | src/subagent/fingerprint.ts:68-68 | A string's escaped form tells the string and where it ends, lone surrogates included |
| `Alarm.WakeMap.Set` | src/alarm/index.ts:79-84 | Stores the intent and re-arms; a fault between the two writes leaves exactly the first |
| `Alarm.WakeMap.Clear` | src/alarm/index.ts:86-94 | Removes a held key and re-arms; a key not held changes nothing |
| `Alarm.WakeMap.Rearm` | src/alarm/index.ts:112-125 | No alarm for an empty map, otherwise one no later than the earliest deadline, moved earlier only |
| `Alarm.WakeMap.Due` | src/alarm/index.ts:97-101 | Exactly the due intents, each once, earliest first |
| `Alarm.WakeMap.Repair` | src/alarm/index.ts:132-135 | Arms shortly ahead only when there is no alarm |
| `Alarm.NoLostWakeUp` | src/alarm/index.ts:79-125 | Whatever came before it, a set or a clear of a held key that lives to re-arm leaves the map armed, and it stays so through sets, clears, repairs and faults until an operation that disarms |
| `Alarm.ArmedExactlyUntil` | src/alarm/index.ts:79-135 | An operation disarms an armed map if and only if it is a firing with something pending, or a set that faults between its writes under a deadline the alarm does not cover |
| `Alarm.ClearArmsExactlyWhen` | src/alarm/index.ts:86-94 | A clear leaves the map armed if and only if it held the key or the map was armed already |
| `Alarm.ClearingNothingArmsNothing` | src/alarm/index.ts:86-94 | A concrete pending deadline left without an alarm by clearing a key nobody holds |
| `Job.JobLifecycle.Arm` | src/job/lifecycle.ts:201-244 | Whenever it returns a stamp, the running record, the armed key, the run intent and the alarm agree on it; with a fault at any of its four writes it leaves exactly the writes before it, and no other intent changes |
| `Job.ThrowingArmUnwindsExactlyWhen` | src/job/lifecycle.ts:211-244 | An arm that throws leaves the record as it was, to be armed again, if and only if its first write failed, or the schedule failed and the record could be put back |
| `Job.AFailedFloorStrandsTheJob` | src/job/lifecycle.ts:211-222 | A concrete arm whose third write fails: the record says running, nothing was scheduled, and every later arm is declined |
| `Job.DeclinedExactlyWhen` | src/job/lifecycle.ts:201-214 | An arm is declined, and writes nothing, if and only if the job is neither done nor failed or its last arm is less than a cooldown ago; any other returns its stamp unless a write fails |
| `Job.ArmsAreACooldownApart` | src/job/lifecycle.ts:201-244 | Over any events between them, arms that were not declined are at least a cooldown apart |
| `Job.OnlyTheArmedRunStarts` | src/job/lifecycle.ts:275-302 | After an arm a claim succeeds if and only if it presents the armed stamp or the record is stale |
| `Job.ArmingIsSingleFlight` | src/job/lifecycle.ts:201-214 | A second arm is declined while the record says running |
| `Job.Generation.AskStillMine` | src/job/lifecycle.ts:333-353 | The closure's answer and its latch |
| `Job.SupersededForGood` | src/job/lifecycle.ts:338-351 | A drain that was denied once is never given the record back |
| `Job.DisplacedForGood` | src/job/lifecycle.ts:333-353 | With distinct stamps the same holds of a drain that has not asked yet |
| `Job.OwnsExactlyWhen` | src/job/lifecycle.ts:333-353 | Over any turns a drain owns the record if and only if the row holds its stamp now and held it each time it asked; so a repeated stamp gives the record back to a drain that did not ask in between |
| `Job.JobRowsAreItsOwn` | src/job/lifecycle.ts:138-157 | A job's rows are four different rows, and none is the wake map's exactly when the id is not its key |
| `Paging.PagesAreTheList` | src/a2a/task-store.ts:60-93 | Following the tokens from the empty one over an unchanged list, with any page size at each request, yields exactly the filtered list, for lists of at most 2^53 - 1 tasks |
| `Paging.ListsTheWanted` | src/a2a/task-store.ts:60-83 | The list that is paged is exactly the tasks of the named context, the named state and touched since the named instant, each filter only when it is given, in the table's order |
| `Paging.PageAdvances` | src/a2a/task-store.ts:84-92 | A page with a token is full and its token leads past it, so the following ends |
| `Paging.TokenRoundTrip` | src/a2a/task-store.ts:102-105 | A token leads back to its offset if and only if the offset is a safe integer |
| `Paging.PageSizeIsTheNearest` | src/a2a/task-store.ts:96-99 | The page size is the one between 1 and 100 nearest to what was asked for, and 50 when nothing was |

## Left out

- Protocol.Next: attempts of one step are sequential; a timed-out body that goes on beside its retry is not modelled, nor is a second Workflow instance for the same Task.
- Protocol.Next: the thirty-day cleanup is no action of the machine, because it ends the life of the rows the theorems speak of; `Subtasks.TableInvariant` covers it for the table alone.
- Protocol.Opening: the words of a failed Task come from outside; the host's choice of copy by failure kind is not modelled.
- Agent.PrepareChunk: child creation, deletion, abort hooks and leased runtime state are not modelled; whether a recipe can be resolved is an input.
- Agent.RoundAgent.Persist: the plugin's amendment of a result is an input, and the words of a malformed result are fixed.
- Workflow.RunDelivery: step retries, back-off and timeouts appear only as the `Threw` record of an exhausted step.
- Workflow.RunBranches: branches are taken in any order; the order in which their steps interleave is the machine's.
- Children.BranchNeverRunsOutOfChunks: the child is sent one request and is not deleted and created anew while its branch runs, so a child recreated after a mismatch is not covered.
- Runner.RunResumableChunk: the four stop conditions of a model call are inputs that shorten it; the metrics footer is not modelled.
- Ladder.RunTurn: tools, prompts and intermediate content are not modelled; whether a refusal's words read like a transient fault is an input.
- Control.DelegationDecided: a type's own parameter check is an input.
- Render.RenderTurnMessages: compaction itself is not modelled; a history is any sequence of messages.
- History.ParseAck: a round beyond 2^53 would lose digits as a JavaScript number; here it does not.
- Json.Printed: numbers are integers in decimal, which JavaScript prints so below 10^21; fractions, nulls and absent optional fields inside a value do not occur in a canonical request.
- Fingerprint.CanonicalText: SHA-256 over the UTF-8 text is taken to be injective and is not modelled.
- Transcript.ElideToolOutputs: a structured output is its serialized form.
- Job.JobLifecycle.Arm: the record's own extra fields and the watchdog intent are not modelled.
- Job.ArmsAreACooldownApart: the clock is taken not to run backwards between the two readings of one arm.
- Paging.List: the order of rows created in the same instant is the table's; projection of artifacts and history, and the parsing of timestamps, are not modelled.
- Tasks.TaskTable.Begin: a Task is its id, context, state, status text and timestamp; artifacts, history and serialization are not modelled.
- The deterministic join's text, the turn wrapper's parser, log lines and duration formatting are strings without further structure.
- HTTP, JWT and card signing, routing, SQLite and its migrations, the plugin contract, configuration merging, recipe validation and workspaces are not part of this model.
