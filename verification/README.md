# Verified model of the background delegation queue, the tool loop, the configuration merge and the scheduler

Each module models one component of the repository and proves what its documentation promises of it.
`dafny verify dfyconfig.toml` checks all of it.

| modules | component |
|---|---|
| `DelegationLife`, `DelegationInvariant`, `DelegationSteps`, `DelegationProof`, `DelegationTheorems` | the life of one background delegation as a state machine over the segments between two awaits, its invariant, and what the invariant means over every run with crashes |
| `DelegationPhases` | the phases of one delegation are isolated: an old runner moves nothing but itself, over every run |
| `DelegationMirror`, `DelegationHanding` | the store mirrors the dict, and a result is stored before it is handed to the parent |
| `DelegationTale` | what a run's actions alone tell of results, questions and answers, and that dict and store say the same |
| `DelegationReplay`, `DelegationTwice` | when exactly a parent can receive two final results |
| `DelegationBudget` | how many passes can still follow, and when exactly the iteration budget can be exceeded |
| `DelegationSpent`, `DelegationAgain` | how often a pause is answered or dismissed over whole runs, and when exactly a spent one can be answered again |
| `DelegationNotice` | when exactly the startup notice marks a question that it did not tell |
| `DelegationQueue` | the queue object: its dicts, its queue, the task objects mutated in place and the one FIFO of the store; every method is proved to move one life (or, for start, stop and crash, every life) by a step of `DelegationLife` |
| `Conversation`, `InboundTurns`, `TurnLog`, `ToolLoop`, `TurnLaws` | the loop between the model and its tools, inside a process whose other coroutines send messages and stops at every await |
| `OneShot` | the child of a delegation, whose transcript is its conversation, and the stored transcript that the next phase reopens |
| `Merge`, `Stacks`, `Provenance`, `RuntimeOverrides` | the merge engine, layers stacked in turn or compacted first, the origin of each leaf, and the overrides stacked in memory |
| `Scheduler` | the scheduler service over its repository |
| `Anthropic` | the translation to and from the Anthropic messages API |
| `JsonExtract` | the extraction of a JSON array from free text, over the grammar of RFC 8259 |

## How to read it

**Delegations.** Every piece of state of the queue is keyed by the task id, so the queue is a product of
lives. `DelegationLife.Do` gives the next state for every action of every actor: enqueue, the consumer,
one runner per launched phase, cancel, resume, the store, the startup notice, stop, crash and start. A
runner is a program counter; a coroutine that awaits its write holds a ticket in the FIFO of the store.
`DelegationInvariant.Inv` is kept by every action (`DelegationProof.Keeps`), so it holds after every run
from before the task exists. A child's conversation alternates as its loop does: it is told something,
replies, hears the results of its calls, and ends with a final reply or, out of iterations, with the closing
message that `execute` stores before it raises. Of the stored transcript a life keeps what a resume checks: its number of
replies, whether a message was stored cut, and how it ends. `DelegationQueue.BackgroundQueue` then does
the same steps on dicts and mutable task records, for all tasks at once: `View(id)` is the life of a task,
and `Act` and `ActAll` move it by a step of its life and keep the invariant of every one of them. What became of
results, questions and answers is also read from the actions of a run alone, as a tale (`DelegationTale.Tell`),
which names no step function: the theorems there compare the dict and the store with it.

Assumed of the environment: the store applies the writes of a task in the order they were issued, each
one entirely or not at all, and a failed one is known before the next is acknowledged; a coroutine whose
write is acknowledged runs before the next acknowledgement of that task; cancelling a handle ends its
runner in one step; a call of resume is not itself cancelled; pause stamps strictly increase; a crash
drops the writes not yet applied.

**Turns.** `ToolLoop.Turn` holds the variables of the loop. The model, the tools, the re-routing and the
other coroutines are arbitrary: a value chosen by `*` at every await. `log` is the ordered list of what
the turn did: looks for a stop and what they saw, user messages heard, calls of the model with what was sent
and what came back, and, for each tool call, its run with its output, a refusal, an open circuit or a cut.
`TurnLog.Step` says which event may come next, and `Story` the conversation that a log tells; the claims are
about them. A user message carries the id of the history row it was read from (`row`); no step reads it.
History rows are only appended during a turn.

A one-shot child writes its transcript twice: in memory, which the turn reads, and in the store, which may
fail and which the next phase reopens. Nothing in a turn reads the store, so `Transcript.Persist` stores
what a turn handed over when it ends, in order.

**Configuration.** A tree is a null, a leaf (a flag, another scalar or a list, replaced whole), the
deletion sentinel, or a block. `Fits` says that one layer can be laid over another and `Over` what
results; `Join` is the merge with its error. `ByPaths` says the same of every path, by what the layers hold
there, and `Recorded` what the record of a path must be, by the layers alone. `Stacks.Pile` lays many layers on
one key in turn.

**Scheduler.** The process may die at any await of an execution, and a call of the repository may raise
without effect, after which the loop goes on with that row still marked as running; a restart recovers. The last
five fields of a row (`total`, `begun`, `succeeded`, `recorded`, `lost`) are history that no step reads. The next
slot of a cron expression is assumed to lie strictly after the time it is asked for.

## What the model found

1. *A final result can be delivered twice, and the iteration budget exceeded.* When a resume returns
   `resumed` but its write back to `queued` did not reach the store (the write failed, or was skipped
   because an earlier write of the task failed while its transcript was being reopened), the row still
   says `awaiting_input`. After a restart the same pause can be resumed again, if the transcript that the
   second phase left is one that a resume accepts. `OneLossDoubles` gives the run. `ResultsAreBounded`
   bounds it on all runs: at most one final result plus one per such loss. `TwoResultsExactly` gives the
   exact condition in every reachable state whose store is idle, and `OnlyLossLeavesBehind` shows that
   nothing else causes it. A child that runs out of iterations counts too: its closing message ends the
   transcript (`ExhaustedDoubles`). Without such a loss there is one final result and the budget holds
   (`BudgetIsKept`). After one, `PassesExactly` gives the number of passes that can still be made from any
   reachable state with an idle store, and so `BudgetFailsExactly` when the budget can be exceeded: when the
   phase at hand, resumed a second time, has too much left for what was already made, or when a resume would
   accept the pause on disk once more and passes were made since it was stored, or can still be made by the
   phase that left it behind.
2. *A dismissed pause can be answered.* `cancel` tells its caller that the pause is dismissed whether or not
   that was stored. If it was not, a restart loads the pause again and a resume of it returns `resumed`,
   although no requeue was lost: `DismissedIsResumed` gives the run. `SpentOnce` shows that over all runs,
   crashes included, a pause is resumed or dismissed once if no such write was lost, and
   `SpentAgainExactly` when exactly a spent pause can be resumed again: its row still holds it, not
   marked incomplete, and its transcript can be reopened.
3. *A question can be marked as told that nobody told.* The startup notice marks the task when its
   dispatch is over, without looking at the pause again. If the parent resumed the pause meanwhile and
   the task paused once more, the new question is marked and no later notice takes it up
   (`QuestionIsSilenced`). `NoticeMarksExactly` shows that a resume meanwhile is the only way. Runners
   do look again (`OldPhaseTouchesNothing`).
4. *Compacting overrides forgets a null.* A block, then null, then a key below it give different results
   when the last two are merged first (`CompactionForgetsNull`); a block, then null, then a value in its
   place are accepted by the stack and then conflict with the base (`CompactionInventsConflict`).
   `CompactionExactly` says when compacting changes nothing, errors included, for any stack over any base,
   and `GroupingExactly` the same for three layers. Without nulls it never does (`CompactionIsTransparent`).
5. *`inherit` is not always stripped.* The documentation of `resolver_inherit` says that it always is; it
   survives exactly when a block inherits and its parent's block carries the key too
   (`InstructionIsStripped`, and `InstructionSurvives` at an input).
6. *A one-shot resume checks only lengths.* `execute` refuses a transcript whose length differs from the
   paused one, and nothing when there is no paused one, while its documentation requires them to be
   equal. Every call is sent the transcript if and only if they were (`Execute`);
   `OnlyLengthsAreChecked` calls it at two inputs that are not refused.
7. *A success can be executed without being recorded.* The scheduler logs a success before it updates the
   row. If the process dies in between, or the repository raises, which the loop only logs, the row stays
   marked as running until a restart: a oneshot that succeeded then ends as failed (`SuccessEndsFailed`),
   and a countdown executes once more than it says (`OneTooMany`). Over every life of a row the successes
   are those recorded and those of executions that stopped so, whichever the cause (`SuccessesExactly`,
   `Serve`); the countdown is exact for recorded ones.
8. *A saved reply is sent as it is, even if nothing is left of it.* `TranslationIsSolid` shows that a message
   of a request is empty exactly when a saved reply held nothing but thinking and the prefix changed; replies
   saved by the provider itself never do.

## Model

| member | source | states |
|---|---|---|
| DelegationTheorems.NoTaskIsStuck | inaki/agents/delegation/background_queue.py:1323-1390 | in every reachable state with the process up, a running or delivering task is in the hands of the held runner; a queued one is in exactly one of the queue, a waiting runner or a resume's write; every live runner is known to stop; at rest only awaiting, undelivered or interrupted tasks remain |
| DelegationPhases.OldPhaseTouchesNothing | inaki/agents/delegation/background_queue.py:1489-1554 | once the pause that a runner asked about is over, along every continuation that pause never comes back while the process lives, and whatever the dispatch gives back the runner changes only its own position |
| DelegationPhases.LingeringTouchesNothing | inaki/agents/delegation/background_queue.py:594-624 | in every reachable state, a runner that a resume set aside changes nothing but itself: not the task, its writes, the handle or another runner, and when it ends only it is forgotten |
| DelegationPhases.PauseNeverReturns | inaki/agents/delegation/background_queue.py:1556-1580 | no run of one process returns to a pause it left |
| DelegationTheorems.CancelSparesQuestions | inaki/agents/delegation/background_queue.py:460-485 | no cancel in a reachable state ends a runner that is delivering a question |
| DelegationTheorems.PauseIsSpentOnce | inaki/agents/delegation/background_queue.py:544-592 | within one process, over all interleavings of resume and cancel, one pause is resumed at most once and never also dismissed, and an answer is taken by at most one phase |
| DelegationSpent.SpentOnce | inaki/agents/delegation/background_queue.py:441-636 | over every run with crashes and restarts, a pause is resumed or dismissed at most once in all, if neither a requeue nor its dismissal was lost on the way to the store |
| DelegationAgain.SpentAgainExactly | inaki/agents/delegation/background_queue.py:1229-1256 | in every reachable state with an idle store, a pause already resumed or dismissed can be resumed again, losing nothing further, if and only if its row still holds it unmarked and its transcript can be reopened |
| DelegationAgain.DismissedIsResumed | inaki/agents/delegation/background_queue.py:463-469 | a concrete reachable run in which a pause is dismissed, the store fails to write it, the process restarts and the same pause is resumed |
| DelegationTheorems.EntryIffResumed | inaki/agents/delegation/background_queue.py:605-636 | a call adds a queue entry exactly when it returns resumed, and then its own answer is the pending one |
| DelegationTheorems.CallAnswers | inaki/agents/delegation/background_queue.py:555-636 | what a call that went on is told, case by case: a failing store or a stopped consumer makes it unavailable, a pause or a requeued task that is gone meanwhile not awaiting, a transcript that is inconsistent flags the task; only the call whose answer goes on changes more |
| DelegationTheorems.ResultsAreBounded | inaki/agents/delegation/background_queue.py:1392-1442 | over every run, at most one final result is dispatched, plus one for each requeue that the store lost |
| DelegationTheorems.BudgetIsKept | inaki/agents/delegation/background_queue.py:1725-1756 | if no requeue was lost, all phases together stay within the iteration budget, every stored pause counts every pass, and pauses are fewer than iterations |
| DelegationBudget.PassesExactly | inaki/agents/delegation/background_queue.py:1616-1640 | in every reachable state with an idle store, exactly so many passes can still be made without another lost requeue: what the phase at hand has left, and what a restart gives the pause on disk if a resume would accept it, which add up exactly if the phase left that pause behind |
| DelegationBudget.BudgetFailsExactly | inaki/agents/delegation/background_queue.py:1725-1756 | within the budget so far, it can be exceeded without another loss if and only if the phase at hand has too much left, or a resume would accept the pause on disk and passes were made since it was stored or can be by the phase that left it behind |
| DelegationTheorems.CrashLosesNothing | inaki/agents/delegation/background_queue.py:1148-1256 | from a crash in any state, a start that succeeds closes a row that was half way as the source says and no other, keeps every result, deletes exactly the rows that retention may, and loads exactly the rows still pending, pauses with their question |
| DelegationTheorems.StopInterrupts | inaki/agents/delegation/background_queue.py:839-877 | a stop ends every runner and marks exactly the queued and running tasks as interrupted, in the dict only |
| DelegationTheorems.StopClosesRow | inaki/agents/delegation/background_queue.py:839-877 | a stop closes the row of a task that it cut as a start would, and leaves it alone when the store failed |
| DelegationTheorems.ColdPauseIsDismissed | inaki/agents/delegation/background_queue.py:487-524 | a cancel of a pause that this process did not load dismisses its row and nothing else |
| DelegationHanding.ResultPrecedesDispatch | inaki/agents/delegation/background_queue.py:1392-1442 | in every reachable state whose store has not failed the task, while its result is dispatched or was, the row holds that result and says that it is being delivered |
| DelegationHanding.CrashKeepsResult | inaki/agents/delegation/background_queue.py:1148-1256 | a crash in the middle of a dispatch and a start that succeeds give the parent the result back, as a delivery that may not have reached it |
| DelegationMirror.StoreMirrorsDict | inaki/agents/delegation/background_queue.py:1290-1321 | in every reachable state of a process that is up, once the writes under way are applied the row says of a task in the dict what the dict says, unless a write of it failed |
| DelegationTale.DeliveredWasGiven | inaki/agents/delegation/background_queue.py:1392-1442 | over every run with any number of crashes, nothing says delivered, in the dict, in the store or on its way there, but a result whose dispatch succeeded; those dispatches are counted one by one |
| DelegationTale.ResultTellsItsFate | inaki/agents/delegation/background_queue.py:1340-1451 | a task holds the result that was handed over last; it is delivered only after a dispatch that succeeded and raised nothing, failed only after the last try or an exception behind the dispatch, with that error, and stays in the dict until then |
| DelegationTale.FailureIsKept | inaki/agents/delegation/background_queue.py:1395-1442 | a dispatch whose last try failed leaves the task live as a failed delivery with the result that was handed over and the error, in the dict and in its row |
| DelegationTale.FailureIsRetried | inaki/agents/delegation/background_queue.py:1769-1850 | before that the dispatch is tried again, one try later, and nothing is written |
| DelegationTale.PhasesStartClean | inaki/agents/delegation/background_queue.py:594-624 | a queued or running task carries no result, error, question or stamp of an earlier phase; a pause carries its own text and question |
| DelegationTale.NotifiedExactly | inaki/agents/delegation/background_queue.py:1489-1554 | a pause is marked as notified exactly when a dispatch of its question succeeded, a notice of it did, or its row said so at the start; one of this process has an error exactly when the last try of its question failed, and that error |
| DelegationTale.AnswersAreTheirs | inaki/agents/delegation/background_queue.py:594-624 | the answer that waits for the next phase is the text given to the call that left it; a transcript being flagged is flagged in the dict |
| DelegationTale.UsedIsExact | inaki/agents/delegation/background_queue.py:1593-1667 | without a lost requeue, the result of a child that ended by itself reports exactly the passes of all its phases, or all its iterations if it ran out of them |
| DelegationTale.BudgetIsTheFirst | inaki/agents/delegation/background_queue.py:283-339 | the budget of every phase is the one the delegation was created with, once |
| DelegationTheorems.UndisturbedAlong | inaki/agents/delegation/background_queue.py:1148-1197 | along every run, while a row says interrupted only dismissals and notices are on their way to it |
| DelegationTheorems.InterruptedStaysPending | inaki/agents/delegation/background_queue.py:1117-1136 | an interrupted row that was not told stays so at every step but a dismissal, a delivered notice or retention |
| DelegationTheorems.WhoEndsAnInterruption | inaki/agents/delegation/background_queue.py:1117-1136 | those writes are issued only by a cancel and by a notice that was dispatched |
| DelegationProof.Keeps | inaki/agents/delegation/background_queue.py:231-1906 | every action of every actor keeps the invariant |
| DelegationProof.RunsKeepInvariant | inaki/agents/delegation/background_queue.py:231-1906 | the invariant holds after every run, with any number of crashes and restarts |
| DelegationReplay.PlayKeepsRev | inaki/agents/delegation/background_queue.py:594-636 | along every run, a pause left on disk behind a phase under way is whole and leaves budget, and the store is known to have failed |
| DelegationTwice.TwoResultsExactly | inaki/agents/delegation/background_queue.py:594-636 | in every reachable state with an idle store, two more final results are possible without another loss if and only if a phase is under way, its pause is still on disk and the stored transcript can still be reopened |
| DelegationTwice.OnlyLossLeavesBehind | inaki/agents/delegation/background_queue.py:1310-1321 | a step leaves a pause behind only if a requeue did not reach the store in it |
| DelegationTwice.OneMoreAtMost | inaki/agents/delegation/background_queue.py:1392-1442 | otherwise no continuation without another loss delivers more than one further result |
| DelegationTwice.HopelessDeliversOnce | inaki/agents/delegation/sqlite_task_store.py:333-367 | with a transcript that a resume refuses and that no pause can complete, no continuation, lost requeues included, delivers more than the phase at hand |
| DelegationTwice.TwoMorePossible | inaki/agents/delegation/background_queue.py:1229-1256 | then some continuation delivers the phase at hand, restarts, reopens the transcript, resumes again and delivers once more |
| DelegationTwice.PauseOnDiskDelivers | inaki/agents/delegation/background_queue.py:526-592 | a whole pause on disk with a transcript that reopens is worth one more result after a pass, or all the passes that it left |
| DelegationTwice.RunIgnoresHistory | inaki/agents/delegation/background_queue.py:231-1906 | the history counters influence no run |
| DelegationTwice.OneLossDoubles | inaki/agents/delegation/background_queue.py:594-636 | a concrete reachable state with one lost requeue, two delivered results and more passes than the budget |
| DelegationTwice.ExhaustedDoubles | inaki/kernel/run_agent_one_shot.py:203-212 | a concrete reachable state whose child is out of iterations, from which its closing message makes two results possible |
| DelegationNotice.NoticeMarksExactly | inaki/agents/delegation/background_queue.py:1117-1136 | whatever happens while a notice is under way, it marks another pause than the one it told if and only if that one was resumed meanwhile |
| DelegationNotice.QuestionIsSilenced | inaki/agents/delegation/background_queue.py:1117-1136 | a reachable run in which the notice of one pause marks the next one's question, which no dispatch delivered |
| DelegationNotice.PlayKeepsSince | inaki/agents/delegation/background_queue.py:594-636 | while the process lives, a pause lasts, or is spent by a resume, or the task never returns to its child |
| DelegationQueue.BackgroundQueue.Cancel | inaki/agents/delegation/background_queue.py:441-485 | by status: a result on its way is left alone, what waits for its parent is dismissed and its result handed over, what is queued or runs is cut with its runner; state, crew and row of each case |
| DelegationQueue.BackgroundQueue.Resume | inaki/agents/delegation/background_queue.py:544-554 | decision and reservation happen in one segment |
| DelegationQueue.ResumeAnswers | inaki/agents/delegation/background_queue.py:526-592 | which answer each state gets, case by case: a call goes on exactly when the pause is live, unreserved, whole, persisted, within its budget, not refused and the consumer is up, and then it alone holds the reservation |
| DelegationQueue.CancelAnswers | inaki/agents/delegation/background_queue.py:441-485 | which answer and which new state a cancel gives to each status |
| DelegationQueue.BackgroundQueue.Start | inaki/agents/delegation/background_queue.py:816-837 | sweep, prune, rehydrate: every life restarts as its row says, each part failing on its own |
| DelegationQueue.BackgroundQueue.Act | inaki/agents/delegation/background_queue.py:231-1906 | whatever segment of whatever task runs next, that task makes the step of its life, every other stays as it was, and every one keeps the invariant |
| DelegationQueue.BackgroundQueue.ActAll | inaki/agents/delegation/background_queue.py:816-877 | stop, crash and start move every life by its step and keep the invariant |
| Conversation.PairedConcat | inaki/kernel/_tool_loop.py:524-535 | paired conversations compose |
| Conversation.BatchIsPaired | inaki/kernel/_tool_loop.py:524-649 | an assistant and the results of its calls are a paired batch |
| InboundTurns.IdsAreExact | inaki/kernel/_tool_loop.py:93-113 | the rows above a cursor come in id order, each once, and are exactly the scope's user rows |
| InboundTurns.NothingAfterAdvanced | inaki/kernel/_tool_loop.py:93-113 | nothing unreturned lies at or below the new cursor |
| InboundTurns.NewsAreUsers | inaki/kernel/_tool_loop.py:93-113 | a drain returns user messages with exactly those row ids |
| InboundTurns.NewsCame | inaki/kernel/_tool_loop.py:93-113 | a drain returns those rows word for word |
| InboundTurns.ScopeRegistry.TryMarkBusy | inaki/agents/scope_registry.py:42-49 | succeeds exactly on a free scope and changes no other |
| InboundTurns.ScopeRegistry.MarkIdle | inaki/agents/scope_registry.py:51-68 | frees the scope and drops its pending stop |
| InboundTurns.ScopeRegistry.RequestCancel | inaki/agents/scope_registry.py:70-77 | a stop is accepted exactly for a busy scope, so stops are pending only for busy scopes |
| InboundTurns.World.Interleave | inaki/kernel/turn_dispatch.py:69-78 | while a turn awaits, rows are only appended and nobody else frees its scope |
| TurnLog.TriedEvent | inaki/kernel/_tool_loop.py:658-668 | after every try the counters and the tripped set are the history of non-retryable failures since the last success |
| TurnLog.DrainFlows | inaki/kernel/_tool_loop.py:423-430 | a drain keeps: what entered is exactly what arrived up to the cursor |
| TurnLog.BatchJoins | inaki/kernel/_tool_loop.py:524-649 | a batch with one result per call keeps the conversation paired |
| TurnLog.DraftJoins | inaki/kernel/_tool_loop.py:483-486 | a reply that stops being final joins the conversation, keeps it paired and leaves no trace |
| TurnLog.PassesAreBounded | inaki/kernel/_tool_loop.py:126-160 | the rules alone bound the calls: one per pass, a full run of passes per reset, at most three resets, and the closing call |
| ToolLoop.Turn.CheckStop | inaki/kernel/_tool_loop.py:116-124 | sees a stop exactly when one is pending for the scope at that moment |
| ToolLoop.Turn.Drain | inaki/kernel/_tool_loop.py:88-113 | what came joins the conversation after the draft it overtook, as the log tells; an empty drain means that the conversation holds everything that arrived |
| ToolLoop.Turn.Account | inaki/kernel/_tool_loop.py:126-160 | a drain resets the counter exactly while resets are left |
| ToolLoop.Turn.Admit | inaki/kernel/_tool_loop.py:199-221 | every schema that re-routing found is visible or the budget of the turn is spent, and nothing else was added |
| ToolLoop.Turn.PageIn | inaki/kernel/_tool_loop.py:598-609 | a called tool that exists is visible from then on, and no other is added |
| ToolLoop.Turn.Score | inaki/kernel/_tool_loop.py:658-668 | success clears the count, a failure not worth a retry may trip the tool, others change nothing |
| ToolLoop.Turn.Try | inaki/kernel/_tool_loop.py:611-640 | a locked tool is refused outside a turn of the operator; other tools run, and the result is their output |
| ToolLoop.Turn.Obtain | inaki/kernel/_tool_loop.py:555-589 | a call of a batch gets a cut, an open circuit, a refusal or its own output, and the log tells which; after a stop nothing runs |
| ToolLoop.Turn.RunBatch | inaki/kernel/_tool_loop.py:524-673 | every call of a reply gets its result, in order, and conversation, trace and log agree, whatever cuts the batch |
| ToolLoop.Turn.Checkpoint | inaki/kernel/_tool_loop.py:423-440 | a checkpoint takes in what came and accounts for it; the counters tell the log |
| ToolLoop.Turn.Follow | inaki/kernel/_tool_loop.py:469-705 | a reply without calls is final exactly when nothing came meanwhile |
| ToolLoop.Turn.Pass | inaki/kernel/_tool_loop.py:417-705 | every pass is one step nearer to the end; it ends the turn only with the reply that just came, composed after everything that arrived, or when the provider raised |
| ToolLoop.Turn.WrapUp | inaki/kernel/_tool_loop.py:715-730 | a stopped turn makes one call without tools, with the instruction to sum up, and answers with what comes back, or a fixed text if that is blank |
| ToolLoop.Turn.GiveUp | inaki/kernel/_tool_loop.py:732-759 | a turn out of iterations gives its last words, and asks once more, without tools, exactly if there were none |
| ToolLoop.Turn.Run | inaki/kernel/_tool_loop.py:224-759 | every event keeps the rules; the model is sent at every call the first messages and the story of the log, paired, with the trace equal to it; the answer is the text of the reply that ended the turn, which saw everything that arrived; a turn is exhausted only after all its passes, and stopped exactly when a stop was seen |
| TurnLaws.PairedMeans | inaki/kernel/_tool_loop.py:524-649 | in a paired conversation an assistant with n calls is followed at once by exactly its n results in order |
| TurnLaws.RowsEnterOnce | inaki/kernel/_tool_loop.py:423-430 | in every call the rows that entered are increasing, belong to the scope, and skip none |
| TurnLaws.TrippedStaysOut | inaki/kernel/_tool_loop.py:572-589 | once a tool's failures reached the threshold it is not tried again in the turn |
| TurnLaws.NothingAfterStop | inaki/kernel/_tool_loop.py:555-571 | after a stop was seen only cuts follow, and one call without tools, the last event |
| TurnLaws.RunsAreAllowed | inaki/kernel/_tool_loop.py:555-640 | a tool runs only right after a look that saw no stop, and a locked one only for the operator |
| TurnLaws.SentIsSaid | inaki/kernel/_tool_loop.py:423-673 | past the first messages the model is sent only messages of users, its own replies with calls or overtaken, and for each tool call the output of its own run or the fixed text of its refusal, open circuit or cut |
| TurnLaws.SaidIsSent | inaki/kernel/_tool_loop.py:524-673 | the result of every tool call is in every later call of the model |
| TurnLaws.SandboxIsKept | inaki/kernel/_tool_loop.py:598-609 | without page-in and re-routing the model is told of no schema beyond the first ones |
| TurnLaws.Dispatch | inaki/kernel/turn_dispatch.py:43-78 | a busy scope only persists the message; a free one is busy for exactly the turn, which begins after that message, keeps the rules and ends with its own last reply, composed after every message up to its final checkpoint |
| OneShot.SchemasAreVisible | inaki/kernel/run_agent_one_shot.py:141-158 | the child sees exactly the registered tools that are allowed and not excluded |
| OneShot.Transcript.RecordSafely | inaki/kernel/run_agent_one_shot.py:236-262 | a failing recorder never reaches the turn and is told once |
| OneShot.Transcript.Annotate | inaki/kernel/run_agent_one_shot.py:221-233 | the mirror has the message whatever the store does |
| OneShot.Transcript.Persist | inaki/agents/delegation/sqlite_task_store.py:412-451 | what is stored is a beginning of the mirror without holes, and all of it unless a write failed |
| OneShot.Execute | inaki/kernel/run_agent_one_shot.py:84-218 | transcripts of another length are refused untouched; otherwise the first call is the previous transcript and the new message, every call is sent exactly the transcript if and only if the two were equal, and all are paired, with only visible tools; what comes back is the text of the last reply, or the exhaustion or the failure that the log shows, and the transcript is what was said and that text |
| OneShot.OnlyLengthsAreChecked | inaki/kernel/run_agent_one_shot.py:126-139 | two concrete inputs that are not refused although the calls are not sent the transcript |
| OneShot.RunPhases | inaki/kernel/run_agent_one_shot.py:126-218 | any number of pauses and resumes, each reopening what the store holds, make one paired conversation, each phase beginning with all said before |
| Merge.DeepMerge | inaki/config/merge.py:98-136 | merges key by key; the error is a path where the layers really clash, and it merges exactly when none does; a key that the sentinel deletes is gone, and a leaf below stays exactly where the upper layer neither takes it away nor overrides it |
| Merge.PathsDetermine | inaki/config/merge.py:113-136 | what each path of the result holds, said by what the two layers hold there, determines the merge |
| Merge.DeletionRemoves | inaki/config/merge.py:116-119 | a deleted path is gone, wherever the lower layer has blocks down to it |
| Merge.LeafSurvives | inaki/config/merge.py:113-136 | a leaf of the lower layer is taken away exactly by a deletion of it or a deletion or null above it, overridden exactly where the upper layer has a node, and kept otherwise |
| Merge.ClashMeansUnfit | inaki/config/merge.py:122-131 | a clash at any depth is an error of the whole merge |
| Merge.OverByEntry | inaki/config/merge.py:113-136 | a merged block is what its keys become, one by one |
| Merge.GroupingPlain | inaki/config/merge.py:113-136 | the merge is associative, errors included, when the two upper layers hold no null and no layer a sentinel |
| Stacks.GroupingExactly | inaki/config/merge.py:113-136 | two groupings of three layers agree, errors included, if and only if nothing is forgotten: a null in the middle needs the last layer to fit and cover what is below, a null on top needs the two below not to conflict |
| Stacks.FaithfulExactly | inaki/config/merge.py:113-136 | any number of layers laid in turn give what they give compacted first, errors included, if and only if at every depth what follows the last null replaces all that the base has there |
| Stacks.ConflictsStay | inaki/config/merge.py:122-131 | layers that conflict among themselves conflict over any base |
| Merge.CoversMeansReplaces | inaki/config/merge.py:113-136 | a layer replaces a block whole exactly when it overrides every key of it |
| Merge.ResolveInherit | inaki/config/merge.py:236-263 | each block is resolved on its own, over its parent's only when it asks |
| Merge.InheritedByPaths | inaki/config/merge.py:236-263 | what an inheriting block holds at each path: the child's leaves, the parent's where the child says nothing, and none that the child takes away; a block that does not inherit stays the child's |
| Merge.InstructionIsStripped | inaki/config/merge.py:236-263 | the instruction survives exactly when the block inherits and its parent's block carries it |
| Merge.InstructionSurvives | inaki/config/merge.py:236-263 | a child and a parent whose resolved block still says inherit |
| Provenance.Tracker.Track | inaki/config/merge.py:208-224 | one layer records itself at each of its leaves that survive, forgets deleted subtrees and leaves every other path as it was |
| Provenance.Tracker.Prune | inaki/config/merge.py:176-180 | exactly the subtree below the path is forgotten |
| Provenance.LeafComesFrom | inaki/config/merge.py:113-136 | a scalar of a merge comes from the upper layer if that declares its path, else from below, unchanged, whatever is deleted; so does an empty block without deletions |
| Provenance.DeclaredSurvives | inaki/config/merge.py:221-233 | what a layer declares and does not delete survives its merge, so the test of the source for it never fails |
| Provenance.LayerKeepsAttribution | inaki/config/merge.py:208-224 | one more layer keeps every live scalar attributed, and without sentinels every live empty block |
| Provenance.MergeLayers | inaki/config/merge.py:183-205 | every live scalar names the last layer that declares it, which holds the same value; every record is the one that the layers say, deletions included; an error names a layer that really clashes with those before it |
| Provenance.EmptiedIsUnattributed | inaki/config/merge.py:208-224 | a block that a deletion emptied is a live leaf for which no layer is named |
| Provenance.DottedPrefix | inaki/config/merge.py:176-180 | for keys without dots the test on dotted strings finds exactly the subtree |
| RuntimeOverrides.NestFromInside | inaki/config/runtime_overrides.py:60-65 | the nested tree of a path, built from its last key |
| RuntimeOverrides.NestHolds | inaki/config/runtime_overrides.py:60-65 | the nested tree holds the value at its path and blocks above it |
| RuntimeOverrides.OverrideStack.With | inaki/config/runtime_overrides.py:124-128 | a candidate has one more entry and commits nothing |
| RuntimeOverrides.OverrideStack.Materialize | inaki/config/runtime_overrides.py:191-202 | the layer of a target is its entries stacked in order, or a conflict |
| RuntimeOverrides.OverrideStack.Materializes | inaki/config/runtime_overrides.py:163-178 | true exactly when every layer of every target can be built |
| RuntimeOverrides.OverrideStack.Add | inaki/config/runtime_overrides.py:130-143 | an entry is committed exactly when its layer still builds; else nothing changes; either way every layer builds, those of other targets are as they were, and the layer holds the value that was set |
| RuntimeOverrides.OverrideStack.DiscardAll | inaki/config/runtime_overrides.py:145-154 | everything is dropped and returned in order |
| RuntimeOverrides.OverrideStack.TakeNotices | inaki/config/runtime_overrides.py:156-159 | each notice is handed out once |
| RuntimeOverrides.CompactionIsTransparent | inaki/config/loader.py:784-806 | the compacted layer over any base is every override in turn, errors included, when no override holds a null |
| RuntimeOverrides.CompactionExactly | inaki/config/runtime_overrides.py:191-202 | for any overrides over any base, errors included, it is so if and only if nothing is forgotten |
| RuntimeOverrides.CompactionForgetsNull | inaki/config/loader.py:784-806 | a base and two overrides whose compacted layer brings an old block back |
| RuntimeOverrides.CompactionInventsConflict | inaki/config/loader.py:803-806 | a base and two overrides that apply in turn and are accepted by the stack, whose compacted layer conflicts |
| Scheduler.SchedulerService.NextDue | inaki/scheduler/adapters/sqlite_repo.py:253-273 | the enabled pending task with the earliest slot, or none exists |
| Scheduler.SchedulerService.Attempt | inaki/scheduler/service.py:263-287 | at most one try more than the retries; a failed execution used all of them, and each failed try is logged |
| Scheduler.SchedulerService.Finalize | inaki/scheduler/service.py:304-341 | a success completes a oneshot or the last of a countdown, and re-arms the others |
| Scheduler.FinalizedCloses | inaki/scheduler/service.py:304-341 | a recorded success takes one from the countdown and ends it at none, and the next slot is that of the cron expression from then |
| Scheduler.GivenUpCloses | inaki/scheduler/service.py:289-302 | an occurrence that failed leaves countdown and last run, and only a recurrent task lives on, at the next slot of its cron expression |
| Scheduler.SchedulerService.ExecuteTask | inaki/scheduler/service.py:254-302 | an execution is closed by one of those, by whether a try succeeded, and logged try by try; or stopped by a death or by an exception of the repository with the row running and its countdown as it was; no other row changes |
| Scheduler.SchedulerService.Tick | inaki/scheduler/service.py:148-167 | the loop executes exactly the earliest task whose slot has come, and nothing when none has |
| Scheduler.SchedulerService.RunNow | inaki/scheduler/service.py:92-146 | a manual run leaves every row as it was and is logged as manual |
| Scheduler.RecoversInTwoParts | inaki/scheduler/service.py:187-252 | the two passes of a restart recover each row once, as the source says of its kind and status |
| Scheduler.SchedulerService.Recover | inaki/scheduler/service.py:187-252 | after a restart nothing runs and nothing enabled is due: a row that was running or due is over, or at the next slot of its cron expression if it is recurrent, and logged once; every other row keeps its own slot |
| Scheduler.SchedulerService.Serve | inaki/scheduler/service.py:148-178 | over any run with failures, manual runs, exceptions of the repository, deaths and restarts, every row lives by the moves of a row, executed only when due, its slot and last run are its first ones or those of some move, recorded successes plus what remains is the total, the last one completes, a oneshot is executed at most once, and successes are those recorded and those that were not |
| Scheduler.SuccessesExactly | inaki/scheduler/service.py:148-341 | over every life of a row, all successes are recorded if and only if no execution died or raised between its success and its record; a countdown of n completes after n successes and one more for each such execution |
| Scheduler.SlotsAreTraced | inaki/scheduler/service.py:243-252 | over every life of a row its slot is its first one or that of its cron expression at the time of a move, its last run that of a recorded success, and its schedule never changes |
| Scheduler.OneTooMany | inaki/scheduler/service.py:304-341 | a reachable row whose countdown of one succeeded twice, with a death and an exception, and is not complete |
| Scheduler.SuccessEndsFailed | inaki/scheduler/service.py:187-252 | a reachable oneshot row that succeeded and says failed |
| Anthropic.BuildMessages | inaki/llm/anthropic.py:218-298 | the loop over the conversation computes the translation |
| Anthropic.TranslationKeepsContents | inaki/llm/anthropic.py:218-298 | the request says exactly what the conversation says, in order: every text that is not blank, every call with its id, name and parsed arguments, every result or the placeholder where it is empty, every saved reply as it came; without tools the same as text; before it a placeholder exactly when an assistant speaks first |
| Anthropic.ResultsArrive | inaki/llm/anthropic.py:228-246 | with tools, the pairs of id and text of the result blocks are those of the results of the conversation |
| Anthropic.BuildReply | inaki/llm/anthropic.py:247-285 | a saved reply is sent literally, without its thinking when the prefix changed; others are rebuilt |
| Anthropic.TranslationKeepsPairing | inaki/llm/anthropic.py:218-298 | with tools, a paired conversation becomes a paired request that opens with a user message |
| Anthropic.BatchTranslates | inaki/llm/anthropic.py:127-143 | an assistant and its results become two messages, the second with exactly the results in order |
| Anthropic.TranslationWithoutTools | inaki/llm/anthropic.py:228-246 | without tools no use and no result remains, whatever the conversation |
| Anthropic.TranslationIsSolid | inaki/llm/anthropic.py:246-292 | no message of a request is empty, and no text in it, if and only if no saved reply holds nothing but the thinking of another prefix; replies saved by the provider never do |
| Anthropic.ParseContent | inaki/llm/anthropic.py:354-397 | the texts are those of the text blocks that are not empty, the calls the tool uses, both in order; the reply is kept exactly when it calls tools, every block but the empty texts |
| Anthropic.ReplyRoundTrip | inaki/llm/anthropic.py:247-259 | a reply is sent back as it came while the prefix stays, and always with the same calls |
| JsonExtract.FindBracket | inaki/kernel/_json_extract.py:28-30 | the first opening bracket, or none |
| JsonExtract.ExtractJsonArray | inaki/kernel/_json_extract.py:28-52 | the shortest balanced text from the first bracket, and nothing only if there is none |
| JsonExtract.ArrayIsShortest | inaki/kernel/_json_extract.py:28-52 | the text of any array of section 5 of RFC 8259 is balanced and none of its beginnings is |
| JsonExtract.SteadyValue | inaki/kernel/_json_extract.py:35-51 | any JSON value leaves depth and string state as they were, and never goes below |
| JsonExtract.ExtractFromAnswer | inaki/kernel/_json_extract.py:12-52 | any array, after text without an opening bracket and before any text, is what is extracted |

## Left out

- ResultsAreBounded: the promise of a single final result is false after a lost requeue (see above), so the bound counts losses and TwoResultsExactly gives the condition.
- SpentOnce: the promise that a pause is spent once is false after a lost dismissal or requeue (see above), so it is stated without them and SpentAgainExactly gives the condition.
- CompactionIsTransparent: stated for overrides without nulls, since with them it is false; CompactionExactly gives the condition.
- PauseIsSpentOnce: within one process; SpentOnce is the statement over crashes.
- BudgetIsKept: stated without a lost requeue, since after one the budget can be exceeded; BudgetFailsExactly gives the condition.
- AllAttributed: an empty block is attributed only without sentinels, since one that a deletion emptied has no record (EmptiedIsUnattributed); and entries of paths that are no longer leaves may stay.
- The semaphore's count, working directories, transcripts' texts, rendered notices and logs of the delegation queue.
- The time a stop waits for runners, and a runner that outlives it: cutting a runner is one step.
- The awaits inside a stop's sweep, which lists the rows and then rewrites them one by one: it is one step here, so a cancel that comes between the two, and is then overwritten, is not modelled.
- A start after a stop of the same object, where the ids whose store failed would be remembered: a start is always that of a new process.
- Two cancels of one pause that only the store knows, both before the first is written.
- The texts of the stored transcript: of the checks of `_verificar_reanudable` the model keeps the contents stored cut and the ending. A cut in the tool calls of a message alone leaves no mark there, so it counts as whole here too; a first message that is not the user's, a hole in the numbering or an illegible row are not modelled.
- A tool that raises: the registry turns every exception into a failure not worth a retry (`inaki/tools/registry.py:152-162`), which is one of the results the loop may get.
- A delegation's timeout, which cuts the child's loop at some await: what is claimed of the calls made holds of those made before.
- Deletion of history rows during a turn, and messages that arrive between the last checkpoint of a turn and the release of its scope: they wait for the next turn, as `Dispatch` says.
- The delays between calls, the intermediate sink, the tracer and the alphabetical order of the first schemas.
- The optional absence of the trace or of the persistence callback: both are modelled as given.
- The recursion of `_registrar_procedencia` into non-empty blocks, which `_rastrear_capa` never reaches.
- The texts and the order of errors when several keys clash: the error is some clashing path.
- The defensive copies of the override stack: trees are values here.
- Concurrent edits of scheduled tasks, the backoff between attempts, and the evaluation of cron expressions.
- Edits of a row by the scheduler's use case while it runs, and exceptions of the repository during the recovery of a restart.
- HTTP, streaming, usage and stop reasons of the Anthropic provider; argument parsing is an arbitrary function.
- Providers, embeddings, SQLite, servers, channels, YAML loading and validation.
