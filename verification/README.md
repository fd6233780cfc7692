# Agent runtime: a verified model

This project models an LLM agent runtime with tool use, memory and retrieval, and proves what its
parts promise. Check it with `dafny verify dfyconfig.toml`.

| file | models |
|---|---|
| `Lists.dfy`, `Messages.dfy` | lists without repeats; chat messages, turn blocks, and what it means that tool calls are answered |
| `ShortTerm.dfy`, `TokenCounter.dfy`, `Manager.dfy` | the sliding window, its token counts, sessions in memory and in the store |
| `LoopGuard.dfy`, `Validator.dfy`, `Executor.dfy` | the run's limits, the split of tool calls into valid ones and violations, their execution |
| `RunSpec.dfy`, `Runs.dfy`, `Runtime.dfy` | one pass of the agent loop and whole runs, as functions on the run's state and as the class that updates it |
| `RunBounds.dfy`, `RunPairing.dfy`, `RunDrafts.dfy`, `RunEnds.dfy`, `RunMemory.dfy` | what holds of every run: bounds, pairing of calls and answers, isolation of drafts, how runs end, what the window keeps of the session's history |
| `RunContent.dfy`, `RunAnswers.dfy`, `RoundContent.dfy`, `RunOutcomes.dfy`, `RunEvents.dfy` | what a run says, pass by pass and straight from its inputs: queries, requests, reviews and rejected drafts; the answer; the messages and counts of a tool round; how it ends; events, steps and blame |
| `SessionRuns.dfy`, `RunExamples.dfy` | the runs of one session on the memory they share; inputs on which a run leaves calls unanswered, or an answer although it did not finish |
| `Session.dfy`, `SessionAccess.dfy` | reference-counted session leases over all interleavings of tasks; who is refused, who waits, and in which order |
| `EmbeddingWorker.dfy`, `ProcessEmbeddings.dfy` | the embedding worker; the client and the worker as one machine |
| `WorkerSafety.dfy`, `RequestIds.dfy`, `Provenance.dfy`, `WorkerStops.dfy`, `ProcessClient.dfy` | the safety of every run of it, the freshness of request ids, where handed-out vectors come from, what a kill does; the client as a class with its whole calls |
| `Planner.dfy` | the semantic checks on a task plan |
| `Ranking.dfy`, `Router.dfy`, `RouterCache.dfy`, `RouterRuns.dfy`, `RouteContent.dfy` | score order, tool routing, its LRU cache, sequences of routes, what a route chooses |
| `Stream.dfy`, `StreamRuns.dfy` | reassembly of a streamed reply and its reader; the run that works with it |
| `Text.dfy`, `VectorStore.dfy`, `KeywordIndex.dfy`, `Pipeline.dfy`, `Indexing.dfy`, `IndexRuns.dfy`, `IndexedContent.dfy` | chunk ids, the two stores, indexing over any run of calls, and that what is stored is the file |
| `Hybrid.dfy` | reciprocal rank fusion |

## How it is modelled

**Runs.** Everything a run does not decide is an input: how planning went, and per pass the route, the
model's reply or failure, what the tools and the critic do, and where a cancellation arrives. The
state holds the status, the four counters, the step log, the window and the emitted events; a ghost
log keeps what the router was asked, what went to the model and to the critic, and which drafts were rejected.
`RunHeads` lists the states in which the passes of a run begin; the statements about what a run says are made
from these and from the inputs, without the functions that compute it. `RunLoop` is total, so every run terminates. An
exception that is not an `AgentError` and that the code does not catch ends a run as `Escaped`.
Modelled are the `AttributeError` for a tool call without a function and the errors of parsing its
arguments for the loop guard (line 246 of `runtime/runtime.py`), the `IndexError` for an empty window
(line 139), the errors of a validation that cannot be carried out (line 259), and every count that
raises. `events` is what the current run has emitted; a runtime may be used for any number of runs,
one after the other.

**Memory.** Counting a message may raise: the tokenizer refuses texts with special tokens
(line 11 of `memory/token_counter.py`), and arguments that are a non-empty value but no text are a
`TypeError`. `Budget.countable` says which messages can be counted. `add_message` has then appended
the message already (line 47 of `memory/short_term.py`), it stays uncounted and nothing is evicted;
when it is evicted later, counting it again raises with its block gone and the total as it was. So
the memory is kept as window and running total, which agree while no count has raised
(`ExactAdds`), and any write of a run may raise.

**Concurrency.** Code between two suspending awaits is one step. In the session coordinator no
critical section under the entries lock awaits, so `_reserve` and `_release_reference` are atomic
steps. Locks are FIFO, a `wait_for` either acquires or times out, subprocess creation is atomic, and
a kill discards the pipes. Timeouts and cancellations are steps that may happen whenever the code can
be interrupted. In the worker client only the owner of the operation lock has a place in the code;
callers that wait for the lock are anonymous, and what they may do (a pending close kills the process
or, when cancelled, marks the client as stopping) is enabled whenever a close was requested, which
allows more than the code does. Request ids are a counter that stands for fresh UUIDs. The machine records
the inferences that workers made (`answered`). The class
`ProcessEmbeddingClient` is put together from those steps: each await of a call takes a list of
moves that other parties make meanwhile, and says whether the awaited thing arrives, times out, is
cancelled or breaks, so the contracts of `StartUp`, `EmbedBatch` and `Close` hold for every such schedule.

**Data.** Ids, names and contents of messages are texts; the arguments of a call may be anything. The
tokenizer, with the texts it refuses, JSON parsing and schema checking, with what they raise on, cosine
similarity, the embedder, text splitting and the tokenization for keyword search are parameters of the
model, so the results hold for all of them. Scores
and vectors are exact reals. Saving a session is lossless.

## What the code does not promise

- **The window is the batch window while the counts of the history are not negative**
  (`FeedIsBatch`). `count_message` takes one token off per tool call, so a message with many nameless
  calls counts below zero, and then the code's own counter misses the batch window
  (`BlankCallsBreakBatch`). With calls that bring a name or arguments it never does
  (`TextHistoriesKeepTheirWindow`). A counter is safe for all histories and budgets exactly when it
  never goes below zero on what it counts (`BatchIffNonNegative`).
- **Memory is left unpaired by some runs.** `RunIsPaired` gives the condition: a cancellation or an
  error while tools run (`CanceledToolsLeaveOpen`), a mixed round that exhausts the validation budget,
  a validation that raises, or a write that raises in front of the round's last answer: that of the
  calls (`StructuredCallsLeaveOpen`), of a refusal or of a result (`RefusedResultLeavesOpen`). While no
  count has raised before, this is a condition on the messages alone (`RoundLeftOpenOfExact`).
- **An answer can be in the memory of a run that did not finish**, exactly if counting it raises
  (`RunIsolatesDrafts`, `RefusedAnswerIsWritten`).
- **The prompt is in the evictable window**, so the comment that the system message is never evicted
  holds for the memory's own system message only. The prompt is kept exactly as long as everything
  that was counted fits the budget (`PromptStaysIffAllFits`, `HistoryStaysIffItFits`).
- **CLOSED can be left**, exactly by a close that is cancelled while it waits for the lock
  (`WhenClosedIsLeft`, `ClosedStateCanBeLeft`).
- **READY can outlive its process**: it loses it exactly when a call finds the worker gone, and the
  client is then left free in that state exactly when this call is cancelled before it has spawned a
  new one (`WhenReadyLosesItsProcess`, `WhenReadyStaysWithoutProcess`, `ReadyCanOutliveItsProcess`).
  The reuse test is what is safe (`ReuseIsClean`).
- **An error of the pipes leaves a live worker behind** that is BUSY, with the lock free: an exchange
  catches only its own errors (`LetGo`). The next call replaces that worker.
- **The router's cache-invariant error is reachable** (`SmallCacheTrips`): with a provider that
  answers, exactly when the new texts push one of the requested texts out (`CachedRouteIsFresh`).
- **A refused update of the vector store loses the old vectors**, exactly when the add is refused and
  something was stored under the ids (`UpdateLosesExactlyWhenRefused`, `RefusedUpdateLosesTheEntry`);
  and a re-index loses a document exactly when it was embedded into nothing that the store takes
  (`WhenADocumentIsLost`, `RefusedReindexLosesTheDocument`).

## Model

| member | source | states |
|---|---|---|
| `RunPairing.RunIsPaired` | runtime/runtime.py:77-384 | from a paired window, every request to the model and every context for the critic in the whole run is paired, and the final window is paired if and only if no pass left calls unanswered, by a write that raises or otherwise |
| `RunPairing.LoopPaired` | runtime/runtime.py:99-104 | the same from any state at the head of a pass |
| `RunPairing.StepPaired` | runtime/runtime.py:123-384 | one pass keeps requests paired, and leaves the window paired exactly when it does not leave calls open |
| `RunPairing.OpenEndsTheRun` | runtime/runtime.py:264-301 | a pass that leaves calls open is the run's last |
| `RunPairing.AnswerCallsPaired` | runtime/runtime.py:259-304 | after the calls are written, refusals and results together answer every one of them exactly when validation does not raise, does not end the run beside valid calls, the executor returns, and no write in front of the last answer raises |
| `RunPairing.ToolRoundPaired` | runtime/runtime.py:242-304 | a whole tool round, loop detection and a raising write of the calls included, keeps the window paired under that condition |
| `RunPairing.RoundLeftOpenOfExact` | memory/short_term.py:45-49 | in a memory in which no count has raised, the condition is on the messages: the calls, all refusals and all answers but the last can be counted |
| `RunPairing.ResultsSettle` | runtime/runtime.py:512-555 | recording one result per valid call settles what those calls owe, whatever is evicted meanwhile, exactly if no write but the last raises |
| `RunPairing.ViolationsSettle` | runtime/runtime.py:764-773 | one tool message per violation settles the ids of the refused calls, exactly if no write but the last raises |
| `RunPairing.RequestPaired` | runtime/runtime.py:186-193 | plan and revision notices go in without separating calls from answers |
| `RunPairing.WriteKeepsPaired` | runtime/runtime.py:323-323 | adding a plain message keeps the window paired through eviction, even if counting it or an evicted one raises |
| `RunExamples.CanceledToolsLeaveOpen` | runtime/runtime.py:279-280 | a concrete run, cancelled while its tool runs, whose window ends unpaired |
| `RunExamples.StructuredCallsLeaveOpen` | memory/short_term.py:45-49 | a concrete run whose call has an object for arguments: counting it raises after it was appended, and the window ends unpaired |
| `RunExamples.RefusedResultLeavesOpen` | runtime/runtime.py:512-531 | a concrete run with two calls, the first of which returns a text that the tokenizer refuses: the second is never answered |
| `RunExamples.RefusedAnswerIsWritten` | runtime/runtime.py:322-328 | a concrete run whose answer the tokenizer refuses: it is in the window of a run that escapes unfinished |
| `SessionRuns.SessionIsPaired` | runtime/runtime.py:68-121 | over any sequence of runs of a new session, failed and cancelled ones included, all requests and review contexts are paired until a run has left calls open, and each run leaves the window paired exactly when it has not |
| `SessionRuns.SessionWindowIsBatch` | memory/short_term.py:45-86 | while no count of a session raises or is negative, its window is the batch window of everything its runs ever wrote |
| `SessionRuns.FirstRefusal` | memory/token_counter.py:8-11 | the first write of a session that raises is that of the first message that cannot be counted |
| `RunBounds.RunIsBounded` | runtime/runtime.py:99-104 | in the result of every run the count equals the log's length, step i has index i, model and critique steps lie below the step limit, and the count exceeds the limit by at most the valid calls of the last round |
| `RunBounds.StepCounted` | runtime/runtime.py:232-240 | one pass keeps those bounds |
| `RunDrafts.RunIsolatesDrafts` | runtime/runtime.py:306-384 | an answer is written exactly when the run finishes or the write of the answer raises, once and as the last write (which draft that is, is `AnswerIsTheLastDraft`); critiques number at most the limit plus one |
| `RunAnswers.AnswerIsTheLastDraft` | runtime/runtime.py:306-353 | a run finishes if and only if the model's last reply is a draft without calls, not blank, accepted if there is a critic, and can be written; that very draft is then the last write and the answer of the end event |
| `RunAnswers.StepAnswers` | runtime/runtime.py:306-353 | the same of one pass, which then leaves that draft as the newest message of the window |
| `RunAnswers.RejectedBeforeAnswer` | runtime/runtime.py:355-384 | the rejected drafts of a finished run are those of the passes in front of its last one |
| `RunContent.RunSays` | runtime/runtime.py:99-193 | over a whole run, each request to the model is system message and window, with the plan's context and then the revision's payload behind the leading system messages; each context for the critic is exactly system message and window; each routing query is the revision's feedback, else the plan's query, else the newest text; each rejected note holds the draft and the critic's feedback; in order, and no others |
| `RunContent.StepSays` | runtime/runtime.py:123-384 | one pass adds exactly those |
| `RunDrafts.RunHeadsAreDrafting` | runtime/runtime.py:99-104 | in every run, at the head of every pass the carried revision is absent exactly when none was used, and otherwise is the latest rejected draft, tool rounds in between or not |
| `RunDrafts.LoopHeadsAreDrafting` | runtime/runtime.py:99-104 | the same from any state at the head of a pass |
| `RunDrafts.StepDrafts` | runtime/runtime.py:123-384 | one pass keeps drafts out of memory and the revision budget in step with the critiques |
| `RunDrafts.ToolRoundDrafts` | runtime/runtime.py:242-304 | a tool round neither writes an answer nor touches the carried revision |
| `RunOutcomes.RunIsEnded` | runtime/runtime.py:77-121 | every run goes on exactly as long as nothing in a pass makes it end, and ends in the status and by the way out that its last pass calls for: each status, cancellation and escaping error exactly for its reasons in the inputs, or for what fails in front of the first pass |
| `RunOutcomes.StepEnds` | runtime/runtime.py:123-384 | the same of one pass; one that goes on hands on the draft just rejected, with one revision more counted, or else the revision it was given |
| `RunEnds.RunEndsProperly` | runtime/runtime.py:91-121 | every run that returns or is cancelled is terminal, its reason follows from its status, its one end event is its last, and `final` is there exactly when it finished and is the committed answer; a run with a write that raised escapes without an end event |
| `RunEnds.StepInOrder` | runtime/runtime.py:123-384 | one pass emits no end event and sets a reason whenever it ends the run |
| `RunEnds.EmitEndEndsProperly` | runtime/runtime.py:613-640 | the terminal event carries the status, reason and answer of the state it ends |
| `RunEvents.StepShows` | runtime/runtime.py:123-555 | the events and steps of one pass, in order and under the right numbers: routing, request, tokens unless a critic is to see the draft, reply, then one step and event per recorded result, or the critique and its decision |
| `RunEvents.StepBlames` | runtime/runtime.py:641-674 | a pass that fails names the party whose input made it fail: router, model, tools or critic |
| `Runs.StepUsesPass` | runtime/runtime.py:129-132 | a pass that goes on uses up some of the step budget, so every run ends |
| `Runs.RunMakesFewPasses` | runtime/runtime.py:99-132 | every run makes at most one pass more than its step limit |
| `Runs.RefusedMeansEscaped` | memory/short_term.py:45-49 | a pass with a write that raises ends with the error escaping |
| `RunMemory.WindowFollowsHistory` | runtime/runtime.py:77-121 | every run, escaped ones included, leaves the memory of the whole history of its session followed by everything the run wrote; a write raises exactly if its message cannot be counted, is the last, and leaves it behind that window; no system message follows the first writes |
| `RunMemory.PromptStaysIffAllFits` | runtime/runtime.py:593-595 | after any run on a new session the prompt is in the window if and only if everything counted so far fits the budget |
| `RunMemory.HistoryStaysIffItFits` | memory/short_term.py:66-86 | after any run on a session that began with a system message, nothing was evicted if and only if everything counted fits the budget |
| `Runs.ToolRoundShape` | runtime/runtime.py:242-304 | a tool round adds tool steps and tool messages only, at most one per valid call, and ends in one of its known exits |
| `Runs.FeedViolationsShape` | runtime/runtime.py:762-792 | feeding violations changes only the memory and ends the run exactly when all were written and the budget of rounds is exceeded |
| `Runs.ProcessResultsShape` | runtime/runtime.py:512-587 | processing results adds one step per result, or fewer if a write raises, and ends the run only on an exceeded budget of failed rounds |
| `RoundContent.RoundSays` | runtime/runtime.py:242-304 | a whole tool round: what is remembered of the calls, when it is stopped as a loop, and else the messages it writes (the calls, then the refusals, then each valid call's own answer), with both counts of failed rounds and the status they lead to |
| `RoundContent.StepCalls` | runtime/runtime.py:123-304 | the same of a pass whose reply asks for tools |
| `RoundContent.SignaturesSay` | runtime/loop_guard.py:44-55 | what is remembered is name and canonical arguments of each call, up to the first one that has no function or no such form |
| `RoundContent.AnswersSay` | tools/executor.py:36-102 | each answer carries the id and name of its call and the tool's own output, or the error it threw or met |
| `RoundContent.RefusalsSay` | runtime/runtime.py:764-773 | each refusal goes back under the id and name of its call, marked as an error |
| `RoundContent.RunStaysInBudget` | runtime/runtime.py:564-587 | in every run no pass begins with more rounds of refusals or of failures behind it than the budgets allow |
| `Runtime.AgentRuntime.RunAcquiredAsync` | runtime/runtime.py:77-121 | a whole run on the fields is the run as a function of its inputs, so it is within its bounds, keeps drafts out, ends with one end event, and pairs its logs and window under the condition above |
| `Runtime.AgentRuntime.RunPasses` | runtime/runtime.py:99-104 | the loop over passes ends, in the state and with the exit of the pure loop |
| `Runtime.AgentRuntime.RunStepAsync` | runtime/runtime.py:123-384 | one pass on the fields is one pass of the specification, with the same exit and carried revision |
| `Runtime.AgentRuntime.PrepareRequest` | runtime/runtime.py:176-193 | the request that goes to the model is that of `RunSays`, after the routing and request events |
| `Runtime.AgentRuntime.CallModel` | runtime/runtime.py:195-240 | the model's reply, failure or cancellation is recorded and handed on as specified |
| `Runtime.AgentRuntime.RunToolRound` | runtime/runtime.py:242-304 | signatures first, then the loop check, then the calls are written and answered |
| `Runtime.AgentRuntime.RecordSignatures` | runtime/runtime.py:246-246 | the history grows by the signatures of all calls, or of those before the first call whose signature raises |
| `Runtime.AgentRuntime.AnswerToolCalls` | runtime/runtime.py:259-304 | validation may raise; violations are fed back before valid calls run; the counter of failed rounds is reset only by a clean round |
| `Runtime.AgentRuntime.RunTools` | runtime/runtime.py:279-304 | the executor's outcomes end or continue the run as specified |
| `Runtime.AgentRuntime.HandleValidationFailure` | runtime/runtime.py:749-792 | one message per violation up to a write that raises, and the run ends exactly beyond the budget |
| `Runtime.AgentRuntime.ProcessResults` | runtime/runtime.py:512-587 | one step, message and event per result up to a write that raises; a round of failures alone spends the budget, any other resets it |
| `Runtime.AgentRuntime.ReviewCandidate` | runtime/runtime.py:306-384 | blank drafts fail, drafts without a critic are committed, unless writing them raises, others need a step for their critique |
| `Runtime.AgentRuntime.JudgeCandidate` | runtime/runtime.py:386-484 | the critique's five outcomes, with the context that the critic saw; which draft each of them answers with or rejects is `AnswerIsTheLastDraft` and `RunSays` |
| `Runtime.AgentRuntime.RejectCandidate` | runtime/runtime.py:355-384 | a rejection ends the run at the limit, otherwise becomes the carried revision |
| `Runtime.AgentRuntime.InsertSystemMessage` | runtime/runtime.py:837-846 | the notice goes right behind the leading system messages |
| `Runtime.AgentRuntime.EmitTerminalEvent` | runtime/runtime.py:613-640 | the end event and the answer it carries |
| `Runtime.AgentRuntime.BeginRun` | runtime/runtime.py:589-600 | prompt only into an empty window, then the user's message, and a fresh stream of events; if one of the writes raises the run never starts |
| `Messages.AppendPlain` | runtime/runtime.py:595-595 | a message that neither calls nor answers keeps a paired list paired |
| `Messages.AppendCalls` | runtime/runtime.py:254-256 | an assistant message with calls opens a round that owes each of its ids |
| `Messages.AppendAnswer` | runtime/runtime.py:531-531 | a tool message settles exactly the id it answers |
| `Messages.OpenRoundSettled` | runtime/runtime.py:303-304 | a round is paired again exactly when nothing is owed |
| `Messages.BlockSize` | memory/short_term.py:88-108 | the front block is an assistant message with all tool messages behind it, or one message |
| `Messages.InsertSystemPaired` | runtime/runtime.py:834-848 | inserting a system message behind the leading ones keeps a list paired |
| `ShortTerm.FeedIsBatch` | memory/short_term.py:45-86 | of any history without a negative count, adding one by one gives the longest suffix cut at block boundaries that fits with the system message, or the last block if none fits |
| `ShortTerm.AllStaysIffItFits` | memory/short_term.py:66-86 | of such a history nothing was evicted if and only if it fits as a whole |
| `ShortTerm.BatchIffNonNegative` | memory/short_term.py:45-86 | a counter gives the batch window on every history it can count and under every budget if and only if it counts no message below zero |
| `ShortTerm.NegativeCountBreaksBatch` | memory/short_term.py:75-83 | a concrete history on which a negative count makes the window differ from the batch window |
| `ShortTerm.TrimFindsBatchStart` | memory/short_term.py:66-86 | eviction from any start below which nothing fits ends at the batch start |
| `ShortTerm.BatchStartUnique` | memory/short_term.py:66-74 | the batch definition determines the window |
| `ShortTerm.BlockOfHistory` | memory/short_term.py:88-108 | a block owns exactly the tool messages behind its assistant message, so a cut at its end separates no answer from its call |
| `ShortTerm.ExactAdds` | memory/short_term.py:45-86 | while the total is the window's recount, an add raises exactly for a message that cannot be counted, and otherwise leaves the trimmed window with its recount |
| `ShortTerm.TrimKeepsPaired` | memory/short_term.py:76-83 | eviction keeps a paired window paired, whatever the running total and whether or not it raises |
| `ShortTerm.TrimKeepsOpen` | memory/short_term.py:76-83 | eviction in the middle of a round keeps what the round owes, likewise |
| `ShortTerm.TrimKeepsLast` | memory/short_term.py:74-80 | the newest message survives every trim, likewise |
| `ShortTerm.TrimSays` | memory/short_term.py:66-86 | any trim takes a front part off window and total alike; one that raises has lost, beyond that, a block with a message that cannot be counted |
| `ShortTerm.FeedSettledIsIdentity` | memory/manager.py:36-37 | re-adding a settled window without negative counts evicts nothing at any point |
| `ShortTerm.BufferMemory.AddMessage` | memory/short_term.py:45-49 | window, total and whether it raised are those of the specified add; since the last clear, it raises first for the first message that cannot be counted |
| `ShortTerm.BufferMemory.TrimWindow` | memory/short_term.py:66-86 | the loop computes the specified trim, with the total as it is kept, and raises when an evicted message cannot be counted |
| `ShortTerm.BufferMemory.CountTurnBlockSize` | memory/short_term.py:88-108 | the counted block is the front block of the rest |
| `ShortTerm.BufferMemory.Clear` | memory/short_term.py:59-64 | the window is emptied and the total restarts at the system message, if that can be counted |
| `ShortTerm.BufferMemory.Create` | memory/short_term.py:21-32 | there is a memory exactly if its system message can be counted, and it starts empty |
| `ShortTerm.BufferMemory.WindowIsBatch` | memory/short_term.py:66-86 | while nothing added since the last clear raised or counts below zero, the window is the batch window and the total its recount |
| `TokenCounter.BlankCallsBreakBatch` | memory/token_counter.py:27-32 | under every tokenizer that takes the roles, the code's own counter admits a history it can count whose window is not the batch window |
| `TokenCounter.TextHistoriesKeepTheirWindow` | memory/token_counter.py:21-36 | under the code's own counter, a history that can be counted and whose calls bring a name or arguments has the batch window, and saving and loading that window changes nothing |
| `TokenCounter.CountIsPositive` | memory/token_counter.py:21-36 | while every call brings a name or arguments every count that goes through is positive |
| `TokenCounter.BlankCallsCountDown` | memory/token_counter.py:28-32 | each nameless call takes one token off |
| `TokenCounter.EveryTextCounts` | memory/token_counter.py:13-36 | the count of a message is four, and the tokens of its role, content and of every call's name and arguments, less one per call |
| `TokenCounter.CountableExactly` | memory/token_counter.py:8-36 | a message can be counted exactly if the tokenizer takes each of these texts, and each call has a function with no object for arguments |
| `Manager.SaveLoadIdentity` | memory/manager.py:19-39 | a window without negative counts that went through save and load under the same budget is unchanged |
| `Manager.MemoryManager.GetOrCreate` | memory/manager.py:13-17 | one memory per session, created empty on first use, unless counting its system message raises |
| `Manager.MemoryManager.Save` | memory/manager.py:19-24 | stores the window of a cached session, fails otherwise |
| `Manager.MemoryManager.Load` | memory/manager.py:26-39 | the cached memory, or the stored window re-added message by message, or nothing; it raises, and nothing is cached, exactly if some stored message cannot be counted |
| `Manager.MemoryManager.DeleteSession` | memory/manager.py:41-44 | the session leaves cache and store |
| `Manager.MemoryManager.SaveAndReopen` | memory/manager.py:19-39 | a second manager over the same store gives back system message, window and total of a session in which no count raised or is negative; it raises exactly if the saved window cannot be counted |
| `LoopGuard.RepeatIffAllEqual` | runtime/loop_guard.py:57-71 | a repeat is reported exactly when the last calls of the limit's number exist and are equal |
| `Validator.ValidateOne` | tools/validator.py:65-194 | a call passes exactly when it is named, registered, routed, and its arguments are a JSON object that meets the schema; a violation carries its id and name and the first of these that is wrong; parser and schema check may raise |
| `Validator.Validate` | tools/validator.py:40-63 | the loop splits the calls and loses no id, or raises exactly if the check of some call does |
| `Validator.PartitionKeepsIds` | tools/validator.py:49-63 | as multisets, the ids of valid calls and violations are the ids of all calls, unless a check raises |
| `Validator.ValidCallsKeepOrder` | tools/validator.py:49-56 | the valid calls are the executable ones, in their order |
| `Validator.ViolationsKeepOrder` | tools/validator.py:49-63 | the violations are those of the other calls, in their order, each with the id and name of its call and the first thing wrong with it |
| `Executor.ExecuteCalls` | tools/executor.py:36-56 | one result per call, in order, unless some call raises |
| `Executor.ValidatedCallsNeverRaise` | tools/executor.py:59-102 | calls that passed the validator never make the executor raise, whatever the tools do |
| `Session.LeaseIsExclusive` | runtime/session_coordinator.py:45-75 | in every state of every run at most one task is inside the lease of a session, although entries come and go |
| `Session.EntryIsStable` | runtime/session_coordinator.py:77-98 | while a task holds or awaits a session's lock the table maps the session to that lock |
| `Session.LeasesAreAccounted` | runtime/session_coordinator.py:77-98 | the table holds exactly the sessions in use, and each reference count is the number of their tasks |
| `Session.RejectModeNeverBlocks` | runtime/session_coordinator.py:52-55 | in reject mode a reserved lock is free at once and nobody waits |
| `Session.WaitersAreServed` | runtime/session_coordinator.py:56-74 | a queued task always has a holder to wait for or a wake-up that can happen |
| `SessionAccess.RefusedExactlyWhenInUse` | runtime/session_coordinator.py:77-88 | in every run a task that enters is refused if and only if the coordinator rejects and some task uses the session; otherwise it holds a reference to the entry of whoever else uses it, and nobody else moves |
| `SessionAccess.LatecomersQueue` | runtime/session_coordinator.py:45-63 | a task that reserved gets in at once exactly when nobody is inside or waits, and otherwise waits behind all who do |
| `SessionAccess.FirstComeFirstServed` | runtime/session_coordinator.py:45-63 | over any run, who waits behind another stays behind it and cannot get in before it, as long as both wait |
| `SessionAccess.PlacesMove` | runtime/session_coordinator.py:56-75 | where the other steps take a task: in from the queue, out after the body or after giving up, away after giving back |
| `Session.RunKeeps` | runtime/session_coordinator.py:45-98 | the invariant behind these holds in every reachable state |
| `Session.StepKeeps` | runtime/session_coordinator.py:45-98 | every step keeps it: entering, acquiring, waking, giving up, leaving, giving back |
| `Session.DropKeeps` | runtime/session_coordinator.py:90-98 | giving a reference back removes the entry exactly with its last user |
| `Session.EnterKeeps` | runtime/session_coordinator.py:77-88 | reserving counts the task, creates an entry where there is none, or refuses, and keeps the invariant; who is refused is `RefusedExactlyWhenInUse` |
| `Session.SessionCoordinator.ReserveEntry` | runtime/session_coordinator.py:77-88 | a reservation is refused exactly in reject mode when the session's entry has a reference; otherwise that entry, or a new one, has one more |
| `Session.SessionCoordinator.GiveBack` | runtime/session_coordinator.py:90-98 | the table and the counts after a reference is given back |
| `WorkerSafety.ChecksNeverFire` | rag/process_embeddings.py:239-250 | in every reachable state a reply that can be read answers the pending request, so none of the client's checks fires; nor does the worker's generation check |
| `WorkerSafety.DeliveriesAreMatched` | rag/process_embeddings.py:252-262 | every delivered result carries its request's id and generation and one vector per text, of the dimension that worker announced |
| `Provenance.DeliveredIsWhatTheModelSaid` | rag/embedding_worker.py:176-235 | in every run each result that was handed out is, row by row, what the model put out for that very request, in the move of the worker that answered it |
| `RequestIds.RequestsHaveTheirOwnIds` | rag/process_embeddings.py:520-527 | any two requests of a run have different ids, the later one the higher |
| `RequestIds.NoStaleAnswer` | rag/process_embeddings.py:239-262 | in every reachable state what can be read is one answer to the request under way, whose id is above those of all results ever handed out |
| `WorkerSafety.ReuseIsClean` | rag/process_embeddings.py:374-381 | a worker is reused only alive, with its announced dimension on record and nothing in flight |
| `WorkerSafety.AtMostOneWorker` | rag/process_embeddings.py:480-493 | at most one process is alive, and it is the current one of the current generation |
| `WorkerSafety.ProcessesTakeTurns` | rag/process_embeddings.py:604-638 | a process is forgotten only when gone, and a new one appears only after all earlier ones are, under a higher generation |
| `WorkerSafety.CloseAllowsOneGeneration` | rag/process_embeddings.py:276-277 | after a close is requested at most one further generation starts |
| `WorkerSafety.ClosedStartsNothing` | rag/process_embeddings.py:308-308 | after the client is marked closed none does, and no process is created |
| `WorkerSafety.ReturnedCloseIsFinal` | rag/process_embeddings.py:267-346 | once any close returns normally there is no live worker, then or ever after |
| `WorkerSafety.RequestedCloseRefusesCalls` | rag/process_embeddings.py:370-372 | after a close is requested every later call fails its open check |
| `WorkerSafety.RunKeeps` | rag/process_embeddings.py:138-346 | the invariant behind these holds in every reachable state |
| `WorkerSafety.StepKeeps` | rag/process_embeddings.py:138-346 | every step of client, worker and system keeps it |
| `WorkerSafety.ReplyPassesChecks` | rag/process_embeddings.py:220-250 | under the invariant the reply at hand passes every check |
| `WorkerSafety.WhenClosedIsLeft` | rag/process_embeddings.py:330-334 | in every run the state CLOSED is left by exactly one kind of step, the cancellation of a close that waits for the lock |
| `WorkerSafety.ClosedStateCanBeLeft` | rag/process_embeddings.py:330-331 | a concrete run in which CLOSED is followed by STOPPING |
| `WorkerSafety.WhenReadyLosesItsProcess` | rag/process_embeddings.py:374-384 | in every run a READY client comes to have no process exactly when a call finds its worker gone |
| `WorkerSafety.WhenReadyStaysWithoutProcess` | rag/process_embeddings.py:383-384 | from there the client is left free, READY and without a process exactly by a cancellation while the dead worker's output is collected |
| `WorkerSafety.ReadyCanOutliveItsProcess` | rag/process_embeddings.py:383-384 | a concrete run that ends READY without a process |
| `WorkerStops.ForceKills` | rag/process_embeddings.py:604-632 | in every run whoever waits for a process after a kill waits for one that is ending, and a close that loses patience or is cancelled leaves none running |
| `EmbeddingWorker.Serve` | rag/embedding_worker.py:81-173 | READY first, then the k-th response answers the k-th line, with that line's own rows or its own error, up to the end of input, the first bad line or the first failed write, each with its exit code |
| `EmbeddingWorker.RunInference` | rag/embedding_worker.py:176-214 | whatever the model does, the response answers this request: a result exactly for rows that fit and can be sent, with the k-th vector the model's k-th row, and otherwise the error for what went wrong |
| `EmbeddingWorker.CoerceVectors` | rag/embedding_worker.py:217-235 | conversion succeeds exactly when there is one row of the right length per text, and keeps the rows |
| `ProcessEmbeddings.MovesWriteWhatServeWrites` | rag/embedding_worker.py:123-173 | the worker's moves in the state machine write READY and then, for each request in turn, the answer that the request loop gives: the model's own rows, or the error for what went wrong |
| `ProcessEmbeddings.MovesRejectWhatServeRejects` | rag/embedding_worker.py:154-164 | a request of another generation gets the loop's rejection, as the last thing written |
| `ProcessClient.ProcessEmbeddingClient.EmbedBatch` | rag/process_embeddings.py:147-265 | whatever others do at its awaits: the vectors returned are the last delivery and are, row by row, what the model put out for these very texts, in the dimension the current worker announced; a failed inference keeps the worker READY; after an error of the pipes it is not READY; nothing goes through once a close was requested; the lock is free again |
| `ProcessClient.ProcessEmbeddingClient.StartUp` | rag/process_embeddings.py:138-145 | a start that succeeds leaves a READY worker with a known dimension and idle pipes, and none succeeds once a close was requested |
| `ProcessClient.ProcessEmbeddingClient.Close` | rag/process_embeddings.py:267-346 | a close that returns leaves the client closed, with no process on record and none alive; one that does not has still closed it to further calls |
| `ProcessClient.ProcessEmbeddingClient.Receive` | rag/process_embeddings.py:220-262 | a reply that can be read is handed out, as the model's own rows for this request, or reports a failure; the client is READY with the same process either way, and the branch for a mismatch is dead |
| `ProcessClient.ProcessEmbeddingClient.TakeOrReplace` | rag/process_embeddings.py:374-388 | a worker is taken exactly when it is READY and alive, and then has a known dimension and idle pipes; otherwise it is stopped or a generation counted |
| `Planner.ValidateNoDependencyCycle` | runtime/planner.py:149-167 | accepts if and only if no dependency cycle exists; a topological order of all tasks or a cycle is the witness |
| `Planner.CheckTaskPlan` | runtime/planner.py:110-131 | a plan passes exactly when ids are unique, dependencies known and acyclic; each refusal names the first offending task and is justified |
| `Planner.OrderExcludesCycle` | runtime/planner.py:155-167 | a topological order and a cycle exclude each other |
| `Planner.StuckTasksHaveCycle` | runtime/planner.py:161-164 | tasks that all wait for one another contain a cycle |
| `Planner.FindReady` | runtime/planner.py:156-160 | the ready list holds exactly the tasks whose dependencies are resolved, once each |
| `Planner.CollectDependencies` | runtime/planner.py:150-153 | the map of remaining tasks is the dependency relation |
| `RouterRuns.CachedRoutingRefinesFresh` | tools/router.py:194-260 | over any sequence of routes with a provider that is a function of the text, whatever is routed is what embedding everything afresh gives, and the cache never exceeds its bound |
| `RouterRuns.CachedRouteIsFresh` | tools/router.py:212-260 | one route equals the cacheless one except on a provider failure, or exactly when the new texts push one of the requested texts out of the cache; refusals before that leave the cache unchanged |
| `RouteContent.RoutedSays` | tools/router.py:194-260 | whatever is routed over any run, from whatever the cache holds, is the choice by the embedder's own numbers for this query and these tools: ranked by descending similarity, ties as given, selected from the top down to the threshold and at most `top_k`; nothing for a blank query or no tools |
| `RouteContent.FreshRouteSays` | tools/router.py:212-260 | the same of a route that embeds everything afresh |
| `RouterRuns.RoomyCacheNeverTrips` | tools/router.py:238-240 | while all tool texts seen so far fit in the cache the invariant error cannot occur |
| `RouterRuns.SmallCacheTrips` | tools/router.py:230-240 | with a cache of two, a route for two tools and then for the first and a third raises it |
| `RouterRuns.ReachableCache` | tools/router.py:225-242 | after any run the cache is within its bound, without repeats, and holds what the provider says of texts seen |
| `RouterRuns.EmbeddingRouter.Route` | tools/router.py:194-260 | outcome and cache after a route are those of the specification |
| `RouterRuns.EmbeddingRouter.StoreVectors` | tools/router.py:230-234 | each new text goes to the end and the oldest keys leave while the cache is too big |
| `RouterRuns.EmbeddingRouter.ReadVectors` | tools/router.py:236-242 | the texts' vectors in order, each touched, up to the first one that is not there |
| `RouterCache.StoreFirstFacts` | tools/router.py:230-234 | new texts push out the oldest keys and never each other |
| `RouterCache.StoredKeys` | tools/router.py:230-238 | after storing, a requested text is there exactly when it was not pushed out |
| `RouterCache.MissingDecides` | tools/router.py:226-227 | embedding only the missing texts finds an invalid vector exactly when embedding all would |
| `Router.SelectionIsTopOfRanking` | tools/router.py:244-260 | all schemas are ranked by descending score, ties as given, and the selection is the top of it that reaches the threshold, at most `top_k` |
| `Router.ValidateVector` | tools/router.py:97-125 | a vector is accepted exactly when it is a non-empty list of finite numbers, not all zero, and then holds these numbers in order |
| `Router.CheckRequest` | tools/router.py:199-223 | what proceeds has usable schemas, unique names and fits the cache |
| `Ranking.RankIsRanked` | tools/router.py:250-250 | sorting gives the order by descending score and ascending index |
| `Ranking.RankedIsUnique` | tools/router.py:250-250 | that order is the only one of its entries |
| `Ranking.AtLeastIsPrefix` | tools/router.py:251-253 | filtering by threshold keeps a prefix of the ranking |
| `Stream.StreamReply` | llm/client.py:91-157 | the loop yields the text pieces in order and, at the first finish, the assembled calls; it fails on the first broken chunk or fragment |
| `Stream.ReadReply` | runtime/runtime.py:689-722 | the reader's message and events, up to the first finish |
| `Stream.InterleavingDoesNotMatter` | llm/client.py:101-148 | streams with the same fragments per index and the same text give the same message |
| `Stream.ReplyIsWhatWasEmitted` | runtime/runtime.py:689-720 | the message's text is the concatenation of the emitted tokens, its calls are those of the last event |
| `Stream.ReplyIsAllThatArrived` | llm/client.py:91-157 | the text is all content up to the first chunk with a finish, and the calls are made of all fragments that arrived until then |
| `StreamRuns.RunHeedsItsStream` | runtime/runtime.py:689-722 | the events of a pass that works with a streamed reply are, without a critic, exactly the reader's for that stream, token by token and then the calls, and with a critic none of them |
| `StreamRuns.HeededIsReceived` | runtime/runtime.py:706-745 | the draft of such a pass is the concatenation of its tokens, its calls are the assembled ones with their names and arguments, and a stream without a finish is a framework error |
| `Stream.AssembledIsOnePerIndex` | llm/client.py:113-141 | one call per index, ordered by index, with its last given id and name and all its argument pieces in order |
| `Stream.AddFragments` | llm/client.py:113-133 | merging fragments keeps every slot the assembly of its own index |
| `IndexRuns.StoresHoldLatest` | rag/pipeline.py:57-121 | after any calls, failed ones included, the vector store holds for each path exactly its latest chunks in order (which are the file, by `StoredIsSomeFile`), ids are unique, and the keyword index holds the same documents |
| `IndexedContent.IndexedContentIsTheFile` | rag/pipeline.py:57-121 | after a call that succeeds, the stores hold for its path, in order, one entry per piece of each page with text: the piece itself, its page, index and id, and the embedder's vector at that place; the keyword index holds the same texts |
| `IndexedContent.StoredIsSomeFile` | rag/pipeline.py:57-121 | after any calls, whatever is stored for a path is in this sense the file of one call that was indexed and that no later one got as far as to replace |
| `IndexedContent.ChunksAreThePieces` | rag/pipeline.py:67-89 | cutting makes one chunk of each piece of each page with text, in the order of pages and pieces |
| `IndexRuns.ReindexIsIdempotent` | rag/pipeline.py:60-61 | indexing the same file again, cut and embedded the same, changes nothing in stores and ledger |
| `IndexRuns.OthersUntouched` | rag/pipeline.py:96-99 | a call leaves every other document's chunks as they were |
| `IndexRuns.WhenACallFails` | rag/pipeline.py:64-113 | a call fails exactly on an unusable file, a failed embedding, or vectors that do not fit; never on ids |
| `IndexRuns.WhenADocumentIsLost` | rag/pipeline.py:91-113 | after any calls, a stored document is lost by the next one if and only if that replaces it by no chunks or by vectors the store refuses |
| `IndexRuns.RefusedReindexLosesTheDocument` | rag/pipeline.py:96-113 | a concrete file, indexed and then indexed again without vectors: refused, and the document is gone |
| `IndexRuns.SteadyServiceAlwaysIndexes` | rag/pipeline.py:57-121 | with one vector of one dimension per text, every file with text is indexed at any point of any run |
| `IndexRuns.RagPipeline.IndexPdf` | rag/pipeline.py:57-121 | result, stores and ledger after a call are those of the specification |
| `Indexing.StepKeepsInv` | rag/pipeline.py:57-121 | one call, whatever its outcome, keeps stores and ledger in step with the map of latest chunks |
| `Indexing.LedgerIsExact` | rag/pipeline.py:96-99 | the ledger of a path names exactly the stored entries of that path |
| `Indexing.NoIdIsTaken` | rag/vector_store.py:55-61 | the ids a call brings are taken by no other document |
| `Indexing.ClearKeepsInv` | rag/pipeline.py:96-99 | deleting by ledger removes one document from both stores and nothing else |
| `Indexing.AddKeepsInv` | rag/pipeline.py:101-119 | adding the chunks and writing the ledger restores the invariant |
| `Pipeline.ChunkIdIsInjective` | rag/pipeline.py:80-80 | path, page and index can be read back from a chunk id, colons in paths included |
| `Pipeline.ChunkIdsAreUnique` | rag/pipeline.py:67-89 | no id is minted twice for one document |
| `Pipeline.PagesAscend` | rag/loader.py:36-42 | page numbers are distinct and ascend |
| `Pipeline.LoadPdf` | rag/loader.py:16-48 | the pages with text under their place in the file, or the reason why there are none |
| `Pipeline.CutPages` | rag/pipeline.py:67-89 | the nested loops give the chunks page by page, which are the pieces of the file by `ChunksAreThePieces` |
| `VectorStore.FaissVectorStore.Add` | rag/vector_store.py:41-82 | the aligned sequences grow together, or stay as they are with the first applicable error |
| `VectorStore.AddErrorSays` | rag/vector_store.py:41-82 | a batch is taken exactly if it is empty or its numbers, ids and dimensions go with the store; a refusal says what is amiss |
| `VectorStore.FaissVectorStore.Delete` | rag/vector_store.py:104-123 | exactly the named entries go, order is kept, and the index is rebuilt or dropped with the last one |
| `VectorStore.FaissVectorStore.Update` | rag/vector_store.py:125-129 | delete then add, so a refused add leaves the old entries gone |
| `VectorStore.UpdateLosesExactlyWhenRefused` | rag/vector_store.py:125-129 | an update loses an id that was stored if and only if its add is refused and some stored entry was to be updated |
| `VectorStore.RefusedUpdateLosesTheEntry` | rag/vector_store.py:125-129 | one stored vector, updated with no vectors: refused, and gone |
| `VectorStore.PickIsWithout` | rag/vector_store.py:110-117 | picking the kept positions from the aligned sequences is filtering whole entries |
| `VectorStore.WithoutMembers` | rag/vector_store.py:104-117 | what remains is what was there and is not named |
| `KeywordIndex.Bm25Index.Add` | rag/hybrid.py:36-43 | all four dicts get the document, its text also in its metadata |
| `KeywordIndex.Bm25Index.Delete` | rag/hybrid.py:110-115 | all four dicts lose exactly the named documents |
| `KeywordIndex.PutKeepsAligned` | rag/hybrid.py:36-43 | adding keeps the dicts about the same documents |
| `KeywordIndex.DropKeepsAligned` | rag/hybrid.py:110-115 | deleting does too |
| `Text.LastColonSplits` | rag/pipeline.py:80-80 | a text that ends in a colon and a colon-free part determines both |
| `Text.DecimalIsInjective` | rag/pipeline.py:80-80 | different numbers print differently |
| `Text.DecimalReadsBack` | rag/pipeline.py:80-80 | a printed number has digits only, no leading zero, and its own value |
| `Hybrid.FoundByBothComesFirst` | rag/hybrid.py:118-162 | with lists of at most k + 1 distinct documents, one that both lists found precedes every one that only one found |
| `Hybrid.LongerListsBreakIt` | rag/hybrid.py:149-153 | with k + 2 documents it can fail, for every k |
| `Hybrid.RrfFuse` | rag/hybrid.py:118-162 | the hits are the top of the fused ranking, each with its fused score and the dense metadata when there is one |
| `Hybrid.FusedRanksUnion` | rag/hybrid.py:127-153 | the ranking names every document of either list once, by descending fused score, ties by first sight |
| `Hybrid.FirstSeenAt` | rag/hybrid.py:127-153 | the order that ties keep is that of first sight, dense list first |
| `Hybrid.ShownSays` | rag/hybrid.py:127-138 | a document shows the metadata of its last dense hit, or of its first sparse one if the dense list lacks it |
| `Hybrid.ListScoreAt` | rag/hybrid.py:127-147 | a list without repeats gives a document the score of its rank |
| `Hybrid.TwoBeatOne` | rag/hybrid.py:130-142 | two ranks among the first k + 1 are worth more than any single one |

## Left out

- HTTP, the OpenAI client, its retries, SQLite, PDF parsing, FAISS search, BM25 scores, sentence-transformers and tiktoken: third-party behaviour, stood in for by parameters.
- JSON text, pydantic checks, UUID syntax, JSON Schema, numpy conversion to 32-bit floats: the model starts from parsed values and exact reals.
- Real time, durations, logging, trace ids, event handlers, `metadata` and `error_info`: only the sequence of emitted events and the error's source are kept.
- The shape checks on the planner's JSON (lines 60 to 109 of `runtime/planner.py`): single-branch checks on single items.
- `ask`, the reranker, `chunk_text`, `count_messages`, the critique parser, CLI, prompts, registry, shell, file, network and vision tools: plumbing or easy members.
- ProcessEmbeddings.Do: the waiting for the operation lock itself is not modelled, only what its owner and a pending close do.
- Ids, names and contents of messages that are not text, which the types of the chat API exclude: only arguments may be any value.
- ProcessClient.ProcessEmbeddingClient.EmbedBatch: callers that wait for the lock have no record of their own; what they may do is any list of moves.
- Stream.StreamReply: the lazy start of the request and its retries are not modelled; the stream is the list of chunks that arrive.
- RouterRuns.EmbeddingRouter.Route: runs under the route lock as one step; concurrent routes are serialized by that lock in the source.
- IndexRuns.RagPipeline.IndexPdf: the stores start empty in the theorems about runs; a store that was filled by other means is not covered.
- Session: the lease as an `async with` body is the state machine's steps; only reserving and releasing are also given as class methods.
- Hybrid.RrfFuse: `k` is a natural number; a negative one, which can divide by zero, is not modelled.
