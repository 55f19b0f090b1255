# salmon-loop: verified models of its stateful protocols

This project models the stateful cores of the repository in Dafny and proves what they promise
over every input, every run and every interleaving. One module models one source file, or one
aspect of it. Where the source mutates fields, a class with those fields is proved to act exactly
as a function on values (`View() == F(old(View()))`), and the theorems are about that function over
unbounded runs.

* **Responses stream** (`ResponsesTrace`, `ResponsesCore`, `ResponsesScript`, `ResponsesRuns`,
  `ResponsesState`, `CanonicalApplier`, `EncoderCore`, `StreamEncoder`, `ReporterCore`,
  `OpenAiReporter`). `ResponsesTrace` is an independent client: it accepts only traces of a strict
  per-item grammar and rebuilds the items from the events. The main result is that every run of the
  state machine emits a trace that this client accepts, and that what it rebuilds is the state: one
  item per output index, owned by exactly one text stream or call. And both are what the calls
  said: `ResponsesScript` tells, without any state, which calls a stream heeds, what text they
  leave and which events they give, and `ResponsesRuns` proves that every run does exactly this.
  The class keeps output items and their content arrays as heap objects edited in place; its
  `Valid` says that no emitted clone, nor the content of one, is an object of the output or is ever
  altered by a later edit, so a clone that shared its content array would not verify. Encoder and
  reporter add numbering, prologue and ending.
* **Async queue** (`QueueCore`, `AsyncQueue`). A step model of calls, microtasks, settling tasks and
  their `finally`: conservation, single slot, order, bound and draining.
* **Syntax trees** (`SyntaxTree`, `SyntaxValidator`, `SyntaxGuard`). The cursor is a zipper; the
  nested retracing loops equal the recursive preorder.
* **Import closure** (`Dependencies`). The limited breadth-first search equals a prefix of the
  unlimited one, whose levels are exactly the import distances, in order of first mention.
* **Config and hashing** (`ConfigKeys`, `FileFormat`, `StableHash`, `Sorting`). An exact round trip,
  the spelling of keys word by word, an exact canonical form, and a stable sort.
* **Allowlist** (`AllowlistRules`, `AllowlistStats`, `AllowlistCache`). Decision laws, the recency
  refinement of the counters, and linearizable cached loads racing with serialised edits.
* **Checkpoints** (`ManifestStore`, `ManifestGc`, `CheckpointService`, `ManifestLock`,
  `CheckpointRaces`). The manifest invariant, exact and idempotent garbage collection, service runs,
  absence of lost updates among processes that share the lock file, and creations that race with
  collections.

`Options`, `JsonValues` and `Sequences` hold what several models share: absent values, nested values,
and prefixes and removals of lists. Clocks, random ids, file contents and library results
are parameters.

Some natural laws are false of the code. The model keeps the code as it is, states exactly when the
law holds, and gives an input at which it fails:

* The response id is tested for truthiness, so with an empty first id the prologue repeats
  (`CreatedOnce`, `EmptyIdRepeats`) and a session ends without a final event (`SessionEndsOnce`,
  `EmptyIdNeverEnds`).
* Key conversion loses keys that are not well formed: adjacent capitals, and capitals outside ASCII
  next to an ASCII one (`KeyRoundTrip`, `AdjacentCapitalsAreLost`, `OtherCapitalsAreLost`, and for whole
  configs `RoundTrip`, `AdjacentCapitalsConfig`).
* Two targets with the same path, reason and confidence but another difference make the target form
  depend on their order (`TargetFormIsInvariant`, `ChurnOrderShows`).
* Persisting a rule and removing it again does not always restore the store
  (`PersistRemoveRestores`, `PersistRemoveCanChange`).
* Deleting a checkpoint may leave a session pointing at one that was collected before
  (`DeleteKeepsCurrent`, `DeleteCanDangle`).
* An unchanged file is rejected by the scope check if two of its top-level nodes share a name and
  differ in text (`UnchangedTreeAccepted`, `OverloadsRejected`).
* Manifest updates can be lost although no process exits. With a lock file that never gets older than
  `maxAge` and probes that take at most `delay`, no update is lost in any run if and only if the two
  add up to at most twice the stale age (`SafeExactlyIf`, `TornLockLosesUpdate`).
* A heartbeat that lands after the lock file was unlinked leaves a lock file without an owner;
  without such a heartbeat there is none (`LockIsFreed`, `LateBeatOrphans`). If its stamp is whole it
  stays at any age as long as the stamp's process lives, and no call gets the lock again
  (`StuckForGood`). If it is torn, the first attempt after twice the stale age takes it away
  (`TornOrphanGoes`). What one attempt takes away is exactly known (`AttemptClearsExactlyIf`).
* A load whose attempt to save the cache fails returns an empty allowlist, and an edit after such a
  load drops all other tools (`LoadsAreLinearizable`, `EditKeepsOthers`, `LostLoadDropsOthers`).
* Creating a checkpoint in a session takes two edits of the manifest. A collection in between removes
  the new checkpoint if it is older than the cutoff, and the session then names a checkpoint that is
  not stored; creations and collections alone never fail otherwise (`CurrentStoredExactlyIf`,
  `CreateCanDangle`).
* With `drop_oldest` and size 0 the queue still holds one entry (`WaitingBound`, `SizeZeroHoldsOne`).

`dafny verify dfyconfig.toml` checks the whole project.

## Model

| member | source | states |
|---|---|---|
| ResponsesTrace.PerItemGrammar | src/cli/headless/openai-responses-state.ts:83-356 | Grammar of one output index at every position of an accepted trace: `added` first and unique, `content_part.added` at most once and before any text event, each `*.done` of a message at most once, nothing after `output_item.done` |
| ResponsesTrace.FlagsAreCounts | src/cli/headless/openai-responses-state.ts:124-252 | The client's flags are exact counts of the events received for that index, and an index it does not know received none |
| ResponsesTrace.PrefixAccepted | src/cli/headless/openai-responses-state.ts:83-356 | Every prefix of an accepted trace is accepted, so the client never has to reject in the middle |
| ResponsesTrace.DoneMessageHasPart | src/cli/headless/openai-responses-state.ts:228-252 | A message is never reported done without its content part having been announced |
| ResponsesTrace.DoneItemsAreFrozen | src/cli/headless/openai-responses-state.ts:228-252 | Whatever follows `output_item.done`, the client's copy of that item never changes |
| ResponsesCore.TextSlot | src/cli/headless/openai-responses-state.ts:124-252 | What a known text stream's state, output item and client copy have in common in every sound state; in particular the item is a message with at most one part |
| ResponsesCore.StepSound | src/cli/headless/openai-responses-state.ts:83-356 | Every call keeps the refinement between emitted trace, output array and both index maps |
| ResponsesCore.RunSound | src/cli/headless/openai-responses-state.ts:83-356 | The refinement holds after every sequence of calls |
| ResponsesCore.SoundRebuilds | src/cli/headless/openai-responses-state.ts:83-356 | The refinement invariant means that every index is rebuilt: one owner, whose text, arguments and status the client's item shows |
| ResponsesCore.ReplayRefinement | src/cli/headless/openai-responses-state.ts:83-356 | After any calls, the replayed client has one item per output index, and its text, arguments and status are those of the one stream or call that owns the index; a done item in `output` equals the client's copy |
| ResponsesCore.OneOwnerPerIndex | src/cli/headless/openai-responses-state.ts:94-111 | Distinct streams and calls own distinct output indices |
| ResponsesCore.GuardsNeverFire | src/cli/headless/openai-responses-state.ts:124-252 | In every reachable state the wrong-type and missing-item guards are false |
| ResponsesCore.DoneSlotsStored | src/cli/headless/openai-responses-state.ts:238-247 | The text last written back by a done call is the final text of a completed item |
| ResponsesCore.StepAppends | src/cli/headless/openai-responses-state.ts:83-356 | A call only ever appends to the emitted trace |
| ResponsesCore.RunAppends | src/cli/headless/openai-responses-state.ts:83-356 | Later calls extend the trace of earlier ones |
| ResponsesCore.CompletedOutputIsFrozen | src/cli/headless/openai-responses-state.ts:228-252 | A completed item of the output array stays as it is whatever is called later |
| ResponsesRuns.TraceIsScript | src/cli/headless/openai-responses-state.ts:83-356 | The trace of every run, event by event, is a function of the calls alone |
| ResponsesRuns.TextIsTold | src/cli/headless/openai-responses-state.ts:83-252 | A stream is known exactly if it was called. Its text, and what the client shows, is the text given by the first heeded call that says it is final, followed by the deltas since, or all deltas; role and item id come with its first call; every flag tells whether such a call was heeded; no call is heeded after the one that finishes the message |
| ResponsesRuns.DeltasAreReported | src/cli/headless/openai-responses-state.ts:150-168 | The deltas reported at a stream's index are exactly those passed for it, in order, until its message is finished |
| ResponsesRuns.ArgumentsAreTold | src/cli/headless/openai-responses-state.ts:258-356 | A function call is known exactly if it was started. Its arguments, and what the client shows, are those given last followed by the deltas since; name and item id are those it was started with |
| ResponsesRuns.OutputInOrder | src/cli/headless/openai-responses-state.ts:94-111 | The output lists streams and function calls in the order in which they were first called or started |
| ResponsesRuns.OutputShowsLastDone | src/cli/headless/openai-responses-state.ts:170-247 | The output holds a message for every stream and a function call for every call, in order, with the text or arguments last reported done there; deltas since are not in it |
| ResponsesRuns.OutputTextIsShown | src/cli/headless/openai-responses-state.ts:68-77 | The output text is the text last reported done of every message, in output order, and nothing of function calls |
| ResponsesState.OpenAiResponsesState.CloneOutputItem | src/cli/headless/openai-responses-state.ts:38-55 | A clone is a new object with a new content array and the same value |
| ResponsesState.OpenAiResponsesState.EnsureMessage | src/cli/headless/openai-responses-state.ts:83-118 | A new stream gets the next output index and one `added` event with a clone; a known stream gets nothing. The new state is that of the value model; every clone ever handed out still shows what was emitted, and neither it nor its content array belongs to `output` |
| ResponsesState.OpenAiResponsesState.EnsureTextPart | src/cli/headless/openai-responses-state.ts:124-148 | Opens the message and pushes its single part into the content array at most once per stream and never on a done item; the new state is that of the value model and all earlier clones and their contents are unchanged |
| ResponsesState.OpenAiResponsesState.WritePart | src/cli/headless/openai-responses-state.ts:182-184 | Pushing or replacing the only part of one message in place changes that message to the value with the part, and no other item and no clone |
| ResponsesState.OpenAiResponsesState.AppendTextDelta | src/cli/headless/openai-responses-state.ts:150-168 | Adds the delta to the stream and emits it unless the item is done, even after the text was reported done; the stored item is not refreshed, so `output` lags |
| ResponsesState.OpenAiResponsesState.DoneOutputText | src/cli/headless/openai-responses-state.ts:170-198 | The final text, if given, replaces the streamed one, is written into the content array in place and reported once; earlier clones keep the text they showed |
| ResponsesState.OpenAiResponsesState.DoneContentPart | src/cli/headless/openai-responses-state.ts:200-226 | The current text is written into the content array in place and the part reported done once; earlier clones keep the text they showed |
| ResponsesState.OpenAiResponsesState.DoneMessageItem | src/cli/headless/openai-responses-state.ts:228-252 | Writes the current text into the content array, completes the item in place and announces it with a clone that shares neither, once |
| ResponsesState.OpenAiResponsesState.FinishText | src/cli/headless/openai-responses-state.ts:254-260 | Text, part and item are reported done, in this order, each at most once over the life of the stream |
| ResponsesState.OpenAiResponsesState.StartFunctionCall | src/cli/headless/openai-responses-state.ts:266-300 | A new call id gets the next output index and one `added` event with a clone; a known one gets nothing |
| ResponsesState.OpenAiResponsesState.AppendFunctionCallArgs | src/cli/headless/openai-responses-state.ts:302-314 | Adds to the arguments of an open call and emits the addition; unknown and done calls emit nothing |
| ResponsesState.OpenAiResponsesState.FinishFunctionCallArgs | src/cli/headless/openai-responses-state.ts:316-336 | Replaces the arguments in call state and item and reports them, as often as called until the call is done |
| ResponsesState.OpenAiResponsesState.FinishFunctionCall | src/cli/headless/openai-responses-state.ts:338-356 | Completes the call in place with its final arguments and announces it with a clone, once |
| ResponsesState.OpenAiResponsesState.CollectOutputText | src/cli/headless/openai-responses-state.ts:68-77 | The text of all message parts in output order |
| CanonicalApplier.ParseInvertsFormat | src/core/streaming/canonical/function-call-item-id.ts:1-12 | Parsing a string item id gives a call id exactly if formatting that non-empty call id gives the item id |
| CanonicalApplier.CallEventsMean | src/core/streaming/canonical/responses-event-emitter.ts:139-204 | The events a producer makes for a function call ask for its start, its argument deltas in order, its final arguments and its end |
| CanonicalApplier.MessageEventsMean | src/cli/headless/openai-responses-canonical-applier.ts:36-107 | Each event of a text message asks for the operation of its name, on the stream it came from |
| CanonicalApplier.MalformedAsksNothing | src/cli/headless/openai-responses-canonical-applier.ts:21-107 | An event asks for nothing exactly if it lacks a field it needs or is of another type |
| CanonicalApplier.OpenAiResponsesCanonicalApplier.Apply | src/cli/headless/openai-responses-canonical-applier.ts:13-111 | Every canonical event, malformed ones included, acts as the one operation that `Meaning` assigns to it; it throws exactly if it is an arguments event whose item id is truthy but no string, and then leaves the state as it was |
| EncoderCore.RunSequenced | src/cli/headless/openai-stream-encoder.ts:81-210 | Over any calls: lines are numbered consecutively, begin with the prologue, carry exactly the emitted trace, and `created` appears as often as a start took effect |
| EncoderCore.SequenceNumbers | src/cli/headless/openai-stream-encoder.ts:203-209 | The k-th line of any run carries sequence number k |
| EncoderCore.Prologue | src/cli/headless/openai-stream-encoder.ts:103-133 | Any output begins with created and in_progress showing the same response |
| EncoderCore.PrologueShows | src/cli/headless/openai-stream-encoder.ts:103-133 | Nothing is written before an id is offered; the first lines show the id and the time, in whole seconds, of the first call that offered one, and an empty response in progress |
| EncoderCore.CompleteTells | src/cli/headless/openai-stream-encoder.ts:143-171 | Completing writes one line with the whole output: completed without an error, or failed with the message given and the code it maps to |
| EncoderCore.CrashTells | src/cli/headless/openai-stream-encoder.ts:173-186 | A crash writes the error and then a failed response with the same message |
| EncoderCore.UsageErrorTells | src/cli/headless/openai-stream-encoder.ts:188-201 | A usage error shows its code, or the default, and fails the response with the mapped code and the same message |
| EncoderCore.CreatedOnce | src/cli/headless/openai-stream-encoder.ts:103-133 | The stream is announced at most once if and only if it is asked to start at most once or the first id offered is not empty |
| EncoderCore.EmptyIdRepeats | src/cli/headless/openai-stream-encoder.ts:103-133 | Two starts that are offered an empty id announce the stream twice |
| EncoderCore.WireRefinement | src/cli/headless/openai-stream-encoder.ts:135-141 | The lines on the wire are accepted by the strict client, which rebuilds the state's output from them |
| EncoderCore.RunIsOps | src/cli/headless/openai-stream-encoder.ts:135-141 | Over any calls the state has applied exactly the meanings of the events pushed after a non-empty id was offered, in order |
| StreamEncoder.OpenAiStreamEncoder.Start | src/cli/headless/openai-stream-encoder.ts:103-133 | Announces the response, unless a non-empty id is already in force; the returned lines are exactly those added |
| StreamEncoder.OpenAiStreamEncoder.PushResponsesEvent | src/cli/headless/openai-stream-encoder.ts:135-141 | Before a start nothing happens; afterwards the lines returned are the events the state emitted, numbered on from the last line. It throws exactly if it is running and applying the event throws, and then writes nothing |
| StreamEncoder.OpenAiStreamEncoder.Complete | src/cli/headless/openai-stream-encoder.ts:143-171 | One final line with the status, the mapped error code and the text collected from the output objects; none before a start |
| StreamEncoder.OpenAiStreamEncoder.Crash | src/cli/headless/openai-stream-encoder.ts:173-186 | Starts if needed, then an error line and a failed response with the same message |
| StreamEncoder.OpenAiStreamEncoder.UsageError | src/cli/headless/openai-stream-encoder.ts:188-201 | Starts if needed, then an error line with the given or default code and a failed response with the mapped one |
| StreamEncoder.OpenAiStreamEncoder.Sequence | src/cli/headless/openai-stream-encoder.ts:203-205 | Numbers the given bodies consecutively from the current number |
| ReporterCore.OpenedNeutral | src/cli/reporters/openai-stream.ts:30-53 | Before the end of a session no completed or failed line is written, whatever the events |
| ReporterCore.SessionEndsOnce | src/cli/reporters/openai-stream.ts:30-73 | Exactly one completed or failed line, as the last one, if and only if the response id in force is not empty; none otherwise |
| ReporterCore.SessionEndTold | src/cli/reporters/openai-stream.ts:55-73 | With a non-empty id in force, the last line is a completed response without an error exactly if the session finished successfully; otherwise a failed one with the reason and the mapped code, after a failure preceded by an error line with the same message |
| ReporterCore.OpenedRemembers | src/cli/reporters/openai-stream.ts:34-53 | The reporter remembers exactly whether a text delta was streamed, and the content of the last report |
| ReporterCore.LastReportMeans | src/cli/reporters/openai-stream.ts:34-40 | The last report is the content of the last assistant message of the REPORT step |
| ReporterCore.NoReportAfterText | src/cli/reporters/openai-stream.ts:60-66 | After streamed text, or without a report, finishing adds nothing to the output |
| ReporterCore.EmptyIdNeverEnds | src/cli/reporters/openai-stream.ts:30-73 | With an empty response id a successful session writes no completed or failed line |
| ReporterCore.SessionIsRun | src/cli/reporters/openai-stream.ts:30-73 | Every session is the encoder run of exactly the calls its events and its ending ask for: the start, one push for each responses event, the last report unless text was streamed, and the end |
| ReporterCore.ReportAddsMessage | src/cli/reporters/openai-stream.ts:80-93 | The four report events add exactly one finished message with the report text to an unused report stream |
| ReporterCore.ReportIsLastText | src/cli/reporters/openai-stream.ts:34-69 | With no text delta and an unused report stream, a successful finish ends with a completed response whose output text is the text so far followed by the last REPORT text |
| OpenAiReporter.OpenAiStreamReporter.OnEvent | src/cli/reporters/openai-stream.ts:34-53 | A REPORT message is only remembered; a responses event is forwarded and a text delta noted; anything else is ignored. It throws exactly if forwarding throws |
| OpenAiReporter.OpenAiStreamReporter.OnFinish | src/cli/reporters/openai-stream.ts:55-69 | Writes the remembered report only if no text was streamed, then the one final line |
| OpenAiReporter.OpenAiStreamReporter.OnError | src/cli/reporters/openai-stream.ts:71-73 | Writes an error line and a failed response, starting the response if needed |
| OpenAiReporter.RunSession | src/cli/reporters/openai-stream.ts:19-78 | A whole session run on the objects writes exactly the lines of the value model, numbered from zero, and ends once exactly if the id in force is not empty |
| QueueCore.ExactlyOnePlace | src/cli/utils/asyncQueue.ts:42-142 | In every reachable state each submission is waiting, running or settled exactly once, and was started exactly if it runs or ran to its end |
| QueueCore.SettledAsTold | src/cli/utils/asyncQueue.ts:57-66 | Over every run a promise is fulfilled or rejected by its task exactly if that task was in flight when it ended so, rejected by overflow exactly if it was the one refused or farthest from the end pushed to, and rejected by a clear exactly if the clear found it waiting |
| QueueCore.SingleSlot | src/cli/utils/asyncQueue.ts:47-68 | At most one promise chain is in flight, and `isProcessing` holds exactly then |
| QueueCore.NoOvertaking | src/cli/utils/asyncQueue.ts:91-129 | Entries added by `enqueue` start in the order they were added, whatever `enqueueFront`, drops and clears do |
| QueueCore.WaitingLine | src/cli/utils/asyncQueue.ts:91-129 | Waiting entries stand in one order: those added at the front, newest first, before all others, oldest first |
| QueueCore.WaitingBound | src/cli/utils/asyncQueue.ts:71-89 | Waiting length is at most `maxSize`, and at most one for size 0 with `drop_oldest` |
| QueueCore.SizeZeroHoldsOne | src/cli/utils/asyncQueue.ts:77-109 | With size 0 and `drop_oldest` one entry does wait |
| QueueCore.PausedStartsNothing | src/cli/utils/asyncQueue.ts:42-46 | While paused no step but a resume starts anything |
| QueueCore.PausedAsAsked | src/cli/utils/asyncQueue.ts:144-154 | After any run the queue is paused exactly if the last pause or resume was a pause; only then does a resume do anything, and it schedules a `processNext` |
| QueueCore.StepKeepsInv | src/cli/utils/asyncQueue.ts:29-166 | Every step keeps conservation, slot, order, bound, observer accuracy, and that unhindered waiting work has a `processNext` scheduled |
| QueueCore.Reachable | src/cli/utils/asyncQueue.ts:29-166 | The invariant holds in every state any run reaches |
| QueueCore.InternalStepsUseWork | src/cli/utils/asyncQueue.ts:42-69 | Every internal step decreases the work left |
| QueueCore.QuiescentIsDrained | src/cli/utils/asyncQueue.ts:42-69 | An unpaused queue with no internal step left is empty, idle and has settled every submission |
| QueueCore.EveryScheduleDrains | src/cli/utils/asyncQueue.ts:42-69 | With no further calls and unpaused, every schedule is at most as long as the work left and, when it cannot go on, has settled every submission |
| AsyncQueue.AsyncQueueControls.ProcessNext | src/cli/utils/asyncQueue.ts:42-69 | Starts the head of the line if neither paused nor busy; announces the state unless busy |
| AsyncQueue.AsyncQueueControls.EnforceCapacity | src/cli/utils/asyncQueue.ts:71-89 | Drops at the right end, refuses, or accepts, as strategy and size say |
| AsyncQueue.AsyncQueueControls.Enqueue | src/cli/utils/asyncQueue.ts:91-109 | Adds a submission at the back, or refuses it, or drops the head for it, with the announcement and microtask of each case |
| AsyncQueue.AsyncQueueControls.EnqueueFront | src/cli/utils/asyncQueue.ts:111-129 | Adds a submission at the front, or refuses it, or drops the last entry for it |
| AsyncQueue.AsyncQueueControls.Clear | src/cli/utils/asyncQueue.ts:131-142 | Rejects every waiting entry in order, by a draining loop, and answers their number |
| AsyncQueue.AsyncQueueControls.Pause | src/cli/utils/asyncQueue.ts:144-147 | Stops further starts and announces it; a running chain stays in flight |
| AsyncQueue.AsyncQueueControls.Resume | src/cli/utils/asyncQueue.ts:149-154 | Only a paused queue is resumed, with one announcement and one scheduled `processNext` |
| AsyncQueue.AsyncQueueControls.OnSettled | src/cli/utils/asyncQueue.ts:57-63 | A running chain settles its own submission once |
| AsyncQueue.AsyncQueueControls.OnFinally | src/cli/utils/asyncQueue.ts:64-68 | Frees the slot, announces it and starts the next entry |
| AsyncQueue.AsyncQueueControls.Drain | src/cli/utils/asyncQueue.ts:42-69 | Left alone, the event loop comes to rest; if not paused it has settled every submission once, and every promise it settled as its own task ended |
| AsyncQueue.PlayedRuns | src/cli/utils/asyncQueue.ts:29-166 | Any schedule, leaving out steps that are not enabled, is a run of the step model |
| AsyncQueue.RunSchedule | src/cli/utils/asyncQueue.ts:29-166 | Any schedule performed on a new queue object goes through the states of a run and keeps the invariant; afterwards it comes to rest as `Drain` says; what was settled while coming to rest was settled as its own task ended |
| SyntaxValidator.CheckSyntaxErrors | src/core/ast/validator.ts:8-55 | The nested cursor loops stop, visit the nodes exactly in preorder, and return exactly the recursive list: they report exactly the ERROR and the missing nodes, and nothing exactly if there are none |
| SyntaxValidator.Retrace | src/core/ast/validator.ts:38-51 | Climbing leaves exactly the unvisited rest of the preorder ahead, or reaches the root with nothing ahead |
| SyntaxValidator.ErrorsArePreorder | src/core/ast/validator.ts:20-34 | The recursive list of errors is the preorder list filtered |
| SyntaxValidator.ErrorsReport | src/core/ast/validator.ts:26-33 | The entries are those of exactly the ERROR and the missing nodes, in preorder, each with its node's row, column and text, and of type ERROR exactly if that is the node's kind; there are none exactly if there is no such node |
| SyntaxGuard.AcceptsIffNoneBroken | src/core/ast/guard.ts:64-84 | The recursive check accepts exactly the trees in which no node of the preorder is an error node |
| SyntaxGuard.ValidatorAgreesWithGuard | src/core/ast/guard.ts:64-84 | The check accepts exactly if the cursor walk reports no ERROR entry and no other node claims `isError` |
| SyntaxGuard.GetTopLevelNodes | src/core/ast/guard.ts:6-22 | One cursor pass over the root's children returns exactly them, in order |
| SyntaxGuard.ValidateScopeIntegrity | src/core/ast/guard.ts:90-131 | The map-based loop gives the judgement of the first original node that was removed or modified |
| SyntaxGuard.JudgeAllOk | src/core/ast/guard.ts:106-131 | Accepted exactly if every named top-level node but the target is kept with its text |
| SyntaxGuard.VerdictMeans | src/core/ast/guard.ts:90-131 | What each verdict says: a tree is missing, the patched tree has an error node, or a named original node other than the target is gone or has another text |
| SyntaxGuard.UnchangedTreeAccepted | src/core/ast/guard.ts:90-131 | An unchanged tree is accepted exactly if it is well formed and equally named top-level nodes share their text |
| SyntaxGuard.OverloadsRejected | src/core/ast/guard.ts:90-131 | A well-formed unchanged tree with two overloads of one name is rejected |
| Dependencies.FindFileDependencies | src/core/context/dependencies.ts:15-53 | The three nested loops return the first `maxFiles` entries of the unlimited search to the effective depth |
| Dependencies.ExpandFrontier | src/core/context/dependencies.ts:35-46 | One level of the loop extends the results as the unlimited expansion does, up to the limit |
| Dependencies.TakeDependencies | src/core/context/dependencies.ts:39-45 | The inner loop takes over unseen dependencies in order, up to the limit |
| Dependencies.FoundNoDuplicates | src/core/context/dependencies.ts:41-43 | No file is found twice |
| Dependencies.FoundIsReachable | src/core/context/dependencies.ts:32-50 | The unlimited search to depth d finds exactly the files at the end of an import chain of length 1 to d |
| Dependencies.LevelIsDistance | src/core/context/dependencies.ts:32-50 | What level k adds is exactly at import distance k |
| Dependencies.DistancesAscend | src/core/context/dependencies.ts:32-50 | Results are in nondecreasing distance |
| Dependencies.FoundAsMentioned | src/core/context/dependencies.ts:32-50 | Files are found in the order in which they are first mentioned when one reads the imports of the file itself and then of the files found, in that order |
| Dependencies.DepthPrefix | src/core/context/dependencies.ts:32-50 | A shallower search is a prefix of a deeper one |
| Dependencies.ClosureIsStable | src/core/context/dependencies.ts:48-49 | Stopping at an empty frontier loses nothing |
| Dependencies.ResultMeaning | src/core/context/dependencies.ts:15-53 | The result is duplicate-free, within the limit, in range, and complete if below the limit |
| Dependencies.LimitsTaken | src/core/context/dependencies.ts:21-22 | Depth and file limit in range are taken as they are, others are moved to the nearest end, absent ones are 1 and 1000 |
| ConfigKeys.KeyRoundTrip | src/core/config/file-format.ts:13-21 | A key survives camel to snake and back if and only if every ASCII capital directly follows an ASCII lower-case letter or digit, no underscore is directly followed by a letter or digit, and, if there is an ASCII capital at all, every character outside ASCII is its own lower case |
| ConfigKeys.CamelCaseIsWellFormed | src/core/config/file-format.ts:13-21 | Lower-first alphanumeric keys with no two adjacent capitals are well formed |
| ConfigKeys.WordsTranslate | src/core/config/file-format.ts:13-21 | Names made of words of lower-case ASCII letters and digits are written like_this and read likeThis, if each further word starts with a letter and none but the first and last is a single character |
| ConfigKeys.AdjacentCapitalsAreLost | src/core/config/file-format.ts:18-21 | The key `aBC` does not survive |
| ConfigKeys.OtherCapitalsAreLost | src/core/config/file-format.ts:18-21 | A capital outside ASCII is lost if an ASCII capital makes the whole key be lowered, and kept otherwise |
| FileFormat.RoundTrip | src/core/config/file-format.ts:42-84 | Converting a nested config to YAML spelling and back is the identity if and only if every key outside preserved maps is well formed, at every path |
| FileFormat.RoundTripForces | src/core/config/file-format.ts:42-84 | If nothing is lost, no keys collided on the way and every key is well formed |
| FileFormat.AssignAllExact | src/core/config/file-format.ts:50-58 | Filling an object field by field keeps the list exactly if no keys collide |
| FileFormat.PreservedPaths | src/core/config/file-format.ts:31-40 | For names without dots, the maps whose keys are kept are the five named ones and every `headers` |
| FileFormat.ConvertInternalToYamlOutput | src/core/config/file-format.ts:64-84 | The recursive loop computes the recursive conversion, in field order, with later collisions overwriting in place |
| FileFormat.ConvertYamlInputToInternal | src/core/config/file-format.ts:42-62 | The same for the other direction, whose path uses converted keys |
| FileFormat.WriteThenRead | src/core/config/file-format.ts:42-84 | The two converters run one after the other give back the config if and only if it is well keyed |
| FileFormat.AdjacentCapitalsConfig | src/core/config/file-format.ts:42-84 | A config with the key `aBC` does not come back |
| StableHash.CanonicalForm | src/core/context/hash.ts:5-15 | Two values have equal canonical forms if and only if they agree up to key order and undefined fields at every depth |
| StableHash.CanonicalIdempotent | src/core/context/hash.ts:5-15 | A canonical form is its own canonical form |
| StableHash.FormsShowTargets | src/core/context/hash.ts:39-61 | The canonical form of a target list determines every field of every target in it |
| StableHash.TargetFormForgetsOrder | src/core/context/hash.ts:39-61 | Listing unambiguous targets in another order gives the same canonical form |
| StableHash.AmbiguousTargetsShow | src/core/context/hash.ts:39-61 | Two different targets with one triple always give some order that changes the canonical form that is hashed |
| StableHash.TargetFormIsInvariant | src/core/context/hash.ts:39-61 | The canonical form that is hashed is the same for every order if and only if no triple is ambiguous |
| StableHash.ChurnOrderShows | src/core/context/hash.ts:39-61 | Two targets that differ in churn weight only have an order that changes the form |
| Sorting.SortSorts | src/core/context/hash.ts:46-52 | The sort orders by any total preorder |
| Sorting.SortPermutes | src/core/context/hash.ts:46-52 | The sort keeps the multiset of elements |
| Sorting.SortStable | src/core/context/hash.ts:46-52 | Elements that compare equal keep their order |
| Sorting.SortForgetsOrder | src/core/context/hash.ts:46-52 | Under an order that separates the elements, the sorted list depends only on the multiset |
| AllowlistRules.DecisionIgnoresRuleOrder | src/cli/authorization/allowlist.ts:749-768 | The two ordered passes with early return give one decision for all lists of the same rules, whatever their order and multiplicity |
| AllowlistRules.MatchRulesMeaning | src/cli/authorization/allowlist.ts:750-763 | The two passes answer deny if any deny rule matches, else allow if any allow rule does, else nothing |
| AllowlistRules.DecisionIgnoresPermutation | src/cli/authorization/allowlist.ts:770-774 | No permutation of the rules of a tool changes a decision |
| AllowlistRules.MatchIgnoresEffectOrder | src/cli/authorization/allowlist.ts:734-744 | Whether a rule matches does not depend on the order or multiplicity of its side effects |
| AllowlistRules.PersistDenyDenies | src/cli/authorization/allowlist.ts:1106-1120 | After persisting deny the same query is denied in that scope |
| AllowlistRules.PersistAllowAllows | src/cli/authorization/allowlist.ts:1106-1120 | After persisting allow the scope allows, unless a matching deny rule was there |
| AllowlistRules.PersistDecides | src/cli/authorization/allowlist.ts:1049-1078 | Whole decisions after persisting in either scope, with the other scope's deny overriding |
| AllowlistRules.PersistDecidesExactly | src/cli/authorization/allowlist.ts:727-775 | Persisting leaves every foreign question answered as before - of another tool, another phase, other arguments, or without the side effects that count - and decides all others by the new rule, where an older deny overrides an allow |
| AllowlistRules.PersistedMatches | src/cli/authorization/allowlist.ts:727-748 | A persisted rule matches a question of its tool exactly if the question is not foreign |
| AllowlistRules.EntryDecides | src/cli/authorization/allowlist.ts:766-768 | Where no rule matches, the entry's mode for the phase decides, and without one its general mode |
| AllowlistRules.DecideMeaning | src/cli/authorization/allowlist.ts:1049-1079 | Deny in either scope decides; then allow in either; the two scopes are alike |
| AllowlistRules.PersistThenRemove | src/cli/authorization/allowlist.ts:1171-1201 | Exactly what is left of the store after persisting a rule and removing it with the same selectors |
| AllowlistRules.PersistRemoveRestores | src/cli/authorization/allowlist.ts:1171-1201 | Persist then remove restores the store if and only if the tool had no entry, or the four conditions on its entry hold |
| AllowlistRules.PersistRemoveCanChange | src/cli/authorization/allowlist.ts:1171-1201 | An entry without a rule list comes back changed |
| AllowlistRules.RemoveSparesExactly | src/cli/authorization/allowlist.ts:1155-1222 | Removing with selectors spares a persisted rule exactly if a given selector names another phase, other arguments, or a side effect the rule lacks |
| AllowlistRules.RemoveKeepsModes | src/cli/authorization/allowlist.ts:1171-1201 | With selectors, an entry goes exactly if neither rules nor modes are left, and what stays keeps its modes |
| AllowlistRules.RemoveForgetsOnlyItsTool | src/cli/authorization/allowlist.ts:1155-1222 | Other tools are decided as before, and a removal without selectors forgets its tool |
| AllowlistRules.AllowlistDocument.PersistRule | src/cli/authorization/allowlist.ts:1106-1120 | Appends the rule to the tool's entry, creating it if absent |
| AllowlistRules.AllowlistDocument.RemoveRules | src/cli/authorization/allowlist.ts:1171-1201 | Filters the rules by the given selectors and cleans up a bare entry |
| AllowlistStats.UpdateCountMap | src/cli/authorization/allowlist.ts:222-234 | Set, delete and set again, then evict, is one recency touch with the increased count |
| AllowlistStats.UpdateToolStatsMap | src/cli/authorization/allowlist.ts:236-258 | The same for the outcome counters |
| AllowlistStats.TouchKeys | src/cli/authorization/allowlist.ts:222-234 | A touch moves the key to the end and cuts the oldest key if there are too many |
| AllowlistStats.TouchValues | src/cli/authorization/allowlist.ts:222-234 | A touch changes no other value that is still there |
| AllowlistStats.RecencyIsByLastTouch | src/cli/authorization/allowlist.ts:222-234 | The reference order really is the order of last touches |
| AllowlistStats.KeysAreMostRecent | src/cli/authorization/allowlist.ts:222-234 | After any touches with a fixed limit, the keys in iteration order are the newest distinct keys by last touch |
| AllowlistStats.CountsSinceEntry | src/cli/authorization/allowlist.ts:222-234 | Every count is the number of touches since the key last entered the map |
| AllowlistStats.MapsInLockstep | src/cli/authorization/allowlist.ts:279-319 | Over any loads, with limits changing, both tool maps hold the same keys in the same order with count = total = success + failure |
| AllowlistStats.TotalsCountLoads | src/cli/authorization/allowlist.ts:289-295 | Over any loads the totals count the loads by outcome |
| AllowlistStats.MapsCountLoads | src/cli/authorization/allowlist.ts:296-314 | Over any loads with fixed limits, the tool and path counters are those of the tools and paths the loads name |
| AllowlistStats.SummariesWhenDue | src/cli/authorization/allowlist.ts:260-278 | After any loads, one more logs the new totals exactly if enough loads or enough time have passed since the last summary, less time being enough for a failed load |
| AllowlistStats.LoadRecorder.RecordLoad | src/cli/authorization/allowlist.ts:279-339 | One recorded load acts as `Record`, and answers whether a summary was due |
| AllowlistCache.StepKeeps | src/cli/authorization/allowlist.ts:565-705 | Every file operation, lock hand-over and restart of the process, with any number of calls, keeps the cache, serialisation and exclusion invariant |
| AllowlistCache.CacheHit | src/cli/authorization/allowlist.ts:517-531 | A cache entry with the stamp a load has seen was read no earlier than that load began |
| AllowlistCache.HitsExactly | src/cli/authorization/allowlist.ts:577-605 | A load answers from the cache exactly if the cache file can be read and is good for the stamp it saw |
| AllowlistCache.LoadsAreLinearizable | src/cli/authorization/allowlist.ts:565-705 | From any cache file that earlier processes left, however interleaved, with or without a hit, a load returns the reading of a version current at some moment during the call, or nothing if its own attempt to save the cache failed |
| AllowlistCache.EditsStartFromCurrent | src/cli/authorization/allowlist.ts:1106-1133 | When an edit writes, the content it loaded is still the current one, or nothing if its load was lost to a failed cache save |
| AllowlistCache.EditsAreSerial | src/cli/authorization/allowlist.ts:1171-1222 | Over any number of processes one after the other, the file is its first version with every committed edit applied in commit order, where an edit whose load was lost starts over from nothing |
| AllowlistCache.EditKeepsOthers | src/cli/authorization/allowlist.ts:1106-1120 | An edit keeps what the file held for every other tool, or drops all of them if its load was lost |
| AllowlistCache.EditTakesEffect | src/cli/authorization/allowlist.ts:1080-1262 | Clearing leaves nothing, a persisted rule is there, and of a tool whose rules were removed nothing is left that carries all selectors given |
| AllowlistCache.InvalidationMeans | src/cli/authorization/allowlist.ts:517-531 | A cache file is good exactly if it is of this version, path, time, size and hash and holds tools |
| AllowlistCache.LostLoadDropsOthers | src/cli/authorization/allowlist.ts:683-703 | For every allowlist, every rule to persist and every other tool in it there is a run in which the load cannot save the cache and the edit drops that tool |
| AllowlistCache.LostOnlyByFailedSave | src/cli/authorization/allowlist.ts:683-703 | A load is lost only if its own attempt to save the cache failed |
| AllowlistCache.ClearIsNeverLost | src/cli/authorization/allowlist.ts:1225-1262 | Clearing does not load, so no failed save loses anything of it |
| AllowlistCache.RestartKeeps | src/cli/authorization/allowlist.ts:565-705 | When the process ends in the middle of anything, the file and the cache file it leaves are ones from which all these results hold |
| AllowlistCache.OneHolder | src/cli/authorization/allowlist.ts:780-799 | At most one call is past its grant of the in-process lock and has not released it |
| AllowlistCache.NoDeadlock | src/cli/authorization/allowlist.ts:780-799 | As long as an edit is unfinished, some edit whose ticket is no later can take its next step |
| ManifestStore.CheckpointManifest.UpsertHandle | src/core/checkpoint-domain/manifest-store.ts:343-361 | Stores the handle and its parent and moves the revision by one |
| ManifestStore.CheckpointManifest.LinkSessionTo | src/core/checkpoint-domain/manifest-store.ts:363-385 | Appends to the history unless it already ends there, and makes the id current |
| ManifestStore.CheckpointManifest.RemoveHandle | src/core/checkpoint-domain/manifest-store.ts:387-412 | The loop over sessions takes the id out of everything and repairs current ids |
| ManifestStore.CheckpointManifest.GarbageCollect | src/core/checkpoint-domain/manifest-store.ts:486-530 | The two loops equal the set-level collection, and the ids returned are the removed ones, each once |
| ManifestStore.CheckpointManifest.CollectProtected | src/core/checkpoint-domain/manifest-store.ts:502-510 | The first loop computes exactly what some session protects |
| ManifestStore.CheckpointManifest.DeleteUnprotected | src/core/checkpoint-domain/manifest-store.ts:512-520 | The second loop removes exactly the old unprotected entries and their lineage |
| ManifestStore.RunsAreWellFormed | src/core/checkpoint-domain/manifest-store.ts:343-412 | Over all runs from empty: current id is the last of the history, handles are stored under their ids, lineage mirrors the checkpoints |
| ManifestStore.RemoveErases | src/core/checkpoint-domain/manifest-store.ts:387-412 | After a removal the id occurs nowhere, and every history holds all other ids as often as before |
| ManifestStore.RemoveSparesOthers | src/core/checkpoint-domain/manifest-store.ts:387-412 | All other checkpoints and all sessions stay, and a current checkpoint unless it is the one removed |
| ManifestStore.RemoveKeepsOrder | src/core/checkpoint-domain/manifest-store.ts:401-406 | The history entries left after a removal are in the order they were |
| ManifestStore.ApplyCounts | src/core/checkpoint-domain/manifest-store.ts:486-530 | The revision moves by one for each write; a collection that removes nothing writes nothing |
| ManifestGc.SortByRank | src/core/checkpoint-domain/manifest-store.ts:503-507 | The stable newest-first sort puts every entry at the rank defined without sorting |
| ManifestGc.ProtectedIsRanked | src/core/checkpoint-domain/manifest-store.ts:503-508 | An id is among the first `maxPerSession` sorted entries exactly if one of its entries has a smaller rank |
| ManifestGc.CollectIsExact | src/core/checkpoint-domain/manifest-store.ts:486-530 | A checkpoint survives if and only if it is young enough, or some session's current one, or ranks among some session's newest live entries; survivors and removed ids partition the old checkpoints |
| ManifestGc.CollectIsIdempotent | src/core/checkpoint-domain/manifest-store.ts:486-530 | A second collection at the same cutoff removes and changes nothing |
| ManifestGc.KeptStaysKept | src/core/checkpoint-domain/manifest-store.ts:503-510 | What a session keeps, it still keeps after a collection |
| CheckpointService.GitSnapshotCheckpointService.CreateCheckpoint | src/core/checkpoint-domain/service.ts:50-72 | Stores the new handle, then links the session if one is given |
| CheckpointService.GitSnapshotCheckpointService.Delete | src/core/checkpoint-domain/service.ts:121-124 | Drops the ref, then removes the handle; a ref that cannot be dropped leaves the manifest alone |
| CheckpointService.GitSnapshotCheckpointService.Gc | src/core/checkpoint-domain/service.ts:126-152 | Collects, then drops the refs of what was removed, counting and skipping failures |
| CheckpointService.CreateAndGcKeepCurrent | src/core/checkpoint-domain/service.ts:50-72 | Sequential runs of create and gc keep every session's current checkpoint stored |
| CheckpointService.DeleteKeepsCurrent | src/core/checkpoint-domain/service.ts:121-124 | Deleting keeps every current checkpoint stored if and only if each affected session's fallback is absent or stored |
| CheckpointService.DeleteCanDangle | src/core/checkpoint-domain/service.ts:121-124 | A run of two creates, a gc and a delete after which the current checkpoint is not stored |
| CheckpointService.ListingMeans | src/core/checkpoint-domain/service.ts:96-119 | A session's list holds every stored handle of its history as often as it is there, newest first, equally old ones in history order; only a positive limit cuts it |
| CheckpointService.CreatedIsListed | src/core/checkpoint-domain/service.ts:50-72 | A checkpoint created in a session is stored, is the current one and is listed there, first of all if no other is as new; without a session no session changes |
| CheckpointService.ListedIsProtected | src/core/checkpoint-domain/service.ts:110-118 | Listing a session with a positive limit shows exactly the ids a collection with that limit keeps for it |
| CheckpointService.ListedSurvives | src/core/checkpoint-domain/service.ts:96-119 | What a session lists with limit n survives every collection keeping n per session, unchanged |
| ManifestLock.StepKeeps | src/core/checkpoint-domain/manifest-store.ts:183-291 | Every step of a calm run keeps the locking invariant, and the reclaim step is never among them |
| ManifestLock.NeverReclaimed | src/core/checkpoint-domain/manifest-store.ts:183-229 | When no process exits, the lock file stays fresh and probes are prompt, neither reclaim guard is ever enabled |
| ManifestLock.OneHolder | src/core/checkpoint-domain/manifest-store.ts:231-291 | At most one call is between creating and unlinking the lock file, and the file is there meanwhile |
| ManifestLock.NoLostUpdate | src/core/checkpoint-domain/manifest-store.ts:343-412 | At every moment of every interleaving the manifest is the sequential result of the committed operations in lock order, and its revision has moved by the number of writes |
| ManifestLock.EffectOfCall | src/core/checkpoint-domain/manifest-store.ts:231-291 | A call that finished took effect under its own operation; one that timed out took none |
| ManifestLock.SharedManifestIsWellFormed | src/core/checkpoint-domain/manifest-store.ts:343-412 | From the empty manifest every calm interleaving keeps the manifest well formed |
| ManifestLock.TornLockLosesUpdate | src/core/checkpoint-domain/manifest-store.ts:204-221 | At every pace with `maxAge + delay` above twice the stale age, a calm run loses an update: two writes move the revision by one and a committed handle is missing |
| ManifestLock.SafeExactlyIf | src/core/checkpoint-domain/manifest-store.ts:183-291 | No calm run at a pace loses an update if and only if `maxAge + delay` is at most twice the stale age |
| ManifestLock.LockIsFreed | src/core/checkpoint-domain/manifest-store.ts:259-290 | When nobody holds the lock after a calm run, the lock file is gone if and only if no heartbeat landed while nobody held it |
| ManifestLock.OrphanStays | src/core/checkpoint-domain/manifest-store.ts:183-229 | As long as lock files are refreshed as often as the pace asks, a lock file without an owner stays through every step |
| ManifestLock.LateBeatOrphans | src/core/checkpoint-domain/manifest-store.ts:259-290 | For every operation and every safe pace there is a calm run of one call whose own heartbeat lands after its unlink: the lock file stays behind and the next call runs into it |
| ManifestLock.StuckForGood | src/core/checkpoint-domain/manifest-store.ts:183-229 | Once nobody owns a lock file with the whole stamp of a live process and no call is about to unlink it, then in every run at any pace, without an exit or a torn heartbeat, it stays, no call gets the lock and the manifest does not change |
| ManifestLock.AttemptClearsExactlyIf | src/core/checkpoint-domain/manifest-store.ts:183-252 | One undisturbed attempt takes away a lock file it finds if and only if the file is torn and older than twice the stale age, or its stamp is older than the stale age and its process is gone; the attempt does not get the lock |
| ManifestLock.CrashIsRecovered | src/core/checkpoint-domain/manifest-store.ts:183-202 | The lock of a process that exited goes with the first attempt after the stale age |
| ManifestLock.RetriesAreCounted | src/core/checkpoint-domain/manifest-store.ts:231-257 | Over every run a call that has not got the lock has tried again as often as it waited, eight times at most, and has timed out exactly if it was eight times |
| ManifestLock.StampIsSeen | src/core/checkpoint-domain/manifest-store.ts:234-235 | In a calm run the stamp that a call writes through its handle is the one everybody reads |
| ManifestLock.TornOrphanGoes | src/core/checkpoint-domain/manifest-store.ts:204-221 | A torn lock file without an owner goes with the first attempt after twice the stale age, and the next try of that call gets the lock |
| CheckpointRaces.CurrentStoredExactlyIf | src/core/checkpoint-domain/service.ts:67-70 | In every interleaving of creations and collections, each session's current checkpoint is stored at every moment if and only if no collection with a cutoff after the handle's date falls between storing and linking it |
| CheckpointRaces.LinkFinds | src/core/checkpoint-domain/service.ts:67-70 | A link finds its checkpoint stored if and only if no such collection came after it was stored |
| CheckpointRaces.CollectUnlinked | src/core/checkpoint-domain/manifest-store.ts:486-530 | A checkpoint that no session names survives a collection if and only if it is not older than the cutoff |
| CheckpointRaces.SharedCurrentStored | src/core/checkpoint-domain/service.ts:50-72 | In every calm interleaving of processes under the lock file, without such a race, every session's current checkpoint is stored |
| CheckpointRaces.CreateCanDangle | src/core/checkpoint-domain/service.ts:67-70 | For every handle and every later cutoff, a collection between storing and linking leaves the session on a checkpoint that is not stored |

## Left out

- Parts of a message are values, as no part is ever edited; their annotations are left out.
- StreamEncoder.OpenAiStreamEncoder.Complete: the final response shares the live `output` array and is taken as serialised at once, as the reporter does.
- OpenAiReporter.RunSession: goes on after an event whose handling throws, as the state is as before; who catches the exception is not modelled.
- Constant fields of items and responses (annotations, logprobs, metadata, tools and the like).
- `hasTextStream` and `hasFunctionCall`, which only look up a key.
- ConfigKeys.KeyRoundTrip: lower-casing of characters outside ASCII is any function by which a character keeps its spelling or starts differently, without underscores; the lower case of a final sigma, which depends on its neighbours, is not modelled.
- FileFormat.RoundTrip: does not model integer-like or `__proto__` keys, which JavaScript objects order or treat specially, nor the YAML and JSON libraries.
- StableHash.CanonicalForm: takes `localeCompare` as a total order on keys, and JSON printing and SHA as injective.
- StableHash.TargetFormIsInvariant: takes the scores of a target as already rounded.
- QueueCore.Reachable: assumes that tasks return a promise instead of throwing at once and that `onStateChange` neither throws nor calls back; microtasks and settling tasks may run in any order.
- QueueCore.WaitingBound: does not model a fractional or NaN `maxSize`.
- Dependencies.FindFileDependencies: takes the direct dependencies of a file as a fixed finite list, and does not model fractional depth or limit.
- The tree-sitter parser itself; the name that `getNodeName` finds is a field of the node.
- AllowlistCache.LoadsAreLinearizable: takes the in-process lock as the only serialiser, as the lock file of the allowlist does not exclude, so processes run one after the other; assumes that a written (mtime, size) was never used before; of failing file operations only cache saves and torn cache reads are modelled.
- The allowlist lock file, path sandboxing, cleanup of artifacts, audit events and log texts; the map of in-process locks grows for ever, which the ticket model does not show.
- AllowlistStats.MapsInLockstep: counters are unbounded numbers, and the log entry that a summary writes is not modelled.
- ManifestStore.RunsAreWellFormed: creation dates are parsed numbers and `maxPerSession` is a natural number; unparsable dates and negative limits are not modelled.
- ManifestLock.NoLostUpdate: no file operation fails except as contention makes it fail, all processes use one stale age, and the heartbeat is any write of the lock file at any time; when heartbeats fire is left to the hypothesis that the file stays fresh.
- Self-healing, backup and version 1 of the manifest, and probing a checkpoint.
- CheckpointRaces.SharedCurrentStored: that a creation links its handle after it stored it, once, is assumed of the order of commits, as the service awaits the one edit before the other; deletions are the matter of `DeleteKeepsCurrent`.
- CheckpointService.ListedSurvives: listing all checkpoints without a session is not modelled, as it sorts the same way and cuts to the same limit.
- `provider.ts`, the terminal UI, slash commands, locales, other reporters, merging of configs, end-of-line handling and model prices: plumbing, or only easier members.
