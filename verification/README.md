# adj: verification model

Dafny model of the parts of the adj repository that keep state or promise a law, with proofs that hold for all
inputs and all runs. `dafny verify dfyconfig.toml` checks the whole project.

- **Council sampling** (`CouncilSample`, `CouncilSelection`, with `Sums`): the balanced random allocator and the
  loop that seats a council from candidates that may turn out to be unavailable. `State` and `Step` say what one
  operation does; the class `Selector` is proved to take exactly such steps, and the theorems are about all runs.
- **Conversation continuation** (`Conversations`, `WireContents`, `Endpoints`, `Executor`, `Continuation`, `Acceptance`,
  `Chat`, `ChatServer`, `VoteRequest`, `Gateway`): `Translate` turns a whole history of inputs and replies into a
  provider's messages, and `WireContents` proves what these say, entry by entry. The clients, which see one delta at a time, the executor, which remembers only how many items it has sent, the stateless
  chat interface and the council's repair loop are proved to send exactly that, with requests in flight at the same
  time, failing, and branching.
- **The quick procedure** (`QuickState`, `QuickCouncil`, `QuickProcedure`, `QuickRuns`, `QuickRecords`, `QuickRunner`): each region
  under the runner's lock is a function of the state; the procedure is a state machine in which submissions, reports,
  timers, cancellation, waiting and departing clients come in any order, with the council in either mode; `QuickRuns`
  and `QuickRecords` have the theorems about all its runs and their records, and the class `Runner` follows it in place.
- **Model pool** (`Scheduling`, `Partition`, `GeneFilter`, `GeneStages`, `BatchEval`): largest-first partitioning with
  its approximation bound, the gene filter and the checks its files must pass downstream, and the batch evaluation
  rounds.
- **Docket reconstruction** (`Docket`, `Arbitration`, `ArbitrationRecord`): merging docket snapshots, tracing state
  entries to their events, sorting and numbering.
- **Capabilities and sessions** (`Base64Url`, `Capability`, `Sessions`): token printer and parser, key files, and
  session expiry. Base64url follows section 5 of RFC 4648.
- **Lean comments** (`LeanComments`): the comment scanner of the theorem index.

`Text` and `Results` hold the string operations and result types shared by all.

Where the world outside matters it is a parameter: provider answers, checks, clocks, random choices, failing writes,
JSON parsing and the keyed digest. Response identifiers, session identifiers and the like are assumed fresh where a
theorem says so.

Four claims one might expect do not hold as they stand, and the exact condition is proved instead:

- The executor compares only the number of earlier items. What is sent equals what the caller claims exactly when the
  caller's input extends the recorded one (`Continuation.BeginCarries`; an input:
  `Continuation.ClaimedHistoryMayDiffer`). Both callers, the chat interface and the council's repair loop, do extend it under every interleaving
  (`Gateway.ChatSendsItsHistory`, `Gateway.VoteSendsItsHistory`).
- A word-for-word echo of an assistant message is accepted exactly when all its tool arguments are valid JSON
  (`Chat.VerbatimEcho`; an input: `Chat.UnparsableEchoRefused`).
- A filled council passes its closing validation exactly when no rejection reported too few endpoints
  (`CouncilSample.FilledCouncilValidates`; an input: `CouncilSample.FilledAfterAFailedRejection`). An empty council
  with a positive minimum fails it too (`CouncilSelection.SelectAvailableCouncil`).
- Background cleanup turns a request away exactly when the request would be accepted without it and a cleanup has
  overtaken its session: read the clock at a time at which, had there never been a cleanup, the session was idle, while
  the session has not been opened again (`Sessions.CleanupTurnsAwayExactlyTheOvertaken`; an input:
  `Sessions.OlderReadingIsTurnedAway`). That cannot happen as long as clock readings do not go back in the order in
  which requests and cleanups take the lock (`Sessions.CleanupUnobservable`).

## Model

| member | source | states |
|---|---|---|
| CouncilSample.Selector.New | common/councilsample/selector.go:28-76 | construction succeeds exactly when no complaint applies, in the source's order; the new selector is in its initial state and satisfies the invariant |
| CouncilSample.MadeExactly | common/councilsample/selector.go:28-76 | a selector can be made exactly when the counts fit each other, no name is blank, some candidate is permitted, and the permitted candidates have as many different endpoints as are required |
| CouncilSample.Selector.Draw | common/councilsample/selector.go:78-134 | draws an eligible candidate of a least-used endpoint, least used among its endpoint's candidates; any error leaves the state unchanged |
| CouncilSample.Selector.Accept | common/councilsample/selector.go:136-145 | seats exactly the pending candidate and counts it for its endpoint and itself; keeps the invariant |
| CouncilSample.Selector.Reject | common/councilsample/selector.go:147-154 | makes exactly the pending candidate ineligible; the error says whether enough endpoints remain |
| CouncilSample.Selector.RejectEndpoint | common/councilsample/selector.go:156-171 | makes every candidate of the named endpoint ineligible and clears the pending draw; the error says whether enough endpoints remain |
| CouncilSample.Selector.Validate | common/councilsample/selector.go:173-193 | reports a pending draw, an incomplete council or too few distinct endpoints |
| CouncilSample.Selector.ValidateAvailableEndpoints | common/councilsample/selector.go:208-224 | an error exactly when used and still eligible endpoints together are fewer than the minimum |
| CouncilSample.StepKeepsInvariant | common/councilsample/selector.go:78-171 | every operation keeps the invariant: seat counts agree at all three levels, seats are balanced, and either every seat has its own endpoint or no eligible endpoint is unused |
| CouncilSample.RefusedWhen | common/councilsample/selector.go:78-193 | which operation is refused with which error, by what the selector holds: a pending draw, a full council, no eligible candidate, another or no pending candidate, a blank endpoint; and when validation passes |
| CouncilSample.StepEnough | common/councilsample/selector.go:147-171 | after an operation enough endpoints remain exactly when enough did before and the operation did not report too few |
| CouncilSample.FilledCouncilValidates | common/councilsample/selector.go:173-224 | over all runs: a filled council validates exactly when no rejection reported that too few endpoints remain |
| CouncilSample.FilledAfterAFailedRejection | common/councilsample/selector.go:147-193 | a concrete run: two candidates on two endpoints, the first rejected, both seats filled from the second, and the closing validation fails |
| CouncilSample.RunBalanced | common/councilsample/selector.go:78-145 | in every reachable state no endpoint is more than one seat ahead of a still eligible one, and no candidate more than one ahead of an eligible one of its endpoint |
| CouncilSample.RunWithoutRejections | common/councilsample/selector.go:78-145 | without rejections n seats over k endpoints give each the floor or the ceiling of n/k, and likewise within each endpoint |
| CouncilSample.OnlyAllowedSeated | common/councilsample/selector.go:45-76 | a new selector can draw exactly the candidates whose normalized endpoint is among the allowed ones, all of them when none are named, and in no run is another candidate eligible or seated |
| CouncilSelection.ExecutorNamesOwnEndpoint | common/modelgateway/executor.go:225-252 | a credential failure that the executor raises for a candidate names that candidate's own endpoint |
| CouncilSelection.SelectAvailableCouncil | quick/run.go:483-569 | the seating loop terminates and asks for exactly one check of each candidate it marks, under the name of the seat it was drawn for: a candidate is available exactly when its check answered so, and every rejection records what its check answered; a run ends as cancelled exactly when some look at the context said so. From the seat on for which an endpoint lost its credential nobody of that endpoint is seated. A council it returns is complete, has enough distinct endpoints, is balanced and has every rejection linked to the member seated in its place; the closing validation of a council with seats never fails; giving up means every candidate is excluded, and a failed rejection means too few endpoints are left |
| CouncilSelection.FillSeat | quick/run.go:502-564 | one seat: whoever is drawn for it was checked before, once, and the answer decides whether it is seated or rejected; a rejected candidate is never drawn again, and every refusal decreases the set of eligible ones |
| CouncilSelection.Refuse | quick/run.go:540-553 | records the failed check and makes the candidate ineligible, and with it every candidate of its endpoint exactly when the endpoint's credential failed |
| CouncilSelection.SeatedPassed | quick/run.go:531-553 | nobody is seated without a check: each available candidate was checked and its check answered that it is available |
| CouncilSelection.NameReplacement | quick/run.go:525-528 | names the seated member as the replacement of exactly the rejections made for this seat |
| CouncilSelection.MemberIDInjective | quick/run.go:507 | different seats have different names |
| CouncilSelection.ForeignFailureUndone | quick/run.go:540-549 | why failures must name the own endpoint: a foreign endpoint only undoes the draw, so the same candidate can be drawn and checked for ever |
| CouncilSelection.LoadCouncil | quick/run.go:400-423 | a council drawn without checks has every seat filled, enough endpoints, and floor/ceiling shares |
| Conversations.AppendDeepSeekInput | common/modelgateway/deepseek.go:103-131 | the loop computes what the whole-history translation adds for the new items, or its first error; what that translation says is the subject of WireContents |
| Conversations.AppendGroupedInput | common/modelgateway/anthropic.go:101-149 | the loop with its buffer of pending tool results computes the translation, in which adjacent tool outputs share one message; what it says is the subject of WireContents |
| Conversations.ContentBlocks | common/modelgateway/anthropic.go:151-206 | content is converted part by part or refused at the first bad part |
| Conversations.ConvertInputItems | common/openai/client.go:586-626 | the loop of the OpenAI-compatible client: items converted one by one, or the first error |
| Conversations.AppendedGiven | common/openai/client.go:300-341 | what OpenRouter is sent is the stored input and output followed by the converted items |
| Conversations.TranslateInDeltas | common/modelgateway/google.go:103-163 | extending the stored conversation by each delta equals translating the whole history at once |
| Conversations.EveryOutputAnsweredOnce | common/modelgateway/anthropic.go:101-149 | for each protocol every tool output appears in exactly one message, in the order given |
| Conversations.GoogleAcceptsIssuedCalls | common/modelgateway/google.go:77-131 | a tool output is accepted exactly when a reply on that conversation path issued its call |
| WireContents.AcceptedExactly | common/modelgateway/anthropic.go:101-206 | a history is accepted exactly when each entry fits by its own fields: contents that can be converted, a known role, system messages only before any reply for Anthropic and Google, and tool outputs with an identifier, or for Google with a named call; the error is that of the first entry that does not fit |
| WireContents.EveryEntryHeard | common/modelgateway/google.go:103-163 | every entry but the system texts told apart becomes one message, in order: a reply in its own form, a tool output under its call's identifier with its own text, for Google with the name last called under it and as an object exactly when it is one, and a message under its wire role with its contents part by part |
| WireContents.SystemHeard | common/modelgateway/anthropic.go:131-138 | the system field holds the contents of the history's system and developer messages, in order |
| WireContents.OneMessagePerRun | common/modelgateway/anthropic.go:101-149 | Anthropic and Google get one message for each unbroken run of tool outputs, as long as the run; the others get each output alone |
| Executor.ProviderClient.CreateResponse | common/modelgateway/deepseek.go:48-101 | a client of any protocol sends the extended conversation, OpenRouter's included, and stores it with the reply only when the provider answers; the clients of OpenAI, xAI and Hugging Face pass on the new items |
| Executor.ProviderClient.Prepare | common/openai/client.go:225-320 | the extended conversation under no previous identifier, or the new items, with conversion errors before an unknown conversation for the OpenAI-compatible client |
| Executor.ModelExecutor.ClientForEndpoint | common/modelgateway/executor.go:225-273 | one client per normalized endpoint, made on first use; a missing credential or unknown endpoint changes nothing |
| Executor.ModelExecutor.CreateResponse | common/modelgateway/executor.go:123-162 | a request is its two critical sections around the provider call, with every error in the source's order |
| Continuation.BeginCarries | common/modelgateway/executor.go:197-223 | what is sent is the one-shot translation of the recorded path plus the new items, or, for OpenAI, xAI and Hugging Face, which keep the conversation, exactly the items since the last reply under that reply's identifier; it is the caller's input in full exactly when that input extends the path's own |
| Continuation.OpenRouterHearsAll | common/openai/client.go:300-341 | OpenRouter is sent the whole path, one wire item for each entry in order, and no previous response identifier |
| Continuation.ClaimedHistoryMayDiffer | common/modelgateway/executor.go:216-222 | after one answered call from the initial state, a request whose claimed earlier input was never sent passes the length check, and the provider sees what was sent |
| Continuation.ExtensionAccepted | common/modelgateway/executor.go:197-223 | a caller that extends its own path is never refused by the delta check |
| Acceptance.SentExactly | common/modelgateway/executor.go:123-273 | a request goes to the provider exactly when its endpoint is supported and suits its model, routing, headers and limit on tool calls, the endpoint's credential is there, a response it continues is known, of the same endpoint and model and with no more input, and the client accepts every item of the path |
| Continuation.FinishRecords | common/modelgateway/executor.go:142-161 | an answered call records its path and changes nothing recorded before |
| Continuation.CallStepCarries | common/modelgateway/executor.go:123-223 | for a whole request: the translation, or the new items under the last reply's identifier, is sent; answered paths are recorded, failures record nothing |
| Chat.ChatInputItems | common/modelgateway/server.go:406-435 | converts the new messages one to one, or returns the first error |
| Chat.ChatItemsEach | common/modelgateway/server.go:406-495 | converted messages and items correspond position by position |
| Chat.ChatItemSays | common/modelgateway/server.go:406-495 | which messages become items and what these say: role, texts and images part by part; for a tool message its call's identifier and its texts joined; and the error of every other message |
| Chat.AssistantMessageSays | common/modelgateway/server.go:524-549 | a reply is told with its text and its calls in order: identifier, name, and the arguments as the model wrote them if it wrote any |
| Chat.CheckMessagePrefix | common/modelgateway/server.go:334-352 | finds the first expected message that does not come back |
| Chat.HistoryAccepted | common/modelgateway/server.go:334-404 | no complaint exactly when every expected message comes back in its place, up to the formatting of JSON arguments and blank content |
| Chat.SameExactly | common/modelgateway/server.go:354-404 | by the fields: a message passes for an expected one exactly if it is the same message, or both are an assistant's with equal content up to blank text and calls that agree in identifier, name, other fields and in the value of their arguments, which must be valid JSON |
| Chat.VerbatimEcho | common/modelgateway/server.go:354-404 | a word-for-word echo of an assistant message is accepted exactly when all its tool arguments are valid JSON |
| Chat.UnparsableEchoRefused | common/modelgateway/server.go:354-404 | a concrete reply whose tool arguments are not valid JSON: repeating it is refused |
| Chat.EchoOfEcho | common/modelgateway/server.go:334-404 | an accepted echo of an accepted echo is an accepted echo of the original: histories do not drift |
| Chat.EchoKeepsCalls | common/modelgateway/server.go:524-549 | an accepted echo repeats the reply's tool calls by identifier and name, in order, with no other field added or changed |
| Chat.InputComesBackUnchanged | common/modelgateway/server.go:354-357 | a message that was converted to input only passes if it comes back unchanged |
| ChatServer.ChatBinding.Input | common/modelgateway/server.go:281-307 | the request's whole input, or the first refusal |
| ChatServer.ModelServer.Bind | common/modelgateway/server.go:151-175 | a new token exactly when the name is given and the endpoint has a client |
| ChatServer.ModelServer.Unbind | common/modelgateway/server.go:177-192 | removes exactly the named binding |
| ChatServer.ModelServer.ExecuteChat | common/modelgateway/server.go:278-332 | the binding moves on only if the model answered and the record was written; otherwise it is unchanged |
| ChatServer.AcceptedMirrors | common/modelgateway/server.go:299-307 | an accepted request's messages are the stored path, message by message, followed by the new items |
| ChatServer.AnswerableExactly | common/modelgateway/server.go:281-307 | a request has an input exactly when its model, options, tools and every new message are acceptable and every expected message comes back in its place; the input is then the stored items and one item per new message |
| Gateway.Reachable | common/modelgateway/server.go:278-332 | the invariant of the whole protocol holds under every interleaving of chat bindings, council members asked for votes, direct calls, answers and failures |
| Gateway.ChatSendsItsHistory | common/modelgateway/server.go:278-332 | in every reachable world what an accepted chat request sends upstream is the one-shot translation of the recorded path, which the client's messages repeat, followed by the new items, or only these where the provider keeps the rest |
| Gateway.ChatContinuationAccepted | common/modelgateway/executor.go:197-223 | an accepted chat history is never refused as unknown, foreign or shortened |
| Gateway.StoredForEver | common/modelgateway/executor.go:153-161 | a conversation stored at any time is stored unchanged in every later world |
| Gateway.FailureChangesNothing | common/modelgateway/server.go:325-331 | a failed call, even one answered without a response identifier, leaves responses, paths, bindings and vote rounds as they were, and every conversation that can be continued |
| Gateway.RefusalChangesNothing | common/modelgateway/server.go:299-307 | a chat request that its binding cannot answer changes nothing at all, and only an answerable one reaches a provider |
| Gateway.AnswerMovesOn | common/modelgateway/server.go:278-332 | an answered call extends its path by the reply under the reply's identifier; the binding of a chat request whose record could be written goes on with the request's input, the reply's identifier and the request's messages followed by the assistant's, and nothing else changes |
| Gateway.VoteSendsItsHistory | quick/council.go:32-93 | in every reachable world each request of a council member's repair loop carries its whole conversation, every rejected reply answered in full, whoever else was served in between; and it is never refused as unknown, foreign or shortened |
| Gateway.VoteEnds | quick/council.go:48-83 | a member's request ends with a vote exactly when an answer comes in time and is one, and goes on with a repaired round exactly when it is not one but can be repaired |
| VoteRequest.RequestVote | quick/council.go:32-93 | the loop with the executor to itself: every request carries the whole conversation so far; each rejected reply is answered call by call; it ends with a vote, the attempt limit or an explained failure |
| VoteRequest.RepairSays | quick/council.go:66-83 | a rejected reply is followed by one output for each of its calls, in order, with the reason, and then by the repair prompt for that reason; this fails exactly without a prompt or for a call without identifier |
| VoteRequest.StillStands | quick/council.go:32-93 | what the loop stands for survives whatever others do, as long as recorded paths stay |
| QuickState.CountBoth | quick/run.go:873-884 | counts both sides in one pass |
| QuickState.OneSideAtMost | quick/run.go:869-896 | counting the seats that voted for a value: the two sides never both reach the required majority; the resolution is empty exactly while a seat is open, "demonstrated" or "not_demonstrated" exactly when every seat is recorded and that side has enough seats, and "no_majority" exactly when every seat is recorded and neither has |
| QuickRunner.Runner.SubmitArgument | quick/lawyerapi.go:640-702 | a submission by its turn, role, opportunity, deadline and form: refused, costing an attempt, or recorded |
| QuickRunner.Runner.ReportFailure | quick/lawyerapi.go:368-390 | a failure report completes exactly the current turn of its role and opportunity |
| QuickRunner.Runner.BeginTurn | quick/lawyerapi.go:704-737 | a turn becomes active only after its event is recorded |
| QuickRunner.Runner.ReceiveResult | quick/lawyerapi.go:743 | the one result leaves the channel |
| QuickRunner.Runner.ClearTurn | quick/lawyerapi.go:747-753 | the active turn is cleared only if it is still this one |
| QuickRunner.Runner.CompleteTurn | quick/lawyerapi.go:762-771 | only the active, uncompleted turn is completed |
| QuickRunner.Runner.Await | quick/lawyerapi.go:283-311 | a waiting request is answered when its client has gone, its timer has fired or its condition holds, and put to sleep otherwise |
| QuickRunner.Runner.FireTimer | quick/lawyerapi.go:263-268 | the timer sets its flag and wakes everybody in one region |
| QuickRunner.Runner.Keep | quick/run.go:719-780 | transcript and event record are both kept, or the transcript is rolled back, or it is ahead by the record whose event failed |
| QuickRunner.Runner.AppendEvent | quick/run.go:788-796 | events are numbered one after the other, and only when written |
| QuickRunner.Runner.EnterCouncil | quick/run.go:599-603 | the council phase starts with a new version and wakes every waiter |
| QuickRunner.Runner.SetTerminal | quick/run.go:798-811 | the terminal state, a new version, no active turn, and every waiter awake |
| QuickRunner.Runner.RunCouncil | quick/run.go:613-642 | members one after the other until the first error |
| QuickRunner.Runner.RunCouncilParallel | quick/run.go:650-709 | answers in any order of arrival, recorded in roster order, with the request errors in order of arrival |
| QuickRunner.Runner.RecordEnd | quick/run.go:167-181 | the terminal event with the resolution of the transcript, or the failure to write it, with all errors joined in order; that resolution is the subject of QuickState.OneSideAtMost and QuickRecords.VerdictRecorded |
| QuickRunner.Runner.Follow | quick/run.go:592-611 | a fresh runner driven in place by any schedule of requests, timers and steps of the main procedure ends where the state machine does, so every theorem about runs holds of it |
| QuickRecords.TurnOpened | quick/lawyerapi.go:704-737 | in every run: a turn is opened exactly when it is due, its prompt can be rendered, the run is not cancelled and the event can be written; it is the next role's, with the whole time and all attempts ahead |
| QuickRecords.ArgumentRecorded | quick/lawyerapi.go:640-702 | in every run: a submission is accepted exactly when it comes in its turn and in time, is one call of the argument tool with a text that is neither blank nor too long, and can be written; the argument recorded is the trimmed text under the turn's role and opportunity, and the turn ends with success; otherwise no event is recorded |
| QuickRecords.AttemptsCounted | quick/lawyerapi.go:664-686 | in every run each malformed submission costs its turn one attempt and nothing else does; a turn is over when it has cost as many as there are |
| QuickRecords.FailuresTold | quick/lawyerapi.go:368-390 | how an open turn fails: by the last malformed submission, by being late, or by the lawyer's report with its message, or else its reason, or else a standing text |
| QuickRecords.SequentialTakes | quick/run.go:613-642 | one member after the other: the transcript grows by the votes and removals as they were given, in roster order, of all members without errors and of a prefix otherwise |
| QuickRecords.RecordingTakes | quick/run.go:683-707 | the same when all answers are recorded after they are in, broken ones left out |
| QuickRecords.VerdictRecorded | quick/run.go:167-181 | in every run: a verdict is recorded exactly when the run completes without error, once and as the last event; every seat is recorded then, and the verdict is that of the side with the required number of seats in the transcript, or that neither has it; a run that ends with errors has its failure as the last event unless that could not be written |
| QuickRecords.CompletesExactly | quick/run.go:138-181 | a run that is being closed completes exactly when it had no error, its listener closes and the event is written; every other outcome adds its reasons to the errors |
| QuickRecords.PhaseTold | quick/run.go:599-611 | in every run the phase says where the main procedure stands: before or in the arguments, in the council, complete, or failed |
| QuickCouncil.ParallelAgrees | quick/run.go:613-709 | without procedure error and cancellation both modes leave the same records and report the same errors for every order of arrival, even when writes fail |
| QuickCouncil.RequestErrorsAre | quick/run.go:660-681 | one error for each broken request, in order of arrival and naming its member, except for interruptions after an earlier one |
| QuickCouncil.RecordingSucceeds | quick/run.go:683-708 | recording after all answers are in: no error exactly when no seat that answered finds a cancellation or fails to write |
| QuickCouncil.SequentialSound | quick/run.go:613-642 | one member after the other, whatever the answers, writes and cancellations: the members recorded are a prefix of the roster, all of it without errors; memory, disk and events agree unless the run fails one record ahead |
| QuickCouncil.SequentialSucceeds | quick/run.go:613-642 | one member after the other: no error exactly when no seat finds a cancellation, meets a procedure error or fails to write |
| QuickCouncil.RecordingSound | quick/run.go:682-717 | all at once, whatever the answers, writes and cancellations: broken seats are left out and recording goes on; the members recorded are the answered seats of a prefix of the roster, of all of it without record errors; memory, disk and events agree unless recording fails one record ahead |
| QuickCouncil.NoRequestErrors | quick/run.go:664-681 | the parallel council reports a request error exactly when some answer breaks the procedure, whatever the order of arrival |
| QuickProcedure.RunSound | quick/run.go:592-611 | in every world reached by any interleaving, in either council mode and whatever breaks, fails to be written or is cancelled: events numbered, turns sound, memory equal to disk, events equal to transcript unless a record was not kept, seats recorded in roster order, nobody asleep on a true condition |
| QuickRuns.CouncilHearsBothSides | quick/run.go:592-611 | the council sits only with exactly the plaintiff's and then the defendant's argument |
| QuickRuns.SeatsOnce | quick/run.go:613-717 | in every reachable world seats are recorded in roster order and nobody twice |
| QuickRuns.TurnsCompleteOnce | quick/lawyerapi.go:762-771 | over a whole run each turn is completed at most once, and exactly once, its one result received, when the main procedure has gone past it |
| QuickRuns.TurnsKept | quick/lawyerapi.go:762-771 | one action leaves a turn alone, or completes it by one result sent into an empty channel, so the send never blocks |
| QuickRuns.LateNewsIgnored | quick/lawyerapi.go:640-657 | a timer, cancellation, submission or report for an earlier or completed turn changes nothing |
| QuickRuns.NoLostWakeup | quick/lawyerapi.go:260-311 | a sleeping request stays asleep only while its condition is false, its timer has not fired and its client is there or about to be missed; whoever changes that wakes everybody |
| QuickRecords.NewsAnnounced | quick/lawyerapi.go:725-771 | whatever changes the phase, the open turn, its completion or the end of the run raises the version by one and wakes everybody who waits |
| QuickRuns.VersionGrows | quick/run.go:798-811 | no action lowers the version |
| QuickRuns.VerdictAtTheLastSeat | quick/run.go:862-897 | while records are kept there is a resolution exactly when every seat is recorded; a run completed without error has recorded every seat, and events, transcript and disk agree |
| QuickRuns.SequentialCouncilSteps | quick/run.go:613-642 | the machine's steps from the first seat to the end are the sequential council, with the same records and errors |
| QuickRuns.ParallelCouncilSteps | quick/run.go:650-709 | the machine's steps from the last answer to the end are the parallel council, with the same records and joined errors |
| QuickCouncil.KeptRecord | quick/lawyerapi.go:687-701 | what a failing transcript or event write leaves behind |
| Partition.GroupByModel | model-pool/tools/run_end_to_end.py:149-152 | models in order of first appearance, each with all its variants in order |
| Partition.FirstShortest | model-pool/tools/run_end_to_end.py:157 | the first of the shortest partitions |
| Partition.PartitionVariantsByModel | model-pool/tools/run_end_to_end.py:148-158 | the dealt partitions; no partition to choose from is an error exactly when there are variants and no process |
| Partition.SortedStable | model-pool/tools/run_end_to_end.py:156 | groups of equal size stay in order of first appearance |
| Partition.ModelsKeptTogether | model-pool/tools/run_end_to_end.py:148-158 | each model's variants are in one partition, in order, and in no other |
| Partition.PartitionsConserve | model-pool/tools/run_end_to_end.py:148-158 | the partitions hold exactly the input variants with multiplicity |
| Partition.NoPartitionEmpty | model-pool/tools/run_end_to_end.py:153-155 | no partition is empty |
| Partition.PartitionsClose | model-pool/tools/run_end_to_end.py:156-157 | any two partitions differ by at most one model's variants |
| Partition.PartitionBound | model-pool/tools/run_end_to_end.py:148-158 | the longest partition is within 4/3 - 1/(3m) of every placement that keeps models together |
| Scheduling.LargestFirstBound | model-pool/tools/run_end_to_end.py:156-157 | the bound for greedy largest-first schedules in general |
| GeneFilter.ExcludedByRun | model-pool/tools/run_end_to_end.py:661-692 | the configurations one run excludes: any unusable record or a wrong sample set; refused exactly when counts or indexes do not fit |
| GeneFilter.FilterGeneRecords | model-pool/tools/run_end_to_end.py:646-735 | succeeds exactly when the inputs fit and somebody survives; keeps exactly the survivors and their records, in order |
| GeneFilter.FilterEstablishes | model-pool/tools/run_end_to_end.py:694-722 | each file has, for each eligible configuration, exactly the samples 1 to n, all usable, and eligible times n rows |
| GeneFilter.OnlyUsableKept | model-pool/tools/run_end_to_end.py:631-635 | every record kept is "ok" with an embedding and a sample index from 1 to n, and so is every other record of its configuration in every run |
| GeneFilter.CompleteMeans | model-pool/tools/run_end_to_end.py:681-692 | a configuration is complete exactly when it has n records, each "ok" with an embedding and an index from 1 to n, and each index occurs |
| GeneFilter.SamplesDistinct | model-pool/tools/run_end_to_end.py:681-684 | n samples with the indexes 1 to n have each index once |
| GeneStages.ValidateGeneRows | model-pool/tools/run_gene_pca_clustering.py:85-120 | no complaint exactly when the rows have one gene index and text, a key each, numeric components of the right number, and every count that is demanded |
| GeneStages.ClusteringAccepts | model-pool/tools/run_gene_pca_clustering.py:85-132 | the filter's files always pass the clustering stage's checks, given that records carry their configuration's endpoint identifier and no two configurations share one |
| GeneStages.AggregationAccepts | model-pool/tools/aggregate_variant_persona_clusters.py:115-140 | every configuration has exactly its samples for every gene, its record and every fit are found, so the aggregation stage never refuses what the filter and the clustering stage pass on |
| BatchEval.ValidatedToolCalls | model-pool/tools/run_eval.py:807-858 | the accepted calls or the first complaint |
| BatchEval.AcceptedCalls | model-pool/tools/run_eval.py:822-858 | calls are accepted exactly when each fits by itself and no two share an identifier, in order |
| BatchEval.CallFitsMeans | model-pool/tools/run_eval.py:822-858 | a call fits when it is a function call with an identifier of one of the three tools, with exactly the arguments that tool takes |
| BatchEval.IndexedResults | model-pool/tools/run_eval.py:724-738 | results by identifier or the first complaint |
| BatchEval.IndexedExactly | model-pool/tools/run_eval.py:724-738 | indexing succeeds exactly when there is one row for each expected identifier and no other, and finds each answer under its own |
| BatchEval.TakeAnswer | model-pool/tools/run_eval.py:1044-1096 | one answer finishes its task or appends the calls and their results; what it does by the fields is the subject of BatchEval.TakenMeans |
| BatchEval.TakenMeans | model-pool/tools/run_eval.py:1062-1096 | a body without calls that does not announce any finishes the task with its content; proper tool calls are answered each with what executing it on the item gave, and the task goes on unless this was the last round; anything else finishes it without a response |
| BatchEval.TakenSound | model-pool/tools/run_eval.py:1062-1096 | a tool-call message is followed by exactly one result per call; a task goes on only with answered calls and never after the last round |
| BatchEval.AnswerAll | model-pool/tools/run_eval.py:1030-1097 | every pending task takes the answer under its own identifier; the unfinished ones, in order, make the next round |
| BatchEval.FinishAll | model-pool/tools/run_eval.py:1006-1022 | a failed batch finishes exactly the pending tasks |
| BatchEval.RunRounds | model-pool/tools/run_eval.py:999-1104 | each round asks for exactly the tasks that every earlier round has answered with tool calls, with their conversations so far, until a round fails, nobody waits or the rounds are used up; every task follows the answers given under its identifier |
| BatchEval.RoundsSound | model-pool/tools/run_eval.py:999-1104 | however the rounds go, every task is finished exactly once and none is left pending unless no round was allowed |
| BatchEval.RunBatch | model-pool/tools/run_eval.py:943-1135 | one row per trial and item, in order, with the content of the last answer given under its request identifier if that was final, and nothing otherwise; each task's messages are its prompt and the answered calls; the check for pending requests fires exactly when there are tasks and no round is allowed, and the check for incomplete ones never |
| BatchEval.TaskIDsDistinct | model-pool/tools/run_eval.py:978 | no two tasks share a request identifier |
| BatchEval.TaskAsks | model-pool/tools/run_eval.py:955-996 | a task asks its item's prompt and may use tools exactly if the item has a record and functions are on |
| Docket.Builder.AddDocket | common/caserecord/record.go:310-330 | an item is added under its identifier once, with its place in the order of insertion |
| Docket.AllFreshAdded | common/caserecord/record.go:310-330 | items under fresh identifiers are all added, once, in order, each with its contents, the start of the case for a missing time, and its place |
| Docket.UnnamedAdded | common/caserecord/record.go:310-330 | items without identifiers are all added, in order, each under the number of its place |
| Docket.Builder.AddADCDocket | common/caserecord/docket.go:612-682 | the items of the merged snapshots, or the error for a shrinking or too short docket |
| Docket.Builder.AddInitialEntries | common/caserecord/docket.go:697-721 | initialization entries are listed unless they are already |
| Docket.EachIndexOnce | common/caserecord/docket.go:612-723 | each docket index becomes exactly one item, in order, apart from initialization entries listed already |
| Docket.InitialOnce | common/caserecord/docket.go:684-723 | an initialization entry is emitted exactly when it is not listed under its own identifier |
| Docket.ADCContents | common/caserecord/docket.go:625-723 | initialization entries are the plaintiff's; every later index is listed with the title, time and role of the first event that shows it, or with the final state's title if none does |
| Docket.RefusedExactly | common/caserecord/docket.go:631-648 | merging fails exactly at a docket shorter than the initialization or than one shown before, and names the line of the first such event |
| Docket.MergedAllAdded | common/caserecord/docket.go:612-723 | no merged item is dropped for a shared identifier |
| Docket.Builder.Finish | common/caserecord/record.go:296-307 | the docket sorted by time and numbered |
| Docket.FinishedDocket | common/caserecord/record.go:280-308 | a permutation of the items, by time and at the same time by insertion, numbered 1 to n |
| Arbitration.MatchEvent | common/caserecord/docket.go:788-836 | the first event that tells of the entry by its fields: for a filing type, phase, action, role and text; for evidence and decisions type and identifier; for a report or an offer a filing that includes it. Claiming entries skip used events; none is found exactly when there is none |
| ArbitrationRecord.EntriesTraced | common/caserecord/docket.go:368-551 | each entry of the state is listed once, in order, under its own identifier and actor, traced to the first event that tells of it and that no earlier entry has claimed, and dated by that event; reports and offers by the first filing that includes them |
| ArbitrationRecord.OwnEventClaimed | common/caserecord/docket.go:377-397 | a filing whose own event is in the record, and that no other entry equals, claims an event with its phase, action, role and text, carries that event's time, and the event is not listed a second time |
| ArbitrationRecord.UnclaimedListed | common/caserecord/docket.go:553-610 | the unclaimed events of the listed types are listed in order, each under its line, time and actor |
| Arbitration.AddSection | common/caserecord/docket.go:378-397 | one item per entry, each claiming its event |
| Arbitration.AddEvents | common/caserecord/docket.go:553-610 | one item per unclaimed event of a listed type |
| Arbitration.AddArbitrationDocket | common/caserecord/docket.go:355-451 | the nine lists of the state in the source's order, then the events left over, then the decision if there is one; only the events without a state |
| Arbitration.EventsConserved | common/caserecord/docket.go:355-610 | every listed event is either claimed by exactly one entry and not listed, or claimed by none and listed once |
| Arbitration.SectionsStepSound | common/caserecord/docket.go:355-551 | used events are exactly the claimed ones and no two entries claim the same |
| Arbitration.TagsAreNames | common/caserecord/docket.go:368-397 | the nine lists of the state are numbered under names of their own, none of them a name for events |
| Arbitration.ArbitrationIDsDistinct | common/caserecord/docket.go:355-610 | no two items of an arbitration share an identifier |
| Arbitration.ArbitrationAllAdded | common/caserecord/docket.go:355-610 | when no identifier of its forms is taken, every entry, unclaimed event and decision of an arbitration is added, once, in order and with its contents |
| Base64Url.DecodeEncoded | common/mcpbridge/capability.go:44-49 | decoding undoes encoding |
| Base64Url.CanonicalTexts | common/mcpbridge/capability.go:60-77 | decoding with the re-encoding check accepts exactly the encodings, each of one byte string |
| Base64Url.StrayBitsPass | common/mcpbridge/capability.go:60-77 | the decoder accepts exactly the texts that, without line breaks, use the alphabet and leave no single character over; of those the re-encoding check refuses exactly the ones with line breaks or stray bits in the last group |
| Base64Url.LineBreakPasses | common/mcpbridge/capability.go:60-77 | the decoder alone skips line breaks, the check does not |
| Base64Url.EncodesBits | common/mcpbridge/capability.go:44-49 | each three bytes are written as the four characters whose places in the alphabet make up the same 24 bits |
| Capability.AcceptedWasIssued | common/mcpbridge/capability.go:52-101 | an accepted token is, character for character, the token issued for its result, whose audience is the one asked for |
| Capability.SignatureBinds | common/mcpbridge/capability.go:52-101 | an accepted token carries the digest of exactly the version and its payload part, and its result is what that part reads as, with a known audience and proper fields |
| Capability.IssuedIsAccepted | common/mcpbridge/capability.go:32-101 | an issued token is accepted for its own audience and refused for every other |
| Capability.VerifiesExactlyTheIssued | common/mcpbridge/capability.go:32-101 | verification accepts a token with a result exactly when it is the token issued for that result and the audience matches |
| Capability.LauncherAgrees | internal/mcpcap/capability.go:70-136 | the launcher issues exactly when the bridge would and its rules on principals hold, and the tokens are identical |
| Capability.LauncherIssues | internal/mcpcap/capability.go:70-136 | the launcher issues exactly to a side's lawyer, an observer, an arbitration's council member or a court's juror, for a known audience, proper fields and a key of at least 32 bytes |
| Capability.KeyFiles | internal/mcpcap/capability.go:43-68 | the bridge accepts exactly the key files that are written for a key, and the launcher reads the same key from them |
| Sessions.SessionServer.HandleInitialize | common/mcpbridge/server.go:397-437 | a session under a new identifier, or nothing |
| Sessions.SessionServer.RequireSession | common/mcpbridge/server.go:466-501 | accepts and refreshes, drops an expired session, or leaves a foreign or unknown one alone |
| Sessions.SessionServer.HandleDelete | common/mcpbridge/server.go:503-524 | deletes exactly the own session |
| Sessions.SessionServer.ExpireIdleSessions | common/mcpbridge/server.go:539-557 | drops exactly the idle sessions and counts them |
| Sessions.AcceptedExactlyWhen | common/mcpbridge/server.go:466-557 | whatever the clock and the cleanup do, a request is accepted exactly when its session was opened for the same assignment, not deleted, never idle for a time to live, and not overtaken by a cleanup |
| Sessions.TurnedAwayBecause | common/mcpbridge/server.go:466-524 | as long as no cleanup intervenes, the reason for turning a request or a deletion away tells whether the session is gone, another assignment's, or found idle now |
| Sessions.CleanupTurnsAwayExactlyTheOvertaken | common/mcpbridge/server.go:526-557 | whatever the clock does, exactly those requests are accepted that would be without cleanups, except for sessions that a cleanup has overtaken |
| Sessions.AcceptedExactlyWhenAlive | common/mcpbridge/server.go:466-557 | as long as clock readings do not go back, a request is accepted exactly when its session was opened for the same assignment, not deleted, and never idle for a time to live, whatever the cleanup did |
| Sessions.CleanupUnobservable | common/mcpbridge/server.go:526-557 | as long as clock readings do not go back, any schedule of cleanups accepts the same requests as none |
| Sessions.OlderReadingIsTurnedAway | common/mcpbridge/server.go:472-487 | a concrete run in which a clock reading older than a cleanup is turned away although the session had not expired |
| LeanComments.RemoveLeanComments | common/tools/gentheorems.py:31-79 | the scanning loop computes the source without its comments, or refuses it |
| LeanComments.OnlyCommentsBlanked | common/tools/gentheorems.py:31-79 | length and newlines are kept, code and string literals unchanged, comments blanked |
| LeanComments.QuotesToggle | common/tools/gentheorems.py:66-75 | a double quote opens or closes a literal exactly when an even number of backslashes stands directly before it |
| LeanComments.RefusedWhenOpen | common/tools/gentheorems.py:77-78 | refused exactly when a block comment is open at the end |
| LeanComments.RemovingTwice | common/tools/gentheorems.py:31-79 | idempotent on every accepted source |

## Left out

- Servers, HTTP, file system, processes, flag parsing, logging and accounting: plumbing around the modelled state; a
  file write only succeeds or fails.
- OpenAI, xAI and Hugging Face keep the conversation upstream: what they make of the new items is not modelled.
  OpenRouter keeps none, and its client sends all of it.
- The JSON copy of a stored conversation and slices shared between calls: conversations are values here, so a copy
  is exact and nothing is aliased.
- Request building beyond the conversation (temperature, token limits, reasoning effort, tools): a request that cannot
  be built counts as one that gets no reply. Tool conversion of chat requests is a yes or no.
- parseDataURL, vote parsing and prompt rendering: parameters.
- Image details, file identifiers and file URLs of content items: a part carries its text, image URL, or file data and
  name.
- Lower-casing outside ASCII: `Text.ToLower` maps A to Z only.
- Nil receivers and nil arguments of the Go methods.
- Council member details other than identifier, endpoints and configuration; rejection payloads.
- Goroutine scheduling inside a locked region: each region is one step, and waiting on the condition variable is the
  set of sleeping requests.
- Pointers to turns, tasks and recorded events: they are values in a list, identified by position.
- Interrupting parallel council requests after the first procedure error: the outcomes that result are given.
- Liveness: that a turn's timer eventually fires, or that a provider eventually answers.
- Titles, descriptions, access levels and references of docket items, and the docket of simple and quick cases, work
  notes and artifacts: field copying through the same `AddDocket`.
- The other message of an empty pool whose records all lack tool support: it fails like any other empty pool.
- Usage, cost and metadata of batch tasks, polling and retries of a batch: they do not affect which task finishes how.
- PCA, clustering and the choice of a cluster: numerical library code.
- Records of a gene run that disagree about the gene's text or the persona: the inference tool writes the same into all.
- The strength of the keyed digest: it is an arbitrary function with 32-byte results.
- sanitizeText: repeated redaction is not idempotent, and nothing here depends on its text.
- Chat.ChatItem: nested content parts other than text and image URL are one kind of unsupported part.
