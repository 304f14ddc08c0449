# Agent runtime: a verified model

This project models the agent runtime of the repository in Dafny and proves what its runs keep.
It covers four parts of the system.

- **The agent loop** (`packages/agent/src/agent-loop.ts`): prompts, streamed replies, tool batches run sequentially or in parallel, steering and follow-up queues, and the decision to take another turn.
- **The stateful agent** (`packages/agent/src/agent.ts`): the message queues, the event reducer behind the public state, and the lifecycle of a run, including runs whose listeners throw.
- **The proxy stream client** (`packages/agent/src/proxy.ts`): the line splitter over arbitrary chunks and the fold that rebuilds a message from deltas.
- **The transcript packer** (`scripts/session-transcripts-split-helpers.ts`).

## How it is built

`Messages` and `ToolCalls` define the values: messages, events, tool calls, and the log of a run. A log entry is an emitted event, a provider request with the transcript it is made from, a tool execution, or a queue poll. Everything outside the modelled code (provider streams, tools, hooks, the abort signal, users of the queues, listeners) is an oracle: an arbitrary input.

`Loop` is the loop as a state machine over turns. A run is driven by a sequence of turn scripts, one per turn. A script that ends before the run does describes an observed prefix of it, so a theorem about all scripts covers every run, including one that never stops.

`Protocol` is a monitor that reads a log entry by entry and knows nothing of the loop. `LoopProtocol` proves that the monitor accepts the log of every run; `ProtocolFacts` derives plain facts from acceptance alone. `Outcomes` tells from the environment's answers alone what becomes of a tool call. `LoopTheorems`, `Transcripts`, `TurnLogs`, `Requests`, `Endings`, `Exclusion` and `RunTheorems` hold the results about whole runs.

`Agents` is the imperative side, in the source's own form: queues, agent and run are classes whose methods update their fields in place, with the source's loops. Each method is proved against the state machine. Listeners may throw at any event; the thrown outcome is propagated as the source propagates the exception.

`ProxyLines`, `Proxy` and `ProxyClients` model the proxy client, `Packer` the transcript packer.

## Main results

1. Every run follows the protocol if and only if every stream it read had at most one `start` event (`LoopProtocol.EveryRunConforms`). The protocol fixes the whole event grammar: one turn after another, message brackets that never nest, tool calls started in source order, executed at most once and ended exactly once, results in source order with the content of their end events, steering before follow-ups, `agent_end` last.
2. Under every interleaving a parallel batch logs the sequential batch's entries in another order, announces the same results in the same order and reaches the same verdict on termination (`Batch.ParallelRefinesSequential`, `Batch.EveryInterleavingIsScheduled`); in every reachable state of a sequential batch at most one call is pending (`Exclusion.SequentialExclusion`).
3. The loop's transcript, `newMessages`, the announced messages and the agent's public transcript agree (`Transcripts.ContextAgrees`, `LoopTheorems.EveryRunBalances`, `Agents.Agent.RunWithLifecycle`).
4. Nothing queued is lost, duplicated or reordered over a whole run, `continue()` included (`LoopTheorems.QueuesConserved`, `RunTheorems.ContinueConserves`).
5. Every provider request is made from the initial transcript followed by exactly the messages announced so far (`Requests.EveryRequestIsInformed`), and none from one ending in an assistant message if and only if the first is not (`Transcripts.RequestsAreSafe`).
6. A run takes at most one turn plus one for each continuing tool batch and each drained message, and so ends when its environment stops asking for more (`LoopTheorems.RunTerminates`).
7. The proxy client rebuilds any content from any cutting into deltas, any interleaving of blocks, any framing by lines that carry no event and any chunking of the text, and its consumer hears of every block exactly once (`ProxyClients.WireRoundTrip`).
8. Over any sequence of prompts, continuations, queue uses and resets while idle, interleaved with runs that go on and settle, the agent has at most one run, every call but a reset extends the transcript, and whenever no run is in progress nothing is in flight (`Agents.UseAgent`).
9. The packer writes the fewest files of all order-preserving packings within the limit (`Packer.FewestFiles`), under names that are pairwise distinct (`Packer.FileNamesDiffer`).

## Where the code and its documentation differ

- `packages/agent/src/types.ts:404` calls `agent_end` the last event of a run. The loop returns without emitting it when it runs out of work (`packages/agent/src/agent-loop.ts:225-233`). The model follows the code: `Endings.NaturalExitIsSilent` gives such a run, and `Endings.AgentEndExactlyWhenDone` shows that the event is emitted if and only if the reply of a turn that was taken failed or its stop hook fired.
- `packages/agent/src/types.ts:127` promises a replacement model for the next request. The code ignores it unless a thinking level is given too; `TurnLogs.NextRequest` states exactly that of the next request.
- `Agent.prompt([])` after an assistant reply makes a request that ends in an assistant message; `Transcripts.EmptyPromptIsUnsafe` exhibits it.
- A stream with a second `start` event leaves a stale partial message in the loop's transcript; `Transcripts.SecondStartIsStale` gives one, and `Transcripts.ContextAgrees` shows that this is the only way the transcripts can come apart.
- The packer drops an empty transcript that would open a file; `Packer.LosslessExactly` states when packing is lossless, and `Packer.LeadingEmptyIsLost` gives an input where it is not.

## Model

| member | source | states |
|---|---|---|
| `ToolCalls.FindTool` | packages/agent/src/agent-loop.ts:610 | the lookup finds a tool of that name, and finds none exactly when there is none |
| `ToolCalls.FirstToolFound` | packages/agent/src/agent-loop.ts:610 | of several tools with one name the first is found |
| `ToolCalls.PreparationExact` | packages/agent/src/agent-loop.ts:603-667 | a call is executed if and only if its tool exists, its arguments are valid, no hook threw or blocked it and no abort was seen; every other call gets an error that does not ask to terminate |
| `ToolCalls.OverrideIsFieldwise` | packages/agent/src/agent-loop.ts:707-750 | the after-hook replaces exactly the fields it provides, compared with the same call without a hook |
| `Outcomes.OutcomeExact` | packages/agent/src/agent-loop.ts:669-750 | told from the environment's answers alone: a tool's result is a success as it is, a throwing tool or after-hook an error with its text, an override replaces what it provides, a refused call an error with the reason for the refusal |
| `Outcomes.PreparesWith` | packages/agent/src/agent-loop.ts:603-667 | a cleared call runs with the validated arguments or those the before-hook left; a refused one gets the text of the first reason that applies |
| `Outcomes.DeliveredExact` | packages/agent/src/agent-loop.ts:679-693 | exactly the updates reported before the tool settles are announced |
| `Outcomes.CallStory` | packages/agent/src/agent-loop.ts:447-545 | in every turn, mode and schedule, a cleared call's entries are its start, its execution with those arguments, those updates in order, and its end with that outcome |
| `Outcomes.TurnResultExact` | packages/agent/src/agent-loop.ts:164-186 | the i-th result message of a turn says how the i-th call came out |
| `ToolCalls.RefusedNeverTerminates` | packages/agent/src/agent-loop.ts:585-587 | one refused call in a batch is enough to keep the batch from ending the run |
| `ToolCalls.ReachedExact` | packages/agent/src/agent-loop.ts:447-484 | a batch processes a non-empty prefix of its calls, cut short only right after an observed abort |
| `Messages.CallsExact` | packages/agent/src/agent-loop.ts:422 | the calls of a reply are exactly its call blocks, in order |
| `Batch.EveryInterleavingIsScheduled` | packages/agent/src/agent-loop.ts:525-545 | every way of letting running calls advance in any order is produced by some schedule |
| `Batch.EveryScheduleInterleaves` | packages/agent/src/agent-loop.ts:525-545 | every schedule runs all calls to completion, one of the unfinished ones moving at each step |
| `Batch.CallLifecycle` | packages/agent/src/agent-loop.ts:502-545 | in both modes and under every schedule a call's entries are start, then execution and updates if cleared, then exactly one end |
| `Batch.ParallelRefinesSequential` | packages/agent/src/agent-loop.ts:436-557 | whatever the schedule, the parallel batch logs the entries of the sequential one in another order, announces the same results in the same order, and reaches the same verdict on termination, the one the code computes from the outcomes |
| `Batch.HistoriesAgree` | packages/agent/src/agent-loop.ts:436-557 | both modes give every call the same history, where ids tell the calls apart |
| `Batch.ExecutionBarrier` | packages/agent/src/agent-loop.ts:502-551 | in parallel mode no tool executes before the preparation of every processed call is through, each start and each refusal logged, and none is running once results are announced |
| `BatchProtocol.SequentialAccepted` | packages/agent/src/agent-loop.ts:447-484 | a sequential batch follows the protocol and leaves it with no open call, all results reported and the right verdict on termination |
| `BatchProtocol.ParallelAccepted` | packages/agent/src/agent-loop.ts:502-556 | the same for a parallel batch under every schedule |
| `Streaming.StreamedExact` | packages/agent/src/agent-loop.ts:331-409 | streaming adds exactly the final message to the transcript if and only if at most one start event was read; each further one leaves one stale message |
| `Streaming.StreamAccepted` | packages/agent/src/agent-loop.ts:384-408 | the announced reply is one well-formed bracket if and only if at most one start event was read |
| `Streaming.StreamEnded` | packages/agent/src/agent-loop.ts:331-346 | any stream announces exactly one finished message, the final one |
| `Streaming.StreamTold` | packages/agent/src/agent-loop.ts:384-408 | every partial from the first start event on is announced in order, then the final message |
| `Streaming.LatestShown` | packages/agent/src/agent-loop.ts:385-402 | while a reply streams in, the transcript ends with its latest partial |
| `Loop.ModelNeedsThinkingLevel` | packages/agent/src/agent-loop.ts:152-162 | a replacement model takes effect if and only if a thinking level comes with it |
| `TurnLogs.NextRequest` | packages/agent/src/agent-loop.ts:146-162 | the next turn's one request uses a replacement context as it is, a replacement model if and only if a thinking level came with it, and that level, `off` meaning none |
| `TurnLogs.TurnLog` | packages/agent/src/agent-loop.ts:256-318 | a turn logs its opening with one request, its batch, its end and its polls, and `agent_end` exactly after a failed reply or the stop hook |
| `TurnLogs.RunAnnounces` | packages/agent/src/agent-loop.ts:188-201 | from whatever state a run goes on, what it announces is what it adds to `newMessages` |
| `Loop.TurnSplit` | packages/agent/src/agent-loop.ts:219-231 | the nested loops and the turn-by-turn machine agree: follow-ups are asked for exactly when the run goes on, no batch continues and nothing is pending |
| `LoopProtocol.StartConforms` | packages/agent/src/agent-loop.ts:95-118 | every run opens as the protocol demands, with the prompts announced and the first batch due |
| `LoopProtocol.TurnConforms` | packages/agent/src/agent-loop.ts:256-318 | a turn keeps a run within the protocol if and only if its stream had at most one start event |
| `LoopProtocol.EveryRunConforms` | packages/agent/src/agent-loop.ts:206-318 | the log of every run is accepted by the monitor if and only if each stream it read had at most one start event, and the monitor then stands where the exit says |
| `LoopTheorems.EveryRunBalances` | packages/agent/src/agent-loop.ts:188-233 | announced messages are exactly the new messages; messages announced ahead of requests are the prompts and then everything drained, in order and once; a finished run holds back nothing |
| `LoopTheorems.QueuesConserved` | packages/agent/src/agent.ts:134-147 | over a whole run with any enqueues and mode changes, what was drained followed by what is left is what was there followed by what was added |
| `LoopTheorems.TurnBound` | packages/agent/src/agent-loop.ts:216-232 | every turn but the first is paid for by a continuing batch before it or a newly drained message |
| `LoopTheorems.RunTerminates` | packages/agent/src/agent-loop.ts:216-232 | a run has exited once its script is longer than one plus its continuing batches plus all messages ever queued |
| `Transcripts.ResultsPaired` | packages/agent/src/agent-loop.ts:164-186 | results answer the reply's calls one by one from the first, at least one if there is a call, all of them unless an abort was observed |
| `Transcripts.RunProduces` | packages/agent/src/agent-loop.ts:267-286 | a run's new messages are blocks of injected messages, a reply and directly its results |
| `Transcripts.ContextAgrees` | packages/agent/src/agent-loop.ts:95-201 | the loop's transcript is the initial one followed by the new messages if and only if no stream had a second start event |
| `Transcripts.SecondStartIsStale` | packages/agent/src/agent-loop.ts:384-392 | a stream with two start events, after which the transcripts differ |
| `Transcripts.RequestsAreSafe` | packages/agent/src/agent-loop.ts:120-143 | no request ends in an assistant message if and only if the first does not, which a caller can check before the run |
| `Requests.EveryRequestIsInformed` | packages/agent/src/agent-loop.ts:352-378 | every provider request is made from the initial transcript followed by exactly the messages announced so far |
| `Transcripts.EmptyPromptIsUnsafe` | packages/agent/src/agent.ts:327-335 | an empty prompt after an assistant reply makes an unsafe request |
| `Transcripts.NaturalExitLeavesNothing` | packages/agent/src/agent-loop.ts:219-231 | a run that ends on its own leaves no follow-up queued, and no steering message unless queued between its last two polls |
| `AgentView.ReducedTranscript` | packages/agent/src/agent.ts:519-522 | the public transcript grows by exactly the announced messages |
| `AgentView.ViewShowsProtocol` | packages/agent/src/agent.ts:509-547 | along any accepted log the pending calls are the started and not ended ones, and a message streams exactly inside a bracket |
| `AgentView.StreamingIsLatest` | packages/agent/src/agent.ts:509-522 | the streaming message is that of the last start or update, and none once a message or the run has ended |
| `AgentView.ErrorIsLatest` | packages/agent/src/agent.ts:538-542 | the error text is that of the last turn whose reply carries one |
| `ProtocolFacts.AgentEndIsLast` | packages/agent/src/types.ts:404-411 | `agent_end` directly follows a turn's end, is the last entry and carries every announced message |
| `ProtocolFacts.ClosedByAgentEnd` | packages/agent/src/types.ts:404-411 | the protocol is closed exactly by `agent_end` |
| `ProtocolFacts.FollowUpWaitsForSteering` | packages/agent/src/agent-loop.ts:219-226 | follow-ups are polled only right after an empty steering poll that follows the end of a turn without a continuing batch |
| `ProtocolFacts.UpdatesStayInBracket` | packages/agent/src/agent-loop.ts:384-406 | a partial message appears only inside an assistant bracket that holds nothing else |
| `ProtocolFacts.TurnEndsSettled` | packages/agent/src/agent.ts:524-536 | when a turn ends no call is pending and nothing streams |
| `Exclusion.SequentialExclusion` | packages/agent/src/agent-loop.ts:421-484 | in every reachable state of a turn with a sequential configuration or a call for a sequential tool, at most one call is pending, and a call starts only when exactly the results of all the calls before it have been announced, whatever mode other turns use |
| `Exclusion.DispatchExact` | packages/agent/src/agent-loop.ts:421-428 | a batch is sequential exactly when the configuration is, or when some call's tool, the first of its name, is sequential |
| `Exclusion.OtherwiseParallel` | packages/agent/src/agent-loop.ts:421-428 | in any other turn every call reached is started and prepared before any executes |
| `Exclusion.OtherwiseOverlaps` | packages/agent/src/agent-loop.ts:502-545 | and all cleared calls are pending at once |
| `Exclusion.SequentialConfiguration` | packages/agent/src/agent-loop.ts:425-427 | under a sequential configuration at most one call is pending in every reachable state of every run |
| `Exclusion.RunSettles` | packages/agent/src/agent.ts:524-536 | no call is pending between two turns, also with repeated ids and malformed streams |
| `RunTheorems.PublicStateTracksRun` | packages/agent/src/agent.ts:509-547 | at every point of every run the public state shows exactly the open calls and the open bracket |
| `Endings.AgentEndExactlyWhenDone` | packages/agent/src/agent-loop.ts:273-307 | for all runs: `agent_end` is emitted if and only if the reply of a turn that was taken failed or its stop hook fired, it is then last and carries the new messages, and there is no other |
| `Endings.NaturalExitIsSilent` | packages/agent/src/agent-loop.ts:225-233 | a greeting and a plain answer make a finished run without `agent_end` |
| `RunTheorems.RefusedCallForcesTurn` | packages/agent/src/agent-loop.ts:603-667 | a refused call is never executed, ends with an error, and forces another turn unless the stop hook fires |
| `RunTheorems.ContinueConserves` | packages/agent/src/agent.ts:348-359 | messages drained by continuing open the run; with the run's drains and what stays queued they are all that was ever queued, in order |
| `AgentLemmas.ContinuationSound` | packages/agent/src/agent.ts:343-364 | continuing is refused exactly after an assistant message with both queues empty, and otherwise the transcript with what was drained can be sent |
| `AgentLemmas.ContinuationExact` | packages/agent/src/agent.ts:343-364 | said of the queues alone: steering messages go first, follow-ups only without any, by the queue's mode; the other queue is untouched, and nothing is taken where the transcript does not end in an assistant message |
| `RunTheorems.ContinueOpens` | packages/agent/src/agent.ts:348-359 | a continued run opens with that batch, and no further steering message joins a steering batch before the first request |
| `RunTheorems.ContinueIsSafe` | packages/agent/src/agent.ts:348-364 | every request of a continued run, the first included, is made from a transcript that can be sent |
| `Agents.PendingMessageQueue.constructor` | packages/agent/src/agent.ts:122-124 | a new queue is empty |
| `Agents.PendingMessageQueue.Enqueue` | packages/agent/src/agent.ts:126-128 | the message goes to the back, the rest is unchanged |
| `Agents.PendingMessageQueue.HasItems` | packages/agent/src/agent.ts:130-132 | true exactly for a non-empty queue |
| `Agents.PendingMessageQueue.Drain` | packages/agent/src/agent.ts:134-147 | what is taken followed by what is left is what was there; nothing is taken only from an empty queue; all or at most one by mode |
| `Agents.PendingMessageQueue.ClearItems` | packages/agent/src/agent.ts:149-151 | the queue is empty |
| `Agents.Agent.constructor` | packages/agent/src/agent.ts:201-219 | a new agent is idle, with the given transcript and empty queues |
| `Agents.Agent.Steer` | packages/agent/src/agent.ts:264-266 | only the steering queue changes, by the message at its back |
| `Agents.Agent.FollowUpWith` | packages/agent/src/agent.ts:269-271 | only the follow-up queue changes, by the message at its back |
| `Agents.Agent.Perform` | packages/agent/src/agent.ts:245-281 | an enqueue appends, a mode change keeps the messages, a clear empties the queue; the other queue stays as it was |
| `Agents.Agent.PerformAll` | packages/agent/src/agent.ts:245-281 | a sequence of uses has the effect of its parts in order |
| `Agents.Agent.ProcessEvents` | packages/agent/src/agent.ts:509-556 | the public state stays the fold of the run's events, also when a listener throws; outside a run it throws |
| `Agents.Agent.HandleRunFailure` | packages/agent/src/agent.ts:476-492 | a failed run is closed by announcing one failure message; at most that message is added |
| `Agents.Agent.FinishRun` | packages/agent/src/agent.ts:494-500 | the agent is idle with nothing in flight |
| `Agents.Agent.BeginRun` | packages/agent/src/agent.ts:461-465 | the run starts from the present transcript with an empty log, and streaming begins with it |
| `Agents.Agent.Settle` | packages/agent/src/agent.ts:467-473 | a run that threw is reported before it is finished, by a message that carries the error and says whether it was aborted; the transcript only grows and the agent is idle even if the report throws |
| `Agents.Agent.RunWithLifecycle` | packages/agent/src/agent.ts:451-474 | one run at a time; the transcript only grows, by the run's new messages if no listener throws during the run; every settled run, throwing or not, leaves an idle agent |
| `Agents.Agent.Resume` | packages/agent/src/agent.ts:467-473 | a run in progress goes on from where it stands to where the loop specifies, and settles like any other |
| `Agents.PromptInParts` | packages/agent/src/agent-loop.ts:206-233 | a run interrupted between two turns and resumed is the run without the interruption |
| `Agents.Agent.Prompt` | packages/agent/src/agent.ts:327-335 | rejected without effect while a run is active, otherwise the run the loop specifies |
| `Agents.Agent.RunPromptMessages` | packages/agent/src/agent.ts:386-412 | the run the loop specifies, from prompts or as a continuation without any |
| `Agents.Agent.ContinueFromQueues` | packages/agent/src/agent.ts:348-361 | after an assistant message, steering goes before follow-ups, what is drained is what is run, and with both queues empty the call is refused without effect |
| `Agents.Agent.Continue` | packages/agent/src/agent.ts:338-365 | rejected without effect in the three documented cases, otherwise the run from the transcript or from the drained queue |
| `Agents.Agent.Reset` | packages/agent/src/agent.ts:314-322 | everything is cleared, and the lifecycle invariant survives if and only if no run is active |
| `Agents.UseAgent` | packages/agent/src/agent.ts:314-365 | over any sequence of prompts, continuations, queue uses, resets while idle and runs that go on, with any throwing listener: at most one run, streaming exactly while it is active, a transcript that grows with every call but a reset, and an idle agent whenever no run is in progress |
| `Agents.LoopRun.constructor` | packages/agent/src/agent.ts:414-449 | a run starts from a snapshot of the agent's transcript, tools and configuration |
| `Agents.LoopRun.GetSteeringMessages` | packages/agent/src/agent.ts:440-446 | the poll drains the steering queue, or skips once |
| `Agents.LoopRun.GetFollowUpMessages` | packages/agent/src/agent.ts:447 | the poll drains the follow-up queue |
| `Agents.LoopRun.ProcessPendingMessages` | packages/agent/src/agent-loop.ts:188-201 | pending messages are announced in order and appended to both lists |
| `Agents.LoopRun.FinalizeStreamMessage` | packages/agent/src/agent-loop.ts:331-346 | the final message replaces the last partial, or is appended and announced |
| `Agents.LoopRun.HandleStreamEvent` | packages/agent/src/agent-loop.ts:384-405 | one stream event shows its partial and announces it, or is ignored before the first start |
| `Agents.LoopRun.ReadEvents` | packages/agent/src/agent-loop.ts:384-406 | after any number of events the transcript ends with the partials shown so far and the log announces exactly them |
| `Agents.LoopRun.StreamAssistantResponse` | packages/agent/src/agent-loop.ts:352-409 | the loop over stream events leaves the transcript and the log the stream is specified to leave |
| `Agents.LoopRun.ExecutePreparedToolCall` | packages/agent/src/agent-loop.ts:669-705 | exactly the updates reported before the tool settles are emitted |
| `Agents.LoopRun.PrepareAndExecute` | packages/agent/src/agent-loop.ts:455-473 | a refused call has its error outcome at once, a cleared one executes and is finalised |
| `Agents.LoopRun.RunCall` | packages/agent/src/agent-loop.ts:448-475 | one call from start to end, with the outcome its oracle determines |
| `Agents.LoopRun.RunAndReport` | packages/agent/src/agent-loop.ts:448-479 | one call of a sequential batch with its result announced |
| `Agents.LoopRun.ExecuteToolCallsSequential` | packages/agent/src/agent-loop.ts:436-490 | the loop yields the outcomes of the reached calls and the sequential log |
| `Agents.LoopRun.StartCall` | packages/agent/src/agent-loop.ts:503-537 | a call is started and prepared; a refused one ends at once |
| `Agents.LoopRun.PrepareToolCalls` | packages/agent/src/agent-loop.ts:502-541 | the preparation loop starts the reached calls in order and executes none |
| `Agents.LoopRun.AwaitAll` | packages/agent/src/agent-loop.ts:543-545 | under any schedule the outcomes come back in source order |
| `Agents.LoopRun.AnnounceAll` | packages/agent/src/agent-loop.ts:547-551 | the messages are announced in order, one bracket each |
| `Agents.LoopRun.ExecuteToolCallsParallel` | packages/agent/src/agent-loop.ts:492-557 | the batch yields the same outcomes as the sequential one, and the log of its schedule |
| `Agents.LoopRun.ProcessToolCalls` | packages/agent/src/agent-loop.ts:164-186 | results are appended to both lists, and more is wanted exactly for a continuing batch |
| `Agents.LoopRun.OpenTurn` | packages/agent/src/agent-loop.ts:263-268 | the turn's opening, with pending messages injected |
| `Agents.LoopRun.AskAssistant` | packages/agent/src/agent-loop.ts:270-271 | the reply streamed and recorded |
| `Agents.LoopRun.FailTurn` | packages/agent/src/agent-loop.ts:273-277 | the exit after a failed or aborted reply |
| `Agents.LoopRun.EndTurn` | packages/agent/src/agent-loop.ts:288 | the end of the turn is announced with its results |
| `Agents.LoopRun.WorkTurn` | packages/agent/src/agent-loop.ts:279-288 | the tool batch and the end of the turn |
| `Agents.LoopRun.PrepareNextTurn` | packages/agent/src/agent-loop.ts:290-296 | the snapshot is applied to context and configuration |
| `Agents.LoopRun.CompleteTurn` | packages/agent/src/agent-loop.ts:279-317 | the rest of a turn whose reply did not fail, up to the steering poll |
| `Agents.LoopRun.RunOneTurn` | packages/agent/src/agent-loop.ts:256-318 | one turn is one step of the machine |
| `Agents.LoopRun.RunScriptedTurn` | packages/agent/src/agent-loop.ts:219-223 | a turn of the inner loop leads on to where the specified run ends |
| `Agents.LoopRun.RunTurns` | packages/agent/src/agent-loop.ts:217-223 | the inner loop gets as far as the specified run does |
| `Agents.LoopRun.AskForFollowUps` | packages/agent/src/agent-loop.ts:225-231 | follow-ups start the turns again, and without any the run has ended where it is specified to |
| `Agents.LoopRun.RunFollowUps` | packages/agent/src/agent-loop.ts:216-232 | the outer loop ends exactly where the specified run does |
| `Agents.LoopRun.RunLoop` | packages/agent/src/agent-loop.ts:206-233 | the nested loops compute the run the machine specifies |
| `Agents.LoopRun.AnnouncePrompts` | packages/agent/src/agent-loop.ts:103-114 | prompts join both lists and are announced in order after the run's and the turn's start |
| `Agents.LoopRun.RunAgentLoop` | packages/agent/src/agent-loop.ts:95-143 | a whole run from its first event; a throwing listener leaves the public state the fold of the events so far |
| `ProxyLines.SplitExact` | packages/agent/src/proxy.ts:192-193 | the pieces contain no newline and put back together are the text |
| `ProxyLines.SplitUnique` | packages/agent/src/proxy.ts:192-193 | there is no other way of cutting the text at its newlines |
| `ProxyLines.SplitContinues` | packages/agent/src/proxy.ts:191-193 | splitting the buffered rest with the next chunk continues the splitting of the whole text |
| `Proxy.BlocksAreIndependent` | packages/agent/src/proxy.ts:238-348 | whatever is interleaved, each block is what its own events make of it, and the stream is accepted exactly when each block's events are |
| `Proxy.BlockRoundTrip` | packages/agent/src/proxy.ts:246-347 | the events of one block rebuild it from any cutting into deltas; arguments are the parse of the whole JSON text |
| `Proxy.AcceptedExactly` | packages/agent/src/proxy.ts:238-348 | a block's events are accepted exactly when every delta, and every end of a text or of thinking, follows a start of its kind |
| `Proxy.DeltaAfterEnd` | packages/agent/src/proxy.ts:310-341 | a delta after a call's end starts its JSON text anew, from the word "undefined" |
| `Proxy.RoundTrip` | packages/agent/src/proxy.ts:238-348 | any content, cutting and interleaving across indices is rebuilt block by block, with no failure and no extra block |
| `ProxyClients.ProxyClient.constructor` | packages/agent/src/proxy.ts:121-137 | the message starts empty |
| `ProxyClients.ProxyClient.ProcessProxyEvent` | packages/agent/src/proxy.ts:238-367 | an event changes the message in place as specified, or throws and changes nothing |
| `ProxyClients.ProxyClient.ProcessBlockEvent` | packages/agent/src/proxy.ts:246-348 | a block event touches only its own index |
| `ProxyClients.ProxyClient.ProcessLine` | packages/agent/src/proxy.ts:195-206 | one line has the specified effect, a line without payload none |
| `ProxyClients.ProxyClient.ReadChunk` | packages/agent/src/proxy.ts:191-206 | a chunk processes the lines it completes and keeps the rest |
| `ProxyClients.ProxyClient.ReadStream` | packages/agent/src/proxy.ts:183-224 | the outcome depends on the whole text and how reading ended only, not on the chunks: exactly the terminated lines are processed, up to the first failure, and a failed or aborted read is reported as such |
| `ProxyClients.ProxyClient.ReportError` | packages/agent/src/proxy.ts:214-224 | a failure marks the message with its reason and is passed on |
| `ProxyClients.WireRoundTrip` | packages/agent/src/proxy.ts:183-224 | content sent as events arrives as the same content under any interleaving, any chunking and any lines in between that carry no event; the consumer hears of each block its start, its pieces in order and its whole and of nothing else, and the message ends as the stream or the connection had it |
| `ProxyClients.PayloadExact` | packages/agent/src/proxy.ts:196-198 | a line's payload is what follows the prefix without the white space around it, and other lines have none |
| `ProxyClients.FirstFailure` | packages/agent/src/proxy.ts:195-224 | the first line that cannot be decoded or applied ends the reading with its error, and nothing after it counts |
| `ProxyClients.FramedPayloads` | packages/agent/src/proxy.ts:195-198 | the framing of server-sent events, a data line and a blank line each, delivers every text in order |
| `Packer.PackingIsLossless` | scripts/session-transcripts-split-helpers.ts:26-45 | joining the files of any grouping is joining all the transcripts |
| `Packer.FirstCutMaximal` | scripts/session-transcripts-split-helpers.ts:27-29 | the open file is feasible and no longer one would be |
| `Packer.GreedyIsOptimal` | scripts/session-transcripts-split-helpers.ts:26-44 | no order-preserving feasible grouping has fewer groups than the greedy one |
| `Packer.Thinned` | scripts/session-transcripts-split-helpers.ts:26-44 | leaving transcripts out of a packing leaves a packing with no more files |
| `Packer.FewestFiles` | scripts/session-transcripts-split-helpers.ts:26-44 | for all inputs, the packer writes no more files than any order-preserving packing |
| `Packer.LosslessExactly` | scripts/session-transcripts-split-helpers.ts:11-46 | joining the files gives back all transcripts joined if and only if no empty transcript was dropped, in particular if none is empty |
| `Packer.LeadingEmptyIsLost` | scripts/session-transcripts-split-helpers.ts:41 | an empty first transcript is lost together with its separator |
| `Packer.EmptiesExactly` | scripts/session-transcripts-split-helpers.ts:41 | an empty transcript at the very beginning has no effect; where everything fits into one file, later ones are kept with their separators |
| `Packer.FilesAreBounded` | scripts/session-transcripts-split-helpers.ts:27-39 | a file over the limit is exactly one of the transcripts |
| `Packer.FileNameReads` | scripts/session-transcripts-split-helpers.ts:18 | a file's name carries its index in decimal, padded to three digits |
| `Packer.FileNamesDiffer` | scripts/session-transcripts-split-helpers.ts:18 | no two files get the same name |
| `Packer.Splitter.constructor` | scripts/session-transcripts-split-helpers.ts:12-14 | nothing is written and the index is zero |
| `Packer.Splitter.Write` | scripts/session-transcripts-split-helpers.ts:33-37 | one more file, named by the index |
| `Packer.Splitter.FlushCurrent` | scripts/session-transcripts-split-helpers.ts:16-24 | the open file is written and closed, an empty one is not |
| `Packer.Splitter.MakeRoom` | scripts/session-transcripts-split-helpers.ts:27-29 | closing a file that is full does not change what will have been written in the end |
| `Packer.Splitter.Place` | scripts/session-transcripts-split-helpers.ts:31-41 | neither does placing the next transcript |
| `Packer.Splitter.Add` | scripts/session-transcripts-split-helpers.ts:27-41 | one transcript more does not change what will have been written in the end |
| `Packer.Splitter.Finalize` | scripts/session-transcripts-split-helpers.ts:44 | the last file is written, and with it everything that was due |
| `Packer.Splitter.SplitTranscripts` | scripts/session-transcripts-split-helpers.ts:11-46 | the loop writes exactly the greedy packing, the index is the number of files, and the names are pairwise distinct |

## Left out

- `transformContext`, `convertToLlm`, API keys and provider options: a request is recorded with the transcript handed to them, and what they make of it is not modelled.
- Timestamps, token usage and costs: carried or ignored by the code without deciding anything.
- A replacement context from `prepareNextTurn`: it is in the model, but `Transcripts.ContextAgrees`, `Transcripts.RequestsAreSafe` and `Requests.EveryRequestIsInformed` are about runs without one, since a caller's own context can be anything.
- Repeated tool-call ids within one reply: the protocol results require them to be distinct, as ids are what the events identify calls by.
- Calls of a parallel batch that go on running after a listener threw: the source lets them emit events after the run has settled; the model stops at the throw.
- A listener that throws on a tool update: the source lets the tool settle before it propagates the error, the model propagates it at once; on throwing runs only settlement and growth of the transcript are claimed.
- `Agents.UseAgent`: does not include `reset()` or an assignment to the transcript during a run, which break the lifecycle; `Agents.Agent.Reset` states exactly when a reset keeps it.
- `abort()` and `waitForIdle()`: the abort signal is an oracle read where the source reads it, and promises are not modelled.
- Aliasing of message objects: events in the source share message objects with the transcript, the model copies values.
- Fetching, UTF-8 decoding, JSON parsing, the abort listener and the HTTP error path of the proxy client: outside code and I/O; `JSON.parse` and `parseStreamingJson` are arbitrary functions, and an abort or a broken connection is an input that says after which chunk reading ends.
- Delivery order inside `EventStream`: the client records what it pushes.
- Strings are sequences of characters of one size; the source counts UTF-16 code units.
- Writing files and console output of the packer: the model records file names and contents.
- Other packages, session storage, the CLI and the user interface: not part of this model.
