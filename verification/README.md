# Brewva protocols in Dafny

A model of five connected parts of Brewva, with proofs about every run of each. `dafny verify dfyconfig.toml` checks
the whole project.

- **Agent run engine** (`AgentMessages`, `AgentEvents`, `PendingQueue`, `AgentEngine`, `ToolBatch`, `AgentLoop`,
  `AgentRun`, `EventStream`). The nested turn loop over an untrusted model stream, sequential and parallel tool
  execution, the two message queues, the steer slot and the two copies of the transcript. Stream events, hook and tool
  answers, throws and listener answers are arbitrary values chosen at the point where they arrive; client calls
  (`queue`, `followUp`, `removeQueuedMessage`, `steer`, `abort`) and callbacks of tool bodies that nobody awaits
  happen in any number at every await; parallel tool bodies interleave in any order. The events form a ghost trace, in
  the order in which they are emitted, on which grammar, phase paths, steer reports and queue conservation are stated.
  Any earlier moment of a run can be marked, and every method keeps the histories of the marked moments: no accepted
  text, enqueued message, event, model call or input is ever forgotten. What streams and after-hooks did is taken down
  beside it, so that the conditions of the theorems are about these inputs.
- **Session execution coordinator** (`SessionLock`, `ExecutionCoordinator`). The reader/writer lock of a session as a
  value with its theorems over runs, and the coordinator with its state objects, release closures and abort listeners,
  proved against it. Deleting and recreating state objects is shown to be invisible.
- **Telegram delivery** (`ReplayStore`, `Ingress`, `Delivery`, `RateLimiter`, `PollLoop`). Ingress dedupe under
  overlapping requests, the webhook worker and the ingress joined by a network that loses and delays requests and
  responses, the rate limiter, and the long-poll loop against a server that follows the `getUpdates` section of the
  Telegram Bot API.
- **Evidence planes** (`PlaneCache`, `Retention`, `Sorting`). The digest-validated cache shared by several instances,
  and the pruner's optimality.
- **Lineages** (`Ancestry`, `ProgressKeys`, `Lineage`). Ancestor resolution, progress keys, comparators, grouping.

## What the code does not do

These are properties a reader might expect of the code and that fail; each has inputs for which it fails and the exact
condition under which it holds.

- A throwing after-hook leaves tool calls without results: pairing holds after a run if and only if it held before the
  run and none threw (`AgentRun.Prompt`, `AgentLoop.UnansweredTurn`). In parallel mode it also leaves the bodies of
  the later calls running (`ToolBatch.ExecuteParallel`, `AgentRun.LeaveOne`).
- agent_end need not be the last event heard: a body left behind, or a tool that calls back after it has settled,
  emits an update whenever it likes (`AgentRun.OrphanSpeaks`, `AgentRun.SettledSpeaks`). An update can follow it
  exactly if some body was left behind or has settled (`AgentRun.CallBack`, `AgentRun.LateFacts`), and such updates
  tear the brackets exactly if one falls outside a turn or into a message (`AgentEvents.HeardEndsOnce`,
  `AgentEvents.HeardBracketed`).
- A stream that starts twice tears the message bracketing and separates loop context from transcript
  (`AgentRun.Prompt`, `AgentRun.InStepStream`); each model call sees equal copies exactly if prompts were kept and no
  stream had started twice before it (`AgentRun.RequestsStep`).
- The worker takes a 409 for a success, also while the dispatch it collides with is still running. Its view is honest
  throughout a run if and only if every 409 finds a success of its key (`Delivery.HonestIffWarranted`,
  `Delivery.FalseAcknowledgement`).
- A dispatch that outlives its TTL can overlap another one and delete its reservation (`Ingress.OverlapIff`,
  `Ingress.LateRollback`).
- An aborted waiter does not drain the queue, so a new shared request can pass waiting shared ones
  (`SessionLock.SharedMayOvertakeShared`). Nobody can be passed in exactly the runs in which no abort, with no
  exclusive holder, takes the last exclusive waiter away and leaves others waiting (`SessionLock.FifoIff`).
- The pruner keeps one of several artifacts tied for best of their kind below its minimum. If every best artifact may
  be kept, its selection is optimal exactly without such ties (`Retention.OptimalIffTieFree`, `Retention.TieExists`).
- A completing push wakes one parked consumer; a second one stays parked until `end` (`EventStream.Stream.Push`).
- Ancestor resolution gives child and parent different roots on cycles (`Ancestry.SameRootIff`), and equal-time links
  to different parents are resolved by enumeration order: the parents are the same for every order exactly if all
  latest links of each child name one parent (`Ancestry.OrderFreeIffAgree`, `Ancestry.DisagreementMatters`).
- Branch keys collide: two roots can share a key exactly if one, with its separator, is a proper suffix of the other
  (`Lineage.CollideIffNested`, `Lineage.NestedCollide`), and then the lineages depend on the order of the records
  (`Lineage.OrderFreeIffKeysTell`).

## Hypotheses

- Listeners do not throw and answer a message_end within `AgentEngine.ListenerMay`: same role, a tool result keeps its
  call id and stays visible, an assistant message is hidden only if it failed, and a failed one stays failed.
- The final message of a stream does not come with `excludeFromContext` already set.
- Prompts and queued messages are user or other input messages; nobody appends to or replaces the transcript from
  outside during a run.
- Clocks do not run backwards where times matter (ingress runs, rate limiter).
- The rate limiter is used with one window length and one maximum, at least 1.
- Session logs are append-only (`PlaneCache`).
- `localeCompare` is an arbitrary comparator on strings; order independence of lineages also needs that it tells
  different strings apart.

## Model

| member | source | states |
|---|---|---|
| `AgentRun.Prompt` | packages/brewva-agent-engine/src/brewva-agent-engine.ts:305-313 | the whole-run theorem, for any answers of model, hooks, tools, listeners and clients and whatever earlier runs left behind: a prompt is refused exactly if a run is active; after a run the view of the transcript is well paired exactly if it was before and no after-hook of the run threw, and without such a throw every call of the run has walked a whole phase path; the run emits one agent_end, as its last event, which is the last event heard exactly if no late tool update follows, and the run is all that is heard if no body was left behind or has settled; a run that ends by itself is well bracketed exactly if none of its streams started twice, names in agent_end the prompts followed by what it added, and that is the new end of the transcript exactly if every prompt was committed as emitted; every model call saw a transcript paired exactly if the one before the run was, with failures hidden, equal to the loop context exactly if prompts were kept and no stream had started twice by then, and without a context transform was sent exactly the view of the context; accepted steer texts, enqueued messages, emitted events, model calls and inputs known before the run are all still known after it, so that steer texts and queued messages are conserved; a run that is not over stands at the head of a turn with all of this kept |
| `AgentRun.QueuedConserved` | packages/brewva-agent-engine/src/brewva-agent-engine.ts:101-136 | between runs, of the messages that no client asks to remove, exactly those ever enqueued have been committed or still wait, in the order they came |
| `AgentRun.FinishRun` | packages/brewva-agent-engine/src/brewva-agent-engine.ts:430-456 | catch and finally: whether the loop ended or threw, the run is left as the whole-run theorem says |
| `AgentRun.RecoverRun` | packages/brewva-agent-engine/src/brewva-agent-engine.ts:449-452 | the failure tail neither repairs nor breaks the pairing, and closes the run |
| `AgentRun.HandleRunFailure` | packages/brewva-agent-engine/src/brewva-agent-engine.ts:458-501 | the tail is at most one steer_dropped with the reason of the abort flag, the failure message with the matching stop reason, turn_end and agent_end naming the committed message; that message is failed and hidden; pairing, phases, inputs and requests are untouched and every accepted steer text has been reported |
| `AgentRun.RunAgentLoop` | packages/brewva-agent-engine/src/agent-loop.ts:121-144 | from any transcript, every way the loop can come out is closed with the pairing as it was, abandoned and then paired exactly if it was before and no after-hook threw, or unfinished at the head of a turn; newMessages begins with the prompts and no history is shortened |
| `AgentRun.StartRun` | packages/brewva-agent-engine/src/agent-loop.ts:128-140 | agent_start, turn_start and the prompts bring any engine whose run has just begun to the head of the first turn, the pairing as it was, the copies in step exactly if the prompts were committed as emitted |
| `AgentRun.RunLoop` | packages/brewva-agent-engine/src/agent-loop.ts:146-285 | the nested loops keep the turn invariant through every turn, forget nothing, and leave a run closed, abandoned or unfinished |
| `AgentRun.Turn` | packages/brewva-agent-engine/src/agent-loop.ts:159-274 | one turn goes on, closes the run or abandons it, with calls unanswered exactly if an after-hook of the turn threw; whatever histories were known at its start are still known |
| `AgentRun.ActOn` | packages/brewva-agent-engine/src/agent-loop.ts:182-272 | failed answers drop the steer and end the run; calls are answered before the turn ends; a throw leaves the run abandoned |
| `AgentRun.OpenTurn` | packages/brewva-agent-engine/src/agent-loop.ts:160-176 | turn_start except in the first turn, then the pending inputs join transcript, context and newMessages alike |
| `AgentRun.TakeInputs` | packages/brewva-agent-engine/src/agent-loop.ts:166-176 | the committed inputs extend all three copies by the same messages, so their agreement or difference is kept |
| `AgentRun.Respond` | packages/brewva-agent-engine/src/agent-loop.ts:178-180 | the answer joins the three copies, whose agreement now depends on whether the stream started twice; a throwing stream leaves the run abandoned and paired |
| `AgentRun.FailTurn` | packages/brewva-agent-engine/src/agent-loop.ts:182-194 | an error or abort stop closes the run: before turn_end and agent_end at most one steer_dropped with the matching reason, after which every accepted text has been reported |
| `AgentRun.DropSteer` | packages/brewva-agent-engine/src/agent-loop.ts:183-190 | consumes and reports the pending texts as one block with the given reason, or nothing; either way every text accepted so far has then been reported |
| `AgentRun.AnswerCalls` | packages/brewva-agent-engine/src/agent-loop.ts:196-263 | throws exactly if an after-hook of the turn threw, leaving its calls unanswered; otherwise every call has exactly one result before the next turn, or, without calls, the pending steer is dropped as no_tool_boundary and every accepted text has been reported |
| `AgentRun.RunCalls` | packages/brewva-agent-engine/src/agent-loop.ts:202-253 | the results of a turn with calls join the three copies, unless an after-hook threw |
| `AgentRun.FinishTurn` | packages/brewva-agent-engine/src/agent-loop.ts:265-272 | turn_end, then going on, stopping after results with agent_end, or a throw of the stop hook |
| `AgentRun.AskToStop` | packages/brewva-agent-engine/src/agent-loop.ts:266-272 | the question whether to stop goes on, closes the run or abandons it, never with calls unanswered |
| `AgentRun.DrainPrompts` | packages/brewva-agent-engine/src/agent-loop.ts:154-154 | what is drained is what the next turn commits, in order |
| `AgentRun.DrainFollowUps` | packages/brewva-agent-engine/src/agent-loop.ts:276-280 | asked for only when the last prompt drain was empty and no tool call remained; what is drained is committed by the next turn |
| `AgentRun.EndRun` | packages/brewva-agent-engine/src/agent-loop.ts:282-283 | a run with nothing left to do closes with agent_end carrying newMessages |
| `AgentRun.OrphanSpeaks` | packages/brewva-agent-engine/src/agent-loop.ts:678-690 | a body left behind by a throwing after-hook calls back when the run is over: agent_end is then not the last event heard |
| `AgentRun.SettledSpeaks` | packages/brewva-agent-engine/src/agent-loop.ts:678-690 | a tool that calls back after its body has settled does the same in a run in which no after-hook threw |
| `AgentRun.CallBack` | packages/brewva-agent-engine/src/agent-loop.ts:678-690 | the exact condition: once agent_end was heard last, a callback is heard, and agent_end no longer last, exactly if its body was left behind or has settled |
| `AgentRun.LeaveOne` | packages/brewva-agent-engine/src/agent-loop.ts:555-573 | two prepared calls in parallel, the after-hook of the first throwing, leave the second body behind in its execute phase |
| `AgentRun.InStepStart` | packages/brewva-agent-engine/src/agent-loop.ts:128-133 | loop context and engine transcript start in step exactly if the prompts are committed unchanged |
| `AgentRun.InStepStream` | packages/brewva-agent-engine/src/agent-loop.ts:357-426 | a stream keeps the copies in step exactly while it starts at most once |
| `AgentRun.RequestsStep` | packages/brewva-agent-engine/src/agent-loop.ts:328-353 | every model call of a run saw equal copies exactly if the prompts were kept and no stream had started twice before that call, also when one starts twice later |
| `AgentRun.LateFacts` | packages/brewva-agent-engine/src/brewva-agent-engine.ts:515-540 | what late updates do to a run: which event is heard last, the brackets, and nothing at all if no body was left behind or settled, or if there are no orphans and tools keep silent after settling |
| `AgentLoop.ToolTurn` | packages/brewva-agent-engine/src/agent-loop.ts:202-253 | the turn has a throwing after-hook exactly if it throws; then the transcript is untouched, otherwise the committed results answer the calls of the message as multisets of ids, all visible; bodies are left behind only in parallel mode |
| `AgentLoop.CloseBatch` | packages/brewva-agent-engine/src/agent-loop.ts:211-249 | after the batch every call is cleaned up and answered exactly once, and every steer text accepted before has been reported; a batch is never empty, so the in-batch no_tool_boundary branch is dead |
| `AgentLoop.CommitResults` | packages/brewva-agent-engine/src/agent-loop.ts:236-249 | results are committed in order with their call ids, each call moves to cleanup, and a merged steer block is reported exactly once even if call ids repeat |
| `AgentLoop.MergeSteer` | packages/brewva-agent-engine/src/agent-loop.ts:219-235 | the steer text goes into the last result and no other |
| `AgentLoop.CommitResult` | packages/brewva-agent-engine/src/agent-loop.ts:789-805 | one result message under its call id, then cleanup from the true previous phase |
| `AgentLoop.ReportSteer` | packages/brewva-agent-engine/src/agent-loop.ts:239-248 | reporting consumes the in-flight block and nothing else |
| `AgentLoop.TakeSteer` | packages/brewva-agent-engine/src/brewva-agent-engine.ts:503-507 | the consumed text is the pending texts merged line by line, and the slot is empty afterwards |
| `AgentLoop.ExecuteBatch` | packages/brewva-agent-engine/src/agent-loop.ts:428-454 | both modes throw exactly if some after-hook throws, and otherwise return the batch results of their mode |
| `AgentLoop.AskModel` | packages/brewva-agent-engine/src/agent-loop.ts:328-353 | one model call, on the two copies as they are and after the inputs noted so far, sent the view of the context unless a transform is configured |
| `AgentLoop.StreamAssistant` | packages/brewva-agent-engine/src/agent-loop.ts:299-382 | at most one model call, made on the two copies as they were; the answer is hidden exactly if it failed; stage, context length and the count of streams that started twice agree on the number of starts |
| `AgentLoop.StreamEvents` | packages/brewva-agent-engine/src/agent-loop.ts:357-426 | whatever the number and order of starts and deltas, each start adds one message to the context and nothing before the stream changes; the stage is torn, and the stream counted as started twice, exactly by a second start |
| `AgentLoop.CommitAssistant` | packages/brewva-agent-engine/src/agent-loop.ts:368-381 | the final message replaces the partial one in the context and is what the engine commits |
| `AgentLoop.CommitRefusal` | packages/brewva-agent-engine/src/agent-loop.ts:315-326 | an authorisation failure becomes one failed, hidden answer in both copies |
| `AgentLoop.CommitInputs` | packages/brewva-agent-engine/src/agent-loop.ts:136-140 | inputs are committed in order, each exactly once, under their origin; prompts count as kept exactly if the committed messages are the given ones; the pairing is neither broken nor repaired |
| `AgentLoop.CommitMessage` | packages/brewva-agent-engine/src/brewva-agent-engine.ts:515-540 | what is appended to the transcript is what the listeners may answer, failed assistant messages hidden |
| `AgentLoop.SoundTurn` | packages/brewva-agent-engine/src/agent-messages.ts:28-79 | with a visible answer followed by visible results of exactly its calls the transcript is paired exactly if it was before, and failures stay hidden |
| `AgentLoop.SoundInput` | packages/brewva-agent-engine/src/agent-messages.ts:28-79 | with an input message the transcript is paired exactly if it was before, and failures stay hidden |
| `AgentLoop.SoundHidden` | packages/brewva-agent-engine/src/agent-messages.ts:28-79 | with a hidden message the transcript is paired exactly if it was before, and failures stay hidden |
| `AgentLoop.UnansweredTurn` | packages/brewva-agent-engine/src/agent-loop.ts:202-210 | a visible answer with calls and no results breaks the pairing |
| `AgentLoop.BatchClean` | packages/brewva-agent-engine/src/agent-loop.ts:789-805 | when all results of a batch are committed, no call since a given one is left in an earlier phase if none was before the batch |
| `ToolBatch.ExecuteParallel` | packages/brewva-agent-engine/src/agent-loop.ts:511-576 | under every interleaving of the bodies the results are the sequential ones in stable partition; every call has left preparation, and none has entered execution, before the first body starts; it throws exactly if an after-hook throws, and the bodies left behind are exactly the prepared calls after the first such call, all still executing |
| `ToolBatch.ExecuteSequential` | packages/brewva-agent-engine/src/agent-loop.ts:456-509 | one outcome per call in call order, or a throw exactly if an after-hook throws; no body is left behind |
| `ToolBatch.PrepareAll` | packages/brewva-agent-engine/src/agent-loop.ts:522-553 | immediate outcomes and runnable calls split the batch, each in call order, and no body has started |
| `ToolBatch.RunBodies` | packages/brewva-agent-engine/src/agent-loop.ts:555-575 | outcomes are recorded in call order whatever the order in which bodies advance |
| `ToolBatch.Interleave` | packages/brewva-agent-engine/src/agent-loop.ts:555-561 | running bodies call back in any order without moving any phase, until the awaited one is done |
| `ToolBatch.SettleBody` | packages/brewva-agent-engine/src/agent-loop.ts:704-746 | while a recorded body goes through its after-hook and its end, the bodies still running call back before, between and after; no phase moves, and it throws exactly if its hook does |
| `ToolBatch.PrepareCall` | packages/brewva-agent-engine/src/agent-loop.ts:578-658 | classify, authorize, prepare with the two early exits, as the answers decide |
| `ToolBatch.StartBody` | packages/brewva-agent-engine/src/agent-loop.ts:667-673 | a body begins with the move from prepare to execute, emitted before anything is awaited |
| `ToolBatch.UpdateBody` | packages/brewva-agent-engine/src/agent-loop.ts:674-692 | while a body is awaited its tool calls back only in the execute phase |
| `ToolBatch.StartBodies` | packages/brewva-agent-engine/src/agent-loop.ts:555-558 | all bodies are started, in call order, before any of them is awaited |
| `ToolBatch.AwaitBodies` | packages/brewva-agent-engine/src/agent-loop.ts:560-573 | bodies are recorded in call order up to the first after-hook that throws, those after it are still executing, and running ones call back at every point in between |
| `ToolBatch.LeaveRest` | packages/brewva-agent-engine/src/agent-loop.ts:560-573 | the bodies left behind are exactly the prepared calls after the first one whose after-hook throws |
| `ToolBatch.FinalizeCall` | packages/brewva-agent-engine/src/agent-loop.ts:704-746 | record, then the after-hook and what it did taken down, then the end of the call unless the hook throws |
| `ToolBatch.RunCall` | packages/brewva-agent-engine/src/agent-loop.ts:465-507 | a call run alone ends in the phase its outcome names |
| `ToolBatch.PartitionIsPermutation` | packages/brewva-agent-engine/src/agent-loop.ts:511-576 | immediate-first order loses and duplicates nothing |
| `ToolBatch.PartitionAnswersSameCalls` | packages/brewva-agent-engine/src/agent-loop.ts:511-576 | immediate-first order answers the same calls |
| `ToolBatch.PartitionDistinct` | packages/brewva-agent-engine/src/agent-loop.ts:511-576 | no call gets two outcomes |
| `ToolBatch.BatchAnswersCalls` | packages/brewva-agent-engine/src/agent-loop.ts:428-454 | either mode answers every call exactly once, with the same outcomes |
| `AgentEvents.TruthfulPaths` | packages/brewva-agent-engine/src/agent-loop.ts:820-835 | if every previousPhase is true, each call walks a beginning of classify, authorize, prepare, execute, record, cleanup or one of the two early exits |
| `AgentEvents.CleanedUpPaths` | packages/brewva-agent-engine/src/agent-loop.ts:820-835 | a cleaned-up call has walked one of the three whole paths |
| `AgentEvents.BracketedEndsOnce` | packages/brewva-agent-engine/src/agent-loop.ts:135-285 | the trace grammar implies one agent_end, at the end |
| `AgentEvents.HeardEndsOnce` | packages/brewva-agent-engine/src/agent-loop.ts:678-690 | if a run ends once, agent_end is the last event heard exactly if no late update comes after it |
| `AgentEvents.HeardBracketed` | packages/brewva-agent-engine/src/agent-loop.ts:678-690 | what is heard is well bracketed exactly if the run is and every late update falls into a turn and between messages |
| `AgentEvents.HeardAlone` | packages/brewva-agent-engine/src/agent-loop.ts:678-690 | if no body was left behind and no tool calls back after settling, the run is all that is heard |
| `AgentEvents.HeardPath` | packages/brewva-agent-engine/src/agent-loop.ts:678-690 | late updates change no phase path |
| `AgentEngine.Engine.Steer` | packages/brewva-agent-engine/src/brewva-agent-engine.ts:357-367 | accepted exactly during a run and if text is left after trimming; it joins the pending texts |
| `AgentEngine.Engine.ConsumePendingSteer` | packages/brewva-agent-engine/src/brewva-agent-engine.ts:503-507 | hands over all pending texts as one block, once |
| `AgentEngine.Engine.ProcessEvents` | packages/brewva-agent-engine/src/brewva-agent-engine.ts:515-540 | each event is recorded once; a message_end appends what the last listener left, within what listeners may answer; accepted texts, enqueued messages and all other histories survive the event |
| `AgentEngine.Engine.BeginRun` | packages/brewva-agent-engine/src/brewva-agent-engine.ts:430-446 | a run begins with its own books fresh and nothing of earlier runs forgotten |
| `AgentEngine.Engine.UpdateLate` | packages/brewva-agent-engine/src/agent-loop.ts:678-690 | a late update comes only from a body that was left behind or has settled |
| `AgentEngine.RecordedTrue` | packages/brewva-agent-engine/src/brewva-agent-engine.ts:515-540 | recording a true event keeps trace summary, stage and steer books true |
| `AgentEngine.SteerTextConserved` | packages/brewva-agent-engine/src/brewva-agent-engine.ts:357-367 | the accepted texts, line by line, are exactly the reported blocks followed by the pending one |
| `AgentEngine.ReportsText` | packages/brewva-agent-engine/src/brewva-agent-engine.ts:458-507 | the reports, joined, are the texts of the reported blocks |
| `AgentMessages.FailuresNeverSent` | packages/brewva-agent-engine/src/agent-messages.ts:28-79 | failed assistant messages never appear in the view sent to the model |
| `AgentMessages.ConvertConcat` | packages/brewva-agent-engine/src/agent-messages.ts:28-79 | the view is built message by message, so appending extends it |
| `AgentMessages.AppendTurn` | packages/brewva-agent-engine/src/agent-messages.ts:28-79 | an answer followed by its results in any order neither breaks nor repairs the pairing |
| `AgentMessages.AppendInput` | packages/brewva-agent-engine/src/agent-messages.ts:28-79 | an input message neither breaks nor repairs the pairing |
| `AgentMessages.UnansweredCall` | packages/brewva-agent-engine/src/agent-messages.ts:28-79 | pairing does not survive a call without a result |
| `PendingQueue.PendingMessageQueue.Enqueue` | packages/brewva-agent-engine/src/brewva-agent-engine.ts:106-108 | joins at the end; what was kept is still what was drained followed by what waits |
| `PendingQueue.PendingMessageQueue.Remove` | packages/brewva-agent-engine/src/brewva-agent-engine.ts:114-121 | whatever message a client asks to remove, the first occurrence goes, if any, and only its entry is struck from the history |
| `PendingQueue.PendingMessageQueue.Drain` | packages/brewva-agent-engine/src/brewva-agent-engine.ts:123-136 | takes all or the oldest, by mode, in order; nothing is lost or taken twice |
| `PendingQueue.StrikeRemovesOne` | packages/brewva-agent-engine/src/brewva-agent-engine.ts:114-121 | striking an entry removes one message from what is kept and none from what was enqueued |
| `PendingQueue.WithoutExtended` | packages/brewva-agent-engine/src/brewva-agent-engine.ts:114-121 | removing by index from the waiting messages is removing one entry of the kept history |
| `PendingQueue.WantedKept` | packages/brewva-agent-engine/src/brewva-agent-engine.ts:114-121 | removals touch no other message: those that nobody asks to remove are all kept, in the order they came |
| `EventStream.Stream.Push` | packages/brewva-agent-engine/src/assistant-message-event-stream.ts:23-39 | accepted unless closed; handed to the first parked consumer or buffered; a completing event leaves a consumer parked exactly if two were |
| `EventStream.Stream.End` | packages/brewva-agent-engine/src/assistant-message-event-stream.ts:41-50 | closes, keeps the buffer, and wakes every parked consumer, each having been handed all there is |
| `EventStream.Stream.Next` | packages/brewva-agent-engine/src/assistant-message-event-stream.ts:52-69 | yields in order, finishes only when closed and everything accepted was handed over, parks only when nothing is buffered |
| `EventStream.SoleConsumerExact` | packages/brewva-agent-engine/src/assistant-message-event-stream.ts:52-69 | a single consumer has received, with what is buffered, exactly the accepted pushes in order |
| `EventStream.CompletesLast` | packages/brewva-agent-engine/src/assistant-message-event-stream.ts:23-39 | nothing is accepted after the first completing event |
| `EventStream.SettlesOnce` | packages/brewva-agent-engine/src/assistant-message-event-stream.ts:23-50 | the result, once settled, never changes |
| `SessionLock.EveryRunSafe` | packages/brewva-gateway/src/tool-execution-traits.ts:84-194 | after every sequence of acquires, releases (also repeated or foreign) and aborts an exclusive holder is alone, requests are distinct, and nobody waits for a lock nobody holds |
| `SessionLock.StepSane` | packages/brewva-gateway/src/tool-execution-traits.ts:84-194 | each operation keeps that invariant and makes no old request wait again |
| `SessionLock.AcquireSafe` | packages/brewva-gateway/src/tool-execution-traits.ts:154-194 | keeps the invariant and raises holders plus waiters by one, or by none if refused |
| `SessionLock.ReleaseSafe` | packages/brewva-gateway/src/tool-execution-traits.ts:107-121 | keeps the invariant; a first release lowers holders plus waiters by exactly one, a later one by none |
| `SessionLock.AbortSafe` | packages/brewva-gateway/src/tool-execution-traits.ts:179-184 | keeps the invariant; an abort removes exactly the waiter, if it waits |
| `SessionLock.DrainMakesSafe` | packages/brewva-gateway/src/tool-execution-traits.ts:123-152 | draining restores the invariant and conserves requests and holders |
| `SessionLock.DrainTakes` | packages/brewva-gateway/src/tool-execution-traits.ts:123-152 | a drain grants exactly a beginning of the queue |
| `SessionLock.QueuedWaits` | packages/brewva-gateway/src/tool-execution-traits.ts:170-193 | a request that has to queue is never served by the drain of its own acquire |
| `SessionLock.ImmediateGrantOvertakes` | packages/brewva-gateway/src/tool-execution-traits.ts:56-61 | an immediate grant passes no exclusive waiter, and an exclusive one passes nobody |
| `SessionLock.FifoIff` | packages/brewva-gateway/src/tool-execution-traits.ts:107-184 | nobody can be passed at any point of a run exactly if no abort of it, with no exclusive holder, takes the last exclusive waiter away and leaves others waiting |
| `SessionLock.NoAbortsFifo` | packages/brewva-gateway/src/tool-execution-traits.ts:56-61 | in particular nobody is ever passed in a run without aborts |
| `SessionLock.PassableIff` | packages/brewva-gateway/src/tool-execution-traits.ts:107-184 | one operation makes it possible to pass somebody exactly if it is such an abort |
| `SessionLock.OvertakesIff` | packages/brewva-gateway/src/tool-execution-traits.ts:56-61 | a request overtakes exactly if it is shared, somebody waits and no exclusive request holds or waits |
| `SessionLock.SharedMayOvertakeShared` | packages/brewva-gateway/src/tool-execution-traits.ts:179-184 | an abort does not drain: a concrete run in which a new shared request passes a waiting shared one |
| `SessionLock.StepOvertakes` | packages/brewva-gateway/src/tool-execution-traits.ts:107-152 | what one operation grants while an exclusive waiter waits comes from in front of it |
| `SessionLock.BoundedOvertaking` | packages/brewva-gateway/src/tool-execution-traits.ts:107-152 | over every run, the grants made while an exclusive waiter still waits number at most the waiters that were ahead of it |
| `SessionLock.HeadServed` | packages/brewva-gateway/src/tool-execution-traits.ts:107-152 | when the last holder releases, the head of the queue is served |
| `ExecutionCoordinator.Coordinator.Acquire` | packages/brewva-gateway/src/tool-execution-traits.ts:154-194 | moves the session's lock as the value lock says and no other session's; admitted exactly if grantable, refused exactly if not and its honoured signal has fired; otherwise queued with a listener exactly if it has a live honoured signal |
| `ExecutionCoordinator.Coordinator.Release` | packages/brewva-gateway/src/tool-execution-traits.ts:100-121 | the first call of a closure releases and drains, later calls change nothing; no other session is affected |
| `ExecutionCoordinator.Coordinator.AbortWaiter` | packages/brewva-gateway/src/tool-execution-traits.ts:178-189 | an attached listener belongs to a waiter; it leaves the queue, its listener is gone, nobody is granted anything |
| `ExecutionCoordinator.Coordinator.DrainState` | packages/brewva-gateway/src/tool-execution-traits.ts:123-152 | the loop on the state object is the drain of the lock, with a lease for each request granted and its listener disposed of |
| `ExecutionCoordinator.Coordinator.FreeSlot` | packages/brewva-gateway/src/tool-execution-traits.ts:113-117 | the shared counter counts the unreleased shared grants, so its clamp at zero never fires |
| `ExecutionCoordinator.Coordinator.GetState` | packages/brewva-gateway/src/tool-execution-traits.ts:84-92 | a new state object for a session without one is invisible: every session's lock is as before |
| `ExecutionCoordinator.Coordinator.CleanupSession` | packages/brewva-gateway/src/tool-execution-traits.ts:94-98 | a state object is dropped exactly if its lock is free, and dropping is invisible |
| `ExecutionCoordinator.RemoveWaiter` | packages/brewva-gateway/src/tool-execution-traits.ts:63-68 | removes the first queue entry with this identity, if any |
| `ExecutionCoordinator.MutualExclusion` | packages/brewva-gateway/src/tool-execution-traits.ts:84-121 | two unreleased leases of one session share the one live state object and are both shared |
| `ExecutionCoordinator.OneLiveState` | packages/brewva-gateway/src/tool-execution-traits.ts:84-98 | over all state objects ever created for a session at most one is in use |
| `ExecutionCoordinator.EachSessionRuns` | packages/brewva-gateway/src/tool-execution-traits.ts:84-194 | under every interleaving of calls for all sessions each session's lock has gone through a run of its own from the free lock, although its state object comes and goes |
| `ExecutionCoordinator.CallFollows` | packages/brewva-gateway/src/tool-execution-traits.ts:154-194 | what each method promises is one step of its session's lock |
| `ExecutionCoordinator.MovePreserves` | packages/brewva-gateway/src/tool-execution-traits.ts:84-194 | an operation on one state object cannot upset the tables of another |
| `Delivery.AcknowledgedImpliesDispatched` | packages/brewva-ingress/src/telegram-webhook-worker.ts:575-643 | over every run with non-overlapping retries and any loss, delay or forgetting in which every 409 finds a success of its key, an update answered accepted or duplicate has had a successful dispatch of its key |
| `Delivery.RetryForwarded` | packages/brewva-ingress/src/telegram-webhook-worker.ts:619-636 | in every run, after a 502 the next retry is forwarded again |
| `Delivery.HonestIffWarranted` | packages/brewva-ingress/src/telegram-webhook-worker.ts:448-450 | the exact condition: at every point of a run all responses taken for successes are successes if and only if every authorized forward that finds its key live finds a success of that key |
| `Delivery.FalselyAcknowledged` | packages/brewva-ingress/src/telegram-webhook-worker.ts:448-450 | a 409 without such a success makes a waiting worker acknowledge an update of which no dispatch has succeeded and one is running |
| `Delivery.CalmIsWarranted` | packages/brewva-ingress/src/telegram-ingress.ts:277-287 | a 409 is warranted in particular while no dispatch of its key is running |
| `Delivery.FalseAcknowledgement` | packages/brewva-ingress/src/telegram-webhook-worker.ts:575-643 | a whole run in which an update is acknowledged and every dispatch of it has failed: the fetch times out, the retry meets the running dispatch, that one fails |
| `Delivery.StepHonest` | packages/brewva-ingress/src/telegram-webhook-worker.ts:575-643 | every step of worker, network and ingress keeps edge store, responses and answers honest |
| `Delivery.TelegramWebhookWorker.Begin` | packages/brewva-ingress/src/telegram-webhook-worker.ts:575-584 | answers duplicate exactly if the key is live and otherwise reserves it |
| `Delivery.TelegramWebhookWorker.Finish` | packages/brewva-ingress/src/telegram-webhook-worker.ts:612-643 | success and 409 keep the reservation and are accepted; any other status or a throw deletes it and is a 502 |
| `Ingress.EveryRun` | packages/brewva-ingress/src/telegram-ingress.ts:277-311 | over every interleaving in which dispatches finish strictly within their TTL: dispatches of a key never overlap, and two successes of a key were reserved at least one TTL apart |
| `Ingress.EveryRollback` | packages/brewva-ingress/src/telegram-ingress.ts:299-302 | over every such run a rollback in time deletes its own reservation and nothing else |
| `Ingress.SettleSound` | packages/brewva-ingress/src/telegram-ingress.ts:289-311 | a rollback deletes its own reservation and no other |
| `Ingress.ReceiveSound` | packages/brewva-ingress/src/telegram-ingress.ts:277-287 | a new reservation is at least one TTL after every unfailed dispatch of its key |
| `Ingress.NoOverlap` | packages/brewva-ingress/src/telegram-ingress.ts:277-311 | two running dispatches of one key are the same |
| `Ingress.OverlapIff` | packages/brewva-ingress/src/telegram-ingress.ts:277-287 | the first overlap happens exactly when a request finds a dispatch of its key running past its TTL |
| `Ingress.LateRollback` | packages/brewva-ingress/src/telegram-ingress.ts:299-302 | then a late rollback deletes the reservation of the newer dispatch |
| `Ingress.DuplicateMeans` | packages/brewva-ingress/src/telegram-ingress.ts:277-287 | whatever the timing, a duplicate is answered only while a dispatch of the key runs or after one succeeded |
| `Ingress.TelegramIngressProcessor.Begin` | packages/brewva-ingress/src/telegram-ingress.ts:277-287 | a live key is a duplicate; otherwise it is reserved and dispatched |
| `Ingress.TelegramIngressProcessor.Finish` | packages/brewva-ingress/src/telegram-ingress.ts:289-311 | success keeps the reservation, failure deletes the key |
| `ReplayStore.InMemoryReplayStore.PutIfAbsent` | packages/brewva-ingress/src/telegram-ingress.ts:91-99 | reserves exactly if the key is not live, for at least one tick, after dropping what has expired |
| `ReplayStore.InMemoryReplayStore.Compact` | packages/brewva-ingress/src/telegram-ingress.ts:105-111 | drops exactly the expired entries |
| `ReplayStore.InMemoryReplayStore.Delete` | packages/brewva-ingress/src/telegram-ingress.ts:101-103 | removes the key and no other |
| `ReplayStore.PutMeans` | packages/brewva-ingress/src/telegram-webhook-worker.ts:107-131 | to every later question, a reservation takes its own key until it ends and affects nothing else; an earlier one is neither shortened nor extended |
| `RateLimiter.IntervalBound` | packages/brewva-ingress/src/telegram-webhook-worker.ts:155-179 | any half-open interval of one window length admits at most 2 * max - 1 hits per key |
| `RateLimiter.BoundAttained` | packages/brewva-ingress/src/telegram-webhook-worker.ts:155-179 | that bound is reached for every max and every window of at least two ticks |
| `RateLimiter.InMemoryRateLimiter.Consume` | packages/brewva-ingress/src/telegram-webhook-worker.ts:158-169 | answers as a limiter that forgets nothing, whether or not it compacts |
| `RateLimiter.InMemoryRateLimiter.Compact` | packages/brewva-ingress/src/telegram-webhook-worker.ts:171-178 | above 2048 keys, drops exactly the windows two lengths old |
| `RateLimiter.CompactRemembers` | packages/brewva-ingress/src/telegram-webhook-worker.ts:171-178 | what compaction drops could not have changed an answer |
| `RateLimiter.HitRemembers` | packages/brewva-ingress/src/telegram-webhook-worker.ts:158-169 | a hit on the compacted map is judged as on the full history |
| `PollLoop.ExactPrefix` | packages/brewva-channels-telegram/src/http-transport.ts:344-398 | the successful handler calls are a gap-free, duplicate-free, in-order beginning of the server's updates from the first offset on |
| `PollLoop.ConfirmedHandled` | packages/brewva-channels-telegram/src/http-transport.ts:370-380 | no update is confirmed before its handler succeeded |
| `PollLoop.HandleExact` | packages/brewva-channels-telegram/src/http-transport.ts:382-398 | handling the earliest unconfirmed update and passing it keeps both |
| `PollLoop.GrowExact` | packages/brewva-channels-telegram/src/http-transport.ts:344-398 | so does the arrival of updates at the server |
| `PollLoop.ConfirmExact` | packages/brewva-channels-telegram/src/http-transport.ts:370-380 | so does the confirmation a request makes, even if its response is lost |
| `PollLoop.Server.GetUpdates` | packages/brewva-channels-telegram/src/http-transport.ts:370-380 | what the server does: confirm below the offset, answer with a run of the earliest unconfirmed updates, or fail before or after confirming |
| `PollLoop.TelegramHttpTransport.RunPollLoop` | packages/brewva-channels-telegram/src/http-transport.ts:344-368 | rounds keep the invariant through failures and stop, and what is handled only grows |
| `PollLoop.TelegramHttpTransport.Round` | packages/brewva-channels-telegram/src/http-transport.ts:344-368 | one fetch and its batch, with either failing, keeps the invariant |
| `PollLoop.TelegramHttpTransport.FetchUpdates` | packages/brewva-channels-telegram/src/http-transport.ts:370-380 | a batch starts at the first update the next offset does not pass |
| `PollLoop.TelegramHttpTransport.ProcessUpdates` | packages/brewva-channels-telegram/src/http-transport.ts:382-398 | without a throw the whole batch is handled in order; with one, a beginning of it |
| `PollLoop.TelegramHttpTransport.Handle` | packages/brewva-channels-telegram/src/http-transport.ts:391-396 | the next offset passes an update exactly if its handler succeeded |
| `PollLoop.TelegramHttpTransport.Start` | packages/brewva-channels-telegram/src/http-transport.ts:288-295 | starting again while running changes nothing; the offset survives |
| `PollLoop.TelegramHttpTransport.Stop` | packages/brewva-channels-telegram/src/http-transport.ts:297-309 | stopping keeps the offset and the invariant |
| `Retention.Prune` | packages/brewva-deliberation/src/memory.ts:323-363 | what is kept respects the per-kind caps, the total cap and the admission rule (at least the minimum, or the best and only one kept of its kind), is in retention order, and totals at least as much as every other selection that does; among all selections of artifacts that reach their minimum or are best of their kind it is optimal if and only if no kind with a cap above one has two artifacts tied for best with a positive score below its minimum |
| `Retention.Select` | packages/brewva-deliberation/src/memory.ts:323-352 | the walk in retention order keeps, at every score level, as many of each kind as caps and minima allow |
| `Retention.GreedyOptimal` | packages/brewva-deliberation/src/memory.ts:323-352 | the exchange argument: no feasible selection has a higher total |
| `Retention.OptimalIffTieFree` | packages/brewva-deliberation/src/memory.ts:339-352 | that exact condition for the wider class of selections |
| `Retention.TieBeats` | packages/brewva-deliberation/src/memory.ts:345-347 | with such a tie another of the tied artifacts can be added, within all caps and for a higher total |
| `Retention.TieExists` | packages/brewva-deliberation/src/memory.ts:345-347 | a concrete tie: two unsupported loop memories half a year old |
| `Retention.Dominates` | packages/brewva-deliberation/src/memory.ts:323-352 | a selection with at least as many artifacts above every score level totals at least as much |
| `Retention.KindDominated` | packages/brewva-deliberation/src/memory.ts:44-60 | down to any level already seen, no feasible selection has more of a kind |
| `Retention.GreedyStep` | packages/brewva-deliberation/src/memory.ts:339-352 | one round of the walk keeps feasibility and saturation |
| `Retention.FirstIsBest` | packages/brewva-deliberation/src/memory.ts:345-347 | the one artifact admitted below its minimum is the best of its kind |
| `Retention.FeasibleOrder` | packages/brewva-deliberation/src/memory.ts:323-363 | feasibility does not depend on the order of the artifacts |
| `Retention.ScoreMonotone` | packages/brewva-deliberation/src/memory.ts:257-295 | scores lie between 0 and 1; waiting never raises one, and confidence, evidence and sessions never lower it |
| `Retention.StaysAdmissibleIff` | packages/brewva-deliberation/src/memory.ts:257-295 | an artifact never validated again stays at its minimum or above exactly if its fully decayed weight does |
| `Sorting.SortStable` | packages/brewva-deliberation/src/memory.ts:331-338 | sorting keeps the order of elements that compare equal |
| `Sorting.SortSorts` | packages/brewva-deliberation/src/memory.ts:331-338 | sorting by a total preorder sorts |
| `Sorting.SortPermutes` | packages/brewva-deliberation/src/memory.ts:331-338 | sorting loses and adds nothing |
| `Sorting.SortIdle` | packages/brewva-deliberation/src/memory.ts:355-362 | sorting what is sorted changes nothing, so the final sort of the pruner is idle |
| `Sorting.SortedUnique` | packages/brewva-deliberation/src/optimization.ts:935-938 | sorting by an order that tells the elements apart depends only on which elements there are |
| `PlaneCache.EveryReconcileCurrent` | packages/brewva-deliberation/src/plane-substrate.ts:100-144 | over append-only logs, any events, losses of the persisted state and reconciles by any of several instances, a reconcile returns the content of a rebuild from the current logs |
| `PlaneCache.PlaneInstance.Reconcile` | packages/brewva-deliberation/src/plane-substrate.ts:100-144 | whichever branch is taken the state returned is current; it is rebuilt and written exactly if missing, outdated, or dirty and not throttled |
| `PlaneCache.SameDigestsSameLogs` | packages/brewva-deliberation/src/plane-substrate.ts:49-64 | over append-only logs equal digests force equal logs |
| `PlaneCache.SameLogsSameDigests` | packages/brewva-deliberation/src/plane-substrate.ts:49-64 | equal logs give equal digests in whatever order sessions are listed |
| `PlaneCache.MatchingIsCurrent` | packages/brewva-deliberation/src/plane-substrate.ts:116-121 | a snapshot whose digests match is current |
| `PlaneCache.SamePlaneSessionDigests` | packages/brewva-deliberation/src/plane-substrate.ts:66-84 | true exactly for equal digest lists |
| `PlaneCache.RewritingGoesUnnoticed` | packages/brewva-deliberation/src/plane-substrate.ts:49-64 | append-only is needed: an event rewritten in place leaves the digests as they are |
| `PlaneCache.StepSound` | packages/brewva-deliberation/src/plane-substrate.ts:100-144 | every step keeps every state, in memory or on disk, a snapshot of earlier logs |
| `Lineage.SessionOrderIndependent` | packages/brewva-deliberation/src/optimization.ts:837-938 | with distinct event ids, branch keys that tell the recorded branches apart and latest links that agree, permuting the sessions yields the same branches with the same sorted lists, sessions and skills |
| `Lineage.OrderIndependent` | packages/brewva-deliberation/src/optimization.ts:853-938 | under the same conditions the same records in any order give the same lineages |
| `Lineage.OrderFreeIffKeysTell` | packages/brewva-deliberation/src/optimization.ts:853-938 | given distinct event ids and agreeing latest links, the lineages are the same for every order of the records if and only if no two recorded branches share a key |
| `Lineage.SharedKeyMatters` | packages/brewva-deliberation/src/optimization.ts:886-929 | two branches that share a key: the goal and root of the record that comes first name the group, so two orders give different lineages |
| `Lineage.PlainIdsTell` | packages/brewva-deliberation/src/optimization.ts:452-454 | session ids without colons never share a key between branches |
| `Lineage.ExactlyOneGroup` | packages/brewva-deliberation/src/optimization.ts:886-929 | every record is in the group of its branch as often as it was recorded, and in no other group |
| `Lineage.GroupedIs` | packages/brewva-deliberation/src/optimization.ts:868-929 | a group is made of exactly the records of its branch, in order |
| `Lineage.FoldedHolds` | packages/brewva-deliberation/src/optimization.ts:868-929 | its lists, session ids and skill names are those of its records |
| `Lineage.BranchKeyInjective` | packages/brewva-deliberation/src/optimization.ts:452-454 | unless one root with its separator is a proper suffix of the other, the key determines goal and root |
| `Lineage.CollideIffNested` | packages/brewva-deliberation/src/optimization.ts:452-454 | the exact condition: two roots give two branches one key, for some goals, if and only if one with its separator is a proper suffix of the other |
| `Lineage.NestedCollide` | packages/brewva-deliberation/src/optimization.ts:452-454 | the goals under which two such roots share a key |
| `Lineage.RecordComparator` | packages/brewva-deliberation/src/optimization.ts:529-566 | the metric, guard and completion comparators are total preorders |
| `Lineage.ScheduleComparator` | packages/brewva-deliberation/src/optimization.ts:568-582 | the schedule comparator is a total preorder |
| `Lineage.OrdersDistinguish` | packages/brewva-deliberation/src/optimization.ts:308-313 | records with distinct event ids are told apart by both orders |
| `Lineage.BuildOptimizationLineages` | packages/brewva-deliberation/src/optimization.ts:837-938 | collecting, linking, grouping and sorting compute the lineages of the collected records |
| `Lineage.GroupRecords` | packages/brewva-deliberation/src/optimization.ts:886-929 | the grouping loop computes the groups of its records |
| `Ancestry.SameRootIff` | packages/brewva-deliberation/src/optimization.ts:440-450 | child and parent have the same root exactly if the child is not on a cycle |
| `Ancestry.RootMeans` | packages/brewva-deliberation/src/optimization.ts:440-450 | the root is an ancestor that has no parent, or lies on a cycle |
| `Ancestry.CycleIsOwnRoot` | packages/brewva-deliberation/src/optimization.ts:440-450 | a session on a cycle is its own root |
| `Ancestry.ResolveLineageRoot` | packages/brewva-deliberation/src/optimization.ts:440-450 | the climb terminates on every map and ends at the root |
| `Ancestry.BuildChildToParentMap` | packages/brewva-deliberation/src/optimization.ts:425-438 | each linked child is mapped to the parent of a latest link |
| `Ancestry.ParentsUnique` | packages/brewva-deliberation/src/optimization.ts:425-438 | if all latest links of each child name one parent, the map depends only on which records there are |
| `Ancestry.OrderFreeIffAgree` | packages/brewva-deliberation/src/optimization.ts:425-438 | the exact condition: the map is the same for every order of the records if and only if all latest links of each child name one parent |
| `Ancestry.DisagreementMatters` | packages/brewva-deliberation/src/optimization.ts:425-438 | two latest links of a child that disagree give two orders of the records with different maps |
| `Ancestry.LastWins` | packages/brewva-deliberation/src/optimization.ts:425-438 | a latest link that is enumerated last decides |
| `ProgressKeys.ProgressComparator` | packages/brewva-deliberation/src/optimization.ts:279-306 | the progress comparator is a total preorder for any string comparator |
| `ProgressKeys.CanonicalReadsBack` | packages/brewva-deliberation/src/optimization.ts:228-277 | LOOP/run-N/iter-M is read back as run N, iteration M |
| `ProgressKeys.BaselineReadsBack` | packages/brewva-deliberation/src/optimization.ts:228-277 | LOOP/run-N/baseline is read back as stage zero of run N |
| `ProgressKeys.CanonicalOrder` | packages/brewva-deliberation/src/optimization.ts:228-306 | such keys compare by run and then by iteration, as numbers |
| `ProgressKeys.BaselineOrder` | packages/brewva-deliberation/src/optimization.ts:228-306 | a baseline comes before the iterations of its own and later runs, and after those of earlier runs |

## Left out

- AgentRun.RunLoop: the turn loop need not end, so a run is observed for any number of turns the caller chooses.
- AgentRun.Prompt: usage numbers, timestamps, error texts and details of messages are not part of a message here.
- AgentEngine.Engine.ProcessEvents: a listener may answer any event with another of its type, which later listeners and the emitter then see; only answers to message_end are modelled, because no other answer is committed or read by the loop. A listener that throws, and listeners added or removed during an event, are not modelled.
- AgentLoop.StreamAssistant: the final message of a stream is arbitrary; that it is the one the stream's result promise settles with is not stated.
- ToolBatch.PrepareCall: argument validation is an arbitrary answer; the schema library behind it is not part of this model.
- PollLoop.TelegramHttpTransport.RunPollLoop: the loop is observed for any number of rounds; delays and error reporting have no effect here.
- Delivery.AcknowledgedImpliesDispatched: worker crashes between steps are not modelled; the key-value edge store is covered as a store that may forget any reservation at any time.
- Ingress.TelegramIngressProcessor.Begin: authentication and parsing have passed; requests that fail them are answers without a dispatch in the delivery model.
- Retention.Prune: scores are exact reals, so rounding of floating-point numbers is not modelled.
- ProgressKeys.CanonicalReadsBack: run and iteration numbers are unbounded, so loss of precision beyond 2^53 is not modelled; trimming knows blank, tab, line feed and carriage return.
- Lineage.BuildOptimizationLineages: events arrive already parsed into records; the summaries, snapshots and status derived from a branch, and the final order of the artifacts, are not modelled.
- PlaneCache.PlaneInstance.Reconcile: what a plane derives from its logs is an arbitrary function of them; file access is a field that may become unreadable.
- Provider adapters, HTTP clients, file stores, command line, daemon and service installation.
- HMAC, bearer tokens, nonces and the token vault.
- Text splitting in the Telegram projector, report formatting, retrieval scoring and tokenising.
