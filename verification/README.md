# Verified model of the agent harness

The harness drives language-model agents over durable session logs. Its core is a set of small
protocols written as single-threaded asynchronous code: between two awaits each runs atomically,
and at an await anything else may happen. This project models those protocols in Dafny and proves
what they keep over every interleaving.

- `SessionEvents`, `Options`: the session event vocabulary and the pairing of tool calls with results.
- `ToolCalls`: the tool-call scheduler, a bounded rolling pool with exclusive barriers, in-order
  commit over out-of-order completion, and separate abort and failure paths.
- `WriteBehind`: the persistence write queue; timer, active write, barrier and pause interact.
- `Preparations`: shared loads, exclusive reservations and the LRU of unpublished sessions.
- `Inbox`: the event-sourced inbox; its live lists are the replay of the log.
- `ConsumedWork`: the one-pass account of a log's consumed work, and the question it answers.
- `SessionLog`: the turn/step word a driver writes, and the two log checkers.
- `WakeLatch`, `AgentDriver`, `AgentRuns`: turns, steps, attempts, cancellation, maintenance and
  wake-ups of the agent driver, and what holds over its runs.
- `ToolPhase`: the scheduler's runs as tool phases of the driver.
- `ImageOffload`: fitting a request's images into quantised budgets.
- `Scope`, `ScopeStore`: the scope parent forest, layered registries and undo.
- `DeepFreeze`: freezing a cyclic object graph.
- `Assembler`: chunk assembly and the stream grammar.
- `EventStream`: session events over server-sent events (section 9.2 of the WHATWG HTML Standard)
  with reconnects.

`dafny verify dfyconfig.toml` checks the whole project.

## How asynchronous code is modelled

An async call of a module's own method is an await like any other: the awaited promise resumes its
caller a microtask later, and queued work may run in between.

`ToolCalls` keeps the source's methods and loops. `Await` stands at each await, those on its own
methods included and also where a failure is on its way to the handler: promises settle with any
outcome, the signal may fire, and others may append to the log. The scheduler's shared closure
variables are one `State` value handed from method to method. The registry's live classification is
an input that may depend on everything that has happened; each reading of it, and each stage of a
call, is a step of the run's trace, and the rules are stated on that trace.

`AgentDriver`, `WriteBehind` and `Preparations` are classes whose methods are the atomic segments
from one await to the next, each proved equal to a step of a transition function; invariants over
whole runs are proved about that function. The driver's program point `Pc` has one value per await
of `agent.ts`, and a run is any sequence of resumptions and of actions of others. In `WriteBehind` a
timer callback runs only when no promise continuation is outstanding, as in the host's event loop.
`Session.append` gives each entry its log position as sequence number
and always succeeds. Observers do not call back into the inbox or the agent synchronously.

## Where the code differs from what it says

- `agent.ts:174-176` says that disposal never latches a wake, so that teardown waits on no model
  turn. It does not latch one, but it does not take one back either: maintenance that latched a wake
  and is then disposed of with `keepInbox` restarts the driver when it converges
  (`WakeLatch.DisposedMaintenanceRestarts`; `DisposedMaintenanceOwes` says exactly when).
- `store.ts:155-157` says that only a completely empty layer is reclaimed. The disposer deletes
  whatever layer its scope has by then, its own or not (`ScopeStore.DisposedKeepsIff` says exactly
  when that hides live entries). A registration that inserted nothing, disposed of after its own
  layer was reclaimed and replaced, does so (`EmptyRegistrationHides`); when every registration
  inserts something this cannot happen (`DisposedKeeps`).
- `agent.ts:264-278` looks at the signal before a step is entered, but not before it acts on a
  decision not to enter one. A cancel between the pre-step's own last check and the turn that awaits
  it lets the turn end `blocked` or `completed`, and on an empty step with input pending another turn
  follows under a fresh controller, a disposal included (`AgentRuns.AbortedIff` and
  `RenewedUnderSignalIff` say exactly when; `RejectedUnderSignal`, `DisposedTurnRenewed`).
- `agent.ts:285-290` keeps a token ceiling sticky so that steps that complete later do not downgrade
  it. It is also kept over a later step whose tools left results for the model: such a turn ends
  right after them unless input for a step is pending, and the model never sees the results
  (`AgentRuns.ToolResultsSeenIff` says exactly when; `ToolResultsUnseen`,
  `ToolResultsUnseenReached`).
- `agent.ts:174-176` says that live drivers claim queued work themselves. A driver whose turn has
  looked for input and is returning to `kick` no longer does: a wake then is neither latched nor
  claimed, and the agent goes idle over its message (`AgentRuns.WakeAtTurnEnd` says exactly when;
  `WakeStranded`). A promised next turn that is cancelled before it begins leaves its input likewise
  (`RenewalCancelled`).
- `tool-calls.ts:47` says that a failed run rejects with the first failure. It rejects with the first
  rejected dispatch if there is one before the handler runs, even after an earlier thrown failure
  (`ToolCalls.RecordsFirstIff`, `ThrownFailureMasked`, `TwoInFlight`).
- `consumed-work.ts` credits a turn by its number. On a log that reuses one the fold may differ from
  the plain reading of its documentation (`ConsumedWork.FoldIsPlainIff` says exactly when;
  `ReusedTurnDiffers`). A driver's own log never reuses one (`AgentRuns.WordsHaveDistinctEnds`).
- The stream grammar in `invariant.ts` lets a closed block index be opened again; the assembler then
  keeps only the first payload (`Assembler.EachEmittedIff` says exactly when;
  `ReopenedIndexLosesPayload`).
- A server-sent frame whose JSON contains U+2028 or U+2029, which JSON text may, does not come back
  as written (`EventStream.FrameRoundTrip`); its data does not parse, and the client reconnects at
  the same position without end (`DeliversAllIff` says exactly when; `StuckAtTerminator`).
- The connection delivers events at or below `Last-Event-ID` when the client is ahead of the log
  (`EventStream.StartsPastClient`).
- `index.ts:404-406` of the HTTP API says that subscribing first loses nothing. A replay that reads a
  persisted log which lags behind the subscription leaves a gap (`EventStream.SeamlessIff` says
  exactly when).
- `cancelAutomaticWait` can strand a queue until the next flush (`WriteBehind.CancelStrands`,
  `StrandedUntilFlush`, `StrandedReached`).

## Model

| member | source | states |
|---|---|---|
| `ToolCalls.ExecuteToolCalls` | packages/harness/agent-loop/src/tool-calls.ts:59-101 | Whatever settles, fails or aborts when, at the awaits on the scheduler's own calls too: a finished run has one `tool/call` and one real `tool/result` per model call, a cancelled run has real results for exactly the started calls and skipped ones after, a rejected run an answered prefix and the failure its handler recorded; both subsequences are in model order, each result cites its own call and is followed at once by its contexts, nothing else is logged; and every call starts as its live mode was read right before |
| `ToolCalls.RunGroup` | packages/harness/agent-loop/src/tool-calls.ts:121-246 | A group that does not fail answers at least one call, and exactly what it says it consumed: all of its calls, unless the next one was last read as no longer parallel; the throw for uncommitted settled calls is dead code |
| `ToolCalls.NothingUncommitted` | packages/harness/agent-loop/src/tool-calls.ts:243-245 | With an empty pool, no failure and nothing settled at the cursor, every started call is committed |
| `ToolCalls.QuietAtEnd` | packages/harness/agent-loop/src/tool-calls.ts:214-245 | A drain that ends without a throw leaves no recorded failure and nothing settled at the cursor, although dispatches settle while the scheduler's own calls are awaited |
| `ToolCalls.PoolSafety` | packages/harness/agent-loop/src/tool-calls.ts:198-213 | At every moment of a safe trace at most `max` dispatches are in flight, an exclusive one is alone, and nothing starts after an abort |
| `ToolCalls.EveryStepSafe` | packages/harness/agent-loop/src/tool-calls.ts:146-213 | Every step of a run kept the rules when it was taken: model order, one prepare stage at a time, dispatch as prepared, finalization in model order by the stage each outcome needs |
| `ToolCalls.SafeStartsAsRead` | packages/harness/agent-loop/src/tool-calls.ts:80-84 | In every such run each call starts exclusive if and only if the live mode, asked right before, was not parallel |
| `ToolCalls.NonParallelAlone` | packages/harness/agent-loop/src/tool-calls.ts:198-213 | So a call that is not parallel when it starts finds nothing in flight, and overlaps no other dispatch at any moment of its own |
| `ToolCalls.CommitReady` | packages/harness/agent-loop/src/tool-calls.ts:146-160 | Commits in model order up to the first unsettled call, each under its own execution |
| `ToolCalls.CommitOne` | packages/harness/agent-loop/src/tool-calls.ts:146-160 | What came of the call at the cursor goes through the post stage or is final as it is, as its prepare stage or its dispatch said; one commit advances the cursor by one with its contexts, or throws with nothing lost |
| `ToolCalls.AcceptContexts` | packages/harness/agent-loop/src/tool-calls.ts:150-158 | A committed result's contexts are queued for the next step in order, one splice each, up to the first the inbox refuses |
| `ToolCalls.AppendToolResult` | packages/harness/agent-loop/src/tool-calls.ts:262-289 | The logged result cites the log position of the call at the cursor |
| `ToolCalls.StartCall` | packages/harness/agent-loop/src/tool-calls.ts:164-196 | Logs and starts the next model call once, as its live mode was read, never after a recorded failure; it is dispatched exactly if its prepare stage says so, and an early result is parked in its own slot |
| `ToolCalls.BeginCall` | packages/harness/agent-loop/src/tool-calls.ts:164-181 | The started call is the next one in model order and was not started before |
| `ToolCalls.FillPool` | packages/harness/agent-loop/src/tool-calls.ts:198-213 | Starts while there is room, each later call only if its live mode, re-read right before, is still parallel; it stops at an abort, the end, a full pool, or a next call just read as not parallel, and for no other reason |
| `ToolCalls.StartNext` | packages/harness/agent-loop/src/tool-calls.ts:205-211 | After a start and after its commits, each awaited, a recorded failure is thrown; otherwise the abort flag is the signal |
| `ToolCalls.Refill` | packages/harness/agent-loop/src/tool-calls.ts:214-229 | The caller goes on with the pool as it was left, but for what settled, failed or aborted meanwhile |
| `ToolCalls.Race` | packages/harness/agent-loop/src/tool-calls.ts:218-221 | Takes exactly one settled dispatch out of the pool |
| `ToolCalls.Round` | packages/harness/agent-loop/src/tool-calls.ts:218-230 | One drain round shrinks the pool and commits what became ready |
| `ToolCalls.Drive` | packages/harness/agent-loop/src/tool-calls.ts:214-230 | Fill and drain end with an empty pool, everything committed and no call left that could have started, or with a thrown failure |
| `ToolCalls.Reject` | packages/harness/agent-loop/src/tool-calls.ts:231-235 | The rejection carries what the handler recorded, after every started dispatch has settled, and writes no further result |
| `ToolCalls.RecordsFirstIff` | packages/harness/agent-loop/src/tool-calls.ts:172-235 | The rejection carries the failure raised first if and only if that was a rejected dispatch, or no dispatch was rejected before the handler ran |
| `ToolCalls.ThrownFailureMasked` | packages/harness/agent-loop/src/tool-calls.ts:172-235 | Where it does not: from every state with a dispatch in flight, that dispatch may reject while a thrown failure is on its way to the handler, and is reported instead |
| `ToolCalls.TwoInFlight` | packages/harness/agent-loop/src/tool-calls.ts:146-235 | Two calls that are always parallel reach such a state: the first is settled and about to be finalized, the second in flight |
| `ToolCalls.AppendSkippedToolCalls` | packages/harness/agent-loop/src/tool-calls.ts:248-259 | Every remaining call gets an ordered call and a synthetic result that cites it |
| `SessionEvents.PairedResult` | packages/harness/agent-loop/src/tool-calls.ts:262-289 | Appending a result that cites the first unanswered call extends the pairing by that call |
| `SessionEvents.PairedCall` | packages/harness/agent-loop/src/tool-calls.ts:164-181 | Appending the next call extends the pairing by one unanswered call |
| `SessionEvents.PairedForeign` | packages/harness/agent-loop/src/tool-calls.ts:146-196 | Entries other parties append between awaits leave the pairing as it is |
| `WriteBehind.EveryRunConserves` | packages/harness/session-persistence/src/write-behind.ts:45-159 | Over every interleaving: durable batches, the active batch and the queue are the enqueue history in order, no two writes overlap, and a resolved flush found everything enqueued before it durable |
| `WriteBehind.EveryRunServes` | packages/harness/session-persistence/src/write-behind.ts:93-136 | Without `cancelAutomaticWait` a non-empty queue always has an armed timer, an open barrier, a recorded pause, or a running write whose continuation will read the expired deadline |
| `WriteBehind.ServedIsWritten` | packages/harness/session-persistence/src/write-behind.ts:45-136 | Every served queue is written by callbacks alone: from every such state that is not paused there is a run of timer callbacks, successful writes and continuations, without a flush, an enqueue or a cancel, after which everything enqueued is durable |
| `WriteBehind.EnqueueServes` | packages/harness/session-persistence/src/write-behind.ts:45-56 | So does an enqueue to an empty or paused queue under a closed barrier, which lifts the pause left by a failed write |
| `WriteBehind.DeadlineServes` | packages/harness/session-persistence/src/write-behind.ts:93-100 | An armed deadline, or one that expired over a write still under way, serves the queue, so that it is written in that way |
| `WriteBehind.CancelStrands` | packages/harness/session-persistence/src/write-behind.ts:75-78 | `cancelAutomaticWait` leaves the queue served if and only if it is empty, or a barrier or a pause serves it |
| `WriteBehind.StrandedUntilFlush` | packages/harness/session-persistence/src/write-behind.ts:45-158 | Of all actions, exactly a flush, or the failure of a write in flight, makes a stranded queue served again |
| `WriteBehind.StrandedForGood` | packages/harness/session-persistence/src/write-behind.ts:45-158 | With the writer idle, no run without a flush writes a stranded queue, whatever is enqueued |
| `WriteBehind.StrandedReached` | packages/harness/session-persistence/src/write-behind.ts:45-78 | Enqueueing one event and cancelling the wait strands it |
| `WriteBehind.FlushCanResolve` | packages/harness/session-persistence/src/write-behind.ts:63-136 | From every state a flush can finish with everything enqueued durable |
| `WriteBehind.DrainResolves` | packages/harness/session-persistence/src/write-behind.ts:117-136 | The drain loop resolves after at most one more successful write |
| `WriteBehind.StepKeepsControl` | packages/harness/session-persistence/src/write-behind.ts:45-159 | Every step keeps the flag combinations the class relies on |
| `WriteBehind.StepConserves` | packages/harness/session-persistence/src/write-behind.ts:139-158 | Every step keeps conservation, success and failure included |
| `WriteBehind.StepKeepsFlushes` | packages/harness/session-persistence/src/write-behind.ts:117-136 | Every step keeps resolved flushes durable |
| `WriteBehind.StepKeepsServed` | packages/harness/session-persistence/src/write-behind.ts:45-136 | Every step but `cancelAutomaticWait` keeps the queue served, the barrier-closing step included |
| `WriteBehind.SessionWriteBehind.EnqueueEvent` | packages/harness/session-persistence/src/write-behind.ts:45-56 | Appends one event and arms the deadline when the automatic path is idle or was paused |
| `WriteBehind.SessionWriteBehind.FlushPending` | packages/harness/session-persistence/src/write-behind.ts:63-72 | Opens the barrier, or joins the open one; cancels deadline and pause |
| `WriteBehind.SessionWriteBehind.CancelWait` | packages/harness/session-persistence/src/write-behind.ts:75-78 | Cancels the deadline and nothing else |
| `WriteBehind.SessionWriteBehind.OnDeadline` | packages/harness/session-persistence/src/write-behind.ts:93-100 | Over an idle writer the whole queue becomes the active background batch; otherwise the active write is remembered to have used up the window |
| `WriteBehind.SessionWriteBehind.Continue` | packages/harness/session-persistence/src/write-behind.ts:109-115 | Starts the next background write exactly when the deadline expired meanwhile and no barrier is open |
| `WriteBehind.SessionWriteBehind.DrainBarrier` | packages/harness/session-persistence/src/write-behind.ts:125-136 | One turn of the drain loop: the next own write, or the closed barrier |
| `WriteBehind.SessionWriteBehind.Resume` | packages/harness/session-persistence/src/write-behind.ts:118-130 | The barrier resumes after the write it awaited, and rejects when its own write failed |
| `WriteBehind.SessionWriteBehind.BeginWrite` | packages/harness/session-persistence/src/write-behind.ts:139-158 | Takes the whole queue as the active batch |
| `WriteBehind.SessionWriteBehind.OnWriteFailed` | packages/harness/session-persistence/src/write-behind.ts:144-152 | Puts the batch back before newer events and pauses automatic retries |
| `WriteBehind.SessionWriteBehind.OnFinally` | packages/harness/session-persistence/src/write-behind.ts:153-155 | Frees the active slot and queues what awaited the write |
| `Preparations.EveryRun` | packages/harness/session-persistence/src/preparations.ts:53-299 | Every interleaving keeps the pool invariant, and no call ever finds its waiter missing |
| `Preparations.StepKeeps` | packages/harness/session-persistence/src/preparations.ts:53-299 | Every step of every operation keeps the pool invariant |
| `Preparations.Exclusive` | packages/harness/session-persistence/src/preparations.ts:75-123 | Over the entries in the map no two holders, in commit or reserved, belong to one id |
| `Preparations.WaitersServed` | packages/harness/session-persistence/src/preparations.ts:83-90 | A call whose awaited entry became ready or was removed can resume; one that must still wait waits on a live holder |
| `Preparations.EntryStaysOut` | packages/harness/session-persistence/src/preparations.ts:145-191 | An entry out of the map stays out over every step |
| `Preparations.ReservationStaysRevoked` | packages/harness/session-persistence/src/preparations.ts:145-182 | A revoked reservation stays revoked over every step |
| `Preparations.OutForever` | packages/harness/session-persistence/src/preparations.ts:145-191 | An entry out of the map at one moment of a run is out at every later one |
| `Preparations.RevokedForever` | packages/harness/session-persistence/src/preparations.ts:145-182 | A reservation revoked at one moment of a run is revoked at every later one |
| `Preparations.ConsumedIsRevoked` | packages/harness/session-persistence/src/preparations.ts:145-182 | Attaching, discarding or releasing a live reservation revokes it |
| `Preparations.TouchRefinesLru` | packages/harness/session-persistence/src/preparations.ts:285-298 | Touching a ready entry is the abstract LRU touch: last-touch order, within capacity, and only the least recently touched ready entry is evicted |
| `Preparations.EvictOldest` | packages/harness/session-persistence/src/preparations.ts:293-297 | The first ready entry in map order is the least recently touched one |
| `Preparations.ReserveKeeps` | packages/harness/session-persistence/src/preparations.ts:115-122 | A committed entry becomes reserved under a reservation nobody held before |
| `Preparations.ReleaseKeeps` | packages/harness/session-persistence/src/preparations.ts:168-182 | Release makes the entry ready again or removes it, and revokes the reservation |
| `Preparations.LoadMeans` | packages/harness/session-persistence/src/preparations.ts:253-262 | A settled load makes the entry that is still in the map ready under the loaded source, or takes it out and settles its waiter, and touches no other entry but by eviction |
| `Preparations.CommitMeans` | packages/harness/session-persistence/src/preparations.ts:97-123 | A failed or undefined commit leaves the entry out of the map and its waiter settled; a committed entry carries the committed source, and is ready after an abort and reserved otherwise, if it is still in the map |
| `Preparations.ReleaseMeans` | packages/harness/session-persistence/src/preparations.ts:168-182 | A reusable release leaves the entry ready and newest, any other out of the map; its waiter is settled either way |
| `Preparations.InspectMeans` | packages/harness/session-persistence/src/preparations.ts:57-65 | An inspection makes a ready entry the newest one and changes nothing else |
| `Preparations.InvalidateMeans` | packages/harness/session-persistence/src/preparations.ts:188-191 | Removing the entry an id has leaves none of that id in the map, and every other one as it was |
| `Preparations.SessionPreparations.TouchEntry` | packages/harness/session-persistence/src/preparations.ts:285-298 | The counting and eviction loops compute the specified touch |
| `Preparations.SessionPreparations.MakeEntryReady` | packages/harness/session-persistence/src/preparations.ts:266-274 | Ready, waiter settled, touched; a no-op for an entry that left the map |
| `Preparations.SessionPreparations.RemoveEntry` | packages/harness/session-persistence/src/preparations.ts:276-283 | Removed, waiter settled; a no-op for an entry that left the map |
| `Preparations.SessionPreparations.FindOrLoad` | packages/harness/session-persistence/src/preparations.ts:230-264 | The existing entry, or a fresh one whose load started or threw at once |
| `Preparations.SessionPreparations.OnLoaded` | packages/harness/session-persistence/src/preparations.ts:253-262 | A settled load makes its entry ready under the loaded source, or takes it out of the map; an entry that left the map changes nothing there |
| `Preparations.SessionPreparations.Inspect` | packages/harness/session-persistence/src/preparations.ts:53-60 | Shares an in-flight load of the same id |
| `Preparations.SessionPreparations.ResumeInspect` | packages/harness/session-persistence/src/preparations.ts:57-65 | Returns the entry's current source, or the loaded one where it has none, and touches the entry only while it is ready in the map; a failed load throws |
| `Preparations.SessionPreparations.Reserve` | packages/harness/session-persistence/src/preparations.ts:75-82 | Begins like an inspection and waits for the load |
| `Preparations.SessionPreparations.ResumeReserve` | packages/harness/session-persistence/src/preparations.ts:83-96 | Waits again while somebody holds the entry, gives up when it left the map, and takes a ready entry to commit |
| `Preparations.SessionPreparations.ResumeCommit` | packages/harness/session-persistence/src/preparations.ts:97-123 | A commit that fails or yields nothing takes the entry out of the map and settles its waiter; an aborted one leaves it ready, under the capacity; a reservation is returned exactly when the commit succeeded, was not aborted and the entry is still in the map, and it is live and new |
| `Preparations.SessionPreparations.ReservationFor` | packages/harness/session-persistence/src/preparations.ts:130-139 | None exactly when the id has no entry; a reservation only for the exact session that holds it; otherwise the alias error |
| `Preparations.SessionPreparations.AttachReservation` | packages/harness/session-persistence/src/preparations.ts:145-151 | Consumes a live reservation; a stale one throws and changes nothing |
| `Preparations.SessionPreparations.DiscardReservation` | packages/harness/session-persistence/src/preparations.ts:157-161 | Removes the entry of a live reservation; a stale one is a no-op |
| `Preparations.SessionPreparations.ReleaseReservation` | packages/harness/session-persistence/src/preparations.ts:168-182 | Returns the entry of a live reservation to the ready list or removes it; a stale one is a no-op |
| `Preparations.SessionPreparations.InvalidateId` | packages/harness/session-persistence/src/preparations.ts:188-191 | No entry of the id is in the map afterwards, and every other one is as it was |
| `Preparations.SessionPreparations.DiscardIfReady` | packages/harness/session-persistence/src/preparations.ts:199-205 | Missing when the id has no entry, discarded when its entry is ready with that source, retained otherwise |
| `Preparations.SessionPreparations.AssertWritable` | packages/harness/session-persistence/src/preparations.ts:211-216 | Throws exactly when somebody holds the id's entry |
| `Preparations.SessionPreparations.TakeIfReady` | packages/harness/session-persistence/src/preparations.ts:223-228 | Takes a ready entry out of the map and returns that entry's source |
| `Inbox.EveryMessageAccounted` | packages/harness/agent/src/inbox.ts:158-200 | In every replayable log each inserted message is exactly one of pending, claimed or discarded, as often as it was inserted |
| `Inbox.ReplayDistinct` | packages/harness/agent/src/inbox.ts:203-219 | No identity is ever pending twice across both lists |
| `Inbox.NormalizesAsStandard` | packages/harness/agent/src/inbox.ts:166-175 | For every pair of numbers, NaN and the infinities included, the coordinates are `actualStart` and `actualDeleteCount` of section 23.1.3.31 of ECMA-262 |
| `Inbox.Rebuild` | packages/harness/agent/src/inbox.ts:28-40 | The constructor loop computes the replay of the unseeded log, or stops at the first splice that does not fit |
| `Inbox.ReplayOthers` | packages/harness/agent/src/inbox.ts:34 | Entries of other kinds do not move the projection |
| `Inbox.ClaimCounted` | packages/harness/agent/src/inbox.ts:71-80 | A claim is a replayable entry that moves exactly the taken messages to the claimed account |
| `Inbox.SplicedAll` | packages/harness/agent/src/inbox.ts:210-213 | A splice of either list is a splice of both lists in a row |
| `Inbox.LiveInbox.constructor` | packages/harness/agent/src/inbox.ts:28-40 | A rebuilt inbox equals the replay of its log |
| `Inbox.LiveInbox.Mutate` | packages/harness/agent/src/inbox.ts:158-193 | After any mutation the live lists are the replay of the log; it throws, changing nothing, exactly when an identity would be pending twice, and logs nothing when it does nothing |
| `Inbox.LiveInbox.Append` | packages/harness/agent/src/inbox.ts:86-88 | Appends, or throws exactly when the identity is pending |
| `Inbox.LiveInbox.Prepend` | packages/harness/agent/src/inbox.ts:96-98 | Prepends, or throws exactly when the identity is pending |
| `Inbox.LiveInbox.Replace` | packages/harness/agent/src/inbox.ts:109-114 | Replaces in place; throws exactly when the new identity is pending elsewhere |
| `Inbox.LiveInbox.Remove` | packages/harness/agent/src/inbox.ts:121-126 | Removes the located message as a logged cancellation and never throws |
| `Inbox.LiveInbox.Clear` | packages/harness/agent/src/inbox.ts:58-61 | Cancels next-step input, then next-turn input, one entry each |
| `Inbox.LiveInbox.Claim` | packages/harness/agent/src/inbox.ts:71-80 | All next-step input, then one queued turn if asked; accounted as claimed and never as discarded |
| `Inbox.Locate` | packages/harness/agent/src/inbox.ts:149-155 | Finds a pending identity if there is one |
| `ConsumedWork.FoldConsumedWork` | packages/harness/agent/src/consumed-work.ts:68-108 | The single pass computes the fold |
| `ConsumedWork.FoldAnswers` | packages/harness/agent/src/consumed-work.ts:68-108 | For every log, however its turns are numbered: `end` is the last turn end that accounts for consumed work, and `droppedUnrun` holds exactly when work was dropped after it |
| `ConsumedWork.FoldIsMeaning` | packages/harness/agent/src/consumed-work.ts:18-31 | When no two turn ends share a number, that is the last end of a turn that entered a step, or claimed input and did not complete |
| `ConsumedWork.FoldIsPlainIff` | packages/harness/agent/src/consumed-work.ts:68-108 | On any log whose last turn end of the plain kind is given: the fold gives the plain answer if and only if that turn still has a step or an uncompleted claim to account for when it ends |
| `ConsumedWork.FoldIsPlainIdle` | packages/harness/agent/src/consumed-work.ts:68-108 | On any log without a turn end of the plain kind the fold gives the plain answer |
| `ConsumedWork.ReusedTurnDiffers` | packages/harness/agent/src/consumed-work.ts:95 | Where it does not: a second end of the same turn number has no step left to account for |
| `SessionLog.ValidateSessionLog` | packages/harness/session-protocol/src/index.ts:204-272 | Silent if and only if sequence numbers are contiguous and the log is well bracketed; a violation names what is wrong where; the last branch is never taken |
| `SessionLog.ClosedIsWellBracketed` | packages/harness/session-protocol/src/index.ts:204-272 | A closed turn/step word passes the structural check |
| `SessionLog.WellBracketedIsWeaker` | packages/harness/session-protocol/src/index.ts:221-224 | The structural check also passes logs that are not turn/step words |
| `SessionLog.AssertTurnChoreography` | packages/harness/loop-protocol/src/index.ts:149-232 | On any log the scan reports exactly the offending entries, each once, in log order and under its own code, and at the end the call left waiting longest; what offends is said of the log alone |
| `SessionLog.ChoreographyReports` | packages/harness/loop-protocol/src/index.ts:149-232 | The meaning of the seven codes, of any log: a result is unmatched if and only if it stands in an open step of a turn and no call with its id since the turn's start is still unanswered; a step ends early if and only if some call waits; and so on for the others |
| `SessionLog.ChoreographyOfClosed` | packages/harness/loop-protocol/src/index.ts:149-232 | On a closed word with distinct pending call ids it is silent if and only if all arguments parse and no step ended with a call unanswered |
| `SessionLog.PairedIsToolPhase` | packages/harness/agent-loop/src/tool-calls.ts:59-101 | The scheduler's contract is a tool phase of the turn/step word, with the unanswered calls pending |
| `SessionLog.ScanPrefix` | packages/harness/agent-loop/src/agent.ts:246-420 | Every prefix of a turn/step word is one |
| `SessionLog.LastTurnOfScan` | packages/harness/agent-loop/src/agent.ts:92 | The last `turn/start` of a word is the turn a resumed driver continues from |
| `WakeLatch.LatchIsOwed` | packages/harness/agent-loop/src/agent.ts:113-140 | The flag is set exactly when a qualifying wake was sent and no clearing cancel followed |
| `WakeLatch.DisposedDriverOwesNothing` | packages/harness/agent-loop/src/agent.ts:174-180 | A running driver first cancelled as disposed owes no wake, whatever follows |
| `WakeLatch.DisposedMaintenanceOwes` | packages/harness/agent-loop/src/agent.ts:142-180 | Maintenance first cancelled as disposed owes a wake if and only if one was sent before that and every cancel kept the inbox |
| `WakeLatch.DisposedMaintenanceRestarts` | packages/harness/agent-loop/src/agent.ts:134-158 | A disposal that keeps the inbox does not take back a wake already latched |
| `AgentRuns.EveryRun` | packages/harness/agent-loop/src/agent.ts:113-420 | Over every run, whatever anyone does at any await, those on the driver's own methods included: the log replays to the live inbox, is a turn/step word that stands where the driver stands, each answer cites exactly its attempt's chunks, calls are answered unless the scheduler failed, the latch is the owed wake, and every turn end and convergence is as recorded |
| `AgentDriver.StepKeeps` | packages/harness/agent-loop/src/agent.ts:113-420 | Every action of anyone, at every program point, keeps all of that |
| `AgentDriver.OthersKeep` | packages/harness/agent-loop/src/agent.ts:212-414 | Whatever others do at an await, the driver stands where it stood |
| `AgentRuns.AtRestPasses` | packages/harness/loop-protocol/src/index.ts:149-232 | At every rest the structural check is silent, and without a scheduler failure, on distinct pending ids, the choreography check is silent exactly when all arguments parse |
| `AgentRuns.WordsHaveDistinctEnds` | packages/harness/agent-loop/src/agent.ts:253 | A driver never reuses a turn number, so its logs are of the kind the consumed-work fold reads plainly |
| `AgentRuns.TurnEndMeans` | packages/harness/agent-loop/src/agent.ts:260-330 | Every turn end says how its turn was left and what its steps did: aborted with the first cause or failed if and only if it was thrown out of, blocked if and only if rejected, at the token ceiling if and only if the answer of some returned step hit it, and completed if and only if no step was entered or the last one was answered without tool calls or concluded by its tools; another turn follows if and only if the turn broke off with input pending |
| `AgentRuns.ReturnedStepGoesOnIff` | packages/harness/agent-loop/src/agent.ts:284-301 | After a step that returned under a live signal the turn proposes a further one if and only if input for a step is pending, or the step's tools left results and no step of the turn hit the ceiling; otherwise it stops, and no turn end is logged either way |
| `AgentRuns.ToolResultsSeenIff` | packages/harness/agent-loop/src/agent.ts:290-301 | So tools that ran without concluding are followed by a further step if and only if no earlier step of the turn hit the ceiling, or input for a step is pending |
| `AgentRuns.ToolResultsUnseen` | packages/harness/agent-loop/src/agent.ts:290-301 | Where they are not, the turn ends at the ceiling right after the step, and the model never sees the results |
| `AgentRuns.ToolResultsUnseenReached` | packages/harness/agent-loop/src/agent.ts:290-301 | A fresh agent reaches that: its first step is cut off at the ceiling with a message joining, its second one runs a tool |
| `AgentRuns.AbortedIff` | packages/harness/agent-loop/src/agent.ts:266-323 | A turn that closes ends aborted if and only if its signal has fired and it does not close on a decision not to enter a step, which is acted on without looking at the signal |
| `AgentRuns.RejectedUnderSignal` | packages/harness/agent-loop/src/agent.ts:241-270 | Where it does not: a cancel between a rejecting pre-step and the turn that awaits it |
| `AgentRuns.RejectedUnderSignalReached` | packages/harness/agent-loop/src/agent.ts:241-270 | A fresh agent reaches that |
| `AgentRuns.RenewedUnderSignalIff` | packages/harness/agent-loop/src/agent.ts:271-329 | Under a fired signal another turn follows if and only if the turn breaks off on an empty step with input pending |
| `AgentRuns.DisposedTurnRenewed` | packages/harness/agent-loop/src/agent.ts:271-329 | So a disposal in that gap is followed by another turn under a live controller |
| `AgentRuns.DisposedTurnRenewedReached` | packages/harness/agent-loop/src/agent.ts:271-329 | A fresh agent reaches that |
| `AgentRuns.EveryWake` | packages/harness/agent-loop/src/agent.ts:172-223 | A converged activity restarts if and only if under its last controller a wake qualified and was not cleared, and input is pending; the restarted driver opens its turn right there in the log |
| `AgentRuns.RenewedWake` | packages/harness/agent-loop/src/agent.ts:324-329 | A latch dropped with its controller loses no wake: the next controller opens a turn unless it is cancelled first; and there was one to drop only if the turn broke off on an empty step |
| `AgentRuns.LeftPending` | packages/harness/agent-loop/src/agent.ts:210-223 | Input that a driver leaves pending without restarting came after its last turn looked for input, or that turn did not look: it was thrown out of, rejected, empty, or never opened |
| `AgentRuns.WakeAtTurnEnd` | packages/harness/agent-loop/src/agent.ts:210-220 | A wake between that look and the driver's end is left pending by an idle agent if and only if the driver was not aborted, or first by disposal |
| `AgentRuns.WakeStrandedReached` | packages/harness/agent-loop/src/agent.ts:210-220 | A fresh agent goes idle over the message of an accepted wake |
| `AgentRuns.RenewalCancelled` | packages/harness/agent-loop/src/agent.ts:210-252 | A cancel before a promised next turn begins ends the driver over the pending input |
| `AgentRuns.DisposedRestarts` | packages/harness/agent-loop/src/agent.ts:142-223 | A driver whose present controller was first cancelled by disposal does not restart; maintenance does if and only if a wake came before, every cancel kept the inbox, and input is pending |
| `AgentDriver.ConvergeKeeps` | packages/harness/agent-loop/src/agent.ts:216-221 | The end of an activity, running or maintenance, keeps the record and the invariant, and starts the next driver from there |
| `AgentDriver.CloseTurnKeeps` | packages/harness/agent-loop/src/agent.ts:302-329 | A turn left by any branch is closed at the end of a turn/step word, on record with its reason |
| `AgentDriver.ClaimedKeeps` | packages/harness/agent/src/consumed-work.ts:88-89 | Every claim in the log is a step-boundary read inside a turn, and a queued turn is claimed alone before the first step |
| `AgentDriver.LoggedKeeps` | packages/harness/agent-loop/src/agent.ts:246-420 | Every entry the driver logs keeps replay, citations, claims and resolved calls |
| `ToolPhase.EveryPairingReached` | packages/harness/agent-loop/src/tool-calls.ts:59-101 | From a driver whose tools have begun, its tool actions and others' entries make the log any extension that pairs its calls |
| `ToolPhase.OnlyPairings` | packages/harness/agent-loop/src/tool-calls.ts:59-101 | And nothing else: while the scheduler is at work the step's entries are a pairing of its calls |
| `ToolPhase.SchedulerIsToolPhase` | packages/harness/agent-loop/src/agent.ts:414-418 | Every run of the tool scheduler, finished, cancelled or rejected, is a tool phase of the driver that leaves the same log and the same result |
| `AgentDriver.Agent.constructor` | packages/harness/agent-loop/src/agent.ts:80-97 | A driver resumed over a closed log is at rest at the log's last turn |
| `AgentDriver.Agent.Send` | packages/harness/agent-loop/src/agent.ts:113-120 | The message joins the end of its list, a waking one behind an aborted activity that of the queued turns; a wake of an idle agent opens the next turn at once; a duplicate throws and changes nothing |
| `AgentDriver.Agent.Cancel` | packages/harness/agent-loop/src/agent.ts:134-140 | The first cause sticks; unless the inbox is kept, both lists are cancelled and the latch forgotten |
| `AgentDriver.Agent.WakeDriver` | packages/harness/agent-loop/src/agent.ts:172-193 | Starts a driver when idle; otherwise latches for maintenance or an aborted activity not disposed first |
| `AgentDriver.Agent.RunMaintenance` | packages/harness/agent-loop/src/agent.ts:142-152 | Begins maintenance, or throws exactly when there is active work |
| `AgentDriver.Agent.EndMaintenance` | packages/harness/agent-loop/src/agent.ts:153-161 | The job settles, and the activity converges |
| `AgentDriver.Agent.Converge` | packages/harness/agent-loop/src/agent.ts:216-222 | Goes idle, and starts a driver for a latched wake over pending input |
| `AgentDriver.Agent.AfterTurn` | packages/harness/agent-loop/src/agent.ts:210-223 | `kick` goes on with another turn, or converges |
| `AgentDriver.Agent.Turn` | packages/harness/agent-loop/src/agent.ts:246-266 | A turn numbered one past the last, unless the signal has fired; its first step is proposed |
| `AgentDriver.Agent.PreStep` | packages/harness/agent-loop/src/agent.ts:225-230 | All next-step input, and the first queued turn if one is asked for, leave the lists, and the log grows by their claims alone |
| `AgentDriver.Agent.AfterPrompt` | packages/harness/agent-loop/src/agent.ts:230-240 | `preStep` goes on only under a signal that has not fired |
| `AgentDriver.Agent.AfterPreStepPlugins` | packages/harness/agent-loop/src/agent.ts:234-242 | A decision is returned only under a signal that has not fired; otherwise the pre-step throws |
| `AgentDriver.Agent.AfterPreStep` | packages/harness/agent-loop/src/agent.ts:266-287 | The decision is rejected, breaks off, ends the turn, or enters a step, in the code's order of checks |
| `AgentDriver.Agent.EnterStep` | packages/harness/agent-loop/src/agent.ts:279-286 | The step's boundary, then exactly its messages in order |
| `AgentDriver.Agent.AfterProposal` | packages/harness/agent-loop/src/agent.ts:457-468 | `buildRequest` goes on only under a signal that has not fired |
| `AgentDriver.Agent.AfterPrepared` | packages/harness/agent-loop/src/agent.ts:468-513 | A built request logs nothing but a header and a context record |
| `AgentDriver.Agent.AfterRequest` | packages/harness/agent-loop/src/agent.ts:340-348 | A new attempt begins here, or the step throws |
| `AgentDriver.Agent.OnChunk` | packages/harness/agent-loop/src/agent.ts:348-352 | A chunk is logged and collected, unless the signal has fired |
| `AgentDriver.Agent.FailStream` | packages/harness/agent-loop/src/agent.ts:354-371 | A stream that was thrown out of leaves an interrupted answer exactly if the signal fired and there is content |
| `AgentDriver.Agent.OnStreamEnd` | packages/harness/agent-loop/src/agent.ts:353-417 | The answer, citing the collected chunks, and then its ceiling, its completion or its tools; or a failure to ask about |
| `AgentDriver.Agent.AfterRequestError` | packages/harness/agent-loop/src/agent.ts:374-390 | Retries exactly when told to under a signal that has not fired |
| `AgentDriver.Agent.AfterTools` | packages/harness/agent-loop/src/agent.ts:414-418 | Tools that concluded complete the step, tools that did not leave it without an ending, a failed scheduler throws; nothing is logged |
| `AgentDriver.Agent.AfterStep` | packages/harness/agent-loop/src/agent.ts:287-301 | The step is closed however it ended; a failure or a fired signal ends the turn, otherwise its ending is brought up to date and it stops when it has one and no input for a step is pending, or proposes a further step |
| `AgentDriver.Agent.AfterStopping` | packages/harness/agent-loop/src/agent.ts:295-301 | The turn closes, or goes on when a message joined it |
| `AgentDriver.Agent.CloseTurn` | packages/harness/agent-loop/src/agent.ts:302-330 | The turn's end for the branch it left by, and a fresh controller if it broke off with input pending |
| `ImageOffload.OffloadRequestImagesWithPolicy` | packages/harness/llm/src/content.ts:174-202 | Exactly the images of the shortest oldest-first prefix that reaches the quantised targets are replaced |
| `ImageOffload.OffloadedFits` | packages/harness/llm/src/content.ts:174-202 | What goes out fits both budgets and keeps the newest images; a request within budget is unchanged |
| `ImageOffload.OffloadedSameOtherwise` | packages/harness/llm/src/content.ts:83-106 | All other blocks, nesting and order are kept |
| `ImageOffload.OffloadGrows` | packages/harness/llm/src/content.ts:163-173 | Appending messages never gives an image back, and removes none more while the reached targets stand |
| `ImageOffload.RemovedPrefix` | packages/harness/llm/src/content.ts:180-196 | The loop stops at the least prefix that reaches the targets; a quantum above one must be exceeded |
| `ImageOffload.TargetsMean` | packages/harness/llm/src/content.ts:186-187 | The targets are the least multiples of the quanta that cover what exceeds each budget |
| `ImageOffload.DocumentedSteps` | packages/harness/llm/src/content.ts:165-173 | The documented steps: of one-megabyte images under 128 MiB with a 64 MiB quantum the oldest 65 are removed from 129 images on up to 192, and 129 at the next one |
| `ImageOffload.RemainderFits` | packages/harness/llm/src/content.ts:188-196 | After the least sufficient prefix the rest fits both budgets |
| `ImageOffload.ReplaceOldestImages` | packages/harness/llm/src/content.ts:83-106 | The shared counter replaces exactly the first images in pre-order, and reports a change exactly when there is one |
| `ImageOffload.ErasedImages` | packages/harness/llm/src/content.ts:83-106 | What is left of a tree's images is the suffix past the removed prefix |
| `ImageOffload.ErasedChanges` | packages/harness/llm/src/content.ts:95-105 | A tree changes exactly when some of its images lie in the removed prefix |
| `ImageOffload.CollectImageLengths` | packages/harness/llm/src/content.ts:65-80 | Lengths are collected in pre-order through nested tool results |
| `ImageOffload.ContentHasImage` | packages/harness/llm/src/content.ts:38-41 | True exactly when the tree contains an image at any depth |
| `ImageOffload.ImageAtPath` | packages/harness/llm/src/content.ts:65-80 | Every image block, at whatever path through nested results, is counted |
| `ImageOffload.PathToImage` | packages/harness/llm/src/content.ts:65-80 | And nothing else is |
| `ImageOffload.Base64Groups` | packages/harness/llm/src/content.ts:44-47 | The base64 length is four characters for every three bytes begun |
| `Scope.LinkKeepsAcyclic` | packages/harness/scope/src/index.ts:54-59 | A link keeps the relation acyclic if and only if the key is not on the parent's chain |
| `Scope.Relation.LinkScopeParent` | packages/harness/scope/src/index.ts:54-59 | On every acyclic relation: terminates, and throws, changing nothing, exactly when the link would close a cycle |
| `Scope.Relation.BindScopeParent` | packages/harness/scope/src/index.ts:72-82 | A bound key throws; otherwise as the checked link |
| `Scope.Relation.ScopeChainOf` | packages/harness/scope/src/index.ts:98-102 | The chain from the key to its root, nearest first |
| `Scope.Relation.Admits` | packages/harness/scope/src/index.ts:173-181 | A tagged listener is admitted exactly when the base filter passes and its tag is on the dispatch key's chain |
| `Scope.ChainWalks` | packages/harness/scope/src/index.ts:98-102 | The chain lists exactly the ancestors, each at its distance |
| `Scope.AdmissionIsInheritance` | packages/harness/scope/src/index.ts:158-169 | A tag is admitted for a key exactly when it is the key or an ancestor, the chain that layers are inherited along |
| `ScopeStore.NamedEntries.Insert` | packages/harness/scope/src/store.ts:43-47 | A taken name throws; otherwise the entry joins at the end with its own undo |
| `ScopeStore.NamedEntries.RunUndo` | packages/harness/scope/src/store.ts:48-53 | The first run removes exactly its insertion, every later run nothing; the table is always its active insertions in order |
| `ScopeStore.ActiveUndone` | packages/harness/scope/src/store.ts:48-53 | Undoing one active insertion removes exactly its entry |
| `ScopeStore.ChainLayers` | packages/harness/scope/src/store.ts:192-199 | Existing overlays, farthest ancestor first |
| `ScopeStore.Merge` | packages/harness/scope/src/store.ts:208-217 | Each name as its nearest scope has it, falling back to the global table, in order of first appearance |
| `ScopeStore.LayeredIsNearest` | packages/harness/scope/src/store.ts:208-217 | Layering overlays over the global table is looking each name up nearest first |
| `ScopeStore.DisposedKeepsIff` | packages/harness/scope/src/store.ts:257-261 | In every state that can be reached, a disposal hides no other live contribution if and only if it does not find its own layer empty while its scope shows another that is not |
| `ScopeStore.BackedIff` | packages/harness/scope/src/store.ts:257-261 | Where every live contribution is shown, it stays so under exactly the same condition |
| `ScopeStore.EveryRun` | packages/harness/scope/src/store.ts:226-261 | Over every run of registrations, throwing actions and disposals, every live contribution is shown throughout if and only if no disposal drops a layer that is not its own |
| `ScopeStore.DisposedKeeps` | packages/harness/scope/src/store.ts:257-261 | When every registration contributes, a disposal hides no other live contribution and reclaims its layer exactly when nothing is left in it |
| `ScopeStore.EmptyRegistrationHides` | packages/harness/scope/src/store.ts:257-261 | A registration that inserts nothing breaks this through every scope of every state that can be reached, with a layer or without: once its layer has been reclaimed and replaced, its disposal hides the replacement |
| `ScopeStore.ScopedLayers.Register` | packages/harness/scope/src/store.ts:226-256 | Registers any number of entries in the global layer, the layer the scope shows, or a new one that was empty, and hides nothing; a throwing action leaves scopes and registrations as they were |
| `ScopeStore.ScopedLayers.Dispose` | packages/harness/scope/src/store.ts:257-261 | The disposer's state change for any live registration, with the exact condition for it to hide another's contribution |
| `DeepFreeze.DeepFreeze` | packages/harness/llm/src/call-config.ts:88-117 | Terminates on every finite graph, cyclic or not, and freezes exactly the objects reachable through objects that are not abort signals |
| `DeepFreeze.ReachableSeen` | packages/harness/llm/src/call-config.ts:100-114 | A seen set closed under properties holds everything reachable |
| `DeepFreeze.PushProperties` | packages/harness/llm/src/call-config.ts:108-113 | The property tasks of one object |
| `Assembler.BlockAssembler.Push` | packages/harness/llm/src/assembler.ts:48-105 | After every chunk the partials and their order are what the pushed chunks make of them, index by index |
| `Assembler.PartialMeans` | packages/harness/llm/src/assembler.ts:48-95 | A partial is its first chunk's type, the deltas concatenated until the first `block-end`, and that end, which wins |
| `Assembler.BlockMeans` | packages/harness/llm/src/assembler.ts:107-120 | A seen index's block is the payload of its first end, or else its concatenated deltas as a block of its first chunk's type; of another type there is none |
| `Assembler.InterleavingIrrelevant` | packages/harness/llm/src/assembler.ts:134-138 | Two interleavings with the same per-index streams and first appearances assemble to the same blocks |
| `Assembler.BlockAssembler.Assemble` | packages/harness/llm/src/assembler.ts:134-149 | All blocks in first-seen order, under a token ceiling exactly those that are no tool calls, with the replay metadata that still fits; nothing if some block cannot be assembled |
| `Assembler.ReplayAligned` | packages/harness/llm/src/assembler.ts:140-148 | Replay metadata is dropped exactly when its entries are for another number of blocks; kept entries correspond one to one with the emitted blocks, each to its own |
| `Assembler.SeenOnce` | packages/harness/llm/src/assembler.ts:97-105 | No index is emitted twice |
| `Assembler.SeenInOrder` | packages/harness/llm/src/assembler.ts:97-105 | Exactly the addressed indices are seen, in the order of their first chunks |
| `Assembler.BlockAssembler.InterruptedBlocks` | packages/harness/llm/src/assembler.ts:168-178 | Exactly the readable, non-blank blocks in first-seen order; it never throws |
| `Assembler.InterruptedMeans` | packages/harness/llm/src/assembler.ts:168-178 | What is kept are the blocks of exactly the positions whose block is readable and not blank, in order |
| `Assembler.ValidateStream` | packages/harness/llm/src/invariant.ts:36-84 | Accepts exactly the streams that end with a finish and every chunk of which fits those before it: nothing after a finish, safe indices, starts of closed indices only, deltas and ends of an open index of their type, usage once, nothing left open unless the stream failed |
| `Assembler.ValidatedIff` | packages/harness/llm/src/invariant.ts:36-84 | The validator's variables tell, of every prefix, which indices were started and not ended since, and as what |
| `Assembler.AcceptedBlocks` | packages/harness/llm/src/invariant.ts:36-84 | On an accepted stream that reopens no index and does not fail, the blocks are exactly the `block-end` payloads |
| `Assembler.EachEmittedIff` | packages/harness/llm/src/invariant.ts:36-84 | On an accepted stream that does not fail, every `block-end` payload is emitted as its own block if and only if no closed index is reopened, that is if there are as many block ends as blocks |
| `Assembler.ReopenedIndexLosesPayload` | packages/harness/llm/src/invariant.ts:46-68 | Where it is not: the grammar lets a closed index be reopened, and the second payload is lost |
| `EventStream.Connection.constructor` | packages/api/http/src/index.ts:401-421 | Subscribed before anything is replayed |
| `EventStream.Connection.OnEvent` | packages/api/http/src/index.ts:409-421 | Buffered until the replay is done, written at once after that |
| `EventStream.Connection.Replay` | packages/api/http/src/index.ts:423-459 | Writes the loaded events past the client's last one, then what arrived since the subscription and was not loaded, each once and in order |
| `EventStream.SeamlessIff` | packages/api/http/src/index.ts:423-459 | That leaves no gap if and only if the replay has read everything from before the subscription that the client has not seen |
| `EventStream.ReplayFrames` | packages/api/sdk/src/index.ts:341-350 | The loaded events past the client's last one, and no others |
| `EventStream.FlushFrames` | packages/api/http/src/index.ts:448-457 | The buffered events the replay did not deliver |
| `EventStream.StartsPastClient` | packages/api/http/src/index.ts:401-402 | Deliveries start right past the client's last event if and only if the client is not ahead of the log |
| `EventStream.WrittenIsServed` | packages/api/http/src/index.ts:401-459 | What a connection writes is what a client at that position is served if and only if its replay did not lag in that way |
| `EventStream.FrameRoundTrip` | apps/work-web/src/api.ts:224-231 | A frame comes back as written if and only if its data is one non-empty line |
| `EventStream.FrameComesBackCut` | apps/work-web/src/api.ts:227-231 | A frame whose data does not begin with a line terminator comes back with its data cut at the first one |
| `EventStream.ParseDecimal` | apps/work-web/src/api.ts:227 | A sequence number survives being sent as text |
| `EventStream.ParseTolerates` | packages/api/http/src/index.ts:401-402 | A number is read behind white space and either sign, up to the first character that is no digit |
| `EventStream.SplitArrives` | apps/work-web/src/api.ts:222-226 | Splitting frames as text arrives is splitting the whole text |
| `EventStream.DrainBuffer` | apps/work-web/src/api.ts:222-234 | Takes complete frames off the buffer, all of them or up to the first whose data throws |
| `EventStream.ReadConnection` | apps/work-web/src/api.ts:215-239 | What one connection delivers, up to the frame whose data throws, does not depend on its chunking |
| `EventStream.CutStream` | apps/work-web/src/api.ts:215-235 | Of a stream cut anywhere the client parses exactly the frames that arrived whole, each cut at its first line terminator |
| `EventStream.ConnectionContinues` | apps/work-web/src/api.ts:203-234 | One connection, cut anywhere, delivers the next events up to the first that holds a line terminator, and moves the position past exactly those |
| `EventStream.AcceptedReadable` | apps/work-web/src/api.ts:229-232 | Of frames that carry objects' texts the client delivers exactly those before the first that holds a line terminator |
| `EventStream.DeliversAllIff` | apps/work-web/src/api.ts:190-254 | An uncut connection delivers everything that is left if and only if neither its snapshot nor any of it holds a line terminator |
| `EventStream.StuckAtTerminator` | apps/work-web/src/api.ts:190-254 | Where it does not: a client whose next event holds one stays at its position over every connection |
| `EventStream.OpenEventStream` | apps/work-web/src/api.ts:190-254 | For every log, over any number of broken connections: the delivered events are the log's from the first on, each once, in order, none of them past a line terminator; and once some connection got through whole, at least all of its log |

## Left out

- Deployment parts: provider I/O, HTTP routing, SQLite, React, the CLI, configuration, fibers and effects of the plugin host, and agent creation and teardown.
- Inbox notifications: the inserted, discarded and claimed callbacks are not part of the model.
- Failures of `Session.append`: the driver's handling of a log that refuses `turn/start` or `turn/end` is not modelled.
- Seeds in the driver: `Inbox.LiveInbox` replays after the seed; `AgentDriver` is stated for a log without one.
- AgentDriver.Agent.AfterTools: while the scheduler is at work its entries are actions of their own (`ToolPhase` relates them to its methods); result contents and contexts are arbitrary, and in `ToolPhase` the entries others append are taken to fit the live inbox.
- AgentDriver.Agent.AfterPrepared: which header and context records are written, and what a plugin decides, is left to the environment; the projection of runtime context is not modelled.
- Timer durations, backoff and fairness: only what is possible or impossible is stated; nothing says that a promise settles, so a driver that never converges is covered by its finite runs.
- Preparations: entries are records in a table keyed by identity rather than objects; after an invalidation the commit of a removed entry may overlap that of its replacement, so exclusivity is over the entries in the map.
- ToolCalls.ExecuteToolCalls: argument parsing, presentation and the contents of synthetic results are not modelled.
- ImageOffload.OffloadRequestImagesWithPolicy: lengths and budgets are natural numbers and quanta are positive; the text-only projection is left out because it only repeats the replacement walk.
- ScopeStore.NamedEntries.RunUndo: iterators over a table generation are not modelled; `AnonymousEntries` is the same table under fresh keys.
- ScopeStore.ScopedLayers.Register: a layer is the number of entries its live registrations hold; an action that throws has changed nothing, and a disposer runs once; change notifications are left out.
- Scope.Relation.Admits: the base filter is its answer; the carrier map is a plain lookup.
- DeepFreeze.DeepFreeze: property getters with side effects, proxies and functions are not modelled.
- Assembler.BlockAssembler.InterruptedBlocks: which text is blank is a parameter.
- EventStream.OpenEventStream: every connection is one whose replay does not lag (`EventStream.WrittenIsServed`); status callbacks, the 404 answer, aborting and backoff are left out; what parses as JSON is a parameter with the properties of `ObjectText`; chunks are cut between characters, as the streaming decoder delivers them; sequence numbers beyond the exact range of a double are not rounded.
- EventStream.Connection.Replay: which log the replay reads, and how much of it, is a parameter.
