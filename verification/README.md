# Verification of the myclaw message and agent protocols

myclaw connects chat bots to command-line agents. Between a chat message coming in and the
answer going out lie a handful of small hand-written concurrent protocols. This project models
them in Dafny and proves what they keep, over every interleaving of their goroutines.

How the model is built:

* A protocol is a machine: a datatype for its state, a `Step` for every critical section, channel
  operation or call to the outside, `Enabled` and `Apply`. `Reaches(s, es, t)` says that the steps
  `es` lead from `s` to `t`, so a statement about all `es` is one about all interleavings.
  Calls to the outside (the agent process, the card service, the resolver) succeed or fail at will.
* An object that the program updates in place is a class with the same fields; each of its lock
  sections is a method. Its contract ties the new fields to a specification function of the old
  ones, or says that the fields mirror the machine's state after the corresponding step.
* Fields named `log` or marked as history record what happened. No step reads them.

| File | Subject |
|---|---|
| `Dedup.dfy` | the duplicate filter: one shared, lazily pruned index against one never-pruned history per bot |
| `Pipeline.dfy`, `PipelineSafety.dfy`, `PipelineStop.dfy` | one bot's pipeline: pending slot, resizable queue, accept loop, hand-off, deliver loop, teardown |
| `PipelineForeign.dfy` | replaced queues, and what a stopped generation does to its successor |
| `Orchestrator.dfy` | the orchestrator's lock sections as a class, and their relation to the pipelines of all bots |
| `Composition.dfy` | the whole orchestrator, many bots and generations at once: each bot is served by a pipeline of its own |
| `Scheduler.dfy`, `Session.dfy` | an agent session: its task table, its turn mutex, ticks and Close |
| `Manager.dfy` | the session manager, one call at a time and in all interleavings |
| `LockOrder.dfy` | the lock actions of all these operations, and why they cannot deadlock |
| `Rpc.dfy` | requests and responses over one stream (opencode, codex) |
| `AgentStates.dfy`, `TurnEvents.dfy`, `OpencodeTurn.dfy`, `OpencodeResults.dfy`, `OpencodeExamples.dfy`, `OpencodeRuntime.dfy` | turns of the opencode runtime |
| `CodexTurn.dfy`, `ClaudeTurn.dfy` | turns of the codex and claude runtimes |
| `TraceCard.dfy` | the live trace card |
| `ConnectionManager.dfy` | the reservation with which a bot's runtime is started |

## What the code does not promise

Where a property one would like to have is not true of the code, the model keeps the code as it
is, and a lemma gives the run that breaks it and the condition under which it holds.

* Two first messages admitted before `ensureWorker` share one pending slot: the first is lost and
  its id is refused as a duplicate from then on. A message admitted between the installation of the
  worker and the sending of the pending message overtakes it, and can leave the sending goroutine
  blocked for good after StopBot. All order and completeness results say "unless such a race".
* After such a race the bot's own resize can replace the queue to which the pending message is about
  to be sent; that message is then never taken.
* `finishMessage`, `markMessageStarted` and `resizeWorkerQueue` look a bot up by id. A turn of a
  stopped generation can release a key that the next generation works on. An accept loop of a stopped
  generation can raise its successor's active count for good, unless the message has no id, and can replace the queue under its
  successor's waiting accept loop, which then takes no message, or under the sender of its
  pending message, which is then never taken.
* Keys are `bot:message`. StopBot and the filter keep bots apart exactly if no bot id continues
  another one after a colon.
* A failed tick cancels its task by id, and may hit a later registration of the same id.
* `cloneSpec` turns empty, non-nil arguments into nil, and `reflect.DeepEqual` tells the two apart:
  for such a spec every Send builds another session.
* The reader of the rpc stream sends into a one-place channel without a way out: a second response
  for an id whose caller has left stops it for good.
* opencode: texts that arrive between the response to the prompt and the moment the completion is
  queued still enter the answer. The end of `Init` overwrites a death found meanwhile. A server that
  names a new session with the resume id can make one Run ask for two sessions.
* codex: a turn published after the reader has ended waits for its context; a completion that meets
  a full backlog is dropped.
* Trace card: an Ack that runs together with the first Step can create two cards; a Step after a
  Done or Fail that found nothing to show starts a loop that never ends; a final request that fails
  is not repeated, and the card stays as it was.
* Session: a Send that waits for the mutex while another goroutine closes the session finds no
  runtime when it gets there.
* Start: after a state event for a bot whose start is under way, a second start can run beside it.

## Model

| member | source | states |
|---|---|---|
| Dedup.KeysCollideExactly | internal/app/bot/message_orchestrator.go:556-557 | For one bot the key determines the message id; two bots have a key in common exactly if they are the same or one id continues the other after a colon |
| Dedup.ColonFreeApart | internal/app/bot/message_orchestrator.go:660-664 | Bot ids without a colon are never in that relation |
| Dedup.StopErasesExactlyItsBot | internal/app/bot/message_orchestrator.go:660-664 | For bots that are apart the prefix loop of StopBot erases an entry if and only if it belongs to the stopped bot, and leaves the value of every other entry alone |
| Dedup.StopReachesExactlyWhen | internal/app/bot/message_orchestrator.go:660-664 | For any two ids: stopping one bot can erase a key of the other if and only if they are the same or not apart |
| Dedup.StopCanEraseAnotherBot | internal/app/bot/message_orchestrator.go:660-664 | Counterexample without that condition: stopping `a` erases an entry of `a:b` |
| Dedup.OwnStepAgrees | internal/app/bot/message_orchestrator.go:542-641 | One event of a bot gives the same answer from the pruned shared index and from the bot's never-pruned history, and keeps the two in agreement |
| Dedup.OtherStepAgrees | internal/app/bot/message_orchestrator.go:542-672 | An event of another bot, with the cleanup it may trigger, keeps a bot's part of the index in agreement with its unchanged history |
| Dedup.PruningAndOtherBotsAreUnobservable | internal/app/bot/message_orchestrator.go:542-716 | Over every run with a non-decreasing clock, the admitted/duplicate/busy decisions and finish effects that a bot sees are those of its own events alone fed to the never-pruned history; so is its active count |
| Dedup.SettledEntryStays | internal/app/bot/message_orchestrator.go:606-641 | A finished entry is moved by nothing but an admission of the same id or a stop |
| Dedup.SuccessHoldsKeyExactlyForTtl | internal/app/bot/message_orchestrator.go:556-562 | After a success at time t the same id is refused at every time before t+TTL and from t+TTL on is not; refused attempts in between do not extend the period |
| Dedup.StaleFinishReleasesTheNewGeneration | internal/app/bot/message_orchestrator.go:606-641 | Counterexample: the finish of a stopped generation releases the key of the next one, and a third copy of the message is admitted |
| Dedup.FinishIsHarmlessExactlyWhen | internal/app/bot/message_orchestrator.go:611-641 | finishMessage leaves the whole shared state alone exactly if the bot is gone, or the message has an id that is not in progress, or it has none and nothing is active |
| Orchestrator.BotMessageOrchestrator.CleanupSeenLocked | internal/app/bot/message_orchestrator.go:709-716 | The loop deletes exactly the settled entries that are at least TTL old |
| Orchestrator.BotMessageOrchestrator.AdmitMessage | internal/app/bot/message_orchestrator.go:542-594 | The verdict and the whole new state: cleanup if due, entry made if missing, duplicate before busy before admitted, pending slot or queue, key recorded only on admission |
| Orchestrator.BotMessageOrchestrator.FindOrCreate | internal/app/bot/message_orchestrator.go:550-554 | A missing entry is made fresh, a present one is returned as it is |
| Orchestrator.BotMessageOrchestrator.InstallWorker | internal/app/bot/message_orchestrator.go:198-220 | Installs exactly if the entry is still the admitted one and has no worker; hands out the pending message and clears its slot |
| Orchestrator.BotMessageOrchestrator.ResizeWorkerQueue | internal/app/bot/message_orchestrator.go:266-281 | Replaces the queue only if it is empty and of another capacity; otherwise only the wished size changes |
| Orchestrator.BotMessageOrchestrator.MarkMessageStarted | internal/app/bot/message_orchestrator.go:596-604 | Raises the active count of a bot that is there |
| Orchestrator.BotMessageOrchestrator.FinishMessage | internal/app/bot/message_orchestrator.go:606-641 | All branches: unknown bot, message without an id, key missing or not in progress, success, failure |
| Orchestrator.BotMessageOrchestrator.StopBot | internal/app/bot/message_orchestrator.go:646-666 | Removes the bot's entry and exactly the keys with its prefix |
| Orchestrator.AdmitIsAPipelineStep | internal/app/bot/message_orchestrator.go:542-594 | admitMessage on the shared, pruned state is the admission step of the bot's pipeline, with the same decision |
| Orchestrator.FinishIsAPipelineStep | internal/app/bot/message_orchestrator.go:606-641 | finishMessage, called by a goroutine of the pipeline, is that goroutine's finishing step |
| Orchestrator.MarkIsAPipelineStep | internal/app/bot/message_orchestrator.go:596-604 | The same for markMessageStarted |
| Orchestrator.QueueSectionsArePipelineSteps | internal/app/bot/message_orchestrator.go:198-281 | The same for installing the worker and replacing its queue, which leave the duplicate filter alone |
| Orchestrator.StopIsAPipelineStep | internal/app/bot/message_orchestrator.go:646-666 | The same for StopBot |
| Orchestrator.OtherBotsSeeNothing | internal/app/bot/message_orchestrator.go:542-672 | Every lock section called for one bot leaves the pipeline of every other bot as it was, up to pruning |
| Composition.OwnMove | internal/app/bot/message_orchestrator.go:198-672 | A bot's step on the shared state is that step of its pipeline with a never-pruned filter of its own |
| Composition.OthersDoNotMatter | internal/app/bot/message_orchestrator.go:198-672 | A step of another bot leaves a bot's pipeline, or its absence, as it was |
| Composition.EveryBotRunsItsPipeline | internal/app/bot/message_orchestrator.go:198-716 | The orchestrator refines independent pipelines: in every run with any number of bots, stopped and started again at any time while goroutines of stopped generations are still at work, the steps of a bot's present generation are a run of a pipeline and lead to the state its channels, counters and goroutines are in, as long as the lock sections of generations left behind are quiet |
| Composition.EveryBotStaysInOrder | internal/app/bot/message_orchestrator.go:198-716 | In every such run every bot's present generation keeps all invariants of a pipeline, as long as those sections are harmless |
| Composition.BehindIsHarmlessExactlyWhen | internal/app/bot/message_orchestrator.go:596-641 | A section called by a generation left behind keeps the present one in order if and only if its guards say so: a finish whose key is not in progress, or without an id when nothing is active; no marking; no resize that replaces the queue under a waiting accept loop or under the sender of the pending message |
| Composition.EveryBotIsServedInOrder | internal/app/bot/message_orchestrator.go:198-672 | So in the shared state, while a bot runs and no harm has been done, its active count is the number of accepted, unfinished messages, at most 2, and without a race its turns, the message in its accept loop and its queue are its admissions minus resolver failures, in order |
| Composition.EnsureWorkerIsAlwaysPossible | internal/app/bot/message_orchestrator.go:198-220 | Whatever entry a caller was given, in every reachable state in which no harm has been done ensureWorker either installs the worker of a bot that has a message waiting, or does nothing |
| Composition.LateCallersStartNothing | internal/app/bot/message_orchestrator.go:199-207 | A caller given an entry before StopBot never starts a worker, in any continuation, also when the bot has been started again and waits for one |
| Pipeline.StepAccounting | internal/app/bot/message_orchestrator.go:198-437 | Every step moves messages between the pending slot, the starter, the queues and the two loops; only an admission adds a copy, only a finish or an overwritten pending slot takes one away |
| PipelineSafety.ShapeStep | internal/app/bot/message_orchestrator.go:198-368 | Queues never exceed their capacity, the accept loop never waits on a replaced queue, the loops stop only after StopBot, a stopped generation has no keys |
| PipelineSafety.ConservationStep | internal/app/bot/message_orchestrator.go:198-437 | Copies in the pipeline plus finished plus overwritten copies always equal the admitted ones |
| PipelineSafety.KeysStep | internal/app/bot/message_orchestrator.go:542-641 | Every step keeps: an id is in progress exactly while one copy of one message holds it |
| PipelineSafety.ActiveStep | internal/app/bot/message_orchestrator.go:596-641 | Every step keeps active equal to the number of accepted, unfinished messages |
| PipelineSafety.TurnOrderStep | internal/app/bot/message_orchestrator.go:300-368 | Every step keeps the turns in the order in which the accept loop took the messages |
| PipelineSafety.QueueOrderStep | internal/app/bot/message_orchestrator.go:266-320 | Every step, queue replacement included, keeps the taken messages followed by the waiting ones equal to the admitted ones, unless an admission races with the start |
| PipelineSafety.SessionsStep | internal/app/bot/message_orchestrator.go:300-437 | Every step keeps: an attached progress session is in hand or has received Done or Fail, once |
| PipelineSafety.MessagesAreConserved | internal/app/bot/message_orchestrator.go:300-641 | Over every run: each admitted copy is in exactly one place, or finished once, or overwritten; without a race none is overwritten; active counts the accepted ones and is at most 2; a keyed message has at most one unfinished copy, and a key is in progress exactly while there is one |
| PipelineSafety.OrderIsKept | internal/app/bot/message_orchestrator.go:266-437 | Over every run without a race, through any number of queue replacements: turns, then messages given up at the stop, then the one in the accept loop, then the queue, equal the admissions minus resolver failures, in order; at most cap+2 messages are unfinished |
| PipelineSafety.RacesAreAdmissionsDuringTheStart | internal/app/bot/message_orchestrator.go:198-227 | A race is exactly an admission while the pending message is not in the queue yet; a message is overwritten exactly if the pending slot was taken |
| PipelineSafety.OverwrittenFirstMessageIsRefusedForever | internal/app/bot/message_orchestrator.go:565-573 | Two first messages: in every continuation the first is nowhere, and every later copy of it is refused |
| PipelineSafety.RacingAdmissionOvertakes | internal/app/bot/message_orchestrator.go:212-227 | A message admitted during the start is queued ahead of the pending one |
| PipelineForeign.StrandedExactlyWhen | internal/app/bot/message_orchestrator.go:225-281 | A step puts a message where nobody looks if and only if it replaces the queue while the pending message is about to be sent to it |
| PipelineForeign.NothingIsStrandedWithoutARace | internal/app/bot/message_orchestrator.go:198-281 | Without a race at the start that never happens |
| PipelineForeign.StrandedIsNeverTaken | internal/app/bot/message_orchestrator.go:266-308 | A message on a replaced channel, or on its way to one, is taken in no continuation, and while the bot lives every later copy of it is refused |
| PipelineForeign.OwnResizeStrandsThePendingMessage | internal/app/bot/message_orchestrator.go:212-281 | Such a run, without any other generation: a message that overtook the pending one brings a queue of another size |
| PipelineForeign.ForeignResizeIsHarmlessExactlyWhen | internal/app/bot/message_orchestrator.go:266-281 | A resize from outside the generation keeps all invariants of the pipeline if and only if it does not replace the queue under a waiting accept loop or under the sender of the pending message |
| PipelineForeign.ForeignResizeStrandsTheQueue | internal/app/bot/message_orchestrator.go:266-308 | In the first case, if no message is on its way, no run ever takes another message out of the queue |
| PipelineForeign.ForeignResizeStrandsAnIdleBot | internal/app/bot/message_orchestrator.go:266-308 | Such a state is reached after one message: the accept loop waits on an empty queue, and no continuation of a resize to another capacity takes a further message |
| PipelineForeign.ForeignResizeStrandsThePendingMessage | internal/app/bot/message_orchestrator.go:225-281 | In the second case, with the accept loop elsewhere, the pending message is taken in no continuation, and later copies of it are refused |
| PipelineForeign.ForeignResizeStrandsAFreshBot | internal/app/bot/message_orchestrator.go:212-281 | Such a state is reached by a bot's first message |
| PipelineForeign.ForeignResizeCanHeal | internal/app/bot/message_orchestrator.go:225-308 | In both cases at once the message still arrives, and the accept loop then turns to the new queue |
| PipelineForeign.ForeignFinishIsHarmlessExactlyWhen | internal/app/bot/message_orchestrator.go:606-641 | A finish by a turn of a stopped generation keeps the invariants of its successor exactly if the id is not in progress there, or, without an id, the successor has accepted nothing |
| PipelineForeign.ForeignMarkIsNeverHarmless | internal/app/bot/message_orchestrator.go:596-604 | A marking by the accept loop of a stopped generation always makes its successor's count wrong |
| PipelineForeign.ForeignMarkStays | internal/app/bot/message_orchestrator.go:596-641 | The count stays one too high in every continuation while the bot lives |
| PipelineForeign.ForeignFinishUndoesTheMarkExactlyWhen | internal/app/bot/message_orchestrator.go:613-630 | The finish of the message that was marked puts it right if and only if the message has no id |
| PipelineStop.StoppedStep | internal/app/bot/message_orchestrator.go:300-437 | After StopBot every step admits nothing and lowers a measure on queue length and phases, and turns come out of a bounded supply |
| PipelineStop.StoppedLoopsGoOn | internal/app/bot/message_orchestrator.go:300-368 | After StopBot a loop that has not exited can go on |
| PipelineStop.StopBotTerminatesAndCleansUp | internal/app/bot/message_orchestrator.go:300-672 | From StopBot on: every run is bounded, no message enters, at most the queued ones plus one become turns, a run that cannot go on has both loops out, and then every attached progress session got Done or Fail exactly once |
| PipelineStop.StarterIsNotLeftBehind | internal/app/bot/message_orchestrator.go:225-227 | Without a race the send of the pending message never blocks |
| PipelineStop.StarterCanBeLeftBehind | internal/app/bot/message_orchestrator.go:225-227 | With one it can block for good: a reachable state with both loops gone and no step enabled |
| PipelineStop.StarterIsBlockedForGoodExactlyWhen | internal/app/bot/message_orchestrator.go:225-227 | When the accept loop has gone, the sender of the pending message gets through if and only if its channel has room; otherwise it is blocked in every continuation |
| Scheduler.DecimalRoundTrip | internal/agent/session.go:107-109 | Reading back the decimal rendering of a number gives the number |
| Scheduler.TaskIdInjective | internal/agent/session.go:107-109 | Generated task ids are equal only for equal numbers |
| Scheduler.EveryRegistrationEndsOnce | internal/agent/session.go:28-167 | Over every interleaving: no stop channel is closed twice, generated ids never repeat, a closed table is empty, and with no stop outstanding the unstopped timers are exactly the table |
| Scheduler.ClosedStaysEmpty | internal/agent/session.go:93-167 | A closed scheduler stays closed and empty and registers nothing more |
| Scheduler.ScheduleNeverOverwrites | internal/agent/session.go:93-122 | Schedule leaves every entry in place, and adds exactly one under a free id exactly if it reports success |
| Scheduler.FailedTickCancelsItsOwnExactlyWhen | internal/agent/session.go:126-188 | The cancel after a failed tick stops the goroutine's own registration exactly if that one is still in the table under its id |
| Scheduler.StaleTickCancelsSuccessor | internal/agent/session.go:171-188 | Counterexample: a cancelled and re-registered id loses the new registration to the old goroutine's last tick |
| Session.CloneIsFaithfulExactlyWhen | internal/agent/session.go:252-264 | cloneSpec keeps the spec exactly if its arguments are not empty and non-nil |
| Session.Session.constructor | internal/agent/session.go:39-50 | A new session is Ready, with a runtime, the cloned spec and an empty table |
| Session.Session.RunLocked | internal/agent/session.go:65-75 | Ends Ready or Broken by the outcome |
| Session.Session.RunTick | internal/agent/session.go:191-217 | Goes on exactly if the session could run and the turn succeeded; leaves the state alone if it could not |
| Session.Session.Schedule | internal/agent/session.go:93-122 | Reply and table of the specification, in the order of the checks; a refused duplicate still uses up a number |
| Session.Session.TakeTask | internal/agent/session.go:127-132 | Takes the id out of the table and remembers its timer |
| Session.Session.CancelTask | internal/agent/session.go:126-138 | True exactly for an id in the table, whose timer is then stopped once |
| Session.Session.EmptyTable | internal/agent/session.go:154-163 | Empties the table, marking it closed if asked to |
| Session.Session.StopTimers | internal/agent/session.go:164-166 | The loop stops every taken timer and loses none |
| Session.Session.StopAllTasks | internal/agent/session.go:153-167 | Afterwards the table is empty and every timer ever registered has been stopped exactly once |
| Session.Session.Close | internal/agent/session.go:225-250 | Table closed and empty in every case; runtime gone and Stopped unless runtime.Close failed, then the error and the old state |
| Session.TurnsExclude | internal/agent/session.go:52-75 | Over every interleaving of sends, ticks, state queries and closes: at most one turn runs, Busy is exactly a held turn mutex and never visible, Stopped is exactly no runtime, a tick's turn starts from Ready with a runtime |
| Session.NoTurnAfterClose | internal/agent/session.go:191-250 | After some Close has returned nil, no turn of any kind starts |
| Session.SendNeedsARuntime | internal/agent/session.go:58-67 | A Send with the mutex free finds a runtime exactly if the session is not Stopped; after a successful Close it finds none |
| Session.SendCanOutwaitClose | internal/agent/session.go:58-67 | Such a Send is reachable: it waits for the free mutex of a session that has been closed |
| Manager.Manager.SetPushSink | internal/agent/manager.go:26-34 | Registers the sink and injects it into the present session |
| Manager.Manager.SessionFor | internal/agent/manager.go:109-162 | One call: reuse, unknown driver, failed Init, first session, replacement, rollback, with the whole new state |
| Manager.Manager.StopBot | internal/agent/manager.go:77-89 | Removes session and sink, then closes the session |
| Manager.SinkKeepsBook | internal/agent/manager.go:26-34 | Registering a sink keeps one live session per bot, carrying the bot's sink, all others closed |
| Manager.SessionForKeepsBook | internal/agent/manager.go:109-162 | So does sessionFor, whatever the outside answers |
| Manager.StopKeepsBook | internal/agent/manager.go:77-89 | So does StopBot, after which every session of the bot has had Close called |
| Manager.SessionForSucceeds | internal/agent/manager.go:109-162 | On success the result is the map entry, has the spec, is open and not broken, carries the bot's sink; every other session of the bot has had Close called; it is an old one exactly if one was reusable |
| Manager.SessionIsFoundAgainExactlyWhen | internal/agent/manager.go:118-120 | The next call with the same spec returns the same session exactly if the arguments are not empty and non-nil; otherwise it never does, and a success closes the session just made |
| Manager.SessionForFails | internal/agent/manager.go:147-162 | On failure the map is what it was and anything built has had Close called; exactly when the stale session's Close makes it fail, and what state that session is left in |
| Manager.SessionForLeavesOthers | internal/agent/manager.go:109-162 | A call for one bot changes no session of another |
| Manager.ServeRefines | internal/agent/manager.go:26-162 | Every request does to the book what the machine with one live session per bot does, and a failing one does nothing that callers see |
| Manager.OneLiveSessionPerBot | internal/agent/manager.go:26-162 | Over every history of requests the manager has the sessions of that machine, with the same spec, health and sink; every other session ever built has had Close called |
| Manager.NoSessionIsLeaked | internal/agent/manager.go:77-162 | Under every interleaving of sessionFor and StopBot calls every session ever built is in the map under its bot, or owed a Close by an unfinished call, or has had Close called; none is under two bots |
| LockOrder.PartsAreDisciplined | internal/agent/manager.go:26-162 | Every list of lock sections and turns, with any number of scheduler calls from inside a turn, keeps the manager's and the schedulers' mutexes as leaves below the turn mutex |
| LockOrder.NobodyWaitsForEver | internal/agent/manager.go:26-162 | Goroutines that run any such lists, so every path of every operation: in every reachable state every unfinished one can go on or is held up by one that can, at most two locks away |
| LockOrder.FinishedHoldNothing | internal/agent/session.go:52-250 | A goroutine that has finished holds no lock |
| LockOrder.ReentrantQueryBreaksTheOrder | internal/agent/manager.go:36-41 | A turn that asked for its own session's turn mutex would break the order |
| LockOrder.HoldingTheManagerWouldDeadlock | internal/agent/manager.go:110-113 | Holding the manager's mutex while asking for a turn mutex would allow a deadlock with a turn that schedules |
| Rpc.Correlator.TakeID | internal/agent/opencode/driver_acp.go:523 | The id is one that no call has had |
| Rpc.Correlator.RegisterCall | internal/agent/opencode/driver_acp.go:526-532 | Registers unless stdin is closed |
| Rpc.Correlator.DeregisterCall | internal/agent/opencode/driver_acp.go:533-537 | The deferred delete |
| Rpc.Correlator.Lookup | internal/agent/opencode/driver_acp.go:587-596 | A response line finds the channel of exactly its call, if that is pending |
| Rpc.Correlator.PendingChannels | internal/agent/opencode/driver_acp.go:614-618 | The loop at the end of the stream collects exactly the pending calls |
| Rpc.ResponsesAreCorrelated | internal/agent/opencode/driver_acp.go:522-598 | For every interleaving of callers and lines: a call that returns a response returns one with its own id, and pending is exactly the registered, unreturned calls |
| Rpc.LateAndUnknownIdsAreIgnored | internal/agent/codex/driver_acp.go:538-550 | A response with an unknown id, or for a call that has returned, changes nothing |
| Rpc.ReaderIsHeldUpExactlyWhen | internal/agent/opencode/driver_acp.go:587-596 | The reader is held up exactly by an unread response, which takes two answers to one id; so never if each id is answered at most once |
| Rpc.FlushIsHeldUpExactlyWhen | internal/agent/opencode/driver_acp.go:620-622 | At the end of the stream the same, exactly by a call with an unread answer |
| Rpc.SecondAnswerCanStopTheReader | internal/agent/codex/driver_acp.go:541-547 | Held up by a call that has left, the reader never reads again, in any continuation |
| Rpc.SecondAnswerExample | internal/agent/codex/driver_acp.go:541-547 | Such a state is reachable |
| TurnEvents.Append | internal/agent/opencode/driver_acp.go:792-809 | An event queued after a completion does not change the texts before it |
| OpencodeTurn.RoutingStep | internal/agent/opencode/driver_acp.go:183-374 | Every step keeps: what each turn has asked of the server, by how far it has come; only the last turn is in progress and published |
| OpencodeResults.WindowGrowsExactlyWhen | internal/agent/opencode/driver_acp.go:369-374 | A step adds a text to a turn's channel after the prompt's response and before the queued completion exactly if the reader pushes it there in that time and there is room; before the response likewise |
| OpencodeResults.AnswerIsTheStreamedText | internal/agent/opencode/driver_acp.go:226-374 | The answer is the trimmed concatenation of the run's early texts and then its late ones, in the order the reader handled them, provided nothing was dropped and no completed item came; of the early ones alone exactly in runs without a late one |
| OpencodeExamples.LateTextGetsIn | internal/agent/opencode/driver_acp.go:355-374 | Counterexample, from Init to the answer: nothing is said before the response, and the answer is a text sent after it |
| OpencodeResults.CompletionGetsThrough | internal/agent/opencode/driver_acp.go:366-374 | While the turn listens, the completion can be queued, or the loop can make room: it is never dropped |
| OpencodeResults.RecoveryIsBounded | internal/agent/opencode/driver_acp.go:299-364 | Each Run sends at most two prompts, the second only after an adopted id was rejected and only to the fresh id; it asks for a second session exactly if it recovers from the rejection of one it made itself, and then the server had named that one with the resume id |
| OpencodeResults.SecondSessionExactlyWhen | internal/agent/opencode/driver_acp.go:327-336 | The recovery asks for a Run's second session exactly if the server named the first with the resume id |
| OpencodeExamples.SecondSessionIsPossible | internal/agent/opencode/driver_acp.go:316-336 | Such a run is reachable, with three turns and two recoveries that overlap |
| OpencodeResults.RoutingBelongsToTheTurn | internal/agent/opencode/driver_acp.go:343-353 | Updates go to the turn in progress for the session it prompted last; a goroutine of an earlier turn never re-points the routing |
| OpencodeResults.BrokenIsLeftExactlyWhen | internal/agent/opencode/driver_acp.go:177-202 | A step leaves Broken exactly if it is the last assignment of Init |
| OpencodeResults.BrokenIsAbsorbing | internal/agent/opencode/driver_acp.go:192-202 | Once Init has returned, no step leaves Broken, and every Run that begins broken fails without a request |
| OpencodeResults.DeathDuringInitIsForgotten | internal/agent/opencode/driver_acp.go:177-202 | Counterexample: the process dies, Init ends, and the next Run starts as if nothing had happened |
| OpencodeResults.TheDeadDoNotAnswer | internal/agent/opencode/driver_acp.go:177-291 | But if the process has died before the first Run, every Run fails, in any continuation |
| OpencodeRuntime.ACPRuntime.BeginRun | internal/agent/opencode/driver_acp.go:192-202 | Refuses exactly a broken runtime |
| OpencodeRuntime.ACPRuntime.FinishInit | internal/agent/opencode/driver_acp.go:177-179 | The last assignment of Init |
| OpencodeRuntime.ACPRuntime.EnsureSession | internal/agent/opencode/driver_acp.go:442-468 | Reuse for the same directory, adoption of the resume id if there is no session, otherwise a new session |
| OpencodeRuntime.ACPRuntime.RecordSession | internal/agent/opencode/driver_acp.go:489-493 | A new session replaces what was known and is not adopted |
| OpencodeRuntime.ACPRuntime.Activate | internal/agent/opencode/driver_acp.go:227-231 | Publishes the turn's channel and session |
| OpencodeRuntime.ACPRuntime.Deactivate | internal/agent/opencode/driver_acp.go:233-241 | Clears the routing only if it is still this turn's |
| OpencodeRuntime.ACPRuntime.DecideRecovery | internal/agent/opencode/driver_acp.go:314-324 | A rejected prompt is recovered from, or the turn is told of the failure, as the machine's check decides |
| OpencodeRuntime.ACPRuntime.ResetSession | internal/agent/opencode/driver_acp.go:327-334 | Forgets the rejected session only if it is still the current one |
| OpencodeRuntime.ACPRuntime.Repoint | internal/agent/opencode/driver_acp.go:347-351 | Re-points only the turn's own routing |
| OpencodeRuntime.ACPRuntime.EventLoop | internal/agent/opencode/driver_acp.go:245-291 | The loop gives the parts and the result of the machine's turn; failure leaves Broken, an answer Ready |
| OpencodeRuntime.LoopCollectsInOrder | internal/agent/opencode/driver_acp.go:245-291 | Texts in front of the first completion or failure are collected in order, and nothing after it matters |
| CodexTurn.ACPRuntime.BeginRun | internal/agent/codex/driver_acp.go:185-195 | Refuses exactly a broken runtime |
| CodexTurn.ACPRuntime.FindThread | internal/agent/codex/driver_acp.go:367-386 | Reuse for the same directory, resume only without a thread and with a resume id, otherwise a new thread |
| CodexTurn.ACPRuntime.RecordThread | internal/agent/codex/driver_acp.go:403-406 | Records the thread the server named, from either request |
| CodexTurn.ACPRuntime.PublishTurn | internal/agent/codex/driver_acp.go:220-224 | Publishes the turn's channel and thread |
| CodexTurn.ACPRuntime.Unpublish | internal/agent/codex/driver_acp.go:225-233 | Clears the routing only if it is still this turn's |
| CodexTurn.ACPRuntime.FindTurn | internal/agent/codex/driver_acp.go:732-743 | The turn an update is routed to |
| CodexTurn.ACPRuntime.MarkBroken | internal/agent/codex/driver_acp.go:751-756 | Broken, with the latest cause |
| CodexTurn.InvStep | internal/agent/codex/driver_acp.go:176-299 | Every step keeps the requests, the stream, the routing and what the turn knows of the end of the stream |
| CodexTurn.AnswerIsTheStreamedText | internal/agent/codex/driver_acp.go:219-298 | The answer is the trimmed in-order concatenation of the texts before the first completion, provided nothing met a full backlog; there is none unless a completion found room |
| CodexTurn.CompletionEntersExactlyWhen | internal/agent/codex/driver_acp.go:745-748 | A completion gets into the turn's channel exactly if the backlog is not full |
| CodexTurn.NoAnswerWithoutCompletion | internal/agent/codex/driver_acp.go:244-298 | A turn without a completion in its channel or on its way has no answer in any continuation without a further completion for it |
| CodexTurn.CompletionCanBeLost | internal/agent/codex/driver_acp.go:709-749 | Such a turn is reachable after a completion was dropped at a full backlog |
| CodexTurn.RoutingBelongsToTheTurn | internal/agent/codex/driver_acp.go:732-749 | An update reaches the published turn exactly if it names no thread or that turn's thread |
| CodexTurn.ThreadRequestsAreBounded | internal/agent/codex/driver_acp.go:367-434 | Each Run asks at most once to resume and at most once for a new thread; a failed resume alone never fails it |
| CodexTurn.ResumeOnlyBeforeTheFirstThread | internal/agent/codex/driver_acp.go:382-386 | Once there is a thread, no later Run resumes one |
| CodexTurn.DeathIsMissedExactlyWhen | internal/agent/codex/driver_acp.go:561-588 | The end of the stream is reported to a waiting turn exactly unless it was published after the reader had looked or its backlog was full; a turn that was told has something to read |
| CodexTurn.ForsakenUntilContextEnds | internal/agent/codex/driver_acp.go:254-262 | A turn that was not told, with nothing to read and no answer to come, ends only with its context, in any continuation |
| CodexTurn.LateTurnIsForsaken | internal/agent/codex/driver_acp.go:213-224 | Such a turn is reachable |
| CodexTurn.TurnWithFullBacklogIsForsaken | internal/agent/codex/driver_acp.go:579-588 | The other case is reachable, too: a turn published in time whose backlog was full at the report, and that then waits for its context in every continuation |
| CodexTurn.BrokenIsAbsorbing | internal/agent/codex/driver_acp.go:185-195 | No step leaves Broken, and every Run that begins broken fails without a request |
| ClaudeTurn.ACPRuntime.BeginTurn | internal/agent/claude/driver_acp.go:166-179 | Check and publication are one section |
| ClaudeTurn.ACPRuntime.EndTurn | internal/agent/claude/driver_acp.go:242-246 | Ready unless Broken |
| ClaudeTurn.ACPRuntime.ClearTurn | internal/agent/claude/driver_acp.go:180-187 | Clears the channel only if it is still this turn's |
| ClaudeTurn.ACPRuntime.MarkBroken | internal/agent/claude/driver_acp.go:415-422 | Broken, with the first cause kept |
| ClaudeTurn.SessionIDIsTheFirstNamed | internal/agent/claude/driver_acp.go:358-367 | In every run the session id that answers carry is the first non-empty one that an init event named |
| ClaudeTurn.InvStep | internal/agent/claude/driver_acp.go:157-422 | Every step keeps: the turn in progress is published, and what it has or will get to read once the stream has ended |
| ClaudeTurn.DeathIsNotMissed | internal/agent/claude/driver_acp.go:330-350 | Once the reader is gone a waiting turn has an event in its channel, and none can start; until then the reader is still on its way to tell it |
| ClaudeTurn.BrokenIsAbsorbing | internal/agent/claude/driver_acp.go:166-175 | No step leaves Broken, and every Run that begins broken fails without writing |
| TraceCard.BuildProgressCard | internal/channel/feishu/progress.go:67-90 | The loop gives header, overflow line and the last steps |
| TraceCard.CardAccountsForEveryStep | internal/channel/feishu/progress.go:65-90 | Shown and hidden steps add up to all steps, the card has a bounded number of lines, the latest step is the last line |
| TraceCard.TraceSession.RecordStep | internal/channel/feishu/progress.go:267-269 | The recording section of Step |
| TraceCard.TraceSession.BeginCard | internal/channel/feishu/progress.go:163-166 | A snapshot to create from, exactly if there is no card yet and it has not failed |
| TraceCard.TraceSession.EndCard | internal/channel/feishu/progress.go:174-183 | The outcome of CreateCard, for Ack and for the flush loop |
| TraceCard.TraceSession.BeginPatch | internal/channel/feishu/progress.go:204-207 | The snapshot of a patch and its time |
| TraceCard.TraceSession.FlushNow | internal/channel/feishu/progress.go:187-207 | Where a flush goes on: nowhere, create, or patch |
| TraceCard.TraceSession.Throttle | internal/channel/feishu/progress.go:229-236 | Flush at once or wait out the rest of the interval |
| TraceCard.TraceSession.BeginFinish | internal/channel/feishu/progress.go:274-288 | Only the first Done or Fail gets through; it waits exactly if something was shown or recorded |
| TraceCard.ApplyLoop | internal/channel/feishu/progress.go:221-243 | The loop's own steps change only where it is and the wake-up; it makes for a final flush only after the close |
| TraceCard.InvStep | internal/channel/feishu/progress.go:150-290 | Every step keeps control, frames, pace, wake-ups and the final frame, as long as Ack does not overlap |
| TraceCard.CardCallsAreOrderly | internal/channel/feishu/progress.go:162-214 | CreateCard at most once, PatchCard only after a successful create, non-final frames at least the interval apart, every frame a prefix of the steps |
| TraceCard.NoStepIsForgotten | internal/channel/feishu/progress.go:221-272 | A recorded step that is in no request to the card service has a wake-up, a flush or a caller still due, and the loop can go on, at the latest when the interval has passed |
| TraceCard.LastFrameIsTrue | internal/channel/feishu/progress.go:274-290 | When Done or Fail returns on a started session whose card did not fail, the last request is final and has the outcome and every step recorded before the call; the card shows it exactly if that request succeeded |
| TraceCard.FailedLastRequestStaysOpen | internal/channel/feishu/progress.go:208-214 | Counterexample for a failed one: Done has returned, nothing is left to be done, and the card still says that the turn is under way |
| TraceCard.FinishGoesThrough | internal/channel/feishu/progress.go:274-290 | A Done or Fail that got through can go on at every point |
| TraceCard.CardIsCreatedTwiceExactlyWhen | internal/channel/feishu/progress.go:162-204 | In every order of the callers CreateCard is called at most twice, and twice exactly in runs where Ack is called while the loop creates the card, or the loop finds no card while Ack creates it |
| TraceCard.OverlappingAckCreatesTwice | internal/channel/feishu/progress.go:162-184 | Such a run: a Step during Ack's CreateCard |
| TraceCard.LoopCanEndExactlyWhen | internal/channel/feishu/progress.go:274-290 | Once a Done or Fail got through, the loop can still come to its end exactly if that call found a card or a step |
| TraceCard.LateStepStartsAnEndlessLoop | internal/channel/feishu/progress.go:285-287 | After a finish that found nothing to show, the loop that a later Step starts ends in no continuation |
| TraceCard.LateStepExample | internal/channel/feishu/progress.go:266-287 | Such a loop is reachable: Fail, then Step |
| ConnectionManager.BotConnectionManager.Reserve | internal/app/bot/connection_manager.go:51-57 | Reserves exactly a bot without an entry |
| ConnectionManager.BotConnectionManager.Install | internal/app/bot/connection_manager.go:119-133 | Installs exactly into a reserved entry |
| ConnectionManager.BotConnectionManager.Cleanup | internal/app/bot/connection_manager.go:59-69 | Deletes exactly a reserved entry |
| ConnectionManager.BotConnectionManager.Remove | internal/app/bot/connection_manager.go:136-140 | The effect of a state event: the bot has no entry, and every other entry is as it was |
| ConnectionManager.InstalledHandlesStay | internal/app/bot/connection_manager.go:50-134 | No step of any Start overwrites or deletes an installed handle; only a state event for the bot does |
| ConnectionManager.NoHandleIsLeaked | internal/app/bot/connection_manager.go:112-133 | Every handle StartRuntime returned is installed or stopped, or a Start still has it in hand; installed handles are under their own bot |
| ConnectionManager.ReservationIsLostExactlyWhen | internal/app/bot/connection_manager.go:136-170 | A step lets go of the reservation of a start that is under way exactly if it is a state event for that bot |
| ConnectionManager.OneStartAtATime | internal/app/bot/connection_manager.go:50-134 | Unless a state event has removed the bot's reservation and calls of Start have been at work on the bot ever since, at most one start of the bot is under way, its entry is reserved, and the handle it gets is installed |
| ConnectionManager.DisturbedStartIsDoubled | internal/app/bot/connection_manager.go:148-170 | After a state event during a start, in every state, the next call of Start runs beside it |
| ConnectionManager.StateEventLetsASecondStartIn | internal/app/bot/connection_manager.go:148-170 | Such a run is reachable |

## Left out

- HTTP handlers, command line, web interface, SQL repositories, credential encryption: plumbing around the protocols, without invariants of their own.
- Processes, pipes, JSON and the network: an incoming line is an already decoded step, a call to the outside succeeds or fails at will.
- Time: one abstract clock. Results that compare times assume that readings do not decrease in lock order; the program reads its clock before it takes the lock. A context may end at any step.
- HandleMessage around admitMessage: messages without text are dropped, a busy verdict is answered.
- Reply texts, reply timeouts, session persistence and the reply target of scheduled pushes: only the finish and finalise effects of executeAndDeliver are modelled.
- Memory effects of unlocked reads: the accept loop's and the starter's reads of `worker.queue` are single atomic steps.
- EveryBotRunsItsPipeline: says nothing of a bot once a generation left behind has done it harm; BehindIsHarmlessExactlyWhen says which lock sections do, and PipelineForeign what follows.
- EveryBotIsServedInOrder, like EveryBotRunsItsPipeline, assumes that no bot id continues the bot's id after a colon, nor the other way round; KeysCollideExactly and StopCanEraseAnotherBot say why.
- MessagesAreConserved: one generation; first messages that overwrite each other count as lost; the lemma says that this happens only in a race.
- OrderIsKept: assumes that no admission races with the worker's start; RacesAreAdmissionsDuringTheStart says exactly when one does.
- SendNeedsARuntime: a Send that finds no runtime is not enabled in the machine; the program would dereference nil there.
- SettledEntryStays: states the persistence of a finished entry only; the decision it leads to is in SuccessHoldsKeyExactlyForTtl.
- NoTurnAfterClose: says that no turn starts; a ticker may still fire after a cancel and then find nothing to run.
- OneLiveSessionPerBot: one call at a time; for interleaved calls see NoSessionIsLeaked.
- SessionForSucceeds: that the result is open holds for one call at a time; with concurrent calls for one bot, a call can return a session that another call has closed.
- Sessions in Manager.dfy are numbered values in a store rather than objects, and timers and channels are positions in lists: aliasing between Go pointers is expressed by equal numbers.
- Rpc: the request is written in its own section without a second look at stdin; a write after Close only appears as a failed write.
- The trimming function covers white space up to U+00FF.
- Tool-progress events and the mapping of tool names: easy members.
- The elapsed seconds in the header of a finished card, emoji and markdown of a line.
- The claude, codex and opencode command-line builders: no state of their own.
- CodexTurn begins after Init, whose end is like that of opencode.
- OpencodeTurn takes the end of the reader as one step; the steps it consists of, and what a turn can miss between them, are in CodexTurn, whose reader ends the same way.
- The event loop of codex's Run as a method: it differs from opencode's only in how a completion arrives; the machine has its steps.
