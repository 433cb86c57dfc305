# Tasklets, channels, executors and sleepers: a verified model

This project models, in Dafny 4.11, the concurrency cores of the repository and proves what they
promise over whole runs. `dafny verify dfyconfig.toml` checks everything.

- **Tasklet scheduler and rendezvous channels** (`src/ScheduleManager.cpp`, `src/Channel.cpp`,
  `src/Tasklet.cpp`). Two layers. `TaskletNodes`, `RunQueues` and `BlockedLists` are the linked
  structures: classes with the real link fields, whose methods are proved to be append,
  insert-after, delete and pop on a sequence. `Scheduler` is a step machine over the same
  sequences: a state holds every tasklet with its flags, transfer slot and the call it is suspended
  in, every channel, the run queue and the current tasklet; an action is one call of the current
  tasklet, one switch of the loop of `Run`, or the return of a call in which the main tasklet was
  waiting. `SchedulerInvariant` to `SchedulerPlacement` show that every action keeps flags and
  lists in agreement; `Rendezvous`, `RendezvousSteps`, `TransferSlots`, `TransferMarks` and
  `ChannelSteps` follow messages from send to receive; `TaskletSteps` says of every step what it does
  to every tasklet; `SchedulerTheorems`, `SchedulerOrder`, `SchedulerCalls` and `ChannelClosing` state
  the results.
  `Bystanders`, `Turns`, `RunLoops` and `RunManagers` treat the loop of `Run` itself, its limited
  forms, and the main tasklet's blocking calls.
- **Queue channels** (`python/scheduler/__init__.py`): `Mailboxes` and `QueueChannels` show that
  the buffer in front of a rendezvous channel makes an unbounded first-in-first-out mailbox.
- **Work-stealing executor** (`bevy_defer/async-executor/src/lib.rs`): `Sleepers` is the registry
  of sleeping tickers, as functions and as a class that updates its fields. `Executor` is a machine
  of unboundedly many notifiers, tickers and runners, each with a program counter. Every access to
  the atomic flag, to a queue and to the mutex-protected registry is a step of its own; the critical
  section is split between the update of the registry and the store of the flag. The other
  `Executor*` modules prove the invariant, conservation, progress, fairness and the theorems.
- **Sleep and watch queue over one-shot cells** (`bevy_defer/src/queue.rs`,
  `bevy_defer/src/sync/oneshot.rs`): `OneShots`, `SleepQueues`, `SleepSteps`, `SleepTheorems`,
  `SleepCalls` and `QueryQueues`.

## How to read the models

A switch to a tasklet is a foreign call in the source; here the tasklet takes any sequence of
allowed actions until control is back with the main tasklet. `Allowed` gives the scope of the
scheduler machine: one thread; loops entered from the main tasklet; `insert` only on tasklets that
are not scheduled; nobody removes, runs or kills itself or the main tasklet; kills are pending
kills. Clocks, scan orders, the order of equal deadlines, query answers and the behaviour of
tasklets are inputs over which every theorem quantifies. `Channel.sends`, `Channel.receives`,
`State.outcomes`, `Mailbox.delivered`, `World.fired`, `World.firedFrames`, `World.woken` and
`World.registered` are history: they record what happened and influence nothing. `SchedulerExample` exhibits a run in which
a message is transferred, and `RunLoops.FinishingScriptOk` shows that scripts of turns exist, so the
theorems about runs and loops are not vacuous.

## Where the code falls short of what it intends

- A receiver that was matched under sender preference and is then killed before it resumes keeps
  its message in the transfer slot (`src/Channel.cpp:255-264` does not clear it, unlike
  `src/Channel.cpp:212-222`). `LeakExample.FullSlotIsFilled` is a run in which a send then fills the
  full slot; `TransferSlots.CleanUnlessLeak` shows that this, and only this, breaks the rule that a
  slot is empty when it is filled; `SchedulerTheorems.KilledHandoffLeaks` gives the failing family.
- A send refused by a closing channel (`src/Channel.cpp:63-68`) leaves the transfer mark set, and so
  does a handoff that comes back with an exception (`src/Channel.cpp:126-131`,
  `src/Channel.cpp:259-264`). A tasklet that then finishes is kept alive (`src/Tasklet.cpp:427`):
  `TransferMarks.FinishedButAlive`. `TransferMarks.MarksClearUnless` shows that nothing else leaves a
  mark, and `SchedulerTheorems.FinishedIsDead` that without these two a finished tasklet is dead.
- A closing channel should be closed once nobody is blocked on it, but a pending kill takes a tasklet
  off its list without looking (`src/Tasklet.cpp:613-618`): after the kill of the last blocked tasklet
  the channel is closing and empty and not closed, until that tasklet resumes
  (`ChannelClosing.KilledWaiterKeepsOpen`, `ChannelClosing.ReturnedWaiterCloses`).
  `ChannelClosing.DrainedIsClosed` shows that this is the only exception.
- `insert` on a scheduled tasklet only sets its reschedule flag (`src/ScheduleManager.cpp:214-217`);
  a tasklet that blocks with that flag set ends up in the run queue and on a blocked list, flagged
  as not blocked: `SchedulerTheorems.InsertedThenBlocked`. The exact conditions are
  `SchedulerTheorems.BlockingNeedsNoReschedule` and
  `SchedulerTheorems.BlockingReceiveNeedsNoReschedule`.
- The one-shot cell keeps the first waker it is shown (`bevy_defer/src/sync/oneshot.rs:46-53,115`);
  a task polled again with another waker is not woken through it. `OneShots.LatestWakerIsWoken`
  gives the exact condition, `OneShots.StaleWakerExample` an instance.

## Model

| member | source | states |
|---|---|---|
| RunQueues.RunQueue.InsertTasklet | src/ScheduleManager.cpp:190-218 | appends a tasklet that is not queued and unblocks it, keeping links, cached tail and cached count right; a queued one is only marked for rescheduling |
| RunQueues.RunQueue.InsertTaskletToRunNext | src/ScheduleManager.cpp:158-188 | inserts right behind the current tasklet, with both links of both neighbours, tail and count |
| RunQueues.RunQueue.RemoveTasklet | src/ScheduleManager.cpp:220-254 | deletes exactly that tasklet, clears its links and flag, and reports false exactly when it was not queued |
| RunQueues.RunQueue.EndTurn | src/ScheduleManager.cpp:537-576 | after a turn the queue is the old one without the tasklet, with it at the back, or with it right behind the front, as its reschedule flag says |
| RunQueues.RunQueue.GetCalculatedTaskletCount | src/ScheduleManager.cpp:283-296 | walking the links counts every queued tasklet, which is also what the cached count says |
| RunQueues.RunQueue.GetCachedTaskletCount | src/ScheduleManager.cpp:278-281 | the cached count is the length of the queue |
| BlockedLists.ChannelLists.AddTaskletToWaitingToSend | src/Channel.cpp:435-451 | the tasklet joins the end of the list of senders, the list of receivers is untouched and the balance follows |
| BlockedLists.ChannelLists.AddTaskletToWaitingToReceive | src/Channel.cpp:453-469 | the tasklet joins the end of the list of receivers, the list of senders is untouched and the balance follows |
| BlockedLists.ChannelLists.RemoveTaskletFromBlocked | src/Channel.cpp:336-409 | deletes the tasklet from the list holding it, wherever it stands, leaves the other list and all order alone, and does nothing to a tasklet on no list |
| BlockedLists.ChannelLists.PopNextTaskletBlockedOnSend | src/Channel.cpp:471-482 | the longest-waiting sender leaves, or null if there is none |
| BlockedLists.ChannelLists.PopNextTaskletBlockedOnReceive | src/Channel.cpp:484-495 | the longest-waiting receiver leaves, or null if there is none |
| BlockedLists.ChannelLists.RemovedByKillAndAgain | src/Tasklet.cpp:606-621 | removal by a pending kill followed by removal on resume moves the balance once |
| SchedulerPlacement.Act | src/Channel.cpp:34-323 | every action in scope, from any state that satisfies the placement invariant, leads to one that does |
| SchedulerTheorems.OnePlace | src/ScheduleManager.cpp:423-628 | in every state of every run a tasklet other than main is in at most one place, its scheduled flag is true exactly in the run queue and its blocked flag exactly on a blocked list, and a dead tasklet is nowhere |
| SchedulerTheorems.ChannelsExclusive | src/Channel.cpp:44-107 | at most one blocked list is non-empty, the sign and size of the balance say which and how long, and closed implies closing and nobody blocked |
| SchedulerTheorems.ClosingDrains | src/Channel.cpp:580-624 | from a close until the next open nobody joins the blocked lists, and closed stays closed |
| ChannelClosing.CloseAndOpen | src/Channel.cpp:580-592 | close makes the channel closing, and closed exactly if nobody is blocked on it; open takes both back; lists, preference, histories and everything else stay |
| ChannelClosing.NewChannelAndPrefer | src/Channel.cpp:9-24 | a new channel is empty and open and prefers the receiver; setting the preference changes nothing else |
| ChannelClosing.RefusedCall | src/Channel.cpp:183-194 | a refused send or receive leaves everything but its caller's transfer mark as it was, and the caller keeps running |
| ChannelClosing.CloseRefuses | src/Channel.cpp:62-68 | in every run, from a close until the next open, every send without a waiting receiver and every receive without a waiting sender is refused |
| ChannelClosing.OpenAccepts | src/Channel.cpp:587-592 | in every run, from an open or the creation until the next close, the channel is neither closing nor closed and such calls block their caller |
| ChannelClosing.DrainedIsClosed | src/Channel.cpp:614-624 | in every state a closing channel that nobody is blocked on is closed, unless a tasklet killed while blocked there has not resumed |
| ChannelClosing.KilledWaiterKeepsOpen | src/Tasklet.cpp:613-618 | the kill of the only blocked tasklet leaves a closing channel empty and not closed |
| ChannelClosing.ReturnedWaiterCloses | src/Channel.cpp:233-233 | the switch to a tasklet so killed closes the empty closing channel |
| SchedulerTheorems.HistoryFollowsCalls | src/Channel.cpp:34-323 | a channel's histories grow by exactly the calls that are not refused and lose exactly the calls cancelled while blocked |
| SchedulerTheorems.RendezvousInOrder | src/Channel.cpp:34-323 | surviving sends and receives are paired in call order, each paired receive has or holds its partner's message, and the unpaired calls are those of the blocked tasklets |
| SchedulerTheorems.NothingLost | src/Channel.cpp:147-323 | if interruptions hit only tasklets whose message has not arrived, every paired receive that is over returned exactly its partner's message |
| SchedulerTheorems.SlotEmptyWhenFilled | src/Tasklet.cpp:664-679 | in such runs the transfer slot is empty whenever it is filled |
| SchedulerExample.MessageArrives | src/Channel.cpp:109-137 | there is a run in which main blocks in a receive, a spawned tasklet is switched to and sends, and the receive returns that message |
| TransferSlots.CleanUnlessLeak | src/Channel.cpp:238-264 | a step keeps the slots clean if and only if it does not resume, with an exception, a receive matched under sender preference |
| LeakExample.FullSlotIsFilled | src/Channel.cpp:255-264 | there is a run in which a message is put into a transfer slot that still holds another |
| SchedulerTheorems.KilledHandoffLeaks | src/Channel.cpp:255-264 | when the loop switches to such a receiver killed before it resumed, it runs on with its slot still full, and any send of it that blocks fills that full slot |
| SchedulerTheorems.FinishedIsDeadUnlessTransferring | src/Tasklet.cpp:426-432 | a tasklet whose callable has returned stays alive if and only if its transfer mark is still set |
| SchedulerTheorems.RefusedSendLeavesMark | src/Channel.cpp:62-68 | a refused send leaves the mark set whoever else is waiting, a refused receive clears it |
| TransferMarks.MarksClearUnless | src/Channel.cpp:34-323 | from a state without stray marks a step leads to one if and only if it is neither a refused send nor a handoff that comes back with an exception |
| TransferMarks.FinishedButAlive | src/Tasklet.cpp:426-432 | after either of those steps the tasklet can finish, and is then still alive |
| SchedulerTheorems.FinishedIsDead | src/Tasklet.cpp:426-432 | in every run without those two kinds of step a tasklet whose callable has returned is dead |
| SchedulerTheorems.BlockingNeedsNoReschedule | src/ScheduleManager.cpp:556-561 | a blocking send keeps lists and flags in agreement if and only if no reschedule flag is set; otherwise the tasklet is in the queue and on a blocked list |
| SchedulerTheorems.BlockingReceiveNeedsNoReschedule | src/ScheduleManager.cpp:556-561 | the same for a blocking receive |
| SchedulerTheorems.InsertedThenBlocked | src/ScheduleManager.cpp:214-217 | `insert` of the running tasklet in any placed state, followed by a send or receive that blocks, puts it in the queue and on a blocked list, flagged as not blocked |
| SchedulerOrder.SendPrefersReceiver | src/Channel.cpp:122-131 | a matching send under receiver preference turns A,[S],rest into A,[R],rest,[S]; with main as sender R is put right behind it, with main as receiver S goes to the back |
| SchedulerOrder.ReceivePrefersSender | src/Channel.cpp:255-265 | a matching receive under sender preference turns A,[R],rest into A,[S],rest,[R]; with main as receiver S is put right behind it, with main as sender R goes to the back |
| SchedulerOrder.SendContinuesOtherwise | src/Channel.cpp:132-137 | under any other preference a matched receiver is appended, main staying at the head, and the sender keeps running |
| SchedulerOrder.ReceiveContinuesOtherwise | src/Channel.cpp:266-271 | under any other preference a matched sender is appended, main staying at the head, and the receiver keeps running |
| SchedulerOrder.RunBringsToFront | src/Tasklet.cpp:534-557 | `t.run()` from the head C turns [C],A,[t],B, or [C],A,B with t not queued, into [t,C],A,B; from main it turns A,[t],B or A,B into [t],A,B behind main |
| SchedulerCalls.CreateAndSpawn | src/Tasklet.cpp:1069-1115 | a new tasklet is alive, has not run and is nowhere; set up with arguments it is appended to the run queue; nothing else changes |
| SchedulerCalls.InsertAppends | src/Tasklet.cpp:198-221 | a live tasklet that is neither blocked nor scheduled is appended to the queue; for a dead or blocked one nothing changes |
| SchedulerCalls.RemoveTakesOut | src/Tasklet.cpp:142-157 | the queue A,[t],B becomes A,B and t is not scheduled; its life, call, slot and pending exception, every other record and every channel stay; nothing changes if t was not queued |
| SchedulerCalls.ScheduleGoesToBack | src/ScheduleManager.cpp:256-276 | the queue A,[t],B becomes A,B,[t], t is suspended and otherwise unchanged, control goes to main |
| SchedulerCalls.MainSchedules | src/ScheduleManager.cpp:256-276 | called by main, schedule leaves the queue as it is |
| SchedulerCalls.ScheduleRemoveSetsAside | src/ScheduleManager.cpp:262-266 | the queue A,[t],B becomes A,B; t stays alive, unblocked and suspended, and control goes to main |
| SchedulerCalls.FinishLeaves | src/Tasklet.cpp:426-442 | the queue A,[t],B becomes A,B, and t is finished, and dead unless its transfer mark is set |
| SchedulerCalls.SendJoins | src/Channel.cpp:70-82 | a send that blocks takes its caller out of the queue, unless it is main, and puts it at the end of the senders with its message in its slot |
| SchedulerCalls.ReceiveJoins | src/Channel.cpp:165-201 | a receive that blocks takes its caller out of the queue, unless it is main, and puts it at the end of the receivers |
| SchedulerCalls.KillOfUnblocked | src/Tasklet.cpp:559-635 | a pending kill leaves an exception and queues the tasklet at the end if it is not queued; a dead tasklet and one killed before stay as they are |
| SchedulerCalls.KillOfBlocked | src/Tasklet.cpp:590-622 | the kill of a blocked tasklet also takes it off its list, A,[t],B becoming A,B, and moves the balance; the channel neither opens nor closes |
| SchedulerCalls.SwitchResumes | src/Tasklet.cpp:380-432 | a switch gives control to the tasklet and leaves the queue; a receive resumed with its message returns it, one resumed with an exception never does; a tasklet killed before its first run leaves the queue instead |
| TaskletSteps.ActFollows | src/ScheduleManager.cpp:158-628 | for every step and every tasklet, exactly when it dies, joins or leaves the queue, blocks, is released, is killed and resumes, and in which call it is suspended; a tasklet that is not involved is unchanged |
| SchedulerCalls.WhoDies | src/Tasklet.cpp:426-432 | in every run a tasklet dies in a step if and only if it finishes there without a transfer mark or is switched to for the first time with a kill pending; no yield, block, handoff, removal or kill does it |
| SchedulerCalls.WhoIsQueued | src/ScheduleManager.cpp:158-254 | in every run a tasklet is queued after a step if and only if it was and does not part, or it joins: by insert, run, kill, spawn or a matching call |
| SchedulerCalls.RemovedGetsNoTurn | src/Tasklet.cpp:142-157 | a removed tasklet is not switched to, and keeps its life and its call, until it is inserted, run, killed or met on a channel |
| SchedulerCalls.SetAsideThenInserted | src/ScheduleManager.cpp:262-266 | a tasklet that called schedule_remove stays alive, unblocked, suspended and out of the queue until somebody inserts, runs or kills it, and an insert then appends it |
| SchedulerCalls.KillReaches | src/Tasklet.cpp:604-622 | the exception of a pending kill waits until the loop switches to the tasklet, which then raises it, or ends a tasklet that has never run |
| Bystanders.ActBystands | src/Channel.cpp:109-137 | a step leaves every other tasklet in its call, and ends another's wait only as the matching call at the head of the list or as a pending kill |
| Turns.TurnKeeps | src/ScheduleManager.cpp:526-576 | every turn keeps the placement invariant and leaves the main tasklet in its call |
| Turns.TurnReleases | src/ScheduleManager.cpp:526-535 | a turn that unblocks the main tasklet contains the matching call |
| Turns.TurnAppends | src/ScheduleManager.cpp:537-576 | over a turn that neither runs, removes nor hands over control, the others keep their order and everything added comes last |
| RunLoops.BoundedRun | src/ScheduleManager.cpp:423-476 | a run from a queued tasklet whose tasklets reorder nobody switches to exactly those from it to the tail at entry, once each and in order; the prefix is untouched, and after each turn the queue is prefix, tasklets still due and additions, all of which are in the final queue behind the prefix in the same order |
| RunLoops.CountedRun | src/ScheduleManager.cpp:489-501 | a run limited to n makes exactly n switches, one if n is not positive, unless the queue empties or a tasklet fails |
| RunLoops.TimedRun | src/ScheduleManager.cpp:502-523 | for a clock that never goes back a time-limited run makes at least one switch if it can, at most two at or after the deadline, and stops earlier only with an empty queue |
| RunLoops.TurnByTurn | src/ScheduleManager.cpp:450-627 | every switch of a run is to the tasklet behind the base at that moment, the run goes on from where the turn left it, and it ends with the first turn that fails, reaches its end, or leaves nothing to run or no limit |
| RunLoops.UnblockedByLastTurn | src/ScheduleManager.cpp:441-448 | if a run entered with main blocked unblocks it, main was blocked before the last turn, nobody ran after it, and that turn contains the matching call |
| RunLoops.DeadlockOnlyWhenIdle | src/ScheduleManager.cpp:310-331 | a completed run that leaves main blocked has left nothing to run |
| RunLoops.FinishingScriptOk | src/ScheduleManager.cpp:526-551 | tasklets that finish at once are an admissible behaviour of every turn |
| RunManagers.RunManager.Drive | src/ScheduleManager.cpp:450-627 | the loop updates the fields as the function `RunLoops.Loop` says |
| RunManagers.RunManager.Run | src/ScheduleManager.cpp:423-448 | the run planned from the start tasklet keeps the placement invariant |
| RunManagers.RunManager.RunNTasklets | src/ScheduleManager.cpp:405-421 | the count of switches as above, and the run mode restored |
| RunManagers.RunManager.RunTaskletsForTime | src/ScheduleManager.cpp:377-403 | the switches around the deadline as above, and the run mode restored |
| RunManagers.RunManager.Yield | src/ScheduleManager.cpp:300-335 | a blocked main tasklet's yield fails at once when it is alone; otherwise it succeeds if and only if the run completed and left main unblocked, and fails only because a tasklet failed or because main is still blocked with nothing left to run |
| RunManagers.RunManager.ReturnToMain | src/Channel.cpp:82-106 | once its call has returned, successfully or not, main is on no blocked list, not flagged blocked, and the placement invariant holds |
| Mailboxes.SendMailKeeps | python/scheduler/__init__.py:32-51 | a send never blocks and keeps the sender running; it is refused exactly on a closing channel where nobody waits, and otherwise appends to what has been accepted |
| Mailboxes.ReceiveMailKeeps | python/scheduler/__init__.py:53-64 | a receive takes the oldest buffered message, closing or not; with an empty buffer it waits, or is refused by a closing channel |
| Mailboxes.ElsewhereKeeps | python/scheduler/__init__.py:21-64 | other steps accept and lose nothing and can at most cancel one waiting receive |
| Mailboxes.FirstInFirstOut | python/scheduler/__init__.py:32-64 | the i-th accepted message reaches the i-th surviving receive |
| Mailboxes.MailBalanced | python/scheduler/__init__.py:26-30 | buffered data and waiting receivers never coexist, no sender is blocked, and the balance counts the one or the other |
| Mailboxes.DrainReturnsBuffer | python/scheduler/__init__.py:53-64 | consecutive receives return the buffer in order whatever the closing state, so closing loses nothing |
| QueueChannels.MailRunKeeps | python/scheduler/__init__.py:21-64 | every run that uses the channel as a queue channel keeps its invariant |
| QueueChannels.MailboxTheorem | python/scheduler/__init__.py:15-64 | in every reachable state data and waiting receivers never coexist, no sender is blocked, and every accepted message that is delivered reaches the receive of the same rank |
| QueueChannels.QueueChannel.Send | python/scheduler/__init__.py:32-39 | the method updates buffer and scheduler as `Mailboxes.SendMail` |
| QueueChannels.QueueChannel.Receive | python/scheduler/__init__.py:53-58 | the method updates buffer and scheduler as `Mailboxes.ReceiveMail` |
| QueueChannels.QueueChannel.Balance | python/scheduler/__init__.py:26-30 | the balance is buffered messages minus waiting receivers |
| Sleepers.InsertKeeps | bevy_defer/async-executor/src/lib.rs:776-786 | the id handed out is not 0 and not held, and the registry stays well formed |
| Sleepers.UpdateKeeps | bevy_defer/async-executor/src/lib.rs:789-801 | the entry ends up with the new waker, and the result says whether it had been notified |
| Sleepers.RemoveKeeps | bevy_defer/async-executor/src/lib.rs:804-815 | the id is released and reclaimed, and the result says whether it had been notified |
| Sleepers.NotifyKeeps | bevy_defer/async-executor/src/lib.rs:825-832 | exactly one waker is taken, and only when no sleeper is notified yet; afterwards the flag's value is true |
| Sleepers.NotifyTakesLast | bevy_defer/async-executor/src/lib.rs:825-832 | a waker is taken if and only if somebody sleeps and every sleeper has one, and it is the one listed last |
| Sleepers.NotifiedMeansMissingWaker | bevy_defer/async-executor/src/lib.rs:818-820 | the recomputed flag is true exactly when nobody sleeps or a held id has lost its waker |
| Sleepers.AtMostOneNotified | bevy_defer/async-executor/src/lib.rs:761-772 | two held ids cannot both be without a waker |
| SleeperLists.SleeperList.Insert | bevy_defer/async-executor/src/lib.rs:776-786 | updates the fields as `Sleepers.Insert` |
| SleeperLists.SleeperList.Update | bevy_defer/async-executor/src/lib.rs:789-801 | the search loop updates the fields as `Sleepers.Update` |
| SleeperLists.SleeperList.Remove | bevy_defer/async-executor/src/lib.rs:804-815 | the backward search loop updates the fields as `Sleepers.Remove` |
| SleeperLists.SleeperList.Notify | bevy_defer/async-executor/src/lib.rs:825-832 | updates the fields as `Sleepers.Notify` |
| ExecutorSteps.NextKeepsInv | bevy_defer/async-executor/src/lib.rs:703-957 | every atomic step of every process keeps the invariant |
| ExecutorSteps.RunKeepsInv | bevy_defer/async-executor/src/lib.rs:703-957 | so does every interleaving of any length |
| ExecutorTheorems.NoLostWakeUp | bevy_defer/async-executor/src/lib.rs:703-957 | with a runnable in the global queue and a ticker registered, some process is bound to search again or to notify; if that is a parked ticker, its latest waker has been woken or is about to be |
| ExecutorWakers.SleepsUnderLatestWaker | bevy_defer/async-executor/src/lib.rs:857-957 | a ticker polled with a waker and not polled since has that waker, and if it is parked it is listed under it, or has been notified and that waker has been woken or is about to be |
| ExecutorProgress.OwnStepCloser | bevy_defer/async-executor/src/lib.rs:703-957 | a step of a process that is bound to act, unless it is the search of the global queue or the notifying exchange, lowers a natural-number rank and leaves it bound to act |
| ExecutorProgress.OtherStepStaysClose | bevy_defer/async-executor/src/lib.rs:703-957 | no step of another process raises that rank or releases the process from acting |
| ExecutorProgress.ActsSoon | bevy_defer/async-executor/src/lib.rs:703-957 | in every interleaving a process bound to act takes at most rank many own steps before it searches the global queue or notifies |
| ExecutorTheorems.FlagIsJustified | bevy_defer/async-executor/src/lib.rs:703-717 | a raised flag means nobody sleeps, a notified sleeper, a notifier between exchange and pop, or a ticker between update and store |
| ExecutorTheorems.QuiescentMeansNoWork | bevy_defer/async-executor/src/lib.rs:857-957 | when every process is stalled and some ticker is parked, the global queue and its local queue are empty and it still holds its entry |
| ExecutorTheorems.AlwaysEnabled | bevy_defer/async-executor/src/lib.rs:703-957 | a process that is not stalled can step, or waits for a mutex whose holder can |
| ExecutorTheorems.GuardsHold | bevy_defer/async-executor/src/lib.rs:1066-1085 | `steal` never underflows its room and its push never fails, and every runnable used is in hand |
| ExecutorTheorems.SleeperIdentity | bevy_defer/async-executor/src/lib.rs:774-832 | held and reclaimed ids partition 1..count+free, count of them are held, no id is 0, held twice or reclaimed twice, wakers belong to distinct held ids, and count exceeds the wakers by at most one |
| ExecutorTheorems.SingleNotification | bevy_defer/async-executor/src/lib.rs:825-832 | at most one sleeper is notified at a time |
| ExecutorTheorems.RunnablesConserved | bevy_defer/async-executor/src/lib.rs:979-1085 | each runnable is in the queues or in hand or has been run exactly as often as it was scheduled |
| ExecutorTheorems.NothingLeftBehind | bevy_defer/async-executor/src/lib.rs:1049-1063 | a runner that is dropped or parked has an empty local queue and nothing in hand |
| ExecutorStealing.StealTakesHalf | bevy_defer/async-executor/src/lib.rs:1066-1085 | at any moment of any execution an undisturbed call of steal moves exactly min(half of the source rounded up, free room of 512) runnables, the oldest ones in order, to the end of the local queue, and changes nothing else; the source is the global queue or another runner's |
| ExecutorStealing.StealEnds | bevy_defer/async-executor/src/lib.rs:1066-1085 | left alone, a call of steal comes to its end |
| ExecutorStealing.OldestFirst | bevy_defer/async-executor/src/lib.rs:997-1008 | whoever gets a runnable in hand has taken the oldest of its own queue, or of the global queue if its own is empty |
| ExecutorStealing.DrainsInOrder | bevy_defer/async-executor/src/lib.rs:1049-1063 | a dropped runner's queue goes to the end of the global queue in order, none lost |
| ExecutorStealing.StealsEvery64Ticks | bevy_defer/async-executor/src/lib.rs:1036-1042 | a runner steals from the global queue after its 64th, 128th, ... tick and after no other, across the wrap-around of the counter |
| ExecutorStealing.ExchangesAlternate | bevy_defer/async-executor/src/lib.rs:703-717 | between two exchanges that go on to notify a sleeper, some critical section has ended with somebody asleep and nobody notified |
| ExecutorSearch.SearchFinds | bevy_defer/async-executor/src/lib.rs:995-1034 | an undisturbed search takes the oldest of its own queue, else of the global queue and then steals half, else of the first non-empty queue of another runner it scans, stealing half, and goes to sleep only if all are empty |
| ExecutorSearch.MayScanAll | bevy_defer/async-executor/src/lib.rs:1011-1032 | a runner that finds the global queue empty can go on to scan all other runners in any order |
| ExecutorFairness.BoundedWaiting | bevy_defer/async-executor/src/lib.rs:995-1045 | from any invariant state, position k of the global queue is left after 64*(k+1) ticks of any one runner |
| ExecutorTheorems.WaitingIsBounded | bevy_defer/async-executor/src/lib.rs:995-1045 | the same at any moment of any execution |
| OneShots.SendThenPoll | bevy_defer/src/sync/oneshot.rs:88-118 | an open cell delivers what is sent exactly once, and a second send changes nothing |
| OneShots.LatestWakerIsWoken | bevy_defer/src/sync/oneshot.rs:46-53 | completion will wake the latest poll's waker if and only if no other was registered before |
| OneShots.OneShot.Send | bevy_defer/src/sync/oneshot.rs:88-96 | send and drop complete the cell, store the value only in an open empty cell, and wake the registered waker |
| OneShots.OneShot.DropSender | bevy_defer/src/sync/oneshot.rs:174-181 | dropping the sender completes the cell and wakes the registered waker |
| OneShots.OneShot.Close | bevy_defer/src/sync/oneshot.rs:156-161 | closing completes the cell and wakes the cancellation waker |
| OneShots.OneShot.Recv | bevy_defer/src/sync/oneshot.rs:107-118 | a complete cell gives up its value or reports cancellation, an open one keeps the first waker |
| SleepTheorems.Next | bevy_defer/src/queue.rs:93-214 | every step of the query queue keeps the ownership protocol |
| SleepTheorems.ReceiversNeverCanceled | bevy_defer/src/sync/oneshot.rs:233-239 | polling a held, unresolved sleep or watch receiver never reports cancellation, and is pending exactly while its sender is in the queue |
| SleepTheorems.RegisteredWakerFires | bevy_defer/src/sync/oneshot.rs:88-96 | the waker a receiver registered has been woken for that receiver if and only if its sender is gone |
| SleepTheorems.CompletionWakes | bevy_defer/src/sync/oneshot.rs:88-96 | the very step that uses up a sender adds a wake of the waker its receiver registered |
| SleepTheorems.SleepersFireInOrder | bevy_defer/src/queue.rs:193-214 | over non-decreasing clocks the sleepers of the time heap and those of the frame heap are sent to in deadline order, once each and never early |
| SleepTheorems.FiresAtFirstReach | bevy_defer/src/queue.rs:193-205 | a sleeper stays queued until the first run whose time reaches its deadline and is sent to in that run |
| SleepTheorems.FrameFiresAtFirstReach | bevy_defer/src/queue.rs:206-213 | a frame sleeper stays queued until the first run whose frame reaches its deadline and is sent to in that run |
| SleepCalls.TimedCall | bevy_defer/src/queue.rs:131-135 | from a call with duration d at time n, a receiver that is not dropped is held and pending until the first pass at or after n + d, and that pass sends to it |
| SleepCalls.TimedFramesCall | bevy_defer/src/queue.rs:138-142 | the same, counted in frames |
| SleepCalls.RepeatCall | bevy_defer/src/queue.rs:120-128 | from a call of repeat, a receiver that is not dropped is pending until the first pass in which its query answers, and then gets that answer |
| SleepCalls.DroppedCallbackEnds | bevy_defer/src/queue.rs:94-113 | after its receiver is dropped a callback ends in the next pass whether or not its query answers, and stores nothing |
| SleepCalls.CallbacksInOrder | bevy_defer/src/queue.rs:169-177 | the callbacks that stay through a pass keep their order, and a new one goes behind all others |
| SleepCalls.ClocksFollowPasses | bevy_defer/src/queue.rs:198-206 | the queue's time and frame are those of the latest pass |
| QueryQueues.Peek | bevy_defer/src/queue.rs:47-51 | the top of the heap, a greatest entry in the reversed order, has the earliest deadline |
| QueryQueues.QueryQueue.Timed | bevy_defer/src/queue.rs:131-135 | the method updates the fields as the corresponding step of the protocol |
| QueryQueues.QueryQueue.TimedFrames | bevy_defer/src/queue.rs:138-142 | the method updates the fields as the corresponding step of the protocol |
| QueryQueues.QueryQueue.Repeat | bevy_defer/src/queue.rs:120-128 | the method updates the fields as the corresponding step of the protocol |
| QueryQueues.QueryQueue.RunSeries | bevy_defer/src/queue.rs:202-204 | the loop pops and sends exactly the due entries, earliest first, and leaves the later ones |
| QueryQueues.QueryQueue.RunTimeSeries | bevy_defer/src/queue.rs:193-214 | the pass over both heaps is the corresponding step of the protocol |
| QueryQueues.QueryQueue.RunWatchQueries | bevy_defer/src/queue.rs:169-177 | callbacks whose receiver is gone are dropped, answered ones send and go, the others stay in order |

## Left out

- Reference counts, the interpreter lock, exception objects, greenlet switching, callbacks, telemetry and metrics of the scheduler: foreign calls and plumbing.
- Nested runs, parent chains, cross-thread tasklets and thread teardown.
- Immediate kills, `throw`, context managers and exception handlers: their outcome depends on arbitrary Python code.
- `block_trap`, `switch_trap`, `Channel::ClearBlocked` and `Channel::UnblockAllActiveChannels`.
- `insert` on a scheduled tasklet inside runs (its effect on blocking is covered by `SchedulerTheorems.BlockingNeedsNoReschedule`), a tasklet that removes or runs itself, kills of the main tasklet.
- The `paused` flag of tasklets: within the scope above it only reports that a tasklet was removed or set aside (it keeps alive a tasklet that removes itself, which is out of scope).
- `bind`, `unbind` and `setup` of tasklets beyond the creation of a fresh one.
- RunManagers.RunManager.Run: covers the part of a run that the script supplies turns for; that an unlimited run ends at all is not claimed, because tasklets may reschedule themselves for ever.
- Mailboxes.SendMailKeeps: the per-call `threading.Lock` of the queue channel is not modelled; it is created anew in every call and excludes nobody.
- The `active` slab, `static_executors.rs`, task internals and unsafe lifetimes of the executor; memory orderings weaker than sequential consistency.
- Overflow of `Duration` and of the 32-bit frame counter, `fixed_queue`, the `yielded` wait list, cancellation futures, and queries that register new queries while the pass over them runs.
- The rest of `bevy_defer`: access to components, assets and resources, deferred commands and entities, event and signal cells, reactors, tweens, derive macros and the HTTP client.
