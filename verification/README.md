# A verified model of the FreeRTOS kernel of this SDK

These files model the kernel under `components/freertos` (FreeRTOS V10.3.0 as
changed for this SDK) and prove what its parts promise: the tick and the delayed
lists, priority inheritance, the lockable queue, the software-timer daemon, the
stream and message buffer, event groups, and the linked list they share.

The configuration is the one in `include/FreeRTOSConfig.h`: 32 priorities, a
32-bit tick count, mutexes, task selection by a bit map, a timer queue of four
commands, `vTaskSuspend` and tickless idle.

Two kinds of modules stand side by side.

- *Step by step.* Where the C code updates structures in place, a class has
  those fields and its methods have those branches and loops: `Lists`, `Queues`,
  `StreamBuffers`, `Timers`, `EventGroups`, `TimeOuts`, `Scheduler`. Each method
  is proved to have the effect of a function on values.
- *Over runs.* Where tasks, interrupts and ticks interleave, a state machine
  takes one step for each critical section, section with the scheduler suspended,
  or single access to shared memory: `QueueProtocol`, `StreamProtocol`,
  `TimerDaemon`, `TimerCommands`, `Rendezvous`, `Mutexes`, `Inversion`,
  `Yields`, `Raises`, `LateTakes`, `Kernel`, `DelayedRuns`.
  The theorems are about every run. What each step or call does when nobody
  interferes is stated by itself in `QueueCalls`, `MutexCalls`, `StreamCalls` and
  `Effects`.

Time in the code is a wrapping 32-bit counter. The theorems speak of unbounded
time; `Ticks` relates the two (`Wrap` and `Epoch`), and `DelayedLists`,
`TimeOuts`, `Timers` and `TimerDaemon` prove that the wrapped comparisons mean
what they are meant to mean.

| file | what it models |
|---|---|
| `Ticks`, `SortedLists`, `Registries` | wrapped time, stable sorted sequences, and lists that share one family of items |
| `Lists`, `RoundRobin` | `list.c` with its pointers; the cursor that hands out items in turn |
| `TimeOuts`, `DelayedLists`, `DelayedRuns` | the tests against the tick count, the two delayed lists, runs over them |
| `Kernel`, `Effects`, `Scheduler` | in which list each task is, the ready bits, what each step does to the tasks, and the loops of `tasks.c` |
| `QueueRings`, `QueueGates`, `Queues`, `QueueProtocol`, `QueueCalls` | the byte ring, waiting and lock counts, both in one class, the blocking calls, and what one of them does |
| `Mutexes`, `MutexCalls`, `Inversion`, `Yields`, `Raises` | taking and giving mutexes, priority inheritance, when it bounds inversion and why it mostly does, and that no holder is raised for longer than need be |
| `Reachable`, `InvertingRun`, `LateTakes` | a run that inverts priorities, and the assertion a late take can fail |
| `StreamBuffers`, `StreamProtocol`, `StreamCalls` | the byte buffer with message framing, one writer and one reader at work on it, and what one call of either does |
| `Refusals`, `StreamRooms`, `TornMessage` | what refusing a message does, a rule that avoids it, and a run that tears a message |
| `Timers`, `TimerDaemon` | the operations of the timer service, and the daemon at work |
| `TimerCommands`, `UndoneStops`, `StopRun`, `LostTimer` | commands that stop a timer or change its period, how the daemon undoes a stop, and how a timer is lost |
| `EventGroups`, `Rendezvous` | bits and waiters, and tasks that meet at `xEventGroupSync` |

## What the code does not promise

Some promises hold only under a condition. The condition is proved to be exact,
or a lemma exhibits an input or a run that shows why it is needed.

- **Safe stepping.** `vTaskStepTickSafe` followed by a tick is not n + 1 single
  ticks when it starts at counter value zero, or lands on 0xFFFFFFFF with a task
  left in the current list (`DelayedLists.StepTickSafeExact`).
- **Time-outs.** Two wraps between two checks can hide a time-out that has passed
  (`TimeOuts.CheckAnyGap`, `TimeOuts.TwoWrapsCanHideATimeOut`).
- **Priority inversion.** With one mutex per task, priorities are inverted exactly
  by a take over the head of a more urgent waiter (`Inversion.HolderOutranksWaiters`).
  Such a take becomes possible because `queue.c:843-864` drops the request for a
  context switch that giving a mutex returns, when another task waits for that
  mutex: the giver runs on below a ready task, and takes another mutex
  (`InvertingRun.IgnoredCallInverts`). Without that (`Yields.HeededRunsAreBounded`),
  and where no block time ends (`Yields.BoundedWithoutTimeOuts`), it does not occur.
- **Taking late.** `queue.c:1509-1515` asserts that a task without time left has
  made nobody inherit. It fails exactly if a task that has made the holder inherit
  finds, its block time over, the mutex free, and another task has taken it before
  it is back at the loop top (`LateTakes.AssertionFailsExactly`, with a run in
  `LateTakes.AssertionCanFail`). The model goes on as the code does where
  assertions are compiled out.
- **Ready bits.** `tasks.c:4305` changes the priority before `tasks.c:4331`
  clears "its" bit. The old bit is left set wrongly exactly if the task was alone
  in its ready list (`Kernel.LoweredBits`).
- **Lock counts.** They are of type `int8_t`: the unlock makes up for all posts
  exactly if there were at most 127 or nobody waited (`QueueGates.LockCountExact`),
  and with 255 the locked queue reads as unlocked (`QueueGates.LockCountWraps`).
- **Overwriting.** A full queue of items without a size counts more messages than
  it has slots after an overwrite (`QueueRings.CountFits`).
- **Message buffers.** A reader whose receive buffer is too small for the next
  message puts the tail back (`stream_buffer.c:941-955`). The data survive this
  exactly if all that the writer has written, or is about to write into space it
  has found, fits behind the old tail (`StreamProtocol.PutBackExact`). If not, and
  the reader stands still until the writer has ended its call, the buffer is said
  to hold fewer bytes than were written to it (`Refusals.HarmShows`), and a later
  reader may get a message that was never sent (`TornMessage.RefusalCanTear`).
- **Timers.** The assertions that a reload command finds room (`timers.c:529`, 812
  and 925) fail exactly if one is sent, which takes a timer served a whole period
  late or a switch of the lists, while the queue is full (`LostTimer.RefusedExactly`,
  with a run in `LostTimer.TimerCanBeLost`). The timer is then gone for good
  (`TimerDaemon.RefusedIsGone`).
- **Timed-out sends.** A message sender whose block time ends is refused although
  there is now space for its message, unless it had last seen no space at all:
  only then is the space measured again (`StreamCalls.TimedOutWrites`).
- **Stopping timers.** A timer that is served a whole period late has the daemon
  send itself a reload command (`timers.c:519-534`). If a stop is waiting in the
  queue by then, the reload stands behind it: the stop is received and applied, and
  the reload restarts the timer (`StopRun.StopCanBeUndone`); behind a command to
  delete the timer, it names a timer that is no more. A stop holds exactly if
  nothing that restarts the timer stands behind it when it is received
  (`TimerCommands.StoppedIsSilent`), that is, if no reload was queued since it was
  sent (`UndoneStops.StopHoldsExactly`).
- **Turns.** Appending to a list while the cursor is at an item makes that item,
  and no other, wait one turn longer (`RoundRobin.AppendKeepsWait`).

## Model

| member | source | states |
|---|---|---|
| QueueProtocol.NoLostWakeUp | components/freertos/queue.c:746-951 | In every interleaving of blocking sends, receives and peeks with interrupts and time-outs, a waiting receiver implies that the messages are covered by receivers already woken plus the posts counted in cTxLock, and symmetrically for senders, free slots and cRxLock; on an unlocked queue with nobody on its way a receiver waits only if it is empty and a sender only if it is full (or more than full, which only an overwritten queue of length one without an item size can be). |
| QueueCalls.MessagesAreConserved | components/freertos/queue.c:746-1421 | In every run of blocking calls, interrupts and time-outs, the messages at the end are those at the start and those sent and posted since, less those received and fetched. |
| QueueCalls.TopMeans | components/freertos/queue.c:1309-1368 | A call that finds room or a message is over, with one message more or less, or as many if it peeks or replaces one; any other leaves the queue alone, and is over too if it may not block. |
| QueueCalls.WaitsAlone | components/freertos/queue.c:1373-1394 | A task that finds the queue empty (full) again once it has locked it ends on the list of those who wait to receive (send), behind those of its priority, with the queue unlocked and nothing else changed. |
| QueueCalls.RetriesAlone | components/freertos/queue.c:1395-1402 | One that finds something there now ends at its loop top with the queue unlocked and unchanged. |
| QueueCalls.GivesUpAlone | components/freertos/queue.c:1403-1420 | One whose block time is over ends its call without having changed the queue, except that a receiver that finds something in its last look goes back to its loop top. |
| QueueCalls.ExpireMeans | components/freertos/tasks.c:2817-2867 | A task whose block time ends while it waits leaves the list, not as a woken task, and is at its loop top; all others stay listed. |
| QueueProtocol.StepKeeps | components/freertos/queue.c:1283-1421 | The invariant behind it is kept by each of the eleven steps: loop top, locking, second look, joining a list, the two halves of the unlock, the last look after a time-out, posts and fetches from interrupts, time-outs. |
| QueueProtocol.HighestPriorityFirst | components/freertos/queue.c:2177-2294 | In every run, what a step of a task or an interrupt readies is a front part of the receivers and a front part of the senders, none of lower priority than anybody left, the rest staying in order; a task that joins a list and one whose block time ends ready nobody. |
| QueueProtocol.TopKeeps | components/freertos/queue.c:1309-1368 | The critical section at the top of the loop, for a send, a receive or a peek that succeeds, blocks or gives up, keeps the invariant; a peek passes the wake-up on. |
| QueueProtocol.ReleaseTxKeeps | components/freertos/queue.c:2185-2263 | The first half of the unlock keeps the invariant: it turns the posts it has counted into woken receivers. |
| QueueProtocol.PostKeeps | components/freertos/queue.c:989-1110 | A post from an interrupt keeps the invariant whether the queue is locked (it is counted) or not (it wakes the first receiver). |
| QueueGates.LockCountExact | components/freertos/queue.c:1097-1102 | For any number of posts into a locked window, the unlock readies one receiver for each post if and only if there were at most 127 posts or nobody waited: the width of the int8_t lock count. |
| QueueGates.LockCountWraps | components/freertos/queue.c:1097-1102 | From 255 posts on the count has come round to "unlocked": the queue reads as unlocked inside the window and each further post readies a receiver there. |
| QueueGates.LockIsTransparent | components/freertos/queue.c:240-252 | Locking a queue, any number of posts, and unlocking ends exactly like the same posts without a lock if and only if there were at most 127 posts, nobody waited, or the posts outlasted the receivers after the count had come round. |
| QueueRings.RingIsSequence | components/freertos/queue.c:2080-2174 | For every mix of sends to the back, to the front, overwrites, receives and peeks, and every item size and length, the ring hands out exactly what a bounded sequence would. |
| QueueRings.CopyToRefines | components/freertos/queue.c:2080-2156 | prvCopyDataToQueue appends, prepends or replaces in the sequence that the storage and its pointers stand for. |
| QueueRings.TakeRefines | components/freertos/queue.c:2159-2174 | prvCopyDataFromQueue returns the head of that sequence and leaves its tail. |
| QueueRings.PutGet | components/freertos/queue.c:2113-2131 | Copying an item to one slot changes that slot only. |
| QueueRings.PointersMeet | components/freertos/queue.c:265-268 | The write pointer is one slot past the read pointer if and only if the queue is empty or full: only uxMessagesWaiting tells which. |
| QueueRings.CountFits | components/freertos/queue.c:2088-2154 | The count after a copy exceeds the length if and only if a full queue of items without a size is overwritten; only the branch for items with a size subtracts the replaced one. |
| Queues.Queue.constructor | components/freertos/queue.c:428-468 | A new queue stands for the empty sequence, is unlocked and has no waiters. |
| Queues.Queue.CopyDataToQueue | components/freertos/queue.c:2080-2156 | The copy by byte offsets, wrapping at either end, has the effect that the refinement is proved of, and the count is the one CountFits is about. |
| Queues.Queue.CopyDataFromQueue | components/freertos/queue.c:2159-2174 | The read pointer moves to the next slot, wrapping at the tail, and the oldest message is returned. |
| Queues.Queue.Send | components/freertos/queue.c:767-903 | Succeeds exactly if there is room or it overwrites; then the sequence is sent to and the first receiver readied, otherwise nothing changes. An overwrite of a full queue of items without a size counts one message more than there are slots. |
| Queues.Queue.SendFromIsr | components/freertos/queue.c:989-1110 | The same from an interrupt, except that on a locked queue the post is counted and nobody is readied. |
| Queues.Queue.Receive | components/freertos/queue.c:1309-1368 | Succeeds exactly if there is a message; returns the oldest, keeps the rest in order and readies the first sender. |
| Queues.Queue.ReceiveFromIsr | components/freertos/queue.c:1821-1876 | The same from an interrupt, counting instead of readying on a locked queue. |
| Queues.Queue.Peek | components/freertos/queue.c:1669-1735 | Returns the oldest message, leaves the whole sequence and readies another receiver. |
| Queues.Queue.UnlockTx | components/freertos/queue.c:2185-2263 | The loop readies min(count, waiting) receivers from the front, in order, and unlocks. |
| Queues.Queue.UnlockRx | components/freertos/queue.c:2266-2293 | The same for senders. |
| StreamProtocol.DeliversInOrder | components/freertos/stream_buffer.c:668-717 | With writer and reader interleaved at every byte copied and every access to head and tail, as long as the tail is never put back under what the writer has written or is about to write, the messages delivered are whole and a prefix of those sent; from a stream buffer the delivered bytes are a prefix of the written ones. |
| StreamProtocol.CopiesApart | components/freertos/stream_buffer.c:1095-1138 | No place the writer is copying to is one the reader is still to copy from. |
| StreamCalls.NotifiedExactly | components/freertos/stream_buffer.c:591-605 | If the reader is registered and stands still while a send writes something, then once the send is over it has been notified, and taken off the register, if and only if the bytes there are reach the trigger level. |
| StreamCalls.WriterIsNotified | components/freertos/stream_buffer.c:799-814 | A registered writer that stands still during a receive has been notified, and taken off the register, if and only if that receive delivered something. |
| StreamCalls.SendAlone | components/freertos/stream_buffer.c:513-614 | A send that goes through while the reader stands still, waiting or not, writes what fits into the space there is: of a stream as many bytes as fit, a message with its length whole or not at all; nothing is lost or released. |
| StreamCalls.ReceiveAlone | components/freertos/stream_buffer.c:720-821 | A receive that goes through while the writer stands still takes what is there: nothing if there is no more than a length; the next message whole if the receive buffer has room, otherwise nothing; of a stream as many bytes as are there and fit. |
| StreamCalls.SendWaits | components/freertos/stream_buffer.c:534-573 | A send waits for a notification if and only if it may and there is not space for all of its data. |
| StreamCalls.ReceiveWaits | components/freertos/stream_buffer.c:745-789 | A receive waits for a notification if and only if it may and there is no more than a length. |
| StreamCalls.TimedOutWrites | components/freertos/stream_buffer.c:564-591 | Only a sender that had last seen no space at all measures again when its block time ends: a message is written if and only if that was so and there is space for it now; of a stream as many bytes are written as were seen or, if none were, as fit now. |
| StreamCalls.WokenLooksAgain | components/freertos/stream_buffer.c:546-573 | A sender that is notified measures the space again: with enough of it, it goes on by what there is now, otherwise it waits again, registered. |
| StreamCalls.SendEnds | components/freertos/stream_buffer.c:513-614 | From every state that keeps the data invariant and in which the writer rests, a send has a run in which it ends. |
| StreamProtocol.NoLostNotification | components/freertos/stream_buffer.c:591-605 | While the writer is between calls, a reader that is registered, or waits without having been notified, waits for more bytes than there are; while the reader is between calls, a blocked writer that has not been notified lacks the space it needs. |
| StreamProtocol.StepKeepsData | components/freertos/stream_buffer.c:925-974 | A step of either side keeps the data invariant (the bytes between tail and head are those written and not yet released, each side is where its history says, and what the writer is about to write fits) if and only if it does not put the tail back under what the writer has written or is about to write. |
| StreamProtocol.PutBackExact | components/freertos/stream_buffer.c:941-955 | Putting the tail back after a refused message keeps the data invariant if and only if all that the writer has written, or is about to write into the space it has found, fits behind the old tail; space it has only seen does not count. |
| Refusals.HarmShows | components/freertos/stream_buffer.c:941-955 | However the writer then ends its call, with the reader standing still: the fill query gives the number of bytes written and not released if and only if putting the tail back was harmless by that condition; otherwise that number exceeds what the buffer can hold. |
| Refusals.CallEnds | components/freertos/stream_buffer.c:513-614 | After the tail has been put back, harmlessly or not, the writer can end its call in steps of its own. |
| TornMessage.RefusalCanTear | components/freertos/stream_buffer.c:941-955 | A run on a buffer of twelve bytes in which a message is refused, its length is written over, and the reader then delivers a message that nobody has sent. |
| StreamRooms.RoomyIsUntorn | components/freertos/stream_buffer.c:925-974 | Where no message is longer than the receive buffers, no message is ever refused and the tail never put back. |
| StreamProtocol.WriterKeepsNotes | components/freertos/tasks.c:4860-4967 | Registering, notifying and unregistering by the writer keep the invariant of the two task handles and notification states. |
| StreamProtocol.ReaderKeepsNotes | components/freertos/stream_buffer.c:745-801 | The same for the steps of the reader. |
| StreamProtocol.SizeIs | components/freertos/stream_buffer.c:925-974 | A length the reader has copied out is that of the next message sent, which is there completely. |
| StreamProtocol.WriterNeverStuck | components/freertos/stream_buffer.c:1095-1138 | A writer that has started to copy can always go on: the data fits. |
| StreamProtocol.ReaderNeverStuck | components/freertos/stream_buffer.c:1141-1193 | A reader that has started to copy, or has to refuse a message, can always go on. |
| StreamBuffers.FillExact | components/freertos/stream_buffer.c:477-498 | From head and tail alone, the bytes in use and the free space are exact for every fill from nothing to one byte less than the buffer. |
| StreamBuffers.IndexApart | components/freertos/stream_buffer.c:1106-1131 | Stream positions less than a buffer length apart never share a storage index. |
| StreamBuffers.RollBackMisleads | components/freertos/stream_buffer.c:477-498 | A space query made while the length of a message has been taken, to be put back, lets in a need that does not fit if and only if it exceeds the real space by at most the length bytes; what may come of it is RefusalCanTear. |
| StreamBuffers.LengthRoundTrip | components/freertos/stream_buffer.c:694-703 | The length written in front of a message is the one read from it, for every 32-bit length. |
| StreamBuffers.EncodeAt | components/freertos/stream_buffer.c:668-717 | In the bytes of a series of messages each message is found whole behind the ones before it. |
| StreamBuffers.StreamBuffer.WriteBytes | components/freertos/stream_buffer.c:1095-1138 | The two copies and the wrapped head append the data to the contents. |
| StreamBuffers.StreamBuffer.ReadBytes | components/freertos/stream_buffer.c:1141-1193 | Returns the first min(asked, available) bytes of the contents and leaves the others. |
| StreamBuffers.StreamBuffer.WriteMessage | components/freertos/stream_buffer.c:668-717 | A message buffer takes the length and the whole message or nothing at all; a stream buffer takes as much as fits. |
| StreamBuffers.StreamBuffer.ReadMessage | components/freertos/stream_buffer.c:925-974 | Takes the length and the message off the contents, or, when the message exceeds the receive buffer, returns nothing and leaves the contents as they were. |
| TimerDaemon.ExactWhenBlocking | components/freertos/timers.c:507-642 | Whenever the daemon blocks at an instant N on an empty queue, the callback of an auto-reload timer started at C with period P, for which the daemon has received no other command, has been made exactly floor((N-C)/P) times and the timer is in exactly one list, under C+(floor((N-C)/P)+1)*P, in the list of the right epoch; through late servicing, tick wraps and list switches. |
| TimerDaemon.StepKeeps | components/freertos/timers.c:734-939 | Every step of the daemon, of other timers, of other posters and of the clock keeps: the timer is listed once under its next expiry, or in one command that carries its last. |
| TimerDaemon.RefusedIsGone | components/freertos/timers.c:519-534 | If a full queue ever refuses the reload command, the timer is from then on in neither list, in no queued command and in no command the daemon has in hand. |
| LostTimer.RefusedExactly | components/freertos/timers.c:519-534 | A step of the daemon makes the asserted reload command fail if and only if the queue is full and the timer is served so late that its next expiry has passed too, or expires for the last time before the counter wrapped. |
| LostTimer.TimerCanBeLost | components/freertos/timers.c:800-817 | A run in which the assertion fails: a timer one tick late finds four commands of others in the queue. |
| TimerDaemon.ExpireOurs | components/freertos/timers.c:507-546 | What the expiry of the followed timer does to its list place, its commands and its count of callbacks. |
| TimerDaemon.SwitchOurs | components/freertos/timers.c:882-939 | The same when it expires while the lists are switched. |
| TimerDaemon.OnceWhenBlocking | components/freertos/timers.c:507-642 | Whenever the daemon blocks at an instant N on an empty queue, the callback of a timer that does not reload, started at C with period P, for which the daemon has received no other command, has been made exactly once if N >= C+P and the timer is in no list, and not at all if N < C+P and it is in exactly one list, under C+P; through late servicing, wraps and list switches. |
| TimerDaemon.OnceAtMost | components/freertos/timers.c:507-939 | In no state of such a run has it been called twice or before C+P; once called it is in neither list, in no queued command and in none in hand. |
| TimerDaemon.ExpireOnce | components/freertos/timers.c:507-546 | The expiry of a timer that does not reload: called once, in no list, no command, not active any more. |
| TimerDaemon.SwitchOnce | components/freertos/timers.c:882-939 | The same when it expires while the lists are switched. |
| TimerCommands.CallsTheHead | components/freertos/timers.c:507-546 | Serving an expired timer, in the ordinary way or while the lists are switched, makes exactly one callback, that of the head, whether or not it reloads; only the ordinary way marks one that does not as not active. |
| TimerCommands.CommandMarks | components/freertos/timers.c:764-877 | A command marks its timer as active if it restarts it and as not active if it stops or deletes it, changes its period only if told to, touches no other timer, and calls nobody unless it restarts. |
| TimerCommands.ComesToReceive | components/freertos/timers.c:548-642 | From wherever the daemon is, its own steps bring it to the point where it receives commands. |
| Timers.FilingExact | components/freertos/timers.c:693-731 | For 0 < P < 2^32 and 0 <= N-C < 2^32 a timer is processed now exactly if C+P <= N, goes to the current list exactly if C+P is later in the epoch of N, and to the overflow list exactly if it is in the next. |
| Timers.SwitchOneShrinks | components/freertos/timers.c:882-939 | Each round of the loop in prvSwitchTimerLists lowers the sum of (2^32 - expiry) over the current list, even when it puts the timer back: the loop ends. |
| Timers.ChangedPeriodIsFiled | components/freertos/timers.c:832-845 | A change of period counted from now never reports that the timer is due already. |
| Timers.TimerService.InsertInActiveList | components/freertos/timers.c:693-731 | The branches return what the exactness result is about, and file the timer in the list it names. |
| Timers.TimerService.SwitchHead | components/freertos/timers.c:898-933 | One round: the head is called, whether or not it reloads, and put back or sent a command if it does; less time is left in the list. |
| Timers.TimerService.SwitchTimerLists | components/freertos/timers.c:882-939 | The current list is worked off to the end and the two lists change places. |
| Timers.TimerService.SampleTimeNow | components/freertos/timers.c:670-690 | The lists are switched exactly if the counter reads less than last time. |
| Timers.TimerService.ProcessExpiredTimer | components/freertos/timers.c:507-546 | The head is taken out and called, whether or not it reloads; one that does is filed again or sent a reload, one that does not is in no list. |
| Timers.TimerService.ProcessCommand | components/freertos/timers.c:764-877 | Each command (start, reset, stop, change of period, delete) has the effect that the runs are made of. |
| TimerCommands.StoppedIsSilent | components/freertos/timers.c:766-829 | When the daemon receives a command that stops or deletes a timer: in every run to come in which the timer is sent no commands but such, whatever happens to other timers, it is never called again and is in neither list, if and only if no command that restarts it (start, reset, change of period, or a reload by the daemon itself) stands in the queue behind the one received. Promptness is not asked. |
| UndoneStops.StopHoldsExactly | components/freertos/timers.c:519-534 | A stop sent to a started auto-reload timer, nobody else starting it, silences it for good if and only if the daemon queues no reload command for it between the sending and the receipt: that is, in no step between is it so late, or switching lists, that it sends itself one and finds room. |
| StopRun.StopCanBeUndone | components/freertos/timers.c:800-829 | A run in which a timer that expires late has its stop received and applied, and is then called again, active, and about to be called once more. |
| TimerCommands.SilentStep | components/freertos/timers.c:734-939 | Every single step keeps such a timer out of both lists and its callback uncalled. |
| TimerCommands.ChangedPeriodIsExact | components/freertos/timers.c:832-845 | A change of period at an instant files the timer in exactly one list, under that instant plus the new period, in the list of the right epoch, without a callback or a command. |
| DelayedRuns.DelayIsExact | components/freertos/tasks.c:5254-5363 | A task that blocks for n ticks and is not woken by an event is readied at its wake instant, once, and at no other, whatever other tasks, events and ticks do meanwhile and however often the counter wraps. |
| DelayedLists.BlockRefines | components/freertos/tasks.c:5254-5363 | Blocking is one stable insertion, at now + n, into a single line of deadlines on unbounded time that the current and the overflow list together stand for; lists stay sorted and the alarm no later than the head. |
| DelayedLists.TickRefines | components/freertos/tasks.c:2775-2892 | A tick takes exactly the tasks due at the new instant from the front of that line, moves time by one, and keeps the invariant. |
| DelayedLists.TicksRefine | components/freertos/tasks.c:2775-2892 | Any number of ticks readies exactly a front part of the line, in order, and moves time by that number. |
| DelayedLists.AlarmIsNextWake | components/freertos/tasks.c:4020-4041 | Between wraps, with xNextTaskUnblockTime at the wake time of the head, a tick readies somebody if and only if it reaches that instant and somebody is listed. |
| DelayedLists.TickSetsAlarm | components/freertos/tasks.c:2807-2870 | A tick that wraps the counter or reaches the alarm leaves it at the wake time of the head (portMAX_DELAY if there is none) wherever it was, and every tick keeps it there. |
| DelayedLists.BlockKeepsAlarm | components/freertos/tasks.c:5254-5363 | So does blocking. |
| DelayedLists.EmptyAtSwitch | components/freertos/tasks.c:198-210 | The current list is empty whenever the counter is about to wrap: the assertion in the list switch holds. |
| DelayedLists.WokenExactlyWhenDue | components/freertos/tasks.c:2817-2880 | An entry is readied by the tick that reaches its instant and is still listed before. |
| DelayedLists.CancelRefines | components/freertos/tasks.c:3214-3279 | Taking a task out early removes it from the line and nothing else, and keeps the invariant. |
| DelayedLists.StepTickSafeExact | components/freertos/tasks.c:2641-2692 | A safe step over n ticks followed by one tick leaves the same counter, wrap count, lists, alarm and wake order as n + 1 single ticks if and only if the counter is not zero and the step does not land on 0xFFFFFFFF with someone left in the current list. |
| DelayedLists.StepAtZeroDiffers | components/freertos/tasks.c:2641-2692 | From counter value zero the wrap count after a step is never that after single ticks. |
| DelayedLists.StepOntoTheLastTick | components/freertos/tasks.c:2641-2692 | Landing on the last counter value agrees with single ticks if and only if the current list is empty. |
| Scheduler.TickClock.SwitchDelayedLists | components/freertos/tasks.c:198-210 | The macro and prvResetNextTaskUnblockTime have the effect the refinement is proved of. |
| Scheduler.TickClock.WakeDueTasks | components/freertos/tasks.c:2817-2880 | The loop readies the due tasks from the front and leaves the alarm at the new head. |
| Scheduler.TickClock.IncrementTick | components/freertos/tasks.c:2775-2892 | An accepted tick with the scheduler running does what the line of deadlines says. |
| Scheduler.TickClock.ReplayTicks | components/freertos/tasks.c:2252-2275 | The loop replays the ticks held back while the scheduler was suspended: time moves by their number, and exactly the front part of the line of deadlines up to then is readied, in order. |
| Scheduler.TickClock.WakeAllDelayed | components/freertos/tasks.c:2651-2679 | The loop empties the current list from the front. |
| Scheduler.TickClock.StepTickSafe | components/freertos/tasks.c:2641-2692 | The jump with that loop does what the comparison with single ticks is proved of. |
| Scheduler.TickClock.AddToDelayedList | components/freertos/tasks.c:5254-5363 | Files the task by wake time and moves the alarm forward, or leaves it to the suspended list when it may wait for ever. |
| TimeOuts.DelayUntilExact | components/freertos/tasks.c:1257-1320 | With the last wake time less than 2^32 ticks back, the overflow-aware test says to block if and only if last + increment is in the future, and the wrapped difference is the exact block time. |
| TimeOuts.PeriodicTask.DelayUntil | components/freertos/tasks.c:1257-1320 | The reference moves by the increment whether or not the call blocks; it blocks exactly when it should and for exactly as long. |
| TimeOuts.NoDrift | components/freertos/tasks.c:1257-1320 | k calls move the reference by k * increment on unbounded time. |
| TimeOuts.CheckExact | components/freertos/tasks.c:3350-3411 | With at most one wrap since the last check a time-out is reported if and only if the wait has elapsed; otherwise what is left is a fresh wait for the exact rest. |
| TimeOuts.CheckAnyGap | components/freertos/tasks.c:3350-3411 | For any gap: the answer is right if and only if fewer than two wraps have passed, or the counter reads no less than at entry and the number of wraps has not wrapped to zero itself, or the counter difference alone exhausts the wait. |
| TimeOuts.TwoWrapsCanHideATimeOut | components/freertos/tasks.c:3350-3411 | A concrete wait that has run out and is reported as still running. |
| TimeOuts.IteratedChecksExact | components/freertos/tasks.c:3350-3411 | However often a finite wait is interrupted and resumed, some check reports a time-out if and only if some check is made after the original block time has elapsed. |
| TimeOuts.TimeOut.Check | components/freertos/tasks.c:3350-3411 | In instants: a wait without end is never over; with at most one wrap since the entry instant a finite wait is reported over exactly if its ticks have passed, and otherwise the caller is left a wait entered now for the exact rest. |
| Lists.List.constructor | components/freertos/list.c:37-59 | A new list is a well-formed ring of the end marker alone. |
| Lists.List.InsertEnd | components/freertos/list.c:74-100 | The item goes in front of the one handed out last; ring, count, container and cursor stay in step. |
| Lists.List.Insert | components/freertos/list.c:103-167 | Stable insertion by value, portMAX_DELAY included: the items are a sorted insertion, the ring stays well formed, the cursor stays on its item. |
| Lists.List.Walk | components/freertos/list.c:118-150 | The loop ends and finds the last item not larger than the value. |
| Lists.List.Remove | components/freertos/list.c:170-197 | Exactly that item leaves; a cursor on it steps back; its container is cleared and the new count returned. |
| Lists.List.NextEntry | components/freertos/include/list.h:277-288 | The cursor moves to the next item, over the end marker, and its owner is returned. |
| Lists.InsertRemoveRestores | components/freertos/list.c:103-197 | Removing the item just inserted restores the ring, and the cursor wherever it was. |
| Lists.InsertEndAppends | components/freertos/list.c:74-100 | What InsertEnd does to items and cursor is appending in the round-robin order. |
| Lists.RemoveDrops | components/freertos/list.c:170-197 | What Remove does to them is dropping in that order. |
| Lists.SplicedLinked | components/freertos/list.c:84-93 | Four redirected pointers turn a well-formed ring into the well-formed ring with the item in it. |
| Lists.CutLinked | components/freertos/list.c:176-177 | Two redirected pointers take an item out of a well-formed ring and leave a well-formed one. |
| RoundRobin.DistanceExact | components/freertos/include/list.h:277-288 | The i-th advance hands out an item if and only if i is its distance; in particular n advances hand out each of n items once. |
| RoundRobin.BoundedWaiting | components/freertos/include/list.h:277-288 | In every run of advances, appends and removals of others that does not hand an item out (nor append while the cursor is on it), there are fewer advances than its distance at the start. |
| RoundRobin.AppendKeepsWait | components/freertos/list.c:74-100 | Appending leaves every distance as it is, except that of the item under the cursor, which it raises by one. |
| RoundRobin.DropNeverRaises | components/freertos/list.c:170-196 | Removing another item, the one under the cursor included, never raises a distance. |
| RoundRobin.NextLowersWait | components/freertos/include/list.h:277-288 | An advance hands out the item exactly if its distance is one and lowers every larger distance by one. |
| EventGroups.NobodyWaitsInVain | components/freertos/event_groups.c:519-610 | In every run of sets, clears, waits, rendezvous, time-outs and resumptions no listed waiter's condition is satisfied by the bits. |
| EventGroups.UnblockedExactly | components/freertos/event_groups.c:519-610 | Setting bits readies exactly the waiters satisfied by old&#124;set, each with all those bits and the unblocked flag, before any are cleared. |
| EventGroups.RemainingExactly | components/freertos/event_groups.c:519-610 | The waiters not satisfied stay, and no others. |
| EventGroups.RemainingInOrder | components/freertos/event_groups.c:519-610 | Those that stay are the waiters at an increasing series of places, which are exactly the places of the unsatisfied: order and number are kept. |
| EventGroups.ToClearExactly | components/freertos/event_groups.c:577-605 | A bit is cleared afterwards if and only if a readied clear-on-exit waiter waited for it. |
| EventGroups.UnpackPacked | components/freertos/event_groups.c:54-63 | Packing the wanted bits with the control bits into an item value loses nothing. |
| EventGroups.ResumeStamped | components/freertos/event_groups.c:384-396 | A task that was unblocked returns the bits it was unblocked with, control bits removed. |
| EventGroups.StepKeeps | components/freertos/event_groups.c:311-397 | Every operation keeps that no listed condition is satisfied. |
| EventGroups.EventGroup.Walk | components/freertos/event_groups.c:539-605 | The loop over the list, which removes while it walks, keeps the unsatisfied waiters in order and collects the bits to clear. |
| EventGroups.EventGroup.Set | components/freertos/event_groups.c:519-610 | xEventGroupSetBits as a whole: who is readied and who stays is what those results are about; a bit is set afterwards if and only if it was or was set now, and no readied task waited for it and was to clear it. |
| EventGroups.EventGroup.WaitFor | components/freertos/event_groups.c:311-383 | Joins the end of the list, with an item value that unpacks to what was asked, if and only if the condition does not hold and it may block; otherwise returns the bits as they were and leaves the list; the bits it waited for, and no others, are cleared if and only if the condition held and it was to clear them; nobody listed is satisfied afterwards if nobody was before. |
| EventGroups.EventGroup.ClearBits | components/freertos/event_groups.c:461-485 | Returns the bits as they were, and clears those given and no others. |
| EventGroups.EventGroup.Rendezvous | components/freertos/event_groups.c:191-249 | Sets its bits; if all it waits for are there, with those just set, it returns them and clears those it waited for and no others, otherwise joins the list or gives up and clears none. |
| EventGroups.ConditionMeans | components/freertos/event_groups.c:671-703 | The test of a condition is true if and only if every bit waited for is set, or, for a wait for any, some bit waited for is. |
| EventGroups.SetExactly | components/freertos/event_groups.c:519-610 | The bits after a set, one by one: set if and only if it was set before or now, and it is not a bit that a readied clear-on-exit task waited for. |
| EventGroups.ResumeExpired | components/freertos/event_groups.c:400-456 | A task whose block time ended before it was unblocked returns the bits of the moment; the bits it waited for are cleared if and only if they satisfy it after all and it was to clear them, and no others are. |
| EventGroups.ExpireMeans | components/freertos/tasks.c:2817-2867 | A task whose block time ends is taken from its place in the list of waiters; the others stay in order, and the bits as they are. |
| Rendezvous.Lockstep | components/freertos/event_groups.c:191-308 | Tasks that loop on xEventGroupSync with their own bits never get more than one call apart, no k-th call returns before every k-th call was made, and every return value contains all the bits, even if a fast task calls again first. |
| Rendezvous.LastCallReleases | components/freertos/event_groups.c:191-249 | Once the last task calls, every one of them may return. |
| Rendezvous.CompleteWhenAllWait | components/freertos/event_groups.c:205-224 | A call finds all bits set if and only if all other tasks wait. |
| Rendezvous.CallCompletes | components/freertos/event_groups.c:519-610 | That call unblocks all of them, clears the group and starts the next round. |
| Rendezvous.CallWaits | components/freertos/event_groups.c:226-249 | Any other call waits, and the round stays open. |
| Rendezvous.ReturnKeeps | components/freertos/event_groups.c:250-308 | A return leaves the round as it is and reports all the bits. |
| Inversion.HolderOutranksWaiters | components/freertos/queue.c:1424-1639 | From the start, with tasks that use one mutex at a time: priorities are inverted in no state of a run (no task waits for a mutex whose holder has a lower priority) if and only if no step of the run takes a free mutex over the head of a more urgent waiter; through inheritance, time-outs and gives. |
| Inversion.StepExact | components/freertos/queue.c:1424-1639 | Of the ten kinds of steps every one keeps the bound (lists in order of priority, holders above their waiters) if and only if it is not such a take. |
| Inversion.RunExact | components/freertos/queue.c:1424-1639 | The same from every state that keeps the bound, which then holds at the end as well. |
| Inversion.InvertingTakeInverts | components/freertos/queue.c:1474-1503 | Such a take leaves a task waiting below whose priority the holder runs. |
| Inversion.TakeExact | components/freertos/queue.c:1474-1503 | Taking a free mutex keeps the bound on it if and only if nobody waits or the taker has at least the priority of the first waiter. |
| Inversion.LowerHolder | components/freertos/tasks.c:4261-4361 | Undoing an inheritance after a time-out never goes below a task that still waits. |
| Raises.LowerExact | components/freertos/tasks.c:4261-4361 | It leaves a holder of that mutex only with exactly the least priority that is no lower than its base and than that of every task still waiting, one of several mutexes with the priority it has, and all others with theirs. |
| Raises.LowerIsExact | components/freertos/queue.c:1611-1626 | In every run of tasks that use one mutex at a time and that inverts nothing, undoing an inheritance leaves the holder with exactly that priority. |
| Raises.RaiseIsAccounted | components/freertos/tasks.c:4091-4361 | In every such run a holder has exactly that priority, or is raised to that of a task that made it inherit, has stopped waiting, and is about to undo it: no raise outlasts its cause. |
| MutexCalls.TopMeans | components/freertos/queue.c:1454-1539 | At the top of a take: a free mutex is held by the task, which has one more, whoever waits; a taken one leaves it about to wait, or, if it may not, back with nothing changed. |
| MutexCalls.SectionMeans | components/freertos/queue.c:1544-1594 | With the scheduler suspended a task whose time is over gives up, and one that finds the mutex free again tries again; nothing else changes. |
| MutexCalls.PlaceMeans | components/freertos/tasks.c:4091-4177 | One that goes to wait is listed behind all of at least its priority and in front of all others, a holder of lower priority is raised to it, and it remembers whether it is above the base of the holder. |
| MutexCalls.CheckMeans | components/freertos/queue.c:1596-1639 | Its time over, it tries once more if the mutex is free, else undoes an inheritance it has caused, else returns. |
| MutexCalls.GiveMeans | components/freertos/tasks.c:4181-4255 | Giving frees the mutex and readies the first waiter; the giver falls to its base exactly if it holds no other; when the switch this calls for is asked for, and when it is dropped. |
| MutexCalls.ExpireMeans | components/freertos/tasks.c:2817-2867 | A task whose block time ends leaves the list, the others stay, and a switch is asked for if it is no lower than the running one. |
| MutexCalls.SwitchMeans | components/freertos/tasks.c:3065-3117 | A context switch changes who runs, and no task and no mutex. |
| MutexCalls.OthersMean | components/freertos/tasks.c:3214-3279 | Starting a take, blocking on something else and being readied change that task only, and ask for a switch exactly when they must. |
| Inversion.Bookkeeping | components/freertos/tasks.c:4091-4361 | In every run, nesting and time-outs included, uxMutexesHeld is the number of mutexes that name the task as holder, the priority is never below the base, and a task with no mutex has its base priority. |
| Yields.HeededRunsAreBounded | components/freertos/queue.c:843-864 | A run in which no call for a context switch has been dropped inverts nothing. |
| Yields.BoundedWithoutTimeOuts | components/freertos/queue.c:1424-1639 | A run in which no block time ends inverts nothing. |
| Yields.PromisedIsOrderly | components/freertos/queue.c:1474-1503 | While the most urgent ready task runs and somebody urgent enough is on the way to each free mutex, no take is over the head of a more urgent waiter. |
| Yields.GiveHeeded | components/freertos/queue.c:843-864 | Where a raised priority is always that of the first waiter, a give never drops the call for a switch. |
| InvertingRun.IgnoredCallInverts | components/freertos/queue.c:843-864 | A reachable state, with its run, in which the dropped call has let a task of priority 1 take and keep a mutex that one of priority 2 waits for. |
| LateTakes.AssertionFailsExactly | components/freertos/queue.c:1507-1516 | In every run from the start, the assertion that a take without time left has made nobody inherit fails if and only if the task, having made the holder inherit, looked after its block time was over, found the mutex free and has done nothing since, and others have taken the mutex in between and not given it back. |
| LateTakes.AssertionCanFail | components/freertos/queue.c:1507-1516 | A run with three tasks and one mutex in which it fails. |
| Mutexes.StepKeepsForm | components/freertos/queue.c:1424-1639 | Each step keeps waiting lists and what the tasks do in step: a task is on a list exactly if it waits for that mutex, and once. |
| Mutexes.StepKeepsCount | components/freertos/tasks.c:4695-4706 | Each step keeps the count of mutexes held equal to the number that name the task. |
| Mutexes.HeldCounts | components/freertos/tasks.c:4181-4255 | Handing one mutex over changes the number held by one for the two tasks concerned and for no other. |
| Kernel.TasksAreConserved | components/freertos/tasks.c:1077-1252 | In every run of creations, deletions, delays, events (of event groups too), notifications, suspensions, resumptions, priority changes and scheduler suspensions: a task is in exactly one state list, in the ready list of its priority if it is ready, and in at most one event list; uxCurrentNumberOfTasks is the sum of the lengths, uxDeletedTasksWaitingCleanUp that of the termination list; the pending ready list is in use only while the scheduler is suspended. |
| Kernel.StepKeeps | components/freertos/tasks.c:1540-1972 | Each of the 22 steps keeps that, and a priority with ready tasks has its bit set; exactness of the bits is kept if and only if the step is not a lowering after a time-out of a task alone in its ready list. |
| Kernel.RunKeeps | components/freertos/tasks.c:1540-1972 | Over whole runs without such a lowering the bits stay exact. |
| Kernel.LoweredBits | components/freertos/tasks.c:4305-4331 | Because the priority is changed before "its" bit is cleared, the old bit stays set; this is wrong if and only if the task was alone in its ready list. |
| Kernel.LoweredKeeps | components/freertos/tasks.c:4261-4361 | Lowering keeps all other guarantees whatever list the task is in. |
| Kernel.BitsChooseAlike | components/freertos/tasks.c:133-190 | While the bits are exact, the highest set bit names the same ready list as the downward scan. |
| Kernel.CreatedKeeps | components/freertos/tasks.c:1077-1157 | A new task keeps every guarantee. |
| Kernel.DeletedKeeps | components/freertos/tasks.c:1162-1252 | Deleting another task takes it out of both kinds of lists and keeps every guarantee. |
| Kernel.TerminatedKeeps | components/freertos/tasks.c:1184-1222 | Deleting the running task parks it for clean-up and keeps every guarantee. |
| Kernel.ReapedKeeps | components/freertos/tasks.c:3716-3742 | Cleaning up one task keeps every guarantee. |
| Kernel.WokenKeeps | components/freertos/tasks.c:3214-3279 | Readying by an event, into the ready list or, with the scheduler suspended, into the pending list, keeps every guarantee. |
| Kernel.SetPriorityKeeps | components/freertos/tasks.c:1540-1696 | A change of base priority, of a ready or a blocked task, inheriting or not, keeps every guarantee and exact bits. |
| Effects.SetPriorityEffect | components/freertos/tasks.c:1540-1696 | The base of the task is the new one; if it was not inheriting its priority is too, and if it was ready it is in the ready list of that priority; if it was inheriting its priority and list stay; no other task changes its priority, its list or its event. |
| Effects.InheritEffect | components/freertos/tasks.c:4091-4177 | The holder has the priority of the running task, its base stays, and it is in that ready list if it was ready; no other task changes. |
| Effects.DisinheritEffect | components/freertos/tasks.c:4181-4255 | The giver has its base priority and is in that ready list; no other task changes. |
| Effects.LowerEffect | components/freertos/tasks.c:4261-4361 | The holder has the priority named and is in that ready list if it was ready; its base stays, and no other task changes. |
| Effects.BlockEffect | components/freertos/tasks.c:5254-5363 | The running task, and no other, is in the list named, waits for no event, and keeps its priorities. |
| Effects.WaitForEffect | components/freertos/tasks.c:3140-3210 | The same, and it waits for the event named. |
| Effects.EventEffect | components/freertos/tasks.c:3214-3279 | The task an event releases waits for it no longer; it is in the ready list of its priority or, with the scheduler suspended, where it was and pending; no other task changes. |
| Effects.UnorderedEventEffect | components/freertos/tasks.c:3282-3327 | The task an event group releases is ready though the scheduler is suspended. |
| Effects.ExpireEffect | components/freertos/tasks.c:2817-2867 | A delayed task whose time has come is ready and waits for no event; no other task changes. |
| Effects.NotifyEffect | components/freertos/tasks.c:4860-4971 | A task notified by a task is ready; no other task changes. |
| Effects.NotifyFromIsrEffect | components/freertos/tasks.c:4974-5100 | One notified by an interrupt is ready or, with the scheduler suspended, pending. |
| Effects.SuspendEffect | components/freertos/tasks.c:1704-1808 | A suspended task is in the suspended list wherever it was and waits for nothing; no other task changes. |
| Effects.ResumeEffect | components/freertos/tasks.c:1851-1902 | A resumed task is ready; no other task changes. |
| Effects.ResumeFromIsrEffect | components/freertos/tasks.c:1905-1972 | One resumed by an interrupt is ready or, with the scheduler suspended, pending. |
| Effects.CreateEffect | components/freertos/tasks.c:1077-1157 | A new task is ready with its priority as base, and is counted; no other task changes. |
| Effects.DeleteEffect | components/freertos/tasks.c:1162-1252 | A task deleted by another is in no list and is counted no more; no other task changes. |
| Effects.DeleteItselfEffect | components/freertos/tasks.c:1184-1222 | A task that deletes itself is in the termination list, waits for nothing, and is counted as one to clean up. |
| Effects.ReapEffect | components/freertos/tasks.c:3716-3742 | Cleaning up forgets the first task in the termination list and no other. |
| Effects.ResumeOneEffect | components/freertos/tasks.c:2210-2234 | The first pending task is ready and pending no longer; no other task changes. |
| Effects.SimpleEffect | components/freertos/tasks.c:2110-2130 | Suspending and resuming the scheduler, switching the delayed lists and switching tasks change the one variable they are about and no list. |
| Kernel.SuspendKeeps | components/freertos/tasks.c:1704-1808 | Suspending a task in any state keeps every guarantee. |
| Scheduler.PendingBecomeReady | components/freertos/tasks.c:2210-2234 | Resuming the scheduler makes every pending task ready and takes no ready task off its list. |
| Scheduler.CleanUpExact | components/freertos/tasks.c:3716-3742 | Cleaning up forgets exactly the tasks in the termination list and lowers the count by their number. |
| Scheduler.DrainShrinks | components/freertos/tasks.c:2210-2234 | Each round of the loop in xTaskResumeAll leaves fewer event items listed: the loop ends. |
| Scheduler.TaskLists.MoveToReadyList | components/freertos/tasks.c:218-222 | The task is the last of the ready list of its priority and in no other list, that priority has its bit set, and in every list all others keep their order. |
| Scheduler.TaskLists.MovePendingTasks | components/freertos/tasks.c:2210-2234 | The loop empties the pending ready list, one task after another, into the ready lists. |
| Scheduler.TaskLists.ResumeAll | components/freertos/tasks.c:2194-2234 | One level of suspension is taken back; at the last one the pending tasks become ready. |
| Scheduler.TaskLists.CheckTasksWaitingTermination | components/freertos/tasks.c:3716-3742 | The loop empties the termination list. |
| Scheduler.TaskLists.HighestReadyPriority | components/freertos/tasks.c:133-147 | The downward scan finds the highest priority with a ready task. |

## Left out

- TimerDaemon.ExactWhenBlocking: for a timer for which the daemon has received no command from anybody else, that no full queue has refused (LostTimer.RefusedExactly says when one does), and a daemon that samples the time and serves the timer's command within 2^32 ticks; without these the 32-bit comparisons cannot tell.
- QueueProtocol.NoLostWakeUp: interrupts make at most 127 posts (fetches) per locked window; no queue is reset and no task deleted meanwhile; `xQueueGenericReset` frees every slot and wakes one sender.
- StreamProtocol.DeliversInOrder: for one writer and one reader, runs in which the tail is never put back under the writer (PutBackExact says when it is, RoomyIsUntorn how to avoid it), and no concurrent `xStreamBufferNextMessageLengthBytes`, which puts the tail back too.
- Inversion.HolderOutranksWaiters: for tasks that hold or want one mutex at a time, fixed base priorities, no suspension and no deletion; inheritance is not transitive.
- DelayedLists.StepTickSafeExact: starts from a state in which nobody listed is overdue; after an inexact step that no longer holds.
- Kernel.TasksAreConserved: says which list a task is in; the order within ready lists is the subject of `Lists` and `RoundRobin`, that of delayed lists of `DelayedLists`.
- QueueRings.RingIsSequence: an overwrite of a full queue of items without a size, which CountFits shows to break the count, is left out of the runs.
- Queues.Queue.Send: one critical section; the retry loop around it is `QueueProtocol`.
- Timers.TimerService.ProcessCommand: one command; the loop that receives them is a series of steps in `TimerDaemon`, since how often it goes round depends on time and on other tasks. The ACTIVE bit is kept but not claimed to mean "listed": an expired one-shot timer keeps it.
- `vTaskStepTick`: a jump onto a wake time or over the wrap leaves an overdue task in the current list.
- Ticks while the scheduler is suspended, and `xTaskCatchUpTicks`, only add to a count; its replay is `Scheduler.TickClock.ReplayTicks`. The RTC gate at `tasks.c:2784` is modelled by the absence of the ticks it drops.
- Scheduler.TaskLists.ResumeAll: moves the pending tasks; the alarm it resets and the ticks it replays belong to `Scheduler.TickClock`.
- The wrap of the counter of wraps after 2^64 ticks in `DelayedLists`; `TimeOuts` does wrap it.
- Event list item values in `Kernel`: waiters of mutexes are ordered by their priorities (`Mutexes`), those of queues by the value given when they join (`QueueProtocol`), those of event groups by arrival.
- Recursive mutexes, counting semaphores, `xQueueGiveFromISR`, `xQueuePeekFromISR`: counters on top of what is modelled.
- Values and actions of task notifications; their effect on the lists is in `Kernel`, that on a stream buffer's two sides in `StreamProtocol`.
- Preemption of the daemon, the writer or the reader by priority: `TimerDaemon` and `StreamProtocol` allow every interleaving.
- The ready bits are a set of priorities; the instructions that set, clear and find bits belong to a port header that is not part of this model.
- Timer and task callbacks: counted, not modelled.
- Queue sets, `xTaskAbortDelay`, co-routines: not configured.
- Resetting stream buffers, changing the trigger level, deleting queues, groups and buffers: single branches.
- Start-up before the first task runs, memory allocation, context switching, stack checks, memory protection, tracing, run-time statistics, text output, the queue registry.
