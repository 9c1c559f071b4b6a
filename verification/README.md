# A verified model of the IoT gateway and its scheduler

The gateway (`iotServer`) serves IoT nodes that connect over TCP. Each node has a FIFO of requests, a BUSY/FREE flag
and a hello countdown; one 8-bit counter and one scan timer summarise all the queues. MQTT threads put requests on a
shared list and signal the main thread through a pipe; the main thread dispatches them, sends one request at a time to
each node, gives up on a request after 20 seconds, removes nodes that do not answer HELLO, and collects marked entries
at the top of its loop. The scheduler (`iotScheduler`) keeps a task list and a subscription list, activates
switch-off timers when it sees a switch go on, and sends OFF requests when they expire.

## How it is modelled

| files | content |
|---|---|
| `GatewayTypes`, `GatewaySpec` | records and messages; every handler of the event loop as a function on states; steps and runs |
| `GatewayInvariant` | the invariant of all reachable states, kept by every step |
| `GatewayRuns`, `GatewayFree`, `GatewayScan`, `GatewayProgress`, `GatewayWakeup`, `GatewayHello`, `GatewayDispatch`, `GatewayResponse` | what holds over whole runs, one subject each |
| `GatewayNodes` | what one step of the program does to one node |
| `GatewayBalance`, `GatewayWaiting`, `GatewayOnce`, `GatewayStuck`, `GatewayOrigin` | what follows for a node over whole runs: its account of turns, bounded waiting, exactly once, what frees it while busy, where its requests come from |
| `GatewayEffects`, `GatewayReplies` | what each message, by its number, the end of a connection and a firing do, and who is told; who is answered, over whole runs |
| `SendLoop`, `MessageText` | the loop that writes a message to a node, on sizes; the JSON text of a message and its length |
| `GatewayOverflow` | two concrete runs from start-up: one leaves 256 requests waiting with the scan timer off, one writes a message for ever |
| `GatewayEngine` | the program itself: a class whose methods update heap objects and globals in place, each proved equal to its specification |
| `MqttIntake`, `Handoff` | from an MQTT message to the request list, and the mutex and pipe between the threads |
| `IntrusiveList` | `list.h` on heap nodes with `next` and `prev`, refined to sequences |
| `SchedulerTypes`, `SchedulerSpec`, `SchedulerInvariant`, `SchedulerRuns`, `SchedulerLog`, `SchedulerEngine` | the same for the scheduler |
| `OffPath` | from a timer request of the scheduler to what the gateway sends to the node |

* A run starts after start-up (`Boot`) and consists of labels: `LoopTop` (collect, select, begin a pass),
  `Visit(input)` (the next entry of the pass, with whatever the outside offers it) and `Arrive(request)` (an MQTT
  thread adds to the list). Message contents, clocks, readiness and interleaving are arbitrary. What the environment
  must guarantee (`Fits`) is fresh memory and unused descriptors on accept, and well-formed GET and SET requests from
  the MQTT threads; `IntakeFits` proves the latter of the code that makes them.
* Both builds are covered. With `LOG_ENABLE` a failing `ASSERT_DEBUG` ends the process (`Halted`); without it the
  handler goes on, and where it would read through a bad pointer the state becomes `Undefined`. A message whose text
  is written for ever leaves the process `Spinning`. Which steps do any of this is proved exactly (`StepOutcome`).
* How long the text of a message is, and whether char is signed, are parameters of a build (`Build`); whether errno is
  EINTR is part of what a scan reads at each entry (`Reading`). Results hold for every choice of them, unless they
  speak of the JSON text that the program prints (`PrintsJson`).
* `list_for_each_entry_safe` over the event list is a cursor (`todo`): what is still to be visited. Entries accepted
  during a pass go to the front and are not visited by it. `IntrusiveList.ForEachEntrySafe` proves this reading of the
  macro on the heap list.
* Each node carries history variables (what was enqueued, completed, written, how often its timer fired, how many
  HELLO requests it had been given when it last said HELLO) that no code reads.
* 8-bit and 32-bit wrap-around is written out: `mqtt_msg_count`, `caps_num`, `hello_count`, `msgtype`, `task_count`,
  `task->id`, `interval`.

## Where the code differs from what it is meant to do

The code is followed in each case; the exact condition under which it does what is meant is proved.

1. **A wake-up can be lost.** The main thread reads up to 256 characters and compares the buffer with one signal of 10
   characters. A read that finds more than 25 signals stops inside one, and from then on the pipe is out of step.
   `NoLostWakeup` holds for reads of at most 25 pending signals, `WakeupIsLost` gives runs that strand a request, and
   `BoundIsExact` states that 25 is the bound. A read of all 256 characters, as in those runs, also makes the next
   line store a zero at `buff[256]`, one past the end of the array; the model does not follow what that overwrites.
2. **The scan timer can be off with work waiting.** The counter wraps at 256. The timer law holds while at most 256
   requests wait (`TimerLawOnRuns`); `ReleaseKeepsWakeIff` gives the exact condition for one deletion, and
   `OverflowIsReachable` a run in which 257 requests and one answer leave 256 waiting with the timer off.
3. **`node_found` is never cleared**, so an unmatched request after a matched one stays on the list unanswered
   (`DispatchDrainsIff`); clearing it for every request would drain the list (`DispatchClearing`).
4. **CAPS and a closed connection free a busy node.** Its head stays SENT. In a `LOG_ENABLE` process any scan before
   the node is collected ends the process, whatever lies between (`FreedWhileBusyEndsProcess`). In the default build
   (`LOG_ENABLE` is OFF) the next scan writes the same head a second time (`CapsMakesScanWriteAgain`). A step leaves
   the record of a node right (each request written exactly once, in order, before it is completed) exactly if it
   neither writes a head that is out nor completes one that was never written (`StepKeepsRecordIff`). Requests are
   written exactly once in either build as long as no step does that (`ExactlyOnceOnRuns`), and that is so for every
   unmarked node when CAPS comes only from nodes that are not busy and answers only when they are expected
   (`ExactlyOnceWhenExpected`). "Free means nothing is SENT" holds for unmarked nodes when CAPS comes only from nodes
   that are not busy (`FreeMeansPendingOnRuns`).
5. **Line 697 of `main.c` writes `work_state` through the wrong view of a timer's union**, which destroys the timer's
   node pointer. The timer is marked by then and is collected before it is visited again (`PairingDuringPass`).
6. **`perform_timer_delete` deletes every task**, since the deletion stands outside the test
   (`DeleteRequestDeletesAll`). The comment asks for the match only; that loop is `DeleteMatchLoop` and is a filter
   (`GuardedDeleteIsFilter`). The two agree exactly when every task has the id asked for (`DeleteMeetsIntentIff`).
7. **A message may be written for ever.** The loop at the end of `sendNodeMessage` keeps the result of `write` in a
   char and compares it with the size. When every write takes all it is offered, the loop ends, after one write,
   exactly if the size is at most 127, or its remainder modulo 256 is at least 128 and errno is not EINTR (for an
   unsigned char: if it is at most 255); otherwise the main thread writes the message for ever (`LoopEndsIff`). A
   GET for nine capabilities with ids of up to 13 characters has such a size (`NineCapabilitiesAreEndless`), and so
   has a SET with one value of 151 characters, which from start-up is enough to get there (`JsonSendIsEndless`).
   It does not happen if the texts of all requests that arrive fit into a char (`ShortJsonNeverSpins`,
   `ShortTextsNeverSpin`). A write that takes only part of the text is followed by one that starts at the beginning
   of the text again, so the node receives the text only if it repeats itself (`TwoPiecesAreTheTextIff`).
8. **Every deletion of a task reads it after it has been freed**: `delete_task` makes the name of the file it removes
   from `task->id` after `free(task)`. The model counts these reads. Each deleted task is read once, and a step reads
   one exactly when it deletes something (`FreedTasksAreReadIff`, `FreedTaskIsRead`).
9. **A timer request without `reqSenderName` frees its task twice** (`TaskIsFreed`, `DoubleFreeIff`): the
   branch for the missing name frees it, and so does the test of the name's type that follows. The model counts what is
   freed again, and goes on.
10. **The timeout comment says 5 seconds, the code waits 20**; the model waits 20.

## Model

| member | source | states |
|---|---|---|
| GatewayInvariant.StepKeepsInv | iotServer/src/main.c:554-831 | every step of the event loop keeps the invariant: queue order and states, histories, counter, descriptor table, node-timer pairing, cursor |
| GatewayInvariant.RunKeepsInv | iotServer/src/main.c:554-831 | so does every run |
| GatewayInvariant.ReachedInv | iotServer/src/main.c:531-831 | every state reached from start-up satisfies it |
| GatewayInvariant.GcRemovesMarked | iotServer/include/event.h:219-234 | collection keeps exactly the unmarked entries, each unchanged |
| GatewayInvariant.LoopTopKeepsInv | iotServer/src/main.c:556-572 | after collection nothing is marked, unmarked entries are untouched, and the pass will visit the whole list |
| GatewayInvariant.TimerPointerIsLive | iotServer/src/main.c:661-671 | a timer's pointer, while it has one, leads to a live node whose timer it is |
| GatewayInvariant.GuardIsDefined | iotServer/src/gw_iotnode_interface.c:281-295 | with asserts on, a response never makes the process read past an empty queue |
| GatewayInvariant.ComputeMaxFdIsMax | iotServer/include/global.h:39-49 | the loop yields an upper bound of all descriptors that is tight, or its start value |
| GatewayInvariant.MaxFdIsRecomputed | iotServer/include/global.h:38-49 | the incrementally updated max_fd equals the recomputed one |
| GatewayInvariant.DrainLaw | iotServer/src/event.c:51-59 | deleting k of w requests one by one leaves the counter at (w - k) mod 256, and the timer armed only if some are left |
| GatewayInvariant.CapsEffect | iotServer/src/gw_iotnode_interface.c:235-279 | a CAPS message changes name, capabilities, their 8-bit number and work_state, and nothing else of the state but what is published |
| GatewayRuns.QueueStateOnRuns | iotServer/src/gw_iotnode_interface.c:669-718 | in every reachable state only a head may be SENT, and a busy node has a SENT head, so the head the timeout reads exists |
| GatewayRuns.FifoOnRuns | iotServer/include/event.h:48-64 | for every node: enqueued = completed ++ waiting; with asserts on, and as long as no message is written for ever, what was written is what was completed plus the SENT head, each once and in order (GatewayOnce treats both builds) |
| GatewayRuns.CounterOnRuns | iotServer/src/workqueue.c:104-149 | mqtt_msg_count is the number of waiting requests mod 256, and an armed timer has work |
| GatewayRuns.DescriptorsOnRuns | iotServer/src/event.c:117-218 | event_count is the list length, the set holds exactly the listed descriptors, all different, and max_fd is their greatest plus one |
| GatewayRuns.PairingAtLoopTop | iotServer/src/main.c:556-602 | after collection nothing is marked, and nodes and timers are tied one to one by mutual pointers |
| GatewayRuns.PairingDuringPass | iotServer/src/main.c:619-671 | at any time both halves carry the same mark, and a timer still to be visited points to the live node that owns it |
| GatewayRuns.MessageOutcome | iotServer/src/gw_iotnode_interface.c:178-567 | exactly which messages, by their numbers, end the process, and which read an empty queue, in either build |
| GatewayRuns.StepOutcome | iotServer/src/main.c:572-830 | exactly which steps of reachable states halt, which write a message for ever, and which follow a bad pointer |
| GatewayRuns.NeverUndefinedWithAsserts | iotServer/include/log.h:27-33 | a LOG_ENABLE process never follows a bad pointer |
| GatewayRuns.CloseWhileBusyHalts | iotServer/src/main.c:610-644 | closing leaves a free node with its head out exactly when the head was SENT; if it was busy, a scan right after ends the process, by halting unless it meets an endless message |
| GatewayRuns.CapsWhileBusyHalts | iotServer/src/gw_iotnode_interface.c:235-279 | the same for a CAPS message |
| GatewayStuck.StuckNodeEndsProcess | iotServer/src/gw_iotnode_interface.c:580-589 | with asserts, over every run: a free node with its head out stays that as long as it is listed and the process runs, and no scan is taken in that time |
| GatewayStuck.FreedWhileBusyEndsProcess | iotServer/src/gw_iotnode_interface.c:235-279 | with asserts, after CAPS from a busy node or the end of its connection, any scan before the node is collected ends the process, whatever lies between |
| GatewayFree.FreeMeansPendingOnRuns | iotServer/src/gw_iotnode_interface.c:580-589 | if CAPS comes only from nodes that are not busy, a free unmarked node has only pending requests |
| GatewayFree.RunKeepsFreeOk | iotServer/src/gw_iotnode_interface.c:580-589 | that property is kept along runs from any state that has it |
| GatewayScan.TimeTestIsLexicographic | iotServer/src/gw_iotnode_interface.c:708-713 | the scaled difference test is "20 seconds later" in the order of seconds, then nanoseconds |
| GatewayScan.ScanIsPointwise | iotServer/src/gw_iotnode_interface.c:677-740 | the in-place scan is every node's own step, independent of the others, unless it ends the process, which the first such entry decides |
| GatewayScan.ScanOutcome | iotServer/src/gw_iotnode_interface.c:580-665 | a scan ends the process in a given way exactly when the first entry, in list order, that is stuck (with asserts) or sends an endless message does so in that way |
| GatewayScan.StuckNodeEndsScan | iotServer/src/gw_iotnode_interface.c:588-589 | with asserts, a scan that meets a free node with its head out ends the process, and halts it if no waiting message is endless |
| GatewayNodes.StepOfNode | iotServer/src/main.c:554-831 | every step that does not end the process treats every node in one of four ways: a scan takes the node's own step; a word of the node takes off its head as completed or leaves the queue alone; anything else at most adds, at the tail, pending requests from the list or a HELLO; and a node that was not there is a new connection |
| GatewayOnce.StepKeepsRecordIff | iotServer/src/gw_iotnode_interface.c:677-740 | in either build a step keeps the record of a node, written = completed plus the SENT head, if and only if it does not write a head that is out and does not complete one that is not |
| GatewayOnce.RunKeepsRecord | iotServer/src/gw_iotnode_interface.c:677-740 | so does every run of which no step does either, from any state and for nodes that connect during it |
| GatewayOnce.ExactlyOnceOnRuns | iotServer/src/gw_iotnode_interface.c:671-673 | on such runs from start-up, in either build, requests leave in order and each is written exactly once, in order, before it is completed |
| GatewayOnce.ExpectedRunKeepsRecord | iotServer/src/gw_iotnode_interface.c:178-567 | in either build the record of every unmarked node stays right when CAPS comes only from nodes that are not busy and no message is one the asserts reject |
| GatewayOnce.ExactlyOnceWhenExpected | iotServer/src/gw_iotnode_interface.c:178-567 | under that condition exactly once, in order, holds in either build for every unmarked node of every reachable state |
| GatewayOnce.CapsMakesScanWriteAgain | iotServer/src/gw_iotnode_interface.c:235-279 | after CAPS from a busy node a scan that does not end the process writes the head a second time, with nothing completed in between |
| GatewayOrigin.OriginOnRuns | iotServer/src/main.c:750-816 | over every run a node is given only HELLO requests and requests that an MQTT thread put on the list, and only their messages are written to it |
| GatewayOrigin.ShortTextsNeverSpin | iotServer/src/gw_iotnode_interface.c:647-665 | if the messages of HELLO and of the requests that arrive fit into a char, no run ends in a message written for ever |
| GatewayOrigin.ShortJsonNeverSpins | iotServer/src/gw_iotnode_interface.c:647-665 | with the JSON text it is enough that the messages of the requests that arrive fit |
| GatewayProgress.ScanMakesProgress | iotServer/src/gw_iotnode_interface.c:677-740 | one scan lowers the measure of every node that has requests by exactly one, unless it is busy with a head younger than 20 seconds |
| GatewayProgress.QuietRunDrains | iotServer/src/gw_iotnode_interface.c:677-740 | over every quiet run that does not end the process, a node's measure falls by exactly the number of scans that do not pass it over, and its queue is empty exactly when these are enough |
| GatewayProgress.QuietRunRuns | iotServer/src/gw_iotnode_interface.c:677-740 | a quiet run does not end the process if no waiting message is endless and, with asserts, no node is stuck at the start |
| GatewayBalance.BalanceOnRuns | iotServer/src/gw_iotnode_interface.c:677-740 | over every run that a node outlasts, with connections, dispatches, timers, messages and collection: its measure at the end is that at the start, plus two for every request put into its queue, less one for every scan that moves it, less the turns its own words took |
| GatewayBalance.MuteNodeBalance | iotServer/src/gw_iotnode_interface.c:677-740 | a node that says nothing is moved by scans alone, by each exactly once, and its queue is empty exactly when they are as many as the turns it needed and got |
| GatewayBalance.SilentGatewayRests | iotServer/src/main.c:652-733 | when nobody connects and every node says nothing until its timer has fired once more than hello_count, the next collection leaves no node, nothing waiting, the counter at zero and the scan timer off, whatever else happened |
| GatewayWaiting.SpacedScansServe | iotServer/src/gw_iotnode_interface.c:707-718 | in terms of scan times, over every run that a node outlasts without being freed unanswered: of the scans that can be counted 20 seconds apart each takes a turn, but perhaps the first, and every request that comes in adds at most two |
| GatewayWaiting.WaitingIsBounded | iotServer/src/gw_iotnode_interface.c:677-740 | over such a run, once 2n + 1 scans have been taken 20 seconds apart, each of the n requests that waited at the start has been completed, whatever has come in since |
| GatewayWaiting.WaitingInScans | iotServer/include/event.h:48-64 | the same in numbers of scans: 2gn + 1 are enough if scans g apart are 20 seconds apart |
| GatewayWaiting.QuietRunFinishes | iotServer/src/gw_iotnode_interface.c:677-740 | corollary for stretches in which nothing is ready but the scan timer: 2 * (longest queue) + 1 scans 20 seconds apart empty every queue, zero the counter and disarm the timer |
| GatewayWaiting.FinishesInScans | iotServer/include/event.h:48-64 | the same in numbers of scans |
| SendLoop.LoopEndsIff | iotServer/src/gw_iotnode_interface.c:647-665 | with whole writes the loop ends exactly on the sizes that are not endless, and then after one write of the whole text; otherwise it writes without end |
| SendLoop.LoopExamples | iotServer/src/gw_iotnode_interface.c:647-665 | 300 characters are written for ever, 200 once |
| MessageText.TextLength | iotServer/src/gw_iotnode_interface.c:593-647 | the length of the JSON text of every HELLO, GET and SET message, summed over its items |
| MessageText.NineCapabilitiesAreEndless | iotServer/src/gw_iotnode_interface.c:600-647 | every GET for nine capabilities with ids of 1 to 13 characters is written for ever, whether char is signed or not and whatever errno is |
| MessageText.OneValueIsEndlessIff | iotServer/src/gw_iotnode_interface.c:616-647 | a SET of one capability has 101 characters beside sender, id and value, and is written for ever exactly on the endless lengths |
| SendLoop.OneCallDecides | iotServer/src/gw_iotnode_interface.c:647-665 | whether the first write ends the loop shows whether it ever ends |
| SendLoop.TwoPiecesAreTheTextIff | iotServer/src/gw_iotnode_interface.c:648-664 | a text written in two pieces is received as it is exactly when it goes on after the first piece as it began |
| SendLoop.WriteText | iotServer/src/gw_iotnode_interface.c:647-665 | the loop as written, watched for some calls, is the specified one |
| GatewayWakeup.ReleaseKeepsWakeIff | iotServer/src/workqueue.c:104-149 | deleting one request keeps "work means armed" exactly when the number left is not a positive multiple of 256 |
| GatewayWakeup.DrainKeepsWakeIff | iotServer/src/event.c:51-59 | the same for deleting a whole queue |
| GatewayWakeup.DisarmedWithWorkLeft | iotServer/src/workqueue.c:104-149 | of 257 waiting requests one is deleted: 256 are left and the timer is off |
| GatewayWakeup.StepKeepsWake | iotServer/src/main.c:554-831 | while at most 256 requests wait, no step leaves work without the timer |
| GatewayWakeup.TimerLawOnRuns | iotServer/include/event.h:48-64 | over runs in which at most 256 requests wait, the timer is armed exactly when some request waits |
| GatewayOverflow.TurnEffect | iotServer/src/main.c:572-830 | a turn of the loop in which one entry is ready does the step of that entry and nothing else |
| GatewayOverflow.LoadedRun | iotServer/src/main.c:554-816 | from start-up, accepting a connection and dispatching n requests for it leaves them waiting in order at a free node |
| GatewayOverflow.OverflowIsReachable | iotServer/src/workqueue.c:104-149 | from start-up there is a run that leaves 256 requests waiting with the timer off |
| GatewayOverflow.EndlessSendIsReachable | iotServer/src/gw_iotnode_interface.c:647-665 | from start-up one connection, one SET with a text of an endless size and one scan leave the main thread writing for ever |
| GatewayOverflow.JsonSendIsEndless | iotServer/src/gw_iotnode_interface.c:609-665 | with the JSON text, one connection and one SET with one value of 151 characters are enough, whether char is signed or not |
| GatewayHello.SilentStepEffect | iotServer/src/main.c:652-733 | a silent node is marked by a step exactly when its timer fires at zero, after three firings and three HELLO requests put into its queue since its last HELLO; otherwise count and firings move together |
| GatewayHello.SilentNodeCountdown | iotServer/src/main.c:652-733 | over any run of a silent node it stays alive exactly as long as its timer fired no more often than hello_count said, and until then the HELLO requests put into its queue grow by exactly the firings |
| GatewayHello.CountdownOnRuns | iotServer/include/event.h:28-32 | in every reachable state hello_count plus the firings since connect or last HELLO is 3, and 3 - hello_count HELLO requests were put into the queue since then |
| GatewayDispatch.DispatchPartitions | iotServer/src/main.c:750-815 | each request goes to the tail of the queue of the first listed node with the name it asks for, in order; those whose name no node has are, before the first match, dropped with NodeNotFound to their sender and broker, and after it stay in order |
| GatewayDispatch.MatchIsByName | iotServer/src/main.c:765-778 | the search yields the first entry of the list that is an IoT node with exactly that name, and none exactly when no listed node has it |
| GatewayDispatch.DispatchDrainsIff | iotServer/src/main.c:753-815 | the list is emptied exactly when no request whose name no node has stands after one whose name some node has; clearing the flag always empties it |
| GatewayDispatch.DispatchClearing | iotServer/src/main.c:753-815 | with the flag cleared for every request, all unmatched ones are answered in order and the rest delivered in order |
| GatewayDispatch.DispatchConserves | iotServer/src/main.c:750-815 | requests waiting, listed and answered add up to the same number before and after |
| GatewayResponse.TranslationIsAllOrNothing | iotServer/src/gw_iotnode_interface.c:310-379 | the array is translated exactly when every item is well formed, item by item, in order, with absent user names dropped and absent timestamps 0 |
| GatewayResponse.GetResponseIsAtomic | iotServer/src/gw_iotnode_interface.c:281-405 | either nothing but the status changes, or the head leaves, the node is free, the counter moves, and one reply with all items goes to the sender and broker of that request |
| GatewayResponse.SetResponseIsAtomic | iotServer/src/gw_iotnode_interface.c:407-554 | the same for SET, with the reply to the broadcast topic of both brokers |
| GatewayResponse.ReplyOnlyWithCompletion | iotServer/src/gw_iotnode_interface.c:281-405 | no step adds a GET reply except one that completes the request answered, and then exactly one |
| GatewayResponse.RepliesAnswerOnce | iotServer/src/gw_iotnode_interface.c:281-405 | over every run the GET replies answer, one each and in order, requests taken off their queues by a message: none twice, each to its own sender and broker |
| GatewayEffects.CapsMessage | iotServer/src/gw_iotnode_interface.c:235-279 | number 1: name and capabilities of the message, the latter up to the first unknown one, are taken over and announced on both brokers, and the node is free; nothing else changes |
| GatewayEffects.HelloMessage | iotServer/src/gw_iotnode_interface.c:208-233 | number 2: the countdown is 3 again and the head is completed; with asserts the process goes on exactly if the node is busy with a HELLO request |
| GatewayEffects.GetResponseMessage | iotServer/src/gw_iotnode_interface.c:281-405 | number 4: a well-formed answer completes the head with exactly one reply, to the sender and broker of that request; otherwise only the status may change |
| GatewayEffects.SetResponseMessage | iotServer/src/gw_iotnode_interface.c:407-554 | number 6: a well-formed answer completes the head and is announced on both brokers |
| GatewayEffects.OtherMessage | iotServer/src/gw_iotnode_interface.c:407-567 | number 7: a well-formed notification is announced on both brokers and changes nothing else; every other number, or none, changes nothing |
| GatewayEffects.CloseEffect | iotServer/src/main.c:610-648 | node and timer, and nothing else, are marked, the node is free, and its going is announced on both brokers under its name |
| GatewayEffects.FiringEffect | iotServer/src/main.c:652-733 | above zero the countdown falls by one and one HELLO request goes to the back of the queue of the timer's own node; at zero both are marked, the queue stays, and the node's going is announced |
| GatewayEffects.AcceptEffect | iotServer/src/main.c:576-602 | a connection lists the timer and the node in front, the node free, known by its descriptor, with countdown 3 and nothing waiting, each pointing to the other; nothing else changes but the descriptor table |
| GatewayEffects.StepByOffer | iotServer/src/main.c:572-830 | what an entry is offered reaches the handler for its kind, and nothing else that it may be offered has an effect |
| GatewayReplies.OwedOnRuns | iotServer/src/gw_iotnode_interface.c:389-397 | over every run whatever is published is for all listeners, or is a GET reply or a NodeNotFound for the sender of a request that arrived, by its broker and, for the latter, with the name it asked for |
| GatewayReplies.RepliesReachTheirSender | iotServer/src/mqttfunc.c:558-590 | from the MQTT message to its reply: each reply of a run goes to the senderid of one of the GET or SET messages taken in, by the connection that message came by |
| MqttIntake.IntakeFits | iotServer/src/mqttfunc.c:533-690 | what the intake makes of any message is a pending GET or SET with its data |
| MqttIntake.IntakeMeans | iotServer/src/mqttfunc.c:533-690 | a message becomes a request exactly when its number is 1 or 3 and nothing it needs is missing or ill-typed; 1 makes a GET and 3 a SET, with the sender and node name of the message and the connection it came by |
| MqttIntake.ParamsAreReversed | iotServer/src/mqttfunc.c:619-684 | adding each item at the front reverses the items |
| MqttIntake.ItemsReachTheNodeReversed | iotServer/src/gw_iotnode_interface.c:599-636 | the message finally written to the node holds the items of the MQTT message in exactly reverse order, with values for SET and none for GET |
| MqttIntake.ArrivalOrder | iotServer/src/mqttfunc.c:638-687 | between dispatches the list is the new GETs reversed, what was there, the new SETs in order; nothing else changes |
| Handoff.ReadLeavesWholeSignalsIff | iotServer/src/main.c:736-744 | a read of n pending signals leaves whole signals exactly when n <= 25 |
| Handoff.WholeSignalsAreRecognised | iotServer/src/main.c:742-744 | any number of whole signals read at once is recognised |
| Handoff.StepKeepsSound | iotServer/src/mqttfunc.c:306-329 | one step of any producer or of the main thread keeps the mutex, the alignment of the pipe and "unseen work has a scan coming" |
| Handoff.NoLostWakeup | iotServer/src/mqttfunc.c:638-647 | over every interleaving of n producers whose reads find at most 25 signals, unseen work has a scan coming, and at rest all work has been seen |
| Handoff.WakeupIsLost | iotServer/src/main.c:734-816 | for 26 to 50 pending signals there is a run at whose end everything rests and a request was never seen |
| Handoff.BoundIsExact | iotServer/src/main.c:736-744 | reads of at most b signals never strand a request if and only if b <= 25 |
| GatewayEngine.Gateway.constructor | iotServer/src/main.c:531-548 | start-up makes the state the runs begin with |
| GatewayEngine.Gateway.AddEvent | iotServer/src/event.c:117-192 | the new entry is listed first and the table updated, as specified |
| GatewayEngine.Gateway.DelNodeRequests | iotServer/src/event.c:51-59 | the loop empties the queue and moves counter and timer by the drain law |
| GatewayEngine.Gateway.DelNodeCaps | iotServer/src/event.c:83-106 | the loop empties the capabilities and leaves the requests |
| GatewayEngine.Gateway.RecomputeMaxFd | iotServer/include/global.h:39-49 | the loop assigns the recomputed value |
| GatewayEngine.Gateway.DelEvent | iotServer/src/event.c:194-218 | unlisting, teardown and recomputation together are the specified deletion |
| GatewayEngine.Gateway.GcEventsList | iotServer/include/event.h:219-234 | the loop that deletes while it iterates is the specified collection |
| GatewayEngine.Gateway.EnqueueIotRequest | iotServer/include/event.h:48-64 | the request is at the tail, the counter is one up mod 256, and the timer is armed when it shows 1 |
| GatewayEngine.Gateway.DeleteRequest | iotServer/src/workqueue.c:104-149 | the head is gone, the counter one down mod 256, the timer disarmed when it shows 0 |
| GatewayEngine.Gateway.TranslateReqArray | iotServer/src/gw_iotnode_interface.c:310-379 | the loop with its early exits is the specified translation |
| GatewayEngine.Gateway.ParseAndFillNodeCaps | iotServer/src/gw_iotnode_interface.c:94-176 | the loop adds capabilities at the front until the first bad item |
| GatewayEngine.Gateway.OnHelloMessage | iotServer/src/gw_iotnode_interface.c:208-233 | the HELLO handler is its step |
| GatewayEngine.Gateway.OnCapsMessage | iotServer/src/gw_iotnode_interface.c:235-279 | the CAPS handler is its step |
| GatewayEngine.Gateway.CheckResponse | iotServer/src/gw_iotnode_interface.c:285-295 | the three asserts let a response through exactly as specified |
| GatewayEngine.Gateway.OnGetResponse | iotServer/src/gw_iotnode_interface.c:281-405 | the GET response handler is its step |
| GatewayEngine.Gateway.OnSetResponseOrNotif | iotServer/src/gw_iotnode_interface.c:407-554 | the shared handler is the SET response step or the notification step |
| GatewayEngine.Gateway.ProcessIotMsg | iotServer/src/gw_iotnode_interface.c:178-567 | the whole message handler is its step |
| GatewayEngine.Gateway.BuildNodeMessage | iotServer/src/gw_iotnode_interface.c:593-636 | the loops over the parameters build the specified message |
| GatewayEngine.Gateway.SendNodeMessage | iotServer/src/gw_iotnode_interface.c:569-675 | the loop is entered; if it ends the message is written once, the node busy, the head SENT with its time stamp, and if not the process spins |
| GatewayEngine.Gateway.TryDoSomeWork | iotServer/src/gw_iotnode_interface.c:677-740 | the loop over the list is the specified scan, and every head it reads exists |
| GatewayEngine.Gateway.Accept | iotServer/src/main.c:576-602 | node and timer are listed and tied to each other |
| GatewayEngine.Gateway.OnDisconnect | iotServer/src/main.c:610-648 | both halves are marked, the going-down message is sent twice, the node freed |
| GatewayEngine.Gateway.OnHelloTimer | iotServer/src/main.c:652-733 | the handler is its step, and its node pointer can be followed |
| GatewayEngine.Gateway.SearchNode | iotServer/src/main.c:765-778 | the first listed IoT entry whose name is the one asked for, and none exactly when no entry has it |
| GatewayEngine.Gateway.DispatchWork | iotServer/src/main.c:750-815 | the nested loops are the specified dispatch |
| GatewayEngine.Gateway.ProcessMqttMsg | iotServer/src/mqttfunc.c:533-690 | the intake with its loops adds the specified request at the specified end, or nothing |
| GatewayEngine.Gateway.BeginPass | iotServer/src/main.c:556-572 | the top of the loop is the specified step |
| GatewayEngine.Gateway.VisitNext | iotServer/src/main.c:572-830 | the body of the pass is a step that the runs allow |
| GatewayEngine.Gateway.RunPass | iotServer/src/main.c:554-831 | a whole turn of the loop, with MQTT messages arriving between any two visits, is a run, so everything proved of runs holds of the program |
| IntrusiveList.LinkBetween | iotServer/include/list.h:94-102 | the new entry stands between its neighbours and the outer links are kept |
| IntrusiveList.ListAdd | iotServer/include/list.h:112-115 | cons |
| IntrusiveList.ListAddTail | iotServer/include/list.h:125-128 | snoc |
| IntrusiveList.ListDel | iotServer/include/list.h:150-155 | the entry is taken out and its pointers are poisoned |
| IntrusiveList.ListDelInit | iotServer/include/list.h:163-167 | the entry is taken out and is an empty list |
| IntrusiveList.ListMove | iotServer/include/list.h:174-178 | out of one list, to the front of another |
| IntrusiveList.ListMoveTail | iotServer/include/list.h:185-190 | out of one list, to the back of another |
| IntrusiveList.ListMoveToFront | iotServer/include/list.h:174-178 | within one list, to the front |
| IntrusiveList.ListMoveToBack | iotServer/include/list.h:185-190 | within one list, to the back |
| IntrusiveList.DisjointRingSurvives | iotServer/include/list.h:94-240 | a list none of whose nodes an operation touches is the list it was |
| IntrusiveList.ListEmpty | iotServer/include/list.h:196-199 | the test is true exactly for the empty list |
| IntrusiveList.Splice | iotServer/include/list.h:201-213 | concatenation in front |
| IntrusiveList.ListSpliceInit | iotServer/include/list.h:233-240 | concatenation in front, and the source is empty afterwards |
| IntrusiveList.ForEachEntrySafe | iotServer/include/list.h:344-348 | with a body that deletes the visited entry or inserts any number of entries at the head, exactly the entries present at the start are visited, once and in order, the loop ends, and the list is the inserted ones before the kept ones |
| SchedulerRuns.RunKeepsInv | iotScheduler/src/main.c:398-450 | every run of messages and ticks keeps the scheduler's invariant |
| SchedulerRuns.ListsInLockstep | iotScheduler/src/mqttfunc.c:868-913 | event_subsc_list is, in order, the subscriptions of the switch-off tasks of task_list, each pointing back to its own live task, and neither list ever leads to a freed one |
| SchedulerRuns.FreedTasksAreReadIff | iotScheduler/src/mqttfunc.c:714-731 | the reads of freed tasks are as many as the deletions, and a step makes one exactly when it is a delete request with an integer id on a non-empty list or a tick at which some ONCE task is due |
| SchedulerRuns.FreedTaskIsRead | iotScheduler/src/mqttfunc.c:714-731 | one such run: a timer is set and deleted |
| SchedulerRuns.TaskIsFreed | iotScheduler/src/mqttfunc.c:799-889 | the task made for a set request is freed not at all if the request is granted, twice if it has no reqSenderName, and once otherwise |
| SchedulerRuns.DoubleFreeIff | iotScheduler/src/mqttfunc.c:801-815 | free is called on a task that was freed exactly by set requests without reqSenderName, once by each |
| SchedulerRuns.DeadlinesOnRuns | iotScheduler/src/mqttfunc.c:423-442 | an active task is due its interval after the first matching ON since creation or last firing; fires <= activations <= fires + 1 |
| SchedulerRuns.FiringOnRuns | iotScheduler/src/main.c:407-449 | no OFF request precedes its deadline; a ONCE task sends at most one and is then in neither list |
| SchedulerRuns.IdsIncrease | iotScheduler/src/mqttfunc.c:307-318 | below 2^31 creations ids increase strictly along the list and are at most task_count |
| SchedulerRuns.IdsAreDistinct | iotScheduler/src/mqttfunc.c:307-318 | no two live tasks share an id until the 32-bit counter has gone round |
| SchedulerRuns.BroadcastReachesTasks | iotScheduler/src/mqttfunc.c:1025-1067 | a broadcast changes a task exactly when the task is a switch-off timer, the number is 4 or 7, the message names the task's node, and some item is the task's capability with ON; then an inactive task runs for its interval from that time on and an active one keeps its deadline; nothing else changes |
| SchedulerRuns.SecondStepsEveryTask | iotScheduler/src/main.c:407-449 | the tick that deletes while it iterates is every task's own automaton: of the running switch-off timers whose time has come the ONCE ones go and the others are inactive, all others stay as they are, in order, and each of them adds one OFF request with its own node, capability, sender, deadline and the time, in list order |
| SchedulerLog.AccountOnRuns | iotScheduler/src/mqttfunc.c:799-928 | over every run each live task is what the set request with its number asked for, and each OFF request goes to the node and capability, and in the name of the sender, that this request named; the requests granted are those with all names and a type and, for type 0, a time that is not zero |
| OffPath.OffReachesTheNode | iotScheduler/src/mqttfunc.c:320-365 | over every run of the scheduler an OFF request is taken in by the gateway as a SET for the node that the timer request named, and what the node is sent is one item: that request's capability, OFF |
| SchedulerInvariant.TickIsPointwise | iotScheduler/src/main.c:407-449 | the same from any position of the list |
| SchedulerInvariant.NotifyIsPointwise | iotScheduler/src/mqttfunc.c:1044-1064 | the loop over the subscriptions acts on each target by itself |
| SchedulerInvariant.SubsWithout | iotScheduler/src/mqttfunc.c:714-731 | taking out a task takes out exactly its subscription |
| SchedulerInvariant.FiringKeepsLog | iotScheduler/src/main.c:423-440 | after a firing the log of OFF requests still agrees with every task's history |
| SchedulerInvariant.DeleteRequestDeletesAll | iotScheduler/src/mqttfunc.c:753-764 | the loop as written empties both lists for any id |
| SchedulerInvariant.GuardedDeleteIsFilter | iotScheduler/src/mqttfunc.c:753-764 | the loop as its comment describes it keeps exactly the tasks with another id, in order, in lockstep |
| SchedulerInvariant.DeleteMeetsIntentIff | iotScheduler/src/mqttfunc.c:753-764 | the two agree exactly when every task has the id asked for |
| SchedulerEngine.Scheduler.AddTask | iotScheduler/src/mqttfunc.c:896-913 | allocation, subscription and listing together are the specified creation |
| SchedulerEngine.Scheduler.OnSetRequest | iotScheduler/src/mqttfunc.c:799-928 | every early exit and the creation are the specified step |
| SchedulerEngine.Scheduler.RemoveTask | iotScheduler/src/mqttfunc.c:714-731 | unlisting and freeing the task and its subscription, and the read of the freed task's id, are the specified removal |
| SchedulerEngine.Scheduler.PerformTimerDelete | iotScheduler/src/mqttfunc.c:733-766 | the loop as written is the specified one |
| SchedulerEngine.Scheduler.ActivateSwitchOffTimer | iotScheduler/src/mqttfunc.c:423-434 | an inactive task gets its deadline, an active one keeps it |
| SchedulerEngine.Scheduler.DeActivateSwitchOffTimer | iotScheduler/src/mqttfunc.c:436-442 | the task is inactive again and nothing else of it changes |
| SchedulerEngine.Scheduler.MatchCapIdValue | iotScheduler/src/mqttfunc.c:969-994 | true exactly when some item has the capability asked for and the value ON |
| SchedulerEngine.Scheduler.EventMatches | iotScheduler/src/mqttfunc.c:1053-1056 | true exactly for number 4 or 7, the node of the subscription, and an item that is its capability with ON |
| SchedulerEngine.Scheduler.ProcessSubscriptions | iotScheduler/src/mqttfunc.c:1025-1067 | the loop is the specified broadcast step, and every task pointer it follows is live |
| SchedulerEngine.Scheduler.TickTasks | iotScheduler/src/main.c:407-449 | the loop is the specified tick |

## Left out

- GatewayInvariant.MaxFdIsRecomputed: descriptors are the non-negative ones of successful accept and timerfd_create calls; the select limit FD_SETSIZE is not modelled.
- GatewayWaiting.QuietRunFinishes: speaks of runs in which no hello timer fires, and that of a listed node fires every 20 seconds; FinishesInScans and GatewayProgress.QuietRunDrains likewise. The statements about all runs are WaitingIsBounded, BalanceOnRuns and SilentGatewayRests.
- GatewayWaiting.WaitingIsBounded: a node that CAPS frees while it is busy is excepted, since its head is then written again (GatewayOnce).
- MessageText.TextLength: the text is that of jansson's json_dumps with an indent of 1; that jansson prints so is not proved, and that it refuses strings that are not UTF-8 is not modelled.
- GatewayHello.SilentNodeCountdown: speaks of nodes that are not closed meanwhile; a closed connection marks the node at once.
- Handoff.WakeupIsLost: exhibits losing runs for 26 to 50 pending signals, where one more read empties the pipe; for more signals only that the read leaves a broken signal is proved (ReadLeavesWholeSignalsIff).
- GatewayRuns.FifoOnRuns: "each once" counts what is offered to the socket in whole writes; what a failing or partial write does to the text is stated for the loop alone, in SendLoop.
- Handoff.NoLostWakeup: a read takes everything pending up to 256 characters and a write is whole; a full pipe that blocks a producer is not modelled.
- IntrusiveList.ListMove: the entry comes from a list disjoint from the target; moving within one list is ListMoveToFront.
- IntrusiveList.ListMoveTail: likewise; moving within one list is ListMoveToBack.
- IntrusiveList.ListDel: the poison values are null.
- GatewayEngine.Gateway.SendNodeMessage: each call of write takes all it is offered; partial writes are treated in SendLoop alone.
- GatewayEngine.Gateway.AddEvent: timerfd_settime and malloc succeed.
- GatewayEngine.Gateway.Accept: accept, timerfd_create, timerfd_settime and malloc succeed; a new node's name is arbitrary memory.
- GatewayEngine.Gateway.ProcessMqttMsg: messages on the topology topic and their replies are not modelled, nor is iotnode_id, which nothing reads; items without an id or a value are not modelled, since the code hands a null pointer to strncpy.
- SchedulerEngine.Scheduler.OnSetRequest: the sent reply and the saved file are I/O; what a double free does to the heap is not followed.
- SchedulerEngine.Scheduler.RemoveTask: what the read of a freed task yields is not followed, nor the removal of the file named after it.
- SchedulerEngine.Scheduler.MatchCapIdValue: items carry both strings; the null pointers strcmp would get otherwise are not modelled.
- Queues, event list, work list, task list and subscription list of the two engines are sequences, with the events, timers, tasks and subscriptions on the heap; IntrusiveList proves separately that the list operations of list.h implement those on sequences, and request and parameter nodes are values.
- Freeing memory: deleteReqBeforeEnqueue and freeRequestParamList have no effect on values.
- Sockets, select, timerfd, mosquitto and JSON parsing: replaced by offered inputs, an armed flag and already parsed messages with missing and wrong-typed fields.
- String lengths, buffer sizes and truncation, except for the pipe buffer; names are compared as whole strings.
- The scheduler's threads: each message and each tick is one step, although the tick takes no lock in the source. Its get replies, its JSON file store, and the empty branches for ON and OFF timers are left out.
- The JSON of the messages to the brokers, and the topic and gateway name an OFF request is published under: a message to a broker is a record of what it carries.
- Configuration, logging, init scripts, MQTT connection and topic subscription, and the hlist half of list.h, which the code does not use.
