# Spine verification

Dafny models of the parts of spine, Cacti's multithreaded poller, whose correctness is not
visible from any one function: the concurrent protocols of a polling cycle and the loops
that batch, count, classify and summarise what was collected. `dafny verify dfyconfig.toml`
checks everything.

A protocol is a state machine. Its steps are the sections that hold a lock and the system
calls between them; a run is any sequence of enabled steps, so theorems about runs hold for
every interleaving of any number of threads, with timeouts and failed calls as free choices.
Code that changes variables or records step by step is a method or a class, proved equal to
the function or step that the theorems are about.

| file | part of spine |
|---|---|
| `IcmpReply`, `IcmpDemux`, `IcmpShared` | raw ICMP sockets shared by all pinging threads: reply classifiers, the hand-over protocol, the record under LOCK_ICMP |
| `WorkerPermits`, `PollerLocks` | thread permits, startup permit and connection pools; the locked records |
| `DevicePartition`, `DeviceCompletion` | splitting a device's due items into windows, launching its threads, completing it and advancing its schedule |
| `SnmpMulti`, `SnmpCount`, `SnmpBatch` | multi-OID gets with error-index removal, subtree counts, batching by session |
| `ScriptServer`, `ScriptSelect` | the pool of PHP script servers: commands, restarts, descriptors; choosing a server and reading a line |
| `ChildSpawn`, `ChildRegistry` | script children: the calls that spawn them, registry, closers, the parking list swept in place |
| `OutputWriter`, `Transfer` | insert batches for collected values, and for status sent to the main server |
| `Availability` | host status thresholds, events and statistics over poll histories |
| `ResultClassifier` | what a returned text is and what is stored for it |
| `Checksum` | the Internet checksum of echo requests |

The network, the database, Net-SNMP, the kernel, child processes and clocks are parameters:
an agent or a database is a function from the request or the number of the call to an
outcome, and a descriptor, process id or timeout is any value the caller of the step picks
within the contract of the system call.

## Model

| member | source | states |
|---|---|---|
| `IcmpReply.OursIffEchoReply` | src/ping/icmp_shared.c:50-90 | a datagram is classified as ours if and only if it is an IPv4 header of its own stated length that announces ICMP, followed by an echo reply with this id and sequence (section 3.1 of RFC 791, the Echo section of RFC 792) |
| `IcmpReply.SnapKeepsVerdict` | src/ping/icmp_shared.c:50-162 | keeping the first 128 bytes of a datagram changes the verdict of neither the IPv4 nor the IPv6 classifier |
| `IcmpDemux.DispatchKeeps` | src/ping/icmp_shared.c:334-366 | answering a waiter keeps the invariant: one reader per socket, nobody answered asleep, no lost wake-up |
| `IcmpDemux.HandoffRestores` | src/ping/icmp_shared.c:287-303 | a hand-over restores the no-lost-wake-up part of the invariant after the reader role was given up |
| `IcmpDemux.DecideKeeps` | src/ping/icmp_shared.c:378-420 | a thread at the head of the wait loop keeps the invariant, whether it leaves, sleeps or becomes the reader |
| `IcmpDemux.LinkKeeps` | src/ping/icmp_shared.c:305-314 | registering a waiter keeps the invariant |
| `IcmpDemux.UnlinkKeeps` | src/ping/icmp_shared.c:316-324 | taking a waiter off the list keeps the invariant; the hand-over after it is part of the unregister step in `StepKeeps` |
| `IcmpDemux.StepKeeps` | src/ping/icmp_shared.c:287-465 | every locked section of register, await and unregister keeps the invariant |
| `IcmpDemux.ReaderRoleIsNeverLost` | src/ping/icmp_shared.c:287-465 | in every run each socket has at most one reader, exactly when its reading flag is set, no blocked waiter is answered, and on an idle socket with a blocked unanswered waiter some sleeping waiter already has a wake-up pending |
| `IcmpDemux.DatagramAnswersOne` | src/ping/icmp_shared.c:334-366 | a datagram answers at most one waiter, only one whose request it matches, and always one when some unanswered waiter matches |
| `IcmpDemux.SnapDispatches` | src/ping/icmp_shared.c:428-452 | dispatching the 128 bytes kept answers the same waiter as dispatching the whole datagram |
| `IcmpDemux.WokenThreadActs` | src/ping/icmp_shared.c:378-420 | whichever woken thread runs on an idle socket, and whatever its clock says, it takes the socket over or leaves and passes the wake-up on |
| `IcmpDemux.SomeoneCanAct` | src/ping/icmp_shared.c:287-303 | while a socket is idle and has a sleeper, some woken thread of it can run |
| `IcmpDemux.HandoverSettles` | src/ping/icmp_shared.c:287-420 | every sequence of woken threads running, in any order and with any clocks, passes through a state in which the socket is served or has no sleeper, once it is longer than the number of waiters |
| `IcmpShared.RemoveFrom` | src/ping/icmp_shared.c:316-330 | the link walk removes the waiter and keeps the order of the rest |
| `IcmpShared.Shared.Handoff` | src/ping/icmp_shared.c:290-303 | the loop over waiters takes the hand-over step of the protocol |
| `IcmpShared.Shared.Register` | src/ping/icmp_shared.c:305-314 | takes the register step |
| `IcmpShared.Shared.Unregister` | src/ping/icmp_shared.c:316-330 | takes the unregister step |
| `IcmpShared.Shared.Dispatch` | src/ping/icmp_shared.c:334-366 | the search loop answers the waiter the protocol's dispatch answers |
| `IcmpShared.Shared.DispatchBatch` | src/ping/icmp_shared.c:428-452 | dispatching a drained batch is dispatching its datagrams in order, skipping empty ones |
| `IcmpShared.Shared.Decide` | src/ping/icmp_shared.c:378-420 | one turn of the wait loop takes the decide step, and ends the loop exactly when answered or expired |
| `WorkerPermits.FirstFree` | src/database/pool.c:86-120 | the pool scan finds the lowest free connection, or none when none is free |
| `WorkerPermits.FreeOneExists` | src/database/pool.c:86-120 | with no more live threads than connections a thread that holds none finds a free one |
| `WorkerPermits.StepKeeps` | src/poller/workers.c:70-198 | every launcher and worker step keeps permits conserved and pools in agreement with their holders |
| `WorkerPermits.PermitsConserved` | src/poller/workers.c:129-198 | in every run available plus launcher-held permits plus live workers equal the threads, no two workers share a connection, and the wait returns only when no worker is live |
| `WorkerPermits.ConnectionAlwaysFound` | src/poller/poller.c:334-348 | in every run a live worker that asks a pool is never refused |
| `PollerLocks.Permits.TryAcquire` | src/platform/thread.c:48-57 | takes a permit exactly when one is available |
| `PollerLocks.Permits.Release` | src/platform/thread.c:59-68 | adds a permit unless the count is at the largest int |
| `PollerLocks.ConnectionPool.Get` | src/database/pool.c:86-120 | hands out the lowest free connection and marks only it taken |
| `PollerLocks.ConnectionPool.Release` | src/database/pool.c:127-139 | marks exactly that connection free |
| `PollerLocks.DeviceRecord.Complete` | src/poller/poller.c:216-237 | the locked section takes the completion step of the protocol and reports whether this partition is last and whether it updates the schedule, which it never does with exactly one active profile |
| `PollerLocks.DeviceRecord.FlagWriteFailure` | src/poller/poller.c:274-281 | a failed completion write takes back completeness and sets the failure flags |
| `DevicePartition.CeilCovers` | src/poller/workers.c:84-102 | the divided count is the least window size whose windows reach the count |
| `DevicePartition.PrepareCovers` | src/poller/workers.c:109-127 | the windows of the prepared threads together reach the counted items |
| `DevicePartition.WindowsCoverOnce` | src/database/cacti_query.c:34-40 | the windows of a device's threads, in thread order, concatenate to exactly its selected rows |
| `DevicePartition.ExactlyOneWindow` | src/database/cacti_query.c:34-40 | every selected row lies in the window of exactly one thread |
| `DevicePartition.PlanAt` | src/poller/workers.c:243-338 | the launch order is every thread launched for every device, device by device and thread by thread |
| `DevicePartition.AllLaunchedIffSteady` | src/poller/workers.c:109-127 | all recorded threads of a device are launched if and only if no recount before the last thread finds a positive number of items below the recorded thread count |
| `DevicePartition.ShrinkingCountLosesThread` | src/poller/workers.c:109-127 | a device recorded with three threads, of which a recount of two items leaves two launched |
| `DevicePartition.PingOnlyLaunchesOne` | src/poller/workers.c:110-111 | a poller that only pings records and launches one thread per device |
| `DevicePartition.PreparePartition` | src/poller/workers.c:109-127 | each thread's counts lower the thread count to a positive number of items below it; the first thread fixes the window size, later ones keep it while more than one thread is left, and a single thread always takes the count |
| `DevicePartition.LaunchPollWorkers` | src/poller/workers.c:243-338 | for any counts found for each thread of each device, the threads launched are a prefix of the launch order, all of it unless a start failed, and each device is recorded with the thread count and window its first thread was given |
| `DeviceCompletion.DueOncePerStep` | src/database/cacti_query.c:67-69 | an item whose step is a multiple of the interval is due on exactly every such poll |
| `DeviceCompletion.ScheduleClosedForm` | src/database/cacti_query.c:67-69 | the next-step value after any number of polls, in closed form |
| `DeviceCompletion.StepKeeps` | src/poller/poller.c:198-282 | every select, write, completion and flagging step of every partition keeps the device invariant |
| `DeviceCompletion.ScheduleAdvancesOnceAfterEverything` | src/poller/poller.c:216-246 | in every run the schedule advances at most once, and never with exactly one active profile; when it does or is about to, every partition succeeded and together they selected every due item exactly once |
| `DeviceCompletion.CompleteIffEverythingSucceeded` | src/poller/poller.c:198-282 | once nothing runs, the device is complete if and only if every partition completed without any failed select or write, and a failure flag means a failing exit code |
| `DeviceCompletion.AllSelectedIff` | src/poller/workers.c:84-127 | the windows of a device's threads hold every item it should select if and only if it is not the case that one profile is active, one thread polls the device and only some of its items are due |
| `DeviceCompletion.OneThreadMissesItem` | src/poller/workers.c:123-126 | a device with one active profile, one thread and one of two items due selects only one of them |
| `SnmpMulti.FixMatchesMark` | src/snmp/requests.c:429-485 | removing the indexed binding from the request and marking the indexed cell keep request and outstanding OIDs equal, in order |
| `SnmpMulti.MarkNthHits` | src/snmp/requests.c:380-390 | an error index undefines exactly the cell of the OID at that position of the request |
| `SnmpMulti.NeverCrossAssigns` | src/snmp/requests.c:429-485 | for every pattern of replies each cell ends undefined, with the value answering its own OID, or untouched by a failed send |
| `SnmpMulti.UntouchedIffSendFails` | src/snmp/requests.c:429-485 | a cell is left neither undefined nor answered by the whole call if and only if some exchange k fails to send other than by timing out, and every exchange before it was answered by an error index that names one of the OIDs left by the earlier removals |
| `SnmpMulti.UntouchedAreOutstanding` | src/snmp/requests.c:429-485 | when exchange k fails to send, the cells are exactly those left by the k removals before it |
| `SnmpMulti.SendErrorLeavesCellUntouched` | src/snmp/requests.c:429-485 | a concrete call whose cell is left untouched |
| `SnmpMulti.AttemptsBounded` | src/snmp/requests.c:429-485 | every retry costs an OID, so attempts never exceed the OIDs asked for |
| `SnmpMulti.BatchAgreesWithAgent` | src/snmp/requests.c:429-485 | against an agent that answers or names a missing OID, every OID gets what it would get alone |
| `SnmpMulti.TimeoutUndefines` | src/snmp/requests.c:429-485 | after a timeout every cell is undefined |
| `SnmpMulti.MultiUndefined` | src/snmp/requests.c:355-357 | every cell becomes undefined |
| `SnmpMulti.MultiRequest` | src/snmp/requests.c:359-378 | the request lists exactly the usable OIDs in order, the others are undefined, and there is no request when none is left or when no PDU could be allocated, which leaves the cells alone |
| `SnmpMulti.MultiErrorIndex` | src/snmp/requests.c:380-390 | marks the cell the index names, exactly when the index is within the outstanding OIDs |
| `SnmpMulti.MultiValues` | src/snmp/requests.c:404-419 | bindings go to the outstanding cells in order and missing ones leave cells undefined |
| `SnmpMulti.Exchange` | src/snmp/requests.c:441-480 | one turn of the loop: a new request lists exactly the outstanding OIDs, one fewer, and otherwise the outcome is final |
| `SnmpMulti.GetMulti` | src/snmp/requests.c:429-485 | the call, with or without a session and a PDU, leaves what the attempt-by-attempt specification leaves; no request is left over after as many attempts as OIDs |
| `SnmpCount.CountIsARun` | src/snmp/requests.c:258-342 | against any agent the count is -1 or the length of a strictly increasing run below the root |
| `SnmpCount.CountIsExact` | src/snmp/requests.c:258-342 | against an agent with a finite ordered OID set the count is the number of OIDs strictly below the root exactly when that number can be counted, and -1 otherwise |
| `SnmpCount.FullTableFails` | src/snmp/requests.c:291-304 | a table of exactly 2^31 - 1 entries below any root that is not itself of the greatest length, served to the end by endOfMibView, counts as -1 |
| `SnmpCount.AgentServes` | src/snmp/requests.c:315-342 | for every finite set of OIDs there is an agent of the kind the exact count is about, in either protocol version |
| `SnmpCount.SnmpCount` | src/snmp/requests.c:315-342 | the request loop terminates and computes the count |
| `SnmpCount.CountResponse` | src/snmp/requests.c:291-304 | the loop over a response's bindings takes the specified step, and goes on only with a larger count that fits an int |
| `SnmpBatch.FlushKeeps` | src/poller/items.c:234-241 | a flush empties the queue and keeps every item taken in exactly one batch, in order |
| `SnmpBatch.PreparedKeeps` | src/poller/items.c:243-268 | after a change of session key the old queue has gone out and what is queued may travel over the open session |
| `SnmpBatch.CalmAsk` | src/poller/items.c:234-241 | an agent that answers each OID by itself gives a batch the same answers |
| `SnmpBatch.FinalFlush` | src/poller/items.c:302-335 | after the last flush each SNMP item is in exactly one batch, script items hold their output, and with an agent that answers per OID each SNMP item stores what asking for it by itself over the open session stores |
| `SnmpBatch.OwnHostAgrees` | src/poller/items.c:217-230 | where the session was opened for the item's own host, asking over it stores what polling the item alone, over a session of its own, would store |
| `SnmpBatch.AgreesIffOwnHost` | src/poller/items.c:217-230 | asking over the open session agrees with polling the item alone, for every calm agent whose answers depend only on host and session key, if and only if the item that opened the session names the same host |
| `SnmpBatch.OneHostAgrees` | src/poller/items.c:217-230 | that condition holds of every item when all SNMP items of the device name one host |
| `SnmpBatch.TwoHostsDisagree` | src/poller/items.c:217-230 | two items with one key and two hosts: the second is asked for at the host of the first |
| `SnmpBatch.Collect` | src/poller/items.c:302-335 | the loop and its last flush, for any way the session answers |
| `SnmpBatch.CollectPollItems` | src/poller/items.c:302-335 | each SNMP item processed is in exactly one batch of at most the limit, sent over a session opened with an equal key; with an agent that answers per OID every item stores, at its own position and whatever the limit, what asking for it by itself over the open session would store, and what polling it alone would store where that session was opened for its own host |
| `ScriptServer.StepKeeps` | src/script/server.c:57-454 | every system call of every slot's thread, every server and every other opener keeps the pool invariant |
| `ScriptServer.OwnAnswerOnly` | src/script/protocol.c:142-209 | in every run every command returns U or the answer to that very command |
| `ScriptServer.CommandIsAnswered` | src/script/protocol.c:142-209 | from an empty pool of one slot there is a run that starts the server and in which a command returns its own answer |
| `ScriptServer.ReceiveStep` | src/script/read.c:33-226 | reading after a command takes exactly that command's answer and leaves both pipes empty |
| `ScriptServer.GreetStep` | src/script/server.c:282-297 | the startup read takes the greeting and leaves a silent channel, so a slot made ready has nothing stale on it |
| `ScriptServer.DescriptorsHaveOneOwner` | src/script/server.c:57-334 | in every run each open pipe descriptor is held by exactly one slot or one start in progress, and what is held is open |
| `ScriptServer.HoldsClose` | src/script/server.c:31-36 | closing a held descriptor and clearing it leaves every other descriptor owned once |
| `ScriptServer.SlotsAtRestAndEffort` | src/script/protocol.c:160-204 | in every run a command has made at most three writes and three restarts, and a slot nobody works on holds at most its two descriptors |
| `ScriptServer.StepRank` | src/script/protocol.c:59-65 | each step of a call brings its end nearer and no step of another thread takes it away |
| `ScriptServer.UnfinishedCallCanStep` | src/script/server.c:57-454 | a call that has not ended always has a step of its own thread that can be taken |
| `ScriptServer.CallsEnd` | src/script/read.c:24-33 | a command, recovery or shutdown takes at most 300 steps of its thread: the startup read never restarts; with `UnfinishedCallCanStep` every call ends |
| `ScriptSelect.Selector.GetProcess` | src/script/protocol.c:220-294 | advances the cursor and chooses the first usable slot round the ring, else the first broken one if it comes back, else the first locked one, else none |
| `ScriptSelect.Scan` | src/script/protocol.c:240-257 | the scan finds the first usable slot, or else the first locked and the first broken one |
| `ScriptSelect.AroundIsModulo` | src/script/protocol.c:242 | the slot looked at is the start plus the distance, modulo the number of servers |
| `ScriptSelect.NothingIffAllBroken` | src/script/protocol.c:220-294 | no slot is returned if and only if every slot is broken and the first does not come back |
| `ScriptSelect.NearestUsable` | src/script/protocol.c:240-257 | whenever a slot is usable, the usable one nearest round the ring is returned |
| `ScriptSelect.RoundRobin` | src/script/protocol.c:233-236 | the slot at which the k-th scan from now begins, in closed form |
| `ScriptSelect.EachSlotOnce` | src/script/protocol.c:233-236 | within as many calls as servers, exactly one scan begins at each slot |
| `ScriptSelect.ReadLine` | src/script/read.c:155-212 | the read loop returns a line if and only if a line end arrives within the buffer, before any failure and before any zero byte |
| `ScriptSelect.LineIsWhatCame` | src/script/read.c:155-212 | a returned line is a prefix of what arrived, holds a line end before any zero byte and fits the buffer |
| `ChildRegistry.SweepIsExact` | src/process/nft_popen.c:561-582 | the swap-with-last sweep leaves exactly the children not gone, as often as they were listed, and collects exactly the rest |
| `ChildRegistry.SweepByPid` | src/process/nft_popen.c:561-582 | sweeping the array of process ids is sweeping the list of children |
| `ChildRegistry.ParkedPids.Sweep` | src/process/nft_popen.c:561-582 | the in-place loop over the array computes the sweep |
| `ChildRegistry.ParkedPids.Abandon` | src/process/nft_popen.c:614-642 | sweeps, then parks the process id exactly when fewer than 64 remain |
| `ChildRegistry.ParkedPids.Pending` | src/process/nft_popen.c:591-605 | sweeps and reports how many remain |
| `ChildRegistry.PidList.Link` | src/process/nft_popen.c:421-432 | puts the new child in front |
| `ChildRegistry.PidList.CloseAndTake` | src/process/nft_popen.c:113-133 | removes the first entry with the descriptor and hands over its child, or changes nothing |
| `ChildRegistry.StepKeeps` | src/process/nft_popen.c:169-642 | every locked section and system call of spawning calls, closers, sweepers and everybody else keeps every descriptor with one owner, every child in one place and the mutex with the call that took it |
| `ChildRegistry.ChildInOnePlace` | src/process/nft_popen.c:402-642 | in every run each child is in exactly one of about to be registered by one call, registered, held by one closer, parked, reaped or dropped, and at most 64 are parked |
| `ChildRegistry.RegisteredDescriptors` | src/process/nft_popen.c:104-133 | in every run registered descriptors are open, distinct and owned by nobody else |
| `ChildRegistry.NoDescriptorLeaks` | src/process/nft_popen.c:169-433 | in every run a descriptor is open if and only if it is registered, foreign or held by a call as an end of its pipe or as the duplicate of one, exactly one of these; a call that holds it has not returned, is the only one and holds it once |
| `ChildRegistry.NothingLeftBehind` | src/process/nft_popen.c:365-433 | when every call has returned, by success or by any failure path, the open descriptors are exactly the registered and the foreign ones and the list mutex is free |
| `ChildRegistry.MutexHeldByOne` | src/process/nft_popen.c:243-433 | in every run the list mutex is held by a call exactly between its taking and its returning it, by one call at most, and by one that has not returned |
| `ChildRegistry.CloseKeeps` | src/process/nft_popen.c:383-389 | each close of a clean-up, in its order, closes a descriptor whose only owner is the call that closes it |
| `ChildSpawn.CleanedUp` | src/process/nft_popen.c:383-416 | when its clean-up has nothing left to close, a failed call holds nothing and a successful one only the parent's end |
| `ChildRegistry.LiveCallCanStep` | src/process/nft_popen.c:169-433 | a call that has not returned can go on, or waits for the mutex held by another call that can |
| `ChildRegistry.CallsReturn` | src/process/nft_popen.c:169-433 | a call takes at most seven steps after its pipe, its closes included |
| `ChildRegistry.LivePidsDiffer` | src/process/nft_popen.c:494-642 | in every run two children that have not been reaped have different process ids; for a new child this is the kernel's promise, for the others that none is forgotten before it is reaped |
| `ChildRegistry.SweepReapsExited` | src/process/nft_popen.c:561-582 | in every run a sweep that waits by process id takes off the list exactly the parked children that have exited, and leaves every other one |
| `ChildRegistry.DuplicateKeeps` | src/process/nft_popen.c:307-327 | duplicating a child's end that sits on its standard descriptor gives the duplicate to that call alone, which closes it on success and on failure |
| `ChildRegistry.OneWinner` | src/process/nft_popen.c:113-133 | after one close took a child, closing the same descriptor takes nothing until a new child is registered there |
| `OutputWriter.CheckTime` | src/poller/poller.c:34-51 | a timestamp is accepted if and only if it is digits with at most one point and at least one digit |
| `OutputWriter.SkippedOnlyForTime` | src/poller/poller.c:21-57 | an escaped value fits its row buffer always, so a row is formatted if and only if the timestamp is good |
| `OutputWriter.AllOrNothing` | src/database/persistence.c:74-92 | with a good timestamp the rows are the texts of all items, in order; with a bad one there are none |
| `OutputWriter.BatchesAreTheRows` | src/database/persistence.c:74-126 | the batches, in order, concatenate to exactly the formatted rows |
| `OutputWriter.EmptyBatchIff` | src/database/persistence.c:94-106 | among the batches that `WritePollResults` sends one is without rows if and only if the very first row does not fit beside the prefix |
| `OutputWriter.LongFirstRowSendsEmpty` | src/database/persistence.c:94-106 | with a results buffer of 65536 bytes and a prefix of the default length, a first value that escapes to between 131000 bytes and the most such a buffer can yield makes the first statement one without rows |
| `OutputWriter.LargeResultsAreSpacious` | src/database/persistence.c:40-72 | that build does not leave room for one row beside the prefix, and still meets all that the writer needs |
| `OutputWriter.NoEmptyStatement` | src/database/persistence.c:94-126 | with sizes that leave room for one row no statement is empty |
| `OutputWriter.BatchesMaximal` | src/database/persistence.c:94-106 | a batch ends only where the next row would have reached the limit |
| `OutputWriter.StatementAt` | src/database/persistence.c:28-38 | statement k of a table is its prefix, batch k and the suffix, so both tables are grouped alike |
| `OutputWriter.JoinedFromFront` | src/database/persistence.c:107-114 | the rows of a statement are its first row led by a blank and every other row led by a comma |
| `OutputWriter.FlushTables` | src/database/persistence.c:96-99 | both buffers are completed within their capacity and sent, and failure is remembered exactly when an insert was rejected |
| `OutputWriter.AppendTables` | src/database/persistence.c:108-115 | the row joins both buffers with the right delimiter within their capacity |
| `OutputWriter.WriteRow` | src/database/persistence.c:94-120 | one row: a flush when it would reach the limit, then the append, tracking only the plain length |
| `OutputWriter.FormatRow` | src/poller/poller.c:21-57 | gives the row of an item exactly when it can be formatted |
| `OutputWriter.WriteItem` | src/database/persistence.c:74-120 | one turn of the loop over the items: a formatted row is placed, anything else is passed over |
| `OutputWriter.WritePollResults` | src/database/persistence.c:40-129 | wherever each row by itself fits the buffers, both tables receive the same batches of exactly the formattable rows, neither buffer overflows, and the call fails if and only if some insert was rejected |
| `OutputWriter.RoomyIsSpacious` | src/database/persistence.c:40-72 | build sizes that leave room for one row beside the prefix meet what the writer needs, for any items |
| `OutputWriter.DefaultBuildIsRoomy` | src/database/cacti_query.c:74-78 | the default build sizes and the real statement texts leave the room the writer needs |
| `Transfer.TransferRow` | src/database/transfer.c:45-60 | every escaped row is printed whole within the row buffer, so the fatal exit is unreachable |
| `Transfer.BatchedIsAll` | src/database/transfer.c:94-107 | the batches, in order, are exactly the rows |
| `Transfer.BatchedSendable` | src/database/transfer.c:94-107 | every batch has between one row and the row limit and its statement fits with suffix and terminator |
| `Transfer.BatchedMaximal` | src/database/transfer.c:94-107 | a batch ends only when it is at the row limit or the next row does not fit |
| `Transfer.ListedSplit` | src/database/transfer.c:103-105 | the rows of a statement are separated by a comma and a blank, wherever the list is split |
| `Transfer.SendBatch` | src/database/transfer.c:62-65 | the completed statement fits the buffer and is the next one sent |
| `Transfer.PlaceRow` | src/database/transfer.c:94-107 | one turn of the loop sends a full batch first, stops on a rejection and otherwise adds the row within the buffer |
| `Transfer.TransferTable` | src/database/transfer.c:67-114 | the fatal exit is unreachable; statements sent and result are those of the batches, stopping after the first rejected one, and the last batch is withheld when the source failed |
| `Transfer.RowsArriveInOrder` | src/database/transfer.c:67-114 | what is sent is a prefix of the rows, and on success all of them with every statement accepted |
| `Transfer.PlansAreAmple` | src/database/transfer.c:116-132 | both tables' plans leave room for any row |
| `Availability.HostRecord.UpdateHostStatus` | src/poller/availability.c:249-270 | the in-place update takes the specified transition of state and statistics and reports the event |
| `Availability.StateAfter` | src/poller/availability.c:163-208 | from any starting record and after every history the event count is the number of trailing failures when up and of trailing successes when recovering, a run the record brought along included, and below its threshold |
| `Availability.TurnsExactly` | src/poller/availability.c:163-208 | up turns down exactly when the run of failures, with what the record brought along, reaches max(1, threshold), a down host comes up likewise, and an unknown host takes the condition of its first poll |
| `Availability.ReportsLastRun` | src/poller/availability.c:163-208 | from any starting record a host is reported down if and only if the last decision was down: the starting condition, a completed threshold run, or the first poll of an unknown host |
| `Availability.EventsAlternate` | src/poller/availability.c:263-269 | down and recovery events strictly alternate, starting with down unless the host counted as down at the start, by its record or by the first poll of an unknown host; the report follows the latest event |
| `Availability.EventIffReportChanges` | src/poller/availability.c:249-270 | an event is logged by exactly the polls that change the reported condition of a host whose status was not unknown |
| `Availability.FailDateIff` | src/poller/availability.c:163-187 | the date stored when a host goes down is that of the first poll of the run that caused it if and only if the threshold is at least two, or is one and no failures were counted, or is below one and some were, or the date left in the record happens to be this poll's |
| `Availability.RecoveryDateIff` | src/poller/availability.c:189-208 | the same condition for the date stored when a host comes back |
| `Availability.EventDates` | src/poller/availability.c:163-208 | with a threshold of at least one and no run in the starting record the stored date is that of the first poll of the run that caused the change |
| `Availability.LowThresholdKeepsDates` | src/poller/availability.c:163-208 | with a threshold below one the stored date never changes |
| `Availability.ZeroThresholdLosesDate` | src/poller/availability.c:163-173 | with a threshold of zero one failed poll has the host reported down while the stored date stays another one |
| `Availability.LoweredThresholdLosesDate` | src/poller/availability.c:163-173 | a threshold lowered to one while failures were being counted stores the date of the last failure, not of the first |
| `Availability.AverageIsMean` | src/poller/availability.c:223-228 | from a fresh record the running average is the mean of the answered polls' response times |
| `Availability.Extremes` | src/poller/availability.c:223-228 | the extremes bound every answered poll and each is one of them or its starting value |
| `Availability.CurrentIsLatest` | src/poller/availability.c:223-228 | the current time is that of the latest answered poll |
| `Availability.AvailabilityIsShare` | src/poller/availability.c:249-262 | availability is the percentage of all polls that were answered |
| `ResultClassifier.ScanIffGrammar` | src/poller/result.c:49-78 | the scan accepts exactly the texts of the decimal grammar: sign, digits, point, digits, exponent |
| `ResultClassifier.DecimalSyntax` | src/poller/result.c:51-78 | the cursor loops decide the scan and whether the number is an integer |
| `ResultClassifier.ParseDecimalText` | src/poller/result.c:80-115 | integers within 64 bits give exact counters or signed values, anything else numeric a floating value if finite |
| `ResultClassifier.ReadOctets` | src/poller/result.c:147-170 | a text is octets if and only if it is two-digit octets with single separators; the sticky flag is set if and only if the true base-256 value is at least 2^64, and otherwise that value is returned |
| `ResultClassifier.ShiftStep` | src/poller/result.c:157-158 | one shift of the wrapping 64-bit accumulator keeps flag and value true to the unbounded value |
| `ResultClassifier.MultipartSyntax` | src/poller/result.c:119-129 | the counting loop decides the name and value list form |
| `ResultClassifier.StripAlpha` | src/config/text.c:22-28 | the two loops leave the text from its first digit or minus sign to its last digit |
| `ResultClassifier.CoreIsBare` | src/config/text.c:22-28 | what is left is empty or begins and ends with characters that trimming keeps |
| `ResultClassifier.ClassifyResult` | src/poller/result.c:184-240 | the procedure computes the classification, in the source's order of attempts |
| `ResultClassifier.Idempotent` | src/poller/result.c:184-240 | classifying a stored text again gives the same text and value, and the same kind except that a hex counter becomes an equal decimal counter |
| `ResultClassifier.UnknownIffU` | src/poller/result.c:184-240 | the result is unknown if and only if the stored text is U, and the text always fits its buffer |
| `ResultClassifier.DecimalReadsBack` | src/poller/result.c:219-223 | a 64-bit counter printed in decimal parses back to itself |
| `Checksum.SumFits` | src/ping/address.c:238-257 | the sum of any buffer is bounded by its length, so 65535 bytes cannot overflow the accumulator |
| `Checksum.FoldIsResidue` | src/ping/address.c:254-256 | two folds reduce any 32-bit sum to its one's complement residue, zero only for zero |
| `Checksum.Accumulate` | src/ping/address.c:238-253 | the loop with 32-bit wrap-around computes the true sum |
| `Checksum.GetChecksum` | src/ping/address.c:238-257 | the function computes the checksum of the specification |
| `Checksum.StoredChecksumVerifies` | src/ping/icmp4.c:157-159 | storing the checksum in its zeroed word at an even offset makes the whole buffer checksum to zero (section 1 of RFC 1071), on either byte order |
| `Checksum.StoredBytes` | src/ping/icmp4.c:157-159 | every checksum value can be stored as two bytes, on either byte order |

### Where the code does less than one might expect

The code is modelled as it is; each point has a lemma with the exact condition.

- In `snmp_get_multi` a send that fails with anything but a timeout leaves the outstanding
  slots as they were, neither U nor answered (`SnmpMulti.UntouchedIffSendFails`, with
  `SnmpMulti.SendErrorLeavesCellUntouched`).
- `snmp_item_changed` compares neither hostname nor timeout, so an item is asked for at the
  host of the item that opened the session (`SnmpBatch.AgreesIffOwnHost`, with
  `SnmpBatch.TwoHostsDisagree`).
- The items of a device are counted again for each of its threads; a count that has dropped
  below the recorded number of threads, but not to zero, launches fewer threads than the device
  waits for (`DevicePartition.AllLaunchedIffSteady`, with
  `DevicePartition.ShrinkingCountLosesThread`).
- With exactly one active profile all items are selected, but a device with one thread sizes its
  window by the due ones (`DeviceCompletion.AllSelectedIff`, with
  `DeviceCompletion.OneThreadMissesItem`).
- `snmp_count` gives -1 for a subtree of exactly 2^31 - 1 entries when nothing follows the
  subtree and the agent ends the walk with endOfMibView, because the full counter is tested
  before the terminator is recognised (`SnmpCount.CountIsExact`, with `SnmpCount.FullTableFails`).
- A failure or recovery threshold below one acts as one, but then no date is recorded, and a
  threshold lowered to one while a run is being counted records the date of the run's last poll
  (`Availability.FailDateIff` and `Availability.RecoveryDateIff`, with
  `Availability.ZeroThresholdLosesDate` and `Availability.LoweredThresholdLosesDate`).
- If the first row does not fit beside the prefix, `write_poll_results` sends a statement
  without rows (`OutputWriter.EmptyBatchIff`, with `OutputWriter.LongFirstRowSendsEmpty`); the
  default build sizes exclude it (`OutputWriter.NoEmptyStatement`).

## Left out

- MySQL, Net-SNMP, pthread, select, posix_spawn and waitpid themselves: each is a free outcome within its contract; `snmp_fix_pdu` removes the indexed binding and returns nothing only when none remains, and an error response lists the bindings of its request.
- SQL text and its meaning on the server, except the LIMIT window, the due filter, the schedule update and the statement texts of output batches; the row order of a device's due items is taken to be stable while its partitions select.
- DeviceCompletion.ScheduleAdvancesOnceAfterEverything: assumes a counted number of items not below the selected one, as the count query filters less; where the counts themselves fall short is the subject of `AllSelectedIff`.
- DeviceCompletion.CompleteIffEverythingSucceeded: takes as many partitions as the device's first thread recorded; launching fewer is the subject of `DevicePartition.AllLaunchedIffSteady`.
- DeviceCompletion.DueOncePerStep: assumes a positive poller interval, of which the item's step is a multiple.
- OutputWriter.WritePollResults: assumes that each row by itself fits both buffers beside prefix and suffix and that the result size covers the suffix and what the boost prefix is longer, which is what the writer's unchecked appends rely on.
- SnmpBatch.AgreesIffOwnHost: takes an agent's answer to depend only on the host and the compared session fields, so the effect of another item's timeout on a slow agent is not modelled.
- OutputWriter.SkippedOnlyForTime: takes from database escaping only that it at most doubles its input.
- Transfer.TransferTable: starts from fetched rows with the expected number of columns; a failed query, a wrong column count and failed allocation, which return failure before anything is sent, are not modelled.
- ResultClassifier.Idempotent: assumes a result buffer of more than 20 bytes; the missing (null) input, which is unknown, is not modelled.
- ResultClassifier.ParseDecimalText: the floating value of a decimal text is a parameter, so rounding is not modelled.
- Availability.StateAfter: starts from a status the program writes (unknown, down, recovering or up) and an event count that is not negative.
- ChildRegistry.NoDescriptorLeaks: what the file actions do to the descriptors of the child process is not modelled, only those of the poller; repeating a spawn that failed for lack of resources is one step.
- Availability.AverageIsMean: response times are real numbers, so floating-point rounding is not modelled.
- Checksum.GetChecksum: nothing is claimed for buffers long enough to overflow the 32-bit accumulator.
- ScriptServer.OwnAnswerOnly: assumes a server that greets once and answers each command with one line; a line is one unit on a pipe, commands being short enough to be written whole. Splitting into chunks is treated in ScriptSelect.
- ScriptServer.DescriptorsHaveOneOwner: the process id of a server is recorded only as present or absent; its reaping belongs to ChildRegistry.
- Thread cancellation, signal handling, privilege dropping, startup, command line, configuration files and logging.
- UDP and TCP pings, the ICMP send loops, the datagram-socket classifier, name resolution and IPv6 scope selection.
- Reindexing, log sanitising, host-spec splitting and the string helpers not used above.
- `normalize_poll_result`, the regular-expression step and running external scripts between collection and storing.
- Wall-clock time: deadlines are free choices of a step, so no bound in seconds is claimed.
