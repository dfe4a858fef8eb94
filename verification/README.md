# Verified model of a C++ game-server testbed

The repository is a C++17 client/server testbed whose hard parts are hand-written concurrency and
recovery protocols. This project models those protocols in Dafny and proves what they promise, for
every input, every interleaving and every run. Where a promise in the code's own comments does not
hold, the model keeps the code as it is, exhibits a run that breaks the promise, and proves exactly
when it holds.

`dafny verify dfyconfig.toml` checks everything.

## How the model is built

- **Protocols** are step machines. A state holds the shared fields, one program counter per thread
  (or instance, or worker) and histories; an action is one atomic access, one locked block, one
  database call or one event from outside. `IsRun` is any sequence of enabled actions from an initial
  state, and the theorems quantify over all runs and all their states.
- **Sequential code that updates fields or buffers** is a class with methods and loops, proved equal
  to a specification function; the theorems are about that function.
- What the outside decides (a `recv`, a send result, the clock, a custom check, which session a hash
  map yields first) is an argument or an unconstrained choice.

| file | models |
|---|---|
| `SendPath.dfy`, `SendCalls.dfy` | `Session::Send`, `FlushSendQueue`, `PostSend`, `Close` and send completions; the same from the caller's side |
| `Framing.dfy` | what a byte stream means as a list of frames; the reference for the three reassemblers |
| `Packets.dfy` | packets as their senders write them, and that every receiver gets exactly these |
| `SessionRecv.dfy` | `Session::ProcessRawRecv` |
| `PacketStream.dfy` | the client's `RecvPacket` over a fixed array |
| `DbRecvLoop.dfy` | the server's `DBRecvLoop` |
| `ManifestHash.dfy`, `ManifestTwice.dfy` | the manifest hash of the SQL bootstrap; a script listed twice |
| `Bootstrap.dfy`, `BootstrapEnds.dfy` | `BootstrapModuleIfNeeded` with any number of racing and restarting instances; what it leaves and how later starts end |
| `KeyGenerator.dfy` | tagged 64-bit keys |
| `DbServerQueue.dfy`, `DbServerQueueLanes.dfy`, `DbServerQueueIds.dfy`, `DbServerQueueRuns.dfy`, `DbServerQueueOrder.dfy`, `DbServerQueueCodes.dfy` | `DBServerTaskQueue`: one worker, one session of it, ids and deadlines, whole runs, order in whole runs, result codes |
| `WalProtocol.dfy`, `WalOrder.dfy`, `WalReplay.dfy`, `WalCrash.dfy`, `WalText.dfy`, `WalRecovery.dfy` | `DBTaskQueue`'s write-ahead log: writing, routing and order of execution, replay and recovery, recoveries that die, text format, and all of it end to end |
| `Dispatcher.dfy` | `KeyedDispatcher` over `ExecutionQueue` |
| `ScopePool.dfy` | `AsyncScope` and `SessionPool` together |
| `TimerHeap.dfy`, `TimerQueue.dfy`, `TimerCancel.dfy` | `TimerQueue`: its heap, its runs, cancellation |
| `Basics.dfy`, `Sequences.dfy` | bytes, words and optional values; small facts about sequences |

## Where the code and its documentation disagree

- A bad header closes the session without dispatching the complete packets that arrived in the same
  chunk (Session.cpp:658-662), so the cut of a broken stream matters:
  `SessionRecv.BrokenDeliversEarlierChunks`, `SessionRecv.CutMattersWhenBroken`.
- "No task is permanently lost" after a crash in the middle of recovery (DBTaskQueue.cpp:870-873) is
  false, for two reasons. Sequence numbers restart at 1, so a D record of the old log can erase a
  re-enqueued task (`WalReplay.MergeCanLoseATask`); and a recovery that starts from two files removes
  the old backup before it has re-enqueued what only that backup had (`WalCrash.SecondRecoveryLoses`).
  `WalCrash.TaskLostIff` says exactly which tasks are lost, from any two files and at any crash point,
  with the workers running; `WalRecovery.RecoveryCrashLosesIff` ties it to the runs of the recovering
  process, and `WalCrash.NothingLostIff` says when no crash point loses anything.
- "Exactly one pending task inline (ordering guarantee)" (DBServerTaskQueue.cpp:437-438) holds only
  while the promoted task passes its check and send; otherwise the tasks behind it are stranded until
  something else happens to the session (`DbServerQueueLanes.StrandsIff`) and a later call can overtake
  them (`DbServerQueueOrder.LaterCallOvertakes`). Overtaking is the only kind of step that ends the call
  order: `DbServerQueueOrder.AfterRising`. Exactly-once resolution needs no such hypothesis.
- Draining on `KeyedDispatcher::Shutdown` misses a task whose `Dispatch` read the running flag before
  `Shutdown` and pushed after its worker had left: `Dispatcher.LateDispatchIsLost`,
  `Dispatcher.ShutdownDrains`. Such a closure is destroyed without `EndTask`, which is what makes the
  abort in `AsyncScope::Reset` reachable: `ScopePool.LostClosureAborts`, `ScopePool.ResetAbortsIff`.
  The contract comment of `Reset` names a wait that `SessionPool::ReleaseInternal` does not perform
  (AsyncScope.h:43-44, SessionPool.cpp:94-113); the proof of `ScopePool.ResetNeverAborts` does not
  need it.
- A handle cancelled after its one-shot timer ran does stay in the cancellation set, contrary to
  TimerQueue.cpp:171-172 and TimerQueue.h:104-106, and so does one cancelled while its one-shot runs:
  `TimerCancel.LateCancelLeaks`, `TimerCancel.CancelledRunningStaysIff`; `TimerCancel.CancelledUntilTaken`
  says exactly when it leaves. Cancelling a number that was not issued yet is not a no-op
  either (TimerQueue.h:50): it silences the timer that gets the number, unless a shutdown comes first:
  `TimerCancel.CancelSilences`, `TimerCancel.ForgottenCancelRuns`. A `ScheduleRepeat` with interval 0
  runs once, whatever its callback returns: `TimerQueue.StartsAreApart`.
- The run-once promise of the bootstrap does not extend to Mock databases:
  `Bootstrap.MockRunsEveryTime`.
- The bootstrap refuses to go on when the manifest has changed (SqlModuleBootstrap.h:335-340), but it
  notices every one-byte edit only in scripts listed once: `ManifestHash.EditChangesHash`,
  `ManifestTwice.TwiceListedEditCanHide`. Nothing in SqlModuleBootstrap.h:262-280 refuses a script
  that is listed twice.

## Model

| member | source | states |
|---|---|---|
| `SendPath.NoLostWakeup` | NetworkModuleTest/Server/ServerEngine/Network/Core/Session.cpp:286-382 | In every interleaving of any number of senders, closers and completions: when no thread is inside Send or PostSend and no send was refused or drained, the queue is empty or exactly one asynchronous send is outstanding |
| `SendPath.SingleSender` | NetworkModuleTest/Server/ServerEngine/Network/Core/Session.cpp:304-382 | In every run at most one send is outstanding, at most one thread is between taking and giving back the sending flag, and never both |
| `SendPath.HandedInPushOrder` | NetworkModuleTest/Server/ServerEngine/Network/Core/Session.cpp:286-295 | What the provider accepted is, unaltered since its push, a subsequence of the push order, and a prefix of it while no send was refused and no Close drained the queue |
| `SendCalls.PushComesFromACall` | NetworkModuleTest/Server/ServerEngine/Network/Core/Session.cpp:199-295 | Every packet ever pushed comes from a call of Send with exactly these bytes, made while connected, of 1 to 4096 bytes, that found fewer than 64 queued |
| `SendCalls.OneCallOnePacket` | NetworkModuleTest/Server/ServerEngine/Network/Core/Session.cpp:199-302 | Two packets come from two calls |
| `SendCalls.AcceptedCallIsPushed` | NetworkModuleTest/Server/ServerEngine/Network/Core/Session.cpp:257-295 | A call that is admitted and finds fewer than 64 queued pushes exactly its data, at its thread's second step |
| `SendCalls.CrowdedCallIsRefused` | NetworkModuleTest/Server/ServerEngine/Network/Core/Session.cpp:257-263 | A call that finds 64 or more queued ends after its size check and changes nothing |
| `SendCalls.UnadmittedCallEnds` | NetworkModuleTest/Server/ServerEngine/Network/Core/Session.cpp:199-211 | A call on a closed session, with no bytes or with more than 4096, ends at once and changes nothing |
| `SendCalls.HandedWasGiven` | NetworkModuleTest/Server/ServerEngine/Network/Core/Session.cpp:428-458 | What reaches the provider is, byte for byte, what some call of Send was given |
| `SendCalls.CallOfCloseCloses` | NetworkModuleTest/Server/ServerEngine/Network/Core/Session.cpp:117-197 | After a call of Close has exchanged the state no call of Send is admitted |
| `SendCalls.CloseDrains` | NetworkModuleTest/Server/ServerEngine/Network/Core/Session.cpp:117-197 | The first Close empties the queue and drops the provider; a later one changes nothing |
| `SendCalls.RefusedSendCloses` | NetworkModuleTest/Server/ServerEngine/Network/Core/Session.cpp:443-452 | A send that the provider refuses gives the flag back and closes the session |
| `SendCalls.BreakHasACause` | NetworkModuleTest/Server/ServerEngine/Network/Core/Session.cpp:117-197 | A session breaks only through a call of Close or a refused send, so the promises for unbroken sessions hold until then |
| `SendPath.QueueBounded` | NetworkModuleTest/Server/ServerEngine/Network/Core/Session.cpp:257-295 | With T threads the queue never holds more than 63 + T packets, although the threshold is read before the lock is taken |
| `SendPath.EverythingIsSent` | NetworkModuleTest/Server/ServerEngine/Network/Core/Session.cpp:317-382 | When no thread can step and no completion is due, an unbroken session has handed over every packet ever pushed |
| `SendPath.InternalRunsEnd` | NetworkModuleTest/Server/ServerEngine/Network/Core/Session.cpp:304-345 | Without new Send or Close calls every run is finite: the release-recheck-retry cycle cannot go on for ever |
| `SendPath.FuelDrops` | NetworkModuleTest/Server/ServerEngine/Network/Core/Session.cpp:317-382 | Each step that is not a new call lowers a bound on the steps that remain |
| `SendPath.TokenStep` | NetworkModuleTest/Server/ServerEngine/Network/Core/Session.cpp:304-345 | The right to pop moves between nobody, one thread and the provider; every step keeps it single and keeps the flag equal to "somebody has it" |
| `SendPath.WakeStep` | NetworkModuleTest/Server/ServerEngine/Network/Core/Session.cpp:321-345 | Every step leaves a thread that will look at the queue again whenever a packet waits and nobody has the flag |
| `SendPath.OrderStep` | NetworkModuleTest/Server/ServerEngine/Network/Core/Session.cpp:353-382 | Every step keeps handed-over, in-hand and queued packets together in push order |
| `SendPath.BoundStep` | NetworkModuleTest/Server/ServerEngine/Network/Core/Session.cpp:257-295 | Every step keeps queued packets plus senders past the check within 63 + T |
| `SendPath.InvAlways` | NetworkModuleTest/Server/ServerEngine/Network/Core/BaseNetworkEngine.cpp:421-440 | All of these invariants hold in every reachable state, with completions re-entering PostSend |
| `Framing.SplitIsPartition` | NetworkModuleTest/Server/ServerEngine/Network/Core/Session.cpp:605-633 | The reference split loses and invents no byte, yields only well-formed frames, and leaves a rest that starts with no frame |
| `Framing.SplitIsUnique` | NetworkModuleTest/Server/ServerEngine/Network/Core/Session.cpp:605-633 | There is no other way to cut the stream into frames and a rest that starts with none |
| `Packets.SessionGetsPackets` | NetworkModuleTest/Server/ServerEngine/Network/Core/Session.cpp:536-670 | For every list of client packets as their senders lay them out, in every cut into chunks of at most 8192 bytes, the session passes on exactly these packets |
| `Packets.ClientReadsPackets` | NetworkModuleTest/Client/TestClient/src/PacketStream.cpp:33-143 | The client reads a prefix of the packets that were sent, and the rest of them stays pending |
| `Packets.LinkGetsPackets` | NetworkModuleTest/Server/TestServer/src/TestServer.cpp:618-663 | For every list of server packets with their 8-byte header, in every cut, the link delivers exactly these |
| `Packets.HeaderVerdict` | NetworkModuleTest/Server/ServerEngine/Network/Core/PacketDefine.h:30-40 | Exactly the little-endian sizes from the header's up to 4096 are accepted, and exactly complete packets are cut |
| `Packets.ClientPacketIsFrame` | NetworkModuleTest/Server/ServerEngine/Network/Core/PacketDefine.h:30-40 | A packet of size, id and body is a frame of that size, and its body is behind the 4 bytes |
| `Packets.ServerPacketIsFrame` | NetworkModuleTest/Server/ServerEngine/Network/Core/ServerPacketDefine.h:43-62 | A packet of size, id, sequence and body is a frame of that size, and its body is behind the 8 bytes |
| `Framing.SplitAppend` | NetworkModuleTest/Server/ServerEngine/Network/Core/Session.cpp:599-633 | Splitting what arrived, then the rest with what arrives later, equals splitting the whole |
| `Framing.BrokenStaysBroken` | NetworkModuleTest/Server/ServerEngine/Network/Core/Session.cpp:610-619 | After a bad header no further byte can produce another frame |
| `Framing.SplitBehind` | NetworkModuleTest/Client/TestClient/src/PacketStream.cpp:33-143 | Taking frames off the front leaves exactly the remaining frames |
| `SessionRecv.Session.ProcessRawRecv` | NetworkModuleTest/Server/ServerEngine/Network/Core/Session.cpp:536-670 | Fast path and general path both compute the one specification of a receive call; the buffer invariant (under 4096 unread, at most twice the unread bytes buffered) is kept and the offset reset is unreachable |
| `SessionRecv.Session.ParseFrames` | NetworkModuleTest/Server/ServerEngine/Network/Core/Session.cpp:605-633 | The loop batches exactly the frames of the unread bytes and detects exactly the bad headers |
| `SessionRecv.Session.GeneralPath` | NetworkModuleTest/Server/ServerEngine/Network/Core/Session.cpp:574-669 | Guard, append, parse, compact and dispatch compute the specification for every chunk the fast path does not take |
| `SessionRecv.Session.Compact` | NetworkModuleTest/Server/ServerEngine/Network/Core/Session.cpp:635-646 | Compaction changes no unread byte and restores the memory bound |
| `SessionRecv.Session.Dispatch` | NetworkModuleTest/Server/ServerEngine/Network/Core/Session.cpp:664-669 | The spans of the flat batch buffer cut out the frames, in order |
| `SessionRecv.Session.RecvTask` | NetworkModuleTest/Server/ServerEngine/Network/Core/BaseNetworkEngine.cpp:397-418 | A queued receive task of a closed session does nothing |
| `SessionRecv.BatchedAppend` | NetworkModuleTest/Server/ServerEngine/Network/Core/Session.cpp:622-632 | Appending to the batch buffer keeps every recorded span valid |
| `SessionRecv.GuardNeverFires` | NetworkModuleTest/Server/ServerEngine/Network/Core/Session.cpp:582-598 | For chunks up to the receive buffer size the overflow guard cannot fire |
| `SessionRecv.ClosesIff` | NetworkModuleTest/Server/ServerEngine/Network/Core/Session.cpp:582-662 | A receive call closes the session exactly when more than 16384 bytes would be unread or a bad header comes up, and then delivers nothing |
| `SessionRecv.OpenMeansSplit` | NetworkModuleTest/Server/ServerEngine/Network/Core/Session.cpp:536-670 | After any cut of any stream the session is closed exactly if the stream is broken, and otherwise has delivered and kept exactly the split of the whole stream |
| `SessionRecv.ChunkIndependent` | NetworkModuleTest/Server/ServerEngine/Network/Core/Session.cpp:536-670 | Two cuts of one stream close alike and, unless the stream is broken, deliver the same packets: all of its frames; deliveries are always a prefix of the frames |
| `SessionRecv.BrokenDeliversEarlierChunks` | NetworkModuleTest/Server/ServerEngine/Network/Core/Session.cpp:658-662 | Of a broken stream exactly the frames of the chunks before the closing one are delivered; they are all of them if and only if the closing chunk completes none |
| `SessionRecv.CutMattersWhenBroken` | NetworkModuleTest/Server/ServerEngine/Network/Core/Session.cpp:610-619 | One frame followed by a bad header is delivered when they come in two chunks and lost when they come in one |
| `PacketStream.Reader.RecvPacket` | NetworkModuleTest/Client/TestClient/src/PacketStream.cpp:33-143 | Success takes exactly one frame off the pending stream; every other result leaves it as it was; a close, an error and a timeout are what the last recv said, and only while neither a complete frame nor a bad header is buffered |
| `PacketStream.Reader.FillHeader` | NetworkModuleTest/Client/TestClient/src/PacketStream.cpp:36-71 | One read if the header is incomplete; success exactly when it is complete then |
| `PacketStream.Reader.FillPacket` | NetworkModuleTest/Client/TestClient/src/PacketStream.cpp:87-113 | Reads until the packet is complete or a read ends it |
| `PacketStream.Reader.Fill` | NetworkModuleTest/Client/TestClient/src/PacketStream.cpp:38-113 | A short read moves bytes from the wire to the buffer and loses none |
| `PacketStream.Reader.Shift` | NetworkModuleTest/Client/TestClient/src/PacketStream.cpp:133-142 | The in-place shift removes exactly the packet |
| `PacketStream.Reader.ReadPackets` | NetworkModuleTest/Client/TestClient/src/PacketStream.cpp:33-143 | Any number of calls over any pattern of short reads return the frames of the stream in order, no byte lost or repeated |
| `DbRecvLoop.Link.DBRecvLoop` | NetworkModuleTest/Server/TestServer/src/TestServer.cpp:612-692 | The loop over network events computes the fold of received chunks up to the first close or failure |
| `DbRecvLoop.Link.OnData` | NetworkModuleTest/Server/TestServer/src/TestServer.cpp:618-663 | One chunk: append, deliver every complete frame, compact; equals the specification on unread bytes |
| `DbRecvLoop.Link.DeliverFrames` | NetworkModuleTest/Server/TestServer/src/TestServer.cpp:628-655 | The inner loop delivers exactly the frames of the unread bytes, and drops the buffer at a bad header |
| `DbRecvLoop.LinkIsChunkIndependent` | NetworkModuleTest/Server/TestServer/src/TestServer.cpp:618-663 | On an unbroken stream the link delivers exactly the frames of the stream, however it is cut |
| `ManifestHash.EditChangesHash` | NetworkModuleTest/Server/ServerEngine/Database/SqlModuleBootstrap.h:111-147 | Replacing one byte of a managed script that is listed once always changes the 16-digit hash |
| `ManifestTwice.TwiceListedEditCanHide` | NetworkModuleTest/Server/ServerEngine/Database/SqlModuleBootstrap.h:132-147 | A script listed twice has no such guarantee: a nine-byte text whose first byte can be inverted under the same hash |
| `ManifestTwice.TraceFolds` | NetworkModuleTest/Server/ServerEngine/Database/SqlModuleBootstrap.h:111-123 | A table of states that adds up row by row is a run of the hash loop |
| `ManifestHash.HashByteBijective` | NetworkModuleTest/Server/ServerEngine/Database/SqlModuleBootstrap.h:111-123 | For each byte one hash step is a bijection of the 64-bit states, with the state before the step |
| `ManifestHash.HashByteSeparates` | NetworkModuleTest/Server/ServerEngine/Database/SqlModuleBootstrap.h:111-123 | In each state one hash step tells bytes apart |
| `ManifestHash.PrimeUndoes` | NetworkModuleTest/Server/ServerEngine/Database/SqlModuleBootstrap.h:111-123 | The prime is invertible modulo 2^64: multiplying by its inverse undoes it, before and after |
| `ManifestHash.XorUndoes` | NetworkModuleTest/Server/ServerEngine/Database/SqlModuleBootstrap.h:111-123 | Exclusive or with the same byte twice gives the state back |
| `ManifestHash.UnlistedEditIsInvisible` | NetworkModuleTest/Server/ServerEngine/Database/SqlModuleBootstrap.h:132-147 | An edit of a script that is not listed never changes it |
| `ManifestHash.FoldInjective` | NetworkModuleTest/Server/ServerEngine/Database/SqlModuleBootstrap.h:111-123 | Equal bytes never merge two different states |
| `ManifestHash.FoldSeesEdit` | NetworkModuleTest/Server/ServerEngine/Database/SqlModuleBootstrap.h:111-123 | Two texts that differ in one position fold to different states |
| `ManifestHash.HexInjective` | NetworkModuleTest/Server/ServerEngine/Database/SqlModuleBootstrap.h:125-130 | Printing with a fixed number of hex digits is injective |
| `ManifestHash.HashReadsBack` | NetworkModuleTest/Server/ServerEngine/Database/SqlModuleBootstrap.h:125-130 | The 16 printed digits read back as the folded state, most significant first |
| `ManifestHash.AppendHash` | NetworkModuleTest/Server/ServerEngine/Database/SqlModuleBootstrap.h:111-123 | The byte loop folds the value and the 0xff terminator |
| `ManifestHash.ComputeManifestHash` | NetworkModuleTest/Server/ServerEngine/Database/SqlModuleBootstrap.h:132-147 | The loop over the scripts folds the name and, per script, path and text, each terminated, and prints the result |
| `Bootstrap.AtMostOneStarts` | NetworkModuleTest/Server/ServerEngine/Database/SqlModuleBootstrap.h:292-408 | For any number of racing, failing, crashing and restarting instances on a non-Mock database, at most one ever begins a table script of a module, also counting scripts it died in |
| `Bootstrap.ReturnMeansBootstrapped` | NetworkModuleTest/Server/ServerEngine/Database/SqlModuleBootstrap.h:292-408 | A call returns normally only after one instance with the same module and the same manifest hash executed every table script successfully |
| `BootstrapEnds.RanMeansCompleted` | NetworkModuleTest/Server/ServerEngine/Database/SqlModuleBootstrap.h:389-391 | A call that returns true leaves the row COMPLETED with its own hash, in every later state |
| `BootstrapEnds.LaterStartEnds` | NetworkModuleTest/Server/ServerEngine/Database/SqlModuleBootstrap.h:312-343 | Every start of a module whose owner has ended and whose own calls go through returns false if and only if the row is COMPLETED with its hash, and throws otherwise, within five steps of its own |
| `BootstrapEnds.LoneStartCompletes` | NetworkModuleTest/Server/ServerEngine/Database/SqlModuleBootstrap.h:343-391 | A start that has the module to itself and whose calls go through returns true within tableScripts + 7 steps of its own |
| `BootstrapEnds.SettledRowStays` | NetworkModuleTest/Server/ServerEngine/Database/SqlModuleBootstrap.h:217-260 | Once its owner has ended, however it ended, a row never changes |
| `BootstrapEnds.FailedMeansFailed` | NetworkModuleTest/Server/ServerEngine/Database/SqlModuleBootstrap.h:393-407 | A failure that could be recorded leaves the row FAILED, in every later state |
| `BootstrapEnds.OnlyValidSpecsGoOn` | NetworkModuleTest/Server/ServerEngine/Database/SqlModuleBootstrap.h:262-280 | Beyond its start an instance has a module name, a table script and a managed script |
| `Bootstrap.OneCallRuns` | NetworkModuleTest/Server/ServerEngine/Database/SqlModuleBootstrap.h:371-389 | Only one call per module ever reports that it ran the bootstrap |
| `Bootstrap.MockRunsEveryTime` | NetworkModuleTest/Server/ServerEngine/Database/SqlModuleBootstrap.h:302-306 | On a Mock database the run-once promise fails: two instances both run the scripts |
| `Bootstrap.FireGrows` | NetworkModuleTest/Server/ServerEngine/Database/SqlModuleBootstrap.h:217-260 | No step removes a row, changes who inserted it, or forgets an execution |
| `Bootstrap.FireMoves` | NetworkModuleTest/Server/ServerEngine/Database/SqlModuleBootstrap.h:160-260 | The table is touched in three ways only: the owner executes, a missing row is inserted, the owner updates its own row |
| `Bootstrap.FireKeepsTable` | NetworkModuleTest/Server/ServerEngine/Database/SqlModuleBootstrap.h:217-260 | Those ways keep "COMPLETED implies all scripts executed with this hash" and "only the inserter executes" |
| `Bootstrap.InvAlways` | NetworkModuleTest/Server/ServerEngine/Database/SqlModuleBootstrap.h:292-408 | The table and program-counter invariants hold in every reachable state |
| `KeyGenerator.Generator.Next` | NetworkModuleTest/Server/ServerEngine/Utils/KeyGenerator.h:99-105 | The n-th key of a generator, through the wrap of the 64-bit counter |
| `KeyGenerator.KeyFields` | NetworkModuleTest/Server/ServerEngine/Utils/KeyGenerator.h:65-85 | Tag, slot and sequence are read back from every key, and every key is valid |
| `KeyGenerator.KeysEqual` | NetworkModuleTest/Server/ServerEngine/Utils/KeyGenerator.h:56-105 | Two keys are equal exactly when tag, slot and sequence field are |
| `KeyGenerator.FirstRepeat` | NetworkModuleTest/Server/ServerEngine/Utils/KeyGenerator.h:95-105 | The first 2^48 - 1 keys of a generator are distinct, and number 2^48 repeats the first |
| `DbServerQueueRuns.ExactlyOnce` | NetworkModuleTest/Server/TestServer/src/DBServerTaskQueue.cpp:123-175 | Over every run of calls, responses, timeouts, failed checks and sends and a shutdown: each callback is invoked at most once, on one worker only, and exactly once when that worker has been drained |
| `DbServerQueueCodes.StepCallbacks` | NetworkModuleTest/Server/TestServer/src/DBServerTaskQueue.cpp:307-566 | A step invokes a callback with a code if and only if the code has its cause there: the response's own code, a passed deadline, a failed check, a failed send, a refusal or the drain |
| `DbServerQueueCodes.CallbackHasItsCause` | NetworkModuleTest/Server/TestServer/src/DBServerTaskQueue.cpp:307-566 | Every callback in every run was added by one step, and has its cause there |
| `DbServerQueueCodes.AnswerIsTheResponse` | NetworkModuleTest/Server/TestServer/src/DBServerTaskQueue.cpp:401-435 | An answered caller gets the code of a response that came in, to an id under which exactly its task had been sent |
| `DbServerQueueCodes.ResponseIsTheAnswer` | NetworkModuleTest/Server/TestServer/src/DBServerTaskQueue.cpp:401-435 | A response to a request in flight reaches the caller of exactly that request, with its own code |
| `DbServerQueueCodes.FailureCodesMeanFailure` | NetworkModuleTest/Server/TestServer/src/DBServerTaskQueue.cpp:320-394 | InvalidRequest goes only to a task whose check failed, NotConnected only to one that passed and could not be sent |
| `DbServerQueueCodes.EndCodesMeanTheEnd` | NetworkModuleTest/Server/TestServer/src/DBServerTaskQueue.cpp:456-566 | TimedOut goes only to a task whose deadline had passed, ShuttingDown only to one refused or drained |
| `DbServerQueueCodes.StepSends` | NetworkModuleTest/Server/TestServer/src/DBServerTaskQueue.cpp:320-377 | A step sends a task if and only if it examines it, the check passes and the connection takes it |
| `DbServerQueueCodes.ProcessSends` | NetworkModuleTest/Server/TestServer/src/DBServerTaskQueue.cpp:345-377 | A task that passes is sent under the next key and is in flight with a deadline 5000 ms after its clock reading |
| `DbServerQueueCodes.ResponseCameIn` | NetworkModuleTest/Server/TestServer/src/DBServerTaskQueue.cpp:182-204 | Every queued response came in as it is, with an id that names the worker |
| `DbServerQueueCodes.StoppedRefuses` | NetworkModuleTest/Server/TestServer/src/DBServerTaskQueue.cpp:123-175 | After Stop every call is answered with ShuttingDown on the worker of its session |
| `DbServerQueueRuns.Accounted` | NetworkModuleTest/Server/TestServer/src/DBServerTaskQueue.cpp:307-566 | In every reachable state each worker holds or has answered exactly the calls routed to it |
| `DbServerQueueOrder.PerSessionOrder` | NetworkModuleTest/Server/TestServer/src/DBServerTaskQueue.cpp:307-449 | In every run in which no check or send of the session fails, whatever happens to others and also after Stop: its requests are its calls in call order, one at a time, each after the answer or timeout of the one before, and tasks are pending only behind a request in flight |
| `DbServerQueueOrder.RequestsOneAtATime` | NetworkModuleTest/Server/TestServer/src/DBServerTaskQueue.cpp:307-501 | In every run, with failures and shutdown: at most one request of a session is in flight, it is the last one sent, and everything sent before has been answered |
| `DbServerQueueOrder.RisingUntilOvertaken` | NetworkModuleTest/Server/TestServer/src/DBServerTaskQueue.cpp:307-566 | In every run, with failures and shutdown: until a step overtakes, sent, pending and queued tasks of a session are in call order |
| `DbServerQueueOrder.RisingWhileNotStranded` | NetworkModuleTest/Server/TestServer/src/DBServerTaskQueue.cpp:307-566 | In particular while the session is never stranded |
| `DbServerQueueOrder.AfterRising` | NetworkModuleTest/Server/TestServer/src/DBServerTaskQueue.cpp:307-566 | A step ends the call order of a session if and only if it sends a task past older ones that are stranded |
| `DbServerQueueOrder.ArriveRising` | NetworkModuleTest/Server/TestServer/src/DBServerTaskQueue.cpp:311-363 | An arriving task keeps the call order exactly unless it passes while older ones are stranded |
| `DbServerQueueOrder.LandRising` | NetworkModuleTest/Server/TestServer/src/DBServerTaskQueue.cpp:427-449 | The end of a request always keeps the call order |
| `DbServerQueueOrder.LaterCallOvertakes` | NetworkModuleTest/Server/TestServer/src/DBServerTaskQueue.cpp:437-449 | A run from the start in which call 3 is sent while call 2 is still pending |
| `DbServerQueueOrder.TakeTaskLane` | NetworkModuleTest/Server/TestServer/src/DBServerTaskQueue.cpp:307-394 | Taking a task off the queue moves one task of its own session only |
| `DbServerQueueOrder.DrainLane` | NetworkModuleTest/Server/TestServer/src/DBServerTaskQueue.cpp:456-501 | The drain answers what the session had in flight and empties it |
| `DbServerQueueRuns.IdsDistinctAndRouted` | NetworkModuleTest/Server/TestServer/src/DBServerTaskQueue.cpp:182-204 | Below 2^48 ids per worker, ids in flight are distinct across all workers and each routes back to the worker that issued it |
| `DbServerQueueRuns.StaleForever` | NetworkModuleTest/Server/TestServer/src/DBServerTaskQueue.cpp:401-433 | An id that was answered or timed out stays without effect for the rest of the run |
| `DbServerQueueRuns.LandedIdHasNoEffect` | NetworkModuleTest/Server/TestServer/src/DBServerTaskQueue.cpp:182-204 | Response matching in one statement: an id in flight at one step and not at the next routes to its own worker, is never in flight again, and a response to it changes nothing in any later state |
| `DbServerQueueRuns.DrainedStaysEmpty` | NetworkModuleTest/Server/TestServer/src/DBServerTaskQueue.cpp:75-111 | A drained worker stays empty, so nothing is answered a second time |
| `DbServerQueueLanes.ProcessConserves` | NetworkModuleTest/Server/TestServer/src/DBServerTaskQueue.cpp:307-394 | ProcessTask puts its task in exactly one place and moves no other task |
| `DbServerQueueLanes.ResolveConserves` | NetworkModuleTest/Server/TestServer/src/DBServerTaskQueue.cpp:427-449 | Ending a request and promoting a pending task loses and duplicates none |
| `DbServerQueueLanes.SweepConserves` | NetworkModuleTest/Server/TestServer/src/DBServerTaskQueue.cpp:508-566 | Neither does a timeout sweep |
| `DbServerQueueLanes.DrainSessionsCount` | NetworkModuleTest/Server/TestServer/src/DBServerTaskQueue.cpp:456-501 | Walking the sessions, in any order, answers what each holds once |
| `DbServerQueueLanes.DrainConserves` | NetworkModuleTest/Server/TestServer/src/DBServerTaskQueue.cpp:456-501 | After the drain everything the worker still held has been answered |
| `DbServerQueueLanes.ProcessLane` | NetworkModuleTest/Server/TestServer/src/DBServerTaskQueue.cpp:307-394 | ProcessTask changes the view of its own session only, according to whether the task passes check and send |
| `DbServerQueueLanes.ResolveLane` | NetworkModuleTest/Server/TestServer/src/DBServerTaskQueue.cpp:401-449 | Ending a request answers it, promotes at most one pending task, and leaves other sessions alone |
| `DbServerQueueLanes.LandInOrder` | NetworkModuleTest/Server/TestServer/src/DBServerTaskQueue.cpp:437-449 | The end of a request keeps the order of its session |
| `DbServerQueueLanes.ArriveInOrder` | NetworkModuleTest/Server/TestServer/src/DBServerTaskQueue.cpp:307-363 | The arrival of a task keeps the order of its session |
| `DbServerQueueLanes.StrandsIff` | NetworkModuleTest/Server/TestServer/src/DBServerTaskQueue.cpp:328-343 | Pending tasks are left without a request in flight if and only if at least two were pending and the promoted one failed its check or send |
| `DbServerQueueLanes.StrandedIsOvertaken` | NetworkModuleTest/Server/TestServer/src/DBServerTaskQueue.cpp:311-363 | A later task of such a session is sent ahead of the older pending ones |
| `DbServerQueueIds.SweepLeavesNothingExpired` | NetworkModuleTest/Server/TestServer/src/DBServerTaskQueue.cpp:508-566 | After a sweep at time now every request in flight has a later deadline, every session whose deadline had passed was told of its timeout and had at most one pending task promoted, and no other session changed |
| `DbServerQueueIds.SweepEffect` | NetworkModuleTest/Server/TestServer/src/DBServerTaskQueue.cpp:524-565 | The same session by session, for every list of sessions in flight |
| `DbServerQueueIds.ResolvedIsStale` | NetworkModuleTest/Server/TestServer/src/DBServerTaskQueue.cpp:427-449 | Answering or timing out a request makes its id stale |
| `DbServerQueueIds.IdsMoveKeeps` | NetworkModuleTest/Server/TestServer/src/DBServerTaskQueue.cpp:345-363 | Steps that let only the next key become an id in flight keep those ids distinct |
| `DbServerQueueIds.SweepIds` | NetworkModuleTest/Server/TestServer/src/DBServerTaskQueue.cpp:524-565 | A sweep keeps ids in flight distinct and its own |
| `DbServerQueue.WorkerThread.Process` | NetworkModuleTest/Server/TestServer/src/DBServerTaskQueue.cpp:307-394 | Store before send and undo after a failed send compute the specified transition of the worker |
| `DbServerQueue.WorkerThread.Finish` | NetworkModuleTest/Server/TestServer/src/DBServerTaskQueue.cpp:427-449 | Callback, clear, then one pending task or clean-up |
| `DbServerQueue.WorkerThread.Respond` | NetworkModuleTest/Server/TestServer/src/DBServerTaskQueue.cpp:401-449 | The search finds a session with the request id exactly if there is one, then resolves it |
| `DbServerQueue.WorkerThread.CheckTimeouts` | NetworkModuleTest/Server/TestServer/src/DBServerTaskQueue.cpp:508-566 | The two loops list each expired session once and resolve them in that order |
| `DbServerQueue.WorkerThread.Drain` | NetworkModuleTest/Server/TestServer/src/DBServerTaskQueue.cpp:456-501 | Every session, its pending queue and the task queue are answered; everything is empty afterwards |
| `WalProtocol.CrashSafe` | NetworkModuleTest/Server/TestServer/src/DBTaskQueue.cpp:235-320 | At every crash point of one process life the pending tasks of the log are all those queued, held or failed, with their data, none has a Done record, and a task that is no longer pending was executed, was refused, or was not written yet |
| `WalOrder.SessionHasOneWorker` | NetworkModuleTest/Server/TestServer/src/DBTaskQueue.cpp:251-258 | All tasks of a session are queued for one worker |
| `WalOrder.QueuedForItsWorker` | NetworkModuleTest/Server/TestServer/src/DBTaskQueue.cpp:251-258 | Every task that was ever queued for worker q has a session with session modulo workers equal to q |
| `WalOrder.TakenInQueueOrder` | NetworkModuleTest/Server/TestServer/src/DBTaskQueue.cpp:374-386 | In every run a worker takes its tasks exactly in the order they were queued for it |
| `WalOrder.SerialPerWorker` | NetworkModuleTest/Server/TestServer/src/DBTaskQueue.cpp:357-411 | With each queue served by its own thread, no task is taken before every task queued earlier for that worker has ended |
| `WalOrder.WrittenIsQueued` | NetworkModuleTest/Server/TestServer/src/DBTaskQueue.cpp:265-276 | A logged task of a running queue goes to the end of its session's worker |
| `WalOrder.WrittenIsRefused` | NetworkModuleTest/Server/TestServer/src/DBTaskQueue.cpp:277-306 | A logged task of a stopped queue is refused |
| `WalOrder.EntryWasGiven` | NetworkModuleTest/Server/TestServer/src/DBTaskQueue.cpp:235-252 | Every number was drawn by a call of EnqueueTask with exactly the entry the log has for it |
| `WalOrder.RecordsAreWritten` | NetworkModuleTest/Server/TestServer/src/DBTaskQueue.cpp:398-407 | Each step appends exactly the record it owes: P for a new number, D after success or refusal, none after failure |
| `WalOrder.DoneWasExecuted` | NetworkModuleTest/Server/TestServer/src/DBTaskQueue.cpp:398-407 | A number is done only after its execution succeeded |
| `WalOrder.UnsuccessfulFailed` | NetworkModuleTest/Server/TestServer/src/DBTaskQueue.cpp:398-407 | A number is left unsuccessful only after its execution failed |
| `WalOrder.RefusedMeansStopped` | NetworkModuleTest/Server/TestServer/src/DBTaskQueue.cpp:277-306 | A number is refused only after the queue was stopped |
| `WalOrder.CallDrawsANumber` | NetworkModuleTest/Server/TestServer/src/DBTaskQueue.cpp:235-252 | A call on a running queue draws the next number for exactly its entry, on a stopped one it does nothing |
| `WalRecovery.RecoverAfterCrash` | NetworkModuleTest/Server/TestServer/src/DBTaskQueue.cpp:737-923 | The file any run had written when it died, read back and recovered: exactly the owed tasks are queued again, in number order, with their own data, and no unfinished one is missing |
| `WalRecovery.CrashedLogRestores` | NetworkModuleTest/Server/TestServer/src/DBTaskQueue.cpp:771-843 | The pending numbers of a crashed log are exactly the owed ones, with their tasks |
| `WalRecovery.RecoverText` | NetworkModuleTest/Server/TestServer/src/DBTaskQueue.cpp:771-923 | The text of a log, parsed by the modelled loop and rebuilt: the pending tasks of the file in number order |
| `WalRecovery.RecoveringRunRenumbers` | NetworkModuleTest/Server/TestServer/src/DBTaskQueue.cpp:897-920 | In every interleaving of the recovering thread with the workers, the new log renumbers the recovered tasks from 1 in order; those with D records were executed |
| `WalRecovery.RecoveredBesideWorkers` | NetworkModuleTest/Server/TestServer/src/DBTaskQueue.cpp:908-922 | When the recovering thread is through, every recovered task is executed, with its D record, or pending in the new log under its new number |
| `WalRecovery.RecoveryCrashLosesIff` | NetworkModuleTest/Server/TestServer/src/DBTaskQueue.cpp:865-922 | A recovery from any two orderly files that dies anywhere, with workers beside it, loses a task exactly under the condition of WalCrash.TaskLostIff |
| `WalRecovery.SecondCrashLosesIff` | NetworkModuleTest/Server/TestServer/src/DBTaskQueue.cpp:865-922 | For the recovery of the log of any run without backup: lost exactly when its new number was done or refused in the first life, it is not executed yet, and its old number is the new number of another task that is not executed yet |
| `WalRecovery.CrashedLogIsOrderly` | NetworkModuleTest/Server/TestServer/src/DBTaskQueue.cpp:700-735 | The log of every run has no number 0 and no pending number with a D record |
| `WalProtocol.InvAlways` | NetworkModuleTest/Server/TestServer/src/DBTaskQueue.cpp:357-411 | Log, queue and thread invariants hold in every reachable state |
| `WalProtocol.WriteKeepsLog` | NetworkModuleTest/Server/TestServer/src/DBTaskQueue.cpp:644-735 | Writing P for a drawn number or D for a done one keeps the log exact |
| `WalProtocol.FireMovesOne` | NetworkModuleTest/Server/TestServer/src/DBTaskQueue.cpp:235-320 | A step changes the whereabouts of one task only, and only the stepping thread or a queue head |
| `WalProtocol.FireKeepsQueues` | NetworkModuleTest/Server/TestServer/src/DBTaskQueue.cpp:357-411 | Every queued number is in one queue, once, with its own task |
| `WalReplay.Log.ParseFile` | NetworkModuleTest/Server/TestServer/src/DBTaskQueue.cpp:771-837 | The line loop computes the replay of the file on top of what was read before |
| `WalReplay.Log.Requeue` | NetworkModuleTest/Server/TestServer/src/DBTaskQueue.cpp:897-920 | Re-enqueueing numbers the tasks afresh and logs each |
| `WalReplay.ReplayByNumber` | NetworkModuleTest/Server/TestServer/src/DBTaskQueue.cpp:806-837 | The replay of a second file, number by number: a D makes the earlier entry irrelevant, otherwise the earlier entry wins |
| `WalReplay.Log.WalRecover` | NetworkModuleTest/Server/TestServer/src/DBTaskQueue.cpp:737-923 | The recovering thread by itself re-enqueues each pending task of both files once, in sequence order, leaves exactly their records in the new log and no backup, and leaves files in which no number was seen as they are |
| `WalReplay.Log.Rebuild` | NetworkModuleTest/Server/TestServer/src/DBTaskQueue.cpp:845-922 | From the parsed tasks on: clean-up, or removal of the old backup, rename, re-enqueue one by one and removal of the backup, with every state of the disk in between |
| `WalCrash.TrailLeaves` | NetworkModuleTest/Server/TestServer/src/DBTaskQueue.cpp:897-922 | Every state of the disk that the recovering thread of a fresh process passes through is one that the crash analysis covers |
| `WalCrash.TaskLostIff` | NetworkModuleTest/Server/TestServer/src/DBTaskQueue.cpp:865-922 | From any two orderly files and for any progress of recovery and workers: exactly which unexecuted tasks the next start no longer finds. One not re-enqueued yet: if only the removed backup had it. One re-enqueued: if its new number has a D record in the old primary and its old record is missing there or hidden by another new copy |
| `WalCrash.TaskDoubledIff` | NetworkModuleTest/Server/TestServer/src/DBTaskQueue.cpp:865-922 | Exactly which tasks are left in the files twice |
| `WalCrash.DoneReturnsIff` | NetworkModuleTest/Server/TestServer/src/DBTaskQueue.cpp:865-922 | Exactly which tasks that a worker already executed come back |
| `WalCrash.EntryGoneIff` | NetworkModuleTest/Server/TestServer/src/DBTaskQueue.cpp:865-922 | Exactly when an entry is gone from the disk, equal entries included |
| `WalCrash.LostForGoodIff` | NetworkModuleTest/Server/TestServer/src/DBTaskQueue.cpp:865-922 | Without a backup at the start and with distinct tasks, a task that is not kept is one whose entry no number has |
| `WalCrash.NothingLostIff` | NetworkModuleTest/Server/TestServer/src/DBTaskQueue.cpp:865-922 | A recovery can lose nothing wherever it dies if and only if every task is in the primary and none within reach of the new numbers gets the number of a done task |
| `WalCrash.FirstRecoveryLosesIff` | NetworkModuleTest/Server/TestServer/src/DBTaskQueue.cpp:865-922 | Without a backup at the start and before any worker has finished: lost exactly when the old number is at most j and the new number has a D record |
| `WalCrash.LeftByTask` | NetworkModuleTest/Server/TestServer/src/DBTaskQueue.cpp:842-843 | What the next start reads is exactly the surviving copies, each with its own task, and what the removed backup had erased |
| `WalCrash.RemovedBackupIsRenamed` | NetworkModuleTest/Server/TestServer/src/DBTaskQueue.cpp:897-906 | Dying between removal and rename reads like dying right after the rename |
| `WalCrash.CompletedLosesNothing` | NetworkModuleTest/Server/TestServer/src/DBTaskQueue.cpp:920-922 | Once the backup is removed at the end, every task is in the log or executed |
| `WalCrash.ChainIsOrderly` | NetworkModuleTest/Server/TestServer/src/DBTaskQueue.cpp:865-922 | The files stay orderly through any number of recoveries that die, so the conditions hold at every crash |
| `WalCrash.SecondRecoveryLoses` | NetworkModuleTest/Server/TestServer/src/DBTaskQueue.cpp:897-899 | A chain without any D record or reused number: the second recovery removes the backup that alone has a task, and dies |
| `WalReplay.MergeCanLoseATask` | NetworkModuleTest/Server/TestServer/src/DBTaskQueue.cpp:842-843 | Numbers restart at 1: after a crash before the backup is removed, the merge loses one task and has another twice |
| `WalReplay.MergeKeepsAllIff` | NetworkModuleTest/Server/TestServer/src/DBTaskQueue.cpp:842-843 | Per number: the merge of two files keeps what each says on its own if and only if no number is pending in the primary and mentioned by the backup with a different outcome |
| `WalReplay.DisjointNumbersMerge` | NetworkModuleTest/Server/TestServer/src/DBTaskQueue.cpp:842-843 | Files that share no number merge without loss |
| `WalReplay.FreshLogReplays` | NetworkModuleTest/Server/TestServer/src/DBTaskQueue.cpp:897-920 | The log written by a recovery replays to the same tasks under their new numbers |
| `WalText.LineRoundTrip` | NetworkModuleTest/Server/TestServer/src/DBTaskQueue.cpp:660-716 | Parsing a printed P or D line gives the record back for every 64-bit number and session and all data without newline and \x01, also with vertical bars in it |
| `WalText.LogRoundTrip` | NetworkModuleTest/Server/TestServer/src/DBTaskQueue.cpp:771-837 | Reading a file that was appended record by record gives the same records |
| `WalText.LinesInTheFile` | NetworkModuleTest/Server/TestServer/src/DBTaskQueue.cpp:660-716 | Two records as they stand in the file, character by character |
| `WalText.EscapeRoundTripIff` | NetworkModuleTest/Server/TestServer/src/DBTaskQueue.cpp:660-675 | The data field survives if and only if it does not contain \x01 itself |
| `WalText.NumbersRoundTrip` | NetworkModuleTest/Server/TestServer/src/DBTaskQueue.cpp:776-835 | Printed numbers are parsed back by std::stoull and std::stoi as modelled |
| `WalText.PrintLogAppend` | NetworkModuleTest/Server/TestServer/src/DBTaskQueue.cpp:644-698 | Appending a record appends its line |
| `WalText.ParseWalFile` | NetworkModuleTest/Server/TestServer/src/DBTaskQueue.cpp:771-837 | The parsing loop over the text of a file computes the replay of its well-formed lines |
| `Dispatcher.PerKeyOrder` | NetworkModuleTest/Server/ServerEngine/Concurrency/KeyedDispatcher.h:145-268 | Tasks of a key go to one worker, start in the order they were accepted, and none starts before the one accepted earlier has finished |
| `Dispatcher.CountersBalance` | NetworkModuleTest/Server/ServerEngine/Concurrency/KeyedDispatcher.h:145-268 | At every step submitted equals completed plus failed plus queued plus running, and a bounded queue stays within its capacity |
| `Dispatcher.CompletedAndFailed` | NetworkModuleTest/Server/ServerEngine/Concurrency/KeyedDispatcher.h:241-266 | Completed counts the tasks that returned and failed those that threw |
| `Dispatcher.RefusedIffFull` | NetworkModuleTest/Server/ServerEngine/Concurrency/ExecutionQueue.h:121-134 | A push is refused exactly when the queue is shut down or holds exactly its capacity; otherwise its task is last in line at the worker of its key |
| `Dispatcher.CheckedWhileRunning` | NetworkModuleTest/Server/ServerEngine/Concurrency/KeyedDispatcher.h:145-158 | A dispatch passes its check exactly while the dispatcher runs |
| `Dispatcher.OverlapHasACause` | NetworkModuleTest/Server/ServerEngine/Concurrency/KeyedDispatcher.h:106-113 | A shutdown overlaps a dispatch only if one was past its check when the shutdown began |
| `Dispatcher.ShutdownDrains` | NetworkModuleTest/Server/ServerEngine/Concurrency/KeyedDispatcher.h:106-143 | When Shutdown returns a worker has run exactly the tasks accepted before it exited: all of them if and only if none was pushed after its exit, in particular when no dispatch overlapped Shutdown |
| `Dispatcher.ShutdownCounts` | NetworkModuleTest/Server/ServerEngine/Concurrency/KeyedDispatcher.h:106-143 | Then submitted equals completed plus failed |
| `Dispatcher.LateDispatchIsLost` | NetworkModuleTest/Server/ServerEngine/Concurrency/KeyedDispatcher.h:145-170 | A dispatch that read the running flag before Shutdown can be accepted and never run |
| `Dispatcher.ExecutionQueue.TryPush` | NetworkModuleTest/Server/ServerEngine/Concurrency/ExecutionQueue.h:121-134 | Accepts exactly when not shut down and not full; appends |
| `Dispatcher.ExecutionQueue.PushBlocking` | NetworkModuleTest/Server/ServerEngine/Concurrency/ExecutionQueue.h:136-165 | Decides the same once its wait is over |
| `Dispatcher.ExecutionQueue.TryPop` | NetworkModuleTest/Server/ServerEngine/Concurrency/ExecutionQueue.h:84-94 | First in, first out, also after shutdown |
| `ScopePool.ResetNeverAborts` | NetworkModuleTest/Server/ServerEngine/Concurrency/AsyncScope.h:51-65 | While every accepted closure runs, the abort in Reset is unreachable: a slot without references has nothing in flight |
| `ScopePool.ResetAbortsIff` | NetworkModuleTest/Server/ServerEngine/Concurrency/AsyncScope.h:51-65 | Recycling a slot aborts if and only if a closure of it was destroyed without having run |
| `ScopePool.LostClosureAborts` | NetworkModuleTest/Server/ServerEngine/Concurrency/AsyncScope.h:73-101 | It can happen: acquire, submit, drop the caller's reference, lose the queued closure |
| `ScopePool.FreeListIsExact` | NetworkModuleTest/Server/ServerEngine/Network/Core/SessionPool.cpp:73-113 | A slot is on the free list exactly when it is free, once, and no live reference points to a slot on the list |
| `ScopePool.TasksRunOnTheirSession` | NetworkModuleTest/Server/ServerEngine/Network/Core/BaseNetworkEngine.cpp:397-418 | A task runs only on the acquisition of the session it was submitted for |
| `ScopePool.CancelStopsTasks` | NetworkModuleTest/Server/ServerEngine/Concurrency/AsyncScope.h:73-95 | After Cancel a session stays cancelled as long as anyone refers to it: no later Submit is approved and no task that starts later runs its body |
| `ScopePool.CancelledWasClosed` | NetworkModuleTest/Server/ServerEngine/Concurrency/AsyncScope.h:36-65 | A session is cancelled only through a reference to the same acquisition |
| `ScopePool.AcquiredIsOpen` | NetworkModuleTest/Server/ServerEngine/Network/Core/SessionPool.cpp:73-92 | A newly acquired session is not cancelled |
| `ScopePool.CountStep` | NetworkModuleTest/Server/ServerEngine/Concurrency/AsyncScope.h:130-145 | Every step keeps the in-flight count equal to the begun tasks that hold a reference plus the lost ones |
| `ScopePool.RefStep` | NetworkModuleTest/Server/ServerEngine/Network/Core/SessionPool.cpp:73-113 | Every step keeps references pointing to slots in use of the same acquisition, and slots in use referenced |
| `ScopePool.FreeStep` | NetworkModuleTest/Server/ServerEngine/Network/Core/SessionPool.cpp:94-113 | Every step keeps the free list exact |
| `TimerQueue.StartFollowsItsSchedule` | NetworkModuleTest/Server/ServerEngine/Concurrency/TimerQueue.cpp:54-88 | Every invocation goes back to a Schedule call that drew its handle, and starts no earlier than that call's delay after the clock at the call, with its interval |
| `TimerQueue.StartsAreApart` | NetworkModuleTest/Server/ServerEngine/Concurrency/TimerQueue.cpp:196-202 | Invocations of one timer are at least its interval apart; a timer of interval 0 starts at most once |
| `TimerQueue.StartsAreDue` | NetworkModuleTest/Server/ServerEngine/Concurrency/TimerQueue.cpp:153-169 | No callback starts before the fire time of its entry |
| `TimerQueue.StartTimeIsExact` | NetworkModuleTest/Server/ServerEngine/Concurrency/TimerQueue.cpp:54-88 | The fire time of every invocation is exactly the call of Schedule plus its delay, or the end of the invocation before plus the interval |
| `TimerQueue.TimeIsExact` | NetworkModuleTest/Server/ServerEngine/Concurrency/TimerQueue.cpp:196-202 | The same for every live entry |
| `TimerQueue.TakeRunsWhatIsDue` | NetworkModuleTest/Server/ServerEngine/Concurrency/TimerQueue.cpp:148-185 | The worker's pass runs the front of the heap when it is due and not cancelled, drops it when it is cancelled, and otherwise waits |
| `TimerQueue.PromiseKept` | NetworkModuleTest/Server/ServerEngine/Concurrency/TimerQueue.cpp:54-88 | What a Schedule call asked for holds of its timer in every later state |
| `TimerQueue.TakesTheEarliest` | NetworkModuleTest/Server/ServerEngine/Concurrency/TimerQueue.cpp:121-128 | Every entry taken off the heap is due and has the earliest fire time in it |
| `TimerCancel.CancelSilences` | NetworkModuleTest/Server/ServerEngine/Concurrency/TimerQueue.cpp:90-105 | After Cancel no further invocation of that handle starts in the rest of the run, even if the running one reschedules itself and across restarts |
| `TimerCancel.SilentStep` | NetworkModuleTest/Server/ServerEngine/Concurrency/TimerQueue.cpp:168-177 | Every step keeps a cancelled handle silent |
| `TimerCancel.CancelledUntilTaken` | NetworkModuleTest/Server/ServerEngine/Concurrency/TimerQueue.cpp:171-177 | Up to a shutdown or a second Cancel, the handle is in the cancellation set exactly until its entry is taken off the heap |
| `TimerCancel.Situations` | NetworkModuleTest/Server/ServerEngine/Concurrency/TimerQueue.cpp:54-204 | In every reachable state a timer is ahead of its next invocation, in one, or over, and only one of these |
| `TimerCancel.CancelledAheadStaysIff` | NetworkModuleTest/Server/ServerEngine/Concurrency/TimerQueue.cpp:171-177 | Cancelled before its next invocation (unissued, not yet pushed, or waiting), the handle is in the set exactly as long as that invocation is ahead |
| `TimerCancel.CancelledRunningStaysIff` | NetworkModuleTest/Server/ServerEngine/Concurrency/TimerQueue.cpp:179-203 | Cancelled while its callback runs, the handle leaves the set only through a reschedule; a one-shot stays in it until a shutdown |
| `TimerCancel.CancelledOverStays` | NetworkModuleTest/Server/ServerEngine/Concurrency/TimerQueue.cpp:90-105 | Cancelled when its timer is over, the handle stays until a shutdown |
| `TimerCancel.LateCancelLeaks` | NetworkModuleTest/Server/ServerEngine/Concurrency/TimerQueue.cpp:90-105 | A run: a one-shot that ran and is cancelled afterwards leaves its handle in the set |
| `TimerCancel.ForgottenCancelRuns` | NetworkModuleTest/Server/ServerEngine/Concurrency/TimerQueue.cpp:30-52 | A run: a number cancelled before it is issued is forgotten by a shutdown and its timer runs |
| `TimerQueue.HandleStep` | NetworkModuleTest/Server/ServerEngine/Concurrency/TimerQueue.cpp:54-128 | Every step keeps live entries in one place, handles unique and below the next handle, and the heap ordered |
| `TimerQueue.StartStep` | NetworkModuleTest/Server/ServerEngine/Concurrency/TimerQueue.cpp:179-203 | Every step keeps past invocations and live entries of a timer an interval apart |
| `TimerQueue.InvAlways` | NetworkModuleTest/Server/ServerEngine/Concurrency/TimerQueue.cpp:130-204 | Both invariants hold in every reachable state |
| `TimerQueue.Queue.TakeReady` | NetworkModuleTest/Server/ServerEngine/Concurrency/TimerQueue.cpp:148-177 | The worker's pass under the lock: nothing if nothing is due; otherwise pops the front, forgets its cancellation, and runs it only if it was not cancelled |
| `TimerQueue.Queue.PopTop` | NetworkModuleTest/Server/ServerEngine/Concurrency/TimerQueue.cpp:121-128 | Removes one entry, with the earliest fire time |
| `TimerQueue.Queue.PushEntry` | NetworkModuleTest/Server/ServerEngine/Concurrency/TimerQueue.cpp:111-119 | Adds exactly one entry and keeps the heap |
| `TimerQueue.Queue.Finish` | NetworkModuleTest/Server/ServerEngine/Concurrency/TimerQueue.cpp:196-202 | Reschedules an interval after now exactly if asked to and repeating |
| `TimerQueue.Queue.ScheduleOnce` | NetworkModuleTest/Server/ServerEngine/Concurrency/TimerQueue.cpp:54-73 | A fresh handle and one entry with interval 0 |
| `TimerQueue.Queue.ScheduleRepeat` | NetworkModuleTest/Server/ServerEngine/Concurrency/TimerQueue.cpp:75-88 | A fresh handle and one entry with its interval |
| `TimerHeap.PushHeap` | NetworkModuleTest/Server/ServerEngine/Concurrency/TimerQueue.cpp:111-119 | The last element moves up: a heap of the old entries and the new one |
| `TimerHeap.PopHeap` | NetworkModuleTest/Server/ServerEngine/Concurrency/TimerQueue.cpp:121-128 | The front leaves: a heap of exactly the other entries |
| `TimerHeap.FrontIsEarliest` | NetworkModuleTest/Server/ServerEngine/Concurrency/TimerQueue.h:68-75 | The front of a heap has the earliest fire time of all entries |
| `PacketStream.Socket.Recv` | NetworkModuleTest/Client/TestClient/src/PacketStream.cpp:40-63 | Any short read, close or error: what is received is the front of the stream, and nothing else in the buffer below changes |
| `Dispatcher.ExecutionQueue.Push` | NetworkModuleTest/Server/ServerEngine/Concurrency/ExecutionQueue.h:58-82 | Both back-pressure policies accept under the same condition |
| `WalReplay.AscendingKeys` | NetworkModuleTest/Server/TestServer/src/DBTaskQueue.cpp:897-906 | The ordered map is walked in ascending number order, each number once |
| `DbServerQueue.WorkerThread.DrainSession` | NetworkModuleTest/Server/TestServer/src/DBServerTaskQueue.cpp:462-480 | A session is drained in order: its request, then its pending tasks |
| `DbServerQueueLanes.ProcessFrame` | NetworkModuleTest/Server/TestServer/src/DBServerTaskQueue.cpp:307-394 | ProcessTask touches no other session and no queue, and draws at most one key |

## Left out

- SendPath.NoLostWakeup: speaks of one connected lifetime up to the first refused send or drained
  queue; a failed completion (which ends the lifetime) and re-use of a session object with senders
  still inside are not modelled.
- SendPath.HandedInPushOrder: after a refused send or a Close it states a subsequence instead of a
  prefix, because those paths drop packets.
- SessionRecv.Session.ProcessRawRecv: an `OnRecv` callback that closes the session it is called from
  is not modelled.
- DbRecvLoop.Link.DeliverFrames: a session is attached to the link; the branch without one, and
  reconnecting, are not modelled.
- ManifestHash.EditChangesHash: the edited path is listed exactly once, which is needed:
  `ManifestTwice.TwiceListedEditCanHide` has an undetected edit of a path listed twice. Which edits of
  such a path stay hidden is not characterised. Failures to load a script are not modelled.
- DbServerQueueOrder.PerSessionOrder: under the hypothesis that no check or send of the session fails
  and its worker is not drained; `DbServerQueueOrder.RequestsOneAtATime` and
  `DbServerQueueOrder.RisingUntilOvertaken` say what holds in every run.
- DbServerQueueRuns.ExactlyOnce: the check and the push of `EnqueueTask` are one step, and every task
  has a callback; a push that overtakes the drain is not modelled.
- WalProtocol.CrashSafe: records are appended atomically; torn writes, flushing and failed renames are
  not modelled, nor is a log file that cannot be opened.
- WalOrder.SerialPerWorker: each queue is served by its own thread; the drain of Shutdown, which executes
  what is left on the stopping thread after the workers were joined, is not distinguished from a worker.
- WalReplay.Log.WalRecover: the recovering thread by itself, on parsed records; the workers that already
  run beside it (DBTaskQueue.cpp:126-133) are in `WalRecovery.RecoveringRunRenumbers`. A malformed P
  line counts for the largest number seen in the source and not here.
- WalRecovery.RecoveryCrashLosesIff: no other caller enqueues and nobody stops the queue while the
  recovery runs.
- Dispatcher.CountersBalance: the push and the increment of the submitted counter are one step.
- ScopePool.ResetNeverAborts: tasks do not throw out of the scope wrapper; the pool's usage counters
  are not modelled.
- TimerQueue.StartFollowsItsSchedule: drawing a handle and reading the clock are one step, handles do not
  wrap at 2^64, and a callback does not shut down its own queue.
- Windows send paths (IOCP slots, RIO), platform engines, sockets and accept loops: foreign calls; a
  provider accepts a send or refuses it and completes an accepted one later.
- Memory orders weaker than sequential consistency and the timing of condition variables: waits are
  enabled steps.
- Error-message classifiers of the bootstrap, ODBC, OLE DB, PostgreSQL and SQLite back ends: the table
  is an atomic map whose calls may fail with or without effect.
- The byte layout of the query packet, the pending-count statistic and nullable callbacks of
  `DBServerTaskQueue`: easy members.
- `NextGlobalId` (KeyGenerator.h:90-93) is the plain counter that numbers log records; it has no
  member of its own.
- Connection pools, buffer pools, latency statistics, message handlers, configuration, logging, crash
  dumps, the reconnect loop and `main` programs: plumbing or simple counters.
