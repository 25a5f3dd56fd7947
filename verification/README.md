# A verified model of the reactor library

The library is a multi-threaded reactor: every event loop owns a poller, a timer queue and a
queue of functors that other threads may post to; connections live on one loop each, their
server on another. This project models its stateful core in Dafny and proves what its asserts
and comments promise, over every run and not only for one call.

Each module follows one part of the library and has the same shape. The state is a value
(`Layout`, `Loop`, `Queue`, `World`, ...), every operation a function on it, and a `Run` is any
sequence of the steps that threads, timers, peers and the kernel can take. Lemmas about steps
lead to lemmas about runs, which are the main results. Beside it stands a class with the fields
of the original, whose methods change them statement by statement; `View()` (or `State()`) reads
the fields as the value, and each method's postcondition says which function of the old value
the new one is, so that what is proved about runs holds of the methods.

| file | models |
|---|---|
| `Buffer.dfy` | the byte buffer in place in its array, the scatter read included |
| `Channel.dfy` | event masks and the dispatch of one event |
| `EpollPoller.dfy`, `PollPoller.dfy` | the two pollers, with the kernel's side of epoll |
| `PollerRefinement.dfy` | that both watch the same descriptors for the same events |
| `TcpConnection.dfy` | the output path: direct and deferred writes, half-close, high-water mark |
| `TcpServer.dfy` | the life of connections across loops |
| `ServerPollers.dfy` | the connections together with the whole pollers of their loops |
| `EventLoop.dfy` | posting functors, the eventfd, and the drain |
| `TimerQueue.dfy` | timers with callbacks that add and cancel, addresses that are reused |
| `Connector.dfy` | the client's connect, retry and back-off, and who owns each socket |
| `ThreadPool.dfy` | workers, tasks and the draining stop |

## What is not true of the code

Some of what one expects does not hold. Each is stated with the exact condition under which it
does, in both directions, and with a run or input that reaches the failure.

- `PollPoller::RemoveChannel` enters the moved last slot in the index under its descriptor field
  as it stands, so removing a channel breaks the index exactly if the last slot is an ignored
  (negated) one of another channel (`PollPollers.RemoveKeepsInvIff`,
  `PollerRefinement.BadRemoveExample`).
- `PollPoller::RemoveChannel` asserts a negated slot, so it rejects an idle registered channel
  exactly if that was not updated again after its registration; the epoll poller accepts it
  (`PollerRefinement.CallFailsIff`, `UntouchedRemoveExample`).
- `TcpConnection::sendInLoop` adds `nWrote` to the data pointer even when it is -1. A direct
  write that fails with EWOULDBLOCK (or any error but EPIPE and ECONNRESET) queues the byte
  before the message and drops its last one (`TcpConnections.SendConservesIff`, `MisreadExample`).
  The model keeps the code's offset; the number of bytes is conserved all the same
  (`RunConservesLength`).
- The half-close is in order throughout a run exactly if what other threads posted is orderly in
  it (`TcpConnections.RunHalfCloses`). A `shutdown()` from another thread changes the state at once
  and posts `shutdownInLoop`, which can run late: after the output has drained, and then SHUT_WR is
  issued twice, or after the connection has closed with output left, and then it is issued over
  bytes never written (`HalfClosedTwice`, `HalfClosedOverOutput`). And a send posted before the
  half-close can run after it; if its write then fails with an error other than EPIPE and
  ECONNRESET, which only those two branches drop, bytes are queued that can never be written
  (`SpoiledSendExample`). Nothing is written after SHUT_WR in any run.
- `TcpConnection::handleClose` asserts an open connection. The assert fails exactly in an event
  that closes a connection already closed, or closes it twice by itself
  (`TcpServers.AssertFailsIff`). The second happens, among the events a poller can report, exactly
  when the end of the stream is read in a hang-up that comes without POLLIN but with POLLPRI
  (`ClosesTwiceIff`, `DoubleCloseIsReachable`). The first needs a report that finds its connection
  closed, which is exactly one that a delayed forced close has overtaken, for the poller's list of
  active channels is a snapshot (`StaleIffRaces`, `RaceIsReachable`).
- Functors queued by the owning thread before `loop()` starts write no wakeup, so no wakeup is
  lost exactly if there were none (`EventLoops.NothingLostIff`).
- A timer that comes due in the very iteration that gave the connector's channel up, before the
  queued `resetChannel` has run, fails the assert in `connecting` exactly if it starts an attempt,
  as a retry or as a delayed close with reconnecting. Otherwise only the assert of `handleClose`
  can fail, as in the server: in an event that a delayed close has overtaken, or that closes twice
  (`Connectors.AssertFailsIff`, `EarlyRetryIsReachable`, `EarlyCloseIsReachable`,
  `OvertakenIsReachable`).
- An attempt that succeeds with no callback set leaks its socket, and only that does
  (`Connectors.StepIsLinearIff`, `LeakIsReachable`).
- A thread pool loses tasks exactly if one is added when its last worker has returned; nothing
  starts from then on (`ThreadPools.ReturnedPoolIsDrained`, `NothingStartsAfterReturn`,
  `LateTaskIsLost`).

## Model

Methods that change state are proved against the function of the same name; the lemmas beside
them say what that function guarantees.

| member | source | states |
|---|---|---|
| Buffers.EnsureWritableMakesRoom | net/Buffer.h:68-103 | making room keeps the readable bytes, really makes the room, and grows the vector only if that pays: at most to twice of what will then be readable |
| Buffers.StepKeepsOk | net/Buffer.h:51-131 | every operation keeps the indices in order, changes the contents as a byte queue does, and respects the growth bound |
| Buffers.RunIsByteQueue | net/Buffer.h:51-145 | over any run of appends, reads and retrieves, everything put in is everything taken out followed by what is readable |
| Buffers.RunCapacityBound | net/Buffer.h:77-103 | no reachable vector exceeds the larger of its initial size and twice the longest readable slice so far |
| Buffers.EmptyBufferIsAllRoom | net/Buffer.h:112-131 | in every reachable state a buffer read empty has all its room behind the indices |
| Buffers.GrowsOnlyIfFull | net/Buffer.h:77-103 | the vector grows exactly if what is kept and what comes do not fit in it |
| Buffers.ReadTakesMuch | net/Buffer.cpp:10-21 | one read is offered at least 65535 bytes, and the whole free tail |
| Buffers.Buffer.constructor | net/Buffer.h:28-34 | an empty buffer of the given size |
| Buffers.Buffer.ReadableBytes | net/Buffer.h:38-39 | the index difference is the length of the contents |
| Buffers.Buffer.WritableBytes | net/Buffer.h:41-42 | the room behind the contents |
| Buffers.Buffer.Peek | net/Buffer.h:106-109 | the bytes from the read index are the contents |
| Buffers.Buffer.Resize | net/Buffer.h:85 | a longer vector with the same bytes in the same places |
| Buffers.Buffer.MoveToFront | net/Buffer.h:91-100 | the overlapping copy in place keeps the contents and moves them to the front |
| Buffers.Buffer.MakeSpace | net/Buffer.h:77-103 | resizes or compacts; the assert that there is something to move holds when it compacts |
| Buffers.Buffer.EnsureWritableBytes | net/Buffer.h:68-75 | its closing assert holds and the contents stay |
| Buffers.Buffer.Append | net/Buffer.h:51-59 | the contents grow by exactly the bytes given |
| Buffers.Buffer.CopyIn | net/Buffer.h:54-58 | copies into the writable part and nowhere else |
| Buffers.Buffer.HasWritten | net/Buffer.h:62-66 | takes bytes already in place into the contents |
| Buffers.Buffer.Retrieve | net/Buffer.h:112-124 | drops exactly the first bytes, starting over when none is left |
| Buffers.Buffer.RetrieveAll | net/Buffer.h:127-131 | empties the buffer and starts over |
| Buffers.Buffer.RetrieveAsString | net/Buffer.h:139-145 | hands out exactly the bytes it drops |
| Buffers.Buffer.Readv | net/Buffer.cpp:13-24 | the two-vector read fills the vector's rest first and the extra array next |
| Buffers.Buffer.ReadFd | net/Buffer.cpp:8-44 | the contents grow by exactly the delivered bytes, overflow included, or stay when the read fails |
| Channels.ChangesAreIndependent | net/Channel.cpp:51-95 | enabling or disabling one direction leaves the other as it was |
| Channels.ChangeOfBit | net/Channel.cpp:51-95 | each change bit by bit: reading is POLLIN and POLLPRI, writing POLLOUT |
| Channels.CloseAndReadTogether | net/Channel.cpp:102-143 | one dispatch runs both the close and the read callback exactly on a hang-up without POLLIN but with POLLPRI or POLLRDHUP |
| Channels.DispatchExactly | net/Channel.cpp:102-143 | each installed callback runs at most once, closing before reading before writing, and exactly on the events that call for it |
| Channels.Channel.SetInterest | net/Channel.cpp:51-80 | the mask half of the five calls |
| Channels.Channel.HandleEvent | net/Channel.cpp:102-143 | the callbacks run, in their order, for every set of events and of installed callbacks |
| EpollPollers.NewKeepsInv | net/poller/EpollPoller.cpp:64-79 | a channel not yet registered is in neither table |
| EpollPollers.UpdateKeepsInv | net/poller/EpollPoller.cpp:64-107 | the asserts on a known channel hold, the kernel call is a legal one, and status, table and kernel agree again |
| EpollPollers.ChangeKeepsInv | net/Channel.cpp:51-80 | a change of the mask and its update together keep status, table and kernel in agreement |
| EpollPollers.RemoveKeepsInv | net/poller/EpollPoller.cpp:108-136 | removing an idle registered channel passes its asserts and leaves no trace in table or kernel |
| EpollPollers.ChangeResult | net/poller/EpollPoller.cpp:64-107 | a change registers a new channel's descriptor, moves the status, and touches no other channel |
| EpollPollers.MonitoredExactly | net/poller/EpollPoller.cpp:64-154 | the kernel watches exactly what the registered channels want |
| EpollPollers.RunIsLegal | net/poller/EpollPoller.cpp:64-154 | over every run of legal channel calls no assert fails, no ADD meets a present descriptor and no MOD or DEL an absent one, and the kernel watches exactly what the registered channels want |
| EpollPollers.PollerDoesWhatWasAsked | net/poller/EpollPoller.cpp:64-136 | after any legal calls every channel is as the calls alone say, and the kernel watches the registered descriptors for just the masks asked for |
| EpollPollers.EpollPoller.UpdateOperator2Poller | net/poller/EpollPoller.cpp:138-154 | the kernel's answer: refused for ADD of a present and MOD or DEL of an absent descriptor |
| EpollPollers.EpollPoller.UpdateChannel | net/poller/EpollPoller.cpp:64-107 | from agreement but for the channel's new mask to full agreement |
| EpollPollers.EpollPoller.RemoveChannel | net/poller/EpollPoller.cpp:108-136 | the asserts hold and agreement is kept |
| EpollPollers.EpollPoller.Change | net/Channel.cpp:51-80 | mask and poller change together, keeping agreement |
| PollPollers.UpdateKeepsInv | net/poller/PollPoller.cpp:43-89 | the asserts hold, and the index stays a bijection onto the slots |
| PollPollers.ChangeKeepsInv | net/Channel.cpp:51-80 | so it does through any change of a mask |
| PollPollers.RemoveWithKeepsInvIff | net/poller/PollPoller.cpp:92-128 | removal with the moved slot entered under a key keeps the bijection exactly if nothing moves or the key is the descriptor that owns the slot; decoding -(fd+1) would always do |
| PollPollers.RemoveKeepsInvIff | net/poller/PollPoller.cpp:117-123 | as written it does exactly if the removed slot is the last or the last is not an ignored one |
| PollPollers.BadRemoveStrandsMovedChannel | net/poller/PollPoller.cpp:75-81 | otherwise the moved channel's next update fails its bounds assert |
| PollPollers.MonitoredExactly | net/poller/PollPoller.cpp:43-89 | poll is asked about exactly what the registered channels want |
| PollPollers.FiredFindsAll | net/poller/PollPoller.cpp:131-148 | with the count poll returned, the scan reports every marked slot and only those |
| PollPollers.PollPoller.UpdateChannel | net/poller/PollPoller.cpp:43-89 | the asserts hold and the bijection is restored |
| PollPollers.PollPoller.Change | net/Channel.cpp:51-80 | mask and slot change together |
| PollPollers.PollPoller.RemoveChannel | net/poller/PollPoller.cpp:92-128 | swap-with-last removal, and exactly when the bijection survives it |
| PollPollers.PollPoller.Deliver | net/poller/PollPoller.cpp:139-145 | the channel registered for a marked slot gets the slot's events and nothing else changes |
| PollPollers.PollPoller.FillActiveChannels | net/poller/PollPoller.cpp:131-148 | the active list is the channels of the marked slots in order, each with its slot's events, nothing else changed; the lookup's assert holds |
| PollerRefinement.LegalForBoth | net/poller/PollPoller.cpp:43-105 | in agreement a legal call passes every assert of the epoll poller; of the poll poller too, except that a removal does exactly if the channel's slot is negated |
| PollerRefinement.StepKeepsAgreement | net/poller/EpollPoller.cpp:64-136 | every legal call keeps both pollers in agreement about every channel |
| PollerRefinement.ReachedAgree | net/poller/PollPoller.cpp:51-87 | along every run the pollers agree, and a slot is negated exactly if its channel wants nothing and was updated again after its registration |
| PollerRefinement.PollersWatchTheSame | net/poller/PollPoller.cpp:43-128 | after any legal sequence of calls both watch the same descriptors for the same events, those the registered channels want, and the kernel refused nothing |
| PollerRefinement.PollersDoWhatWasAsked | net/poller/PollPoller.cpp:43-128 | both pollers watch the registered descriptors for just what the calls alone ask |
| PollerRefinement.CallFailsIff | net/poller/PollPoller.cpp:98-105 | in every reached pair of states a legal call passes the asserts of net/poller/EpollPoller.cpp:71-125, and fails one of the poll poller exactly if it removes a channel updated just once since its registration |
| PollerRefinement.UntouchedRemoveExample | net/poller/PollPoller.cpp:105 | such a removal is reached |
| PollerRefinement.BadRemoveExample | net/poller/PollPoller.cpp:117-123 | calls that are legal and pass all asserts reach a removal that breaks the index |
| TcpConnections.StepKeepsInterest | net/TcpConnection.cpp:111-169 | while open, write interest is on exactly if output waits; after, the mask is empty |
| TcpConnections.RunKeepsInterest | net/TcpConnection.cpp:111-169 | so it is in every reachable state, stale events and calls from other threads included |
| TcpConnections.SendConservesIff | net/TcpConnection.cpp:208-280 | a send keeps accepted == written ++ waiting, whatever precedes its data in memory, exactly if it is not a direct write failing without the peer being gone |
| TcpConnections.MisreadLoses | net/TcpConnection.cpp:227-273 | for every such send there is a preceding byte that shows in the stream |
| TcpConnections.MisreadExample | net/TcpConnection.cpp:237-273 | such a write queues the byte before the data |
| TcpConnections.StepConserves | net/TcpConnection.cpp:111-147 | every other operation keeps the equation |
| TcpConnections.RunConserves | net/TcpConnection.cpp:111-280 | over every run without such a failure the accepted bytes are the bytes written followed by the bytes waiting, so the wire is always a prefix, in order |
| TcpConnections.RunConservesLength | net/TcpConnection.cpp:208-280 | over every run at all the number of bytes is conserved |
| TcpConnections.StepKeepsClosing | net/TcpConnection.cpp:111-147 | no step writes anything after SHUT_WR |
| TcpConnections.StepKeepsSealedIff | net/TcpConnection.cpp:237-280 | a step accepts something after SHUT_WR exactly if it is a posted send whose write fails with an error other than EPIPE and ECONNRESET |
| TcpConnections.StepHalfClosesIff | net/TcpConnection.cpp:292-308 | a step keeps the half-close in order exactly if it is neither such a send nor a shutdownInLoop, posted by another thread, that runs after SHUT_WR or after a close with output left |
| TcpConnections.RunHalfCloses | net/TcpConnection.cpp:115-135 | over every run, with calls from any thread, nothing is written after SHUT_WR; and it is issued at most once, with every accepted byte written and none accepted after, and after shutdown() exactly if none is left, throughout the run exactly if no step is one of those two |
| TcpConnections.HalfClosedTwice | net/TcpConnection.cpp:131-134 | a run that issues SHUT_WR twice |
| TcpConnections.HalfClosedOverOutput | net/TcpConnection.cpp:301-308 | a run that issues it over output never written |
| TcpConnections.SpoiledSendExample | net/TcpConnection.cpp:239-257 | a run that accepts bytes after SHUT_WR, which can never be written |
| TcpConnections.StepQueuesHighWater | net/TcpConnection.cpp:256-271 | a step queues the callback exactly if the output length crosses the mark upwards, with the length reached |
| TcpConnections.RunHighWaterExact | net/TcpConnection.cpp:256-271 | over a run the callbacks queued are exactly the upward crossings of the mark |
| TcpConnections.StepDoes | net/TcpConnection.cpp:57-334 | every step, told from the step and the state before: the bytes it accepts, the bytes written, what it queues for the user or the loop, and the state it leaves |
| TcpConnections.StepShuts | net/TcpConnection.cpp:131-134 | the half-closes of every step, told so |
| TcpConnections.RunDoesWhatWasAsked | net/TcpConnection.cpp:208-280 | over every run the data of all sends, but for those that find the peer gone with nothing waiting, is the wire followed by what waits (as long, if there was a misread); the wire is what write(2) took; and the callbacks, the posted work and the half-closes are those each step calls for |
| TcpConnections.StateAdvances | net/TcpConnection.cpp:149-169 | no step takes a closing or closed connection back |
| TcpConnections.EventIsDispatch | net/Channel.cpp:102-143 | an event runs the callbacks the channel dispatches, in order |
| TcpConnections.EventDoes | net/TcpConnection.cpp:92-169 | in terms of bits: a hang-up or the end of the stream closes and unwatches; else POLLOUT writes what it can of what waits, with the interest and the half-close that follow |
| TcpConnections.TcpConnection.constructor | net/TcpConnection.cpp:18-32 | a connecting connection with nothing written, waiting or watched |
| TcpConnections.TcpConnection.SendInLoop | net/TcpConnection.cpp:208-280 | over the real buffer, channel and socket, does to the stream what the send function does; its assert on `remaining` holds |
| TcpConnections.TcpConnection.Defer | net/TcpConnection.cpp:262-278 | high-water check, append and write interest |
| TcpConnections.TcpConnection.Send | net/TcpConnection.cpp:178-200 | sends only while connected: at once on the loop's thread, by a posted functor from another |
| TcpConnections.TcpConnection.HandleWrite | net/TcpConnection.cpp:111-147 | partial and full flushes: the written prefix leaves the buffer, and the last one turns interest off, tells the user and half-closes if that was asked for |
| TcpConnections.TcpConnection.ShutdownInLoop | net/TcpConnection.cpp:301-308 | SHUT_WR exactly if nothing waits |
| TcpConnections.TcpConnection.Shutdown | net/TcpConnection.cpp:292-299 | only a connected one starts to disconnect; the half-close follows at once on the loop's thread, by a posted functor from another |
| TcpConnections.TcpConnection.RunQueued | net/Eventloop.cpp:253-256 | the connection's functors run in the order they were queued |
| TcpConnections.TcpConnection.ForceClose | net/TcpConnection.cpp:310-319 | an open one starts to disconnect and has its close queued |
| TcpConnections.TcpConnection.ForceCloseWithDelay | net/TcpConnection.cpp:321-330 | an open one starts to disconnect |
| TcpConnections.TcpConnection.ForceCloseInLoop | net/TcpConnection.cpp:332-339 | closes exactly what is still open |
| TcpConnections.TcpConnection.HandleClose | net/TcpConnection.cpp:149-169 | disconnected and unwatched, the stream as it was |
| TcpConnections.TcpConnection.HandleEvent | net/Channel.cpp:102-143 | a reported event closes at most once and then writes no more, or flushes |
| TcpConnections.TcpConnection.ConnectEstablished | net/TcpConnection.cpp:57-70 | connected and read |
| TcpConnections.TcpConnection.ConnectDestroyed | net/TcpConnection.cpp:72-90 | the connection's part of the destruction |
| TcpServers.StepKeepsInv | net/TcpServer.cpp:60-113 | a step fails an assert exactly if it is an event that closes a connection closed before, or twice; any other keeps each connection where its state says, each loop's table right, and in the queues exactly the one message each connection waits for |
| TcpServers.AssertFailsIff | net/TcpConnection.cpp:153 | over every interleaving at all, the steps that fail an assert are exactly the events that close a closed connection or close one twice |
| TcpServers.ReportedIsAlive | net/Eventloop.cpp:134-140 | in every reachable state a reported connection still exists and cannot be deleted before its event is handled |
| TcpServers.StaleIffRaces | net/TcpConnection.cpp:321-330 | a reported event comes to find its connection closed exactly by a delayed close that comes due in between |
| TcpServers.AssertsNeverFail | net/TcpServer.cpp:109 | over every interleaving in which no delayed close overtakes a reported event, no step but an event that closes twice by itself fails an assert: this one, net/TcpConnection.cpp:37, 62 and 153, and net/poller/EpollPoller.cpp:119-125 |
| TcpServers.RaceIsReachable | net/TcpConnection.cpp:321-330 | a run in which a delayed close and the peer's close make an assert fail |
| TcpServers.DoubleCloseIsReachable | net/Channel.cpp:107-134 | a run in which one event, a hang-up with POLLPRI and without POLLIN, closes twice |
| TcpServers.OpenConnectionIsTracked | net/TcpServer.cpp:76-89 | a connected or disconnecting connection is in the table, and its channel is in its own loop's poller under its descriptor and in no other place |
| TcpServers.HandleCloseKeeps | net/TcpConnection.cpp:149-169 | closing an open connection passes the assert and sends the message that leads to its destruction, on the base loop or on another |
| TcpServers.FrontIsDue | net/TcpServer.cpp:102-113 | a message found in a queue is for a connection whose state waits for it, and there is one |
| TcpServers.StepCounts | net/TcpConnection.cpp:72-90 | a step runs handleClose, or ConnectDestoryed, exactly if the connection goes into the closed, or destroyed, state by it, and neither is left |
| TcpServers.ClosedAndDestroyedOnce | net/TcpServer.cpp:95-113 | over a run each of the two runs once exactly if the connection has closed, or been destroyed, otherwise never, and destruction only after the close |
| TcpServers.DestructionIsUnderWay | net/TcpServer.cpp:95-113 | between the two exactly one message is under way, on the base loop or on the connection's |
| TcpServers.NoClosedConnectionLeaks | net/TcpServer.cpp:102-113 | with the queues run dry every closed connection has been destroyed, and but for a delayed close nothing holds it |
| TcpServers.ForcedClosesAreQueued | net/TcpConnection.cpp:310-319 | over a run every forced close of an open connection is queued once and taken off only by running, and one that has run has closed it |
| TcpServers.ForceCloseCloses | net/TcpConnection.cpp:310-339 | so with the queues run dry every connection forced to close is closed |
| TcpServers.DelayedCloseCloses | net/TcpConnection.cpp:321-339 | a delayed close of an open connection sets one timer, and once a timer has fired the connection is closed |
| TcpServers.AcceptedIsHeld | net/TcpServer.cpp:60-93 | an accepted connection has the next number, the loop chosen and the descriptor given, is in the table, and leaves the others alone |
| TcpServers.AskedIsDisconnecting | net/TcpConnection.cpp:292-330 | a shutdown or forced close starts to disconnect the connection asked, and only that |
| TcpServers.StepAdvances | net/TcpConnection.cpp:57-90 | no step takes a connection back in its life, or moves it to another loop or descriptor |
| TcpServers.IdleIsSettled | net/TcpServer.cpp:60-113 | with the queues run dry every connection is open or destroyed |
| TcpServers.DeleteKeeps | net/TcpConnection.cpp:34-38 | an object nothing refers to has been destroyed: the destructor's assert holds and no poller has its channel |
| TcpServers.EventFailsIff | net/Channel.cpp:102-135 | the dispatch of one event runs into the assert exactly if it closes a connection closed before, or is a hang-up without POLLIN whose read callback runs too and finds the end; else it is one close or none |
| TcpServers.ClosesTwiceIff | net/Channel.cpp:107-134 | among the events a poller can report, that is exactly a hang-up without POLLIN but with POLLPRI |
| TcpServers.TcpServer.constructor | net/TcpServer.cpp:17-35 | the initial state |
| TcpServers.TcpServer.NewConnection | net/TcpServer.cpp:60-93 | established at once or by message |
| TcpServers.TcpServer.RemoveConnection | net/TcpServer.cpp:95-100 | at once or by message |
| TcpServers.TcpServer.RemoveConnectionInLoop | net/TcpServer.cpp:102-113 | erased; destruction queued |
| TcpServers.TcpServer.UpdateChannel | net/poller/EpollPoller.cpp:64-107 | table and status for a new mask |
| TcpServers.TcpServer.ConnectEstablished | net/TcpConnection.cpp:57-70 | connected and registered |
| TcpServers.TcpServer.ConnectDestroyed | net/TcpConnection.cpp:72-90 | out of the poller |
| TcpServers.TcpServer.HandleClose | net/TcpConnection.cpp:149-169 | closed, unwatched, its removal begun |
| TcpServers.TcpServer.ForceCloseInLoop | net/TcpConnection.cpp:332-339 | closes exactly what is open |
| TcpServers.TcpServer.ForceClose | net/TcpConnection.cpp:310-319 | closing, its close queued |
| TcpServers.TcpServer.ForceCloseWithDelay | net/TcpConnection.cpp:321-330 | closing, held by a timer |
| TcpServers.TcpServer.Shutdown | net/TcpConnection.cpp:292-299 | the state only |
| TcpServers.TcpServer.RunFunctor | net/Eventloop.cpp:253-256 | whatever functor comes first, its asserts hold and the invariant is kept |
| ServerPollers.StepFollows | net/TcpConnection.cpp:57-90 | each step of the server makes just these changes to connections' channels: a new one, its first watch, the end of watching, its removal, its end |
| ServerPollers.DoneMirrors | net/poller/EpollPoller.cpp:64-136 | each such call passes the poller's asserts, does to the channel in the poller what the server's model does, and touches nothing else |
| ServerPollers.InterestMirrors | net/TcpConnection.cpp:124 | turning the write interest of an open connection on or off keeps it watched for reading |
| ServerPollers.MoveAgrees | net/poller/EpollPoller.cpp:64-154 | a step of the server, a change of write interest, or a call for another channel of a loop keeps every poller in agreement with the server, passing the poller's asserts |
| ServerPollers.RunAgrees | net/poller/EpollPoller.cpp:64-154 | so along every run, among the wakeup, timer and acceptor channels of the loops and with addresses used again: no poller's assert fails and the kernel refuses nothing |
| ServerPollers.KernelWatchesTheOpen | net/TcpServer.cpp:76-112 | in every reachable state the kernel of a connection's loop watches it for reading, with the pointer to its channel, if it is open, and does not have its descriptor if it is not |
| EventLoops.StepKeepsInvariants | net/Eventloop.cpp:158-258 | each single step of a producer, the loop or the kernel keeps both: no lost wakeup, and push order |
| EventLoops.RunLosesNothing | net/Eventloop.cpp:128-172 | over every interleaving from an empty queue: with work queued the eventfd is readable or some thread is about to write it, and functors start once each in push order |
| EventLoops.QueuedWorkIsReported | net/Eventloop.cpp:132-143 | so a loop at poll with work queued and no writer under way is about to return and see its wakeup channel |
| EventLoops.DrainRunsEverythingSwapped | net/Eventloop.cpp:241-258 | when a drain ends, exactly what had been pushed before its swap has run, whoever pushed meanwhile |
| EventLoops.NothingLostIff | net/Eventloop.cpp:158-172 | no run loses a wakeup exactly if nothing was queued before loop() |
| EventLoops.StartedInOrderGiven | net/Eventloop.cpp:158-258 | over every run what is given to queueInLoop is what was started, then what is taken, then what is queued |
| EventLoops.EventfdCountsWrites | net/Eventloop.cpp:204-239 | the eventfd holds the number of writes since its last read, up to its limit: poll reports the wakeup exactly if there was one, and the read takes them all |
| EventLoops.OneWriteForEachPush | net/Eventloop.cpp:165-170 | every push by another thread or by a running functor is followed by one write, and no other push by any |
| EventLoops.EventLoop.Push | net/Eventloop.cpp:158-170 | the locked push, and that it asks for a wakeup exactly when one is owed |
| EventLoops.EventLoop.Wakeup | net/Eventloop.cpp:204-224 | the write pays what the push owed |
| EventLoops.EventLoop.Poll | net/Eventloop.cpp:134-135 | reports the wakeup channel exactly if the eventfd is positive |
| EventLoops.EventLoop.HandleWakeupChannelRead | net/Eventloop.cpp:226-239 | the read empties the eventfd |
| EventLoops.EventLoop.SwapPending | net/Eventloop.cpp:243-251 | flag and swap |
| EventLoops.EventLoop.StartFunctor | net/Eventloop.cpp:253-256 | functors start from the front |
| EventLoops.EventLoop.FinishDraining | net/Eventloop.cpp:257 | only after the last functor |
| EventLoops.EventLoop.Others | net/Eventloop.cpp:158-171 | whatever other threads push and write, order and wakeups are kept |
| EventLoops.EventLoop.QueueInLoop | net/Eventloop.cpp:158-172 | a push by the draining thread is followed by its write, others in between or not |
| EventLoops.EventLoop.RunFunctor | net/Eventloop.cpp:253-256 | a running functor's own pushes, others between them or not, lose no wakeup, and wait behind the rest |
| EventLoops.EventLoop.HandlePendingFunctors | net/Eventloop.cpp:241-258 | everything pending runs in order while functors and other threads queue more; what is left has a wakeup on its way, and is just what the functors queued if nobody else did |
| EventLoops.EventLoop.Drain | net/Eventloop.cpp:253-256 | the same of its loop |
| EntrySets.InsertInOrder | net/TimerQueue.cpp:205-207 | insertion into the ordered set keeps order and adds just the entry |
| EntrySets.EraseInOrder | net/TimerQueue.cpp:144 | erasure keeps order and takes out just the entry |
| EntrySets.LowerBoundSplits | net/TimerQueue.cpp:224-229 | the bound with the largest address splits the set exactly at `now` |
| TimerQueues.RunKeepsInv | net/TimerQueue.cpp:116-281 | every reachable state, in an alarm or out of one, keeps indexes, ledger, timing and arming in order whatever callbacks add and cancel |
| TimerQueues.RunIndexesAgree | net/TimerQueue.cpp:188-247 | both indexes hold the same timers under their current expirations, have equal sizes, and share no timer with the expiring batch |
| TimerQueues.RunOwnsEachTimerOnce | net/TimerQueue.cpp:134-158 | every timer created is exactly one of pending, expiring and freed, and freed once |
| TimerQueues.RunsAreSpaced | net/Timer.cpp:6-17 | two runs of one timer mean that it repeats and that they are at least its interval apart; a one-shot runs at most once |
| TimerQueues.PendingTimersAreArmed | net/TimerQueue.cpp:45-60 | outside an alarm a pending timer has the timerfd fired or armed no later than the earliest expiration or 100 microseconds after arming |
| TimerQueues.ArmedForTheFirst | net/TimerQueue.cpp:45-80 | whenever a step arms the timerfd it is for the timer then first, at its expiration or 100 microseconds ahead, whichever is later |
| TimerQueues.AlarmReadsTheFd | net/TimerQueue.cpp:169 | an alarm empties a timerfd that has fired and leaves one that has not |
| TimerQueues.AlarmTakesExactlyTheDue | net/TimerQueue.cpp:221-247 | getExpired takes exactly the timers due, in order, and leaves the later ones |
| TimerQueues.AlarmRunsExactlyTheDue | net/TimerQueue.cpp:160-181 | during an alarm exactly the timers due at its start run, in order and once, whatever callbacks add or cancel |
| TimerQueues.AlarmOutcome | net/TimerQueue.cpp:249-267 | after it the repeating ones not cancelled meanwhile are pending one interval after the alarm and the other due ones are gone |
| TimerQueues.CancelTouchesOnlyItsOwn | net/TimerQueue.cpp:134-158 | cancelling an id changes nothing for a timer with another sequence number, even at the same address |
| TimerQueues.CancelledTimerStops | net/TimerQueue.cpp:150-155 | from its cancellation on, in every continuation, a timer runs at most once more, only if it waits its turn in the batch, and is never pending again |
| TimerQueues.AddedTimerIsThere | net/TimerQueue.cpp:106-125 | the queue holds the timer that was asked for, its time, interval and repetition, under the id returned, and the others as before |
| TimerQueues.AddedTimerIsKept | net/TimerQueue.cpp:249-267 | a timer added and not cancelled does what was asked for in every continuation: one that repeats is never lost, any other waits until it runs, and runs once |
| TimerQueues.StepKeepsInv | net/TimerQueue.cpp:116-281 | the invariant, step by step |
| TimerQueues.SizesAgree | net/TimerQueue.cpp:137 | the size asserts hold |
| TimerQueues.TimerQueue.constructor | net/TimerQueue.cpp:83-92 | an empty queue |
| TimerQueues.TimerQueue.ResetTimerFd | net/TimerQueue.cpp:45-80 | armed for the expiration but at least 100 microseconds ahead |
| TimerQueues.TimerQueue.Insert | net/TimerQueue.cpp:188-219 | the timer enters both indexes, the asserts hold, and the result says whether it is now the earliest |
| TimerQueues.TimerQueue.AddTimerInLoop | net/TimerQueue.cpp:116-125 | inserts and re-arms for a new earliest timer |
| TimerQueues.TimerQueue.NewTimer | net/Timer.h:11-19 | the timer, with a number of its own, at the allocator's address |
| TimerQueues.TimerQueue.AddTimer | net/TimerQueue.cpp:106-114 | on the loop's thread, the queue then holds just the timer asked for beside the others, under the id returned |
| TimerQueues.TimerQueue.AddNumbered | net/TimerQueue.cpp:106-125 | the timer enters the queue under its number, drawn now or earlier by another thread |
| TimerQueues.TimerQueue.EraseLive | net/TimerQueue.cpp:141-149 | a live timer leaves both indexes and is freed |
| TimerQueues.TimerQueue.CancelInLoop | net/TimerQueue.cpp:134-158 | the asserts hold and the cancellation is a step of the run |
| TimerQueues.TimerQueue.GetExpired | net/TimerQueue.cpp:221-247 | hands out exactly the due entries and takes them out of both indexes; its asserts hold |
| TimerQueues.TimerQueue.RunTimer | net/Timer.h:21-24 | the timer run is still allocated |
| TimerQueues.TimerQueue.Restart | net/Timer.cpp:6-17 | one interval after the alarm, or invalid if it does not repeat |
| TimerQueues.TimerQueue.ResetOne | net/TimerQueue.cpp:252-267 | re-inserts a repeating timer not cancelled, frees any other |
| TimerQueues.TimerQueue.Reset | net/TimerQueue.cpp:249-280 | so for the whole batch, and the timerfd is armed for the earliest timer |
| TimerQueues.TimerQueue.Callback | net/TimerQueue.cpp:176-179 | whatever a callback does to the queue, the batch being run stays as it is |
| TimerQueues.TimerQueue.ReadTimerFd | net/TimerQueue.cpp:169 | empties a timerfd that has fired |
| TimerQueues.TimerQueue.BeginAlarm | net/TimerQueue.cpp:167-174 | the alarm begins with the due timers as its batch |
| TimerQueues.TimerQueue.RunAll | net/TimerQueue.cpp:176-179 | each timer of the batch runs, in order, with its callback's doings in between |
| TimerQueues.TimerQueue.HandleRead | net/TimerQueue.cpp:160-185 | the alarm is a run from its first statement to `reset`, to which the results on alarms apply |
| Connectors.StepKeepsInv | net/Connector.cpp:35-272 | a step fails an assert exactly if a timer is too early or has overtaken an event, or an event closes twice; any other keeps state, channel and queued reset in agreement |
| Connectors.RunKeepsInv | net/Connector.cpp:200-256 | over every run at most one attempt or live retry is outstanding, and the delay is in its range |
| Connectors.AssertFailsIff | net/Connector.cpp:43-136 | over every run the asserts in startInLoop, connecting and handleWrite (net/Connector.cpp:46, 127, 190) fail exactly if a timer starts an attempt before the queued resetChannel has run; and the connection's (net/TcpConnection.cpp:153, so that net/TcpClient.cpp:143 never does) exactly in an event that a delayed close has overtaken or that closes twice |
| Connectors.EarlyRetryIsReachable | net/Connector.cpp:245-246 | a run that reaches such a retry |
| Connectors.EarlyCloseIsReachable | net/TcpConnection.cpp:321-330 | a run that reaches such a restart |
| Connectors.OvertakenIsReachable | net/TcpConnection.cpp:149-153 | a run that reaches an event overtaken by a delayed close |
| Connectors.ChannelEventKeeps | net/Connector.cpp:138-192 | the handler finds its channel watched, and its success or retry leaves one reset queued |
| Connectors.StepIsLinearIff | net/Connector.cpp:57-116 | a step keeps every socket owned exactly once, unless and only unless it succeeds with no callback set |
| Connectors.RunOwnsEachSocketOnce | net/Connector.cpp:138-256 | with the callback set, every socket ever created is exactly one of held by the attempt under way, closed once, or handed over once |
| Connectors.AttemptByErrno | net/Connector.cpp:57-119 | errno by errno: the new socket is held by a watched channel, closed with a retry timer set, or only closed |
| Connectors.ProbeDecides | net/Connector.cpp:138-192 | an error or a connection to oneself gives the socket up; success hands it to the client, or closes it if connecting was disabled |
| Connectors.StopDecides | net/Connector.cpp:218-227 | stopping gives up just an attempt under way |
| Connectors.CloseDecides | net/TcpClient.cpp:136-155 | a closed connection is let go, its destruction queued; a new attempt from the initial delay exactly if the client retries and is enabled |
| Connectors.NeverGivesUp | net/Connector.cpp:229-256 | unless it is stopped or meets an error that is not a passing one, exactly one attempt is always to come, waiting, under way or successful |
| Connectors.StoppedCreatesNothing | net/Connector.cpp:47-54 | a stopped connector creates no socket and sets no timer until it is started or restarted |
| Connectors.StopTakesEffect | net/Connector.cpp:210-227 | over every run an attempt under way with connecting disabled has its stopInLoop queued |
| Connectors.StartTells | net/Connector.cpp:35-41 | start enables, and attempts at once or by a functor |
| Connectors.StopTells | net/Connector.cpp:210-216 | stop disables at once and queues the rest |
| Connectors.ClientTells | net/TcpClient.h:32-33 | enableRetry sets the flag, disconnect clears the switch |
| Connectors.ForceCloseTells | net/TcpConnection.cpp:310-319 | a forced close of the client's connection is queued |
| Connectors.FunctorTells | net/Connector.cpp:43-55 | a start functor attempts exactly if enabled; a reset drops the channel |
| Connectors.ForcedCloseTells | net/TcpClient.cpp:136-148 | a forced close lets the connection go exactly if it is still the client's |
| Connectors.RetryTells | net/Connector.cpp:245-246 | a retry timer creates a socket exactly if connecting is enabled |
| Connectors.CloseTells | net/TcpClient.cpp:136-148 | a delayed close, and an event that closes, let the connection go |
| Connectors.LeakIsReachable | net/Connector.cpp:172-179 | without the callback a socket is lost |
| Connectors.StepBacksOff | net/Connector.cpp:245-249 | a step doubles the delay exactly if it sets a timer, and goes back to the initial one exactly on a restart |
| Connectors.RunBacksOff | net/Connector.cpp:200-249 | the delay is 500 ms doubled with every timer since the last restart, at most 30 s |
| Connectors.DelaysInNumbers | net/Connector.cpp:16-17 | 500, 1000, 2000, 4000, 8000, 16000 ms, then 30 s |
| Connectors.Connector.constructor | net/Connector.cpp:19-27 | the initial state |
| Connectors.Connector.Start | net/Connector.cpp:35-41 | enables; starts at once or by a functor |
| Connectors.Connector.StartInLoop | net/Connector.cpp:43-55 | attempts exactly if enabled |
| Connectors.Connector.Connect | net/Connector.cpp:57-119 | by errno: under way, retried, only closed |
| Connectors.Connector.ToConnecting | net/Connector.cpp:121-136 | the socket is held by a watched channel |
| Connectors.Connector.HandleWrite | net/Connector.cpp:138-192 | retry, hand over, or close |
| Connectors.Connector.Restart | net/Connector.cpp:200-207 | initial delay, new attempt |
| Connectors.Connector.Stop | net/Connector.cpp:210-216 | disables; the rest is queued |
| Connectors.Connector.StopInLoop | net/Connector.cpp:218-227 | gives an attempt up |
| Connectors.Connector.Retry | net/Connector.cpp:229-256 | closes; timer exactly if enabled |
| Connectors.Connector.RemoveAndResetChannel | net/Connector.cpp:258-268 | unwatched, reset queued |
| Connectors.Connector.NewConnection | net/TcpClient.cpp:102-134 | takes the socket over |
| Connectors.Connector.RemoveConnection | net/TcpClient.cpp:136-155 | lets go; restarts exactly if it may |
| Connectors.Connector.RunFunctors | net/Eventloop.cpp:253-256 | any batch of functors runs without a failing assert and with every socket owned once |
| ThreadPools.StepKeepsPartition | threadpool/threadpool.cpp:47-72 | every step of a worker or caller keeps each task exactly one of queued, in flight, finished |
| ThreadPools.RunPartitionsTasks | threadpool/threadpool.cpp:47-72 | so it is over every interleaving |
| ThreadPools.TaskStartsOnce | threadpool/threadpool.cpp:54-69 | a task that has left the queue was started once, any other never |
| ThreadPools.GivenTasksCount | threadpool/threadpool.h:23-36 | over every run each task given joins the end of the queue under its number, and workers are done with as many different tasks as they have finished |
| ThreadPools.WorkersGoOn | threadpool/threadpool.cpp:54-69 | a worker that has not returned has a step to take as soon as there is a task or the stop |
| ThreadPools.ReturnedPoolIsDrained | threadpool/threadpool.cpp:30-44 | once all workers have returned, nothing is queued, and equally every task ever added has finished, exactly if no task was added when all had returned |
| ThreadPools.LastWorkerDrains | threadpool/threadpool.cpp:59-63 | a worker that has returned has left for good, and the last one left nothing behind |
| ThreadPools.NothingStartsAfterReturn | threadpool/threadpool.cpp:59-65 | in every continuation of such a state no task starts or finishes, so what is queued then never runs |
| ThreadPools.LateTaskIsLost | threadpool/threadpool.h:23-36 | a pool of any size can lose a task so |
| ThreadPools.ThreadPool.constructor | threadpool/threadpool.cpp:20-28 | all workers waiting, no task |
| ThreadPools.ThreadPool.AddTask | threadpool/threadpool.h:23-36 | to the end of the queue |
| ThreadPools.ThreadPool.WaitAndTake | threadpool/threadpool.cpp:53-66 | a worker takes the first task, or returns exactly if stopped with nothing queued |
| ThreadPools.ThreadPool.FinishTask | threadpool/threadpool.cpp:69 | its task has finished |
| ThreadPools.ThreadPool.Stop | threadpool/threadpool.cpp:33-34 | the flag and nothing else |
| ThreadPools.ThreadPool.Others | threadpool/threadpool.cpp:47-72 | what other workers and callers do is a run, and leaves this worker where it is |
| ThreadPools.ThreadPool.ThreadFunc | threadpool/threadpool.cpp:47-72 | a worker's turns among any doings of the others are a run, and it leaves only a stopped pool with nothing queued |
| ThreadPools.ThreadPool.ThreadFuncAfterStop | threadpool/threadpool.cpp:47-72 | alone, a worker finishes everything queued before it returns |

## Left out

Not modelled:

- Creating, binding, listening and accepting sockets, addresses, logging, main programs: I/O and
  wrappers. What system calls answer is a parameter, within their bounds (a write takes at most
  what it is given, a readv delivers at most the offered space).
- The round-robin choice of a loop and thread start-up: the server model lets any loop be chosen.
- `Timestamp::getNow` and the arithmetic in it: clocks are any non-decreasing readings, intervals
  a repeat flag with a number of microseconds already truncated.
- Data races on plain fields (the state read by `send`, the raw pointers in posted sends and in
  `shutdown`, the timer read after it is posted, the sequence counter): calls are atomic steps.
- The messages a connection delivers to its user, and the error branch of `handleRead`, which the
  unsigned result makes unreachable.
- Growth of the epoll poller's event array and its list of active channels; what the kernel does
  to registrations when a descriptor is closed while registered (the proofs show that none is).
- The channel's `eventHandling_` flag and the pollers' thread asserts.
- A second `start()` of a connector.
- Functors whose destructors queue more work, and `quit`.
- That the thread pool's workers do return: the stop flag is stored without the mutex, so a
  worker can miss it; only what holds once they have returned is claimed.
- Destroying a server or a client that still has connections, and a timer queue with timers.

Modelled in another form:

- Event masks are sets of flags, not integers; only membership is ever asked.
- The two ordered sets of the timer queue are a sorted sequence and a set; addresses are numbers,
  which the allocator may give out again once they are free.
- Channels and connections are reached through tables indexed by pointers or numbers, so that
  object identity and reuse of addresses stay visible in the state.
- TcpServers.AssertsNeverFail: covers runs without the race of a delayed close with a reported
  event, and events that do not close twice, because in those the assert of `handleClose` does
  fail; `AssertFailsIff` and `StaleIffRaces` are exact over all runs.
- TcpConnections.RunConserves: covers runs without a direct write that fails with the peer still
  there, because the code then queues other bytes; `SendConservesIff` is exact.
- Channels.Channel.SetInterest: does not call `update()`, because the pollers' `Change` methods do
  that together with the mask.
- ThreadPools.ThreadPool.ThreadFuncAfterStop: one worker with nobody adding tasks, because it
  says what the worker itself does to the queue; `ThreadFunc` and the lemmas have the others.
- TimerQueues.TimerQueue.AddTimer: the call on the loop's thread, because a call from another
  thread is `AddNumbered` when the loop runs its functor.
- EventLoops.RunLosesNothing: starts from an empty queue; `NothingLostIff` is exact.
- The server's objects (tables, queues, pollers of all loops) are fields of one class, and so are
  the connector's and its client's.
- TcpConnections.TcpConnection.Send: a posted send carries its bytes, because what the caller's
  memory holds when the raw pointer is used is not part of any state here.
- TcpConnections.TcpConnection.ForceCloseWithDelay: the state only, because the timer is not part
  of that module; `TcpServers` has it.
- TcpServers.TcpServer.Shutdown: the half-close itself is not in this module, because it does not
  touch the life of the connection; `TcpConnections` has it.
- TcpConnections.TcpConnection.ConnectDestroyed: does not take the channel out of the poller,
  because the poller is not part of that module; `TcpServers` has it.
