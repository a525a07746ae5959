# A model of the reactor network library and of the cluster chat service

The repository is a multi-reactor TCP library (`src/net`, `include/net`) and a chat service that runs on
several servers at once (`src/server`). This project models the parts whose correctness is a matter of
protocol rather than of one function body, and proves what every run of them keeps:

- **the life of a connection across loops**: accepted on the base loop, registered on an io loop, closed
  there, unlinked on the base loop, destroyed on the io loop by a queued functor (`ServerSpec`,
  `OwnershipInvariant`, `OwnershipSteps`, `OwnershipActions`, `Ownership`, `Dispatch`);
- **the functor queue and the eventfd**: any number of producers, one consumer, push and wakeup as
  separate steps (`LoopSpec`, `WakeupProtocol`);
- **the output path of a connection**: direct and partial writes, buffering, EPOLLOUT, deferred half-close,
  high-water and write-complete notifications (`TcpSpec`, `TcpOutcomes`, `SendPath`, `HalfClose`,
  `Notifications`);
- **the buffer**: an array with two indices, overlapping compaction, growth, scatter read (`BufferSpec`,
  `NetBuffer`);
- **the poller**: the index of a channel, the poller's table and the kernel's interest set (`PollerSpec`);
- **the chat cluster**: one user table, one broker, several servers (`ChatSpec`, `ChatSessions`,
  `ChatConservation`, `ChatDelivery`);
- and the round-robin choice of a loop, in the pool and in the whole server (`ThreadPoolSpec`, `Placement`).

Classes of the source are classes here (`NetBuffer.Buffer`, `Reactor.Channel`, `Reactor.EpollPoller`,
`Reactor.EventLoop`, `ThreadPool.EventLoopThreadPool`, `TcpConnections.TcpConnection`,
`TcpServers.TcpServer`, `ChatServices.ChatService` with its `Tables` and `Redis`). Each method is proved to
do to the object's fields what a function of a `...Spec` module does to a value; the theorems about whole
runs are about transition systems whose steps are those same functions. The methods that only forward a call
or change one field (`Update` and `Remove` of a channel; `UpdateChannel`, `RemoveChannel`, `Wakeup` and
`HandleRead` of a loop; `SetState` of the tables; `Subscribe` and `Unsubscribe` of the broker) are links of
that refinement and have no row below. `dafny verify dfyconfig.toml` checks everything.

## Main results

1. `Ownership.ExactlyOnePhase`, `ListedIsOwned`, `DescriptorsAreFresh`, `DispatchIsSafe`: in every reachable
   state of a server with any number of loops, each connection that is not destroyed is in exactly one of
   three phases and something holds a shared pointer to it; a poller lists only such connections; a
   descriptor returned by `accept` is known to no poller; a channel that waits to be dispatched is alive
   when its turn comes. `NeverStuck` shows that the guards of the model do not buy this by blocking a loop.
2. `Ownership.ClosedExactlyOnce`, `RunsMoveForward`, `TasksAdvance`, `NothingLingers`: one Up, one Down, one
   call of the close callback, in that order, and a state that never goes back; each queued functor finds
   its connection in the phase it is meant for; and once all loops are at rest the table holds exactly the
   connections that are up, the others being destroyed and free to go. `Placement.ConnectionsGoRound`: with
   n io loops the connections lie round them in the order of accepting.
3. `Dispatch.HangUpCloses`, `EndOfInputCloses`, `OutputDrains`, `TurnIsHandleEvent`, `FunctorsMoveInOrder`: in
   every state, exactly when a close begins and what each handler makes of the kernel's answer; in every
   reachable state, that no functor is lost or overtaken.
4. `WakeupProtocol.NoLostWakeup`, `NoSpuriousWakeup`, `ExactlyOnceInOrder`, `PromptQuit`: over all interleavings.
5. `TcpOutcomes.KernelTookTheMessages`, `EveryDeliveryIsTold`, `SendPath.EverySendIsAccountedFor`, `InputStream`,
   `HalfClose.HalfCloseIsExact`, `HalfClose.ShutdownIsSafeIff`, `Notifications.HighWaterCountsCrossings`,
   `Notifications.WriteCompleteIsAccurate`: over all runs of one connection.
6. `BufferSpec.RunIsFifo`, `BufferSpec.SpaceBound` and `SpaceBoundIsReached`, with the array algorithms of
   `NetBuffer.Buffer`.
7. `PollerSpec.AlwaysAgree`: table, kernel and channels agree after any calls, every epoll_ctl is legal.
8. `ChatSessions.SessionsAgree`, `ChatConservation.CopiesAreConserved`, `ChatDelivery.GroupChatGoesToEachMember`,
   `LoginAnswers`, `LogoutEndsTheSession`: over all runs of the cluster.

## Hypotheses

- epoll reports only descriptors of its interest set, each at most once per wait, only input or output that
  was asked for, and a hang-up whenever it likes. Nothing proved here needs more than that; that epoll is
  level-triggered matters only for how soon a report comes.
- `write` and `readv` take or give any legal number of bytes, or fail. `accept` returns a positive
  descriptor that is not open. A wakeup write adds one to the eventfd unless its counter is full.
- `nextConnId_` does not overflow and the 64 bytes of `snprintf` in `newConnection` suffice.
- In `ServerSpec` a handler is one step, except that `handlerClose` is two, so that other steps may fall
  where the user's connection callback runs; what user callbacks do (send, shutdown, keep or drop a
  pointer) are steps of their own. A `send` from another thread tests the state and queues its functor in
  one step there; `SendPath` splits the two. That a queued `sendInLoop` finds its connection alive
  (`Ownership.DispatchIsSafe`) rests on that step being one, since the functor is bound to a raw pointer.
- `shutdown` is called on the connection's own loop.
- Each handler of the chat service is one step, although `login` is not atomic in the code
  (`src/server/chatService.cc:62-101`); database and redis calls succeed, a subscription takes effect at
  once, and the broker keeps what it has published to a server until that server has handled it.

## Where the code differs from what it seems to promise

- `disableAll` takes the descriptor out of the kernel set exactly when the channel's index is kAdded
  (`PollerSpec.DisableAllLeavesTheKernelIff`). On any other channel the same call takes the first branch of
  `updateChannel` (`src/net/EpollPoller.cc:65-75`) and registers it, with an empty mask: the second of two calls
  does (`DisableAllTwiceRegistersAgain`), and so does a first call on a channel that was never enabled
  (`DisablingANewChannelRegistersIt`), which `~Acceptor` makes if the server was not started
  (`src/net/Acceptor.cc:33-37`). The `remove` that follows there cleans up in every case
  (`DisableThenRemoveLeavesNothing`). The closing of a connection always meets a channel that is kAdded
  (`Ownership.HangUpDisablesForGood`, `EndOfFileDisablesForGood`, `DestructionOnlyRemoves`).
- `shutdown` overtakes a `send` of another thread that has passed its state test and has not run yet: the
  late functor then writes to a socket whose write side is closed (`HalfClose.LateTaskWrites`), or buffers
  bytes behind SHUT_WR (`HalfClose.LateTaskBuffers`). This is possible exactly when such a send is under way
  at the call of `shutdown` (`HalfClose.ShutdownIsSafeIff`); `HalfClose.AShutdownCanBeEarly` is a run from the
  start in which it happens.
- The one caller of `shutdown`, the chat server's connection callback (`src/server/chatServer.cc:33-40`), calls
  it on a connection that is already disconnected, where it does nothing.
- A functor that the loop's own thread queues before `loop()` does not wake the loop, since the test asks
  only for another thread or a running pass (`src/net/EventLoop.cc:115`); `WakeupProtocol.EnteringLosesEarlyTasksIff`.
- `clientCloseException` removes one table entry. If two ids have logged in on one connection the other
  entry stays, and its user stays "online", exactly then; `ChatSessions.EntryStaysIffTwoIds`.
- The exact bound on the size of a buffer is below 2P + 7, P the most it ever held: it does not grow while
  P is at most the initial size, and reaches 2P + 6 above that, or 9 if P is 1 (`BufferSpec.SpaceBound`,
  `SpaceBoundIsReached`).

## Model

| member | source | states |
|---|---|---|
| `BufferSpec.RoomIsMade` | include/net/Buffer.h:95-103 | making room for len bytes leaves at least len writable, keeps content and index order, and never shrinks the buffer |
| `BufferSpec.CompactionMovesDown` | include/net/Buffer.h:121-135 | compaction is chosen exactly when the free space suffices, and then the data starts above the prepend area, so the overlapping forward copy is well defined |
| `BufferSpec.ReadvHasRoom` | src/net/Buffer.cc:9-23 | one readv may bring what the writable tail holds and, only if that is shorter than the spill buffer, 65535 bytes more |
| `BufferSpec.StepIsFifo` | include/net/Buffer.h:31-92 | each operation acts on the readable bytes as on a FIFO queue: old content and arriving bytes equal departing bytes and new content |
| `BufferSpec.RunIsFifo` | include/net/Buffer.h:11-141 | over any run, what was there and what arrived equals what departed, in order, and what is left |
| `BufferSpec.StepSpace` | include/net/Buffer.h:121-135 | one operation never shrinks the buffer, grows it to no more than twice what it leaves and a constant, and not at all if what it leaves fits |
| `BufferSpec.SpaceBound` | include/net/Buffer.h:121-135 | over any run from a fresh buffer the size never shrinks and stays within the exact bound for the initial size and the peak content P, and so within the larger of the start and 2P + 7 |
| `BufferSpec.SpaceBoundIsReached` | include/net/Buffer.h:121-135 | for every initial size and every peak a run reaches that bound |
| `NetBuffer.Buffer.constructor` | include/net/Buffer.h:18-22 | a new buffer has both indices behind the prepend area and nothing to read |
| `NetBuffer.Buffer.CopyIn` | include/net/Buffer.h:34-34 | copying in place writes exactly the given bytes at the given place and nothing elsewhere |
| `NetBuffer.Buffer.MoveDown` | include/net/Buffer.h:131 | the ascending overlapping copy moves the old bytes intact when the target lies below the source |
| `NetBuffer.Buffer.MakeSpace` | include/net/Buffer.h:121-135 | grows or compacts in place; the array's new view is the specified one |
| `NetBuffer.Buffer.FillTail` | include/net/Buffer.h:34-35 | the tail takes the bytes and the content grows by exactly them, in place |
| `NetBuffer.Buffer.EnsureWriteableBytes` | include/net/Buffer.h:95-103 | makes space only when the writable tail is too short |
| `NetBuffer.Buffer.Append` | include/net/Buffer.h:31-36 | the array then reads as before with the data behind |
| `NetBuffer.Buffer.RetrieveAll` | include/net/Buffer.h:75-78 | resets both indices, the array untouched |
| `NetBuffer.Buffer.Retrieve` | include/net/Buffer.h:63-73 | drops len bytes from the front, or everything if there are no more than len |
| `NetBuffer.Buffer.RetrieveAsString` | include/net/Buffer.h:87-92 | returns the first len bytes and drops exactly those |
| `NetBuffer.Buffer.ReadFd` | src/net/Buffer.cc:9-42 | appends exactly the bytes received, across the writable tail and the spill buffer, and returns their number; on failure changes nothing, returns -1 and the errno |
| `PollerSpec.OpKeepsAgreement` | src/net/EpollPoller.cc:61-102 | every operation of a channel keeps it in agreement with table and kernel, issues only legal epoll_ctl calls, and touches no other descriptor |
| `PollerSpec.KernelRule` | src/net/EpollPoller.cc:116-135 | the kernel takes ADD of an absent descriptor and MOD or DEL of a present one, changing that descriptor alone; what it refuses changes nothing |
| `PollerSpec.StepKeepsAgreement` | src/net/EpollPoller.cc:61-135 | with many channels on distinct descriptors, one call on one of them keeps all in agreement |
| `PollerSpec.AlwaysAgree` | src/net/EpollPoller.cc:61-135 | so do any calls: index is kAdded exactly when the kernel maps the fd to the channel with its events, not kNew exactly when hasChannel; every epoll_ctl was legal |
| `PollerSpec.FreshChannelsAgree` | src/net/Channel.cc:11-14 | new channels on distinct descriptors agree with an empty poller |
| `PollerSpec.FirstUpdateIsLegalIffFdUnknown` | src/net/EpollPoller.cc:65-75 | the first update of a channel is legal exactly when the kernel does not know its descriptor |
| `PollerSpec.DisableAllLeavesTheKernelIff` | src/net/EpollPoller.cc:61-89 | disableAll takes the descriptor out of the kernel set exactly when the index is kAdded, and otherwise registers it with an empty mask |
| `PollerSpec.DisablingANewChannelRegistersIt` | src/net/EpollPoller.cc:65-75 | disabling a channel that was never enabled puts it into the table and the kernel set |
| `PollerSpec.DisableAllTwiceRegistersAgain` | src/net/EpollPoller.cc:65-75 | after a disableAll that worked, a second one adds the descriptor to the kernel set again |
| `PollerSpec.DisableThenRemoveLeavesNothing` | src/net/Acceptor.cc:33-37 | disableAll then remove leaves the descriptor in neither table nor kernel set, whatever the index was |
| `WakeupProtocol.StepKeepsWake` | src/net/EventLoop.cc:61-161 | every step of every thread keeps the wakeup invariant |
| `WakeupProtocol.StepKeepsFifo` | src/net/EventLoop.cc:97-161 | every step keeps: enqueued = executed, then rest of the batch, then pending |
| `WakeupProtocol.NoLostWakeup` | src/net/EventLoop.cc:109-119 | at the blocking poll with functors pending, the eventfd is readable or a producer is between push and wakeup |
| `WakeupProtocol.EnteringLosesEarlyTasksIff` | src/net/EventLoop.cc:109-119 | the loop goes to sleep on pending functors exactly when its own thread queued before loop() and nobody else wakes it |
| `WakeupProtocol.AnEarlyTaskCanBeLost` | src/net/EventLoop.cc:109-119 | a run in which that happens |
| `WakeupProtocol.ExactlyOnceInOrder` | src/net/EventLoop.cc:97-161 | every functor queued is executed, in the batch or pending, once, in order of queueing; each thread's in its program order |
| `WakeupProtocol.PassRunsItsSnapshot` | src/net/EventLoop.cc:145-161 | a pass that ends has run exactly what was pending when it took its batch |
| `WakeupProtocol.NoSpuriousWakeup` | src/net/EventLoop.cc:121-170 | in every run the eventfd counts the wakeups written since it was last read, as far as it can count; the poll returns for it only if there was one, and reading it leaves none |
| `WakeupProtocol.LoopGoesOn` | src/net/EventLoop.cc:61-82 | in every run the loop thread can take its next step, leaves the loop only at its test with the flag set, and entering the loop resets the flag |
| `WakeupProtocol.QuitIsFinal` | src/net/EventLoop.cc:61-94 | after a quit request inside loop() the flag stays and the loop never polls again |
| `WakeupProtocol.PromptQuit` | src/net/EventLoop.cc:61-94 | a quit request finds the loop about to leave its poll or about to exit; no further poll |
| `WakeupProtocol.CallsFromElsewhere` | src/net/EventLoop.cc:84-119 | queueInLoop and quit of another thread are the push and the wakeup of the protocol |
| `WakeupProtocol.CallsFromTheLoop` | src/net/EventLoop.cc:84-119 | the loop's own queueInLoop wakes the loop only from inside a pass, its own quit never |
| `TcpSpec.SendConserves` | src/net/TcpConnection.cc:154-219 | sendInLoop takes a message whole or not at all, and keeps bytes recorded as written + bytes waiting = messages taken; the record is tied to the kernel by TcpOutcomes.SendDoes |
| `TcpSpec.SendIsSteady` | src/net/TcpConnection.cc:154-219 | sendInLoop keeps: while up, EPOLLOUT is wanted exactly when bytes wait |
| `TcpSpec.SendIsLocal` | src/net/TcpConnection.cc:154-219 | sendInLoop touches no other descriptor and queues only notifications of its connection |
| `TcpSpec.ShutdownIsSound` | src/net/TcpConnection.cc:261-277 | shutdown keeps the connection's invariant and moves kConnected to kDisConnecting only |
| `TcpSpec.HandleWriteIsSound` | src/net/TcpConnection.cc:82-118 | draining keeps conservation and the EPOLLOUT rule, and changes neither state nor callbacks heard; what it takes is TcpOutcomes.HandleWriteDoes |
| `TcpSpec.CloseIsSound` | src/net/TcpConnection.cc:120-135 | handlerClose takes the descriptor out of the kernel set, ends in kDisconnected, and tells the user once |
| `TcpSpec.EstablishedIsSound` | src/net/TcpConnection.cc:239-246 | connectionEstablished registers the channel for reading and tells the user once |
| `TcpSpec.DestroyedIsSound` | src/net/TcpConnection.cc:248-259 | connectionDestroyed of a closed connection removes its channel and tells nobody |
| `TcpOutcomes.SendDoes` | src/net/TcpConnection.cc:154-219 | case by case from the kernel's answer: if nothing waits, exactly the n bytes write took are recorded and the rest of the message waits; EPIPE and ECONNRESET drop it, other failures buffer it whole; otherwise it waits behind what waits; nothing else changes |
| `TcpOutcomes.HandleWriteDoes` | src/net/TcpConnection.cc:82-118 | exactly the n bytes write took leave the front of the buffer; EPOLLOUT stays wanted while bytes wait; the last byte of a disconnecting connection is followed by SHUT_WR; a failure changes nothing |
| `TcpOutcomes.ShutdownDoes` | src/net/TcpConnection.cc:261-277 | only a kConnected connection changes, and SHUT_WR is made at once exactly if EPOLLOUT is not wanted |
| `TcpOutcomes.HandleReadDoes` | src/net/TcpConnection.cc:59-80 | bytes reach the input buffer and the user, end of input closes with Down then Closed, a failure changes nothing |
| `TcpOutcomes.LifecycleDoes` | src/net/TcpConnection.cc:120-259 | the state, the wanted events and the callbacks after establishing, closing and destroying |
| `SendPath.StepKeepsGood` | src/net/TcpConnection.cc:59-277 | every step of every thread keeps the connection's invariant |
| `SendPath.RunKeepsGood` | src/net/TcpConnection.cc:59-277 | so does every run |
| `SendPath.RunKeepsOrder` | src/net/TcpConnection.cc:221-237 | messages taken and messages queued are in each thread's order of sending |
| `SendPath.WireStream` | src/net/TcpConnection.cc:154-237 | in every run, bytes written followed by bytes waiting are the accepted messages whole and end to end, each thread's in its order |
| `TcpOutcomes.NothingIsRuledOut` | src/net/TcpConnection.cc:59-277 | every legal answer of the kernel and every call of the user is a step of the runs |
| `TcpOutcomes.KernelTookTheMessages` | src/net/TcpConnection.cc:82-237 | in every run the bytes the kernel's answers say it took, then the bytes waiting, are the accepted messages whole and end to end |
| `TcpOutcomes.EveryDeliveryIsTold` | src/net/TcpConnection.cc:59-80 | over any run the message callback is called once for each readv that brought bytes, and at no other time |
| `SendPath.IssuedOnce` | src/net/TcpConnection.cc:221-237 | no two calls of send issue the same message |
| `SendPath.EverySendIsAccountedFor` | src/net/TcpConnection.cc:154-237 | in every run each message given to send is in exactly one place: taken, queued for the loop, between a thread's test and its push, or refused as the connection was not up or the write faulted |
| `SendPath.InputStream` | src/net/TcpConnection.cc:59-80 | in every run the bytes the user took out of the input buffer, then those still in it, are the bytes readv delivered, in order |
| `HalfClose.HalfCloseIsExact` | src/net/TcpConnection.cc:261-277 | SHUT_WR is the last call on the socket, made with nothing waiting; a disconnecting connection has made it or has bytes waiting and EPOLLOUT armed in the kernel |
| `HalfClose.OnLoopRunsAreCareful` | src/net/TcpConnection.cc:261-277 | that covers every run whose sends are on the connection's own loop |
| `HalfClose.DrainShuts` | src/net/TcpConnection.cc:82-118 | one full drain of a disconnecting connection issues the deferred SHUT_WR |
| `HalfClose.LateTaskWrites` | src/net/TcpConnection.cc:154-219 | a queued send that runs after SHUT_WR writes to the closed side and its message is dropped |
| `HalfClose.LateTaskBuffers` | src/net/TcpConnection.cc:154-219 | or, unless the write faults, buffers what was not written, with EPOLLOUT armed |
| `HalfClose.ShutdownIsSafeIff` | src/net/TcpConnection.cc:221-277 | no call on the socket ever follows SHUT_WR, if and only if no send of another thread was under way at shutdown |
| `HalfClose.AShutdownCanBeEarly` | src/net/TcpConnection.cc:221-277 | one step from a new connection a send is under way, and a run goes on from there to a write after SHUT_WR |
| `Notifications.SendQueues` | src/net/TcpConnection.cc:154-219 | exactly which notifications sendInLoop queues, and what it buffers |
| `Notifications.HighWaterCountsCrossings` | src/net/TcpConnection.cc:204-210 | over any run, high-water notifications are as many as upward crossings of the mark |
| `Notifications.NoSecondWithoutDrain` | src/net/TcpConnection.cc:204-210 | while the buffer stays at or above the mark there is no further notification |
| `Notifications.HighWaterTellsTheSize` | src/net/TcpConnection.cc:204-210 | the notification carries the number of bytes then waiting |
| `Notifications.SendNotifiesIff` | src/net/TcpConnection.cc:166-185 | sendInLoop queues write-complete exactly when one direct write took the whole message |
| `Notifications.DrainNotifiesIff` | src/net/TcpConnection.cc:82-118 | handlerWrite queues write-complete exactly when it empties the buffer |
| `Notifications.DrainQueues` | src/net/TcpConnection.cc:82-118 | handlerWrite queues exactly one write-complete when the kernel takes all that waits, and nothing otherwise |
| `Notifications.WriteCompleteIsAccurate` | src/net/TcpConnection.cc:82-218 | write-complete is queued only when every byte accepted so far has gone to the kernel |
| `ThreadPoolSpec.PickedIsModulo` | src/net/EventLoopThreadPool.cc:34-48 | from any position, the k-th pick is the loop k places on, round the ring; without loops it is the base loop |
| `ThreadPoolSpec.RoundRobin` | src/net/EventLoopThreadPool.cc:34-48 | the k-th call on a fresh pool returns loop k mod n |
| `ThreadPoolSpec.TimesExactly` | src/net/EventLoopThreadPool.cc:34-48 | how often each loop is chosen in m calls, exactly |
| `ThreadPoolSpec.Fair` | src/net/EventLoopThreadPool.cc:34-48 | over any m consecutive calls each loop is chosen floor(m/n) or ceil(m/n) times |
| `ThreadPool.EventLoopThreadPool.constructor` | src/net/EventLoopThreadPool.cc:6-8 | a new pool has no loops and starts at the first |
| `ThreadPool.EventLoopThreadPool.Start` | src/net/EventLoopThreadPool.cc:12-31 | start fills the pool with the loops of its threads, in order |
| `ThreadPool.EventLoopThreadPool.GetNextLoop` | src/net/EventLoopThreadPool.cc:34-48 | returns the pick and advances, staying in range |
| `ThreadPool.EventLoopThreadPool.GetAllLoops` | src/net/EventLoopThreadPool.cc:50-60 | the loops, or the base loop alone; never none |
| `Names.DecimalHasValue` | src/net/TcpServer.cc:69 | the decimal form of a number determines it |
| `Names.NameTellsTheNumber` | src/net/TcpServer.cc:68-71 | a name is the server's prefix and then digits that read as the connection's number |
| `Names.NamesAreUnique` | src/net/TcpServer.cc:68-71 | two connections have the same name only if they have the same number |
| `OwnershipActions.StepKeepsInv` | src/net/TcpServer.cc:64-125 | every action of any loop, of the user and of the kernel keeps the ownership invariant |
| `OwnershipActions.ReferencedUntilGone` | src/net/TcpServer.cc:97-124 | under the invariant a connection whose channel is not removed is not freed and is held by the table, a queued functor or a running batch |
| `OwnershipActions.OpenFdsAreFree` | src/net/EpollPoller.cc:65-75 | under the invariant a descriptor that is not open is in no table and no kernel set |
| `Ownership.ReachableIsGood` | src/net/TcpServer.cc:64-125 | every reachable state satisfies the invariant |
| `Ownership.ExactlyOnePhase` | src/net/TcpServer.cc:64-125 | each connection not destroyed is open in the table, or in it with exactly one removal running or queued, or out of it with exactly one destruction queued; and it is alive and held |
| `Ownership.ListedIsOwned` | src/net/EpollPoller.cc:61-102 | a channel in any poller's table belongs to a live, held connection of that loop and descriptor |
| `Ownership.DescriptorsAreFresh` | src/net/EpollPoller.cc:65-75 | the descriptor given to newConnection is in no poller, and a freed connection's descriptor is in none |
| `Ownership.DispatchIsSafe` | src/net/EventLoop.cc:67-79 | every channel still to be dispatched is listed, alive and held when its turn comes |
| `Ownership.NeverStuck` | src/net/EventLoop.cc:67-79 | in every reachable state each loop can take its next step, and the dispatching base loop can accept |
| `Ownership.HangUpDisablesForGood` | src/net/TcpConnection.cc:120-127 | in every run a close begun by a hang-up finds its channel kAdded and takes the descriptor out of the kernel set |
| `Ownership.EndOfFileDisablesForGood` | src/net/TcpConnection.cc:69-72 | so does a close begun by the end of the input (Dispatch.EndOfInputCloses says when that is) |
| `Ownership.DestructionOnlyRemoves` | src/net/TcpConnection.cc:248-259 | in every run connectionDestroyed finds the connection disconnected, so it disables nothing and only removes the channel |
| `Dispatch.NothingIsRuledOut` | src/net/EventLoop.cc:67-79 | in every reachable state any event a registered channel asked for, and any hang-up, may be reported, and anyone on a connection's loop may send and shut down |
| `Dispatch.EventsReachTheirChannels` | src/net/EpollPoller.cc:105-113 | each event returned is handed, with its own flags and in order, to the live channel of its descriptor |
| `Dispatch.HangUpCloses` | src/net/Channel.cc:62-69 | a close begins here if and only if a hang-up without input was reported: disconnected, no events wanted, one more Down |
| `Dispatch.EndOfInputCloses` | src/net/TcpConnection.cc:59-80 | a close begins here if and only if input was reported and has come to its end; input with bytes goes to the buffer and the user; else nothing changes |
| `Dispatch.OutputDrains` | src/net/TcpConnection.cc:82-118 | a channel reported writable is drained by what the kernel takes, any other is not; the next channel follows |
| `Dispatch.TurnIsHandleEvent` | src/net/Channel.cc:58-94 | the stages of a channel's turn in the server, one after the other, are one call of the object's handleEvent |
| `Dispatch.LocalCallsArrive` | src/net/TcpConnection.cc:221-277 | a send on the loop's thread does what a send does if kConnected and nothing if not; a shutdown likewise |
| `Dispatch.RemoteSendsArrive` | src/net/TcpConnection.cc:221-237 | a send of another thread changes no connection and is queued last on the connection's loop |
| `Dispatch.QueuedSendsArrive` | src/net/TcpConnection.cc:231-235 | a queued send does what a send does when its turn comes |
| `Dispatch.OthersStay` | src/net/TcpConnection.cc:59-277 | an action leaves every connection but its own exactly as it was |
| `Dispatch.AcceptAddsOne` | src/net/TcpServer.cc:64-107 | accepting adds one connection with its descriptor and callbacks, in the table, up at once on the base loop and not yet up on another |
| `Dispatch.FreeingClosesTheSocket` | src/net/Socket.cc:12-15 | a freed connection's descriptor is open no more |
| `Dispatch.FunctorsMoveInOrder` | src/net/EventLoop.cc:97-161 | in the whole server a loop's functors are run from the front and queued at the back: none is dropped, doubled or overtaken |
| `Ownership.TasksAdvance` | src/net/TcpServer.cc:106-124 | each of the three lifecycle functors finds its connection in the phase it is meant for and takes it to the next |
| `Ownership.CloseAdvances` | src/net/TcpConnection.cc:120-135 | the end of handlerClose leaves the connection to be unlinked by the base loop, or, on the base loop, unlinked with its destruction queued |
| `Ownership.NothingLingers` | src/net/TcpServer.cc:64-125 | with all loops at rest the table holds exactly the connections that are up; every other is destroyed, and freed or free to be unless the user keeps a pointer |
| `Ownership.EveryLoopAgrees` | src/net/EpollPoller.cc:61-135 | in the whole server, every epoll_ctl was legal, live channels agree with table and kernel, and bytes are conserved |
| `Ownership.ClosedExactlyOnce` | src/net/TcpConnection.cc:120-135 | Up once when established, Down once when disconnected, the close callback at most once after Down, input only in between |
| `Ownership.StepMovesForward` | src/net/TcpConnection.cc:120-277 | no action takes a connection back to an earlier state |
| `Ownership.RunsMoveForward` | src/net/TcpConnection.cc:120-277 | nor does any run |
| `Placement.ConnectionsGoRound` | src/net/TcpServer.cc:64-107 | in every run of a server booted with n > 0 io loops, connection number c, from 0, is on io loop c mod n; with none, on the base loop |
| `Reactor.Channel.constructor` | src/net/Channel.cc:11-14 | a new channel wants no events and is not registered |
| `Reactor.Channel.EnableReading` | include/net/Channel.h:43 | sets the read bit and registers it |
| `Reactor.Channel.EnableWriting` | include/net/Channel.h:45 | sets the write bit and registers it |
| `Reactor.Channel.DisableWriting` | include/net/Channel.h:46 | clears the write bit and registers that |
| `Reactor.Channel.DisableAll` | include/net/Channel.h:47 | clears all bits and registers that |
| `Reactor.EpollPoller.constructor` | src/net/EpollPoller.cc:15-23 | an empty table, an empty interest set, room for 16 events |
| `Reactor.EpollPoller.Ctl` | src/net/EpollPoller.cc:116-135 | ADD needs an absent descriptor, MOD and DEL a present one; otherwise the kernel refuses and nothing changes |
| `Reactor.EpollPoller.UpdateChannel` | src/net/EpollPoller.cc:61-89 | the branches on kNew, kDelete and kAdded, on the real table and index |
| `Reactor.EpollPoller.RemoveChannel` | src/net/EpollPoller.cc:92-102 | erases the table entry, deletes from the kernel only if kAdded, index kNew |
| `Reactor.EpollPoller.HasChannel` | src/net/Poller.cc:10-14 | for a channel in agreement, true exactly when its index is not kNew |
| `Reactor.EpollPoller.Poll` | src/net/EpollPoller.cc:30-59 | returns the channels reported, in order, each with its events stored in it, and doubles the event vector exactly when it was full |
| `Reactor.EventLoop.QueueInLoop` | src/net/EventLoop.cc:109-119 | pushes, and wakes the loop from another thread or inside a pass |
| `Reactor.EventLoop.RunInLoop` | src/net/EventLoop.cc:97-107 | runs at once on the loop's thread, queues on any other |
| `Reactor.EventLoop.Quit` | src/net/EventLoop.cc:84-94 | sets the flag, and wakes the loop from another thread |
| `Reactor.SpawnedInOrder` | src/net/EventLoop.cc:145-161 | what a batch queues is what each functor queues, in the order in which they ran |
| `Reactor.EventLoop.DoPendingFunctors` | src/net/EventLoop.cc:145-161 | runs exactly the snapshot, though functors queue others or themselves; those wait, with the eventfd readable |
| `TcpConnections.TcpConnection.constructor` | src/net/TcpConnection.cc:29-49 | a new connection is kConnecting with empty buffers, an unregistered channel and a 64 MB mark |
| `TcpConnections.TcpConnection.WriteThrough` | src/net/TcpConnection.cc:169-197 | the direct write and its errno cases, EPIPE and ECONNRESET alone being faults |
| `TcpConnections.TcpConnection.SendInLoop` | src/net/TcpConnection.cc:154-219 | the object does what the specified send does, buffers and poller included |
| `TcpConnections.TcpConnection.NotifyHighWater` | src/net/TcpConnection.cc:204-210 | queues the notification exactly on an upward crossing of the mark |
| `TcpConnections.TcpConnection.BufferRest` | src/net/TcpConnection.cc:202-218 | buffers the rest and asks for EPOLLOUT if it is not asked for |
| `TcpConnections.TcpConnection.Send` | src/net/TcpConnection.cc:221-237 | on the loop's thread, sends only while kConnected |
| `TcpConnections.TcpConnection.SendFromElsewhere` | src/net/TcpConnection.cc:221-237 | on another thread, queues the send and wakes the loop, only while kConnected |
| `TcpConnections.TcpConnection.ShutdownInLoop` | src/net/TcpConnection.cc:271-277 | SHUT_WR unless bytes are still going out |
| `TcpConnections.TcpConnection.Shutdown` | src/net/TcpConnection.cc:261-269 | only while kConnected |
| `TcpConnections.TcpConnection.HandleWrite` | src/net/TcpConnection.cc:82-118 | drains what the kernel takes; when empty stops EPOLLOUT, notifies, and makes the deferred SHUT_WR |
| `TcpConnections.TcpConnection.HandleClose` | src/net/TcpConnection.cc:120-135 | kDisconnected, no events, Down then Closed |
| `TcpConnections.TcpConnection.HandleRead` | src/net/TcpConnection.cc:59-80 | bytes go to the input buffer and the user; end of file closes; an error only logs |
| `TcpConnections.TcpConnection.HandleEvent` | src/net/Channel.cc:58-94 | the order of close, read and write in one dispatch |
| `TcpConnections.TcpConnection.ConnectionEstablished` | src/net/TcpConnection.cc:239-246 | kConnected, reading on, Up |
| `TcpConnections.TcpConnection.ConnectionDestroyed` | src/net/TcpConnection.cc:248-259 | Down if still connected; the channel is removed in any case |
| `TcpConnections.DispatchClosesOnce` | src/net/Channel.cc:58-94 | one dispatch calls handlerClose exactly once on a hang-up without input or on end of file, otherwise never |
| `TcpServers.TcpServer.constructor` | src/net/TcpServer.cc:16-27 | no connections, numbering from 1 |
| `TcpServers.TcpServer.NewConnection` | src/net/TcpServer.cc:64-107 | the name is new to the table, so no entry is displaced; the next loop is picked; the connection is established at once on this loop or queued to the other |
| `TcpServers.TcpServer.RemoveConnection` | src/net/TcpServer.cc:109-113 | unlinks at once on the base loop's thread, queues the unlinking on any other |
| `TcpServers.TcpServer.RemoveConnectionInLoop` | src/net/TcpServer.cc:115-125 | unlinks, and always queues the destruction on the connection's loop |
| `ChatSessions.LoginKeepsSessions` | src/server/chatService.cc:55-161 | login keeps session agreement, and a successful one meets no existing entry |
| `ChatSessions.LogoutKeepsSessions` | src/server/chatService.cc:163-189 | logout keeps session agreement, on whichever server it arrives |
| `ChatSessions.StepKeepsSessions` | src/server/chatService.cc:55-379 | so does every handler |
| `ChatSessions.SessionsAgree` | src/server/chatService.cc:55-189 | in every run "online" means exactly one server has the user in its table, and each server subscribes to exactly the users it has |
| `ChatSessions.LoginInserts` | src/server/chatService.cc:81-88 | in every run a successful login adds its entry, whatever the insert does on a duplicate |
| `ChatDelivery.LoginAnswers` | src/server/chatService.cc:64-158 | in every run each of the three answers exactly: let in iff the id is known, the password is the stored one and no server has the user; "already online" iff some server has; else wrong id or password; a refusal changes nothing |
| `ChatDelivery.PasswordIsTheRegistered` | src/server/model/userModel.cc:60-77 | in every run the known ids are those registered, each with the password it was registered with |
| `ChatDelivery.LogoutEndsTheSession` | src/server/chatService.cc:163-189 | in every run a logout ends that user's session on that server and no other; for a user who is elsewhere it changes nothing |
| `ChatDelivery.LossEndsTheSession` | src/server/chatService.cc:332-358 | in every run a lost connection ends the one session the search finds, and none if there is none |
| `ChatDelivery.EveryRequestIsHandled` | src/server/chatService.cc:55-379 | in every run every request, every waiting delivery and every loss of a connection is a step |
| `ChatSessions.NoEntryOutlivesItsConnection` | src/server/chatService.cc:332-358 | if no connection carries two ids, no table entry points to a connection whose down callback has finished |
| `ChatSessions.EntryStaysIffTwoIds` | src/server/chatService.cc:332-358 | an entry of a lost connection stays exactly when two ids were logged in on it |
| `ChatSessions.TwoIdsLeaveAStaleEntry` | src/server/chatService.cc:332-358 | a run from an empty cluster that ends with a user online on a lost connection |
| `ChatConservation.PublishAddsOne` | src/server/redis/redis.cc:53-63 | with one subscriber a published message is in flight to that server, once |
| `ChatConservation.RouteAddsOne` | src/server/chatService.cc:233-258 | routing a message puts one copy in one place |
| `ChatConservation.RowsSplit` | src/server/model/offlineMessageModel.cc:28-74 | the rows a login reads and the rows it leaves are together all rows, divided by user |
| `ChatDelivery.RowsJoin` | src/server/model/offlineMessageModel.cc:48-74 | the stored messages of a user are read in the order in which they were stored |
| `ChatConservation.LoginEmptiesTheStore` | src/server/chatService.cc:94-101 | a login returns every message stored for the user, leaves none, and keeps those of others |
| `ChatConservation.OneChatGoesToOnePlace` | src/server/chatService.cc:221-259 | in every run a message goes to the connection on this server, or in flight to the one server that has the user, or offline, and nothing else changes |
| `ChatDelivery.OneChatArrives` | src/server/chatService.cc:221-259 | the same for the whole cluster: the connection here, the one server that has the user, or the store, and everything else as it was |
| `ChatConservation.GroupUsersCount` | src/server/model/groupModel.cc:101-124 | the group query returns each member once per row and never the sender |
| `ChatDelivery.JoinAddsOneRow` | src/server/chatService.cc:285-292 | joining a group adds one row, for that user in that group |
| `ChatConservation.GroupChatCopiesEachMember` | src/server/chatService.cc:294-330 | a group message makes one copy per membership row other than the sender's; where each goes is the next row |
| `ChatDelivery.GroupChatGoesToEachMember` | src/server/chatService.cc:294-330 | in every run, place by place and exactly: members here are handed theirs, members on another server have theirs in flight there and nowhere else, all others have theirs stored; no other copy appears |
| `ChatConservation.ReportKeepsCopies` | src/server/chatService.cc:366-379 | a late delivery moves the copy to the connection or to the offline store |
| `ChatDelivery.ReportGoesToOnePlace` | src/server/chatService.cc:366-379 | the oldest message in flight goes to the user's connection, or to the store if the user has left; nothing else changes |
| `ChatConservation.StepKeepsCopies` | src/server/chatService.cc:55-379 | every handler keeps: copies in the four places = copies created |
| `ChatConservation.CopiesAreConserved` | src/server/chatService.cc:221-379 | in every run each copy created is handed over, in flight, stored offline or returned at login, and in one of them only |
| `ChatServices.Tables.QueryOffline` | src/server/model/offlineMessageModel.cc:48-74 | the user's stored messages, in order |
| `ChatServices.Tables.RemoveOffline` | src/server/model/offlineMessageModel.cc:28-45 | deletes the user's stored messages only |
| `ChatServices.Tables.QueryGroupUsers` | src/server/model/groupModel.cc:101-124 | the members of the group without the sender |
| `ChatServices.Redis.Publish` | src/server/redis/redis.cc:53-63 | puts the message in flight to every subscribed server |
| `ChatServices.ChatService.Login` | src/server/chatService.cc:55-161 | the object does what the specified login does; the answer and the stored messages it returns |
| `ChatServices.ChatService.LoginOut` | src/server/chatService.cc:163-189 | erases the entry if there is one, unsubscribes in any case, marks offline only if there was one |
| `ChatServices.ChatService.OneChat` | src/server/chatService.cc:221-259 | local connection, broker or offline store |
| `ChatServices.ChatService.GroupChat` | src/server/chatService.cc:294-330 | the same for every member in turn |
| `ChatServices.ChatService.ClientCloseException` | src/server/chatService.cc:332-358 | whatever the order of the walk, removes one entry of the connection if there is one, unsubscribes, marks offline |
| `ChatServices.ChatService.HandleRedisSubscribeMessage` | src/server/chatService.cc:366-379 | hands over to the user's connection, or stores offline if the user has left |

## Left out

- The system calls themselves (epoll, eventfd, readv, write, accept, setsockopt) and `Socket`, `InetAddress`, `Timestamp`, `Logger`: steps of the environment with the contracts under Hypotheses, or nothing that a property needs.
- `EventLoop::loop` as one never-ending method: its iterations are the steps of `WakeupProtocol` and of `ServerSpec`; the first has the eventfd and all thread interleavings, the second the channels and the functors of all loops, and neither repeats the other. The 10-second poll timeout is the step `PollReturn(false)`.
- A `quit()` before `loop()` resets the flag (src/net/EventLoop.cc:64): its request is dropped, and nothing is claimed about it.
- `~TcpServer`, the end of a loop, `Thread`, `EventLoopThread`, and the order in which `start` waits for its threads.
- The channels of the eventfd and of the listening socket: in `ServerSpec` their descriptors are open and never reused, and what they do are the actions `PollReturn` and `Accept`.
- EPOLLERR in `ServerSpec`: `handlerError` only logs.
- Connection callbacks that call back into the server, a `shutdown` from another thread (its test and its set are separate steps), and the lifetime of the raw pointer in a queued `shutdownInLoop`.
- `Ownership.DispatchIsSafe`: the shared pointer that `handleEvent` takes by locking its weak pointer is not counted as a reference, so the model frees no later than the code and the claim is the stronger one; that a queued `sendInLoop` finds its connection alive assumes test and push in one step.
- `HalfClose.HalfCloseIsExact`: over runs in which `shutdown` takes effect while no other thread's send is under way; `HalfClose.ShutdownIsSafeIff` shows that this is needed.
- `WakeupProtocol.NoLostWakeup`: over runs in which the loop's thread does not queue before `loop()`; `WakeupProtocol.EnteringLosesEarlyTasksIff` says what happens otherwise.
- `TcpConnections.TcpConnection.HandleEvent`: here the user's callbacks do nothing and the tie has been locked; `ServerSpec` has steps of the user between the parts of a dispatch, and `Dispatch.TurnIsHandleEvent` joins the two.
- `TcpConnections.TcpConnection.HandleClose`: the server's close callback is only recorded here; its effect is `TcpServers.TcpServer.RemoveConnection`, and the two are composed in `ServerSpec`.
- `TcpServers.TcpServer.NewConnection`: `getsockname`, the addresses, the log line and setting the user's callbacks, whose being set is a flag.
- `Reactor.EventLoop.RunInLoop`: says whether the functor runs now; its caller, who knows what the functor is, runs it.
- `ThreadPool.EventLoopThreadPool.Start`: takes the loops of the threads as given; the thread-init callback is not modelled.
- `Reactor.EventLoop.DoPendingFunctors`: a functor is modelled by what it queues in its turn, and no other thread pushes during the pass; `WakeupProtocol` has both.
- `Reactor.EpollPoller.Poll`: a failing epoll_wait only logs, and is an empty answer here.
- `Channel::disableReading`, which clears nothing and is never called; `isReading`, which nothing here asks.
- `retrieveAllAsString` and `writeFd`: the first is `RetrieveAsString` of everything, the second is the kernel's answer in `HandleWrite`.
- Sizes as `size_t`: buffer arithmetic is on unbounded numbers, so a request near 2^64 is not modelled.
- Message framing and JSON (`ChatServer::onMessage`), the terminal client, registration beyond a fresh id, friends, group creation, the rest of a login's answer.
- MySQL and the 1024-byte statements, hiredis and its observer thread: maps, sequences and in-flight queues instead. `reset`, failing database or redis calls and a `login` interleaved with itself would break session agreement and are excluded.
- `ChatServices.ChatService.Login`: the friends and groups in the answer, and the branch for a failed update, excluded by the hypothesis that database calls succeed.
- `ChatServices.ChatService.ClientCloseException`: the order in which the hash table is walked is a parameter, so the result holds for every order.
- `ChatServices.ChatService.LoginOut`: requires that no table has an entry for id -1, which no user has (`ChatSessions.SessionInv`).
