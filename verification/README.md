# A verified model of the reactor core

This project models the core of a C++ rewrite of the muduo network library (a multi-reactor TCP
library) and proves what its five stateful components are for: the in-place byte buffer, the
registration of channels with epoll, the output path and lifecycle of one connection, the functor queue
and wakeup protocol of an event loop, and the handoff of connections between a server's loops.
`dafny verify dfyconfig.toml` checks all of it.

| file | what it holds |
|---|---|
| `Buffer.dfy` | the class `Buffer` on an array; its index arithmetic, space bound and queue law |
| `Poller.dfy` | the classes `Channel` and `EPollPoller`; the registration state of one descriptor; event dispatch |
| `Connection.dfy` | the member functions of a connection as functions on values, and what each keeps |
| `ConnectionRuns.dfy` | every run of a connection, with other threads and an arbitrary kernel |
| `TcpConnection.dfy` | the class `TcpConnection` on a channel, a poller and two buffers, refining those functions |
| `EventLoop.dfy` | the queue, the eventfd and `quit_` as a machine over atomic steps |
| `EventLoopThreadPool.dfy` | round robin, with the exact share of each loop |
| `ConnectionNames.dfy` | the names connections are registered under |
| `ServerLifecycle.dfy` | a server as a machine: accept, establish, close, erase, destroy, over any number of loops and their rounds; what every step keeps |
| `ServerRuns.dfy` | every run of it: who holds a connection and its descriptor, which loop touches what, functors bound to bare addresses, closes coming to their end |
| `TcpServer.dfy` | the class `TcpServer`, changing its registry and queues as those functions say |

Code that changes things in place is modelled by classes whose methods are tied to functions on
values; the properties are then proved of the functions, for all inputs and all runs. A run is any
list of steps; a step the state does not allow changes nothing. The kernel is a parameter: any short
write, any refusal, any fault, any ready set. What the kernel and the user see of a connection is
recorded beside it, from the calls alone, and the connection's own books are proved to agree with it.

## Where the code and its intent differ

- `doPendingFunctors` (EventLoop.cpp:171-174) names its loop variable like the batch and constructs an
  empty functor instead of calling the element; `cacheTid` (CurrentThread.cpp:9) compares a function
  with 0, so no thread id is ever cached and every thread takes itself for the loop thread. Both are
  settings of the loop machine (`EventLoops.Config`). The order of functors is proved for every
  setting; that they are called, exactly when the body calls its element; that wakeups and quits are
  not lost, exactly when thread ids are distinct or there are no other threads. The other
  files take functors to be called and thread ids to be distinct.
- A functor the loop thread queues while `loop()` is not running sleeps through the first poll, and a
  quit made before `loop()` is cleared by it. Both are proved to happen, and a quit to be honoured
  exactly when it is made while `loop()` runs.
- A dispatch runs `handleClose` twice exactly on EPOLLHUP with EPOLLPRI, without EPOLLIN, when the read
  then finds the end of the stream; the second `disableAll` registers the descriptor again with an
  empty mask. The claims about an open connection end at its first close and so allow for this; the
  server lifecycle assumes it does not occur.
- `shutdown()` tests `state_` and then sets it. The connection machine keeps these as two steps and
  shows that a close between them is overwritten, and that kDisconnected is final exactly when no
  thread stands between the two. The server lifecycle takes them as one.
- A `shutdownInLoop` still queued when the connection closes issues SHUT_WR over unsent bytes. That
  is proved to be the one step that does; while the connection is open SHUT_WR is issued only when
  every accepted byte is with the kernel.
- `send` and `shutdown` bind the bare address of the connection (TcpConnection.cpp:60, 143). A functor
  so bound is proved to run after connectDestroyed exactly when it was queued behind it, which needs a
  thread caught between the test of the state and the queueing, and to find no object at all exactly
  when the rounds that still held the connection are over as well.
- `send` binds the pointer of the caller's string (TcpConnection.cpp:60). Here a queued send carries
  its own copy of the bytes.
- The high-water ledger needs a positive mark, and is proved to hold exactly then.

## Model

| member | source | states |
|---|---|---|
| `Buffers.MakeSpaceIsEnough` | MYMUDUO/Buffer.h:142-163 | makeSpace always frees enough, keeps the readable length, compacts only when there is a consumed prefix, and grows the array exactly when the free bytes at both ends are too few |
| `Buffers.SpaceBound` | MYMUDUO/Buffer.h:99-163 | over any run of calls the array never exceeds kCheapPrepend plus the larger of the initial size and twice the peak readable length |
| `Buffers.SpaceBoundIsTight` | MYMUDUO/Buffer.h:142-147 | the factor two is reached: for every k a run with peak k+1 leaves an array of 2k |
| `Buffers.QueueConserves` | MYMUDUO/Buffer.h:63-115 | over any run the bytes taken out followed by those still readable are the bytes put in |
| `Buffers.LayoutTracksQueue` | MYMUDUO/Buffer.h:31-54 | over any run the indices leave exactly as many readable bytes as the queue holds, so the space bound is about the queue |
| `Buffers.Buffer.Retrieve` | MYMUDUO/Buffer.h:63-74 | drops a prefix; asking for as much as there is, or more, empties the buffer |
| `Buffers.Buffer.RetrieveAll` | MYMUDUO/Buffer.h:77-82 | empties the buffer and resets both indices |
| `Buffers.Buffer.RetrieveAsString` | MYMUDUO/Buffer.h:90-96 | the result followed by what remains is what was readable |
| `Buffers.Buffer.RetrieveAllAsString` | MYMUDUO/Buffer.h:85-88 | the result is all that was readable and nothing remains |
| `Buffers.Buffer.CopyDown` | MYMUDUO/Buffer.h:157-159 | the overlapping forward copy moves the readable bytes intact |
| `Buffers.Buffer.MakeSpace` | MYMUDUO/Buffer.h:142-163 | growing or compacting in place leaves the readable bytes unchanged |
| `Buffers.Buffer.EnsureWriteableBytes` | MYMUDUO/Buffer.h:99-106 | afterwards the room asked for is there and the readable bytes are unchanged |
| `Buffers.Buffer.Append` | MYMUDUO/Buffer.h:109-115 | the bytes join the back of the queue, whatever space had to be made |
| `Buffers.Buffer.Readv` | MYMUDUO/Buffer.cpp:17-27 | bytes beyond the spare space exist only when two vectors were passed, and then spare space and overflow hold the bytes in order |
| `Buffers.Buffer.ReadFd` | MYMUDUO/Buffer.cpp:7-45 | for any count readv may return exactly those bytes are appended in order; a failure changes nothing; at least 65536 bytes are always offered |
| `Buffers.Buffer.WriteFd` | MYMUDUO/Buffer.cpp:47-55 | the bytes the kernel takes, followed by what a retrieve of as many will leave, are the readable bytes; nothing moves, and the result is negative exactly when write fails |
| `Polling.RegistrationAgrees` | MYMUDUO/EPollPoller.cpp:98-173 | after any sequence of channel calls index, map and kernel agree (kAdded exactly when the kernel watches with the channel's mask, not kNew exactly when in the map) and no epoll_ctl can fail |
| `Polling.EmptyMaskRegistered` | MYMUDUO/EPollPoller.cpp:103-112 | exactly when a registered channel has an empty mask: an update to the empty mask of a channel that was not added |
| `Polling.DisableAllTwiceRegisters` | MYMUDUO/Channel.h:78 | a second disableAll registers the descriptor again |
| `Polling.InterestBits` | MYMUDUO/Channel.h:70-78 | flag by flag what each call leaves in the interest mask: EPOLLIN and EPOLLPRI together, EPOLLOUT on its own, and only disableAll touches flags it is not named for |
| `Polling.RegistrationAfter` | MYMUDUO/EPollPoller.cpp:98-143 | where a call leaves a registration in order: removed from map and kernel, watched with the new mask, or, a watched descriptor with its mask emptied, in the map only |
| `Polling.CallbacksExactly` | MYMUDUO/Channel.cpp:59-98 | a dispatch makes exactly the callbacks its flags call for, each once: close on EPOLLHUP without EPOLLIN, error on EPOLLERR, read on EPOLLIN or EPOLLPRI, write on EPOLLOUT |
| `Polling.CallbacksInTurn` | MYMUDUO/Channel.cpp:59-98 | in the order close, error, read, write |
| `Polling.ClosedTwice` | MYMUDUO/Channel.cpp:59-98 | one event mask leads to at most two closes, and to two exactly for a hang-up with urgent but no ordinary data and a read that finds the end |
| `Polling.Channel.EnableReading` | MYMUDUO/Channel.h:70 | read interest is set and pushed through to map and kernel; no other channel's registration moves |
| `Polling.Channel.EnableWriting` | MYMUDUO/Channel.h:74 | write interest is set and pushed through; no other channel's registration moves |
| `Polling.Channel.DisableWriting` | MYMUDUO/Channel.h:76 | write interest is cleared and pushed through; no other channel's registration moves |
| `Polling.Channel.DisableAll` | MYMUDUO/Channel.h:78 | the mask is emptied and pushed through; no other channel's registration moves |
| `Polling.Channel.Remove` | MYMUDUO/Channel.cpp:38-42 | the channel leaves the map and the kernel's list; no other channel's registration moves |
| `Polling.EPollPoller.UpdateChannel` | MYMUDUO/EPollPoller.cpp:98-128 | with the mask alone out of step before, everything agrees afterwards, without an epoll_ctl error |
| `Polling.EPollPoller.RemoveChannel` | MYMUDUO/EPollPoller.cpp:130-143 | keeps the agreement, without an epoll_ctl error |
| `Polling.EPollPoller.Forget` | MYMUDUO/Channel.cpp:22 | once a removed channel is destroyed neither map nor kernel holds its descriptor and no live channel has it, so a new channel may; no other registration moves |
| `Polling.EPollPoller.Update` | MYMUDUO/EPollPoller.cpp:147-173 | exactly the calls that find the descriptor in the wrong place take the error branch |
| `Polling.EPollPoller.FillActiveChannels` | MYMUDUO/EPollPoller.cpp:76-89 | the list is the reported channels in order, each with its own events; no other channel's events change |
| `Polling.EPollPoller.Poll` | MYMUDUO/EPollPoller.cpp:33-74 | every channel handed to dispatch is registered and listed once; the event array doubles exactly when a report filled it |
| `Polling.EPollPoller.HasChannelMatchesIndex` | MYMUDUO/Poller.cpp:7-12 | hasChannel holds exactly when the index is not kNew |
| `Connection.EventCloses` | MYMUDUO/Channel.cpp:44-98 | a dispatch runs handleClose as often as its callbacks call for |
| `Connection.SendTakes` | MYMUDUO/TcpConnection.cpp:65-136 | a message is dropped exactly when the connection is disconnected or a write made for it faults; otherwise it is accepted, the kernel has what write returned for, exactly the rest joins the backlog, and write interest is on if any rest is left |
| `Connection.WriteTakes` | MYMUDUO/TcpConnection.cpp:209-243 | handleWrite takes from the backlog exactly the bytes write returned for, nothing without write interest |
| `Connection.ReadTakes` | MYMUDUO/TcpConnection.cpp:186-207 | exactly what readv returned joins the input buffer; end of file, and nothing else, closes |
| `Connection.ConsumeTakes` | MYMUDUO/Buffer.h:63-74 | the message callback takes from the front of the input buffer what it asks for, or all of it |
| `Connection.SendConserves` | MYMUDUO/TcpConnection.cpp:65-136 | sendInLoop keeps accepted = taken + backlog for every outcome of write, a faulted message being dropped whole |
| `Connection.WriteConserves` | MYMUDUO/TcpConnection.cpp:209-243 | so does handleWrite |
| `Connection.SendPosts` | MYMUDUO/TcpConnection.cpp:94-130 | sendInLoop queues exactly: a high-water functor told the new backlog when that reaches the mark from below, or a write-complete one when its own write took the whole message |
| `Connection.WritePosts` | MYMUDUO/TcpConnection.cpp:218-226 | handleWrite queues exactly one write-complete functor when the last byte goes |
| `ConnectionRuns.StreamConservation` | MYMUDUO/TcpConnection.cpp:65-136 | in every run the messages accepted are the bytes write(2) returned for, as seen by the kernel, followed by the backlog; the bytes readv(2) returned are those the message callback took followed by the input buffer |
| `ConnectionRuns.EverySendAccountedFor` | MYMUDUO/TcpConnection.cpp:50-63 | every message passed to send while connected is in exactly one place: accepted, dropped, queued or with its thread; nothing else is in any |
| `ConnectionRuns.NothingDropped` | MYMUDUO/TcpConnection.cpp:65-120 | none is dropped while the connection is open and no write has failed with EPIPE or ECONNRESET |
| `ConnectionRuns.InterestFollowsBacklog` | MYMUDUO/TcpConnection.cpp:209-232 | while open, EPOLLOUT is asked for exactly while bytes wait, EPOLLIN and EPOLLPRI always, and the kernel watches for exactly that |
| `ConnectionRuns.RegistrationHolds` | MYMUDUO/EPollPoller.cpp:98-143 | in every run of a connection index, map and kernel agree, even across races and double closes |
| `ConnectionRuns.StateChanges` | MYMUDUO/TcpConnection.cpp:138-264 | the state after every step: kConnected by connectEstablished alone, kDisconnecting by shutdown() alone, kDisconnected by a hang-up, an end of file or connectDestroyed alone |
| `ConnectionRuns.CallsTakeEffect` | MYMUDUO/TcpConnection.cpp:50-63 | what each access of send and shutdown leaves behind on another thread, its functor last in the queue |
| `ConnectionRuns.QueueChanges` | MYMUDUO/EventLoop.cpp:97-102 | the functors of a connection after every step: less the one run, with exactly those added that the callbacks and other threads are due |
| `ConnectionRuns.SlotChanges` | MYMUDUO/TcpConnection.cpp:147-264 | which calls on its channel every step makes, and that SHUT_WR is issued exactly by a shutdownInLoop that finds write interest off and by the write that sends the last byte in kDisconnecting |
| `ConnectionRuns.DestroyUnregistersAlways` | MYMUDUO/TcpConnection.cpp:171-183 | wherever a run has got to, connectDestroyed leaves the channel in neither map nor kernel |
| `ConnectionRuns.GracefulShutdown` | MYMUDUO/TcpConnection.cpp:138-157 | in kDisconnecting, even after a close, somebody is still to shut the write side, or bytes wait with interest on, or it is shut; an open connection is never shut unasked |
| `ConnectionRuns.ShutdownCanFinish` | MYMUDUO/TcpConnection.cpp:138-157 | from every open kDisconnecting state that a run reaches, the loop's steps, with a kernel that takes what it is given, end with SHUT_WR issued and every accepted byte sent, within one write or one pass over the queue |
| `ConnectionRuns.ShutsOverUnsentExactly` | MYMUDUO/TcpConnection.cpp:147-157 | in every run SHUT_WR goes out over unsent bytes exactly in a step that takes a queued shutdownInLoop and finds write interest off with a backlog |
| `ConnectionRuns.ShutsAfterLastByte` | MYMUDUO/TcpConnection.cpp:147-157 | so on an open connection a step that issues SHUT_WR leaves every accepted byte with the kernel |
| `ConnectionRuns.StreamEndsAtShutdown` | MYMUDUO/TcpConnection.cpp:86-110 | with a kernel that answers EPIPE after SHUT_WR the stream is complete at the first SHUT_WR and nothing is ever added to it |
| `ConnectionRuns.PerSenderOrder` | MYMUDUO/TcpConnection.cpp:50-63 | each thread's messages reach the stream unaltered and in the order of its calls, however threads interleave |
| `ConnectionRuns.HighWaterBalance` | MYMUDUO/TcpConnection.cpp:122-130 | high-water functors minus falls below the mark is 1 at or above the mark and 0 below it, exactly when the mark is positive |
| `ConnectionRuns.WriteCompleteOwed` | MYMUDUO/TcpConnection.cpp:86-98 | after an accepted nonempty message either bytes wait or a write-complete has been queued since, and conversely |
| `ConnectionRuns.WriteCompleteMeansSent` | MYMUDUO/TcpConnection.cpp:213-226 | a write-complete is queued only when the kernel holds every accepted byte |
| `ConnectionRuns.LedgersCountFunctors` | MYMUDUO/TcpConnection.cpp:94-130 | the high-water and write-complete counts are the functors for these callbacks that have run or wait |
| `ConnectionRuns.ClosedWithBacklogStillShuts` | MYMUDUO/TcpConnection.cpp:147-157 | that step does occur after a close: any nonempty message can be left unsent under SHUT_WR |
| `ConnectionRuns.ShutdownOverwritesClose` | MYMUDUO/TcpConnection.cpp:138-145 | a close between the test and the change in shutdown() is overwritten by kDisconnecting |
| `ConnectionRuns.CloseIsFinalExactly` | MYMUDUO/TcpConnection.cpp:138-145 | wherever a run has left the connection in kDisconnected it stays there in every continuation exactly when no thread is between the test and the change in shutdown() |
| `ConnectionRuns.DispatchIsEvents` | MYMUDUO/Channel.cpp:44-98 | one handleEvent is the run of the steps of its callbacks, in order, so what holds in every run holds of it |
| `ConnectionRuns.DispatchMoves` | MYMUDUO/Channel.cpp:59-98 | the bytes one handleEvent moves, by its flags: what was read is in the input buffer, and EPOLLOUT sends from the backlog unless interest is off or the dispatch has closed the connection |
| `TcpConnections.TcpConnection.SendInLoop` | MYMUDUO/TcpConnection.cpp:65-136 | on the real buffer, channel and poller it is the function the run theorems are about; other channels are untouched and no epoll_ctl fails |
| `TcpConnections.TcpConnection.Send` | MYMUDUO/TcpConnection.cpp:50-63 | only in kConnected; at once on the loop thread, else queued with its bytes |
| `TcpConnections.TcpConnection.Shutdown` | MYMUDUO/TcpConnection.cpp:138-145 | only in kConnected; at once on the loop thread, else queued |
| `TcpConnections.TcpConnection.ShutdownInLoop` | MYMUDUO/TcpConnection.cpp:147-157 | SHUT_WR exactly when write interest is off |
| `TcpConnections.TcpConnection.ConnectEstablished` | MYMUDUO/TcpConnection.cpp:159-169 | connected, tied, read interest registered |
| `TcpConnections.TcpConnection.ConnectDestroyed` | MYMUDUO/TcpConnection.cpp:171-183 | as its function, other channels untouched |
| `TcpConnections.TcpConnection.Succeed` | MYMUDUO/TcpConnection.cpp:45-48 | after connectDestroyed and the destructor a new connection on the same descriptor and poller starts afresh; other channels notice neither and no epoll_ctl fails |
| `TcpConnections.TcpConnection.HandleRead` | MYMUDUO/TcpConnection.cpp:186-207 | the bytes read join the input buffer; none is a close; an error changes nothing |
| `TcpConnections.TcpConnection.HandleWrite` | MYMUDUO/TcpConnection.cpp:209-243 | as its function, on the real buffer and channel |
| `TcpConnections.TcpConnection.HandleClose` | MYMUDUO/TcpConnection.cpp:250-264 | as its function, other channels untouched |
| `TcpConnections.TcpConnection.HandleEvent` | MYMUDUO/Channel.cpp:44-98 | the callbacks of the reported events in order, and none when the tied owner is gone |
| `EventLoops.FunctorLedger` | MYMUDUO/EventLoop.cpp:161-177 | functors are passed in the order queued, at most once; a round passes exactly what was queued before its swap |
| `EventLoops.EveryFunctorIsQueued` | MYMUDUO/EventLoop.cpp:97-102 | every functor handed to queueInLoop in a run is queued, once, in lock order, and none besides |
| `EventLoops.FunctorBound` | MYMUDUO/EventLoop.cpp:57-69 | while nobody quits, every queued functor is passed within so many of the loop thread's own steps, whatever user code and other threads do between them |
| `EventLoops.FunctorCanRun` | MYMUDUO/EventLoop.cpp:57-69 | the loop thread alone gets there within that many |
| `EventLoops.EveryTakenFunctorRan` | MYMUDUO/EventLoop.cpp:171-174 | what was passed was called exactly when the loop body calls its element |
| `EventLoops.StepIsQueueStep` | MYMUDUO/EventLoop.cpp:97-102 | the machine is a queue: each step appends a submission, takes the head, or does neither |
| `EventLoops.NoLostWakeup` | MYMUDUO/EventLoop.cpp:97-115 | at poll with the eventfd at zero and no push in flight something is pending exactly when the loop thread queued it outside loop() |
| `EventLoops.NoLostWakeupInside` | MYMUDUO/EventLoop.cpp:104-114 | a program whose loop thread queues nothing outside loop() never sleeps over a functor |
| `EventLoops.PromptQuit` | MYMUDUO/EventLoop.cpp:50-82 | after a quit made at any point of any run, until loop() is entered anew, the flag stays set, the loop is never left asleep and returns from at most one more poll |
| `EventLoops.LeavesOnQuitOnly` | MYMUDUO/EventLoop.cpp:57-69 | loop() is left exactly by a test of quit_ that finds it set, entered exactly by a call, and polls exactly after a test that finds it clear |
| `EventLoops.ReturnNeedsQuit` | MYMUDUO/EventLoop.cpp:50-72 | a call to loop() that returns was asked to quit since it was entered |
| `EventLoops.QuitKeptExactly` | MYMUDUO/EventLoop.cpp:50-57 | a quit_ once set, and not set again, is set at the end of a run exactly when loop() was not entered in it |
| `EventLoops.QuitHonouredExactly` | MYMUDUO/EventLoop.cpp:50-82 | in every continuation a quit stands until a call to loop() returns, exactly when it was made while loop() was running |
| `EventLoops.QuitMakesProgress` | MYMUDUO/EventLoop.cpp:57-69 | after a quit every step of the loop thread outside user code brings it nearer the end of loop(); anybody else's step costs one more exactly when it queues a functor before the swap |
| `EventLoops.QuitBound` | MYMUDUO/EventLoop.cpp:57-69 | over any run from a quit the loop thread's own steps are bounded by the way through the round, the batch, and what is queued before the swap; at the bound loop() is left |
| `EventLoops.QuitCanFinish` | MYMUDUO/EventLoop.cpp:57-82 | from any quit the loop thread alone leaves loop() within that many steps |
| `EventLoops.WakeupIsUsedUp` | MYMUDUO/EventLoop.cpp:117-125 | one read of the eventfd uses a wakeup up: poll does not report it again until somebody writes |
| `EventLoops.EventfdExactly` | MYMUDUO/EventLoop.cpp:111-125 | the eventfd is emptied by the loop's read, written exactly by a thread that knows it is not the loop's or by anyone during a round, and poll can report it exactly when it is not zero |
| `EventLoops.WakeupLostAsWritten` | MYMUDUO/CurrentThread.cpp:7-14 | with thread ids as written a functor queued during poll wakes nobody, however many threads there are and whether or not functors are called |
| `EventLoops.WakeupsHeardExactly` | MYMUDUO/EventLoop.cpp:97-115 | no run sleeps over a functor, other than one the loop thread queued before loop(), exactly when thread ids are distinct or there are no other threads |
| `EventLoops.QuitLostAsWritten` | MYMUDUO/CurrentThread.cpp:7-14 | nor does a quit |
| `EventLoops.QuitsHeardExactly` | MYMUDUO/EventLoop.cpp:74-82 | no run sleeps over a quit exactly when thread ids are distinct or there are no other threads |
| `EventLoops.EarlyPushSleeps` | MYMUDUO/EventLoop.cpp:111-114 | a functor the loop thread queues before loop() sleeps through the first poll, whatever the ids |
| `EventLoops.QuitBeforeLoopIsForgotten` | MYMUDUO/EventLoop.cpp:52-53 | a quit made before loop() is cleared |
| `ThreadPool.ExactShare` | MYMUDUO/EventLoopThreadPool.cpp:41-54 | how often each loop has been chosen after k choices, exactly |
| `ThreadPool.RoundRobinIsFair` | MYMUDUO/EventLoopThreadPool.cpp:41-54 | next_ is k mod n, every count is the floor or ceiling of k/n, and any two differ by at most one |
| `ThreadPool.EventLoopThreadPool.GetNextLoop` | MYMUDUO/EventLoopThreadPool.cpp:41-54 | choice k is loop k mod n, or the base loop when there are no workers |
| `ThreadPool.EventLoopThreadPool.Start` | MYMUDUO/EventLoopThreadPool.cpp:19-38 | the loops of the pool are those started, in order |
| `ThreadPool.EventLoopThreadPool.GetAllLoops` | MYMUDUO/EventLoopThreadPool.cpp:56-66 | the workers, or the base loop alone |
| `ConnectionNames.IpPortLength` | MYMUDUO/InetAddress.cpp:26-33 | an IPv4 endpoint prints in at most 21 characters |
| `ConnectionNames.DecimalReadsBack` | MYMUDUO/TcpSever.cpp:67-68 | a number prints as decimal digits, without a leading zero, that read back as the number |
| `ConnectionNames.EndpointReadsBack` | MYMUDUO/InetAddress.cpp:26-33 | an endpoint's text is four octets with dots, a colon and the port, and reads back as the endpoint |
| `ConnectionNames.DecimalIsInjective` | MYMUDUO/TcpSever.cpp:67-68 | different ids print differently |
| `ConnectionNames.NameFits` | MYMUDUO/TcpSever.cpp:67-70 | no name is cut short by the 64-byte buffer |
| `ConnectionNames.NamesAreDistinct` | MYMUDUO/TcpSever.cpp:67-70 | different ids give different names |
| `ConnectionNames.NameReadsBack` | MYMUDUO/TcpSever.cpp:67-70 | a connection's name reads back as the server's name, a dash, the endpoint, a hash and the id |
| `ServerRuns.OwnedUntilDestroyed` | MYMUDUO/EventLoop.cpp:161-177 | the registry or the waiting connectDestroyed holds a connection until that has run; afterwards no waiting functor holds it, but the batch in which connectDestroyed ran does until its round ends, and the base loop's in which it was erased; each waiting functor of the handoff is the one its phase owes, once, on the right loop |
| `ServerRuns.PhaseFixesState` | MYMUDUO/TcpConnection.cpp:159-183 | each phase of the handoff allows only its own states and registration of the channel |
| `ServerRuns.RecordChanges` | MYMUDUO/TcpSever.cpp:108-128 | a connection's record after every step: to kConnected by its own connectEstablished, to kDisconnecting by shutdown() alone, closed by its close alone, erased and destroyed by their functors, touched by nothing else |
| `ServerRuns.ConnectedUntilShut` | MYMUDUO/TcpConnection.cpp:138-169 | in every run a live connection, on whichever loop, is kConnected exactly when nobody has called shutdown() on it |
| `ServerRuns.AcceptedConnection` | MYMUDUO/TcpSever.cpp:64-109 | an accepted connection has its descriptor, the next name and the next loop; it is established at once on the base loop, and by a functor queued last on another |
| `ServerRuns.QueueChanges` | MYMUDUO/TcpSever.cpp:108-128 | every loop's queue after every step: exactly which functor is run and which is queued, and where |
| `ServerRuns.TestingChanges` | MYMUDUO/TcpConnection.cpp:50-63 | which threads stand between the test of a state and the queueing, after every step |
| `ServerRuns.DispatchIsSafe` | MYMUDUO/EventLoop.cpp:57-69 | every channel the dispatch loop has yet to reach is registered and its connection live |
| `ServerRuns.DispatchIsComplete` | MYMUDUO/EventLoop.cpp:57-69 | every channel that poll reported is handled, once, in order, before the loop goes on to its functors |
| `ServerRuns.NothingDestroyedDuringDispatch` | MYMUDUO/TcpSever.cpp:125-127 | no connection of a loop is destroyed while that loop dispatches |
| `ServerRuns.HandoffMovesOn` | MYMUDUO/TcpSever.cpp:111-128 | the handoff only moves forward, loop and name never change, and connectDestroyed runs once, by its own functor |
| `ServerRuns.LoopAffinity` | MYMUDUO/TcpSever.cpp:108-128 | the registry is touched on the base loop only, and a connection's state and registration on its own loop only |
| `ServerRuns.OthersGetFunctorsOnly` | MYMUDUO/EventLoop.cpp:84-102 | another loop or thread changes a loop only by appending functors to its queue |
| `ServerRuns.NamesArePairwiseDistinct` | MYMUDUO/TcpSever.cpp:64-70 | in every run all connections ever made have different names |
| `ServerRuns.RegistryIsExact` | MYMUDUO/TcpSever.cpp:86-87 | no step overwrites a registry entry, and an entry is erased only by its own connection's removal |
| `ServerRuns.ConnectionsAreSpread` | MYMUDUO/TcpSever.cpp:66 | connection k is served by worker k mod n, or by the base loop without workers |
| `ServerRuns.NothingStuck` | MYMUDUO/TcpSever.cpp:111-128 | once the queues have run dry every connection is live or destroyed |
| `ServerRuns.CloseCanFinish` | MYMUDUO/EventLoop.cpp:57-69 | from any close the loops alone, with no new event, run connectDestroyed within the steps that the queues ahead of it take |
| `ServerRuns.DescriptorCanClose` | MYMUDUO/EventLoop.cpp:161-177 | after connectDestroyed the connection is let go within the steps that end the rounds under way |
| `ServerRuns.CloseCanLetGo` | MYMUDUO/TcpSever.cpp:111-128 | so from any close the loops alone let the connection go |
| `ServerRuns.DescriptorsApart` | MYMUDUO/TcpSever.cpp:86-108 | though descriptors are used again, no two registered channels, and no two connections that anything holds, ever have the same one |
| `ServerRuns.DescriptorFreedExactly` | MYMUDUO/EventLoop.cpp:161-177 | the last pointer to a connection goes, and its descriptor becomes free for accept, exactly at the end of a round with connectDestroyed run and no other loop's batch holding the connection; never as connectDestroyed runs |
| `ServerRuns.FreedForGood` | MYMUDUO/Socket.cpp:9-12 | once let go a connection is held by nothing in any continuation |
| `ServerRuns.LateExactly` | MYMUDUO/TcpConnection.cpp:143 | a functor bound to the bare address runs after connectDestroyed exactly when it was queued behind it |
| `ServerRuns.DanglesExactly` | MYMUDUO/TcpConnection.cpp:60 | it finds no object left exactly when, besides, the round that ran connectDestroyed and the base loop's round that erased the connection are over |
| `ServerRuns.LateWhenQueued` | MYMUDUO/TcpConnection.cpp:50-63 | whether such a functor will be late is settled as it is queued: connectDestroyed waits in the same queue or has run |
| `ServerRuns.NoLateFunctorExactly` | MYMUDUO/TcpConnection.cpp:50-63 | once a connection is destroyed and no such functor waits, none ever will exactly when no thread is between the test of its state and the queueing |
| `ServerRuns.LateFunctorOccurs` | MYMUDUO/TcpConnection.cpp:60 | a run of one loop and one other thread in which such a functor is next to run and nothing holds the connection any more |
| `ServerLifecycle.RecordsFollowConnections` | MYMUDUO/TcpConnection.cpp:159-183 | the lifecycle's state changes are those of the connection's own member functions |
| `ServerLifecycle.FunctorsKeepRecords` | MYMUDUO/TcpConnection.cpp:65-157 | sendInLoop and shutdownInLoop leave state and registration as they are, on open and on closed connections |
| `TcpServers.TcpServer.NewConnection` | MYMUDUO/TcpSever.cpp:64-109 | picks the next loop, registers under the next name, and establishes at once or by a functor on that loop |
| `TcpServers.TcpServer.RemoveConnection` | MYMUDUO/TcpSever.cpp:111-114 | on the base loop at once, from another loop through the base loop's queue |
| `TcpServers.TcpServer.RemoveConnectionInLoop` | MYMUDUO/TcpSever.cpp:117-128 | erases the name and always queues connectDestroyed on the connection's loop |

## Left out

- Socket, InetAddress parsing, Acceptor and accept4: thin wrappers over system calls; what a call may return is a parameter.
- Logger, Timestamp, noncopyable, the example server and the build files: no state to prove about.
- Thread and EventLoopThread: their start and join handshake rests on std::thread, semaphores and condition variables.
- EventLoop as a class: it is modelled as a machine over its atomic steps, because interleavings are what its properties are about; update in place is not shown there.
- `runInLoop` on the loop's own thread: it calls the functor at once, which the loop machine shows as user code and not as a queued functor.
- Pointers to a connection that user code keeps: `Owned` in the lifecycle counts the registry, the functors that wait and those that a batch under way still holds, user callbacks included; a pointer that user code stores elsewhere holds the connection and its descriptor for longer.
- `~TcpServer`: its connectDestroyed outside the close path is allowed in the connection's runs, but not in the server lifecycle.
- User callbacks: they are steps of user code (send, shutdown, retrieve, queue, quit) between handlers. Most handlers make their callback last. connectDestroyed makes it before the channel is removed (TcpConnection.cpp:179-182) and handleClose before closeCallback_ (TcpConnection.cpp:256-263); the state is no longer kConnected by then, so that send and shutdown called from it do nothing.
- Setting the high-water mark or the callbacks during a run: both are fixed when a run starts.
- Event bits other than EPOLLIN, EPOLLPRI, EPOLLOUT, EPOLLERR and EPOLLHUP, which the library neither sets nor tests.
- Overflow of size_t and of counters: lengths and counts are naturals, the eventfd saturates as the kernel's does.
- TcpServers.TcpServer.NewConnection: asks for an id below the largest int, beyond which the source's increment overflows.
- ServerRuns.HandoffMovesOn: assumes that a dispatch closes a connection at most once and that shutdown() changes the state in one step; `Polling.ClosedTwice` and `ConnectionRuns.ShutdownOverwritesClose` say exactly what that excludes.
