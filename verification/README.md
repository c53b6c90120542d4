# Verification of the slack reactor library

A Dafny model of the parts of slack (a muduo-style network library) whose correctness depends on
whole runs: the timer queue, the functor queue of the event loop and its wakeup, the epoll poller
and its channels, TCP connections over their output buffer, the connector, asynchronous logging, the
bounded blocking queue, the HTTP request parser, and the integer printer of the log stream.

Each component has two modules. The first is a state machine on values (`...Model`): a datatype for
the state, one function per handler, an `Op` for every event that can happen (a call, a callback,
another thread, the kernel, the clock), and `Execute` for a run of any length. The theorems are about
every run. The second (`...Class`) is the source's class: its fields, updated in place, with the
loops and branches of the source. Its methods are proved to take the state where the state machine
goes, so that every run of the class is a run of the model; user callbacks and other threads are
arbitrary scripts of operations that the methods run at the points where the source lets them in.

The kernel (sockets, epoll, timerfd, eventfd, condition variables) and the clock are arguments and
nondeterministic state: a byte sink that takes any prefix or fails, a map of registered descriptors,
an alarm, a counter, two wait sets with signals, barging and spurious wakeups.

| file | what it models |
|---|---|
| `TimerQueue.dfy`, `TimerQueueTheorems.dfy`, `TimerQueueRuns.dfy`, `TimerQueueClass.dfy` | timer queue: ordered set, active set, cancelling set, batch, timerfd; timers in a heap whose addresses are reused |
| `EventLoop.dfy` | functor queue, eventfd, the loop |
| `Poller.dfy` | channel index, poller map and kernel set |
| `TcpConnection.dfy`, `TcpConnectionClass.dfy` | connection states, output path, channel dispatch |
| `Connector.dfy` | socket ownership, retry with back-off, start and stop |
| `AsyncLogging.dfy` | double buffering between front ends and the back-end thread |
| `BoundedBlockingQueue.dfy` | Mesa monitor with two conditions |
| `Buffer.dfy` | growable byte buffer as a byte queue; integers in network order |
| `Http.dfy` | incremental request parser, request text, server message handler |
| `LogStream.dfy` | fixed buffer, decimal and hexadecimal conversion |
| `Common.dfy` | options, searching in strings |

## Where the code does not keep a property

Each of these is proved: a run that shows it, and the exact condition under which the code is right.

- A cancel that reaches the loop before the queued add of its timer is lost, and the timer runs
  (`CancelBeforeAddIsLost`). A cancel takes effect if and only if the add has run (`CancelDooms`).
- A functor that the loop thread queues outside `loop()`, before it is called or after it has returned,
  wakes nobody, and the next poll may sleep on it (`EarlyPushSleeps`). `NoLostWakeup` holds in all other cases.
- A `shutdownInLoop` that is still queued when the connection breaks shuts down the socket with
  output unsent (`ShutsDownUnsentOutput`). It cuts off nothing if and only if the connection is not
  disconnected or has nothing unsent (`ShutdownIsCleanIff`).
- `disableAll` on a channel that has already lost all interest registers it again, with an empty mask
  (`DisableAllReAdds`). So closing a connection that neither reads nor writes leaves it disconnected but
  in the kernel's set. This happens when `forceCloseInLoop` closes it, and when it is closed by an event
  that a poll reported before `stopRead` was called from the callback of another channel
  (`StoppedBeforeDispatch`). `startRead` and `stopRead` after the end do the same, and no other step does
  (`WatchedIffCareless`). The next hang-up runs the close callback a second time and trips the assert
  of `handleClose` (`WatchedClosesAgain`).
- A dispatch has two callbacks that close the connection if and only if the kernel reports a hang-up
  without input but with urgent data or a half-close (`DispatchClosers`); an end of file then closes
  it twice (`OddHangupClosesTwice`).
- `connectDestroyed` on a connection that is Disconnecting, as when its server is destroyed, or between
  the report and the dispatch of an event, makes an assert fail; for an established connection it does
  so in no other case (`DestroyNeedsEnd`, `DestroyedTooEarly`).
- `Connector::start` while connected or connecting, or after a `stop` whose functor has not run,
  makes an assert fail (`StartWhileBusyFaults`, `StartAfterStopFaults`). So does a retry timer that is due
  before the queued `resetChannel` has run, which happens when the callback of another channel in the
  same round of the loop takes longer than the delay; without the assert the new socket is lost
  (`EarlyTimer`). With a given answer of connect(2) a start, a restart or a retry timer breaks the
  connector (a failed assert, a second pending start, a pending start that will find it busy, a lost
  socket) if and only if `Spoils` holds, and no answer breaks it if and only if the connector is idle,
  or for a retry timer, the old channel is gone or no connection is wanted (`StartNeedsIdle`).
- `parseRequest` loops for ever if it is entered after a whole request without a reset
  (`TerminatesIff`); `HttpServer::onMessage` never does that (`OnMessageKeepsRunning`).
- Parsing again after a failed request line trips the assert of `setMethod` if and only if the first
  word of the line is a known method and a space follows it (`ReparseAfterFailure`).
- A log line of 4,000,000 bytes or more is discarded, and a shorter one is never split (`AcceptedIffShort`).

Two smaller differences between code and intent, which the model follows: any header line without a
colon, not only an empty one, ends the headers; and the first assert of the back-end loop checks the
length of the wrong spare buffer (src/log/AsyncLogging.cc:84), where the model proves both empty.

## Model

| member | source | states |
|---|---|---|
| TimerQueueTheorems.IndexesAgree | src/net/TimerQueue.cc:161-181 | at every point of every run, callbacks included, `timers_` is exactly the (expiry, address) of the timers whose (address, sequence) is in `activeTimers_`, with the timers' current expiry and sequence, and the sizes agree |
| TimerQueueTheorems.AlarmCoversEarliest | src/net/TimerQueue.cc:43-87 | between events in every run, if there is a timer then the alarm has fired, or its deadline is no later than the earliest expiry or 100 us after arming |
| TimerQueueTheorems.DueTimerHasFired | src/net/TimerQueue.cc:43-55 | a due timer is never forgotten: the alarm fires within 100 us |
| TimerQueueTheorems.BatchIsExact | src/net/TimerQueue.cc:211-237 | the batch is all and only the timers with expiry at most now, in order of expiry; the others stay |
| TimerQueueTheorems.FinishIsExact | src/net/TimerQueue.cc:239-272 | after the batch every repeating timer not cancelled is back at now + interval in both indexes, every other one is deleted, and no timer outside the batch is touched |
| TimerQueueTheorems.EveryTimerHasOneLife | src/net/TimerQueue.cc:158-182 | over every run a timer is deleted at most once and never runs after that; it runs only while alive; the timers alive are those of the heap |
| TimerQueueTheorems.EveryTimerHasOnePlace | src/net/TimerQueue.cc:239-259 | every live timer is in exactly one of: waiting for its add, the two sets, the running batch |
| TimerQueueTheorems.OneShotRunsAtMostOnce | src/net/TimerQueue.cc:196-207 | a one-shot timer runs at most once over a whole run, and after its creation |
| TimerQueueTheorems.CancelDooms | src/net/TimerQueue.cc:158-182 | a cancel of a live timer takes effect if and only if its addTimerInLoop has run |
| TimerQueueTheorems.CancelledNeverRunsLater | src/net/TimerQueue.cc:176-180 | a timer cancelled at any moment, by itself or another callback of its batch included, is deleted when the loop is idle again and never runs in a later batch |
| TimerQueueTheorems.CancelBeforeAddIsLost | src/net/TimerQueue.cc:129-143 | a cancel before the queued add has no effect: the add still puts the timer into both sets |
| TimerQueueTheorems.StaleCancelIsHarmless | src/net/TimerQueue.cc:162-180 | cancelling an id whose timer is gone changes nothing that anyone can notice, in any later run, even if a newer timer has its address |
| TimerQueueTheorems.ResetAllSettles | src/net/TimerQueue.cc:243-259 | the loop of reset restarts or deletes each timer of the batch as the cancelling set says, whatever it did to the others |
| TimerQueueTheorems.DeadStaysDead | src/net/TimerQueue.cc:257 | after a delete the history has no event of that timer |
| TimerQueueRuns.HandleReadRuns | src/net/TimerQueue.cc:185-208 | whatever the callbacks do and however long they take, one handleRead runs exactly the timers that are due when it starts, each once, in order of expiry |
| TimerQueueRuns.TimersAreAsGiven | src/net/TimerQueue.cc:129-137 | in every run the live timer with sequence number n is the one of the n-th addTimer, at its address, with its interval, and due when it was to be unless it repeats and has run |
| TimerQueueRuns.StepTimers | src/net/TimerQueue.cc:145-259 | a timer changes only when it is created and when its batch restarts it, to now + interval |
| TimerQueueRuns.AddIsExact | src/net/TimerQueue.cc:145-156 | the timer enters both sets, no other changes, and the alarm is set, for its expiry or 100 us from now, exactly if it is earlier than all others |
| TimerQueueRuns.CancelIsExact | src/net/TimerQueue.cc:158-182 | a cancel deletes the timer if it is in the sets, else records it exactly while a batch runs, and touches no other timer and no alarm |
| TimerQueueRuns.FinishArms | src/net/TimerQueue.cc:261-271 | after a batch the alarm is set for the earliest expiry if that is valid, or 100 us from now if that is later, else left alone |
| TimerQueueModel.InsertEntry | src/net/TimerQueue.cc:274-302 | inserting keeps the set ordered and adds exactly the entry |
| TimerQueueModel.RemoveEntry | src/net/TimerQueue.cc:170 | erasing keeps the set ordered and removes exactly the entry, if it is there |
| TimerQueueModel.DueCount | src/net/TimerQueue.cc:216-221 | the entries before the bound are due and the one at it is not |
| TimerQueueModel.Step | src/net/TimerQueue.cc:145-272 | every operation keeps ownership, index agreement, life history and alarm coverage |
| TimerQueueModel.ResetAll | src/net/TimerQueue.cc:243-259 | the loop of reset keeps the phase invariant until no timer is left in the batch |
| TimerQueueModel.RearmCovers | src/net/TimerQueue.cc:261-271 | re-arming, or not re-arming because the earliest time is invalid, restores alarm coverage |
| TimerQueueClass.TimerQueue.constructor | src/net/TimerQueue.cc:99-110 | an empty queue with its alarm disarmed, satisfying the invariant |
| TimerQueueClass.TimerQueue.NewTimer | src/net/TimerQueue.cc:129-137 | a new timer at a free address gets the next sequence number and belongs to neither set yet |
| TimerQueueClass.TimerQueue.ResetTimerfd | src/net/TimerQueue.cc:43-87 | the alarm is set to the expiry, or to 100 us from now if that is later |
| TimerQueueClass.TimerQueue.InsertTimer | src/net/TimerQueue.cc:274-302 | the timer enters both sets, whose sizes agree before and after; the result tells whether it became the earliest |
| TimerQueueClass.TimerQueue.AddTimerInLoop | src/net/TimerQueue.cc:145-156 | the add step of the state machine; the invariant holds again |
| TimerQueueClass.TimerQueue.CancelInLoop | src/net/TimerQueue.cc:158-182 | the cancel step, from a callback as well; both size asserts hold |
| TimerQueueClass.TimerQueue.EraseActive | src/net/TimerQueue.cc:228-233 | every expired timer is found in the active set and removed, no other |
| TimerQueueClass.TimerQueue.GetExpired | src/net/TimerQueue.cc:211-237 | returns the due timers and takes exactly them out of both sets, whose sizes agree |
| TimerQueueClass.TimerQueue.Reset | src/net/TimerQueue.cc:239-272 | the loop over the batch and the re-arming are those of the state machine |
| TimerQueueClass.TimerQueue.HandleRead | src/net/TimerQueue.cc:185-208 | whatever the callbacks do and however long they take, handleRead is a run of the state machine: one batch, then reset; and the callbacks run are those of the timers due when it starts, each once, in order |
| EventLoopModel.ExactlyOnceFifo | src/net/EventLoop.cc:281-298 | in every interleaving executed ++ rest of the batch ++ `pendingFunctos_` is exactly what the queueInLoop calls of the run have pushed, in lock order |
| EventLoopModel.NoLostWakeup | src/net/EventLoop.cc:176-191 | in every interleaving, when the loop is at poll with functors pending (or quit_ set) the eventfd is readable or another thread is about to write it, but for functors the loop thread queued outside loop(); loop() may be called again |
| EventLoopModel.QuietIsNotEarly | src/net/EventLoop.cc:187 | if the loop thread queues nothing outside loop() that exception never arises |
| EventLoopModel.EarlyPushSleeps | src/net/EventLoop.cc:113-126 | the exception is real: such a functor leaves the loop asleep in poll |
| EventLoopModel.PushedBeforeSwapIsExecuted | src/net/EventLoop.cc:281-298 | what was pushed before a swap has been executed when doPendingFunctors returns, whatever happens meanwhile |
| EventLoopModel.WakeupReachesSwap | src/net/EventLoop.cc:123-144 | a readable eventfd takes the loop from poll to the swap of everything pending |
| EventLoopModel.BatchDrains | src/net/EventLoop.cc:292-297 | an undisturbed batch is executed in order and the loop is back at its test |
| EventLoopModel.QuitEndsLoop | src/net/EventLoop.cc:151-159 | a quit from any thread ends the loop at its next test, whatever happens before |
| EventLoopClass.EventLoop.constructor | src/net/EventLoop.cc:70-98 | the initial state |
| EventLoopClass.EventLoop.Wakeup | src/net/EventLoop.cc:258-267 | the counter goes up by one, or stays if it is at its limit |
| EventLoopClass.EventLoop.HandleRead | src/net/EventLoop.cc:270-278 | the read empties the counter |
| EventLoopClass.EventLoop.QueueInLoop | src/net/EventLoop.cc:176-191 | on the loop thread the functor is queued in any case, and the eventfd written exactly if functors are being run, with other threads between push and write |
| EventLoopClass.EventLoop.QuitInLoop | src/net/EventLoop.cc:151-159 | on the loop thread quit only sets the flag |
| EventLoopClass.EventLoop.DoPendingFunctors | src/net/EventLoop.cc:281-298 | whatever the functors and other threads do, exactly the functors queued at the swap are executed, in order |
| EventLoopClass.EventLoop.Poll | src/net/EventLoop.cc:125-127 | other threads act while the loop polls; the wakeup channel is reported only if the eventfd is readable |
| EventLoopClass.EventLoop.HandleEvents | src/net/EventLoop.cc:133-140 | the handlers of the active channels run, that of the eventfd among them at any place, if it was reported |
| EventLoopClass.EventLoop.OneRound | src/net/EventLoop.cc:123-144 | one round of the loop is a run of the state machine that ends at the loop test |
| EventLoopClass.EventLoop.Loop | src/net/EventLoop.cc:113-148 | loop() is a run of the state machine, left only when quit_ has been seen |
| PollerModel.ThreeWayAgreement | src/net/poller/EpollPoller.cc:112-186 | in every run, also with several channels for one descriptor: kAdded iff the kernel holds this channel, with its interest as mask; kDeleted iff it is in the map only, with no interest; kNew iff it is in neither; the next epoll_ctl succeeds unless the channel is new and another one of its descriptor is registered |
| PollerModel.ReportedIsKnown | src/net/poller/EpollPoller.cc:93-110 | every channel the kernel can report is live, kAdded, and the one in the map |
| PollerModel.DisableAllReAdds | src/net/poller/EpollPoller.cc:121-153 | disableAll leaves the channel in the kernel if and only if it was not there |
| PollerModel.HandOver | src/net/Connector.cc:153-161 | a descriptor goes from a removed channel that still exists to a second channel, as from a connector to its connection: every step is possible and the kernel then holds the second one |
| PollerModel.StepAgrees | src/net/poller/EpollPoller.cc:112-209 | every operation keeps the agreement |
| PollerModel.EachIsExact | src/net/poller/EpollPoller.cc:112-186 | a change of interest gives the channel exactly the new bits, a removal takes it out of map and kernel, and no other channel or descriptor changes |
| PollerModel.InterestBits | src/net/Channel.h:91-115 | enabling or disabling one kind of interest keeps the other |
| PollerClass.Channel.EnableReading | src/net/Channel.h:91-95 | events_ gains the read bits, and index, map and kernel follow |
| PollerClass.Channel.DisableReading | src/net/Channel.h:96-100 | events_ loses the read bits, and index, map and kernel follow |
| PollerClass.Channel.EnableWriting | src/net/Channel.h:101-105 | events_ gains the write bit, and index, map and kernel follow |
| PollerClass.Channel.DisableWriting | src/net/Channel.h:106-110 | events_ loses the write bit, and index, map and kernel follow |
| PollerClass.Channel.DisableAll | src/net/Channel.h:111-115 | events_ becomes empty, and index, map and kernel follow |
| PollerClass.Channel.SetInterest | src/net/Channel.cc:53-57 | update() after a change of events_ keeps the three-way agreement |
| PollerClass.Channel.Remove | src/net/Channel.cc:60-65 | a channel without interest leaves map and kernel |
| PollerClass.EpollPoller.UpdateChannel | src/net/poller/EpollPoller.cc:112-160 | its asserts hold if a new channel has no other one of its descriptor in the map; every epoll_ctl succeeds; map, kernel and index are those of the model |
| PollerClass.EpollPoller.RemoveKnown | src/net/poller/EpollPoller.cc:162-186 | the asserts hold, a DEL is made only for a registered descriptor, and the agreement is kept |
| PollerClass.EpollPoller.EpollCtl | src/net/poller/EpollPoller.cc:188-209 | the effect of a call of epoll_ctl that succeeds |
| PollerClass.EpollPoller.FillActiveChannels | src/net/poller/EpollPoller.cc:93-110 | the active list holds, in order, the mapped channel of each reported event, with its revents set |
| TcpConnectionModel.OutputConserved | src/net/TcpConnection.cc:148-207 | in every run and for any partial writes, the messages sent before the disconnection, less those first in line when write(2) failed with EPIPE or ECONNRESET, are the stream; the kernel has taken as much of its front as its answers say, the output buffer is the rest; writing is enabled iff there is a rest, while open |
| TcpConnectionModel.InputConserved | src/net/TcpConnection.cc:340-348 | in every run what user code has retrieved ++ the input buffer is all that the kernel gave, in order |
| TcpConnectionModel.SendExact | src/net/TcpConnection.cc:148-207 | a send adds the whole message to what is accepted or in line, unless it was first in line and write(2) failed with EPIPE or ECONNRESET; the kernel takes what it answers |
| TcpConnectionModel.WriteExact | src/net/TcpConnection.cc:362-398 | handleWrite moves to the kernel as many bytes as it answers, from the front |
| TcpConnectionModel.WritableDrains | src/net/TcpConnection.cc:362-389 | a report that the socket is writable leads to a write, and if all is taken nothing is left and write interest is off |
| TcpConnectionModel.ShutdownOnlyWhenDrained | src/net/TcpConnection.cc:219-226 | SHUT_WR with unsent output happens in no run unless the connection was already disconnected; while open it is issued iff the buffer is empty |
| TcpConnectionModel.ShutdownIsCleanIff | src/net/TcpConnection.cc:219-226 | a queued shutdownInLoop cuts off nothing iff the connection is not disconnected or has nothing unsent |
| TcpConnectionModel.ShutsDownUnsentOutput | src/net/TcpConnection.cc:219-226 | an end of file that overtakes a queued shutdownInLoop makes it shut down with output unsent |
| TcpConnectionModel.DrainedShutdown | src/net/TcpConnection.cc:362-398 | a shutdown with output pending is carried out when the last byte has been written |
| TcpConnectionModel.ShutdownEnds | src/net/TcpConnection.cc:209-226 | shutdown of a connected connection makes it Disconnecting and queues the functor, which sends SHUT_WR iff no output is in line |
| TcpConnectionModel.ForceCloseEnds | src/net/TcpConnection.cc:228-258 | forceClose of an open connection: whatever happens before its functor runs, the functor is still queued, and when it has run the connection is Disconnected |
| TcpConnectionModel.EstablishedIsRead | src/net/TcpConnection.cc:312-324 | connectEstablished registers the channel for reading and makes one UP call |
| TcpConnectionModel.ReadingFollows | src/net/TcpConnection.cc:287-310 | startRead and stopRead set read interest and the flag, and leave writing alone |
| TcpConnectionModel.MarksAndRemoves | src/net/TcpConnection.cc:237-338 | forceCloseWithDelay only marks an open connection; connectDestroyed leaves it Disconnected and out of the poller |
| TcpConnectionModel.DispatchIsExact | src/net/Channel.cc:94-136 | a dispatch makes exactly the callbacks that the bits ask for, each once, in the order close, error, read, write |
| TcpConnectionModel.StatesOnlyAdvance | src/net/TcpConnection.cc:209-413 | in every run Connecting, Connected, Disconnecting, Disconnected only advance |
| TcpConnectionModel.ClosesAtMostOnce | src/net/TcpConnection.cc:401-413 | one UP precedes at most one DOWN, the close callback runs at most once, and exactly once for a connection that ended other than by connectDestroyed; no assert fails, in every run without a careless step (one that leaves an ended connection registered), with any user code between a report and its dispatch |
| TcpConnectionModel.WatchedIffCareless | src/net/TcpConnection.cc:250-413 | a step leaves a disconnected connection in the kernel's interest set iff it closes while nothing is of interest, or starts or stops reading after the end |
| TcpConnectionModel.StoppedBeforeDispatch | src/net/EventLoop.cc:134-138 | a run of that kind without forceClose: the end of file is reported, another callback stops reading, the dispatch closes, and the connection stays registered |
| TcpConnectionModel.WatchedClosesAgain | src/net/TcpConnection.cc:401-413 | after such a step a hang-up runs the close callback again and trips the assert |
| TcpConnectionModel.DispatchClosers | src/net/Channel.cc:88-138 | a dispatch has at most one closing callback, preceded only by the error callback, iff no hang-up comes without POLLIN but with POLLPRI or POLLRDHUP |
| TcpConnectionModel.OddHangupClosesTwice | src/net/Channel.cc:94-128 | after such a hang-up an end of file closes the connection a second time and trips the assert of handleClose |
| TcpConnectionModel.StepLife | src/net/TcpConnection.cc:312-413 | every step keeps the life-cycle invariant, and keeps an ended connection unregistered iff it is not careless |
| TcpConnectionModel.DestroyAssertsHold | src/net/TcpConnection.cc:326-338 | connectDestroyed removes a channel that is known and has no interest |
| TcpConnectionModel.DestroyNeedsEnd | src/net/TcpConnection.cc:73-79 | the asserts of Channel::remove, EventLoop::removeChannel and the destructor hold for connectDestroyed iff the connection is not Disconnecting and no reported event waits for its dispatch |
| TcpConnectionModel.DestroyedTooEarly | src/net/TcpServer.cc:41-55 | connectDestroyed while a connection is being shut down, as by a server that is destroyed, fails them |
| TcpConnectionModel.ChannelFollowsPoller | src/net/Channel.h:91-115 | the connection's view of its channel is what the poller makes of the same operations |
| TcpConnectionClass.TcpConnection.constructor | src/net/TcpConnection.cc:44-71 | a connection in state Connecting with its own channel, known to the loop's poller but not registered; any other channel of the descriptor may exist |
| TcpConnectionClass.TcpConnection.SendInLoop | src/net/TcpConnection.cc:148-207 | direct write if nothing is queued, rest into the buffer, write interest switched on, all as in the model |
| TcpConnectionClass.TcpConnection.WriteDirectly | src/net/TcpConnection.cc:162-188 | how much is written directly, and whether the message is to be discarded |
| TcpConnectionClass.TcpConnection.Enqueue | src/net/TcpConnection.cc:191-206 | the rest follows the old output, and write interest goes on |
| TcpConnectionClass.TcpConnection.Shutdown | src/net/TcpConnection.cc:209-217 | from the loop thread, state change and shutdownInLoop at once |
| TcpConnectionClass.TcpConnection.QueueShutdown | src/net/TcpConnection.cc:209-217 | from another thread, state change and a queued functor |
| TcpConnectionClass.TcpConnection.ShutdownInLoop | src/net/TcpConnection.cc:219-226 | SHUT_WR exactly if writing is not of interest |
| TcpConnectionClass.TcpConnection.ForceClose | src/net/TcpConnection.cc:228-235 | Disconnecting and a queued functor, if open |
| TcpConnectionClass.TcpConnection.ForceCloseWithDelay | src/net/TcpConnection.cc:237-248 | Disconnecting now, the close later |
| TcpConnectionClass.TcpConnection.ForceCloseInLoop | src/net/TcpConnection.cc:250-258 | handleClose, if still open |
| TcpConnectionClass.TcpConnection.StartReadInLoop | src/net/TcpConnection.cc:287-295 | read interest on unless it is on and recorded so |
| TcpConnectionClass.TcpConnection.StopReadInLoop | src/net/TcpConnection.cc:302-310 | read interest off unless it is off and recorded so |
| TcpConnectionClass.TcpConnection.ConnectEstablished | src/net/TcpConnection.cc:312-324 | Connected, read interest on, one UP |
| TcpConnectionClass.TcpConnection.ConnectDestroyed | src/net/TcpConnection.cc:326-338 | DOWN if still connected, then the channel leaves the poller |
| TcpConnectionClass.TcpConnection.HandleRead | src/net/TcpConnection.cc:340-359 | what the kernel gave follows the old contents of the input buffer; nothing given means end of file and closes; errors do not |
| TcpConnectionClass.TcpConnection.HandleWrite | src/net/TcpConnection.cc:362-398 | the accepted prefix leaves the buffer; when it is empty, write interest goes off and a pending shutdown is made |
| TcpConnectionClass.TcpConnection.HandleClose | src/net/TcpConnection.cc:401-413 | Disconnected, all interest off, DOWN and close callback |
| TcpConnectionClass.TcpConnection.UserCode | src/net/TcpConnection.cc:101-117 | any list of calls that a callback makes, retrieving input included, is the same list of steps of the model |
| TcpConnectionClass.SendReaches | src/net/TcpConnection.cc:101-117 | a send from the loop thread reaches sendInLoop exactly if the connection is connected |
| TcpConnectionClass.CallsAreMade | src/net/TcpConnection.cc:209-310 | the other calls from the loop thread do at once what they do, a shutdown its functor included |
| TcpConnectionClass.UserIsCalled | src/net/TcpConnection.cc:340-413 | user code is called for bytes, for the end of the file and for a hang-up, and for nothing else |
| TcpConnectionClass.TcpConnection.Report | src/net/poller/EpollPoller.cc:106-108 | a poll stores the reported events of a registered channel |
| TcpConnectionClass.TcpConnection.HandleEvent | src/net/Channel.cc:88-138 | a whole dispatch of stored events, whatever has become of the registration, with any user code in its callbacks, is a run of the model: the callbacks due, in the order close, error, read, write |
| ConnectorModel.SocketOwnership | src/net/Connector.cc:83-240 | in every run without a spoiling step each socket created is exactly one of: held while connecting, closed once, handed over once |
| ConnectorModel.RetryPending | src/net/Connector.cc:223-240 | in every run without a spoiling step at most one start is pending, a retry timer only while disconnected; no assert fails; a wanted connection without fatal error is there, under way or coming |
| ConnectorModel.RetriesBackOff | src/net/Connector.cc:223-240 | in every run the k-th retry since construction or restart waits min(500 * 2^k, 30000) ms |
| ConnectorModel.ChannelLives | src/net/Connector.cc:137-166 | in every run without a spoiling step the channel exists exactly while connecting or until its queued reset |
| ConnectorModel.StopTakesEffect | src/net/Connector.cc:64-81 | in every run without a spoiling step, after a stop and until the next start or restart no socket is opened or handed over and no retry timer is set, and once the functors of all stops have run none is connecting |
| ConnectorModel.AttemptIsExact | src/net/Connector.cc:43-122 | a start of a disconnected connector, at once, by its functor or by a retry timer, opens one socket: it is watched, closed and retried with the current delay, or closed, as connect(2) answers |
| ConnectorModel.RestartStartsOver | src/net/Connector.cc:125-135 | a restart does the same with the first delay |
| ConnectorModel.ConnectingIsExact | src/net/Connector.cc:168-220 | a connecting socket is handed over exactly if it is writable, without error, and a connection is wanted; else it is closed, and retried if wanted and not connected |
| ConnectorModel.DispatchIsExact | src/net/Channel.cc:114-136 | the error callback, then the write callback, each exactly if due |
| ConnectorModel.StartNeedsIdle | src/net/Connector.cc:43-62 | a start, restart or retry timer breaks the connector (a failed assert, a second pending start, a pending start that will find it busy, a lost socket) iff Spoils holds for the answer of connect(2); no answer does iff the connector is idle, or for a timer, the old channel is gone or no connection is wanted |
| ConnectorModel.EarlyTimer | src/net/Connector.cc:137-166 | a run whose retry timer is due before the queued reset: the assert on the channel fails, and after the reset the new socket has no owner while the poller watches it |
| ConnectorModel.StartWhileBusyFaults | src/net/Connector.cc:50-53 | a start queued while connected or connecting makes the assert of startInLoop fail when it runs |
| ConnectorModel.BusyStartFaults | src/net/Connector.cc:50-53 | a pending start that runs, by functor or by timer, while connected or connecting makes the assert fail |
| ConnectorModel.TwoStartsFault | src/net/Connector.cc:137-140 | of two pending starts the second makes the assert fail |
| ConnectorModel.StartAfterStopFaults | src/net/Connector.cc:137-140 | a start after a stop that has not run makes an assert fail |
| ConnectorModel.StepInv | src/net/Connector.cc:43-240 | every step keeps ownership, channel, pending-start and wanted-connection invariants, unless it is a spoiling one |
| ConnectorClass.Connector.constructor | src/net/Connector.cc:25-33 | disconnected, no channel, first delay 500 ms; the invariant holds |
| ConnectorClass.Connector.Start | src/net/Connector.cc:43-48 | at once in the loop thread, queued from another; the invariant holds again unless the start spoils it |
| ConnectorClass.Connector.StartInLoop | src/net/Connector.cc:50-62 | connects exactly if a connection is wanted; an assert fails iff the connector is busy, or there is a channel when the attempt gets under way |
| ConnectorClass.Connector.Stop | src/net/Connector.cc:64-69 | no connection wanted, functor queued; the invariant holds again |
| ConnectorClass.Connector.StopInLoop | src/net/Connector.cc:71-81 | a connecting socket is closed and its channel removed; afterwards the connector is not connecting, and no assert was involved |
| ConnectorClass.Connector.Connect | src/net/Connector.cc:83-122 | a new socket; wait, close and retry, or close and give up; the assert of connecting fails iff there is a channel when the attempt gets under way |
| ConnectorClass.Connector.Connecting | src/net/Connector.cc:137-151 | a new registered channel for the socket; its assert fails iff there was one |
| ConnectorClass.Connector.RemoveAndResetChannel | src/net/Connector.cc:153-161 | the channel is unregistered at once and reset by a queued functor |
| ConnectorClass.Connector.ResetChannel | src/net/Connector.cc:163-166 | the channel is gone |
| ConnectorClass.Connector.HandleWrite | src/net/Connector.cc:168-208 | a socket that became writable is handed over, closed, or closed and retried |
| ConnectorClass.Connector.HandleError | src/net/Connector.cc:210-220 | a failing socket is closed and retried |
| ConnectorClass.Connector.Retry | src/net/Connector.cc:223-240 | the socket is closed; if a connection is wanted, a timer with the current delay, which then doubles up to its limit |
| ConnectorClass.Connector.Restart | src/net/Connector.cc:125-135 | the delay starts over and a new attempt begins; the invariant holds again unless the restart spoils it |
| ConnectorClass.Connector.RunFunctor | src/net/EventLoop.cc:292-295 | the next functor of the connector, a start, a stop or a reset, is the step of the model; the invariant holds again |
| ConnectorClass.Connector.RunTimer | src/net/Connector.cc:228-235 | a retry timer starts the next attempt, whether or not the old channel has been reset; the invariant holds again unless that spoils it |
| ConnectorClass.Connector.Poll | src/net/poller/EpollPoller.cc:106-108 | a poll stores what it reports for the registered channel; the invariant holds again |
| ConnectorClass.Connector.HandleEvent | src/net/Channel.cc:114-136 | for a stored report the error callback and then the write callback, each keeping the invariant |
| AsyncLoggingModel.LogConserved | src/log/AsyncLogging.cc:38-65 | at every point of every run, the lines of the append calls shorter than 4,000,000 bytes are those of the rounds swapped out, in order, ++ `buffers_` ++ `currentBuffer_`; file ++ what is still to be written of the current round is what is kept of all rounds; no buffer has two owners |
| AsyncLoggingModel.NoLossWithoutOverload | src/log/AsyncLogging.cc:107-127 | if no round exceeds 25 buffers, then at every point file ++ batch being written ++ `buffers_` ++ `currentBuffer_` is all that was accepted, in order |
| AsyncLoggingModel.RoundLosesOneRun | src/log/AsyncLogging.cc:110-121 | a round loses nothing iff it has at most 25 buffers, else one contiguous run of whole buffers from the third to the last |
| AsyncLoggingModel.AcceptedIffShort | src/log/LogStream.h:41-49 | a line is stored, whole, iff it is shorter than a buffer |
| AsyncLoggingModel.MissingAtExit | src/log/AsyncLogging.cc:82-156 | at every point what was accepted after the last swap is exactly what is still in front; at thread exit the accepted lines missing from the file are those, and those of the dropped buffers; a run without a swap included |
| AsyncLoggingModel.BackEndAsserts | src/log/AsyncLogging.cc:84-153 | in every round the asserts of the back end hold and it always has a next step |
| AsyncLoggingModel.DropsAreTold | src/log/AsyncLogging.cc:110-121 | the file tells, in order, of every round of more than 25 buffers, and how many were dropped |
| AsyncLoggingModel.AllocationIsRare | src/log/AsyncLogging.cc:46-60 | a buffer is allocated only by an append that finds the current buffer full and no spare |
| AsyncLoggingModel.StopEnds | src/log/AsyncLogging.cc:82 | the thread ends only after a stop, and then at its next test |
| AsyncLoggingModel.RecycleSafe | src/log/AsyncLogging.cc:129-153 | as many buffers come back as spares were used up |
| AsyncLoggingModel.StepDistinct | src/log/AsyncLogging.cc:49-61 | every step keeps all owned buffers distinct |
| AsyncLoggingClass.AsyncLogging.constructor | src/log/AsyncLogging.cc:16-35 | two distinct empty buffers in front, two spares behind |
| AsyncLoggingClass.AsyncLogging.AppendLine | src/log/AsyncLogging.cc:38-65 | append as in the model; the invariant holds again |
| AsyncLoggingClass.AsyncLogging.SwapBuffers | src/log/AsyncLogging.cc:88-107 | the locked part of the loop; the round is not empty |
| AsyncLoggingClass.AsyncLogging.DropExcess | src/log/AsyncLogging.cc:110-121 | more than 25 buffers are cut to two, with a notice |
| AsyncLoggingClass.AsyncLogging.WriteBuffers | src/log/AsyncLogging.cc:124-127 | every buffer of the round is written, in order, while front ends append |
| AsyncLoggingClass.AsyncLogging.RecycleBuffers | src/log/AsyncLogging.cc:130-153 | the asserts hold and both spares are there again, empty |
| AsyncLoggingClass.AsyncLogging.ThreadFunc | src/log/AsyncLogging.cc:68-157 | the back-end thread is a run of the state machine, left only when running_ is false |
| BoundedBlockingQueueModel.FifoAndBounded | src/base/BoundedBlockingQueue.h:33-69 | in every run the queue holds the items of the completed puts, in order, without as many of the first as takes have completed, each of which got the next one; it never exceeds its capacity |
| BoundedBlockingQueueModel.PassIsExact | src/base/BoundedBlockingQueue.h:35-68 | a thread with the mutex completes a put iff there is room and a take iff there is an item, else it sleeps |
| BoundedBlockingQueueModel.EnterIsExact | src/base/BoundedBlockingQueue.h:33 | entering a call changes nothing else |
| BoundedBlockingQueueModel.SleeperHasAHelper | src/base/BoundedBlockingQueue.h:33-69 | a thread asleep in take while there is an item (in put while there is room) has a signalled companion that is awake |
| BoundedBlockingQueueModel.NoDeadlock | src/base/BoundedBlockingQueue.h:36-67 | with capacity at least 1, if all callers sleep they are all consumers of an empty queue or all producers of a full one |
| BoundedBlockingQueueModel.ConsumerSucceeds | src/base/BoundedBlockingQueue.h:57-69 | a signalled consumer that is not overtaken takes the front item, and moves a sleeping producer, if there is one, to those signalled |
| BoundedBlockingQueueModel.ProducerSucceeds | src/base/BoundedBlockingQueue.h:33-43 | a signalled producer that is not overtaken appends its item, and moves a sleeping consumer, if there is one, to those signalled |
| BoundedBlockingQueueModel.StepInv | src/base/BoundedBlockingQueue.h:33-69 | every pass, wakeup and signal keeps: an unsignalled sleeper in take implies at most as many items as signalled consumers, and likewise for put and free slots |
| BoundedBlockingQueueClass.BoundedBlockingQueue.constructor | src/base/BoundedBlockingQueue.h:25-31 | an empty queue of that capacity |
| BoundedBlockingQueueClass.BoundedBlockingQueue.PutUnderLock | src/base/BoundedBlockingQueue.h:35-42 | one pass of put: done exactly if there was room, and then the item is appended and a consumer signalled |
| BoundedBlockingQueueClass.BoundedBlockingQueue.TakeUnderLock | src/base/BoundedBlockingQueue.h:59-68 | one pass of take: the front item exactly if there is one, and then a producer signalled |
| BoundedBlockingQueueClass.BoundedBlockingQueue.Put | src/base/BoundedBlockingQueue.h:33-43 | put with its wait loop, whatever other threads do, is a run of the monitor, and when it is done the item was the last put |
| BoundedBlockingQueueClass.BoundedBlockingQueue.Take | src/base/BoundedBlockingQueue.h:57-69 | take with its wait loop, likewise, and returns the item taken |
| NetworkOrder.IntRoundTrip | src/net/Buffer.h:238-320 | a signed integer of any width reads back from its big-endian bytes |
| NetworkOrder.BigEndian | src/net/Buffer.h:238-254 | the byte at index i of an integer of w bytes is n / 256^(w-1-i) % 256 |
| NetworkOrder.MixedIntegersReadBack | src/net/Buffer.h:238-352 | any mixed sequence of appended and prepended integers reads back unchanged, in queue order, with nothing left |
| NetworkOrder.ReadBack | src/net/Buffer.h:262-320 | integers read off the front leave exactly the bytes behind them |
| NetworkOrder.StoredIsQueued | src/net/Buffer.h:238-352 | appending and prepending integers is appending and prepending to a queue of them |
| BufferClass.Buffer.constructor | src/net/Buffer.h:41-49 | an empty buffer, with the three sizes of the source's asserts |
| BufferClass.Buffer.ReadableBytes | src/net/Buffer.h:60-63 | the length of the contents |
| BufferClass.Buffer.Retrieve | src/net/Buffer.h:117-128 | drops a prefix of the contents |
| BufferClass.Buffer.RetrieveAll | src/net/Buffer.h:157-162 | empties the contents |
| BufferClass.Buffer.RetrieveAsString | src/net/Buffer.h:171-177 | splits the contents into the string returned and the rest |
| BufferClass.Buffer.Unwrite | src/net/Buffer.h:231-235 | drops a suffix |
| BufferClass.Buffer.Compact | src/net/Buffer.h:400-406 | the overlapping copy down to the front keeps the contents |
| BufferClass.Buffer.MakeSpace | src/net/Buffer.h:386-408 | room for len bytes, same contents; the assert on readerIndex_ holds |
| BufferClass.Buffer.EnsureWritableBytes | src/net/Buffer.h:205-212 | room for len bytes, same contents |
| BufferClass.Buffer.Append | src/net/Buffer.h:190-197 | the bytes follow the old contents |
| BufferClass.Buffer.Prepend | src/net/Buffer.h:346-352 | the bytes precede the old contents |
| BufferClass.Buffer.Shrink | src/net/Buffer.h:355-363 | same contents in new storage, with the reserve free |
| BufferClass.Buffer.ReadFd | src/net/Buffer.cc:24-55 | all bytes the kernel gave follow the old contents, also those that spilled into the stack block |
| BufferClass.Buffer.FindCRLF | src/net/Buffer.h:89-95 | the first line end at or after `start`, or none |
| BufferClass.Buffer.FindEOL | src/net/Buffer.h:97-109 | the first line feed at or after `start`, or none |
| BufferClass.Buffer.AppendInt | src/net/Buffer.h:238-259 | the network-order bytes of the integer follow the old contents |
| BufferClass.Buffer.PrependInt | src/net/Buffer.h:323-344 | the network-order bytes of the integer precede the old contents |
| BufferClass.Buffer.PeekInt | src/net/Buffer.h:291-320 | the integer whose network-order bytes are in front, contents unchanged |
| BufferClass.Buffer.ReadInt | src/net/Buffer.h:262-288 | the integer whose network-order bytes were in front, which are gone |
| BufferClass.Buffer.StoreAll | src/net/Buffer.h:238-352 | a mixed sequence of integer appends and prepends builds the byte string that MixedIntegersReadBack reads back, up to the first prepend that does not fit in front |
| BufferClass.Buffer.ReadAllInts | src/net/Buffer.h:262-320 | reading integers of any widths in turn gives what MixedIntegersReadBack says |
| HttpModel.ParseSplit | src/net/http/HttpContext.cc:60-118 | parsing a ++ b is parsing a and then feeding b, in every state |
| HttpModel.ChunkIndependence | src/net/http/HttpContext.cc:60-118 | however the bytes are split and whenever they arrive, verdict, state, request (receive time aside) and unread bytes are those of one piece |
| HttpModel.TerminatesIff | src/net/http/HttpContext.cc:64-116 | the loop ends iff it is entered expecting a request line or headers, within one round per byte and one more |
| HttpModel.OnMessageKeepsRunning | src/net/http/HttpServer.cc:64-81 | unless a request is malformed the next entry finds the parser in a state where it ends |
| HttpModel.OneReply | src/net/http/HttpServer.cc:64-81 | each message is met with exactly one of: nothing yet, the 400 refusal and a shutdown, one answer |
| HttpModel.AnsweredOnce | src/net/http/HttpServer.cc:64-97 | a request that arrives in any number of messages is answered exactly once, as the request that feeding all the pieces gives |
| HttpModel.EachIsAnswered | src/net/http/HttpServer.cc:64-81 | any number of requests one after the other on a connection, each in any number of pieces, get one answer each, in order, as the requests that they are: nothing of an earlier one is left |
| HttpModel.ClosesAsAsked | src/net/http/HttpServer.cc:83-97 | a request in any number of messages gets the one response that the callback makes for it, told to close iff the last Connection field says close, or it is HTTP/1.0 and that field does not say Keep-Alive; a shutdown follows iff the callback says so |
| HttpModel.HeaderMapLast | src/net/http/HttpRequest.h:158-170 | a field is in the header map iff the request has it, and its value is that of the last one |
| HttpModel.ReparseAfterFailure | src/net/http/HttpRequest.h:52-54 | after a failure the bytes are still there, and parsing again is safe iff the bad line has no space or an unknown first word |
| HttpModel.RoundTrip | src/net/http/HttpContext.cc:14-58 | the text of any well-formed request parses to its method, path, query with '?', version and trimmed header map, and leaves exactly what follows |
| HttpModel.ChunkedRoundTrip | src/net/http/HttpContext.cc:60-118 | the same for any split of the text |
| HttpModel.HeadersParse | src/net/http/HttpContext.cc:89-106 | any header block gives the map of its fields, the later of two equal names counting |
| HttpModel.LineAcceptedIff | src/net/http/HttpContext.cc:14-58 | a request line is accepted iff it is one of the five methods, a target without blanks, and HTTP/1.0 or HTTP/1.1, with one blank between |
| HttpModel.NoColonEndsHeaders | src/net/http/HttpContext.cc:94-105 | any header line without a colon ends the headers and is used up |
| HttpModel.WaitsForLineEnd | src/net/http/HttpContext.cc:84-110 | bytes without a line end stay, and nothing changes |
| HttpModel.WhiteSpace | src/net/http/HttpRequest.h:148-157 | white space is the blank and the codes 9 to 13 |
| HttpModel.TrimExact | src/net/http/HttpRequest.h:144-159 | white space around a value is removed, inside it is kept |
| HttpClass.HttpRequest.SetMethod | src/net/http/HttpRequest.h:52-81 | the method that the word names, and whether it is known |
| HttpClass.HttpRequest.PutHeader | src/net/http/HttpRequest.h:144-159 | both trimming loops: the trimmed value is stored under the field name |
| HttpClass.HttpContext.RequestLine | src/net/http/HttpContext.cc:14-58 | verdict and request, also what is set before a failure |
| HttpClass.HttpContext.ParseRequest | src/net/http/HttpContext.cc:60-118 | the loop ends and leaves verdict, context and buffer that the parser function gives |
| HttpClass.HttpContext.OnMessageArrived | src/net/http/HttpServer.cc:64-81 | parse; a malformed request is refused and the connection shut down, a whole one answered and the context reset |
| HttpClass.HttpContext.OnRequest | src/net/http/HttpServer.cc:83-97 | one response is sent; by default the connection is closed after it iff the request says close, or is HTTP/1.0 without Keep-Alive |
| IntegerText.DecimalExact | src/log/LogStream.cc:45-67 | for every signed or unsigned 64-bit value the text reads back as the value, has no redundant leading zero, and fits in 32 bytes with its terminator |
| IntegerText.DecimalInjective | src/log/LogStream.cc:45-67 | different values have different texts |
| IntegerText.HexExact | src/log/LogStream.cc:70-85 | the same for hexadecimal |
| IntegerText.DigitsExact | src/log/LogStream.cc:51-57 | digits of either base read back, are digits, and do not start with a redundant zero |
| IntegerText.DigitsLength | src/log/LogStream.cc:116-126 | a value below base^k has at most k digits |
| IntegerText.MirroredDigit | src/log/LogStream.cc:37-57 | with truncating division the mirrored table gives the digit of the magnitude for either sign |
| LogStreamClass.FixedBuffer.constructor | src/log/LogStream.h:31-35 | an empty buffer of that size |
| LogStreamClass.FixedBuffer.Append | src/log/LogStream.h:41-49 | the whole text, or nothing if it would fill the buffer |
| LogStreamClass.FixedBuffer.Reset | src/log/LogStream.h:74-77 | empty again |
| LogStreamClass.PutDigits | src/log/LogStream.cc:48-57 | the digit loop writes the digits of the magnitude, last first, for either sign |
| LogStreamClass.ReverseRange | src/log/LogStream.cc:64 | in-place reversal of a range, nothing else touched |
| LogStreamClass.Convert | src/log/LogStream.cc:45-67 | the array holds the exact decimal text and a terminator, within the 32 bytes checked |
| LogStreamClass.ConvertHex | src/log/LogStream.cc:70-85 | the array holds the hexadecimal text and a terminator |
| LogStreamClass.LogStream.FormatInteger | src/log/LogStream.cc:129-138 | the stream gains the decimal text if 32 bytes are free, else nothing |
| LogStreamClass.LogStream.FormatPointer | src/log/LogStream.cc:190-202 | the stream gains 0x and the hexadecimal text if 32 bytes are free, else nothing |

## Left out

- Real sockets, epoll, timerfd, eventfd, files, locks and clocks: abstract kernel state as described above. One monotone clock in microseconds stands for both the wall clock and the monotonic clock of the timerfd.
- Timer intervals are integer microseconds and a repeat flag instead of a double; 64-bit sequence numbers do not wrap, and sizes do not overflow size_t.
- The destructors, TcpServer, Acceptor, TcpClient, thread pools, InetAddress, StringPiece, `any`, Singleton, logging macros: easy members, or repetitions of the arguments made here.
- `Condition::waitForSeconds`: may return at any time.
- Unsynchronised access to `state_` of TcpConnection from other threads: each check-and-set is one atomic step. The same holds for `connect_` of Connector.
- High-water and write-complete callbacks, which only queue functors; errors of `readv` and SO_ERROR, which are only logged.
- Functors still queued when loop() returns are run only if it is called again; a `quit()` before that is cleared.
- LogFile (rolling, flushing) and the text of the drop notice; printing of floating-point numbers; the overload for unsigned short, which calls itself.
- The text of an HTTP response, which the callback is taken to give as a whole.
- HTTP header folding, bodies, and answering several pipelined requests of one message, which the source does not implement.
- Buffers of AsyncLogging are values with an identity, moved between owners, instead of objects behind pointers; what is appended to one is its list of lines.
- A channel of Connector is the number of its socket and a flag, instead of a Channel object in a poller; socket numbers are not reused.
- EventLoopClass.EventLoop.Loop: `limit` cuts off a loop that does not end, at the top of a round; so do ThreadFunc, Put and Take.
- TimerQueueTheorems.StaleCancelIsHarmless: the sequence number of an id is one that has been given out, as for every TimerId that addTimer returned.
- TcpConnectionClass.TcpConnection.HandleEvent: the kernel does not report a hang-up without POLLIN together with POLLPRI or POLLRDHUP (DispatchClosers says what that would do). User code runs in the read and close callbacks; the callbacks of other channels are steps between two calls.
- TcpConnectionModel.ClosesAtMostOnce: the runs exclude the careless steps, for which it is false (WatchedClosesAgain), and connectDestroyed where an assert on its way fails (DestroyNeedsEnd).
- ConnectorModel.SocketOwnership: the runs exclude the steps for which Spoils holds, which break the connector (StartNeedsIdle, EarlyTimer).
- HttpModel.RoundTrip: a well-formed header value has no carriage return, and a field name no colon; the white space around a value is what isspace accepts.
