# A verified model of the reactor network library

This project models the parts of the library whose correctness is not visible in any one
function: the byte buffer and the length-header codec on it, the output path of a connection,
the event loop with its functor queue and wakeups, the timer queue, the two pollers, the life
of server connections across loops, and the client's connector. It proves what they keep over
every run.

Every component has the same shape. A datatype holds its state, a function `Step` says what one
event does to it, and `Run` applies a list of events. Theorems speak about all runs: any
interleaving of threads, any results of system calls, any callbacks. Beside that stands a class
with the fields of the source's class. Its methods do step by step what the source does, and
each is proved to take the object's `View()` exactly where `Step` (or a function of it) takes
the state, so the theorems hold of the methods too. An event that the source cannot meet in a
state leaves the state alone. Where the source asserts, the model has a way to fail, and the
theorems say exactly when it does.

What was asked for is read from the list of events, not from anything that `Step` records; of
the state before an event only whether the call is possible is used. That gives the calls of
`addTimer` and when each timer is due (`TimerRequests`), the functors pushed (`EventLoops`), the
messages sent (`ConnectionCalls`), the connections accepted and closed (`LifecycleCalls`) and
the interest enabled (`Interests`). The theorems about them say that nothing asked for is lost,
changed or invented.

| file | modules | what it is about |
|---|---|---|
| `Basics.dfy` | `Numbers`, `ConnStates` | what several components share |
| `Buffer.dfy` | `Buffers` | the growable array with two indices refines a byte FIFO |
| `Codec.dfy` | `Codec` | framing, under any fragmentation of the stream |
| `TcpConnection.dfy` | `TcpConnections` | output stream, write interest, half-close, and both ends together |
| `ConnectionCalls.dfy` | `ConnectionCalls` | what the callers of a connection asked for, and what becomes of it |
| `EventLoop.dfy` | `EventLoops` | functor queue, eventfd, quit flag; any number of threads |
| `TimerModel.dfy`, `TimerProofs.dfy`, `TimerTheorems.dfy` | the same names | timer queue with an explicit heap whose addresses are reused |
| `TimerRequests.dfy` | `TimerRequests` | what the callers of the timer queue asked for, and when it runs |
| `TimerBatches.dfy` | `TimerBatches` | one batch from beginning to end; a timer that nobody cancels |
| `TimerQueue.dfy` | `TimerQueues` | the timer queue as a class, with re-entrant callbacks |
| `Pollers.dfy` | `Interests`, `Epoll`, `Poll`, `Pollers` | two pollers, one registry |
| `PollerClasses.dfy` | `PollerClasses` | both pollers over shared `Channel` objects; the active scan |
| `Channel.dfy` | `Dispatches` | the order of callbacks in one dispatch, and what it does to a connection |
| `TcpServer.dfy` | `Lifecycles` | connections across the base loop and the io loops |
| `LifecycleCalls.dfy` | `LifecycleCalls` | what is asked of the connections, and what becomes of it |
| `Connector.dfy` | `Connectors` | attempts, back-off, and the fate of every socket |
| `ConnectorOutcomes.dfy` | `ConnectorOutcomes` | which fate each socket gets, and when there is a retry |

## Where the source departs from its intent

The code is modelled as it is. The lemmas named show the failing case and say exactly when the
code does meet the intent.

- Buffer.cpp:35 resizes to `writableBytes() + len`, although Buffer.h:54 promises room for `len`
  more bytes. `Buffer` takes a parameter `Growth`, which is `AsWritten` or `Intended`. `Append`
  keeps its promise exactly when `CanAppend` holds, which for `AsWritten` means that a vector
  that has to grow has at least as much room after the write index as before it.
  `AsWrittenGrowthFails` is a failing input, `AsWrittenGrowsOnce` says how far the code as
  written gets, and `IntendedGrowthNeverFails` is the property with the intended size.
- asio/Codec.h:30-49 refuses a message longer than 65536 bytes that asio/Codec.h:51-59 is ready
  to send. `RoundTripExactly` is an equivalence.
- TcpConnection.cpp:191-197 leaves `state_` alone. A later `shutdown` then shuts the write side
  over unwritten bytes (`ShutdownAfterCloseDropsBytes`, `ShutdownLosesExactlyWhen`), and a second
  close fails the assertion in TcpServer.cpp:82 (`SecondCloseIsFatal`). One dispatch does that
  when the peer hangs up and the read returns 0 (`DispatchFailsExactlyWhen`).
- TcpConnection.cpp:205-246 tests no state, so a `send` that another thread made while connected
  still runs after a `shutdown`, a close or the destruction. Its bytes may be stranded behind a
  half-close, even by the same thread's own later `shutdown`, and its `enableWriting` registers a
  removed channel again (`QueuedSendIsStrandedExactlyWhen`, `ShutdownStrandsExactlyWhen`,
  `ComesBackExactlyWhen`).
- EventLoop.cpp:120 writes no wakeup for a functor that the loop thread queues outside `loop()`
  (`LoopPushIsLostExactlyWhen`), and EventLoop.cpp:76 erases an earlier `quit`
  (`EarlyQuitIsErased`, `LoopQuitIsHonouredExactlyWhen`, `QuitIsHonoured`).
- PollPoller.cpp:67-75 does not restore the descriptor of a parked channel that is updated
  again, while EpollPoller.cpp:72-91 adds it again, even with an empty mask. Both report errors
  and hang-ups whatever the mask, so the two differ after a second `disableAll`, as in a close
  followed by the destruction (`SecondDisableDiffers`, `SameMeaning`), and after interest is
  given back (`RevivedChannelIsLost`, `SameInterest`). PollPoller.cpp:88 asserts that a
  removed channel is parked, which one registered without interest is not
  (`RemovalFailsExactlyWhen`, `IdleRemovalDiffers`). PollPoller.cpp:79-103 leaves the removed
  channel its index, so a removed channel is not used with the same poller again.
- Connector.cpp:152-155 drops a socket on SO_ERROR without closing it or trying again
  (`DropsExactlyWhen`, `DropIsTheEnd`). Connector.cpp:56-60 cancels the latest retry timer only,
  does not stop one already in the batch being called, and from another thread only queues the
  cancellation, while the timer's callback at Connector.cpp:138 does not look at `connect_`
  (`StopIsFinalExactlyWhen`, `StopStartInBatchFails`).
- TcpConnection.cpp:20-21 registers no write callback. `SocketWritable` is the event in which
  `handleWrite` would be called.

## Model

| member | source | states |
|---|---|---|
| Buffers.Replay | Buffer.h:49-111 | for every list of appends, prepends, retrieves and scattered reads on a new buffer: it gets through exactly when each operation's guard holds on the way, and then the readable bytes are those of a plain FIFO |
| Buffers.Apply | Buffer.h:49-111 | one operation succeeds exactly under its guard, and then contents and layout are what the FIFO and the layout rule say |
| Buffers.IntendedGrowthNeverFails | Buffer.h:54-62 | with the intended size no run fails whose retrieves are covered by what is held, whose prepends by the room that is certain in front, and whose reads by the stack buffer |
| Buffers.AsWrittenGrowthFails | Buffer.cpp:33-36 | with the size as written, two appends of 2000 bytes fail |
| Buffers.AsWrittenGrowsOnce | Buffer.cpp:33-36 | as written, right after a vector has grown, the next append is kept exactly when it fits or can be compacted in |
| Buffers.Buffer.constructor | Buffer.h:32-40 | a new buffer is empty, with 8 bytes in front |
| Buffers.Buffer.MakeSpace | Buffer.cpp:31-49 | grows or compacts; keeps the contents and leaves room exactly under the stated condition, and the compacting branch is entered only with more than 8 bytes in front |
| Buffers.Buffer.MoveLeft | Buffer.cpp:42-45 | the overlapping copy to the left keeps the readable bytes |
| Buffers.Buffer.Resize | Buffer.cpp:35 | the new vector keeps the common prefix |
| Buffers.Buffer.EnsureWritable | Buffer.h:55-62 | says whether there is room for the bytes afterwards, which is exactly `CanAppend`, and then the contents are kept; it says no also where the source's assertion passes only because the vector has become shorter than `writeIndex_` and the subtraction wraps |
| Buffers.Buffer.Append | Buffer.h:65-70 | the contents are extended by the bytes, or the call fails, exactly as `CanAppend` says |
| Buffers.Buffer.HasWritten | Buffer.h:49-52 | the bytes just past the write index join the contents |
| Buffers.Buffer.Retrieve | Buffer.h:85-89 | the first bytes are dropped |
| Buffers.Buffer.RetrieveAll | Buffer.h:91-95 | the buffer is empty, with the indices at the start |
| Buffers.Buffer.RetrieveAsString | Buffer.h:97-102 | returns everything and empties the buffer |
| Buffers.Buffer.Prepend | Buffer.h:105-111 | the bytes are put in front |
| Buffers.Buffer.ReadFd | Buffer.cpp:5-29 | an error changes nothing; otherwise all bytes read are appended, those past the writable part by way of the stack buffer, exactly when `CanRead` holds |
| Codec.HeaderRoundTrip | asio/Codec.h:53-57 | reading back a written header gives the length, for every 32-bit value |
| Codec.HeaderIsCanonical | asio/Codec.h:30-34 | a header that reads as a length is the header that `send` writes for it |
| Codec.HeaderIsBigEndian | asio/Codec.h:53-57 | the header is the 32-bit length in two's complement, most significant byte first |
| Codec.LengthHeaderCodec.OnMessage | asio/Codec.h:24-49 | the loop over the buffer delivers the messages of `Parse`, leaves its rest, and reports a bad length exactly when it does |
| Codec.LengthHeaderCodec.Frame | asio/Codec.h:51-59 | the framed buffer holds the header and then the message, for any message and either way of growing |
| Codec.ParseConcat | asio/Codec.h:24-49 | parsing in two instalments is parsing once, on any bytes |
| Codec.FragmentationIsInvisible | asio/Codec.h:24-49 | however any stream, valid or not, is cut into chunks, the receiver ends where one parse of the whole stream ends |
| Codec.RoundTripExactly | asio/Codec.h:24-59 | for every list of messages and every cut of their encodings: exactly the list is delivered, with nothing left and no error, if and only if no message is longer than 65536 bytes |
| Codec.PrefixDelivered | asio/Codec.h:24-59 | at every point of the stream the messages delivered are a prefix of the list and the residue a proper prefix of the next encoding |
| Codec.OversizeIsNotDelivered | asio/Codec.h:35-38 | a message over the limit never comes out as itself, whatever follows it |
| Codec.NothingLost | asio/Codec.h:24-49 | on any stream: what was delivered, encoded again, followed by the residue, is the stream |
| Codec.NothingHeldBack | asio/Codec.h:39-48 | the residue holds no complete frame, and no delivered message is over the limit |
| Codec.InvalidIsFinal | asio/Codec.h:35-38 | after a bad length no later chunk is ever delivered |
| Codec.HandleRead | TcpConnection.cpp:127-135 | one read event with this codec is one `Feed` of the receiver |
| TcpConnections.RunKeepsInv | TcpConnection.cpp:106-265 | over every run, with calls from any thread and with queued functors that run after a shutdown, a close or the destruction: kernel bytes followed by the output buffer are all accepted messages in order; until the channel is disabled write interest is on exactly while bytes wait; a write-complete notification comes only after the bytes it speaks of; the connection callback hears of the establishment and of the end exactly once each; the channel reads from the establishment to the first close and is registered while the connection is up; the output buffer is taken to keep its promise (`Buffers.Buffer.Append`) |
| TcpConnections.ShutdownDrainsFirst | TcpConnection.cpp:67-74 | after `shutdown` on the loop thread and until a close, at every moment: the write side is not shut before every byte accepted before the call is written, it is shut whenever nothing waits, and if no send from another thread was queued at the call it is shut exactly when every byte accepted before it is written |
| TcpConnections.HalfCloseAfterDrain | TcpConnection.cpp:150-174 | whichever step of whichever run shuts the write side of a connection that was not closed: every byte accepted by then is written |
| TcpConnections.ShutIsTheEnd | TcpConnection.cpp:248-255 | once the write side is shut the wire never changes |
| TcpConnections.QueuedSendIsStrandedExactlyWhen | TcpConnection.cpp:205-246 | a queued send always accepts its message; its bytes can still reach the wire if and only if the write side is not shut when it runs |
| TcpConnections.ShutdownStrandsExactlyWhen | TcpConnection.cpp:52-74 | whether a `shutdown` can strand what other threads have sent: on the loop thread if and only if such a send is queued; on another thread if and only if one is queued while bytes wait, or two are |
| TcpConnections.ComesBackExactlyWhen | TcpConnection.cpp:205-246 | a channel removed by the destruction is registered again in some continuation if and only if a queued send with something to send is still to run |
| TcpConnections.NothingAcceptedAfterShutdown | TcpConnection.cpp:52-65 | past `shutdown` nothing is accepted if no send was queued; and if the queue gets run with nothing accepted, none was |
| TcpConnections.OnlyQueuedIsAccepted | TcpConnection.cpp:34-65 | past `shutdown`, in every continuation, accepted and still queued messages together are what they were, in order |
| TcpConnections.ShutdownAfterCloseDropsBytes | TcpConnection.cpp:191-197 | a run in which `shutdown` after a close shuts the write side over an unwritten byte |
| TcpConnections.ShutdownLosesExactlyWhen | TcpConnection.cpp:67-74 | in every reachable state: `shutdown` on the loop thread loses bytes at once exactly when a close has disabled the channel while bytes were waiting |
| TcpConnections.EndToEnd | asio/Codec.h:24-59 | sender, kernel and receiver together: whatever the short writes and the fragmentation, the peer is delivered a prefix of the messages accepted, and all of them once the buffer is drained and the wire read; the buffers at both ends are taken to keep their promise (`Buffers.Buffer.Append`, `Buffers.Buffer.ReadFd`) |
| ConnectionCalls.SendsAreAccepted | TcpConnection.cpp:52-65 | over every run, from the events alone: the messages of the `send` calls made while connected are accepted exactly once; those accepted so far are the loop thread's and those of other threads that the loop has reached, merged, each in call order, and the rest of the latter are queued |
| ConnectionCalls.RequestedEndToEnd | asio/Codec.h:24-59 | whatever messages the loop thread and other threads encode and send while connected: the peer is delivered a prefix of a merge of the former with those of the latter that the loop has reached, and the whole of it once the queue has been run, the buffer drained and the wire read; buffers are taken to keep their promise |
| ConnectionCalls.QueueIsWhatIsAsked | TcpConnection.cpp:52-84 | over every run, what the loop still has to run of a connection is what `send` and `shutdown` on other threads and `forceClose` asked for and the loop has not reached, in call order |
| ConnectionCalls.StateFollows | TcpConnection.cpp:67-125 | over every run, the state is where the sequence of calls puts it |
| ConnectionCalls.CallsAreCarriedOut | TcpConnection.cpp:67-84 | over every run: `shutdownInLoop` has been called exactly if `shutdown` was called on the loop thread or the loop has reached one called elsewhere, and then an open connection with nothing waiting is shut; the connection has been closed exactly if it ended or the loop has reached a forced close |
| ConnectionCalls.WritesAreExact | TcpConnection.cpp:150-246 | in every reachable state: which step writes which bytes to the socket; exactly what the kernel takes goes onto the wire and the rest waits; the write-complete callback is told exactly when it takes all |
| ConnectionCalls.InterestExactlyWhen | TcpConnection.cpp:150-246 | in every reachable state, after a close too: write interest goes on exactly with bytes that have to wait, and off exactly when they have been written or the channel is disabled |
| TcpConnections.TcpConnection.SendMessage | TcpConnection.cpp:52-65 | `send` on the loop thread takes the view one `Send` step, or fails exactly when the buffer cannot grow |
| TcpConnections.TcpConnection.SendFromOther | TcpConnection.cpp:52-65 | `send` on another thread tests the state at once and queues `sendInLoop` with the message, last, exactly if connected |
| TcpConnections.TcpConnection.SendInLoop | TcpConnection.cpp:205-246 | the direct write, the rest into the buffer, and the interest, as `AfterSend` |
| TcpConnections.TcpConnection.HandleWrite | TcpConnection.cpp:150-189 | one write from the buffer, and at the drain the notification and the half-close |
| TcpConnections.TcpConnection.ShutdownConnection | TcpConnection.cpp:67-74 | `shutdown`: the state changes at once; `shutdownInLoop` is called at once on the loop thread and queued on any other |
| TcpConnections.TcpConnection.ShutdownInLoop | TcpConnection.cpp:248-255 | shuts the write side unless bytes wait |
| TcpConnections.TcpConnection.ForceCloseNow | TcpConnection.cpp:76-84 | `forceClose`: the state changes at once and `forceCloseInLoop` is queued |
| TcpConnections.TcpConnection.ForceCloseInLoop | TcpConnection.cpp:257-265 | closes the connection if it is still up |
| TcpConnections.TcpConnection.RunNext | EventLoop.cpp:208-211 | the loop runs the next functor of the connection, which tests the state only for a forced close |
| TcpConnections.TcpConnection.ConnEstablished | TcpConnection.cpp:106-114 | the connection becomes connected, its channel reads, and the connection callback is told |
| TcpConnections.TcpConnection.HandleClosed | TcpConnection.cpp:191-197 | the channel is disabled, the close callback called, and the state left as it was |
| TcpConnections.TcpConnection.ConnDestroyed | TcpConnection.cpp:116-125 | the connection becomes disconnected, its channel is disabled and removed, and the connection callback is told |
| EventLoops.RunKeepsInv | EventLoop.cpp:71-124 | for any number of threads and any interleaving: no wakeup is lost outside the dispatch phase, and a loop at `poll` with the quit flag set will be woken |
| EventLoops.RunsWhatIsRequested | EventLoop.cpp:114-124 | over every run: executed functors, the rest of the batch and the queue are together exactly the functors that the events ask for, in the order of the calls |
| EventLoops.CounterMovesExactlyWhen | EventLoop.cpp:114-124 | the eventfd is written exactly by a foreign thread's wakeup and by a push made while functors are being run, and cleared exactly by reading it |
| EventLoops.DebtsFollow | EventLoop.cpp:93-124 | over every run, a thread still has to write the eventfd exactly if it has pushed a functor, or set the flag, since it last wrote it |
| EventLoops.LoopIsLeftExactlyWhen | EventLoop.cpp:71-100 | in every reachable state the loop is left exactly when it tests the flag and `quit` has been called, by any thread, since `loop()` was started |
| EventLoops.NeverStuck | EventLoop.cpp:114-124 | the loop never sits at `poll` with work queued and nothing due to wake it, if the loop thread queues nothing outside `loop()`; in any run at all, it can be stuck only with functors queued there |
| EventLoops.LoopPushIsLostExactlyWhen | EventLoop.cpp:114-124 | with nothing else queued or due, the loop reaches `poll` stuck after a push by the loop thread if and only if the push was made outside `loop()` |
| EventLoops.EarlyQuitIsErased | EventLoop.cpp:71-79 | in every run, a `quit` from any thread before `loop()` is erased |
| EventLoops.LoopQuitIsHonouredExactlyWhen | EventLoop.cpp:71-100 | on its own way to the next `poll` the loop leaves after a `quit` of its thread if and only if the call was made inside `loop()` |
| EventLoops.QuitIsHonoured | EventLoop.cpp:71-100 | a `quit` from any thread made inside `loop()` is honoured in every interleaving: until the loop has been left the flag stays set, a loop not at `poll` does not get there again, and a loop at `poll` has a wakeup due |
| EventLoops.PushOrderIsRunOrder | EventLoop.cpp:193-214 | the executed functors are a prefix of those asked for: they run in the order of the calls, each once |
| EventLoops.BatchOnlyShrinks | EventLoop.cpp:193-214 | a batch never gets longer, whatever its functors queue: it only loses what has run |
| EventLoops.SwapRunsEverything | EventLoop.cpp:193-214 | when a batch ends, everything asked for before its swap has run |
| EventLoops.EventLoop.QueueInLoop | EventLoop.cpp:114-124 | a push by the loop thread takes the view one step, with a wakeup exactly while functors are being run |
| EventLoops.EventLoop.QueueFromThread | EventLoop.cpp:114-124 | a push by another thread, up to the unlock: the functor is queued last |
| EventLoops.EventLoop.WakeupFromThread | EventLoop.cpp:163-171 | the wakeup that follows it |
| EventLoops.EventLoop.HandleRead | EventLoop.cpp:183-191 | the eventfd counter is read to 0 |
| EventLoops.EventLoop.Quit | EventLoop.cpp:93-100 | the flag is set |
| EventLoops.EventLoop.QuitFromThread | EventLoop.cpp:93-100 | the flag is set and a wakeup is owed |
| EventLoops.EventLoop.Execute | EventLoop.cpp:208-211 | one functor of the batch runs, and its own pushes reach the queue in order |
| EventLoops.EventLoop.DoPendingFunctors | EventLoop.cpp:193-214 | the swap and the loop over the batch take the view exactly through the batch's events, for any pushes the functors make |
| EventLoops.EventLoop.Loop | EventLoop.cpp:71-91 | the loop takes the view exactly through the events of the rounds it meets, one `poll`, its callbacks and its functors each, until the flag is set; and it leaves `looping_` set exactly if `quit_` is not |
| EventLoops.EventLoop.Turnover | EventLoop.cpp:78-88 | one round after `poll` takes the view exactly through the events of the callbacks and then of the functors |
| EventLoops.EventLoop.RunHandlers | EventLoop.cpp:82-85 | the callbacks of the active channels, in order |
| TimerProofs.StepKeepsInv | TimerQueue.cpp:92-231 | every step keeps all invariants: agreement of the indexes, one owner for each timer, sequence numbers never shared, an exact batch, adds before cancels, a timely timerfd, sound and spaced runs |
| TimerTheorems.FromStart | TimerQueue.cpp:69-81 | the state after any run of a new queue satisfies the invariants |
| TimerTheorems.AssertionsHold | TimerQueue.cpp:116-231 | in every reachable state, between two callbacks too: the indexes agree, every assertion of the next step holds, and every pointer it follows is live |
| TimerTheorems.SameSize | TimerQueue.cpp:119-120 | indexes that agree have the same size |
| TimerTheorems.BatchIsExact | TimerQueue.cpp:158-182 | the batch is in order and holds exactly the entries due by now; exactly the later ones stay queued |
| TimerModel.SortedIsExact | TimerQueue.cpp:158-182 | the iteration order of the timer set is ascending and complete |
| TimerTheorems.FiresAreRight | TimerQueue.cpp:138-199 | over every run: no callback before its expiration, a one-shot timer at most once, and runs of a periodic timer at least its interval apart |
| TimerTheorems.NoMissedDeadline | TimerQueue.cpp:37-67 | outside `handleRead`, whenever a timer is queued, the timerfd has fired or is armed for no later than its expiration or 100 microseconds after arming |
| TimerProofs.ArmedInTime | TimerQueue.cpp:100-108 | an add keeps the timerfd timely, whether it arms it or not |
| TimerProofs.FinishArms | TimerQueue.cpp:200-210 | after the reset the timerfd is timely, also when the earliest expiration is invalid and it is left alone |
| TimerTheorems.OwnershipIsConserved | TimerQueue.cpp:92-199 | every timer ever created is deleted once, or live with exactly one owner: a pending add, the queue or the batch |
| TimerTheorems.DeletedIsFinal | TimerQueue.cpp:116-136 | a deleted timer stays deleted and never runs again, whatever is created at its address |
| TimerTheorems.CancelIsFinal | TimerQueue.cpp:116-136 | a timer cancelled after its add has run never runs again, except perhaps in the batch already being called |
| TimerTheorems.QueuedCancelWorks | TimerQueue.cpp:110-114 | a cancel queued by another thread runs after its add, and no live timer has that id afterwards |
| TimerTheorems.UselessCancelIsInvisible | TimerQueue.cpp:116-136 | a cancel whose id names no timer in the queue (stale with the address reused, expired, cancelled, or ahead of its own add) changes nothing in any continuation but the set of marks |
| TimerRequests.RunsAreAsRequested | Timer.h:15-20 | over every run, from the events alone: the timer with number k is the one that call k of `addTimer` asked for, counted from 0; its first run is due at the time asked for and each later one its interval after the `now` of the one before; none is before it is due or before the time asked for, and only a periodic timer runs twice |
| TimerRequests.TimersAreAsRequested | TimerQueue.cpp:92-98 | over every run: as many timers as calls of `addTimer`; each live one has the address, flag and interval of its call, and while it waits it is filed under the time its next run is due |
| TimerRequests.QueueIsWhatIsAsked | TimerQueue.cpp:92-114 | over every run: what waits for the loop is what foreign threads have asked for, adds and cancels, and the loop has not reached, in call order |
| TimerRequests.ArmedExactlyWhen | TimerQueue.cpp:37-67 | in every reachable state the timerfd is armed exactly when a timer is queued before all others or a reset ends with a valid earliest expiration, and then for the earliest expiration but no less than 100 microseconds ahead; else it only runs out and is read |
| TimerRequests.ClockTicks | TimerQueue.cpp:138-141 | the clock is the sum of what has elapsed |
| TimerBatches.BatchIsReset | TimerQueue.cpp:184-199 | every batch, whatever its callbacks and other threads do: when `handleRead` ends, each periodic timer of it that no callback cancelled is queued again under its own number, flag and interval, due its interval after the batch's `now`; every other timer of it is deleted |
| TimerBatches.BatchRunsEachOnce | TimerQueue.cpp:138-152 | every batch runs exactly the callbacks of the timers due when it began, each once, in order, at the time it began |
| TimerBatches.UncancelledIsKept | TimerQueue.cpp:184-199 | over every run: a timer that no cancel ever names is live under its own number, unless it is a one-shot timer that has run; so a periodic one is live for ever |
| TimerQueues.TimerQueue.constructor | TimerQueue.cpp:69-81 | a new queue satisfies the invariants |
| TimerQueues.TimerQueue.ResetTimerfd | TimerQueue.cpp:37-67 | the timerfd is armed, at least 100 microseconds ahead |
| TimerQueues.TimerQueue.Insert | TimerQueue.cpp:212-231 | the timer enters both indexes, and the result says exactly whether it is earlier than all others |
| TimerQueues.TimerQueue.AddTimerInLoop | TimerQueue.cpp:100-108 | insertion, and arming exactly if the earliest expiration changed |
| TimerQueues.TimerQueue.AddTimer | TimerQueue.cpp:92-98 | the timer is created with the time, flag and interval asked for; it is queued at once on the loop thread, and its add on any other; the id returned names it |
| TimerQueues.TimerQueue.CancelInLoop | TimerQueue.cpp:116-136 | removal from both indexes and deletion, or a mark while callbacks run, or nothing |
| TimerQueues.TimerQueue.Cancel | TimerQueue.cpp:110-114 | at once on the loop thread, queued on any other; any id that was returned, or the default one |
| TimerQueues.TimerQueue.RunFunctor | EventLoop.cpp:208-211 | the next queued add or cancel is carried out |
| TimerQueues.TimerQueue.GetExpired | TimerQueue.cpp:158-182 | returns the due entries in order and takes exactly those out of both indexes |
| TimerQueues.TimerQueue.BeginBatch | TimerQueue.cpp:138-148 | the timerfd is read, the batch taken and the marks cleared |
| TimerQueues.TimerQueue.RunTimer | TimerQueue.cpp:149-152 | one callback of the batch runs |
| TimerQueues.TimerQueue.Reset | TimerQueue.cpp:184-210 | the loop over the batch is as many reset steps, and then the re-arming |
| TimerQueues.TimerQueue.ResetTimer | TimerQueue.cpp:187-199 | a timer that repeats and is not marked gets the expiration now plus its interval and is inserted again under it; any other is deleted and the queue left alone |
| TimerQueues.TimerQueue.RestartTimer | Timer.cpp:5-15 | the expiration of a repeating timer moves to an interval after now, that of a one-shot timer becomes invalid, and nothing else changes |
| TimerQueues.TimerQueue.FinishResetting | TimerQueue.cpp:200-210 | arms the timerfd for the earliest timer if its expiration is valid |
| TimerQueues.TimerQueue.HandleRead | TimerQueue.cpp:138-156 | the whole of `handleRead`, for any nested adds and cancels in its callbacks, is the corresponding run of steps and keeps the invariants |
| Interests.RegistryIsInterest | Channel.h:29-48 | over every sequence of operations, the registry of the theorems below is what the operations on each descriptor say: registered from the first operation to the removal, with the interest enabled last and not disabled since, in poll's bits |
| Epoll.SimulatesRegistry | EpollPoller.cpp:62-132 | over every sequence of operations: no `epoll_ctl` is refused, a descriptor is in the kernel's list exactly when its index is added, and the list with its masks, empty ones included, is exactly what is to be asked |
| Poll.StepKeepsOthers | PollPoller.cpp:43-103 | channels and array stay in bijection, back-indices included; one operation changes no other channel's registration, from wherever it removes |
| Poll.RecordsRegistry | PollPoller.cpp:43-103 | after every sequence of operations that fails no assertion the masks on record are those of the registry |
| Poll.AsksExactlyWhenParkedIsLeft | PollPoller.cpp:67-75 | no assertion fails and `poll` is asked exactly what it should be, empty masks included, after every prefix, if and only if no operation but removal is applied to a parked channel and no channel is removed that was registered without interest and not operated on since |
| Poll.AgreesExactlyWhenNotRevived | PollPoller.cpp:67-75 | no assertion fails and the descriptors in which there is some interest are those of the registry, after every prefix, if and only if no operation gives interest back to a parked channel and no channel is removed that was registered without interest and not operated on since |
| Poll.UnparkedExactlyWhen | PollPoller.cpp:43-77 | an operation leaves its channel without interest and not parked exactly if it registers it without interest |
| Poll.RemovalFailsExactlyWhen | PollPoller.cpp:88 | after any run, the removal of a registered channel without interest fails the assertion about its entry exactly if the channel was registered without interest and not operated on since |
| Poll.RunFailsExactlyWhen | PollPoller.cpp:79-103 | a run fails an assertion exactly if it removes a channel that was registered without interest and not operated on since |
| Pollers.SameMeaning | EpollPoller.cpp:62-110 | poll fails no assertion and both pollers ask the kernel for the same descriptors with the same masks, after every prefix of the operations, if and only if no operation but removal is applied to a channel that poll has parked and no channel is removed that was registered without interest and not operated on since |
| Pollers.SameInterest | EpollPoller.cpp:62-110 | the descriptors in which there is some interest are the same in both, if no parked channel is given interest again and no removal fails |
| Pollers.SecondDisableDiffers | EpollPoller.cpp:72-91 | enable, disable, disable: epoll lists the descriptor again with an empty mask, poll goes on ignoring it |
| Pollers.IdleRemovalDiffers | PollPoller.cpp:88 | disable and remove a new channel: epoll carries the removal out, poll fails its assertion |
| Pollers.RevivedChannelIsLost | PollPoller.cpp:67-75 | enable, disable, enable: poll goes on ignoring what epoll watches again |
| PollerClasses.EpollPoller.Update | EpollPoller.cpp:151-163 | one call of `epoll_ctl`, with its errors |
| PollerClasses.EpollPoller.UpdateChannel | EpollPoller.cpp:62-110 | the three-state index machine takes the view where `Epoll.Update` does |
| PollerClasses.EpollPoller.RemoveChannel | EpollPoller.cpp:112-132 | the channel is forgotten and may be used anew |
| PollerClasses.EpollPoller.Change | Channel.h:29-48 | an interest method changes the mask and updates the poller, as one step of the registry |
| PollerClasses.PollPoller.UpdateChannel | PollPoller.cpp:43-77 | a new entry at the end, or the channel's own entry rewritten |
| PollerClasses.PollPoller.SwapAndPop | PollPoller.cpp:89-102 | the swap with the last entry, whose channel learns its new index |
| PollerClasses.PollPoller.RemoveChannel | PollPoller.cpp:79-103 | fails the assertion exactly if the entry is not parked; else the invariant is kept, the view takes the remove step, and the removed channel keeps its index |
| PollerClasses.PollPoller.Change | Channel.h:29-48 | an interest method, as one step |
| PollerClasses.PollPoller.FillActiveChannels | PollPoller.cpp:108-125 | the scan with early exit returns exactly the channels of the full filter, in order, each with its own `revents` |
| PollerClasses.ActiveIsExact | PollPoller.cpp:108-125 | the full filter has every active position once, in order |
| Dispatches.EventChannel.HandleEventWithGuard | Channel.cpp:62-90 | exactly the installed callbacks that the events call for, once each: error, close, read, write |
| Dispatches.RunsIsExact | Channel.cpp:62-90 | the list of callbacks is exact and in order |
| Dispatches.WantsBits | Channel.cpp:62-90 | which of the six event bits call for which callback |
| Dispatches.ClosesOfDispatch | TcpConnection.cpp:127-148 | how often one dispatch closes a connection, for all events and read results |
| Dispatches.DispatchFailsExactlyWhen | Channel.cpp:74-83 | in every reachable state, for a live, unclosed connection on any loop: one dispatch runs `handleClose` twice if and only if the peer hung up and the read returns 0; then the erase assertion fails, at once exactly if the connection lives on the base loop, and else when the base loop has run what it has queued |
| Lifecycles.RunKeepsInv | TcpServer.cpp:45-86 | over every interleaving of the loops: unless a connection was closed twice, each connection's waiting and finished functors balance its state and its place in the map |
| Lifecycles.FailureMeansClosedTwice | TcpServer.cpp:80-83 | no assertion of the life cycle fails unless `handleClose` has run twice for a connection |
| Lifecycles.SecondCloseIsFatal | TcpServer.cpp:77-86 | once the base loop, on its own, has run what it has queued, an assertion has failed if and only if some connection was closed twice |
| Lifecycles.SecondCloseIsFatalAnyway | TcpServer.cpp:77-86 | in every interleaving: once a connection has been closed twice, any continuation in which the base loop runs as many functors as it has queued then ends with a failed assertion |
| Lifecycles.RemoveKeeps | TcpServer.cpp:77-86 | the erase fails exactly for a connection closed before, and otherwise the invariant is kept |
| Lifecycles.EachAtMostOnce | TcpConnection.cpp:106-125 | a connection is in the map until its removal, and established, removed and destroyed at most once each, in step with its state |
| Lifecycles.OnlyCreatedAreFiled | TcpServer.cpp:45-69 | `connections_` is exactly the connections created and not yet removed |
| Lifecycles.LifeInOrder | TcpServer.cpp:45-86 | in every run: established before removed before destroyed, and none twice |
| Lifecycles.NothingLeaks | TcpServer.cpp:71-86 | with nothing left to do on any loop, exactly the closed connections have been removed and destroyed |
| Lifecycles.HangUpClosesTwice | TcpConnection.cpp:191-197 | a run of three events in which a second close fails |
| LifecycleCalls.ConnectionsAreAccepted | TcpServer.cpp:45-69 | over every run: the connections are exactly those accepted, under consecutive numbers, each on the loop it was given to |
| LifecycleCalls.ClosesAreEndings | TcpConnection.cpp:191-197 | over every run: `handleClose` has run exactly once for each hang-up or end of stream and for each forced close that the loop reached while the connection was up |
| LifecycleCalls.ForcedCloseHappens | TcpConnection.cpp:76-84 | over every run: the forced closes asked for are those reached and those waiting on the connection's own loop; once one is asked for, it is waiting or `handleClose` has run |
| LifecycleCalls.StateFollowsCalls | TcpConnection.cpp:67-125 | over every run: the state of a connection is where its establishment, its destruction and the calls of `shutdown` and `forceClose` have left it |
| Lifecycles.TcpServer.NewConnection | TcpServer.cpp:45-69 | filed under the next number, and established at once on the base loop or else queued last on its own |
| Lifecycles.TcpServer.RemoveConnectionInLoop | TcpServer.cpp:77-86 | the assertion fails if the connection is not in the map; else it is erased and its destruction queued last on its own loop |
| Lifecycles.TcpServer.Close | TcpConnection.cpp:191-197 | `handleClose` and the removal, at once on the base loop and queued from any other |
| Lifecycles.TcpServer.ForceClose | TcpConnection.cpp:76-84 | the state change, and the close queued on the connection's loop |
| Lifecycles.TcpServer.RunOne | EventLoop.cpp:193-214 | a loop carries out the functor at the front of its queue |
| Lifecycles.TcpServer.DrainBase | EventLoop.cpp:193-214 | the base loop runs its queue, and ends with a failed assertion exactly if a connection was closed twice |
| Connectors.EachSocketHasOneFate | Connector.cpp:62-196 | in every run: each socket created is watched, closed once, handed over once or dropped, and only one of these; the kth retry since a reset waits min(500 * 2^k, 30000) ms |
| Connectors.FailsExactlyWhen | Connector.cpp:32-113 | in every reachable state, exactly which events fail an assertion, retry timers in flight included; the one in `handleWrite` never does |
| Connectors.DropsExactlyWhen | Connector.cpp:152-155 | a socket is dropped exactly by a write callback that sees SO_ERROR before any error callback |
| Connectors.OrderlyNeverFails | Connector.cpp:26-141 | if `start` and `restart` are called only with nothing under way (no retry in flight or awaiting its cancellation either) and channels are reset before the next attempt: no assertion fails, and no pending retry is forgotten |
| Connectors.StopStartInBatchFails | Connector.cpp:105-113 | a run in which `stop` and `start` are called in the batch of timers that holds the retry, and the retry then fails its assertion |
| Connectors.NeverIdle | Connector.cpp:129-141 | such a connector, while wanted and not refused for good, is connected or has an attempt queued, a retry pending or a socket watched |
| Connectors.StopIsFinalExactlyWhen | Connector.cpp:56-60 | after `stop` nothing is attempted or handed over until it is started again, if and only if: on the loop thread, no retry is in flight and none is queued but the latest; on another thread, no retry is pending |
| Connectors.DropIsTheEnd | Connector.cpp:152-155 | after a drop nothing happens any more of itself, and a new `start` fails its assertion on whichever thread it is called |
| Connectors.DropHappens | Connector.cpp:152-155 | a run that reaches the drop |
| ConnectorOutcomes.HandedOverExactlyWhen | Connector.cpp:163-169 | in every reachable state: a socket is handed over exactly by a write callback that finds the watched socket well connected, in a dispatch without an error, while a connection is wanted; and it is that socket |
| ConnectorOutcomes.ClosedExactlyWhen | Connector.cpp:62-196 | in every reachable state: a socket is closed exactly by an attempt refused for the moment or for good (the new socket), or by an error, a connection to itself or a good connection no longer wanted (the watched one) |
| ConnectorOutcomes.WatchedExactlyWhen | Connector.cpp:105-127 | in every reachable state: a socket is created exactly by an attempt, and watched from an attempt in progress to its answer |
| ConnectorOutcomes.RetriesExactlyWhen | Connector.cpp:129-141 | in every reachable state: a retry is scheduled exactly after an attempt refused for the moment, an error or a connection to itself, while a connection is wanted, and never after one refused for good; it waits min(500 * 2^k, 30000) ms after k retries since the last `restart` |
| ConnectorOutcomes.PendingExactlyWhen | Connector.cpp:56-60 | in every reachable state: a retry is pending after an event exactly if the event schedules it, or it was pending and the event neither runs it nor, finding it in the timer queue, cancels it |
| ConnectorOutcomes.CallsAreNoted | Connector.cpp:26-60 | over every run: a connection is wanted exactly if the last `start`, `restart` or `stop` says so; the starts and cancellations still queued are those other threads asked for and the loop has not reached |
| Connectors.Connector.constructor | Connector.cpp:12-19 | a new connector is idle |
| Connectors.Connector.RequestStart | Connector.cpp:26-30 | `start` on another thread: the wish is noted and `startInLoop` queued |
| Connectors.Connector.StartHere | Connector.cpp:26-45 | `start` on the loop thread attempts at once, or fails its assertion |
| Connectors.Connector.StartNow | Connector.cpp:32-45 | attempts, does nothing, or fails its assertion |
| Connectors.Connector.Again | Connector.cpp:47-54 | the delay is reset and an attempt made at once |
| Connectors.Connector.StopTrying | Connector.cpp:56-60 | the wish is withdrawn; on the loop thread the latest retry is cancelled unless it is in flight, on another thread its cancellation is queued; no retry is left pending exactly under the stated test |
| Connectors.Connector.CancelQueued | TimerQueue.cpp:110-136 | a cancellation queued by another thread stops its timer unless that is in flight |
| Connectors.Connector.RunRetry | Connector.cpp:138 | a retry timer attempts whether or not a connection is still wanted |
| Connectors.Connector.Attempt | Connector.cpp:62-103 | the switch over the result of `::connect` |
| Connectors.Connector.Begin | Connector.cpp:105-113 | the socket is watched, or the assertion fails |
| Connectors.Connector.RemoveChannel | Connector.cpp:120-127 | the poller forgets the channel and its reset is queued |
| Connectors.Connector.RetryLater | Connector.cpp:129-141 | the socket is closed and, if a connection is still wanted, a new timer waits for the delay, which is doubled up to the limit |
| Connectors.Connector.OnWrite | Connector.cpp:143-181 | the four outcomes of a writable socket; a good one is handed over if a connection is wanted and closed if not |
| Connectors.Connector.OnError | Connector.cpp:183-196 | a socket still connecting is given up and retried |
| Connectors.Connector.HandleEvent | Channel.cpp:62-90 | error and write callbacks in one dispatch: no assertion fails, and every socket keeps exactly one fate |

## Left out

- Sockets, `readv`, `write`, `connect`, `poll`, `epoll_wait`, `getsockopt`: their results are parameters within the documented range; only the eventfd counter, the timerfd deadline and the epoll interest list are state.
- Acceptor, Socket, InetAddress, Logger, Thread, EventLoopThread, EventLoopThreadPool, formatting of Timestamp: thin wrappers; the loop of a new connection is any loop.
- Clocks: one clock in whole microseconds, later than 0, for `gettimeofday` and the timerfd; a timer's interval is a whole number of microseconds.
- Sequence numbers of timers and of connections are unbounded; the wrap-around of the 64-bit counter is not modelled.
- `getExpired` finds its bound with a sentinel entry at the highest address; the model takes the entries due by now, which is the same for every address below that one.
- TimerModel.Step: `addTimer` and `cancel` on the loop thread are not possible while the batch is being reset, because no callback runs then.
- Objects are never freed except timers, which are the subject: TcpConnection, Channel and Connector objects outlive the model's runs, and `shared_ptr` counts, `tie` and the destructors are left out.
- TcpConnections.Step: a call from another thread tests the state and queues its functor in one step; data races on `state_` are not modelled. A `write` after `shutdown(SHUT_WR)` takes nothing.
- Interests.Apply: the removal of a channel that is not registered or still has interest, which both pollers refuse with assertions, leaves the model alone.
- TcpConnections.TcpConnection.SendInLoop: the write-complete callback is taken to be set, and its functor is the history entry `notified`.
- Lifecycles.TcpServer.NewConnection: connections are records in a map, not objects; their buffers and channels are in `TcpConnections`.
- Lifecycles.TcpServer.Establish, Destroy and Shutdown: have only what the life of a connection needs; their channels, callbacks and half-close are in `TcpConnections`, so they have no row.
- Lifecycles.TcpServer.DrainBase: is the loop of `doPendingFunctors` on the base loop, without the swap, which `EventLoops` has.
- Connectors.Connector.RunRetry: the timers of one batch may run in any order, and `timerId_` is read by `stop` on another thread without regard to data races.
- EventLoops.EventLoop.Loop: other threads do nothing while this method runs; all interleavings with them are in the step system.
- Connectors.Connector.Attempt: `errno` values are sorted into the three groups of the switch.
- `Buffer::shrink`, `forceCloseWithDelay`, socket options, the high-water mark: unused, or thin.
- `EpollPoller::fillActiveChannels`: copies the kernel's list entry by entry.
- Connector callbacks that call the connector from inside `newConnectionCallback_`, and its destructor.
- TcpClient and the chat programs: glue over what is modelled here.
