# Verified model of mymuduo

mymuduo is a reactor network library in C++ with an HTTP server on top. This project models the stateful cores of
the library in Dafny and proves what they are for: what every interleaving of their threads keeps, what arbitrary
short writes and stream cuts cannot change, and which conversions undo each other. Where a property does not hold of
the code as written, the exact condition under which it does is proved instead.

`dafny verify dfyconfig.toml` checks everything.

| file | models |
|---|---|
| `CInt.dfy`, `Common.dfy` | truncating C++ division and 32-bit bounds; options and sequence facts |
| `Date.dfy`, `TimeZone.dfy` | Julian day numbers, UTC and local time |
| `LogStream.dfy` | `FixedBuffer` and integer formatting in place |
| `AsyncLogging.dfy` | the double-buffered log and its back-end thread |
| `EventLoop.dfy` | the task queue and the eventfd wakeup protocol |
| `ThreadPool.dfy` | the bounded producer/consumer queue with shutdown; without `Stop` and with a positive bound, `BoundedBlockingQueue` |
| `TimerQueue.dfy` | the two timer sets, the timers' heap memory, re-entrant callbacks and the timerfd |
| `Buffer.dfy`, `TcpConnection.dfy` | the gap buffer; the output side of a connection |
| `Http.dfy` | the incremental request parser |
| `Poller.dfy` | `Channel`, `PollPoller` and `EPollPoller` |

Concurrent parts have two layers. A `State` datatype with `Event`, `Enabled` and `Apply` gives every critical section,
system call or thread-local stretch as one step; `IsRun` is any interleaving of them, and the theorems are about every
state of every run. A class with the source's fields has a method per step, written as the source writes it, whose
contract is that it takes exactly that step and keeps the invariant. The source's `assert`s appear as `AssertsHold`,
which runs prove rather than require, and as asserts in the method bodies; in the timer queue, where one can fail, the
failing step aborts the run. What a run was asked to do - tasks pushed, lines logged, bytes sent, timers created - is
read off its calls by functions that know nothing of the steps, and the theorems are stated of that. Results of system
calls, clock readings, the address the allocator returns and the thread a condition variable wakes are parameters of
the events.

## Findings

Places where the code does not do what it is evidently for, or what its comments say. The model follows the code.

- Stopping a thread pool: the comment at `mymuduo/base/ThreadPool.cc:106` says queued tasks are still executed. Each
  worker takes at most one more, and none if it was still starting; `StopDrainsIff` says when that suffices.
- Local time: clocks that go back for any other reason than the end of a one-hour summer time do not round-trip.
- Day numbers below -32044 give no date, and `weekDay` is negative for day numbers below -1 that are not one less
  than a multiple of 7.
- A sendfile that fails in `handleWrite` after `shutdownInLoop` has run leaves the connection without write interest
  and without `shutdownWrite`, until a message that was on its way is buffered and drained (`FailedFileShutdownIff`).
- A thread that calls `send` and then `shutdown` can lose the message: `handleWrite` carries out the half-close as soon
  as it sees it and the buffer is empty, while the message is still being handed over (`ShutdownIsFinal`).
- A message accepted while a file is pending is sent ahead of the rest of the file; a second file replaces the first.
- Request bodies: a declared length that exceeds the readable bytes fails an assert, one that is smaller makes the
  parse loop spin, an unreadable one throws an exception the `catch` does not name (`BodyEndsIff`, `EndsWellIff`). A
  line without a colon ends the headers, not only an empty one (`EndsHeadersIff`).
- Deleting a timer destroys its callback, and with it whatever the callback owns. `cancelInLoop` deletes between its
  two erases, where the sets disagree: a destructor that adds or cancels a timer there fails an assert (`AbortsIff`).
  `~TcpClient` does add one. `reset` deletes with `callingExpiredTimers_` already cleared: a destructor that cancels a
  later periodic timer of the batch there is not heard.
- Such a cancel, and one that reaches the loop before the timer's own add, are the only ones without effect
  (`CancelTakesEffectIff`). A timer cancelled while its batch is running is still called in that batch if its turn is
  to come (`CancelledIsCalledIff`).
- Log lines accepted after the last swap before a stop are never written (`StopWritesAllIff`).
- A `PollPoller` channel that was disabled once is never watched again, whatever it enables later.
- A task queued by the loop's own thread before `loop()` is not woken for, nor is one queued by the destructor of a
  functor: `doPendingFunctors` clears its flag before it destroys the functors. `~TcpClient` gets there through
  `forceClose`. Such a task waits for another event or the poll's timeout. A `quit` before `loop()` is forgotten
  (`QuitHeededIff`).
- The comment on `readInt64` asks for four readable bytes; the code asserts eight.

## Model

| member | source | states |
|---|---|---|
| TimerQueue.RunInv | mymuduo/net/TimerQueue.cc:116-267 | in every run of adds, cancels, expiries, callbacks and destructors, an assert fails at exactly those steps that add or cancel a timer in the middle of a cancel's delete; no dead timer is dereferenced or deleted, and the invariant holds throughout |
| TimerQueue.AbortsIff | mymuduo/net/TimerQueue.cc:116-138 | a run has aborted if and only if a destructor run by cancelInLoop added or cancelled a timer |
| TimerQueue.AddInDestructorAborts | mymuduo/net/TimerQueue.cc:126-130 | such a run: the destructor of a cancelled timer's callback adds a timer |
| TimerQueue.IndexesAgree | mymuduo/net/TimerQueue.h:40-47 | the two sets hold the same timers under the timers' own keys, less the one a cancel is deleting, and every live timer is in exactly one of the sets, the batch or a pending add |
| TimerQueue.AlarmIsEarlyEnough | mymuduo/net/TimerQueue.cc:43-86 | outside handleRead a pending timer implies an armed timerfd, no later than any expiration up to 100 microseconds after the step that armed it, and never earlier than what that step armed it for |
| TimerQueue.ArmsForTheFirst | mymuduo/net/TimerQueue.cc:43-56 | the timerfd is armed exactly by an add that comes first and at the end of handleRead, for the first timer, and never for less than 100 microseconds |
| TimerQueue.TimersAsCreated | mymuduo/net/TimerQueue.cc:195-200 | sequence numbers count the creations, and every live timer is at the address and has the interval it was created with, due when first asked for or an interval after an expiry |
| TimerQueue.StayingRun | mymuduo/net/TimerQueue.cc:202-267 | a scheduled timer, or one about to be re-armed, stays until it is cancelled or a handleRead begins |
| TimerQueue.ExpiredExactly | mymuduo/net/TimerQueue.cc:167-190 | the batch is exactly the entries due now, in order; every remaining entry is later |
| TimerQueue.BatchCalledInOrder | mymuduo/net/TimerQueue.cc:149-156 | by the end of the callbacks exactly the timers of the batch have been called, in order, each once |
| TimerQueue.CancelingIsNoted | mymuduo/net/TimerQueue.cc:132-158 | what reset takes for cancelled is exactly what the callbacks of this batch cancelled |
| TimerQueue.ResetOutcome | mymuduo/net/TimerQueue.cc:212-230 | whatever destructors do during reset short of cancelling that timer, each timer of the batch ends re-armed from the batch time if periodic and not cancelled, and deleted otherwise |
| TimerQueue.CancelTouchesOnlyItsTimer | mymuduo/net/TimerQueue.cc:116-138 | a cancel changes no timer with another sequence number, even one that reuses the address |
| TimerQueue.DeletionTouchesOnlyItsTimer | mymuduo/net/TimerQueue.cc:126-137 | nor does the end of the cancel, after the destructor |
| TimerQueue.StaleCancelIsHarmless | mymuduo/net/TimerQueue.cc:120-136 | cancelling a timer that is gone changes no timer, set or alarm |
| TimerQueue.CancelledIsGone | mymuduo/net/TimerQueue.cc:132-159 | a cancelled timer, self-cancelled ones included, is not alive at any later moment outside handleRead and cancels, provided its add had reached the loop and reset was not about to re-arm it |
| TimerQueue.CancelTakesEffectIff | mymuduo/net/TimerQueue.cc:116-159 | that proviso is exact: before the next handleRead and without a second cancel, the timer is gone if and only if it was met |
| TimerQueue.CancelBeforeAddIsLost | mymuduo/net/TimerQueue.cc:195-210 | a run in which a cancel overtakes the timer's own add and the timer is scheduled after all |
| TimerQueue.CancelInDestructorIsLost | mymuduo/net/TimerQueue.cc:215-230 | a run in which a destructor, run by reset, cancels a later periodic timer of the batch, which is re-armed all the same |
| TimerQueue.CancelledIsCalledIff | mymuduo/net/TimerQueue.cc:132-155 | a cancelled timer is called again if and only if the running batch still had its turn to come at the cancel |
| TimerQueue.InvStep | mymuduo/net/TimerQueue.cc:116-267 | each single step, destructors between the two halves of a delete included, meets its asserts unless it interrupts a cancel, and keeps the invariant |
| TimerQueue.Queue.AddTimer | mymuduo/net/TimerQueue.cc:195-200 | allocates a timer with a sequence number never given out before |
| TimerQueue.Queue.InsertTimer | mymuduo/net/TimerQueue.cc:243-267 | both sets gain the timer unless an assert fails, and the result says whether the earliest expiration changed |
| TimerQueue.Queue.AddTimerInLoop | mymuduo/net/TimerQueue.cc:202-210 | the add step, arming the timerfd when the earliest expiration changed; it aborts exactly in the middle of a cancel |
| TimerQueue.Queue.BeginCancel | mymuduo/net/TimerQueue.cc:116-137 | the cancel step as far as the delete, with the source's assert; it aborts exactly in the middle of another cancel |
| TimerQueue.Queue.EndCancel | mymuduo/net/TimerQueue.cc:129-137 | the rest of the cancel after the destructor; the closing assert holds |
| TimerQueue.Queue.GetExpired | mymuduo/net/TimerQueue.cc:167-190 | the due prefix leaves both sets |
| TimerQueue.Queue.BeginHandleRead | mymuduo/net/TimerQueue.cc:140-150 | the expiry step up to the callbacks |
| TimerQueue.Queue.CallNext | mymuduo/net/TimerQueue.cc:152-155 | the timer called is the next of the batch, alive |
| TimerQueue.Queue.StartReset | mymuduo/net/TimerQueue.cc:156-158 | the callbacks are over: from here on a cancel is not noted any more |
| TimerQueue.Queue.ResetTimer | mymuduo/net/TimerQueue.cc:215-229 | a turn of the reset loop up to its delete: restarted and inserted, or about to be deleted; no assert fails |
| TimerQueue.Queue.EndDelete | mymuduo/net/TimerQueue.cc:225-229 | the timer is gone once its destructor has run |
| TimerQueue.Queue.EndReset | mymuduo/net/TimerQueue.cc:232-240 | the timerfd armed for the earliest timer |
| AsyncLogging.RunInv | mymuduo/base/AsyncLogging.cc:80-147 | in every interleaving of appends, stops and back-end steps the asserts on spare buffers and on buffersToWrite hold, because nextBuffer_ is missing only while buffers_ is not empty |
| AsyncLogging.LogConservation | mymuduo/base/AsyncLogging.cc:40-152 | at every moment the lines asked to be logged that a buffer can hold are, in lock order, those of the batches dealt with and those in memory; the file holds exactly the lines of the buffers each batch kept; nothing is lost if and only if no dropped buffer held a line |
| AsyncLogging.AcceptedIsLogged | mymuduo/base/AsyncLogging.cc:40-64 | every line appended that a buffer can hold is accepted, in order, and nothing else |
| AsyncLogging.OnePassWritesAll | mymuduo/base/AsyncLogging.cc:93-123 | one pass of the back end deals with every line logged before its swap |
| AsyncLogging.RunsUntilStopped | mymuduo/base/AsyncLogging.cc:80-92 | the back end ends exactly at a loop test after a stop, and sleeps exactly on an empty queue |
| AsyncLogging.PassedOnIffFull | mymuduo/base/AsyncLogging.cc:43-61 | the current buffer is passed on exactly when the line does not fit with a byte to spare |
| AsyncLogging.StopWritesAllIff | mymuduo/base/AsyncLogging.cc:80-153 | once the back end has ended the file never changes, and it holds every line logged if and only if none came after the last swap and none was dropped |
| AsyncLogging.StopLosesLines | mymuduo/base/AsyncLogging.cc:80-92 | the shortest run that loses a line |
| AsyncLogging.PrintedIsSubsequence | mymuduo/base/AsyncLogging.cc:106-123 | what a series of batches leaves in the file is a subsequence of their lines, and their length differs by the dropped ones |
| AsyncLogging.AsyncLogger.AppendLine | mymuduo/base/AsyncLogging.cc:40-64 | the front-end critical section |
| AsyncLogging.AsyncLogger.CheckQueue | mymuduo/base/AsyncLogging.cc:80-92 | the loop test, its asserts, and swapping at once when buffers are waiting |
| AsyncLogging.AsyncLogger.AfterWait | mymuduo/base/AsyncLogging.cc:88-102 | after the timed wait, however it ended, the swap happens |
| AsyncLogging.AsyncLogger.Swap | mymuduo/base/AsyncLogging.cc:93-101 | the swap of filled for spare buffers |
| AsyncLogging.AsyncLogger.WriteOut | mymuduo/base/AsyncLogging.cc:104-130 | the overload drop, its notice, and the writes |
| AsyncLogging.AsyncLogger.RecycleBuffers | mymuduo/base/AsyncLogging.cc:132-149 | two written buffers become the spare ones |
| EventLoop.WakeupNeverLost | mymuduo/net/EventLoop.cc:102-122 | of a loop blocked in poll with tasks queued, the eventfd was written and not read since, or more foreign threads pushed than have written it, unless the queue still holds a task that the loop's own thread pushed before the loop or from the destructor of a functor at the end of doPendingFunctors |
| EventLoop.WakeupIsRead | mymuduo/net/EventLoop.cc:110-117 | a readable eventfd is read in the pass of the loop that finds it so |
| EventLoop.RunTold | mymuduo/net/EventLoop.cc:194-252 | the queue's history, the writers still to come and the state of the eventfd are what the calls made so far say |
| EventLoop.ExceptionsMean | mymuduo/net/EventLoop.cc:194-232 | the two exceptions hold exactly while such a task has not been swapped out |
| EventLoop.OwnTaskBeforeLoopStalls | mymuduo/net/EventLoop.cc:194-207 | the first exception is real: every such run goes to sleep on a non-empty queue |
| EventLoop.OwnTaskInReleaseStalls | mymuduo/net/EventLoop.cc:215-232 | so is the second: with the flag cleared before the functors are destroyed, every such run does the same |
| EventLoop.StallingRuns | mymuduo/net/EventLoop.cc:194-232 | a run from the start for each of the two |
| EventLoop.QuitNeverLost | mymuduo/net/EventLoop.cc:254-262 | after a quit made once the loop is entered the flag is set at every later moment, and the loop is never in poll without a wakeup due |
| EventLoop.QuitHeededIff | mymuduo/net/EventLoop.cc:102-122 | of any quit, in a loop that was entered and without another quit since, the flag is set if and only if the quit was made after entering the loop |
| EventLoop.EndsOnlyOnQuit | mymuduo/net/EventLoop.cc:110-122 | the flag is set exactly by a quit made since the loop was entered, and only then does the loop end |
| EventLoop.QuitBeforeLoopIsLost | mymuduo/net/EventLoop.cc:102-110 | the shortest run in which a quit is overwritten and the loop sleeps |
| EventLoop.ExactlyOnceInOrder | mymuduo/net/EventLoop.cc:194-232 | executed, swapped-out and queued tasks make up the tasks given to queueInLoop by any thread, in the order of the calls, each once |
| EventLoop.OnePassRunsAll | mymuduo/net/EventLoop.cc:110-119 | one pass of the loop executes every task given to queueInLoop before its swap |
| EventLoop.Loop.QueueInLoop | mymuduo/net/EventLoop.cc:194-207 | the push, and exactly when a wakeup must follow |
| EventLoop.Loop.Wakeup | mymuduo/net/EventLoop.cc:234-242 | the eventfd write, for each kind of writer |
| EventLoop.Loop.HandleRead | mymuduo/net/EventLoop.cc:244-252 | the eventfd read resets it |
| EventLoop.Loop.SwapFunctors | mymuduo/net/EventLoop.cc:217-226 | the critical section that takes the queue |
| EventLoop.Loop.Quit | mymuduo/net/EventLoop.cc:254-262 | the flag, and whether a wakeup must follow |
| EventLoop.Loop.EnterTheLoop | mymuduo/net/EventLoop.cc:102-108 | the loop starts by forgetting any earlier quit |
| EventLoop.Loop.TestLoop | mymuduo/net/EventLoop.cc:110-119 | the loop goes on exactly while quit_ is unset |
| EventLoop.Loop.BeginPendingFunctors | mymuduo/net/EventLoop.cc:215-218 | from here until EndPendingFunctors the loop counts as calling functors |
| EventLoop.Loop.CallFunctor | mymuduo/net/EventLoop.cc:227-230 | the functor at the index is the one called, and only it is executed |
| EventLoop.Loop.EndPendingFunctors | mymuduo/net/EventLoop.cc:231 | the flag is cleared while the functors are still to be destroyed |
| EventLoop.Loop.ReleaseFunctors | mymuduo/net/EventLoop.cc:232 | the functors are destroyed, and the loop test comes next |
| ThreadPool.NobodySleepsOnWork | mymuduo/base/ThreadPool.cc:69-125 | in every interleaving a worker or producer sleeps only while another was woken for each task or free slot; the bound holds; after a stop nobody sleeps |
| ThreadPool.RunInv | mymuduo/base/BoundedBlockingQueue.h:32-68 | the counting invariants behind it, and every accepted task executed, held by one worker or queued in order |
| ThreadPool.TasksConserved | mymuduo/base/ThreadPool.cc:69-142 | of the tasks offered to a pool with room, in order, the first ones were each executed or are held by exactly one worker, and the others are the queue |
| ThreadPool.AcceptedIsTakenOn | mymuduo/base/ThreadPool.cc:69-94 | the accepted tasks are exactly those of the callers that came to the critical section while the pool ran and was not full, whoever slept or was woken |
| ThreadPool.ExecutedIsRan | mymuduo/base/ThreadPool.cc:135-142 | a task counts as executed only by its worker's execution, or its caller's in a pool without threads |
| ThreadPool.RunReturnsIff | mymuduo/base/ThreadPool.cc:81-93 | a caller of run comes back exactly when its task is accepted or the pool has been stopped, and otherwise waits |
| ThreadPool.VisitOutcome | mymuduo/base/ThreadPool.cc:96-117 | a worker's visit to the queue takes the first task if there is one, and otherwise ends in sleep or, after a stop, in leaving |
| ThreadPool.WorkersStay | mymuduo/base/ThreadPool.cc:135-142 | no worker leaves before a stop |
| ThreadPool.ExactlyOnce | mymuduo/base/ThreadPool.cc:135-142 | a task about to be executed was not executed before and is held by no other worker |
| ThreadPool.StopDrainsIff | mymuduo/base/ThreadPool.cc:45-61 | when all workers have left after a stop, the queue is empty if and only if the workers that had passed their last loop test, but not yet visited the queue, were at least as many as the queued tasks |
| ThreadPool.StopLosesTasks | mymuduo/base/ThreadPool.cc:127-142 | runs that lose a task: the only worker had not made its first loop test at the stop; and it had two tasks to take |
| ThreadPool.Pool.Run | mymuduo/base/ThreadPool.cc:69-94 | one stay of a producer in the mutex |
| ThreadPool.Pool.TakeTask | mymuduo/base/ThreadPool.cc:96-117 | one stay of a worker in the mutex, returning the next accepted task |
| ThreadPool.Pool.StopAll | mymuduo/base/ThreadPool.cc:45-55 | the stop step |
| ThreadPool.Pool.EnterTheLoop | mymuduo/base/ThreadPool.cc:127-135 | a worker's first loop test, which may come after start has returned |
| TimeZone.LocalRoundTripIff | mymuduo/base/TimeZone.cc:284-326 | for a table with spaced transitions, local time round-trips at every instant if and only if its clocks go back only to end a one-hour summer time |
| TimeZone.NoRoundTripJustBefore | mymuduo/base/TimeZone.cc:307-326 | for any other backward step, the last second before it comes back as another second |
| TimeZone.StandardAndDstRoundTrips | mymuduo/base/TimeZone.cc:316-325 | the usual standard and summer time tables round-trip, repeated hour included |
| TimeZone.LowerBound | mymuduo/base/TimeZone.cc:242-245 | the binary search finds the first transition not below the sentry |
| TimeZone.FindLocaltime | mymuduo/base/TimeZone.cc:231-263 | the search with its step back finds the last transition at or before the sentry, in GMT and in local order |
| TimeZone.ToLocalTime | mymuduo/base/TimeZone.cc:284-304 | local fields by the offset in force |
| TimeZone.LocalTmNames | mymuduo/base/TimeZone.cc:284-304 | the local fields, with the offset stored in them, name the instant they were made from; offset and summer time flag are those in force |
| TimeZone.FromLocalTime | mymuduo/base/TimeZone.cc:307-326 | seconds from local fields, with the summer time correction |
| TimeZone.UtcRoundTrip | mymuduo/base/TimeZone.cc:329-372 | seconds to UTC fields and back is the identity from the first representable second on, negative times included, with all fields in range |
| TimeZone.UtcRoundTripBack | mymuduo/base/TimeZone.cc:358-372 | valid fields to seconds and back gives the same date and time |
| TimeZone.YearDay | mymuduo/base/TimeZone.cc:349-353 | tm_yday is the day count from 1 January, 0 to 365 |
| TimeZone.UtcWeekDayIff | mymuduo/base/TimeZone.cc:347 | tm_wday counts days from Sunday, on exactly the days on which the remainder is not negative |
| TimeZone.UtcNoOverflow | mymuduo/base/TimeZone.cc:329-355 | no int overflows up to the last second whose day number can be taken apart, the weekday and the start of the year included |
| Date.DateRoundTripIff | mymuduo/base/Date.cc:21-51 | a calendar date survives the trip through its day number if and only if it is not before 1 March -4800 |
| Date.DayRoundTripIff | mymuduo/base/Date.cc:38-51 | a day number yields a real date that maps back to it if and only if it is at least -32044 |
| Date.NextDateIsNextDay | mymuduo/base/Date.cc:21-51 | consecutive dates of an independently defined calendar have consecutive day numbers |
| Date.DayNumbersOrderDates | mymuduo/base/Date.cc:21-36 | day numbers order dates as the calendar does |
| Date.DayNumberWithinYear | mymuduo/base/Date.cc:35 | the day number within a year is the sum of the lengths of the earlier months |
| Date.WeekDayIff | mymuduo/base/Date.h:74-75 | the weekday is the count modulo 7 exactly where the remainder is not negative |
| Date.JulianDayNoOverflow | mymuduo/base/Date.h:24-29 | no intermediate of the forward conversion overflows, far beyond the documented years |
| Date.YearMonthDayNoOverflow | mymuduo/base/Date.cc:40-49 | the backward conversion stays in 32 bits exactly up to day 536838867 |
| Date.DayOfYearNoOverflow | mymuduo/base/TimeZone.cc:345-353 | nor do the fields and the year's first day computed from a day number in that range |
| TcpConnection.OutputStream | mymuduo/net/TcpConnection.cc:96-152 | under arbitrary short writes what the kernel took, the output buffer and the rest of the file are all messages that came to an open connection and all files sent while connected, in that order; only a message written directly to a broken connection does not count; a file that fails is cut off there and the stream goes on |
| TcpConnection.HistoryTold | mymuduo/net/TcpConnection.cc:264-425 | the accepted bytes are those taken from the calls, and the wire those the kernel said it took |
| TcpConnection.RunTold | mymuduo/net/TcpConnection.cc:197-242 | state and hand-off queue follow from the calls: messages of other threads come to the loop thread in order |
| TcpConnection.FlagsMean | mymuduo/net/TcpConnection.cc:264-425 | what counts as overtaking, replacing, breaking and stranding, in terms of the run |
| TcpConnection.FileTakesOver | mymuduo/net/TcpConnection.cc:264-318 | a new file replaces what was pending, less what the kernel took at once |
| TcpConnection.NothingAfterClose | mymuduo/net/TcpConnection.cc:176-182 | after a close nothing is accepted or written |
| TcpConnection.NoForgottenBytesNoBusyLoop | mymuduo/net/TcpConnection.cc:310-317 | write interest is on if and only if something is left to write |
| TcpConnection.ShutdownOnlyWhenDrained | mymuduo/net/TcpConnection.cc:227-242 | shutdownWrite is issued only in half-close and when everything that came to the loop thread is on the wire; when messages from other threads are still on their way, it was handleWrite or a shutdown on the loop thread that issued it, not the shutdownInLoop queued behind them |
| TcpConnection.ShutdownIsFinal | mymuduo/net/TcpConnection.cc:320-425 | from the shutdown on nothing is accepted or written, so exactly the messages still on their way are lost |
| TcpConnection.HalfCloseHappens | mymuduo/net/TcpConnection.cc:115-151 | a half-close is carried out as soon as nothing is left to write, unless handleWrite gave up a file after shutdownInLoop had run |
| TcpConnection.FailedFileShutdownIff | mymuduo/net/TcpConnection.cc:153-162 | in that case, and with nothing left to write, shutdownWrite has been issued if and only if a message sent before the half-close was buffered since |
| TcpConnection.SendDuringFileIff | mymuduo/net/TcpConnection.cc:411-424 | accepting a message keeps the call order if and only if it commutes with the rest of the pending file |
| TcpConnection.FileDuringFileIff | mymuduo/net/TcpConnection.cc:264-275 | accepting a file keeps the stream if and only if no file is pending |
| TcpConnection.ExceptionsHappen | mymuduo/net/TcpConnection.cc:96-425 | runs from the start in which a message overtakes a file, a file replaces another, a file is given up in half-close, and a message on its way is lost to a half-close |
| TcpConnection.RunInv | mymuduo/net/TcpConnection.cc:96-425 | the invariants behind these hold in every state of every run |
| TcpConnection.Connection.SendHere | mymuduo/net/TcpConnection.cc:320-334 | send on the loop thread |
| TcpConnection.Connection.HandToLoop | mymuduo/net/TcpConnection.cc:320-334 | send on another thread: the message is handed over if the connection is up |
| TcpConnection.Connection.RunHanded | mymuduo/net/TcpConnection.cc:358-366 | messages handed over are sent in order |
| TcpConnection.Connection.SendInLoop | mymuduo/net/TcpConnection.cc:374-425 | the direct write, the buffering of the rest and the write interest |
| TcpConnection.Connection.SendFileInLoop | mymuduo/net/TcpConnection.cc:264-318 | the sendfile step |
| TcpConnection.Connection.HandleWrite | mymuduo/net/TcpConnection.cc:96-170 | the writable step |
| TcpConnection.Connection.AbandonFile | mymuduo/net/TcpConnection.cc:153-162 | a failed sendfile drops the file and the write interest and nothing else |
| TcpConnection.Connection.RequestShutdown | mymuduo/net/TcpConnection.cc:227-234 | the half-close request, on the loop thread or another |
| TcpConnection.Connection.RunShutdown | mymuduo/net/TcpConnection.cc:235-242 | shutdownInLoop as handed over |
| TcpConnection.Connection.StopWriting | mymuduo/net/TcpConnection.cc:115-128 | write interest off, then a waiting half-close is carried out |
| TcpConnection.Connection.ShutdownNow | mymuduo/net/TcpConnection.cc:235-242 | shutdownWrite unless still writing |
| TcpConnection.Connection.HandleClose | mymuduo/net/TcpConnection.cc:176-182 | the close step |
| Http.FeedIsParse | mymuduo/http/HttpContext.cc:71-122 | cutting a stream anywhere gives the same outcome, request and unread bytes as parsing it whole, without a body |
| Http.FragmentationIff | mymuduo/http/HttpContext.cc:124-156 | the outcome is independent of the cuts if and only if the stream does not carry bytes under a declared length that fits in them |
| Http.BodyEndsIff | mymuduo/http/HttpContext.cc:124-156 | a well-formed request that declares its body's length ends well if and only if the length is exactly the number of bytes behind the headers; with more declared the assert fails, with less the loop spins |
| Http.EndsWellIff | mymuduo/http/HttpContext.cc:127-154 | of all streams with a complete head, which end well and which end in the exception of stoll |
| Http.EndsHeadersIff | mymuduo/http/HttpContext.cc:102-121 | a line ends the headers if and only if it has no colon |
| Http.RequestRoundTrip | mymuduo/http/HttpContext.cc:16-122 | a well-formed request written out and fed in any chunks parses to exactly itself, leaving what follows |
| Http.RequestLineIff | mymuduo/http/HttpContext.cc:16-69 | a line is accepted if and only if it is a known method, a target without spaces and a known version, separated by single spaces |
| Http.RequestLineRead | mymuduo/http/HttpContext.cc:16-69 | what is stored of such a line: method, path up to the first question mark, query from there on, version |
| Http.RejectedIff | mymuduo/http/HttpContext.cc:77-99 | a stream is rejected if and only if its first line is not a request line, and then nothing of it is consumed |
| Http.MethodOfIff | mymuduo/http/HttpRequest.h:76-99 | each method has exactly one name |
| Http.HeaderStored | mymuduo/http/HttpRequest.h:140-156 | a header line is stored as its name and the stretch behind the colon without the white space around it |
| Http.StollIs | mymuduo/http/HttpContext.cc:132 | the number read from any text: white space, a sign, digits, and whatever follows |
| Http.HeadExtends | mymuduo/http/HttpContext.cc:77-123 | an unfinished parse goes on from where it stopped, a finished one ignores later bytes |
| Http.TrimSplits | mymuduo/http/HttpRequest.h:140-156 | a header value is what lies between its first and last characters that are not white space |
| Http.HttpRequest.SetMethod | mymuduo/http/HttpRequest.h:76-99 | the five known methods, anything else rejected, with the assert of a fresh request |
| Http.HttpRequest.AddHeader | mymuduo/http/HttpRequest.h:140-156 | the trimming loops store exactly that value under the field name |
| Http.HttpContext.ReadRequestLine | mymuduo/http/HttpContext.cc:16-69 | method, path, query and version of a request line, and which fields a rejected line leaves assigned |
| Http.HttpContext.ReadLine | mymuduo/http/HttpContext.cc:77-123 | a turn of the loop on a line consumes it or is the last |
| Http.HttpContext.ReadBody | mymuduo/http/HttpContext.cc:124-156 | the turn that deals with the body, with its failing, spinning and throwing ends |
| Http.HttpContext.ParseRequest | mymuduo/http/HttpContext.cc:71-159 | the loop over a buffer computes the parse; it ends because each turn that goes on consumes a line |
| Buffer.Buffer.Append | mymuduo/net/Buffer.h:173-178 | the readable bytes gain the data, and the vector stays within twice the peak plus 7 |
| Buffer.Buffer.EnsureWritableBytes | mymuduo/net/Buffer.h:185-192 | room is made with the contents unchanged, growing exactly when compaction cannot make it, by exactly what is missing; the cheap prepend area survives |
| Buffer.Buffer.MakeSpace | mymuduo/net/Buffer.h:388-407 | its assert always holds |
| Buffer.Buffer.MoveToFront | mymuduo/net/Buffer.h:400-402 | the overlapping copy moves every byte before it is overwritten |
| Buffer.Buffer.Retrieve | mymuduo/net/Buffer.h:119-130 | takes bytes off the front, and gives back the whole space when none are left |
| Buffer.Buffer.Unwrite | mymuduo/net/Buffer.h:210-214 | takes bytes off the back |
| Buffer.Buffer.Prepend | mymuduo/net/Buffer.h:349-355 | puts bytes in front |
| Buffer.Buffer.Shrink | mymuduo/net/Buffer.h:357-364 | keeps the contents in a vector of exactly the size asked for |
| Buffer.Buffer.ReadFd | mymuduo/net/Buffer.cc:16-56 | a scatter read appends exactly the bytes received |
| Buffer.Buffer.FindCrlf | mymuduo/net/Buffer.h:81-91 | finds the first CR LF of the readable bytes |
| Buffer.Buffer.AppendInt | mymuduo/net/Buffer.h:219-243 | appends the big-endian encoding |
| Buffer.Buffer.ReadInt | mymuduo/net/Buffer.h:249-279 | returns the decoded front bytes and removes them |
| Buffer.IntRoundTrip | mymuduo/net/Buffer.h:219-318 | every signed value of every width survives big-endian encoding |
| Buffer.IntRoundTripBack | mymuduo/net/Buffer.h:281-318 | every byte string is the encoding of the value read from it |
| Buffer.NetworkByteOrder | mymuduo/net/Buffer.h:219-243 | the bytes appended are the value, or its two's complement, with the highest byte first |
| Buffer.ReadsNetworkByteOrder | mymuduo/net/Buffer.h:281-318 | the value read is the signed one congruent to the bytes in that order |
| Buffer.FieldsRoundTrip | mymuduo/net/Buffer.h:219-279 | typed appends of any widths are read back in order |
| LogStream.RenderRoundTrip | mymuduo/base/LogStream.cc:49-70 | reading the formatted characters gives the value back, with no leading zeros, for every integer |
| LogStream.ParseRoundTrip | mymuduo/base/LogStream.cc:49-70 | every canonical text is the rendering of its value |
| LogStream.RenderLength | mymuduo/base/LogStream.h:178 | any 64-bit value fits in 20 characters, 16 in hexadecimal |
| LogStream.PutDigits | mymuduo/base/LogStream.cc:52-60 | the digit loop with the mirrored table, correct for negative values without negating them |
| LogStream.ReverseRange | mymuduo/base/LogStream.cc:67 | in-place reversal |
| LogStream.Convert | mymuduo/base/LogStream.cc:49-70 | writes the text and a terminator and touches nothing else |
| LogStream.ConvertHex | mymuduo/base/LogStream.cc:72-88 | the same in hexadecimal |
| LogStream.FixedBuffer.Append | mymuduo/base/LogStream.h:41-49 | all of a line or, when it does not fit with a byte to spare, nothing |
| LogStream.FixedBuffer.FormatInteger | mymuduo/base/LogStream.cc:240-248 | with 48 bytes free the whole text is appended and stays in bounds; otherwise nothing is |
| LogStream.FixedBuffer.FormatPointer | mymuduo/base/LogStream.cc:299-311 | "0x" and the address in hexadecimal under the same guard |
| Poller.PollPoller.UpdateChannel | mymuduo/net/poller/PollPoller.cc:97-135 | slots, map and stored indexes stay in bijection; a known channel's slot is rewritten, a new one gets the last slot |
| Poller.PollPoller.RemoveChannel | mymuduo/net/poller/PollPoller.cc:137-172 | swap-with-last removal: every other channel keeps its slot's contents and finds it |
| Poller.PollPoller.FillActiveChannels | mymuduo/net/poller/PollPoller.cc:71-91 | the channels of the first slots with events, in order, each told its own events |
| Poller.ActiveAreEventful | mymuduo/net/poller/PollPoller.cc:71-91 | told how many slots have events, the result is the channels of exactly those, in order |
| Poller.WatchedIffNeverMuted | mymuduo/net/poller/PollPoller.cc:119-134 | a registered descriptor is polled if and only if none of its updates declared no interest |
| Poller.Channel.EnableReading | mymuduo/net/Channel.h:60-64 | all reading bits on, every other bit as it was |
| Poller.Channel.EnableWriting | mymuduo/net/Channel.h:70-74 | the writing bit on, every other bit as it was |
| Poller.Channel.DisableWriting | mymuduo/net/Channel.h:75-79 | the writing bit off, every other bit as it was |
| Poller.Channel.DisableAll | mymuduo/net/Channel.h:80-84 | no interest left |
| Poller.EPollPoller.UpdateChannel | mymuduo/net/poller/EPollPoller.cc:95-141 | the kernel table is exactly the interest of the added channels, each operation issued only when it cannot fail |
| Poller.EPollPoller.RemoveChannel | mymuduo/net/poller/EPollPoller.cc:143-162 | the channel leaves map and kernel table |
| Poller.EPollPoller.Update | mymuduo/net/poller/EPollPoller.cc:164-184 | epoll_ctl on the kernel table, only ever called where it cannot fail |

## Left out

- Kernel objects and system calls: their results are event parameters; TZif files, sockets, signals and logging output are not modelled.
- Reference counts, callbacks to users (connection, message, write-complete, high-water mark, close) and `forceClose`.
- Data races on unlocked flags: `running_`, `quit_` and `sendFd_`/`sendLen_` are read and written atomically here, `send` tests `state_` and queues the message in one step, and `sendFile` is called on the loop thread.
- Builds without asserts: a failed assert ends the run.
- `callingPendingFunctors_` is taken as initially false; the constructor does not set it.
- `receiveTime`, the body of a `swap`ped request, and `HttpResponse`.
- Time zone names and abbreviations; `gmtime_r` and `timegm` are replaced by the library's own conversions, as its comments propose.
- Floating point: `formatSI`, `formatIEC`, `double` output; a timer's interval is a number of microseconds beside its `repeat` flag.
- 64-bit wrap-around of the timer sequence and of `size_t` indexes.
- The bytes of a log buffer: a buffer is its sequence of whole lines, its length their total.
- `Buffer`'s `findEOL`, `swap` and typed prepends, `EPollPoller::fillActiveChannels`, `Channel::handleEvent`, `runInLoop`.
- The capacity of `std::vector`, as opposed to its size.
- Empty tasks in the thread pool, and exceptions thrown by tasks.
- `Connector`, `Acceptor`, `TcpServer`, `TcpClient`, `FileServer` and `LogFile`; the small utilities `CountDownLatch`, `BlockingQueue`, `Singleton`, `StringPiece` and `Atomic`.
- Http.FeedIsParse: says nothing about two calls of `parseRequest` after a rejected line, where `setMethod` would assert; servers close the connection.
- Buffer.Buffer.Append: the space bound counts from construction or from the last shrink.
