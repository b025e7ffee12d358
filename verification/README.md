# Verified model of EasyLib's server toolkit

EasyLib is a C++ server toolkit: a base library (calendar, time zones, logging, thread pool), a
reactor (event loop, connections, timers), and some stand-alone algorithms. This project models
its hardest parts in Dafny and proves what they promise. `dafny verify dfyconfig.toml` checks
everything.

## How it is laid out

One module per part of the library. A protocol is a state machine: a datatype for the state, one
function per stretch of code that other threads cannot interrupt, and a `Run` over every list of
events. A class beside it carries the fields of the source's object, and each of its methods is
proved to be one of those steps. Algorithms that the source writes as loops are methods proved
against a specification function or stated outright.

- `Calendar`, `UtcTime`, `TimeZone`: dates, UTC fields, and local time over a table of
  transitions. C's truncating `/` and `%` are written out as `CDiv` and `CMod`.
- `LogStream`, `AsyncLogging`: integer formatting into a fixed buffer, and the logger that
  exchanges full buffers with a writer thread.
- `BoundedBlockingQueue`, `ThreadPool`: condition-variable protocols. A thread is running, asleep
  on a condition, or released and not yet re-checking; it may wake for nothing, and a newcomer may
  get in before a released thread. `Waiting` counts what the waiting threads carry.
- `Buffer`, `Connection`, `EventLoop`, `Timers`: the reactor. Results of `write`, `readv`, `poll`
  and the clock are inputs, arbitrary within their contracts.
- `ReorderList`, `Serialization`, `StringSim`: in-place list reordering, the preorder checker, and
  n-gram similarity.

## What the code does not do

Some expected properties are false of the code. For each, a lemma shows a concrete input or run
that fails, and an if-and-only-if lemma (its name says `Iff`) gives the condition under which the
code does meet the property, for all inputs.

- Local time does not always convert there and back. In a table whose steps back are spaced out it
  does exactly when every step back is the one-hour end of daylight saving
  (`RoundTripIffBackStepsEndDst`; fails: `StandardTimeMovedBack`). A single time comes back exactly
  when no later time shows the same on the clocks, or the last one that does is an hour later and
  daylight saving has ended by then (`ReturnsIff`). Fields filled in by hand and not flagged as
  daylight saving come back exactly when some time shows them, that is unless the clocks skip them
  (`FieldsReturnIff`; fails: `SkippedHalfHour`).
- The calendar formulas are good exactly from 1 March -4800 on (`RealDateIff`, `DateSurvivesIff`,
  `FieldsRealIff`, `FieldsRoundTripIff`; the day before shares its number:
  `BeforeFirstDateCollides`). tm_yday is right only from 1 January -4799 on and one short in the ten
  months before (`YdayIsDayOfYearIff`; fails: `FirstDayIsOneShort`). The day of the week is good
  exactly from day number -1 on (`WeekDayAdvancesIff`, `WdayAdvancesIff`, `WdayFromEpochIff`).
- The timerfd is not always set for the earliest timer: not after a batch without a repeater
  (`SecondOneShotStalls`), and not when the time asked for is the present or past
  (`ImmediateTimerUnset`, `OverdueTimerStalls`). Exactly when it is: `FireArmsIff`,
  `ArmedThroughoutIff`.
- A send is dropped whole when the connection is closed, or open with nothing queued and the direct
  write fails (`SendKeptIff`; fails: `FailedWriteDropsMessage`).
- A connection established again while bytes are queued leaves them unwatched
  (`OpenQueuesWatchedIff`; fails: `ReestablishedStalls`). Bytes queued at shutdown are not sent
  unless the connection is established again (`QueueSendableIff`, `PolledQueueSendableIff`; fails:
  `ShutdownKeepsHalf`).
- A producer and a consumer of a bounded queue can block each other exactly when its capacity is
  zero (`DeadlockIffNoCapacity`).
- Stopping a thread pool does not release a thread waiting in `run`. With every wake-up a notify it
  can still return exactly when it is already released and finds room, or a worker is past its test
  of `running_`; a sleeper gets nothing from room alone (`NotifiedRunReturnsIff`; fails:
  `StopCanStrandASubmitter` with a full queue, `StopCanStrandASleeper` with an empty one). If threads
  may also wake for nothing, room alone is enough (`BlockedRunReturnsIff`).
- The logger's writer loses lines exactly when a batch of more than 25 buffers has lines after its
  second buffer (`LostIff`, `EveryLineAccounted`; fails: `BurstLosesLines`); with lines shorter than
  a buffer that takes 52 MB (`LossNeedsBytes`). It does not flush the
  front end when it stops: the file is complete exactly when nothing was lost and nothing was
  appended since the writer last collected (`FinishedFileIff`; fails: `StopLeavesLineBehind`).
- The loop by itself runs everything pushed exactly when nothing is queued, the eventfd is up, or
  pending_ is set outside a batch (`LoopRunsAllIff`; fails: `UnnotifiedPushNeverRuns`,
  `PushDuringBatchWaits`).

## Model

| member | source | states |
|---|---|---|
| `Calendar.NumberThenDate` | Reactors/base/Date.cc:20-42 | every Gregorian date from -4800-03-01 on is recovered from its Julian day number |
| `Calendar.DateThenNumber` | Reactors/base/Date.cc:20-42 | every day number from -32044 on is a real date (month 1 to 12, day within the leap-aware month) and is that date's number |
| `Calendar.NextDateIsNextNumber` | Reactors/base/Date.cc:20-27 | the next page of the calendar has the next number, across month ends, leap days and century rules |
| `Calendar.NumbersCountDays` | Reactors/base/Date.cc:20-42 | turning n pages adds n, and the number n further on is the n-th next page |
| `Calendar.LessIsLexicographic` | Reactors/base/Date.h:107-115 | Date's `<` is lexicographic order on year, month, day, and `==` is equality of dates |
| `Calendar.RealDateIff` | Reactors/base/Date.cc:29-42 | a day number turns into a real date if and only if it is at least -32044; below, the truncated divisions leave a day of zero or less |
| `Calendar.DateSurvivesIff` | Reactors/base/Date.cc:20-42 | a real date comes back from its number if and only if it is -4800-03-01 or later |
| `Calendar.BeforeFirstDateCollides` | Reactors/base/Date.cc:20-27 | the first failure: -4800-02-29 has the number of the next day |
| `Calendar.WeekDayAdvancesIff` | Reactors/base/Date.h:95-99 | the day of the week is one of 0 to 6 and the next day's is the cyclically next, if and only if the day number is at least -1 |
| `Calendar.WeekDayIsModuloIff` | Reactors/base/Date.h:95-99 | weekDay is the day number plus one modulo 7 if and only if the day number is at least -1 or that is 0 |
| `Calendar.EpochIsThursday` | Reactors/base/Date.cc:44 | 1970-01-01 is day 2440588 and a Thursday |
| `UtcTime.FillHms` | Reactors/base/TimeZone.cc:71-77 | hour, minute and second add up to the given seconds, minute and second below 60 |
| `UtcTime.DayAndSecondRange` | Reactors/base/TimeZone.cc:322-328 | the correction for negative times turns truncation into flooring |
| `UtcTime.ToUtcTime` | Reactors/base/TimeZone.cc:317-343 | filling the struct step by step gives the fields the round trips are about |
| `UtcTime.UtcRoundTrip` | Reactors/base/TimeZone.cc:317-358 | fromUtcTime undoes toUtcTime at every second from 1 March -4800 on, also before 1970, with every field in range |
| `UtcTime.FieldsRoundTrip` | Reactors/base/TimeZone.cc:317-358 | toUtcTime undoes fromUtcTime on every real date and time of day |
| `UtcTime.FieldsRoundTripIff` | Reactors/base/TimeZone.cc:317-358 | a real date and time of day comes back if and only if the date is 1 March -4800 or later |
| `UtcTime.FieldsRealIff` | Reactors/base/TimeZone.cc:317-343 | toUtcTime fills in a real date and time of day if and only if the time is not before 1 March -4800 |
| `UtcTime.YdayIsDayOfYearIff` | Reactors/base/TimeZone.cc:337-341 | tm_yday lies within the year and is the zero-based day of the year, counted month by month, if and only if the time is not before 1 January -4799; in March to December -4800 it is one short |
| `UtcTime.FirstDayIsOneShort` | Reactors/base/TimeZone.cc:337-341 | 1 March -4800 gets 59 although 60 days precede it |
| `UtcTime.WdayAdvancesIff` | Reactors/base/TimeZone.cc:335 | tm_wday is in 0 to 6 and moves to the next day of the week 86400 seconds later, if and only if the time is not before day number -1 |
| `UtcTime.WdayFromEpochIff` | Reactors/base/TimeZone.cc:335 | tm_wday is (days since the epoch + 4) mod 7, before 1970 too and for both flags, if and only if the day number is at least -1 or that value is 0 |
| `UtcTime.YdayOnDemand` | Reactors/base/TimeZone.cc:337-341 | leaving tm_yday out changes no other field |
| `TimeZone.BuildTransitions` | Reactors/base/TimeZone.cc:191-196 | every transition's local time is its UTC time plus the offset it starts |
| `TimeZone.LowerBound` | Reactors/base/TimeZone.cc:229-239 | a binary search that ends on the first element has compared it, in any table, so the assert before `--transI` never fails |
| `TimeZone.FindsSegment` | Reactors/base/TimeZone.cc:218-250 | in an ascending table the lookup returns the type in force at the key, before, between and after the transitions |
| `TimeZone.ToLocalTime` | Reactors/base/TimeZone.cc:272-292 | the method computes the local time the round trip is about |
| `TimeZone.ToLocalShows` | Reactors/base/TimeZone.cc:272-292 | toLocalTime shows a real date and time worth t plus the offset in force, with that offset and its flag; tm_wday and tm_yday are those of the local day |
| `TimeZone.FromLocalTime` | Reactors/base/TimeZone.cc:294-315 | the method, with its adjustment of `seconds`, computes the conversion that `FromLocalIsLatest`, `FieldsReturnIff` and the round trips are about |
| `TimeZone.FromLocalIsLatest` | Reactors/base/TimeZone.cc:294-315 | any fields that some time shows, however the rest of the struct is filled, convert to the last time that shows them, and to an hour before it when they are flagged as daylight saving and that time is not |
| `TimeZone.FieldsReturnIff` | Reactors/base/TimeZone.cc:272-315 | real fields not flagged as daylight saving come back through fromLocalTime and toLocalTime if and only if some time shows them |
| `TimeZone.SkippedHalfHour` | Reactors/base/TimeZone.cc:272-315 | half past midnight in an hour the clocks skip does not come back |
| `TimeZone.UnflaggedByLocalSegment` | Reactors/base/TimeZone.cc:294-315 | skipped or not, such fields convert by the offset of the segment their local seconds fall in |
| `TimeZone.FixedZone` | Reactors/base/TimeZone.cc:265-315 | in a zone without transitions local time is UTC plus the offset, whatever tm_gmtoff holds; a daylight-saving flag costs an hour |
| `TimeZone.DstTablesRoundTrip` | Reactors/base/TimeZone.cc:272-315 | when every step back ends daylight saving by one hour, every time comes back unchanged, both passes of the repeated hour included |
| `TimeZone.HourSpacedTablesRoundTrip` | Reactors/base/TimeZone.cc:218-315 | in particular for transitions more than 3600 s apart |
| `TimeZone.BothPassesReturn` | Reactors/base/TimeZone.cc:303-314 | two times with the same local seconds can both come back only across the end of daylight saving, an hour apart |
| `TimeZone.ReturnsIff` | Reactors/base/TimeZone.cc:272-315 | for a table with spaced steps back, each single time comes back if and only if it is the last to show its local time, or the last is 3600 s later and out of daylight saving while it is in it |
| `TimeZone.LatestFound` | Reactors/base/TimeZone.cc:218-250 | the search by local time settles on the segment of the last time that shows it, never on one in which it does not occur |
| `TimeZone.FirstPassReturnsIff` | Reactors/base/TimeZone.cc:303-314 | the first pass of a repeated stretch, with no further step back behind it, comes back if and only if the step is the one-hour end of daylight saving |
| `TimeZone.RoundTripIffBackStepsEndDst` | Reactors/base/TimeZone.cc:272-315 | for a table with spaced steps back: all times come back if and only if every step back is the one-hour end of daylight saving |
| `TimeZone.StandardTimeMovedBack` | Reactors/base/TimeZone.cc:303-314 | a zone that moved standard time back an hour has a time that does not come back |
| `LogStream.DigitsIgnoreSign` | Reactors/base/LogStream.cc:26-45 | the loop writes the same digits for a value and its negation although it never negates |
| `LogStream.ConvertThenParse` | Reactors/base/LogStream.cc:35-55 | the text of every integer is a numeral without leading zeros and reads back as that integer |
| `LogStream.ParseThenConvert` | Reactors/base/LogStream.cc:35-55 | every numeral is the text of its value |
| `LogStream.SixtyFourBitTextFits` | Reactors/base/LogStream.cc:98-114 | the text of any signed or unsigned 64-bit value is 1 to 20 characters |
| `LogStream.Convert` | Reactors/base/LogStream.cc:35-55 | the loop and the in-place reversal leave exactly the text and a NUL, and change nothing else |
| `LogStream.HexText` | Reactors/base/LogStream.cc:57-73 | the hexadecimal text of every value reads back as that value, without leading zeros |
| `LogStream.PointerTextFits` | Reactors/base/LogStream.cc:164-176 | a 64-bit pointer needs at most 16 digits |
| `LogStream.ConvertHex` | Reactors/base/LogStream.cc:57-73 | the loop and the in-place reversal leave exactly the hexadecimal text and a NUL |
| `LogStream.FixedBuffer.Append` | Reactors/base/LogStream.h:37-45 | a line goes in whole or not at all, and the buffer never fills up completely |
| `LogStream.FixedBuffer.FormatInteger` | Reactors/base/LogStream.cc:106-114 | with 32 bytes free the whole text of any 64-bit value is appended inside the buffer, otherwise nothing |
| `LogStream.FixedBuffer.FormatPointer` | Reactors/base/LogStream.cc:164-176 | the same for "0x" and the digits of a pointer |
| `AsyncLogging.PutIsAppend` | Reactors/base/LogStream.h:37-45 | the buffer of lines is the buffer of bytes of FixedBuffer: no line is torn |
| `AsyncLogging.RunKeeps` | Reactors/base/AsyncLogging.cc:29-128 | all invariants of front end, writer, ownership and accounting hold in every interleaving |
| `AsyncLogging.NeverCrashes` | Reactors/base/AsyncLogging.cc:38-48 | in every interleaving no assert of threadFunc fails and no null buffer is used, every buffer has one owner, and a null nextBuffer_ implies buffers_ is not empty |
| `AsyncLogging.AcceptsExactlyTheShort` | Reactors/base/AsyncLogging.cc:29-51 | append takes exactly the lines shorter than a buffer, in order |
| `AsyncLogging.LostIff` | Reactors/base/AsyncLogging.cc:87-102 | a run has lost a line if and only if some write step found lines after the second buffer of a batch of more than 25 |
| `AsyncLogging.EveryLineAccounted` | Reactors/base/AsyncLogging.cc:29-102 | the appended lines are, in order and without repetition: settled, in the writer's hands, in full buffers, in the current one; the file holds the settled lines not lost; it holds all settled lines if and only if no write step of the run found lines after the second buffer of a batch of more than 25; a loss leaves a notice |
| `AsyncLogging.SmallBatchesLoseNothing` | Reactors/base/AsyncLogging.cc:87-102 | while no batch exceeds 25 buffers no appended line is lost |
| `AsyncLogging.BuffersAreFilled` | Reactors/base/AsyncLogging.cc:29-51 | with all lines shorter than a buffer: each buffer was handed over because the first line of the next did not fit behind it, and none is handed over while less than a buffer's worth has been appended since the writer last collected |
| `AsyncLogging.LossNeedsBytes` | Reactors/base/AsyncLogging.cc:29-102 | with all lines shorter than a buffer, a run loses lines only after 13 buffers' worth of bytes |
| `AsyncLogging.HandsOverIff` | Reactors/base/AsyncLogging.cc:32-48 | in every run append hands the current buffer over if and only if the line does not fit behind its bytes, lines as long as a buffer included |
| `AsyncLogging.FourBuffersIff` | Reactors/base/AsyncLogging.cc:38-48 | no buffer beyond the first four is ever allocated, the rest being recycled, if and only if never more than one full buffer waits for the writer |
| `AsyncLogging.EveryLineGetsSettled` | Reactors/base/AsyncLogging.cc:64-126 | until stop, wherever the writer is, finitely many of its own steps write or lose every line appended so far |
| `AsyncLogging.BurstLosesLines` | Reactors/base/AsyncLogging.cc:29-102 | n > 25 lines the size of a buffer, appended before the writer runs: two reach the file and n - 2 are lost |
| `AsyncLogging.OversizedBatch` | Reactors/base/AsyncLogging.cc:87-102 | whatever happens after a batch of more than 25 buffers, the lines of its first two buffers stay settled as written and all later ones as lost |
| `AsyncLogging.NothingAfterFinished` | Reactors/base/AsyncLogging.cc:64-128 | after threadFunc returns nothing is ever written again, whatever is appended |
| `AsyncLogging.RunningIff` | Reactors/base/AsyncLogging.cc:64-128 | running_ is set exactly until the first stop, and the writer has returned only after one |
| `AsyncLogging.StopFinishes` | Reactors/base/AsyncLogging.cc:64-128 | after a stop, wherever the writer is, finitely many of its own steps make it return |
| `AsyncLogging.FrontIsSinceCollected` | Reactors/base/AsyncLogging.cc:29-83 | in every run buffers_ and currentBuffer_ hold exactly the short lines appended since the writer last took the front end over |
| `AsyncLogging.FinishedFileIff` | Reactors/base/AsyncLogging.cc:64-128 | when threadFunc has returned, the file holds every appended line if and only if none was lost on the way and none was appended since the writer last took the front end over |
| `AsyncLogging.StopLeavesLineBehind` | Reactors/base/AsyncLogging.cc:64-128 | append, stop, and the writer at its loop test: the line is never written, whatever follows |
| `AsyncLogging.AsyncLogger.AppendLine` | Reactors/base/AsyncLogging.cc:29-51 | leaves the state of one append of the run, whose hand-overs `HandsOverIff` and `BuffersAreFilled` fix, and keeps ownership, spare buffers and the account of lines |
| `AsyncLogging.AsyncLogger.LoopHead` | Reactors/base/AsyncLogging.cc:64-68 | the three asserts at the loop head hold for every reachable state, and all invariants are kept |
| `AsyncLogging.AsyncLogger.Swap` | Reactors/base/AsyncLogging.cc:72-85 | the critical section after the wait keeps all invariants and leaves a non-empty batch |
| `AsyncLogging.AsyncLogger.WriteOut` | Reactors/base/AsyncLogging.cc:87-108 | the drop, the write loop and the resize keep the account: every line of the batch is written or lost, in order |
| `AsyncLogging.AsyncLogger.Recycle` | Reactors/base/AsyncLogging.cc:110-125 | both recycling asserts hold for every reachable state, and both spare buffers are back for the loop head |
| `BoundedBlockingQueue.EveryRunIsSafe` | Reactors/base/BoundedBlockingQueue.h:31-55 | in every run of any number of threads the bound holds, items leave in the order they came, and a sleeper implies enough released threads to use up what it waits for |
| `BoundedBlockingQueue.EveryPutAccounted` | Reactors/base/BoundedBlockingQueue.h:31-55 | in every run the items given to put are, with multiplicity, those taken, those queued and those carried by threads waiting in put, each thread carrying the item of its own last put |
| `BoundedBlockingQueue.DeadlockIffNoCapacity` | Reactors/base/BoundedBlockingQueue.h:31-55 | a sleeping producer and a sleeping consumer with nobody released, or with nobody released who could get on, are reachable if and only if the capacity is zero |
| `BoundedBlockingQueue.Queue.PutOnce` | Reactors/base/BoundedBlockingQueue.h:31-41 | one pass of put, first or after a wake-up, adds its item exactly when there is room and loses no wake-up |
| `BoundedBlockingQueue.Queue.TakeOnce` | Reactors/base/BoundedBlockingQueue.h:43-55 | one pass of take, first or after a wake-up, returns the front item exactly when there is one and loses no wake-up |
| `ThreadPool.EveryRunIsSafe` | Reactors/base/ThreadPool.cc:71-138 | in every run a positive maxQueueSize_ is respected, tasks are handed out in submission order and at most once, and no wake-up is lost on either condition |
| `ThreadPool.EverySubmissionAccounted` | Reactors/base/ThreadPool.cc:71-138 | in every run the tasks given to run are, with multiplicity, those handed out, those queued and those carried by threads waiting in run, each thread carrying the task of its own last call |
| `ThreadPool.AfterStop` | Reactors/base/ThreadPool.cc:53-63 | after stop's critical section no worker is asleep in any continuation, and no more tasks are handed out than there are workers already past their test of running_ |
| `ThreadPool.AtMostOneEach` | Reactors/base/ThreadPool.cc:53-63 | in any continuation after stop each of those workers gets at most one task and every other worker none |
| `ThreadPool.StuckForEver` | Reactors/base/ThreadPool.cc:53-89 | a stopped pool with a full queue and no worker past its test of running_ never accepts or hands out anything again, and no call of run returns |
| `ThreadPool.NotifiedRunReturnsIff` | Reactors/base/ThreadPool.cc:53-89 | after stop and without spurious wake-ups, a call of run in progress can return if and only if it is already released and finds room, or a worker is past its test of running_ |
| `ThreadPool.BlockedRunReturnsIff` | Reactors/base/ThreadPool.cc:53-89 | the same when threads may wake for nothing: if and only if the queue has room or a worker is past its test of running_, and then it can return with its task queued next |
| `ThreadPool.AbandonedForEver` | Reactors/base/ThreadPool.cc:53-89 | asleep in run with no worker past its test of running_, a thread sleeps on in every continuation without spurious wake-ups, room or not |
| `ThreadPool.StopCanStrandASleeper` | Reactors/base/ThreadPool.cc:53-132 | a run that leaves one submitter released, another asleep and the queue empty: the second sleeps on in every continuation without spurious wake-ups |
| `ThreadPool.StopCanStrandASubmitter` | Reactors/base/ThreadPool.cc:53-89 | a stopped pool with a full queue, a thread asleep in run and every worker gone is reached |
| `ThreadPool.Pool.RunOnce` | Reactors/base/ThreadPool.cc:71-89 | one pass of run: in the caller without workers, waiting with its task exactly when full, queued behind all others otherwise; bound, order and wake-ups are kept |
| `ThreadPool.Pool.TakeOnce` | Reactors/base/ThreadPool.cc:113-132 | one pass of take returns the front task, or none when it sleeps or the pool has stopped; bound, order and wake-ups are kept |
| `ThreadPool.Pool.StopPool` | Reactors/base/ThreadPool.cc:53-59 | nobody is left asleep in take, and the other invariants are kept |
| `ThreadPool.Pool.LoopCondition` | Reactors/base/ThreadPool.cc:148-155 | a worker leaves exactly when it sees running_ false |
| `Buffer.RoomIsMade` | Reactors/net/buffer.h:81-102 | making room keeps the readable bytes and leaves at least the room asked for |
| `Buffer.CompactionIsJustified` | Reactors/net/buffer.h:81-93 | bytes are moved only when read_index_ > 0, and the vector keeps its size |
| `Buffer.VectorSize` | Reactors/net/buffer.h:70-102 | append grows the vector if and only if the bytes do not fit into it behind the readable ones, and moves nothing where they fit as it is |
| `Buffer.RetrieveFrees` | Reactors/net/buffer.h:20-27 | a drained buffer starts again at the front of its vector |
| `Buffer.ReadInExtends` | Reactors/net/buffer.h:42-68 | a socket read, overflow through extrabuf included, extends the readable bytes by exactly what arrived |
| `Buffer.RefinesByteQueue` | Reactors/net/buffer.h:20-102 | after any sequence of append, Retrieve and ReadFromSocket the indexes are in order and the readable bytes are those of a plain queue |
| `Buffer.ByteBuffer.RetrieveBytes` | Reactors/net/buffer.h:20-27 | drops a prefix as the queue model does and keeps the indexes in order |
| `Buffer.ByteBuffer.MakeSpace` | Reactors/net/buffer.h:81-93 | growing or compacting in place is the model's making of room |
| `Buffer.ByteBuffer.AppendBytes` | Reactors/net/buffer.h:70-75 | the readable bytes grow by exactly the given ones |
| `Buffer.ByteBuffer.ReadFromSocket` | Reactors/net/buffer.h:42-68 | the state of the model's read: the readable bytes grow by exactly what readv delivered, by nothing on an error |
| `Connection.WireThenQueueIsAccepted` | Reactors/net/connection.cc:24-58 | over every run of sends, full, partial and failed writes, shutdown and close, the wire followed by the send buffer is the concatenation of the accepted sends |
| `Connection.WireIsWhatWritesTook` | Reactors/net/connection.cc:24-137 | over every run the wire is the accepted sends up to as many bytes as the calls of write took, and the send buffer the rest |
| `Connection.SendKeptIff` | Reactors/net/connection.cc:24-58 | a non-empty message is added whole behind wire and queue if and only if the connection is open and either bytes are queued or the direct write does not fail; otherwise nothing changes |
| `Connection.FailedWriteDropsMessage` | Reactors/net/connection.cc:48-55 | on an open connection with nothing queued a failing write drops the message |
| `Connection.OpenQueuesWatchedIff` | Reactors/net/connection.cc:91-151 | while ESTABLISHED a non-empty send buffer has writing enabled throughout a run, if and only if no ConnectionEstablished found bytes queued unwatched |
| `Connection.WatchedWhileOpen` | Reactors/net/connection.cc:91-151 | reading is enabled exactly while ESTABLISHED and a closed connection watches nothing |
| `Connection.FlagsFollowEvents` | Reactors/net/connection.cc:70-151 | in every run state_, writeable_ and readable_ are those of the last events that set them, and writing is watched only while bytes are queued |
| `Connection.ReestablishedStalls` | Reactors/net/connection.cc:91-103 | close with a byte queued, then establish: the byte is queued and not watched |
| `Connection.ShutdownStrandsQueue` | Reactors/net/connection.cc:70-79 | after shutdown with bytes queued, until it is established again, nothing more reaches the wire and the bytes stay first in the queue |
| `Connection.QueueSendableIff` | Reactors/net/connection.cc:70-137 | with bytes queued, some run without another ConnectionEstablished puts more on the wire if and only if writeable_ is set |
| `Connection.PolledQueueSendableIff` | Reactors/net/connection.cc:24-137 | the same with write events only for a watched socket: if and only if writeable_ is set and writing is enabled |
| `Connection.UnwatchedQueueStays` | Reactors/net/connection.cc:24-58 | when write events come only for a watched socket, bytes queued behind an unwatched one stay there in every run, even when the connection is established again |
| `Connection.ShutdownKeepsHalf` | Reactors/net/connection.cc:24-79 | establish, send two bytes of which one is taken, shutdown: the other stays off the wire in every run that does not establish again |
| `Connection.TcpConnection.SendInLoop` | Reactors/net/connection.cc:24-58 | wire followed by queue is still the accepted sends, the new one included exactly when it is accepted |
| `Connection.TcpConnection.HandleWrite` | Reactors/net/connection.cc:119-137 | bytes move from queue to wire without loss, and writing is disabled exactly when the queue empties |
| `Connection.TcpConnection.ConnectionEstablished` | Reactors/net/connection.cc:91-103 | opening the connection leaves wire, queue and accepted sends as they were |
| `Connection.TcpConnection.HandleClose` | Reactors/net/connection.cc:139-151 | closing watches nothing any more and leaves wire and queue as they were |
| `Connection.TcpConnection.ShutdownInLoop` | Reactors/net/connection.cc:70-79 | shutdown only forbids the write handler; wire and queue stay as they were |
| `EventLoop.EveryRunIsSafe` | Reactors/net/eventloopthread.cc:51-93 | in every interleaving the functors run, the rest of the batch and the queue are the functors of the push events, in order, and a non-empty queue has the eventfd set, a producer about to notify, or pending_ set before the swap |
| `EventLoop.EverythingPushedGetsRun` | Reactors/net/actor.cc:14-61 | once all producers have notified, the loop alone runs everything pushed so far in finitely many steps |
| `EventLoop.LoopRunsAllIff` | Reactors/net/actor.cc:14-61 | the loop alone gets everything pushed so far run if and only if nothing is queued, the eventfd is up, or pending_ is set and no batch is running |
| `EventLoop.UnnotifiedPushWaits` | Reactors/net/tcpserver.cc:93-97 | with neither, the loop alone only finishes the batch in hand and never touches the queue, however long it goes on |
| `EventLoop.UnnotifiedPushNeverRuns` | Reactors/net/tcpserver.cc:93-97 | a single push without a notify is never run by the loop alone |
| `EventLoop.LateNotifyWaitsARound` | Reactors/net/actor.cc:45-61 | a notify that comes after poll has returned is left for the next round of the loop |
| `EventLoop.PushDuringBatchWaits` | Reactors/net/actor.cc:14-28 | a push after the swap of a running batch stays queued too, since the end of the batch clears pending_ |
| `EventLoop.EventLoopThread.QueueInActor` | Reactors/net/actor.cc:39-43 | the functor is queued behind all others, and order and a wake-up on the way are kept |
| `EventLoop.EventLoopThread.NotifyEvent` | Reactors/net/eventloopthread.cc:73-81 | the second half of QueueInLoop leaves the eventfd set, also when it is full |
| `EventLoop.EventLoopThread.ReadNotifyEvents` | Reactors/net/eventloopthread.cc:51-62 | reading the eventfd trades it for pending_, so no wake-up is lost |
| `EventLoop.EventLoopThread.DoPendingFunctors` | Reactors/net/actor.cc:14-28 | the swap and the loop run exactly the queued functors in order |
| `Timers.PushIsStableInsert` | Reactors/net/timer.cc:102 | the map of lists is one list sorted by expiry, a new timer behind all that expire no later |
| `Timers.IndexesAgree` | Reactors/net/timer.cc:41-122 | in every run of adds, removes and expiries whose callbacks add timers, both indexes hold the same timers, each once and under its own expiry |
| `Timers.ExpiredIsDue` | Reactors/net/timer.cc:49-60 | HandleRead collects exactly the timers due at now, by expiry and then in queue order |
| `Timers.FireAgrees` | Reactors/net/timer.cc:41-70 | exactly the collected timers are called back, in that order, and the indexes agree again afterwards |
| `Timers.QueuedAfterFire` | Reactors/net/timer.cc:15-70 | the order of what is queued after HandleRead: the timers not due, those the callbacks added, and the restarted repeaters, inserted stably |
| `Timers.TimersAfterFire` | Reactors/net/timer.cc:15-70 | timer by timer after HandleRead: an expired repeater is there again interval seconds after its restart, an expired one-shot is gone, a timer not due is as it was, the k-th timer of the j-th callback is there under the next free id, and nothing else is |
| `Timers.AddQueuesOne` | Reactors/net/timer.cc:93-111 | AddTimer hands out an unused id and queues one timer in its place |
| `Timers.RemoveTakesOne` | Reactors/net/timer.cc:113-122 | RemoveTimer takes out the timer with that id from both indexes and nothing else |
| `Timers.FireArmsIff` | Reactors/net/timer.cc:15-91 | HandleRead leaves the timerfd set for the earliest key if and only if: with a repeater expired, that key is still ahead of the clock when the last repeater sets the timerfd; with none, nothing is left and nothing added, or the first of the earliest added timers precedes all left and is ahead of the clock when added |
| `Timers.ArmedThroughoutIff` | Reactors/net/timer.cc:15-122 | a run keeps the timerfd set for the earliest key throughout if and only if each expiry in it does as above and each timer added in front of all others is ahead of the clock |
| `Timers.SecondOneShotStalls` | Reactors/net/timer.cc:15-39 | of two one-shot timers the second is left queued with the timerfd unset |
| `Timers.ImmediateTimerUnset` | Reactors/net/timer.cc:72-111 | a timer for the present moment switches the timerfd off, and one for a time gone by sets it 2^64 microseconds later |
| `Timers.OverdueTimerStalls` | Reactors/net/timer.cc:15-39 | a repeater restarted when the next timer is just due leaves the timerfd off with two timers queued |
| `Timers.TimerQueue.AddTimer` | Reactors/net/timer.cc:72-111 | keeps both indexes in agreement, returns an id not in use, and sets the timerfd by the unsigned difference to the clock when the timer comes first |
| `Timers.TimerQueue.RemoveTimer` | Reactors/net/timer.cc:113-122 | keeps both indexes in agreement, whether or not the id is known |
| `Timers.TimerQueue.HandleRead` | Reactors/net/timer.cc:41-91 | collecting, calling back and resetting together keep both indexes in agreement and leave the state of one expiry of the run, each clock reading its own |
| `Timers.TimerQueue.ResetTimers` | Reactors/net/timer.cc:15-39 | the loop restarts each repeater interval seconds after its clock, in order, forgets the one-shots, and each restart sets the timerfd for the earliest key by the unsigned difference to its clock |
| `ReorderList.WovenPair` | leecode/reorderlist.cpp:50-66 | position 2k of the new order is node k from the front, position 2k + 1 node k from the back |
| `ReorderList.WovenPermutes` | leecode/reorderlist.cpp:18-67 | the new order holds the same nodes, each as often |
| `ReorderList.FindMiddle` | leecode/reorderlist.cpp:22-28 | the slow pointer stops in the middle |
| `ReorderList.ReverseTail` | leecode/reorderlist.cpp:39-48 | the links behind the cut are turned round in place |
| `ReorderList.Weave` | leecode/reorderlist.cpp:50-66 | the loop links the two halves alternately |
| `ReorderList.Reorder` | leecode/reorderlist.cpp:18-67 | on every acyclic list: ends with the same nodes linked in the order first, last, second, last but one, and changes links only |
| `Serialization.Split` | leecode/verifypreorder.cpp:11-20 | the splitting loop gives the tokens between the commas |
| `Serialization.JoinThenSplit` | leecode/verifypreorder.cpp:11-20 | splitting undoes joining comma-free tokens |
| `Serialization.SplitThenJoin` | leecode/verifypreorder.cpp:11-20 | joining undoes splitting, and no token holds a comma |
| `Serialization.AcceptedIsForest` | leecode/verifypreorder.cpp:22-40 | tokens accepted over a stack of d nodes are the preorders of d + 1 trees |
| `Serialization.ForestIsAccepted` | leecode/verifypreorder.cpp:22-40 | the preorders of any d + 1 trees are accepted over a stack of d nodes |
| `Serialization.IsValidSerialization` | leecode/verifypreorder.cpp:9-41 | the answer is yes if and only if the string is some binary tree written in preorder |
| `StringSim.CountGrams` | common/Strops.cpp:206-210 | the map holds each n-gram with its number of occurrences |
| `StringSim.Consume` | common/Strops.cpp:211-221 | the loop that uses up the map counts the size of the multiset intersection of the two bags |
| `StringSim.CalStringSim` | common/Strops.cpp:187-223 | the result is the exact similarity, on empty, short and ordinary inputs |
| `StringSim.Symmetric` | common/Strops.cpp:187-223 | swapping the strings changes nothing |
| `StringSim.RangeAndOne` | common/Strops.cpp:187-223 | the similarity is in [0, 1], and is 1 exactly for equal bags of n-grams, or equal strings when one is shorter than n |
| `StringSim.WhatIsMissing` | common/Strops.cpp:206-223 | what the similarity lacks to 1, in parts of all n-grams of both strings, is the number of n-grams only one of them has |
| `StringSim.ShortStrings` | common/Strops.cpp:187-205 | a string shorter than n has similarity 1 / (difference of lengths + 1) with a longer one it occurs in and 0 otherwise; an empty one has 0 |
| `StringSim.SelfSimilar` | common/Strops.cpp:187-223 | a non-empty string has similarity 1 with itself |

## Left out

- 32-bit overflow: integers are unbounded. The calendar formulas would overflow `int` beyond the
  year 1,400,000, `interval * 1000 * 1000` for intervals over 35 minutes, and `MakeSpace(int)` for
  appends of 2 GB.
- `tm_zone` and the abbreviation string; reading a TZif file (section 3.2 of RFC 8536) from disk;
  its tables are taken with type indices in bounds and at least one type.
- gmtime_r and timegm are replaced by the library's own toUtcTime and fromUtcTime, so local time is
  covered from 1 March -4800 on.
- LogFile, flushing, rolling and real time in the logger: the output is the sequence of records.
- AsyncLogging.AsyncLogger.WriteOut: buffers are values that carry the identity of their
  allocation, not heap objects; FixedBuffer's array is modelled by itself in `LogStream`.
- Timers: a timer is a value; the two pointers to it are two copies that are proved equal. The
  timerfd is taken as readable whenever HandleRead runs: if another handler of the same poll round
  sets it again first, the read fails and that setting stays, where the model clears it. Ids count up
  within one queue; in the source all queues share the counter. The
  uninitialised `it_interval` passed to timerfd_settime is taken as zero. Callbacks that remove
  timers are not covered: removing one that has expired and not yet been called back leaves a
  dangling pointer.
- Timestamp, Channel::HandleEvent, the pollers, TcpServer, workers and the receive path of a
  connection: plumbing around what is modelled.
- QueueInLoop called from the loop thread itself runs the functor at once; that case is not part of
  `EventLoop`.
- Runs of a thread pool without workers: there run does the task in the caller (`Pool.RunOnce`) and
  the pool never changes.
- ThreadPool::start, the init callback and the exception handlers of runInThread.
- CalStringSim with a negative n, where the source throws; the rounding of the ratio to a float.
- `operator<<` for double and Fmt: snprintf.
- mynetlib (a copy of Reactors/base), the libevent, redis, MySQL, ZooKeeper and HTTP wrappers, and
  the demos: they would only add easy members or have no implementation here.
