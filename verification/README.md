# NETFT Viewer: a Dafny model of its capture, event and protocol core

NETFT Viewer records and shows the output of a force/torque sensor. A native core receives
samples by UDP, records them to a CSV file through a lock-free ring, and passes session events
to a companion process, which speaks a line protocol with the desktop application. This project
models the parts of that system whose correctness spans several functions or threads, and proves
what they are for.

| Files | What they model |
|---|---|
| `Words`, `Wrappers`, `Sequences` | machine words and their wrap-around, options, filtering of sequences |
| `GateWord`, `SubmissionGate` | the admission word (open bit and count in 64 bits) and the gate with any number of callers |
| `RecordingQueue` | the single-producer single-consumer ring, as interleaved loads and stores with stale counters that wrap at 2^64, and as an object |
| `CaptureMetadata` | the summary of a capture, folded row by row |
| `RecorderProtocol`, `RecorderInvariant`, `RecorderTheorems` | the recorder: producer, writer and control threads, one shared access, mutex section or file operation a step |
| `RecorderReopening`, `RecorderDraining`, `RecorderReturning`, `RecorderPublishing` | exactly when an Error leaves the gate open, that a requested drain completes, that `pause` and `stop` return, and what a successful `stop` leaves behind |
| `RecorderCauses`, `RecorderService` | exactly what puts the recorder in Error, so when `stop` and `pause` succeed, and what each operation achieves |
| `SessionEventQueue`, `SessionEventPush`, `SessionEventRuns` | the bounded coalescing event queue as an object, what a push does place by place, and its whole runs |
| `SessionProtocol`, `SessionTheorems`, `SessionService` | measurement leases, the quiescence barrier of pause and disconnect, and that a session that should take samples does |
| `ChartSeries`, `ChartModel`, `ChartRuns` | the chart's meaning offline, the object that keeps sorted series in place, and runs that mix appends, window changes and resets |
| `PlotIntervals`, `PlotAggregator` | what a plot batch shows, and the streaming aggregator with its insertion sort |
| `XmlText`, `XmlFields`, `XmlNamed`, `XmlExtractor` | tokens and printed documents, what a document tree means, field by field, and the scanning loop |
| `JsonKeys`, `JsonScanner` | the duplicate-key scanner as functions of the text with the texts it accepts, and as an object with its cursor |
| `SequenceTracking`, `SampleDelivery`, `SampleAccounting` | serial numbers modulo 2^32, the counters, the delivery decision, the rate limit, and what becomes of every record |
| `OutputProtocol`, `OutputDelivery`, `OutputTermination` | the output writer: command thread and writer thread, tickets and shutdown, what is owed to every event, and that submits and shutdown end |
| `LineFraming` | the command framer and the chunk framer of the supervisor |
| `SensorHost`, `CanonicalDecimal` | the two host validators and their grammar, and the decimal form of 64-bit times |
| `FrameScheduling`, `EventScheduler` | the renderer's frame coalescer |

How concurrency is modelled: a program with several threads is a state with one program point per
thread, a total `Next` in which a step that cannot be taken changes nothing, and `Run` over an
arbitrary sequence of steps. Atomics are sequentially consistent. What the environment decides (a
file operation, an allocation, a clock, a spurious compare-and-swap failure) is an argument of the
step. Objects that one thread updates in place are classes, proved against the function that says
what they mean.

In the recorder machine the admission word appears as its two fields and the ring as a FIFO;
`GateWord.WordRefinesAdmission` and `RecordingQueue.RingRefinesFifo` justify that.

## Where the program does less than one might expect

- `written_samples` can exceed `accepted_samples`: `RecorderTheorems.WrittenLeadsExactly` says when
  (by one row, while the submission that pushed it has yet to count it and everything else is written
  and counted) and
  `RecorderTheorems.WrittenCanLead` gives a run.
- The Error state does not always close the gate. It leaves it open exactly when a `resume` opened
  the gate after the state had become Error, or after the failing writer had closed it on its way
  there, and nothing has closed it since: `RecorderReopening.ErrorGateExactly` and
  `RecorderReopening.ReopenedMeans`, with a run in `RecorderTheorems.ErrorWithOpenGate`.
- A measurement that has passed its lease test is written even if its lease is revoked in between.
  At most one is in that place when `set_paused(true)` or `disconnect` returns, or when the sink is
  finished: `SessionTheorems.NothingDeliveredWhileQuiet` and `OutputProtocol.ShutdownIsLast` count
  it, and `SessionTheorems.PassedOutlivesPause` gives a run.
- `size()` of the ring returns 0 for a queue that is not empty if its caller stalls for a multiple
  of 2^64 pushes between its two loads: `RecordingQueue.SizeZeroExactly` is the exact condition and
  `RecordingQueue.StalledObserver` a run from any state at rest.
- Sequence numbers are unwrapped to the true ones if and only if each stays within half the range of
  the highest before it: `SequenceTracking.LiftIsTrue`. A jump of exactly half the range ahead, which
  section 3.2 of RFC 1982 leaves open, counts as out of order after any such span:
  `SequenceTracking.HalfRangeJump`.
- The time of the last delivery is 0 when there was none, so a delivery at time 0 does not limit the
  next: the rate limit holds if and only if no success at time 0 is followed by one within the period
  (`SampleDelivery.RateIsLimited`), and `SampleDelivery.DeliveryAtTimeZero` has such a run for every
  second time.
- The arm of the event queue that would drop an error to make room is never reached; in
  `SessionEventQueue.SessionEventQueue.Push` it is an `assert false`.
- The failure arms behind the two openings of the submission gate are never reached:
  `RecorderTheorems.OpeningNeverFails`.

## Model

| member | source | states |
|---|---|---|
| `GateWord.WordRefinesAdmission` | `core/viewer/include/netft_viewer/detail/submission_gate.hpp:54-97` | on every 64-bit word, close, enter, leave, open and drained act on the open bit and the count independently |
| `SubmissionGate.CountIsLiveEntries` | `core/viewer/include/netft_viewer/detail/submission_gate.hpp:37-67` | from the initial word, in every interleaving of any callers, the count is the number of accepted entries that are live |
| `SubmissionGate.DrainedStays` | `core/viewer/include/netft_viewer/detail/submission_gate.hpp:69-91` | closed with count zero means no entry is held, and none is obtained until a try_open, whatever stale word a caller remembers |
| `SubmissionGate.OpensExactlyWhenDrained` | `core/viewer/include/netft_viewer/detail/submission_gate.hpp:73-83` | try_open changes the gate exactly when it is closed and every entry has left |
| `SubmissionGate.CloseOnlyStopsEntry` | `core/viewer/include/netft_viewer/detail/submission_gate.hpp:37-71` | after close only releases change the holders, each removing one |
| `SubmissionGate.OpenGateAdmits` | `core/viewer/include/netft_viewer/detail/submission_gate.hpp:54-67` | in every reachable state with the gate open and room in the count, an entry that nothing comes between becomes a holder and is counted |
| `SubmissionGate.ClosedGateRefuses` | `core/viewer/include/netft_viewer/detail/submission_gate.hpp:54-67` | an entry into a closed gate is turned away and leaves nothing behind |
| `SubmissionGate.ReleaseLeaves` | `core/viewer/include/netft_viewer/detail/submission_gate.hpp:37-42` | a holder that leaves is a holder no more, and the count says so |
| `RecordingQueue.PoppedIsPrefix` | `core/viewer/include/netft_viewer/recording_queue.hpp:21-43` | from an empty ring, over every interleaving with stale loads and wrapping counters, the popped values are a prefix of the pushed ones, at most a capacity behind, with every value between still in its slot |
| `RecordingQueue.StoreKeepsUnread` | `core/viewer/include/netft_viewer/recording_queue.hpp:24-30` | the producer's store overwrites no unread slot |
| `RecordingQueue.RingRefinesFifo` | `core/viewer/include/netft_viewer/recording_queue.hpp:21-43` | in every run from an empty ring each step is nothing, one enqueue with room, or one dequeue of the oldest value of a FIFO |
| `RecordingQueue.PushFailsWhenFull` | `core/viewer/include/netft_viewer/recording_queue.hpp:22-26` | try_push gives up exactly when the queue was full at its load of the read counter |
| `RecordingQueue.PopFailsWhenEmpty` | `core/viewer/include/netft_viewer/recording_queue.hpp:34-38` | try_pop gives up exactly when the queue was empty at its load of the write counter |
| `RecordingQueue.SizeOf` | `core/viewer/include/netft_viewer/recording_queue.hpp:45-50` | size is at most the capacity, for any two loaded counters |
| `RecordingQueue.SizeZeroExactly` | `core/viewer/include/netft_viewer/recording_queue.hpp:45-50` | size is 0 if and only if a multiple of 2^64 pushes lies between the two loads |
| `RecordingQueue.SizeZeroMeansEmpty` | `core/viewer/include/netft_viewer/recording_queue.hpp:45-50` | short of 2^64 pushes between the loads, size is 0 exactly when the queue is empty at the write load and nothing was popped since the read load |
| `RecordingQueue.SizeOnConsumer` | `core/viewer/include/netft_viewer/recording_queue.hpp:45-50` | for the consumer thread size is the exact length |
| `RecordingQueue.StalledObserver` | `core/viewer/include/netft_viewer/recording_queue.hpp:45-50` | from every state at rest a run of 2^64 pushes, with pops between them, leads an observer that stalls between its two loads to read 0 from a queue with an element |
| `RecordingQueue.Queue.TryPush` | `core/viewer/include/netft_viewer/recording_queue.hpp:21-31` | the ring object appends, or reports that it is full and changes nothing |
| `RecordingQueue.Queue.TryPop` | `core/viewer/include/netft_viewer/recording_queue.hpp:33-43` | the ring object removes and returns the oldest value, or reports that it is empty |
| `CaptureMetadata.BatchesDoNotMatter` | `core/viewer/src/recorder.cpp:641-657` | noting rows batch by batch gives the summary of the whole sequence of rows |
| `CaptureMetadata.RisingGaps` | `core/viewer/src/recorder.cpp:650-656` | while the numbers of the rows rise, each by less than half the range, the gap counter is the number of values skipped between the first and the last, across wraparound |
| `CaptureMetadata.NoGapBack` | `core/viewer/src/recorder.cpp:650-656` | a repeated number, or one that goes back by less than half the range, adds no gap |
| `CaptureMetadata.CaptureLog.NoteBatch` | `core/viewer/src/recorder.cpp:627-668` | the object that notes rows in place holds the summary of all rows noted |
| `RecorderInvariant.StepKeepsInv` | `core/viewer/src/recorder.cpp:266-496` | one invariant over gate, queue, state word, counters and all program points is kept by every step of every thread |
| `RecorderTheorems.EveryRunIsSound` | `core/viewer/src/recorder.cpp:266-668` | every run keeps the invariant, the running summary of what is written, and the exactness of everything published |
| `RecorderTheorems.PausedIsExact` | `core/viewer/src/recorder.cpp:423-448` | at every Paused state the rows in the file are the rows accepted since start, in order, each once, and both counters and the summary say so |
| `RecorderTheorems.PublishedIsExact` | `core/viewer/src/recorder.cpp:693-780` | at every promotion rows written equal rows accepted, every complete summary counts and describes exactly those rows, and so does every partial closed without a write failure |
| `RecorderTheorems.FileIsAcceptedPrefix` | `core/viewer/src/recorder.cpp:627-668` | whatever fails, and whatever part of a batch a failed write leaves behind, the rows in the file are a prefix of the accepted rows with the one in flight |
| `RecorderTheorems.GateShutWhileDraining` | `core/viewer/src/recorder.cpp:423-496` | Pausing, Paused and Stopping have the gate closed, and the count is the one submission inside |
| `RecorderTheorems.DrainCompleteMeansDrained` | `core/viewer/include/netft_viewer/detail/drain_completion.hpp:7-22` | gate drained and then queue empty means every accepted row has been popped and written |
| `RecorderTheorems.QuietUntilOpened` | `core/viewer/src/recorder.cpp:848-850` | after that nothing is pushed until the gate has been opened |
| `RecorderTheorems.OpeningNeverFails` | `core/viewer/src/recorder.cpp:450-466` | the gate is shut and drained whenever start or resume opens it, and pause loses its transition only to Error |
| `RecorderTheorems.DrainEnds` | `core/viewer/src/recorder.cpp:398-421` | while the gate is closed, the steps left to the live submission and the rows queued bound all further progress steps, and zero is the drained state |
| `RecorderDraining.ProgressAvailable` | `core/viewer/src/recorder.cpp:398-421` | in Pausing or Stopping without a failed write, while anything is left to drain, at most ten steps of producer and writer make progress |
| `RecorderDraining.DrainCompletes` | `core/viewer/src/recorder.cpp:398-421` | and so at most ten steps for each unit of backlog lead to the drained state |
| `RecorderDraining.RecordingTakesRows` | `core/viewer/src/recorder.cpp:627-668` | while recording goes on without a failure and rows are queued, at most ten steps of the writer take the next row, and recording goes on |
| `RecorderReturning.OperationReturns` | `core/viewer/src/recorder.cpp:439-491` | in any interleaving without a failing file operation, after ten producer steps and then a bounded number of writer steps, linear in the rows queued, what a waiting pause or stop waits for has happened |
| `RecorderReturning.GoingOnReturns` | `core/viewer/src/recorder.cpp:439-496` | and it returns in its own next steps, pause with Paused or Error, stop with Idle or Error and the writer joined; `RecorderCauses.ErrorHasCause` says what an Error takes |
| `RecorderPublishing.StopPublishes` | `core/viewer/src/recorder.cpp:468-496` | whenever stop returns with Idle, exactly one data file and one complete summary have been published since start, and both are the rows accepted since then, in order |
| `RecorderCauses.ErrorHasCause` | `core/viewer/src/recorder.cpp:535-668` | in every run the state is Error only after a failed file operation, a failed start of the writer thread or an overflow, of its own session |
| `RecorderCauses.ErrorExactly` | `core/viewer/src/recorder.cpp:782-812` | and always then, once the threads that know of a cause have reported it |
| `RecorderCauses.StopSucceeds` | `core/viewer/src/recorder.cpp:468-496` | without such a failure and without an overflow since start every stop returns with Idle, and one data file and one summary are published that say exactly the rows accepted |
| `RecorderCauses.PauseSucceeds` | `core/viewer/src/recorder.cpp:423-448` | and every pause returns with Paused, with exactly the accepted rows in the file |
| `RecorderCauses.OverflowFails` | `core/viewer/src/recorder.cpp:409-417` | an overflow ends in Error once the submission that met it is done |
| `RecorderCauses.FlawlessNeverFails` | `core/viewer/src/recorder.cpp:535-668` | if no file operation and no start of a thread fails no failure is recorded, so a stop without an overflow returns with Idle |
| `RecorderService.SubmitAccepts` | `core/viewer/src/recorder.cpp:398-421` | in every reachable state with the gate open and fewer than 65536 rows queued, a submission that runs alone queues its row at the end, counts it, and leaves the gate and the state |
| `RecorderService.SubmitOverflows` | `core/viewer/src/recorder.cpp:409-417` | with 65536 queued it queues and counts nothing and leaves the gate shut and the recorder in Error |
| `RecorderService.SubmitRejects` | `core/viewer/src/recorder.cpp:398-405` | with the gate closed it changes nothing |
| `RecorderService.StartRecords` | `core/viewer/src/recorder.cpp:266-396` | from every reachable idle state start makes a recording with an open gate, an open file, empty counters and a running writer |
| `RecorderService.PauseRequests` | `core/viewer/src/recorder.cpp:423-444` | pause shuts the gate and asks for the drain |
| `RecorderService.ResumeRecords` | `core/viewer/src/recorder.cpp:450-466` | from every reachable paused state resume records again with the gate open and nothing else changed |
| `RecorderService.StopRequests` | `core/viewer/src/recorder.cpp:468-489` | stop shuts the gate and asks for the end |
| `RecorderService.WriterWrites` | `core/viewer/src/recorder.cpp:627-668` | a writer at the start of its loop writes up to 512 queued rows, in order, and counts each |
| `RecorderTheorems.WrittenLeadsExactly` | `core/viewer/src/recorder.cpp:409-417` | the written counter exceeds the accepted counter, by one, exactly while a submission has pushed its row and not yet counted it, nothing is queued, held or untallied, and no row has been lost |
| `RecorderTheorems.WrittenCanLead` | `core/viewer/src/recorder.cpp:409-417` | a run in which it does |
| `RecorderTheorems.ErrorWithOpenGate` | `core/viewer/src/recorder.cpp:595-599` | a run that ends in Error with the gate open |
| `RecorderReopening.ErrorGateExactly` | `core/viewer/src/recorder.cpp:450-466` | in every run that ends in Error the gate is open if and only if it was reopened |
| `RecorderReopening.ReopenedMeans` | `core/viewer/src/recorder.cpp:450-466` | reopened means that at some step resume opened the gate with the state already Error, or the writer already past its close on the way there, and the gate has been open ever since |
| `SessionEventQueue.PushKeepsValid` | `core/viewer/include/netft_viewer/detail/session_event_queue.hpp:20-48` | a push keeps at most 64 events, at most 16 errors, and no two non-errors of one generation and kind |
| `SessionEventPush.PushReplaces` | `core/viewer/include/netft_viewer/detail/session_event_queue.hpp:22-30` | a snapshot takes the place of the queued one of its generation and kind, where that stands, and nothing is lost |
| `SessionEventPush.PushAppends` | `core/viewer/include/netft_viewer/detail/session_event_queue.hpp:20-48` | with fewer than 64 events queued, and for an error fewer than 16 errors, a new event is appended as it is and nothing is dropped or evicted |
| `SessionEventPush.PushDropsError` | `core/viewer/include/netft_viewer/detail/session_event_queue.hpp:31-34` | with 16 errors queued an error takes out the one of least index, is appended with the number dropped so far, and changes nothing else |
| `SessionEventPush.PushEvicts` | `core/viewer/include/netft_viewer/detail/session_event_queue.hpp:36-46` | with 64 events queued, and for an error fewer than 16 errors, a new event takes out the non-error of least index and nothing else |
| `SessionEventPush.PushIsOneOf` | `core/viewer/include/netft_viewer/detail/session_event_queue.hpp:20-48` | on a valid queue one of these four is the case |
| `SessionEventPush.PurgedAre` | `core/viewer/include/netft_viewer/detail/session_event_queue.hpp:59-71` | a purge takes the samples and plots of one generation and leaves everything else |
| `SessionEventPush.RetainedAre` | `core/viewer/include/netft_viewer/detail/session_event_queue.hpp:73-82` | retaining leaves the events of one generation and takes everything else |
| `SessionEventQueue.SessionEventQueue.Push` | `core/viewer/include/netft_viewer/detail/session_event_queue.hpp:20-48` | the object coalesces, makes room and appends as the specification says, and never enters the error-dropping arm |
| `SessionEventQueue.SessionEventQueue.Pop` | `core/viewer/include/netft_viewer/detail/session_event_queue.hpp:50-57` | returns and removes the front event |
| `SessionEventQueue.SessionEventQueue.PurgeMeasurements` | `core/viewer/include/netft_viewer/detail/session_event_queue.hpp:59-71` | the erase loop removes exactly the measurements of a generation and keeps the order |
| `SessionEventQueue.SessionEventQueue.RetainGeneration` | `core/viewer/include/netft_viewer/detail/session_event_queue.hpp:73-82` | the erase loop keeps exactly one generation, in order |
| `SessionEventRuns.EveryRunKeepsInv` | `core/viewer/include/netft_viewer/detail/session_event_queue.hpp:20-96` | over every run: bounds, conservation of errors, the queued errors of a generation are the latest pushed ones, popped snapshots are a subsequence of pushed ones and a queued snapshot is the newest of its key |
| `SessionEventRuns.PushConserves` | `core/viewer/include/netft_viewer/detail/session_event_queue.hpp:20-48` | errors pushed equal errors queued, popped, dropped and discarded, counted by identity |
| `SessionEventRuns.PushKeepsNewest` | `core/viewer/include/netft_viewer/detail/session_event_queue.hpp:22-30` | coalescing never lets an older snapshot follow a newer one |
| `SessionEventRuns.DeliveredInTime` | `core/viewer/include/netft_viewer/detail/session_event_queue.hpp:20-57` | the index of a queued snapshot never grows, so unless purged or evicted it is delivered within index plus one pops |
| `SessionTheorems.StepKeepsInv` | `core/viewer/src/session.cpp:319-432` | every step of callbacks, health thread, control operation and consumer keeps the session invariant, and leases only fade |
| `SessionTheorems.LeasesOnlyFade` | `core/viewer/src/session.cpp:224-242` | epochs strictly increase, at most one lease is valid, and an invalid lease stays invalid |
| `SessionTheorems.QuietMeansSilent` | `core/viewer/src/session.cpp:376-432` | after set_paused(true) or disconnect has returned no measurement is deliverable, queued or popped, until a callback is admitted |
| `SessionTheorems.NothingDeliveredWhileQuiet` | `core/viewer/src/session.cpp:319-432` | in a run without an admission from then on no measurement passes its test, whatever leases the health thread starts: what is written is at most the one that had passed before the return |
| `SessionTheorems.PassedOutlivesPause` | `core/companion/src/companion.cpp:108-115` | a run in which a measurement that had passed its test is written after set_paused(true) has returned |
| `SessionTheorems.ReturnsQuiet` | `core/viewer/src/session.cpp:376-432` | the operations return only with no callback active and none admitted |
| `SessionTheorems.RepeatReturnsQuiet` | `core/viewer/src/session.cpp:319-340` | a repeated pause or disconnect gives the same guarantee |
| `SessionService.AcceptsExactly` | `core/viewer/src/session.cpp:260-432` | in every run the session takes samples if and only if it is not paused or being paused, not disconnected or disconnecting, and has not failed to connect |
| `SessionService.LeaseIsValid` | `core/viewer/src/session.cpp:224-242` | in every run in which each lease could be created, while the sink is open: whenever the session takes samples, outside connect and the publication of a configuration, the current lease is valid |
| `SessionService.NextSampleIsServed` | `core/viewer/src/session.cpp:512-584` | in every such run, whenever the session takes samples the next callback is admitted and its sample enters the queue with a valid lease |
| `SessionService.ResumeServes` | `core/viewer/src/session.cpp:407-431` | from every reachable state in which a pause has returned, with the sink open and the lease created, set_paused(false) returns with the session not paused, and the next sample enters the queue with a valid lease |
| `SessionService.ConnectServes` | `core/viewer/src/session.cpp:260-317` | from every reachable disconnected state, with the sink open and nothing failing, connect returns and the next sample of its generation enters the queue with a valid lease |
| `SessionService.ValidIsWritten` | `core/companion/src/companion.cpp:108-115` | a measurement with a valid lease at the head of the queue is written when the consumer takes, tests and writes it with nothing in between |
| `SessionService.OtherIsWritten` | `core/companion/src/companion.cpp:108-115` | any other event is written whatever the leases |
| `SessionService.PauseReturns` | `core/viewer/src/session.cpp:376-406` | with no callback inside, set_paused(true) returns paused, with the lease revoked and no sample or plot of the connection queued |
| `SessionService.DisconnectReturns` | `core/viewer/src/session.cpp:319-374` | with no callback inside and the health thread between two polls, disconnect returns disconnected, with the lease revoked and the samples of the connection gone |
| `SessionService.ConnectForgets` | `core/viewer/src/session.cpp:216-222` | connect keeps exactly the queued events of its own generation |
| `SessionService.ConfigurationReplaces` | `core/viewer/src/session.cpp:693-705` | a callback that brings a new configuration leaves a new valid lease, the session streaming and the configuration queued |
| `ChartSeries.OnlineIsOffline` | `app/renderer/model/chart-model.ts:153-207` | for a fixed window, after any batches, each axis holds exactly the last value per timestamp, for timestamps not older than the newest minus the window |
| `ChartSeries.OrderDoesNotMatter` | `app/renderer/model/chart-model.ts:153-207` | histories of the same batches in any order, with any repeats, end in the same chart when no timestamp has two values |
| `ChartRuns.EveryRunIsOffline` | `app/renderer/model/chart-model.ts:153-244` | after any appends, window changes and resets a timestamp is in the chart exactly if an append brought it and it has been inside the window after every operation since, with no reset, and its value is the last one appended |
| `ChartSeries.SeriesIsTable` | `app/renderer/model/chart-model.ts:173-201` | a strictly sorted series is determined by its values per timestamp |
| `ChartModel.LowerBound` | `app/renderer/model/chart-model.ts:106-120` | binary search finds the only index with earlier points before it and no earlier point from it on |
| `ChartModel.Model.Append` | `app/renderer/model/chart-model.ts:153-207` | keeps every series strictly sorted and inside the window, computes the offline append, and returns false only if nothing changed |
| `ChartModel.Model.EvictBefore` | `app/renderer/model/chart-model.ts:246-257` | keeps exactly the points not before the cutoff, and reports a change exactly if there was one |
| `ChartModel.Model.SetWindow` | `app/renderer/model/chart-model.ts:215-227` | leaves exactly the points inside the new window, and reports a change exactly if one was outside |
| `ChartModel.Model.Reset` | `app/renderer/model/chart-model.ts:229-244` | empties the chart, and reports a change exactly if anything had been appended |
| `PlotIntervals.IntervalsSplitAccepted` | `core/viewer/src/plot_aggregator.cpp:26-60` | between resets the intervals split the accepted samples into consecutive runs, each shorter than the length and followed by one that starts at least a length later |
| `PlotIntervals.KeysAre` | `core/viewer/src/plot_aggregator.cpp:98-135` | the samples shown are, in increasing order without repeats, exactly the first, the earliest lowest, the earliest highest and the last |
| `PlotIntervals.ShownInOrder` | `core/viewer/src/plot_aggregator.cpp:98-143` | a batch runs from the first to the last sample in nondecreasing time, and every sample lies between two that are shown |
| `PlotIntervals.ForceIsShown` | `core/viewer/src/plot_aggregator.cpp:62-143` | on the first three axes every point is the time and the force of a sample, and every sample lies between two points |
| `PlotIntervals.TorqueIsShown` | `core/viewer/src/plot_aggregator.cpp:62-143` | on the other three every point is the time and the torque of a sample, and every sample lies between two points |
| `PlotIntervals.AcceptsExactly` | `core/viewer/src/plot_aggregator.cpp:26-60` | a sample is accepted exactly if it is the first, brings a new configuration, which starts anew, or is not earlier than any accepted before it |
| `PlotAggregator.ElapsedIsExact` | `core/viewer/src/plot_aggregator.cpp:42-44` | the unsigned subtraction is the exact elapsed time over the whole signed 64-bit range |
| `PlotAggregator.UpdateTracks` | `core/viewer/src/plot_aggregator.cpp:80-96` | the streaming candidates stay the first, earliest lowest, earliest highest and last sample |
| `PlotAggregator.SortCandidates` | `core/viewer/src/plot_aggregator.cpp:104-112` | the in-place insertion sort orders the candidates by time and index and loses none |
| `PlotAggregator.AxisBatch` | `core/viewer/src/plot_aggregator.cpp:98-135` | sorting and dropping repeats of the four candidates gives exactly the shown samples of the axis |
| `PlotAggregator.Aggregator.Push` | `core/viewer/src/plot_aggregator.cpp:26-52` | the object seeds, extends, ignores or closes an interval as specified, and returns the batch of the interval it closes |
| `XmlText.LexPrint` | `core/netft/src/detail/xml_config.cpp:116-204` | a printed document, with text, CDATA, comments, instructions and quoted attributes, is read back as its tokens, whatever follows it |
| `XmlText.FindTerminator` | `core/netft/src/detail/xml_config.cpp:131-155` | a comment, CDATA section or instruction ends where its terminator is written, not before |
| `XmlText.TagEndPrinted` | `core/netft/src/detail/xml_config.cpp:45-60` | a tag ends at the first '>' outside quoted attribute values |
| `XmlFields.FoldDoc` | `core/netft/src/detail/xml_config.cpp:109-204` | outside required elements the tag stack collects the required leaves of a document, or refuses it if one has a child element or repeats |
| `XmlFields.PrintedDocument` | `core/netft/src/detail/xml_config.cpp:116-231` | for every printed document the extractor returns the trimmed text of each required leaf, and refuses exactly when a leaf is nested, repeated, missing, empty or too long |
| `XmlFields.AcceptedIsBalanced` | `core/netft/src/detail/xml_config.cpp:160-208` | every accepted text has the tokens of a document tree, and the fields returned are what that tree says |
| `XmlNamed.PrintedFields` | `core/netft/src/detail/xml_config.cpp:116-231` | for every printed document the five fields are, in this order, the trimmed texts of prodname or its default, cfgcpf, cfgcpt, scfgfu and scfgtu, each standing once with 1 to 128 characters and without elements inside, and the document is refused otherwise |
| `XmlFields.UnfinishedIsRefused` | `core/netft/src/detail/xml_config.cpp:131-165` | markup that is not finished is refused, whatever document comes before it |
| `XmlExtractor.FindTagEnd` | `core/netft/src/detail/xml_config.cpp:45-60` | the quote-tracking loop finds the end of a tag |
| `XmlExtractor.TakeMarkup` | `core/netft/src/detail/xml_config.cpp:131-203` | one markup moves the position strictly ahead and the stack, flags and fields as its token says, or refuses |
| `XmlExtractor.ExtractRequiredFields` | `core/netft/src/detail/xml_config.cpp:116-231` | the scanning loop terminates on every text with the specified fields or refusal |
| `JsonKeys.LiteralExactly` | `app/main/protocol.ts:331-347` | the scanner reads n characters as a literal if and only if they are a quote, then pieces that are one character other than quote and backslash or a backslash with any character, then a quote |
| `JsonKeys.AcceptsPrinted` | `app/main/protocol.ts:321-431` | a printed value, whose literals are those of that grammar, is accepted if and only if no object at any level repeats a decoded key and containers nest at most 64 deep |
| `JsonKeys.AcceptedIsPrinted` | `app/main/protocol.ts:321-431` | every accepted text is the print of such a value |
| `JsonKeys.ReadFields` | `app/main/protocol.ts:352-388` | the members of an object are read to their end exactly when their keys are new, distinct and their values fit |
| `JsonScanner.Scanner.ParseString` | `app/main/protocol.ts:331-347` | if the rest of the text begins with a literal of that grammar the cursor moves past it and it is decoded, and otherwise the scanner fails |
| `JsonScanner.Scanner.ParseValue` | `app/main/protocol.ts:349-423` | the recursive scanner with its cursor computes the specified rest of the text, and terminates |
| `JsonScanner.Scanner.AssertNoDuplicateObjectKeys` | `app/main/protocol.ts:321-431` | succeeds if and only if the text is accepted, having consumed all of it |
| `SequenceTracking.RdtTracker.Observe` | `core/netft/src/detail/sequence.cpp:11-28` | the tracker classifies by unsigned difference; duplicates and out-of-order numbers leave the baseline |
| `SequenceTracking.KindIsOrder` | `core/netft/src/detail/sequence.cpp:11-28` | the classification is the order of the unwrapped numbers, and a gap is their distance |
| `SequenceTracking.LiftIsTrue` | `core/netft/src/detail/sequence.cpp:18-27` | unwrapping recovers the true numbers, up to the start of the span, if and only if each is within half the range of the highest before it |
| `SequenceTracking.SpanConserves` | `core/netft/src/detail/client_impl.cpp:544-570` | over a span, received plus lost is the unwrapped advance plus duplicates plus out of order |
| `SequenceTracking.TrueConservation` | `core/netft/src/detail/client_impl.cpp:544-570` | the same in terms of the true sequence numbers |
| `SequenceTracking.HalfRangeJump` | `core/netft/src/detail/sequence.cpp:18-27` | after any span in the half range the next number is unwrapped right exactly if it stays in it, and a jump of half the range ahead counts as out of order |
| `SequenceTracking.TallyMoves` | `core/netft/src/detail/client_impl.cpp:555-570` | one more number of a span is received, and by its place against the highest it is a duplicate, late, or ahead with the numbers between lost |
| `SequenceTracking.FtTracker.Observe` | `core/netft/src/detail/sequence.cpp:34-65` | the FT tracker with its restart candidate computes its specification |
| `SequenceTracking.FtKindsAre` | `core/netft/src/detail/sequence.cpp:34-65` | in every run the kind of an FT number is what its distance from the baseline says, and a restart exactly when it and the number before it, which went backward, are low and rising and the baseline is high |
| `SequenceTracking.FtBaselineMoves` | `core/netft/src/detail/sequence.cpp:34-65` | and the baseline moves exactly to a number that is first, ahead or a restart |
| `SequenceTracking.RestartCosts` | `core/netft/src/detail/sequence.cpp:46-65` | a restarted device that sends rising low numbers after any high baseline costs at most one Backward and one Restart, the second number at the latest is the baseline, and every later one is Forward |
| `SequenceTracking.BaselineIsHighest` | `core/netft/src/detail/sequence.cpp:40-65` | in every run without a restart the FT baseline is the one the RDT tracker would have, the highest unwrapped number |
| `SampleDelivery.Client.HandleRecord` | `core/netft/src/detail/client_impl.cpp:528-683` | counters, delivery, outcome and last delivery after one record, for every status, policy, limit and callback result |
| `SampleDelivery.Client.Bias` | `core/netft/src/detail/client_impl.cpp:291-303` | a bias command forgets the RDT baseline and nothing else, and only if the client is streaming and both sends succeed |
| `SampleAccounting.DeliversExactly` | `core/netft/src/detail/client_impl.cpp:533-625` | in every run a record goes to the callback if and only if it is ahead of all received in its span, its FT number neither stalls nor goes backward, it has no error status unless those are wanted, and no delivery was less than a period ago |
| `SampleAccounting.HandsOverExactly` | `core/netft/src/detail/client_impl.cpp:627-683` | it is handed over exactly if its values are finite, and is the last delivery exactly if the callback also returns |
| `SampleAccounting.CountersAre` | `core/netft/src/detail/client_impl.cpp:572-618` | in every run each counter is the number of the records or calls it names |
| `SampleAccounting.EndsExactly` | `core/netft/src/detail/client_impl.cpp:588-610` | a record ends the session exactly for an error status, or for a stall or a backward number when the policy is not to reconnect |
| `SampleDelivery.EveryRunConserves` | `core/netft/src/detail/client_impl.cpp:528-570` | over every run, summed over the spans between tracker resets, received plus lost is the advance plus duplicates plus out of order |
| `SampleDelivery.DeliveredInOrder` | `core/netft/src/detail/client_impl.cpp:528-683` | samples reach the callback with strictly increasing unwrapped numbers between resets, even if a bias comes before the callback |
| `SampleDelivery.RateIsLimited` | `core/netft/src/detail/client_impl.cpp:612-619` | in every run with a rate limit r any n successful deliveries of one start take at least (n-1)/r, if and only if no success at time 0 is followed by one before 1/r |
| `SampleDelivery.DeliveryAtTimeZero` | `core/netft/src/detail/client_impl.cpp:612-619` | for every limit and every time a run that delivers at 0 and then at that time |
| `OutputProtocol.EveryRunKeepsInv` | `core/companion/src/companion.cpp:61-183` | one invariant over tickets, responses, events owed and the shutdown holds in every interleaving |
| `OutputProtocol.SubmitReturnsWritten` | `core/companion/src/companion.cpp:61-74` | submit returns success only when the responses written are exactly the tickets so far, in order |
| `OutputDelivery.TakenIsWritten` | `core/companion/src/companion.cpp:76-183` | in every run without output failure the event frames written, with those in hand, are in the order of taking the state of each serialisable event that is no measurement or whose lease was valid at its test, and the progress of each recording that has one |
| `OutputDelivery.LiveIsWritten` | `core/companion/src/companion.cpp:76-183` | a serialisable event with a valid lease, or that needs none, is on the output after three steps of the writer |
| `OutputProtocol.PurgeTakesUndeliverable` | `core/viewer/src/session.cpp:184-195` | what finish purges would not have been written |
| `OutputProtocol.ShutdownIsLast` | `core/companion/src/companion.cpp:531-552` | a shutdown without output failure ends answered, and the output goes on with the frame that has passed its lease test when the sink finishes, then every deliverable, serialisable event queued then, in queue order, then the one shutdown response, then nothing |
| `OutputProtocol.EndOfInputIsLast` | `core/companion/src/companion.cpp:611-620` | the end of the input without output failure writes the same event frames and no response |
| `OutputTermination.SubmitReturns` | `core/companion/src/companion.cpp:61-74` | in any interleaving without output failure, once the writer has taken eight steps a waiting submit has its response written and can return |
| `OutputTermination.ShutdownEnds` | `core/companion/src/companion.cpp:142-183` | after finish, in any interleaving without output failure, no more steps can change anything than a measure of what is left, and after that many the command thread is done, a shutdown answered and the end of the input without a response |
| `OutputTermination.NeverStuck` | `core/companion/src/companion.cpp:142-183` | until then one of the two threads can move |
| `OutputTermination.ReachesDone` | `core/companion/src/companion.cpp:142-183` | so from every state after finish a run of at most that many steps is done in that way |
| `LineFraming.SplitIsFaithful` | `core/companion/src/companion.cpp:222-242` | the lines of a stream and what follows the last LF hold no LF and join to the stream |
| `LineFraming.SplitOfJoined` | `core/companion/src/companion.cpp:222-242` | and they are the only ones |
| `LineFraming.LineFramer.Push` | `core/companion/src/companion.cpp:224-236` | at LF the line is returned less one CR, oversized exactly if over the limit; never more than the limit is buffered |
| `LineFraming.LineFramer.Finish` | `core/companion/src/companion.cpp:238-244` | a last line without LF keeps its CR; an empty one is not returned |
| `LineFraming.ReadAll` | `core/companion/src/companion.cpp:284-305` | fed byte by byte the framer yields exactly the split lines |
| `LineFraming.StreamIsRead` | `core/companion/src/companion.cpp:222-305` | the lines sent, with or without CR before their LF, come back in order, each marked oversized if longer than a mebibyte, and a last one without LF too |
| `LineFraming.BoundedLineFramer.Push` | `app/main/companion-supervisor.ts:121-145` | a chunk yields the lines it completes and the new buffer, or a refusal |
| `LineFraming.ChunkingDoesNotMatter` | `app/main/companion-supervisor.ts:116-151` | for every cut into chunks the lines, the buffer and the refusal are those of the whole stream |
| `LineFraming.LinesAreDecoded` | `app/main/companion-supervisor.ts:116-151` | the lines sent are decoded in order, whatever the chunks, when each is at most a mebibyte and can be decoded |
| `LineFraming.LongIsRefused` | `app/main/companion-supervisor.ts:121-145` | a longer line is refused |
| `SensorHost.PartsJoin` | `app/main/settings-store.ts:36-48` | the parts between dots hold no dot and join to the host |
| `SensorHost.ValidIpv4` | `core/companion/src/protocol.cpp:128-159` | accepts exactly four octets up to 255 without leading zeros |
| `SensorHost.ValidDnsName` | `core/companion/src/protocol.cpp:161-185` | accepts exactly up to 253 characters of labels of 1 to 63 letters, digits and inner hyphens |
| `SensorHost.ValidSensorHost` | `core/companion/src/protocol.cpp:187-193` | accepts exactly the grammar of host names |
| `SensorHost.ValidatorsAgree` | `app/main/settings-store.ts:31-50` | the schema with its regular expressions accepts exactly the same strings |
| `CanonicalDecimal.CanonicalI64` | `core/companion/src/protocol.cpp:106-126` | the digit loop returns the value exactly for a canonical decimal in the signed 64-bit range |
| `CanonicalDecimal.FieldRoundTrip` | `core/companion/src/protocol.cpp:106-126` | a field holds n if and only if it is the decimal print of n and n is in range |
| `FrameScheduling.StepKeepsInv` | `app/renderer/model/event-scheduler.ts:16-78` | pushes, frame callbacks at any time and dispose keep the scheduler's invariant |
| `FrameScheduling.WrenchIsNewest` | `app/renderer/model/event-scheduler.ts:22-45` | a wrench handed on was the newest pushed, with no scope boundary since |
| `FrameScheduling.OthersKeepOrder` | `app/renderer/model/event-scheduler.ts:54-64` | every other event is handed on at once and in order of arrival |
| `FrameScheduling.OneFrameOutstanding` | `app/renderer/model/event-scheduler.ts:65-69` | at most one frame is neither cancelled nor fired, and there is one exactly while a wrench waits |
| `FrameScheduling.TakesAll` | `app/renderer/model/event-scheduler.ts:54-78` | every event pushed before dispose is taken, and only dispose ends that |
| `FrameScheduling.WrenchWaits` | `app/renderer/model/event-scheduler.ts:54-69` | a pushed wrench waits in place of any before it, with a frame outstanding for it |
| `FrameScheduling.OtherGoesOn` | `app/renderer/model/event-scheduler.ts:54-64` | another event is handed on at once and leaves a waiting wrench |
| `FrameScheduling.BoundaryGoesOn` | `app/renderer/model/event-scheduler.ts:54-64` | a scope boundary is handed on at once and no wrench waits after it |
| `FrameScheduling.FrameHandsOn` | `app/renderer/model/event-scheduler.ts:22-36` | a waiting wrench is the newest, with no boundary since, and the outstanding frame hands it on when it fires |
| `FrameScheduling.DisposedIsSilent` | `app/renderer/model/event-scheduler.ts:71-77` | nothing is handed on after dispose |
| `EventScheduler.Scheduler.PushEvent` | `app/renderer/model/event-scheduler.ts:54-70` | the object with its closure variables takes the specified step |
| `EventScheduler.Scheduler.FireFrame` | `app/renderer/model/event-scheduler.ts:22-36` | a callback of any frame, late or repeated, takes the specified step |
| `EventScheduler.Scheduler.DisposeAll` | `app/renderer/model/event-scheduler.ts:71-77` | dispose takes the specified step |

## Left out

- Weak memory: atomics are sequentially consistent; the acquire and release orders that give this view are not modelled.
- File system, sockets, HTTP, processes, windows and dialogs: file operations, allocations and clocks are outcomes chosen by the environment.
- RecorderProtocol: the counter resets in `start` are one step with its store of Starting; the wait mutex is over-approximated by allowing steps that it would exclude; the number of pauses, the failure code and text, and what a rejected `submit` returns are not modelled. A failed write leaves any number of whole rows of its batch in the file; the bytes of a row cut in the middle are not a row.
- CaptureMetadata: the 64-bit gap counter is unbounded; units are values compared for equality; the printing of the JSON summary is left out.
- SessionProtocol: the texts of snapshots and errors, the recorder calls and the client itself are left out; published configuration revisions are not claimed to be monotone, because a stale health snapshot can republish an older one.
- Measurement values are integers compared by order; non-finite samples are refused before they reach the plot and the chart. Chart points carry no text form and no time in milliseconds.
- PlotAggregator: the 64-bit sample index is unbounded.
- XmlExtractor: which message a refusal carries is not modelled, only that the document is refused; the conversion of the fields to numbers and units is left out.
- JsonScanner: the decoding of string literals is a parameter, so keys are compared as decoded, whatever the decoder; literals and atoms are not validated further, as in the program, which leaves that to the JSON parser. Characters are Unicode characters, not UTF-16 units.
- SampleDelivery: times and the limit are real numbers without rounding; the sliding windows of the displayed rates, back-off, fault latching and the session loop around a record are left out.
- OutputProtocol: the number the shutdown returns and the log stream are left out; serialisation is a flag of the event. The lease is consulted once, when the frame is committed: the earlier look at the same lease before it is serialised only drops frames sooner.
- BoundedLineFramer: UTF-8 decoding is a parameter.
- LineFraming: cancellation and read errors of the command input are left out.
- EventScheduler: dispatching is not re-entered from inside a dispatch.
- Restart and handshake of the supervisor, log rotation, settings persistence, menus, chart options and the other user interface code: plumbing or display.
