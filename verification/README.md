# Log generator verification

A Dafny model of the engine of a high-rate syslog load generator: how a worker decides how much to
send, how it prints and frames what it sends, how it counts it, how pools of workers are sized,
started and stopped, and how the control server and the metrics collector are driven. `dafny verify
dfyconfig.toml` checks everything.

## What is modelled

- **Rate control** (`RateControl`, `FeedbackLoop`, `LoopTuning`, `WorkerTuning`). The medium and performance send
  loops correct a factor once per window with a deadband, a proportional gain, a clamped step and a
  clamped range. One parametrised law stands for both (and for two loops that are never called). The
  main theorem says exactly when the loop ends on target: from every factor in range, after a number
  of windows computed from the parameters, the measured rate is inside the deadband if and only if
  some batch size the factor can reach is on target. It is proved first for windows, then for runs of
  single ticks, then for the constants of the two loops, and then for workers: in numbers, what each mode
  of a worker sends in its first window, and when a worker ends at the rate it was given.
- **The ultra and realtime loops** (`UltraSchedule`, `UltraTuning`, `RealtimeBuffer`, `RealtimeLoop`).
  The absolute-time schedule is the max-plus recurrence it should be, and the one percent steps end on
  target exactly when some batch size does. The realtime loop is a machine whose steps are the atomic
  actions of the producer and the loop, and its FIFO, accounting and shutdown properties hold of every
  interleaving; a class with the two buffers as arrays, one refilled in place, refines it.
- **Lines, datagrams and counting** (`SyslogLine`, `Timestamps`, `SyslogGenerator`, `Framing`,
  `UdpWorker`, `DatagramBound`). Printing is undone by a parser, framing by splitting at newlines, and over any
  run of a send loop the sender's total is the receiver's count. The pooled byte buffer is an array
  that is appended to in place.
- **Lifecycle** (`PoolShutdown`, `PoolStop`, `PoolLeftovers`, `WorkerPool`, `Lifecycle`, `Collector`,
  `ControlServer`). Starting and stopping a pool is a machine over the steps of the goroutines its wait
  groups count, with exact conditions for when Stop can return and when it has joined them all. Joined
  with one realtime machine per worker and a count of timestamp updaters it has every goroutine of the
  pool, with exact conditions for when a return of Stop leaves some behind and when those left can still
  end. The control server is a class with its handlers, proved over every sequence of requests and every
  failure to open sockets.
- **Estimates and statistics** (`Smoothing`, `EpsRing`, `Consistency`, `MetricsLog`, `Aggregation`,
  `Folds`) and **profile arithmetic** (`Profiles`).

Assumptions made once for the whole model: floating-point numbers are reals, so IEEE rounding is not
modelled; integers do not overflow at the sizes involved; the clock, write results, window ends and
the number of sockets a host can open are parameters chosen by the environment; a feedback window
ends on a tick; every table entry is ASCII, so one character is one byte; atomic operations are
atomic, and one pooled buffer is in use per call.

## Where the code and its description differ

- The timestamp is printed in ISO 8601 form, not in the form of section 4.1.2 of RFC 3164. The model
  prints what the code prints (`Timestamps.Format`).
- What the consistency score calls a standard deviation is the variance. With two positive samples or
  more that makes no difference exactly when the true deviation is zero, is one, or has reached the mean
  (`Consistency.ScoreUsesRootIff`; `Consistency.SmallSpreadScoresZero` is an instance).
- The medium and performance loops do not count failed sends as errors (`UdpWorker.UDPWorker.SendLoop`).
- The medium loop cannot settle on targets too small for its batch granularity
  (`LoopTuning.CoarseMediumNeverRests`); `LoopTuning.MediumEndsOnTargetIff` and
  `LoopTuning.PerformanceEndsOnTargetIff` say exactly which targets the two loops meet.
- The 100k and 500k profiles ask for batches and a ticker that amount to twice their rate, in the one
  mode that does not measure itself (`Profiles.ProfileNumbers`).
- The ultra and realtime loops never update the worker's estimate of its rate
  (`UdpWorker.UDPWorker.SendLoop`), so such a worker counts as inactive and nothing it sends reaches the
  published totals (`Aggregation.NoEstimateNoTotals`).
- The ultra loop's batch can never grow once it is below a hundred lines
  (`UltraSchedule.SmallBatchNeverGrows`).
- A pool's `Stop` has joined all that the wait groups count, whatever the schedule, if and only if every
  worker had registered both its goroutines when `Stop` was called (`PoolStop.StopJoinsAllIff`).
- That is not all that runs. The producer of a realtime loop is in no wait group, and the timestamp
  updater that every worker's generator starts is never ended by anything. When `Stop` returns, nothing
  but updaters is sure to be left if and only if, besides, no worker runs the realtime loop
  (`PoolLeftovers.StopLeavesOnlyUpdatersIff`), and nothing at all if and only if the pool has no workers
  (`PoolLeftovers.StopLeavesNothingIff`). What is left besides updaters can still end if and only if no
  realtime loop is hung and none has left its producer in front of a full channel
  (`PoolLeftovers.CanComeToRestIff`). Over any sequence of requests the updaters alive are one per worker
  ever built and one more per build that failed (`ControlServer.Serve`).
- A pool's `Stop` can hang on a realtime worker. It can still return if and only if it has passed every
  realtime loop whose producer was cancelled before its first batch (`PoolStop.StopCanReturnIff`), and
  it is sure to stay able to if and only if every realtime loop has its first batch, or one coming, when
  `Stop` is called (`PoolStop.StopSurelyReturnsIff`). No predefined profile selects the realtime loop.
- The realtime loop can wait for ever for its first batch when it is cancelled early, and can leave its
  producer blocked (`RealtimeBuffer.LoopCanReturnIff`, `RealtimeBuffer.ProducerCanReturnIff`,
  `RealtimeBuffer.LeakReachable`).
- The server loses a running memory optimizer exactly when a build that makes one finds that of an
  earlier, failed build still there; `ControlServer.Serve` counts them over any sequence of requests,
  and `ControlServer.FailedStartLeaks` is the shortest way to lose one.
- The published total of sent logs can fall (`Aggregation.TotalFallsIff` says when), and so can the
  number of workers when the target grows (`Profiles.WorkerCountFallsIff` says when).

## Model

| member | source | states |
|---|---|---|
| RateControl.Converges | internal/worker/udp_worker.go:537-563 | For a law with gain up to a half and steps up to a sixth on any plant, or any sound law on a plant whose single log is worth at most the deadband: after n windows the rate is in the deadband if and only if a reachable batch size is on target; if any batch size is on target, reachable or not, the factor then never moves again and is on target or pinned at the nearest limit. |
| RateControl.NeverJumpsTheBand | internal/worker/udp_worker.go:544-557 | No correction takes the measured rate from one side of the deadband past its other side, and inside the deadband the factor stays. |
| RateControl.FineTargetReachable | internal/worker/udp_worker.go:517-563 | If the inverse efficiency lies inside the factor's range and one log is worth at most the deadband, some reachable batch size is on target. |
| RateControl.LawsOfTheLoops | internal/worker/udp_worker.go:543-556 | The medium and performance parameter sets, and those of the two uncalled loops, satisfy the conditions of the theorems, and the windows each needs: 108, 600, 167 and 27. |
| RateControl.MediumCorrection | internal/worker/udp_worker.go:543-557 | The medium loop's correction in numbers: none up to two percent of error, then four tenths of it and at most eight percent, the factor staying between 0.7 and 1.3. |
| RateControl.PerformanceCorrection | internal/worker/udp_worker.go:762-784 | The performance loop's: one percent, half, ten percent, 0.5 to 2. |
| RateControl.AdjustFactor | internal/worker/udp_worker.go:537-557 | The branches of the correction as the loops write them compute the clamped deadband law. |
| RateControl.RoundingLoss | internal/worker/udp_worker.go:518-522 | Truncating the scaled batch costs less than one log's worth of rate, and only the floor of one log can add any. |
| FeedbackLoop.WindowIsPlantWindow | internal/worker/udp_worker.go:515-564 | The ticks of one window, whatever order their writes fail in, move the factor exactly as one window of the plant. |
| FeedbackLoop.LoopConverges | internal/worker/udp_worker.go:515-564 | The convergence theorem for whole runs of single ticks of a loop, with the factor at rest, on target or at the limit nearest to it, as soon as any batch size is on target. |
| FeedbackLoop.RunStaysInRange | internal/worker/udp_worker.go:552-556 | The factor never leaves its range, over any run. |
| LoopTuning.MediumEndsOnTargetIff | internal/worker/udp_worker.go:492-568 | For every target and number of successful sends per window: after 108 windows the medium loop is within two percent if and only if some batch size between 0.7 and 1.3 of the nominal one is. |
| LoopTuning.PerformanceEndsOnTargetIff | internal/worker/udp_worker.go:697-795 | The same for the performance loop, for every target and ticker interval: after 600 windows, within one percent, for factors between 0.5 and 2. |
| LoopTuning.MediumMeetsTarget | internal/worker/udp_worker.go:492-568 | From 5,000 logs per second per worker on, the medium loop meets its target even when 4 of 20 sends fail in every window. |
| LoopTuning.PerformanceMeetsTarget | internal/worker/udp_worker.go:697-795 | For every ticker interval: from 1,000 per successful send and window on, with at least half of the sends of each 100 ms window successful, the performance loop meets its target to one percent within 600 windows. |
| LoopTuning.CoarseMediumNeverRests | internal/worker/udp_worker.go:499-503 | At a target of 1,050 no factor in range is ever at rest: the granularity of the batch is too coarse. |
| WorkerTuning.FirstWindow | internal/worker/udp_worker.go:222-276 | The lines each mode adds to the total per successful write until its first window is over, as a number of the worker's target, ticker and batch size: a hundredth of the target in medium mode, 1.064 times 1.064 thousandths of target times milliseconds, rounded down twice, in performance mode, the batch size in high mode, 1.064 hundredths in ultra and realtime mode, rounded down at different places, and the batch size without a target. |
| WorkerTuning.StartBatchIs | internal/worker/udp_worker.go:494-503 | Those numbers are what the loops compute in floating point. |
| WorkerTuning.MediumWorkerEndsOnTarget | internal/worker/udp_worker.go:492-568 | A worker with any target, or 25,000 if it has none, that runs the medium loop through 108 windows of equally many successful writes then builds batches that send within two percent of that target if and only if some batch between seven and thirteen tenths of a hundredth of it would. |
| WorkerTuning.PerformanceWorkerEndsOnTarget | internal/worker/udp_worker.go:697-795 | The same for the performance loop with the worker's own ticker: 600 windows, one percent, between half and twice the nominal batch. |
| WorkerTuning.UltraWorkerEndsOnTarget | internal/worker/udp_worker_ultra.go:11-112 | The same for the ultra loop over windows of equal length: one percent, any batch, but none above the first when that has less than a hundred lines. |
| WorkerTuning.ModeEndsOnTarget | internal/worker/udp_worker.go:231-247 | The main loop does so in the mode that asks for it. |
| UltraSchedule.RunSchedule | internal/worker/udp_worker_ultra.go:42-90 | Batch k starts at exactly the largest, over j up to k, of slot j plus the work of batches j to k-1. |
| UltraSchedule.NeverAhead | internal/worker/udp_worker_ultra.go:70-90 | No batch starts before its slot. |
| UltraSchedule.StartedBy | internal/worker/udp_worker_ultra.go:70-90 | By time t at most floor((t - t0) / interval) + 1 batches have started. |
| UltraSchedule.LagDisappears | internal/worker/udp_worker_ultra.go:70-90 | While every batch leaves delta of its interval unused, a lag shrinks by delta per batch, and stays gone. |
| UltraSchedule.StepLogsMoves | internal/worker/udp_worker_ultra.go:99-105 | A too small batch is stepped up if and only if it has a hundred lines; a too large one is always stepped down. |
| UltraSchedule.SmallBatchNeverGrows | internal/worker/udp_worker_ultra.go:92-110 | Over any run of the loop, a batch below a hundred lines never grows and an empty one stays empty. |
| UltraSchedule.SmallTargetsStartSmall | internal/worker/udp_worker_ultra.go:28-31 | The batch starts below a hundred exactly for targets below 9,400. |
| UltraTuning.UltraEndsOnTargetIff | internal/worker/udp_worker_ultra.go:92-110 | When every line is worth the same to the measured rate: from every batch size, after enough windows, the batch never changes again, and is within one percent of the target if and only if some batch size is (no larger than the first, when that is below a hundred). |
| UltraTuning.UltraRunWindows | internal/worker/udp_worker_ultra.go:46-110 | Runs of ticks whose windows have the same length and successes step the batch as that law does. |
| UltraTuning.UltraLoopEndsOnTargetIff | internal/worker/udp_worker_ultra.go:11-112 | The same for runs of the loop from its initial batch. |
| RealtimeBuffer.EveryInterleaving | internal/worker/udp_worker_ultra.go:135-194 | Over every interleaving, what was produced is what was sent, then the unsent batch, the channel and the producer's hand, in order; every batch sent has the promised size. |
| RealtimeBuffer.EveryInterleavingCounts | internal/worker/udp_worker_ultra.go:169-177 | Over every interleaving, each datagram splits into its batch, the total is the receiver's count of the wire, every line handed to sendBatch is in the total or in a failed batch, and the errors are the failed batches. |
| RealtimeBuffer.WritesAreCounted | internal/worker/udp_worker_ultra.go:169-177 | Over every interleaving the total grows by the batch size per successful write and the errors by one per failed one; an empty batch cannot fail. |
| RealtimeLoop.RealtimeLoop.RefillCurrent | internal/worker/udp_worker_ultra.go:179-193 | Takes the next batch by reference or fills the array of the current buffer in place, without touching any batch still on its way. |
| RealtimeLoop.RealtimeLoop.SendCurrent | internal/worker/udp_worker_ultra.go:169-180 | Sends the current buffer, counts it, and swaps the two. |
| RealtimeLoop.Interleave | internal/worker/udp_worker_ultra.go:116-196 | Every interleaving over the two arrays and the channel of references ends in the state the machine gives. |
| RealtimeBuffer.LoopCanReturnIff | internal/worker/udp_worker_ultra.go:160-168 | From any reachable state the loop can still return if and only if it is not waiting for a first batch that a cancelled producer will not make. |
| RealtimeBuffer.ProducerCanReturnIff | internal/worker/udp_worker_ultra.go:142-158 | After the loop has returned, its producer can return if and only if it is not holding a batch in front of a full channel. |
| RealtimeBuffer.EarlyCancelHangs | internal/worker/udp_worker_ultra.go:142-161 | Cancelling before the first batch reaches the state in which the loop waits for ever. |
| RealtimeBuffer.LeakReachable | internal/worker/udp_worker_ultra.go:138-168 | A run, for every batch size, after which the loop has returned and its producer is blocked for ever. |
| SyslogLine.GeneratedLine | internal/generator/syslog_generator.go:146-192 | Every line is one ASCII line of at most 90 bytes and its timestamp, and parsing it recovers every part, the PRI number and the process id. |
| SyslogLine.ParseRender | internal/generator/syslog_generator.go:172-182 | Parsing undoes printing, for any parts that can be told from their separators. |
| SyslogLine.RenderParse | internal/generator/syslog_generator.go:172-182 | Printing undoes parsing, so a line has one reading. |
| SyslogLine.PrioritiesEncode | internal/generator/syslog_generator.go:63-67 | Each priority entry is 8 * facility + severity in angle brackets, as in section 4.1.1 of RFC 3164, for facilities 0, 2 and 4. |
| SyslogLine.LinesAreDistinct | internal/generator/syslog_generator.go:157-182 | Equal lines come from the same timestamp, priority, process id, host, service and message. |
| SyslogLine.LongestLine | internal/generator/syslog_generator.go:63-118 | The 90 bytes are needed. |
| SyslogGenerator.SystemLogGenerator.InitializeLogComponents | internal/generator/syslog_generator.go:61-119 | Fills the tables; process id i is printed as 1000 + i. |
| Timestamps.FormatIsTimestamp | internal/generator/syslog_generator.go:135-143 | The printed time always has 24 characters that a line can carry. |
| Timestamps.ReadFormat | internal/generator/syslog_generator.go:135-143 | And reads back to the same instant, to the millisecond. |
| SyslogGenerator.SystemLogGenerator.UpdateTimestampAt | internal/generator/syslog_generator.go:135-143 | The cached timestamp is the printed form of the instant. |
| SyslogGenerator.SystemLogGenerator.GenerateSystemLog | internal/generator/syslog_generator.go:146-192 | Returns a fresh array with the line of some choice of entries; the pooled buffer does not grow. |
| SyslogGenerator.SystemLogGenerator.GenerateRun | internal/generator/syslog_generator.go:146-192 | Over any number of calls, every line already returned keeps what it held, although all were assembled in one pooled buffer. |
| SyslogGenerator.ByteBuffer.Append | internal/generator/syslog_generator.go:172-182 | Appends in place while the capacity lasts. |
| Framing.SplitJoin | internal/worker/udp_worker.go:811-816 | Splitting a datagram at newlines gives back exactly the batch. |
| Framing.JoinSplit | internal/worker/udp_worker.go:811-816 | Every datagram is the framing of its pieces. |
| Framing.BatchReceived | scripts/test.sh:139-142 | A receiver that counts newlines and one counts exactly the lines of the batch. |
| Framing.JoinLength | internal/worker/udp_worker.go:808-816 | Bound on the length of a datagram from a bound on its lines. |
| UdpWorker.UDPWorker.SendBatch | internal/worker/udp_worker.go:798-824 | One successful write puts exactly the framing of the batch on the wire; a failed one nothing; an empty batch is not sent. |
| UdpWorker.UDPWorker.SendCounted | internal/worker/udp_worker.go:531-535 | Sending a batch and adding the size that was asked for keeps the accounting: the total is what the receiver counts, and every generated line is in the total or in a failed batch. |
| UdpWorker.UDPWorker.Transmit | internal/worker/udp_worker.go:524-535 | One tick builds a batch of the given size with lines of that tick's timestamp and sends it, and keeps the accounting. |
| UdpWorker.UDPWorker.Delivered | internal/worker/udp_worker.go:798-824 | Every datagram splits into the batch it was made from, every line of it is one the generator printed, the receiver's total is the sender's, and the lines generated are those in the total and those in failed batches. |
| UdpWorker.PrintedParts | internal/generator/syslog_generator.go:146-192 | Such a line parses into entries of the generator's tables. |
| UdpWorker.UDPWorker.SendLoop | internal/worker/udp_worker.go:222-276 | Runs the loop of its mode and keeps the accounting: in the self-measuring modes the total and the last batch are those of the law for the worker's own target and ticker, in the others the total grows by the fixed batch per successful write; no batch is larger than the mode allows; failed sends are counted as errors in the ultra, realtime, precise and default modes, and never in the medium and performance modes; the estimated rate is less than 100 ms old at the last tick, but in ultra and realtime mode it never changes. |
| UdpWorker.UDPWorker.SendLoopRealtime | internal/worker/udp_worker_ultra.go:116-196 | Whatever the channel holds when the loop asks it, every successful write sends the batch received for its tick, or else one generated at the tick before; the total grows by the batch size per successful write and errors by one per failed one; without a first batch nothing is sent. |
| UdpWorker.UDPWorker.SendLoopMedium | internal/worker/udp_worker.go:492-568 | A run ends in the state the tick law gives, keeps the accounting, counts no errors, and every batch it sends is at most the largest the factor allows. |
| UdpWorker.UDPWorker.SendLoopPerformance | internal/worker/udp_worker.go:697-795 | The same for the performance loop. |
| UdpWorker.UDPWorker.SendLoopFixed | internal/worker/udp_worker.go:249-274 | The default and the precise loop: the total grows by the batch size per successful write, errors by one per failed write. |
| UdpWorker.UDPWorker.SendLoopUltra | internal/worker/udp_worker_ultra.go:46-112 | A run ends in the state the stepping law gives and counts every failed write. |
| UdpWorker.UDPWorker.UpdateEPSMetrics | internal/worker/udp_worker.go:866-902 | At most every 100 ms, folds the measured rate into the estimate, three tenths to seven, and records it in the ring. |
| UdpWorker.UDPWorker.GetAverageEPS | internal/worker/udp_worker.go:1123-1139 | The mean of the positive ones of the last 60 recorded estimates. |
| EpsRing.Ring.Push | internal/worker/udp_worker.go:892-894 | The ring always holds the last samples in order from its write index, with zeros for the missing ones. |
| EpsRing.LastIsSuffix | internal/worker/udp_worker.go:892-894 | Once the ring is full its contents are exactly the end of the history. |
| EpsRing.AverageBetween | internal/worker/udp_worker.go:1127-1138 | The average lies between the smallest and the largest positive sample. |
| EpsRing.SampleAdds | internal/worker/udp_worker.go:1127-1138 | A positive sample adds itself to the sum and one to the count, any other nothing; the average is their quotient, rounded down. |
| EpsRing.TallyIgnoresOrder | internal/worker/udp_worker.go:1127-1138 | The average does not depend on where the write index stands. |
| Smoothing.EstimateStaysInside | internal/worker/udp_worker.go:880-890 | While the measured rates stay in an integer interval, the estimate stays in it. |
| Smoothing.ConstantRateEstimate | internal/worker/udp_worker.go:880-890 | Under a constant rate the estimate comes to rest within as many updates as it was away: at the rate from above, at most three below it from below. |
| Smoothing.SmoothConstant | internal/worker/udp_worker.go:880-890 | One update never passes the rate, and the estimates that no longer move are exactly the rate and the three below it. |
| Smoothing.SmoothInTenths | internal/worker/udp_worker.go:880-890 | One update is seven tenths of the estimate and three of the rate, rounded down; from zero it is the rate. |
| Smoothing.DistanceDecays | internal/worker/udp_worker.go:880-890 | Under a constant rate the distance after n updates is 0.7 to the n of the first one, less at most ten thirds, from above and from below. |
| DatagramBound.FitsIff | internal/worker/udp_worker.go:808-819 | 569 generated lines are exactly as many as always fit into one IPv4 UDP payload of 65,507 bytes. |
| DatagramBound.MediumFitsIff | internal/worker/udp_worker.go:499-522 | The medium loop's datagrams always fit if and only if its target is at most 43,899. |
| DatagramBound.PerformanceFitsIff | internal/worker/udp_worker.go:710-745 | The performance loop's, for every ticker interval, if and only if target times milliseconds is at most 267,857. |
| DatagramBound.MediumExceedsIff | internal/worker/udp_worker.go:510-557 | After four or more windows of whatever ticks, none of whose writes succeeds, the medium loop can build a datagram that is too large if and only if its target is above 43,899. |
| DatagramBound.PerformanceExceedsIff | internal/worker/udp_worker.go:727-777 | The same for the performance loop after seven or more, for every ticker interval. |
| DatagramBound.ProfilesFit | internal/config/profiles.go:29-88 | Every predefined profile keeps its datagrams within the payload at the largest factor. |
| DatagramBound.CustomProfileFitsIff | internal/config/profiles.go:143-219 | On any machine a custom profile keeps its datagrams within the payload if and only if its target is below 43,900 per worker it gets. |
| DatagramBound.CustomProfileFits | internal/config/profiles.go:143-219 | So every one of up to five million on 20 cores or more does. |
| DatagramBound.MediumWorker | internal/worker/udp_worker.go:492-568 | After any run of a medium worker with a target of at most 43,899, every datagram fits, splits into its batch, and was counted line by line. |
| DatagramBound.ProfilePool | internal/worker/worker_pool.go:165-190 | Every worker of a pool built from a predefined profile, completely or not, sends to the given host and can build no datagram that is too large, by its own mode, batch size, ticker and target. |
| DatagramBound.RunWorker | internal/worker/udp_worker.go:222-276 | And whatever run its main loop makes, none that it sent was; each splits into its batch and was counted line by line. |
| Profiles.CalculateWorkerCount | internal/config/profiles.go:178-219 | The branches compute min(200, 10 * cores, max(1, target / share)); the minimum-worker branches never raise it. |
| Profiles.ProfileNumbers | internal/config/profiles.go:29-88 | Each predefined profile carries the rate in its name, shared without a remainder at 10,000 or 25,000 per worker; batch and ticker amount to that share in performance mode and to twice it in high mode; buffers double from one to the next. |
| Profiles.MostWorkers | internal/config/profiles.go:178-219 | The count is the most workers that can each be given the share of their rate range, but at least one, and within the two caps. |
| Profiles.SharesCoverTarget | internal/worker/worker_pool.go:182-183 | The equal shares fall short of the target by less than one log per worker. |
| Profiles.ShareBounded | internal/config/profiles.go:178-219 | With 20 cores or more a worker's share is below 26,250 exactly for targets below 5,250,000. |
| Profiles.WorkerCountFallsIff | internal/config/profiles.go:178-219 | A larger target gets fewer workers exactly when the two lie on either side of 100,000 or of 500,000 and the larger is below the wider share times the workers of the smaller; otherwise the count is monotone. |
| Profiles.WorkerCountNotMonotone | internal/config/profiles.go:182-191 | On any machine 100,000 gets ten workers and 100,001 five. |
| Profiles.CalculateCustomProfile | internal/config/profiles.go:143-176 | The custom profile carries the requested rate with 1 to 200 workers on any machine, and the batch, memory and buffer sizes of its rate range. |
| Profiles.ScaleDown | internal/config/profiles.go:126-130 | The truncated floating-point proportion is the integer quotient workers * target / rate, at least one and at most all workers. |
| Profiles.MostOfProportion | internal/config/profiles.go:126-130 | The scaled count is the most workers within the proportion, but at least one. |
| Profiles.GetProfileForEPS | internal/config/profiles.go:117-140 | The first profile in order that can carry the rate, with its workers scaled in proportion but never to none; beyond four million the custom one with the workers for the rate and its settings as the table has them. |
| PoolShutdown.EverySchedule | internal/worker/worker_pool.go:211-257 | Over every interleaving of a fresh pool of n workers, r of them realtime: wait groups count the live goroutines registered in them, no channel is closed twice, at most 10 n + 2 r + 6 steps are taken, and a schedule that cannot go on has stopped and joined all of them if and only if no realtime loop is hung. |
| PoolShutdown.NeverStuck | internal/worker/worker_pool.go:449-474 | Until all that the wait groups count has returned, some step can be taken unless a realtime loop is hung. |
| PoolShutdown.NoDoubleClose | internal/worker/udp_worker.go:1074-1089 | The close in a worker's Stop never meets a closed channel. |
| PoolShutdown.NothingEndsEarly | internal/worker/udp_worker.go:251-255 | Over every interleaving no collector, send loop or aggregator ends before Stop has cancelled the context. |
| PoolShutdown.StopReturned | internal/worker/worker_pool.go:449-474 | When Stop returns the aggregator and all starters have; if every worker was up when it was called, so have all collectors and send loops. |
| PoolStop.StopJoinsAllIff | internal/worker/worker_pool.go:449-474 | Whenever Stop is called, it has joined all that the wait groups count in every way in which it can return if and only if every worker had registered both its goroutines. |
| PoolStop.LateStarterOutlivesStop | internal/worker/worker_pool.go:233-245 | For every worker that had not: a schedule in which Stop returns and its send loop is alive. |
| PoolStop.StartReturnsFirst | internal/worker/worker_pool.go:211-257 | Every fresh pool can come to a call of Stop with no worker up and no realtime loop fed. |
| PoolStop.StopCanReturnIff | internal/worker/worker_pool.go:449-467 | From any reachable state Stop can return if and only if it has passed every realtime loop whose producer was cancelled before its first batch. |
| PoolStop.StopSurelyReturnsIff | internal/worker/worker_pool.go:449-467 | It stays able to return, whatever happens, if and only if every realtime loop has its first batch or one coming when Stop is called. |
| PoolStop.WithoutRealtimeStopReturns | internal/worker/udp_worker.go:231-247 | A pool without realtime loops is never kept from stopping. |
| PoolLeftovers.CourseProjects | internal/worker/worker_pool.go:211-474 | Every run of all goroutines, producers and updaters included, is a run of the machine of what the wait groups count, keeps every link between worker and realtime loop, and ends no updater. |
| PoolLeftovers.Follow | internal/worker/udp_worker_ultra.go:138-196 | Every run of that machine in which no producer gives up can be played in full, and then no producer has given up. |
| PoolLeftovers.StopLeavesOnlyUpdatersIff | internal/worker/worker_pool.go:449-474 | Whenever Stop is called, every way in which it can return leaves nothing but timestamp updaters if and only if every worker had registered both its goroutines and none runs the realtime loop. |
| PoolLeftovers.StopLeavesNothingIff | internal/generator/syslog_generator.go:122-133 | And nothing at all if and only if the pool has no workers, because nothing ends an updater. |
| PoolLeftovers.CanComeToRestIff | internal/worker/udp_worker_ultra.go:142-168 | From any reachable state everything but the updaters can still end if and only if no realtime loop waits for a first batch that will not come and none has returned with its producer in front of a full channel. |
| PoolLeftovers.StuckOnlyWhenDoomed | internal/worker/udp_worker_ultra.go:142-168 | A state in which no goroutine can take a step has only updaters left if and only if there is no such loop. |
| PoolLeftovers.BuiltPoolLeavesSome | internal/worker/worker_pool.go:233-257 | Every pool with a worker has a run from its build in which Stop returns and more than the updaters is alive. |
| PoolLeftovers.BuiltPoolDooms | internal/worker/udp_worker_ultra.go:142-161 | Every pool with a realtime worker has a run from its build after which that worker's loop waits for ever. |
| WorkerPool.WorkerPool.Initialize | internal/worker/worker_pool.go:148-208 | Builds the profile's workers in order, or the first ones if a socket cannot be opened; fails exactly then, or when the pool runs. Every worker has the next id and port, the pool's host, the profile's batch, ticker and mode, its buffers in bytes or the defaults, and the rounded down share. Starts one timestamp updater per worker, and one more when it fails at a socket. |
| WorkerPool.FullPool | internal/worker/worker_pool.go:165-200 | A full pool has one worker per port below the last one set aside, and its shares add up to the target but for less than one per worker. |
| WorkerPool.WorkerPool.Start | internal/worker/worker_pool.go:211-214 | Starting fails exactly when the pool runs. |
| WorkerPool.WorkerPool.Stop | internal/worker/worker_pool.go:449-455 | Stopping fails exactly when it does not, and cancels for good. |
| WorkerPool.EPSHistory.UpdateEPSHistory | internal/worker/worker_pool.go:392-399 | Records a rate at most once a second. |
| WorkerPool.EPSHistory.FiveMinutesKept | internal/worker/worker_pool.go:392-399 | Every sample of the last five minutes is still in the ring of 300, at its place in time. |
| Lifecycle.MemoryOptimizer.Start | internal/config/optimization.go:101-119 | Brings up both background goroutines, unless it is active, also on an optimizer that was stopped, whose channel stays closed. |
| Lifecycle.MemoryOptimizer.Stop | internal/config/optimization.go:193-205 | Closes its channel if active, and returns when every goroutine has seen that and exited. |
| Collector.MetricsCollector.Start | pkg/metrics/collector.go:138-153 | Afterwards exactly one loop is alive and its channel is open; a closed channel is replaced, an open one kept. |
| Collector.MetricsCollector.Stop | pkg/metrics/collector.go:354-370 | Closes one channel if it was collecting, and returns when the loop has seen that and exited; the branch for a closed channel is not reachable. |
| Collector.MetricsCollector.Calls | pkg/metrics/collector.go:138-370 | Over any sequence of calls: collecting if and only if one loop is alive, as the last call left it; every pause closed one channel, none of them twice. |
| Collector.MetricsCollector.CollectTick | pkg/metrics/collector.go:175-234 | One sample: the rate since the last one, the score of the last minute, everything else carried over; ring, history and log stay consistent. |
| Collector.MetricsCollector.UpdateMetrics | pkg/metrics/collector.go:304-317 | The history is the last 1,800 samples of the whole log. |
| Collector.MetricsCollector.GetMetricsHistory | pkg/metrics/collector.go:385-399 | The samples after the cutoff, in order; the same as from the whole log for up to 30 minutes of samples a second apart. |
| Collector.MetricsCollector.UpdateWorkerMetrics | pkg/metrics/collector.go:402-433 | Replaces the aggregated fields by the totals of the active workers. |
| MetricsLog.Telescopes | pkg/metrics/collector.go:183-188 | With totals that do not fall, the rates times their durations add up to what was sent since the first positive total. |
| MetricsLog.PublishedUnderReports | pkg/metrics/collector.go:183-188 | The published integer rates never over-report and under-report by less than one log per elapsed second. |
| MetricsLog.QueryExactIff | pkg/metrics/collector.go:304-399 | A query of the bounded history answers like the whole log if and only if every dropped sample is at or before the cutoff. |
| MetricsLog.HalfHourIsExact | pkg/metrics/collector.go:107-112 | With samples a second apart every query of up to 30 minutes is exact. |
| Consistency.CalculateConsistencyScore | pkg/metrics/collector.go:237-273 | One pass over the ring computes the two-pass score of the last samples, between 0 and 100. |
| Consistency.OnePassVariance | pkg/metrics/collector.go:253-254 | The one-pass variance is the sum of squared deviations over n - 1. |
| Consistency.ScoreMeaning | pkg/metrics/collector.go:249-272 | With two positive samples or more the score is 100 exactly when all are equal, and 0 exactly when their variance has reached their mean. |
| Consistency.ScoreBetween | pkg/metrics/collector.go:255-264 | In between the score is 100 less the variance as a percentage of the mean. |
| Consistency.ScoreIgnoresOrder | pkg/metrics/collector.go:241-247 | The score does not depend on the order of the samples. |
| Consistency.ScoreUsesRootIff | pkg/metrics/collector.go:249-272 | With two positive samples or more the score is the one the standard deviation would give if and only if that deviation is zero, is one, or is at least the mean. |
| Consistency.SmallSpreadScoresZero | pkg/metrics/collector.go:255-264 | So rates of 999,000 and 1,001,000 score zero, where the deviation would give more than 99. |
| Aggregation.AddUp | pkg/metrics/collector.go:409-422 | The loop computes the totals and the mean loss of the active workers. |
| Aggregation.MapOrderDoesNotMatter | internal/monitor/control_server.go:672-687 | Whatever order the worker map is iterated in, the totals are the same. |
| Aggregation.ListedAsStored | internal/monitor/control_server.go:672-687 | Each worker is handed over with the metrics the pool has, as active exactly while its estimated rate is positive. |
| Aggregation.NoEstimateNoTotals | internal/monitor/control_server.go:677-687 | Workers without an estimated rate contribute nothing to the totals. |
| Aggregation.TotalsIgnoreOrder | pkg/metrics/collector.go:409-416 | So for every permutation of the list of workers. |
| Aggregation.WorkerAdds | pkg/metrics/collector.go:409-416 | An active worker adds its own sent logs, errors and loss to the totals of the others, an inactive one nothing. |
| Aggregation.ActiveCount | pkg/metrics/collector.go:409-416 | The active count is the number of active workers, at most all. |
| Aggregation.MeanLossBetween | pkg/metrics/collector.go:418-422 | The mean loss lies between the smallest and largest loss of an active worker. |
| Aggregation.TotalFallsIff | internal/monitor/control_server.go:677-687 | The total of sent logs falls between two updates exactly when more went inactive than the others gained. |
| Aggregation.MapTotalFallsIff | internal/monitor/control_server.go:672-687 | The same between any two worker maps, whatever workers came or went and in whatever orders the two are iterated. |
| Aggregation.TotalGrowsWhileActive | internal/monitor/control_server.go:677-687 | It does not fall while active workers stay active. |
| Aggregation.TotalCanFall | internal/monitor/control_server.go:684-684 | It falls when a worker's estimate reads zero once. |
| ControlServer.ValidateConfig | internal/monitor/control_server.go:558-582 | A configuration passes if and only if it names a profile, whose rate and workers then replace its own, or is within the limits. |
| ControlServer.ControlServer.HandleConfig | internal/monitor/control_server.go:231-275 | Stores exactly the configurations that pass, with only the rate and the workers of a named profile replaced; others change nothing. |
| ControlServer.ControlServer.InitializeGenerator | internal/monitor/control_server.go:584-641 | Succeeds exactly when the profile exists and the host has the sockets; never divides by zero workers; leaves the optimizers as one build of the pure account does. |
| ControlServer.ControlServer.StartGenerator | internal/monitor/control_server.go:643-658 | Starts the current pool, unless there is none or it runs. |
| ControlServer.ControlServer.StopGenerator | internal/monitor/control_server.go:716-740 | Afterwards nothing is current or collecting; an error exactly when the pool was not running. |
| ControlServer.ControlServer.HandleStart | internal/monitor/control_server.go:278-344 | Succeeds exactly when idle and buildable; the running pool then carries what was asked for: the custom rate with the workers for it, or the named profile's rate with its workers and settings, to the host asked for, each setting that is missing being what the server had. |
| ControlServer.ControlServer.HandleStop | internal/monitor/control_server.go:347-374 | Succeeds exactly when running. |
| ControlServer.ControlServer.HandleRestart | internal/monitor/control_server.go:377-408 | Runs afterwards exactly when buildable, carrying what the server was configured for, and leaves the optimizers as the pure account does. |
| ControlServer.ControlServer.Stop | internal/monitor/control_server.go:743-759 | Shuts a running generator down. |
| ControlServer.ControlServer.ActiveCount | internal/monitor/control_server.go:613-621 | The active optimizers are those lost and the one the server holds. |
| ControlServer.LostAtMostFailures | internal/monitor/control_server.go:613-636 | Over every sequence of requests, every lost optimizer, and one held while idle, is matched by a pool that could not be built. |
| ControlServer.LostAtMostWasted | internal/monitor/control_server.go:613-636 | And by one that failed with optimization on. |
| ControlServer.StartTakesEffect | internal/monitor/control_server.go:298-309 | In every state the requests can lead to: an idle server with enough sockets that is asked for a custom rate, a named profile or a host carries that rate, that profile's or the one it had, with the workers for it, to that host. |
| ControlServer.DefaultConfigDiffers | internal/monitor/control_server.go:96-113 | The default configuration names the 4m profile but shows a quarter of its workers and another batch and ticker, which a start replaces. |
| ControlServer.UpdatersNeverFall | internal/generator/syslog_generator.go:122-133 | No further requests, stops included, lower the number of updaters alive. |
| ControlServer.Serve | internal/monitor/control_server.go:231-759 | Over every sequence of requests and failures: running if and only if the pool runs if and only if the collector collects; each pool started and stopped at most once with 1 to 200 workers; the target stays positive; the optimizers lost are exactly the builds that made one while a failed build's was held, and an idle server has no active one if and only if none was lost and none is held; the timestamp updaters alive are one per worker of every pool ever made and one more per build that failed. A running pool carries the load the requests determine, and the collector knows its rate. |
| ControlServer.FailedStartLeaks | internal/monitor/control_server.go:613-635 | One failed start, a start and a stop lose one optimizer, and leave 161 updaters. |

## Left out

- HTTP, JSON, WebSocket, the web UI, the broadcast loops, alerts, reports and formatting: input, output and presentation.
- Sockets, socket options, address resolution, sleeping, spinning, thread pinning, garbage-collector and memory-limit calls, CPU sampling: replaced by parameters or left out.
- IEEE rounding, and the NaN the pool computes for its packet loss without active workers.
- runPIDControl, adjustPIDForProfile, sendLoopPrecise_OLD and sendLoopUltraPerformance as loops: never called; the last two appear as parameter sets of the law only, without their timing and with the one-line minimum that the others have.
- GenerateSystemLogUnsafe, SetCPUAffinity, sendBatchPartial and sendBatchIndividual: not called.
- The automatic tuner: it never does anything in the pools the server makes.
- The metrics update loop's unguarded read of the running flag, and the worker map shared between the aggregator and its readers: data races without an intended guarantee.
- The system metrics, achievement percentage and efficiency score in a sample: copied or clamped values.
- UdpWorker.UDPWorker.SendLoop: the branch for a missing connection is left out, because a constructed worker has one; ticks that an overloaded ticker drops are simply not in the run; the realtime producer's side is in RealtimeBuffer and RealtimeLoop.
- UltraSchedule.RunSchedule: the time a batch takes includes the time the loop spends between its wait and the next batch.
- PoolShutdown.EverySchedule: Start and Stop of a pool are each called once, and Stop after Start has returned, as their callers do; what a realtime producer does after its first batch, and the timestamp updaters, are in PoolLeftovers.
- PoolShutdown.StopReturned: its condition is sufficient only; PoolStop.StopJoinsAllIff has both directions.
- WorkerPool.WorkerPool.Initialize: the workers are represented by their settings; the objects that run are those of UdpWorker and PoolShutdown.
- RateControl.Converges: for a law with a gain above one half, which only sendLoopPrecise_OLD has, the equivalence is proved for plants whose single log is worth at most the deadband.
