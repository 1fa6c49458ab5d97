# movie_quality_increase, modelled in Dafny

The repository is a C++ tool that upscales a movie frame by frame. It uses
OpenCV's deep-learning super-resolution networks. This project models its core:

- **Command-line configuration** (`Config::parseCommandLine`), in `config.dfy`.
  One left-to-right scan over the arguments. A recognised flag takes the next
  argument as its value. A help flag ends the scan with `false`. The last
  argument is never applied. Numeric values go through `std::stoi` and are
  stored in `unsigned short` fields. The final test decides whether the
  configuration is usable.
- **`std::stoi` and `std::to_string`**, in `decimal.dfy`. White-space
  skipping, optional sign, longest digit run, 32-bit range, and the two
  exceptions. The conversion is a character state machine.
- **One super-resolution engine** (`SuperRes`), in `superres.dfy`. The models
  folder check, the choice of network and factor with its rejection test, the
  model path the choice builds, and the flag that lets inference run.
- **The frame pipeline of `MovieUpscaler::run`**, in `pipeline.dfy` and
  `runs.dfy`. The producer loop and `consumeSuperresFuturesTask` become an
  atomic-step state machine:
  - one producer iteration;
  - the producer waking from its overflow wait;
  - one upscaling task finishing on its slot;
  - one consumer iteration.

  A slot id is both an upscaler instance and the index of its output buffer.
  The queue of vacant slots and the queue of pending futures are sequences.
  The end-of-stream marker is an entry of the pending queue.
- **The setup of `run`**, in `upscaler.dfy`. The initialization check, opening
  the input, configuring every engine with ESPCN and the upscale factor, and
  opening the output. A successful setup hands the pipeline's initial state on.

Every step of the pipeline preserves one invariant, `FramePipeline.Inv`:

- each slot is vacant or held by exactly one pending task;
- the end-of-stream marker is last, and present exactly while the producer
  has finished and the consumer has not;
- every finished task has filled its slot's buffer;
- the written frames followed by the pending frames are the submitted frames,
  in increasing order;
- the producer has reached every frame index so far; these are the indices
  reported to the progress callback, when `run` is given one.

From the invariant follow the properties below:

- frames are written in reading order;
- a frame read while the queue is full is reported but never written;
- with zero instances no frame is ever scheduled;
- once the producer stops, draining the queue writes every submitted frame.
  This assumes every wait is woken; see `PipelineRuns.DrainReachesEnd` under
  "Left out".

The environment is supplied as parameters:

- Whether a file opens, whether a path passes `pathExists`, and whether a
  model file loads are oracle functions (`canRead`, `canWrite`, `pathExists`,
  `modelLoads`).
- The answers of the progress callback and of `VideoCapture::read` are event
  parameters (`Produce(callbackOk, readOk)`). Without a callback the answer
  is always `true`.
- Inference is an opaque function `upsample`.

Two places where the code and its own documentation disagree. The model
follows the code in both:

- `SuperRes.h` documents LapSRN models for x2, x4 and x8 only. The rejection
  test in `setAlgoAndScale` also accepts x6, and builds a path to
  `LapSRN_x6.pb`. `SuperResolution.AcceptedChoicesAreDocumented` states this.
- `MovieUpscaler::run` calls `setModelFolderPath` and
  `setAlgoAndScale(SuperRes::Algo, …)`. `SuperRes.h` declares those two, but
  `SuperRes.cpp` defines only `setFolderPath` and
  `setAlgoAndScale(std::string, …)`. The model configures each engine with
  `setFolderPath` and the name `"espcn"`, the string form of
  `DEFAULT_SUPERRES_ALGO`.

## Model

| member | source | states |
|---|---|---|
| Basics.ToUShort | Config.cpp:29 | storing an `int` into an `unsigned short` keeps it modulo 2^16, and keeps any value already in range |
| Basics.PermutationOfIota | MovieUpscaler.cpp:81-84 | a sequence with the multiset of the slot ids 0..N-1 has N elements, all below N, none repeated |
| Decimal.ToDecimal | SuperRes.cpp:34 | `to_string` of a number is a non-empty run of digits with no leading zero |
| Decimal.ValueOfToDecimal | SuperRes.cpp:34 | reading back the printed digits gives the number |
| Decimal.ToDecimalInjective | SuperRes.cpp:34 | different numbers print differently |
| Decimal.Stoi | Config.cpp:29 | a value `std::stoi` returns lies in the 32-bit `int` range |
| Decimal.StoiReadsDecimal | Config.cpp:29 | `stoi` reads back a printed non-negative `int`, whatever non-digit text follows it |
| Decimal.StoiReadsNegative | Config.cpp:45 | a leading minus sign negates the value, down to -2^31 |
| Decimal.StoiRejectsNonNumeric | Config.cpp:29 | text not starting with white space, a sign or a digit throws `invalid_argument` |
| Decimal.StoiSkipsSpace | Config.cpp:29 | leading white space does not change the result |
| Decimal.StoiRejectsLarge | Config.cpp:45 | a number above 2^31-1 throws `out_of_range` |
| Decimal.StoiOfDigits | Config.cpp:29 | a digit run followed by a non-digit reads as its value, or throws `out_of_range` above `INT_MAX` |
| CommandLine.ClassifyIsListing | Config.cpp:6-11 | the six flag tables do not overlap: an argument is of a kind exactly when that kind's table lists it |
| CommandLine.IsValid | Config.cpp:48 | the instance-count test `>= 0` of an `unsigned short` never fails, so the verdict is exactly: input, output and models paths non-empty and a non-zero factor |
| CommandLine.ParseCommandLine | Config.cpp:13-25 | the scan starts after the program name; with at most one argument after it nothing is applied, and the verdict is the final test unless that argument asks for help; a true verdict implies the final test |
| CommandLine.Apply | Config.cpp:26-46 | one flag stores its value in its own field and nowhere else; numeric values throw exactly when `stoi` does and are stored modulo 2^16; other tokens change nothing |
| CommandLine.Scan | Config.cpp:15-48 | a scan that reports success leaves a configuration that passes the final test |
| CommandLine.ParseIsLastWins | Config.cpp:13-49 | the parse throws at the first numeric flag whose value `stoi` rejects, keeping what came before; otherwise each field holds the value after its last flag before the first help flag and the last argument, and the verdict is false after a help flag and the final test otherwise |
| CommandLine.ScanIsLastWins | Config.cpp:15-48 | the same agreement for the scan from any position up to the limit |
| CommandLine.FirstHelpIsFirst | Config.cpp:18-21 | no help flag comes before the first one found |
| CommandLine.LastFlaggedIsLast | Config.cpp:27-46 | every flag of a kind lies at or before the last one found |
| CommandLine.FirstBadNumberIsFirst | Config.cpp:29 | every numeric flag before the first bad one has a value `stoi` accepts |
| CommandLine.LastWinsStep | Config.cpp:27-46 | applying one flag and then reading the rest last-wins equals reading the whole range last-wins |
| CommandLine.HelpNeverValid | Config.cpp:18-21 | a help flag anywhere after the program name, even in last position or as a flag's value, makes the parse fail |
| CommandLine.ProgramNameIgnored | Config.cpp:15 | the scan never reads the program name |
| CommandLine.ValueRescannedAsFlag | Config.cpp:15-38 | the scan advances one position at a time, so `-i -o x` sets the input to "-o" and the output to "x" |
| CommandLine.TrailingFlagIgnored | Config.cpp:22-25 | appending a non-help flag after any argument list whose last argument is not itself a flag leaves the parse unchanged: its verdict, its configuration and any exception |
| CommandLine.ScanIgnoresTrailingFlag | Config.cpp:15-25 | from any position, the scan of the argument list with a trailing non-help flag equals the scan without it, when the argument before it is not a flag |
| CommandLine.NoFactorNeverValid | Config.cpp:48 | without a factor flag the factor keeps its default 0 and the parse fails |
| CommandLine.NumberNarrowed | Config.cpp:27-30 | a factor or instance count of n is stored as n modulo 2^16 |
| SuperResolution.SetFolderPath | SuperRes.cpp:17-24 | a path is stored exactly when it passes `pathExists`; otherwise `invalid_argument("cannot access " + path)` and the engine is unchanged |
| SuperResolution.SetAlgoAndScale | SuperRes.cpp:26-63 | an unsupported factor throws "undefined scale" before the name is looked at; an unknown name throws "undefined algo"; the model path is folder/dir/prefix_x<factor>.pb; the choice is stored and inference enabled exactly when the model loads; `fsrcnn_small` is stored as `fsrcnn` |
| SuperResolution.UpRes | SuperRes.cpp:65-72 | inference throws `logic_error` exactly when no choice has been stored, and otherwise runs the network |
| SuperResolution.ScaleRejected | SuperRes.cpp:28 | the rejection test, as written, refuses exactly the factors outside the independently stated sets {2,3,4}, or {2,4,6,8} for LapSRN |
| SuperResolution.Family | SuperRes.cpp:32-56 | exactly the five names edsr, fsrcnn, fsrcnn_small, lapsrn and espcn have a model family; the name passed to the library is the algorithm's own, except that `fsrcnn_small` passes `fsrcnn`; each file prefix equals its sub-directory except FSRCNN-small, which lives in FSRCNN |
| SuperResolution.ScaleCheckedBeforeAlgo | SuperRes.cpp:28-56 | an unknown name with a bad factor is reported as a bad factor |
| SuperResolution.AcceptedChoicesAreDocumented | SuperRes.cpp:28-52 | every accepted choice names a model file `SuperRes.h` documents, except LapSRN x6 |
| SuperResolution.DocumentedModelsAreAccepted | SuperRes.h:66-70 | every documented model file is reached by some accepted choice |
| SuperResolution.FsrcnnSmallPath | SuperRes.cpp:40-44 | the small FSRCNN model at factor 2 is FSRCNN/FSRCNN-small_x2.pb |
| SuperResolution.ModelFileDeterminesScale | SuperRes.cpp:32-52 | within one family, the model path determines the factor |
| SuperResolution.ChoiceEnablesInference | SuperRes.cpp:57-72 | after a successful choice inference runs; a fresh engine refuses it |
| SuperResolution.FolderChangeKeepsChoice | SuperRes.cpp:17-24 | changing the folder keeps the stored choice and every other field |
| FramePipeline.Start | MovieUpscaler.cpp:76-84 | after setup the pipeline has the given N instances, every slot is vacant in ascending order, no buffer is filled, and nothing is pending, read or written |
| FramePipeline.ProducerStep | MovieUpscaler.cpp:104-135 | a producer iteration logs its index; on a failed read or a stop request it pushes the end marker and leaves the loop; with room it schedules the frame on the front vacant slot; without room it blocks and the frame is dropped; each case states the whole resulting state, so the instance count never changes and the frame index moves only when a frame is scheduled |
| FramePipeline.WakeStep | MovieUpscaler.cpp:128-134 | the overflow wait returns only once there is room, and the loop moves to the next index |
| FramePipeline.FindRunning | MovieUpscaler.cpp:121-125 | the search returns the first unfinished task on the slot: what it finds is such a task, and no such task lies before it, so a running task on the slot is always found |
| FramePipeline.CompleteUnit | MovieUpscaler.cpp:121-125 | the first running task on the slot marks itself done and writes its frame into its slot's buffer; every other field of the state is unchanged; a slot without a running task changes nothing |
| FramePipeline.ConsumerStep | MovieUpscaler.cpp:156-180 | the consumer waits on an empty queue or an unfinished head; a finished head's buffer is written, its slot pushed to the back of the vacant queue and the head popped, and nothing else changes (the producer's phase, frame index and callback log included); the end marker is popped and ends the loop |
| FramePipeline.Capacity | MovieUpscaler.cpp:117 | the producer's room test (also the overflow wait's predicate at line 132) never holds with zero instances |
| FramePipeline.CapacityWhileProducing | MovieUpscaler.cpp:117 | in any reachable state before the end marker, the vacant-queue half of the room test follows from the queue-length half: there is room exactly when fewer than N tasks are pending |
| FramePipeline.Conservation | MovieUpscaler.h:150-151 | vacant slots plus slots of pending tasks are exactly the N slots, none twice, and at most N tasks and the marker are pending |
| FramePipeline.PendingSlotsDistinct | MovieUpscaler.cpp:119-120 | no two pending tasks share a slot, so no two tasks write the same buffer |
| FramePipeline.PendingSlotNotVacant | MovieUpscaler.cpp:119-120 | a pending task's slot is a real slot and is not in the vacant queue |
| FramePipeline.StartKeepsInv | MovieUpscaler.cpp:76-84 | the state after setup satisfies the invariant |
| FramePipeline.ProducerKeepsInv | MovieUpscaler.cpp:104-135 | a producer iteration preserves the invariant |
| FramePipeline.ProducerScheduleKeepsInv | MovieUpscaler.cpp:117-127 | scheduling on the front vacant slot preserves the invariant |
| FramePipeline.ProducerEndKeepsInv | MovieUpscaler.cpp:112-116 | pushing the end marker preserves the invariant |
| FramePipeline.WakeKeepsInv | MovieUpscaler.cpp:128-134 | waking preserves the invariant |
| FramePipeline.CompleteKeepsInv | MovieUpscaler.cpp:121-125 | a finishing task preserves the invariant |
| FramePipeline.ConsumerKeepsInv | MovieUpscaler.cpp:156-180 | a consumer iteration preserves the invariant, and a finished head always has its buffer filled |
| FramePipeline.ConsumerWriteKeepsInv | MovieUpscaler.cpp:167-171 | writing the head's buffer and returning its slot preserves the invariant |
| FramePipeline.ConsumerEndKeepsInv | MovieUpscaler.cpp:172-175 | taking the end marker leaves an empty queue and preserves the invariant |
| FramePipeline.StepKeepsInv | MovieUpscaler.cpp:102-139 | every step of either loop preserves the invariant |
| FramePipeline.Run | MovieUpscaler.cpp:102-139 | after any interleaving the invariant holds, the written frames are a prefix of the submitted ones, both logs only grow, and when the consumer has stopped every submitted frame has been written |
| PipelineRuns.OutputInReadOrder | MovieUpscaler.cpp:166-171 | frames are written in the order they were read, each at most once, and the producer reached the index of each (reporting it to the callback, when there is one) |
| PipelineRuns.DroppedFrameNeverWritten | MovieUpscaler.cpp:128-134 | the frame read while the queue was full is logged as reached (and reported to the callback, when there is one) but is never upscaled or written, whatever happens next |
| PipelineRuns.NoInstancesNoFrames | MovieUpscaler.cpp:117-134 | with zero instances no frame is ever scheduled, and a blocked producer stays blocked |
| PipelineRuns.FinishedProducerIsSilent | MovieUpscaler.cpp:111-116 | after the end marker the producer reads, reports and submits nothing more, and the pending queue only shrinks |
| PipelineRuns.DrainReachesEnd | MovieUpscaler.cpp:156-180 | once the producer has finished, completing and consuming the pending entries front to back stops the consumer with every submitted frame written |
| PipelineRuns.DrainHead | MovieUpscaler.cpp:166-178 | finishing and consuming the head task leaves the rest of the queue as it was |
| PipelineRuns.RunAppend | MovieUpscaler.cpp:102-139 | running two event sequences one after the other is running their concatenation |
| PipelineExample.OneInstanceDropsFrame | MovieUpscaler.cpp:117-134 | with one instance, reading three frames with the second one arriving while the first is upscaled reports indices 0 to 3 but writes frames 0 and 2 |
| Upscaler.Construct | MovieUpscaler.cpp:7-11 | the constructor stores its four arguments, keeps the default of 8 instances, and starts with empty queues |
| Upscaler.ConfigureEngine | MovieUpscaler.cpp:86-92 | an engine is ready exactly when the models path passes `pathExists`, the factor is 2, 3 or 4, and the ESPCN model for that factor loads; the folder error comes first |
| Upscaler.ConfigureEngines | MovieUpscaler.cpp:86-92 | the engine loop yields N identically configured engines, or the first engine's exception; with N = 0 it does nothing |
| Upscaler.StartRun | MovieUpscaler.cpp:63-100 | the setup succeeds exactly when the upscaler is initialized, the input opens, the engines configure or there are none, fewer than 65536 instances are set, and the output opens; the uninitialized and unreadable-input errors come first; success hands over the pipeline's initial state and N ready engines |
| Upscaler.SetUpQueues | MovieUpscaler.cpp:76-84 | clearing both queues and pushing the slot ids 0..N-1 yields the pipeline's initial state, whatever the queues held |
| Upscaler.ClearQueue | MovieUpscaler.h:137-141 | a cleared queue holds no element |
| Upscaler.LeftoverQueuesCleared | MovieUpscaler.cpp:76-77 | whatever an earlier run left in the two queues, a new run starts from the same state, because both queues are cleared before the slot ids are pushed |
| Upscaler.CheckInitialized | MovieUpscaler.cpp:142-145 | the initialization check accepts exactly the settings the command line's final test accepts, whatever the instance count |
| Upscaler.UnsetUpscalerRejected | MovieUpscaler.cpp:142-145 | a default-constructed upscaler fails the initialization check and `run` throws before opening anything |
| Upscaler.ConstructedInitialized | MovieUpscaler.cpp:142-145 | a constructed upscaler passes the check exactly when its names and models path are non-empty and the factor is non-zero |
| Upscaler.FactorMustSuitMovieAlgo | MovieUpscaler.cpp:86-92 | with at least one instance, a models path failing `pathExists` or a factor outside {2,3,4} makes `run` throw the first engine's exception |
| Upscaler.NoInstancesSkipModels | MovieUpscaler.cpp:86-92 | with zero instances the models folder and files are never looked at |
| Upscaler.StartedRunIsReady | MovieUpscaler.cpp:76-100 | a started run begins in a state of the pipeline invariant, and every engine runs inference |
| Upscaler.TooManyInstancesNeverReturn | MovieUpscaler.cpp:88 | with 65536 or more instances the `unsigned short` loop counter wraps and the setup never finishes |

## Left out

- Video I/O through OpenCV (`VideoCapture`, `VideoWriter`, codec, frame size, fps) and `GetVideoInformations`. Opening a file is an oracle; reading and writing frames are abstracted to frame indices.
- The DNN library: `readModel` is the oracle `modelLoads`, `upsample` is an opaque function, and `setModel`/`setPreferableTarget` are not modelled.
- `pathExists` is the oracle of the same name: `stat` succeeds and the `S_IFDIR` bit of `st_mode` is set (`SuperRes.cpp:84-99`). That bit is also set for block devices and sockets, so such a path is accepted as a models folder too.
- A failing inference: an exception from `upRes` inside the `std::async` task is rethrown by `get()` on the consumer thread (`MovieUpscaler.cpp:169`), nothing catches it, and the program terminates. In the model, `FramePipeline.CompleteUnit` always succeeds and `upsample` is a total function.
- Threads, `std::async` futures, mutexes and condition variables. Each loop iteration is one atomic step. The unsynchronised queue accesses (`MovieUpscaler.cpp:114-127` against `MovieUpscaler.cpp:161-177`) are not modelled as data races.
- FramePipeline.ConsumerStep: a consumer step on an empty queue or an unfinished head returns the state unchanged. This stands for the blocking wait and `future::get`.
- FramePipeline.WakeStep: a wake without room returns the state unchanged. A wake happens only after a consumer notification, which the model does not track.
- The `std::vector<SuperRes>` and `std::vector<cv::Mat>` allocations, and running out of memory for a large instance count.
- PipelineRuns.DrainReachesEnd: holds only for atomic steps in which the consumer re-checks the queue. In the source, the end-marker push (`MovieUpscaler.cpp:114`) takes no lock and does not call `notify_one` on `_conditionVariableQueueEmpty`. A consumer already blocked at `MovieUpscaler.cpp:164` on an empty queue is then never woken, and `run` blocks in `join` (`MovieUpscaler.cpp:137`). This can happen with an empty video, or with one instance at the end of the stream. The model does not track which waits have been notified, so it cannot show this hang.
- `run`'s optional progress callback (`MovieUpscaler.h:105`, `MovieUpscaler.cpp:106-110`): the model does not distinguish a missing callback. With none, every `Produce` event has `callbackOk = true`, and `callbacks` records the indices the loop reached rather than calls made.
- Upscaler.StartRun: stops at the start of the two loops. The loops themselves are `FramePipeline.Run`. `consumerSuperresFuturesThread.join()` and releasing the video handles are not modelled.
- Upscaler.TooManyInstancesNeverReturn: the engine loop that never ends is reported as the result `NeverReturns`, not modelled as divergence.
- The getters and setters of `MovieUpscaler`, `SuperRes` and `Config`; they only read or write a field.
- `Config::showHelp`, which only prints usage text.
- `main.cpp`, which constructs one upscaler with fixed arguments and prints the progress.
- The `SuperRes` constructor taking a folder, an `Algo` and a factor. It is declared in `SuperRes.h`, but `SuperRes.cpp` does not define it.
- `cv::utils::logging::setLogLevel`, which only silences logging.
- SuperResolution.SetAlgoAndScale: `m_sr.setModel` lies outside the repository. Any failure it may report is folded into the single `modelLoads` oracle.
- The `unsigned long long` frame counter of the producer loop is an unbounded `nat`. It cannot wrap in practice.
