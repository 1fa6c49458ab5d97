/** The movie upscaler object and the setup part of `run`: the
    initialization check, opening the input, configuring one
    super-resolution engine per instance with the movie algorithm (ESPCN)
    and the upscale factor, and opening the output. Whether a video file
    opens, whether a path passes `pathExists` and whether a model file
    loads are oracles. A successful setup hands over to the frame pipeline. */
module Upscaler {
  import opened Basics
  import opened SuperResolution
  import FramePipeline
  import CommandLine

  /** The upscaler object. It keeps the two queues of the pipeline between
      runs, so whatever a previous run left in them is still there when
      `run` is called again. */
  datatype MovieUpscaler = MovieUpscaler(
    inputVideoFilename: string,
    outputVideoFilename: string,
    upscaleFactor: UShort,
    modelsPath: string,
    superresInstancesNumber: nat,
    vacantIds: seq<nat>,
    waitingTasks: seq<FramePipeline.Entry>)

  /** Eight simultaneous inference instances unless set otherwise. */
  const DefaultInstances: nat := 8

  /** The algorithm `run` configures every engine with. */
  const MovieAlgo: string := "espcn"

  /** The default-constructed upscaler: no files, no factor, no models. */
  const Unset: MovieUpscaler := MovieUpscaler("", "", 0, "", DefaultInstances, [], [])

  /** The four-argument constructor; the instance count keeps its default. */
  function Construct(input: string, output: string, factor: UShort, models: string): (u: MovieUpscaler)
    ensures u.inputVideoFilename == input && u.outputVideoFilename == output
    ensures u.upscaleFactor == factor && u.modelsPath == models
    ensures u.superresInstancesNumber == DefaultInstances
    ensures u.vacantIds == [] && u.waitingTasks == []
  {
    MovieUpscaler(input, output, factor, models, DefaultInstances, [], [])
  }

  /** `checkInitialized`: both file names, a non-zero factor and a models
      path are set. */
  function CheckInitialized(u: MovieUpscaler): (ok: bool)
    ensures ok <==> CommandLine.IsValid(CommandLine.Config(u.inputVideoFilename, u.outputVideoFilename,
                                                           u.upscaleFactor, 0, u.modelsPath))
  {
    u.inputVideoFilename != "" && u.outputVideoFilename != "" && u.upscaleFactor != 0 && u.modelsPath != ""
  }

  /** Why `run` did not reach the frame loop: a `std::invalid_argument` it
      throws itself, an exception of an engine's configuration, or the
      engine loop never ending. */
  datatype RunError =
    | Rejected(message: string)
    | EngineError(error: SrError)
    | NeverReturns

  const UninitializedMessage: string :=
    "Uninitialized MovieUpscaler: input video, outpyt video, upscale factor and models path must be set"

  /** One engine as `run` configures it: the models folder, then the movie
      algorithm with the upscaler's factor. */
  function ConfigureEngine(models: string, factor: UShort, pathExists: string -> bool,
                           modelLoads: string -> bool): (r: Result<SuperRes, SrError>)
    ensures r.Ok? <==> (pathExists(models) && factor in {2, 3, 4}
                        && modelLoads(models + "/" + ModelFile(Family(MovieAlgo).value, factor)))
    ensures !pathExists(models) ==> r == Err(InvalidArgument("cannot access " + models))
    ensures pathExists(models) && factor !in {2, 3, 4} ==> r == Err(InvalidArgument("undefined scale"))
    ensures r.Ok? ==> r.value.parametersSet && r.value.scale == factor && r.value.algo == MovieAlgo
                      && r.value.folderPath == models
                      && r.value.modelPath == models + "/" + ModelFile(Family(MovieAlgo).value, factor)
  {
    match SetFolderPath(Fresh, models, pathExists)
    case Thrown(_, e) => Err(e)
    case Stored(sr) =>
      match SetAlgoAndScale(sr, MovieAlgo, factor, modelLoads)
      case Thrown(_, e) => Err(e)
      case Stored(ready) => Ok(ready)
  }

  /** The engine loop of `run`: every one of the n engines is configured
      the same way, so either all succeed or the first one throws. */
  function ConfigureEngines(n: nat, models: string, factor: UShort, pathExists: string -> bool,
                            modelLoads: string -> bool): (r: Result<seq<SuperRes>, SrError>)
    ensures n == 0 ==> r == Ok([])
    ensures n > 0 ==> (r.Err? <==> ConfigureEngine(models, factor, pathExists, modelLoads).Err?)
    ensures r.Err? ==> r.error == ConfigureEngine(models, factor, pathExists, modelLoads).error
    ensures r.Ok? ==> |r.value| == n
    ensures r.Ok? ==> forall i | 0 <= i < |r.value| ::
                        r.value[i] == ConfigureEngine(models, factor, pathExists, modelLoads).value
  {
    if n == 0 then Ok([])
    else
      match ConfigureEngines(n - 1, models, factor, pathExists, modelLoads)
      case Err(e) => Err(e)
      case Ok(engines) =>
        match ConfigureEngine(models, factor, pathExists, modelLoads)
        case Err(e) => Err(e)
        case Ok(sr) => Ok(engines + [sr])
  }

  /** What the setup of `run` hands to the frame loop: the engines and the
      pipeline with every slot vacant. */
  datatype Running = Running(engines: seq<SuperRes>, pipeline: FramePipeline.State)

  /** `ClearQueue`: the queue is replaced by an empty one. */
  function ClearQueue<T>(q: seq<T>): (r: seq<T>)
    ensures |r| == 0
  {
    []
  }

  /** The pipeline `run` builds: both queues cleared, then every slot id
      pushed in ascending order. */
  function SetUpQueues(u: MovieUpscaler): (r: FramePipeline.State)
    ensures r == FramePipeline.Start(u.superresInstancesNumber)
  {
    var vacant := ClearQueue(u.vacantIds);
    var waiting := ClearQueue(u.waitingTasks);
    var start := FramePipeline.Start(u.superresInstancesNumber);
    start.(vacant := vacant + start.vacant, pending := waiting)
  }

  /** The setup of `run`, up to the start of the two loops. The engine loop
      counts with an `unsigned short`, so with 65536 instances or more the
      counter wraps before reaching the bound and the loop never ends once
      the first engine is configured. */
  function StartRun(u: MovieUpscaler, canRead: string -> bool, canWrite: string -> bool,
                    pathExists: string -> bool, modelLoads: string -> bool): (r: Result<Running, RunError>)
    ensures !CheckInitialized(u) ==> r == Err(Rejected(UninitializedMessage))
    ensures CheckInitialized(u) && !canRead(u.inputVideoFilename) ==>
              r == Err(Rejected("Could not open input video file: " + u.inputVideoFilename))
    ensures r.Ok? <==>
              && CheckInitialized(u) && canRead(u.inputVideoFilename)
              && (u.superresInstancesNumber == 0
                  || ConfigureEngine(u.modelsPath, u.upscaleFactor, pathExists, modelLoads).Ok?)
              && u.superresInstancesNumber < 0x1_0000
              && canWrite(u.outputVideoFilename)
    ensures r.Ok? ==> r.value.pipeline == FramePipeline.Start(u.superresInstancesNumber)
    ensures r.Ok? ==> |r.value.engines| == u.superresInstancesNumber
    ensures r.Ok? ==> forall i | 0 <= i < |r.value.engines| :: r.value.engines[i].parametersSet
  {
    var n := u.superresInstancesNumber;
    if !CheckInitialized(u) then Err(Rejected(UninitializedMessage))
    else if !canRead(u.inputVideoFilename) then
      Err(Rejected("Could not open input video file: " + u.inputVideoFilename))
    else
      match ConfigureEngines(n, u.modelsPath, u.upscaleFactor, pathExists, modelLoads)
      case Err(e) => Err(EngineError(e))
      case Ok(engines) =>
        if n >= 0x1_0000 then Err(NeverReturns)
        else if !canWrite(u.outputVideoFilename) then
          Err(Rejected("Could not open output video file: " + u.outputVideoFilename))
        else Ok(Running(engines, SetUpQueues(u)))
  }

  /** The initialization check holds exactly when every field it tests is
      set; the default-constructed upscaler fails it, so its `run` throws
      before opening anything. */
  lemma UnsetUpscalerRejected(canRead: string -> bool, canWrite: string -> bool,
                              pathExists: string -> bool, modelLoads: string -> bool)
    ensures !CheckInitialized(Unset)
    ensures StartRun(Unset, canRead, canWrite, pathExists, modelLoads) == Err(Rejected(UninitializedMessage))
  {
  }

  /** The constructor's upscaler passes the check exactly when its
      arguments are non-empty and the factor is non-zero. */
  lemma ConstructedInitialized(input: string, output: string, factor: UShort, models: string)
    ensures CheckInitialized(Construct(input, output, factor, models)) <==>
              input != [] && output != [] && factor > 0 && models != []
  {
  }

  /** A factor the movie algorithm has no model for is refused by the first
      engine, although the initialization check accepts it; with a folder
      that fails `pathExists`, the folder is refused first. */
  lemma FactorMustSuitMovieAlgo(u: MovieUpscaler, canRead: string -> bool, canWrite: string -> bool,
                                pathExists: string -> bool, modelLoads: string -> bool)
    requires CheckInitialized(u) && canRead(u.inputVideoFilename) && u.superresInstancesNumber > 0
    ensures !pathExists(u.modelsPath) ==>
              StartRun(u, canRead, canWrite, pathExists, modelLoads)
                == Err(EngineError(InvalidArgument("cannot access " + u.modelsPath)))
    ensures pathExists(u.modelsPath) && u.upscaleFactor !in {2, 3, 4} ==>
              StartRun(u, canRead, canWrite, pathExists, modelLoads)
                == Err(EngineError(InvalidArgument("undefined scale")))
  {
  }

  /** With no instances no engine is configured, so the models folder and
      the model files are never looked at. */
  lemma NoInstancesSkipModels(u: MovieUpscaler, canRead: string -> bool, canWrite: string -> bool,
                              pathExists: string -> bool, modelLoads: string -> bool,
                              pathExists2: string -> bool, modelLoads2: string -> bool)
    requires u.superresInstancesNumber == 0
    ensures StartRun(u, canRead, canWrite, pathExists, modelLoads)
              == StartRun(u, canRead, canWrite, pathExists2, modelLoads2)
  {
  }

  /** A started run begins in a state of the pipeline's invariant, and every
      engine it hands over runs inference on the model file for the
      upscaler's factor. */
  lemma StartedRunIsReady<F>(u: MovieUpscaler, canRead: string -> bool, canWrite: string -> bool,
                             pathExists: string -> bool, modelLoads: string -> bool, frame: F, upsample: F -> F)
    requires StartRun(u, canRead, canWrite, pathExists, modelLoads).Ok?
    ensures FramePipeline.Inv(StartRun(u, canRead, canWrite, pathExists, modelLoads).value.pipeline)
    ensures forall i | 0 <= i < u.superresInstancesNumber ::
              UpRes(StartRun(u, canRead, canWrite, pathExists, modelLoads).value.engines[i], frame, upsample)
                == Ok(upsample(frame))
  {
    FramePipeline.StartKeepsInv(u.superresInstancesNumber);
  }

  /** The queues are cleared before the slots are pushed, so what a
      previous run left in them does not reach the new run. */
  lemma LeftoverQueuesCleared(u: MovieUpscaler, vacant: seq<nat>, waiting: seq<FramePipeline.Entry>,
                              canRead: string -> bool, canWrite: string -> bool,
                              pathExists: string -> bool, modelLoads: string -> bool)
    ensures StartRun(u.(vacantIds := vacant, waitingTasks := waiting), canRead, canWrite, pathExists, modelLoads)
         == StartRun(u, canRead, canWrite, pathExists, modelLoads)
  {
    var u' := u.(vacantIds := vacant, waitingTasks := waiting);
    assert SetUpQueues(u') == SetUpQueues(u);
  }

  /** Set to 65536 instances or more, `run` cannot finish its setup. */
  lemma TooManyInstancesNeverReturn(u: MovieUpscaler, canRead: string -> bool, canWrite: string -> bool,
                                    pathExists: string -> bool, modelLoads: string -> bool)
    requires CheckInitialized(u) && canRead(u.inputVideoFilename)
    requires ConfigureEngine(u.modelsPath, u.upscaleFactor, pathExists, modelLoads).Ok?
    requires u.superresInstancesNumber >= 0x1_0000
    ensures StartRun(u, canRead, canWrite, pathExists, modelLoads) == Err(NeverReturns)
  {
  }
}
