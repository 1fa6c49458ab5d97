/** One super-resolution engine: the models folder, the choice of network
    and upscale factor, the model file that choice selects, and the flag
    that lets inference run. Loading the network file and running it are
    done by the DNN library, which is not part of this model: whether a
    model file loads is an oracle, and inference is an opaque function. */
module SuperResolution {
  import opened Basics
  import opened Decimal

  datatype SuperRes = SuperRes(
    folderPath: string,
    modelPath: string,
    algo: string,
    scale: UShort,
    parametersSet: bool)

  /** A default-constructed engine: nothing chosen, inference refused. */
  const Fresh: SuperRes := SuperRes("", "", "", 0, false)

  datatype SrError =
    | InvalidArgument(message: string)
    | LogicError(message: string)
    | ModelNotLoaded(path: string)

  /** The state of the engine after a call, and the exception the call
      threw, if any. */
  datatype Outcome = Stored(sr: SuperRes) | Thrown(sr: SuperRes, error: SrError)

  /** Where the model of each algorithm name lives: sub-directory, file
      name prefix, and the name handed on to the DNN library. */
  datatype ModelFamily = ModelFamily(dir: string, prefix: string, libraryName: string)

  function Family(algo: string): (r: Option<ModelFamily>)
    ensures r.Some? <==> algo in KnownAlgos
    ensures r.Some? ==> r.value.libraryName == if algo == "fsrcnn_small" then "fsrcnn" else algo
    ensures r.Some? && algo != "fsrcnn_small" ==> r.value.prefix == r.value.dir
    ensures algo == "fsrcnn_small" ==> r.value.dir == "FSRCNN" && r.value.prefix != r.value.dir
  {
    if algo == "edsr" then Some(ModelFamily("EDSR", "EDSR", "edsr"))
    else if algo == "fsrcnn" then Some(ModelFamily("FSRCNN", "FSRCNN", "fsrcnn"))
    else if algo == "fsrcnn_small" then Some(ModelFamily("FSRCNN", "FSRCNN-small", "fsrcnn"))
    else if algo == "lapsrn" then Some(ModelFamily("LapSRN", "LapSRN", "lapsrn"))
    else if algo == "espcn" then Some(ModelFamily("ESPCN", "ESPCN", "espcn"))
    else None
  }

  /** The algorithm names the engine knows. */
  const KnownAlgos: set<string> := {"edsr", "fsrcnn", "fsrcnn_small", "lapsrn", "espcn"}

  /** The upscale factors each algorithm has a model for, stated per family
      rather than by the code's rejection test. */
  function SupportedScales(algo: string): set<nat> {
    if algo == "lapsrn" then {2, 4, 6, 8} else {2, 3, 4}
  }

  /** The model file for a family and factor, relative to the models folder. */
  function ModelFile(f: ModelFamily, scale: nat): string {
    f.dir + "/" + f.prefix + "_x" + ToDecimal(scale) + ".pb"
  }

  /** The rejection test of `setAlgoAndScale`, as written: it refuses
      exactly the factors outside {2, 3, 4}, or outside {2, 4, 6, 8} for
      LapSRN. */
  function ScaleRejected(algo: string, scale: UShort): (rejected: bool)
    ensures rejected <==> scale !in SupportedScales(algo)
  {
    scale < 2 || (scale > 4 && algo != "lapsrn") || (algo == "lapsrn" && (scale > 8 || scale % 2 != 0))
  }

  /** `setFolderPath`: a path that fails `pathExists` is refused and the
      old folder kept. */
  function SetFolderPath(sr: SuperRes, path: string, pathExists: string -> bool): (r: Outcome)
    ensures r.Stored? <==> pathExists(path)
    ensures r.Stored? ==> r.sr == sr.(folderPath := path)
    ensures r.Thrown? ==> r.sr == sr && r.error == InvalidArgument("cannot access " + path)
  {
    if !pathExists(path) then Thrown(sr, InvalidArgument("cannot access " + path))
    else Stored(sr.(folderPath := path))
  }

  /** `setAlgoAndScale`: check the factor, then the name, build the model
      path, load the model; only a load that succeeds stores the choice
      and allows inference. */
  function SetAlgoAndScale(sr: SuperRes, algo: string, scale: UShort, modelLoads: string -> bool): (r: Outcome)
    ensures scale !in SupportedScales(algo) ==> r == Thrown(sr, InvalidArgument("undefined scale"))
    ensures scale in SupportedScales(algo) && algo !in KnownAlgos ==>
              r == Thrown(sr, InvalidArgument("undefined algo"))
    ensures r.Stored? <==> scale in SupportedScales(algo) && algo in KnownAlgos
                            && modelLoads(r.sr.modelPath)
    ensures r.Stored? ==>
              && r.sr.parametersSet
              && r.sr.scale == scale
              && r.sr.algo == (if algo == "fsrcnn_small" then "fsrcnn" else algo)
              && r.sr.folderPath == sr.folderPath
    ensures scale in SupportedScales(algo) && algo in KnownAlgos ==>
              r.sr.modelPath == sr.folderPath + "/" + ModelFile(Family(algo).value, scale)
    ensures r.Thrown? ==> r.sr == sr.(modelPath := r.sr.modelPath)
  {
    if ScaleRejected(algo, scale) then Thrown(sr, InvalidArgument("undefined scale"))
    else
      match Family(algo)
      case None => Thrown(sr, InvalidArgument("undefined algo"))
      case Some(f) =>
        var path := sr.folderPath + "/" + f.dir + "/" + f.prefix + "_x" + ToDecimal(scale) + ".pb";
        var withPath := sr.(modelPath := path);
        if !modelLoads(path) then Thrown(withPath, ModelNotLoaded(path))
        else Stored(withPath.(algo := f.libraryName, scale := scale, parametersSet := true))
  }

  /** `upRes`: inference is refused until an algorithm and factor have been
      stored; otherwise the frame goes through the network. */
  function UpRes<F>(sr: SuperRes, input: F, upsample: F -> F): (r: Result<F, SrError>)
    ensures r.Err? <==> !sr.parametersSet
    ensures r.Err? ==> r.error == LogicError("Need to define algo and scale")
    ensures r.Ok? ==> r.value == upsample(input)
  {
    if !sr.parametersSet then Err(LogicError("Need to define algo and scale"))
    else Ok(upsample(input))
  }

  /** The factor test runs before the name test: an unknown name with a bad
      factor is reported as a bad factor. */
  lemma ScaleCheckedBeforeAlgo(sr: SuperRes, algo: string, scale: UShort, modelLoads: string -> bool)
    requires algo !in KnownAlgos && scale !in {2, 3, 4}
    ensures SetAlgoAndScale(sr, algo, scale, modelLoads).error == InvalidArgument("undefined scale")
  {
  }

  /** A model file the header documents: its folder, the stem of its name
      and the factor in it, for `<dir>/<prefix>_x<factor>.pb`. */
  datatype DocumentedModel = DocumentedModel(dir: string, prefix: string, scale: nat)

  /** The model files the header documents for the models folder. */
  const DocumentedModels: set<DocumentedModel> := {
    DocumentedModel("EDSR", "EDSR", 2), DocumentedModel("EDSR", "EDSR", 3), DocumentedModel("EDSR", "EDSR", 4),
    DocumentedModel("ESPCN", "ESPCN", 2), DocumentedModel("ESPCN", "ESPCN", 3), DocumentedModel("ESPCN", "ESPCN", 4),
    DocumentedModel("FSRCNN", "FSRCNN", 2), DocumentedModel("FSRCNN", "FSRCNN", 3), DocumentedModel("FSRCNN", "FSRCNN", 4),
    DocumentedModel("FSRCNN", "FSRCNN-small", 2), DocumentedModel("FSRCNN", "FSRCNN-small", 3),
    DocumentedModel("FSRCNN", "FSRCNN-small", 4),
    DocumentedModel("LapSRN", "LapSRN", 2), DocumentedModel("LapSRN", "LapSRN", 4), DocumentedModel("LapSRN", "LapSRN", 8)
  }

  /** The documented file a choice of algorithm and factor would load. */
  function ChoiceModel(algo: string, scale: nat): DocumentedModel
    requires Family(algo).Some?
  {
    DocumentedModel(Family(algo).value.dir, Family(algo).value.prefix, scale)
  }

  /** Every accepted choice names a documented model file, except LapSRN
      with factor 6, which the code accepts although no such file is
      documented; and every documented file is reachable by an accepted
      choice. */
  lemma AcceptedChoicesAreDocumented(algo: string, scale: UShort)
    requires algo in KnownAlgos && scale in SupportedScales(algo)
    ensures ChoiceModel(algo, scale) in DocumentedModels <==> !(algo == "lapsrn" && scale == 6)
  {
  }

  lemma DocumentedModelsAreAccepted(d: DocumentedModel)
    requires d in DocumentedModels
    ensures exists algo | algo in KnownAlgos :: d.scale in SupportedScales(algo) && ChoiceModel(algo, d.scale) == d
  {
    var algo :=
      if d.dir == "EDSR" then "edsr"
      else if d.dir == "ESPCN" then "espcn"
      else if d.dir == "LapSRN" then "lapsrn"
      else if d.prefix == "FSRCNN" then "fsrcnn"
      else "fsrcnn_small";
    assert algo in KnownAlgos && d.scale in SupportedScales(algo) && ChoiceModel(algo, d.scale) == d;
  }

  /** For example the small FSRCNN model at factor 2. */
  lemma FsrcnnSmallPath()
    ensures ModelFile(Family("fsrcnn_small").value, 2) == "FSRCNN/FSRCNN-small_x2.pb"
  {
    var f := Family("fsrcnn_small").value;
    assert f == ModelFamily("FSRCNN", "FSRCNN-small", "fsrcnn");
    assert ToDecimal(2) == "2";
  }

  /** Within one family the model path determines the factor. */
  lemma ModelFileDeterminesScale(f: ModelFamily, m: nat, n: nat)
    requires ModelFile(f, m) == ModelFile(f, n)
    ensures m == n
  {
    var head := f.dir + "/" + f.prefix + "_x";
    var a := ToDecimal(m);
    var b := ToDecimal(n);
    assert ModelFile(f, m) == head + a + ".pb";
    assert ModelFile(f, n) == head + b + ".pb";
    assert |a| == |b|;
    assert a == (head + a + ".pb")[|head|..|head| + |a|];
    assert b == (head + b + ".pb")[|head|..|head| + |b|];
    ToDecimalInjective(m, n);
  }

  /** A successful choice enables inference; a fresh engine refuses it. */
  lemma ChoiceEnablesInference<F>(sr: SuperRes, algo: string, scale: UShort, modelLoads: string -> bool,
                                  input: F, upsample: F -> F)
    requires SetAlgoAndScale(sr, algo, scale, modelLoads).Stored?
    ensures UpRes(SetAlgoAndScale(sr, algo, scale, modelLoads).sr, input, upsample) == Ok(upsample(input))
    ensures UpRes(Fresh, input, upsample).Err?
  {
  }

  /** Changing the folder keeps the stored choice: an engine that could run
      inference still can. */
  lemma FolderChangeKeepsChoice(sr: SuperRes, path: string, pathExists: string -> bool)
    ensures SetFolderPath(sr, path, pathExists).sr.parametersSet == sr.parametersSet
    ensures SetFolderPath(sr, path, pathExists).sr.(folderPath := sr.folderPath) == sr
  {
  }
}
