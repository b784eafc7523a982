/** What happens when "Predict Pain Score" is pressed: choose demo or trained
    mode, fall back to the heuristic when the trained path raises, and turn the
    score into a pain-level label. */
module Orchestration {
  import opened Records
  import opened Timepoints
  import opened FeatureCatalog
  import opened ModelPredictor
  import opened DemoPredictor

  /** The four artifact paths whose presence `check_models_exist` tests. */
  const ArtifactFiles: seq<string> := [
    ModelsDir + "/" + "t3_model.joblib",
    ModelsDir + "/" + "t3_preprocessor.joblib",
    ModelsDir + "/" + "t5_model.joblib",
    ModelsDir + "/" + "t5_preprocessor.joblib"
  ]

  /** `check_models_exist`: every artifact file is present. The four paths are
      exactly the model and preprocessor paths the trained path opens for the
      two timepoints, so a positive check means either timepoint finds its
      files. */
  predicate ModelsExist(files: set<string>): (b: bool)
    ensures b <==> forall tp: Timepoint :: ModelPath(tp) in files && PreprocessorPath(tp) in files
  {
    assert "t3" + "_model.joblib" == "t3_model.joblib" && "t5" + "_model.joblib" == "t5_model.joblib";
    assert "t3" + "_preprocessor.joblib" == "t3_preprocessor.joblib";
    assert "t5" + "_preprocessor.joblib" == "t5_preprocessor.joblib";
    assert ArtifactFiles == [ModelPath(T3), PreprocessorPath(T3), ModelPath(T5), PreprocessorPath(T5)];
    forall p :: p in ArtifactFiles ==> p in files
  }

  /** Demo mode is chosen once at startup: no models directory, or any of the
      four artifact files missing. */
  function UseDemoMode(dirExists: bool, files: set<string>): (demo: bool)
    ensures !demo <==> dirExists && forall p :: p in ArtifactFiles ==> p in files
  {
    if !dirExists then true else !ModelsExist(files)
  }

  /** Where a displayed score came from. A fallback carries the error the
      trained path raised, which the page shows as a warning. */
  datatype Source = Trained | Demo(fallbackReason: Option<Error>)

  datatype Prediction = Prediction(score: real, source: Source)

  /** The button handler: in demo mode use the heuristic; otherwise try the
      trained model and, on any error it raises, use the heuristic instead. An
      `Err` is what the outer handler reports as "Error making prediction". */
  function Predict(useDemo: bool, record: Record, timepoint: string, art: Artifacts): (r: Result<Prediction>)
    ensures r.Ok? ==> MinScore <= r.value.score <= MaxScore
    ensures r.Ok? && r.value.source == Trained <==> !useDemo && ModelPredict(record, timepoint, art).Ok?
    ensures r.Ok? && r.value.source == Trained ==> Ok(r.value.score) == ModelPredict(record, timepoint, art)
    ensures r.Ok? && r.value.source.Demo? ==> Ok(r.value.score) == DemoPredict(record, timepoint)
    ensures r.Ok? && r.value.source.Demo? ==> (r.value.source.fallbackReason.Some? <==> !useDemo)
    ensures r.Ok? && r.value.source.Demo? && !useDemo ==>
              r.value.source.fallbackReason == Some(ModelPredict(record, timepoint, art).error)
    ensures r.Err? <==> (useDemo || ModelPredict(record, timepoint, art).Err?) && DemoPredict(record, timepoint).Err?
    ensures r.Err? ==> r.error.NotANumber?
  {
    if useDemo then
      var score :- DemoPredict(record, timepoint);
      Ok(Prediction(score, Demo(None)))
    else
      match ModelPredict(record, timepoint, art)
      case Ok(score) => Ok(Prediction(score, Trained))
      case Err(e) =>
        var score :- DemoPredict(record, timepoint);
        Ok(Prediction(score, Demo(Some(e))))
  }

  /** A trained model or preprocessor that raises, once the checks before it
      pass, sends the request to the heuristic, and the page is told why. */
  lemma RaisingModelFallsBack(record: Record, tp: Timepoint, art: Artifacts)
    requires LoadModels(tp, art).Ok?
    requires forall f :: f in Required(tp) ==> f in record
    requires art.raw(tp, CoerceHeadSize(record, art.render)) == None
    ensures DemoPredict(record, Code(tp)).Ok? ==>
              Predict(false, record, Code(tp), art)
              == Ok(Prediction(DemoPredict(record, Code(tp)).value, Demo(Some(PredictionFailed))))
    ensures DemoPredict(record, Code(tp)).Err? ==>
              Predict(false, record, Code(tp), art) == Err(DemoPredict(record, Code(tp)).error)
  {
    ModelPredictRaises(record, tp, art);
  }

  /** In demo mode the artifacts are never consulted. */
  lemma DemoModeIgnoresArtifacts(record: Record, timepoint: string, a1: Artifacts, a2: Artifacts)
    ensures Predict(true, record, timepoint, a1) == Predict(true, record, timepoint, a2)
  {
  }

  /** The pain level shown with the score. */
  datatype Level = Minimal | Mild | Moderate | Severe

  /** The thresholds of the label: at most 2 minimal, at most 4 mild, at most 6
      moderate, above 6 severe. */
  function Interpret(score: real): (level: Level)
    ensures level == Minimal <==> score <= 2.0
    ensures level == Mild <==> 2.0 < score <= 4.0
    ensures level == Moderate <==> 4.0 < score <= 6.0
    ensures level == Severe <==> 6.0 < score
  {
    if score <= 2.0 then Minimal
    else if score <= 4.0 then Mild
    else if score <= 6.0 then Moderate
    else Severe
  }

  /** The order of the labels, mildest first. */
  function Rank(level: Level): nat
  {
    match level
    case Minimal => 0
    case Mild => 1
    case Moderate => 2
    case Severe => 3
  }

  /** The word the page prints for a level. */
  function LevelName(level: Level): string
  {
    match level
    case Minimal => "minimal"
    case Mild => "mild"
    case Moderate => "moderate"
    case Severe => "severe"
  }

  /** The heading colour the page uses for a level. */
  function LevelColour(level: Level): string
  {
    match level
    case Minimal => "green"
    case Mild => "blue"
    case Moderate => "orange"
    case Severe => "red"
  }

  /** A higher score never receives a milder label. */
  lemma InterpretMonotone(s: real, t: real)
    requires s <= t
    ensures Rank(Interpret(s)) <= Rank(Interpret(t))
  {
  }
}
