/** The trained-model path: validate the timepoint, load the artifact pair,
    check the required features, run the preprocessor and the model, clip. */
module ModelPredictor {
  import opened Records
  import opened Timepoints
  import opened FeatureCatalog

  /** The directory the artifact files are read from. */
  const ModelsDir: string := "streamlit_models"

  /** An artifact file of a timepoint: the lower-cased code followed by the
      file's suffix, in the models directory. */
  function ArtifactPath(tp: Timepoint, suffix: string): (p: string)
    ensures p == ModelsDir + "/" + ((if tp == T3 then "t3" else "t5") + suffix)
  {
    LowerCode(tp);
    assert ModelsDir + "/" + Lower(Code(tp)) + suffix == ModelsDir + "/" + (Lower(Code(tp)) + suffix);
    ModelsDir + "/" + Lower(Code(tp)) + suffix
  }

  /** The model file of a timepoint. */
  function ModelPath(tp: Timepoint): string
  {
    ArtifactPath(tp, "_model.joblib")
  }

  /** The preprocessor file of a timepoint. */
  function PreprocessorPath(tp: Timepoint): string
  {
    ArtifactPath(tp, "_preprocessor.joblib")
  }

  /** What the trained path depends on but cannot inspect.
      `files`  — the paths that exist on disk;
      `loads`  — whether deserialising both of a timepoint's files succeeds;
      `render` — the text a numeric cell becomes under the column's string cast;
      `raw`    — the preprocessor's transform followed by the model's first
                 prediction, or None when either of them raises. */
  datatype Artifacts = Artifacts(
    files: set<string>,
    loads: Timepoint -> bool,
    render: real -> string,
    raw: (Timepoint, Record) -> Option<real>)

  /** Loading a timepoint's artifacts: both files must exist, then both must deserialise. */
  function LoadModels(tp: Timepoint, art: Artifacts): (r: Result<()>)
    ensures r.Ok? <==> ModelPath(tp) in art.files && PreprocessorPath(tp) in art.files && art.loads(tp)
    ensures r.Err? ==> r.error == ArtifactsMissing || r.error == LoadFailed
    ensures !(ModelPath(tp) in art.files && PreprocessorPath(tp) in art.files) ==> r == Err(ArtifactsMissing)
    ensures ModelPath(tp) in art.files && PreprocessorPath(tp) in art.files && !art.loads(tp) ==> r == Err(LoadFailed)
  {
    if !(ModelPath(tp) in art.files && PreprocessorPath(tp) in art.files) then Err(ArtifactsMissing)
    else if !art.loads(tp) then Err(LoadFailed)
    else Ok(())
  }

  /** The implant head size becomes text before preprocessing, because the model
      was trained on it as a category. */
  function AsText(v: Value, render: real -> string): Value
  {
    match v
    case Num(x) => Text(render(x))
    case Text(_) => v
  }

  /** The column cast applied to the one-row frame built from the record. */
  function CoerceHeadSize(record: Record, render: real -> string): (r: Record)
    ensures r.Keys == record.Keys
    ensures forall k :: k in record && k != "HeadSize" ==> r[k] == record[k]
    ensures "HeadSize" in record ==> r["HeadSize"].Text?
    ensures "HeadSize" in record && record["HeadSize"].Text? ==> r["HeadSize"] == record["HeadSize"]
    ensures "HeadSize" in record && record["HeadSize"].Num? ==> r["HeadSize"] == Text(render(record["HeadSize"].x))
  {
    if "HeadSize" in record then record["HeadSize" := AsText(record["HeadSize"], render)] else record
  }

  /** `predict_with_model`, with every exception it can raise as an `Err`. A
      score comes only from a model output; a preprocessor or model that raises
      makes the call fail with PredictionFailed. */
  function ModelPredict(record: Record, timepoint: string, art: Artifacts): (r: Result<real>)
    ensures r.Ok? ==> MinScore <= r.value <= MaxScore
    ensures r == Err(InvalidTimepoint) <==> ParseTimepoint(timepoint).Err?
    ensures r.Err? ==> !r.error.NotANumber?
    ensures r.Ok? ==> ParseTimepoint(timepoint).Ok?
                      && LoadModels(ParseTimepoint(timepoint).value, art).Ok?
                      && (forall f :: f in Required(ParseTimepoint(timepoint).value) ==> f in record)
                      && art.raw(ParseTimepoint(timepoint).value, CoerceHeadSize(record, art.render)).Some?
    ensures r == Err(PredictionFailed) <==>
              && ParseTimepoint(timepoint).Ok?
              && LoadModels(ParseTimepoint(timepoint).value, art).Ok?
              && (forall f :: f in Required(ParseTimepoint(timepoint).value) ==> f in record)
              && art.raw(ParseTimepoint(timepoint).value, CoerceHeadSize(record, art.render)) == None
    ensures ParseTimepoint(timepoint).Ok? && LoadModels(ParseTimepoint(timepoint).value, art).Err? ==>
              r == Err(LoadModels(ParseTimepoint(timepoint).value, art).error)
    ensures r.Err? && r.error.MissingFeatures? ==>
              && ParseTimepoint(timepoint).Ok?
              && r.error.names != []
              && r.error.names == Missing(Required(ParseTimepoint(timepoint).value), record)
  {
    match ParseTimepoint(timepoint)
    case Err(e) => Err(e)
    case Ok(tp) =>
      match LoadModels(tp, art)
      case Err(e) => Err(e)
      case Ok(_) =>
        MissingEmptyIff(Required(tp), record);
        var missing := Missing(Required(tp), record);
        if missing != [] then Err(MissingFeatures(missing))
        else
          match art.raw(tp, CoerceHeadSize(record, art.render))
          case None => Err(PredictionFailed)
          case Some(x) => Ok(Clamp(x, MinScore, MaxScore))
  }

  /** The trained path does not distinguish the lower-case spelling of a
      timepoint from the canonical one. */
  lemma {:induction false} ModelPredictCaseInsensitive(record: Record, tp: Timepoint, art: Artifacts)
    ensures ModelPredict(record, Lower(Code(tp)), art) == ModelPredict(record, Code(tp), art)
  {
    LowerCode(tp);
  }

  /** Once the checks pass, a raw model output inside the score range comes
      back unchanged and one outside it is pulled to the nearest bound. */
  lemma ModelPredictClips(record: Record, tp: Timepoint, art: Artifacts, x: real)
    requires LoadModels(tp, art).Ok?
    requires forall f :: f in Required(tp) ==> f in record
    requires art.raw(tp, CoerceHeadSize(record, art.render)) == Some(x)
    ensures MinScore <= x <= MaxScore ==> ModelPredict(record, Code(tp), art) == Ok(x)
    ensures x < MinScore ==> ModelPredict(record, Code(tp), art) == Ok(MinScore)
    ensures MaxScore < x ==> ModelPredict(record, Code(tp), art) == Ok(MaxScore)
  {
    ParseCode(tp);
    MissingEmptyIff(Required(tp), record);
  }

  /** Once the checks pass, a preprocessor or model that raises makes the
      trained path fail; no score is made up for it. */
  lemma ModelPredictRaises(record: Record, tp: Timepoint, art: Artifacts)
    requires LoadModels(tp, art).Ok?
    requires forall f :: f in Required(tp) ==> f in record
    requires art.raw(tp, CoerceHeadSize(record, art.render)) == None
    ensures ModelPredict(record, Code(tp), art) == Err(PredictionFailed)
  {
    ParseCode(tp);
    MissingEmptyIff(Required(tp), record);
  }

  /** The artifact check comes before the feature check: with a file absent the
      error is ArtifactsMissing whatever the record lacks. */
  lemma ArtifactsCheckedBeforeFeatures(record: Record, tp: Timepoint, art: Artifacts)
    requires ModelPath(tp) !in art.files || PreprocessorPath(tp) !in art.files
    ensures ModelPredict(record, Code(tp), art) == Err(ArtifactsMissing)
  {
    ParseCode(tp);
  }

  /** Once the artifacts load, a missing-feature error comes exactly when some
      required name is absent, whatever else the record holds. */
  lemma MissingFeaturesExactly(record: Record, tp: Timepoint, art: Artifacts)
    requires LoadModels(tp, art).Ok?
    ensures ModelPredict(record, Code(tp), art).Err? && ModelPredict(record, Code(tp), art).error.MissingFeatures?
            <==> exists f :: f in Required(tp) && f !in record
  {
    ParseCode(tp);
    MissingEmptyIff(Required(tp), record);
  }
}
