/** The intake form: which timepoint the sidebar selects, which input widget
    each feature gets, and the loop that fills the patient dictionary. The
    widgets themselves are user input and appear only as the values they can
    return. */
module IntakeForm {
  import opened Records
  import opened Timepoints
  import opened FeatureCatalog
  import opened ModelPredictor
  import opened DemoPredictor
  import opened Orchestration

  /** The two choices of the sidebar radio button. */
  const RadioLabels: seq<string> := ["T3 (3 years)", "T5 (5 years)"]

  /** The timepoint code of a sidebar choice: everything before its first space. */
  function TimepointCode(choice: string): (code: string)
    ensures |code| <= |choice| && code == choice[..|code|]
    ensures ' ' !in code
    ensures |code| < |choice| ==> choice[|code|] == ' '
  {
    if choice == [] || choice[0] == ' ' then [] else [choice[0]] + TimepointCode(choice[1..])
  }

  /** The radio labels yield exactly the two canonical codes. */
  lemma RadioCodes()
    ensures TimepointCode(RadioLabels[0]) == Code(T3)
    ensures TimepointCode(RadioLabels[1]) == Code(T5)
  {
    CodeBeforeSpace("T3", " (3 years)");
    CodeBeforeSpace("T5", " (5 years)");
    assert RadioLabels[0] == "T3" + " (3 years)";
    assert RadioLabels[1] == "T5" + " (5 years)";
  }

  /** A code without spaces followed by a space-led tail is read back intact. */
  lemma {:induction false} CodeBeforeSpace(code: string, rest: string)
    requires ' ' !in code
    requires rest != [] && rest[0] == ' '
    ensures TimepointCode(code + rest) == code
  {
    if code != [] {
      assert (code + rest)[1..] == code[1..] + rest;
      CodeBeforeSpace(code[1..], rest);
    } else {
      assert code + rest == rest;
    }
  }

  /** The features the form asks for: an exact comparison with "T3", no
      upper-casing. For a canonical code this is the list the model requires;
      every other code, "t3" included, gets the five-year list. */
  function FormFeatures(code: string): (fs: seq<string>)
    ensures forall tp :: code == Code(tp) ==> fs == Required(tp)
    ensures code != "T3" ==> fs == Required(T5)
  {
    if code == "T3" then T3Features else T5Features
  }

  /** The input widget a feature gets, by the values it can return. */
  datatype Widget =
    | YesNo                      // a select box over 0 and 1
    | Choice(options: seq<string>) // a select box over text options
    | Slider(lo: int, hi: int)   // an integer slider, both ends included
    | NumberInput                // a free numeric field

  /** The widget of each feature. The inputs the heuristic multiplies get
      widgets that return numbers only, and the implant head size gets a
      select box that returns text only. */
  function WidgetFor(feature: string): (w: Widget)
    ensures feature in NumericInputs("T3") ==> forall v :: Admits(w, v) ==> v.Num?
    ensures feature == "HeadSize" ==> forall v :: Admits(w, v) ==> v.Text?
  {
    if feature == "MobilityAidWalker" then YesNo
    else if feature == "Approach" then Choice(["Posterior", "Anterior", "Lateral", "Other"])
    else if feature in ["WOMACP_5", "WOMACP_3", "ICOAPC_3", "ICOAPC_1"] then Slider(0, 4)
    else if feature == "ResultsRelief" then Slider(1, 5)
    else if feature == "WalkPain" || feature == "Pre-Op Pain" then Slider(0, 10)
    else if feature == "HeadSize" then Choice(["28", "32", "36", "40", "Other"])
    else NumberInput
  }

  /** The values a widget can hand back. */
  predicate Admits(w: Widget, v: Value)
  {
    match w
    case YesNo => v == Num(0.0) || v == Num(1.0)
    case Choice(options) => v.Text? && v.s in options
    case Slider(lo, hi) => v.Num? && v.x == v.x.Floor as real && lo as real <= v.x <= hi as real
    case NumberInput => v.Num?
  }

  /** The loop that builds the patient dictionary: one entry per listed
      feature, holding what the user entered in that feature's widget. */
  method CollectForm(features: seq<string>, answer: (string, Widget) -> Value) returns (record: Record)
    ensures record.Keys == set f | f in features
    ensures forall f :: f in record ==> record[f] == answer(f, WidgetFor(f))
  {
    record := map[];
    var i := 0;
    while i < |features|
      invariant 0 <= i <= |features|
      invariant record.Keys == set f | f in features[..i]
      invariant forall f :: f in record ==> record[f] == answer(f, WidgetFor(f))
    {
      var f := features[i];
      record := record[f := answer(f, WidgetFor(f))];
      assert features[..i + 1] == features[..i] + [f];
      i := i + 1;
    }
    assert features[..i] == features;
  }

  /** What a record built by the form for a sidebar code looks like. */
  predicate FromForm(record: Record, code: string)
  {
    && record.Keys == (set f | f in FormFeatures(code))
    && forall f :: f in record ==> Admits(WidgetFor(f), record[f])
  }

  /** The value a widget shows before the user touches it: the first option of
      a select box, the lower end of a slider, and 0.0 in a numeric field. */
  function InitialValue(w: Widget): Value
  {
    match w
    case YesNo => Num(0.0)
    case Choice(options) => if options == [] then Text("") else Text(options[0])
    case Slider(lo, _) => Num(lo as real)
    case NumberInput => Num(0.0)
  }

  /** Every widget of the form shows a value it admits before it is touched, so
      an untouched form is an admissible set of answers. */
  lemma InitialValuesAdmitted(f: string)
    ensures Admits(WidgetFor(f), InitialValue(WidgetFor(f)))
  {
  }

  /** The form section of the page: read the timepoint code off the sidebar
      choice, then fill the dictionary with the features of that code. Since
      each widget returns only values it admits, the result is a form record. */
  method FillPatientForm(choice: string, answer: (string, Widget) -> Value) returns (code: string, record: Record)
    requires forall f :: Admits(WidgetFor(f), answer(f, WidgetFor(f)))
    ensures code == TimepointCode(choice)
    ensures FromForm(record, code)
  {
    code := TimepointCode(choice);
    record := CollectForm(FormFeatures(code), answer);
  }

  /** The implant head size arrives from its select box as text already, so
      the cast before preprocessing leaves a form record unchanged. */
  lemma FormHeadSizeAlreadyText(record: Record, code: string, render: real -> string)
    requires FromForm(record, code)
    ensures CoerceHeadSize(record, render) == record
  {
    if "HeadSize" in record {
      assert Admits(WidgetFor("HeadSize"), record["HeadSize"]);
    }
  }

  /** The inputs the heuristic multiplies are numbers on a form record. */
  lemma FormDemoSucceeds(record: Record, code: string)
    requires FromForm(record, code)
    ensures DemoPredict(record, code).Ok?
  {
    forall k | k in NumericInputs(code)
      ensures Multipliable(record, k)
    {
      if k in record {
        assert k in NumericInputs("T3");
        assert Admits(WidgetFor(k), record[k]);
      }
    }
  }

  /** On a form record the trained path can fail only on its artifacts or
      inside the model: never on the timepoint, never on a missing feature. */
  lemma FormModelPathErrors(record: Record, tp: Timepoint, art: Artifacts)
    requires FromForm(record, Code(tp))
    ensures ModelPredict(record, Code(tp), art).Err? ==>
              ModelPredict(record, Code(tp), art).error in {ArtifactsMissing, LoadFailed, PredictionFailed}
  {
    ParseCode(tp);
    MissingEmptyIff(Required(tp), record);
  }

  /** A request from the page always yields a score in range, whichever mode
      the page is in and whatever the artifacts do. */
  lemma FormRequestAlwaysScores(choice: string, record: Record, useDemo: bool, art: Artifacts)
    requires choice in RadioLabels
    requires FromForm(record, TimepointCode(choice))
    ensures Predict(useDemo, record, TimepointCode(choice), art).Ok?
    ensures ModelPredict(record, TimepointCode(choice), art).Err? ==>
              ModelPredict(record, TimepointCode(choice), art).error in {ArtifactsMissing, LoadFailed, PredictionFailed}
  {
    RadioCodes();
    var tp := if choice == RadioLabels[0] then T3 else T5;
    assert TimepointCode(choice) == Code(tp);
    FormModelPathErrors(record, tp, art);
    FormDemoSucceeds(record, Code(tp));
  }
}
