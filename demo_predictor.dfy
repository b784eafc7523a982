/** The closed-form heuristic used when no trained model is available. */
module DemoPredictor {
  import opened Records

  /** The inputs the heuristic reads, with the value each takes when absent. */
  const DefaultBmi: real := 25.0
  const DefaultAge: real := 65.0
  const DefaultPreOpPain: real := 5.0
  const DefaultWalkPain: real := 5.0

  /** A factor of the heuristic: an absent key gives the default, a number
      gives itself, and text cannot be multiplied by a number. */
  function NumberOr(record: Record, key: string, default: real): (r: Result<real>)
    ensures r.Ok? <==> key !in record || record[key].Num?
    ensures r.Ok? ==> r.value == if key in record then record[key].x else default
    ensures r.Err? ==> r.error == NotANumber(key)
  {
    if key !in record then Ok(default)
    else match record[key]
      case Num(x) => Ok(x)
      case Text(_) => Err(NotANumber(key))
  }

  /** The three-year formula before clamping. */
  function T3Formula(bmi: real, age: real, preOp: real, walk: real): real
  {
    2.0 + 0.01 * bmi + 0.01 * age + 0.2 * preOp - 0.1 * walk
  }

  /** The five-year formula before clamping; `posterior` is whether the approach
      is exactly the text "Posterior". */
  function T5Formula(bmi: real, age: real, preOp: real, posterior: bool): real
  {
    1.5 + 0.008 * bmi + 0.005 * age + 0.15 * preOp - (if posterior then 0.5 else 0.0)
  }

  /** The weight of each input in the three-year formula: a unit more BMI or
      age adds 0.01, a unit more pre-operative pain adds 0.2, and a unit more
      walking pain takes away 0.1. */
  lemma T3FormulaWeights(bmi: real, age: real, preOp: real, walk: real, d: real)
    ensures T3Formula(bmi + d, age, preOp, walk) == T3Formula(bmi, age, preOp, walk) + 0.01 * d
    ensures T3Formula(bmi, age + d, preOp, walk) == T3Formula(bmi, age, preOp, walk) + 0.01 * d
    ensures T3Formula(bmi, age, preOp + d, walk) == T3Formula(bmi, age, preOp, walk) + 0.2 * d
    ensures T3Formula(bmi, age, preOp, walk + d) == T3Formula(bmi, age, preOp, walk) - 0.1 * d
  {
  }

  /** The weight of each input in the five-year formula: a unit more BMI adds
      0.008, a unit more age 0.005, a unit more pre-operative pain 0.15, and a
      posterior approach takes away 0.5. */
  lemma T5FormulaWeights(bmi: real, age: real, preOp: real, posterior: bool, d: real)
    ensures T5Formula(bmi + d, age, preOp, posterior) == T5Formula(bmi, age, preOp, posterior) + 0.008 * d
    ensures T5Formula(bmi, age + d, preOp, posterior) == T5Formula(bmi, age, preOp, posterior) + 0.005 * d
    ensures T5Formula(bmi, age, preOp + d, posterior) == T5Formula(bmi, age, preOp, posterior) + 0.15 * d
    ensures T5Formula(bmi, age, preOp, true) == T5Formula(bmi, age, preOp, false) - 0.5
  {
  }

  /** The approach counts as posterior only when the key is present and holds
      exactly the text "Posterior"; an absent key or a number never does. */
  predicate IsPosterior(record: Record)
  {
    "Approach" in record && record["Approach"] == Text("Posterior")
  }

  /** The keys the heuristic multiplies for a timepoint, in evaluation order. */
  function NumericInputs(timepoint: string): (keys: seq<string>)
    ensures "WalkPain" in keys <==> timepoint == "T3"
  {
    if timepoint == "T3" then ["BMI_Current", "AgePreOp", "Pre-Op Pain", "WalkPain"]
    else ["BMI_Current", "AgePreOp", "Pre-Op Pain"]
  }

  /** A key the heuristic can multiply: absent (so defaulted) or a number. */
  predicate Multipliable(record: Record, key: string)
  {
    key !in record || record[key].Num?
  }

  /** The number the heuristic uses for a multipliable key: the record's
      number, or the default when the key is absent. */
  function Input(record: Record, key: string, default: real): real
  {
    if key in record && record[key].Num? then record[key].x else default
  }

  /** The heuristic before clamping. The timepoint is compared with "T3" as
      given: it is neither upper-cased nor validated, so every other string
      takes the five-year formula. It fails exactly when an input it
      multiplies is text, and then names the first such input in evaluation
      order. */
  function DemoRaw(record: Record, timepoint: string): (r: Result<real>)
    ensures r.Ok? <==> forall k :: k in NumericInputs(timepoint) ==> Multipliable(record, k)
    ensures r.Err? ==>
              exists i :: 0 <= i < |NumericInputs(timepoint)|
                          && r.error == NotANumber(NumericInputs(timepoint)[i])
                          && !Multipliable(record, NumericInputs(timepoint)[i])
                          && forall j :: 0 <= j < i ==> Multipliable(record, NumericInputs(timepoint)[j])
    ensures r.Ok? && timepoint == "T3" ==>
              r.value == T3Formula(Input(record, "BMI_Current", DefaultBmi), Input(record, "AgePreOp", DefaultAge),
                                   Input(record, "Pre-Op Pain", DefaultPreOpPain), Input(record, "WalkPain", DefaultWalkPain))
    ensures r.Ok? && timepoint != "T3" ==>
              r.value == T5Formula(Input(record, "BMI_Current", DefaultBmi), Input(record, "AgePreOp", DefaultAge),
                                   Input(record, "Pre-Op Pain", DefaultPreOpPain), IsPosterior(record))
  {
    var keys := NumericInputs(timepoint);
    assert keys[0] == "BMI_Current" && keys[1] == "AgePreOp" && keys[2] == "Pre-Op Pain";
    assert timepoint == "T3" ==> keys[3] == "WalkPain";
    assert keys[0] in keys && keys[1] in keys && keys[2] in keys;
    assert forall k :: k in keys ==> k == keys[0] || k == keys[1] || k == keys[2] || (timepoint == "T3" && k == keys[3]);
    var bmi :- NumberOr(record, "BMI_Current", DefaultBmi);
    var age :- NumberOr(record, "AgePreOp", DefaultAge);
    var preOp :- NumberOr(record, "Pre-Op Pain", DefaultPreOpPain);
    if timepoint == "T3" then
      var walk :- NumberOr(record, "WalkPain", DefaultWalkPain);
      Ok(T3Formula(bmi, age, preOp, walk))
    else
      Ok(T5Formula(bmi, age, preOp, IsPosterior(record)))
  }

  /** `predict_in_demo_mode`: the heuristic clamped into the score range. */
  function DemoPredict(record: Record, timepoint: string): (r: Result<real>)
    ensures r.Ok? ==> MinScore <= r.value <= MaxScore
    ensures r.Ok? <==> forall k :: k in NumericInputs(timepoint) ==> Multipliable(record, k)
    ensures r.Err? ==> r.error.NotANumber? && r.error.key in NumericInputs(timepoint)
    ensures r.Ok? ==> DemoRaw(record, timepoint).Ok? && r.value == Clamp(DemoRaw(record, timepoint).value, MinScore, MaxScore)
    ensures r.Err? ==> r == DemoRaw(record, timepoint)
  {
    var raw :- DemoRaw(record, timepoint);
    Ok(Clamp(raw, MinScore, MaxScore))
  }

  /** With every input absent the three-year heuristic gives
      2.0 + 0.25 + 0.65 + 1.0 - 0.5 = 3.4 exactly. */
  lemma DemoT3Defaults(record: Record)
    requires "BMI_Current" !in record && "AgePreOp" !in record
    requires "Pre-Op Pain" !in record && "WalkPain" !in record
    ensures DemoPredict(record, "T3") == Ok(3.4)
  {
  }

  /** With the default inputs and a posterior approach the five-year heuristic
      gives 1.5 + 0.2 + 0.325 + 0.75 - 0.5 = 2.275 exactly; without it, 2.775. */
  lemma DemoT5Defaults(record: Record)
    requires "BMI_Current" !in record && "AgePreOp" !in record && "Pre-Op Pain" !in record
    ensures IsPosterior(record) ==> DemoPredict(record, "T5") == Ok(2.275)
    ensures !IsPosterior(record) ==> DemoPredict(record, "T5") == Ok(2.775)
  {
  }

  /** The approach term: a posterior approach lowers the five-year raw score by
      exactly 0.5 relative to the same record without an approach, and any other
      value (or none) lowers it by nothing. */
  lemma DemoApproachTerm(record: Record, timepoint: string, v: Value)
    requires timepoint != "T3"
    ensures DemoRaw(record["Approach" := Text("Posterior")], timepoint).Ok? ==>
              DemoRaw(record["Approach" := Text("Posterior")], timepoint).value
              == DemoRaw(record - {"Approach"}, timepoint).value - 0.5
    ensures v != Text("Posterior") ==>
              DemoRaw(record["Approach" := v], timepoint) == DemoRaw(record - {"Approach"}, timepoint)
  {
  }

  /** The heuristic does not validate the timepoint: every string other than
      exactly "T3" — "t3" and "T4" included — gets the five-year formula. */
  lemma DemoTimepointNotValidated(record: Record, timepoint: string)
    requires timepoint != "T3"
    ensures DemoPredict(record, timepoint) == DemoPredict(record, "T5")
  {
  }

  /** A raw heuristic score already in range is returned unchanged. */
  lemma DemoKeepsInRangeScores(record: Record, timepoint: string)
    requires DemoRaw(record, timepoint).Ok?
    requires MinScore <= DemoRaw(record, timepoint).value <= MaxScore
    ensures DemoPredict(record, timepoint) == DemoRaw(record, timepoint)
  {
  }
}
