/** Values shared by every part of the pain-score calculator: the patient record,
    the error taxonomy of the prediction paths, and the clamp into the score range. */
module Records {

  /** One cell of the patient dictionary. Python numbers (and booleans, as 0/1)
      are `Num`; strings such as the surgical approach or the implant head size
      are `Text`. */
  datatype Value = Num(x: real) | Text(s: string)

  /** The patient dictionary: feature name to value. */
  type Record = map<string, Value>

  datatype Option<+T> = None | Some(value: T)

  /** Every way a prediction request can fail; the name says which check raised. */
  datatype Error =
    | InvalidTimepoint                    // the timepoint is not T3 or T5 after upper-casing
    | ArtifactsMissing                    // the model or the preprocessor file is absent
    | LoadFailed                          // a present artifact file could not be deserialised
    | MissingFeatures(names: seq<string>) // required features absent from the record
    | PredictionFailed                    // the preprocessor or the model raised
    | NotANumber(key: string)             // the heuristic multiplied a string by a number

  /** The result of an operation that may raise; usable with `:-`. */
  datatype Result<+T> = Ok(value: T) | Err(error: Error) {
    predicate IsFailure() { Err? }

    function PropagateFailure<U>(): Result<U>
      requires Err?
    {
      Err(error)
    }

    function Extract(): T
      requires Ok?
    {
      value
    }
  }

  /** The lowest and highest pain score the calculator reports. */
  const MinScore: real := 0.0
  const MaxScore: real := 8.0

  function Min(a: real, b: real): real { if a <= b then a else b }
  function Max(a: real, b: real): real { if a >= b then a else b }

  /** The clamp into [lo, hi]: first the upper bound, then the lower one. On
      reals the heuristic's min/max and the trained path's clip agree. */
  function Clamp(x: real, lo: real, hi: real): (r: real)
    requires lo <= hi
    ensures lo <= r <= hi
    ensures lo <= x <= hi ==> r == x
    ensures x < lo ==> r == lo
    ensures hi < x ==> r == hi
  {
    Max(lo, Min(hi, x))
  }
}
