/** The two follow-up horizons and how a timepoint string is read. */
module Timepoints {
  import opened Records

  /** Three and five years after the operation. */
  datatype Timepoint = T3 | T5

  /** The canonical code of a timepoint, as the rest of the program spells it. */
  function Code(tp: Timepoint): string
  {
    match tp
    case T3 => "T3"
    case T5 => "T5"
  }

  function UpperChar(c: char): char
  {
    if 'a' <= c <= 'z' then (c as int - 32) as char else c
  }

  function LowerChar(c: char): char
  {
    if 'A' <= c <= 'Z' then (c as int + 32) as char else c
  }

  /** `str.upper()` on the ASCII letters; every other character is kept. */
  function Upper(s: string): (u: string)
    ensures |u| == |s|
    ensures forall i :: 0 <= i < |s| ==> u[i] == UpperChar(s[i])
  {
    if s == [] then [] else [UpperChar(s[0])] + Upper(s[1..])
  }

  /** `str.lower()` on the ASCII letters; every other character is kept. */
  function Lower(s: string): (l: string)
    ensures |l| == |s|
    ensures forall i :: 0 <= i < |s| ==> l[i] == LowerChar(s[i])
  {
    if s == [] then [] else [LowerChar(s[0])] + Lower(s[1..])
  }

  /** Only "T3" and "t3" upper-case to "T3", and only "T5" and "t5" to "T5":
      the digit is kept, and only the letter can change. */
  lemma UpperGivesCode(s: string)
    ensures Upper(s) == "T3" <==> s == "T3" || s == "t3"
    ensures Upper(s) == "T5" <==> s == "T5" || s == "t5"
  {
    var u := Upper(s);
    if |s| == 2 {
      assert u == [UpperChar(s[0]), UpperChar(s[1])];
      assert s == [s[0], s[1]];
      assert UpperChar(s[1]) == '3' <==> s[1] == '3';
      assert UpperChar(s[1]) == '5' <==> s[1] == '5';
      assert UpperChar(s[0]) == 'T' <==> s[0] == 'T' || s[0] == 't';
    } else {
      assert u != "T3" && u != "T5";
    }
  }

  /** The check at the head of `predict_with_model`: upper-case the string, then
      accept exactly "T3" and "T5"; anything else raises. So the accepted
      strings are exactly "T3", "t3", "T5" and "t5". */
  function ParseTimepoint(s: string): (r: Result<Timepoint>)
    ensures r == Ok(T3) <==> s == "T3" || s == "t3"
    ensures r == Ok(T5) <==> s == "T5" || s == "t5"
    ensures r.Err? <==> s !in {"T3", "t3", "T5", "t5"}
    ensures r.Err? ==> r.error == InvalidTimepoint
  {
    UpperGivesCode(s);
    var u := Upper(s);
    if u == "T3" then Ok(T3)
    else if u == "T5" then Ok(T5)
    else Err(InvalidTimepoint)
  }

  /** Reading the canonical code back gives the same timepoint. */
  lemma ParseCode(tp: Timepoint)
    ensures ParseTimepoint(Code(tp)) == Ok(tp)
  {
  }

  /** The lower-cased code that names a timepoint's artifact files. */
  lemma LowerCode(tp: Timepoint)
    ensures Lower(Code(tp)) == if tp == T3 then "t3" else "t5"
  {
    var l := Lower(Code(tp));
    assert l == [l[0], l[1]];
  }
}
