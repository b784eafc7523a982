/** The fixed feature lists of the two trained models and the check that a
    patient record supplies every one of them. */
module FeatureCatalog {
  import opened Records
  import opened Timepoints

  /** The thirteen features the three-year model was trained on, in catalogue order. */
  const T3Features: seq<string> := [
    "LOS", "BMI_Current", "WOMACP_5", "WeightCurrent", "ICOAPC_3",
    "ICOAPC_1", "AgePreOp", "WOMACP_3", "WalkPain", "MobilityAidWalker",
    "Pre-Op Pain", "HeightCurrent", "ResultsRelief"
  ]

  /** The twelve features the five-year model was trained on, in catalogue order. */
  const T5Features: seq<string> := [
    "AgePreOp", "BMI_Current", "WeightCurrent", "HeightCurrent", "LOS",
    "WOMACP_5", "ResultsRelief", "ICOAPC_3", "Pre-Op Pain", "WalkPain",
    "Approach", "HeadSize"
  ]

  /** No name occurs twice. */
  predicate Distinct(s: seq<string>)
  {
    forall i, j :: 0 <= i < j < |s| ==> s[i] != s[j]
  }

  /** The features a timepoint's model requires. */
  function Required(tp: Timepoint): (fs: seq<string>)
    ensures |fs| == if tp == T3 then 13 else 12
    ensures Distinct(fs)
    ensures "BMI_Current" in fs && "AgePreOp" in fs && "Pre-Op Pain" in fs && "WalkPain" in fs
  {
    if tp == T3 then T3Features else T5Features
  }

  /** The required names the record lacks, in the order of `req`: the list
      comprehension that feeds the "Missing required features" error. */
  function Missing(req: seq<string>, record: Record): (m: seq<string>)
    ensures |m| <= |req|
    ensures forall f :: f in m <==> f in req && f !in record
  {
    if req == [] then []
    else (if req[0] in record then [] else [req[0]]) + Missing(req[1..], record)
  }

  /** No error is raised exactly when every required name is present. */
  lemma {:induction false} MissingEmptyIff(req: seq<string>, record: Record)
    ensures Missing(req, record) == [] <==> forall f :: f in req ==> f in record
  {
    if req != [] {
      MissingEmptyIff(req[1..], record);
      assert forall f :: f in req ==> f == req[0] || f in req[1..];
    }
  }

  /** `a` is `b` with some elements deleted, the rest kept in order. */
  predicate IsSubsequence(a: seq<string>, b: seq<string>)
    decreases |b|
  {
    if a == [] then true
    else if b == [] then false
    else (a[0] == b[0] && IsSubsequence(a[1..], b[1..])) || IsSubsequence(a, b[1..])
  }

  lemma {:induction false} SubsequenceMembers(a: seq<string>, b: seq<string>)
    requires IsSubsequence(a, b)
    ensures forall x :: x in a ==> x in b
    decreases |b|
  {
    if a != [] {
      if a[0] == b[0] && IsSubsequence(a[1..], b[1..]) {
        SubsequenceMembers(a[1..], b[1..]);
        assert forall x :: x in a ==> x == a[0] || x in a[1..];
      } else {
        SubsequenceMembers(a, b[1..]);
      }
    }
  }

  /** The missing names keep the relative order they have in the required list. */
  lemma {:induction false} MissingInListOrder(req: seq<string>, record: Record)
    ensures IsSubsequence(Missing(req, record), req)
  {
    if req != [] {
      MissingInListOrder(req[1..], record);
      var m := Missing(req, record);
      if req[0] in record {
        assert m == Missing(req[1..], record);
        SubsequenceDropFront(m, req);
      } else {
        assert m == [req[0]] + Missing(req[1..], record);
        assert m[1..] == Missing(req[1..], record);
      }
    }
  }

  lemma SubsequenceDropFront(a: seq<string>, b: seq<string>)
    requires b != [] && IsSubsequence(a, b[1..])
    ensures IsSubsequence(a, b)
  {
  }

  /** The missing-feature list is the ONLY list that names exactly the absent
      required features in required-list order: any other ordered selection
      from a duplicate-free required list with the same members equals it. */
  lemma {:induction false} MissingIsUnique(req: seq<string>, record: Record, m: seq<string>)
    requires Distinct(req)
    requires IsSubsequence(m, req)
    requires forall f :: f in m <==> f in req && f !in record
    ensures m == Missing(req, record)
    decreases |req|
  {
    if req != [] {
      var h, t := req[0], req[1..];
      assert Distinct(t);
      assert forall k :: 0 <= k < |t| ==> t[k] == req[k + 1];
      assert h !in t;
      if h in record {
        if m == [] {
          MissingIsUnique(t, record, m);
        } else {
          assert m[0] in m;
          assert IsSubsequence(m, t);
          MissingIsUnique(t, record, m);
        }
      } else {
        assert h in m;
        if !(m[0] == h && IsSubsequence(m[1..], t)) {
          assert IsSubsequence(m, t);
          SubsequenceMembers(m, t);
          assert false;
        }
        SubsequenceMembers(m[1..], t);
        forall f
          ensures f in m[1..] <==> f in t && f !in record
        {
          if f in t && f !in record {
            assert f in m;
            assert f != h;
            assert f == m[0] || f in m[1..];
          }
          if f in m[1..] {
            assert f in m;
          }
        }
        MissingIsUnique(t, record, m[1..]);
        assert m == [h] + m[1..];
      }
    }
  }

  /** Splitting the required list splits the report: the comprehension visits
      the names one at a time, left to right. */
  lemma {:induction false} MissingOfConcat(a: seq<string>, b: seq<string>, record: Record)
    ensures Missing(a + b, record) == Missing(a, record) + Missing(b, record)
  {
    if a != [] {
      assert (a + b)[1..] == a[1..] + b;
      MissingOfConcat(a[1..], b, record);
    } else {
      assert a + b == b;
    }
  }

  /** Only the presence of the required names matters: keys outside the list,
      and the values stored, never change the report. */
  lemma {:induction false} MissingIgnoresExtraKeys(req: seq<string>, r1: Record, r2: Record)
    requires forall f :: f in req ==> (f in r1 <==> f in r2)
    ensures Missing(req, r1) == Missing(req, r2)
  {
    if req != [] {
      assert req[0] in req;
      MissingIgnoresExtraKeys(req[1..], r1, r2);
    }
  }
}
