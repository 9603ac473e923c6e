/**
 * The redundancy rule for one-time diseases: a disease a patient can have
 * only once. The list is written out the same way in the backend route and
 * in the patient page; both compare names after lower-casing them.
 */
module OneTimeRule {
  import opened Records
  import opened Text

  /** The hard-coded list `['measles', 'mumps', 'chickenpox']`. */
  const OneTimeDiseases: seq<string> := ["measles", "mumps", "chickenpox"]

  /** `oneTimeDiseases.includes(name.toLowerCase())`. */
  predicate IsOneTimeDisease(name: string): (r: bool)
    ensures r ==> |name| == 5 || |name| == 7 || |name| == 10
  {
    Lower(name) in OneTimeDiseases
  }

  /** Two diagnosis names denote the same disease when they are equal after lower-casing both. */
  predicate SameDisease(a: string, b: string): (r: bool)
    ensures a == b ==> r
    ensures r ==> |a| == |b|
  {
    Lower(a) == Lower(b)
  }

  /**
   * Membership is exact after case folding: the name has the length of one of
   * the three listed names and agrees with it letter by letter up to case,
   * so no trimming, prefix or partial match is accepted.
   */
  lemma IsOneTimeDiseaseExact(name: string)
    ensures IsOneTimeDisease(name) <==>
      exists d :: d in OneTimeDiseases && |d| == |name| &&
        forall i :: 0 <= i < |name| ==> LowerChar(name[i]) == d[i]
  {
    if IsOneTimeDisease(name) {
      var d := Lower(name);
      assert |d| == |name| && forall i :: 0 <= i < |name| ==> LowerChar(name[i]) == d[i];
    }
    if exists d :: d in OneTimeDiseases && |d| == |name| &&
        forall i :: 0 <= i < |name| ==> LowerChar(name[i]) == d[i] {
      var d :| d in OneTimeDiseases && |d| == |name| &&
        forall i :: 0 <= i < |name| ==> LowerChar(name[i]) == d[i];
      assert Lower(name) == d;
    }
  }

  /** Membership does not depend on the case in which the name is typed. */
  lemma IsOneTimeDiseaseCaseInsensitive(a: string, b: string)
    requires SameDisease(a, b)
    ensures IsOneTimeDisease(a) == IsOneTimeDisease(b)
  {
  }

  /** "Measles", "MEASLES" and "measles" all name the one-time disease measles. */
  lemma MeaslesSpellings()
    ensures IsOneTimeDisease("Measles") && IsOneTimeDisease("MEASLES") && IsOneTimeDisease("measles")
    ensures SameDisease("Measles", "MEASLES")
  {
    FoldsTo("Measles", "measles");
    FoldsTo("MEASLES", "measles");
    FoldsTo("measles", "measles");
  }

  /** A name with surrounding text or another disease is not a one-time disease. */
  lemma NotOneTimeSpellings()
    ensures !IsOneTimeDisease(" measles") && !IsOneTimeDisease("measles vaccine")
    ensures !IsOneTimeDisease("Influenza")
  {
    OtherLengthNotOneTime(" measles");
    OtherLengthNotOneTime("measles vaccine");
    OtherLengthNotOneTime("Influenza");
  }

  /** Only names of five, seven or ten characters can be one-time diseases. */
  lemma OtherLengthNotOneTime(name: string)
    requires |name| != 5 && |name| != 7 && |name| != 10
    ensures !IsOneTimeDisease(name)
  {
  }

  /** `s` folds to the lower-case word `w` when they agree letter by letter up to case. */
  lemma FoldsTo(s: string, w: string)
    requires |s| == |w|
    requires forall i :: 0 <= i < |s| ==> LowerChar(s[i]) == w[i]
    ensures Lower(s) == w
  {
  }

  /**
   * `list.some(d => d.diagnosis_name.toLowerCase() === name.toLowerCase())`,
   * scanning the list front to back.
   */
  predicate SomeSameDisease(list: seq<Diagnosis>, name: string): (r: bool)
    ensures r ==> list != []
    ensures (exists i :: 0 <= i < |list| && list[i].diagnosisName == name) ==> r
    decreases |list|
  {
    list != [] && (SameDisease(list[0].diagnosisName, name) || SomeSameDisease(list[1..], name))
  }

  /** The scan finds a match exactly when some position of the list holds one. */
  lemma {:induction false} SomeSameDiseaseIff(list: seq<Diagnosis>, name: string)
    ensures SomeSameDisease(list, name) <==>
      exists i :: 0 <= i < |list| && SameDisease(list[i].diagnosisName, name)
    decreases |list|
  {
    if list != [] {
      SomeSameDiseaseIff(list[1..], name);
      if exists i :: 0 <= i < |list| && SameDisease(list[i].diagnosisName, name) {
        var i :| 0 <= i < |list| && SameDisease(list[i].diagnosisName, name);
        if i > 0 {
          assert list[1..][i - 1] == list[i];
        }
      }
    }
  }

  /** The rows of a patient whose name matches `name` without regard to case (the `ilike` lookup). */
  function MatchingDiagnoses(rows: seq<Diagnosis>, patientId: string, name: string): (r: seq<Diagnosis>)
    ensures forall d :: d in r <==> d in rows && d.patientId == patientId && SameDisease(d.diagnosisName, name)
    ensures |r| <= |rows|
  {
    if rows == [] then []
    else
      var rest := MatchingDiagnoses(rows[1..], patientId, name);
      if rows[0].patientId == patientId && SameDisease(rows[0].diagnosisName, name)
      then [rows[0]] + rest else rest
  }
}
