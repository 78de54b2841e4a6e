/** Risk classification: fixed threshold rules over the average heart rate and the patient's age. */
module Classification {

  datatype RiskLevel = Low | Medium | High | Critical

  const Bradycardia: string := "Bradycardia"
  const Tachycardia: string := "Tachycardia"
  const AgeRelatedConcern: string := "Age-related tachycardia concern"

  const NormalRhythm: string := "Normal sinus rhythm"
  const SlowRhythm: string := "Slow heart rate detected"
  const FastRhythm: string := "Fast heart rate detected"

  /** The rule for older patients: over 65 years old and a heart rate above 90. */
  predicate AgeRule(heartRate: int, age: int) {
    age > 65 && heartRate > 90
  }

  /**
   * What the classifier promises about its result, rule by rule: the rate rules alone decide the rhythm;
   * each label is listed, once, exactly when its rule fires, and the age-related one comes last;
   * the age rule sets the risk to high, otherwise a rate finding makes it medium.
   */
  predicate Classified(heartRate: int, age: int, risk: RiskLevel, abnormalities: seq<string>, rhythm: string) {
    && rhythm == (if heartRate < 60 then SlowRhythm else if heartRate > 100 then FastRhythm else NormalRhythm)
    && (forall i :: 0 <= i < |abnormalities| ==>
          abnormalities[i] == Bradycardia || abnormalities[i] == Tachycardia || abnormalities[i] == AgeRelatedConcern)
    && (forall i, j :: 0 <= i < j < |abnormalities| ==> abnormalities[i] != abnormalities[j])
    && (Bradycardia in abnormalities <==> heartRate < 60)
    && (Tachycardia in abnormalities <==> heartRate > 100)
    && (AgeRelatedConcern in abnormalities <==> AgeRule(heartRate, age))
    && (AgeRule(heartRate, age) ==> abnormalities[|abnormalities| - 1] == AgeRelatedConcern)
    && risk == (if AgeRule(heartRate, age) then High
                else if heartRate < 60 || heartRate > 100 then Medium
                else Low)
  }

  /** The classification step of the analysis: rate rules first, then the age rule, which may escalate the risk. */
  method Classify(heartRate: int, age: int) returns (risk: RiskLevel, abnormalities: seq<string>, rhythm: string)
    ensures Classified(heartRate, age, risk, abnormalities, rhythm)
  {
    risk := Low;
    abnormalities := [];
    rhythm := NormalRhythm;

    if heartRate < 60 {
      abnormalities := abnormalities + [Bradycardia];
      risk := Medium;
      rhythm := SlowRhythm;
    } else if heartRate > 100 {
      abnormalities := abnormalities + [Tachycardia];
      risk := Medium;
      rhythm := FastRhythm;
    }

    if age > 65 && heartRate > 90 {
      risk := High;
      abnormalities := abnormalities + [AgeRelatedConcern];
    }
  }

  /** A list without repetitions is no longer than the set its elements are drawn from. */
  lemma {:induction false} DistinctWithin(xs: seq<string>, s: set<string>)
    requires forall i :: 0 <= i < |xs| ==> xs[i] in s
    requires forall i, j :: 0 <= i < j < |xs| ==> xs[i] != xs[j]
    ensures |xs| <= |s|
    decreases |xs|
  {
    if xs != [] {
      assert forall i :: 0 <= i < |xs[1..]| ==> xs[1..][i] == xs[i + 1];
      DistinctWithin(xs[1..], s - {xs[0]});
    }
  }

  /** The rules leave exactly one list of abnormalities for each heart rate and age. */
  lemma ClassifiedAbnormalities(heartRate: int, age: int, risk: RiskLevel, abnormalities: seq<string>, rhythm: string)
    requires Classified(heartRate, age, risk, abnormalities, rhythm)
    ensures abnormalities ==
              (if heartRate < 60 then [Bradycardia] else if heartRate > 100 then [Tachycardia] else [])
              + (if AgeRule(heartRate, age) then [AgeRelatedConcern] else [])
  {
    var ab := abnormalities;
    // the labels whose rule fires
    var fired := (if heartRate < 60 then {Bradycardia} else {})
               + (if heartRate > 100 then {Tachycardia} else {})
               + (if AgeRule(heartRate, age) then {AgeRelatedConcern} else {});
    assert forall i :: 0 <= i < |ab| ==> ab[i] in ab;
    DistinctWithin(ab, fired);
    if heartRate > 100 && AgeRule(heartRate, age) {
      assert |fired| == 2;
      var i :| 0 <= i < |ab| && ab[i] == Tachycardia;
      assert ab[|ab| - 1] == AgeRelatedConcern;
      assert |ab| == 2;
    }
  }

  /** The classifier is deterministic: the rules determine the whole result. */
  lemma ClassificationIsUnique(heartRate: int, age: int,
                               risk1: RiskLevel, abnormalities1: seq<string>, rhythm1: string,
                               risk2: RiskLevel, abnormalities2: seq<string>, rhythm2: string)
    requires Classified(heartRate, age, risk1, abnormalities1, rhythm1)
    requires Classified(heartRate, age, risk2, abnormalities2, rhythm2)
    ensures risk1 == risk2 && abnormalities1 == abnormalities2 && rhythm1 == rhythm2
  {
    ClassifiedAbnormalities(heartRate, age, risk1, abnormalities1, rhythm1);
    ClassifiedAbnormalities(heartRate, age, risk2, abnormalities2, rhythm2);
  }

  /** A rate in [60, 100] without the age rule is a normal result. */
  lemma NormalRangeIsLowRisk(heartRate: int, age: int, risk: RiskLevel, abnormalities: seq<string>, rhythm: string)
    requires Classified(heartRate, age, risk, abnormalities, rhythm)
    requires 60 <= heartRate <= 100 && !AgeRule(heartRate, age)
    ensures risk == Low && abnormalities == [] && rhythm == NormalRhythm
  {
    ClassifiedAbnormalities(heartRate, age, risk, abnormalities, rhythm);
  }

  /** A rate below 60 is bradycardia alone; the age rule cannot fire. */
  lemma SlowRateIsBradycardia(heartRate: int, age: int, risk: RiskLevel, abnormalities: seq<string>, rhythm: string)
    requires Classified(heartRate, age, risk, abnormalities, rhythm)
    requires heartRate < 60
    ensures abnormalities == [Bradycardia] && risk == Medium && rhythm == SlowRhythm
  {
    ClassifiedAbnormalities(heartRate, age, risk, abnormalities, rhythm);
  }

  /** A rate above 100 lists tachycardia first; the risk is medium unless the age rule escalates it. */
  lemma FastRateIsTachycardia(heartRate: int, age: int, risk: RiskLevel, abnormalities: seq<string>, rhythm: string)
    requires Classified(heartRate, age, risk, abnormalities, rhythm)
    requires heartRate > 100
    ensures |abnormalities| >= 1 && abnormalities[0] == Tachycardia && rhythm == FastRhythm
    ensures risk == (if age > 65 then High else Medium)
  {
  }

  /** The age rule makes the risk high and lists its concern last, and it never changes the rhythm. */
  lemma AgeRuleEscalates(heartRate: int, age: int, risk: RiskLevel, abnormalities: seq<string>, rhythm: string)
    requires Classified(heartRate, age, risk, abnormalities, rhythm)
    requires age > 65 && heartRate > 90
    ensures risk == High
    ensures |abnormalities| >= 1 && abnormalities[|abnormalities| - 1] == AgeRelatedConcern
    ensures rhythm == (if heartRate > 100 then FastRhythm else NormalRhythm)
  {
  }

  /** What no input produces: a critical risk, more than two findings, or a low risk with findings. */
  lemma ClassificationBounds(heartRate: int, age: int, risk: RiskLevel, abnormalities: seq<string>, rhythm: string)
    requires Classified(heartRate, age, risk, abnormalities, rhythm)
    ensures risk != Critical
    ensures |abnormalities| <= 2
    ensures (risk == Low) <==> abnormalities == []
  {
    ClassifiedAbnormalities(heartRate, age, risk, abnormalities, rhythm);
  }
}
