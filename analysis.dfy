/** The analysis entry point: aggregation, classification and both narratives, in one call. */
module Analysis {
  import opened Wrappers
  import opened Aggregation
  import opened Classification
  import opened Reports

  /** What an analysis produces for one recording. */
  datatype EcgAnalysis = EcgAnalysis(
    heartRate: int,
    rhythmAnalysis: string,
    abnormalities: seq<string>,
    riskLevel: RiskLevel,
    doctorNotes: string,
    patientSummary: string)

  /**
   * Analyses a recording for a patient. The rhythm, findings and risk follow the classifier's rules for
   * the average heart rate and the age; the gender only appears in the doctor notes.
   */
  method AnalyzeEcgData(rawData: seq<Sample>, patientAge: int, patientGender: string) returns (analysis: EcgAnalysis)
    ensures analysis.heartRate == AverageHeartRate(rawData)
    ensures Classified(analysis.heartRate, patientAge, analysis.riskLevel, analysis.abnormalities,
                       analysis.rhythmAnalysis)
    ensures analysis.riskLevel != Critical && |analysis.abnormalities| <= 2
    ensures analysis.patientSummary
              == PatientSummary(analysis.heartRate, analysis.abnormalities, analysis.riskLevel)
    ensures analysis.doctorNotes
              == DoctorNotes(analysis.heartRate, analysis.abnormalities, patientAge, patientGender, |rawData|)
  {
    var avgHeartRate := AverageHeartRate(rawData);

    var riskLevel, abnormalities, rhythmAnalysis := Classify(avgHeartRate, patientAge);
    ClassificationBounds(avgHeartRate, patientAge, riskLevel, abnormalities, rhythmAnalysis);

    var patientSummary := GeneratePatientSummary(avgHeartRate, abnormalities, riskLevel);
    var doctorNotes := GenerateDoctorNotes(avgHeartRate, abnormalities, patientAge, patientGender, rawData);

    analysis := EcgAnalysis(avgHeartRate, rhythmAnalysis, abnormalities, riskLevel, doctorNotes, patientSummary);
  }

  function Reading(t: int, bpm: int): Sample {
    Sample(t, 0, Some(bpm))
  }

  /** Worked averages: no readings at all, readings of zero only, a slow recording, and a half rounded up. */
  lemma AverageScenarios()
    ensures AverageHeartRate([]) == 75
    ensures AverageHeartRate([Sample(0, 10, None), Sample(20, 12, Some(0))]) == 75
    ensures AverageHeartRate([Reading(0, 55), Reading(20, 57)]) == 56
    ensures AverageHeartRate([Reading(0, 70), Reading(20, 71)]) == 71
    ensures AverageHeartRate([Reading(0, 55), Reading(20, 55), Reading(40, 58)]) == 56
  {
    var silent := [Sample(0, 10, None), Sample(20, 12, Some(0))];
    assert HeartRates(silent[1..]) == [];
    var slow := [Reading(0, 55), Reading(20, 57)];
    assert HeartRates(slow[1..]) == [57];
    assert HeartRates(slow) == [55, 57];
    assert Sum([55, 57]) == 112;
    var tie := [Reading(0, 70), Reading(20, 71)];
    assert HeartRates(tie[1..]) == [71];
    assert HeartRates(tie) == [70, 71];
    assert Sum([70, 71]) == 141;
    var repeated := [Reading(0, 55), Reading(20, 55), Reading(40, 58)];
    assert HeartRates(repeated[2..]) == [58];
    assert HeartRates(repeated[1..]) == [55, 58];
    assert HeartRates(repeated) == [55, 55, 58];
    assert Sum([55, 55, 58]) == 168;
  }

  /** Worked classifications: a resting adult, a slow rate, and older patients at 110, 95 and 80 bpm. */
  lemma ClassificationScenarios()
    ensures Classified(75, 40, Low, [], NormalRhythm)
    ensures Classified(56, 30, Medium, [Bradycardia], SlowRhythm)
    ensures Classified(110, 70, High, [Tachycardia, AgeRelatedConcern], FastRhythm)
    ensures Classified(95, 70, High, [AgeRelatedConcern], NormalRhythm)
    ensures Classified(80, 66, Low, [], NormalRhythm)
  {
    assert [Tachycardia, AgeRelatedConcern][1] == AgeRelatedConcern;
    assert Tachycardia != AgeRelatedConcern;
  }
}
