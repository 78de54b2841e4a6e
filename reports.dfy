/** The two narratives composed from a classification: the patient summary and the doctor notes. */
module Reports {
  import opened Decimal
  import opened Aggregation
  import opened Classification

  predicate StartsWith(s: string, p: string) {
    |p| <= |s| && s[..|p|] == p
  }

  predicate EndsWith(s: string, p: string) {
    |p| <= |s| && s[|s| - |p|..] == p
  }

  // ---------------------------------------------------------------- patient summary

  const SummaryPrefix: string := "Your ECG recording shows an average heart rate of "
  const SummaryRateSuffix: string := " beats per minute. "
  const NormalRhythmText: string := "Your heart rhythm appears normal. This is a good sign for your heart health. "
  const HealthyLifestyleText: string := "Continue maintaining a healthy lifestyle with regular exercise and a balanced diet."
  const IrregularitiesText: string := "Some irregularities were detected in your heart rhythm. "
  const MinorGuidance: string :=
    "These are typically minor and may not require immediate concern, but it's worth discussing with your doctor."
  const AppointmentGuidance: string :=
    "These findings warrant attention. Please schedule an appointment with your doctor to discuss these results."
  const PromptGuidance: string :=
    "These findings require medical attention. Please contact your doctor promptly to discuss these results."
  const Disclaimer: string :=
    "\n\nRemember: This is an initial screening. Always consult with a healthcare professional for proper medical advice."

  /** The opening sentence, which states the average heart rate. */
  function SummaryOpening(heartRate: int): string {
    SummaryPrefix + IntToDecimal(heartRate) + SummaryRateSuffix
  }

  /** The guidance sentence for a summary that reports findings: high and critical share one. */
  function RiskGuidance(risk: RiskLevel): string {
    match risk
    case Low => MinorGuidance
    case Medium => AppointmentGuidance
    case _ => PromptGuidance
  }

  /** The whole patient summary: the opening, a middle chosen by whether anything was found, the disclaimer. */
  function PatientSummary(heartRate: int, abnormalities: seq<string>, risk: RiskLevel): string {
    if |abnormalities| == 0 then
      SummaryOpening(heartRate) + NormalRhythmText + HealthyLifestyleText + Disclaimer
    else
      SummaryOpening(heartRate) + IrregularitiesText + RiskGuidance(risk) + Disclaimer
  }

  lemma Affixes(a: string, b: string)
    ensures StartsWith(a + b, a) && EndsWith(a + b, b)
  {
  }

  /** Builds the patient summary sentence by sentence. */
  method GeneratePatientSummary(heartRate: int, abnormalities: seq<string>, risk: RiskLevel) returns (summary: string)
    ensures summary == PatientSummary(heartRate, abnormalities, risk)
  {
    summary := SummaryPrefix + IntToDecimal(heartRate) + SummaryRateSuffix;

    if |abnormalities| == 0 {
      summary := summary + NormalRhythmText;
      summary := summary + HealthyLifestyleText;
    } else {
      summary := summary + IrregularitiesText;

      if risk == Low {
        summary := summary + MinorGuidance;
      } else if risk == Medium {
        summary := summary + AppointmentGuidance;
      } else {
        summary := summary + PromptGuidance;
      }
    }

    summary := summary + Disclaimer;
  }

  lemma Associative(a: string, b: string, c: string)
    ensures (a + b) + c == a + (b + c)
  {
  }

  /** The summary opens with the average heart rate and closes with the disclaimer after a blank line. */
  lemma SummaryFrame(heartRate: int, abnormalities: seq<string>, risk: RiskLevel)
    ensures StartsWith(PatientSummary(heartRate, abnormalities, risk), SummaryOpening(heartRate))
    ensures EndsWith(PatientSummary(heartRate, abnormalities, risk), Disclaimer)
  {
    var opening := SummaryOpening(heartRate);
    var first, second := if |abnormalities| == 0 then NormalRhythmText else IrregularitiesText,
                         if |abnormalities| == 0 then HealthyLifestyleText else RiskGuidance(risk);
    Associative(opening, first, second);
    Associative(opening, first + second, Disclaimer);
    Affixes(opening, (first + second) + Disclaimer);
    Affixes(opening + first + second, Disclaimer);
  }

  /** The heart rate that the first sentence states can be read back from it. */
  lemma SummaryStatesHeartRate(heartRate: int, abnormalities: seq<string>, risk: RiskLevel)
    ensures ReadInt(PatientSummary(heartRate, abnormalities, risk)[|SummaryPrefix|..]) == heartRate
  {
    var rendered := IntToDecimal(heartRate);
    var rest := PatientSummary(heartRate, abnormalities, risk)[|SummaryOpening(heartRate)|..];
    SummaryFrame(heartRate, abnormalities, risk);
    assert PatientSummary(heartRate, abnormalities, risk) == SummaryOpening(heartRate) + rest;
    Associative(SummaryPrefix, rendered, SummaryRateSuffix);
    Associative(SummaryPrefix, rendered + SummaryRateSuffix, rest);
    Associative(rendered, SummaryRateSuffix, rest);
    ReadAfter(SummaryPrefix, heartRate, SummaryRateSuffix + rest);
  }

  /** An integer rendered after a prefix, and followed by something other than a digit, reads back. */
  lemma ReadAfter(prefix: string, i: int, t: string)
    requires t == [] || !IsDigit(t[0])
    ensures ReadInt((prefix + (IntToDecimal(i) + t))[|prefix|..]) == i
  {
    assert (prefix + (IntToDecimal(i) + t))[|prefix|..] == IntToDecimal(i) + t;
    ReadIntRoundTrip(i, t);
  }

  /** High and critical risk share one guidance sentence: the summary does not tell them apart. */
  lemma HighAndCriticalAlike(heartRate: int, abnormalities: seq<string>)
    ensures PatientSummary(heartRate, abnormalities, High) == PatientSummary(heartRate, abnormalities, Critical)
  {
  }

  /**
   * For a classifier result the summary's middle follows from the findings alone: none gives the normal text,
   * medium risk the appointment advice, high risk the prompt advice; the "minor" advice never appears.
   */
  lemma SummaryOfClassified(heartRate: int, age: int, risk: RiskLevel, abnormalities: seq<string>, rhythm: string)
    requires Classified(heartRate, age, risk, abnormalities, rhythm)
    ensures abnormalities == [] ==>
              PatientSummary(heartRate, abnormalities, risk)
                == SummaryOpening(heartRate) + NormalRhythmText + HealthyLifestyleText + Disclaimer
    ensures abnormalities != [] ==> risk in {Medium, High}
    ensures PatientSummary(heartRate, abnormalities, risk)
              != SummaryOpening(heartRate) + IrregularitiesText + MinorGuidance + Disclaimer
  {
    ClassificationBounds(heartRate, age, risk, abnormalities, rhythm);
    var minor := SummaryOpening(heartRate) + IrregularitiesText + MinorGuidance + Disclaimer;
    assert |MinorGuidance| == 108 && |AppointmentGuidance| == 107 && |PromptGuidance| == 103;
    assert |NormalRhythmText + HealthyLifestyleText| == 160 && |IrregularitiesText| == 56;
    assert |PatientSummary(heartRate, abnormalities, risk)| != |minor|;
  }

  // ---------------------------------------------------------------- doctor notes

  const NotesTitle: string := "ECG Analysis Summary:\n\n"
  const PatientLabel: string := "Patient: "
  const RateLabel: string := "Average Heart Rate: "
  const DurationLine: string := "Recording Duration: 30 seconds\n"
  const DataPointsLabel: string := "Data Points: "
  const AbnormalitiesHeading: string := "Abnormalities Detected:\n"
  const RecommendationsHeading: string := "Clinical Recommendations:\n"

  const RoutineLine1: string := "- Normal ECG findings for age group\n"
  const RoutineLine2: string := "- Recommend routine follow-up as per guidelines\n"
  const RoutineLine3: string := "- Continue current cardiac health management\n"
  const WorkupLine1: string := "- Consider 12-lead ECG for comprehensive evaluation\n"
  const WorkupLine2: string := "- Review patient medication list for potential causes\n"
  const WorkupLine3: string := "- Assess for symptoms: chest pain, palpitations, dyspnea\n"
  const BradycardiaLine1: string := "- Consider evaluation for sick sinus syndrome or AV block\n"
  const BradycardiaLine2: string := "- Review medications that may cause bradycardia\n"
  const TachycardiaLine1: string := "- Evaluate for underlying causes of tachycardia\n"
  const TachycardiaLine2: string := "- Consider thyroid function tests\n"
  const TachycardiaLine3: string := "- Assess hydration status and recent activities\n"

  const SingleLeadNote: string :=
    "\nNote: This analysis is based on a 30-second single-lead recording. Full 12-lead ECG recommended for comprehensive cardiac assessment."

  const RoutineLines: string := RoutineLine1 + RoutineLine2 + RoutineLine3
  const WorkupLines: string := WorkupLine1 + WorkupLine2 + WorkupLine3
  const BradycardiaLines: string := BradycardiaLine1 + BradycardiaLine2
  const TachycardiaLines: string := TachycardiaLine1 + TachycardiaLine2 + TachycardiaLine3

  function PatientLine(age: int, gender: string): string {
    PatientLabel + IntToDecimal(age) + "-year-old " + gender + "\n"
  }

  function RateLine(heartRate: int): string {
    RateLabel + IntToDecimal(heartRate) + " bpm\n"
  }

  function DataPointsLine(sampleCount: nat): string {
    DataPointsLabel + NatToDecimal(sampleCount) + "\n\n"
  }

  /** The header block: patient, average heart rate, the fixed duration label and the number of samples. */
  function NotesHeader(heartRate: int, age: int, gender: string, sampleCount: nat): string {
    NotesTitle + PatientLine(age, gender) + RateLine(heartRate) + DurationLine + DataPointsLine(sampleCount)
  }

  /** One numbered line of the abnormality list. */
  function NumberedLine(number: nat, abnormality: string): string {
    NatToDecimal(number) + ". " + abnormality + "\n"
  }

  /** The abnormalities numbered from 1, in the order given. */
  function NumberedList(abnormalities: seq<string>): string
    decreases |abnormalities|
  {
    if abnormalities == [] then ""
    else NumberedList(abnormalities[..|abnormalities| - 1])
         + NumberedLine(|abnormalities|, abnormalities[|abnormalities| - 1])
  }

  /** The findings block, present only when something was found. */
  function FindingsSection(abnormalities: seq<string>): string {
    if abnormalities == [] then "" else AbnormalitiesHeading + NumberedList(abnormalities) + "\n"
  }

  /** The recommendation bullets: routine ones, or the general work-up plus a block for a slow or a fast rate. */
  function Recommendations(heartRate: int, abnormalities: seq<string>): string {
    if abnormalities == [] then RoutineLines
    else if heartRate < 60 then WorkupLines + BradycardiaLines
    else if heartRate > 100 then WorkupLines + TachycardiaLines
    else WorkupLines
  }

  /** The whole doctor notes. */
  function DoctorNotes(heartRate: int, abnormalities: seq<string>, age: int, gender: string, sampleCount: nat): string {
    NotesHeader(heartRate, age, gender, sampleCount) + FindingsSection(abnormalities)
      + RecommendationsHeading + Recommendations(heartRate, abnormalities) + SingleLeadNote
  }

  /** Builds the doctor notes line by line; the sample count is that of all samples, with a reading or not. */
  method GenerateDoctorNotes(heartRate: int, abnormalities: seq<string>, age: int, gender: string, rawData: seq<Sample>)
    returns (notes: string)
    ensures notes == DoctorNotes(heartRate, abnormalities, age, gender, |rawData|)
  {
    notes := NotesTitle;
    notes := notes + (PatientLabel + IntToDecimal(age) + "-year-old " + gender + "\n");
    notes := notes + (RateLabel + IntToDecimal(heartRate) + " bpm\n");
    notes := notes + DurationLine;
    notes := notes + (DataPointsLabel + NatToDecimal(|rawData|) + "\n\n");
    ghost var header := notes;
    assert header == NotesHeader(heartRate, age, gender, |rawData|);

    if |abnormalities| > 0 {
      notes := notes + AbnormalitiesHeading;
      var index := 0;
      while index < |abnormalities|
        invariant 0 <= index <= |abnormalities|
        invariant notes == header + AbnormalitiesHeading + NumberedList(abnormalities[..index])
      {
        assert abnormalities[..index + 1][..index] == abnormalities[..index];
        Associative(header + AbnormalitiesHeading, NumberedList(abnormalities[..index]),
                    NumberedLine(index + 1, abnormalities[index]));
        notes := notes + (NatToDecimal(index + 1) + ". " + abnormalities[index] + "\n");
        index := index + 1;
      }
      assert abnormalities[..index] == abnormalities;
      notes := notes + "\n";
      Associative(header, AbnormalitiesHeading, NumberedList(abnormalities));
      Associative(header, AbnormalitiesHeading + NumberedList(abnormalities), "\n");
    }
    assert notes == header + FindingsSection(abnormalities);

    notes := notes + RecommendationsHeading;
    ghost var beforeBullets := notes;

    if |abnormalities| == 0 {
      notes := notes + RoutineLine1;
      notes := notes + RoutineLine2;
      notes := notes + RoutineLine3;
      Associative(beforeBullets, RoutineLine1, RoutineLine2);
      Associative(beforeBullets, RoutineLine1 + RoutineLine2, RoutineLine3);
    } else {
      notes := notes + WorkupLine1;
      notes := notes + WorkupLine2;
      notes := notes + WorkupLine3;
      Associative(beforeBullets, WorkupLine1, WorkupLine2);
      Associative(beforeBullets, WorkupLine1 + WorkupLine2, WorkupLine3);

      if heartRate < 60 {
        notes := notes + BradycardiaLine1;
        notes := notes + BradycardiaLine2;
        Associative(beforeBullets + WorkupLines, BradycardiaLine1, BradycardiaLine2);
        Associative(beforeBullets, WorkupLines, BradycardiaLines);
      } else if heartRate > 100 {
        notes := notes + TachycardiaLine1;
        notes := notes + TachycardiaLine2;
        notes := notes + TachycardiaLine3;
        Associative(beforeBullets + WorkupLines, TachycardiaLine1, TachycardiaLine2);
        Associative(beforeBullets + WorkupLines, TachycardiaLine1 + TachycardiaLine2, TachycardiaLine3);
        Associative(beforeBullets, WorkupLines, TachycardiaLines);
      }
    }
    assert notes == beforeBullets + Recommendations(heartRate, abnormalities);

    notes := notes + SingleLeadNote;
  }

  /** The notes open with the header and close with the single-lead note. */
  lemma NotesFrame(heartRate: int, abnormalities: seq<string>, age: int, gender: string, sampleCount: nat)
    ensures StartsWith(DoctorNotes(heartRate, abnormalities, age, gender, sampleCount),
                       NotesHeader(heartRate, age, gender, sampleCount))
    ensures EndsWith(DoctorNotes(heartRate, abnormalities, age, gender, sampleCount), SingleLeadNote)
  {
    var header := NotesHeader(heartRate, age, gender, sampleCount);
    var body := FindingsSection(abnormalities) + RecommendationsHeading + Recommendations(heartRate, abnormalities);
    Associative(header, FindingsSection(abnormalities), RecommendationsHeading);
    Associative(header, FindingsSection(abnormalities) + RecommendationsHeading, Recommendations(heartRate, abnormalities));
    Associative(header, body, SingleLeadNote);
    Affixes(header, body + SingleLeadNote);
    Affixes(header + body, SingleLeadNote);
  }

  lemma StartsWithExtended(s: string, p: string, t: string)
    requires StartsWith(s, p)
    ensures StartsWith(s + t, p)
  {
  }

  /** An integer rendered after a prefix, and followed by something other than a digit, reads back. */
  lemma ReadAfterPrefix(s: string, p: string, i: int, c: string)
    requires c != [] && !IsDigit(c[0])
    requires StartsWith(s, p + IntToDecimal(i) + c)
    ensures ReadInt(s[|p|..]) == i
  {
    var d := IntToDecimal(i);
    var t := s[|p| + |d|..];
    assert (p + d + c)[|p|..|p| + |d|] == d;
    assert (p + d + c)[|p| + |d|] == c[0];
    assert s[|p|..] == d + t;
    ReadIntRoundTrip(i, t);
  }

  lemma StartsWithTransitive(s: string, p: string, q: string)
    requires StartsWith(s, p) && StartsWith(p, q)
    ensures StartsWith(s, q)
  {
  }

  /** The header, split where the numbers it states begin. */
  lemma HeaderLayout(heartRate: int, age: int, gender: string, sampleCount: nat)
    ensures StartsWith(NotesHeader(heartRate, age, gender, sampleCount),
                       NotesTitle + PatientLabel + IntToDecimal(age) + "-year-old ")
    ensures StartsWith(NotesHeader(heartRate, age, gender, sampleCount),
                       NotesTitle + PatientLine(age, gender) + RateLabel + IntToDecimal(heartRate) + " bpm\n")
    ensures NotesHeader(heartRate, age, gender, sampleCount)
              == NotesTitle + PatientLine(age, gender) + RateLine(heartRate) + DurationLine + DataPointsLabel
                 + IntToDecimal(sampleCount) + "\n\n"
  {
    var ageText := NotesTitle + PatientLabel + IntToDecimal(age) + "-year-old ";
    var patientPart := NotesTitle + PatientLine(age, gender);
    assert patientPart == ageText + gender + "\n" by {
      Associative(NotesTitle, PatientLabel + IntToDecimal(age) + "-year-old " + gender, "\n");
      Associative(NotesTitle, PatientLabel + IntToDecimal(age) + "-year-old ", gender);
      Associative(NotesTitle, PatientLabel + IntToDecimal(age), "-year-old ");
      Associative(NotesTitle, PatientLabel, IntToDecimal(age));
    }
    var rateText := patientPart + RateLabel + IntToDecimal(heartRate) + " bpm\n";
    var ratePart := patientPart + RateLine(heartRate);
    assert ratePart == rateText by {
      Associative(patientPart, RateLabel + IntToDecimal(heartRate), " bpm\n");
      Associative(patientPart, RateLabel, IntToDecimal(heartRate));
    }
    var countPart := ratePart + DurationLine;
    assert NotesHeader(heartRate, age, gender, sampleCount)
             == countPart + DataPointsLabel + IntToDecimal(sampleCount) + "\n\n" by {
      Associative(countPart, DataPointsLabel + NatToDecimal(sampleCount), "\n\n");
      Associative(countPart, DataPointsLabel, NatToDecimal(sampleCount));
    }
    var tail := DurationLine + DataPointsLabel + IntToDecimal(sampleCount) + "\n\n";
    assert NotesHeader(heartRate, age, gender, sampleCount) == ratePart + tail by {
      Associative(ratePart, DurationLine, DataPointsLabel);
      Associative(ratePart, DurationLine + DataPointsLabel, IntToDecimal(sampleCount));
      Associative(ratePart, DurationLine + DataPointsLabel + IntToDecimal(sampleCount), "\n\n");
    }
    Affixes(ratePart, tail);
    Affixes(ageText + gender, "\n");
    Affixes(ageText, gender);
    StartsWithTransitive(patientPart, ageText + gender, ageText);
    Affixes(patientPart, RateLine(heartRate));
    StartsWithTransitive(ratePart, patientPart, ageText);
    StartsWithTransitive(NotesHeader(heartRate, age, gender, sampleCount), ratePart, ageText);
  }

  /** The age, the average heart rate and the sample count in the header can each be read back. */
  lemma NotesStateHeader(heartRate: int, abnormalities: seq<string>, age: int, gender: string, sampleCount: nat)
    ensures var notes := DoctorNotes(heartRate, abnormalities, age, gender, sampleCount);
            && ReadInt(notes[|NotesTitle + PatientLabel|..]) == age
            && ReadInt(notes[|NotesTitle + PatientLine(age, gender) + RateLabel|..]) == heartRate
            && ReadInt(notes[|NotesTitle + PatientLine(age, gender) + RateLine(heartRate) + DurationLine
                              + DataPointsLabel|..]) == sampleCount
  {
    var notes := DoctorNotes(heartRate, abnormalities, age, gender, sampleCount);
    var header := NotesHeader(heartRate, age, gender, sampleCount);
    NotesFrame(heartRate, abnormalities, age, gender, sampleCount);
    HeaderLayout(heartRate, age, gender, sampleCount);
    var p1 := NotesTitle + PatientLabel;
    var p2 := NotesTitle + PatientLine(age, gender) + RateLabel;
    var p3 := NotesTitle + PatientLine(age, gender) + RateLine(heartRate) + DurationLine + DataPointsLabel;
    StartsWithTransitive(notes, header, p1 + IntToDecimal(age) + "-year-old ");
    StartsWithTransitive(notes, header, p2 + IntToDecimal(heartRate) + " bpm\n");
    Affixes(p3 + IntToDecimal(sampleCount), "\n\n");
    ReadAfterPrefix(notes, p1, age, "-year-old ");
    ReadAfterPrefix(notes, p2, heartRate, " bpm\n");
    ReadAfterPrefix(notes, p3, sampleCount, "\n\n");
  }

  lemma {:induction false} NumberedListPrefix(abnormalities: seq<string>, k: nat)
    requires k <= |abnormalities|
    ensures StartsWith(NumberedList(abnormalities), NumberedList(abnormalities[..k]))
    decreases |abnormalities|
  {
    if k == |abnormalities| {
      assert abnormalities[..k] == abnormalities;
    } else {
      var shorter := abnormalities[..|abnormalities| - 1];
      NumberedListPrefix(shorter, k);
      assert shorter[..k] == abnormalities[..k];
      StartsWithExtended(NumberedList(shorter), NumberedList(shorter[..k]),
                         NumberedLine(|abnormalities|, abnormalities[|abnormalities| - 1]));
    }
  }

  /**
   * The k-th abnormality (from 0) is listed, in classifier order, on a line of its own that starts with its
   * number k + 1, right after the lines of the abnormalities before it.
   */
  lemma NumberedListLine(abnormalities: seq<string>, k: nat)
    requires k < |abnormalities|
    ensures var start := |NumberedList(abnormalities[..k])|;
            var line := NumberedLine(k + 1, abnormalities[k]);
            && start + |line| <= |NumberedList(abnormalities)|
            && NumberedList(abnormalities)[start..start + |line|] == line
            && ReadInt(NumberedList(abnormalities)[start..]) == k + 1
  {
    var start := |NumberedList(abnormalities[..k])|;
    var line := NumberedLine(k + 1, abnormalities[k]);
    var list := NumberedList(abnormalities);
    NumberedListPrefix(abnormalities, k + 1);
    assert abnormalities[..k + 1][..k] == abnormalities[..k];
    assert NumberedList(abnormalities[..k + 1]) == NumberedList(abnormalities[..k]) + line;
    assert list[start..start + |line|] == NumberedList(abnormalities[..k + 1])[start..];
    Associative(NatToDecimal(k + 1), ". ", abnormalities[k]);
    Associative(NatToDecimal(k + 1), ". " + abnormalities[k], "\n");
    assert line == IntToDecimal(k + 1) + (". " + abnormalities[k] + "\n");
    StartsWithTransitive(list, NumberedList(abnormalities[..k]) + line, NumberedList(abnormalities[..k]) + IntToDecimal(k + 1) + ". ") by {
      Associative(NumberedList(abnormalities[..k]), IntToDecimal(k + 1), ". " + abnormalities[k] + "\n");
      Associative(NumberedList(abnormalities[..k]) + IntToDecimal(k + 1), ". ", abnormalities[k] + "\n");
      Associative(". ", abnormalities[k], "\n");
      Affixes(NumberedList(abnormalities[..k]) + IntToDecimal(k + 1) + ". ", abnormalities[k] + "\n");
    }
    ReadAfterPrefix(list, NumberedList(abnormalities[..k]), k + 1, ". ");
  }

  /** A string does not end with `p` when the two differ at the k-th character from the end. */
  lemma NotEndingWith(s: string, p: string, k: nat)
    requires 1 <= k <= |p| && k <= |s|
    requires s[|s| - k] != p[|p| - k]
    ensures !EndsWith(s, p)
  {
    if |p| <= |s| {
      assert s[|s| - |p|..][|p| - k] == s[|s| - k];
    }
  }

  lemma EndsWithAppended(s: string, p: string)
    ensures EndsWith(s + p, p)
  {
  }

  /** The bradycardia block closes the recommendations exactly when something was found and the rate is below 60. */
  lemma BradycardiaAdviceIff(heartRate: int, abnormalities: seq<string>)
    ensures EndsWith(Recommendations(heartRate, abnormalities), BradycardiaLines)
            <==> abnormalities != [] && heartRate < 60
  {
    var r := Recommendations(heartRate, abnormalities);
    var b := BradycardiaLines;
    assert b[|b| - 2] == 'a' && b[|b| - 3] == 'i';
    if abnormalities == [] {
      assert r[|r| - 2] == 't';
      NotEndingWith(r, b, 2);
    } else if heartRate < 60 {
      EndsWithAppended(WorkupLines, b);
    } else if heartRate > 100 {
      assert r[|r| - 2] == 's';
      NotEndingWith(r, b, 2);
    } else {
      assert r[|r| - 3] == 'e';
      NotEndingWith(r, b, 3);
    }
  }

  /** The tachycardia block closes the recommendations exactly when something was found and the rate is above 100. */
  lemma TachycardiaAdviceIff(heartRate: int, abnormalities: seq<string>)
    ensures EndsWith(Recommendations(heartRate, abnormalities), TachycardiaLines)
            <==> abnormalities != [] && heartRate > 100
  {
    var r := Recommendations(heartRate, abnormalities);
    var t := TachycardiaLines;
    assert t[|t| - 2] == 's';
    if abnormalities == [] {
      assert |r| < |t|;
    } else if heartRate > 100 {
      EndsWithAppended(WorkupLines, t);
    } else {
      assert r[|r| - 2] == 'a';
      NotEndingWith(r, t, 2);
    }
  }

  /** The routine follow-up bullets are given exactly when nothing was found. */
  lemma RoutineAdviceIff(heartRate: int, abnormalities: seq<string>)
    ensures EndsWith(Recommendations(heartRate, abnormalities), RoutineLines) <==> abnormalities == []
  {
    var r := Recommendations(heartRate, abnormalities);
    var n := RoutineLines;
    assert n[|n| - 2] == 't';
    if abnormalities == [] {
      assert EndsWith(r, n);
    } else {
      assert r[|r| - 2] in {'a', 's'};
      NotEndingWith(r, n, 2);
    }
  }

  /** Past a common ending, whether `x + y` ends with `c` is decided by `y` alone when `y` is long enough. */
  lemma EndsWithBeforeCommon(x: string, y: string, c: string, n: string)
    requires |c| <= |y|
    ensures EndsWith(x + y + n, c + n) <==> EndsWith(y, c)
  {
    var s := x + y + n;
    assert s[..|s| - |n|] == x + y;
    assert (x + y)[|x + y| - |c|..] == y[|y| - |c|..];
    if EndsWith(s, c + n) {
      assert s[|s| - |c + n|..][..|c|] == c;
      assert s[|s| - |c + n|..][..|c|] == (x + y)[|x + y| - |c|..];
    }
    if EndsWith(y, c) {
      assert s[|s| - |c + n|..] == (x + y)[|x + y| - |c|..] + n;
    }
  }

  /** The routine bullets sit right before the closing note exactly when nothing was found. */
  lemma NotesRoutineBlock(heartRate: int, abnormalities: seq<string>, age: int, gender: string, sampleCount: nat)
    ensures EndsWith(DoctorNotes(heartRate, abnormalities, age, gender, sampleCount), RoutineLines + SingleLeadNote)
            <==> abnormalities == []
  {
    var before := NotesHeader(heartRate, age, gender, sampleCount) + FindingsSection(abnormalities) + RecommendationsHeading;
    var r := Recommendations(heartRate, abnormalities);
    RoutineAdviceIff(heartRate, abnormalities);
    assert |RoutineLines| <= |r|;
    EndsWithBeforeCommon(before, r, RoutineLines, SingleLeadNote);
  }

  /** The bradycardia bullets sit right before the closing note exactly for findings with a rate below 60. */
  lemma NotesBradycardiaBlock(heartRate: int, abnormalities: seq<string>, age: int, gender: string, sampleCount: nat)
    ensures EndsWith(DoctorNotes(heartRate, abnormalities, age, gender, sampleCount), BradycardiaLines + SingleLeadNote)
            <==> abnormalities != [] && heartRate < 60
  {
    var before := NotesHeader(heartRate, age, gender, sampleCount) + FindingsSection(abnormalities) + RecommendationsHeading;
    var r := Recommendations(heartRate, abnormalities);
    BradycardiaAdviceIff(heartRate, abnormalities);
    assert |BradycardiaLines| <= |r|;
    EndsWithBeforeCommon(before, r, BradycardiaLines, SingleLeadNote);
  }

  /** The second-to-last characters of the bullet blocks, which tell them apart. */
  lemma BlockEndings()
    ensures RoutineLines[|RoutineLines| - 2] == 't'
    ensures TachycardiaLines[|TachycardiaLines| - 2] == 's'
  {
  }

  lemma EndingCharacter(p: string, n: string, k: nat)
    requires 1 <= k <= |p|
    ensures (p + n)[|p + n| - |n| - k] == p[|p| - k]
  {
  }

  /** A string that ends with `p` does not end with `q` when the two differ at the k-th character from the end. */
  lemma NotEndingWithOther(s: string, p: string, q: string, k: nat)
    requires EndsWith(s, p)
    requires 1 <= k <= |p| && k <= |q|
    requires p[|p| - k] != q[|q| - k]
    ensures !EndsWith(s, q)
  {
    assert s[|s| - |p|..][|p| - k] == s[|s| - k];
    if |q| <= |s| {
      assert s[|s| - |q|..][|q| - k] == s[|s| - k];
    }
  }

  /** The tachycardia bullets sit right before the closing note exactly for findings with a rate above 100. */
  lemma NotesTachycardiaBlock(heartRate: int, abnormalities: seq<string>, age: int, gender: string, sampleCount: nat)
    ensures EndsWith(DoctorNotes(heartRate, abnormalities, age, gender, sampleCount), TachycardiaLines + SingleLeadNote)
            <==> abnormalities != [] && heartRate > 100
  {
    if abnormalities == [] {
      NotesRoutineBlock(heartRate, abnormalities, age, gender, sampleCount);
      BlockEndings();
      EndingCharacter(RoutineLines, SingleLeadNote, 2);
      EndingCharacter(TachycardiaLines, SingleLeadNote, 2);
      NotEndingWithOther(DoctorNotes(heartRate, abnormalities, age, gender, sampleCount),
                         RoutineLines + SingleLeadNote, TachycardiaLines + SingleLeadNote, |SingleLeadNote| + 2);
    } else {
      var before := NotesHeader(heartRate, age, gender, sampleCount) + FindingsSection(abnormalities) + RecommendationsHeading;
      var r := Recommendations(heartRate, abnormalities);
      TachycardiaAdviceIff(heartRate, abnormalities);
      assert |TachycardiaLines| <= |r|;
      EndsWithBeforeCommon(before, r, TachycardiaLines, SingleLeadNote);
    }
  }
}
