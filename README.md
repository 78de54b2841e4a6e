# ECG analysis pipeline, in Dafny

This project models the analysis step of a single-lead ECG recording app: `ECGService.analyzeECGData` and
the two text generators it calls (`src/services/ecgService.ts`). One call does four things.

1. It averages the heart-rate readings of a recording. Samples whose `heartRate` is missing or zero count
   for nothing. The mean is rounded with `Math.round`. A recording with no reading gets the fixed default of 75.
2. It classifies the average and the patient's age with fixed threshold rules. The result is a rhythm
   sentence, an ordered list of abnormality labels and a risk level (`low | medium | high | critical`).
3. It writes a plain-language summary for the patient.
4. It writes itemized notes for the doctor.

Modules follow these parts:

- `Decimal` (decimal.dfy) renders an integer the way a template literal does (`${n}`) for magnitudes up to
  2^53, where JavaScript writes the exact digits. It also reads the number back from the front of a text.
- `Aggregation` (aggregation.dfy) holds `Sample`, the truthy-reading filter, the left-fold sum,
  `Math.round` of a quotient and the average.
- `Classification` (classification.dfy) has the classifier as an imperative method (`Classify`). It reassigns
  local variables and appends to the list, as the source does. The method is proved against `Classified`,
  a rule-by-rule statement of what a result must satisfy. The lemmas show that `Classified` pins down exactly
  one result and derive the listed properties from it.
- `Reports` (reports.dfy) builds both texts step by step with `+=`, and the doctor notes number the findings in
  a loop. Each generator is proved equal to a specification function. The lemmas about those functions say
  what a reader of the text can rely on: the numbers can be read back, each finding is listed in order, and
  each block of bullets appears exactly when its condition holds.
- `Analysis` (analysis.dfy) is the entry point and the `ECGAnalysis` result shape (ecgService.ts:34-41).

`Math.round(sum / n)` for a positive count `n` is `(2 * sum + n) / (2 * n)` under Dafny's floor division on a
positive divisor. That rounds halves up, toward positive infinity, as JavaScript does, negative values included.

## Model

| member | source | states |
|---|---|---|
| Aggregation.HeartRates | src/services/ecgService.ts:191 | a value is kept iff some sample has it as a present, non-zero reading; the list is empty iff no sample has such a reading |
| Aggregation.HeartRatesOfSample | src/services/ecgService.ts:191 | the truthiness test of `d.heartRate` (`HasReading`): a missing reading and a reading of 0 are dropped, any other reading is kept |
| Aggregation.HeartRatesOfConcat | src/services/ecgService.ts:191 | the filter keeps recording order and multiplicity: the readings of two pieces of a recording are those of the first followed by those of the second |
| Aggregation.SumOfConcat | src/services/ecgService.ts:193 | the `reduce` sum (`Sum`) of two lists joined is the sum of their sums |
| Aggregation.HeartRatesCountAndTotal | src/services/ecgService.ts:191-193 | the filtered readings are as many as the samples with a reading, and their `reduce` sum is the sample-by-sample total of those readings |
| Aggregation.RoundedQuotient | src/services/ecgService.ts:193 | the result r satisfies r - 1/2 <= sum/n < r + 1/2: round to nearest, halves up (`Math.round`) |
| Aggregation.AverageHeartRate | src/services/ecgService.ts:191-194 | 75 when no sample carries a truthy reading (the empty recording included); otherwise `Math.round` of the mean, as bounds in terms of the number of samples with a reading and the total of their readings, both counted sample by sample |
| Aggregation.RoundingIsUnique | src/services/ecgService.ts:193 | the rounding bounds admit one integer only, so they determine the average |
| Aggregation.AverageWithinReadings | src/services/ecgService.ts:191-194 | when all readings lie in [lo, hi], so does the average |
| Decimal.NatToDecimal | src/services/ecgService.ts:261 | `${n}` of a count: only decimal digits, at least one, a single digit exactly below 10, and a leading zero only for 0 |
| Decimal.IntToDecimal | src/services/ecgService.ts:258-259 | `${n}` of an integer of magnitude at most 2^53: a minus sign exactly for negative values; the rest is `NatToDecimal` of the magnitude, so there is no leading zero after the sign |
| Decimal.DigitsRoundTrip | src/services/ecgService.ts:261 | the digits rendered for a count denote that count |
| Decimal.ReadIntRoundTrip | src/services/ecgService.ts:234 | an integer rendered with `${}` and followed by a non-digit reads back as itself, negative numbers included |
| Classification.Classify | src/services/ecgService.ts:196-215 | the rate rules, then the age rule, give a result that satisfies every rule of `Classified` |
| Classification.ClassifiedAbnormalities | src/services/ecgService.ts:196-215 | the rules leave exactly one abnormality list: the rate finding (Bradycardia below 60, else Tachycardia above 100), then the age concern when age > 65 and rate > 90 |
| Classification.ClassificationIsUnique | src/services/ecgService.ts:196-215 | two results that satisfy the rules for the same rate and age are equal (the classifier is deterministic) |
| Classification.NormalRangeIsLowRisk | src/services/ecgService.ts:196-215 | rate in [60, 100] without the age rule gives risk low, no abnormalities and "Normal sinus rhythm" |
| Classification.SlowRateIsBradycardia | src/services/ecgService.ts:201-204 | rate below 60 gives exactly ["Bradycardia"], risk medium, "Slow heart rate detected"; the age rule cannot fire |
| Classification.FastRateIsTachycardia | src/services/ecgService.ts:205-215 | rate above 100 lists "Tachycardia" first with "Fast heart rate detected"; risk is high if age > 65, else medium |
| Classification.AgeRuleEscalates | src/services/ecgService.ts:212-215 | age > 65 and rate > 90 force risk high with the age concern last; the rhythm stays what the rate rules chose |
| Classification.ClassificationBounds | src/services/ecgService.ts:196-215 | risk is never critical, there are at most two abnormalities, and risk is low exactly when there are none |
| Reports.GeneratePatientSummary | src/services/ecgService.ts:233-254 | the text built sentence by sentence equals `PatientSummary` |
| Reports.SummaryFrame | src/services/ecgService.ts:234-251 | the summary starts with the heart-rate sentence and ends with the blank line and the disclaimer |
| Reports.SummaryStatesHeartRate | src/services/ecgService.ts:234 | the average heart rate can be read back from the first sentence, right after its fixed prefix |
| Reports.HighAndCriticalAlike | src/services/ecgService.ts:242-248 | high and critical risk produce the same summary |
| Reports.SummaryOfClassified | src/services/ecgService.ts:236-248 | for a classifier result: no findings gives the normal text, findings come with risk medium or high, and the low-risk "minor" text never appears |
| Reports.GenerateDoctorNotes | src/services/ecgService.ts:256-295 | the notes built line by line and through the numbering loop equal `DoctorNotes`, with the count of all samples |
| Reports.NotesFrame | src/services/ecgService.ts:257-292 | the notes start with the header block and end with the single-lead note |
| Reports.NotesStateHeader | src/services/ecgService.ts:258-261 | the age, the average heart rate and the sample count can each be read back from the header |
| Reports.NumberedListLine | src/services/ecgService.ts:265-267 | the k-th abnormality has its own line, numbered k + 1, placed after the lines of the abnormalities before it |
| Reports.RoutineAdviceIff | src/services/ecgService.ts:273-276 | the routine follow-up bullets close the recommendations iff there are no abnormalities |
| Reports.BradycardiaAdviceIff | src/services/ecgService.ts:277-284 | the bradycardia bullets close the recommendations iff there are abnormalities and the rate is below 60 |
| Reports.TachycardiaAdviceIff | src/services/ecgService.ts:277-289 | the tachycardia bullets close the recommendations iff there are abnormalities and the rate is above 100 |
| Reports.NotesRoutineBlock | src/services/ecgService.ts:271-276 | in the whole notes, the routine bullets come right before the closing note iff there are no abnormalities |
| Reports.NotesBradycardiaBlock | src/services/ecgService.ts:277-292 | in the whole notes, the bradycardia bullets come right before the closing note iff there are abnormalities and the rate is below 60 |
| Reports.NotesTachycardiaBlock | src/services/ecgService.ts:277-292 | in the whole notes, the tachycardia bullets come right before the closing note iff there are abnormalities and the rate is above 100 |
| Analysis.AnalyzeEcgData | src/services/ecgService.ts:187-231 | the analysis carries the average heart rate, a classification satisfying the rules (never critical, at most two findings), and both narratives for those values and all samples |
| Analysis.AverageScenarios | src/services/ecgService.ts:191-194 | worked averages: no samples, or only missing and zero readings, give 75; 55 and 57 give 56; 70 and 71 round up to 71; 55, 55 and 58 give 56 |
| Analysis.ClassificationScenarios | src/services/ecgService.ts:196-215 | worked classifications for (rate, age) = (75, 40), (56, 30), (110, 70), (95, 70) and (80, 66) |

## Left out

- The Supabase create, read and update methods (src/services/ecgService.ts:44-184) are remote database and
  authentication calls. Their only logic wraps results and errors.
- `async`/`Promise`: nothing inside `analyzeECGData` is awaited, so the model is a plain method.
- Floating point: readings and amplitudes are integers, and `sum / n` is exact rational arithmetic. JavaScript
  divides in doubles, which gives the same rounding for all realistic counts and sums. NaN readings are not
  modelled. A NaN is falsy, so the filter would drop it anyway.
- Integer rendering: `IntToDecimal` writes the exact digits of any integer. JavaScript does so only up to 2^53
  in magnitude (`Number.MAX_SAFE_INTEGER` + 1). Above that it writes the shortest digits that identify the double,
  padded with zeros: "1152921504606847000" for 2^60. From 10^21 on it uses exponent form ("1e+21"). The model
  captures neither. The values rendered stay far below 2^53. The average heart rate lies between the readings it
  averages (`AverageWithinReadings`), and device readings are single bytes. The sample count is an array length.
  The age is a patient's age typed into a form. Non-integer ages are not modelled either.
- A `heartRate` that is not a number, or a `rawData` that is not an array, would make the source throw or
  misbehave. The model types both.
- `generatePatientSummary` takes the risk level as any string, and any value other than 'low' or 'medium'
  gets the prompt-contact sentence. The model takes the four-value enumeration, which is all the source's
  one caller passes.
- The timestamp and amplitude of a sample are carried but never used, as in the source.
- src/services/patientService.ts, src/services/bluetoothService.ts, the screens and the report views are not
  part of this model. They are database calls, Web Bluetooth I/O with timers and `Math.sin`, and React views.
