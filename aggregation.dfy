/** Heart-rate aggregation: the samples that carry a heart rate are averaged and rounded. */
module Aggregation {
  import opened Wrappers

  /** One point of a recording: when it was taken, the signal amplitude, and an optional heart-rate reading. */
  datatype Sample = Sample(timestamp: int, value: int, heartRate: Option<int>)

  /** Heart rate used when no sample carries a reading. */
  const DefaultHeartRate: int := 75

  /** JavaScript truthiness of `d.heartRate`: present and not zero. */
  predicate HasReading(d: Sample) {
    d.heartRate.Some? && d.heartRate.value != 0
  }

  /** The readings of the samples that have one, in recording order (the filter and map of the aggregation). */
  function HeartRates(samples: seq<Sample>): (hs: seq<int>)
    ensures |hs| <= |samples|
    ensures forall x :: x in hs <==> exists j :: 0 <= j < |samples| && HasReading(samples[j]) && samples[j].heartRate.value == x
    ensures hs == [] <==> forall j :: 0 <= j < |samples| ==> !HasReading(samples[j])
    decreases |samples|
  {
    if samples == [] then []
    else
      var rest := HeartRates(samples[1..]);
      assert forall j :: 1 <= j < |samples| ==> samples[j] == samples[1..][j - 1];
      if HasReading(samples[0]) then [samples[0].heartRate.value] + rest else rest
  }

  /** `reduce((sum, hr) => sum + hr, 0)`: a left fold. */
  function Sum(hs: seq<int>): int
    decreases |hs|
  {
    if hs == [] then 0 else Sum(hs[..|hs| - 1]) + hs[|hs| - 1]
  }

  /** JavaScript's `Math.round(sum / n)` for a positive count: the integer nearest to the quotient, halves rounded up. */
  function RoundedQuotient(sum: int, n: int): (r: int)
    requires n > 0
    ensures 2 * n * r - n <= 2 * sum < 2 * n * r + n
  {
    var q := (2 * sum + n) / (2 * n);
    assert 2 * n * q <= 2 * sum + n < 2 * n * q + 2 * n;
    q
  }

  /** What one sample adds to the total of the readings: its reading if it has one, else nothing. */
  function ReadingOf(d: Sample): int {
    if HasReading(d) then d.heartRate.value else 0
  }

  /** How many samples of a recording carry a reading, counted sample by sample. */
  function ReadingCount(samples: seq<Sample>): nat
    decreases |samples|
  {
    if samples == [] then 0
    else ReadingCount(samples[..|samples| - 1]) + (if HasReading(samples[|samples| - 1]) then 1 else 0)
  }

  /** The total of the readings of a recording, added up sample by sample. */
  function ReadingTotal(samples: seq<Sample>): int
    decreases |samples|
  {
    if samples == [] then 0 else ReadingTotal(samples[..|samples| - 1]) + ReadingOf(samples[|samples| - 1])
  }

  /** A sample keeps its heart rate exactly when the reading is there and is not zero. */
  lemma HeartRatesOfSample(timestamp: int, value: int, reading: int)
    ensures HeartRates([Sample(timestamp, value, None)]) == []
    ensures HeartRates([Sample(timestamp, value, Some(0))]) == []
    ensures reading != 0 ==> HeartRates([Sample(timestamp, value, Some(reading))]) == [reading]
  {
  }

  /** Filtering keeps recording order: the readings of two pieces of a recording are those of each, in turn. */
  lemma {:induction false} HeartRatesOfConcat(a: seq<Sample>, b: seq<Sample>)
    ensures HeartRates(a + b) == HeartRates(a) + HeartRates(b)
    decreases |a|
  {
    if a == [] {
      assert a + b == b;
    } else {
      assert (a + b)[0] == a[0];
      assert (a + b)[1..] == a[1..] + b;
      HeartRatesOfConcat(a[1..], b);
    }
  }

  lemma {:induction false} SumOfConcat(a: seq<int>, b: seq<int>)
    ensures Sum(a + b) == Sum(a) + Sum(b)
    decreases |b|
  {
    if b == [] {
      assert a + b == a;
    } else {
      var front := b[..|b| - 1];
      assert (a + b)[..|a + b| - 1] == a + front;
      SumOfConcat(a, front);
    }
  }

  /** The filtered readings are as many as the samples with a reading, and add up to their total. */
  lemma {:induction false} HeartRatesCountAndTotal(samples: seq<Sample>)
    ensures |HeartRates(samples)| == ReadingCount(samples)
    ensures Sum(HeartRates(samples)) == ReadingTotal(samples)
    decreases |samples|
  {
    if samples != [] {
      var front, last := samples[..|samples| - 1], samples[|samples| - 1];
      assert samples == front + [last];
      HeartRatesCountAndTotal(front);
      HeartRatesOfConcat(front, [last]);
      HeartRatesOfSample(last.timestamp, last.value, if last.heartRate.Some? then last.heartRate.value else 0);
      assert last == Sample(last.timestamp, last.value, last.heartRate);
      SumOfConcat(HeartRates(front), HeartRates([last]));
      assert Sum(HeartRates([last])) == ReadingOf(last) by {
        if HasReading(last) {
          assert Sum([last.heartRate.value]) == Sum([]) + last.heartRate.value;
        }
      }
    }
  }

  /**
   * The average heart rate of a recording: the default when no sample carries a reading, otherwise
   * `Math.round` of the total of the readings over their number.
   */
  function AverageHeartRate(samples: seq<Sample>): (r: int)
    ensures ReadingCount(samples) == 0 ==> r == DefaultHeartRate
    ensures ReadingCount(samples) > 0 ==>
              var n := ReadingCount(samples);
              2 * n * r - n <= 2 * ReadingTotal(samples) < 2 * n * r + n
  {
    HeartRatesCountAndTotal(samples);
    var hs := HeartRates(samples);
    if |hs| > 0 then RoundedQuotient(Sum(hs), |hs|) else DefaultHeartRate
  }

  /** The rounding bounds admit one integer only, so they say exactly what `Math.round` returns. */
  lemma RoundingIsUnique(sum: int, n: int, r1: int, r2: int)
    requires n > 0
    requires 2 * n * r1 - n <= 2 * sum < 2 * n * r1 + n
    requires 2 * n * r2 - n <= 2 * sum < 2 * n * r2 + n
    ensures r1 == r2
  {
    assert 2 * n * (r1 - r2) < 2 * n;
    assert 2 * n * (r2 - r1) < 2 * n;
    if r1 - r2 >= 1 {
      MultiplyMonotone(2 * n, 1, r1 - r2);
    }
    if r2 - r1 >= 1 {
      MultiplyMonotone(2 * n, 1, r2 - r1);
    }
  }

  lemma MultiplyMonotone(k: int, a: int, b: int)
    requires k > 0 && a <= b
    ensures k * a <= k * b
  {
  }

  lemma {:induction false} SumBounds(hs: seq<int>, lo: int, hi: int)
    requires forall i :: 0 <= i < |hs| ==> lo <= hs[i] <= hi
    ensures |hs| * lo <= Sum(hs) <= |hs| * hi
    decreases |hs|
  {
    if hs != [] {
      var n := |hs|;
      var front := hs[..n - 1];
      assert forall i :: 0 <= i < |front| ==> front[i] == hs[i];
      SumBounds(front, lo, hi);
      assert Sum(hs) == Sum(front) + hs[n - 1];
      assert (n - 1) * lo + lo == n * lo && (n - 1) * hi + hi == n * hi;
    }
  }

  /** A rounded quotient lies within any bounds the dividend divided by the count lies within. */
  lemma RoundedWithin(sum: int, n: int, r: int, lo: int, hi: int)
    requires n > 0
    requires n * lo <= sum <= n * hi
    requires 2 * n * r - n <= 2 * sum < 2 * n * r + n
    ensures lo <= r <= hi
  {
    assert 2 * n * (r - hi) <= n;
    if r - hi >= 1 {
      MultiplyMonotone(2 * n, 1, r - hi);
    }
    assert 2 * n * (lo - r) < n;
    if lo - r >= 1 {
      MultiplyMonotone(2 * n, 1, lo - r);
    }
  }

  /** The average lies between the smallest and the largest bound on the readings it averages. */
  lemma AverageWithinReadings(samples: seq<Sample>, lo: int, hi: int)
    requires HeartRates(samples) != []
    requires forall x :: x in HeartRates(samples) ==> lo <= x <= hi
    ensures lo <= AverageHeartRate(samples) <= hi
  {
    var hs := HeartRates(samples);
    assert forall i :: 0 <= i < |hs| ==> hs[i] in hs;
    HeartRatesCountAndTotal(samples);
    SumBounds(hs, lo, hi);
    RoundedWithin(Sum(hs), |hs|, AverageHeartRate(samples), lo, hi);
  }
}
