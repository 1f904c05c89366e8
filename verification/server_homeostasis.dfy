/** The server's homeostasis scorer (`calculateHomeostasis` of the backend's
    homeostasis routes): up to six sub-scores, one per truthy field of the
    latest health entry and environmental reading, averaged and rounded. */
module ServerHomeostasis {
  import opened Js
  import opened Samples

  // ---------------------------------------------------------------------------
  // Sub-scores
  // ---------------------------------------------------------------------------

  /** Glucose: 100 at 100 mg/dL, losing 0.8 per mg/dL of distance, floored at 0. */
  function GlucoseScore(glucose: real): (r: real)
    ensures 0.0 <= r <= 100.0
    ensures r == 100.0 <==> glucose == 100.0
    ensures r == 0.0 <==> glucose <= -25.0 || glucose >= 225.0
  {
    Max(0.0, 100.0 - Abs(glucose - 100.0) * 0.8)
  }

  /** Heart-rate variability: 1.5 points per ms, capped at 100. */
  function HrvScore(hrv: real): (r: real)
    ensures r <= 100.0
    ensures hrv >= 0.0 ==> r >= 0.0
    ensures r == 100.0 <==> hrv * 3.0 >= 200.0
  {
    Min(100.0, hrv * 1.5)
  }

  /** Sleep: 12.5 points per hour, capped at 100 (reached at 8 hours). */
  function SleepScore(sleepHours: real): (r: real)
    ensures r <= 100.0
    ensures sleepHours >= 0.0 ==> r >= 0.0
    ensures r == 100.0 <==> sleepHours >= 8.0
  {
    Min(100.0, sleepHours * 12.5)
  }

  /** Heart rate: inside [60, 100] bpm, 100 less the distance from 70; outside, 50. */
  function HeartRateScore(heartRate: real): (r: real)
    ensures !(60.0 <= heartRate <= 100.0) ==> r == 50.0
    ensures 60.0 <= heartRate <= 100.0 ==> 70.0 <= r <= 100.0
    ensures r == 100.0 <==> heartRate == 70.0
  {
    if 60.0 <= heartRate && heartRate <= 100.0 then 100.0 - Abs(heartRate - 70.0) else 50.0
  }

  /** Air quality: 100 less half the AQI, floored at 0. */
  function AqiScore(aqi: real): (r: real)
    ensures r >= 0.0
    ensures aqi >= 0.0 ==> r <= 100.0
    ensures r == 0.0 <==> aqi >= 200.0
  {
    Max(0.0, 100.0 - aqi * 0.5)
  }

  /** Temperature: 100 inside [65, 75] degrees; outside, 100 less twice the
      distance from 70, floored at 0. */
  function TemperatureScore(temperature: real): (r: real)
    ensures 65.0 <= temperature <= 75.0 ==> r == 100.0
    ensures !(65.0 <= temperature <= 75.0) ==> 0.0 <= r < 90.0
    ensures r == 0.0 <==> Abs(temperature - 70.0) >= 50.0
  {
    if 65.0 <= temperature && temperature <= 75.0 then 100.0
    else Max(0.0, 100.0 - Abs(temperature - 70.0) * 2.0)
  }

  // ---------------------------------------------------------------------------
  // The score
  // ---------------------------------------------------------------------------

  /** The sub-score a field adds: one value when the field is truthy, none otherwise. */
  function GlucosePart(glucose: Option<real>): seq<real>
  {
    if Truthy(glucose) then [GlucoseScore(glucose.value)] else []
  }

  function HrvPart(hrv: Option<real>): seq<real>
  {
    if Truthy(hrv) then [HrvScore(hrv.value)] else []
  }

  function SleepPart(sleepHours: Option<real>): seq<real>
  {
    if Truthy(sleepHours) then [SleepScore(sleepHours.value)] else []
  }

  function HeartRatePart(heartRate: Option<real>): seq<real>
  {
    if Truthy(heartRate) then [HeartRateScore(heartRate.value)] else []
  }

  function AqiPart(aqi: Option<real>): seq<real>
  {
    if Truthy(aqi) then [AqiScore(aqi.value)] else []
  }

  function TemperaturePart(temperature: Option<real>): seq<real>
  {
    if Truthy(temperature) then [TemperatureScore(temperature.value)] else []
  }

  /** The sub-scores that count, in the order the scorer adds them. */
  function Factors(h: HealthRecord, e: EnvRecord): seq<real>
  {
    GlucosePart(h.glucose) + HrvPart(h.hrv) + SleepPart(h.sleepHours)
    + HeartRatePart(h.heartRate) + AqiPart(e.aqi) + TemperaturePart(e.temperature)
  }

  /** Every value lies in [0, 100]. */
  predicate AllPercent(s: seq<real>) {
    forall i :: 0 <= i < |s| ==> 0.0 <= s[i] <= 100.0
  }

  /** The rounded mean of the counted sub-scores, or 0 when none counted. */
  function MeanRounded(s: seq<real>): (level: int)
    ensures |s| == 0 ==> level == 0
    ensures AllPercent(s) ==> 0 <= level <= 100
  {
    if |s| > 0 then
      SumBounds(s);
      var n := |s| as real;
      var mean := Sum(s) / n;
      assert AllPercent(s) ==> 0.0 <= mean <= 100.0 by {
        if AllPercent(s) {
          assert mean * n == Sum(s);
        }
      }
      Round(mean)
    else 0
  }

  /** A sum of values in [0, 100] lies between 0 and 100 per value. */
  lemma {:induction false} SumBounds(s: seq<real>)
    ensures AllPercent(s) ==> 0.0 <= Sum(s) <= 100.0 * |s| as real
  {
    if s != [] && AllPercent(s) {
      var init := s[..|s| - 1];
      assert AllPercent(init) by {
        forall i | 0 <= i < |init| ensures 0.0 <= init[i] <= 100.0 {
          assert init[i] == s[i];
        }
      }
      SumBounds(init);
    }
  }

  /** No field of either record is truthy. */
  predicate NothingPresent(h: HealthRecord, e: EnvRecord) {
    !Truthy(h.glucose) && !Truthy(h.hrv) && !Truthy(h.sleepHours) && !Truthy(h.heartRate)
    && !Truthy(e.aqi) && !Truthy(e.temperature)
  }

  /** The inputs for which the sub-scores without a floor or a cap stay in [0, 100]. */
  predicate NonNegativeInputs(h: HealthRecord, e: EnvRecord) {
    (Truthy(h.hrv) ==> h.hrv.value >= 0.0)
    && (Truthy(h.sleepHours) ==> h.sleepHours.value >= 0.0)
    && (Truthy(e.aqi) ==> e.aqi.value >= 0.0)
  }

  /** The specification of the server scorer. */
  function Homeostasis(h: HealthRecord, e: EnvRecord): (level: int)
  {
    MeanRounded(Factors(h, e))
  }

  /** The scorer as the backend writes it: two accumulators updated by six
      guarded blocks. */
  method CalculateHomeostasis(h: HealthRecord, e: EnvRecord) returns (level: int)
    ensures level == Homeostasis(h, e)
  {
    var score := 0.0;
    var factors := 0;
    // What the six blocks have added so far, part by part.
    ghost var total, count := 0.0, 0;

    if Truthy(h.glucose) {
      var glucoseScore := GlucoseScore(h.glucose.value);
      score := score + glucoseScore;
      factors := factors + 1;
    }
    total, count := total + PartTotal(GlucosePart(h.glucose)), count + (if Truthy(h.glucose) then 1 else 0);
    assert score == total && factors == count;

    if Truthy(h.hrv) {
      var hrvScore := HrvScore(h.hrv.value);
      score := score + hrvScore;
      factors := factors + 1;
    }
    total, count := total + PartTotal(HrvPart(h.hrv)), count + (if Truthy(h.hrv) then 1 else 0);
    assert score == total && factors == count;

    if Truthy(h.sleepHours) {
      var sleepScore := SleepScore(h.sleepHours.value);
      score := score + sleepScore;
      factors := factors + 1;
    }
    total, count := total + PartTotal(SleepPart(h.sleepHours)), count + (if Truthy(h.sleepHours) then 1 else 0);
    assert score == total && factors == count;

    if Truthy(h.heartRate) {
      var hrScore := HeartRateScore(h.heartRate.value);
      score := score + hrScore;
      factors := factors + 1;
    }
    total, count := total + PartTotal(HeartRatePart(h.heartRate)), count + (if Truthy(h.heartRate) then 1 else 0);
    assert score == total && factors == count;

    if Truthy(e.aqi) {
      var aqiScore := AqiScore(e.aqi.value);
      score := score + aqiScore;
      factors := factors + 1;
    }
    total, count := total + PartTotal(AqiPart(e.aqi)), count + (if Truthy(e.aqi) then 1 else 0);
    assert score == total && factors == count;

    if Truthy(e.temperature) {
      var tempScore := TemperatureScore(e.temperature.value);
      score := score + tempScore;
      factors := factors + 1;
    }
    total, count := total + PartTotal(TemperaturePart(e.temperature)), count + (if Truthy(e.temperature) then 1 else 0);
    assert score == total && factors == count;

    assert score == ScoreTotal(h, e) && factors == TruthyCount(h, e);
    FactorsSum(h, e);
    FactorsCount(h, e);
    level := if factors > 0 then Round(score / factors as real) else 0;
  }

  /** What the running total gains from one part. */
  function PartTotal(part: seq<real>): real
  {
    if part == [] then 0.0 else part[0]
  }

  /** The running total after all six blocks. */
  function ScoreTotal(h: HealthRecord, e: EnvRecord): real
  {
    PartTotal(GlucosePart(h.glucose)) + PartTotal(HrvPart(h.hrv)) + PartTotal(SleepPart(h.sleepHours))
    + PartTotal(HeartRatePart(h.heartRate)) + PartTotal(AqiPart(e.aqi))
    + PartTotal(TemperaturePart(e.temperature))
  }

  /** The number of truthy fields. */
  function TruthyCount(h: HealthRecord, e: EnvRecord): (n: nat)
    ensures n <= 6
  {
    (if Truthy(h.glucose) then 1 else 0) + (if Truthy(h.hrv) then 1 else 0)
    + (if Truthy(h.sleepHours) then 1 else 0) + (if Truthy(h.heartRate) then 1 else 0)
    + (if Truthy(e.aqi) then 1 else 0) + (if Truthy(e.temperature) then 1 else 0)
  }

  /** Adding a part of at most one value adds its total. */
  lemma SumAddPart(counted: seq<real>, part: seq<real>)
    requires |part| <= 1
    ensures Sum(counted + part) == Sum(counted) + PartTotal(part)
  {
    if part == [] {
      assert counted + part == counted;
    } else {
      assert part == [part[0]];
      SumSnoc(counted, part[0]);
    }
  }

  /** The sum of six parts of at most one value each. */
  lemma SumSixParts(a: seq<real>, b: seq<real>, c: seq<real>, d: seq<real>, e: seq<real>, f: seq<real>)
    requires |a| <= 1 && |b| <= 1 && |c| <= 1 && |d| <= 1 && |e| <= 1 && |f| <= 1
    ensures Sum(a + b + c + d + e + f)
         == PartTotal(a) + PartTotal(b) + PartTotal(c) + PartTotal(d) + PartTotal(e) + PartTotal(f)
  {
    SumAddPart([], a);
    assert [] + a == a;
    SumAddPart(a, b);
    SumAddPart(a + b, c);
    SumAddPart(a + b + c, d);
    SumAddPart(a + b + c + d, e);
    SumAddPart(a + b + c + d + e, f);
  }

  /** The counted sub-scores sum to the running total. */
  lemma FactorsSum(h: HealthRecord, e: EnvRecord)
    ensures Sum(Factors(h, e)) == ScoreTotal(h, e)
  {
    SumSixParts(GlucosePart(h.glucose), HrvPart(h.hrv), SleepPart(h.sleepHours),
                HeartRatePart(h.heartRate), AqiPart(e.aqi), TemperaturePart(e.temperature));
  }

  /** There is one counted sub-score per truthy field. */
  lemma FactorsCount(h: HealthRecord, e: EnvRecord)
    ensures |Factors(h, e)| == TruthyCount(h, e)
  {
  }

  // ---------------------------------------------------------------------------
  // Properties
  // ---------------------------------------------------------------------------

  /** With non-negative hrv, sleep and AQI every counted sub-score is a percentage. */
  lemma FactorsArePercent(h: HealthRecord, e: EnvRecord)
    requires NonNegativeInputs(h, e)
    ensures AllPercent(Factors(h, e))
  {
  }

  /** With non-negative hrv, sleep and AQI the score is in [0, 100]. */
  lemma HomeostasisInRange(h: HealthRecord, e: EnvRecord)
    requires NonNegativeInputs(h, e)
    ensures 0 <= Homeostasis(h, e) <= 100
  {
    FactorsArePercent(h, e);
  }

  /** With nothing truthy the score is 0. */
  lemma NothingPresentScoresZero(h: HealthRecord, e: EnvRecord)
    requires NothingPresent(h, e)
    ensures Factors(h, e) == []
    ensures Homeostasis(h, e) == 0
  {
  }

  /** What the scorer sees of a numeric field: its value when truthy, else nothing. */
  function Seen(x: Option<real>): (r: Option<real>)
    ensures r.None? <==> !Truthy(x)
    ensures Truthy(x) ==> r == x
  {
    if Truthy(x) then x else None
  }

  /** A field that is absent and a field that is 0 are indistinguishable:
      two pairs of records whose fields agree once falsy values are dropped
      get the same sub-scores, and so the same score. */
  lemma OnlyTruthyFieldsMatter(h1: HealthRecord, e1: EnvRecord, h2: HealthRecord, e2: EnvRecord)
    requires Seen(h1.glucose) == Seen(h2.glucose) && Seen(h1.hrv) == Seen(h2.hrv)
    requires Seen(h1.sleepHours) == Seen(h2.sleepHours) && Seen(h1.heartRate) == Seen(h2.heartRate)
    requires Seen(e1.aqi) == Seen(e2.aqi) && Seen(e1.temperature) == Seen(e2.temperature)
    ensures Factors(h1, e1) == Factors(h2, e2)
    ensures Homeostasis(h1, e1) == Homeostasis(h2, e2)
  {
  }

  /** Glucose 160 alone: max(0, 100 - 60 * 0.8) = 52. */
  lemma GlucoseAloneExample()
    ensures Homeostasis(HealthRecord(Some(160.0), None, None, None), NoEnv) == 52
  {
    var h := HealthRecord(Some(160.0), None, None, None);
    FactorsSum(h, NoEnv);
    FactorsCount(h, NoEnv);
  }

  /** All six fields filled with an AQI of 0: the AQI is falsy and does not
      count, so the mean is over five sub-scores (460 / 5 = 92), not six. */
  lemma ZeroAqiExample()
    ensures Homeostasis(HealthRecord(Some(100.0), Some(40.0), Some(8.0), Some(70.0)),
                        EnvRecord(Some(0.0), Some(70.0))) == 92
  {
    var h := HealthRecord(Some(100.0), Some(40.0), Some(8.0), Some(70.0));
    var e := EnvRecord(Some(0.0), Some(70.0));
    FactorsSum(h, e);
    FactorsCount(h, e);
  }
}
