/** The dashboard page: its own copy of the homeostasis scorer (four of the
    six factors), the `healthData` object it hands to the ring and the
    insights dialog, and the AQI category shown under the environment card. */
module Dashboard {
  import opened Js
  import opened Samples
  import opened ServerHomeostasis

  // ---------------------------------------------------------------------------
  // The client scorer
  // ---------------------------------------------------------------------------

  /** The sub-scores the dashboard counts, with its own formulas, in the order
      it adds them: glucose, hrv, sleep, AQI. A missing entry or reading reads
      as one with no fields. */
  function ClientFactors(latestHealth: Option<HealthRecord>, latestEnv: Option<EnvRecord>): seq<real>
  {
    var h := HealthOrEmpty(latestHealth);
    var e := EnvOrEmpty(latestEnv);
    (if Truthy(h.glucose) then [Max(0.0, 100.0 - Abs(h.glucose.value - 100.0) * 0.8)] else [])
    + (if Truthy(h.hrv) then [Min(100.0, h.hrv.value * 1.5)] else [])
    + (if Truthy(h.sleepHours) then [Min(100.0, h.sleepHours.value * 12.5)] else [])
    + (if Truthy(e.aqi) then [Max(0.0, 100.0 - e.aqi.value * 0.5)] else [])
  }

  /** The specification of the client scorer. */
  function ClientHomeostasis(latestHealth: Option<HealthRecord>, latestEnv: Option<EnvRecord>): int
  {
    MeanRounded(ClientFactors(latestHealth, latestEnv))
  }

  /** The records as the client scorer sees them: heart rate and temperature dropped. */
  function ClientHealthView(latestHealth: Option<HealthRecord>): (h: HealthRecord)
    ensures h.heartRate == None
    ensures h.glucose == HealthOrEmpty(latestHealth).glucose && h.hrv == HealthOrEmpty(latestHealth).hrv
    ensures h.sleepHours == HealthOrEmpty(latestHealth).sleepHours
  {
    HealthOrEmpty(latestHealth).(heartRate := None)
  }

  function ClientEnvView(latestEnv: Option<EnvRecord>): (e: EnvRecord)
    ensures e.temperature == None
    ensures e.aqi == EnvOrEmpty(latestEnv).aqi
  {
    EnvOrEmpty(latestEnv).(temperature := None)
  }

  /** The dashboard's scorer as written: the same accumulator pattern as the
      server's, over four guarded blocks. */
  method ClientCalculateHomeostasis(latestHealth: Option<HealthRecord>, latestEnv: Option<EnvRecord>)
    returns (level: int)
    ensures level == ClientHomeostasis(latestHealth, latestEnv)
  {
    var score := 0.0;
    var factors := 0;
    ghost var h, e := ClientHealthView(latestHealth), ClientEnvView(latestEnv);

    if latestHealth.Some? && Truthy(latestHealth.value.glucose) {
      score := score + Max(0.0, 100.0 - Abs(latestHealth.value.glucose.value - 100.0) * 0.8);
      factors := factors + 1;
    }
    assert score == PartTotal(GlucosePart(h.glucose));
    assert factors == (if Truthy(h.glucose) then 1 else 0);

    if latestHealth.Some? && Truthy(latestHealth.value.hrv) {
      score := score + Min(100.0, latestHealth.value.hrv.value * 1.5);
      factors := factors + 1;
    }
    assert score == PartTotal(GlucosePart(h.glucose)) + PartTotal(HrvPart(h.hrv));

    if latestHealth.Some? && Truthy(latestHealth.value.sleepHours) {
      score := score + Min(100.0, latestHealth.value.sleepHours.value * 12.5);
      factors := factors + 1;
    }
    assert score == PartTotal(GlucosePart(h.glucose)) + PartTotal(HrvPart(h.hrv))
                    + PartTotal(SleepPart(h.sleepHours));

    if latestEnv.Some? && Truthy(latestEnv.value.aqi) {
      score := score + Max(0.0, 100.0 - latestEnv.value.aqi.value * 0.5);
      factors := factors + 1;
    }

    assert score == ScoreTotal(h, e) && factors == TruthyCount(h, e);
    ClientUsesServerFormulas(latestHealth, latestEnv);
    FactorsSum(h, e);
    FactorsCount(h, e);
    level := if factors > 0 then Round(score / factors as real) else 0;
  }

  // ---------------------------------------------------------------------------
  // Where the two scorers agree and where they do not
  // ---------------------------------------------------------------------------

  /** Field by field, the client's four formulas are the server's: the client
      sub-scores are exactly the server sub-scores of the records with heart
      rate and temperature removed. */
  lemma ClientUsesServerFormulas(latestHealth: Option<HealthRecord>, latestEnv: Option<EnvRecord>)
    ensures ClientFactors(latestHealth, latestEnv)
         == Factors(ClientHealthView(latestHealth), ClientEnvView(latestEnv))
  {
  }

  /** Heart rate and temperature never contribute to the client score: two
      inputs that agree on glucose, hrv, sleep and AQI score the same. */
  lemma ClientIgnoresHeartRateAndTemperature(h1: HealthRecord, e1: EnvRecord, h2: HealthRecord, e2: EnvRecord)
    requires h1.glucose == h2.glucose && h1.hrv == h2.hrv && h1.sleepHours == h2.sleepHours
    requires e1.aqi == e2.aqi
    ensures ClientHomeostasis(Some(h1), Some(e1)) == ClientHomeostasis(Some(h2), Some(e2))
  {
    assert ClientHealthView(Some(h1)) == ClientHealthView(Some(h2));
    assert ClientEnvView(Some(e1)) == ClientEnvView(Some(e2));
    ClientUsesServerFormulas(Some(h1), Some(e1));
    ClientUsesServerFormulas(Some(h2), Some(e2));
  }

  /** When neither heart rate nor temperature is truthy, client and server agree. */
  lemma ClientAgreesWithServer(latestHealth: Option<HealthRecord>, latestEnv: Option<EnvRecord>)
    requires !Truthy(HealthOrEmpty(latestHealth).heartRate)
    requires !Truthy(EnvOrEmpty(latestEnv).temperature)
    ensures ClientHomeostasis(latestHealth, latestEnv)
         == Homeostasis(HealthOrEmpty(latestHealth), EnvOrEmpty(latestEnv))
  {
    ClientUsesServerFormulas(latestHealth, latestEnv);
    OnlyTruthyFieldsMatter(ClientHealthView(latestHealth), ClientEnvView(latestEnv),
                           HealthOrEmpty(latestHealth), EnvOrEmpty(latestEnv));
  }

  /** A heart rate of 120 bpm alone: the server scores 50, the client 0. */
  lemma HeartRateOnlyDiverges()
    ensures Homeostasis(HealthRecord(None, None, None, Some(120.0)), NoEnv) == 50
    ensures ClientHomeostasis(Some(HealthRecord(None, None, None, Some(120.0))), None) == 0
  {
    var h := HealthRecord(None, None, None, Some(120.0));
    FactorsSum(h, NoEnv);
    FactorsCount(h, NoEnv);
  }

  /** With nothing truthy among the four factors the client score is 0. */
  lemma ClientNothingPresentScoresZero(latestHealth: Option<HealthRecord>, latestEnv: Option<EnvRecord>)
    requires !Truthy(HealthOrEmpty(latestHealth).glucose) && !Truthy(HealthOrEmpty(latestHealth).hrv)
    requires !Truthy(HealthOrEmpty(latestHealth).sleepHours) && !Truthy(EnvOrEmpty(latestEnv).aqi)
    ensures ClientHomeostasis(latestHealth, latestEnv) == 0
  {
  }

  /** With non-negative hrv, sleep and AQI the client score is in [0, 100]. */
  lemma ClientInRange(latestHealth: Option<HealthRecord>, latestEnv: Option<EnvRecord>)
    requires NonNegativeInputs(HealthOrEmpty(latestHealth), EnvOrEmpty(latestEnv))
    ensures 0 <= ClientHomeostasis(latestHealth, latestEnv) <= 100
  {
    ClientUsesServerFormulas(latestHealth, latestEnv);
    FactorsArePercent(ClientHealthView(latestHealth), ClientEnvView(latestEnv));
  }

  // ---------------------------------------------------------------------------
  // The `healthData` object and the AQI category
  // ---------------------------------------------------------------------------

  /** The numbers the dashboard hands to the ring's neighbours and the dialog. */
  datatype DashboardHealth = DashboardHealth(
    glucose: real, activity: real, recovery: real, strain: real,
    aqi: real, heartRate: real, sleep: real)

  /** `healthData`: each reading or 0 when it is missing or falsy; activity,
      recovery and strain are always 0. */
  function DashboardHealthData(latestHealth: Option<HealthRecord>, latestEnv: Option<EnvRecord>)
    : (d: DashboardHealth)
    ensures d.activity == 0.0 && d.recovery == 0.0 && d.strain == 0.0
    ensures d.glucose != 0.0 <==> Truthy(HealthOrEmpty(latestHealth).glucose)
    ensures d.aqi != 0.0 <==> Truthy(EnvOrEmpty(latestEnv).aqi)
    ensures d.heartRate != 0.0 <==> Truthy(HealthOrEmpty(latestHealth).heartRate)
    ensures d.sleep != 0.0 <==> Truthy(HealthOrEmpty(latestHealth).sleepHours)
    ensures d.glucose != 0.0 ==> d.glucose == HealthOrEmpty(latestHealth).glucose.value
    ensures d.aqi != 0.0 ==> d.aqi == EnvOrEmpty(latestEnv).aqi.value
    ensures d.heartRate != 0.0 ==> d.heartRate == HealthOrEmpty(latestHealth).heartRate.value
    ensures d.sleep != 0.0 ==> d.sleep == HealthOrEmpty(latestHealth).sleepHours.value
  {
    var h := HealthOrEmpty(latestHealth);
    var e := EnvOrEmpty(latestEnv);
    DashboardHealth(
      glucose := OrZero(h.glucose), activity := 0.0, recovery := 0.0, strain := 0.0,
      aqi := OrZero(e.aqi), heartRate := OrZero(h.heartRate), sleep := OrZero(h.sleepHours))
  }

  /** The label under the AQI figure. */
  function AqiCategory(aqi: Option<real>): (category: string)
    ensures category == "No data" <==> !Truthy(aqi)
    ensures Truthy(aqi) && aqi.value < 50.0 ==> category == "Good"
    ensures Truthy(aqi) && 50.0 <= aqi.value < 100.0 ==> category == "Moderate"
    ensures Truthy(aqi) && aqi.value >= 100.0 ==> category == "Unhealthy"
  {
    if Truthy(aqi) then
      (if aqi.value < 50.0 then "Good" else if aqi.value < 100.0 then "Moderate" else "Unhealthy")
    else "No data"
  }

  /** The severity order of the AQI labels. */
  function AqiSeverity(category: string): nat
  {
    if category == "Good" then 0 else if category == "Moderate" then 1 else 2
  }

  /** A higher (truthy) AQI never gets a milder label. */
  lemma AqiCategoryMonotone(a: real, b: real)
    requires a != 0.0 && b != 0.0 && a <= b
    ensures AqiSeverity(AqiCategory(Some(a))) <= AqiSeverity(AqiCategory(Some(b)))
  {
  }
}
