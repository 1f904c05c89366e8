/** The homeostasis insights dialog: its colour and label (the ring's bands on
    the unclamped level), the three "How it's calculated" figures, and the gate
    that fetches the narrative insight at most once per dialog. */
module InsightsDialog {
  import opened Js
  import opened ServerHomeostasis
  import opened HomeostasisRing

  // ---------------------------------------------------------------------------
  // Colour and label
  // ---------------------------------------------------------------------------

  /** `getColor`: the ring's thresholds applied to the level itself. */
  function DialogColor(level: real): (color: string)
    ensures color == BandColor(BandOf(level))
  {
    if level >= 80.0 then "#0066FF"
    else if level >= 60.0 then "#0088FF"
    else if level >= 40.0 then "#00AAFF"
    else "#00CCFF"
  }

  /** `getLabel` */
  function DialogLabel(level: real): (text: string)
    ensures text == BandLabel(BandOf(level))
  {
    if level >= 80.0 then "Optimal Balance"
    else if level >= 60.0 then "High Balance"
    else if level >= 40.0 then "Moderate Balance"
    else "Building Balance"
  }

  /** Clamping before banding changes nothing: the dialog and the ring show
      the same colour and label for every level, in range or not. */
  lemma DialogAgreesWithRing(level: real)
    ensures DialogColor(level) == RingColor(level)
    ensures DialogLabel(level) == RingLabel(level)
  {
    assert BandOf(level) == BandOf(Percentage(level));
  }

  // ---------------------------------------------------------------------------
  // The breakdown figures
  // ---------------------------------------------------------------------------

  /** "Metabolic Stability": half a point per mg/dL from 100, rounded, capped
      at 100 and not floored; 0 when the dashboard's glucose is 0. */
  function MetabolicStability(glucose: real): (r: int)
    ensures glucose == 0.0 ==> r == 0
    ensures r <= 100
    ensures glucose != 0.0 ==> (r == 100 <==> Abs(glucose - 100.0) <= 1.0)
    ensures glucose != 0.0 ==> Abs(r as real - (100.0 - Abs(glucose - 100.0) * 0.5)) <= 0.5
    ensures glucose != 0.0 ==> r == Round(100.0 - Abs(glucose - 100.0) * 0.5)
  {
    if glucose != 0.0 then Min(100.0, Round(100.0 - Abs(glucose - 100.0) * 0.5) as real).Floor else 0
  }

  /** "Environmental Quality": 100 less half the AQI, rounded, capped at 100;
      0 when the reading has no truthy AQI. */
  function EnvironmentalQuality(aqi: Option<real>): (r: int)
    ensures !Truthy(aqi) ==> r == 0
    ensures r <= 100
    ensures Truthy(aqi) && aqi.value >= 0.0 ==> r == Round(100.0 - aqi.value * 0.5)
    ensures Truthy(aqi) && aqi.value < 0.0 ==> r == 100
  {
    if Truthy(aqi) then Min(100.0, Round(100.0 - aqi.value * 0.5) as real).Floor else 0
  }

  /** "Recovery Score": 12.5 points per hour of sleep, rounded, capped at 100;
      0 when the dashboard's sleep is 0. */
  function RecoveryScore(sleep: real): (r: int)
    ensures sleep == 0.0 ==> r == 0
    ensures r <= 100
    ensures sleep != 0.0 ==> (r == 100 <==> sleep * 12.5 >= 99.5)
  {
    if sleep != 0.0 then Min(100.0, Round(sleep * 12.5) as real).Floor else 0
  }

  /** For truthy sleep the recovery figure is the scorer's sleep sub-score,
      rounded: capping before or after rounding at 100 gives the same. */
  lemma RecoveryMatchesScorer(sleep: real)
    requires sleep != 0.0
    ensures RecoveryScore(sleep) == Round(SleepScore(sleep))
  {
    var x := sleep * 12.5;
    if x >= 100.0 {
      RoundMonotone(100.0, x);
    } else {
      RoundMonotone(x, 100.0);
    }
  }

  /** For an AQI in (0, 200] the environmental figure is the scorer's AQI
      sub-score, rounded. */
  lemma EnvironmentalQualityMatchesScorer(aqi: real)
    requires 0.0 < aqi <= 200.0
    ensures EnvironmentalQuality(Some(aqi)) == Round(AqiScore(aqi))
  {
  }

  /** Above an AQI of 200 the figure goes negative where the scorer floors at 0. */
  lemma EnvironmentalQualityNotFloored()
    ensures EnvironmentalQuality(Some(300.0)) == -50
    ensures AqiScore(300.0) == 0.0
  {
  }

  /** The glucose figure uses half the scorer's slope and no floor: at 101 it
      shows 100 where the scorer gives 99.2, and at 400 it shows -50 where the
      scorer gives 0. */
  lemma MetabolicStabilityDiffersFromScorer()
    ensures MetabolicStability(101.0) == 100 && Round(GlucoseScore(101.0)) == 99
    ensures MetabolicStability(400.0) == -50 && GlucoseScore(400.0) == 0.0
  {
  }

  // ---------------------------------------------------------------------------
  // Loading the insight
  // ---------------------------------------------------------------------------

  /** The text shown when the request for an insight fails. */
  const FailureText := "Unable to generate insights at this time."

  /** How the request for an insight ends: with the `insights` field of the
      answer ("" when the field is empty or missing), or with an error. */
  datatype FetchOutcome = Answered(text: string) | Failed

  /** What `insights` holds once a request has settled. */
  function SettledText(outcome: FetchOutcome): (text: string)
    ensures outcome.Failed? ==> text == FailureText && text != ""
    ensures outcome.Answered? ==> text == outcome.text
  {
    match outcome
    case Answered(t) => t
    case Failed => FailureText
  }

  /** The dialog's two pieces of state. The ghost `requests` counts the
      requests sent; `emptyAnswers` counts answers that left `insights`
      empty, the only way a second request can follow a settled one. */
  class Dialog {
    var insights: string
    var loading: bool
    ghost var requests: nat
    ghost var emptyAnswers: nat

    ghost predicate Valid()
      reads this
    {
      && (loading ==> insights == "")
      && requests <= emptyAnswers + (if loading || insights != "" then 1 else 0)
    }

    constructor ()
      ensures Valid()
      ensures insights == "" && !loading && requests == 0 && emptyAnswers == 0
    {
      insights := "";
      loading := false;
      requests := 0;
      emptyAnswers := 0;
    }

    /** `loadInsights` up to its `await`: nothing when an insight is held,
        otherwise set `loading` and send the request. Its one caller,
        `HandleOpenChange`, only calls it when no load is in progress. */
    method LoadInsights() returns (sent: bool)
      requires Valid() && !loading
      modifies this
      ensures Valid()
      ensures sent <==> old(insights) == ""
      ensures insights == old(insights) && emptyAnswers == old(emptyAnswers)
      ensures sent ==> loading && requests == old(requests) + 1
      ensures !sent ==> loading == old(loading) && requests == old(requests)
    {
      if insights != "" {
        return false;
      }
      loading := true;
      requests := requests + 1;
      sent := true;
    }

    /** `loadInsights` after its `await`: store the answer, or the failure
        text, and clear `loading` in either case. */
    method Settle(outcome: FetchOutcome)
      requires Valid() && loading
      modifies this
      ensures Valid()
      ensures insights == SettledText(outcome) && !loading
      ensures requests == old(requests)
      ensures emptyAnswers == old(emptyAnswers) + (if insights == "" then 1 else 0)
    {
      match outcome {
        case Answered(t) =>
          insights := t;
        case Failed =>
          insights := FailureText;
      }
      if insights == "" {
        emptyAnswers := emptyAnswers + 1;
      }
      loading := false;
    }

    /** `handleOpenChange`: a load starts only when the dialog opens, holds
        no insight and is not already loading. */
    method HandleOpenChange(isOpen: bool) returns (sent: bool)
      requires Valid()
      modifies this
      ensures Valid()
      ensures sent <==> isOpen && old(insights) == "" && !old(loading)
      ensures insights == old(insights) && emptyAnswers == old(emptyAnswers)
      ensures sent ==> loading && requests == old(requests) + 1
      ensures !sent ==> loading == old(loading) && requests == old(requests)
    {
      if isOpen && insights == "" && !loading {
        sent := LoadInsights();
      } else {
        sent := false;
      }
    }
  }

  /** As long as no answer comes back empty, a dialog sends at most one request. */
  lemma AtMostOneRequest(d: Dialog)
    requires d.Valid() && d.emptyAnswers == 0
    ensures d.requests <= 1
  {
  }

  /** Open, fail, close and reopen: the failure text is kept and the second
      opening sends nothing. */
  method ReopenAfterFailureSendsNothing() returns (d: Dialog)
    ensures d.insights == FailureText && !d.loading && d.requests == 1
  {
    d := new Dialog();
    var sent := d.HandleOpenChange(true);
    assert sent;
    d.Settle(Failed);
    sent := d.HandleOpenChange(false);
    assert !sent;
    sent := d.HandleOpenChange(true);
    assert !sent;
  }
}
