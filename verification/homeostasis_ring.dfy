/** The homeostasis ring: the level is clamped to a percentage, which picks
    one of four colour bands and one of four labels and is shown rounded. */
module HomeostasisRing {
  import opened Js

  /** The four bands the 80 / 60 / 40 thresholds cut [0, 100] into, lowest first. */
  datatype Band = Building | Moderate | High | Optimal

  /** The position of a band, lowest first. */
  function Rank(b: Band): nat
  {
    match b
    case Building => 0
    case Moderate => 1
    case High => 2
    case Optimal => 3
  }

  /** The reference banding: at least 80, at least 60, at least 40, below 40. */
  function BandOf(p: real): (b: Band)
  {
    if p >= 80.0 then Optimal else if p >= 60.0 then High else if p >= 40.0 then Moderate else Building
  }

  function BandColor(b: Band): string
  {
    match b
    case Optimal => "#0066FF"
    case High => "#0088FF"
    case Moderate => "#00AAFF"
    case Building => "#00CCFF"
  }

  function BandLabel(b: Band): string
  {
    match b
    case Optimal => "Optimal Balance"
    case High => "High Balance"
    case Moderate => "Moderate Balance"
    case Building => "Building Balance"
  }

  /** `Math.min(Math.max(level, 0), 100)` */
  function Percentage(level: real): (p: real)
    ensures 0.0 <= p <= 100.0
    ensures 0.0 <= level <= 100.0 ==> p == level
    ensures level > 100.0 ==> p == 100.0
    ensures level < 0.0 ==> p == 0.0
  {
    Min(Max(level, 0.0), 100.0)
  }

  /** `getColor`: the if-chain on the percentage. */
  function RingColor(level: real): (color: string)
    ensures color == BandColor(BandOf(Percentage(level)))
  {
    var p := Percentage(level);
    if p >= 80.0 then "#0066FF"
    else if p >= 60.0 then "#0088FF"
    else if p >= 40.0 then "#00AAFF"
    else "#00CCFF"
  }

  /** `getLabel`: the same thresholds, another set of constants. */
  function RingLabel(level: real): (text: string)
    ensures text == BandLabel(BandOf(Percentage(level)))
  {
    var p := Percentage(level);
    if p >= 80.0 then "Optimal Balance"
    else if p >= 60.0 then "High Balance"
    else if p >= 40.0 then "Moderate Balance"
    else "Building Balance"
  }

  /** The integer in the middle of the ring: the rounded percentage. */
  function DisplayedLevel(level: real): (n: int)
    ensures 0 <= n <= 100
    ensures Percentage(level) - 0.5 < n as real <= Percentage(level) + 0.5
    ensures 0.0 <= level <= 100.0 ==> n == Round(level)
  {
    Round(Percentage(level))
  }

  /** Colour and label always come from the same band: two levels get the
      same label exactly when they get the same colour. */
  lemma LabelMatchesColor(a: real, b: real)
    ensures RingLabel(a) == RingLabel(b) <==> RingColor(a) == RingColor(b)
  {
  }

  /** A higher level never falls in a lower band. */
  lemma BandMonotone(a: real, b: real)
    requires a <= b
    ensures Rank(BandOf(Percentage(a))) <= Rank(BandOf(Percentage(b)))
  {
  }

  /** Levels outside [0, 100] saturate to the end bands. */
  lemma OutOfRangeSaturates(level: real)
    ensures level > 100.0 ==> RingLabel(level) == "Optimal Balance" && RingColor(level) == "#0066FF"
    ensures level < 0.0 ==> RingLabel(level) == "Building Balance" && RingColor(level) == "#00CCFF"
  {
  }
}
