/**
 The risk presenter of the simulator tab: the gauge that shows the churn
 probability as a percentage, and the three-tier diagnosis written beside it.
 The churn probability is the classifier's output and is a parameter here.
 */
module RiskPresenter {

  /** The three qualitative verdicts, from safest to riskiest. */
  datatype Tier = Low | Medium | High

  /** Position of a tier on the risk scale. */
  function Rank(t: Tier): nat {
    match t
    case Low => 0
    case Medium => 1
    case High => 2
  }

  /** Probability above which a customer is a high risk. */
  const HighThreshold: real := 0.7

  /** Probability above which a customer is at least a medium risk. */
  const MediumThreshold: real := 0.3

  /** The if/elif/else ladder on the churn probability. */
  function Verdict(p: real): (t: Tier)
    ensures t == High <==> p > 0.7
    ensures t == Medium <==> 0.3 < p <= 0.7
    ensures t == Low <==> p <= 0.3
  {
    if p > HighThreshold then High
    else if p > MediumThreshold then Medium
    else Low
  }

  /** The verdict never goes down as the probability goes up. */
  lemma VerdictMonotone(p1: real, p2: real)
    requires p1 <= p2
    ensures Rank(Verdict(p1)) <= Rank(Verdict(p2))
  {
  }

  /** The exact boundaries: 0.71, 0.70, 0.30 and 0.29. */
  lemma VerdictBoundaries()
    ensures Verdict(0.71) == High
    ensures Verdict(0.7) == Medium
    ensures Verdict(0.3) == Low
    ensures Verdict(0.29) == Low
  {
  }

  // ---------------------------------------------------------------------------
  // The diagnosis panel
  // ---------------------------------------------------------------------------

  /** The Streamlit element a line of the diagnosis is written with. */
  datatype Widget = ErrorBox | WarningBox | SuccessBox | Text | Markdown

  datatype Line = Line(widget: Widget, text: string)

  const HighBanner := Line(ErrorBox, "ALTO RIESGO")
  const HighExplanation := Line(Text, "El cliente tiene una alta probabilidad de abandonar el banco.")
  const HighAction := Line(Markdown, "Acción recomendada: Contactar inmediatamente y ofrecer incentivos de retención.")
  const MediumBanner := Line(WarningBox, "RIESGO MEDIO")
  const MediumExplanation := Line(Text, "El cliente está en zona de incertidumbre.")
  const MediumAction := Line(Markdown, "Acción recomendada: Monitorear actividad y mejorar la satisfacción.")
  const LowBanner := Line(SuccessBox, "CLIENTE SEGURO")

  /** The reassurance sentence; it follows the if/elif/else, not its else branch. */
  const Reassurance := Line(Text, "El cliente parece leal y estable.")

  /** The coloured banner that opens the diagnosis for a tier. */
  function Banner(t: Tier): Line {
    match t
    case High => HighBanner
    case Medium => MediumBanner
    case Low => LowBanner
  }

  /** The lines written under the "Diagnóstico" heading, in order. */
  function Diagnosis(p: real): (lines: seq<Line>)
    ensures |lines| >= 2
    ensures lines[0] == Banner(Verdict(p))
    ensures lines[|lines| - 1] == Reassurance
    ensures Verdict(p) == Low <==> |lines| == 2
    ensures Verdict(p) == High ==> lines == [HighBanner, HighExplanation, HighAction, Reassurance]
    ensures Verdict(p) == Medium ==> lines == [MediumBanner, MediumExplanation, MediumAction, Reassurance]
    ensures Verdict(p) == Low ==> lines == [LowBanner, Reassurance]
  {
    var branch :=
      if p > HighThreshold then [HighBanner, HighExplanation, HighAction]
      else if p > MediumThreshold then [MediumBanner, MediumExplanation, MediumAction]
      else [LowBanner];
    branch + [Reassurance]
  }

  /**
   Because the reassurance is written after the whole ladder, a high-risk
   customer is told both that they are likely to leave and that they look loyal.
   */
  lemma HighRiskAlsoReassures(p: real)
    requires p > 0.7
    ensures HighExplanation in Diagnosis(p) && Reassurance in Diagnosis(p)
  {
  }

  /** Exactly one banner is shown, and it is the verdict's. */
  lemma OneBanner(p: real)
    ensures forall t :: Banner(t) in Diagnosis(p) <==> t == Verdict(p)
  {
  }

  // ---------------------------------------------------------------------------
  // The gauge
  // ---------------------------------------------------------------------------

  /** Needle value and threshold-marker value of the gauge. */
  datatype Gauge = Gauge(value: real, threshold: real)

  /** The probability as a percentage. */
  function Percent(p: real): (v: real)
    ensures v / 100.0 == p
    ensures 0.0 <= p <= 1.0 ==> 0.0 <= v <= 100.0
  {
    p * 100.0
  }

  /** The gauge for a probability: needle and marker both sit at the percentage. */
  function GaugeOf(p: real): (g: Gauge)
    ensures g.value == g.threshold
    ensures g.value / 100.0 == p
    ensures 0.0 <= p <= 1.0 ==> 0.0 <= g.value <= 100.0 && 0.0 <= g.threshold <= 100.0
  {
    Gauge(Percent(p), Percent(p))
  }

  /** The colour bands drawn on the gauge: 0-30 green, 30-70 yellow, 70-100 red. */
  datatype Band = Green | Yellow | Red

  /** The band the needle points into, with each boundary in the lower band. */
  function BandOf(v: real): Band {
    if v > 70.0 then Red else if v > 30.0 then Yellow else Green
  }

  /** The verdict agrees with the band the gauge needle points into. */
  lemma VerdictMatchesGauge(p: real)
    ensures Verdict(p) == High <==> BandOf(GaugeOf(p).value) == Red
    ensures Verdict(p) == Medium <==> BandOf(GaugeOf(p).value) == Yellow
    ensures Verdict(p) == Low <==> BandOf(GaugeOf(p).value) == Green
  {
  }

  /** A churn probability of 0.82 gives a high-risk verdict and a gauge at 82. */
  lemma ScenarioAt82()
    ensures Verdict(0.82) == High
    ensures GaugeOf(0.82) == Gauge(82.0, 82.0)
    ensures Diagnosis(0.82) == [HighBanner, HighExplanation, HighAction, Reassurance]
  {
  }
}
