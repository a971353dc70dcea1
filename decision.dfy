/** The "evaluation" step of `analyze_stock`: a first-match-wins chain of
    strict comparisons over the latest MA20, MA50 and RSI that picks one of
    four scenarios, and the fixed text each scenario reports.

    The latest values are floats that may be NaN; a Python comparison with a
    NaN operand is false, which is how `Gt` and `Lt` treat `None`. */
module Decision {
  import opened Series

  datatype Scenario = Favorable | Risk | Speculative | Neutral

  const Overbought: real := 70.0
  const Oversold: real := 30.0

  /** `a > b` on floats: false when either side is NaN. */
  predicate Gt(a: Option<real>, b: Option<real>)
  {
    a.Some? && b.Some? && a.value > b.value
  }

  /** `a < b` on floats: false when either side is NaN. */
  predicate Lt(a: Option<real>, b: Option<real>)
  {
    a.Some? && b.Some? && a.value < b.value
  }

  /** The if/elif chain over (ma20, ma50, rsi). Its contract describes each
      outcome on its own terms: because RSI > 70 rules out the first test,
      Risk is exactly "RSI above 70"; Speculative needs an RSI under 30 and
      no MA20-over-MA50 trend; Neutral collects a missing RSI, an RSI of
      exactly 70, and a mid-range RSI without that trend. */
  function Classify(ma20: Option<real>, ma50: Option<real>, rsi: Option<real>): (s: Scenario)
    ensures s == Favorable <==>
      ma20.Some? && ma50.Some? && rsi.Some? && ma20.value > ma50.value && rsi.value < Overbought
    ensures s == Risk <==> rsi.Some? && rsi.value > Overbought
    ensures s == Speculative <==>
      rsi.Some? && rsi.value < Oversold && !(ma20.Some? && ma50.Some? && ma20.value > ma50.value)
    ensures s == Neutral <==>
      || rsi.None?
      || rsi.value == Overbought
      || (Oversold <= rsi.value < Overbought && !(ma20.Some? && ma50.Some? && ma20.value > ma50.value))
  {
    if Gt(ma20, ma50) && Lt(rsi, Some(Overbought)) then Favorable
    else if Gt(rsi, Some(Overbought)) then Risk
    else if Lt(rsi, Some(Oversold)) then Speculative
    else Neutral
  }

  /** The thresholds are strict: an RSI of exactly 70 is never Risk, one of
      exactly 30 is never Speculative, equal averages are never Favorable,
      a missing RSI is always Neutral and a missing MA50 (fewer than 50
      closes) never Favorable. */
  lemma StrictBoundaries(ma20: Option<real>, ma50: Option<real>, rsi: Option<real>)
    ensures rsi == Some(Overbought) ==> Classify(ma20, ma50, rsi) != Risk
    ensures rsi == Some(Oversold) ==> Classify(ma20, ma50, rsi) != Speculative
    ensures ma20.Some? && ma20 == ma50 ==> Classify(ma20, ma50, rsi) != Favorable
    ensures rsi.None? ==> Classify(ma20, ma50, rsi) == Neutral
    ensures ma50.None? ==> Classify(ma20, ma50, rsi) != Favorable
  {
  }

  /** The fixed decision text of each scenario: its title line, then the explanation. */
  function DecisionText(s: Scenario): (r: string)
    ensures |Title(s)| < |r| && r[..|Title(s)|] == Title(s) && r[|Title(s)|] == '\n'
  {
    Title(s) + "\n" + Explanation(s)
  }

  /** The title line: "ESCENARIO", the scenario's name and its symbol. */
  function Title(s: Scenario): string
  {
    "ESCENARIO " + Headline(s) + " " + Symbol(s)
  }

  /** The scenario's name in the title line. */
  function Headline(s: Scenario): string
  {
    match s
    case Favorable => "FAVORABLE"
    case Risk => "DE RIESGO"
    case Speculative => "ESPECULATIVO"
    case Neutral => "NEUTRAL"
  }

  /** The symbol closing the title line. */
  function Symbol(s: Scenario): string
  {
    match s
    case Favorable => "\U{1F4C8}"
    case Risk => "\U{26A0}\U{FE0F}"
    case Speculative => "\U{1F504}"
    case Neutral => "\U{2696}\U{FE0F}"
  }

  /** The lines after the title. */
  function Explanation(s: Scenario): string
  {
    match s
    case Favorable =>
      "La tendencia es alcista (MA20 > MA50).\nEl RSI no muestra sobrecompra.\nPodr\U{ED}a ser un contexto positivo para invertir, aunque siempre con gesti\U{F3}n del riesgo."
    case Risk =>
      "El RSI indica sobrecompra.\nEl precio podr\U{ED}a corregir en el corto plazo.\nConviene extremar la prudencia."
    case Speculative =>
      "El RSI indica sobreventa.\nPodr\U{ED}a producirse un rebote, pero el riesgo sigue siendo elevado."
    case Neutral =>
      "No hay una se\U{F1}al t\U{E9}cnica clara.\nEl mercado se encuentra en fase de indecisi\U{F3}n."
  }

  /** The character after "ESCENARIO " is the first letter of the scenario's name. */
  lemma TitleLetter(s: Scenario)
    ensures |Title(s)| > 10 && Title(s)[10] == Headline(s)[0]
  {
  }

  /** Different scenarios have different title lines: they differ right
      after "ESCENARIO ", at the first letter of the scenario's name. */
  lemma TitleDistinct(s: Scenario, t: Scenario)
    requires s != t
    ensures 10 < |Title(s)| && 10 < |Title(t)| && Title(s)[10] != Title(t)[10]
    ensures Title(s) != Title(t)
  {
    TitleLetter(s);
    TitleLetter(t);
    InitialsDiffer(s, t);
  }

  /** Different scenarios have different decision texts: each text starts
      with its title line, and the titles differ at the scenario's name. */
  lemma DecisionDistinct(s: Scenario, t: Scenario)
    requires s != t
    ensures DecisionText(s) != DecisionText(t)
  {
    TitleDistinct(s, t);
    PrefixesDiffer(DecisionText(s), Title(s), DecisionText(t), Title(t), 10);
  }

  /** The four scenario names start with four different letters. */
  lemma InitialsDiffer(s: Scenario, t: Scenario)
    requires s != t
    ensures Headline(s)[0] != Headline(t)[0]
  {
  }

  /** Strings that start with prefixes differing at position k differ. */
  lemma PrefixesDiffer(x: string, p: string, y: string, q: string, k: nat)
    requires k < |p| <= |x| && x[..|p|] == p
    requires k < |q| <= |y| && y[..|q|] == q
    requires p[k] != q[k]
    ensures x != y
  {
    assert x[k] == p[k] && y[k] == q[k];
  }
}
