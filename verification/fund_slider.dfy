/**
 * The trading-capital slider: a value and a "has changed" flag, moved by the
 * slider and the preset buttons and committed by Save, which refuses amounts
 * under $100. `onSave` and the toasts are effects; Save reports which of them
 * happens as its outcome.
 */
module FundSlider {
  import opened Wrappers

  /** Save refuses anything below this. */
  const MinimumCapital: real := 100.0

  /** The preset buttons, in order. */
  const Presets: seq<real> := [1000.0, 3000.0, 5000.0, 10000.0]

  datatype SliderState = SliderState(value: real, hasChanged: bool)

  /** What pressing Save does besides changing state. */
  datatype SaveOutcome =
    | Rejected      // the "Invalid Amount" toast; `onSave` is not called
    | Saved(amount: real)  // `onSave(amount)` (when given) and the "Capital Updated" toast

  /** Mounting: `initialValue` (default 3000), nothing changed yet. */
  function Mount(initialValue: Option<real>): (s: SliderState)
    ensures !s.hasChanged
    ensures initialValue.None? ==> s.value == 3000.0
    ensures initialValue.Some? ==> s.value == initialValue.value
  {
    SliderState(initialValue.GetOr(3000.0), false)
  }

  /** The slider reports a new value, or a preset is clicked: both set the value and mark the state changed. */
  function Change(s: SliderState, v: real): (r: SliderState)
    ensures r.value == v && r.hasChanged
  {
    SliderState(v, true)
  }

  /** `handleSave`. */
  function Save(s: SliderState): (r: (SliderState, SaveOutcome))
    ensures s.value < MinimumCapital ==> r.0 == s && r.1 == Rejected
    ensures s.value >= MinimumCapital ==> r.1 == Saved(s.value) && r.0.value == s.value && !r.0.hasChanged
  {
    if s.value < MinimumCapital then (s, Rejected)
    else (s.(hasChanged := false), Saved(s.value))
  }

  /** The Save button is disabled exactly when nothing has changed. */
  predicate SaveDisabled(s: SliderState) {
    !s.hasChanged
  }

  /** The red minimum-capital warning. */
  predicate ShowsWarning(s: SliderState) {
    s.value < MinimumCapital
  }

  /** The warning is on screen exactly when Save would refuse, and a refused Save changes nothing. */
  lemma WarningIffRejected(s: SliderState)
    ensures ShowsWarning(s) <==> Save(s).1 == Rejected
    ensures Save(s).1 == Rejected ==> Save(s).0 == s
  {
  }

  /** A successful Save disables the button, and pressing it again would save the same amount and change nothing more. */
  lemma SaveSettles(s: SliderState)
    requires !ShowsWarning(s)
    ensures SaveDisabled(Save(s).0)
    ensures Save(Save(s).0) == Save(s)
  {
  }

  /** Every preset clears the minimum, so clicking one and saving always saves it. */
  lemma PresetThenSave(s: SliderState, i: int)
    requires 0 <= i < |Presets|
    ensures !SaveDisabled(Change(s, Presets[i]))
    ensures Save(Change(s, Presets[i])) == (SliderState(Presets[i], false), Saved(Presets[i]))
  {
  }

  /** Moving the slider below $100 and saving is refused and leaves the button enabled. */
  lemma SmallAmountRefused(s: SliderState, v: real)
    requires v < MinimumCapital
    ensures Save(Change(s, v)) == (SliderState(v, true), Rejected)
    ensures !SaveDisabled(Save(Change(s, v)).0)
  {
  }

  datatype RiskLevel = Low | Moderate | High

  /**
   * `getRiskLevel` on the risk percentage. The percentage is NaN when the
   * value is 0 (0 / 0); NaN fails both comparisons, so it reads High.
   * `None` stands for NaN.
   */
  function RiskOf(riskPercent: Option<real>): (r: RiskLevel)
    ensures r == Low <==> riskPercent.Some? && riskPercent.value < 20.0
    ensures r == Moderate <==> riskPercent.Some? && 20.0 <= riskPercent.value < 40.0
    ensures r == High <==> riskPercent.None? || riskPercent.value >= 40.0
  {
    match riskPercent
    case None => High
    case Some(p) => if p < 20.0 then Low else if p < 40.0 then Moderate else High
  }

  /** The risk label's text and colour. */
  function RiskLabel(r: RiskLevel): (string, string) {
    match r
    case Low => ("Low", "text-profit")
    case Moderate => ("Moderate", "text-warning")
    case High => ("High", "text-loss")
  }

  /**
   * `(value * (positionSizePercent / 100) * maxPositions / value) * 100`, the
   * share of the capital at risk when every position slot is filled. In exact
   * arithmetic the capital cancels out; a capital of 0 makes it `0 / 0`, NaN.
   */
  function RiskPercent(value: real, positionSizePercent: real, maxPositions: real): (r: Option<real>)
    ensures value == 0.0 <==> r.None?
    ensures r.Some? ==> r.value == positionSizePercent * maxPositions
  {
    if value == 0.0 then None
    else
      var positionSize := value * (positionSizePercent / 100.0);
      var totalAtRisk := positionSize * maxPositions;
      Some((totalAtRisk / value) * 100.0)
  }

  /** The warning triangle beside the risk label, shown from 30% on; NaN never shows it. */
  predicate ShowsRiskIcon(riskPercent: Option<real>) {
    riskPercent.Some? && riskPercent.value >= 30.0
  }

  /** With the default 10% position size and 3 positions, any non-zero capital risks 30%: Moderate, with the triangle. */
  lemma DefaultRisk(value: real)
    requires value != 0.0
    ensures RiskPercent(value, 10.0, 3.0) == Some(30.0)
    ensures RiskOf(RiskPercent(value, 10.0, 3.0)) == Moderate
    ensures ShowsRiskIcon(RiskPercent(value, 10.0, 3.0))
  {
  }

  /** A higher percentage never gives a lower risk level. */
  lemma RiskMonotone(p: real, q: real)
    requires p <= q
    ensures RiskOf(Some(p)) == High ==> RiskOf(Some(q)) == High
    ensures RiskOf(Some(q)) == Low ==> RiskOf(Some(p)) == Low
  {
  }
}
