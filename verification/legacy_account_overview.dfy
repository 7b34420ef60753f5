/**
 * The first dashboard's account card. It receives the account-data response
 * body as it came over the wire; a falsy body shows "Loading...", and
 * otherwise each figure falls back to a default when its field is absent or
 * null.
 */
module LegacyAccountOverview {
  import opened Wrappers
  import opened Json
  import MockTypes
  import opened Wire
  import opened MockServer

  datatype MarginColor = Success | Warning | Error

  /** The card's figures. */
  datatype Figures = Figures(
    equity: real,
    buyingPower: real,
    marginHealth: real,
    dailyPnl: real,
    margin: MarginColor,
    progress: real,
    pnlPositive: bool)

  datatype Card = Loading | Shown(figures: Figures)

  /** `marginHealth > 150 ? 'success' : marginHealth > 125 ? 'warning' : 'error'`: both thresholds are strict. */
  function MarginColorOf(marginHealth: real): (c: MarginColor)
    ensures c == Success <==> marginHealth > 150.0
    ensures c == Warning <==> 125.0 < marginHealth <= 150.0
    ensures c == Error <==> marginHealth <= 125.0
  {
    if marginHealth > 150.0 then Success else if marginHealth > 125.0 then Warning else Error
  }

  /** The progress bar's value, `Math.min(marginHealth, 200)`. */
  function Progress(marginHealth: real): (p: real)
    ensures p <= 200.0
    ensures p <= marginHealth
    ensures p == marginHealth || p == 200.0
  {
    if marginHealth < 200.0 then marginHealth else 200.0
  }

  /** The values exactly on a threshold take the lower colour: 150 is warning, 125 is error. */
  lemma ThresholdsAreStrict()
    ensures MarginColorOf(150.0) == Warning
    ensures MarginColorOf(125.0) == Error
    ensures MarginColorOf(150.5) == Success
  {
  }

  function Render(data: Json): (c: Card)
    ensures c == Loading <==> !Truthy(data)
    ensures c.Shown? ==> c.figures.margin == MarginColorOf(c.figures.marginHealth)
    ensures c.Shown? ==> c.figures.progress == Progress(c.figures.marginHealth)
    ensures c.Shown? ==> (c.figures.pnlPositive <==> c.figures.dailyPnl >= 0.0)
    ensures c.Shown? ==>
      && ShowsField(data, "equity", 0.0, c.figures.equity)
      && ShowsField(data, "buying_power", 0.0, c.figures.buyingPower)
      && ShowsField(data, "margin_health", 150.0, c.figures.marginHealth)
      && ShowsField(data, "daily_pnl", 0.0, c.figures.dailyPnl)
  {
    if !Truthy(data) then Loading
    else
      var equity := NumberOr(data, "equity", 0.0);
      var buyingPower := NumberOr(data, "buying_power", 0.0);
      var marginHealth := NumberOr(data, "margin_health", 150.0);
      var dailyPnl := NumberOr(data, "daily_pnl", 0.0);
      Shown(Figures(equity, buyingPower, marginHealth, dailyPnl,
        MarginColorOf(marginHealth), Progress(marginHealth), dailyPnl >= 0.0))
  }

  /** The default card: 0, 0, 150 and 0, with a warning-coloured margin at 150 on the bar. */
  const DefaultFigures := Figures(0.0, 0.0, 150.0, 0.0, Warning, 150.0, true)

  /** Before the first response the page holds `null`, which shows only the loading state. */
  lemma NullIsLoading()
    ensures Render(JNull) == Loading
  {
  }

  /** A plain account object shows its own figures. */
  lemma AccountObjectShown(a: MockTypes.AccountData)
    ensures Render(EncodeAccount(a)).Shown?
    ensures var f := Render(EncodeAccount(a)).figures;
      f.equity == a.equity && f.buyingPower == a.buying_power
      && f.marginHealth == a.margin_health && f.dailyPnl == a.daily_pnl
  {
    AccountFields(a);
  }

  /**
   * The page hands the card the account-data body unchanged. The mock sends
   * that body as a one-element list, which is truthy and has none of the
   * fields, so the card shows the defaults whatever the scenario.
   */
  lemma ServedBodyShowsDefaults(data: MockTypes.ScenarioName -> MockTypes.Scenario, s: State, now: string)
    ensures Render(Handle(data, s, AccountDataRequest, now).1.body) == Shown(DefaultFigures)
  {
    AccountDataIsSingleton(data, s, now);
  }
}
