/**
 * The records the mock server serves. Numbers are exact reals; timestamps are
 * opaque strings (the server renders them from the clock when it starts).
 * Fields marked optional in the TypeScript interfaces are `Option`s.
 */
module MockTypes {
  import opened Wrappers

  /** One account snapshot. */
  datatype AccountData = AccountData(
    equity: real,
    buying_power: real,
    margin_health: real,
    daily_pnl: real)

  /** An open position. */
  datatype Position = Position(
    position_id: string,
    symbol: string,
    company_name: Option<string>,
    quantity: real,
    entry_price: real,
    current_price: Option<real>,
    unrealized_pnl: Option<real>,
    unrealized_pnl_percent: Option<real>,
    status: string,
    created_at: string)

  /** A closed round-trip trade. */
  datatype Trade = Trade(
    trade_id: string,
    symbol: string,
    company_name: Option<string>,
    quantity: real,
    entry_price: real,
    exit_price: real,
    profit_loss: real,
    profit_loss_percent: Option<real>,
    entry_time: string,
    exit_time: string,
    status: string,
    side: Option<string>)

  /** The closed set of alert severities. */
  datatype Severity = Info | Warning | Error | Success

  /** A point-in-time notification. */
  datatype Alert = Alert(
    alert_id: string,
    symbol: Option<string>,
    company_name: Option<string>,
    alert_type: string,
    message: string,
    severity: Severity,
    created_at: string)

  /** The closed set of scenario names. */
  datatype ScenarioName =
    | Healthy
    | WarningMargin
    | CriticalMargin
    | DailyLossLimit
    | NoPositions
    | SinglePosition
    | ManyPositions
    | ProfitableDay
    | LosingDay
    | MixedAlerts
    | EmptyState

  /** A complete data bundle: one account snapshot and three lists. */
  datatype Scenario = Scenario(
    accountData: AccountData,
    positions: seq<Position>,
    trades: seq<Trade>,
    alerts: seq<Alert>)

  /** The wire spelling of a severity. */
  function SeverityText(s: Severity): string {
    match s
    case Info => "info"
    case Warning => "warning"
    case Error => "error"
    case Success => "success"
  }

  /** The severity a wire string names, if any. */
  function ParseSeverity(t: string): Option<Severity> {
    if t == "info" then Some(Info)
    else if t == "warning" then Some(Warning)
    else if t == "error" then Some(Error)
    else if t == "success" then Some(Success)
    else None
  }

  /** A severity is exactly one of the four wire strings, and parsing it gives it back. */
  lemma SeverityRoundTrip(s: Severity)
    ensures SeverityText(s) in ["info", "warning", "error", "success"]
    ensures ParseSeverity(SeverityText(s)) == Some(s)
  {
  }

  /** Parsing accepts only the four wire strings, and inverts rendering. */
  lemma ParseSeverityInverse(t: string, s: Severity)
    requires ParseSeverity(t) == Some(s)
    ensures SeverityText(s) == t
  {
  }

  /** The wire spelling of a scenario name. */
  function NameText(n: ScenarioName): string {
    match n
    case Healthy => "healthy"
    case WarningMargin => "warning_margin"
    case CriticalMargin => "critical_margin"
    case DailyLossLimit => "daily_loss_limit"
    case NoPositions => "no_positions"
    case SinglePosition => "single_position"
    case ManyPositions => "many_positions"
    case ProfitableDay => "profitable_day"
    case LosingDay => "losing_day"
    case MixedAlerts => "mixed_alerts"
    case EmptyState => "empty_state"
  }

  /** The eleven names, in the order the `ScenarioName` union lists them. */
  function AllNames(): seq<ScenarioName> {
    [Healthy, WarningMargin, CriticalMargin, DailyLossLimit, NoPositions, SinglePosition,
     ManyPositions, ProfitableDay, LosingDay, MixedAlerts, EmptyState]
  }

  /** The scenario name a wire string spells, if any: the lookup of a key in the record of scenarios. */
  function ParseName(t: string): (r: Option<ScenarioName>)
    ensures r.Some? ==> NameText(r.value) == t
  {
    if t == "healthy" then Some(Healthy)
    else if t == "warning_margin" then Some(WarningMargin)
    else if t == "critical_margin" then Some(CriticalMargin)
    else if t == "daily_loss_limit" then Some(DailyLossLimit)
    else if t == "no_positions" then Some(NoPositions)
    else if t == "single_position" then Some(SinglePosition)
    else if t == "many_positions" then Some(ManyPositions)
    else if t == "profitable_day" then Some(ProfitableDay)
    else if t == "losing_day" then Some(LosingDay)
    else if t == "mixed_alerts" then Some(MixedAlerts)
    else if t == "empty_state" then Some(EmptyState)
    else None
  }

  /** The position of a name in `AllNames()`. */
  function IndexOf(n: ScenarioName): (i: nat)
    ensures i < |AllNames()| && AllNames()[i] == n
  {
    match n
    case Healthy => 0
    case WarningMargin => 1
    case CriticalMargin => 2
    case DailyLossLimit => 3
    case NoPositions => 4
    case SinglePosition => 5
    case ManyPositions => 6
    case ProfitableDay => 7
    case LosingDay => 8
    case MixedAlerts => 9
    case EmptyState => 10
  }

  /** The first two characters of a name's spelling already tell the names apart. */
  function Initials(n: ScenarioName): (char, char) {
    (NameText(n)[0], NameText(n)[1])
  }

  lemma InitialsInjective(a: ScenarioName, b: ScenarioName)
    requires Initials(a) == Initials(b)
    ensures a == b
  {
  }

  /** Distinct names are spelt differently. */
  lemma NameTextInjective(a: ScenarioName, b: ScenarioName)
    requires NameText(a) == NameText(b)
    ensures a == b
  {
    assert Initials(a) == Initials(b);
    InitialsInjective(a, b);
  }

  /** Parsing the spelling of a name gives the name back. */
  lemma NameRoundTrip(n: ScenarioName)
    ensures ParseName(NameText(n)) == Some(n)
  {
  }

  /** Parsing accepts only the eleven spellings, and inverts rendering. */
  lemma ParseNameInverse(t: string, n: ScenarioName)
    requires ParseName(t) == Some(n)
    ensures NameText(n) == t
  {
  }
}
