/**
 * The scenario registry: eleven named, immutable data bundles, declared in a
 * fixed order, and a lookup that falls back to the `healthy` bundle for a key
 * it does not know. Timestamps are kept as the fixture's own description
 * ("hoursAgo(2)"); the server renders them as ISO-8601 strings relative to
 * the moment it starts.
 */
module Scenarios {
  import opened Wrappers
  import opened MockTypes

  /** The `healthy` bundle. */
  function HealthyScenario(): Scenario {
    Scenario(
      AccountData(10000.0, 8500.0, 200.0, 150.5),
      [
        Position("pos-001", "AAPL", Some("Apple Inc."), 10.0, 175.5, Some(180.25), Some(47.5), Some(2.71), "OPEN", "hoursAgo(2)"),
        Position("pos-002", "MSFT", Some("Microsoft Corporation"), 5.0, 380.0, Some(395.0), Some(75.0), Some(3.95), "OPEN", "hoursAgo(1)")
      ],
      [
        Trade("trade-001", "GOOGL", Some("Alphabet Inc."), 8.0, 140.0, 145.5, 44.0, Some(3.93), "hoursAgo(4)", "hoursAgo(3)", "PROFIT_TARGET", Some("BUY")),
        Trade("trade-002", "TSLA", Some("Tesla Inc."), 5.0, 245.0, 242.0, -15.0, Some(-1.22), "hoursAgo(5)", "hoursAgo(4)", "STOP_LOSS", Some("BUY"))
      ],
      [
        Alert("alert-001", Some("AAPL"), None, "POSITION_OPENED", "Position opened: BUY 10 AAPL @ $175.50", Info, "hoursAgo(2)"),
        Alert("alert-002", Some("GOOGL"), None, "PROFIT_TARGET", "Profit target hit: GOOGL +$44.00 (+3.93%)", Success, "hoursAgo(3)")
      ]
      )
  }

  /** The `warning_margin` bundle. */
  function WarningMarginScenario(): Scenario {
    Scenario(
      AccountData(5000.0, 1200.0, 135.0, -75.0),
      [
        Position("pos-001", "NVDA", Some("NVIDIA Corporation"), 8.0, 480.0, Some(465.0), Some(-120.0), Some(-3.13), "OPEN", "hoursAgo(3)")
      ],
      [],
      [
        Alert("alert-001", None, None, "MARGIN_WARNING", "Margin health at 135% - approaching minimum threshold", Warning, "minutesAgo(5)")
      ]
      )
  }

  /** The `critical_margin` bundle. */
  function CriticalMarginScenario(): Scenario {
    Scenario(
      AccountData(3000.0, 200.0, 85.0, -180.0),
      [
        Position("pos-001", "TSLA", Some("Tesla Inc."), 10.0, 260.0, Some(235.0), Some(-250.0), Some(-9.62), "OPEN", "hoursAgo(4)")
      ],
      [],
      [
        Alert("alert-001", None, None, "MARGIN_CRITICAL", "CRITICAL: Margin health below 100% - liquidation imminent", Error, "minutesAgo(1)"),
        Alert("alert-002", None, None, "MARGIN_WARNING", "Margin health dropped to 85%", Warning, "minutesAgo(10)")
      ]
      )
  }

  /** The `daily_loss_limit` bundle. */
  function DailyLossLimitScenario(): Scenario {
    Scenario(
      AccountData(8000.0, 6000.0, 175.0, -400.0),
      [],
      [
        Trade("trade-001", "AMD", Some("Advanced Micro Devices"), 15.0, 145.0, 138.0, -105.0, Some(-4.83), "hoursAgo(3)", "hoursAgo(2)", "STOP_LOSS", Some("BUY")),
        Trade("trade-002", "META", Some("Meta Platforms Inc."), 5.0, 500.0, 470.0, -150.0, Some(-6.0), "hoursAgo(5)", "hoursAgo(4)", "STOP_LOSS", Some("BUY"))
      ],
      [
        Alert("alert-001", None, None, "DAILY_LOSS_LIMIT", "Daily loss limit reached (-5%). Trading paused until tomorrow.", Error, "minutesAgo(30)")
      ]
      )
  }

  /** The `no_positions` bundle. */
  function NoPositionsScenario(): Scenario {
    Scenario(
      AccountData(10000.0, 10000.0, 300.0, 0.0),
      [],
      [],
      []
      )
  }

  /** The `single_position` bundle. */
  function SinglePositionScenario(): Scenario {
    Scenario(
      AccountData(10000.0, 8000.0, 200.0, 47.5),
      [
        Position("pos-001", "AAPL", Some("Apple Inc."), 10.0, 175.5, Some(180.25), Some(47.5), Some(2.71), "OPEN", "hoursAgo(1)")
      ],
      [],
      [
        Alert("alert-001", Some("AAPL"), None, "POSITION_OPENED", "Position opened: BUY 10 AAPL @ $175.50", Info, "hoursAgo(1)")
      ]
      )
  }

  /** The `many_positions` bundle. */
  function ManyPositionsScenario(): Scenario {
    Scenario(
      AccountData(25000.0, 5000.0, 165.0, 325.0),
      [
        Position("pos-001", "AAPL", Some("Apple Inc."), 10.0, 175.5, Some(180.25), Some(47.5), Some(2.71), "OPEN", "hoursAgo(1)"),
        Position("pos-002", "MSFT", Some("Microsoft Corporation"), 5.0, 380.0, Some(395.0), Some(75.0), Some(3.95), "OPEN", "hoursAgo(2)"),
        Position("pos-003", "GOOGL", Some("Alphabet Inc."), 8.0, 140.0, Some(138.5), Some(-12.0), Some(-1.07), "OPEN", "hoursAgo(3)"),
        Position("pos-004", "TSLA", Some("Tesla Inc."), 5.0, 245.0, Some(252.0), Some(35.0), Some(2.86), "OPEN", "hoursAgo(4)"),
        Position("pos-005", "AMZN", Some("Amazon.com Inc."), 12.0, 178.0, Some(185.5), Some(90.0), Some(4.21), "OPEN", "hoursAgo(5)"),
        Position("pos-006", "NVDA", Some("NVIDIA Corporation"), 3.0, 480.0, Some(495.0), Some(45.0), Some(3.13), "OPEN", "hoursAgo(6)"),
        Position("pos-007", "AMD", Some("Advanced Micro Devices"), 15.0, 145.0, Some(142.0), Some(-45.0), Some(-2.07), "OPEN", "hoursAgo(7)"),
        Position("pos-008", "META", Some("Meta Platforms Inc."), 4.0, 500.0, Some(515.0), Some(60.0), Some(3.0), "OPEN", "hoursAgo(8)"),
        Position("pos-009", "NFLX", Some("Netflix Inc."), 6.0, 475.0, Some(468.0), Some(-42.0), Some(-1.47), "OPEN", "hoursAgo(9)"),
        Position("pos-010", "CRM", Some("Salesforce Inc."), 8.0, 265.0, Some(272.0), Some(56.0), Some(2.64), "OPEN", "hoursAgo(10)"),
        Position("pos-011", "ORCL", Some("Oracle Corporation"), 10.0, 125.0, Some(128.0), Some(30.0), Some(2.4), "OPEN", "hoursAgo(11)"),
        Position("pos-012", "INTC", Some("Intel Corporation"), 20.0, 45.0, Some(43.5), Some(-30.0), Some(-3.33), "OPEN", "hoursAgo(12)")
      ],
      [],
      []
      )
  }

  /** The `profitable_day` bundle. */
  function ProfitableDayScenario(): Scenario {
    Scenario(
      AccountData(12500.0, 10000.0, 220.0, 450.0),
      [],
      [
        Trade("trade-001", "AAPL", Some("Apple Inc."), 10.0, 175.0, 180.5, 55.0, Some(3.14), "hoursAgo(6)", "hoursAgo(5)", "PROFIT_TARGET", Some("BUY")),
        Trade("trade-002", "MSFT", Some("Microsoft Corporation"), 8.0, 375.0, 388.0, 104.0, Some(3.47), "hoursAgo(5)", "hoursAgo(4)", "PROFIT_TARGET", Some("BUY")),
        Trade("trade-003", "GOOGL", Some("Alphabet Inc."), 12.0, 138.0, 143.5, 66.0, Some(3.99), "hoursAgo(4)", "hoursAgo(3)", "TRAILING_STOP", Some("BUY")),
        Trade("trade-004", "NVDA", Some("NVIDIA Corporation"), 5.0, 470.0, 465.0, -25.0, Some(-1.06), "hoursAgo(3)", "hoursAgo(2)", "STOP_LOSS", Some("BUY")),
        Trade("trade-005", "AMZN", Some("Amazon.com Inc."), 15.0, 175.0, 185.0, 150.0, Some(5.71), "hoursAgo(2)", "hoursAgo(1)", "PROFIT_TARGET", Some("BUY")),
        Trade("trade-006", "TSLA", Some("Tesla Inc."), 8.0, 240.0, 252.5, 100.0, Some(5.21), "hoursAgo(1)", "minutesAgo(30)", "PROFIT_TARGET", Some("BUY"))
      ],
      [
        Alert("alert-001", None, None, "DAILY_SUMMARY", "Great day! 5 wins, 1 loss. Total P&L: +$450.00", Success, "minutesAgo(5)")
      ]
      )
  }

  /** The `losing_day` bundle. */
  function LosingDayScenario(): Scenario {
    Scenario(
      AccountData(9200.0, 7500.0, 180.0, -280.0),
      [],
      [
        Trade("trade-001", "TSLA", Some("Tesla Inc."), 5.0, 250.0, 242.0, -40.0, Some(-3.2), "hoursAgo(5)", "hoursAgo(4)", "STOP_LOSS", Some("BUY")),
        Trade("trade-002", "NVDA", Some("NVIDIA Corporation"), 3.0, 480.0, 468.0, -36.0, Some(-2.5), "hoursAgo(4)", "hoursAgo(3)", "STOP_LOSS", Some("BUY")),
        Trade("trade-003", "AMD", Some("Advanced Micro Devices"), 10.0, 148.0, 140.0, -80.0, Some(-5.41), "hoursAgo(3)", "hoursAgo(2)", "STOP_LOSS", Some("BUY")),
        Trade("trade-004", "META", Some("Meta Platforms Inc."), 2.0, 505.0, 480.0, -50.0, Some(-4.95), "hoursAgo(2)", "hoursAgo(1)", "STOP_LOSS", Some("BUY")),
        Trade("trade-005", "AAPL", Some("Apple Inc."), 8.0, 178.0, 168.5, -76.0, Some(-5.34), "hoursAgo(1)", "minutesAgo(30)", "STOP_LOSS", Some("BUY"))
      ],
      [
        Alert("alert-001", None, None, "DAILY_WARNING", "Tough day. 0 wins, 5 losses. Consider reviewing strategy.", Warning, "minutesAgo(10)")
      ]
      )
  }

  /** The `mixed_alerts` bundle. */
  function MixedAlertsScenario(): Scenario {
    Scenario(
      AccountData(10000.0, 8000.0, 180.0, 50.0),
      [
        Position("pos-001", "AAPL", Some("Apple Inc."), 10.0, 175.5, Some(178.0), Some(25.0), Some(1.42), "OPEN", "hoursAgo(1)")
      ],
      [],
      [
        Alert("alert-001", Some("AAPL"), None, "POSITION_OPENED", "Position opened: BUY 10 AAPL @ $175.50", Info, "minutesAgo(2)"),
        Alert("alert-002", None, None, "MARGIN_WARNING", "Margin health at 140% - monitor closely", Warning, "minutesAgo(15)"),
        Alert("alert-003", None, None, "API_ERROR", "Alpha Vantage API rate limit reached. Using cached data.", Error, "minutesAgo(30)"),
        Alert("alert-004", Some("MSFT"), None, "POSITION_CLOSED", "Position closed: MSFT +$56.00 (Profit Target)", Success, "minutesAgo(45)"),
        Alert("alert-005", None, None, "SYSTEM_INFO", "Market scanner running. Next scan in 5 minutes.", Info, "minutesAgo(60)")
      ]
      )
  }

  /** The `empty_state` bundle. */
  function EmptyStateScenario(): Scenario {
    Scenario(
      AccountData(0.0, 0.0, 0.0, 0.0),
      [],
      [],
      []
      )
  }

  /** The bundle declared under each name in the `scenarios` record. */
  function Fixture(n: ScenarioName): Scenario {
    match n
    case Healthy => HealthyScenario()
    case WarningMargin => WarningMarginScenario()
    case CriticalMargin => CriticalMarginScenario()
    case DailyLossLimit => DailyLossLimitScenario()
    case NoPositions => NoPositionsScenario()
    case SinglePosition => SinglePositionScenario()
    case ManyPositions => ManyPositionsScenario()
    case ProfitableDay => ProfitableDayScenario()
    case LosingDay => LosingDayScenario()
    case MixedAlerts => MixedAlertsScenario()
    case EmptyState => EmptyStateScenario()
  }

  /** The keys of the `scenarios` record, in declaration order; each key's value is its `Fixture`. */
  function Registry(): seq<ScenarioName> {
    [Healthy, WarningMargin, CriticalMargin, DailyLossLimit, NoPositions, SinglePosition,
     ManyPositions, ProfitableDay, LosingDay, MixedAlerts, EmptyState]
  }

  /** The spellings of the registry's keys, in order: `Object.keys(scenarios)`. */
  function KeysOf(entries: seq<ScenarioName>): (r: seq<string>)
    ensures |r| == |entries|
    ensures forall i :: 0 <= i < |entries| ==> r[i] == NameText(entries[i])
  {
    seq(|entries|, i requires 0 <= i < |entries| => NameText(entries[i]))
  }

  /** The advertised list of valid scenario names. */
  function AvailableNames(): seq<string> {
    KeysOf(Registry())
  }

  /** Whether `scenarios[key]` finds an entry. */
  predicate IsRegistered(key: string) {
    ParseName(key).Some?
  }

  /** The name whose bundle `getScenario(key)` returns: the key's own entry, or `healthy` when it has none. */
  function Resolve(key: string): (r: ScenarioName)
    ensures IsRegistered(key) ==> NameText(r) == key
    ensures !IsRegistered(key) ==> r == Healthy
  {
    ParseName(key).GetOr(Healthy)
  }

  /** `getScenario(key)`. */
  function GetScenario(key: string): Scenario {
    Fixture(Resolve(key))
  }

  /** The registry holds every scenario name exactly once, in the order the `ScenarioName` union lists them. */
  lemma RegistryIsComplete()
    ensures Registry() == AllNames()
    ensures |Registry()| == 11
    ensures forall i, j :: 0 <= i < j < |Registry()| ==> Registry()[i] != Registry()[j]
  {
  }

  /** The advertised names are the eleven spellings, in declaration order. */
  lemma AvailableNamesInOrder()
    ensures AvailableNames() == [
      "healthy", "warning_margin", "critical_margin", "daily_loss_limit", "no_positions",
      "single_position", "many_positions", "profitable_day", "losing_day", "mixed_alerts",
      "empty_state"]
  {
    var names := AvailableNames();
    assert |names| == 11;
    assert names[0] == "healthy" && names[1] == "warning_margin" && names[2] == "critical_margin";
    assert names[3] == "daily_loss_limit" && names[4] == "no_positions" && names[5] == "single_position";
    assert names[6] == "many_positions" && names[7] == "profitable_day" && names[8] == "losing_day";
    assert names[9] == "mixed_alerts" && names[10] == "empty_state";
  }

  /** A key is registered exactly when it is one of the advertised names, i.e. the spelling of a scenario name. */
  lemma RegisteredIffAdvertised(key: string)
    ensures IsRegistered(key) <==> key in AvailableNames()
    ensures IsRegistered(key) <==> ParseName(key).Some?
  {
    RegistryIsComplete();
    if IsRegistered(key) {
      var n := ParseName(key).value;
      var i := IndexOf(n);
      assert AvailableNames()[i] == key;
    }
    if key in AvailableNames() {
      var i :| 0 <= i < |AvailableNames()| && AvailableNames()[i] == key;
      NameRoundTrip(Registry()[i]);
    }
  }

  /** The spelling of a name resolves to that name, so `getScenario()` returns the bundle declared under it. */
  lemma ResolveRegistered(n: ScenarioName)
    ensures IsRegistered(NameText(n))
    ensures Resolve(NameText(n)) == n
    ensures GetScenario(NameText(n)) == Fixture(n)
  {
    NameRoundTrip(n);
  }

  /** `getScenario()` on a key with no entry falls back to the `healthy` bundle. */
  lemma GetScenarioFallback(key: string)
    requires !IsRegistered(key)
    ensures GetScenario(key) == HealthyScenario()
  {
  }
}
