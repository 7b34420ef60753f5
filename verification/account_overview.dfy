/**
 * The four account cards of the new dashboard. The account object is the
 * hook's unwrapped body; each figure falls back to a default when the field
 * is absent or null (`??`), so a real 0 is shown as 0.
 */
module AccountOverview {
  import opened Wrappers
  import opened Json
  import MockTypes
  import opened Wire
  import opened MockServer
  import opened DashboardApi
  import Seam

  datatype MarginLabel = Healthy | Moderate | Critical

  datatype Trend = Up | Down

  /** The figures the cards show. */
  datatype Overview = Overview(
    equity: real,
    buyingPower: real,
    marginHealth: real,
    dailyPnl: real,
    dailyPnlPercent: real,
    margin: MarginLabel,
    trend: Trend,
    sign: string)

  /** The label under the margin progress bar. */
  function MarginLabelOf(progress: real): (l: MarginLabel)
    ensures l == Healthy <==> progress >= 150.0
    ensures l == Moderate <==> 100.0 <= progress < 150.0
    ensures l == Critical <==> progress < 100.0
  {
    if progress >= 150.0 then Healthy else if progress >= 100.0 then Moderate else Critical
  }

  /** The daily P&L as a percentage of equity, 0 when equity is not positive. */
  function DailyPnlPercent(dailyPnl: real, equity: real): (p: real)
    ensures equity <= 0.0 ==> p == 0.0
    ensures equity > 0.0 ==> p * equity == dailyPnl * 100.0
  {
    if equity > 0.0 then (dailyPnl / equity) * 100.0 else 0.0
  }

  /** `data` is `None` while the hook has nothing yet. */
  function Render(data: Option<Json>): (o: Overview)
    ensures data.None? ==> o.equity == 3000.0 && o.buyingPower == 3000.0 && o.marginHealth == 200.0 && o.dailyPnl == 0.0
    ensures var d := data.GetOr(EmptyObject);
      && ShowsField(d, "equity", 3000.0, o.equity)
      && ShowsField(d, "buying_power", 3000.0, o.buyingPower)
      && ShowsField(d, "margin_health", 200.0, o.marginHealth)
      && ShowsField(d, "daily_pnl", 0.0, o.dailyPnl)
    ensures o.equity > 0.0 ==> o.dailyPnlPercent * o.equity == o.dailyPnl * 100.0
    ensures o.margin == MarginLabelOf(o.marginHealth)
    ensures o.trend == Up <==> o.dailyPnl >= 0.0
    ensures o.sign == "+" <==> o.dailyPnl >= 0.0
    ensures o.equity <= 0.0 ==> o.dailyPnlPercent == 0.0
    ensures o.equity > 0.0 ==> (o.dailyPnlPercent >= 0.0 <==> o.dailyPnl >= 0.0)
  {
    var d := data.GetOr(EmptyObject);
    var equity := NumberOr(d, "equity", 3000.0);
    var buyingPower := NumberOr(d, "buying_power", 3000.0);
    var marginHealth := NumberOr(d, "margin_health", 200.0);
    var dailyPnl := NumberOr(d, "daily_pnl", 0.0);
    var percent := DailyPnlPercent(dailyPnl, equity);
    assert equity > 0.0 ==> (percent >= 0.0 <==> dailyPnl >= 0.0) by {
      if equity > 0.0 {
        assert percent * equity == dailyPnl * 100.0;
        if percent < 0.0 {
          assert percent * equity < 0.0;
        }
      }
    }
    Overview(equity, buyingPower, marginHealth, dailyPnl, percent,
      MarginLabelOf(marginHealth), if dailyPnl >= 0.0 then Up else Down, if dailyPnl >= 0.0 then "+" else "")
  }

  /** The empty object the hook yields for an empty list shows every default. */
  lemma EmptyObjectShowsDefaults()
    ensures var o := Render(Some(EmptyObject));
      o.equity == 3000.0 && o.buyingPower == 3000.0 && o.marginHealth == 200.0 && o.dailyPnl == 0.0
      && o.margin == Healthy && o.trend == Up
  {
  }

  /** A served account shows its own four figures: a reported 0 is kept, not replaced by a default. */
  lemma ServedAccountShown(a: MockTypes.AccountData)
    ensures var o := Render(Some(EncodeAccount(a)));
      o.equity == a.equity && o.buyingPower == a.buying_power
      && o.marginHealth == a.margin_health && o.dailyPnl == a.daily_pnl
  {
    AccountFields(a);
  }

  /** End to end: whatever scenario the mock serves, the cards show that scenario's account figures. */
  lemma ServedThroughHook(data: MockTypes.ScenarioName -> MockTypes.Scenario, s: State, now: string)
    ensures var a := Served(data, s).accountData;
      var fetched := FetchObject(Seam.Deliver(Handle(data, s, AccountDataRequest, now).1));
      fetched.Ok? &&
      var o := Render(Some(fetched.value));
      o.equity == a.equity && o.buyingPower == a.buying_power
      && o.marginHealth == a.margin_health && o.dailyPnl == a.daily_pnl
  {
    Seam.AccountRoundTrip(data, s, now);
    ServedAccountShown(Served(data, s).accountData);
  }

  /** The warning-margin account: margin 135 is Moderate and the −75 day trends down with no '+'. */
  lemma WarningMarginShown()
    ensures var o := Render(Some(EncodeAccount(MockTypes.AccountData(5000.0, 1200.0, 135.0, -75.0))));
      o.margin == Moderate && o.trend == Down && o.sign == "" && o.dailyPnlPercent == -1.5
  {
    ServedAccountShown(MockTypes.AccountData(5000.0, 1200.0, 135.0, -75.0));
  }
}
