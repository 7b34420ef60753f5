/**
 * Facts about the static fixtures: identifiers are unique within each bundle,
 * the stored profit/loss figures agree exactly with prices and quantities, and
 * the bundles the end-to-end tests rely on have the values they expect.
 */
module FixtureFacts {
  import opened Wrappers
  import opened MockTypes
  import opened Scenarios
  import Paging

  /** No two positions, trades or alerts of a bundle share an identifier. */
  predicate DistinctIds(s: Scenario) {
    && (forall i, j :: 0 <= i < j < |s.positions| ==> s.positions[i].position_id != s.positions[j].position_id)
    && (forall i, j :: 0 <= i < j < |s.trades| ==> s.trades[i].trade_id != s.trades[j].trade_id)
    && (forall i, j :: 0 <= i < j < |s.alerts| ==> s.alerts[i].alert_id != s.alerts[j].alert_id)
  }

  /** A position's unrealized P&L is (current - entry) * quantity; both figures are present. */
  predicate PositionPnlConsistent(p: Position) {
    p.current_price.Some? && p.unrealized_pnl.Some?
    && p.unrealized_pnl.value == (p.current_price.value - p.entry_price) * p.quantity
  }

  /** A trade's profit/loss is (exit - entry) * quantity. */
  predicate TradePnlConsistent(t: Trade) {
    t.profit_loss == (t.exit_price - t.entry_price) * t.quantity
  }

  predicate PnlConsistent(s: Scenario) {
    && (forall i :: 0 <= i < |s.positions| ==> PositionPnlConsistent(s.positions[i]))
    && (forall i :: 0 <= i < |s.trades| ==> TradePnlConsistent(s.trades[i]))
  }

  lemma HealthyConsistent()
    ensures DistinctIds(HealthyScenario()) && PnlConsistent(HealthyScenario())
  {
  }

  lemma WarningMarginConsistent()
    ensures DistinctIds(WarningMarginScenario()) && PnlConsistent(WarningMarginScenario())
  {
  }

  lemma CriticalMarginConsistent()
    ensures DistinctIds(CriticalMarginScenario()) && PnlConsistent(CriticalMarginScenario())
  {
  }

  lemma DailyLossLimitConsistent()
    ensures DistinctIds(DailyLossLimitScenario()) && PnlConsistent(DailyLossLimitScenario())
  {
  }

  lemma NoPositionsConsistent()
    ensures DistinctIds(NoPositionsScenario()) && PnlConsistent(NoPositionsScenario())
  {
  }

  lemma SinglePositionConsistent()
    ensures DistinctIds(SinglePositionScenario()) && PnlConsistent(SinglePositionScenario())
  {
  }

  lemma ManyPositionsConsistent()
    ensures DistinctIds(ManyPositionsScenario()) && PnlConsistent(ManyPositionsScenario())
  {
    var ps := ManyPositionsScenario().positions;
    forall i, j | 0 <= i < j < |ps|
      ensures ps[i].position_id != ps[j].position_id
    {
      assert ps[i].position_id[5..] != ps[j].position_id[5..];
    }
  }

  lemma ProfitableDayConsistent()
    ensures DistinctIds(ProfitableDayScenario()) && PnlConsistent(ProfitableDayScenario())
  {
  }

  lemma LosingDayConsistent()
    ensures DistinctIds(LosingDayScenario()) && PnlConsistent(LosingDayScenario())
  {
  }

  lemma MixedAlertsConsistent()
    ensures DistinctIds(MixedAlertsScenario()) && PnlConsistent(MixedAlertsScenario())
  {
  }

  lemma EmptyStateConsistent()
    ensures DistinctIds(EmptyStateScenario()) && PnlConsistent(EmptyStateScenario())
  {
  }

  /** The `warning_margin` account: equity 5000, buying power 1200, margin health 135%, daily P&L -75. */
  lemma WarningMarginAccount()
    ensures WarningMarginScenario().accountData == AccountData(5000.0, 1200.0, 135.0, -75.0)
  {
  }

  /** `empty_state` has every account figure 0 and no data; `no_positions` has no positions, trades or alerts. */
  lemma EmptyBundles()
    ensures EmptyStateScenario() == Scenario(AccountData(0.0, 0.0, 0.0, 0.0), [], [], [])
    ensures NoPositionsScenario().positions == [] && NoPositionsScenario().trades == [] && NoPositionsScenario().alerts == []
  {
  }

  /** `many_positions` holds 12 positions, which the 10-row positions table spreads over two pages. */
  lemma ManyPositionsSpansTwoPages()
    ensures |ManyPositionsScenario().positions| == 12
    ensures Paging.TotalPages(|ManyPositionsScenario().positions|, 10) == 2
  {
  }
}
