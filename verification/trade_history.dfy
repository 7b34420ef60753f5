/**
 * The trade-history card. It works on the trade objects `useTrades` hands
 * over, which are the parsed JSON objects themselves: fields the hook's
 * `Trade` interface does not declare, such as the mock's `side`, are still
 * present and are what the side filter reads.
 *
 * The card filters on side, cuts the filtered list into 20-row pages, and
 * summarises the unfiltered list: the trade count, the winning trades and
 * the win rate.
 */
module TradeHistory {
  import opened Wrappers
  import opened Json
  import opened MockTypes
  import opened Wire
  import opened Seqs
  import Paging

  /** The card's page size. */
  const PageSize: nat := 20

  /** The side selector: all trades, BUY only or SELL only. */
  datatype SideFilter = AllTrades | BuyOnly | SellOnly

  /** The card's state: the selected side and the 1-based page. */
  datatype HistoryState = HistoryState(filter: SideFilter, page: int)

  const Initial := HistoryState(AllTrades, 1)

  /** `data || []`. */
  function Trades(data: Option<seq<Json>>): (r: seq<Json>)
    ensures data.None? ==> r == []
    ensures data.Some? ==> r == data.value
  {
    match data
    case None => []
    case Some(ts) => ts
  }

  /** `sideFilter === "all" || trade.side === sideFilter`: strict equality, so only the exact string matches. */
  predicate Matches(f: SideFilter, t: Json) {
    match f
    case AllTrades => true
    case BuyOnly => Get(t, "side") == Some(JStr("BUY"))
    case SellOnly => Get(t, "side") == Some(JStr("SELL"))
  }

  /**
   * The side filter's buckets: no trade is both a buy and a sell, every trade
   * passes "all", and the test is case-sensitive.
   */
  lemma MatchesPartition(t: Json)
    ensures !(Matches(BuyOnly, t) && Matches(SellOnly, t))
    ensures Matches(AllTrades, t)
    ensures Matches(BuyOnly, t) || Matches(SellOnly, t) <==> Get(t, "side") in {Some(JStr("BUY")), Some(JStr("SELL"))}
    ensures !Matches(BuyOnly, JObj(map["side" := JStr("buy")]))
  {
    var lower := JObj(map["side" := JStr("buy")]);
    assert Get(lower, "side") == Some(JStr("buy"));
    assert JStr("buy") != JStr("BUY") by { assert "buy"[0] != "BUY"[0]; }
  }

  /** The same test on a mock trade's own optional side. */
  predicate SideMatches(f: SideFilter, side: Option<string>) {
    match f
    case AllTrades => true
    case BuyOnly => side == Some("BUY")
    case SellOnly => side == Some("SELL")
  }

  function FilterTrades(trades: seq<Json>, f: SideFilter): (r: seq<Json>)
    ensures |r| <= |trades|
    ensures forall i :: 0 <= i < |r| ==> Matches(f, r[i]) && r[i] in trades
    ensures forall i :: 0 <= i < |trades| ==> (trades[i] in r <==> Matches(f, trades[i]))
  {
    Filter(trades, (t: Json) => Matches(f, t))
  }

  /** "All trades" keeps every trade, in order. */
  lemma AllKeepsEvery(trades: seq<Json>)
    ensures FilterTrades(trades, AllTrades) == trades
  {
    FilterKeepsAll(trades, (t: Json) => Matches(AllTrades, t));
  }

  /** On a served trade the filter tests the trade's own side; a trade without a side matches only "all trades". */
  lemma MatchesEncoded(f: SideFilter, t: Trade)
    ensures Matches(f, EncodeTrade(t)) <==> SideMatches(f, t.side)
    ensures t.side.None? ==> (Matches(f, EncodeTrade(t)) <==> f == AllTrades)
  {
    TradeOptionalFields(t);
  }

  /** The BUY and SELL views of the served trades are exactly the served trades of that side, in their order. */
  lemma FilterServedTrades(ts: seq<Trade>, f: SideFilter)
    ensures FilterTrades(Each(EncodeTrade, ts), f)
      == Each(EncodeTrade, Filter(ts, (t: Trade) => SideMatches(f, t.side)))
  {
    forall t: Trade
      ensures SideMatches(f, t.side) == Matches(f, EncodeTrade(t))
    {
      MatchesEncoded(f, t);
    }
    FilterAfterEach(EncodeTrade, ts, (t: Json) => Matches(f, t), (t: Trade) => SideMatches(f, t.side));
  }

  /** `t[key] > 0` for a numeric field; a missing field is `undefined`, which is never greater than 0. */
  predicate Positive(t: Json, key: string) {
    match GetNumber(t, key)
    case Some(n) => n > 0.0
    case None => false
  }

  /** A field that is missing or not a number never counts as positive; a number counts exactly when it is above 0. */
  lemma PositiveNeedsNumber(t: Json, key: string)
    ensures Get(t, key).None? ==> !Positive(t, key)
    ensures (forall n :: Get(t, key) != Some(JNum(n))) ==> !Positive(t, key)
    ensures forall n :: Get(t, key) == Some(JNum(n)) ==> (Positive(t, key) <==> n > 0.0)
  {
  }

  /** `trades.filter(t => t.pnl > 0).length`, as written: it reads `pnl`, a key no trade carries. */
  function WinsAsWritten(trades: seq<Json>): (r: nat)
    ensures r <= |trades|
  {
    |Filter(trades, (t: Json) => Positive(t, "pnl"))|
  }

  /** The winning trades counted on `profit_loss`, the trade's actual P&L field. */
  function Wins(trades: seq<Json>): (r: nat)
    ensures r <= |trades|
    ensures r == 0 <==> forall i :: 0 <= i < |trades| ==> !Positive(trades[i], "profit_loss")
  {
    var won := Filter(trades, (t: Json) => Positive(t, "profit_loss"));
    if |won| == 0 then
      0
    else
      assert won[0] in trades;
      |won|
  }

  /** `totalTrades > 0 ? (wins / totalTrades) * 100 : 0`. */
  function WinRate(wins: nat, total: nat): (r: real)
    requires wins <= total
    ensures 0.0 <= r <= 100.0
    ensures total == 0 ==> r == 0.0
    ensures total > 0 ==> (r == 0.0 <==> wins == 0) && (r == 100.0 <==> wins == total)
  {
    if total > 0 then (wins as real / total as real) * 100.0 else 0.0
  }

  /** The summary bar's figures. */
  datatype Summary = Summary(totalTrades: nat, wins: nat, winRate: real)

  /** The summary as written, counting wins on `pnl`. */
  function SummarizeAsWritten(trades: seq<Json>): (s: Summary)
    ensures s.totalTrades == |trades| && s.wins <= s.totalTrades
    ensures 0.0 <= s.winRate <= 100.0
  {
    var wins := WinsAsWritten(trades);
    Summary(|trades|, wins, WinRate(wins, |trades|))
  }

  /** The summary with wins counted on `profit_loss`. */
  function Summarize(trades: seq<Json>): (s: Summary)
    ensures s.totalTrades == |trades| && s.wins <= s.totalTrades
    ensures 0.0 <= s.winRate <= 100.0
    ensures s.totalTrades == 0 ==> s.wins == 0 && s.winRate == 0.0
  {
    var wins := Wins(trades);
    Summary(|trades|, wins, WinRate(wins, |trades|))
  }

  /** On served trades the as-written summary never reports a win, whatever the trades' P&L. */
  lemma NoServedWinAsWritten(ts: seq<Trade>)
    ensures SummarizeAsWritten(Each(EncodeTrade, ts)).wins == 0
    ensures SummarizeAsWritten(Each(EncodeTrade, ts)).winRate == 0.0
  {
    var e := Each(EncodeTrade, ts);
    forall i | 0 <= i < |e|
      ensures !Positive(e[i], "pnl")
    {
      TradeOptionalFields(ts[i]);
    }
    FilterKeepsNone(e, (t: Json) => Positive(t, "pnl"));
  }

  /** The as-written count misses a real win: one served trade with a positive P&L still shows 0 wins. */
  lemma MissedWin(t: Trade)
    requires t.profit_loss > 0.0
    ensures SummarizeAsWritten([EncodeTrade(t)]).wins == 0
    ensures Summarize([EncodeTrade(t)]).wins == 1
  {
    TradeOptionalFields(t);
    TradeRequiredFields(t);
    assert [EncodeTrade(t)][1..] == [];
  }

  /** On served trades the corrected count is the number of trades with a positive `profit_loss`. */
  lemma WinsOfServedTrades(ts: seq<Trade>)
    ensures Wins(Each(EncodeTrade, ts)) == |Filter(ts, (t: Trade) => t.profit_loss > 0.0)|
  {
    forall t: Trade
      ensures (t.profit_loss > 0.0) == Positive(EncodeTrade(t), "profit_loss")
    {
      TradeRequiredFields(t);
    }
    FilterAfterEach(EncodeTrade, ts, (t: Json) => Positive(t, "profit_loss"), (t: Trade) => t.profit_loss > 0.0);
  }

  /** Choosing a side keeps the page number. */
  function SetFilter(st: HistoryState, f: SideFilter): (r: HistoryState)
    ensures r.filter == f && r.page == st.page
  {
    st.(filter := f)
  }

  /** What the card renders below the summary. */
  datatype HistoryView = HistoryView(
    summary: Summary,
    rows: seq<Json>,
    totalPages: nat,
    controls: bool,
    placeholder: bool)

  function Render(data: Option<seq<Json>>, st: HistoryState): (v: HistoryView)
    ensures v.summary == Summarize(Trades(data))
    ensures |v.rows| <= PageSize
    ensures v.totalPages * PageSize >= |FilterTrades(Trades(data), st.filter)|
    ensures v.totalPages > 0 ==> (v.totalPages - 1) * PageSize < |FilterTrades(Trades(data), st.filter)|
    ensures v.totalPages == 0 <==> |FilterTrades(Trades(data), st.filter)| == 0
    ensures v.rows == Paging.Page(FilterTrades(Trades(data), st.filter), st.page, PageSize)
    ensures v.controls <==> |FilterTrades(Trades(data), st.filter)| > PageSize
    ensures v.placeholder <==> |v.rows| == 0
    ensures forall i :: 0 <= i < |v.rows| ==> Matches(st.filter, v.rows[i])
  {
    var filtered := FilterTrades(Trades(data), st.filter);
    var total := Paging.TotalPages(|filtered|, PageSize);
    var rows := Paging.Page(filtered, st.page, PageSize);
    Paging.PageIsSubMultiset(filtered, st.page, PageSize);
    assert forall i :: 0 <= i < |rows| ==> rows[i] in multiset(filtered);
    HistoryView(Summarize(Trades(data)), rows, total, Paging.ShowControls(total), |rows| == 0)
  }

  /** The summary reads the unfiltered list: neither the side nor the page changes it. */
  lemma SummaryIgnoresFilterAndPage(data: Option<seq<Json>>, st: HistoryState, st': HistoryState)
    ensures Render(data, st).summary == Render(data, st').summary
    ensures Render(data, st).summary.totalTrades == |Trades(data)|
  {
  }

  /** Walking pages 1 to totalPages shows every filtered trade exactly once, in order. */
  lemma PagesCoverFilteredTrades(data: Option<seq<Json>>, st: HistoryState)
    ensures var filtered := FilterTrades(Trades(data), st.filter);
      Paging.Pages(filtered, PageSize, Render(data, st).totalPages) == filtered
  {
    Paging.PagesCoverList(FilterTrades(Trades(data), st.filter), PageSize);
  }

  function PrevPage(st: HistoryState): (r: HistoryState)
    ensures r.page >= 1 && r.filter == st.filter
  {
    st.(page := Paging.Prev(st.page))
  }

  function NextPage(data: Option<seq<Json>>, st: HistoryState): (r: HistoryState)
    ensures r.page <= Render(data, st).totalPages && r.filter == st.filter
  {
    st.(page := Paging.Next(st.page, Render(data, st).totalPages))
  }

  /** From a page in range both buttons stay in range, and that page shows trades rather than "No trades found". */
  lemma ButtonsKeepPageInRange(data: Option<seq<Json>>, st: HistoryState)
    requires 1 <= st.page <= Render(data, st).totalPages
    ensures 1 <= PrevPage(st).page <= Render(data, PrevPage(st)).totalPages
    ensures 1 <= NextPage(data, st).page <= Render(data, NextPage(data, st)).totalPages
    ensures !Render(data, st).placeholder
  {
    Paging.ClampsKeepRange(st.page, Render(data, st).totalPages);
    Paging.EmptyPageIffEmptyList(FilterTrades(Trades(data), st.filter), st.page, PageSize);
  }
}
