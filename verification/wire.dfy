/**
 * How `res.json` renders the mock records: one JSON object per record, keys in
 * declaration order, and an optional field written only when it is present.
 */
module Wire {
  import opened Wrappers
  import opened Json
  import opened MockTypes
  import opened Seqs

  /** `m` with `key` bound to the string when one is present: an optional field is written only when set. */
  function WithText(m: map<string, Json>, key: string, o: Option<string>): map<string, Json> {
    match o
    case Some(v) => m[key := JStr(v)]
    case None => m
  }

  function WithNum(m: map<string, Json>, key: string, o: Option<real>): map<string, Json> {
    match o
    case Some(v) => m[key := JNum(v)]
    case None => m
  }

  /** A present optional field as it reads back from JSON. */
  function TextJson(o: Option<string>): Option<Json> {
    match o
    case Some(v) => Some(JStr(v))
    case None => None
  }

  function NumJson(o: Option<real>): Option<Json> {
    match o
    case Some(v) => Some(JNum(v))
    case None => None
  }

  function EncodeAccount(a: AccountData): Json {
    JObj(map[
      "equity" := JNum(a.equity),
      "buying_power" := JNum(a.buying_power),
      "margin_health" := JNum(a.margin_health),
      "daily_pnl" := JNum(a.daily_pnl)])
  }

  function EncodePosition(p: Position): Json {
    var required := map[
      "position_id" := JStr(p.position_id),
      "symbol" := JStr(p.symbol),
      "quantity" := JNum(p.quantity),
      "entry_price" := JNum(p.entry_price),
      "status" := JStr(p.status),
      "created_at" := JStr(p.created_at)];
    JObj(
      WithNum(WithNum(WithNum(WithText(required,
        "company_name", p.company_name),
        "current_price", p.current_price),
        "unrealized_pnl", p.unrealized_pnl),
        "unrealized_pnl_percent", p.unrealized_pnl_percent))
  }

  /** The fields every trade carries. */
  function TradeRequired(t: Trade): map<string, Json> {
    map[
      "trade_id" := JStr(t.trade_id),
      "symbol" := JStr(t.symbol),
      "quantity" := JNum(t.quantity),
      "entry_price" := JNum(t.entry_price),
      "exit_price" := JNum(t.exit_price),
      "profit_loss" := JNum(t.profit_loss),
      "entry_time" := JStr(t.entry_time),
      "exit_time" := JStr(t.exit_time),
      "status" := JStr(t.status)]
  }

  function EncodeTrade(t: Trade): Json {
    JObj(
      WithText(WithNum(WithText(TradeRequired(t),
        "company_name", t.company_name),
        "profit_loss_percent", t.profit_loss_percent),
        "side", t.side))
  }

  function EncodeAlert(a: Alert): Json {
    var required := map[
      "alert_id" := JStr(a.alert_id),
      "alert_type" := JStr(a.alert_type),
      "message" := JStr(a.message),
      "severity" := JStr(SeverityText(a.severity)),
      "created_at" := JStr(a.created_at)];
    JObj(
      WithText(WithText(required,
        "symbol", a.symbol),
        "company_name", a.company_name))
  }

  function EncodePositions(ps: seq<Position>): (j: Json)
    ensures j.JArr? && |j.items| == |ps|
    ensures forall i :: 0 <= i < |ps| ==> j.items[i] == EncodePosition(ps[i])
  {
    JArr(Each(EncodePosition, ps))
  }

  function EncodeTrades(ts: seq<Trade>): (j: Json)
    ensures j.JArr? && |j.items| == |ts|
    ensures forall i :: 0 <= i < |ts| ==> j.items[i] == EncodeTrade(ts[i])
  {
    JArr(Each(EncodeTrade, ts))
  }

  function EncodeAlerts(als: seq<Alert>): (j: Json)
    ensures j.JArr? && |j.items| == |als|
    ensures forall i :: 0 <= i < |als| ==> j.items[i] == EncodeAlert(als[i])
  {
    JArr(Each(EncodeAlert, als))
  }

  /** Every account figure reads back from its key. */
  lemma AccountFields(a: AccountData)
    ensures Get(EncodeAccount(a), "equity") == Some(JNum(a.equity))
    ensures Get(EncodeAccount(a), "buying_power") == Some(JNum(a.buying_power))
    ensures Get(EncodeAccount(a), "margin_health") == Some(JNum(a.margin_health))
    ensures Get(EncodeAccount(a), "daily_pnl") == Some(JNum(a.daily_pnl))
  {
  }

  /** Adding a position's optional fields leaves every other field as it was. */
  lemma PositionOptionalsKeep(m: map<string, Json>, k: string, p: Position)
    requires k in m
    requires k != "company_name" && k != "current_price" && k != "unrealized_pnl" && k != "unrealized_pnl_percent"
    ensures var r := WithNum(WithNum(WithNum(WithText(m,
        "company_name", p.company_name),
        "current_price", p.current_price),
        "unrealized_pnl", p.unrealized_pnl),
        "unrealized_pnl_percent", p.unrealized_pnl_percent);
      k in r && r[k] == m[k]
  {
  }

  /** Required position fields are always written. */
  lemma PositionRequiredFields(p: Position)
    ensures Get(EncodePosition(p), "position_id") == Some(JStr(p.position_id))
    ensures Get(EncodePosition(p), "symbol") == Some(JStr(p.symbol))
    ensures Get(EncodePosition(p), "quantity") == Some(JNum(p.quantity))
    ensures Get(EncodePosition(p), "entry_price") == Some(JNum(p.entry_price))
    ensures Get(EncodePosition(p), "status") == Some(JStr(p.status))
    ensures Get(EncodePosition(p), "created_at") == Some(JStr(p.created_at))
  {
    var required := map[
      "position_id" := JStr(p.position_id),
      "symbol" := JStr(p.symbol),
      "quantity" := JNum(p.quantity),
      "entry_price" := JNum(p.entry_price),
      "status" := JStr(p.status),
      "created_at" := JStr(p.created_at)];
    PositionOptionalsKeep(required, "position_id", p);
    PositionOptionalsKeep(required, "symbol", p);
    PositionOptionalsKeep(required, "quantity", p);
    PositionOptionalsKeep(required, "entry_price", p);
    PositionOptionalsKeep(required, "status", p);
    PositionOptionalsKeep(required, "created_at", p);
  }

  /** Each optional position field is written exactly when present. */
  lemma PositionOptionalFields(p: Position)
    ensures Get(EncodePosition(p), "company_name") == TextJson(p.company_name)
    ensures Get(EncodePosition(p), "current_price") == NumJson(p.current_price)
    ensures Get(EncodePosition(p), "unrealized_pnl") == NumJson(p.unrealized_pnl)
    ensures Get(EncodePosition(p), "unrealized_pnl_percent") == NumJson(p.unrealized_pnl_percent)
  {
  }

  /** Adding a trade's optional fields leaves every other field as it was. */
  lemma TradeOptionalsKeep(m: map<string, Json>, k: string, t: Trade)
    requires k in m
    requires k != "company_name" && k != "profit_loss_percent" && k != "side"
    ensures var r := WithText(WithNum(WithText(m,
        "company_name", t.company_name),
        "profit_loss_percent", t.profit_loss_percent),
        "side", t.side);
      k in r && r[k] == m[k]
  {
  }

  /** The trade's identity, size and prices are always written. */
  lemma TradeRequiredFields(t: Trade)
    ensures Get(EncodeTrade(t), "trade_id") == Some(JStr(t.trade_id))
    ensures Get(EncodeTrade(t), "symbol") == Some(JStr(t.symbol))
    ensures Get(EncodeTrade(t), "quantity") == Some(JNum(t.quantity))
    ensures Get(EncodeTrade(t), "entry_price") == Some(JNum(t.entry_price))
    ensures Get(EncodeTrade(t), "exit_price") == Some(JNum(t.exit_price))
    ensures Get(EncodeTrade(t), "profit_loss") == Some(JNum(t.profit_loss))
  {
    var required := TradeRequired(t);
    TradeOptionalsKeep(required, "trade_id", t);
    TradeOptionalsKeep(required, "symbol", t);
    TradeOptionalsKeep(required, "quantity", t);
    TradeOptionalsKeep(required, "entry_price", t);
    TradeOptionalsKeep(required, "exit_price", t);
    TradeOptionalsKeep(required, "profit_loss", t);
  }

  /** The trade's times and status are always written. */
  lemma TradeRequiredTimes(t: Trade)
    ensures Get(EncodeTrade(t), "entry_time") == Some(JStr(t.entry_time))
    ensures Get(EncodeTrade(t), "exit_time") == Some(JStr(t.exit_time))
    ensures Get(EncodeTrade(t), "status") == Some(JStr(t.status))
  {
  }

  /** Each optional trade field is written exactly when present, and no `pnl` key is ever written. */
  lemma TradeOptionalFields(t: Trade)
    ensures Get(EncodeTrade(t), "company_name") == TextJson(t.company_name)
    ensures Get(EncodeTrade(t), "profit_loss_percent") == NumJson(t.profit_loss_percent)
    ensures Get(EncodeTrade(t), "side") == TextJson(t.side)
    ensures Get(EncodeTrade(t), "pnl") == None
  {
  }

  /** Required alert fields are always written; each optional one is written exactly when present; there is no `id` key. */
  lemma AlertFields(a: Alert)
    ensures Get(EncodeAlert(a), "alert_id") == Some(JStr(a.alert_id))
    ensures Get(EncodeAlert(a), "symbol") == TextJson(a.symbol)
    ensures Get(EncodeAlert(a), "company_name") == TextJson(a.company_name)
    ensures Get(EncodeAlert(a), "alert_type") == Some(JStr(a.alert_type))
    ensures Get(EncodeAlert(a), "message") == Some(JStr(a.message))
    ensures Get(EncodeAlert(a), "severity") == Some(JStr(SeverityText(a.severity)))
    ensures Get(EncodeAlert(a), "created_at") == Some(JStr(a.created_at))
    ensures Get(EncodeAlert(a), "id") == None
  {
  }
}
