/**
 * The dashboard's data hooks, reduced to what they do with a response: reject a
 * non-ok status, unwrap the account body (the webhook answers with a list),
 * coerce list bodies to arrays, and read the records the components expect.
 * The request itself, React Query's caching and its timers are left out; the
 * polling intervals are computed from the configured setting.
 */
module DashboardApi {
  import opened Wrappers
  import opened Json
  import opened Text
  import opened MockTypes
  import opened Wire
  import opened Seqs

  /** A response as `fetch` exposes it: status, status text and the parsed body. */
  datatype HttpResponse = HttpResponse(status: int, statusText: string, body: Json)

  /** `response.ok`: a status in 200..299. */
  predicate IsOk(r: HttpResponse) {
    200 <= r.status <= 299
  }

  /** The error `fetchAPI` and `fetchArrayAPI` throw on a non-ok response. */
  function ApiError(r: HttpResponse): string {
    "API error: " + r.statusText
  }

  /** `fetchAPI`: the first element of an array body, or `{}` when that is missing or falsy; any other body as it is. */
  function FetchObject(r: HttpResponse): (res: Result<Json, string>)
    ensures res.Err? <==> !IsOk(r)
    ensures res.Err? ==> res.error == ApiError(r)
    ensures IsOk(r) && !r.body.JArr? ==> res == Ok(r.body)
    ensures IsOk(r) && r.body.JArr? && |r.body.items| > 0 && Truthy(r.body.items[0]) ==> res == Ok(r.body.items[0])
    ensures IsOk(r) && r.body.JArr? && (|r.body.items| == 0 || !Truthy(r.body.items[0])) ==> res == Ok(EmptyObject)
  {
    if !IsOk(r) then Err(ApiError(r))
    else match r.body
      case JArr(items) => Ok(if |items| > 0 && Truthy(items[0]) then items[0] else EmptyObject)
      case _ => Ok(r.body)
  }

  /** `fetchArrayAPI`: an array body's elements, and the empty list for any other body. */
  function FetchArray(r: HttpResponse): (res: Result<seq<Json>, string>)
    ensures res.Err? <==> !IsOk(r)
    ensures res.Err? ==> res.error == ApiError(r)
    ensures IsOk(r) && r.body.JArr? ==> res == Ok(r.body.items)
    ensures IsOk(r) && !r.body.JArr? ==> res == Ok([])
  {
    if !IsOk(r) then Err(ApiError(r))
    else match r.body
      case JArr(items) => Ok(items)
      case _ => Ok([])
  }

  /** A `fetchAPI` result is never an array, so the account view never sees the webhook's wrapping. */
  lemma FetchObjectNeverArray(r: HttpResponse)
    requires FetchObject(r).Ok?
    requires r.body.JArr? ==> forall i :: 0 <= i < |r.body.items| ==> !r.body.items[i].JArr?
    ensures !FetchObject(r).value.JArr?
  {
  }

  /** Unwrapping a one-element list gives its element back whenever that element is an object. */
  lemma UnwrapSingleton(status: int, text: string, j: Json)
    requires 200 <= status <= 299
    requires j.JObj?
    ensures FetchObject(HttpResponse(status, text, JArr([j]))) == Ok(j)
  {
  }

  // The records the hooks declare. Each is the corresponding mock record
  // without its extras: positions lose `unrealized_pnl_percent`, trades lose
  // `profit_loss_percent` and `side`, and an alert's severity is plain text.

  datatype ClientAccount = ClientAccount(equity: real, buying_power: real, margin_health: real, daily_pnl: real)

  datatype ClientPosition = ClientPosition(
    position_id: string,
    symbol: string,
    company_name: Option<string>,
    quantity: real,
    entry_price: real,
    current_price: Option<real>,
    unrealized_pnl: Option<real>,
    status: string,
    created_at: string)

  datatype ClientTrade = ClientTrade(
    trade_id: string,
    symbol: string,
    company_name: Option<string>,
    quantity: real,
    entry_price: real,
    exit_price: real,
    profit_loss: real,
    entry_time: string,
    exit_time: string,
    status: string)

  datatype ClientAlert = ClientAlert(
    alert_id: string,
    symbol: Option<string>,
    company_name: Option<string>,
    alert_type: string,
    message: string,
    severity: string,
    created_at: string)

  /** Dropping the extras of each mock record. */
  function AccountView(a: AccountData): ClientAccount {
    ClientAccount(a.equity, a.buying_power, a.margin_health, a.daily_pnl)
  }

  function PositionView(p: Position): ClientPosition {
    ClientPosition(p.position_id, p.symbol, p.company_name, p.quantity, p.entry_price,
      p.current_price, p.unrealized_pnl, p.status, p.created_at)
  }

  function TradeView(t: Trade): ClientTrade {
    ClientTrade(t.trade_id, t.symbol, t.company_name, t.quantity, t.entry_price, t.exit_price,
      t.profit_loss, t.entry_time, t.exit_time, t.status)
  }

  function AlertView(a: Alert): ClientAlert {
    ClientAlert(a.alert_id, a.symbol, a.company_name, a.alert_type, a.message,
      SeverityText(a.severity), a.created_at)
  }

  /** `key` holds a string. */
  predicate HasText(j: Json, key: string) {
    Get(j, key).Some? && Get(j, key).value.JStr?
  }

  /** `key` holds a number. */
  predicate HasNumber(j: Json, key: string) {
    Get(j, key).Some? && Get(j, key).value.JNum?
  }

  /** `key` is absent or holds a string: a value an optional text field admits. */
  predicate OptionalText(j: Json, key: string) {
    Get(j, key).None? || Get(j, key).value.JStr?
  }

  /** `key` is absent or holds a number. */
  predicate OptionalNumber(j: Json, key: string) {
    Get(j, key).None? || Get(j, key).value.JNum?
  }

  /** The record's text `v` is what `key` holds. */
  predicate ReadsText(j: Json, key: string, v: string) {
    Get(j, key) == Some(JStr(v))
  }

  /** The record's number `v` is what `key` holds. */
  predicate ReadsNum(j: Json, key: string, v: real) {
    Get(j, key) == Some(JNum(v))
  }

  /** The record's optional text is undefined exactly when `key` is absent, and otherwise what it holds. */
  predicate ReadsOptText(j: Json, key: string, v: Option<string>) {
    (v.None? <==> Get(j, key).None?) && (v.Some? ==> Get(j, key) == Some(JStr(v.value)))
  }

  /** The record's optional number is undefined exactly when `key` is absent, and otherwise what it holds. */
  predicate ReadsOptNum(j: Json, key: string, v: Option<real>) {
    (v.None? <==> Get(j, key).None?) && (v.Some? ==> Get(j, key) == Some(JNum(v.value)))
  }

  /** A required text field. */
  function TextField(j: Json, key: string): (r: Option<string>)
    ensures r.Some? <==> (Get(j, key).Some? && Get(j, key).value.JStr?)
    ensures r.Some? ==> Get(j, key) == Some(JStr(r.value))
  {
    match Get(j, key)
    case Some(JStr(v)) => Some(v)
    case _ => None
  }

  /** An optional text field: absent reads as `None`; a value of another type does not fit the record. */
  function OptTextField(j: Json, key: string): (r: Option<Option<string>>)
    ensures r.Some? <==> OptionalText(j, key)
    ensures r.Some? ==> ReadsOptText(j, key, r.value)
  {
    match Get(j, key)
    case None => Some(None)
    case Some(JStr(v)) => Some(Some(v))
    case _ => None
  }

  /** An optional numeric field, read the same way. */
  function OptNumField(j: Json, key: string): (r: Option<Option<real>>)
    ensures r.Some? <==> OptionalNumber(j, key)
    ensures r.Some? ==> ReadsOptNum(j, key, r.value)
  {
    match Get(j, key)
    case None => Some(None)
    case Some(JNum(v)) => Some(Some(v))
    case _ => None
  }

  /** The account record a body holds, if every figure is a number. */
  function ReadAccount(j: Json): (r: Option<ClientAccount>)
    ensures r.Some? <==>
      HasNumber(j, "equity") && HasNumber(j, "buying_power") && HasNumber(j, "margin_health") && HasNumber(j, "daily_pnl")
    ensures r.Some? ==>
      && ReadsNum(j, "equity", r.value.equity)
      && ReadsNum(j, "buying_power", r.value.buying_power)
      && ReadsNum(j, "margin_health", r.value.margin_health)
      && ReadsNum(j, "daily_pnl", r.value.daily_pnl)
  {
    match (GetNumber(j, "equity"), GetNumber(j, "buying_power"), GetNumber(j, "margin_health"), GetNumber(j, "daily_pnl"))
    case (Some(e), Some(b), Some(m), Some(d)) => Some(ClientAccount(e, b, m, d))
    case _ => None
  }

  /** The position record an array element holds, if its fields have the declared types. */
  function ReadPosition(j: Json): (r: Option<ClientPosition>)
    ensures r.Some? <==>
      && HasText(j, "position_id") && HasText(j, "symbol") && OptionalText(j, "company_name")
      && HasNumber(j, "quantity") && HasNumber(j, "entry_price")
      && OptionalNumber(j, "current_price") && OptionalNumber(j, "unrealized_pnl")
      && HasText(j, "status") && HasText(j, "created_at")
    ensures r.Some? ==>
      && ReadsText(j, "position_id", r.value.position_id)
      && ReadsText(j, "symbol", r.value.symbol)
      && ReadsOptText(j, "company_name", r.value.company_name)
      && ReadsNum(j, "quantity", r.value.quantity)
      && ReadsNum(j, "entry_price", r.value.entry_price)
      && ReadsOptNum(j, "current_price", r.value.current_price)
      && ReadsOptNum(j, "unrealized_pnl", r.value.unrealized_pnl)
      && ReadsText(j, "status", r.value.status)
      && ReadsText(j, "created_at", r.value.created_at)
  {
    match (TextField(j, "position_id"), TextField(j, "symbol"), OptTextField(j, "company_name"),
           GetNumber(j, "quantity"), GetNumber(j, "entry_price"))
    case (Some(id), Some(sym), Some(name), Some(q), Some(entry)) =>
      (match (OptNumField(j, "current_price"), OptNumField(j, "unrealized_pnl"),
              TextField(j, "status"), TextField(j, "created_at"))
       case (Some(cur), Some(pnl), Some(st), Some(at)) =>
         Some(ClientPosition(id, sym, name, q, entry, cur, pnl, st, at))
       case _ => None)
    case _ => None
  }

  /** The trade record an array element holds, if its fields have the declared types. */
  function ReadTrade(j: Json): (r: Option<ClientTrade>)
    ensures r.Some? <==>
      && HasText(j, "trade_id") && HasText(j, "symbol") && OptionalText(j, "company_name")
      && HasNumber(j, "quantity") && HasNumber(j, "entry_price") && HasNumber(j, "exit_price")
      && HasNumber(j, "profit_loss") && HasText(j, "entry_time") && HasText(j, "exit_time")
      && HasText(j, "status")
    ensures r.Some? ==>
      && ReadsText(j, "trade_id", r.value.trade_id)
      && ReadsText(j, "symbol", r.value.symbol)
      && ReadsOptText(j, "company_name", r.value.company_name)
      && ReadsNum(j, "quantity", r.value.quantity)
      && ReadsNum(j, "entry_price", r.value.entry_price)
      && ReadsNum(j, "exit_price", r.value.exit_price)
      && ReadsNum(j, "profit_loss", r.value.profit_loss)
      && ReadsText(j, "entry_time", r.value.entry_time)
      && ReadsText(j, "exit_time", r.value.exit_time)
      && ReadsText(j, "status", r.value.status)
  {
    match (TextField(j, "trade_id"), TextField(j, "symbol"), OptTextField(j, "company_name"),
           GetNumber(j, "quantity"), GetNumber(j, "entry_price"))
    case (Some(id), Some(sym), Some(name), Some(q), Some(entry)) =>
      (match (GetNumber(j, "exit_price"), GetNumber(j, "profit_loss"), TextField(j, "entry_time"),
              TextField(j, "exit_time"), TextField(j, "status"))
       case (Some(exit), Some(pl), Some(t0), Some(t1), Some(st)) =>
         Some(ClientTrade(id, sym, name, q, entry, exit, pl, t0, t1, st))
       case _ => None)
    case _ => None
  }

  /** The alert record an array element holds, if its fields have the declared types. */
  function ReadAlert(j: Json): (r: Option<ClientAlert>)
    ensures r.Some? <==>
      && HasText(j, "alert_id") && OptionalText(j, "symbol") && OptionalText(j, "company_name")
      && HasText(j, "alert_type") && HasText(j, "message") && HasText(j, "severity")
      && HasText(j, "created_at")
    ensures r.Some? ==>
      && ReadsText(j, "alert_id", r.value.alert_id)
      && ReadsOptText(j, "symbol", r.value.symbol)
      && ReadsOptText(j, "company_name", r.value.company_name)
      && ReadsText(j, "alert_type", r.value.alert_type)
      && ReadsText(j, "message", r.value.message)
      && ReadsText(j, "severity", r.value.severity)
      && ReadsText(j, "created_at", r.value.created_at)
  {
    match (TextField(j, "alert_id"), OptTextField(j, "symbol"), OptTextField(j, "company_name"),
           TextField(j, "alert_type"))
    case (Some(id), Some(sym), Some(name), Some(kind)) =>
      (match (TextField(j, "message"), TextField(j, "severity"), TextField(j, "created_at"))
       case (Some(msg), Some(sev), Some(at)) => Some(ClientAlert(id, sym, name, kind, msg, sev, at))
       case _ => None)
    case _ => None
  }

  /** Every served account reads back as the client record with the same four figures. */
  lemma ReadEncodedAccount(a: AccountData)
    ensures ReadAccount(EncodeAccount(a)) == Some(AccountView(a))
  {
    AccountFields(a);
  }

  /** Every served position reads back as the client record: the mock record without its extras. */
  lemma ReadEncodedPosition(p: Position)
    ensures ReadPosition(EncodePosition(p)) == Some(PositionView(p))
  {
    PositionHeadFields(p);
    PositionTailFields(p);
  }

  lemma PositionHeadFields(p: Position)
    ensures var j := EncodePosition(p);
      (TextField(j, "position_id"), TextField(j, "symbol"), OptTextField(j, "company_name"),
       GetNumber(j, "quantity"), GetNumber(j, "entry_price"))
      == (Some(p.position_id), Some(p.symbol), Some(p.company_name), Some(p.quantity), Some(p.entry_price))
  {
    PositionRequiredFields(p);
    PositionOptionalFields(p);
  }

  lemma PositionTailFields(p: Position)
    ensures var j := EncodePosition(p);
      (OptNumField(j, "current_price"), OptNumField(j, "unrealized_pnl"),
       TextField(j, "status"), TextField(j, "created_at"))
      == (Some(p.current_price), Some(p.unrealized_pnl), Some(p.status), Some(p.created_at))
  {
    PositionRequiredFields(p);
    PositionOptionalFields(p);
  }

  /** Every served trade reads back as the client record: the mock record without its extras. */
  lemma ReadEncodedTrade(t: Trade)
    ensures ReadTrade(EncodeTrade(t)) == Some(TradeView(t))
  {
    TradeHeadFields(t);
    TradeTailFields(t);
  }

  lemma TradeHeadFields(t: Trade)
    ensures var j := EncodeTrade(t);
      (TextField(j, "trade_id"), TextField(j, "symbol"), OptTextField(j, "company_name"),
       GetNumber(j, "quantity"), GetNumber(j, "entry_price"))
      == (Some(t.trade_id), Some(t.symbol), Some(t.company_name), Some(t.quantity), Some(t.entry_price))
  {
    TradeRequiredFields(t);
    TradeOptionalFields(t);
  }

  lemma TradeTailFields(t: Trade)
    ensures var j := EncodeTrade(t);
      (GetNumber(j, "exit_price"), GetNumber(j, "profit_loss"), TextField(j, "entry_time"),
       TextField(j, "exit_time"), TextField(j, "status"))
      == (Some(t.exit_price), Some(t.profit_loss), Some(t.entry_time), Some(t.exit_time), Some(t.status))
  {
    TradeRequiredFields(t);
    TradeRequiredTimes(t);
  }

  /** Every served alert reads back as the client record, its severity as its wire text. */
  lemma ReadEncodedAlert(a: Alert)
    ensures ReadAlert(EncodeAlert(a)) == Some(AlertView(a))
  {
    AlertFields(a);
  }

  /** The polling configuration of the four hooks, in milliseconds. */
  datatype Polling = Polling(
    accountInterval: int, accountStale: int,
    positionsInterval: int, positionsStale: int,
    tradesInterval: int, tradesStale: int,
    alertsInterval: int, alertsStale: int)

  /** `VITE_UPDATE_INTERVAL || "5000"`: an unset or empty setting falls back to the default text. */
  function IntervalSetting(env: Option<string>): (r: string)
    ensures env.Some? && env.value != "" ==> r == env.value
    ensures env.None? || env.value == "" ==> r == "5000"
  {
    match env
    case Some(v) => if v == "" then "5000" else v
    case None => "5000"
  }

  /** The hooks' intervals for a parsed `UPDATE_INTERVAL`: trades poll half as often, and data goes stale a second before the next poll. */
  function PollingFor(interval: int): (p: Polling)
    ensures p.tradesInterval == 2 * p.accountInterval
    ensures p.accountInterval == p.positionsInterval == p.alertsInterval == interval
    ensures p.accountStale == p.accountInterval - 1000 && p.positionsStale == p.positionsInterval - 1000
    ensures p.tradesStale == p.tradesInterval - 1000 && p.alertsStale == p.alertsInterval - 1000
  {
    Polling(interval, interval - 1000, interval, interval - 1000,
      interval * 2, interval * 2 - 1000, interval, interval - 1000)
  }

  /** The configured polling, or `None` when the setting does not parse (`parseInt` gives `NaN`). */
  function Configured(env: Option<string>): Option<Polling> {
    match ParseInt(IntervalSetting(env))
    case Some(n) => Some(PollingFor(n))
    case None => None
  }

  /** Without a setting, accounts, positions and alerts poll every 5 s and trades every 10 s; a decimal setting is used as written. */
  lemma DefaultPolling(env: Option<string>, n: nat)
    ensures env.None? ==> Configured(env) == Some(Polling(5000, 4000, 5000, 4000, 10000, 9000, 5000, 4000))
    ensures env == Some(NatToString(n)) ==> Configured(env) == Some(PollingFor(n))
  {
    if env.None? {
      assert IntervalSetting(env) == "5000";
      ParseIntDefault();
      assert Configured(env) == Some(PollingFor(5000));
    }
    if env == Some(NatToString(n)) {
      ParseIntOfNatToString(n);
      assert IntervalSetting(env) == NatToString(n);
    }
  }
}
