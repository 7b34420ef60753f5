/**
 * The mock scenario server as a state machine. Its only state is the name of
 * the current scenario; the set-scenario request is the only transition, and
 * every read request projects the current bundle into a JSON reply. The
 * health check's timestamp comes from the clock, so it is passed in. The
 * bundle table is a parameter: the running server uses `Fixture`, and every
 * property that does not depend on the fixtures' contents is stated for any
 * table.
 */
module MockServer {
  import opened Wrappers
  import opened Json
  import opened MockTypes
  import opened Scenarios
  import opened Wire
  import opened Seqs

  /** `currentScenario`, holding the string the last accepted request named. */
  datatype State = State(current: string)

  /** A freshly started server serves the `healthy` scenario. */
  const Initial: State := State("healthy")

  datatype Request =
    | Health
    | GetScenarioRequest
    | SetScenarioRequest(body: Json)
    | AccountDataRequest
    | PositionsRequest
    | TradesRequest
    | AlertsRequest

  /** An HTTP status code and a JSON body. */
  datatype Response = Response(status: int, body: Json)

  /** A state every reachable server is in: the current name is registered. */
  predicate Valid(s: State) {
    IsRegistered(s.current)
  }

  /** The advertised names as a JSON array. */
  function NamesJson(): Json {
    var names := AvailableNames();
    JArr(seq(|names|, i requires 0 <= i < |names| => JStr(names[i])))
  }

  /** The scenario name a set request carries: the `scenario` field, when it is a string. */
  function RequestedName(body: Json): Option<string> {
    match Get(body, "scenario")
    case Some(JStr(t)) => Some(t)
    case _ => None
  }

  /** Whether a set request names a registered scenario. */
  predicate Accepts(body: Json) {
    RequestedName(body).Some? && IsRegistered(RequestedName(body).value)
  }

  /** The reply to a rejected set request. */
  function RejectionBody(): Json {
    JObj(map["success" := JBool(false), "error" := JStr("Invalid scenario"), "availableScenarios" := NamesJson()])
  }

  /** The reply to an accepted set request. */
  function SuccessBody(name: string): Json {
    JObj(map["success" := JBool(true), "currentScenario" := JStr(name)])
  }

  /** `POST /api/scenario`: move to a registered name, or reject with 400 and keep the state. */
  function SetScenario(s: State, body: Json): (r: (State, Response))
    ensures Accepts(body) ==> r.0 == State(RequestedName(body).value) && r.1.status == 200
    ensures !Accepts(body) ==> r.0 == s && r.1.status == 400
  {
    if Accepts(body) then
      var name := RequestedName(body).value;
      (State(name), Response(200, SuccessBody(name)))
    else
      (s, Response(400, RejectionBody()))
  }

  /** `GET /health`: the current name and the time of the request. */
  function HealthBody(s: State, now: string): Json {
    JObj(map["status" := JStr("ok"), "scenario" := JStr(s.current), "timestamp" := JStr(now)])
  }

  /** `GET /api/scenario`. */
  function ScenarioInfo(s: State): Json {
    JObj(map["currentScenario" := JStr(s.current), "availableScenarios" := NamesJson()])
  }

  /** The bundle a server with table `data` serves in state `s`: `getScenario(currentScenario)`. */
  function Served(data: ScenarioName -> Scenario, s: State): Scenario {
    data(Resolve(s.current))
  }

  /** Handle one request. Only the set request can change the state. */
  function Handle(data: ScenarioName -> Scenario, s: State, req: Request, now: string): (r: (State, Response))
    ensures !req.SetScenarioRequest? ==> r.0 == s && r.1.status == 200
  {
    match req
    case Health =>
      (s, Response(200, HealthBody(s, now)))
    case GetScenarioRequest =>
      (s, Response(200, ScenarioInfo(s)))
    case SetScenarioRequest(body) =>
      SetScenario(s, body)
    case AccountDataRequest =>
      (s, Response(200, JArr([EncodeAccount(Served(data, s).accountData)])))
    case PositionsRequest =>
      (s, Response(200, EncodePositions(Served(data, s).positions)))
    case TradesRequest =>
      (s, Response(200, EncodeTrades(Served(data, s).trades)))
    case AlertsRequest =>
      (s, Response(200, EncodeAlerts(Served(data, s).alerts)))
  }

  /** A valid state stays valid whatever request arrives: a set request only ever moves to a registered name. */
  lemma HandlePreservesValid(data: ScenarioName -> Scenario, s: State, req: Request, now: string)
    requires Valid(s)
    ensures Valid(Handle(data, s, req, now).0)
  {
  }

  /** The body of a set request naming `name`. */
  function SetBody(name: string): Json {
    JObj(map["scenario" := JStr(name)])
  }

  /** A fresh server reports `healthy`, which is registered. */
  lemma InitialIsHealthy()
    ensures Valid(Initial)
    ensures Get(ScenarioInfo(Initial), "currentScenario") == Some(JStr(NameText(Healthy)))
  {
    assert Initial.current == "healthy" == NameText(Healthy);
    assert ParseName(Initial.current) == Some(Healthy);
    assert ScenarioInfo(Initial).fields["currentScenario"] == JStr(NameText(Healthy));
  }

  /** Setting a registered name moves to it and replies `{success: true, currentScenario: name}`. */
  lemma SetRegisteredName(data: ScenarioName -> Scenario, s: State, n: ScenarioName, now: string)
    ensures Handle(data, s, SetScenarioRequest(SetBody(NameText(n))), now)
      == (State(NameText(n)), Response(200, SuccessBody(NameText(n))))
  {
    var t := NameText(n);
    assert RequestedName(SetBody(t)) == Some(t);
    NameRoundTrip(n);
    assert Accepts(SetBody(t));
  }

  /** A missing, non-string or unregistered name leaves the state unchanged and is answered with 400 and every valid name. */
  lemma SetRejected(data: ScenarioName -> Scenario, s: State, body: Json, now: string)
    requires RequestedName(body).None? || ParseName(RequestedName(body).value).None?
    ensures Handle(data, s, SetScenarioRequest(body), now) == (s, Response(400, RejectionBody()))
    ensures Get(RejectionBody(), "success") == Some(JBool(false))
    ensures Get(RejectionBody(), "error") == Some(JStr("Invalid scenario"))
    ensures Get(RejectionBody(), "availableScenarios") == Some(NamesJson())
  {
    if RequestedName(body).Some? {
      RegisteredIffAdvertised(RequestedName(body).value);
    }
  }

  /** A set request moves the state exactly when its name is one of the eleven. */
  lemma SetMovesIffRegistered(data: ScenarioName -> Scenario, s: State, body: Json, now: string)
    ensures var r := Handle(data, s, SetScenarioRequest(body), now);
      (RequestedName(body).Some? && ParseName(RequestedName(body).value).Some?)
        <==> (RequestedName(body).Some? && r.0 == State(RequestedName(body).value) && r.1.status == 200)
  {
    if RequestedName(body).Some? {
      RegisteredIffAdvertised(RequestedName(body).value);
    }
  }

  /** Repeating a set request changes nothing more than sending it once. */
  lemma SetIdempotent(data: ScenarioName -> Scenario, s: State, body: Json, now: string)
    ensures var once := Handle(data, s, SetScenarioRequest(body), now).0;
      Handle(data, once, SetScenarioRequest(body), now) == Handle(data, s, SetScenarioRequest(body), now)
  {
  }

  /** The advertised names, as the JSON array the server sends. */
  lemma NamesJsonIsList()
    ensures NamesJson() == JArr([
        JStr("healthy"), JStr("warning_margin"), JStr("critical_margin"), JStr("daily_loss_limit"),
        JStr("no_positions"), JStr("single_position"), JStr("many_positions"), JStr("profitable_day"),
        JStr("losing_day"), JStr("mixed_alerts"), JStr("empty_state")])
  {
    AvailableNamesInOrder();
  }

  /** After a successful set, the scenario reply and the health check report that name, and the eleven names are listed in declaration order. */
  lemma SetThenGetRoundTrip(data: ScenarioName -> Scenario, s: State, n: ScenarioName, now: string)
    ensures var after := Handle(data, s, SetScenarioRequest(SetBody(NameText(n))), now).0;
      var info := Handle(data, after, GetScenarioRequest, now).1.body;
      Get(info, "currentScenario") == Some(JStr(NameText(n)))
      && Get(info, "availableScenarios") == Some(JArr([
        JStr("healthy"), JStr("warning_margin"), JStr("critical_margin"), JStr("daily_loss_limit"),
        JStr("no_positions"), JStr("single_position"), JStr("many_positions"), JStr("profitable_day"),
        JStr("losing_day"), JStr("mixed_alerts"), JStr("empty_state")]))
      && Get(Handle(data, after, Health, now).1.body, "scenario") == Some(JStr(NameText(n)))
  {
    SetRegisteredName(data, s, n, now);
    NamesJsonIsList();
  }

  /** In a valid state the server serves the bundle of the current name; the fallback never applies. */
  lemma ServesCurrentBundle(data: ScenarioName -> Scenario, s: State)
    requires Valid(s)
    ensures exists n: ScenarioName :: s.current == NameText(n) && Served(data, s) == data(n)
  {
    assert NameText(Resolve(s.current)) == s.current;
  }

  /** In a state whose name is not registered, the `healthy` bundle is served. */
  lemma ServesHealthyOtherwise(data: ScenarioName -> Scenario, s: State)
    requires !Valid(s)
    ensures Served(data, s) == data(Healthy)
  {
  }

  /** The account endpoint answers with a one-element array holding the current account snapshot. */
  lemma AccountDataIsSingleton(data: ScenarioName -> Scenario, s: State, now: string)
    ensures var body := Handle(data, s, AccountDataRequest, now).1.body;
      body.JArr? && |body.items| == 1 && body.items[0] == EncodeAccount(Served(data, s).accountData)
  {
  }

  /** The list endpoints answer with the current bundle's lists, element by element, empty lists included. */
  lemma ListsVerbatim(data: ScenarioName -> Scenario, s: State, now: string)
    ensures Handle(data, s, PositionsRequest, now).1.body == EncodePositions(Served(data, s).positions)
    ensures Handle(data, s, TradesRequest, now).1.body == EncodeTrades(Served(data, s).trades)
    ensures Handle(data, s, AlertsRequest, now).1.body == EncodeAlerts(Served(data, s).alerts)
  {
  }

  /** After switching to `warning_margin`, a server holding that fixture reports equity 5000, margin health 135 and daily P&L -75. */
  lemma WarningMarginServed(data: ScenarioName -> Scenario, s: State, now: string)
    requires data(WarningMargin) == WarningMarginScenario()
    ensures var after := Handle(data, s, SetScenarioRequest(SetBody(NameText(WarningMargin))), now).0;
      var body := Handle(data, after, AccountDataRequest, now).1.body;
      body == JArr([EncodeAccount(AccountData(5000.0, 1200.0, 135.0, -75.0))])
  {
    var after := Handle(data, s, SetScenarioRequest(SetBody(NameText(WarningMargin))), now).0;
    SetRegisteredName(data, s, WarningMargin, now);
    assert after == State(NameText(WarningMargin));
    NameRoundTrip(WarningMargin);
    assert Resolve(after.current) == WarningMargin;
    assert Served(data, after).accountData == AccountData(5000.0, 1200.0, 135.0, -75.0);
  }

  /** A bundle with no positions, trades or alerts is served as three empty arrays. */
  lemma EmptyListsServed(data: ScenarioName -> Scenario, s: State, now: string)
    requires Served(data, s).positions == [] && Served(data, s).trades == [] && Served(data, s).alerts == []
    ensures Handle(data, s, PositionsRequest, now).1.body == JArr([])
    ensures Handle(data, s, TradesRequest, now).1.body == JArr([])
    ensures Handle(data, s, AlertsRequest, now).1.body == JArr([])
  {
    ListsVerbatim(data, s, now);
  }

  /** After switching to `empty_state`, a server holding that fixture answers every list endpoint with an empty array. */
  lemma EmptyStateServed(data: ScenarioName -> Scenario, s: State, now: string)
    requires data(EmptyState) == EmptyStateScenario()
    ensures var after := Handle(data, s, SetScenarioRequest(SetBody(NameText(EmptyState))), now).0;
      Handle(data, after, PositionsRequest, now).1.body == JArr([])
      && Handle(data, after, TradesRequest, now).1.body == JArr([])
      && Handle(data, after, AlertsRequest, now).1.body == JArr([])
  {
    SetRegisteredName(data, s, EmptyState, now);
    ResolveRegistered(EmptyState);
    EmptyListsServed(data, State(NameText(EmptyState)), now);
  }
}
