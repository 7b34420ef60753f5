/**
 * The mock server and the dashboard hooks put together: what each hook hands
 * to the components when the server answers. The account endpoint's list
 * wrapping and the hook's unwrapping cancel out, and every list element reads
 * back as the client record of the bundle's entry.
 */
module Seam {
  import opened Wrappers
  import opened Json
  import opened MockTypes
  import opened Wire
  import opened MockServer
  import opened DashboardApi

  /** The reason phrase a status is sent with. */
  function StatusText(status: int): string {
    if status == 200 then "OK" else if status == 400 then "Bad Request" else ""
  }

  /** A server reply as the browser's `fetch` sees it. */
  function Deliver(r: Response): HttpResponse {
    HttpResponse(r.status, StatusText(r.status), r.body)
  }

  /** `useAccountData` against the mock: the unwrapped body is the served account, and it reads back with the same four figures. */
  lemma AccountRoundTrip(data: ScenarioName -> Scenario, s: State, now: string)
    ensures var a := Served(data, s).accountData;
      var fetched := FetchObject(Deliver(Handle(data, s, AccountDataRequest, now).1));
      fetched == Ok(EncodeAccount(a)) && ReadAccount(fetched.value) == Some(AccountView(a))
  {
    var a := Served(data, s).accountData;
    AccountDataIsSingleton(data, s, now);
    UnwrapSingleton(200, "OK", EncodeAccount(a));
    ReadEncodedAccount(a);
  }

  /** `usePositions` against the mock: one element per served position, each reading back as that position's client record. */
  lemma PositionsRoundTrip(data: ScenarioName -> Scenario, s: State, now: string)
    ensures var ps := Served(data, s).positions;
      var fetched := FetchArray(Deliver(Handle(data, s, PositionsRequest, now).1));
      fetched.Ok? && |fetched.value| == |ps|
      && forall i :: 0 <= i < |ps| ==> ReadPosition(fetched.value[i]) == Some(PositionView(ps[i]))
  {
    ListsVerbatim(data, s, now);
    var ps := Served(data, s).positions;
    forall i | 0 <= i < |ps|
      ensures ReadPosition(EncodePositions(ps).items[i]) == Some(PositionView(ps[i]))
    {
      ReadEncodedPosition(ps[i]);
    }
  }

  /** `useTrades` against the mock: one element per served trade, each reading back as that trade's client record. */
  lemma TradesRoundTrip(data: ScenarioName -> Scenario, s: State, now: string)
    ensures var ts := Served(data, s).trades;
      var fetched := FetchArray(Deliver(Handle(data, s, TradesRequest, now).1));
      fetched.Ok? && |fetched.value| == |ts|
      && forall i :: 0 <= i < |ts| ==> ReadTrade(fetched.value[i]) == Some(TradeView(ts[i]))
  {
    ListsVerbatim(data, s, now);
    var ts := Served(data, s).trades;
    forall i | 0 <= i < |ts|
      ensures ReadTrade(EncodeTrades(ts).items[i]) == Some(TradeView(ts[i]))
    {
      ReadEncodedTrade(ts[i]);
    }
  }

  /** `useAlerts` against the mock: one element per served alert, each reading back as that alert's client record. */
  lemma AlertsRoundTrip(data: ScenarioName -> Scenario, s: State, now: string)
    ensures var als := Served(data, s).alerts;
      var fetched := FetchArray(Deliver(Handle(data, s, AlertsRequest, now).1));
      fetched.Ok? && |fetched.value| == |als|
      && forall i :: 0 <= i < |als| ==> ReadAlert(fetched.value[i]) == Some(AlertView(als[i]))
  {
    ListsVerbatim(data, s, now);
    var als := Served(data, s).alerts;
    forall i | 0 <= i < |als|
      ensures ReadAlert(EncodeAlerts(als).items[i]) == Some(AlertView(als[i]))
    {
      ReadEncodedAlert(als[i]);
    }
  }
}
