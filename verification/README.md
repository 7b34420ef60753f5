# RoboTrader dashboard and mock scenario server — a Dafny model

RoboTrader's dashboard is a React front end. It polls four n8n webhooks: the
account figures, the open positions, the closed trades and the system alerts.
For end-to-end testing, an Express mock server stands in for n8n. It holds one
of eleven named *scenarios* (fixed bundles of account data, positions, trades
and alerts). A test switches the scenario with `POST /api/scenario`. Every
webhook then serves the matching slice of the current bundle.

This project models that loop end to end:

- **The scenario vocabulary and fixtures** (`MockTypes`, `Scenarios`,
  `FixtureFacts`). These are the data types, the eleven fixtures, the name
  registry and `getScenario`'s fallback to `healthy`.
- **The mock server** (`MockServer`). Its one piece of state is the current
  scenario name. `Handle` answers each endpoint, and the POST validation
  accepts exactly the eleven names.
- **The wire** (`Json`, `Wire`). This is the JSON each endpoint emits. An
  optional field that is `undefined` is dropped by `JSON.stringify`.
- **The client seam** (`DashboardApi`, `Seam`). These model `fetchAPI`
  (which unwraps n8n's one-element array), `fetchArrayAPI`, the polling
  intervals derived from `VITE_UPDATE_INTERVAL`, and the round trip from a
  server bundle to the values a hook hands to a component.
- **The dashboard components**, each as pure functions from props and state
  to what is shown:
  - `PositionsTable`: sort, pages of 10.
  - `TradeHistory`: side filter, pages of 20, summary.
  - `AlertPanel`: initial slice, dismiss, severity styling, relative time,
    auto-dismiss delay.
  - `Header`: countdown to the 16:00 close, status chips, badge.
  - `FundSlider`: value, save validation, risk level.
  - `AccountOverview`: defaults, margin label, daily P&L sign and percent.
- **The legacy Material-UI components** `LegacyAlertPanel` and
  `LegacyAccountOverview`.

Modelling choices:

- JavaScript numbers are exact `real`s. There is no rounding, and `NaN` is
  `None` where it arises.
- Timestamps are opaque strings, and the clock is a parameter.
- Strings are `seq<char>`, and `localeCompare` becomes code-unit
  lexicographic order.
- The components read the values the hooks actually pass on. Those values
  are runtime JSON objects (`Json`), not the TypeScript interfaces they are
  declared as. This is how the model can tell when a component reads a
  field the server never sends.
- Handlers are parameterised by the fixture table
  (`data: ScenarioName -> Scenario`). Lemmas about a particular scenario
  name the fixture they rely on in their `requires`.

## Model

| member | source | states |
|---|---|---|
| MockTypes.SeverityRoundTrip | e2e-tests/mock-server/types/index.ts:44 | every alert severity is one of the four spellings `info`, `warning`, `error`, `success`, and parsing that spelling gives the severity back |
| MockTypes.ParseSeverityInverse | e2e-tests/mock-server/types/index.ts:44 | a string that parses as a severity is exactly that severity's spelling |
| MockTypes.ParseName | e2e-tests/mock-server/types/index.ts:48-59 | a string recognised as a scenario name is that name's spelling |
| MockTypes.NameTextInjective | e2e-tests/mock-server/types/index.ts:48-59 | no two scenario names share a spelling |
| MockTypes.NameRoundTrip | e2e-tests/mock-server/types/index.ts:48-59 | every scenario name's spelling is recognised as that same name |
| MockTypes.ParseNameInverse | e2e-tests/mock-server/types/index.ts:48-59 | recognising a string as a name and spelling the name gives the string back |
| Scenarios.Resolve | e2e-tests/mock-server/data/scenarios.ts:358-360 | a registered key resolves to the name it spells; any other key resolves to `healthy` |
| Scenarios.RegistryIsComplete | e2e-tests/mock-server/data/scenarios.ts:7-356 | the registry lists all eleven names of the ScenarioName union, each once |
| Scenarios.AvailableNamesInOrder | e2e-tests/mock-server/data/scenarios.ts:7-356 | `Object.keys(scenarios)` is the eleven names in declaration order, `healthy` first and `empty_state` last |
| Scenarios.RegisteredIffAdvertised | e2e-tests/mock-server/index.ts:27 | a key passes the server's lookup exactly when it appears in the advertised list |
| Scenarios.ResolveRegistered | e2e-tests/mock-server/data/scenarios.ts:358-360 | `getScenario` of a name's spelling returns that name's own fixture, never the fallback |
| Scenarios.GetScenarioFallback | e2e-tests/mock-server/data/scenarios.ts:358-360 | `getScenario` of an unregistered key returns the healthy fixture |
| FixtureFacts.HealthyConsistent | e2e-tests/mock-server/data/scenarios.ts:8-90 | the healthy fixture's ids are distinct within each list and every P&L equals (price difference) × quantity |
| FixtureFacts.WarningMarginConsistent | e2e-tests/mock-server/data/scenarios.ts:91-123 | the same id and P&L consistency for warning_margin |
| FixtureFacts.CriticalMarginConsistent | e2e-tests/mock-server/data/scenarios.ts:124-163 | the same id and P&L consistency for critical_margin |
| FixtureFacts.DailyLossLimitConsistent | e2e-tests/mock-server/data/scenarios.ts:164-212 | the same id and P&L consistency for daily_loss_limit |
| FixtureFacts.NoPositionsConsistent | e2e-tests/mock-server/data/scenarios.ts:213-224 | the same id and P&L consistency for no_positions |
| FixtureFacts.SinglePositionConsistent | e2e-tests/mock-server/data/scenarios.ts:225-258 | the same id and P&L consistency for single_position |
| FixtureFacts.ManyPositionsConsistent | e2e-tests/mock-server/data/scenarios.ts:259-283 | the same id and P&L consistency for the twelve positions of many_positions |
| FixtureFacts.ProfitableDayConsistent | e2e-tests/mock-server/data/scenarios.ts:284-304 | the same id and P&L consistency for profitable_day |
| FixtureFacts.LosingDayConsistent | e2e-tests/mock-server/data/scenarios.ts:305-324 | the same id and P&L consistency for losing_day |
| FixtureFacts.MixedAlertsConsistent | e2e-tests/mock-server/data/scenarios.ts:325-344 | the same id and P&L consistency for mixed_alerts |
| FixtureFacts.EmptyStateConsistent | e2e-tests/mock-server/data/scenarios.ts:345-355 | the same id and P&L consistency for empty_state |
| FixtureFacts.WarningMarginAccount | e2e-tests/mock-server/data/scenarios.ts:92-97 | warning_margin's account is equity 5000, buying power 1200, margin health 135, daily P&L −75 |
| FixtureFacts.EmptyBundles | e2e-tests/mock-server/data/scenarios.ts:345-355 | empty_state is all zeros with three empty lists; no_positions (lines 213-224) also has no positions, trades or alerts |
| FixtureFacts.ManyPositionsSpansTwoPages | e2e-tests/mock-server/data/scenarios.ts:259-283 | many_positions holds 12 positions, so the positions table shows two pages of 10 |
| MockServer.SetScenario | e2e-tests/mock-server/index.ts:25-34 | an accepted body moves the current scenario to the requested name with status 200; any other body leaves the state alone with status 400 |
| MockServer.Handle | e2e-tests/mock-server/index.ts:16-56 | every endpoint except the POST leaves the current scenario unchanged and answers 200 |
| MockServer.HandlePreservesValid | e2e-tests/mock-server/index.ts:10-56 | once the current scenario is a registered name, no request can make it anything else |
| MockServer.InitialIsHealthy | e2e-tests/mock-server/index.ts:10 | the server starts valid, and `GET /api/scenario` then reports `healthy` |
| MockServer.SetRegisteredName | e2e-tests/mock-server/index.ts:27-30 | posting any registered name sets it and answers `{success: true, currentScenario: name}` |
| MockServer.SetRejected | e2e-tests/mock-server/index.ts:32 | a body whose `scenario` is missing, not a string or unregistered leaves the state untouched and answers 400 with `success: false`, `error: "Invalid scenario"` and the advertised list |
| MockServer.SetMovesIffRegistered | e2e-tests/mock-server/index.ts:27-33 | the POST changes the state and answers 200 exactly when it names a registered scenario |
| MockServer.SetIdempotent | e2e-tests/mock-server/index.ts:25-34 | posting the same body twice leaves the same state as posting it once |
| MockServer.NamesJsonIsList | e2e-tests/mock-server/index.ts:22 | `availableScenarios` is a JSON array of the eleven names as strings, in order |
| MockServer.SetThenGetRoundTrip | e2e-tests/mock-server/index.ts:21-30 | after posting a registered name, `GET /api/scenario` reports that name and `/health` reports it as `scenario` |
| MockServer.ServesCurrentBundle | e2e-tests/mock-server/index.ts:37-56 | while the state is valid, the webhooks serve the bundle of the name it spells |
| MockServer.ServesHealthyOtherwise | e2e-tests/mock-server/data/scenarios.ts:358-360 | a state holding no registered name would be served the healthy bundle |
| MockServer.AccountDataIsSingleton | e2e-tests/mock-server/index.ts:37-41 | `/webhook/account-data` answers a one-element array holding the current account object |
| MockServer.ListsVerbatim | e2e-tests/mock-server/index.ts:43-56 | the positions, trades and alerts webhooks answer the current bundle's lists encoded element by element |
| MockServer.WarningMarginServed | e2e-tests/mock-server/index.ts:27-41 | after selecting warning_margin, account-data serves equity 5000 and margin health 135 |
| MockServer.EmptyListsServed | e2e-tests/mock-server/index.ts:43-56 | a bundle with empty lists is served as three empty JSON arrays |
| MockServer.EmptyStateServed | e2e-tests/mock-server/index.ts:25-56 | after selecting empty_state, all three list webhooks answer `[]` |
| Json.NumberOr | frontend-new/src/components/dashboard/AccountOverview.tsx:72-75 | `??` yields the numeric field when present and the fallback otherwise |
| Wire.AccountFields | e2e-tests/mock-server/types/index.ts:3-8 | the encoded account carries the four figures under their snake_case keys |
| Wire.PositionRequiredFields | e2e-tests/mock-server/types/index.ts:10-21 | an encoded position always carries its id, symbol, quantity, entry price, status and creation time |
| Wire.PositionOptionalFields | e2e-tests/mock-server/types/index.ts:13-18 | an optional position field appears exactly when it is defined |
| Wire.TradeRequiredFields | e2e-tests/mock-server/types/index.ts:23-36 | an encoded trade always carries its id, symbol, quantity, entry and exit prices and profit_loss |
| Wire.TradeRequiredTimes | e2e-tests/mock-server/types/index.ts:32-34 | an encoded trade always carries its entry and exit times and status |
| Wire.TradeOptionalFields | e2e-tests/mock-server/types/index.ts:26-35 | optional trade fields appear exactly when defined, and no trade carries a `pnl` key |
| Wire.AlertFields | e2e-tests/mock-server/types/index.ts:38-46 | an encoded alert carries its fields with the severity spelled in lower case, and has no `id` key |
| DashboardApi.FetchObject | frontend-new/src/hooks/use-dashboard-api.ts:48-56 | a non-2xx response is an error carrying the status text; an array body is unwrapped to its first element, or to `{}` when that is falsy or missing; any other body passes through |
| DashboardApi.FetchArray | frontend-new/src/hooks/use-dashboard-api.ts:58-65 | a non-2xx response is an error; an array body passes through; any other body becomes `[]` |
| DashboardApi.FetchObjectNeverArray | frontend-new/src/hooks/use-dashboard-api.ts:55 | a successful object fetch never yields an array when the body nests none |
| DashboardApi.UnwrapSingleton | frontend-new/src/hooks/use-dashboard-api.ts:54-55 | a 2xx body `[obj]` yields `obj` |
| DashboardApi.ReadAccount | frontend-new/src/hooks/use-dashboard-api.ts:6-11 | a JSON value reads as an AccountData exactly when all four figures are present numbers, and then each field read is the number sent |
| DashboardApi.ReadPosition | frontend-new/src/hooks/use-dashboard-api.ts:13-23 | a JSON value reads as a Position exactly when every required field is present with its declared type and every optional one is absent or of its type; each of the nine fields read is the value sent, and an optional one is undefined exactly when absent |
| DashboardApi.ReadTrade | frontend-new/src/hooks/use-dashboard-api.ts:25-36 | a JSON value reads as a Trade exactly when its ten fields have their declared types (company_name optional); each field read is the value sent, and company_name is undefined exactly when absent |
| DashboardApi.ReadAlert | frontend-new/src/hooks/use-dashboard-api.ts:38-46 | a JSON value reads as an Alert exactly when its seven fields have their declared types (symbol and company_name optional); each field read is the value sent, and an optional one is undefined exactly when absent |
| DashboardApi.ReadEncodedAccount | frontend-new/src/hooks/use-dashboard-api.ts:6-11 | every served account object meets the client's AccountData interface with the same figures |
| DashboardApi.ReadEncodedPosition | frontend-new/src/hooks/use-dashboard-api.ts:13-23 | every served position meets the client's Position interface with the same values |
| DashboardApi.PositionHeadFields | frontend-new/src/hooks/use-dashboard-api.ts:14-18 | the first fields of a served position read back as sent |
| DashboardApi.PositionTailFields | frontend-new/src/hooks/use-dashboard-api.ts:19-22 | the remaining fields of a served position read back as sent |
| DashboardApi.ReadEncodedTrade | frontend-new/src/hooks/use-dashboard-api.ts:25-36 | every served trade meets the client's Trade interface with the same values |
| DashboardApi.TradeHeadFields | frontend-new/src/hooks/use-dashboard-api.ts:26-31 | the first fields of a served trade read back as sent |
| DashboardApi.TradeTailFields | frontend-new/src/hooks/use-dashboard-api.ts:32-35 | the remaining fields of a served trade read back as sent |
| DashboardApi.ReadEncodedAlert | frontend-new/src/hooks/use-dashboard-api.ts:38-46 | every served alert meets the client's Alert interface with the same values |
| DashboardApi.IntervalSetting | frontend-new/src/hooks/use-dashboard-api.ts:4 | an unset or empty `VITE_UPDATE_INTERVAL` falls back to `"5000"`; any other setting is used as given |
| DashboardApi.PollingFor | frontend-new/src/hooks/use-dashboard-api.ts:67-101 | account, positions and alerts poll at the interval and trades at twice it, and each is stale one second before its next poll |
| DashboardApi.DefaultPolling | frontend-new/src/hooks/use-dashboard-api.ts:4 | with no setting, polling is 5000/10000 ms with staleness 4000/9000 ms; a decimal setting `n` polls every `n` ms |
| Seam.AccountRoundTrip | frontend-new/src/hooks/use-dashboard-api.ts:48-56 | the account hook hands the component exactly the current bundle's account figures |
| Seam.PositionsRoundTrip | frontend-new/src/hooks/use-dashboard-api.ts:58-65 | the positions hook hands over one well-typed Position per served position, equal to it, in order |
| Seam.TradesRoundTrip | frontend-new/src/hooks/use-dashboard-api.ts:58-65 | the trades hook hands over one well-typed Trade per served trade, equal to it, in order |
| Seam.AlertsRoundTrip | frontend-new/src/hooks/use-dashboard-api.ts:58-65 | the alerts hook hands over one well-typed Alert per served alert, equal to it, in order |
| Text.LexLeReflexive | frontend-new/src/components/dashboard/PositionsTable.tsx:42-44 | the string order used for sorting puts every string at or before itself |
| Text.LexLeTotal | frontend-new/src/components/dashboard/PositionsTable.tsx:42-44 | any two strings are comparable |
| Text.LexLeTransitive | frontend-new/src/components/dashboard/PositionsTable.tsx:42-44 | the string order is transitive |
| Text.LexLeAntisymmetric | frontend-new/src/components/dashboard/PositionsTable.tsx:42-44 | two strings each at or before the other are equal |
| Text.NatToString | frontend-new/src/components/dashboard/Header.tsx:58 | a count prints as a non-empty string of decimal digits with no leading zero |
| Text.NatToStringRoundTrip | frontend-new/src/components/dashboard/Header.tsx:58 | the printed digits denote the number printed |
| Text.IntToString | frontend-new/src/components/dashboard/AlertPanel.tsx:63 | an integer prints with a leading `-` exactly when negative |
| Text.ToUpper | frontend/src/components/AlertPanel.jsx:21 | `toUpperCase` on ASCII letters: the result has the same length and each ASCII lower-case letter is upper-cased in place, every other character kept |
| Text.ToLower | frontend-new/src/components/dashboard/AlertPanel.tsx:119 | `toLowerCase` on ASCII letters: the result has the same length and each ASCII capital is lower-cased in place, every other character kept |
| Text.ToLowerOfLower | frontend-new/src/components/dashboard/AlertPanel.tsx:119 | a string with no ASCII capitals is its own (ASCII) lower case |
| Text.ToLowerIgnoresCase | frontend-new/src/components/dashboard/AlertPanel.tsx:119 | for ASCII letters, lower-casing an upper-cased string equals lower-casing the original |
| Text.ReplaceAll | frontend/src/components/AlertPanel.jsx:21 | `replace(/_/g, ' ')` keeps the length and swaps every underscore, and nothing else |
| Text.ParseInt | frontend-new/src/hooks/use-dashboard-api.ts:4 | `parseInt` is NaN exactly when, after leading white space (every ECMAScript white-space and line-terminator character) and one sign, no decimal digit follows |
| Text.ParseIntOfNatToString | frontend-new/src/hooks/use-dashboard-api.ts:4 | parsing a printed natural number gives it back |
| Text.ParseIntDefault | frontend-new/src/hooks/use-dashboard-api.ts:4 | the default setting `"5000"` parses to 5000 |
| Text.ParseIntNaN | frontend-new/src/hooks/use-dashboard-api.ts:4 | a setting with no leading digits, such as `"fast"`, parses to NaN |
| Seqs.Each | e2e-tests/mock-server/index.ts:43-56 | mapping keeps the length and applies the function at every index |
| Seqs.Filter | frontend-new/src/components/dashboard/TradeHistory.tsx:68-70 | filtering keeps exactly the elements satisfying the predicate, and only elements of the input |
| Seqs.FilterConcat | frontend-new/src/components/dashboard/TradeHistory.tsx:68-70 | filtering distributes over concatenation |
| Seqs.FilterMultiset | frontend-new/src/components/dashboard/TradeHistory.tsx:68-70 | filtering keeps every satisfying element with its full multiplicity and drops all others |
| Seqs.FilterKeepsAll | frontend-new/src/components/dashboard/TradeHistory.tsx:68-70 | a predicate true everywhere leaves the list unchanged |
| Seqs.FilterKeepsNone | frontend-new/src/components/dashboard/TradeHistory.tsx:80 | a predicate false everywhere leaves nothing |
| Seqs.FilterAfterEach | frontend-new/src/components/dashboard/AlertPanel.tsx:71 | filtering encoded values equals encoding the filtered values, when the predicates agree |
| Seqs.FilterDrops | frontend-new/src/components/dashboard/AlertPanel.tsx:71 | a filter that rejects some element strictly shortens the list |
| Paging.Slice | frontend-new/src/components/dashboard/PositionsTable.tsx:48-51 | slicing within range takes exactly the requested run, and slicing past the end is empty |
| Paging.TotalPages | frontend-new/src/components/dashboard/PositionsTable.tsx:47 | `Math.ceil(n / size)` is the fewest pages that hold `n` items, and 0 only for none |
| Paging.Page | frontend-new/src/components/dashboard/PositionsTable.tsx:48-51 | a page holds at most `size` items; a page that starts inside the list is non-empty; a full page is the matching run |
| Paging.PageIsSubMultiset | frontend-new/src/components/dashboard/PositionsTable.tsx:48-51 | a page shows only items of the list, none more often than the list holds it |
| Paging.PagesArePrefix | frontend-new/src/components/dashboard/PositionsTable.tsx:47-51 | pages 1 to k together are the list's first k·size items |
| Paging.PagesCoverList | frontend-new/src/components/dashboard/PositionsTable.tsx:47-51 | pages 1 to totalPages together are the whole list, in order |
| Paging.Prev | frontend-new/src/components/dashboard/PositionsTable.tsx:169 | the previous button moves back one page, never below 1 |
| Paging.Next | frontend-new/src/components/dashboard/PositionsTable.tsx:177 | the next button moves forward one page, never past the last |
| Paging.ClampsKeepRange | frontend-new/src/components/dashboard/PositionsTable.tsx:160-184 | from a valid page both buttons stay in range, and each undoes the other away from the ends |
| Paging.EmptyPageIffEmptyList | frontend-new/src/components/dashboard/PositionsTable.tsx:113-118 | on a page in range, the page is empty exactly when the list is |
| PositionsTable.Rows | frontend-new/src/components/dashboard/PositionsTable.tsx:30 | missing data is shown as an empty list; present data as itself |
| PositionsTable.BeforeTotal | frontend-new/src/components/dashboard/PositionsTable.tsx:36-45 | the sort comparator orders every pair one way or the other, for every field and direction |
| PositionsTable.BeforeTransitive | frontend-new/src/components/dashboard/PositionsTable.tsx:36-45 | the sort comparator is transitive |
| PositionsTable.InsertSorted | frontend-new/src/components/dashboard/PositionsTable.tsx:36-45 | inserting into a sorted list keeps it sorted |
| PositionsTable.Insert | frontend-new/src/components/dashboard/PositionsTable.tsx:36-45 | placing a row adds exactly that row: the result holds the old rows plus the new one |
| PositionsTable.KeyOfTypes | frontend-new/src/components/dashboard/PositionsTable.tsx:37-44 | the comparator sees a number exactly on quantity, entry price, and a current price or P&L the row holds; a missing optional field is compared as the text "undefined" |
| PositionsTable.NumberTextBeforeUndefined | frontend-new/src/components/dashboard/PositionsTable.tsx:42-44 | comparing a number's decimal text with "undefined" by code units gives the verdict the model's number-before-text rule gives, in both orders |
| PositionsTable.SortRows | frontend-new/src/components/dashboard/PositionsTable.tsx:36-45 | the sorted rows are a permutation of the positions, ordered by the chosen field and direction |
| PositionsTable.NumericOrder | frontend-new/src/components/dashboard/PositionsTable.tsx:39-40 | sorting by quantity or entry price orders the numbers ascending, or descending for `desc` |
| PositionsTable.CurrentPriceBefore | frontend-new/src/components/dashboard/PositionsTable.tsx:36-45 | for current price, two defined prices compare numerically; ascending, nothing with a price follows a row without one, and descending the reverse |
| PositionsTable.OptionalNumericOrder | frontend-new/src/components/dashboard/PositionsTable.tsx:36-45 | sorted by current price ascending, the rows without a price come last, and descending they come first; the priced rows are in numeric order |
| PositionsTable.HandleSort | frontend-new/src/components/dashboard/PositionsTable.tsx:53-60 | clicking the current column flips the direction; clicking another selects it ascending; the page is kept |
| PositionsTable.HandleSortTwice | frontend-new/src/components/dashboard/PositionsTable.tsx:53-60 | two clicks on the current column restore the state; two on another leave it selected descending |
| PositionsTable.Render | frontend-new/src/components/dashboard/PositionsTable.tsx:47-184 | the table counts all positions; its rows are exactly the current page of the sorted positions; the page count is the least covering all positions; pagination appears only beyond 10, the placeholder exactly when the page is empty, and page 1 of non-empty data is never empty |
| PositionsTable.ShownRowsAreData | frontend-new/src/components/dashboard/PositionsTable.tsx:48-51 | every shown row is one of the positions |
| PositionsTable.PagesCoverSortedRows | frontend-new/src/components/dashboard/PositionsTable.tsx:36-51 | stepping through every page shows every position exactly once, in sorted order |
| PositionsTable.PrevPage | frontend-new/src/components/dashboard/PositionsTable.tsx:169 | the previous button keeps the sort and never goes below page 1 |
| PositionsTable.NextPage | frontend-new/src/components/dashboard/PositionsTable.tsx:177 | the next button keeps the sort and never passes the last page |
| PositionsTable.ButtonsKeepPageInRange | frontend-new/src/components/dashboard/PositionsTable.tsx:160-184 | from a page in range both buttons land in range, and no page in range shows the placeholder |
| PositionsTable.StalePageShowsPlaceholder | frontend-new/src/components/dashboard/PositionsTable.tsx:33 | the page is not reset when the data shrinks, so page 2 of up to 10 positions shows "No open positions" while the header counts them |
| TradeHistory.Trades | frontend-new/src/components/dashboard/TradeHistory.tsx:63 | missing data is shown as an empty list |
| TradeHistory.FilterTrades | frontend-new/src/components/dashboard/TradeHistory.tsx:68-70 | the side filter keeps exactly the trades whose `side` matches, or all of them for "all" |
| TradeHistory.AllKeepsEvery | frontend-new/src/components/dashboard/TradeHistory.tsx:68-70 | the "all" filter keeps the list unchanged |
| TradeHistory.MatchesEncoded | frontend-new/src/components/dashboard/TradeHistory.tsx:68-70 | a served trade passes BUY or SELL exactly when its side is that string; one with no side passes only "all" |
| TradeHistory.MatchesPartition | frontend-new/src/components/dashboard/TradeHistory.tsx:68-70 | no trade passes both BUY and SELL, every trade passes "all", a trade passes BUY or SELL exactly when its side is one of those strings, and lower-case "buy" passes neither |
| TradeHistory.FilterServedTrades | frontend-new/src/components/dashboard/TradeHistory.tsx:68-70 | filtering served trades equals serving the trades whose side matches |
| TradeHistory.WinsAsWritten | frontend-new/src/components/dashboard/TradeHistory.tsx:80 | the count as written never exceeds the number of trades |
| TradeHistory.Wins | frontend-new/src/components/dashboard/TradeHistory.tsx:80 | the corrected count is 0 exactly when no trade has positive `profit_loss` |
| TradeHistory.PositiveNeedsNumber | frontend-new/src/components/dashboard/TradeHistory.tsx:80 | a missing or non-numeric field never counts as a win; a number counts exactly when above 0 |
| TradeHistory.WinRate | frontend-new/src/components/dashboard/TradeHistory.tsx:81 | the win rate lies in 0–100, is 0 with no trades, and is 0 or 100 exactly when no trade or every trade wins |
| TradeHistory.SummarizeAsWritten | frontend-new/src/components/dashboard/TradeHistory.tsx:79-81 | the summary as written counts all trades and keeps its win rate within 0–100 |
| TradeHistory.Summarize | frontend-new/src/components/dashboard/TradeHistory.tsx:79-81 | the corrected summary counts all trades, keeps its win rate within 0–100, and is all zero with no trades |
| TradeHistory.NoServedWinAsWritten | frontend-new/src/components/dashboard/TradeHistory.tsx:80 | as written, any list of served trades reports 0 wins and a 0% win rate |
| TradeHistory.MissedWin | frontend-new/src/components/dashboard/TradeHistory.tsx:80 | a single profitable served trade is counted 0 times as written and once when corrected |
| TradeHistory.WinsOfServedTrades | frontend-new/src/components/dashboard/TradeHistory.tsx:80 | the corrected count of served trades equals the number of trades with positive profit_loss |
| TradeHistory.SetFilter | frontend-new/src/components/dashboard/TradeHistory.tsx:114 | choosing a side sets the filter and keeps the page |
| TradeHistory.Render | frontend-new/src/components/dashboard/TradeHistory.tsx:63-252 | the summary covers all trades; the rows are exactly the current 20-row page of the filtered trades; the page count is the least covering the filtered trades; pagination appears only beyond 20 filtered trades; the placeholder appears exactly when no row is shown |
| TradeHistory.SummaryIgnoresFilterAndPage | frontend-new/src/components/dashboard/TradeHistory.tsx:79-81 | the summary depends only on the data, not on the filter or page |
| TradeHistory.PagesCoverFilteredTrades | frontend-new/src/components/dashboard/TradeHistory.tsx:68-76 | stepping through every page shows every filtered trade exactly once, in order |
| TradeHistory.PrevPage | frontend-new/src/components/dashboard/TradeHistory.tsx:237 | the previous button keeps the filter and never goes below page 1 |
| TradeHistory.NextPage | frontend-new/src/components/dashboard/TradeHistory.tsx:245 | the next button keeps the filter and never passes the last page |
| TradeHistory.ButtonsKeepPageInRange | frontend-new/src/components/dashboard/TradeHistory.tsx:228-252 | from a page in range both buttons land in range, and no page in range shows the placeholder |
| AlertPanel.InitialAlerts | frontend-new/src/components/dashboard/AlertPanel.tsx:57-59 | the panel starts with the first `maxAlerts` alerts of the data, or none while data is missing |
| AlertPanel.DefaultKeepsFirstFive | frontend-new/src/components/dashboard/AlertPanel.tsx:57 | by default, the panel starts with the first five alerts, in order |
| AlertPanel.DismissAsWritten | frontend-new/src/components/dashboard/AlertPanel.tsx:70-72 | as written, dismissing keeps exactly the alerts whose `id` differs from the one clicked |
| AlertPanel.Dismiss | frontend-new/src/components/dashboard/AlertPanel.tsx:70-72 | corrected, dismissing removes exactly the alerts with that `alert_id` |
| AlertPanel.DismissAsWrittenKeepsServed | frontend-new/src/components/dashboard/AlertPanel.tsx:71 | as written, dismissing never removes a served alert, whatever id is passed |
| AlertPanel.DismissButtonAsWritten | frontend-new/src/components/dashboard/AlertPanel.tsx:140 | clicking a served alert's dismiss button keeps it as written and removes it when corrected |
| AlertPanel.DismissServed | frontend-new/src/components/dashboard/AlertPanel.tsx:71 | corrected, dismissing served alerts equals serving the alerts with a different `alert_id` |
| AlertPanel.DismissShrinksOnce | frontend-new/src/components/dashboard/AlertPanel.tsx:71 | corrected, dismissing a shown alert shortens the list, and dismissing it again changes nothing |
| AlertPanel.AlertKind | frontend-new/src/components/dashboard/AlertPanel.tsx:119-120 | a missing or non-string severity styles as info; a string styles by its lower case, with unknown values as info |
| AlertPanel.ServedAlertKind | frontend-new/src/components/dashboard/AlertPanel.tsx:119-120 | every served alert is styled by its own severity |
| AlertPanel.SeverityIsLowerCase | e2e-tests/mock-server/types/index.ts:44 | the four severity spellings are already lower case |
| AlertPanel.AlertKindIgnoresCase | frontend-new/src/components/dashboard/AlertPanel.tsx:119 | the styling of a severity does not depend on the case of its ASCII letters |
| AlertPanel.StylesDistinct | frontend-new/src/components/dashboard/AlertPanel.tsx:18-43 | the four severities have four distinct colours |
| AlertPanel.StyleUsesOneTone | frontend-new/src/components/dashboard/AlertPanel.tsx:18-43 | each severity's text colour, left border and background use one tone: warning, loss, info or profit |
| AlertPanel.RelativeTime | frontend-new/src/components/dashboard/AlertPanel.tsx:61-68 | under a minute shows floored seconds, under an hour floored minutes, otherwise floored hours |
| AlertPanel.RelativeTimeEdges | frontend-new/src/components/dashboard/AlertPanel.tsx:61-68 | 59 999 ms is 59s, 60 000 ms is 1m, 3 599 999 ms is 59m and 3 600 000 ms is 1h |
| AlertPanel.RelativeTextExamples | frontend-new/src/components/dashboard/AlertPanel.tsx:61-68 | the card prints "59s ago" at 59 999 ms, "1m ago" at 60 000 ms and "2h ago" at two hours |
| AlertPanel.AutoDismissDelay | frontend-new/src/components/dashboard/AlertPanel.tsx:77-81 | an alert younger than 30 s is dismissed when it reaches 30 s; an older one gets no timer |
| AlertPanel.DelayShrinksWithAge | frontend-new/src/components/dashboard/AlertPanel.tsx:78 | an older alert never waits longer than a younger one |
| AlertPanel.ServedAlertsHaveNoTimestamp | frontend-new/src/components/dashboard/AlertPanel.tsx:77 | served alerts carry no `timestamp`, the field the auto-dismiss effect reads |
| AlertPanel.Render | frontend-new/src/components/dashboard/AlertPanel.tsx:99-120 | the count badge appears exactly when alerts remain and shows their number; otherwise "No active alerts" appears; each alert is styled by its severity |
| Header.TimeToClose | frontend-new/src/components/dashboard/Header.tsx:48-61 | before 16:00 the countdown is the hours and minutes left until 16:00; from 16:00 the market shows closed |
| Header.CountdownBoundaries | frontend-new/src/components/dashboard/Header.tsx:54-61 | midnight is 16h 0m away, 15:59 is 0h 1m away, and 16:00 and 23:59 show closed |
| Header.MidnightText | frontend-new/src/components/dashboard/Header.tsx:58 | at midnight the text reads "16h 0m to close" |
| Header.LastMinuteText | frontend-new/src/components/dashboard/Header.tsx:58 | at 15:59 the text reads "0h 1m to close" |
| Header.CountdownTicksDown | frontend-new/src/components/dashboard/Header.tsx:54-61 | at any minute of the day, one minute later (across the top of the hour too) the countdown is exactly one minute shorter, except that 15:59's "0h 1m" gives way to closed, and closed stays closed |
| Header.ClosedText | frontend-new/src/components/dashboard/Header.tsx:54-61 | the header reads "Market closed" exactly from 16:00 on |
| Header.StatusChip | frontend-new/src/components/dashboard/Header.tsx:22-27 | only the live status glows |
| Header.SystemChip | frontend-new/src/components/dashboard/Header.tsx:29-33 | no system chip glows |
| Header.LabelsDistinct | frontend-new/src/components/dashboard/Header.tsx:22-33 | distinct statuses have distinct labels, for both chips |
| Header.Render | frontend-new/src/components/dashboard/Header.tsx:35-39 | omitted props fall back to live, connected and 3; the badge shows the count exactly when it is positive |
| Header.Defaults | frontend-new/src/components/dashboard/Header.tsx:35-39 | with no props, the header shows a glowing "Live", a plain "Connected" and a badge of 3 |
| FundSlider.Mount | frontend-new/src/components/dashboard/FundSlider.tsx:17-24 | the slider starts unchanged at the initial value, 3000 by default |
| FundSlider.Change | frontend-new/src/components/dashboard/FundSlider.tsx:40-48 | moving the slider or clicking a preset sets the value and marks it changed |
| FundSlider.Save | frontend-new/src/components/dashboard/FundSlider.tsx:50-65 | a value below 100 is rejected and nothing changes; otherwise the value is saved and the change flag cleared |
| FundSlider.WarningIffRejected | frontend-new/src/components/dashboard/FundSlider.tsx:158-161 | the minimum-capital warning is visible exactly when saving would be rejected |
| FundSlider.SaveSettles | frontend-new/src/components/dashboard/FundSlider.tsx:59-60 | after a successful save the button is disabled, and saving again changes nothing |
| FundSlider.PresetThenSave | frontend-new/src/components/dashboard/FundSlider.tsx:38-60 | every preset enables the button and saves successfully |
| FundSlider.SmallAmountRefused | frontend-new/src/components/dashboard/FundSlider.tsx:51-57 | an amount below 100 is refused and the button stays enabled |
| FundSlider.RiskOf | frontend-new/src/components/dashboard/FundSlider.tsx:30-34 | below 20% is Low, 20% up to 40% is Moderate, and 40% or more, or NaN, is High |
| FundSlider.RiskPercent | frontend-new/src/components/dashboard/FundSlider.tsx:26-28 | the capital cancels out, leaving position size % × max positions; zero capital gives NaN |
| FundSlider.DefaultRisk | frontend-new/src/components/dashboard/FundSlider.tsx:19-20 | with the default 10% and 3 positions any non-zero capital risks 30%: Moderate, with the warning triangle |
| FundSlider.RiskMonotone | frontend-new/src/components/dashboard/FundSlider.tsx:30-34 | a higher risk percentage never gives a lower risk level |
| AccountOverview.MarginLabelOf | frontend-new/src/components/dashboard/AccountOverview.tsx:52 | 150 and above is Healthy, 100 up to 150 is Moderate, and below 100 is Critical |
| AccountOverview.DailyPnlPercent | frontend-new/src/components/dashboard/AccountOverview.tsx:76 | with positive equity the percentage is P&L / equity × 100; otherwise it is 0 |
| AccountOverview.Render | frontend-new/src/components/dashboard/AccountOverview.tsx:71-113 | each of equity, buying power, margin health and daily P&L shows the field's number when it is one and otherwise its default (3000 / 3000 / 200 / 0, also when data is missing); the daily percentage is P&L over equity; the sign, trend and margin label follow the figures |
| AccountOverview.EmptyObjectShowsDefaults | frontend-new/src/components/dashboard/AccountOverview.tsx:72-75 | the `{}` that `fetchAPI` yields for an empty array shows the defaults |
| AccountOverview.ServedAccountShown | frontend-new/src/components/dashboard/AccountOverview.tsx:72-76 | a served account object shows its own four figures |
| AccountOverview.ServedThroughHook | frontend-new/src/components/dashboard/AccountOverview.tsx:72-76 | through the account hook, the overview shows the current bundle's figures |
| AccountOverview.WarningMarginShown | frontend-new/src/components/dashboard/AccountOverview.tsx:52 | warning_margin's account shows margin Moderate, a down trend and −1.5% |
| LegacyAlertPanel.ActiveAlerts | frontend/src/components/AlertPanel.jsx:17 | the active alerts are exactly those without a truthy `acknowledged` |
| LegacyAlertPanel.Shown | frontend/src/components/AlertPanel.jsx:17 | the list shows the first five active alerts, in order |
| LegacyAlertPanel.PlaceholderIffNoneActive | frontend/src/components/AlertPanel.jsx:27-31 | "No active alerts" shows exactly when nothing is active, that is, when nothing is listed |
| LegacyAlertPanel.ServedAlertsAllShown | frontend/src/components/AlertPanel.jsx:17 | every served alert is active, so the first five served alerts are listed |
| LegacyAlertPanel.NoAcknowledgedFlag | frontend/src/components/AlertPanel.jsx:17 | served alerts never carry `acknowledged` |
| LegacyAlertPanel.IconOf | frontend/src/components/AlertPanel.jsx:5-11 | `critical` gets the error icon, `warning` the warning icon, and anything else the info icon |
| LegacyAlertPanel.ColorMatchesIcon | frontend/src/components/AlertPanel.jsx:18-24 | the border and chip are error-coloured exactly when the icon is the error icon |
| LegacyAlertPanel.ServedSeverityStyling | frontend/src/components/AlertPanel.jsx:5-24 | no served alert is error-coloured, since `critical` is never served; served `error` alerts get the info icon |
| LegacyAlertPanel.Title | frontend/src/components/AlertPanel.jsx:21 | on ASCII text, the title keeps the length, has no underscores or ASCII lower-case letters, and has spaces exactly where the type had underscores or spaces |
| LegacyAlertPanel.TitleCharacters | frontend/src/components/AlertPanel.jsx:21 | every other character of the type appears in place, ASCII letters upper-cased |
| LegacyAccountOverview.MarginColorOf | frontend/src/components/AccountOverview.jsx:13 | above 150 is success, above 125 up to 150 is warning, and 125 or below is error |
| LegacyAccountOverview.Progress | frontend/src/components/AccountOverview.jsx:56 | the progress bar is the margin health capped at 200 |
| LegacyAccountOverview.ThresholdsAreStrict | frontend/src/components/AccountOverview.jsx:13 | exactly 150 is warning and exactly 125 is error |
| LegacyAccountOverview.Render | frontend/src/components/AccountOverview.jsx:4-56 | falsy data shows "Loading..."; otherwise each of the four figures shows the field's number when it is one and otherwise its default (0 / 0 / 150 / 0), and colour, bar and P&L colour follow the figures |
| LegacyAccountOverview.NullIsLoading | frontend/src/components/AccountOverview.jsx:5 | `null` data shows "Loading..." |
| LegacyAccountOverview.AccountObjectShown | frontend/src/components/AccountOverview.jsx:8-13 | an account object shows its own figures |
| LegacyAccountOverview.ServedBodyShowsDefaults | frontend/src/components/AccountOverview.jsx:8-11 | the raw account-data body, a one-element array, has none of the four fields, so the card shows the defaults 0 / 0 / 150 / 0 |

## Left out

- Express, CORS, JSON body parsing, logging, the port and `app.listen`.
  The model takes requests already parsed. `/health`'s `timestamp` is a
  parameter (`now`), because it comes from the clock.
- The scenario lookup `scenarios[key]` also accepts `Object.prototype` keys
  (`"constructor"`, `"toString"`) and coerces non-string keys. The model
  accepts exactly the eleven names given as strings.
- `hoursAgo` and `minutesAgo` in the fixtures read the clock. Fixture
  timestamps are opaque placeholder strings.
- Floating point and formatting:
  - `toFixed`, `Intl.NumberFormat`, `toLocaleString`;
  - the position table's P&L percentage;
  - the slider's position-size and at-risk dollar figures.

  Numbers are exact reals.
- TradeHistory's `totalPnL`, `bestTrade` and `worstTrade` read `pnl`, like
  the win count. They are NaN or ±Infinity on served trades. Only the win
  count and win rate are modelled.
- PositionsTable.SortRows: `localeCompare` is replaced by code-unit
  lexicographic order. Only the Symbol header is clickable in the UI, but
  every field is modelled. Stability of the JavaScript sort is not stated.
- Json.NumberOr: a present field that is neither a number nor `null`
  (a string, say) is treated as absent. `??` would pass it through.
- TradeHistory.Wins: `t.profit_loss > 0` is modelled for numbers only.
  JavaScript's relational coercion of strings and booleans is left out.
- AlertPanel.AlertKind: a non-string `severity` is styled as info.
  `severity?.toLowerCase()` would throw on a non-string. A severity that
  lower-cases to an inherited property name of the config object
  ("constructor" or "__proto__") finds that property
  instead of the info entry. The row then gets undefined classes and no icon;
  the model styles it as info.
- Text.ToUpper: case mapping covers ASCII letters only. JavaScript maps the
  whole of Unicode: "straße" upper-cases to "STRASSE", which is longer; the
  model leaves "ß" unchanged.
- Text.ToLower: case mapping covers ASCII letters only. JavaScript lower-cases
  "É" to "é"; the model leaves it unchanged.
- Text.ToLowerOfLower: the premise is "no ASCII capital"; a string with a
  non-ASCII capital such as "É" is not its own JavaScript lower case.
- Text.ToLowerIgnoresCase: holds for the ASCII mapping; in JavaScript
  "ı" (dotless i) upper-cases to "I" and lowers to "i", so "warnıng" is
  styled as warning after upper-casing but not before.
- AlertPanel.AlertKindIgnoresCase: stated for ASCII case only, for the
  same reason ("warnıng" versus "WARNING").
- LegacyAlertPanel.Title: the length and "no lower-case letter" promises are
  for ASCII text; JavaScript upper-cases "ß" to "SS" and non-ASCII letters too.
- LegacyAlertPanel.TitleCharacters: characters are upper-cased with the
  ASCII mapping only.
- AlertPanel.RelativeTime takes the elapsed milliseconds. Invalid dates
  (NaN) are not modelled.
- Text.ParseInt models decimal `parseInt` only: the `0x` prefix and the
  radix argument are left out.
- FixtureFacts: consistency is proved fixture by fixture rather than as one
  statement over all names. The same eleven facts are covered.
- AlertPanel's list is seeded once from `data` at mount (`useState`).
  Alerts arriving later are never shown, and the model states only the
  initial slice.
- The auto-dismiss effect reads `alert.timestamp.getTime()`. Served alerts
  have no `timestamp` (AlertPanel.ServedAlertsHaveNoTimestamp), so the
  effect would throw. Only the delay arithmetic is modelled.
- Header shows an empty countdown until the interval's first tick. The
  clock is a parameter (hours and minutes).
- FundSlider: `maxValue` and the slider's step are rendering details, and
  the slider itself keeps values within them.
- React rendering, animation, icons and markup beyond the figures and flags
  each view records. The `onClose` and `onSave` callbacks are left out.

## Findings

| source | as written | input that shows it | evidently intended | confidence | as-written member | corrected member |
|---|---|---|---|---|---|---|
| frontend-new/src/components/dashboard/TradeHistory.tsx:80 | wins count trades with `t.pnl > 0`, a field the server never sends | any served trade with `profit_loss: 25`; it counts 0 wins, a 0% win rate | count trades with `profit_loss > 0` | not executed | TradeHistory.WinsAsWritten (see TradeHistory.NoServedWinAsWritten, TradeHistory.MissedWin) | TradeHistory.Wins (see TradeHistory.WinsOfServedTrades) |
| frontend-new/src/components/dashboard/AlertPanel.tsx:71 | dismiss keeps alerts with `alert.id !== id`, but served alerts have no `id` and the button passes `alert_id` | clicking dismiss on any served alert, e.g. `alert_id: "alert-1"`; it stays | remove the alert whose `alert_id` equals the id passed | not executed | AlertPanel.DismissAsWritten (see AlertPanel.DismissButtonAsWritten, AlertPanel.DismissAsWrittenKeepsServed) | AlertPanel.Dismiss (see AlertPanel.DismissServed) |
