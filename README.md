# LodeStar closing-cost proxy and aggregator

This is a model of the small web application that puts a form in front of the
LodeStar closing-cost API. It has two halves.

The Express proxy (`server.js`):
- holds one process-wide session slot, `currentSession`, which `/api/auto-login`
  fills from the configured credentials;
- lets every proxied route use the caller's `session_id` if it sent one, and
  `currentSession` otherwise, answering 401 when neither exists;
- builds each route's upstream request: raw query strings, `URLSearchParams`
  queries with defaults and "1"-only flags, and the closing-cost body of about
  25 optional fields;
- sends everything through `lodestarRequest`, which dresses the request and
  classifies the reply (HTML error page, JSON, thrown error).

The browser script (`public/app.js`):
- keeps a connection state and refuses to load counties or townships before
  connecting;
- assembles the closing-cost request from the form;
- adds up each party's closing costs from the calculation result with
  `calculateTotal`: both policy premiums, the title-agent fees, the recording
  fees (borrower only) and the transfer taxes flattened two levels;
- shows the borrower, seller and grand totals.

Modules:
- `json.dfy` (`Json`): JSON values, JavaScript truthiness, optional chaining
  (`Get`), and what `String()` writes (`Text`).
- `totals.dfy` (`Totals`): `calculateTotal` and the totals display. The
  specification function `TotalOf` and the method `CalculateTotal` are proved
  against it, with lemmas about flattening, the borrower-only recording fees,
  appending a fee, and lender taxes.
- `upstream.dfy` (`Upstream`): `lodestarRequest`. The network, `JSON.parse`
  and the URL encoder are fields of `Env`.
- `requests.dfy` (`Requests`): the closing-cost request the browser posts and
  the body the proxy forwards, with the lemma that runs one into the other.
- `client.dfy` (`Client`): the browser's `state` object as a class, and the
  requests it makes.
- `proxy.dfy` (`Proxy`): the proxy's session slot as a class, the login, the
  routes, and the meaning of their query parameters.

Encoding choices:
- `undefined` is `None`.
- A JavaScript `TypeError` raised inside `calculateTotal` is the outcome
  `Throws`.
- A handler that throws before replying is the reply `Crashed`.
- `parseFloat` and `parseInt` are parameters that return `None` for `NaN`.

## Model

| member | source | states |
|---|---|---|
| Totals.CalculateTotal | public/app.js:347-377 | Returns exactly `TotalOf(data, party)`: the party's total, or a throw when a section it walks is a truthy non-array or holds a null item |
| Totals.AddSections | public/app.js:350-376 | Accumulating the five parts in source order yields `TotalFrom` of those parts |
| Totals.AddPremium | public/app.js:351-352 | A premium adds its amount; a missing or falsy premium adds 0 |
| Totals.AddItems | public/app.js:356-358 | The `forEach` loop adds the sum of the items' amounts to the start value, or throws when an item is null |
| Totals.AddList | public/app.js:369-374 | A truthy list is flattened to the given depth and summed; a falsy list adds nothing; a truthy non-array throws |
| Totals.ShowTotals | public/app.js:281-286 | The three figures appear exactly when neither party's total throws; they are the borrower's total, the seller's total and their sum, which equals `GrandTotal` |
| Totals.FlatZero | public/app.js:329 | Flattening zero levels changes nothing |
| Totals.FlatAppend | public/app.js:329 | `flat` distributes over concatenation |
| Totals.FlatOneMore | public/app.js:329 | `flat(d + 1)` is `flat(1)` followed by `flat(d)`, so `flat(2)` is `flat().flat()` |
| Totals.FlatLeavesOnly | public/app.js:329 | A list without arrays is unchanged by `flat`; a non-array element survives any positive flattening |
| Totals.FlatSingle | public/app.js:329 | `[x].flat(d)` is `x` flattened one level less when `x` is an array and `d > 0`, else `[x]` |
| Totals.HasNullIff | public/app.js:356-358 | The walk throws exactly when some item is null |
| Totals.AmountSumAppend | public/app.js:356-358 | The sum over two lists in a row is the sum of the two sums |
| Totals.HasNullAppend | public/app.js:356-358 | Two lists in a row hold a null exactly when one of them does |
| Totals.SumItemsAppend | public/app.js:356-358 | Walking two lists in a row adds both sums, and throws when either walk throws |
| Totals.OneItem | public/app.js:357 | One item adds its own amount, and throws exactly when it is null |
| Totals.FlatAmount | public/app.js:370-373 | The sum after `flat(d)` equals the level-by-level sum over the nested list |
| Totals.FlatNull | public/app.js:370-373 | After `flat(d)` a null is present exactly when one sat at most `d` levels down |
| Totals.SumOfFlat | public/app.js:370-373 | Summing after `flat(d)` equals summing the nested list level by level, throws included |
| Totals.TaxDepthBoundary | public/app.js:370 | Taxes nested two deep are all counted; a list nested three deep survives as an array and adds 0 |
| Totals.TaxesTwoDeep | public/app.js:370 | `flat(2)` turns a doubly nested tax list into its leaves |
| Totals.TaxesThreeDeep | public/app.js:370 | A tax list nested three deep contributes 0 |
| Totals.TotalIgnoresOtherKeys | public/app.js:347-377 | Adding, changing or removing any top-level key other than the five `calculateTotal` reads leaves every party's total unchanged |
| Totals.FalsyPartsAddNothing | public/app.js:351-374 | With falsy fee, recording and tax sections the total is just the two premiums, and 0 when those are falsy too |
| Totals.RecordingFeesBorrowerOnly | public/app.js:362-366 | Recording fees never change the seller's or lender's total; for the borrower they add their sum |
| Totals.RecordingSections | public/app.js:362 | Removing or replacing `recording_fees` changes only the recording part of each party's sections |
| Totals.TotalFromRecording | public/app.js:362-366 | Adding recording fees to sections without them adds their sum for the borrower and nothing otherwise |
| Totals.CombineRecording | public/app.js:362-366 | Recording fees enter only the borrower's total and may be added last |
| Totals.AppendTitleFee | public/app.js:355-359 | Appending a fee to one party's title-agent fees raises that party's total by the fee's `Amount` and leaves the other parties' totals alone |
| Totals.OwnFeeAppended | public/app.js:355-359 | The appending party's total rises by exactly the fee's `Amount` |
| Totals.OwnFeeSums | public/app.js:355-359 | After the append, the per-part sums differ only in the fees part, which gains the fee |
| Totals.SumsWithFees | public/app.js:355-359 | Replacing the fees part changes only the fees sum |
| Totals.OtherFeesKept | public/app.js:355 | Changing one party's fee list leaves every other party's total unchanged |
| Totals.FeeSections | public/app.js:355 | A party's fees part is its entry in `title_agent_fees`; replacing another party's entry does not touch it |
| Totals.AppendedFeeSum | public/app.js:356-358 | Fees plus one non-null fee sum to the old sum plus that fee's `Amount` |
| Totals.UnflattenedList | public/app.js:356 | Fee and recording lists are not flattened: they add the sum of their own items |
| Totals.CombineMovesFee | public/app.js:355-359 | An amount added to the fees may be added at the end of the total instead |
| Totals.LenderTaxesNotInGrandTotal | public/app.js:281-286 | Changing the lender's transfer taxes never changes the grand total |
| Totals.LenderTaxSections | public/app.js:369 | The lender's taxes are not read for the borrower or the seller |
| Totals.TaxLinesMatchTotal | public/app.js:329 | The tax lines shown for a party sum to exactly the tax share of that party's total |
| Totals.WorkedExample | public/app.js:347-377 | Worked result: premiums 100 and 50, a fee of 25, a recording fee of 10, taxes 5 and 3. Borrower 193, seller 0, grand total 193 |
| Totals.ExampleBorrower | public/app.js:347-377 | The borrower's total of the worked result is 193 |
| Totals.ExampleBorrowerTotal | public/app.js:347-377 | 100 + 50 + 25 + 10 + (5 + 3) over the worked parts |
| Totals.ExampleBorrowerSections | public/app.js:347-377 | The parts of the worked result read for the borrower |
| Totals.ExampleSeller | public/app.js:347-377 | The seller's total of the worked result is 0 |
| Totals.OneItemList | public/app.js:356-358 | A one-item list adds that item's amount |
| Totals.WorkedTaxes | public/app.js:370-373 | The worked result's nested taxes add 8 |
| Upstream.OptionsFor | server.js:25-38 | JSON is always accepted. A body is sent exactly when truthy: URL-encoded exactly when a form is asked for, JSON otherwise. `Content-Type` is present exactly when a body is, and names its encoding |
| Upstream.BuildOptions | server.js:25-38 | Filling in the headers and body step by step yields `OptionsFor` |
| Upstream.Classify | server.js:40-63 | Success exactly for an ok, non-HTML, parseable reply. An HTML page keeps its status and has the "not found" message exactly on 404. JSON is passed on with its status. Parse and network errors give 500 with the error message |
| Upstream.HtmlMessagesDiffer | server.js:50-52 | The 404 message and the error-page message never coincide |
| Upstream.LodestarRequest | server.js:21-64 | Returns the classified reply to the dressed request |
| Requests.ServerBody | server.js:210-262 | Session as given. `search_type` and `purpose` default to "CFPB" and "11" and are always truthy. Amounts are always numbers: the parsed value when it parses, 0 otherwise. Every optional key is present exactly when its posted field is truthy, converted by its rule |
| Requests.BodyJsonFields | server.js:210-262 | The JSON object sent has the session, search type, purpose and both amounts. It has `state`, `county` and `township` exactly when they were sent, each optional key exactly when its field is present (with its value), and no other key |
| Requests.SentJson | server.js:205-266 | In the JSON sent upstream: the session; `state`, `county` and `township` as posted; `search_type` and `purpose` with their defaults; both amounts parsed or 0; and each optional key present exactly when the posted field of that name is truthy, converted by its rule |
| Requests.NameInjective | server.js:224-261 | No two optional fields share a key |
| Requests.NameNotFixed | server.js:224-261 | No optional field uses a fixed key |
| Requests.Carry | server.js:224-261 | An optional key is present exactly when its input is truthy. Copied values are truthy, output options are exactly 1, and `loan_info` is the posted object |
| Requests.BrowserRequestThroughProxy | public/app.js:208-232 | The browser's request, once forwarded, keeps the amounts, address and close date. It gets the "CFPB" and "11" defaults exactly for empty form fields, and carries `loan_info` exactly when a loan-info field was filled in |
| Client.ClientState.constructor | public/app.js:2-8 | Starts unconnected, with a null session and empty lists |
| Client.ClientState.Connect | public/app.js:103-120 | A reply with truthy `success` records its `session_id` and connects. Any other reply, or a thrown call, changes nothing |
| Client.ClientState.CountiesRequest | public/app.js:146-150 | A request is made exactly when a state is chosen and the script is connected, and it carries the state and session |
| Client.ClientState.TownshipsRequest | public/app.js:175-180 | A request is made exactly when a state and county are chosen and the script is connected, with the county encoded |
| Client.ClientState.ClosingCostRequest | public/app.js:205-232 | The body is the form projected by `BrowserRequestFrom`: amounts parsed or 0, address and close date only when filled in, `loanInfo` only when it has a key |
| Client.BuildLoanInfo | public/app.js:223-232 | Each loan-info key is present exactly when its form field is truthy; types are parsed as integers and checkboxes become 1. The object has a key exactly when some field was filled in |
| Proxy.Server.constructor | server.js:18 | The session slot starts null |
| Proxy.Server.SessionFor | server.js:99-101 | The caller's truthy session wins, the stored one is the fallback, and with neither there is none (401) |
| Proxy.Server.AutoLogin | server.js:69-95 | Without both credentials: 400 and no call. Otherwise the credentials are posted as a form; the slot takes a granted session and keeps its value on any other result; the reply follows the result |
| Proxy.Forward | server.js:184-185 | A route's reply is status 200 with the upstream data |
| Proxy.Server.Counties | server.js:98-105 | 401 with no upstream call when there is no session; otherwise the raw counties query is sent and its data returned |
| Proxy.Server.SubAgents | server.js:171-186 | Same gate; sends the sub-agent parameters |
| Proxy.Server.ClosingCosts | server.js:205-268 | Same gate on the body's session; sends `ServerBody` as JSON |
| Proxy.Server.PropertyTax | server.js:271-289 | Same gate; sends the property-tax parameters with today's date as the close-date default |
| Proxy.Server.SearchResults | server.js:292-308 | Same gate; sends the search-result parameters |
| Proxy.LastLoginWins | server.js:84-85 | After any run of logins the slot holds the last granted session, or its old value when none granted one |
| Proxy.SlotAfterSplit | server.js:84-85 | Running logins then one more equals running them all |
| Proxy.LoginOpensRoutes | server.js:99-101 | After a granting login, a caller without a session is served under the granted session. After any other login, such a caller is admitted exactly when it was before |
| Proxy.ParamOfAppend | server.js:176-182 | Reading a parameter from two appended lists gives the first list's value if it has one, else the second's |
| Proxy.SubAgentParams | server.js:176-182 | Appending step by step yields `SubAgentPairs` |
| Proxy.SubAgentParam | server.js:176-182 | Reading one name from the sub-agent parameters takes the first piece that has it |
| Proxy.SubAgentParamsMeaning | server.js:176-182 | Session always passed. State, county and purpose passed exactly when truthy. `include_contact_info` passed exactly when the query says "1" |
| Proxy.SearchResultParams | server.js:297-304 | Appending step by step yields `SearchResultPairs` |
| Proxy.SearchResultParam | server.js:297-304 | Reading one name from the search-result parameters takes the first piece that has it |
| Proxy.SearchResultParamsMeaning | server.js:297-304 | Session and file name always passed. Each include flag passed exactly when the query says "1" |
| Proxy.PropertyTaxDefaults | server.js:276-285 | An empty close date becomes today's date, an empty file name "WebApp", an empty purchase price "0"; filled-in values pass as written |

## Left out

- The network, `JSON.parse`, the `URLSearchParams` encoder, `encodeURIComponent`, `parseFloat`, `parseInt` and the clock are parameters. What they compute is not modelled.
- Logging, the DOM, toasts, loading spinners and `formatCurrency` are left out. So is the rendering of fee and tax lines, beyond which lines are shown.
- Numbers are integers (for example, amounts in cents). Floating-point addition and rounding are not modelled.
- Totals.CalculateTotal: an amount that is a string, object or array adds 0 in the model. In JavaScript, `total += "12"` concatenates strings, which the model does not capture. A `true` amount adds 1, as in JavaScript.
- Totals.CalculateTotal: the `.flat ? … : …` fallback for arrays without `flat` is not modelled. Every JSON array has `flat`.
- Requests.ServerBody: an optional numeric field that fails to parse is sent as `null`, because `JSON.stringify` writes `NaN` as `null`. The field is not dropped.
- Proxy.Forward: every proxied route replies 200 with the upstream data, even when the upstream call failed or returned a 404 page, because `res.json(result.data)` is called without a status.
- Proxy.Server.AutoLogin: a login result whose data is `null` makes the handler throw. This is the reply `Crashed`; Express's error page is not modelled.
- The townships, geocode, questions, endorsements and appraisal-modifier routes are left out. They apply the same session gate as the modelled routes.
- The `api/*.js` serverless copies of the routes are not part of this model.
- Totals.ShowTotals: the figures appear exactly when neither party's total throws. A null item in the lender's transfer taxes makes `displayTaxList` throw before the totals are computed, so in that case the page shows no figures; the model does not capture this.
- The browser's display of the result beyond the totals is left out: premiums and fee lists. So is the property-tax and search-results UI. The `TypeError`s the display code itself may raise are not modelled.
- Query strings are pairs in order. The encoded text `URLSearchParams` produces is a parameter (`formEncode`), and percent-encoding is not modelled.
- The order of keys in JSON objects is not modelled: objects are maps.
- Concurrency between requests sharing `currentSession` is not modelled. Each route call is one atomic step.
