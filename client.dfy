/**
 * The browser script's connection state and the requests it makes from it:
 * `connect` records the session of a successful auto-login, the county and
 * township loaders refuse to call the proxy until then, and
 * `calculateClosingCosts` assembles its request body field by field.
 */
module Client {
  import opened Json
  import opened Requests

  /** Whether the reply of `/api/auto-login` reports success; no reply at all (a thrown error) does not. */
  predicate LoginSucceeded(response: Option<Value>) {
    IsTruthy(Get(response, "success"))
  }

  /** The script's module-level `state` object. */
  class ClientState {
    var sessionId: Option<Value>
    var isConnected: bool
    var counties: seq<Value>
    var townships: seq<Value>
    var selectedCounty: Value

    constructor ()
      ensures sessionId == Some(Null) && !isConnected
      ensures counties == [] && townships == [] && selectedCounty == Null
    {
      sessionId := Some(Null);
      isConnected := false;
      counties := [];
      townships := [];
      selectedCounty := Null;
    }

    /**
     * `connect()` given the reply of `/api/auto-login` (`None` when the call
     * threw): only a reply with a truthy `success` records its `session_id`
     * and marks the script connected; any other outcome changes nothing.
     */
    method Connect(response: Option<Value>)
      modifies this
      ensures LoginSucceeded(response) ==> sessionId == Get(response, "session_id") && isConnected
      ensures !LoginSucceeded(response) ==> sessionId == old(sessionId) && isConnected == old(isConnected)
      ensures counties == old(counties) && townships == old(townships) && selectedCounty == old(selectedCounty)
    {
      if LoginSucceeded(response) {
        sessionId := Get(response, "session_id");
        isConnected := true;
      }
    }

    /**
     * The request `loadCounties(stateCode, ...)` sends, or `None` when it
     * returns before any call: without a state code or before connecting.
     */
    method CountiesRequest(stateCode: Option<Value>) returns (url: Option<string>)
      ensures url.Some? <==> IsTruthy(stateCode) && isConnected
      ensures url.Some? ==> url.value == "/api/counties?state=" + Text(stateCode) + "&session_id=" + Text(sessionId)
    {
      if !IsTruthy(stateCode) || !isConnected {
        return None;
      }
      url := Some("/api/counties?state=" + Text(stateCode) + "&session_id=" + Text(sessionId));
    }

    /**
     * The request `loadTownships(stateCode, countyName, ...)` sends, or `None`
     * when it returns before any call: without a state code, without a county
     * or before connecting. `encode` is `encodeURIComponent`.
     */
    method TownshipsRequest(stateCode: Option<Value>, countyName: Option<Value>, encode: string -> string)
      returns (url: Option<string>)
      ensures url.Some? <==> IsTruthy(stateCode) && IsTruthy(countyName) && isConnected
      ensures url.Some? ==>
        url.value == "/api/townships?state=" + Text(stateCode) + "&county=" + encode(Text(countyName))
                     + "&session_id=" + Text(sessionId)
    {
      if !IsTruthy(stateCode) || !IsTruthy(countyName) || !isConnected {
        return None;
      }
      url := Some("/api/townships?state=" + Text(stateCode) + "&county=" + encode(Text(countyName))
                  + "&session_id=" + Text(sessionId));
    }

    /**
     * The body `calculateClosingCosts(formData)` posts: the fixed fields first,
     * then the address and close date when filled in, then `loanInfo` built
     * key by key and attached only when it has a key.
     */
    method ClosingCostRequest(form: map<string, Value>, parse: Parsers) returns (body: BrowserRequest)
      ensures BrowserRequestFrom(body, sessionId, form, parse)
    {
      body := BrowserRequest(
        sessionId,
        Lookup(form, "state"), Lookup(form, "county"), Lookup(form, "township"),
        Lookup(form, "searchType"), Lookup(form, "purpose"),
        OrZero(parse.parseFloat(Lookup(form, "loanAmount"))),
        OrZero(parse.parseFloat(Lookup(form, "purchasePrice"))),
        None, None, None);
      if IsTruthy(Lookup(form, "address")) {
        body := body.(address := Lookup(form, "address"));
      }
      if IsTruthy(Lookup(form, "closeDate")) {
        body := body.(closeDate := Lookup(form, "closeDate"));
      }
      var info := BuildLoanInfo(form, parse);
      if HasKeys(info) {
        body := body.(loanInfo := Some(info));
      }
    }
  }

  /** The `loanInfo` object of `calculateClosingCosts`, filled in one key at a time. */
  method BuildLoanInfo(form: map<string, Value>, parse: Parsers) returns (info: LoanInfo)
    ensures LoanInfoFrom(info, form, parse)
    ensures HasKeys(info) <==> AnyLoanInfo(form)
  {
    info := LoanInfo(None, None, None, None, None);
    if IsTruthy(Lookup(form, "propType")) {
      info := info.(propType := Some(NumberValue(parse.parseInt(Lookup(form, "propType")))));
    }
    if IsTruthy(Lookup(form, "loanType")) {
      info := info.(loanType := Some(NumberValue(parse.parseInt(Lookup(form, "loanType")))));
    }
    if IsTruthy(Lookup(form, "amortType")) {
      info := info.(amortType := Some(NumberValue(parse.parseInt(Lookup(form, "amortType")))));
    }
    if IsTruthy(Lookup(form, "firstTimeBuyer")) {
      info := info.(firstTimeHomeBuyer := Some(Num(1)));
    }
    if IsTruthy(Lookup(form, "federalCreditUnion")) {
      info := info.(federalCreditUnion := Some(Num(1)));
    }
  }
}
