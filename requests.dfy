/**
 * The two request projectors: the body the browser builds from the closing-cost
 * form (`calculateClosingCosts`), and the body the proxy builds from what the
 * browser posts before forwarding it upstream (`/api/closing-costs`). Both turn
 * a loosely typed field map into the payload that `JSON.stringify` writes:
 * defaults for the required fields, optional keys present exactly when their
 * input is truthy, and options that are switched on sent as the literal 1.
 *
 * A payload is a record with one field per key; an optional key is an
 * `Option`, `None` when the key is absent from the JSON text.
 */
module Requests {
  import opened Json

  /**
   * `parseFloat` and `parseInt` of a field value: the number read, or `None`
   * for NaN. Amounts are whole numbers of the smallest currency unit.
   */
  datatype Parsers = Parsers(parseFloat: Option<Value> -> Option<int>, parseInt: Option<Value> -> Option<int>)

  /** `parse(x) || 0`: NaN and 0 both give 0. */
  function OrZero(n: Option<int>): Value {
    if n.None? then Num(0) else Num(n.value)
  }

  /** A parsed number as `JSON.stringify` writes it: NaN is written as null. */
  function NumberValue(n: Option<int>): Value {
    if n.None? then Null else Num(n.value)
  }

  /** `x || fallback`. */
  function OrElse(o: Option<Value>, fallback: Value): Value {
    if IsTruthy(o) then o.value else fallback
  }

  // ---------------------------------------------------------------- the browser

  /** The `loanInfo` object of the browser's request. */
  datatype LoanInfo = LoanInfo(
    propType: Option<Value>,
    loanType: Option<Value>,
    amortType: Option<Value>,
    firstTimeHomeBuyer: Option<Value>,
    federalCreditUnion: Option<Value>)

  /** `Object.keys(loanInfo).length > 0`. */
  predicate HasKeys(info: LoanInfo) {
    info.propType.Some? || info.loanType.Some? || info.amortType.Some?
    || info.firstTimeHomeBuyer.Some? || info.federalCreditUnion.Some?
  }

  /** The body `calculateClosingCosts` posts, before `JSON.stringify` drops its undefined fields. */
  datatype BrowserRequest = BrowserRequest(
    sessionId: Option<Value>,
    state: Option<Value>,
    county: Option<Value>,
    township: Option<Value>,
    searchType: Option<Value>,
    purpose: Option<Value>,
    loanAmount: Value,
    purchasePrice: Value,
    address: Option<Value>,
    closeDate: Option<Value>,
    loanInfo: Option<LoanInfo>)

  /** Whether any loan-info field of the form is set. */
  predicate AnyLoanInfo(form: map<string, Value>) {
    IsTruthy(Lookup(form, "propType")) || IsTruthy(Lookup(form, "loanType")) || IsTruthy(Lookup(form, "amortType"))
    || IsTruthy(Lookup(form, "firstTimeBuyer")) || IsTruthy(Lookup(form, "federalCreditUnion"))
  }

  /**
   * The loan-info rules: each type is parsed as an integer and each checkbox
   * becomes 1, and a key is there exactly when its form field is set.
   */
  predicate LoanInfoFrom(info: LoanInfo, form: map<string, Value>, parse: Parsers) {
    && Carried(info.propType, Lookup(form, "propType"), AsInt, parse)
    && Carried(info.loanType, Lookup(form, "loanType"), AsInt, parse)
    && Carried(info.amortType, Lookup(form, "amortType"), AsInt, parse)
    && Carried(info.firstTimeHomeBuyer, Lookup(form, "firstTimeBuyer"), Flag, parse)
    && Carried(info.federalCreditUnion, Lookup(form, "federalCreditUnion"), Flag, parse)
  }

  /**
   * The specification of the browser's request: the session and the location
   * and search fields as they are, both amounts falling back to 0, address and
   * close date only when filled in, and `loan_info` exactly when some of it is
   * set.
   */
  predicate BrowserRequestFrom(r: BrowserRequest, sessionId: Option<Value>, form: map<string, Value>, parse: Parsers) {
    && r.sessionId == sessionId
    && r.state == Lookup(form, "state")
    && r.county == Lookup(form, "county")
    && r.township == Lookup(form, "township")
    && r.searchType == Lookup(form, "searchType")
    && r.purpose == Lookup(form, "purpose")
    && r.loanAmount == OrZero(parse.parseFloat(Lookup(form, "loanAmount")))
    && r.purchasePrice == OrZero(parse.parseFloat(Lookup(form, "purchasePrice")))
    && Carried(r.address, Lookup(form, "address"), Copy, parse)
    && Carried(r.closeDate, Lookup(form, "closeDate"), Copy, parse)
    && (r.loanInfo.Some? <==> AnyLoanInfo(form))
    && (r.loanInfo.Some? ==> LoanInfoFrom(r.loanInfo.value, form, parse))
  }

  /**
   * What the proxy finds in the JSON the browser posts: each field of the
   * request under its key, undefined fields absent, and `loan_info` as an
   * object exactly when the browser attached one.
   */
  predicate Received(req: map<string, Value>, r: BrowserRequest) {
    && Lookup(req, "session_id") == r.sessionId
    && Lookup(req, "state") == r.state
    && Lookup(req, "county") == r.county
    && Lookup(req, "township") == r.township
    && Lookup(req, "search_type") == r.searchType
    && Lookup(req, "purpose") == r.purpose
    && Lookup(req, "loan_amount") == Some(r.loanAmount)
    && Lookup(req, "purchase_price") == Some(r.purchasePrice)
    && Lookup(req, "address") == r.address
    && Lookup(req, "close_date") == r.closeDate
    && (Lookup(req, "loan_info").Some? <==> r.loanInfo.Some?)
    && (Lookup(req, "loan_info").Some? ==> Lookup(req, "loan_info").value.Obj?)
  }

  // ---------------------------------------------------------------- the proxy

  /** How an optional field is carried over: as it is, parsed as a float or an integer, or as the literal 1. */
  datatype Rule = Copy | AsFloat | AsInt | Flag

  function Convert(rule: Rule, v: Value, parse: Parsers): Value {
    match rule
    case Copy => v
    case AsFloat => NumberValue(parse.parseFloat(Some(v)))
    case AsInt => NumberValue(parse.parseInt(Some(v)))
    case Flag => Num(1)
  }

  /**
   * `...(input && { key: convert(input) })`, and `if (input) obj.key = convert(input)`:
   * the key is there exactly when its input is truthy.
   */
  predicate Carried(field: Option<Value>, input: Option<Value>, rule: Rule, parse: Parsers) {
    (field.Some? <==> IsTruthy(input)) && (field.Some? ==> field.value == Convert(rule, input.value, parse))
  }

  /** The optional keys of the proxy's closing-cost body. */
  datatype Field =
    | Filename | Address | CloseDate | PriorInsurance | Exdebt | PriorInsuranceDate | LoanInfoField
    | Qst | RequestEndos | DocType | AppMods | ClientId | AgentId | LoanpolLevel | OwnersLevel | IntName
    | IncludeFullPolicyAmount | IncludeSection | IncludePayeeInfo | IncludePdf | IncludeSellerResponsible
    | IncludePropertyTax | IncludeAppraisal | IncludeEncompassMapping

  /** The key of an optional field, in the body and in what the browser posts alike. */
  function Name(f: Field): string {
    match f
    case Filename => "filename"
    case Address => "address"
    case CloseDate => "close_date"
    case PriorInsurance => "prior_insurance"
    case Exdebt => "exdebt"
    case PriorInsuranceDate => "prior_insurance_date"
    case LoanInfoField => "loan_info"
    case Qst => "qst"
    case RequestEndos => "request_endos"
    case DocType => "doc_type"
    case AppMods => "app_mods"
    case ClientId => "client_id"
    case AgentId => "agent_id"
    case LoanpolLevel => "loanpol_level"
    case OwnersLevel => "owners_level"
    case IntName => "int_name"
    case IncludeFullPolicyAmount => "include_full_policy_amount"
    case IncludeSection => "include_section"
    case IncludePayeeInfo => "include_payee_info"
    case IncludePdf => "include_pdf"
    case IncludeSellerResponsible => "include_seller_responsible"
    case IncludePropertyTax => "include_property_tax"
    case IncludeAppraisal => "include_appraisal"
    case IncludeEncompassMapping => "include_encompass_mapping"
  }

  /** The rule of each optional field: two floats, four integers, eight output options, the rest copied. */
  function RuleOf(f: Field): Rule {
    match f
    case PriorInsurance | Exdebt => AsFloat
    case ClientId | AgentId | LoanpolLevel | OwnersLevel => AsInt
    case IncludeFullPolicyAmount | IncludeSection | IncludePayeeInfo | IncludePdf
       | IncludeSellerResponsible | IncludePropertyTax | IncludeAppraisal | IncludeEncompassMapping => Flag
    case _ => Copy
  }

  /** Every optional field, in the order the body lists them. */
  const Fields: seq<Field> := [
    Filename, Address, CloseDate, PriorInsurance, Exdebt, PriorInsuranceDate, LoanInfoField,
    Qst, RequestEndos, DocType, AppMods, ClientId, AgentId, LoanpolLevel, OwnersLevel, IntName,
    IncludeFullPolicyAmount, IncludeSection, IncludePayeeInfo, IncludePdf, IncludeSellerResponsible,
    IncludePropertyTax, IncludeAppraisal, IncludeEncompassMapping]

  /** The body `/api/closing-costs` forwards upstream: the fixed keys, and each optional one (`None` when absent). */
  datatype ClosingCostBody = ClosingCostBody(
    sessionId: Value,
    state: Option<Value>,
    county: Option<Value>,
    township: Option<Value>,
    searchType: Value,
    purpose: Value,
    loanAmount: Value,
    purchasePrice: Value,
    optional: Field -> Option<Value>)

  /**
   * The body `/api/closing-costs` forwards for session `sid`: `search_type`
   * defaults to "CFPB" and `purpose` to "11", both amounts are parsed and fall
   * back to 0, and every optional key is present exactly when the posted field
   * of that name is truthy, converted by its rule: copied fields are never
   * null or false, switched-on options are exactly 1 and `loan_info` is passed
   * through unchanged.
   */
  function ServerBody(req: map<string, Value>, sid: Value, parse: Parsers): (body: ClosingCostBody)
    ensures body.sessionId == sid
    ensures body.state == Lookup(req, "state") && body.county == Lookup(req, "county") && body.township == Lookup(req, "township")
    ensures Truthy(body.searchType) && Truthy(body.purpose)
    ensures IsTruthy(Lookup(req, "search_type")) ==> body.searchType == req["search_type"]
    ensures !IsTruthy(Lookup(req, "search_type")) ==> body.searchType == Str("CFPB")
    ensures IsTruthy(Lookup(req, "purpose")) ==> body.purpose == req["purpose"]
    ensures !IsTruthy(Lookup(req, "purpose")) ==> body.purpose == Str("11")
    ensures body.loanAmount.Num? && body.purchasePrice.Num?
    ensures parse.parseFloat(Lookup(req, "loan_amount")).Some? ==> body.loanAmount == Num(parse.parseFloat(Lookup(req, "loan_amount")).value)
    ensures parse.parseFloat(Lookup(req, "purchase_price")).Some? ==> body.purchasePrice == Num(parse.parseFloat(Lookup(req, "purchase_price")).value)
    ensures parse.parseFloat(Lookup(req, "loan_amount")).None? ==> body.loanAmount == Num(0)
    ensures parse.parseFloat(Lookup(req, "purchase_price")).None? ==> body.purchasePrice == Num(0)
    ensures forall f :: Carried(body.optional(f), Lookup(req, Name(f)), RuleOf(f), parse)
  {
    ClosingCostBody(
      sid,
      Lookup(req, "state"), Lookup(req, "county"), Lookup(req, "township"),
      OrElse(Lookup(req, "search_type"), Str("CFPB")),
      OrElse(Lookup(req, "purpose"), Str("11")),
      OrZero(parse.parseFloat(Lookup(req, "loan_amount"))),
      OrZero(parse.parseFloat(Lookup(req, "purchase_price"))),
      f => Carry(req, f, parse))
  }

  /**
   * One optional field of the proxy's body: present exactly when the posted
   * field is truthy; a copied field is then never null or false, an output
   * option is exactly 1, and `loan_info` is the posted object itself.
   */
  function Carry(req: map<string, Value>, f: Field, parse: Parsers): (r: Option<Value>)
    ensures Carried(r, Lookup(req, Name(f)), RuleOf(f), parse)
    ensures r.Some? && RuleOf(f) == Flag ==> r.value == Num(1)
    ensures r.Some? && RuleOf(f) == Copy ==> Truthy(r.value)
    ensures r.Some? && f == LoanInfoField ==> "loan_info" in req && r.value == req["loan_info"]
  {
    if IsTruthy(Lookup(req, Name(f))) then Some(Convert(RuleOf(f), req[Name(f)], parse)) else None
  }

  function OptionalJson(fields: seq<Field>, body: ClosingCostBody): map<string, Value>
    decreases |fields|
  {
    if fields == [] then map[] else Put(OptionalJson(fields[1..], body), Name(fields[0]), body.optional(fields[0]))
  }

  /** The proxy's body as the JSON object `JSON.stringify` writes. */
  function BodyJson(body: ClosingCostBody): Value {
    Obj(WithFixed(OptionalJson(Fields, body), body))
  }

  /** The fixed keys written over the optional ones: `state`, `county` and `township` are dropped when `undefined`. */
  function WithFixed(opt: map<string, Value>, body: ClosingCostBody): map<string, Value> {
    Put(Put(Put(WithRequired(opt, body), "state", body.state), "county", body.county), "township", body.township)
  }

  /** The keys that are always written. */
  function WithRequired(opt: map<string, Value>, body: ClosingCostBody): map<string, Value> {
    opt["session_id" := body.sessionId]["search_type" := body.searchType]["purpose" := body.purpose]
       ["loan_amount" := body.loanAmount]["purchase_price" := body.purchasePrice]
  }

  /** The keys the proxy's body always has, or has only as `state`, `county` and `township`. */
  const FixedKeys: set<string> :=
    {"session_id", "state", "county", "township", "search_type", "purpose", "loan_amount", "purchase_price"}

  /** No two optional fields share a key. */
  lemma NameInjective(f: Field, g: Field)
    ensures Name(f) == Name(g) ==> f == g
  {
  }

  /** No optional field uses one of the fixed keys. */
  lemma NameNotFixed(f: Field)
    ensures Name(f) !in FixedKeys
  {
  }

  lemma AllFields(f: Field)
    ensures f in Fields
  {
  }

  /** The optional part of the JSON body: the key of a listed field is there exactly when the field is, with its value. */
  lemma {:induction false} OptionalJsonField(fields: seq<Field>, body: ClosingCostBody, f: Field)
    ensures Name(f) in OptionalJson(fields, body) <==> f in fields && body.optional(f).Some?
    ensures Name(f) in OptionalJson(fields, body) ==> OptionalJson(fields, body)[Name(f)] == body.optional(f).value
    decreases |fields|
  {
    if fields != [] {
      NameInjective(f, fields[0]);
      OptionalJsonField(fields[1..], body, f);
      assert f in fields <==> f == fields[0] || f in fields[1..];
    }
  }

  /** Every key of the optional part is the key of some field. */
  lemma {:induction false} OptionalJsonKeys(fields: seq<Field>, body: ClosingCostBody, k: string)
    requires k in OptionalJson(fields, body)
    ensures exists f :: f in fields && Name(f) == k
    decreases |fields|
  {
    if k != Name(fields[0]) {
      OptionalJsonKeys(fields[1..], body, k);
    }
  }

  /**
   * The JSON object the proxy sends: the session, search type, purpose and
   * both amounts always; `state`, `county` and `township` exactly when the
   * browser sent them; each optional key exactly when its field is present,
   * with the field's value; and no other key.
   */
  lemma BodyJsonFields(body: ClosingCostBody)
    ensures var m := BodyJson(body).fields;
      && Lookup(m, "session_id") == Some(body.sessionId)
      && Lookup(m, "search_type") == Some(body.searchType)
      && Lookup(m, "purpose") == Some(body.purpose)
      && Lookup(m, "loan_amount") == Some(body.loanAmount)
      && Lookup(m, "purchase_price") == Some(body.purchasePrice)
      && Lookup(m, "state") == body.state
      && Lookup(m, "county") == body.county
      && Lookup(m, "township") == body.township
    ensures forall f :: Name(f) in BodyJson(body).fields <==> body.optional(f).Some?
    ensures forall f :: Name(f) in BodyJson(body).fields ==> BodyJson(body).fields[Name(f)] == body.optional(f).value
    ensures forall k :: k in BodyJson(body).fields ==> k in FixedKeys || exists f :: Name(f) == k
  {
    var opt := OptionalJson(Fields, body);
    WithFixedKeys(opt, body);
    forall f: Field
      ensures Name(f) in BodyJson(body).fields <==> body.optional(f).Some?
      ensures Name(f) in BodyJson(body).fields ==> BodyJson(body).fields[Name(f)] == body.optional(f).value
    {
      NameNotFixed(f);
      AllFields(f);
      OptionalJsonField(Fields, body, f);
      WithFixedKeeps(opt, body, Name(f));
    }
    forall k | k in BodyJson(body).fields && k !in FixedKeys
      ensures exists f :: Name(f) == k
    {
      WithFixedKeeps(opt, body, k);
      OptionalJsonKeys(Fields, body, k);
    }
  }

  /**
   * The JSON the proxy sends, against what was posted: every optional key is
   * in it exactly when the posted field of that name is truthy, converted by
   * its rule, and the amounts and defaults are those of `ServerBody`.
   */
  lemma SentJson(req: map<string, Value>, sid: Value, parse: Parsers)
    ensures var m := BodyJson(ServerBody(req, sid, parse)).fields;
      && Lookup(m, "session_id") == Some(sid)
      && Lookup(m, "state") == Lookup(req, "state")
      && Lookup(m, "search_type") == Some(OrElse(Lookup(req, "search_type"), Str("CFPB")))
      && Lookup(m, "purpose") == Some(OrElse(Lookup(req, "purpose"), Str("11")))
      && Lookup(m, "loan_amount") == Some(OrZero(parse.parseFloat(Lookup(req, "loan_amount"))))
      && Lookup(m, "purchase_price") == Some(OrZero(parse.parseFloat(Lookup(req, "purchase_price"))))
      && Lookup(m, "county") == Lookup(req, "county")
      && Lookup(m, "township") == Lookup(req, "township")
    ensures forall f :: Carried(Lookup(BodyJson(ServerBody(req, sid, parse)).fields, Name(f)), Lookup(req, Name(f)), RuleOf(f), parse)
  {
    BodyJsonFields(ServerBody(req, sid, parse));
  }

  /** The fixed keys carry the body's own values, whatever the optional part held. */
  lemma WithFixedKeys(opt: map<string, Value>, body: ClosingCostBody)
    ensures var m := WithFixed(opt, body);
      && Lookup(m, "session_id") == Some(body.sessionId)
      && Lookup(m, "search_type") == Some(body.searchType)
      && Lookup(m, "purpose") == Some(body.purpose)
      && Lookup(m, "loan_amount") == Some(body.loanAmount)
      && Lookup(m, "purchase_price") == Some(body.purchasePrice)
      && Lookup(m, "state") == body.state
      && Lookup(m, "county") == body.county
      && Lookup(m, "township") == body.township
  {
    var m1 := WithRequired(opt, body);
    RequiredKeys(opt, body);
    var m2 := Put(m1, "state", body.state);
    var m3 := Put(m2, "county", body.county);
    forall k | k in {"session_id", "search_type", "purpose", "loan_amount", "purchase_price", "state", "county"}
      ensures Lookup(WithFixed(opt, body), k) == Lookup(m3, k)
    {
      PutLookup(m3, "township", body.township, k);
    }
    forall k | k in {"session_id", "search_type", "purpose", "loan_amount", "purchase_price", "state"}
      ensures Lookup(m3, k) == Lookup(m2, k)
    {
      PutLookup(m2, "county", body.county, k);
    }
    forall k | k in {"session_id", "search_type", "purpose", "loan_amount", "purchase_price"}
      ensures Lookup(m2, k) == Lookup(m1, k)
    {
      PutLookup(m1, "state", body.state, k);
    }
  }

  lemma RequiredKeys(opt: map<string, Value>, body: ClosingCostBody)
    ensures var m := WithRequired(opt, body);
      && Lookup(m, "session_id") == Some(body.sessionId)
      && Lookup(m, "search_type") == Some(body.searchType)
      && Lookup(m, "purpose") == Some(body.purpose)
      && Lookup(m, "loan_amount") == Some(body.loanAmount)
      && Lookup(m, "purchase_price") == Some(body.purchasePrice)
  {
  }

  /** `Put` changes the one key it writes. */
  lemma PutLookup(m: map<string, Value>, key: string, o: Option<Value>, k: string)
    ensures Lookup(Put(m, key, o), k) == if k == key then o else Lookup(m, k)
  {
  }

  /** Any other key keeps its optional value. */
  lemma WithFixedKeeps(opt: map<string, Value>, body: ClosingCostBody, k: string)
    requires k !in FixedKeys
    ensures k in WithFixed(opt, body) <==> k in opt
    ensures k in opt ==> WithFixed(opt, body)[k] == opt[k]
  {
  }

  /**
   * What the browser posts survives the proxy: with a `parseFloat` that reads
   * a number back as itself, the forwarded body keeps the browser's amounts,
   * address, close date and `loan_info` (present exactly when the browser sent
   * them), and supplies the defaults for an empty search type or purpose.
   */
  lemma BrowserRequestThroughProxy(r: BrowserRequest, sessionId: Option<Value>, form: map<string, Value>, parse: Parsers,
                                   req: map<string, Value>, sid: Value)
    requires BrowserRequestFrom(r, sessionId, form, parse)
    requires Received(req, r)
    requires forall n :: parse.parseFloat(Some(Num(n))) == Some(n)
    ensures var s := ServerBody(req, sid, parse);
      && s.loanAmount == r.loanAmount
      && s.purchasePrice == r.purchasePrice
      && s.searchType == OrElse(Lookup(form, "searchType"), Str("CFPB"))
      && s.purpose == OrElse(Lookup(form, "purpose"), Str("11"))
      && s.optional(Address) == r.address
      && s.optional(CloseDate) == r.closeDate
      && (s.optional(LoanInfoField).Some? <==> AnyLoanInfo(form))
  {
  }
}
