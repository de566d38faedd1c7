/**
 * The churn prediction API client: a base URL fixed at construction, five
 * operations that each issue one request to that base URL followed by a
 * fixed path, and the error messages they throw.
 *
 * The network is a parameter: `fetch` maps the request an operation issues
 * to its outcome (a rejection, or a status with the result of decoding the
 * body as JSON). Every operation's result depends on `fetch` only at the
 * one request it issues.
 */
module PredictionApi {
  import opened JsValues
  import opened ModelInfoNormalisation

  // ---------------------------------------------------------------------------
  // Configuration and requests
  // ---------------------------------------------------------------------------

  const DefaultBaseUrl: string := "http://localhost:8000"

  /** `process.env.NEXT_PUBLIC_API_URL || "http://localhost:8000"`: an unset or empty setting gives the default. */
  function ApiBaseUrl(env: Option<string>): (url: string)
    ensures env.Some? && env.value != "" ==> url == env.value
    ensures env.None? || env.value == "" ==> url == DefaultBaseUrl
  {
    var setting := if env.Some? then Str(env.value) else Undefined;
    ToJsString(Or(setting, Str(DefaultBaseUrl)))
  }

  datatype Endpoint = HealthEndpoint | InfoEndpoint | FeaturesEndpoint | PredictEndpoint | BatchEndpoint

  function Path(e: Endpoint): string {
    match e
    case HealthEndpoint => "/health"
    case InfoEndpoint => "/model/info"
    case FeaturesEndpoint => "/model/features"
    case PredictEndpoint => "/predict"
    case BatchEndpoint => "/predict/batch"
  }

  /** The client object; its base URL is set once and never reassigned. */
  datatype Client = Client(baseUrl: string) {
    function Url(e: Endpoint): string {
      baseUrl + Path(e)
    }
  }

  /**
   * `new ChurnPredictionAPI(baseUrl)`: any string argument, "" included, is
   * kept; an omitted or `undefined` argument (`None`) takes the default.
   */
  function NewClient(baseUrl: Option<string>, env: Option<string>): (c: Client)
    ensures baseUrl.Some? ==> c.baseUrl == baseUrl.value
    ensures baseUrl.None? && env.Some? && env.value != "" ==> c.baseUrl == env.value
    ensures baseUrl.None? && (env.None? || env.value == "") ==> c.baseUrl == DefaultBaseUrl
  {
    Client(if baseUrl.Some? then baseUrl.value else ApiBaseUrl(env))
  }

  datatype Method = Get | Post

  /** A request as handed to `fetch`; the body is the value that is serialised with JSON.stringify. */
  datatype Request = Request(verb: Method, url: string, headers: map<string, string>, body: Option<JsValue>)

  const JsonHeaders: map<string, string> := map["Content-Type" := "application/json"]

  /** The five calls, with the arguments the POST calls send. */
  datatype Operation =
    | HealthCheck
    | ModelInfoQuery
    | FeatureQuery
    | Prediction(customer: JsValue)
    | BatchPrediction(customers: seq<JsValue>)

  function EndpointOf(op: Operation): Endpoint {
    match op
    case HealthCheck => HealthEndpoint
    case ModelInfoQuery => InfoEndpoint
    case FeatureQuery => FeaturesEndpoint
    case Prediction(_) => PredictEndpoint
    case BatchPrediction(_) => BatchEndpoint
  }

  /** The one request each call issues: GETs carry no body, POSTs a JSON body. */
  function RequestFor(c: Client, op: Operation): Request {
    match op
    case HealthCheck => Request(Get, c.Url(HealthEndpoint), map[], None)
    case ModelInfoQuery => Request(Get, c.Url(InfoEndpoint), map[], None)
    case FeatureQuery => Request(Get, c.Url(FeaturesEndpoint), map[], None)
    case Prediction(x) => Request(Post, c.Url(PredictEndpoint), JsonHeaders, Some(x))
    case BatchPrediction(xs) => Request(Post, c.Url(BatchEndpoint), JsonHeaders, Some(Obj(map["customers" := Arr(xs)])))
  }

  /**
   * The backend's view of a request: which call it is, recognised from the
   * method, the path after `base`, the headers and the body.
   */
  function Dispatch(base: string, req: Request): Option<Operation> {
    if !(base <= req.url) then None
    else
      var path := req.url[|base|..];
      match req.verb
      case Get =>
        if req.headers != map[] || req.body.Some? then None
        else if path == "/health" then Some(HealthCheck)
        else if path == "/model/info" then Some(ModelInfoQuery)
        else if path == "/model/features" then Some(FeatureQuery)
        else None
      case Post =>
        if req.headers != JsonHeaders || req.body.None? then None
        else if path == "/predict" then Some(Prediction(req.body.value))
        else if path == "/predict/batch" then
          match Prop(req.body.value, "customers")
          case Arr(xs) => Some(BatchPrediction(xs))
          case _ => None
        else None
  }

  /**
   * Every call requests its own path under the client's base URL, with the
   * method, headers and body the backend expects; a batch keeps the
   * customers in the order given.
   */
  lemma RequestRoundTrip(c: Client, op: Operation)
    ensures Dispatch(c.baseUrl, RequestFor(c, op)) == Some(op)
    ensures RequestFor(c, op).url == c.baseUrl + Path(EndpointOf(op))
  {
    var url := RequestFor(c, op).url;
    assert c.baseUrl <= url;
    assert url[|c.baseUrl|..] == Path(EndpointOf(op));
  }

  /** Distinct endpoints are requested at distinct URLs, whatever the base URL. */
  lemma UrlsDistinct(c: Client, a: Endpoint, b: Endpoint)
    requires a != b
    ensures c.Url(a) != c.Url(b)
  {
    assert c.Url(a)[|c.baseUrl|..] == Path(a);
    assert c.Url(b)[|c.baseUrl|..] == Path(b);
  }

  // ---------------------------------------------------------------------------
  // Outcomes and the try blocks
  // ---------------------------------------------------------------------------

  /** What `response.json()` gives: the decoded value, or the SyntaxError it rejects with. */
  datatype Body = Parsed(json: JsValue) | Unparsable(error: JsError)

  /** What `fetch` gives: a rejection (network failure), or a response status and body. */
  datatype Outcome = Rejected(error: JsError) | Responded(status: nat, body: Body)

  type Fetch = Request -> Outcome

  /** `response.ok`: a status in the range 200 to 299. */
  predicate IsOk(status: nat) {
    200 <= status <= 299
  }

  /** The outcome in which a call returns normally: a 2xx status and a body that decodes. */
  predicate Delivered(o: Outcome) {
    o.Responded? && IsOk(o.status) && o.body.Parsed?
  }

  function HttpErrorText(status: nat): string {
    "HTTP error! status: " + NatToDecimal(status)
  }

  /** The status code can be read back from the generic message. */
  lemma HttpErrorTextInjective(a: nat, b: nat)
    requires HttpErrorText(a) == HttpErrorText(b)
    ensures a == b
  {
    var n := |"HTTP error! status: "|;
    assert HttpErrorText(a)[n..] == NatToDecimal(a);
    assert HttpErrorText(b)[n..] == NatToDecimal(b);
    DecimalInjective(a, b);
  }

  function ReadJson(b: Body): Completion<JsValue> {
    match b
    case Parsed(v) => Normal(v)
    case Unparsable(e) => Throw(e)
  }

  /** The try block of a GET call up to its decoded body: a failing status throws the generic message. */
  function GetStep(o: Outcome): Completion<JsValue> {
    match o
    case Rejected(e) => Throw(e)
    case Responded(status, body) =>
      if !IsOk(status) then Throw(NewError(HttpErrorText(status))) else ReadJson(body)
  }

  /**
   * The try block of a POST call: a failing status decodes the error body
   * and throws `new Error(error.detail || "HTTP error! status: N")`.
   */
  function PostStep(o: Outcome): Completion<JsValue> {
    match o
    case Rejected(e) => Throw(e)
    case Responded(status, body) =>
      if IsOk(status) then ReadJson(body)
      else
        match ReadJson(body)
        case Throw(e) => Throw(e)
        case Normal(error) =>
          match Read(error, "detail")
          case Throw(e) => Throw(e)
          case Normal(detail) => Throw(ConstructError(Or(detail, Str(HttpErrorText(status)))))
  }

  function Prefix(e: Endpoint): string {
    match e
    case HealthEndpoint => "Failed to check API health: "
    case InfoEndpoint => "Failed to fetch model info: "
    case FeaturesEndpoint => "Failed to fetch feature importance: "
    case PredictEndpoint => "Prediction failed: "
    case BatchEndpoint => "Batch prediction failed: "
  }

  /** The catch block: `throw new Error(prefix + String(error))`. */
  function Wrap<T>(e: Endpoint, c: Completion<T>): Completion<T> {
    match c
    case Normal(_) => c
    case Throw(inner) => Throw(NewError(Prefix(e) + ErrorToString(inner)))
  }

  // ---------------------------------------------------------------------------
  // What each call promises, outcome by outcome
  // ---------------------------------------------------------------------------

  /** The message an Error built from the truthy `detail` prints as. */
  function DetailText(detail: JsValue): string {
    var text := ToJsString(detail);
    if text == "" then "Error" else "Error: " + text
  }

  /** The failures every call shares: a rejected request, and a 2xx body that does not decode. */
  predicate CommonFailures<T>(r: Completion<T>, o: Outcome, e: Endpoint) {
    && (o.Rejected? ==> r == Throw(NewError(Prefix(e) + ErrorToString(o.error))))
    && (o.Responded? && IsOk(o.status) && o.body.Unparsable? ==>
          r == Throw(NewError(Prefix(e) + ErrorToString(o.body.error))))
  }

  /** A call that returns the decoded body as it is: it returns exactly when the outcome is delivered. */
  predicate PassesThrough(r: Completion<JsValue>, o: Outcome) {
    && (r.Normal? <==> Delivered(o))
    && (r.Normal? ==> r.value == o.body.json)
  }

  /** A GET call reports a failing status with the generic message, whatever the body holds. */
  predicate GetStatusFailure<T>(r: Completion<T>, o: Outcome, e: Endpoint) {
    o.Responded? && !IsOk(o.status) ==>
      r == Throw(NewError(Prefix(e) + "Error: " + HttpErrorText(o.status)))
  }

  /**
   * A POST call reports a failing status with the decoded `detail` when it is
   * truthy, with the generic message when it is not, with the TypeError when
   * the error body is null, and with the decoding error when it does not
   * decode; it never returns.
   */
  predicate PostStatusFailure<T>(r: Completion<T>, o: Outcome, e: Endpoint) {
    o.Responded? && !IsOk(o.status) ==>
      r == Throw(NewError(Prefix(e) +
        match o.body
        case Unparsable(decodeError) => ErrorToString(decodeError)
        case Parsed(error) =>
          if Nullish(error) then ErrorToString(NullReadError(error, "detail"))
          else if Truthy(Prop(error, "detail")) then DetailText(Prop(error, "detail"))
          else "Error: " + HttpErrorText(o.status)))
  }

  /** `checkHealth()`: GET /health, the body returned as it is. */
  function CheckHealth(c: Client, fetch: Fetch): (r: Completion<JsValue>)
    ensures PassesThrough(r, fetch(RequestFor(c, HealthCheck)))
  {
    Wrap(HealthEndpoint, GetStep(fetch(RequestFor(c, HealthCheck))))
  }

  /** `getModelInfo()`: GET /model/info, the decoded body normalised. */
  function GetModelInfo(c: Client, fetch: Fetch): (r: Completion<ModelInfo>)
    ensures var o := fetch(RequestFor(c, ModelInfoQuery));
      && (r.Normal? <==> Delivered(o) && !Nullish(o.body.json))
      && (r.Normal? ==> Normalise(o.body.json) == Normal(r.value) && Defined(r.value))
  {
    Wrap(InfoEndpoint,
      match GetStep(fetch(RequestFor(c, ModelInfoQuery)))
      case Throw(e) => Throw(e)
      case Normal(data) => Normalise(data))
  }

  /** `getFeatureImportance()`: GET /model/features, the entries returned in the order received. */
  function GetFeatureImportance(c: Client, fetch: Fetch): (r: Completion<JsValue>)
    ensures PassesThrough(r, fetch(RequestFor(c, FeatureQuery)))
  {
    Wrap(FeaturesEndpoint, GetStep(fetch(RequestFor(c, FeatureQuery))))
  }

  /** `predict(customer)`: POST /predict with the customer record as the JSON body. */
  function Predict(c: Client, fetch: Fetch, customer: JsValue): (r: Completion<JsValue>)
    ensures PassesThrough(r, fetch(RequestFor(c, Prediction(customer))))
  {
    Wrap(PredictEndpoint, PostStep(fetch(RequestFor(c, Prediction(customer)))))
  }

  /** `predictBatch(customers)`: POST /predict/batch with `{customers}` as the JSON body. */
  function PredictBatch(c: Client, fetch: Fetch, customers: seq<JsValue>): (r: Completion<JsValue>)
    ensures PassesThrough(r, fetch(RequestFor(c, BatchPrediction(customers))))
  {
    Wrap(BatchEndpoint, PostStep(fetch(RequestFor(c, BatchPrediction(customers)))))
  }

  /** The generic status message prints as "Error: HTTP error! status: N". */
  lemma HttpErrorString(status: nat)
    ensures ErrorToString(NewError(HttpErrorText(status))) == "Error: " + HttpErrorText(status)
  {
    NewErrorString(HttpErrorText(status));
  }

  lemma WrapThrow<T>(e: Endpoint, inner: JsError, text: string)
    requires ErrorToString(inner) == text
    ensures Wrap<T>(e, Throw(inner)) == Throw(NewError(Prefix(e) + text))
  {
  }

  lemma GetStepFailures<T>(e: Endpoint, o: Outcome, r: Completion<T>)
    requires GetStep(o).Throw? ==> r == Wrap(e, Throw(GetStep(o).error))
    ensures CommonFailures(r, o, e) && GetStatusFailure(r, o, e)
  {
    if o.Responded? && !IsOk(o.status) {
      HttpErrorString(o.status);
      assert Prefix(e) + ("Error: " + HttpErrorText(o.status)) == Prefix(e) + "Error: " + HttpErrorText(o.status);
    }
  }

  /** An Error built from a truthy `detail` prints as DetailText. */
  lemma DetailErrorString(detail: JsValue)
    requires Truthy(detail)
    ensures ErrorToString(ConstructError(detail)) == DetailText(detail)
  {
  }

  lemma PostStepFailures(e: Endpoint, o: Outcome)
    ensures CommonFailures(Wrap(e, PostStep(o)), o, e) && PostStatusFailure(Wrap(e, PostStep(o)), o, e)
  {
    match o
    case Rejected(_) =>
    case Responded(status, body) =>
      if !IsOk(status) {
        match body
        case Unparsable(err) =>
          assert PostStep(o) == Throw(err);
        case Parsed(error) =>
          if Nullish(error) {
            assert PostStep(o) == Throw(NullReadError(error, "detail"));
          } else {
            var detail := Prop(error, "detail");
            assert PostStep(o) == Throw(ConstructError(Or(detail, Str(HttpErrorText(status)))));
            if Truthy(detail) {
              DetailErrorString(detail);
              WrapThrow<JsValue>(e, ConstructError(detail), DetailText(detail));
            } else {
              HttpErrorString(status);
              WrapThrow<JsValue>(e, NewError(HttpErrorText(status)), "Error: " + HttpErrorText(status));
              assert Prefix(e) + ("Error: " + HttpErrorText(status)) == Prefix(e) + "Error: " + HttpErrorText(status);
            }
          }
      }
  }

  /**
   * The three GET calls fail on a rejected request, on a non-2xx status
   * (with the generic message, whatever the body) and on a 2xx body that does
   * not decode; `getModelInfo` also fails on a null body.
   */
  lemma GetCallFailures(c: Client, fetch: Fetch)
    ensures var o := fetch(RequestFor(c, HealthCheck)); var r := CheckHealth(c, fetch);
      CommonFailures(r, o, HealthEndpoint) && GetStatusFailure(r, o, HealthEndpoint)
    ensures var o := fetch(RequestFor(c, ModelInfoQuery)); var r := GetModelInfo(c, fetch);
      && CommonFailures(r, o, InfoEndpoint) && GetStatusFailure(r, o, InfoEndpoint)
      && (Delivered(o) && Nullish(o.body.json) ==>
            r == Throw(NewError(Prefix(InfoEndpoint) + ErrorToString(NullReadError(o.body.json, "model_name")))))
    ensures var o := fetch(RequestFor(c, FeatureQuery)); var r := GetFeatureImportance(c, fetch);
      CommonFailures(r, o, FeaturesEndpoint) && GetStatusFailure(r, o, FeaturesEndpoint)
  {
    GetStepFailures(HealthEndpoint, fetch(RequestFor(c, HealthCheck)), CheckHealth(c, fetch));
    GetStepFailures(InfoEndpoint, fetch(RequestFor(c, ModelInfoQuery)), GetModelInfo(c, fetch));
    GetStepFailures(FeaturesEndpoint, fetch(RequestFor(c, FeatureQuery)), GetFeatureImportance(c, fetch));
  }

  /**
   * The two POST calls fail on a rejected request and on a 2xx body that
   * does not decode, and a non-2xx status always throws: with the error
   * body's truthy `detail`, else with the generic message.
   */
  lemma PostCallFailures(c: Client, fetch: Fetch, customer: JsValue, customers: seq<JsValue>)
    ensures var o := fetch(RequestFor(c, Prediction(customer))); var r := Predict(c, fetch, customer);
      CommonFailures(r, o, PredictEndpoint) && PostStatusFailure(r, o, PredictEndpoint)
    ensures var o := fetch(RequestFor(c, BatchPrediction(customers))); var r := PredictBatch(c, fetch, customers);
      CommonFailures(r, o, BatchEndpoint) && PostStatusFailure(r, o, BatchEndpoint)
  {
    PostStepFailures(PredictEndpoint, fetch(RequestFor(c, Prediction(customer))));
    PostStepFailures(BatchEndpoint, fetch(RequestFor(c, BatchPrediction(customers))));
  }

  // ---------------------------------------------------------------------------
  // Consequences
  // ---------------------------------------------------------------------------

  /** A 4xx whose body has a non-empty string `detail` fails with that text, not the status. */
  lemma DetailPreferred(c: Client, fetch: Fetch, customer: JsValue, status: nat, error: JsValue, detail: string)
    requires fetch(RequestFor(c, Prediction(customer))) == Responded(status, Parsed(error))
    requires !IsOk(status) && Prop(error, "detail") == Str(detail) && detail != ""
    ensures Predict(c, fetch, customer) == Throw(NewError("Prediction failed: Error: " + detail))
  {
    var o := fetch(RequestFor(c, Prediction(customer)));
    var inner := ConstructError(Str(detail));
    assert PostStep(o) == Throw(inner);
    assert inner == JsError("Error", detail);
    WrapThrow<JsValue>(PredictEndpoint, inner, "Error: " + detail);
    assert Prefix(PredictEndpoint) + ("Error: " + detail) == "Prediction failed: Error: " + detail;
  }

  /**
   * A validation failure whose `detail` is a list of two objects prints as
   * the string conversion of that list.
   */
  lemma ListDetailExample(c: Client, fetch: Fetch, customers: seq<JsValue>)
    requires fetch(RequestFor(c, BatchPrediction(customers)))
      == Responded(422, Parsed(Obj(map["detail" := Arr([Obj(map[]), Obj(map[])])])))
    ensures PredictBatch(c, fetch, customers)
      == Throw(NewError(Prefix(BatchEndpoint) + ("Error: " + "[object Object],[object Object]")))
  {
    var o := fetch(RequestFor(c, BatchPrediction(customers)));
    assert Prop(o.body.json, "detail") == Arr([Obj(map[]), Obj(map[])]);
    PostStepFailures(BatchEndpoint, o);
    TwoObjectsText();
  }

  lemma TwoObjectsText()
    ensures DetailText(Arr([Obj(map[]), Obj(map[])])) == "Error: " + "[object Object],[object Object]"
  {
    var o := Obj(map[]);
    var text := "[object Object]";
    JoinTwo(o, o);
    assert ToJsString(o) == text;
    assert ToJsString(Arr([o, o])) == text + "," + text;
    assert text + "," + text == "[object Object],[object Object]";
  }

  /** Array.prototype.join of two elements that are not null or undefined. */
  lemma JoinTwo(a: JsValue, b: JsValue)
    requires !Nullish(a) && !Nullish(b)
    ensures JoinElems([a, b]) == ToJsString(a) + "," + ToJsString(b)
  {
    assert [a, b][1..] == [b];
  }

  /** Which call a thrown message came from, and the inner error text after its prefix. */
  function ParseFailure(message: string): Option<(Endpoint, string)> {
    if Prefix(HealthEndpoint) <= message then Some((HealthEndpoint, message[|Prefix(HealthEndpoint)|..]))
    else if Prefix(InfoEndpoint) <= message then Some((InfoEndpoint, message[|Prefix(InfoEndpoint)|..]))
    else if Prefix(FeaturesEndpoint) <= message then Some((FeaturesEndpoint, message[|Prefix(FeaturesEndpoint)|..]))
    else if Prefix(PredictEndpoint) <= message then Some((PredictEndpoint, message[|Prefix(PredictEndpoint)|..]))
    else if Prefix(BatchEndpoint) <= message then Some((BatchEndpoint, message[|Prefix(BatchEndpoint)|..]))
    else None
  }

  /** No prefix is a prefix of another call's message. */
  lemma PrefixExcludes(a: Endpoint, b: Endpoint, inner: string)
    requires a != b
    ensures !(Prefix(a) <= Prefix(b) + inner)
  {
    var m := Prefix(b) + inner;
    var pa := Prefix(a);
    var k: nat :=
      if (a.PredictEndpoint? || a.BatchEndpoint? || b.PredictEndpoint? || b.BatchEndpoint?) then 0
      else if a.HealthEndpoint? || b.HealthEndpoint? then 10
      else 16;
    assert k < |pa| && k < |Prefix(b)|;
    assert m[k] == Prefix(b)[k];
    assert pa[k] != Prefix(b)[k];
  }

  /**
   * Every message a call throws names that call: parsing it gives back the
   * call's endpoint and the string form of the inner error.
   */
  lemma FailureNamesCall(e: Endpoint, inner: JsError)
    ensures ParseFailure(NewError(Prefix(e) + ErrorToString(inner)).message) == Some((e, ErrorToString(inner)))
  {
    var text := ErrorToString(inner);
    var m := Prefix(e) + text;
    assert Prefix(e) <= m && m[|Prefix(e)|..] == text;
    match e
    case HealthEndpoint =>
    case InfoEndpoint =>
      PrefixExcludes(HealthEndpoint, e, text);
    case FeaturesEndpoint =>
      PrefixExcludes(HealthEndpoint, e, text);
      PrefixExcludes(InfoEndpoint, e, text);
    case PredictEndpoint =>
      PrefixExcludes(HealthEndpoint, e, text);
      PrefixExcludes(InfoEndpoint, e, text);
      PrefixExcludes(FeaturesEndpoint, e, text);
    case BatchEndpoint =>
      PrefixExcludes(HealthEndpoint, e, text);
      PrefixExcludes(InfoEndpoint, e, text);
      PrefixExcludes(FeaturesEndpoint, e, text);
      PrefixExcludes(PredictEndpoint, e, text);
  }

  /** A call's thrown message always parses back to that call. */
  lemma ThrownMessagesParse(c: Client, fetch: Fetch, customer: JsValue, customers: seq<JsValue>)
    ensures var r := CheckHealth(c, fetch); r.Throw? ==> ParseFailure(r.error.message).Some? && ParseFailure(r.error.message).value.0 == HealthEndpoint
    ensures var r := GetModelInfo(c, fetch); r.Throw? ==> ParseFailure(r.error.message).Some? && ParseFailure(r.error.message).value.0 == InfoEndpoint
    ensures var r := GetFeatureImportance(c, fetch); r.Throw? ==> ParseFailure(r.error.message).Some? && ParseFailure(r.error.message).value.0 == FeaturesEndpoint
    ensures var r := Predict(c, fetch, customer); r.Throw? ==> ParseFailure(r.error.message).Some? && ParseFailure(r.error.message).value.0 == PredictEndpoint
    ensures var r := PredictBatch(c, fetch, customers); r.Throw? ==> ParseFailure(r.error.message).Some? && ParseFailure(r.error.message).value.0 == BatchEndpoint
  {
    WrapParses(HealthEndpoint, GetStep(fetch(RequestFor(c, HealthCheck))));
    var info := match GetStep(fetch(RequestFor(c, ModelInfoQuery)))
      case Throw(e) => Throw(e)
      case Normal(data) => Normalise(data);
    WrapParses(InfoEndpoint, info);
    WrapParses(FeaturesEndpoint, GetStep(fetch(RequestFor(c, FeatureQuery))));
    WrapParses(PredictEndpoint, PostStep(fetch(RequestFor(c, Prediction(customer)))));
    WrapParses(BatchEndpoint, PostStep(fetch(RequestFor(c, BatchPrediction(customers)))));
  }

  lemma WrapParses<T>(e: Endpoint, c: Completion<T>)
    ensures var r := Wrap(e, c); r.Throw? ==> ParseFailure(r.error.message) == Some((e, ErrorToString(c.error)))
  {
    if c.Throw? {
      FailureNamesCall(e, c.error);
    }
  }
}
