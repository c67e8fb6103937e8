/**
 * The older redirect handler of lambda/redirect.py: a small response-envelope
 * class (`Result` and its subclasses `ErrorResult` and `RedirectResult`), the
 * `query` classifier over a low-level DynamoDB `get_item`, and the Lambda
 * entry point that formats the envelope for API Gateway.
 */
module PythonHandler {
  import opened Common

  /** A response body: a plain string, or the output of `json.dumps` on an object. */
  datatype Body = Text(s: string) | Encoded(obj: JsonObject)

  /** Python truthiness of an optional body. `json.dumps` of an object is never empty. */
  predicate BodyTruthy(body: Option<Body>)
  {
    body.Some? && (body.value.Text? ==> body.value.s != "")
  }

  /** A value in the dictionary handed back to API Gateway. */
  datatype PyValue =
    | Int(i: int)
    | Boolean(b: bool)
    | BodyValue(body: Body)
    | Dict(d: map<string, string>)
    | List(l: seq<string>)

  /** How `Result.__init__` stores its optional arguments. A falsy body is stored as None. */
  function KeptBody(body: Option<Body>): (b: Option<Body>)
    ensures b.Some? <==> BodyTruthy(body)
    ensures b.Some? ==> b == body
  {
    if BodyTruthy(body) then body else None
  }

  /** Absent or empty headers become `{}`; otherwise a copy, `dict(headers)`. */
  function KeptHeaders(headers: Option<map<string, string>>): (h: map<string, string>)
    ensures headers.Some? ==> h == headers.value
    ensures headers.None? ==> h == map[]
  {
    if headers.None? || headers.value == map[] then map[] else headers.value
  }

  /** Absent or empty cookies become `[]`; otherwise a copy, `list(cookies)`. */
  function KeptCookies(cookies: Option<seq<string>>): (c: seq<string>)
    ensures cookies.Some? ==> c == cookies.value
    ensures cookies.None? ==> c == []
  {
    if cookies.None? || cookies.value == [] then [] else cookies.value
  }

  /** The dictionary `format_api_gateway` returns: the two fixed keys, and each
      optional key exactly when its field is truthy. */
  function ApiGatewayFormat(status: int, body: Option<Body>, base64: bool,
                            headers: map<string, string>, cookies: seq<string>): (d: map<string, PyValue>)
    ensures "statusCode" in d && d["statusCode"] == Int(status)
    ensures "isBase64Encoded" in d && d["isBase64Encoded"] == Boolean(base64)
    ensures "body" in d <==> BodyTruthy(body)
    ensures "body" in d ==> d["body"] == BodyValue(body.value)
    ensures "headers" in d <==> headers != map[]
    ensures "headers" in d ==> d["headers"] == Dict(headers)
    ensures "cookies" in d <==> cookies != []
    ensures "cookies" in d ==> d["cookies"] == List(cookies)
    ensures d.Keys <= {"statusCode", "isBase64Encoded", "body", "headers", "cookies"}
  {
    map["statusCode" := Int(status), "isBase64Encoded" := Boolean(base64)]
    + (if BodyTruthy(body) then map["body" := BodyValue(body.value)] else map[])
    + (if headers != map[] then map["headers" := Dict(headers)] else map[])
    + (if cookies != [] then map["cookies" := List(cookies)] else map[])
  }

  /** The response envelope. Python's subclasses become named constructors. */
  class Result {
    var status: int
    var body: Option<Body>
    var base64: bool
    var headers: map<string, string>
    var cookies: seq<string>

    /** `Result.__init__` */
    constructor (status: int, body: Option<Body>, base64: bool,
                 headers: Option<map<string, string>>, cookies: Option<seq<string>>)
      ensures this.status == status && this.base64 == base64
      ensures this.body.Some? <==> BodyTruthy(body)
      ensures this.body.Some? ==> this.body == body
      ensures headers.Some? ==> this.headers == headers.value
      ensures headers.None? ==> this.headers == map[]
      ensures cookies.Some? ==> this.cookies == cookies.value
      ensures cookies.None? ==> this.cookies == []
    {
      this.status := status;
      this.body := KeptBody(body);
      this.base64 := base64;
      this.headers := KeptHeaders(headers);
      this.cookies := KeptCookies(cookies);
    }

    /** `ErrorResult(status, message)`: the body is `json.dumps({'errorMessage': message})`. */
    constructor Error(status: int, message: string)
      ensures this.status == status && !base64
      ensures body == Some(Encoded(JsonObject([("errorMessage", message)])))
      ensures headers == map[] && cookies == []
    {
      this.status := status;
      this.body := KeptBody(Some(Encoded(JsonObject([("errorMessage", message)]))));
      this.base64 := false;
      this.headers := KeptHeaders(None);
      this.cookies := KeptCookies(None);
    }

    /** `RedirectResult(location)`: a 301 whose only header is `Location`. */
    constructor Redirect(location: string)
      ensures status == 301 && !base64
      ensures body == None
      ensures headers == map["Location" := location] && cookies == []
    {
      this.status := 301;
      this.body := KeptBody(None);
      this.base64 := false;
      this.headers := KeptHeaders(Some(map["Location" := location]));
      this.cookies := KeptCookies(None);
    }

    /** `format_api_gateway`: start from the two fixed keys and insert the others in turn. */
    method FormatApiGateway() returns (result: map<string, PyValue>)
      ensures result == ApiGatewayFormat(status, body, base64, headers, cookies)
    {
      result := map["statusCode" := Int(status), "isBase64Encoded" := Boolean(base64)];
      if BodyTruthy(body) {
        result := result["body" := BodyValue(body.value)];
      }
      if headers != map[] {
        result := result["headers" := Dict(headers)];
      }
      if cookies != [] {
        result := result["cookies" := List(cookies)];
      }
    }
  }

  /** What `dynamodb.get_item` does: raise a `ClientError`, raise something
      else, or return a response whose `Item` may be absent. */
  datatype GetOutcome = ClientError | OtherError | Output(item: Option<map<string, Attr>>)

  /** A Python call either returns a value or raises. */
  datatype Outcome<T> = Returned(value: T) | Raised

  /** Which envelope `query` builds. */
  datatype Envelope = ErrorEnvelope(status: int, message: string) | RedirectEnvelope(location: string)

  /** `result.get('Item', {}).get('location', {}).get('S', None)`, when truthy. */
  function Destination(item: Option<map<string, Attr>>): (d: Option<string>)
    ensures d.Some? <==> item.Some? && "location" in item.value && item.value["location"].S? && item.value["location"].s != ""
    ensures d.Some? ==> d.value == item.value["location"].s
  {
    if item.Some? && "location" in item.value && item.value["location"].S? && item.value["location"].s != ""
    then Some(item.value["location"].s)
    else None
  }

  /** The classification `query` makes after its read. */
  function Classify(host: string, outcome: GetOutcome): (e: Outcome<Envelope>)
    ensures e == Raised <==> outcome == OtherError
    ensures outcome == ClientError ==> e == Returned(ErrorEnvelope(500, "Unable to query for redirect"))
    ensures outcome.Output? ==> e.Returned? && (e.value.RedirectEnvelope? <==> Destination(outcome.item).Some?)
    ensures outcome.Output? && Destination(outcome.item).Some? ==> e == Returned(RedirectEnvelope(Destination(outcome.item).value))
    ensures outcome.Output? && Destination(outcome.item).None? ==> e == Returned(ErrorEnvelope(404, "No destination for " + host))
  {
    match outcome
    case ClientError => Returned(ErrorEnvelope(500, "Unable to query for redirect"))
    case OtherError => Raised
    case Output(item) =>
      match Destination(item)
      case Some(location) => Returned(RedirectEnvelope(location))
      case None => Returned(ErrorEnvelope(404, "No destination for " + host))
  }

  /** The object `res` is the envelope `e` describes. */
  ghost predicate Describes(res: Result, e: Envelope)
    reads res
  {
    match e
    case ErrorEnvelope(status, message) =>
      res.status == status && res.body == Some(Encoded(JsonObject([("errorMessage", message)])))
      && !res.base64 && res.headers == map[] && res.cookies == []
    case RedirectEnvelope(location) =>
      res.status == 301 && res.body == None && !res.base64
      && res.headers == map["Location" := location] && res.cookies == []
  }

  /** The `get_item` request `query` sends: the whole item, keyed by the host. */
  function QueryRequest(table: string, host: string): ReadRequest
  {
    ReadRequest(table, host, None)
  }

  /** `query(table, host)`: one read, then the envelope for its outcome. */
  method Query(store: Store<GetOutcome>, table: string, host: string) returns (r: Outcome<Result>)
    modifies store
    ensures store.log == old(store.log) + [QueryRequest(table, host)]
    ensures r.Raised? <==> Classify(host, store.answer(QueryRequest(table, host))).Raised?
    ensures r.Returned? ==> fresh(r.value) && Describes(r.value, Classify(host, store.answer(QueryRequest(table, host))).value)
  {
    var outcome := store.Get(QueryRequest(table, host));
    var e := Classify(host, outcome);
    if e.Raised? {
      r := Raised;
    } else if e.value.ErrorEnvelope? {
      var res := new Result.Error(e.value.status, e.value.message);
      r := Returned(res);
    } else {
      var res := new Result.Redirect(e.value.location);
      r := Returned(res);
    }
  }

  /** `os.environ.get('DYNAMODB_TABLE', 'redirection')` */
  function TableName(env: map<string, string>): (name: string)
    ensures "DYNAMODB_TABLE" !in env ==> name == "redirection"
    ensures "DYNAMODB_TABLE" in env ==> name == env["DYNAMODB_TABLE"]
  {
    if "DYNAMODB_TABLE" in env then env["DYNAMODB_TABLE"] else "redirection"
  }

  /** The dictionary for an envelope, as `format_api_gateway` lays it out. */
  function EnvelopeFormat(e: Envelope): map<string, PyValue>
  {
    match e
    case ErrorEnvelope(status, message) =>
      ApiGatewayFormat(status, Some(Encoded(JsonObject([("errorMessage", message)]))), false, map[], [])
    case RedirectEnvelope(location) =>
      ApiGatewayFormat(301, None, false, map["Location" := location], [])
  }

  /**
   * `lambda_handler`: `event['headers']['host']` raises when the header is
   * missing; otherwise one read against the configured table, and the
   * formatted envelope (or the exception `query` lets through).
   */
  method LambdaHandler(store: Store<GetOutcome>, env: map<string, string>, headers: map<string, string>)
    returns (response: Outcome<map<string, PyValue>>)
    modifies store
    ensures "host" !in headers ==> response == Raised && store.log == old(store.log)
    ensures "host" in headers ==>
      var request := QueryRequest(TableName(env), headers["host"]);
      var e := Classify(headers["host"], store.answer(request));
      && store.log == old(store.log) + [request]
      && (response.Raised? <==> e.Raised?)
      && (response.Returned? ==> response.value == EnvelopeFormat(e.value))
  {
    if "host" !in headers {
      return Raised;
    }
    var host := headers["host"];
    var tableName := TableName(env);
    var result := Query(store, tableName, host);
    if result.Raised? {
      response := Raised;
    } else {
      var formatted := result.value.FormatApiGateway();
      response := Returned(formatted);
    }
  }

  /** An envelope's dictionary: a redirect carries only its `Location` header,
      an error only its JSON body, and the status is always present. */
  lemma EnvelopeFormatShape(e: Envelope)
    ensures e.RedirectEnvelope? ==>
      EnvelopeFormat(e) == map["statusCode" := Int(301), "isBase64Encoded" := Boolean(false),
                               "headers" := Dict(map["Location" := e.location])]
    ensures e.ErrorEnvelope? ==>
      EnvelopeFormat(e) == map["statusCode" := Int(e.status), "isBase64Encoded" := Boolean(false),
                               "body" := BodyValue(Encoded(JsonObject([("errorMessage", e.message)])))]
  {
    var d := EnvelopeFormat(e);
    if e.RedirectEnvelope? {
      var h := map["Location" := e.location];
      assert "Location" in h;
      assert d.Keys == {"statusCode", "isBase64Encoded", "headers"};
    } else {
      assert d.Keys == {"statusCode", "isBase64Encoded", "body"};
    }
  }
}
