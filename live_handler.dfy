/**
 * The live redirect handler of lambda/redirect.ts. It takes the `host` header
 * of an API Gateway event, reads the `location` attribute of that host's item
 * through the DynamoDB document client, and answers 400, 404, 500 or a 301
 * redirect.
 */
module LiveHandler {
  import opened Common

  /** A value as the DynamoDB document client unmarshals it into JavaScript. */
  datatype DocValue =
    | Str(s: string)
    | Num(n: int)
    | Bool(b: bool)
    | Null
    | Composite  // a list, map, set or binary value: an object, always truthy

  /** JavaScript truthiness of an unmarshalled value: the falsy ones are "", 0, false and null. */
  predicate Truthy(v: DocValue)
    ensures Truthy(v) <==> v !in {Str(""), Num(0), Bool(false), Null}
  {
    match v
    case Str(s) => s != ""
    case Num(n) => n != 0
    case Bool(b) => b
    case Null => false
    case Composite => true
  }

  /** What `dynamodb.get` does: it throws, or resolves to a record whose `Item` may be absent. */
  datatype GetOutcome = Threw | Output(item: Option<map<string, DocValue>>)

  /** An `APIGatewayProxyResultV2`: a status code, and optionally a body and headers. */
  datatype Response = Response(statusCode: int, body: Option<string>, headers: Option<map<string, DocValue>>)

  const UnknownHost := Response(404, Some("No redirect location was found for the given host"), None)
  const BadRequest := Response(400, Some("The request was invalid"), None)
  const UnexpectedError := Response(500, Some("An unexpected error occurred"), None)

  /** `event.headers.host` is truthy: present and not the empty string. */
  predicate HostGiven(host: Option<string>)
  {
    host.Some? && host.value != ""
  }

  /** The one read the handler issues: the host as the key, only `location` projected. */
  function LookupRequest(table: string, host: string): ReadRequest
  {
    ReadRequest(table, host, Some(["location"]))
  }

  /** The item carries a truthy `location`. */
  predicate HasLocation(item: map<string, DocValue>)
  {
    "location" in item && Truthy(item["location"])
  }

  /** The body of the `try` block and its `catch`: the response for the outcome of the read. */
  function ReadResponse(outcome: GetOutcome): (r: Response)
    ensures r.statusCode in {301, 404, 500}
    ensures r.statusCode == 404 <==> outcome == Output(None)
    ensures r.statusCode == 500 <==> outcome.Threw? || (outcome.Output? && outcome.item.Some? && !HasLocation(outcome.item.value))
    ensures r.statusCode == 301 <==> outcome.Output? && outcome.item.Some? && HasLocation(outcome.item.value)
    ensures r.statusCode == 301 ==> r.body == None && r.headers == Some(map["Location" := outcome.item.value["location"]])
    ensures r.statusCode == 404 ==> r == UnknownHost
    ensures r.statusCode == 500 ==> r == UnexpectedError
  {
    match outcome
    case Threw => UnexpectedError
    case Output(None) => UnknownHost
    case Output(Some(item)) =>
      if !("location" in item && Truthy(item["location"])) then UnexpectedError
      else Response(301, None, Some(map["Location" := item["location"]]))
  }

  /**
   * `handler`: a missing or empty host is refused before any read; otherwise
   * exactly one read is issued, with the host verbatim as the key, and its
   * outcome decides the response.
   */
  method Handler(store: Store<GetOutcome>, table: string, host: Option<string>) returns (r: Response)
    modifies store
    ensures !HostGiven(host) ==> r == BadRequest && store.log == old(store.log)
    ensures HostGiven(host) ==>
      && store.log == old(store.log) + [LookupRequest(table, host.value)]
      && r == ReadResponse(store.answer(LookupRequest(table, host.value)))
  {
    if !HostGiven(host) {
      return BadRequest;
    }
    var outcome := store.Get(LookupRequest(table, host.value));
    r := ReadResponse(outcome);
  }

  /** The outcomes of a read split into three groups with distinct responses,
      and the 400 never follows a read. */
  lemma OutcomesDisjoint(outcome: GetOutcome)
    ensures ReadResponse(outcome) != BadRequest
    ensures ReadResponse(outcome) == UnknownHost <==> outcome == Output(None)
    ensures ReadResponse(outcome) == UnexpectedError <==>
      outcome.Threw? || (outcome.Output? && outcome.item.Some? && !HasLocation(outcome.item.value))
  {
  }
}
