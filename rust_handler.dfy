/**
 * The Rust redirect handler of lambda/src/main.rs: an error enum whose
 * variants map onto HTTP responses, the classification of a `GetItemOutput`,
 * and the part of `func` that reads the `Host` header and turns a failed
 * store call into a response.
 */
module RustHandler {
  import opened Common

  type Byte = b: int | 0 <= b < 256

  datatype RedirectGetError = HostNotFound | InvalidFormat | BadRequest
  {
    /** The `#[error(...)]` display text: one text per variant. */
    function Message(): (text: string)
      ensures text == "host was not found" <==> this.HostNotFound?
      ensures text == "location format is invalid" <==> this.InvalidFormat?
      ensures text == "request is invalid" <==> this.BadRequest?
    {
      match this
      case HostNotFound => "host was not found"
      case InvalidFormat => "location format is invalid"
      case BadRequest => "request is invalid"
    }

    /** `format!("{:#?}", self)`: the variant's name. */
    function TypeName(): (name: string)
      ensures name == "HostNotFound" <==> this.HostNotFound?
      ensures name == "InvalidFormat" <==> this.InvalidFormat?
      ensures name == "BadRequest" <==> this.BadRequest?
    {
      match this
      case HostNotFound => "HostNotFound"
      case InvalidFormat => "InvalidFormat"
      case BadRequest => "BadRequest"
    }
  }

  /** A `lambda_http::Body`: empty, or the text `serde_json` produces for an object. */
  datatype Body = Empty | Json(obj: JsonObject)

  datatype Response = Response(status: int, headers: map<string, string>, body: Body)

  /** The object `RedirectGetErrorResponse` serialises to, in field order. */
  function ErrorBody(e: RedirectGetError): JsonObject
  {
    JsonObject([("type", e.TypeName()), ("message", e.Message())])
  }

  /** `into_response`: only `HostNotFound` is a 404; every other variant,
      `BadRequest` included, is a 500. */
  function IntoResponse(e: RedirectGetError): (r: Response)
    ensures r.status == 404 <==> e == HostNotFound
    ensures r.status == 500 <==> e != HostNotFound
    ensures r.headers == map[] && r.body == Json(ErrorBody(e))
  {
    var status := match e
      case HostNotFound => 404
      case _ => 500;
    Response(status, map[], Json(ErrorBody(e)))
  }

  /** The three error bodies: the variant name as `type`, its display text as `message`. */
  lemma ErrorBodies()
    ensures IntoResponse(HostNotFound).body == Json(JsonObject([("type", "HostNotFound"), ("message", "host was not found")]))
    ensures IntoResponse(InvalidFormat).body == Json(JsonObject([("type", "InvalidFormat"), ("message", "location format is invalid")]))
    ensures IntoResponse(BadRequest).body == Json(JsonObject([("type", "BadRequest"), ("message", "request is invalid")]))
  {
  }

  /** What the handler does with a request: answer it, or panic in an `expect`. */
  datatype Reply = Responded(response: Response) | Panicked

  /** A character the `http` crate accepts in a header value: a tab, or any
      character from space upwards except DEL. */
  predicate HeaderChar(c: char)
  {
    c == '\t' || (32 <= c as int && c as int != 127)
  }

  predicate ValidHeaderValue(s: string)
  {
    forall i :: 0 <= i < |s| ==> HeaderChar(s[i])
  }

  /** The item has a `location` attribute of string type. */
  predicate StringLocation(item: Option<map<string, Attr>>)
  {
    item.Some? && "location" in item.value && item.value["location"].S?
  }

  /**
   * `get_item_to_response` on the `item` of a `GetItemOutput`. Building the
   * 301 with `.header("Location", location)` fails for a location the `http`
   * crate refuses as a header value, and `.expect` then panics.
   */
  function GetItemToResponse(item: Option<map<string, Attr>>): (r: Reply)
    ensures r == Responded(IntoResponse(HostNotFound)) <==> item.None? || "location" !in item.value
    ensures r == Responded(IntoResponse(InvalidFormat)) <==> item.Some? && "location" in item.value && item.value["location"].NonString?
    ensures r.Panicked? <==> StringLocation(item) && !ValidHeaderValue(item.value["location"].s)
    ensures r.Responded? && r.response.status == 301 <==> StringLocation(item) && ValidHeaderValue(item.value["location"].s)
    ensures r.Responded? && r.response.status == 301 ==>
      r.response.headers == map["Location" := item.value["location"].s] && r.response.body == Empty
    ensures r.Responded? ==> r.response.status in {301, 404, 500}
  {
    if item.None? then Responded(IntoResponse(HostNotFound))
    else if "location" !in item.value then Responded(IntoResponse(HostNotFound))
    else match item.value["location"]
      case S(location) =>
        if ValidHeaderValue(location) then Responded(Response(301, map["Location" := location], Empty))
        else Panicked
      case NonString => Responded(IntoResponse(InvalidFormat))
  }

  /** A byte `HeaderValue::to_str` accepts: a tab or a visible ASCII character. */
  predicate VisibleAscii(b: Byte)
  {
    b == 9 || 32 <= b < 127
  }

  /** `HeaderValue::to_str`: the header as text when every byte is visible ASCII. */
  function HeaderToStr(bytes: seq<Byte>): (r: Option<string>)
    ensures r.Some? <==> forall i :: 0 <= i < |bytes| ==> VisibleAscii(bytes[i])
    ensures r.Some? ==> |r.value| == |bytes| && forall i :: 0 <= i < |bytes| ==> r.value[i] as int == bytes[i]
  {
    if bytes == [] then Some([])
    else if !VisibleAscii(bytes[0]) then None
    else match HeaderToStr(bytes[1..])
      case None => None
      case Some(rest) => Some([bytes[0] as char] + rest)
  }

  /** What `send()` on the `get_item` request resolves to. */
  datatype GetOutcome = SdkError | Output(item: Option<map<string, Attr>>)

  /** `.map(get_item_to_response).map_err(|_| HostNotFound).or_else(...)`:
      a failed call is reported as an unknown host. */
  function SendResponse(outcome: GetOutcome): (r: Reply)
    ensures outcome.SdkError? ==> r == Responded(IntoResponse(HostNotFound)) && r.response.status == 404
    ensures outcome.Output? ==> r == GetItemToResponse(outcome.item)
  {
    match outcome
    case SdkError => Responded(IntoResponse(HostNotFound))
    case Output(item) => GetItemToResponse(item)
  }

  /** The `get_item` request `func` sends: the whole item, keyed by the host. */
  function ItemRequest(table: string, host: string): ReadRequest
  {
    ReadRequest(table, host, None)
  }

  /**
   * `func`: the `Host` header must be present (`unwrap` panics otherwise).
   * Header names are kept lower-case, as the HTTP header map stores them. A
   * header that is not visible ASCII is a `BadRequest`, with no read;
   * otherwise one read with the header text as the key, and every outcome of
   * that read is answered, except a location that cannot be a header value.
   */
  method Func(store: Store<GetOutcome>, table: string, headers: map<string, seq<Byte>>) returns (r: Reply)
    requires "host" in headers
    modifies store
    ensures HeaderToStr(headers["host"]).None? ==> r == Responded(IntoResponse(BadRequest)) && store.log == old(store.log)
    ensures HeaderToStr(headers["host"]).Some? ==>
      var host := HeaderToStr(headers["host"]).value;
      && store.log == old(store.log) + [ItemRequest(table, host)]
      && r == SendResponse(store.answer(ItemRequest(table, host)))
  {
    var hostHeader := HeaderToStr(headers["host"]);
    if hostHeader.None? {
      return Responded(IntoResponse(BadRequest));
    }
    var host := hostHeader.value;
    var outcome := store.Get(ItemRequest(table, host));
    r := SendResponse(outcome);
  }
}
