/**
 * The three handlers side by side. They agree on the ordinary redirect and
 * disagree on the edge cases: an empty `location`, an item without one, a
 * failed read and an empty host. The Python and Rust reads fetch the whole
 * item, so the statements hold for every item, whatever other attributes it
 * carries.
 */
module Comparison {
  import opened Common
  import LiveHandler
  import PythonHandler
  import RustHandler

  /** A non-empty string `location` is a 301 to exactly that location in all
      three; Rust panics instead when the location cannot be a header value. */
  lemma AgreeOnRedirect(host: string, liveItem: map<string, LiveHandler.DocValue>, item: map<string, Attr>, loc: string)
    requires loc != ""
    requires "location" in liveItem && liveItem["location"] == LiveHandler.Str(loc)
    requires "location" in item && item["location"] == S(loc)
    ensures LiveHandler.ReadResponse(LiveHandler.Output(Some(liveItem)))
         == LiveHandler.Response(301, None, Some(map["Location" := LiveHandler.Str(loc)]))
    ensures PythonHandler.Classify(host, PythonHandler.Output(Some(item)))
         == PythonHandler.Returned(PythonHandler.RedirectEnvelope(loc))
    ensures RustHandler.ValidHeaderValue(loc) ==>
      RustHandler.GetItemToResponse(Some(item)) == RustHandler.Responded(RustHandler.Response(301, map["Location" := loc], RustHandler.Empty))
    ensures !RustHandler.ValidHeaderValue(loc) ==> RustHandler.GetItemToResponse(Some(item)) == RustHandler.Panicked
  {
  }

  /** An empty string `location`: 500 in TypeScript, 404 in Python, a 301 to "" in Rust. */
  lemma EmptyLocationDiffers(host: string, liveItem: map<string, LiveHandler.DocValue>, item: map<string, Attr>)
    requires "location" in liveItem && liveItem["location"] == LiveHandler.Str("")
    requires "location" in item && item["location"] == S("")
    ensures LiveHandler.ReadResponse(LiveHandler.Output(Some(liveItem))) == LiveHandler.UnexpectedError
    ensures PythonHandler.Classify(host, PythonHandler.Output(Some(item)))
         == PythonHandler.Returned(PythonHandler.ErrorEnvelope(404, "No destination for " + host))
    ensures RustHandler.GetItemToResponse(Some(item))
         == RustHandler.Responded(RustHandler.Response(301, map["Location" := ""], RustHandler.Empty))
  {
  }

  /** An item without a `location` attribute: 500 in TypeScript, 404 in Python and Rust. */
  lemma MissingLocationDiffers(host: string, liveItem: map<string, LiveHandler.DocValue>, item: map<string, Attr>)
    requires "location" !in liveItem && "location" !in item
    ensures LiveHandler.ReadResponse(LiveHandler.Output(Some(liveItem))) == LiveHandler.UnexpectedError
    ensures PythonHandler.Classify(host, PythonHandler.Output(Some(item)))
         == PythonHandler.Returned(PythonHandler.ErrorEnvelope(404, "No destination for " + host))
    ensures RustHandler.GetItemToResponse(Some(item)) == RustHandler.Responded(RustHandler.IntoResponse(RustHandler.HostNotFound))
  {
  }

  /** A failed read: 500 in TypeScript, 500 for a Python `ClientError` (any other
      exception escapes), 404 in Rust. */
  lemma FailedReadDiffers(host: string)
    ensures LiveHandler.ReadResponse(LiveHandler.Threw) == LiveHandler.UnexpectedError
    ensures PythonHandler.Classify(host, PythonHandler.ClientError).value.status == 500
    ensures PythonHandler.Classify(host, PythonHandler.OtherError) == PythonHandler.Raised
    ensures RustHandler.SendResponse(RustHandler.SdkError).response.status == 404
  {
  }

  /**
   * An empty Host header: the TypeScript handler refuses it with the 400 and
   * reads nothing, while the Rust handler accepts it (every byte of the empty
   * header is visible ASCII) and reads the item with the empty key.
   */
  method EmptyHostDiffers(liveStore: Store<LiveHandler.GetOutcome>, rustStore: Store<RustHandler.GetOutcome>, table: string)
    returns (live: LiveHandler.Response, rust: RustHandler.Reply)
    modifies liveStore, rustStore
    ensures live == LiveHandler.BadRequest && live.statusCode == 400
    ensures liveStore.log == old(liveStore.log)
    ensures rustStore.log == old(rustStore.log) + [RustHandler.ItemRequest(table, "")]
    ensures rust == RustHandler.SendResponse(rustStore.answer(RustHandler.ItemRequest(table, "")))
  {
    live := LiveHandler.Handler(liveStore, table, Some(""));
    rust := RustHandler.Func(rustStore, table, map["host" := []]);
  }
}
