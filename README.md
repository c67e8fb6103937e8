# Redirect resolver, modelled in Dafny

The service answers an HTTP request by looking up the request's `Host` in a
DynamoDB table keyed by host. It then answers with a 301 redirect to the
stored `location`, or with a 400, 404 or 500. The repository has three
independent handlers for this, and each is modelled as written:

- `LiveHandler` (lambda/redirect.ts) is the live handler. A missing or empty
  host gives 400 and no read. Otherwise there is one read with only
  `location` projected. No item gives 404. A falsy `location` or a thrown
  read gives 500. Anything else gives a 301 with a `Location` header.
- `PythonHandler` (lambda/redirect.py) is the older handler. It has the
  `Result` envelope class, whose subclasses `ErrorResult` and
  `RedirectResult` are modelled as named constructors. It also has
  `format_api_gateway`, the `query` classifier and the table-name default.
  Any item that lacks a non-empty string `location` gives 404. A
  `ClientError` gives 500. Any other exception escapes.
- `RustHandler` (lambda/src/main.rs) is the Rust handler. It has the error
  enum, `into_response`, `get_item_to_response` and the classifying part of
  `func`. `BadRequest` maps to 500. A failed store call becomes
  `HostNotFound`, so 404. A missing `location` attribute gives 404. A
  non-string one gives 500. A string, even the empty one, gives a 301,
  unless it holds a character the `http` crate refuses in a header value;
  then building the response fails and the handler panics.
- `Util` (lib/util.ts) is `titleCaseDomain`, which turns domain names into
  construct identifiers.
- `Comparison` states where the three handlers agree and where they differ.

The store read is the one effect. `Common.Store<O>` stands for it. What a
read returns is fixed by an abstract `answer` function, which covers the
table's contents and the service's health at read time. A ghost `log`
records every request issued. So each handler method states how many reads
it makes, and with which table, key and projection. None of them ever
retries.

Only the TypeScript handler treats both a failed read and a record without
`location` as server errors. The Python handler answers 404 for a missing
`location` and lets non-`ClientError` exceptions escape. The Rust handler
answers 404 for a failed read. The model follows each handler's code.

## Model

| member | source | states |
|---|---|---|
| `LiveHandler.ReadResponse` | lambda/redirect.ts:41-60 | no item is exactly the 404 `unknownHost`; a thrown read or an item without a truthy `location` is exactly the 500 `unexpectedError`; a truthy `location` is exactly a 301 with no body and headers `{Location: location}`; 400 is never produced after a read |
| `LiveHandler.Handler` | lambda/redirect.ts:29-61 | a missing or empty host gives `badRequest` with no store read; otherwise exactly one read, keyed by the host verbatim with only `location` projected, whose outcome decides the response |
| `LiveHandler.Truthy` | lambda/redirect.ts:43-50 | the falsy document values are exactly "", 0, false and null |
| `LiveHandler.OutcomesDisjoint` | lambda/redirect.ts:36-60 | the read-dependent responses never equal the 400; the 404 comes exactly from a missing item and the 500 exactly from a thrown read or an item without a truthy `location` |
| `PythonHandler.KeptBody` | lambda/redirect.py:15-18 | a body is kept exactly when it is truthy (not None, not ""), otherwise stored as None |
| `PythonHandler.KeptHeaders` | lambda/redirect.py:20-23 | absent headers become `{}`; given headers are stored with the same contents |
| `PythonHandler.KeptCookies` | lambda/redirect.py:24-27 | absent cookies become `[]`; given cookies are stored with the same contents |
| `PythonHandler.Result.constructor` | lambda/redirect.py:13-27 | status and base64 stored as given; body, headers and cookies normalised as above |
| `PythonHandler.Result.Error` | lambda/redirect.py:43-46 | `ErrorResult`: the given status, body the JSON encoding of `{"errorMessage": message}`, no headers, no cookies |
| `PythonHandler.Result.Redirect` | lambda/redirect.py:49-52 | `RedirectResult`: status 301, no body, headers exactly `{"Location": location}` |
| `PythonHandler.ApiGatewayFormat` | lambda/redirect.py:29-40 | the dictionary always has `statusCode` and `isBase64Encoded`, and has `body`, `headers`, `cookies` exactly when each is non-empty, with those values and no other keys |
| `PythonHandler.Result.FormatApiGateway` | lambda/redirect.py:29-40 | the dictionary built by conditional insertion equals `ApiGatewayFormat` of the object's fields |
| `PythonHandler.Destination` | lambda/redirect.py:63 | the item, `location` and `S` lookups give a destination exactly when all three exist and the string is non-empty, and it is that string |
| `PythonHandler.Classify` | lambda/redirect.py:58-66 | a `ClientError` gives 500 "Unable to query for redirect"; any other exception escapes; a usable destination gives a redirect to exactly that string; a missing item, `location` or `S`, or an empty string, gives 404 "No destination for " + host |
| `PythonHandler.Query` | lambda/redirect.py:55-66 | exactly one read of the whole item keyed by the host; a fresh envelope object matching `Classify`, or the exception |
| `PythonHandler.TableName` | lambda/redirect.py:72 | the table is `DYNAMODB_TABLE` when set, `"redirection"` otherwise |
| `PythonHandler.LambdaHandler` | lambda/redirect.py:69-76 | a missing `host` header raises with no read; otherwise one read against the configured table, and the formatted envelope of `query` or its exception |
| `PythonHandler.EnvelopeFormatShape` | lambda/redirect.py:43-52 | a redirect is formatted as status 301 and `headers` only; an error as its status and JSON `body` only |
| `RustHandler.IntoResponse` | lambda/src/main.rs:38-51 | 404 exactly for `HostNotFound`, 500 for every other variant including `BadRequest`; no headers; body the JSON object of the variant name and its display text |
| `RustHandler.RedirectGetError.Message` | lambda/src/main.rs:27-34 | each variant has its own display text: "host was not found", "location format is invalid", "request is invalid" |
| `RustHandler.RedirectGetError.TypeName` | lambda/src/main.rs:44 | the `{:#?}` rendering of each variant is its own name |
| `RustHandler.ErrorBodies` | lambda/src/main.rs:27-46 | the messages are "host was not found", "location format is invalid" and "request is invalid" |
| `RustHandler.GetItemToResponse` | lambda/src/main.rs:54-75 | no item or no `location` attribute is the `HostNotFound` 404; a non-string `location` is the `InvalidFormat` 500; a string `location`, even empty, is a 301 with header `Location` equal to it and an empty body when it is a valid header value, and a panic in `expect` otherwise |
| `RustHandler.HeaderToStr` | lambda/src/main.rs:86 | the header converts to text exactly when every byte is a tab or visible ASCII, and the text has the same characters |
| `RustHandler.SendResponse` | lambda/src/main.rs:100-102 | a failed store call becomes the `HostNotFound` 404; a successful one is classified by `get_item_to_response` |
| `RustHandler.Func` | lambda/src/main.rs:83-103 | a Host header that is not visible ASCII gives the `BadRequest` 500 with no read; otherwise exactly one read keyed by the header text, whose outcome decides the reply |
| `Util.UpperCase` | lib/util.ts:2 | the result is never a lower-case ASCII letter, any other character is unchanged, and it is a dot exactly when the input is |
| `Util.Capitalize` | lib/util.ts:2 | the map callback keeps the length and everything after the first character, leaves no lower-case letter first, keeps a dot-free label dot-free, and returns a capitalised label unchanged |
| `Util.TitleCaseLabels` | lib/util.ts:2 | the map-and-join returns exactly when no label is empty, and its result is as long as the labels together |
| `Util.TitleCaseDomain` | lib/util.ts:1-3 | `titleCaseDomain` returns exactly when the name is non-empty, has no leading or trailing dot and no two dots in a row (it throws otherwise); the result has no dot and its length is the input length minus the number of dots |
| `Util.Split` | lib/util.ts:2 | `split(".")` gives at least one label and no label contains a dot |
| `Util.JoinSplit` | lib/util.ts:2 | joining the labels with dots gives back the name |
| `Util.SplitJoin` | lib/util.ts:2 | splitting a dot-joined sequence of dot-free labels gives back the labels |
| `Util.SplitDotFree` | lib/util.ts:2 | a dot-free name is one label |
| `Util.SplitAfterLabel` | lib/util.ts:2 | a dot-free label followed by a dot splits off as the first label |
| `Util.LaterLabelsNonEmpty` | lib/util.ts:2 | the labels after the first are all non-empty exactly when every dot is followed by a non-dot character |
| `Util.DomainLabelsDefined` | lib/util.ts:2 | the labels of a name are all non-empty exactly when the name is non-empty, has no leading or trailing dot and no two dots in a row |
| `Util.TitleCaseLabelsShape` | lib/util.ts:2 | the map-and-join of dot-free labels has no dot, and its first character is not a lower-case letter |
| `Util.SplitLength` | lib/util.ts:2 | the labels together are as long as the name minus its dots |
| `Util.DomainLabelsShape` | lib/util.ts:2 | the map-and-join of a name's labels has no dot and its length is the name's length minus the number of dots |
| `Util.CapitalizedLabelUnchanged` | lib/util.ts:2 | a dot-free label whose first character is already upper-case is returned unchanged |
| `Util.TitleCaseDomainIdempotent` | lib/util.ts:2 | applying `titleCaseDomain` to its own result gives that result again |
| `Comparison.AgreeOnRedirect` | lambda/redirect.ts:51-56 | for every item whose `location` is a non-empty string, all three handlers give a 301 to exactly that location, except that Rust panics when it is not a valid header value |
| `Comparison.EmptyLocationDiffers` | lambda/redirect.ts:47-50 | for every item whose `location` is the empty string: a 500 in TypeScript, a 404 in Python and a 301 to "" in Rust |
| `Comparison.MissingLocationDiffers` | lambda/redirect.ts:47-50 | for every item without `location`: a 500 in TypeScript and a 404 in Python and Rust |
| `Comparison.FailedReadDiffers` | lambda/redirect.ts:57-60 | a failed read is a 500 in TypeScript, a 500 for a Python `ClientError` (other exceptions escape) and a 404 in Rust |
| `Comparison.EmptyHostDiffers` | lambda/redirect.ts:35-39 | an empty Host is the 400 with no read in TypeScript, but Rust accepts it and reads the item with the empty key |
| `Common.Store.Get` | lambda/redirect.ts:42 | a point read records its request (table, key, projection) and returns the store's answer to it |

## Left out

- The AWS SDK clients are not modelled (boto3, the document client and the Rust SDK). The abstract `Store` stands in for them. Whether DynamoDB returns an empty `Item` or none at all when the projection matches nothing is decided by the store's `answer`.
- The JSON encoders (`json.dumps`, `serde_json`) are not modelled. A body is a symbolic `JsonObject` of key/value pairs, so escaping and byte layout are not captured.
- Logging, tracing, the cold-start message and the Rust `println!` have no effect on the response and are left out.
- The async runtime and the Lambda bootstrap in `main` are left out.
- Reading `REDIRECT_TABLE` is configuration and becomes a table parameter. The Rust `unwrap` on it, which panics when the variable is unset, is not modelled. Nor is the TypeScript non-null assertion.
- `RustHandler.GetItemToResponse`: which characters a header value may hold follows the `http` crate's check (a tab, or anything from space upwards except DEL), which is not part of this model; the crate's source is not among the files modelled.
- The Rust handler needs a `Host` header (`unwrap` panics without one), so that is a precondition of `RustHandler.Func`. Headers are keyed by lower-case name, because the HTTP header map looks names up case-insensitively.
- `Util.UpperCase`: only ASCII `a`–`z` are upper-cased. Other characters are left unchanged, whereas JavaScript's `toUpperCase` also maps other scripts and can lengthen a character (`ß` becomes `SS`). The length and idempotence lemmas therefore speak for ASCII input.
- `LiveHandler.Truthy`: numbers are integers, so floating point (`NaN`, `-0`) is not captured.
- `PythonHandler.Result.constructor`: the body is a string or a JSON text, not an arbitrary Python object. Copying headers and cookies is implicit, because Dafny maps and sequences are values. The Python subclass types are not kept; `ErrorResult` and `RedirectResult` become named constructors of `Result`.
- The AWS CDK provisioning is not part of this model: certificates, DNS, API mappings, code signing and assets (lib/redirection-stack.ts, redirect/redirect_stack.py, app.py, bin/redirection.ts, lib/rust-lambda.ts). `domain_to_resource` relies on Python's `str.title` and is not modelled either.
