# GraphQL client over HTTP — a Dafny model

This project models the decision logic of a small Go GraphQL client
(`graphql_client.go`, `graphql_request.go`, `graphql_error.go`): the request
builder, the guards and dispatch of `Client.Run`, and what the JSON path
(`runWithJSON`) and the multipart path (`runWithPostFields`) return once
every I/O result is known. It also covers the order of the multipart parts,
the assembly of the outgoing headers (`addHTTPHeaders`), the construction
options of `NewClient`, and the `GraphErr` error value.

Every call into `context`, `encoding/json`, `mime/multipart`, `net/http` and
`io` is turned into an input. The `Environment` record holds:

- whether the context is done, and its error;
- whether JSON encoding fails;
- which multipart writer calls fail;
- the multipart boundary;
- whether `http.NewRequest` fails;
- what `Do` returns: a transport error, or a status code, a body-read failure
  and a decode result.

With those inputs, `Run` is a pure function. It returns the outcome and the
request it handed to the transport, or `None` when it never got that far.

Modules, one per concern:

- `Wrappers` — `Option` and `Result`.
- `Errors` — library errors as their message, and `errors.Wrap`'s
  "note: message" form.
- `Json` — the values an `interface{}` holds after JSON decoding.
- `Decimal` — `%v` of an `int`, and parsing it back.
- `HttpHeader` — `Header.Set`, `Header.Add`, and the per-key merge done by
  the `addHTTPHeaders` loop.
- `GraphqlError` — `GraphErr`, `Error()` and `Extensions()`.
- `GraphqlRequest` — `NewGraphqlRequest`, `Var`, `Vars`, `File`, `Files` and
  `Query`, plus a replay of any sequence of builder calls.
- `Multipart` — the parts and the writer calls of `runWithPostFields`.
- `GraphqlClient` — `NewClient` and its options, `Run`, `runWithJSON`,
  `runWithPostFields`, `addHTTPHeaders`, and the error kinds with their texts.

The accessors `Vars`, `Files` and `Query` return the stored field. A nil
variable map is `None`, and `EffectiveVars` reads it as empty, as Go code
does. The contracts of `NewGraphqlRequest`, `Var` and `File` are stated
through these accessors.

Two behaviours of the code are easy to miss, and the model keeps both:

- Multipart mode returns a non-200 response whose body decodes as a
  success, and reports the status only when decoding fails. JSON mode
  checks the status first. `ReceivePostFields` states exactly where the two
  modes differ.
- A response decoded with status 200 is returned with no error even when its
  `Errors` list is not empty.

## Model

| member | source | states |
|---|---|---|
| `GraphqlError.Error` | graphql_error.go:19-21 | the text is "graphql: " followed by exactly the message |
| `GraphqlError.ErrorRoundTrip` | graphql_error.go:20 | stripping the prefix from the text gives back the message |
| `GraphqlError.ErrorDependsOnlyOnMessage` | graphql_error.go:19-21 | two errors have the same text if and only if they have the same message, whatever their extensions, locations and path |
| `GraphqlError.Extensions` | graphql_error.go:16-18 | returns the stored extensions unchanged, so a nil map stays nil |
| `GraphqlRequest.NewGraphqlRequest` | graphql_request.go:18-24 | the new request has the given query, a nil variable map (read as empty), no files and an empty header |
| `GraphqlRequest.Var` | graphql_request.go:27-32 | afterwards the map exists and `key` maps to `value`; every other key keeps its value; the keys grow by `key` alone; query, files and header are unchanged |
| `GraphqlRequest.VarLastWriteWins` | graphql_request.go:31 | writing a key twice gives the same request as writing only the second value |
| `GraphqlRequest.File` | graphql_request.go:52-58 | the file list grows by one; earlier entries are unchanged; the new entry is last with the given field, name and content; query, variables and header are unchanged |
| `GraphqlRequest.ReplayEffect` | graphql_request.go:27-58 | for any sequence of `Var`/`File` calls: query and header never change; files are the old ones followed by the new ones in call order; each variable holds its last write, or its old value if never written; the map is nil if and only if it was nil and no `Var` was called |
| `GraphqlRequest.BuildFromNew` | graphql_request.go:18-58 | a request built from scratch keeps its query, holds its attachments in call order, holds per key exactly the last value written, and has no variable map until the first `Var` |
| `HttpHeader.Set` | graphql_client.go:212-213 | the key's values become exactly the one given value; other keys are untouched |
| `HttpHeader.Add` | graphql_client.go:216 | the value is appended after the key's existing values; other keys are untouched |
| `HttpHeader.MergeValues` | graphql_client.go:214-218 | after adding a whole header, each key holds the base values followed by the added values, and no value is replaced |
| `HttpHeader.AddValues` | graphql_client.go:215-217 | adding a key's values one at a time appends them in order; with no values, nothing changes |
| `HttpHeader.AddAll` | graphql_client.go:214-218 | whatever order the loop visits the caller's keys in, the result is the order-free merge |
| `GraphqlClient.OutgoingHeader` | graphql_client.go:211-219 | Content-Type holds the encoder's type followed by the caller's values; Accept holds "application/json; charset=utf-8" followed by the caller's values; every other key holds exactly the caller's values in order |
| `GraphqlClient.AddHTTPHeaders` | graphql_client.go:211-219 | Set, Set, then the Add loop yields the outgoing header, with the client-owned values first under their keys |
| `GraphqlClient.ApplyOptions` | graphql_client.go:46-48 | applying options never changes the URL; multipart mode ends up on if and only if it was already on or `UseMultipartForm` is among the options; the same holds for immediate close and `ImmediatelyCloseReqBody` |
| `GraphqlClient.NewClient` | graphql_client.go:41-54 | the client keeps the URL and always ends up with a transport |
| `GraphqlClient.NewClientConfiguration` | graphql_client.go:41-100 | multipart mode is on if and only if `UseMultipartForm` was given; immediate close is on if and only if `ImmediatelyCloseReqBody` was given; the transport is the one the last `WithHTTPClient` set, or the default when none was set or the last one was nil |
| `GraphqlClient.StatusMessageRoundTrip` | graphql_client.go:56 | the non-200 error text is the fixed prefix followed by the decimal code, and the code can be read back from it |
| `GraphqlClient.MessagesOfPassedThroughErrors` | graphql_client.go:133-147 | transport and request-building errors keep their text unchanged; read and decode failures are wrapped as "reading body: …" and "decoding response: …" |
| `GraphqlClient.JsonDocument` | graphql_client.go:113-117 | the JSON body has exactly the keys "query" and "variables"; the query is the request's query; the variables are null if and only if no variable was ever set, and otherwise the whole variable map |
| `GraphqlClient.ReceiveJSON` | graphql_client.go:133-149 | a transport error is returned unchanged, then a read error is wrapped; any non-200 status gives the status error with that code whatever the body; at 200, a decode failure is wrapped and a decoded response is returned even if it lists errors |
| `GraphqlClient.ReceivePostFields` | graphql_client.go:192-208 | transport and read errors as in JSON mode; a decoded body is returned as success at any status; a decode failure gives the status error when the status is not 200 and the decode error otherwise; it differs from JSON mode if and only if the status is not 200 and the body decodes |
| `GraphqlClient.RunWithJSON` | graphql_client.go:111-150 | an encode failure is wrapped as "encode body" and nothing is sent; otherwise a `http.NewRequest` failure is returned unchanged and nothing is sent; a request is sent if and only if encoding and request building succeed; what is sent is a POST to the client URL with the outgoing header, the JSON document and the close flag; the outcome is `ReceiveJSON` of the transport's answer |
| `GraphqlClient.RunWithPostFields` | graphql_client.go:152-209 | the first failing writer call is reported with its own wrap text and nothing is sent; after a successful encoding, a `http.NewRequest` failure is returned unchanged and nothing is sent; otherwise a POST carrying the multipart parts and the boundary content type is sent, and the outcome is `ReceivePostFields` of the answer |
| `GraphqlClient.Run` | graphql_client.go:58-71 | a done context returns the context's error with no send, even when files are attached; files without multipart mode fail with "cannot send files with PostFields option" and no send; on a live context multipart mode always takes the multipart path, even with zero files, and JSON mode without files takes the JSON path; after a send the outcome is the multipart receive logic in multipart mode and the JSON receive logic otherwise; a run that sends nothing never reports a transport, read, status or decode error |
| `GraphqlClient.JsonBodyOfBuiltRequest` | graphql_client.go:111-124 | a request built without files and run in JSON mode sends its query, and per variable the value of the last `Var`; the variables are null if and only if `Var` was never called |
| `GraphqlClient.FilesNeedMultipart` | graphql_client.go:64-66 | a request with any attached file, run without multipart mode on a live context, fails with the mismatch error and sends nothing |
| `Multipart.FirstFault` | graphql_client.go:155-179 | the reported step fails and no step before it fails; no step is reported only when none fails |
| `Multipart.Encode` | graphql_client.go:152-179 | encoding succeeds if and only if no writer call fails, and then yields all the parts; on failure, the first failing step of the writer's call sequence and its library error are reported |
| `Multipart.PartOrder` | graphql_client.go:155-176 | the query field comes first; the variables field is second exactly when the variable map is non-empty; then comes one file part per attachment, in attachment order |
| `Multipart.FilePartsIndex` | graphql_client.go:168-176 | the i-th file part carries the i-th attachment's field, name and content |
| `Multipart.Write` | graphql_client.go:152-179 | the writer calls, made in order and stopping at the first error, give the same result as `Encode` |

## Left out

- Logging (`Log`, `logf`) and the `fmt` formatting of its lines. They have no effect on control flow.
- `res.Body.Close` and the effect of `closeReq`. The flag is only copied into the sent request's `close` field.
- Cancellation during sending or reading, and the context's channel semantics. A done context is an input, read once at the start of `Run`.
- The bytes of the JSON and multipart encodings, the boundary's generation and quoting, and JSON decoding. Their results are inputs. Only the fields and parts emitted, and their order, are modelled.
- Streaming of attachment contents through `io.Reader`. An attachment holds the bytes its reader yields, and a failed copy is the `PrepareFile` fault.
- Decoding the JSON literal `null` into the response pointer, which makes Go return a nil response with a nil error. The decode result is an input that always carries a response.
- `GraphqlError.Error`: models only string messages. A non-string `Message` is printed by `%v`, which is foreign formatting.
- `http.Header` key canonicalisation. Keys are compared as given.
- The random iteration order across keys in `addHTTPHeaders` is not fixed. `HttpHeader.AddAll` proves that every order gives the same header, for keys that are distinct as given. With canonicalisation, two caller keys such as "x-a" and "X-A" would share one key, and their values would be appended in map-iteration order.
- `http.DefaultClient` and caller transports are opaque tokens.
- JSON numbers are modelled as integers. They only appear as stored values.
