/** The GraphQL client: construction options, the guards and dispatch of
    `Run`, the outcome of the JSON and multipart paths once the I/O results
    are known, and the assembly of the outgoing headers. Every result of a
    call into net/http, encoding/json, mime/multipart, io or context is an
    input (`Environment`), so `Run` is a pure function. */
module GraphqlClient {
  import opened Wrappers
  import Json
  import Errors
  import Decimal
  import HttpHeader
  import GraphqlError
  import opened GraphqlRequest
  import Multipart

  const JsonContentType: string := "application/json; charset=utf-8"
  const AcceptValue: string := "application/json; charset=utf-8"
  const FormDataPrefix: string := "multipart/form-data; boundary="
  const StatusPrefix: string := "graphql: server returned a non-200 status code: "
  const MismatchMessage: string := "cannot send files with PostFields option"
  const StatusOK: int := 200

  // ----- Construction -----

  /** The transport: the library default or one supplied by the caller. */
  datatype HttpDoer = DefaultClient | Doer(id: nat)

  datatype ClientOption =
    | WithHTTPClient(httpClient: Option<HttpDoer>)
    | UseMultipartForm
    | ImmediatelyCloseReqBody

  /** `httpClient` is `None` while Go's field is nil. */
  datatype Client = Client(
    url: string,
    httpClient: Option<HttpDoer>,
    useMultipartForm: bool,
    closeReq: bool)

  function ApplyOption(c: Client, opt: ClientOption): Client
  {
    match opt
    case WithHTTPClient(h) => c.(httpClient := h)
    case UseMultipartForm => c.(useMultipartForm := true)
    case ImmediatelyCloseReqBody => c.(closeReq := true)
  }

  /** The options applied first to last. */
  function ApplyOptions(c: Client, opts: seq<ClientOption>): (r: Client)
    ensures r.url == c.url
    ensures r.useMultipartForm <==> c.useMultipartForm || UseMultipartForm in opts
    ensures r.closeReq <==> c.closeReq || ImmediatelyCloseReqBody in opts
    decreases |opts|
  {
    if |opts| == 0 then c else ApplyOption(ApplyOptions(c, opts[..|opts| - 1]), opts[|opts| - 1])
  }

  /** `NewClient`: options over a client with only the URL set, then the
      default transport when none was given. */
  function NewClient(url: string, opts: seq<ClientOption>): (c: Client)
    ensures c.url == url
    ensures c.httpClient.Some?
  {
    var configured := ApplyOptions(Client(url, None, false, false), opts);
    if configured.httpClient.None? then configured.(httpClient := Some(DefaultClient)) else configured
  }

  /** The transport the options select: the last `WithHTTPClient` decides,
      and a nil one (or none at all) means the default. */
  function ChosenHttpClient(opts: seq<ClientOption>): HttpDoer
    decreases |opts|
  {
    if |opts| == 0 then DefaultClient
    else
      match opts[|opts| - 1]
      case WithHTTPClient(Some(d)) => d
      case WithHTTPClient(None) => DefaultClient
      case _ => ChosenHttpClient(opts[..|opts| - 1])
  }

  /** After the options, the transport field, with nil read as the default,
      is the one `ChosenHttpClient` selects. */
  lemma {:induction false} ConfiguredTransport(url: string, opts: seq<ClientOption>)
    ensures var c := ApplyOptions(Client(url, None, false, false), opts);
      (if c.httpClient.None? then DefaultClient else c.httpClient.value) == ChosenHttpClient(opts)
    decreases |opts|
  {
    if 0 < |opts| {
      var prefix := opts[..|opts| - 1];
      assert opts == prefix + [opts[|opts| - 1]];
      ConfiguredTransport(url, prefix);
    }
  }

  /** Multipart mode and immediate close are on exactly when their option was
      given; the transport is the one the last `WithHTTPClient` chose, or the
      default. */
  lemma {:induction false} NewClientConfiguration(url: string, opts: seq<ClientOption>)
    ensures NewClient(url, opts).httpClient == Some(ChosenHttpClient(opts))
    ensures NewClient(url, opts).useMultipartForm <==> UseMultipartForm in opts
    ensures NewClient(url, opts).closeReq <==> ImmediatelyCloseReqBody in opts
  {
    ConfiguredTransport(url, opts);
  }

  // ----- Responses, errors and the inputs of Run -----

  /** `GraphResponse`: the decoded data and the server's error list. */
  datatype GraphResponse = GraphResponse(data: Json.Value, errors: seq<GraphqlError.GraphErr>)

  /** What the transport hands back: the status code, whether copying the
      body failed, and what decoding the copied body into a GraphResponse
      yields. */
  datatype HttpResponse = HttpResponse(
    statusCode: int,
    readFault: Option<Errors.Cause>,
    decoded: Result<GraphResponse, Errors.Cause>)

  /** The results of every external call `Run` makes. */
  datatype Environment = Environment(
    contextErr: Option<Errors.Cause>,                  // Some(e): ctx.Done() closed, ctx.Err() == e
    jsonEncodeFault: Option<Errors.Cause>,             // encoding the JSON body
    writerFaults: map<Multipart.Step, Errors.Cause>,   // multipart writer calls that fail
    boundary: string,                                  // the multipart writer's boundary
    newRequestFault: Option<Errors.Cause>,             // http.NewRequest
    transport: Result<HttpResponse, Errors.Cause>)     // httpClient.Do

  datatype Body =
    | JsonBody(document: Json.Value)
    | MultipartBody(boundary: string, parts: seq<Multipart.Part>)

  /** The request handed to the transport. */
  datatype HttpRequest = HttpRequest(
    verb: string,
    url: string,
    header: HttpHeader.Header,
    body: Body,
    close: bool)

  /** The error kinds `Run` returns. */
  datatype RunError =
    | ContextDone(cause: Errors.Cause)
    | FilesWithoutMultipart
    | EncodeFailed(note: string, cause: Errors.Cause)
    | NewRequestFailed(cause: Errors.Cause)
    | TransportFailed(cause: Errors.Cause)
    | ReadFailed(cause: Errors.Cause)
    | StatusNotOK(code: int)
    | DecodeFailed(cause: Errors.Cause)

  /** The text of each error kind. */
  function Message(e: RunError): string
  {
    match e
    case ContextDone(c) => c.message
    case FilesWithoutMultipart => MismatchMessage
    case EncodeFailed(note, c) => Errors.Wrap(note, c)
    case NewRequestFailed(c) => c.message
    case TransportFailed(c) => c.message
    case ReadFailed(c) => Errors.Wrap("reading body", c)
    case StatusNotOK(code) => StatusPrefix + Decimal.IntToString(code)
    case DecodeFailed(c) => Errors.Wrap("decoding response", c)
  }

  /** Reads the status code back out of a non-200 error text. */
  function StatusCodeOf(msg: string): Option<int>
  {
    if |StatusPrefix| <= |msg| && msg[..|StatusPrefix|] == StatusPrefix
    then Decimal.ParseInt(msg[|StatusPrefix|..])
    else None
  }

  /** The non-200 error text carries the status code, recoverably. */
  lemma StatusMessageRoundTrip(code: int)
    ensures StatusCodeOf(Message(StatusNotOK(code))) == Some(code)
  {
    var msg := Message(StatusNotOK(code));
    assert msg[..|StatusPrefix|] == StatusPrefix;
    assert msg[|StatusPrefix|..] == Decimal.IntToString(code);
    Decimal.IntToStringRoundTrip(code);
  }

  /** Errors from the context, the transport and http.NewRequest are returned
      unchanged; a failed body read and a failed decode keep the library's
      text behind their own words. */
  lemma MessagesOfPassedThroughErrors(c: Errors.Cause)
    ensures Message(ContextDone(c)) == c.message
    ensures Message(TransportFailed(c)) == c.message
    ensures Message(NewRequestFailed(c)) == c.message
    ensures Message(ReadFailed(c)) == "reading body: " + c.message
    ensures Message(DecodeFailed(c)) == "decoding response: " + c.message
  {
  }

  /** The outcome of `Run` and the request it handed to the transport, if
      it got that far. */
  datatype RunResult = RunResult(response: Result<GraphResponse, RunError>, sent: Option<HttpRequest>)

  // ----- Headers -----

  /** The header of a fresh request after the two `Set` calls. */
  function ClientHeader(contentType: string): HttpHeader.Header
  {
    HttpHeader.Set(HttpHeader.Set(map[], "Content-Type", contentType), "Accept", AcceptValue)
  }

  /** The outgoing header: the client's Content-Type and Accept, then every
      caller value Added after them. */
  function OutgoingHeader(contentType: string, callerHeader: HttpHeader.Header): (h: HttpHeader.Header)
    ensures HttpHeader.Values(h, "Content-Type") == [contentType] + HttpHeader.Values(callerHeader, "Content-Type")
    ensures HttpHeader.Values(h, "Accept") == [AcceptValue] + HttpHeader.Values(callerHeader, "Accept")
    ensures forall k :: k != "Content-Type" && k != "Accept" ==>
              HttpHeader.Values(h, k) == HttpHeader.Values(callerHeader, k)
  {
    var base := ClientHeader(contentType);
    HttpHeader.MergeValues(base, callerHeader, "Content-Type");
    HttpHeader.MergeValues(base, callerHeader, "Accept");
    forall k | k != "Content-Type" && k != "Accept"
      ensures HttpHeader.Values(HttpHeader.Merge(base, callerHeader), k) == HttpHeader.Values(callerHeader, k)
    {
      HttpHeader.MergeValues(base, callerHeader, k);
    }
    HttpHeader.Merge(base, callerHeader)
  }

  /** `addHTTPHeaders` on a fresh request. */
  method AddHTTPHeaders(callerHeader: HttpHeader.Header, contentType: string) returns (h: HttpHeader.Header)
    ensures h == OutgoingHeader(contentType, callerHeader)
    ensures HttpHeader.Values(h, "Content-Type")[0] == contentType
    ensures HttpHeader.Values(h, "Accept")[0] == AcceptValue
  {
    h := map[];
    h := HttpHeader.Set(h, "Content-Type", contentType);
    h := HttpHeader.Set(h, "Accept", AcceptValue);
    h := HttpHeader.AddAll(h, callerHeader);
  }

  // ----- Run -----

  /** The JSON body: `{"query": ..., "variables": ...}`, a nil variable map
      encoding as null. */
  function JsonDocument(req: GraphRequest): (doc: Json.Value)
    ensures doc.Object? && doc.fields.Keys == {"query", "variables"}
    ensures doc.fields["query"] == Json.String(Query(req))
    ensures doc.fields["variables"] == Json.Null <==> Vars(req).None?
    ensures Vars(req).Some? ==> doc.fields["variables"] == Json.Object(EffectiveVars(req))
  {
    var variables := if req.vars.None? then Json.Null else Json.Object(req.vars.value);
    Json.Object(map["query" := Json.String(req.query), "variables" := variables])
  }

  /** After the transport call in JSON mode: a transport error, then a read
      error, then a non-200 status win, in that order, before decoding. */
  function ReceiveJSON(t: Result<HttpResponse, Errors.Cause>): (r: Result<GraphResponse, RunError>)
    ensures t.Failure? ==> r == Failure(TransportFailed(t.error))
    ensures t.Success? && t.value.readFault.Some? ==> r == Failure(ReadFailed(t.value.readFault.value))
    ensures t.Success? && t.value.readFault.None? && t.value.statusCode != StatusOK ==>
              r == Failure(StatusNotOK(t.value.statusCode))
    ensures t.Success? && t.value.readFault.None? && t.value.statusCode == StatusOK && t.value.decoded.Failure? ==>
              r == Failure(DecodeFailed(t.value.decoded.error))
    ensures r.Success? <==> t.Success? && t.value.readFault.None? && t.value.statusCode == StatusOK && t.value.decoded.Success?
    ensures r.Success? ==> r.value == t.value.decoded.value
  {
    match t
    case Failure(e) => Failure(TransportFailed(e))
    case Success(res) =>
      if res.readFault.Some? then Failure(ReadFailed(res.readFault.value))
      else if res.statusCode != StatusOK then Failure(StatusNotOK(res.statusCode))
      else
        match res.decoded
        case Failure(e) => Failure(DecodeFailed(e))
        case Success(g) => Success(g)
  }

  /** After the transport call in multipart mode: transport and read errors
      as in JSON mode, but decoding comes first and the status is reported
      only when decoding fails. The two modes disagree exactly on a non-200
      response whose body decodes. */
  function ReceivePostFields(t: Result<HttpResponse, Errors.Cause>): (r: Result<GraphResponse, RunError>)
    ensures t.Failure? ==> r == Failure(TransportFailed(t.error))
    ensures t.Success? && t.value.readFault.Some? ==> r == Failure(ReadFailed(t.value.readFault.value))
    ensures t.Success? && t.value.readFault.None? && t.value.decoded.Success? ==> r == Success(t.value.decoded.value)
    ensures t.Success? && t.value.readFault.None? && t.value.decoded.Failure? ==>
              r == Failure(if t.value.statusCode != StatusOK then StatusNotOK(t.value.statusCode)
                           else DecodeFailed(t.value.decoded.error))
    ensures r != ReceiveJSON(t) <==>
              t.Success? && t.value.readFault.None? && t.value.statusCode != StatusOK && t.value.decoded.Success?
  {
    match t
    case Failure(e) => Failure(TransportFailed(e))
    case Success(res) =>
      if res.readFault.Some? then Failure(ReadFailed(res.readFault.value))
      else
        match res.decoded
        case Failure(e) =>
          if res.statusCode != StatusOK then Failure(StatusNotOK(res.statusCode)) else Failure(DecodeFailed(e))
        case Success(g) => Success(g)
  }

  /** `runWithJSON`. */
  function RunWithJSON(c: Client, env: Environment, req: GraphRequest): (r: RunResult)
    ensures env.jsonEncodeFault.Some? ==>
              r == RunResult(Failure(EncodeFailed("encode body", env.jsonEncodeFault.value)), None)
    ensures env.jsonEncodeFault.None? && env.newRequestFault.Some? ==>
              r == RunResult(Failure(NewRequestFailed(env.newRequestFault.value)), None)
    ensures r.sent.Some? <==> env.jsonEncodeFault.None? && env.newRequestFault.None?
    ensures r.sent.Some? ==> r.sent.value == HttpRequest("POST", c.url, OutgoingHeader(JsonContentType, req.header),
                                                        JsonBody(JsonDocument(req)), c.closeReq)
    ensures r.sent.Some? ==> r.response == ReceiveJSON(env.transport)
  {
    if env.jsonEncodeFault.Some? then
      RunResult(Failure(EncodeFailed("encode body", env.jsonEncodeFault.value)), None)
    else if env.newRequestFault.Some? then
      RunResult(Failure(NewRequestFailed(env.newRequestFault.value)), None)
    else
      var sent := HttpRequest("POST", c.url, OutgoingHeader(JsonContentType, req.header),
                              JsonBody(JsonDocument(req)), c.closeReq);
      RunResult(ReceiveJSON(env.transport), Some(sent))
  }

  /** `runWithPostFields`. */
  function RunWithPostFields(c: Client, env: Environment, req: GraphRequest): (r: RunResult)
    ensures Multipart.Encode(req, env.writerFaults).Failure? ==>
              var f := Multipart.Encode(req, env.writerFaults).error;
              r == RunResult(Failure(EncodeFailed(Multipart.Label(f.step), f.cause)), None)
    ensures Multipart.Encode(req, env.writerFaults).Success? && env.newRequestFault.Some? ==>
              r == RunResult(Failure(NewRequestFailed(env.newRequestFault.value)), None)
    ensures r.sent.Some? <==> Multipart.Encode(req, env.writerFaults).Success? && env.newRequestFault.None?
    ensures r.sent.Some? ==> r.sent.value == HttpRequest("POST", c.url, OutgoingHeader(FormDataPrefix + env.boundary, req.header),
                                                        MultipartBody(env.boundary, Multipart.Parts(req)), c.closeReq)
    ensures r.sent.Some? ==> r.response == ReceivePostFields(env.transport)
  {
    match Multipart.Encode(req, env.writerFaults)
    case Failure(f) => RunResult(Failure(EncodeFailed(Multipart.Label(f.step), f.cause)), None)
    case Success(parts) =>
      if env.newRequestFault.Some? then
        RunResult(Failure(NewRequestFailed(env.newRequestFault.value)), None)
      else
        var sent := HttpRequest("POST", c.url, OutgoingHeader(FormDataPrefix + env.boundary, req.header),
                                MultipartBody(env.boundary, parts), c.closeReq);
        RunResult(ReceivePostFields(env.transport), Some(sent))
  }

  /** `Run`: a done context first, then files without multipart mode, both
      before any transport call; then multipart mode (with or without files)
      or JSON mode. */
  function Run(c: Client, env: Environment, req: GraphRequest): (r: RunResult)
    ensures env.contextErr.Some? ==> r == RunResult(Failure(ContextDone(env.contextErr.value)), None)
    ensures env.contextErr.None? && 0 < |Files(req)| && !c.useMultipartForm ==>
              r == RunResult(Failure(FilesWithoutMultipart), None)
    ensures r.sent.Some? ==> env.contextErr.None? && (|Files(req)| == 0 || c.useMultipartForm)
    ensures r.sent.Some? ==> (r.sent.value.body.MultipartBody? <==> c.useMultipartForm)
    ensures r.sent.Some? ==>
              r.response == (if c.useMultipartForm then ReceivePostFields(env.transport) else ReceiveJSON(env.transport))
    ensures env.contextErr.None? && c.useMultipartForm ==> r == RunWithPostFields(c, env, req)
    ensures env.contextErr.None? && !c.useMultipartForm && |Files(req)| == 0 ==> r == RunWithJSON(c, env, req)
    ensures r.sent.None? ==> r.response.Failure? && !r.response.error.TransportFailed? && !r.response.error.ReadFailed?
                             && !r.response.error.StatusNotOK? && !r.response.error.DecodeFailed?
  {
    if env.contextErr.Some? then RunResult(Failure(ContextDone(env.contextErr.value)), None)
    else if 0 < |req.files| && !c.useMultipartForm then RunResult(Failure(FilesWithoutMultipart), None)
    else if c.useMultipartForm then RunWithPostFields(c, env, req)
    else RunWithJSON(c, env, req)
  }

  /** A request built from scratch and sent in JSON mode carries its query
      and, per variable, the value of the last write; the variables are null
      when none was set. */
  lemma {:induction false} JsonBodyOfBuiltRequest(c: Client, env: Environment, query: string, steps: seq<BuildStep>)
    requires !SetsAnyFile(steps)
    requires !c.useMultipartForm
    requires env.contextErr.None? && env.jsonEncodeFault.None? && env.newRequestFault.None?
    ensures var r := Run(c, env, Replay(NewGraphqlRequest(query), steps));
      && r.sent.Some?
      && r.sent.value.body.JsonBody?
      && r.sent.value.body.document.fields["query"] == Json.String(query)
      && (r.sent.value.body.document.fields["variables"] == Json.Null <==> !SetsAnyVar(steps))
    ensures SetsAnyVar(steps) ==>
      var doc := Run(c, env, Replay(NewGraphqlRequest(query), steps)).sent.value.body.document;
      doc.fields["variables"].Object? &&
      forall key :: Get(doc.fields["variables"].fields, key) == LastWrite(steps, key)
  {
    BuildFromNew(query, steps);
    NoAttachments(steps);
  }

  /** Whether `steps` attaches a file. */
  predicate SetsAnyFile(steps: seq<BuildStep>)
  {
    exists i :: 0 <= i < |steps| && steps[i].AttachFile?
  }

  lemma {:induction false} NoAttachments(steps: seq<BuildStep>)
    ensures Attachments(steps) == [] <==> !SetsAnyFile(steps)
    decreases |steps|
  {
    if 0 < |steps| {
      var prefix := steps[..|steps| - 1];
      NoAttachments(prefix);
      if SetsAnyFile(prefix) {
        var i :| 0 <= i < |prefix| && prefix[i].AttachFile?;
        assert steps[i].AttachFile?;
      }
      if SetsAnyFile(steps) && !steps[|steps| - 1].AttachFile? {
        var i :| 0 <= i < |steps| && steps[i].AttachFile?;
        assert prefix[i].AttachFile?;
      }
    }
  }

  /** Attaching a file and running without multipart mode fails before the
      transport, whatever else the request holds. */
  lemma {:induction false} FilesNeedMultipart(c: Client, env: Environment, query: string, steps: seq<BuildStep>)
    requires SetsAnyFile(steps)
    requires !c.useMultipartForm
    requires env.contextErr.None?
    ensures Run(c, env, Replay(NewGraphqlRequest(query), steps)) == RunResult(Failure(FilesWithoutMultipart), None)
  {
    BuildFromNew(query, steps);
    NoAttachments(steps);
  }
}
