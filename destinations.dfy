/**
 * Destinations: the named `HodrDestination` of core/src/lane/destination.ts
 * that forwards each call to its adapter, the file-system adapter of
 * core/src/destination/fs.ts, and the HTTP adapter of
 * core/src/destination/http.ts that shapes a request from the payload,
 * sends it through an HTTP client and records a canonical status for a
 * successful response.
 */
module Destinations {
  import opened Wrappers
  import opened Values
  import opened Types
  import Js
  import Http
  import FakeHttpClient
  import opened Context

  /**
   * An HTTP client: the test kit's fake client with its configured
   * responses, or any other client, whose `request` is a function of the
   * request that may fail.
   */
  datatype HttpClient =
    | FakeClient(responses: FakeHttpClient.FakeResponses)
    | CustomClient(request: Http.HttpRequest -> Result<Value, Thrown>)

  /** `httpClient.request(ctx, request)`. */
  function ClientRequest(client: HttpClient, request: Http.HttpRequest): Result<Value, Thrown>
  {
    match client
    case FakeClient(responses) => Ok(FakeHttpClient.Request(responses, request))
    case CustomClient(send) => send(request)
  }

  /**
   * `compile(template)(params)` of the URI templating library, which may
   * throw (for a parameter the template needs and the map lacks).
   */
  type UriTemplate = (string, map<string, Value>) -> Result<string, Thrown>

  /**
   * `HttpClientConfig`: the client provider and the endpoint. The provider
   * is handed the configuration, of which the model passes the endpoint.
   */
  datatype HttpClientConfig = HttpClientConfig(
    adapter: Option<Option<string> -> HttpClient>,
    endpoint: Option<string>)

  /** A constructed `DefaultHttpClientDestinationAdapter`. */
  datatype HttpAdapter = HttpAdapter(endpoint: string, client: HttpClient, compile: UriTemplate)

  const NoHttpClientMessage := "No HttpClient-implementation provided, and global configuration support is not implemented."

  /**
   * new DefaultHttpClientDestinationAdapter(root, config): the client comes
   * from the configured provider, without which construction throws; the
   * endpoint defaults to ''.
   */
  function NewHttpAdapter(config: HttpClientConfig, compile: UriTemplate): (r: Result<HttpAdapter, Thrown>)
    ensures r.Err? <==> config.adapter.None?
    ensures r.Err? ==> r.error == ThrowNative("Error", NoHttpClientMessage)
    ensures r.Ok? ==> r.value.client == config.adapter.value(config.endpoint)
    ensures r.Ok? ==> r.value.endpoint == (if config.endpoint.Some? then config.endpoint.value else "")
    ensures r.Ok? ==> r.value.compile == compile
  {
    match config.adapter
    case None => Err(ThrowNative("Error", NoHttpClientMessage))
    case Some(provider) =>
      Ok(HttpAdapter(if config.endpoint.Some? then config.endpoint.value else "", provider(config.endpoint), compile))
  }

  /** A destination adapter. */
  datatype Adapter = FileSystemAdapter(root: string) | HttpClientAdapter(http: HttpAdapter)

  // ---------------------------------------------------------------------
  // The file-system adapter

  /** `[this.root, ctx.payload].join('/')`: null and undefined join as empty text. */
  function FileSystemPath(root: string, payload: Value): string
  {
    root + "/" + (if Js.IsNullish(payload) then "" else Js.ToStr(payload))
  }

  /** FileSystemDestinationAdapter.invoke(ctx, path): the type hint is recorded, the joined path returned. */
  function FileSystemInvoke(root: string, c: Ctx): (Ctx, Result<Value, Thrown>)
  {
    (c.(metadata := c.metadata["payloadTypeHint" := Str("static-content")]), Ok(Str(FileSystemPath(root, c.payload))))
  }

  // ---------------------------------------------------------------------
  // The HTTP adapter

  /** The entry `_buildRequest` journals for the URI template filled with the parameters. */
  function ParameterizedUriEntry(uri: string): JournalEntry
  {
    JournalEntry("parameterized-uri", "Parameterized URI", None, Str(uri), Some("plaintext"))
  }

  /**
   * The path parameters and the body of the request: taken from the payload
   * itself when it already is an HTTP request (its own fields overlaid by
   * its `params`), and otherwise resolved through the request parameters.
   */
  function RequestInputs(c: Ctx, p: Http.RequestParameters): Result<(map<string, Value>, Value), Thrown>
  {
    match Http.IsHttpRequest(c.payload)
    case Err(t) => Err(t)
    case Ok(isRequest) =>
      if isRequest then
        Ok((Js.OwnProperties(c.payload) + Js.OwnProperties(Js.Get(c.payload, "params")), Js.Get(c.payload, "body")))
      else
        Ok((Http.ResolveParams(c.payload, p.pathParams, c.atoms), Http.PrepareBody(c.payload, p.body)))
  }

  /**
   * _buildRequest(ctx, path, ctx.payload, params): journal the filled-in
   * path, then build the request to the endpoint joined with the path; the
   * body is sent only with the methods that carry one.
   */
  function BuildRequest(a: HttpAdapter, c: Ctx, path: string, params: Option<Http.RequestParameters>): (Ctx, Result<Http.HttpRequest, Thrown>)
    requires CurrentValid(c)
  {
    var p := if params.Some? then params.value else Http.DefaultParameters;
    match RequestInputs(c, p)
    case Err(t) => (c, Err(t))
    case Ok((pathParams, body)) =>
      match a.compile(path, pathParams)
      case Err(t) => (c, Err(t))
      case Ok(parameterized) =>
        var c1 := AddJournal(c, ParameterizedUriEntry(parameterized));
        match a.compile(Http.JoinUriParts([a.endpoint, path]), pathParams)
        case Err(t) => (c1, Err(t))
        case Ok(uri) => (c1, Ok(Http.HttpRequest(p.verb, uri, Http.BodyFor(p.verb, body))))
  }

  /** The metadata after a response: a canonical status is recorded for a 2xx status only. */
  function RecordResponse(c: Ctx, response: Value): Ctx
  {
    var status := Js.Get(response, "statusCode");
    if Http.IsSuccessStatus(status) then
      c.(metadata := c.metadata["canonicalStatus" := Http.CanonicalRecord(status, "http-destination", CurrentName(c))])
    else c
  }

  /**
   * DefaultHttpClientDestinationAdapter.invoke(ctx, path, params): build and
   * send the request, record the canonical status of a 2xx response, and
   * return the response. Reading the status of a null or undefined response
   * throws.
   */
  function HttpInvoke(a: HttpAdapter, c: Ctx, path: string, params: Option<Http.RequestParameters>): (Ctx, Result<Value, Thrown>)
    requires CurrentValid(c)
  {
    var (c1, request) := BuildRequest(a, c, path, params);
    match request
    case Err(t) => (c1, Err(t))
    case Ok(rq) =>
      match ClientRequest(a.client, rq)
      case Err(t) => (c1, Err(t))
      case Ok(response) =>
        if Js.IsNullish(response) then (c1, Err(Http.PropertyOfNullish(response, "statusCode")))
        else (RecordResponse(c1, response), Ok(response))
  }

  /** HodrDestination.invoke(ctx, path, params): forward to the adapter, or resolve to undefined without one. */
  function AdapterInvoke(adapter: Option<Adapter>, c: Ctx, path: string, params: Option<Http.RequestParameters>): (Ctx, Result<Value, Thrown>)
    requires CurrentValid(c)
  {
    match adapter
    case None => (c, Ok(Undefined))
    case Some(FileSystemAdapter(root)) => FileSystemInvoke(root, c)
    case Some(HttpClientAdapter(a)) => HttpInvoke(a, c, path, params)
  }

  // ---------------------------------------------------------------------
  // Properties

  /** Without an adapter a destination answers undefined and changes nothing. */
  lemma NoAdapterAnswersUndefined(c: Ctx, path: string, params: Option<Http.RequestParameters>)
    requires CurrentValid(c)
    ensures AdapterInvoke(None, c, path, params) == (c, Ok(Undefined))
  {
  }

  /**
   * The file-system adapter answers with the root and the payload joined by
   * '/', sets `payloadTypeHint` to 'static-content', leaves every other
   * metadata key, the payload and the records alone, and ignores the path
   * and the parameters.
   */
  lemma FileSystemInvokeEffect(root: string, c: Ctx, path: string, params: Option<Http.RequestParameters>, otherPath: string, otherParams: Option<Http.RequestParameters>)
    requires CurrentValid(c)
    ensures var (d, r) := AdapterInvoke(Some(FileSystemAdapter(root)), c, path, params);
      && r == Ok(Str(root + "/" + (if Js.IsNullish(c.payload) then "" else Js.ToStr(c.payload))))
      && d.metadata == c.metadata["payloadTypeHint" := Str("static-content")]
      && (forall k :: k in c.metadata && k != "payloadTypeHint" ==> d.metadata[k] == c.metadata[k])
      && d.(metadata := c.metadata) == c
    ensures AdapterInvoke(Some(FileSystemAdapter(root)), c, path, params)
         == AdapterInvoke(Some(FileSystemAdapter(root)), c, otherPath, otherParams)
  {
  }

  /** A string payload after a root gives the path under that root. */
  lemma FileSystemPathOfString(root: string, file: string)
    ensures FileSystemPath(root, Str(file)) == root + "/" + file
    ensures FileSystemPath(root, Undefined) == root + "/"
  {
  }

  /**
   * A built request goes to the endpoint joined with the path, carries the
   * method of the parameters (GET by default), and has a body only for
   * POST, PUT and PATCH; the filled-in path is journaled on the current step.
   */
  lemma BuildRequestShape(a: HttpAdapter, c: Ctx, path: string, params: Option<Http.RequestParameters>)
    requires CurrentValid(c)
    requires BuildRequest(a, c, path, params).1.Ok?
    ensures var p := if params.Some? then params.value else Http.DefaultParameters;
      var (d, r) := BuildRequest(a, c, path, params);
      var (pathParams, body) := RequestInputs(c, p).value;
      && r.value.verb == p.verb
      && Ok(r.value.uri) == a.compile(Http.JoinUriParts([a.endpoint, path]), pathParams)
      && (Http.SendsBody(p.verb) ==> r.value.body == body)
      && (!Http.SendsBody(p.verb) ==> r.value.body == Null)
      && d == AddJournal(c, ParameterizedUriEntry(a.compile(path, pathParams).value))
  {
  }

  /** A payload that is not yet a request takes its parameters from the atoms overlaid by the path parameters. */
  lemma BuildRequestFromPayload(c: Ctx, p: Http.RequestParameters)
    requires Http.IsHttpRequest(c.payload) == Ok(false)
    ensures RequestInputs(c, p) == Ok((Http.ResolveParams(c.payload, p.pathParams, c.atoms), Http.PrepareBody(c.payload, p.body)))
  {
  }

  /** A null or undefined payload cannot be shaped into a request. */
  lemma BuildRequestOfNullish(a: HttpAdapter, c: Ctx, path: string, params: Option<Http.RequestParameters>)
    requires CurrentValid(c) && Js.IsNullish(c.payload)
    ensures BuildRequest(a, c, path, params) == (c, Err(Http.PropertyOfNullish(c.payload, "method")))
  {
  }

  /**
   * A response the client gives is returned unchanged; a canonical status is
   * recorded exactly when its status is 2xx, naming the current step, and
   * nothing else of the context changes beyond the journaled path.
   */
  lemma HttpInvokeReturnsResponse(a: HttpAdapter, c: Ctx, path: string, params: Option<Http.RequestParameters>, response: Value)
    requires CurrentValid(c)
    requires BuildRequest(a, c, path, params).1.Ok?
    requires ClientRequest(a.client, BuildRequest(a, c, path, params).1.value) == Ok(response)
    requires !Js.IsNullish(response)
    ensures var c1 := BuildRequest(a, c, path, params).0;
      var (d, r) := HttpInvoke(a, c, path, params);
      var status := Js.Get(response, "statusCode");
      && r == Ok(response)
      && (Http.IsSuccessStatus(status) ==>
            d.metadata == c1.metadata["canonicalStatus" := Http.CanonicalRecord(status, "http-destination", CurrentName(c1))])
      && (!Http.IsSuccessStatus(status) ==> d == c1)
      && d.(metadata := c1.metadata) == c1
  {
  }

  /** The fake client answers a request nothing is configured for with its 404 response, which records no canonical status. */
  lemma FakeClientUnconfigured(a: HttpAdapter, c: Ctx, path: string, params: Option<Http.RequestParameters>)
    requires CurrentValid(c)
    requires a.client == FakeClient(map[])
    requires BuildRequest(a, c, path, params).1.Ok?
    ensures HttpInvoke(a, c, path, params) == (BuildRequest(a, c, path, params).0, Ok(FakeHttpClient.NotFound))
  {
    var rq := BuildRequest(a, c, path, params).1.value;
    FakeHttpClient.EmptyClientAnswers404(rq);
    Js.NumberComparisons(404, 200);
    Js.NumberComparisons(404, 300);
  }

  // ---------------------------------------------------------------------
  // The adapters acting on a context

  /** FileSystemDestinationAdapter.invoke. */
  method InvokeFileSystem(root: string, ctx: HodrContext) returns (r: Result<Value, Thrown>)
    modifies ctx
    ensures (ctx.Model(), r) == FileSystemInvoke(root, old(ctx.Model()))
  {
    ctx.metadata := ctx.metadata["payloadTypeHint" := Str("static-content")];
    r := Ok(Str(FileSystemPath(root, ctx.payload)));
  }

  /** DefaultHttpClientDestinationAdapter._buildRequest. */
  method BuildHttpRequest(a: HttpAdapter, ctx: HodrContext, path: string, params: Option<Http.RequestParameters>)
    returns (r: Result<Http.HttpRequest, Thrown>)
    requires CurrentValid(ctx.Model())
    modifies ctx
    ensures (ctx.Model(), r) == BuildRequest(a, old(ctx.Model()), path, params)
  {
    var p := if params.Some? then params.value else Http.DefaultParameters;
    var inputs := RequestInputs(ctx.Model(), p);
    if inputs.Err? {
      return Err(inputs.error);
    }
    var (pathParams, body) := inputs.value;
    var parameterized := a.compile(path, pathParams);
    if parameterized.Err? {
      return Err(parameterized.error);
    }
    var _ := ctx.AddJournalEntry(ParameterizedUriEntry(parameterized.value));
    var uri := a.compile(Http.JoinUriParts([a.endpoint, path]), pathParams);
    if uri.Err? {
      return Err(uri.error);
    }
    r := Ok(Http.HttpRequest(p.verb, uri.value, Http.BodyFor(p.verb, body)));
  }

  /** DefaultHttpClientDestinationAdapter.invoke. */
  method InvokeHttp(a: HttpAdapter, ctx: HodrContext, path: string, params: Option<Http.RequestParameters>)
    returns (r: Result<Value, Thrown>)
    requires CurrentValid(ctx.Model())
    modifies ctx
    ensures (ctx.Model(), r) == HttpInvoke(a, old(ctx.Model()), path, params)
  {
    var request := BuildHttpRequest(a, ctx, path, params);
    if request.Err? {
      return Err(request.error);
    }
    var response := ClientRequest(a.client, request.value);
    if response.Err? {
      return Err(response.error);
    }
    if Js.IsNullish(response.value) {
      return Err(Http.PropertyOfNullish(response.value, "statusCode"));
    }
    var status := Js.Get(response.value, "statusCode");
    if Http.IsSuccessStatus(status) {
      ctx.metadata := ctx.metadata["canonicalStatus" := Http.CanonicalRecord(status, "http-destination", CurrentName(ctx.Model()))];
    }
    r := response;
  }

  /** An adapter's `invoke`, or undefined for a destination without one. */
  method InvokeAdapter(adapter: Option<Adapter>, ctx: HodrContext, path: string, params: Option<Http.RequestParameters>)
    returns (r: Result<Value, Thrown>)
    requires CurrentValid(ctx.Model())
    modifies ctx
    ensures (ctx.Model(), r) == AdapterInvoke(adapter, old(ctx.Model()), path, params)
  {
    match adapter {
      case None => r := Ok(Undefined);
      case Some(FileSystemAdapter(root)) => r := InvokeFileSystem(root, ctx);
      case Some(HttpClientAdapter(a)) => r := InvokeHttp(a, ctx, path, params);
    }
  }

  /** A named destination, whose adapter the destination builder sets. */
  class HodrDestination {
    const name: Option<string>
    var adapter: Option<Adapter>

    constructor(name: Option<string>)
      ensures this.name == name && adapter == None
    {
      this.name := name;
      adapter := None;
    }

    /** invoke(ctx, path, params): forwarded to the adapter; the destination itself is not changed. */
    method Invoke(ctx: HodrContext, path: string, params: Option<Http.RequestParameters>) returns (r: Result<Value, Thrown>)
      requires CurrentValid(ctx.Model())
      modifies ctx
      ensures (ctx.Model(), r) == AdapterInvoke(adapter, old(ctx.Model()), path, params)
      ensures adapter == old(adapter)
    {
      r := InvokeAdapter(adapter, ctx, path, params);
    }
  }
}
