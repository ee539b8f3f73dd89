/**
 * The fake HTTP client of lib/testkit/src/fake-http-client.ts: responses are
 * configured per uri and then per method, either as a fixed response or as
 * a function of the request, and every request nothing is configured for
 * is answered with a 404.
 */
module FakeHttpClient {
  import opened Wrappers
  import opened Values
  import Js
  import Http

  /** A configured response: fixed, or computed from the request. */
  datatype FakeEntry = StaticResponse(response: Value) | ResponseFn(respond: Http.HttpRequest -> Value)

  /** `FakeHttpClientResponses`: uri, then method, to response. */
  type FakeResponses = map<string, map<string, FakeEntry>>

  /** The response to a request nothing is configured for. */
  const NotFound: Value :=
    Obj(map[
      "statusCode" := Num(404),
      "body" := Obj(map["content" := Obj(map[]), "_metadata" := Obj(map[])]),
      "headers" := Obj(map[])])

  /** `responses[request.uri]?.[request.method]`: the entry for the exact uri and method. */
  function Lookup(responses: FakeResponses, request: Http.HttpRequest): Option<FakeEntry>
  {
    var verb := Js.ToStr(request.verb);
    if request.uri in responses && verb in responses[request.uri] then Some(responses[request.uri][verb])
    else None
  }

  /** The entry as the expression `?? { statusCode: 404, ... }` sees it: a null or undefined response is absent. */
  function Present(entry: Option<FakeEntry>): Option<FakeEntry>
  {
    if entry.Some? && entry.value.StaticResponse? && Js.IsNullish(entry.value.response) then None else entry
  }

  /** FakeHttpClient.request(ctx, request); the client's configuration is never read. */
  function Request(responses: FakeResponses, request: Http.HttpRequest): (r: Value)
    ensures Present(Lookup(responses, request)).None? ==> r == NotFound
    ensures Lookup(responses, request) == Some(StaticResponse(r)) ==> !Js.IsNullish(r)
  {
    match Present(Lookup(responses, request))
    case None => NotFound
    case Some(StaticResponse(response)) => response
    case Some(ResponseFn(respond)) => respond(request)
  }

  /** A fixed response is returned as configured; a function is called with the request. */
  lemma ConfiguredResponse(responses: FakeResponses, request: Http.HttpRequest, entry: FakeEntry)
    requires request.uri in responses && Js.ToStr(request.verb) in responses[request.uri]
    requires responses[request.uri][Js.ToStr(request.verb)] == entry
    ensures entry.StaticResponse? && !Js.IsNullish(entry.response) ==> Request(responses, request) == entry.response
    ensures entry.ResponseFn? ==> Request(responses, request) == entry.respond(request)
  {
  }

  /** Only the entry of the request's own uri and method is consulted. */
  lemma RequestReadsOnlyItsEntry(responses: FakeResponses, other: FakeResponses, request: Http.HttpRequest)
    requires Lookup(responses, request) == Lookup(other, request)
    ensures Request(responses, request) == Request(other, request)
  {
  }

  /** Configuring a response for one uri does not change what an unrelated request gets. */
  lemma OtherUriUnaffected(responses: FakeResponses, uri: string, entries: map<string, FakeEntry>, request: Http.HttpRequest)
    requires request.uri != uri
    ensures Request(responses[uri := entries], request) == Request(responses, request)
  {
    assert Lookup(responses[uri := entries], request) == Lookup(responses, request);
  }

  /** With nothing configured every request receives the 404 response. */
  lemma EmptyClientAnswers404(request: Http.HttpRequest)
    ensures Request(map[], request) == NotFound
    ensures Js.Get(Request(map[], request), "statusCode") == Num(404)
  {
  }
}
