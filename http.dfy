/**
 * Request shaping of core/src/destination/http.ts: reading back the
 * canonical status an execution recorded, recognising a payload that already
 * is an HTTP request, resolving the path parameters of a URI template,
 * choosing the request body, joining the endpoint and the path of a URI, and
 * the HTTP methods that carry a body.
 */
module Http {
  import opened Wrappers
  import opened Values
  import opened Types
  import Js
  import Transform
  import HttpStatus

  /**
   * `RequestParameters`: the method of the request, the path parameters (a
   * path into the payload, or an object of parameters) and the body (a path
   * into the payload). An absent field is `Undefined`.
   */
  datatype RequestParameters = RequestParameters(verb: Value, pathParams: Value, body: Value)

  /** `params = { method: 'GET' }`, the default when a call gives no parameters. */
  const DefaultParameters := RequestParameters(Str("GET"), Undefined, Undefined)

  /** The request a destination adapter hands to its HTTP client. */
  datatype HttpRequest = HttpRequest(verb: Value, uri: string, body: Value)

  /** The request as the object a client receives. */
  function RequestValue(request: HttpRequest): (v: Value)
    ensures Js.Get(v, "method") == request.verb
    ensures Js.Get(v, "uri") == Str(request.uri)
    ensures Js.Get(v, "body") == request.body
  {
    Obj(map["method" := request.verb, "uri" := Str(request.uri), "body" := request.body])
  }

  // ---------------------------------------------------------------------
  // The canonical status

  /** `exCtx.metadata.canonicalStatus`; an absent key reads as undefined. */
  function CanonicalStatus(metadata: map<string, Value>): Value
  {
    if "canonicalStatus" in metadata then metadata["canonicalStatus"] else Undefined
  }

  /**
   * resolveCanonicalHttpStatus(exCtx, fallback): a truthy canonical status
   * answers with its `httpStatus`, or when that is null or undefined with
   * the HTTP status of its internal code, which may itself be undefined.
   */
  function ResolveCanonicalHttpStatus(metadata: map<string, Value>, fallback: int): Value
  {
    var canonical := CanonicalStatus(metadata);
    if Js.Truthy(canonical) then
      var httpStatus := Js.Get(canonical, "httpStatus");
      if !Js.IsNullish(httpStatus) then httpStatus
      else
        match HttpStatus.InternalStatusOfName(Js.ToStr(Js.Get(canonical, "code")))
        case Some(s) => Num(s)
        case None => Undefined
    else Num(fallback)
  }

  /** The internal code of a table entry, as the value stored in a record. */
  function CodeValue(code: Option<HttpStatus.InternalCode>): Value
  {
    match code
    case Some(c) => Str(HttpStatus.CodeName(c))
    case None => Undefined
  }

  /**
   * The canonical status recorded for a successful response: the internal
   * code of the status, the status itself, where it was inferred from, and
   * the name of the step that inferred it.
   */
  function CanonicalRecord(status: Value, inferredFrom: string, inferredBy: Value): Value
  {
    Obj(map[
      "code" := CodeValue(HttpStatus.InternalCodeAtKey(status)),
      "httpStatus" := status,
      "inferredFrom" := Str(inferredFrom),
      "inferredBy" := inferredBy])
  }

  /** `statusCode >= 200 && statusCode < 300` under JavaScript's comparisons. */
  predicate IsSuccessStatus(status: Value)
  {
    Js.Ge(status, Num(200)) && Js.Lt(status, Num(300))
  }

  /** With no canonical status recorded the fallback is used. */
  lemma CanonicalStatusFallback(metadata: map<string, Value>, fallback: int)
    requires !Js.Truthy(CanonicalStatus(metadata))
    ensures ResolveCanonicalHttpStatus(metadata, fallback) == Num(fallback)
  {
  }

  /** A recorded `httpStatus` wins over everything else. */
  lemma CanonicalStatusRecorded(metadata: map<string, Value>, fallback: int)
    requires Js.Truthy(CanonicalStatus(metadata))
    requires !Js.IsNullish(Js.Get(CanonicalStatus(metadata), "httpStatus"))
    ensures ResolveCanonicalHttpStatus(metadata, fallback) == Js.Get(CanonicalStatus(metadata), "httpStatus")
  {
  }

  /** Without an `httpStatus`, the status of the recorded internal code is looked up. */
  lemma CanonicalStatusFromCode(metadata: map<string, Value>, fallback: int, code: HttpStatus.InternalCode)
    requires Js.Truthy(CanonicalStatus(metadata))
    requires Js.IsNullish(Js.Get(CanonicalStatus(metadata), "httpStatus"))
    requires Js.Get(CanonicalStatus(metadata), "code") == Str(HttpStatus.CodeName(code))
    ensures HttpStatus.InternalStatusToHttpStatus(code).Some?
    ensures ResolveCanonicalHttpStatus(metadata, fallback) == Num(HttpStatus.InternalStatusToHttpStatus(code).value)
  {
    HttpStatus.ParseCodeName(code);
    HttpStatus.InternalCodeRoundTrip(code);
  }

  /** Once a status is recorded, resolving reads back exactly that status whatever the fallback. */
  lemma CanonicalRecordResolves(metadata: map<string, Value>, status: Value, inferredFrom: string, inferredBy: Value, fallback: int)
    requires !Js.IsNullish(status)
    ensures ResolveCanonicalHttpStatus(metadata["canonicalStatus" := CanonicalRecord(status, inferredFrom, inferredBy)], fallback) == status
  {
  }

  /** A recorded 2xx status carries the success code of that status, which maps back to it. */
  lemma CanonicalRecordCode(status: int, inferredFrom: string, inferredBy: Value)
    requires HttpStatus.HttpStatusToInternal(status).Some?
    ensures var code := HttpStatus.HttpStatusToInternal(status).value;
      && Js.Get(CanonicalRecord(Num(status), inferredFrom, inferredBy), "code") == Str(HttpStatus.CodeName(code))
      && HttpStatus.InternalStatusToHttpStatus(code) == Some(status)
  {
    HttpStatus.StatusKeyOfNumber(status);
    HttpStatus.InternalStatusRoundTrip(status);
  }

  // ---------------------------------------------------------------------
  // Recognising a request

  /** The TypeError of reading a property of null or undefined. */
  function PropertyOfNullish(v: Value, key: string): Thrown
  {
    ThrowNative("TypeError", "Cannot read properties of " + Js.ToStr(v) + " (reading '" + key + "')")
  }

  /** `!x || typeof x === 'object'`. */
  predicate AbsentOrObject(v: Value)
  {
    !Js.Truthy(v) || Js.TypeOf(v) == "object"
  }

  /**
   * isHttpRequest(obj): a truthy method from the HTTP method list, a string
   * uri, and headers and session that are absent or objects. Reading the
   * method of null or undefined throws.
   */
  function IsHttpRequest(obj: Value): (r: Result<bool, Thrown>)
    ensures r.Err? <==> Js.IsNullish(obj)
    ensures r == Ok(true) ==>
      && Js.Get(obj, "method").Str? && Js.Get(obj, "method").s in HttpStatus.HttpMethods
      && Js.Get(obj, "uri").Str?
  {
    if Js.IsNullish(obj) then Err(PropertyOfNullish(obj, "method"))
    else
      var verb := Js.Get(obj, "method");
      Ok(Js.Truthy(verb) && verb.Str? && verb.s in HttpStatus.HttpMethods
         && Js.Get(obj, "uri").Str?
         && AbsentOrObject(Js.Get(obj, "headers"))
         && AbsentOrObject(Js.Get(obj, "session")))
  }

  // ---------------------------------------------------------------------
  // Path parameters and body

  /**
   * The object whose own properties `resolveParams` copies over the atoms:
   * the value at a string path (`{}` when that is null or undefined), an
   * object given directly, or nothing.
   */
  function ParamSource(obj: Value, pathParams: Value): map<string, Value>
  {
    if pathParams.Str? then
      var found := Transform.ExtractPath(obj, Some(Transform.PathString(pathParams.s)));
      if Js.IsNullish(found) then map[] else Js.OwnProperties(found)
    else if Js.TypeOf(pathParams) == "object" then Js.OwnProperties(pathParams)
    else map[]
  }

  /**
   * resolveParams(obj, params, atoms): a copy of the atoms with the
   * parameters taken from `params.pathParams` assigned over them.
   */
  function ResolveParams(obj: Value, pathParams: Value, atoms: map<string, Value>): (r: map<string, Value>)
    ensures forall k :: k in r <==> k in atoms || k in ParamSource(obj, pathParams)
    ensures forall k :: k in ParamSource(obj, pathParams) ==> r[k] == ParamSource(obj, pathParams)[k]
    ensures forall k :: k in atoms && k !in ParamSource(obj, pathParams) ==> r[k] == atoms[k]
  {
    atoms + ParamSource(obj, pathParams)
  }

  /** A string `pathParams` is a path into the payload, whose object supplies the parameters. */
  lemma ResolveParamsFromPath(obj: Value, path: string, atoms: map<string, Value>)
    requires path != "" && Js.Truthy(obj)
    ensures var found := Transform.Walk(obj, Transform.Split(path, '.'));
      Js.TypeOf(found) == "object" && !Js.IsNullish(found) ==>
        ResolveParams(obj, Str(path), atoms) == atoms + Js.OwnProperties(found)
  {
  }

  /**
   * The path-parameter example of the destination tests: the object at
   * `threadId` supplies the parameters `targetType` and `targetId`.
   */
  lemma ResolveParamsAsTested(key: string, thread: map<string, Value>)
    requires key == "threadId"
    requires thread == map["targetType" := Str("listing"), "targetId" := Str("88")]
    ensures ResolveParams(Obj(map[key := Obj(thread)]), Str(key), map[]) == thread
  {
    assert Transform.Free(key, '.');
    Transform.ExtractDottedPath(Obj(map[key := Obj(thread)]), [key]);
  }

  /** prepareBody(obj, params): the value at a string `params.body`, else the whole object. */
  function PrepareBody(obj: Value, body: Value): (r: Value)
    ensures !body.Str? ==> r == obj
    ensures body.Str? ==> r == Transform.ExtractPath(obj, Some(Transform.PathString(body.s)))
  {
    if body.Str? then Transform.ExtractPath(obj, Some(Transform.PathString(body.s))) else obj
  }

  /** The methods whose requests carry a body. */
  predicate SendsBody(verb: Value)
  {
    verb == Str("POST") || verb == Str("PUT") || verb == Str("PATCH")
  }

  /** `['POST', 'PUT', 'PATCH'].includes(method) ? body : null`. */
  function BodyFor(verb: Value, body: Value): (r: Value)
    ensures SendsBody(verb) ==> r == body
    ensures !SendsBody(verb) ==> r == Null
  {
    if verb in [Str("POST"), Str("PUT"), Str("PATCH")] then body else Null
  }

  // ---------------------------------------------------------------------
  // joinUriParts

  /** `part.replace(/^\/+/, '')`: the part without its leading slashes. */
  function StripLeadingSlashes(s: string): (t: string)
    ensures |t| <= |s| && t == s[|s| - |t|..]
    ensures forall i :: 0 <= i < |s| - |t| ==> s[i] == '/'
    ensures |t| > 0 ==> t[0] != '/'
    decreases |s|
  {
    if |s| > 0 && s[0] == '/' then StripLeadingSlashes(s[1..]) else s
  }

  /** `part.replace(/\/+$/, '')`: the part without its trailing slashes. */
  function StripTrailingSlashes(s: string): (t: string)
    ensures |t| <= |s| && t == s[..|t|]
    ensures forall i :: |t| <= i < |s| ==> s[i] == '/'
    ensures |t| > 0 ==> t[|t| - 1] != '/'
    decreases |s|
  {
    if |s| > 0 && s[|s| - 1] == '/' then StripTrailingSlashes(s[..|s| - 1]) else s
  }

  /** `parts.filter(part => part !== '')`. */
  function NonEmptyParts(parts: seq<string>): (r: seq<string>)
    ensures |r| <= |parts|
    ensures forall i :: 0 <= i < |r| ==> r[i] != ""
  {
    if |parts| == 0 then []
    else if parts[0] == "" then NonEmptyParts(parts[1..])
    else [parts[0]] + NonEmptyParts(parts[1..])
  }

  /** Filtering keeps every non-empty part, and only those. */
  lemma {:induction false} NonEmptyPartsMembers(parts: seq<string>)
    ensures forall p :: p in NonEmptyParts(parts) <==> p in parts && p != ""
  {
    if |parts| > 0 {
      NonEmptyPartsMembers(parts[1..]);
      assert parts == [parts[0]] + parts[1..];
    }
  }

  /** The parts after the map step: the first loses its trailing slashes, the others their leading ones. */
  function TrimmedParts(parts: seq<string>): (r: seq<string>)
    ensures |r| == |parts|
    ensures |r| > 0 ==> r[0] == StripTrailingSlashes(parts[0])
    ensures forall i :: 0 < i < |r| ==> r[i] == StripLeadingSlashes(parts[i])
  {
    seq(|parts|, i requires 0 <= i < |parts| =>
      if i > 0 then StripLeadingSlashes(parts[i]) else StripTrailingSlashes(parts[i]))
  }

  /** joinUriParts(...parts). */
  function JoinUriParts(parts: seq<string>): string
  {
    Transform.Join(TrimmedParts(NonEmptyParts(parts)), '/')
  }

  /** An empty endpoint leaves the path alone, apart from its trailing slashes. */
  lemma JoinUriPartsEmptyEndpoint(path: string)
    ensures JoinUriParts(["", path]) == StripTrailingSlashes(path)
  {
    if path == "" {
      assert NonEmptyParts(["", path]) == [];
    } else {
      assert NonEmptyParts(["", path]) == [path] by {
        assert NonEmptyParts([path]) == [path] + NonEmptyParts([]);
      }
    }
  }

  /** Endpoint and path meet at exactly one slash. */
  lemma JoinUriPartsEndpointAndPath(endpoint: string, path: string)
    requires endpoint != "" && path != ""
    ensures JoinUriParts([endpoint, path]) == StripTrailingSlashes(endpoint) + "/" + StripLeadingSlashes(path)
  {
    var parts := [endpoint, path];
    assert parts[1..] == [path];
    assert NonEmptyParts([path]) == [path] + NonEmptyParts([]);
    assert NonEmptyParts(parts) == parts;
    var t := TrimmedParts(parts);
    assert t == [StripTrailingSlashes(endpoint), StripLeadingSlashes(path)];
    assert t[1..] == [StripLeadingSlashes(path)];
    assert Transform.Join(t[1..], '/') == StripLeadingSlashes(path);
    assert Transform.Join(t, '/') == t[0] + ['/'] + Transform.Join(t[1..], '/');
  }

  /** An endpoint without a path is the endpoint without its trailing slashes. */
  lemma JoinUriPartsEmptyPath(endpoint: string)
    ensures JoinUriParts([endpoint, ""]) == StripTrailingSlashes(endpoint)
  {
    if endpoint == "" {
      assert NonEmptyParts([endpoint, ""]) == [];
    } else {
      assert NonEmptyParts([endpoint, ""]) == [endpoint] by {
        assert [endpoint, ""][1..] == [""];
        assert NonEmptyParts([""]) == NonEmptyParts([]);
      }
    }
  }
}
