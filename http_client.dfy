/**
 * The current facade `HttpClient`: the five verb wrappers, the request built
 * from a resource, and `handleResponse`, which turns what the transport
 * returned into one (error, status, headers, data) completion.
 *
 * The transport is an input here: `response` is what it delivered (none when
 * the request failed), and the body read is an outcome inside the response.
 * The completion handler's single call is the returned `Completion`.
 */
module HttpClient {
  import opened Base
  import opened HeaderMaps
  import opened Resource
  import opened HttpErrors

  /** What reading the whole body gave: the bytes, or a failure after reading `data`. */
  datatype ReadOutcome = Complete(data: seq<byte>) | Failed(data: seq<byte>)

  /** A transport response: status, multi-valued headers and the body read outcome. */
  datatype ClientResponse = ClientResponse(status: int, headers: map<string, seq<string>>, body: ReadOutcome)

  /** The arguments of the one call to the completion handler. */
  datatype Completion = Completion(
    error: Option<HttpError>,
    status: Option<int>,
    headers: Option<map<string, string>>,
    data: Option<seq<byte>>)

  /** The transport's request options; `Port` exists in the transport but is never used here. */
  datatype RequestOption =
    | Method(verb: string)
    | Schema(schema: string)
    | Hostname(hostname: string)
    | Port(port: nat)
    | Path(path: string)

  /** The request handed to the transport: options, headers, and the body passed to `end`. */
  datatype ClientRequest = ClientRequest(options: seq<RequestOption>, headers: map<string, string>, body: Option<seq<byte>>)

  /** Every value list is non-empty, as `value[0]` in `handleResponse` needs. */
  predicate WellFormed(response: Option<ClientResponse>)
  {
    response.Some? ==> NonEmptyValues(response.value.headers)
  }

  /**
   * The status `switch`: 401 and 404 are singled out (sections 15.5.2 and
   * 15.5.5 of RFC 9110), every other status of the client and server error
   * classes 400..599 (sections 15.5 and 15.6) is a server error, and any
   * other status is no error.
   */
  function ClassifyStatus(status: int): (e: Option<HttpError>)
    ensures e == Some(Unauthorized) <==> status == 401
    ensures e == Some(NotFound) <==> status == 404
    ensures e == Some(ServerError) <==> 400 <= status <= 599 && status != 401 && status != 404
    ensures e.None? <==> !(400 <= status <= 599)
    ensures e.Some? && e.value != ServerError ==> RawValue(e.value) == status
  {
    if status == 401 then Some(Unauthorized)
    else if status == 404 then Some(NotFound)
    else if 400 <= status <= 599 then Some(ServerError)
    else None
  }

  /**
   * What `handleResponse` delivers. No response: a connection failure with
   * nothing else. A failed body read: `FailedParsingResponse`, decided before
   * the status is looked at. Otherwise the status classification. Every
   * response branch carries the real status, the flattened headers and the
   * bytes read, also on error.
   */
  function Handle(response: Option<ClientResponse>): (c: Completion)
    requires WellFormed(response)
    ensures response.None? <==> c.status.None?
    ensures response.None? ==> c == Completion(Some(ConnectionFailure), None, None, None)
    ensures response.Some? ==>
              && c.status == Some(response.value.status)
              && c.data == Some(response.value.body.data)
              && c.headers.Some?
              && c.headers.value.Keys == response.value.headers.Keys
              && forall k :: k in response.value.headers ==> c.headers.value[k] == response.value.headers[k][0]
    ensures c.error == Some(FailedParsingResponse) <==> response.Some? && response.value.body.Failed?
    ensures response.Some? && response.value.body.Complete? ==> c.error == ClassifyStatus(response.value.status)
    ensures c.error.None? ==> response.Some? && !(400 <= response.value.status <= 599)
  {
    match response
    case None => Completion(Some(ConnectionFailure), None, None, None)
    case Some(r) =>
      var error := if r.body.Failed? then Some(FailedParsingResponse) else ClassifyStatus(r.status);
      Completion(error, Some(r.status), Some(FirstValues(r.headers)), Some(r.body.data))
  }

  /** The request options in the order they are appended: method, schema with "://", host, path. */
  function Options(resource: HttpResource, verb: string): seq<RequestOption>
  {
    [Method(verb), Schema(resource.schema + "://"), Hostname(resource.host), Path(resource.path)]
  }

  /** Decimal digits of a port number. */
  function Decimal(n: nat): (s: string)
    ensures |s| > 0
  {
    var digit := ['0' + (n % 10) as char];
    if n < 10 then digit else Decimal(n / 10) + digit
  }

  /**
   * The URL text the transport is assumed to assemble from the options:
   * schema, hostname, ":" port and path, concatenated in option order. The
   * assembly is the transport's and not part of this model; any normalisation
   * it may do (a path without a leading "/", say) is not modelled.
   */
  function RequestUrl(options: seq<RequestOption>): string
  {
    if options == [] then ""
    else
      var piece := match options[0]
        case Method(_) => ""
        case Schema(s) => s
        case Hostname(h) => h
        case Port(p) => ":" + Decimal(p)
        case Path(p) => p;
      piece + RequestUrl(options[1..])
  }

  /**
   * The request reaches the resource's URI exactly when the resource has no
   * port: the port never becomes a request option.
   */
  lemma {:induction false} RequestUrlMatchesUri(resource: HttpResource, verb: string)
    ensures forall i :: 0 <= i < |Options(resource, verb)| ==> !Options(resource, verb)[i].Port?
    ensures RequestUrl(Options(resource, verb)) == Uri(resource) <==> resource.port.None?
  {
    var opts := Options(resource, verb);
    var url := resource.schema + "://" + resource.host + resource.path;
    assert RequestUrl(opts) == url by {
      assert RequestUrl(opts[3..]) == resource.path by { assert opts[4..] == []; }
      assert RequestUrl(opts[2..]) == resource.host + resource.path by { assert opts[2..][1..] == opts[3..]; }
      assert RequestUrl(opts[1..]) == resource.schema + "://" + resource.host + resource.path by {
        assert opts[1..][1..] == opts[2..];
      }
    }
    if resource.port.Some? {
      assert |Uri(resource)| > |RequestUrl(opts)|;
    }
  }

  /**
   * The header loop of `handleResponse`: walks the response headers (in the
   * transport's unspecified order) and stores the first value under each name.
   */
  method FlattenHeaders(h: map<string, seq<string>>) returns (m: map<string, string>)
    requires NonEmptyValues(h)
    ensures m.Keys == h.Keys
    ensures forall k :: k in h ==> m[k] == h[k][0]
    ensures m == FirstValues(h)
  {
    m := map[];
    var remaining := h.Keys;
    while remaining != {}
      invariant remaining <= h.Keys
      invariant m.Keys == h.Keys - remaining
      invariant forall k :: k in m ==> m[k] == h[k][0]
      decreases remaining
    {
      var k :| k in remaining;
      m := m[k := h[k][0]];
      remaining := remaining - {k};
    }
  }

  /** `handleResponse`: flattens the headers, then decides the error as `Handle` says. */
  method HandleResponse(response: Option<ClientResponse>) returns (c: Completion)
    requires WellFormed(response)
    ensures c == Handle(response)
  {
    if response.None? {
      return Completion(Some(ConnectionFailure), None, None, None);
    }
    var r := response.value;
    var headers := FlattenHeaders(r.headers);
    if r.body.Failed? {
      return Completion(Some(FailedParsingResponse), Some(r.status), Some(headers), Some(r.body.data));
    }
    c := Completion(ClassifyStatus(r.status), Some(r.status), Some(headers), Some(r.body.data));
  }

  /** The caller-header loop of `sendRequest`: assigns each caller header into the request's (initially empty) headers. */
  method ApplyHeaders(headers: map<string, string>) returns (requestHeaders: map<string, string>)
    ensures requestHeaders.Keys == headers.Keys
    ensures forall name :: name in headers ==> requestHeaders[name] == headers[name]
  {
    requestHeaders := map[];
    var remaining := headers.Keys;
    while remaining != {}
      invariant remaining <= headers.Keys
      invariant requestHeaders.Keys == headers.Keys - remaining
      invariant forall name :: name in requestHeaders ==> requestHeaders[name] == headers[name]
      decreases remaining
    {
      var name :| name in remaining;
      requestHeaders := requestHeaders[name := headers[name]];
      remaining := remaining - {name};
    }
  }

  /**
   * `sendRequest`: builds the options and headers, sends `data` as the body
   * when given, and hands the transport's response to `handleResponse`.
   */
  method SendRequest(resource: HttpResource, verb: string, headers: Option<map<string, string>>,
                     data: Option<seq<byte>>, response: Option<ClientResponse>)
    returns (request: ClientRequest, c: Completion)
    requires WellFormed(response)
    ensures request.options == Options(resource, verb)
    ensures request.headers == if headers.Some? then headers.value else map[]
    ensures request.body == data
    ensures c == Handle(response)
  {
    var options: seq<RequestOption> := [];
    options := options + [Method(verb)];
    options := options + [Schema(resource.schema + "://")];
    options := options + [Hostname(resource.host)];
    options := options + [Path(resource.path)];
    var requestHeaders: map<string, string> := map[];
    if headers.Some? {
      requestHeaders := ApplyHeaders(headers.value);
    }
    request := ClientRequest(options, requestHeaders, data);
    c := HandleResponse(response);
  }

  /** GET: method "GET", no body. */
  method Get(resource: HttpResource, headers: Option<map<string, string>>, response: Option<ClientResponse>)
    returns (request: ClientRequest, c: Completion)
    requires WellFormed(response)
    ensures request.options == Options(resource, "GET") && request.body.None?
    ensures request.headers == if headers.Some? then headers.value else map[]
    ensures c == Handle(response)
  {
    request, c := SendRequest(resource, "GET", headers, None, response);
  }

  /** PUT: method "PUT", with the caller's data. */
  method Put(resource: HttpResource, headers: Option<map<string, string>>, data: Option<seq<byte>>,
             response: Option<ClientResponse>)
    returns (request: ClientRequest, c: Completion)
    requires WellFormed(response)
    ensures request.options == Options(resource, "PUT") && request.body == data
    ensures request.headers == if headers.Some? then headers.value else map[]
    ensures c == Handle(response)
  {
    request, c := SendRequest(resource, "PUT", headers, data, response);
  }

  /** DELETE: method "DELETE", no body. */
  method Delete(resource: HttpResource, headers: Option<map<string, string>>, response: Option<ClientResponse>)
    returns (request: ClientRequest, c: Completion)
    requires WellFormed(response)
    ensures request.options == Options(resource, "DELETE") && request.body.None?
    ensures request.headers == if headers.Some? then headers.value else map[]
    ensures c == Handle(response)
  {
    request, c := SendRequest(resource, "DELETE", headers, None, response);
  }

  /** POST: method "POST", with the caller's data. */
  method Post(resource: HttpResource, headers: Option<map<string, string>>, data: Option<seq<byte>>,
              response: Option<ClientResponse>)
    returns (request: ClientRequest, c: Completion)
    requires WellFormed(response)
    ensures request.options == Options(resource, "POST") && request.body == data
    ensures request.headers == if headers.Some? then headers.value else map[]
    ensures c == Handle(response)
  {
    request, c := SendRequest(resource, "POST", headers, data, response);
  }

  /** HEAD: method "HEAD", no body. */
  method Head(resource: HttpResource, headers: Option<map<string, string>>, response: Option<ClientResponse>)
    returns (request: ClientRequest, c: Completion)
    requires WellFormed(response)
    ensures request.options == Options(resource, "HEAD") && request.body.None?
    ensures request.headers == if headers.Some? then headers.value else map[]
    ensures c == Handle(response)
  {
    request, c := SendRequest(resource, "HEAD", headers, None, response);
  }
}
