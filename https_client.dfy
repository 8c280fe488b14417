/**
 * The older facade `HTTPSClient`, a separate generation with its own rules:
 * a URL string parsed into a URI, a default port (80 for http and 443 for
 * https, sections 4.2.1 and 4.2.2 of RFC 9110), header keys compared without
 * regard to case, `InvalidRequest` when no response arrives, and the caller's
 * request data echoed in the data slot on error.
 *
 * Parsing the URL, building the client and sending are the transport's: their
 * results are inputs (`parsed`, `clientBuilt`, `response`). The source
 * force-unwraps three optionals; where one is nil the process traps, and the
 * model says so with a `Trapped` outcome instead of a completion.
 */
module HTTPSClient {
  import opened Base
  import opened HeaderMaps

  /** This generation's error type: no raw values; only a connection failure carries a message. */
  datatype HttpError =
    | ConnectionFailure(message: Option<string>)
    | NotFound
    | Unauthorized
    | ServerError
    | InvalidUri
    | InvalidRequest

  /** The request methods the verb wrappers use. */
  datatype Method = Get | Put | Delete | Post | Head

  /** A parsed URI: every part is optional. */
  datatype Uri = Uri(scheme: Option<string>, host: Option<string>, port: Option<int>, path: Option<string>)

  /** One header under a case-insensitive key: the spelling stored with the key, and its values. */
  datatype Header = Header(name: string, values: seq<string>)

  /** The request handed to the client: method, URI with its port settled, path, headers, body. */
  datatype Request = Request(verb: Method, uri: Uri, path: string, headers: map<string, Header>, body: Option<seq<byte>>)

  /**
   * A response: status code, headers under case-insensitive keys, the body
   * buffer (none when it could not be read), and whether that body decodes as UTF-8.
   */
  datatype Response = Response(statusCode: int, headers: map<string, Header>, body: Option<seq<byte>>, bodyIsUtf8: bool)

  /** The arguments of the one call to the completion handler, in this generation's order. */
  datatype Completion = Completion(
    error: Option<HttpError>,
    data: Option<seq<byte>>,
    status: Option<int>,
    headers: Option<map<string, string>>)

  /** Which force-unwrap trapped: the URI's path, the body buffer's size, or the body's UTF-8 text. */
  datatype Trap = MissingPath | UnreadableBody | UndecodableBody

  /** A call either completes or traps. */
  datatype Outcome = Delivered(completion: Completion) | Trapped(trap: Trap)

  /** ASCII lower case of one character. */
  function LowerAscii(c: char): char
  {
    if 'A' <= c <= 'Z' then (c as int + 32) as char else c
  }

  /** The case-insensitive key of a header name: its lower-case form. */
  function Fold(name: string): (key: string)
    ensures |key| == |name|
    ensures forall i :: 0 <= i < |name| ==> key[i] == LowerAscii(name[i])
  {
    seq(|name|, i requires 0 <= i < |name| => LowerAscii(name[i]))
  }

  /** A case-insensitive header collection: each entry sits under its name's folded key and has a value. */
  predicate WellKeyed(headers: map<string, Header>)
  {
    forall k :: k in headers ==> Fold(headers[k].name) == k && |headers[k].values| > 0
  }

  /** No other caller header has the same case-insensitive key as `name`. */
  predicate Unshadowed(headers: map<string, string>, name: string)
  {
    forall other :: other in headers && Fold(other) == Fold(name) ==> other == name
  }

  /** Every name in `done` has an entry under its key. */
  predicate Covered(done: set<string>, s4: map<string, Header>)
  {
    forall name :: name in done ==> Fold(name) in s4
  }

  /** Every entry is the one-value header of a name in `done`: that name's spelling and that name's value. */
  predicate FromCopied(headers: map<string, string>, done: set<string>, s4: map<string, Header>)
    requires done <= headers.Keys
  {
    forall k :: k in s4 ==> s4[k].name in done && s4[k].values == [headers[s4[k].name]]
  }

  /**
   * The caller headers named in `done` have been copied into `s4` under their
   * case-insensitive keys: every copied name has its key, and every entry is
   * the one-value header of a copied name with that key.
   */
  predicate CopiedSoFar(headers: map<string, string>, done: set<string>, s4: map<string, Header>)
  {
    && done <= headers.Keys
    && WellKeyed(s4)
    && Covered(done, s4)
    && FromCopied(headers, done, s4)
  }

  /** What the caller-header loop produces: every caller header copied under its case-insensitive key. */
  predicate CaseInsensitiveCopy(headers: map<string, string>, s4: map<string, Header>)
  {
    CopiedSoFar(headers, headers.Keys, s4)
  }

  /** After a copy, the keys are exactly the folded caller names. */
  lemma CopiedKeys(headers: map<string, string>, s4: map<string, Header>)
    requires CaseInsensitiveCopy(headers, s4)
    ensures s4.Keys == set name | name in headers :: Fold(name)
  {
  }

  /** After a copy, a caller name that no other caller name shares its key with is copied exactly. */
  lemma CopiedExactly(headers: map<string, string>, s4: map<string, Header>, name: string)
    requires CaseInsensitiveCopy(headers, s4)
    requires name in headers && Unshadowed(headers, name)
    ensures s4[Fold(name)] == Header(name, [headers[name]])
  {
    var winner := s4[Fold(name)].name;
    assert winner in headers && Fold(winner) == Fold(name);
  }

  /**
   * `updateValue(_:forKey:)` under the folded name: the key is added or
   * replaced, stored with the new spelling and a one-value list.
   */
  function UpdateValue(s4: map<string, Header>, name: string, value: string): (t: map<string, Header>)
    ensures t.Keys == s4.Keys + {Fold(name)}
    ensures t[Fold(name)] == Header(name, [value])
    ensures forall k :: k in s4 && k != Fold(name) ==> t[k] == s4[k]
  {
    s4[Fold(name) := Header(name, [value])]
  }

  /** Copying one more caller header keeps `CopiedSoFar`. */
  lemma {:induction false} CopyStep(headers: map<string, string>, done: set<string>, s4: map<string, Header>, name: string)
    requires CopiedSoFar(headers, done, s4)
    requires name in headers && name !in done
    ensures CopiedSoFar(headers, done + {name}, UpdateValue(s4, name, headers[name]))
  {
    var t := UpdateValue(s4, name, headers[name]);
    forall k | k in t
      ensures t[k].name in done + {name} && t[k].values == [headers[t[k].name]]
    {
      if k != Fold(name) {
        assert t[k] == s4[k];
      }
    }
  }

  /** The caller's headers; none given is no headers. */
  function CallerHeaders(headers: Option<map<string, string>>): map<string, string>
  {
    if headers.Some? then headers.value else map[]
  }

  /** The port used when the URI gives none: 443 for "https", 80 for anything else. */
  function DefaultPort(scheme: Option<string>): (p: int)
    ensures p == 443 <==> scheme == Some("https")
    ensures p == 80 <==> scheme != Some("https")
  {
    if scheme == Some("https") then 443 else 80
  }

  /** The URI with its port settled: an explicit port stays, a missing one gets the default. */
  function WithDefaultPort(u: Uri): (v: Uri)
    ensures v.scheme == u.scheme && v.host == u.host && v.path == u.path
    ensures v.port.Some?
    ensures u.port.Some? ==> v.port == u.port
    ensures u.port.None? ==> v.port == Some(DefaultPort(u.scheme))
  {
    if u.port.None? then u.(port := Some(DefaultPort(u.scheme))) else u
  }

  /** Settling the port twice is settling it once. */
  lemma WithDefaultPortIdempotent(u: Uri)
    ensures WithDefaultPort(WithDefaultPort(u)) == WithDefaultPort(u)
  {
  }

  /** The status `switch`: 401, 404, any other 400..599, anything else is no error. */
  function Classify(statusCode: int): (e: Option<HttpError>)
    ensures e == Some(Unauthorized) <==> statusCode == 401
    ensures e == Some(NotFound) <==> statusCode == 404
    ensures e == Some(ServerError) <==> 400 <= statusCode <= 599 && statusCode != 401 && statusCode != 404
    ensures e.None? <==> !(400 <= statusCode <= 599)
  {
    if statusCode == 401 then Some(Unauthorized)
    else if statusCode == 404 then Some(NotFound)
    else if 400 <= statusCode <= 599 then Some(ServerError)
    else None
  }

  /** `convertHeaders` as a value: each key's spelling maps to the first of its values. */
  function Converted(s4: map<string, Header>): (m: map<string, string>)
    requires WellKeyed(s4)
  {
    map name | name in (set k | k in s4 :: s4[k].name) :: s4[Fold(name)].values[0]
  }

  /**
   * The spellings `convertHeaders` keeps are distinct and fold back to exactly
   * the response's case-insensitive keys, each with that key's first value.
   */
  lemma ConvertedKeysFoldBack(s4: map<string, Header>)
    requires WellKeyed(s4)
    ensures (set name | name in Converted(s4) :: Fold(name)) == s4.Keys
    ensures forall k :: k in s4 ==> s4[k].name in Converted(s4) && Converted(s4)[s4[k].name] == s4[k].values[0]
  {
  }

  /**
   * The response half of `sendRequest`. No response: `InvalidRequest`. An
   * unreadable body traps. An error status traps when the body is not UTF-8
   * (it is force-decoded for logging), and otherwise echoes the request
   * `data`; success carries the response body.
   */
  function Reply(data: Option<seq<byte>>, response: Option<Response>): (o: Outcome)
    requires response.Some? ==> WellKeyed(response.value.headers)
    ensures response.None? ==> o == Delivered(Completion(Some(InvalidRequest), None, None, None))
    ensures response.Some? && response.value.body.None? ==> o == Trapped(UnreadableBody)
    ensures response.Some? && response.value.body.Some? ==>
              && (o.Trapped? <==> Classify(response.value.statusCode).Some? && !response.value.bodyIsUtf8)
              && (o.Trapped? ==> o.trap == UndecodableBody)
    ensures response.Some? && o.Delivered? ==>
              && o.completion.error == Classify(response.value.statusCode)
              && o.completion.status == Some(response.value.statusCode)
              && o.completion.headers == Some(Converted(response.value.headers))
              && o.completion.data == if o.completion.error.Some? then data else response.value.body
  {
    match response
    case None => Delivered(Completion(Some(InvalidRequest), None, None, None))
    case Some(r) =>
      if r.body.None? then Trapped(UnreadableBody)
      else
        var error := Classify(r.statusCode);
        if error.Some? && !r.bodyIsUtf8 then Trapped(UndecodableBody)
        else if error.Some? then Delivered(Completion(error, data, Some(r.statusCode), Some(Converted(r.headers))))
        else Delivered(Completion(None, r.body, Some(r.statusCode), Some(Converted(r.headers))))
  }

  /**
   * On an error completion the data slot holds the caller's request data when
   * a response arrived, and nothing when none did.
   */
  lemma ReplyErrorEchoesData(data: Option<seq<byte>>, response: Option<Response>)
    requires response.Some? ==> WellKeyed(response.value.headers)
    requires Reply(data, response).Delivered?
    requires Reply(data, response).completion.error.Some?
    ensures response.Some? ==> Reply(data, response).completion.data == data
    ensures response.None? ==> Reply(data, response).completion.data.None?
  {
  }

  /**
   * The whole of `sendRequest` as a value: an unparsable URL or a client that
   * cannot be built gives `InvalidUri`; a URI without a path traps; otherwise
   * the response decides.
   */
  function Dispatch(parsed: Option<Uri>, data: Option<seq<byte>>, clientBuilt: bool, response: Option<Response>): (o: Outcome)
    requires response.Some? ==> WellKeyed(response.value.headers)
    ensures parsed.None? || !clientBuilt ==> o == Delivered(Completion(Some(InvalidUri), None, None, None))
    ensures parsed.Some? && clientBuilt && parsed.value.path.None? ==> o == Trapped(MissingPath)
    ensures parsed.Some? && clientBuilt && parsed.value.path.Some? ==> o == Reply(data, response)
  {
    if parsed.None? || !clientBuilt then Delivered(Completion(Some(InvalidUri), None, None, None))
    else if parsed.value.path.None? then Trapped(MissingPath)
    else Reply(data, response)
  }

  /**
   * The caller-header loop of `sendRequest`: each caller header becomes a
   * one-value list under its case-insensitive key. Two names with the same key
   * land on one entry, holding the spelling and value of whichever name came
   * last; that depends on the dictionary's iteration order, which the
   * contract leaves open.
   */
  method BuildHeaders(headers: map<string, string>) returns (s4: map<string, Header>)
    ensures CaseInsensitiveCopy(headers, s4)
  {
    s4 := map[];
    var remaining := headers.Keys;
    while remaining != {}
      invariant remaining <= headers.Keys
      invariant CopiedSoFar(headers, headers.Keys - remaining, s4)
      decreases remaining
    {
      var name :| name in remaining;
      CopyStep(headers, headers.Keys - remaining, s4, name);
      s4 := UpdateValue(s4, name, headers[name]);
      remaining := remaining - {name};
      assert headers.Keys - remaining == (headers.Keys - (remaining + {name})) + {name};
    }
  }

  /** `convertHeaders`: walks the response headers and stores each key's first value under its spelling. */
  method ConvertHeaders(s4: map<string, Header>) returns (m: map<string, string>)
    requires WellKeyed(s4)
    ensures m.Keys == set k | k in s4 :: s4[k].name
    ensures forall k :: k in s4 ==> m[s4[k].name] == s4[k].values[0]
    ensures m == Converted(s4)
  {
    m := map[];
    var remaining := s4.Keys;
    while remaining != {}
      invariant remaining <= s4.Keys
      invariant m.Keys == set k | k in s4 && k !in remaining :: s4[k].name
      invariant forall k :: k in s4 && k !in remaining ==> m[s4[k].name] == s4[k].values[0]
      decreases remaining
    {
      var key :| key in remaining;
      m := m[s4[key].name := s4[key].values[0]];
      remaining := remaining - {key};
    }
  }

  /**
   * `sendRequest`. The request is sent only when the URL parsed, the client
   * was built and the URI has a path; its URI has the port settled.
   */
  method SendRequest(parsed: Option<Uri>, verb: Method, headers: Option<map<string, string>>, data: Option<seq<byte>>,
                     clientBuilt: bool, response: Option<Response>)
    returns (sent: Option<Request>, outcome: Outcome)
    requires response.Some? ==> WellKeyed(response.value.headers)
    ensures sent.Some? <==> parsed.Some? && clientBuilt && parsed.value.path.Some?
    ensures sent.Some? ==>
              && sent.value.verb == verb
              && sent.value.uri == WithDefaultPort(parsed.value)
              && sent.value.path == parsed.value.path.value
              && sent.value.body == data
              && CaseInsensitiveCopy(CallerHeaders(headers), sent.value.headers)
    ensures outcome == Dispatch(parsed, data, clientBuilt, response)
  {
    sent := None;
    if parsed.None? {
      return sent, Delivered(Completion(Some(InvalidUri), None, None, None));
    }
    var requestUri := WithDefaultPort(parsed.value);
    if !clientBuilt {
      return sent, Delivered(Completion(Some(InvalidUri), None, None, None));
    }
    var s4headers := BuildHeaders(CallerHeaders(headers));
    if requestUri.path.None? {
      return sent, Trapped(MissingPath);
    }
    sent := Some(Request(verb, requestUri, requestUri.path.value, s4headers, data));
    outcome := Respond(data, response);
  }

  /** The response half of `sendRequest`, run once the request has been handed to the client. */
  method Respond(data: Option<seq<byte>>, response: Option<Response>) returns (outcome: Outcome)
    requires response.Some? ==> WellKeyed(response.value.headers)
    ensures outcome == Reply(data, response)
  {
    if response.None? {
      return Delivered(Completion(Some(InvalidRequest), None, None, None));
    }
    var r := response.value;
    if r.body.None? {
      return Trapped(UnreadableBody);
    }
    var converted := ConvertHeaders(r.headers);
    match Classify(r.statusCode)
    case Some(error) =>
      if !r.bodyIsUtf8 {
        return Trapped(UndecodableBody);
      }
      outcome := Delivered(Completion(Some(error), data, Some(r.statusCode), Some(converted)));
    case None =>
      outcome := Delivered(Completion(None, r.body, Some(r.statusCode), Some(converted)));
  }

  /** GET: method `.get`, no body. */
  method GetUrl(parsed: Option<Uri>, headers: Option<map<string, string>>, clientBuilt: bool, response: Option<Response>)
    returns (sent: Option<Request>, outcome: Outcome)
    requires response.Some? ==> WellKeyed(response.value.headers)
    ensures sent.Some? <==> parsed.Some? && clientBuilt && parsed.value.path.Some?
    ensures sent.Some? ==>
              && sent.value.verb == Get
              && sent.value.uri == WithDefaultPort(parsed.value)
              && sent.value.path == parsed.value.path.value
              && sent.value.body.None?
              && CaseInsensitiveCopy(CallerHeaders(headers), sent.value.headers)
    ensures outcome == Dispatch(parsed, None, clientBuilt, response)
  {
    sent, outcome := SendRequest(parsed, Get, headers, None, clientBuilt, response);
  }

  /** PUT: method `.put`, with the caller's data. */
  method PutUrl(parsed: Option<Uri>, headers: Option<map<string, string>>, data: Option<seq<byte>>, clientBuilt: bool,
                response: Option<Response>)
    returns (sent: Option<Request>, outcome: Outcome)
    requires response.Some? ==> WellKeyed(response.value.headers)
    ensures sent.Some? <==> parsed.Some? && clientBuilt && parsed.value.path.Some?
    ensures sent.Some? ==>
              && sent.value.verb == Put
              && sent.value.uri == WithDefaultPort(parsed.value)
              && sent.value.path == parsed.value.path.value
              && sent.value.body == data
              && CaseInsensitiveCopy(CallerHeaders(headers), sent.value.headers)
    ensures outcome == Dispatch(parsed, data, clientBuilt, response)
  {
    sent, outcome := SendRequest(parsed, Put, headers, data, clientBuilt, response);
  }

  /** DELETE: method `.delete`, no body. */
  method DeleteUrl(parsed: Option<Uri>, headers: Option<map<string, string>>, clientBuilt: bool, response: Option<Response>)
    returns (sent: Option<Request>, outcome: Outcome)
    requires response.Some? ==> WellKeyed(response.value.headers)
    ensures sent.Some? <==> parsed.Some? && clientBuilt && parsed.value.path.Some?
    ensures sent.Some? ==>
              && sent.value.verb == Delete
              && sent.value.uri == WithDefaultPort(parsed.value)
              && sent.value.path == parsed.value.path.value
              && sent.value.body.None?
              && CaseInsensitiveCopy(CallerHeaders(headers), sent.value.headers)
    ensures outcome == Dispatch(parsed, None, clientBuilt, response)
  {
    sent, outcome := SendRequest(parsed, Delete, headers, None, clientBuilt, response);
  }

  /** POST: method `.post`, with the caller's data. */
  method PostUrl(parsed: Option<Uri>, headers: Option<map<string, string>>, data: Option<seq<byte>>, clientBuilt: bool,
                 response: Option<Response>)
    returns (sent: Option<Request>, outcome: Outcome)
    requires response.Some? ==> WellKeyed(response.value.headers)
    ensures sent.Some? <==> parsed.Some? && clientBuilt && parsed.value.path.Some?
    ensures sent.Some? ==>
              && sent.value.verb == Post
              && sent.value.uri == WithDefaultPort(parsed.value)
              && sent.value.path == parsed.value.path.value
              && sent.value.body == data
              && CaseInsensitiveCopy(CallerHeaders(headers), sent.value.headers)
    ensures outcome == Dispatch(parsed, data, clientBuilt, response)
  {
    sent, outcome := SendRequest(parsed, Post, headers, data, clientBuilt, response);
  }

  /** HEAD: method `.head`, no body. */
  method HeadUrl(parsed: Option<Uri>, headers: Option<map<string, string>>, clientBuilt: bool, response: Option<Response>)
    returns (sent: Option<Request>, outcome: Outcome)
    requires response.Some? ==> WellKeyed(response.value.headers)
    ensures sent.Some? <==> parsed.Some? && clientBuilt && parsed.value.path.Some?
    ensures sent.Some? ==>
              && sent.value.verb == Head
              && sent.value.uri == WithDefaultPort(parsed.value)
              && sent.value.path == parsed.value.path.value
              && sent.value.body.None?
              && CaseInsensitiveCopy(CallerHeaders(headers), sent.value.headers)
    ensures outcome == Dispatch(parsed, None, clientBuilt, response)
  {
    sent, outcome := SendRequest(parsed, Head, headers, None, clientBuilt, response);
  }
}
