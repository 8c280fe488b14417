# Simple HTTP client facade: a Dafny model

This project models the core of a thin Swift convenience layer over an HTTP
transport. The layer exposes GET, PUT, DELETE, POST and HEAD helpers. Each
helper takes an endpoint descriptor and forwards the call to the transport. It
then turns what comes back into one (error, status, headers, data) completion.

The project covers five parts of the source:

- `Resource` (`base.dfy`, `http_resource.dfy`): the immutable `HttpResource`
  endpoint descriptor (schema, host, optional port, path). It covers the
  initializer with its defaults, the computed `uri`
  (`scheme "://" authority path`, section 3 of RFC 3986), and the
  non-normalising `resourceByAddingPathComponent`.
- `HttpErrors` (`http_error.dfy`): the seven-case error enumeration and its
  integer raw values, with the failable decoding from a raw value.
- `HttpClient` (`http_client.dfy`): the current facade.
  - `sendRequest` builds the request options and copies the caller headers in a
    loop. `handleResponse` flattens the response headers in a loop and
    classifies the status. Both are imperative methods, each proved against the
    pure function that specifies it.
  - Status 401 (section 15.5.2 of RFC 9110) and 404 (section 15.5.5) are
    singled out. Any other status in 400..599 (sections 15.5 and 15.6) is a
    server error.
- `HTTPSClient` (`https_client.dfy`): the older facade, with its own error type.
  - A missing port defaults to 443 for https and to 80 otherwise (sections 4.2.1
    and 4.2.2 of RFC 9110).
  - Caller headers go under case-insensitive keys.
  - A missing response gives `InvalidRequest`.
  - On error, the request data is echoed back instead of the response body.
  - Three force-unwraps in this code trap when their value is nil. They are
    modelled as an explicit `Trapped` outcome.
- `HeaderMaps` (`base.dfy`): the shared "first value of each header" view.

The transport is an input, never behaviour. Several things become parameters:

- the response, or none when the transport fails;
- the outcome of reading the body;
- for the older facade: the parsed URI, whether a client could be built, and
  whether the body decodes as UTF-8.

The callback's single invocation becomes the returned completion. Swift
dictionaries iterate in an unspecified order. The loops therefore pick their
next key with `:|`, and every contract holds whatever order is chosen.

## Model

| member | source | states |
|---|---|---|
| `Resource.Init` | Sources/HttpResource.swift:47-52 | schema, host, port and path are stored unchanged; port defaults to none, path to "" |
| `Resource.InitDefaults` | Sources/HttpResource.swift:47 | a resource built from schema and host only has no port, an empty path and the URI `schema://host` |
| `Resource.Uri` | Sources/HttpResource.swift:29-36 | the URI splits back into `schema "://" host`, then `":" port` exactly when a port is given, then the path, with the matching length |
| `Resource.UriWithoutPort` | Sources/HttpResource.swift:29-36 | with no port the URI is `schema + "://" + host + path` |
| `Resource.UriWithPort` | Sources/HttpResource.swift:29-36 | with port p the URI is `schema + "://" + host + ":" + p + path` |
| `Resource.UriStartsWithAuthority` | Sources/HttpResource.swift:31 | every URI begins with `schema + "://" + host` |
| `Resource.AddingPathComponent` | Sources/HttpResource.swift:59-61 | schema, host and port are preserved; the new path is the old path followed by the component verbatim |
| `Resource.AddingPathComponentExtendsUri` | Sources/HttpResource.swift:59-61 | appending a component to the path appends it to the URI |
| `Resource.AddingEmptyComponent` | Sources/HttpResource.swift:60 | appending "" gives back the same resource |
| `Resource.AddingTwoComponents` | Sources/HttpResource.swift:60 | appending a then b equals appending a + b: no separator inserted or normalised |
| `Resource.FullUriExample` | Tests/SimpleHttpClientTests/HttpClientTest.swift:33-36 | https, httpbin.org, port 443 plus "/a?e=f&g=h" gives "https://httpbin.org:443/a?e=f&g=h" |
| `Resource.AddingComponentExample` | Tests/SimpleHttpClientTests/HttpClientTest.swift:25-31 | appending "/component" keeps https, httpbin.org and 443 and gives path "/component" |
| `HttpErrors.RawValue` | Sources/HttpError.swift:16-38 | ConnectionFailure is 1, InvalidUri 2, InvalidRequest 3, FailedParsingResponse 4, Unauthorized 401, NotFound 404, ServerError 500, each as an if-and-only-if; the four non-HTTP cases are exactly those in 1..4, below every HTTP status |
| `HttpErrors.FromRawValue` | Sources/HttpError.swift:16 | a decoded case has the given raw value; no case is returned only when no case has that raw value |
| `HttpErrors.AllCases` | Sources/HttpError.swift:16-38 | there are seven cases, every case is listed, and their raw values are pairwise distinct |
| `HttpErrors.RawValueInjective` | Sources/HttpError.swift:16-38 | two cases with the same raw value are the same case |
| `HttpErrors.RawValueRoundTrip` | Sources/HttpError.swift:16 | decoding a case's raw value yields that case |
| `HttpClient.ClassifyStatus` | Sources/HttpClient.swift:148-160 | 401 iff Unauthorized, 404 iff NotFound, other 400..599 iff ServerError, no error iff outside 400..599; a non-ServerError result's raw value is the status |
| `HttpClient.Handle` | Sources/HttpClient.swift:128-165 | no response gives (ConnectionFailure, none, none, none); a failed body read, and only that, gives FailedParsingResponse before classification; otherwise the status classification; every response branch carries the real status, the headers reduced to their first values and the bytes read |
| `HttpClient.FlattenHeaders` | Sources/HttpClient.swift:132-138 | the result has exactly the response's header names, each mapped to the first value of its list (values required non-empty) |
| `HttpClient.HandleResponse` | Sources/HttpClient.swift:128-165 | the loop-built completion equals `Handle` of the response |
| `HttpClient.RequestUrlMatchesUri` | Sources/HttpClient.swift:99-104 | no request option is a port, and the URL assembled from the options equals the resource's URI exactly when the resource has no port |
| `HttpClient.ApplyHeaders` | Sources/HttpClient.swift:110-114 | the request headers are exactly the caller's headers, name for name |
| `HttpClient.SendRequest` | Sources/HttpClient.swift:96-123 | options are `[method, schema + "://", hostname, path]` in that order; headers are the caller's, or none; body is the caller's data; the completion is `Handle` of the response |
| `HttpClient.Get` | Sources/HttpClient.swift:36-39 | method "GET", no body, completion as `Handle` |
| `HttpClient.Put` | Sources/HttpClient.swift:49-51 | method "PUT", the caller's data as body, completion as `Handle` |
| `HttpClient.Delete` | Sources/HttpClient.swift:60-62 | method "DELETE", no body, completion as `Handle` |
| `HttpClient.Post` | Sources/HttpClient.swift:72-74 | method "POST", the caller's data as body, completion as `Handle` |
| `HttpClient.Head` | Sources/HttpClient.swift:83-85 | method "HEAD", no body, completion as `Handle` |
| `HTTPSClient.Fold` | Sources/HTTPSClient.swift:103 | the case-insensitive key has the name's length and is its character-by-character lower case |
| `HTTPSClient.DefaultPort` | Sources/HTTPSClient.swift:89 | 443 exactly when the scheme is "https", 80 exactly otherwise (including no scheme) |
| `HTTPSClient.WithDefaultPort` | Sources/HTTPSClient.swift:88-90 | scheme, host and path unchanged; an explicit port is kept; a missing one becomes the default; a port is always present afterwards |
| `HTTPSClient.WithDefaultPortIdempotent` | Sources/HTTPSClient.swift:88-90 | settling the port twice equals settling it once |
| `HTTPSClient.Classify` | Sources/HTTPSClient.swift:128-150 | 401 iff Unauthorized, 404 iff NotFound, other 400..599 iff ServerError, no error iff outside 400..599 |
| `HTTPSClient.ConvertedKeysFoldBack` | Sources/HTTPSClient.swift:159-165 | the converted header names fold back to exactly the response's case-insensitive keys, each with that key's first value |
| `HTTPSClient.Reply` | Sources/HTTPSClient.swift:121-156 | no response gives (InvalidRequest, none, none, none); an unreadable body traps; a readable body traps exactly when the status is an error and the body is not UTF-8, and then the trap is the undecodable body; otherwise a completion is delivered whose error is the classification, with the real status and converted headers, and whose data slot holds the request data on error and the response body on success |
| `HTTPSClient.ReplyErrorEchoesData` | Sources/HTTPSClient.swift:128-156 | every delivered error completion carries the request data when a response arrived, and no data when none did |
| `HTTPSClient.Dispatch` | Sources/HTTPSClient.swift:81-157 | an unparsable URL or a client that cannot be built gives (InvalidUri, none, none, none); a URI without a path traps; otherwise the response decides as in `Reply` |
| `HTTPSClient.UpdateValue` | Sources/HTTPSClient.swift:103 | the folded name's key is added or replaced by the name's own spelling with a one-value list; every other entry is unchanged |
| `HTTPSClient.CopyStep` | Sources/HTTPSClient.swift:100-104 | one iteration of the caller-header loop preserves the loop's invariant `CopiedSoFar` |
| `HTTPSClient.BuildHeaders` | Sources/HTTPSClient.swift:97-105 | every caller header is copied: every caller name's case-insensitive key is present, and every entry is the one-value header of a caller name with that key, spelling and value from the same name |
| `HTTPSClient.CopiedKeys` | Sources/HTTPSClient.swift:97-105 | after the copy, the keys are exactly the folded caller names |
| `HTTPSClient.CopiedExactly` | Sources/HTTPSClient.swift:97-105 | after the copy, a caller name that no other caller name shares its key with is stored exactly, with its own spelling and value |
| `HTTPSClient.ConvertHeaders` | Sources/HTTPSClient.swift:159-165 | the result's names are the keys' spellings, each mapped to the first value of its list |
| `HTTPSClient.SendRequest` | Sources/HTTPSClient.swift:81-157 | a request is sent exactly when the URL parsed, the client was built and the URI has a path; it carries the method, the URI with its port settled, the path, the case-insensitive headers and the data; the outcome is `Dispatch` |
| `HTTPSClient.Respond` | Sources/HTTPSClient.swift:121-156 | the response half of the request computes exactly `Reply` |
| `HTTPSClient.GetUrl` | Sources/HTTPSClient.swift:45-47 | a request is sent exactly when the URL parsed, the client was built and the URI has a path; it carries method `.get`, the URI with its port settled, the path, the caller's headers under case-insensitive keys and no body; outcome as `Dispatch` without data |
| `HTTPSClient.PutUrl` | Sources/HTTPSClient.swift:50-52 | a request is sent exactly when the URL parsed, the client was built and the URI has a path; it carries method `.put`, the URI with its port settled, the path, the caller's headers under case-insensitive keys and the caller's data as body; outcome as `Dispatch` |
| `HTTPSClient.DeleteUrl` | Sources/HTTPSClient.swift:55-57 | a request is sent exactly when the URL parsed, the client was built and the URI has a path; it carries method `.delete`, the URI with its port settled, the path, the caller's headers under case-insensitive keys and no body; outcome as `Dispatch` without data |
| `HTTPSClient.PostUrl` | Sources/HTTPSClient.swift:60-62 | a request is sent exactly when the URL parsed, the client was built and the URI has a path; it carries method `.post`, the URI with its port settled, the path, the caller's headers under case-insensitive keys and the caller's data as body; outcome as `Dispatch` |
| `HTTPSClient.HeadUrl` | Sources/HTTPSClient.swift:65-67 | a request is sent exactly when the URL parsed, the client was built and the URI has a path; it carries method `.head`, the URI with its port settled, the path, the caller's headers under case-insensitive keys and no body; outcome as `Dispatch` without data |

## Left out

- Network I/O and the transport library are inputs, not behaviour. This covers
  issuing the request, `end`, `readAllData`, `Client(uri:)`, `send`, URL parsing
  and `becomeBuffer`.
- Logging (`logger.debug`, `logger.error`) is left out. The one exception is the
  forced UTF-8 decode of an error body in the older facade: it can trap, so the
  model keeps it.
- Asynchronous delivery of the completion handler is not modelled. The handler
  is called once, and that call is the returned value.
- The URLSession variant is commented out at the end of `Sources/HttpClient.swift`.
  `Sources/HttpResponse.swift` and `Sources/HttpUtils.swift` are entirely
  commented out. These, and the package manifests, are not part of this model.
- The `NSData` and byte-array copying in the older facade is a buffer conversion.
  Request data and the response body are modelled as byte sequences directly.
- The empty `class test` in `Sources/HTTPSClient.swift` has nothing to model.
- `HTTPSClient.Fold` lower-cases ASCII letters only. Swift's `lowercased()`
  also folds non-ASCII letters.
- Response header collections are required to have a value in every list,
  since both facades read `value[0]`.
- In the older facade, a response collection's keys and spellings are required
  to agree (`WellKeyed`); its case-insensitive keying is the transport's.
- `HTTPSClient.BuildHeaders` does not say which caller name wins when two
  names differ only in case. That depends on dictionary iteration order.
- `HTTPSClient.UpdateValue` assumes that `updateValue(_:forKey:)` stores the
  new key when an equal key is already present. That is how the Swift 3
  standard library's native dictionary behaves.
  A library that kept the stored key instead would pair the first spelling
  with the last value. The model does not capture that behaviour.
- `HTTPSClient.ConnectionFailure(message:)` is declared but no code path
  produces it. The model declares it too.
- `HttpClient.RequestUrl` is an assumption about the transport, which this
  model does not include. It assumes the options' URL pieces are concatenated
  in option order, with no normalisation (such as adding a leading "/" to the
  path). `HttpClient.RequestUrlMatchesUri` is a statement under that
  assumption.
