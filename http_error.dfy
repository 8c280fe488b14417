/**
 * The error enumeration of the current facade. Its integer raw values are part
 * of the contract: callers compare `rawValue`. The three HTTP-semantic cases
 * carry the status codes of sections 15.5.2 (401) and 15.5.5 (404) of RFC 9110
 * and a representative 500 for the 4xx/5xx classes of sections 15.5 and 15.6.
 */
module HttpErrors {
  import opened Base

  datatype HttpError =
    | ConnectionFailure      // no connection could be established
    | InvalidUri             // the URI was invalid
    | InvalidRequest         // the request could not be sent
    | FailedParsingResponse  // the response body could not be read
    | Unauthorized           // HTTP 401
    | NotFound               // HTTP 404
    | ServerError            // any other HTTP 4xx or 5xx

  /** `rawValue`. The four non-HTTP cases take 1 to 4, below every HTTP status code. */
  function RawValue(e: HttpError): (r: int)
    ensures e == Unauthorized <==> r == 401
    ensures e == NotFound <==> r == 404
    ensures e == ServerError <==> r == 500
    ensures e == ConnectionFailure <==> r == 1
    ensures e == InvalidUri <==> r == 2
    ensures e == InvalidRequest <==> r == 3
    ensures e == FailedParsingResponse <==> r == 4
    ensures e in {ConnectionFailure, InvalidUri, InvalidRequest, FailedParsingResponse} <==> 1 <= r <= 4
    ensures r < 100 || 400 <= r <= 599
  {
    match e
    case ConnectionFailure => 1
    case InvalidUri => 2
    case InvalidRequest => 3
    case FailedParsingResponse => 4
    case Unauthorized => 401
    case NotFound => 404
    case ServerError => 500
  }

  /** `init?(rawValue:)`: the case with that raw value, if there is one. */
  function FromRawValue(n: int): (r: Option<HttpError>)
    ensures r.Some? ==> RawValue(r.value) == n
    ensures r.None? ==> forall e :: RawValue(e) != n
  {
    if n == 1 then Some(ConnectionFailure)
    else if n == 2 then Some(InvalidUri)
    else if n == 3 then Some(InvalidRequest)
    else if n == 4 then Some(FailedParsingResponse)
    else if n == 401 then Some(Unauthorized)
    else if n == 404 then Some(NotFound)
    else if n == 500 then Some(ServerError)
    else None
  }

  /** Every case, once each. */
  function AllCases(): (cs: seq<HttpError>)
    ensures |cs| == 7
    ensures forall e :: e in cs
    ensures forall i, j :: 0 <= i < j < |cs| ==> RawValue(cs[i]) != RawValue(cs[j])
  {
    var cs := [ConnectionFailure, InvalidUri, InvalidRequest, FailedParsingResponse, Unauthorized, NotFound, ServerError];
    assert forall e :: e in cs by {
      forall e: HttpError ensures e in cs {
        assert cs[Ordinal(e)] == e;
      }
    }
    cs
  }

  /** Position of a case in declaration order. */
  function Ordinal(e: HttpError): nat
  {
    match e
    case ConnectionFailure => 0
    case InvalidUri => 1
    case InvalidRequest => 2
    case FailedParsingResponse => 3
    case Unauthorized => 4
    case NotFound => 5
    case ServerError => 6
  }

  /** Distinct cases have distinct raw values. */
  lemma RawValueInjective(a: HttpError, b: HttpError)
    requires RawValue(a) == RawValue(b)
    ensures a == b
  {
  }

  /** Decoding a case's raw value yields that case. */
  lemma RawValueRoundTrip(e: HttpError)
    ensures FromRawValue(RawValue(e)) == Some(e)
  {
  }
}
