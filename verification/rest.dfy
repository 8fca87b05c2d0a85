/**
 * The HTTP layer. The network itself is an oracle: a total function from the
 * request (URL and form payload) to what `requests.post` does with it —
 * deliver a response or raise. Everything around that call is modelled.
 */
module Rest {
  import opened Wrappers
  import opened Failures
  import opened Json

  /** A response. The status code is carried but, as in the crawler, never
      inspected; `body` is `None` when the body is not valid JSON. */
  datatype Response = Response(status: int, body: Option<Json>)

  /** What one `requests.post` call does. */
  datatype Exchange = Delivered(response: Response) | Raised(exc: Exc)

  /** The form payload of a POST. */
  type Payload = map<string, Json>

  /** The remote service as seen by one crawl stage. */
  type Network = (string, Payload) -> Exchange

  /** How `Rest.post_uri` ends: it returns a response or `None`, or an
      exception it does not catch passes through it. */
  datatype Posted = Returned(response: Option<Response>) | Escaped(exc: Exc)

  /** `Rest.post_uri`: one POST, no retry; every exception of the
      `RequestException` family becomes `None`, a response is passed on as is. */
  function PostUri(net: Network, uri: string, data: Payload): (r: Posted)
    ensures r == Returned(None) <==> net(uri, data).Raised? && IsRequestException(net(uri, data).exc)
    ensures r.Returned? && r.response.Some? <==> net(uri, data).Delivered?
    ensures r.Returned? && r.response.Some? ==> r.response.value == net(uri, data).response
    ensures r.Escaped? ==> net(uri, data) == Raised(r.exc) && !IsRequestException(r.exc)
  {
    match net(uri, data)
    case Delivered(response) => Returned(Some(response))
    case Raised(HttpError) => Returned(None)
    case Raised(Timeout) => Returned(None)
    case Raised(e) => if IsRequestException(e) then Returned(None) else Escaped(e)
  }

  /** `response.json()` on what `post_uri` returned: `None` has no `json`
      attribute, an undecodable body raises, the status code plays no part. */
  function DecodeBody(response: Option<Response>): (r: Result<Json, Fault>)
    ensures response.None? ==> r == Failure(NoResponse)
    ensures response.Some? && response.value.body.None? ==> r == Failure(Undecodable)
    ensures response.Some? && response.value.body.Some? ==> r == Success(response.value.body.value)
  {
    match response
    case None => Failure(NoResponse)
    case Some(Response(_, None)) => Failure(Undecodable)
    case Some(Response(_, Some(j))) => Success(j)
  }

  /** The units a fetch iterates over: POST, decode the body, start the
      `for unit in …` loop; or the exception raised before the first unit. */
  function Reply(net: Network, uri: string, data: Payload): (r: Result<seq<Json>, Fault>)
    ensures net(uri, data).Raised? && IsRequestException(net(uri, data).exc) ==> r == Failure(NoResponse)
    ensures net(uri, data).Raised? && !IsRequestException(net(uri, data).exc) ==> r == Failure(Uncaught(net(uri, data).exc))
    ensures r.Success? <==> net(uri, data).Delivered? && net(uri, data).response.body.Some?
                            && Units(net(uri, data).response.body.value).Success?
    ensures net(uri, data).Delivered? && net(uri, data).response.body.None? ==> r == Failure(Undecodable)
    ensures net(uri, data).Delivered? && net(uri, data).response.body.Some? ==> r == Units(net(uri, data).response.body.value)
  {
    match PostUri(net, uri, data)
    case Escaped(e) => Failure(Uncaught(e))
    case Returned(response) =>
      match DecodeBody(response)
      case Failure(f) => Failure(f)
      case Success(body) => Units(body)
  }
}
