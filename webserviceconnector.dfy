/** The web-service connector base: its exception family, container-id
    normalisation, the HTTP status classification that turns a response into an
    exception (status codes of section 15 of RFC 9110, and 429 of section 4 of
    RFC 6585), and the request headers it keeps. */
module WebServiceConnector {
  import opened Wrappers
  import opened Values

  const ServiceName: string := "web service"
  const LogMsgPrefix: string := "Retrieval Error"

  /** The exception subclasses; each fixes the message number it raises. */
  datatype Kind =
    | IO | InvalidArgs | ConnectionRetrieval | Requests | ConnectionManager | AuthRetrieval
    | HttpRequest | HttpDNE | HttpServer | HttpAuth | HttpPermissions | HttpConflict
    | Timeout | UnexpectedResponse

  function MessageNumber(k: Kind): int {
    match k
    case IO => 932303
    case InvalidArgs => 932308
    case ConnectionRetrieval => 932315
    case Requests => 932316
    case ConnectionManager => 932324
    case AuthRetrieval => 932325
    case HttpRequest => 932327
    case HttpDNE => 932328
    case HttpServer => 932329
    case HttpAuth => 932330
    case HttpPermissions => 932331
    case HttpConflict => 932342
    case Timeout => 932343
    case UnexpectedResponse => 932349
  }

  /** The kind is recoverable from the message number it raises. */
  function KindOfNumber(n: int): Option<Kind> {
    if n == 932303 then Some(IO)
    else if n == 932308 then Some(InvalidArgs)
    else if n == 932315 then Some(ConnectionRetrieval)
    else if n == 932316 then Some(Requests)
    else if n == 932324 then Some(ConnectionManager)
    else if n == 932325 then Some(AuthRetrieval)
    else if n == 932327 then Some(HttpRequest)
    else if n == 932328 then Some(HttpDNE)
    else if n == 932329 then Some(HttpServer)
    else if n == 932330 then Some(HttpAuth)
    else if n == 932331 then Some(HttpPermissions)
    else if n == 932342 then Some(HttpConflict)
    else if n == 932343 then Some(Timeout)
    else if n == 932349 then Some(UnexpectedResponse)
    else None
  }

  lemma MessageNumberRoundTrip(k: Kind)
    ensures KindOfNumber(MessageNumber(k)) == Some(k)
  {
  }

  /** A raised connector exception; `details` is None only where a caller passes None. */
  datatype WSCException = WSCException(
    messageNumber: int,
    messageParameters: seq<string>,
    details: Option<string>,
    message: string)

  /** The base constructor: missing or empty parameters become the empty list,
      anything else is rendered element by element with `str`. */
  function NewException(number: int, params: Option<seq<Value>>, details: Option<string>, message: string): (e: WSCException)
    ensures e.messageNumber == number && e.details == details && e.message == message
    ensures (params.None? || params.value == []) ==> e.messageParameters == []
    ensures params.Some? ==> |e.messageParameters| == |params.value|
    ensures params.Some? ==> forall i :: 0 <= i < |params.value| ==> e.messageParameters[i] == PyStr(params.value[i])
  {
    if params.None? || params.value == [] then WSCException(number, [], details, message)
    else WSCException(number, seq(|params.value|, i requires 0 <= i < |params.value| => PyStr(params.value[i])), details, message)
  }

  /** Raising one of the subclasses. */
  function Raise(k: Kind, params: seq<string>, details: string): (e: WSCException)
    ensures e.messageNumber == MessageNumber(k)
    ensures e.messageParameters == params && e.details == Some(details) && e.message == ""
  {
    NewException(MessageNumber(k), Some(seq(|params|, i requires 0 <= i < |params| => Str(params[i]))), Some(details), "")
  }

  /** A falsy container id or "/" stands for the service's root container. */
  function NormalizeContainerId(containerId: Option<string>, rootId: string): (r: string)
    ensures containerId.Some? && containerId.value != "" && containerId.value != "/" ==> r == containerId.value
    ensures (containerId.None? || containerId.value in {"", "/"}) ==> r == rootId
  {
    if containerId.None? || containerId.value == "" || containerId.value == "/" then rootId
    else containerId.value
  }

  /** Normalising an id twice is normalising it once. */
  lemma NormalizeIdempotent(containerId: Option<string>, rootId: string)
    ensures NormalizeContainerId(Some(NormalizeContainerId(containerId, rootId)), rootId)
         == NormalizeContainerId(containerId, rootId)
  {
  }

  // ---------------------------------------------------------------------------
  // responses

  datatype Response = Response(status: int, text: string, reason: string, url: string)

  /** The statuses a request accepts: 200 to 204, and 308. */
  predicate IsSuccess(status: int) {
    200 <= status < 205 || status == 308
  }

  /** The exception kind `_handleErrorCodes` raises for a status, if any. */
  function ErrorKind(status: int): (r: Option<Kind>)
    ensures r.Some? <==> (400 <= status < 500 || status == 500 || status == 503)
  {
    if status == 401 then Some(HttpAuth)
    else if status == 403 then Some(HttpPermissions)
    else if status == 404 then Some(HttpDNE)
    else if status == 409 then Some(HttpConflict)
    else if 400 <= status < 500 && status != 429 then Some(HttpRequest)
    else if status == 500 || status == 429 || status == 503 then Some(HttpServer)
    else None
  }

  /** Client errors other than 429 are reported as client-side kinds; 429, 500 and
      503 as a server error; nothing else is an error. */
  lemma ErrorKindClasses(status: int)
    ensures ErrorKind(status) == Some(HttpServer) <==> status in {429, 500, 503}
    ensures 400 <= status < 500 && status != 429 ==>
              ErrorKind(status).value in {HttpAuth, HttpPermissions, HttpDNE, HttpConflict, HttpRequest}
    ensures ErrorKind(status) == Some(HttpRequest) <==>
              400 <= status < 500 && status !in {401, 403, 404, 409, 429}
    ensures IsSuccess(status) ==> ErrorKind(status).None?
  {
  }

  /** The detail attached to an HTTP error: the body, or the reason phrase when the body is empty. */
  function ErrorContent(response: Response): string {
    if response.text == "" then response.reason else response.text
  }

  /** `_handleErrorCodes`: the exception raised for a failed response, or None when it returns normally. */
  function HandleErrorCodes(response: Response): (r: Option<WSCException>)
    ensures r.Some? <==> ErrorKind(response.status).Some?
    ensures r.Some? ==> r.value.messageNumber == MessageNumber(ErrorKind(response.status).value)
    ensures r.Some? ==> r.value.messageParameters == [LogMsgPrefix, ServiceName, response.url]
    ensures r.Some? ==> r.value.details == Some(if response.text != "" then response.text else response.reason)
  {
    match ErrorKind(response.status)
    case Some(k) => Some(Raise(k, [LogMsgPrefix, ServiceName, response.url], ErrorContent(response)))
    case None => None
  }

  /** The outcome of `_makeRequest` once a response is in hand: the response on
      success, the exception for an error status, and no response at all for a
      status that is neither (such as 502). */
  function RequestOutcome(response: Response): (r: Result<Option<Response>, WSCException>)
    ensures IsSuccess(response.status) ==> r == Success(Some(response))
    ensures r.Failure? <==> !IsSuccess(response.status) && ErrorKind(response.status).Some?
    ensures r == Success(None) <==> !IsSuccess(response.status) && ErrorKind(response.status).None?
  {
    if IsSuccess(response.status) then Success(Some(response))
    else match HandleErrorCodes(response)
      case Some(e) => Failure(e)
      case None => Success(None)
  }

  // ---------------------------------------------------------------------------
  // request headers

  /** A value `str.encode('latin-1')` accepts. */
  predicate Latin1(s: string) {
    forall i :: 0 <= i < |s| ==> s[i] as int < 256
  }

  function HeaderNotLatin1(key: string, value: string): string {
    "Request header \"" + key + ":" + value + "\" contains characters not encodable in latin-1"
  }

  /** The header-keeping part of a connector. */
  class Connector {
    var headers: map<string, string>
    const connectionName: string

    /** The headers start as the connection's own, with a JSON content type. */
    constructor (connectionName: string, connectionHeaders: map<string, string>)
      ensures this.connectionName == connectionName
      ensures headers == connectionHeaders["Content-Type" := "application/json"]
    {
      this.connectionName := connectionName;
      headers := connectionHeaders["Content-Type" := "application/json"];
    }

    /** Adds a header; a value outside latin-1 raises and leaves the headers as they were. */
    method AddToHeader(key: string, value: string) returns (r: Option<WSCException>)
      modifies this
      ensures Latin1(value) ==> r.None? && headers == old(headers)[key := value]
      ensures !Latin1(value) ==> headers == old(headers)
      ensures !Latin1(value) ==>
        r == Some(Raise(HttpRequest, [LogMsgPrefix, ServiceName, connectionName], HeaderNotLatin1(key, value)))
    {
      if Latin1(value) {
        headers := headers[key := value];
        r := None;
      } else {
        r := Some(Raise(HttpRequest, [LogMsgPrefix, ServiceName, connectionName], HeaderNotLatin1(key, value)));
      }
    }

    /** Removes one header, if present; every other header is kept. */
    method RemoveFromHeader(key: string)
      modifies this
      ensures headers == old(headers) - {key}
      ensures key !in headers
      ensures forall k :: k in old(headers) && k != key ==> k in headers && headers[k] == old(headers)[k]
    {
      headers := headers - {key};
    }
  }
}
