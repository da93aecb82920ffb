/**
 * The shared vocabulary of the toolkit: the HTTP methods it knows, the
 * exceptions it raises, and the shapes it exchanges with the transport
 * library (a request description, a prepared request, a response).
 */
module Protocols {
  import opened Wrappers

  /** The five HTTP methods a gateway may use. */
  datatype HttpMethod = GET | POST | PUT | PATCH | OPTIONS
  {
    /** The enum member's `value`: the method name as it is sent, an upper-case token. */
    function Value(): (name: string)
      ensures |name| >= 3
      ensures forall i :: 0 <= i < |name| ==> 'A' <= name[i] <= 'Z'
    {
      match this
      case GET => "GET"
      case POST => "POST"
      case PUT => "PUT"
      case PATCH => "PATCH"
      case OPTIONS => "OPTIONS"
    }
  }

  /** Distinct methods are sent under distinct names. */
  lemma ValueInjective(a: HttpMethod, b: HttpMethod)
    ensures a.Value() == b.Value() <==> a == b
  {
  }

  /** Header names to header values. */
  type Headers = map<string, string>

  /** A declared request or response model (a class), identified by its name. */
  type Model = string

  /** JSON-compatible data, as the schema codec produces and consumes it. */
  datatype Json =
    | JNull
    | JBool(b: bool)
    | JNumber(n: int)
    | JString(s: string)
    | JArray(items: seq<Json>)
    | JObject(fields: map<string, Json>)

  /** The exceptions the modelled code raises or lets through. */
  datatype Error =
    | AssertionError(message: string)
    | ValueError(message: string)
    | TypeError(message: string)
    | HttpError(status: int, reason: string)
    | ValidationError(message: string)
    | SerializationError(message: string)

  /**
   * The keyword arguments handed to the transport library's request
   * constructor. `None` in `json` or `params` means the keyword is not
   * passed at all; `Some(JNull)` means it is passed with the value `None`.
   */
  datatype Request = Request(
    methodName: string,
    url: string,
    headers: Option<Headers>,
    json: Option<Json>,
    params: Option<Json>)

  /** A request prepared by the transport session, ready to be sent. */
  class PreparedRequest {
    var methodName: string
    var url: string
    var headers: Headers

    constructor(methodName: string, url: string, headers: Headers)
      ensures this.methodName == methodName && this.url == url && this.headers == headers
    {
      this.methodName := methodName;
      this.url := url;
      this.headers := headers;
    }
  }

  /** A response received from the transport; it never changes once received. */
  class Response {
    const statusCode: int
    const reason: string
    const content: seq<bv8>

    constructor(statusCode: int, reason: string, content: seq<bv8>)
      ensures this.statusCode == statusCode && this.reason == reason && this.content == content
    {
      this.statusCode := statusCode;
      this.reason := reason;
      this.content := content;
    }
  }

  /** The status codes for which `raise_for_status` raises: 400 and above. */
  predicate IsErrorStatus(statusCode: int)
    ensures 400 <= statusCode < 600 ==> IsErrorStatus(statusCode)
    ensures 100 <= statusCode < 400 ==> !IsErrorStatus(statusCode)
  {
    statusCode >= 400
  }
}
