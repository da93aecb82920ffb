/**
 * The default request adapter, response adapter and request gateway: how
 * data becomes a request (query parameters for read-like methods, a JSON
 * body for write-like ones), how a response becomes a result (error status
 * first, then decoding or the raw response), and the gateway that chains
 * prepare, send and decode.
 */
module Default {
  import opened Wrappers
  import opened Protocols
  import Session

  /** POST, PUT and PATCH carry their data as a JSON body. */
  function IsLikePost(m: HttpMethod): (like: bool)
    ensures like <==> m.Value() in {"POST", "PUT", "PATCH"}
  {
    m == POST || m == PUT || m == PATCH
  }

  /** GET and OPTIONS carry their data as query parameters; every method is exactly one of the two kinds. */
  function IsLikeGet(m: HttpMethod): (like: bool)
    ensures like != IsLikePost(m)
  {
    m == GET || m == OPTIONS
  }

  /**
   * The collaborators the adapters and the gateway call but do not define:
   * the schema codec (`dump_python` with `exclude_none` and `exclude_unset`,
   * and `validate_json`, for a declared model) and the transport session's
   * `prepare_request` and `send`.
   */
  datatype Collaborators = Collaborators(
    dump: (Option<Model>, Json) -> Result<Json, Error>,
    validate: (Model, seq<bv8>) -> Result<Json, Error>,
    prepareRequest: (Session.DefaultHttpSession, Request) -> PreparedRequest,
    send: (Session.DefaultHttpSession, PreparedRequest) -> Response)

  /** The request description handed to the transport for data already encoded as `adapted`. */
  function RequestFor(m: HttpMethod, url: string, headers: Option<Headers>, adapted: Json): (r: Request)
    ensures r.methodName == m.Value() && r.url == url && r.headers == headers
    ensures (r.json == Some(adapted) && r.params == None) || (r.params == Some(adapted) && r.json == None)
    ensures r.params.Some? <==> m == GET || m == OPTIONS
  {
    Request(m.Value(), url, headers,
            if IsLikePost(m) then Some(adapted) else None,
            if IsLikeGet(m) then Some(adapted) else None)
  }

  const DefaultRequestAdapterClass: string := "DefaultHTTPRequestAdapter"
  const DefaultResponseAdapterClass: string := "DefaultHTTPResponseAdapter"

  /** Turns call data into a prepared request through the codec for `model`. */
  datatype RequestAdapter = RequestAdapter(cls: string, model: Option<Model>)
  {
    /**
     * Encodes `data` once, places the encoding under `json` or `params`
     * according to the method, and has the session prepare the request.
     */
    method Adapt(session: Session.DefaultHttpSession, m: HttpMethod, url: string, data: Json,
                 headers: Option<Headers>, io: Collaborators)
      returns (r: Result<PreparedRequest, Error>)
      ensures io.dump(model, data).Failure? ==> r == Failure(io.dump(model, data).error)
      ensures io.dump(model, data).Success? ==>
                r == Success(io.prepareRequest(session, RequestFor(m, url, headers, io.dump(model, data).value)))
    {
      var kwargs := Request(m.Value(), url, headers, None, None);
      var dumped := io.dump(model, data);
      if dumped.Failure? {
        return Failure(dumped.error);
      }
      var adapted := dumped.value;
      if IsLikePost(m) {
        kwargs := kwargs.(json := Some(adapted));
      }
      if IsLikeGet(m) {
        kwargs := kwargs.(params := Some(adapted));
      }
      r := Success(io.prepareRequest(session, kwargs));
    }
  }

  /** What a response adapter hands back: a decoded model value, or the response itself. */
  datatype Adapted = Decoded(value: Json) | Raw(response: Response)

  /** Turns a response into a result through the codec for `model`; `None` means no model was declared. */
  datatype ResponseAdapter = ResponseAdapter(cls: string, model: Option<Model>)
  {
    /** Raises on an error status before anything else; then decodes the body, or returns the response when no model is declared. */
    function Adapt(response: Response, validate: (Model, seq<bv8>) -> Result<Json, Error>): (r: Result<Adapted, Error>)
      ensures IsErrorStatus(response.statusCode) ==> r == Failure(HttpError(response.statusCode, response.reason))
      ensures !IsErrorStatus(response.statusCode) && model.None? ==> r == Success(Raw(response))
      ensures !IsErrorStatus(response.statusCode) && model.Some? ==>
                (validate(model.value, response.content).Success? ==>
                   r == Success(Decoded(validate(model.value, response.content).value)))
                && (validate(model.value, response.content).Failure? ==>
                      r == Failure(validate(model.value, response.content).error))
      ensures r.Success? && r.value.Decoded? ==>
                model.Some? && validate(model.value, response.content) == Success(r.value.value)
      ensures r.Success? && r.value.Raw? ==> r.value.response == response
    {
      if IsErrorStatus(response.statusCode) then
        Failure(HttpError(response.statusCode, response.reason))
      else if model.Some? then
        match validate(model.value, response.content)
        case Success(v) => Success(Decoded(v))
        case Failure(e) => Failure(e)
      else
        Success(Raw(response))
    }
  }

  /** An error status decides the outcome alone: neither the model nor the codec is consulted. */
  lemma ErrorStatusPrecedesDecoding(a1: ResponseAdapter, a2: ResponseAdapter, response: Response,
                                    v1: (Model, seq<bv8>) -> Result<Json, Error>,
                                    v2: (Model, seq<bv8>) -> Result<Json, Error>)
    requires IsErrorStatus(response.statusCode)
    ensures a1.Adapt(response, v1) == a2.Adapt(response, v2)
    ensures a1.Adapt(response, v1).Failure? && a1.Adapt(response, v1).error.HttpError?
  {
  }

  /** The gateway's request adapter when none is given. */
  function DefaultRequestAdapter(): RequestAdapter
  {
    RequestAdapter(DefaultRequestAdapterClass, None)
  }

  /** The gateway's response adapter when none is given. */
  function DefaultResponseAdapter(): ResponseAdapter
  {
    ResponseAdapter(DefaultResponseAdapterClass, None)
  }

  /** A bound, call-ready gateway: one session, URL, method and pair of adapters. */
  class RequestGateway {
    /** The name of the gateway class this object was built from. */
    const cls: string
    const session: Session.DefaultHttpSession
    const url: string
    const httpMethod: HttpMethod
    const headers: Option<Headers>
    /** The read timeout the specification passes; see the corrected constructor in the model's findings. */
    const timeout: Option<int>
    const requestAdapter: RequestAdapter
    const responseAdapter: ResponseAdapter

    /** Stores its arguments; a missing adapter is replaced by a default one without a model. */
    constructor(cls: string, session: Session.DefaultHttpSession, url: string, httpMethod: HttpMethod,
                headers: Option<Headers>, timeout: Option<int>, requestAdapter: Option<RequestAdapter>,
                responseAdapter: Option<ResponseAdapter>)
      ensures this.cls == cls && this.session == session && this.url == url
      ensures this.httpMethod == httpMethod && this.headers == headers && this.timeout == timeout
      ensures this.requestAdapter == requestAdapter.GetOr(DefaultRequestAdapter())
      ensures this.responseAdapter == responseAdapter.GetOr(DefaultResponseAdapter())
    {
      this.cls := cls;
      this.session := session;
      this.url := url;
      this.httpMethod := httpMethod;
      this.requestAdapter := if requestAdapter.Some? then requestAdapter.value else DefaultRequestAdapter();
      this.responseAdapter := if responseAdapter.Some? then responseAdapter.value else DefaultResponseAdapter();
      this.headers := headers;
      this.timeout := timeout;
    }

    /** The prepared request for `data`: the request adapter applied to this gateway's session, URL, method and headers. */
    method Prepare(data: Json, io: Collaborators) returns (r: Result<PreparedRequest, Error>)
      ensures io.dump(requestAdapter.model, data).Failure? ==>
                r == Failure(io.dump(requestAdapter.model, data).error)
      ensures io.dump(requestAdapter.model, data).Success? ==>
                r == Success(io.prepareRequest(session,
                       RequestFor(httpMethod, url, headers, io.dump(requestAdapter.model, data).value)))
    {
      r := requestAdapter.Adapt(session, httpMethod, url, data, headers, io);
    }

    /** Sends a prepared request through this gateway's session. */
    method Egress(request: PreparedRequest, io: Collaborators) returns (response: Response)
      ensures response == io.send(session, request)
    {
      response := io.send(session, request);
    }

    /** The response adapter applied to `response`. */
    method Ingress(response: Response, io: Collaborators) returns (r: Result<Adapted, Error>)
      ensures r == responseAdapter.Adapt(response, io.validate)
    {
      r := responseAdapter.Adapt(response, io.validate);
    }

    /** One call: prepare, then send, then adapt the response; an encoding error stops it before anything is sent. */
    method Call(params: Json, io: Collaborators) returns (r: Result<Adapted, Error>)
      ensures io.dump(requestAdapter.model, params).Failure? ==>
                r == Failure(io.dump(requestAdapter.model, params).error)
      ensures io.dump(requestAdapter.model, params).Success? ==>
                var request := RequestFor(httpMethod, url, headers, io.dump(requestAdapter.model, params).value);
                r == responseAdapter.Adapt(io.send(session, io.prepareRequest(session, request)), io.validate)
    {
      var prepared := Prepare(params, io);
      if prepared.Failure? {
        return Failure(prepared.error);
      }
      var response := Egress(prepared.value, io);
      r := Ingress(response, io);
    }
  }
}
