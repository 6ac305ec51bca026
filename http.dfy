/** The HTTP layer as the client sees it: the request it posts, what comes
    back, the exceptions that can surface, and the `requests.Session` object
    that carries cookies between calls. The transport itself is not modelled:
    the reply to each post is an input. */
module Http {
  import opened Json

  /** Where a request goes: the `{"url": ..., "params": ...}` dict that both
      URL builders return. */
  datatype Endpoint = Endpoint(url: string, params: map<string, Value>)

  /** One `session.post(url, params=..., json=body)`. */
  datatype Request = Request(target: Endpoint, body: Value)

  /** What the transport delivers for one post: an exception raised by the
      transport, a body that is not JSON, or a decoded JSON body. */
  datatype Response = TransportError | Undecodable | Reply(body: Value)

  /** The exceptions the client raises or lets through. */
  datatype Failure =
    | ApiError(message: Value, errorCode: Value)  // TrashMailAPIError(message, error_code)
    | LoginError(cause: Failure)                  // TrashMailAPIError(f"Login error: {cause}"), no error code
    | InvalidPatFormat                            // ValueError raised by login_with_pat
    | TransportFailure                            // exception raised by the transport
    | NotSerializable                             // TypeError: the request body holds a value JSON cannot encode
    | JsonDecodeError                             // response.json() on a body that is not JSON
    | WrongShape                                  // AttributeError, KeyError or TypeError from reading a reply of another shape
    | DuplicateArgument                           // TypeError: a keyword argument given twice
    | OpaqueStartRejected(reply: Value)           // the HTTPError raised by pat_opaque_start
    | OpaqueLibraryError                          // an exception raised inside the OPAQUE library or while decoding its input

  datatype Result<+T> = Ok(value: T) | Err(error: Failure)

  datatype Option<+T> = None | Some(value: T)

  /** `TrashMailAPIError("Invalid response from server")` */
  const InvalidResponse := ApiError(Str("Invalid response from server"), Null)

  /** `_safe_json(response)`: the decoded body, or `None` when it is not JSON. */
  function SafeJson(r: Response): (v: Value)
    requires !r.TransportError?
    ensures r.Undecodable? ==> v == Null
    ensures r.Reply? ==> v == r.body
  {
    if r.Reply? then r.body else Null
  }

  /** The server accepted the request: the reply is a dict whose `success` is
      truthy. Both the client's `login` and the script's start step demand it. */
  predicate Accepted(resp: Response) {
    resp.Reply? && resp.body.Dict? && Truthy(Get(resp.body.fields, "success", Null))
  }

  /** `jar.set(name, value)` on a `RequestsCookieJar`: a `None` value removes
      the cookie, any other value stores it; no other cookie changes. */
  function CookieSet(jar: map<string, Value>, name: string, value: Value): (c: map<string, Value>)
    ensures name in c <==> value != Null
    ensures value != Null ==> c[name] == value
    ensures c.Keys - {name} == jar.Keys - {name}
    ensures forall k :: k in jar && k != name ==> k in c && c[k] == jar[k]
  {
    if value == Null then jar - {name} else jar[name := value]
  }

  /** A `requests.Session`: its cookie jar, and the log of every request
      handed to the transport through it. */
  class Session {
    var cookies: map<string, Value>
    var sent: seq<Request>

    constructor ()
      ensures cookies == map[] && sent == []
    {
      cookies := map[];
      sent := [];
    }

    /** `self.post(...)`, with `reply` as the transport's answer. A body JSON
        cannot encode raises before anything is sent; otherwise the request is
        handed to the transport, whose exception surfaces as TransportFailure. */
    method Post(req: Request, reply: Response) returns (r: Result<Response>)
      modifies this
      ensures cookies == old(cookies)
      ensures !Serializable(req.body) ==> r == Err(NotSerializable) && sent == old(sent)
      ensures Serializable(req.body) ==> sent == old(sent) + [req]
      ensures Serializable(req.body) && reply.TransportError? ==> r == Err(TransportFailure)
      ensures Serializable(req.body) && !reply.TransportError? ==> r == Ok(reply)
    {
      if !Serializable(req.body) {
        return Err(NotSerializable);
      }
      sent := sent + [req];
      if reply.TransportError? {
        return Err(TransportFailure);
      }
      return Ok(reply);
    }
  }
}
