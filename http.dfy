/** The inbound Django request as the core sees it: two headers read from
    `request.META`, and the ad-hoc attributes `token`, `user_id` and
    `client_id` that the middleware, the decorators and the authenticator
    set on it in place. */
module Http {
  import opened Wrappers
  import opened Json

  /** `request.META.get('HTTP_AUTHORIZATION')` and
      `request.META.get('HTTP_X_APP_USER_ID')`; `None` when the header is absent. */
  datatype Headers = Headers(authorization: Option<string>, appUserId: Option<string>)

  /** A header as the Python value `META.get` returns: the string, or `None`. */
  function HeaderValue(h: Option<string>): Value {
    match h
    case Some(v) => Str(v)
    case None => Null
  }

  /** The request at one moment: its headers and the three attributes,
      each `None` while it has never been assigned. */
  datatype Snapshot = Snapshot(
    headers: Headers,
    token: Option<string>,
    userId: Option<Value>,
    clientId: Option<Value>)

  class Request {
    const headers: Headers
    /** `request.token`, set by the middleware. */
    var token: Option<string>
    /** `request.user_id`, set by the middleware and by `authenticate`. */
    var userId: Option<Value>
    /** `request.client_id`, set by `process_view` and by the GraphQL decorator. */
    var clientId: Option<Value>

    /** A fresh request carrying `headers` and none of the three attributes. */
    constructor(headers: Headers)
      ensures this.headers == headers
      ensures token == None && userId == None && clientId == None
    {
      this.headers := headers;
      token, userId, clientId := None, None, None;
    }

    function State(): Snapshot
      reads this
    {
      Snapshot(headers, token, userId, clientId)
    }
  }
}
