/** The view decorators of kl_authentication/decorators.py:
    `handle_auth_ws_error` turns a service error into a 503 reply, and
    `graphql_login_required` runs the GraphQL login checks in a fixed order
    before calling the resolver. */
module Decorators {
  import opened Wrappers
  import opened Json
  import opened Config
  import opened Http
  import Authentication
  import Services

  /** A DRF `Response(data, content_type=..., status=...)` built by a decorator. */
  datatype Reply = Reply(status: int, body: Object, contentType: string)

  /** How a wrapped view ends: it returns, raises `KairnialAuthServiceError`,
      or raises some other exception (named by its class). */
  datatype ViewResult<R> =
    | Returned(value: R)
    | ServiceFailed(error: Services.ServiceError)
    | OtherException(name: string)

  /** How the wrapper ends: the view's own return value, the 503 reply built
      from a service error, or another exception propagating unchanged. */
  datatype Wrapped<R> = Passed(value: R) | ErrorReply(reply: Reply) | Propagated(name: string)

  /** `handle_auth_ws_error(view)(*args)`: the view runs once on the same
      arguments; a `KairnialAuthServiceError` becomes a 503 reply whose body is
      the error's `error` payload, and anything else passes through. */
  function HandleAuthWsError<A, R>(settings: Settings, view: A -> ViewResult<R>, args: A): (r: Wrapped<R>)
    ensures r.Passed? <==> view(args).Returned?
    ensures r.Passed? ==> r.value == view(args).value
    ensures r.ErrorReply? <==> view(args).ServiceFailed?
    ensures r.ErrorReply? ==>
              && r.reply.status == 503
              && r.reply.contentType == settings.jsonContentType
              && r.reply.body == view(args).error.Error()
              && Services.ParseError(r.reply.body) == Some(view(args).error)
    ensures view(args).OtherException? ==> r == Propagated(view(args).name)
  {
    match view(args)
    case Returned(v) => Passed(v)
    case ServiceFailed(e) =>
      Services.ErrorPayloadRoundTrip(e);
      ErrorReply(Reply(503, e.Error(), settings.jsonContentType))
    case OtherException(name) => Propagated(name)
  }

  const NoContextMessage := "No authentication context available"
  const InvalidClientMessage := "Invalid client ID"
  const NotLoggedInMessage := "You have to be logged in to access these APIs"

  /** How the GraphQL wrapper ends: the resolver's result, an
      `InsufficientPermission` with its message, or the `AttributeError` of a
      context whose `request` entry is `None`. */
  datatype Guarded<R> = Allowed(value: R) | Denied(message: string) | NullRequest

  /** `graphql_login_required(resolver)(root, info, *args, **kwargs)`: `args`
      stands for the positional arguments, `context` for `info.context`. The
      checks run in order: a `request` in the context, then a `client_id`
      keyword argument; then `request.client_id` is set to that argument and
      `authenticate` runs; the resolver is called, with the original arguments,
      only when authentication returned a user. */
  method GraphqlLoginRequired<A, R>(resolver: (A, Object) -> R, args: A,
                                    context: map<string, Request?>, kwargs: Object,
                                    settings: Settings, decode: Authentication.Decoder,
                                    freshToken: string)
    returns (r: Guarded<R>)
    modifies if "request" in context && context["request"] != null then {context["request"]} else {}
    ensures "request" !in context ==> r == Denied(NoContextMessage)
    ensures "request" in context && "client_id" !in kwargs ==>
              r == Denied(InvalidClientMessage) &&
              (context["request"] != null ==> unchanged(context["request"]))
    ensures "request" in context && "client_id" in kwargs && context["request"] == null ==>
              r == NullRequest
    ensures "request" in context && "client_id" in kwargs && context["request"] != null ==>
              var request := context["request"];
              var clientId := kwargs["client_id"];
              var outcome := Authentication.Resolve(settings, request.headers, Some(clientId), decode, freshToken);
              && request.clientId == Some(clientId)
              && request.token == old(request.token)
              && request.userId == (if outcome.Verified? then Some(outcome.user.uuid) else old(request.userId))
              && r == (if outcome.Rejected? then Denied(NotLoggedInMessage) else Allowed(resolver(args, kwargs)))
  {
    if "request" !in context {
      return Denied(NoContextMessage);
    }
    if "client_id" !in kwargs {
      return Denied(InvalidClientMessage);
    }
    var request := context["request"];
    if request == null {
      return NullRequest;
    }
    request.clientId := Some(kwargs["client_id"]);
    var authenticated := Authentication.Authenticate(request, settings, decode, freshToken);
    if authenticated.None? {
      return Denied(NotLoggedInMessage);
    }
    r := Allowed(resolver(args, kwargs));
  }
}
