/** `KairnialAuthMiddleware` (kl_authentication/middlewares.py): copies the bearer
    token and the `X-App-User-Id` header onto the request before the view runs,
    and copies the view's `client_id` argument onto it in `process_view`. */
module Middlewares {
  import opened Wrappers
  import opened Json
  import opened Text
  import opened Http
  import Authentication

  /** `jwt_get_username_from_payload_handler`: `payload.get('sub').replace('|', '.')`.
      `None` stands for the `AttributeError` raised when `sub` is missing or is
      not a string; the handler does not catch it. */
  function UsernameFromPayload(payload: Object): (r: Option<string>)
    ensures r.Some? <==> Get(payload, "sub").Str?
    ensures r.Some? ==> |r.value| == |Get(payload, "sub").s|
    ensures r.Some? ==> '|' !in r.value
    ensures r.Some? ==> forall i :: 0 <= i < |r.value| && Get(payload, "sub").s[i] != '|' ==>
                                      r.value[i] == Get(payload, "sub").s[i]
    ensures r.Some? ==> forall i :: 0 <= i < |r.value| && Get(payload, "sub").s[i] == '|' ==>
                                      r.value[i] == '.'
  {
    match Get(payload, "sub")
    case Str(sub) => Some(ReplaceChar(sub, '|', '.'))
    case _ => None
  }

  /** A username never differs from `sub` except where `sub` had a `'|'`, which
      became a `'.'`; so a `sub` free of `'|'` is its own username. */
  lemma UsernameOfPlainSub(sub: string)
    requires '|' !in sub
    ensures UsernameFromPayload(map["sub" := Str(sub)]) == Some(sub)
  {
    var payload := map["sub" := Str(sub)];
    assert Get(payload, "sub") == Str(sub);
    var r := UsernameFromPayload(payload).value;
    assert forall i :: 0 <= i < |sub| ==> sub[i] != '|';
    assert r == sub;
  }

  /** The middleware; `getResponse` is the next handler in the chain, applied to
      the request as it stands when the middleware hands it on. */
  class KairnialAuthMiddleware<R> {
    const getResponse: Snapshot -> R

    constructor(getResponse: Snapshot -> R)
      ensures this.getResponse == getResponse
    {
      this.getResponse := getResponse;
    }

    /** `__call__(request)`: when `Authorization` has two fields or more, set
        `request.token` to the second and then `request.user_id` to the
        `X-App-User-Id` header (`None` when absent); otherwise set neither. The
        response of the next handler is returned unchanged. */
    method Call(request: Request) returns (response: R)
      modifies request`token, request`userId
      ensures match Authentication.BearerToken(request.headers.authorization)
              case Some(token) =>
                request.token == Some(token) &&
                request.userId == Some(HeaderValue(request.headers.appUserId))
              case None =>
                request.token == old(request.token) && request.userId == old(request.userId)
      ensures response == getResponse(request.State())
    {
      var token := Authentication.BearerToken(request.headers.authorization);
      if token.Some? {
        request.token := token;
        request.userId := Some(HeaderValue(request.headers.appUserId));
      }
      response := getResponse(request.State());
    }
  }

  /** `process_view`: `request.client_id` is set only when the view's keyword
      arguments hold a truthy `client_id`. */
  method ProcessView(request: Request, viewKwargs: Object)
    modifies request`clientId
    ensures Truthy(Get(viewKwargs, "client_id")) ==> request.clientId == Some(viewKwargs["client_id"])
    ensures !Truthy(Get(viewKwargs, "client_id")) ==> request.clientId == old(request.clientId)
  {
    var clientId := Get(viewKwargs, "client_id");
    if Truthy(clientId) {
      request.clientId := Some(clientId);
    }
  }
}
