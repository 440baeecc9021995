/** `KairnialTokenAuthentication` (kl_authentication/authentication.py): turns
    an inbound request into a user and a token, or into `None`.

    The order is fixed: test-bypass mode; then the bearer token, the second
    whitespace-separated field of `Authorization`; then the machine-to-machine
    user named by `X-App-User-Id`, which skips verification; then `jwt.decode`
    and a user built from the claims. Every failure becomes `None`. */
module Authentication {
  import opened Wrappers
  import opened Json
  import opened Text
  import opened Config
  import opened Http

  /** The user record built with `get_user_model()(first_name=..., last_name=...,
      email=...)` followed by `user.uuid = ...`. The fields hold whatever Python
      value was assigned, so they are JSON values. */
  datatype User = User(firstName: Value, lastName: Value, email: Value, uuid: Value)

  /** The payload dict `jwt.decode` returns. */
  type Claims = Json.Object

  /** The exception classes of `jwt.decode` that `authenticate` tells apart;
      every other one is `OtherDecodeError`. */
  datatype DecodeError = ExpiredSignature | InvalidIssuer | InvalidAudience | OtherDecodeError

  /** `jwt.decode(token, KAIRNIAL_AUTH_PUBLIC_KEY, algorithms=["RS256"], audience=aud)`:
      given the token and the audience, the verified payload or the kind of
      failure. Signature, expiry, audience and issuer checks are the library's. */
  type Decoder = (string, Value) -> Result<Claims, DecodeError>

  /** Why `authenticate` returned `None`; one constructor per log message. */
  datatype Failure =
    /** "Malformed authentication header": no `Authorization`, or fewer than two fields. */
    | MalformedHeader
    /** "Token expired". */
    | TokenExpired
    /** "incorrect claims, please check the audience and issuer". */
    | IncorrectClaims
    /** "Unable to get client_id": the `AttributeError` raised when
        `request.client_id` was never set, or when the `email` claim is
        missing or not a string (`None.strip()`). */
    | AttributeMissing
    /** "Unable to parse authentication ...": any other exception. */
    | Unparseable

  /** The path `authenticate` took and what it produced. */
  datatype Outcome =
    | TestBypass(user: User, token: string)
    | Machine(user: User, token: string)
    | Verified(user: User, token: string)
    | Rejected(failure: Failure)
  {
    /** The Python return value: the `(user, token)` pair, or `None`. */
    function Returned(): (r: Option<(User, string)>)
      ensures r.None? <==> Rejected?
      ensures r.Some? ==> r.value == (user, token)
    {
      if Rejected? then None else Some((user, token))
    }
  }

  /** The fixed user of test-bypass mode. */
  function TestUser(settings: Settings): User {
    User(Str("Test"), Str("User"), Str("test@user.com"), settings.testUserId)
  }

  /** `request.META.get('HTTP_AUTHORIZATION').split()[1]`: `None` stands for the
      `AttributeError` of an absent header and the `IndexError` of a header with
      fewer than two whitespace-separated fields. */
  function BearerToken(authorization: Option<string>): (r: Option<string>)
    ensures r.Some? <==> authorization.Some? && |Fields(authorization.value)| >= 2
    ensures r.Some? ==> r.value == Fields(authorization.value)[1]
    ensures r.Some? ==> IsWord(r.value)
  {
    match authorization
    case None => None
    case Some(h) =>
      var fields := Fields(h);
      if |fields| < 2 then None else Some(fields[1])
  }

  /** `Authorization: <scheme> <token> ...` yields exactly `<token>`, whatever
      whitespace precedes the scheme or separates the two (tabs and runs of
      spaces included); any further fields are ignored. */
  lemma BearerTokenOfHeader(lead: string, scheme: string, sep: string, token: string, rest: string)
    requires AllSpace(lead) && sep != [] && AllSpace(sep)
    requires IsWord(scheme) && IsWord(token)
    requires rest == [] || IsSpace(rest[0])
    ensures BearerToken(Some(lead + scheme + sep + token + rest)) == Some(token)
  {
    SecondFieldOf(lead, scheme, sep, token, rest);
  }

  /** A header that is one field (a bare token with no scheme) is malformed. */
  lemma SingleFieldHeaderRejected(word: string)
    requires IsWord(word)
    ensures BearerToken(Some(word)) == None
  {
    FieldsOfWord(word);
  }

  /** A header of whitespace only, the empty header included, is malformed. */
  lemma BlankHeaderRejected(blank: string)
    requires AllSpace(blank)
    ensures BearerToken(Some(blank)) == None
  {
    FieldsOfSpace(blank);
  }

  /** `_get_m2m_user`: the machine user named by a present, non-empty
      `X-App-User-Id`, or `None` (the `if not user_id` test). */
  function M2MUser(appUserId: Option<string>): (r: Option<User>)
    ensures r.None? <==> appUserId.None? || appUserId.value == ""
    ensures r.Some? ==> r.value.uuid == Str(appUserId.value)
    ensures r.Some? ==> r.value.firstName == Str("M2M") && r.value.lastName == Str("User")
    ensures r.Some? ==> r.value.email == Str("none@thinkproject.com")
  {
    match appUserId
    case Some(id) =>
      if id == "" then None
      else Some(User(Str("M2M"), Str("User"), Str("none@thinkproject.com"), Str(id)))
    case None => None
  }

  /** The failure `authenticate` logs for each kind of `jwt.decode` error. */
  function DecodeFailure(e: DecodeError): (f: Failure)
    ensures f != MalformedHeader && f != AttributeMissing
    ensures f == TokenExpired <==> e == ExpiredSignature
    ensures f == IncorrectClaims <==> e == InvalidIssuer || e == InvalidAudience
  {
    match e
    case ExpiredSignature => TokenExpired
    case InvalidIssuer => IncorrectClaims
    case InvalidAudience => IncorrectClaims
    case OtherDecodeError => Unparseable
  }

  /** The user `_get_token_user` builds from a verified payload: `uuid` is
      `sub`, `first_name` is empty, `last_name` is `name` or `''` when that is
      absent or falsy, and `email` is the claim stripped of surrounding
      whitespace. `None` stands for the `AttributeError` of an `email` claim that
      is missing or not a string. */
  function ClaimsUser(claims: Claims): (r: Option<User>)
    ensures r.Some? <==> Get(claims, "email").Str?
    ensures r.Some? ==> r.value.uuid == Get(claims, "sub") && r.value.firstName == Str("")
    ensures r.Some? ==> var name := Get(claims, "name");
                        r.value.lastName == (if Truthy(name) then name else Str(""))
    ensures r.Some? ==> r.value.email == Str(Strip(Get(claims, "email").s))
    ensures r.Some? ==> r.value.email.Str? &&
                        (var e := r.value.email.s; e == [] || (!IsSpace(e[0]) && !IsSpace(e[|e| - 1])))
  {
    var name := Get(claims, "name");
    match Get(claims, "email")
    case Str(email) =>
      Some(User(Str(""), if Truthy(name) then name else Str(""), Str(Strip(email)), Get(claims, "sub")))
    case _ => None
  }

  /** `_get_token_user` together with the exception handlers around it in
      `authenticate`: decode with `request.client_id` as the audience (an
      `AttributeError` when that attribute was never set), then build the user. */
  function TokenUser(clientId: Option<Value>, token: string, decode: Decoder): (r: Result<User, Failure>)
    ensures clientId.None? ==> r == Err(AttributeMissing)
    ensures clientId.Some? && decode(token, clientId.value).Err? ==>
              r == Err(DecodeFailure(decode(token, clientId.value).error))
    ensures clientId.Some? && decode(token, clientId.value).Ok? ==>
              (r.Ok? <==> ClaimsUser(decode(token, clientId.value).value).Some?)
    ensures r.Ok? ==> clientId.Some? && decode(token, clientId.value).Ok? &&
                      Some(r.value) == ClaimsUser(decode(token, clientId.value).value)
    ensures clientId.Some? && decode(token, clientId.value).Ok? &&
              ClaimsUser(decode(token, clientId.value).value).None? ==>
              r == Err(AttributeMissing)
    ensures r.Err? && r.error == AttributeMissing ==>
              clientId.None? || ClaimsUser(decode(token, clientId.value).value).None?
  {
    match clientId
    case None => Err(AttributeMissing)
    case Some(audience) =>
      match decode(token, audience)
      case Err(e) => Err(DecodeFailure(e))
      case Ok(claims) =>
        match ClaimsUser(claims)
        case Some(user) => Ok(user)
        case None => Err(AttributeMissing)
  }

  /** `authenticate(request)` as a decision on the request's headers and its
      `client_id` attribute; `freshToken` is the `str(uuid.uuid4())` of test mode. */
  function Resolve(settings: Settings, headers: Headers, clientId: Option<Value>,
                   decode: Decoder, freshToken: string): (r: Outcome)
    ensures settings.testRun <==> r.TestBypass?
    ensures r.TestBypass? ==> r == TestBypass(TestUser(settings), freshToken)
    ensures !settings.testRun ==>
              (r == Rejected(MalformedHeader) <==> BearerToken(headers.authorization).None?)
    ensures r.Machine? <==>
              !settings.testRun && BearerToken(headers.authorization).Some? &&
              M2MUser(headers.appUserId).Some?
    ensures r.Machine? ==>
              r.user == M2MUser(headers.appUserId).value &&
              r.token == BearerToken(headers.authorization).value
    ensures r.Verified? ==>
              BearerToken(headers.authorization) == Some(r.token) &&
              TokenUser(clientId, r.token, decode) == Ok(r.user)
  {
    if settings.testRun then
      TestBypass(TestUser(settings), freshToken)
    else
      match BearerToken(headers.authorization)
      case None => Rejected(MalformedHeader)
      case Some(token) =>
        match M2MUser(headers.appUserId)
        case Some(user) => Machine(user, token)
        case None =>
          match TokenUser(clientId, token, decode)
          case Ok(user) => Verified(user, token)
          case Err(failure) => Rejected(failure)
  }

  /** Test mode never looks at the request: any two requests, audiences and
      decoders give the same fixed user. */
  lemma TestModeIgnoresRequest(settings: Settings, h1: Headers, h2: Headers,
                               c1: Option<Value>, c2: Option<Value>,
                               d1: Decoder, d2: Decoder, freshToken: string)
    requires settings.testRun
    ensures Resolve(settings, h1, c1, d1, freshToken) == Resolve(settings, h2, c2, d2, freshToken)
    ensures Resolve(settings, h1, c1, d1, freshToken).Returned() ==
            Some((User(Str("Test"), Str("User"), Str("test@user.com"), settings.testUserId), freshToken))
  {
  }

  /** The machine path returns the bearer token unchanged and never decodes it:
      the result is the same whatever `jwt.decode` would say and whatever the
      audience. */
  lemma MachinePathSkipsDecode(settings: Settings, headers: Headers,
                               c1: Option<Value>, c2: Option<Value>,
                               d1: Decoder, d2: Decoder, freshToken: string)
    requires !settings.testRun
    requires BearerToken(headers.authorization).Some?
    requires headers.appUserId.Some? && headers.appUserId.value != ""
    ensures Resolve(settings, headers, c1, d1, freshToken) == Resolve(settings, headers, c2, d2, freshToken)
    ensures Resolve(settings, headers, c1, d1, freshToken).Machine?
    ensures Resolve(settings, headers, c1, d1, freshToken).token == BearerToken(headers.authorization).value
    ensures Resolve(settings, headers, c1, d1, freshToken).user.uuid == Str(headers.appUserId.value)
  {
  }

  /** An empty or absent `X-App-User-Id` is no machine user: resolution goes on
      to decode the token. */
  lemma EmptyAppUserIdFallsThrough(settings: Settings, headers: Headers, clientId: Option<Value>,
                                   decode: Decoder, freshToken: string)
    requires !settings.testRun
    requires BearerToken(headers.authorization).Some?
    requires headers.appUserId.None? || headers.appUserId.value == ""
    ensures var token := BearerToken(headers.authorization).value;
            Resolve(settings, headers, clientId, decode, freshToken) ==
              match TokenUser(clientId, token, decode)
              case Ok(user) => Verified(user, token)
              case Err(failure) => Rejected(failure)
  {
  }

  /** `X-App-User-Id` alone is not enough: without a usable `Authorization`
      header the result is `None`, because extraction comes first. */
  lemma AppUserIdWithoutAuthorizationRejected(settings: Settings, appUserId: string,
                                              clientId: Option<Value>, decode: Decoder,
                                              freshToken: string)
    requires !settings.testRun
    ensures Resolve(settings, Headers(None, Some(appUserId)), clientId, decode, freshToken).Returned() == None
  {
  }

  /** A decode failure of any kind gives `None`, with the matching log message. */
  lemma DecodeFailuresRejected(settings: Settings, headers: Headers, audience: Value,
                               decode: Decoder, freshToken: string)
    requires !settings.testRun
    requires BearerToken(headers.authorization).Some?
    requires M2MUser(headers.appUserId).None?
    requires decode(BearerToken(headers.authorization).value, audience).Err?
    ensures var r := Resolve(settings, headers, Some(audience), decode, freshToken);
            && r.Returned() == None
            && r.failure == DecodeFailure(decode(BearerToken(headers.authorization).value, audience).error)
  {
  }

  /** The scenario `Authorization: <scheme> <token>`, no `X-App-User-Id`, a
      `client_id` the token's audience matches: the verified user carries the
      token's `sub` as uuid and its trimmed email. */
  lemma VerifiedBearerScenario(settings: Settings, scheme: string, token: string,
                               audience: Value, claims: Claims, decode: Decoder,
                               freshToken: string)
    requires !settings.testRun
    requires IsWord(scheme) && IsWord(token)
    requires decode(token, audience) == Ok(claims)
    requires "email" in claims && claims["email"].Str?
    ensures var r := Resolve(settings, Headers(Some(scheme + " " + token), None), Some(audience),
                             decode, freshToken);
            && r.Verified?
            && r.token == token
            && r.user.uuid == Get(claims, "sub")
            && r.user.email == Str(Strip(claims["email"].s))
  {
    BearerTokenOfHeader("", scheme, " ", token, "");
    assert "" + scheme + " " + token + "" == scheme + " " + token;
  }

  /** The scenario `Authorization: <scheme> <token>` with `X-App-User-Id: <id>`:
      the machine user whose uuid is `<id>`, with the token returned as sent. */
  lemma MachineScenario(settings: Settings, scheme: string, token: string, id: string,
                        clientId: Option<Value>, decode: Decoder, freshToken: string)
    requires !settings.testRun
    requires IsWord(scheme) && IsWord(token) && id != ""
    ensures Resolve(settings, Headers(Some(scheme + " " + token), Some(id)), clientId, decode, freshToken)
            == Machine(User(Str("M2M"), Str("User"), Str("none@thinkproject.com"), Str(id)), token)
  {
    BearerTokenOfHeader("", scheme, " ", token, "");
    assert "" + scheme + " " + token + "" == scheme + " " + token;
  }

  /** `KairnialTokenAuthentication.authenticate(request)`. The one write it makes
      is `request.user_id = user.uuid`, on the verified-token path only. */
  method Authenticate(request: Request, settings: Settings, decode: Decoder, freshToken: string)
    returns (r: Option<(User, string)>)
    modifies request`userId
    ensures r == Resolve(settings, request.headers, request.clientId, decode, freshToken).Returned()
    ensures var outcome := Resolve(settings, request.headers, request.clientId, decode, freshToken);
            request.userId == if outcome.Verified? then Some(outcome.user.uuid) else old(request.userId)
  {
    if settings.testRun {
      return Some((TestUser(settings), freshToken));
    }
    var token := BearerToken(request.headers.authorization);
    if token.None? {
      return None;
    }
    var machine := M2MUser(request.headers.appUserId);
    if machine.Some? {
      return Some((machine.value, token.value));
    }
    var verified := TokenUser(request.clientId, token.value, decode);
    if verified.Err? {
      return None;
    }
    request.userId := Some(verified.value.uuid);
    r := Some((verified.value, token.value));
  }
}
