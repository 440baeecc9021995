/** The token-issuance client of kl_authentication/services.py: the error it
    raises (`KairnialAuthServiceError`) and `KairnialAuthentication`, which posts
    one of three grants to the authority's login endpoint and copies the token,
    its type and the user summary of a successful answer into its own fields.

    `requests.post` is a function parameter from the request posted to the
    response received; `response.json()` is the response's `json` field, `None`
    when the body is not JSON. */
module Services {
  import opened Wrappers
  import opened Json
  import opened Text
  import opened Config
  import Authentication

  type User = Authentication.User

  /** `PASSWORD_LOGIN_PATH`: all three grants post here. */
  const PasswordLoginPath := "/api/oauth2/login"
  /** `MESSAGE_INVALID_RESPONSE`. */
  const MessageInvalidResponse := "Invalid response from server"
  const FailurePrefix := "Authentication failed with code "
  const FormContentType := "application/x-www-form-urlencoded"

  /** `KairnialAuthServiceError(message, status)`; its `status` property is the
      `status` field. */
  datatype ServiceError = ServiceError(message: string, status: int) {
    /** The `error` property: `{service_status, service_message}` as
        `AuthServiceErrorSerializer` renders it. */
    function Error(): (payload: Object)
      ensures payload.Keys == {"service_status", "service_message"}
    {
      map["service_status" := Num(status), "service_message" := Str(message)]
    }
  }

  /** Reads an error payload back; `None` when it lacks either field or a field
      has the wrong type. */
  function ParseError(payload: Object): Option<ServiceError> {
    if "service_status" in payload && "service_message" in payload
       && payload["service_status"].Num? && payload["service_message"].Str?
    then Some(ServiceError(payload["service_message"].s, payload["service_status"].n))
    else None
  }

  /** The `error` payload carries exactly the constructor's status and message. */
  lemma ErrorPayloadRoundTrip(e: ServiceError)
    ensures ParseError(e.Error()) == Some(e)
  {
  }

  /** A request body: form fields (`data=payload`) or a JSON object
      (`data=json.dumps(payload)`). */
  datatype Body = Form(form: map<string, string>) | JsonBody(json: Object)

  /** What `requests.post(url, headers={'Content-Type': ...}, data=...)` sends. */
  datatype PostRequest = PostRequest(url: string, contentType: string, body: Body)

  /** What comes back: the status code, the body as it is rendered into the
      failure message, and the result of `response.json()`. */
  datatype HttpResponse = HttpResponse(status: int, content: string, json: Option<Value>)

  /** `requests.post`, as seen by the client: the response to a given request. */
  type Server = PostRequest -> HttpResponse

  /** `" ".join(settings.KAIRNIAL_AUTHENTICATION_SCOPES)`. */
  function Scope(settings: Settings): string {
    Join(settings.scopes, " ")
  }

  /** The scope string is the configured scopes separated by single spaces:
      splitting it gives the list back. */
  lemma ScopeRoundTrip(settings: Settings)
    requires forall w :: w in settings.scopes ==> IsWord(w)
    ensures Fields(Scope(settings)) == settings.scopes
  {
    FieldsOfJoin(settings.scopes);
  }

  /** The password grant: form-encoded, exactly five fields. */
  function PasswordRequest(settings: Settings, clientId: string, username: string, password: string)
    : (r: PostRequest)
    ensures r.url == settings.authServer + PasswordLoginPath
    ensures r.contentType == FormContentType
    ensures r.body.Form?
    ensures r.body.form.Keys == {"client_id", "scope", "grant_type", "password", "username"}
    ensures r.body.form["grant_type"] == "password" && r.body.form["scope"] == Scope(settings)
    ensures r.body.form["client_id"] == clientId
    ensures r.body.form["username"] == username && r.body.form["password"] == password
  {
    PostRequest(
      settings.authServer + PasswordLoginPath,
      FormContentType,
      Form(map[
        "client_id" := clientId,
        "scope" := Scope(settings),
        "grant_type" := "password",
        "password" := password,
        "username" := username]))
  }

  /** The API-key grant: a JSON object with exactly five members. */
  function SecretsRequest(settings: Settings, clientId: string, apiKey: string, apiSecret: string)
    : (r: PostRequest)
    ensures r.url == settings.authServer + PasswordLoginPath
    ensures r.contentType == settings.jsonContentType
    ensures r.body.JsonBody?
    ensures r.body.json.Keys == {"grant_type", "scope", "client_id", "api_key", "api_secret"}
    ensures r.body.json["grant_type"] == Str("api_key") && r.body.json["scope"] == Str(Scope(settings))
    ensures r.body.json["client_id"] == Str(clientId)
    ensures r.body.json["api_key"] == Str(apiKey) && r.body.json["api_secret"] == Str(apiSecret)
  {
    PostRequest(
      settings.authServer + PasswordLoginPath,
      settings.jsonContentType,
      JsonBody(map[
        "grant_type" := Str("api_key"),
        "scope" := Str(Scope(settings)),
        "client_id" := Str(clientId),
        "api_key" := Str(apiKey),
        "api_secret" := Str(apiSecret)]))
  }

  /** The refresh grant: a JSON object with exactly five members. The provider
      uuid is whatever value the caller passed, `None` included. */
  function RefreshRequest(settings: Settings, clientId: string, refreshToken: string, providerUuid: Value)
    : (r: PostRequest)
    ensures r.url == settings.authServer + PasswordLoginPath
    ensures r.contentType == settings.jsonContentType
    ensures r.body.JsonBody?
    ensures r.body.json.Keys == {"grant_type", "scope", "client_id", "provider_uuid", "refresh_token"}
    ensures r.body.json["grant_type"] == Str("refresh_token") && r.body.json["scope"] == Str(Scope(settings))
    ensures r.body.json["client_id"] == Str(clientId)
    ensures r.body.json["provider_uuid"] == providerUuid && r.body.json["refresh_token"] == Str(refreshToken)
  {
    PostRequest(
      settings.authServer + PasswordLoginPath,
      settings.jsonContentType,
      JsonBody(map[
        "grant_type" := Str("refresh_token"),
        "scope" := Str(Scope(settings)),
        "client_id" := Str(clientId),
        "provider_uuid" := providerUuid,
        "refresh_token" := Str(refreshToken)]))
  }

  /** The three grants post to one endpoint with one scope string; only the
      `grant_type` tells them apart. */
  lemma GrantsShareEndpointAndScope(settings: Settings, clientId: string, a: string, b: string,
                                    c: string, d: string, e: string, f: Value)
    ensures var p := PasswordRequest(settings, clientId, a, b);
            var s := SecretsRequest(settings, clientId, c, d);
            var r := RefreshRequest(settings, clientId, e, f);
            && p.url == s.url == r.url
            && Str(p.body.form["scope"]) == s.body.json["scope"] == r.body.json["scope"]
            && p.body.form["grant_type"] == "password"
            && s.body.json["grant_type"] == Str("api_key")
            && r.body.json["grant_type"] == Str("refresh_token")
  {
  }

  /** "Authentication failed with code <status>: <content>". */
  function FailureMessage(response: HttpResponse): (m: string)
    ensures StartsWith(m, FailurePrefix)
    ensures m[|FailurePrefix|..] == IntToString(response.status) + ": " + response.content
  {
    FailurePrefix + IntToString(response.status) + ": " + response.content
  }

  /** The failure message identifies the HTTP status: two answers whose
      messages are equal had the same status. */
  lemma FailureMessageIdentifiesStatus(r1: HttpResponse, r2: HttpResponse)
    requires FailureMessage(r1) == FailureMessage(r2)
    ensures r1.status == r2.status
  {
    var m1, m2 := FailureMessage(r1), FailureMessage(r2);
    assert m1[|FailurePrefix|..] == m2[|FailurePrefix|..];
    IntPrefixDetermined(r1.status, r2.status, ": ", r1.content, r2.content);
  }

  /** `_extract_user`: `response.get('user', {})` read field by field; every field
      is `None` when `user` is absent. `None` stands for the `AttributeError` of a
      `user` member that is present but not an object (`null` included). */
  function ExtractedUser(body: Object): (r: Option<User>)
    ensures "user" !in body ==> r == Some(Authentication.User(Null, Null, Null, Null))
    ensures r.None? <==> "user" in body && !body["user"].Obj?
    ensures "user" in body && body["user"].Obj? ==>
              var u := body["user"].fields;
              r == Some(Authentication.User(Get(u, "first_name"), Get(u, "last_name"), Get(u, "email"), Get(u, "uuid")))
  {
    var summary := if "user" in body then body["user"] else Obj(map[]);
    match summary
    case Obj(u) => Some(Authentication.User(Get(u, "first_name"), Get(u, "last_name"), Get(u, "email"), Get(u, "uuid")))
    case _ => None
  }

  /** The fields `KairnialAuthentication` keeps: `token`, `token_type`, `user`. */
  datatype ClientState = ClientState(token: Value, tokenType: Value, user: Option<User>)

  /** How a grant call ends: the parsed body returned, a `KairnialAuthServiceError`
      raised, or an `AttributeError` that the grant method does not catch (a JSON
      body that is not an object, or a `user` member that is not one). */
  datatype GrantOutcome = Granted(body: Object) | Raised(error: ServiceError) | AttributeError

  /** The response handling the three grant methods share, as a transition from
      the fields before the call to the fields after it and the call's outcome. */
  function AfterResponse(before: ClientState, response: HttpResponse): (r: (ClientState, GrantOutcome))
    ensures response.status != 200 ==>
              r == (before, Raised(ServiceError(FailureMessage(response), response.status)))
    ensures response.status == 200 && response.json.None? ==>
              r == (before, Raised(ServiceError(MessageInvalidResponse, 400)))
    ensures r.1.Raised? <==> response.status != 200 || response.json.None?
    ensures r.1.Raised? ==> r.0 == before
    ensures r.1.Granted? <==>
              response.status == 200 && response.json.Some? && response.json.value.Obj? &&
              ExtractedUser(response.json.value.fields).Some?
    ensures r.1.Granted? ==> response.json == Some(Obj(r.1.body))
    ensures r.1.Granted? ==>
              r.0 == ClientState(Get(r.1.body, "access_token"), Get(r.1.body, "token_type"),
                                 ExtractedUser(r.1.body))
    ensures r.1.AttributeError? && response.json.Some? && response.json.value.Obj? ==>
              var body := response.json.value.fields;
              r.0 == ClientState(Get(body, "access_token"), Get(body, "token_type"), before.user)
    ensures r.1.AttributeError? && response.json.Some? && !response.json.value.Obj? ==> r.0 == before
  {
    if response.status != 200 then
      (before, Raised(ServiceError(FailureMessage(response), response.status)))
    else
      match response.json
      case None => (before, Raised(ServiceError(MessageInvalidResponse, 400)))
      case Some(Obj(body)) =>
        var withToken := ClientState(Get(body, "access_token"), Get(body, "token_type"), before.user);
        (match ExtractedUser(body)
         case Some(user) => (withToken.(user := Some(user)), Granted(body))
         case None => (withToken, AttributeError))
      case Some(_) => (before, AttributeError)
  }

  /** The scenario of a 401 answer: the error carries status 401 and its message
      starts with "Authentication failed with code 401". */
  lemma UnauthorizedScenario(before: ClientState, content: string, json: Option<Value>)
    ensures var r := AfterResponse(before, HttpResponse(401, content, json));
            && r.0 == before
            && r.1.Raised? && r.1.error.status == 401
            && StartsWith(r.1.error.message, FailurePrefix + "401")
  {
    var m := FailureMessage(HttpResponse(401, content, json));
    assert IntToString(401) == "401";
    assert m == FailurePrefix + "401" + (": " + content);
  }

  /** `KairnialAuthentication(client_id)`. */
  class KairnialAuthentication {
    const clientId: string
    var token: Value
    var tokenType: Value
    var user: Option<User>

    constructor(clientId: string)
      ensures this.clientId == clientId
      ensures State() == ClientState(Null, Null, None)
    {
      this.clientId := clientId;
      token, tokenType, user := Null, Null, None;
    }

    function State(): ClientState
      reads this
    {
      ClientState(token, tokenType, user)
    }

    /** `_extract_token`: `self.token = response.get('access_token')`. */
    method ExtractToken(body: Object) returns (t: Value)
      modifies this`token
      ensures token == Get(body, "access_token") && t == token
    {
      token := Get(body, "access_token");
      t := token;
    }

    /** `_extract_token_type`: `self.token_type = response.get('token_type')`. */
    method ExtractTokenType(body: Object) returns (t: Value)
      modifies this`tokenType
      ensures tokenType == Get(body, "token_type") && t == tokenType
    {
      tokenType := Get(body, "token_type");
      t := tokenType;
    }

    /** `_extract_user`: `self.user` becomes the user summary of the body; on the
        `AttributeError` (`u` is `None`) the field keeps its value. */
    method ExtractUser(body: Object) returns (u: Option<User>)
      modifies this`user
      ensures u == ExtractedUser(body)
      ensures user == if u.Some? then u else old(user)
    {
      u := ExtractedUser(body);
      if u.Some? {
        user := u;
      }
    }

    /** The status check, `response.json()` and the three extractions that
        every grant method runs on the authority's answer, in that order. */
    method HandleResponse(response: HttpResponse) returns (outcome: GrantOutcome)
      modifies this`token, this`tokenType, this`user
      ensures (State(), outcome) == AfterResponse(old(State()), response)
    {
      if response.status != 200 {
        return Raised(ServiceError(FailureMessage(response), response.status));
      }
      if response.json.None? {
        return Raised(ServiceError(MessageInvalidResponse, 400));
      }
      if !response.json.value.Obj? {
        return AttributeError;
      }
      var body := response.json.value.fields;
      var _ := ExtractToken(body);
      var _ := ExtractTokenType(body);
      var u := ExtractUser(body);
      if u.None? {
        return AttributeError;
      }
      outcome := Granted(body);
    }

    /** `password_authentication(username, password)`. */
    method PasswordAuthentication(settings: Settings, username: string, password: string, post: Server)
      returns (sent: PostRequest, outcome: GrantOutcome)
      modifies this`token, this`tokenType, this`user
      ensures sent == PasswordRequest(settings, clientId, username, password)
      ensures (State(), outcome) == AfterResponse(old(State()), post(sent))
    {
      sent := PasswordRequest(settings, clientId, username, password);
      outcome := HandleResponse(post(sent));
    }

    /** `secrets_authentication(api_key, api_secret)`. */
    method SecretsAuthentication(settings: Settings, apiKey: string, apiSecret: string, post: Server)
      returns (sent: PostRequest, outcome: GrantOutcome)
      modifies this`token, this`tokenType, this`user
      ensures sent == SecretsRequest(settings, clientId, apiKey, apiSecret)
      ensures (State(), outcome) == AfterResponse(old(State()), post(sent))
    {
      sent := SecretsRequest(settings, clientId, apiKey, apiSecret);
      outcome := HandleResponse(post(sent));
    }

    /** `refresh_authentication(refresh_token, provider_uuid)`. */
    method RefreshAuthentication(settings: Settings, refreshToken: string, providerUuid: Value, post: Server)
      returns (sent: PostRequest, outcome: GrantOutcome)
      modifies this`token, this`tokenType, this`user
      ensures sent == RefreshRequest(settings, clientId, refreshToken, providerUuid)
      ensures (State(), outcome) == AfterResponse(old(State()), post(sent))
    {
      sent := RefreshRequest(settings, clientId, refreshToken, providerUuid);
      outcome := HandleResponse(post(sent));
    }
  }
}
