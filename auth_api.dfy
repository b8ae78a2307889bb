/**
 * The auth gateway of src/api/auth.ts. Login, refresh and the OAuth code
 * exchange validate the server payload against `loginResponseSchema` (or its
 * `accessToken` projection), project it to `AuthTokens`/`AuthUser`, and only
 * then write the token store. `me` validates the user object and never writes
 * the store. `logout` validates nothing and clears the store once its post
 * resolves.
 */
module AuthApi {
  import opened Wrappers
  import opened AuthTypes
  import opened Http

  /** A decoded JSON payload. */
  datatype Json =
    | JNull
    | JBool(b: bool)
    | JNumber(n: int)
    | JString(str: string)
    | JArray(items: seq<Json>)
    | JObject(fields: map<string, Json>)

  /**
   * A gateway failure: the request was rejected, or the payload failed the schema
   * (a zod `ZodError`, whose message lists the issues).
   */
  datatype AuthError = Transport(cause: HttpError) | Invalid

  // ---------------------------------------------------------------- schema

  /** `z.string()` on `j[key]`, for an object `j`. */
  predicate IsStringField(j: Json, key: string)
  {
    j.JObject? && key in j.fields && j.fields[key].JString?
  }

  /** `z.array(z.string())` on `j[key]`, for an object `j`. */
  predicate IsStringArrayField(j: Json, key: string)
  {
    && j.JObject? && key in j.fields && j.fields[key].JArray?
    && forall i :: 0 <= i < |j.fields[key].items| ==> j.fields[key].items[i].JString?
  }

  /**
   * The `user` part of `loginResponseSchema`: an object whose `id`, `email`,
   * `fullName`, `defaultRole` are strings, whose `email` passes zod's email check
   * `isEmail`, and whose `roles` is an array of strings. Other keys are ignored.
   */
  predicate IsUserObject(j: Json, isEmail: string -> bool)
  {
    && IsStringField(j, "id")
    && IsStringField(j, "email") && isEmail(j.fields["email"].str)
    && IsStringField(j, "fullName")
    && IsStringArrayField(j, "roles")
    && IsStringField(j, "defaultRole")
  }

  /** The whole `loginResponseSchema`: a string `accessToken` and a valid `user`. */
  predicate IsLoginResponse(j: Json, isEmail: string -> bool)
  {
    IsStringField(j, "accessToken") && "user" in j.fields && IsUserObject(j.fields["user"], isEmail)
  }

  /** The wire form of a list of strings. */
  function StringsJson(ss: seq<string>): seq<Json>
  {
    seq(|ss|, i requires 0 <= i < |ss| => JString(ss[i]))
  }

  /** The wire form of a user, as the server sends it. */
  function UserJson(u: AuthUser): map<string, Json>
  {
    map["id" := JString(u.id), "email" := JString(u.email), "fullName" := JString(u.fullName),
        "roles" := JArray(StringsJson(u.roles)), "defaultRole" := JString(u.defaultRole)]
  }

  /** `payload` carries `u`: every key of `u`'s wire form is in `payload` with the same value. */
  predicate Carries(payload: map<string, Json>, u: AuthUser)
  {
    forall k :: k in UserJson(u) ==> k in payload && payload[k] == UserJson(u)[k]
  }

  /** Reads the items of a JSON array that holds only strings. */
  function StringItems(items: seq<Json>): (r: Option<seq<string>>)
    ensures r.Some? <==> forall i :: 0 <= i < |items| ==> items[i].JString?
    ensures r.Some? ==> |r.value| == |items| && forall i :: 0 <= i < |items| ==> items[i] == JString(r.value[i])
  {
    if items == [] then Some([])
    else if !items[0].JString? then None
    else match StringItems(items[1..])
      case None => None
      case Some(rest) => Some([items[0].str] + rest)
  }

  /**
   * `user` validated and projected to `AuthUser`; succeeds exactly on valid
   * user objects, and the user it returns is the one the payload carries.
   */
  function ParseUser(j: Json, isEmail: string -> bool): (r: Result<AuthUser, AuthError>)
    ensures r.Success? <==> IsUserObject(j, isEmail)
    ensures r.Failure? ==> r.error == Invalid
    ensures r.Success? ==> Carries(j.fields, r.value)
  {
    if !IsUserObject(j, isEmail) then Failure(Invalid)
    else
      var roles := StringItems(j.fields["roles"].items);
      var u := AuthUser(j.fields["id"].str, j.fields["email"].str, j.fields["fullName"].str,
                        roles.value, j.fields["defaultRole"].str);
      assert StringsJson(u.roles) == j.fields["roles"].items;
      Success(u)
  }

  /** `loginResponseSchema.parse` followed by the projection to tokens and user. */
  function ParseLoginResponse(j: Json, isEmail: string -> bool): (r: Result<Session, AuthError>)
    ensures r.Success? <==> IsLoginResponse(j, isEmail)
    ensures r.Failure? ==> r.error == Invalid
    ensures r.Success? ==> j.fields["accessToken"] == JString(r.value.tokens.accessToken)
    ensures r.Success? ==> Carries(j.fields["user"].fields, r.value.user)
  {
    if !IsStringField(j, "accessToken") || "user" !in j.fields then Failure(Invalid)
    else match ParseUser(j.fields["user"], isEmail)
      case Failure(e) => Failure(e)
      case Success(u) => Success(Session(AuthTokens(j.fields["accessToken"].str), u))
  }

  /** `loginResponseSchema.pick({accessToken: true}).parse`: only `accessToken` is checked. */
  function ParseAccessToken(j: Json): (r: Result<AuthTokens, AuthError>)
    ensures r.Success? <==> IsStringField(j, "accessToken")
    ensures r.Failure? ==> r.error == Invalid
    ensures r.Success? ==> j.fields["accessToken"] == JString(r.value.accessToken)
  {
    if IsStringField(j, "accessToken") then Success(AuthTokens(j.fields["accessToken"].str)) else Failure(Invalid)
  }

  /**
   * The projection copies every field unchanged: a payload carrying `u` (with
   * any extra keys) parses back to exactly `u`.
   */
  lemma {:induction false} ParseUserRoundTrip(u: AuthUser, extra: map<string, Json>, isEmail: string -> bool)
    requires isEmail(u.email)
    ensures ParseUser(JObject(extra + UserJson(u)), isEmail) == Success(u)
  {
    var j := JObject(extra + UserJson(u));
    assert IsStringArrayField(j, "roles") by {
      assert j.fields["roles"].items == StringsJson(u.roles);
    }
    var r := ParseUser(j, isEmail);
    assert r.Success?;
    var v := r.value;
    assert Carries(j.fields, v);
    assert j.fields["roles"] == JArray(StringsJson(v.roles));
    assert StringsJson(v.roles) == StringsJson(u.roles);
    assert v.roles == u.roles by {
      forall i | 0 <= i < |u.roles| ensures v.roles[i] == u.roles[i] {
        assert StringsJson(v.roles)[i] == StringsJson(u.roles)[i];
      }
    }
  }

  /**
   * The server's full login payload for a session, with any extra top-level keys
   * (`top`) and any extra keys in the user object (`extra`).
   */
  function LoginJson(s: Session, top: map<string, Json>, extra: map<string, Json>): Json
  {
    JObject(top + map["accessToken" := JString(s.tokens.accessToken), "user" := JObject(extra + UserJson(s.user))])
  }

  /** A login payload parses back to the session it was built from, whatever extra keys it carries. */
  lemma {:induction false} ParseLoginRoundTrip(s: Session, top: map<string, Json>, extra: map<string, Json>, isEmail: string -> bool)
    requires isEmail(s.user.email)
    ensures ParseLoginResponse(LoginJson(s, top, extra), isEmail) == Success(s)
  {
    ParseUserRoundTrip(s.user, extra, isEmail);
  }

  /**
   * The schema does not check roles against the declared union: a payload with a
   * role outside it is accepted and the role is passed on.
   */
  lemma UndeclaredRoleAccepted(isEmail: string -> bool)
    requires isEmail("a@b.com")
    ensures var u := AuthUser("u1", "a@b.com", "Ann", ["superuser"], "superuser");
            && ParseUser(JObject(UserJson(u)), isEmail) == Success(u)
            && "superuser" !in DeclaredRoles
  {
    var u := AuthUser("u1", "a@b.com", "Ann", ["superuser"], "superuser");
    ParseUserRoundTrip(u, map[], isEmail);
    assert map[] + UserJson(u) == UserJson(u);
  }

  // ---------------------------------------------------------------- outcomes

  /** What `loginWithEmailPassword` and `oauthCallback` resolve or reject with, given the server's answer. */
  function SessionOutcome(response: Result<Json, HttpError>, isEmail: string -> bool): Result<Session, AuthError>
  {
    match response
    case Failure(e) => Failure(Transport(e))
    case Success(payload) => ParseLoginResponse(payload, isEmail)
  }

  /** What `me` resolves or rejects with. */
  function ProfileOutcome(response: Result<Json, HttpError>, isEmail: string -> bool): Result<AuthUser, AuthError>
  {
    match response
    case Failure(e) => Failure(Transport(e))
    case Success(payload) => ParseUser(payload, isEmail)
  }

  /** What `refresh` resolves or rejects with. */
  function RefreshOutcome(response: Result<Json, HttpError>): Result<AuthTokens, AuthError>
  {
    match response
    case Failure(e) => Failure(Transport(e))
    case Success(payload) => ParseAccessToken(payload)
  }

  // ---------------------------------------------------------------- requests

  /** The body of the code exchange: `{code}` plus `state` only when `state` is truthy. */
  function OAuthCallbackBody(code: string, state: Option<string>): (r: map<string, string>)
    ensures "code" in r && r["code"] == code
    ensures "state" in r <==> Truthy(state)
    ensures "state" in r ==> r["state"] == state.value
    ensures r.Keys <= {"code", "state"}
  {
    if Truthy(state) then map["code" := code, "state" := state.value] else map["code" := code]
  }

  // ---------------------------------------------------------------- the five calls

  /**
   * `authApi.loginWithEmailPassword`: posts the credentials, parses the payload,
   * and installs the token only when parsing succeeded.
   */
  method LoginWithEmailPassword(store: TokenStore, isEmail: string -> bool, email: string, password: string,
                                response: Result<Json, HttpError>)
    returns (sent: Call, r: Result<Session, AuthError>)
    modifies store
    ensures sent == Call(Post, "/auth/login", Some(map["email" := email, "password" := password]),
                         WithBearer(map[], old(store.token)))
    ensures r == SessionOutcome(response, isEmail)
    ensures r.Success? ==> store.token == Some(r.value.tokens.accessToken)
    ensures r.Failure? ==> store.token == old(store.token)
  {
    sent := Call(Post, "/auth/login", Some(map["email" := email, "password" := password]), WithBearer(map[], store.token));
    match response {
      case Failure(e) =>
        r := Failure(Transport(e));
      case Success(payload) =>
        r := ParseLoginResponse(payload, isEmail);
        if r.Success? {
          store.SetAccessToken(Some(r.value.tokens.accessToken));
        }
    }
  }

  /** `authApi.me`: validates the body as the user object and never writes the store. */
  method Me(store: TokenStore, isEmail: string -> bool, response: Result<Json, HttpError>)
    returns (sent: Call, r: Result<AuthUser, AuthError>)
    ensures sent == Call(Get, "/auth/me", None, WithBearer(map[], store.token))
    ensures r == ProfileOutcome(response, isEmail)
  {
    sent := Call(Get, "/auth/me", None, WithBearer(map[], store.token));
    match response {
      case Failure(e) => r := Failure(Transport(e));
      case Success(payload) => r := ParseUser(payload, isEmail);
    }
  }

  /** `authApi.refresh`: posts with no body, checks only `accessToken`, installs it. */
  method Refresh(store: TokenStore, response: Result<Json, HttpError>)
    returns (sent: Call, r: Result<AuthTokens, AuthError>)
    modifies store
    ensures sent == Call(Post, "/auth/refresh", None, WithBearer(map[], old(store.token)))
    ensures r == RefreshOutcome(response)
    ensures r.Success? ==> store.token == Some(r.value.accessToken)
    ensures r.Failure? ==> store.token == old(store.token)
  {
    sent := Call(Post, "/auth/refresh", None, WithBearer(map[], store.token));
    match response {
      case Failure(e) =>
        r := Failure(Transport(e));
      case Success(payload) =>
        r := ParseAccessToken(payload);
        if r.Success? {
          store.SetAccessToken(Some(r.value.accessToken));
        }
    }
  }

  /** `authApi.logout`: clears the store only after the server call resolved. */
  method Logout(store: TokenStore, response: Result<Json, HttpError>)
    returns (sent: Call, r: Result<(), AuthError>)
    modifies store
    ensures sent == Call(Post, "/auth/logout", None, WithBearer(map[], old(store.token)))
    ensures response.Success? ==> r == Success(()) && store.token == None
    ensures response.Failure? ==> r == Failure(Transport(response.error)) && store.token == old(store.token)
  {
    sent := Call(Post, "/auth/logout", None, WithBearer(map[], store.token));
    match response {
      case Failure(e) =>
        r := Failure(Transport(e));
      case Success(_) =>
        store.SetAccessToken(None);
        r := Success(());
    }
  }

  /**
   * `authApi.oauthCallback`: posts `{code, state?}` to `/auth/{provider}/callback`,
   * applies the full schema, then installs the token.
   */
  method OAuthCallback(store: TokenStore, isEmail: string -> bool, provider: string, code: string,
                       state: Option<string>, response: Result<Json, HttpError>)
    returns (sent: Call, r: Result<Session, AuthError>)
    modifies store
    ensures sent == Call(Post, "/auth/" + provider + "/callback", Some(OAuthCallbackBody(code, state)),
                         WithBearer(map[], old(store.token)))
    ensures r == SessionOutcome(response, isEmail)
    ensures r.Success? ==> store.token == Some(r.value.tokens.accessToken)
    ensures r.Failure? ==> store.token == old(store.token)
  {
    sent := Call(Post, "/auth/" + provider + "/callback", Some(OAuthCallbackBody(code, state)), WithBearer(map[], store.token));
    match response {
      case Failure(e) =>
        r := Failure(Transport(e));
      case Success(payload) =>
        r := ParseLoginResponse(payload, isEmail);
        if r.Success? {
          store.SetAccessToken(Some(r.value.tokens.accessToken));
        }
    }
  }
}
