/** The TrashMail API client class: a URL builder, the login methods, the
    authenticated command call and its two wrappers, and logout. Its state is
    whether it is logged in, as whom, and the HTTP session it posts through. */
module TrashMailApi {
  import opened Json
  import opened Http
  import opened AuthProbe
  import Pat

  /** What login and logout change: `_authenticated` and `_username`. */
  datatype AuthState = AuthState(authenticated: bool, username: Option<string>)

  /** The outcome of a login: what it returns or raises, and the state after. */
  datatype Step<+T> = Step(result: Result<T>, state: AuthState)

  /** `TrashMailAPIError("Not authenticated. Call login() first.")` */
  const NotAuthenticated := ApiError(Str("Not authenticated. Call login() first."), Null)

  /** What `login(username, ...)` does once its request went out and `resp`
      came back, starting in state `s`. An accepted reply logs the client in
      as `username`; it returns `True`, or `False` when the reply's `data`
      asks for a second factor, and raises when `data` is not a dict (after
      logging in). Every other reply raises and leaves the state as it was. */
  function LoginStep(s: AuthState, username: string, resp: Response): (st: Step<bool>)
    ensures Accepted(resp) ==> st.state == AuthState(true, Some(username))
    ensures !Accepted(resp) ==> st.state == s && st.result.Err?
    ensures Accepted(resp) ==>
      var data := Get(resp.body.fields, "data", Dict(map[]));
      st.result == if data.Dict? then Ok(!Truthy(Get(data.fields, "requires_2fa", Null)))
                   else Err(LoginError(WrongShape))
    ensures resp.TransportError? ==> st.result == Err(LoginError(TransportFailure))
    ensures resp.Undecodable? || (resp.Reply? && !Truthy(resp.body)) ==> st.result == Err(InvalidResponse)
    ensures resp.Reply? && Truthy(resp.body) && !resp.body.Dict? ==> st.result == Err(LoginError(WrongShape))
    ensures resp.Reply? && resp.body.Dict? && resp.body.fields != map[] && !Accepted(resp) ==>
      st.result == Err(ApiError(Get(resp.body.fields, "msg", Str("Login failed")),
                                Get(resp.body.fields, "error_code", Null)))
  {
    if resp.TransportError? then Step(Err(LoginError(TransportFailure)), s)
    else
      var result := SafeJson(resp);
      if !Truthy(result) then Step(Err(InvalidResponse), s)
      else if !result.Dict? then Step(Err(LoginError(WrongShape)), s)
      else if Truthy(Get(result.fields, "success", Null)) then
        var s' := AuthState(true, Some(username));
        var data := Get(result.fields, "data", Dict(map[]));
        if !data.Dict? then Step(Err(LoginError(WrongShape)), s')
        else if Truthy(Get(data.fields, "requires_2fa", Null)) then Step(Ok(false), s')
        else Step(Ok(true), s')
      else
        Step(Err(ApiError(Get(result.fields, "msg", Str("Login failed")),
                          Get(result.fields, "error_code", Null))), s)
  }

  /** What `api_call` makes of the reply to its request: the reply's dict when
      it is non-empty and its `success` is truthy or missing (some commands
      send none); otherwise the error it raises. */
  function CallReply(resp: Response): (r: Result<map<string, Value>>)
    ensures r.Ok? <==> resp.Reply? && resp.body.Dict? && resp.body.fields != map[]
                       && Truthy(Get(resp.body.fields, "success", Bool(true)))
    ensures r.Ok? ==> r.value == resp.body.fields
    ensures resp.TransportError? ==> r == Err(TransportFailure)
    ensures resp.Undecodable? || (resp.Reply? && !Truthy(resp.body)) ==> r == Err(InvalidResponse)
    ensures resp.Reply? && Truthy(resp.body) && !resp.body.Dict? ==> r == Err(WrongShape)
    ensures resp.Reply? && resp.body.Dict? && resp.body.fields != map[]
            && !Truthy(Get(resp.body.fields, "success", Bool(true))) ==>
      r == Err(ApiError(Get(resp.body.fields, "msg", Str("API call failed")),
                        Get(resp.body.fields, "error_code", Null)))
  {
    if resp.TransportError? then Err(TransportFailure)
    else
      var result := SafeJson(resp);
      if !Truthy(result) then Err(InvalidResponse)
      else if !result.Dict? then Err(WrongShape)
      else if !Truthy(Get(result.fields, "success", Bool(true))) then
        Err(ApiError(Get(result.fields, "msg", Str("API call failed")),
                     Get(result.fields, "error_code", Null)))
      else Ok(result.fields)
  }

  /** The body `login` posts. */
  function LoginBody(username: string, password: string): Value {
    Dict(map["fe-login-user" := Str(username), "fe-login-pass" := Str(password)])
  }

  class TrashMailClient {
    const baseUrl: string
    const lang: string
    var session: Session
    var authenticated: bool
    var userName: Option<string>

    /** The client is logged in exactly when it knows as whom. */
    ghost predicate Valid()
      reads this
    {
      authenticated <==> userName.Some?
    }

    function State(): AuthState
      reads this
    {
      AuthState(authenticated, userName)
    }

    /** Where every command the client sends goes: `_build_url(cmd)`. */
    function Target(cmd: string): Endpoint {
      Endpoint(baseUrl + "/", map["lang" := Str(lang), "api" := Int(1)]
                              + if cmd != "" then map["cmd" := Str(cmd)] else map[])
    }

    constructor (baseUrl: string, lang: string)
      ensures Valid() && State() == AuthState(false, None)
      ensures this.baseUrl == baseUrl && this.lang == lang
      ensures fresh(session) && session.cookies == map[] && session.sent == []
    {
      this.baseUrl := baseUrl;
      this.lang := lang;
      session := new Session();
      authenticated := false;
      userName := None;
    }

    /** `_build_url(cmd, api, **extra)`. Python binds the keywords `cmd` and
        `api` (and `self`) to parameters, so `extra` never holds them; it may
        hold `lang`, which then replaces the client's own. */
    method BuildUrl(cmd: string, api: bool, extra: map<string, Value>) returns (t: Endpoint)
      requires "self" !in extra && "cmd" !in extra && "api" !in extra
      ensures t.url == baseUrl + "/"
      ensures t.params.Keys == {"lang"} + (if api then {"api"} else {})
                               + (if cmd != "" then {"cmd"} else {}) + extra.Keys
      ensures t.params["lang"] == Get(extra, "lang", Str(lang))
      ensures api ==> t.params["api"] == Int(1)
      ensures cmd != "" ==> t.params["cmd"] == Str(cmd)
      ensures forall k :: k in extra ==> t.params[k] == extra[k]
      ensures api && extra == map[] ==> t == Target(cmd)
    {
      var params := map["lang" := Str(lang)];
      if api {
        params := params["api" := Int(1)];
      }
      if cmd != "" {
        params := params["cmd" := Str(cmd)];
      }
      params := params + extra;
      t := Endpoint(baseUrl + "/", params);
    }

    /** `check_auth_methods(username)`: always the three keys; every failure,
        the transport's included, gives all `False`. */
    method CheckAuthMethods(username: string, resp: Response) returns (m: map<string, Value>)
      modifies session
      ensures m.Keys == ProbeKeys
      ensures m == if Shape(resp).Some? then Shape(resp).value else AllFalse
      ensures session.sent == old(session.sent) + [Request(Target("opaque_check"), Dict(map["username" := Str(username)]))]
      ensures session.cookies == old(session.cookies)
    {
      var t := BuildUrl("opaque_check", true, map[]);
      var body := map["username" := Str(username)];
      assert Serializable(body["username"]);
      var posted := session.Post(Request(t, Dict(body)), resp);
      if posted.Err? {
        return AllFalse;
      }
      var result := SafeJson(posted.value);
      if !Truthy(result) {
        result := Dict(map[]);
      }
      if !result.Dict? {
        return AllFalse;
      }
      m := map[
        "opaque_enabled" := Get(result.fields, "opaque_enabled", Bool(false)),
        "srp_enabled" := Get(result.fields, "srp_enabled", Bool(false)),
        "migration_available" := Get(result.fields, "migration_available", Bool(false))];
    }

    /** `login(username, password)`: posts the credentials and moves to the
        state `LoginStep` gives. */
    method Login(username: string, password: string, resp: Response) returns (r: Result<bool>)
      requires Valid()
      modifies this, session
      ensures Valid() && session == old(session)
      ensures Step(r, State()) == LoginStep(old(State()), username, resp)
      ensures session.sent == old(session.sent) + [Request(Target("login"), LoginBody(username, password))]
      ensures session.cookies == old(session.cookies)
    {
      var t := BuildUrl("login", true, map[]);
      assert Serializable(LoginBody(username, password).fields["fe-login-user"]);
      assert Serializable(LoginBody(username, password).fields["fe-login-pass"]);
      var posted := session.Post(Request(t, LoginBody(username, password)), resp);
      if posted.Err? {
        return Err(LoginError(posted.error));
      }
      var result := SafeJson(posted.value);
      if !Truthy(result) {
        return Err(InvalidResponse);
      }
      if !result.Dict? {
        return Err(LoginError(WrongShape));
      }
      if Truthy(Get(result.fields, "success", Null)) {
        authenticated := true;
        userName := Some(username);
        var data := Get(result.fields, "data", Dict(map[]));
        if !data.Dict? {
          return Err(LoginError(WrongShape));
        }
        if Truthy(Get(data.fields, "requires_2fa", Null)) {
          return Ok(false);
        }
        return Ok(true);
      } else {
        return Err(ApiError(Get(result.fields, "msg", Str("Login failed")),
                            Get(result.fields, "error_code", Null)));
      }
    }

    /** `login_with_pat(username, token)`: refuses a token without the
        `tmpat_` prefix before anything is sent; otherwise exactly `login`
        with the token as password. */
    method LoginWithPat(username: string, token: string, resp: Response) returns (r: Result<bool>)
      requires Valid()
      modifies this, session
      ensures Valid() && session == old(session)
      ensures !Pat.HasPrefix(token) ==>
        r == Err(InvalidPatFormat) && State() == old(State()) && session.sent == old(session.sent)
      ensures Pat.HasPrefix(token) ==>
        Step(r, State()) == LoginStep(old(State()), username, resp)
        && session.sent == old(session.sent) + [Request(Target("login"), LoginBody(username, token))]
      ensures session.cookies == old(session.cookies)
    {
      if !Pat.HasPrefix(token) {
        return Err(InvalidPatFormat);
      }
      r := Login(username, token, resp);
    }

    /** `api_call(cmd, **params)`: raises before sending anything when the
        client is not logged in; otherwise posts `params` and returns what
        `CallReply` makes of the reply. */
    method ApiCall(cmd: string, params: map<string, Value>, resp: Response) returns (r: Result<map<string, Value>>)
      requires "self" !in params && "cmd" !in params
      modifies session
      ensures !authenticated ==> r == Err(NotAuthenticated) && session.sent == old(session.sent)
      ensures authenticated && !Serializable(Dict(params)) ==>
        r == Err(NotSerializable) && session.sent == old(session.sent)
      ensures authenticated && Serializable(Dict(params)) ==>
        r == CallReply(resp) && session.sent == old(session.sent) + [Request(Target(cmd), Dict(params))]
      ensures session.cookies == old(session.cookies)
    {
      if !authenticated {
        return Err(NotAuthenticated);
      }
      var t := BuildUrl(cmd, true, map[]);
      var posted := session.Post(Request(t, Dict(params)), resp);
      if posted.Err? {
        return Err(posted.error);
      }
      var result := SafeJson(posted.value);
      if !Truthy(result) {
        return Err(InvalidResponse);
      }
      if !result.Dict? {
        return Err(WrongShape);
      }
      if !Truthy(Get(result.fields, "success", Bool(true))) {
        return Err(ApiError(Get(result.fields, "msg", Str("API call failed")),
                            Get(result.fields, "error_code", Null)));
      }
      return Ok(result.fields);
    }

    /** `get_deas()`: the `data` of a `read_dea` call, `[]` when missing. */
    method GetDeas(resp: Response) returns (r: Result<Value>)
      modifies session
      ensures !authenticated ==> r == Err(NotAuthenticated) && session.sent == old(session.sent)
      ensures authenticated ==> session.sent == old(session.sent) + [Request(Target("read_dea"), Dict(map[]))]
      ensures authenticated && CallReply(resp).Ok? ==> r == Ok(Get(CallReply(resp).value, "data", List([])))
      ensures authenticated && CallReply(resp).Err? ==> r == Err(CallReply(resp).error)
      ensures session.cookies == old(session.cookies)
    {
      var result := ApiCall("read_dea", map[], resp);
      if result.Err? {
        return Err(result.error);
      }
      return Ok(Get(result.value, "data", List([])));
    }

    /** `create_dea(real_email, **options)`: posts `realemail` with the options
        laid over it and returns the reply's `data`, `{}` when missing. An
        option named `cmd` collides with `api_call`'s own parameter and raises
        a TypeError before anything is sent. */
    method CreateDea(realEmail: string, options: map<string, Value>, resp: Response) returns (r: Result<Value>)
      requires "self" !in options && "real_email" !in options
      modifies session
      ensures "cmd" in options ==> r == Err(DuplicateArgument) && session.sent == old(session.sent)
      ensures "cmd" !in options && !authenticated ==> r == Err(NotAuthenticated) && session.sent == old(session.sent)
      ensures "cmd" !in options && authenticated && Serializable(Dict(options)) ==>
        var params := map["realemail" := Str(realEmail)] + options;
        && session.sent == old(session.sent) + [Request(Target("save_dea"), Dict(params))]
        && params["realemail"] == Get(options, "realemail", Str(realEmail))
        && (CallReply(resp).Ok? ==> r == Ok(Get(CallReply(resp).value, "data", Dict(map[]))))
        && (CallReply(resp).Err? ==> r == Err(CallReply(resp).error))
      ensures "cmd" !in options && authenticated && !Serializable(Dict(options)) ==>
        r == Err(NotSerializable) && session.sent == old(session.sent)
      ensures session.cookies == old(session.cookies)
    {
      var params := map["realemail" := Str(realEmail)];
      params := params + options;
      if "cmd" in params {
        return Err(DuplicateArgument);
      }
      SerializableOverlay(map["realemail" := Str(realEmail)], options);
      var result := ApiCall("save_dea", params, resp);
      if result.Err? {
        return Err(result.error);
      }
      return Ok(Get(result.value, "data", Dict(map[])));
    }

    /** `logout()`: tries the `logout` command, ignores whatever it raises,
        and always ends logged out, on a new session, returning `True`. */
    method Logout(resp: Response) returns (r: bool)
      requires Valid()
      modifies this, session
      ensures r && Valid() && State() == AuthState(false, None)
      ensures fresh(session) && session.cookies == map[] && session.sent == []
      ensures old(session).sent == old(session.sent) + if old(authenticated) then [Request(Target("logout"), Dict(map[]))] else []
    {
      var _ := ApiCall("logout", map[], resp);
      authenticated := false;
      userName := None;
      session := new Session();
      return true;
    }

    /** The `is_authenticated` property. */
    function IsAuthenticated(): (b: bool)
      reads this
      requires Valid()
      ensures b <==> Username().Some?
    {
      authenticated
    }

    /** The `username` property: set exactly while logged in. */
    function Username(): (u: Option<string>)
      reads this
      requires Valid()
      ensures u.Some? <==> authenticated
    {
      userName
    }
  }

  /** Laying serializable values over a serializable dict keeps it serializable,
      and only the values of the overlay can break it. */
  lemma SerializableOverlay(base: map<string, Value>, overlay: map<string, Value>)
    requires Serializable(Dict(base))
    ensures Serializable(Dict(base + overlay)) <==> Serializable(Dict(overlay))
  {
    if !Serializable(Dict(overlay)) {
      var k :| k in overlay && !Serializable(overlay[k]);
      assert (base + overlay)[k] == overlay[k];
    }
  }

  /** A login whose reply asks for a second factor returns `False`, yet
      leaves the client logged in. */
  lemma TwoFactorStaysLoggedIn(s: AuthState, username: string, fields: map<string, Value>, data: map<string, Value>)
    requires Truthy(Get(fields, "success", Null))
    requires Get(fields, "data", Dict(map[])) == Dict(data)
    requires Truthy(Get(data, "requires_2fa", Null))
    ensures LoginStep(s, username, Reply(Dict(fields))) == Step(Ok(false), AuthState(true, Some(username)))
  {
  }

  /** A login reply `{"success": true, "data": null}` raises a login error,
      yet leaves the client logged in. */
  lemma NullDataRaisesLoggedIn(s: AuthState, username: string)
    ensures var st := LoginStep(s, username, Reply(Dict(map["success" := Bool(true), "data" := Null])));
            st.result == Err(LoginError(WrongShape)) && st.state == AuthState(true, Some(username))
  {
  }

  /** A login keeps "logged in exactly when the username is known". */
  lemma LoginStepKeepsInvariant(s: AuthState, username: string, resp: Response)
    requires s.authenticated <==> s.username.Some?
    ensures var s' := LoginStep(s, username, resp).state; s'.authenticated <==> s'.username.Some?
  {
  }
}
