/** The stand-alone login script: its URL builder, the capability probe, the
    two steps of the token-based OPAQUE login and the procedure that chooses
    between that and the legacy login. The OPAQUE library's computations are
    inputs: what it returned, or that it raised. */
module OpaqueLogin {
  import opened Json
  import opened Http
  import opened AuthProbe
  import opened Base64Url
  import Pat

  /** `build_url(api, lang, cmd, **extra)`, with the module's `API_BASE_URL`
      as `apiBase` and `""` standing for `cmd=None` (both are falsy). Python
      binds the keywords `api`, `lang` and `cmd` to parameters, so `extra`
      never holds them: the extras are laid over the fixed keys but cannot
      replace any of them. */
  function BuildUrl(apiBase: string, api: bool, lang: string, cmd: string, extra: map<string, Value>): (t: Endpoint)
    requires "api" !in extra && "lang" !in extra && "cmd" !in extra
    ensures t.url == apiBase + "/"
    ensures t.params.Keys == {"lang"} + (if api then {"api"} else {})
                             + (if cmd != "" then {"cmd"} else {}) + extra.Keys
    ensures t.params["lang"] == Str(lang)
    ensures api ==> t.params["api"] == Int(1)
    ensures cmd != "" ==> t.params["cmd"] == Str(cmd)
    ensures forall k :: k in extra ==> t.params[k] == extra[k]
  {
    var params := map["lang" := Str(lang)]
                  + (if api then map["api" := Int(1)] else map[])
                  + (if cmd != "" then map["cmd" := Str(cmd)] else map[]);
    Endpoint(apiBase + "/", params + extra)
  }

  /** Where the script sends a command. */
  function Target(apiBase: string, lang: string, cmd: string): Endpoint {
    BuildUrl(apiBase, true, lang, cmd, map[])
  }

  /** `opaque_check(session, username, lang)`: the shaped capabilities, or
      `None` when anything in the `try` raised. */
  method OpaqueCheck(session: Session, apiBase: string, username: string, lang: string, resp: Response)
    returns (r: Option<map<string, Value>>)
    modifies session
    ensures r == Shape(resp)
    ensures session.sent == old(session.sent) + [Request(Target(apiBase, lang, "opaque_check"), Dict(map["username" := Str(username)]))]
    ensures session.cookies == old(session.cookies)
  {
    var body := map["username" := Str(username)];
    assert Serializable(body["username"]);
    var posted := session.Post(Request(Target(apiBase, lang, "opaque_check"), Dict(body)), resp);
    if posted.Err? {
      return None;
    }
    var result := SafeJson(posted.value);
    if !Truthy(result) {
      result := Dict(map[]);
    }
    if !result.Dict? {
      return None;
    }
    return Some(map[
      "opaque_enabled" := Get(result.fields, "opaque_enabled", Bool(false)),
      "srp_enabled" := Get(result.fields, "srp_enabled", Bool(false)),
      "migration_available" := Get(result.fields, "migration_available", Bool(false))]);
  }

  /** The `token_prefix` field of the start request: at most the first twelve
      characters of the token, marked with "..." when cut. */
  function TokenPrefix(token: string): (p: string)
    ensures |p| <= 15
    ensures |token| <= 12 ==> p == token
    ensures |token| > 12 ==> |p| == 15 && p[..12] == token[..12] && p[12..] == "..."
  {
    if |token| > 12 then token[..12] + "..." else token
  }

  /** Two tokens longer than twelve characters that agree on their first
      twelve give the same prefix: nothing past the twelfth character is sent. */
  lemma TokenPrefixHidesTail(a: string, b: string)
    requires |a| > 12 && |b| > 12 && a[..12] == b[..12]
    ensures TokenPrefix(a) == TokenPrefix(b)
  {
  }

  /** The body of the start request. */
  function StartPayload(username: string, token: string, startPub: seq<Byte>): (v: Value)
    ensures Serializable(v)
  {
    var fields := map[
      "username" := Str(username),
      "token_prefix" := Str(TokenPrefix(token)),
      "startLoginRequest" := Str(EncodeUnpadded(startPub))];
    assert forall k :: k in fields ==> fields[k].Str?;
    Dict(fields)
  }

  /** What `pat_opaque_start` hands back: the client secret, the server's
      `loginResponse` and its `session_id`. */
  datatype Started = Started(clientSec: seq<Byte>, loginResponse: Value, sessionId: Value)

  /** What `pat_opaque_start` returns or raises, given what
      `CreateCredentialRequest` gave (`None`: it raised) and the reply. */
  function StartResult(credential: Option<(seq<Byte>, seq<Byte>)>, resp: Response): (r: Result<Started>)
    ensures r.Ok? <==> credential.Some? && Accepted(resp)
                       && "session_id" in resp.body.fields && "loginResponse" in resp.body.fields
    ensures r.Ok? ==> r.value == Started(credential.value.1, resp.body.fields["loginResponse"], resp.body.fields["session_id"])
    ensures credential.None? ==> r == Err(OpaqueLibraryError)
    ensures credential.Some? && resp.TransportError? ==> r == Err(TransportFailure)
    ensures credential.Some? && resp.Undecodable? ==> r == Err(JsonDecodeError)
    ensures credential.Some? && resp.Reply? && resp.body.Dict? && !Accepted(resp) ==>
      r == Err(OpaqueStartRejected(resp.body))
    ensures credential.Some? && resp.Reply? && !resp.body.Dict? ==> r == Err(WrongShape)
    ensures credential.Some? && Accepted(resp) && ("session_id" !in resp.body.fields || "loginResponse" !in resp.body.fields) ==> r == Err(WrongShape)
  {
    if credential.None? then Err(OpaqueLibraryError)
    else if resp.TransportError? then Err(TransportFailure)
    else if resp.Undecodable? then Err(JsonDecodeError)
    else if !resp.body.Dict? then Err(WrongShape)
    else
      var result := resp.body.fields;
      if !Truthy(Get(result, "success", Null)) then Err(OpaqueStartRejected(resp.body))
      else if "session_id" !in result || "loginResponse" !in result then Err(WrongShape)
      else Ok(Started(credential.value.1, result["loginResponse"], result["session_id"]))
  }

  /** `pat_opaque_start(session, username, token, lang)`: posts the first
      OPAQUE message, and sets the `session_id` cookie to the server's value
      (a `null` one removes it) as soon as the reply is accepted, even when
      `loginResponse` then turns out to be missing. */
  method PatOpaqueStart(session: Session, apiBase: string, username: string, token: string, lang: string,
                        credential: Option<(seq<Byte>, seq<Byte>)>, resp: Response)
    returns (r: Result<Started>)
    modifies session
    ensures r == StartResult(credential, resp)
    ensures credential.None? ==> session.sent == old(session.sent)
    ensures credential.Some? ==>
      session.sent == old(session.sent) + [Request(Target(apiBase, lang, "pat_opaque_auth_init"),
                                                   StartPayload(username, token, credential.value.0))]
    ensures session.cookies ==
      if credential.Some? && Accepted(resp) && "session_id" in resp.body.fields
      then CookieSet(old(session.cookies), "session_id", resp.body.fields["session_id"])
      else old(session.cookies)
  {
    if credential.None? {
      return Err(OpaqueLibraryError);
    }
    var (startPub, clientSec) := credential.value;
    var payload := StartPayload(username, token, startPub);
    var posted := session.Post(Request(Target(apiBase, lang, "pat_opaque_auth_init"), payload), resp);
    if posted.Err? {
      return Err(posted.error);
    }
    if posted.value.Undecodable? {
      return Err(JsonDecodeError);
    }
    var result := posted.value.body;
    if !result.Dict? {
      return Err(WrongShape);
    }
    if !Truthy(Get(result.fields, "success", Null)) {
      return Err(OpaqueStartRejected(result));
    }
    if "session_id" !in result.fields {
      return Err(WrongShape);
    }
    session.cookies := CookieSet(session.cookies, "session_id", result.fields["session_id"]);
    if "loginResponse" !in result.fields {
      return Err(WrongShape);
    }
    return Ok(Started(clientSec, result.fields["loginResponse"], result.fields["session_id"]));
  }

  /** The `finishLoginRequest` field as the script writes it:
      `base64.urlsafe_b64encode(auth_u)`, a bytes object. */
  function FinishLoginRequestAsWritten(authU: seq<Byte>): (v: Value)
    ensures !Serializable(v)
  {
    Bytes(Encode(authU))
  }

  /** The `finishLoginRequest` field as text without padding, the form
      `_b64encode` gives the start request. */
  function FinishLoginRequest(authU: seq<Byte>): (v: Value)
    ensures v.Str? && '=' !in v.s
    ensures Serializable(v)
    ensures RestorePadding(v.s) == Encode(authU)
  {
    PaddingRoundTrip(authU);
    Str(EncodeUnpadded(authU))
  }

  /** The body of the finish request. */
  function FinishPayload(sessionId: Value, finishRequest: Value): Value {
    Dict(map["session_id" := sessionId, "finishLoginRequest" := finishRequest])
  }

  /** As written, the finish request can never be sent: its body always
      holds a bytes object, which the JSON encoder refuses, whatever the
      session id and the OPAQUE output. */
  lemma AsWrittenFinishNeverSerializes(sessionId: Value, authU: seq<Byte>)
    ensures !Serializable(FinishPayload(sessionId, FinishLoginRequestAsWritten(authU)))
  {
    var fields := FinishPayload(sessionId, FinishLoginRequestAsWritten(authU)).fields;
    assert !Serializable(fields["finishLoginRequest"]);
  }

  /** With the request as text, the finish body can be sent whenever the
      session id from the start reply can. */
  lemma FinishSerializes(sessionId: Value, authU: seq<Byte>)
    ensures Serializable(FinishPayload(sessionId, FinishLoginRequest(authU))) <==> Serializable(sessionId)
  {
    var fields := FinishPayload(sessionId, FinishLoginRequest(authU)).fields;
    assert fields["session_id"] == sessionId;
    assert Serializable(fields["finishLoginRequest"]);
  }

  /** `data.get("session_id") or result.get("session_id") or session_id`: the
      first truthy of the three, or the last one when none is. */
  function FinalSessionId(fromData: Value, fromResult: Value, given: Value): (v: Value)
    ensures Truthy(v) <==> Truthy(fromData) || Truthy(fromResult) || Truthy(given)
    ensures Truthy(fromData) ==> v == fromData
    ensures !Truthy(fromData) && Truthy(fromResult) ==> v == fromResult
    ensures !Truthy(fromData) && !Truthy(fromResult) ==> v == given
  {
    Or(Or(fromData, fromResult), given)
  }

  /** The finish reply that `pat_opaque_finish` reads to the end: a dict
      whose `data` is a dict. */
  predicate FinishReadable(resp: Response) {
    resp.Reply? && resp.body.Dict? && "data" in resp.body.fields && resp.body.fields["data"].Dict?
  }

  /** The cookies after a readable finish reply: `session_id` set to the
      final session id when it is truthy, then `pat` set when the reply's
      data holds a truthy one. */
  function FinishCookies(cookies: map<string, Value>, resp: Response, sessionId: Value): (c: map<string, Value>)
    requires FinishReadable(resp)
    ensures cookies.Keys <= c.Keys <= cookies.Keys + {"session_id", "pat"}
    ensures forall k :: k in cookies && k != "session_id" && k != "pat" ==> c[k] == cookies[k]
    ensures var final := FinalSessionId(Get(resp.body.fields["data"].fields, "session_id", Null),
                                        Get(resp.body.fields, "session_id", Null), sessionId);
      (Truthy(final) ==> "session_id" in c && c["session_id"] == final) &&
      (!Truthy(final) ==> ("session_id" in c <==> "session_id" in cookies) &&
                          ("session_id" in cookies ==> c["session_id"] == cookies["session_id"]))
    ensures var pat := Get(resp.body.fields["data"].fields, "pat", Null);
      (Truthy(pat) ==> "pat" in c && c["pat"] == pat) &&
      (!Truthy(pat) ==> ("pat" in c <==> "pat" in cookies) &&
                        ("pat" in cookies ==> c["pat"] == cookies["pat"]))
  {
    var data := resp.body.fields["data"].fields;
    var final := FinalSessionId(Get(data, "session_id", Null), Get(resp.body.fields, "session_id", Null), sessionId);
    var pat := Get(data, "pat", Null);
    var c1 := if Truthy(final) then CookieSet(cookies, "session_id", final) else cookies;
    if Truthy(pat) then CookieSet(c1, "pat", pat) else c1
  }

  /** What `pat_opaque_finish` returns or raises, given what decoding the
      server's `loginResponse` and `RecoverCredentials` gave (`None`: one of
      them raised), the session id and the reply. It returns `True` whenever
      it returns. */
  function FinishResult(recovered: Option<seq<Byte>>, sessionId: Value, resp: Response): (r: Result<bool>)
    ensures r.Ok? <==> recovered.Some? && Serializable(sessionId) && FinishReadable(resp)
    ensures r.Ok? ==> r.value
    ensures recovered.None? ==> r == Err(OpaqueLibraryError)
    ensures recovered.Some? && !Serializable(sessionId) ==> r == Err(NotSerializable)
    ensures recovered.Some? && Serializable(sessionId) && resp.TransportError? ==> r == Err(TransportFailure)
    ensures recovered.Some? && Serializable(sessionId) && resp.Undecodable? ==> r == Err(JsonDecodeError)
    ensures recovered.Some? && Serializable(sessionId) && resp.Reply? && !FinishReadable(resp) ==> r == Err(WrongShape)
  {
    if recovered.None? then Err(OpaqueLibraryError)
    else if !Serializable(sessionId) then Err(NotSerializable)
    else if resp.TransportError? then Err(TransportFailure)
    else if resp.Undecodable? then Err(JsonDecodeError)
    else if !FinishReadable(resp) then Err(WrongShape)
    else Ok(true)
  }

  /** `pat_opaque_finish(session, client_sec, login_response, session_id,
      lang)`, with the finish request sent as text (see `FinishLoginRequest`).
      The cookies change only when the reply is read to the end. */
  method PatOpaqueFinish(session: Session, apiBase: string, sessionId: Value, lang: string,
                         recovered: Option<seq<Byte>>, resp: Response)
    returns (r: Result<bool>)
    modifies session
    ensures r == FinishResult(recovered, sessionId, resp)
    ensures recovered.Some? && Serializable(sessionId) ==>
      session.sent == old(session.sent) + [Request(Target(apiBase, lang, "pat_opaque_auth_finish"),
                                                   FinishPayload(sessionId, FinishLoginRequest(recovered.value)))]
    ensures !(recovered.Some? && Serializable(sessionId)) ==> session.sent == old(session.sent)
    ensures session.cookies == if r.Ok? then FinishCookies(old(session.cookies), resp, sessionId) else old(session.cookies)
  {
    if recovered.None? {
      return Err(OpaqueLibraryError);
    }
    var payload := FinishPayload(sessionId, FinishLoginRequest(recovered.value));
    FinishSerializes(sessionId, recovered.value);
    var posted := session.Post(Request(Target(apiBase, lang, "pat_opaque_auth_finish"), payload), resp);
    if posted.Err? {
      return Err(posted.error);
    }
    if posted.value.Undecodable? {
      return Err(JsonDecodeError);
    }
    var result := posted.value.body;
    if !result.Dict? || "data" !in result.fields {
      return Err(WrongShape);
    }
    var data := result.fields["data"];
    if !data.Dict? {
      return Err(WrongShape);
    }
    var final := FinalSessionId(Get(data.fields, "session_id", Null), Get(result.fields, "session_id", Null), sessionId);
    if Truthy(final) {
      session.cookies := CookieSet(session.cookies, "session_id", final);
    }
    var pat := Get(data.fields, "pat", Null);
    if Truthy(pat) {
      session.cookies := CookieSet(session.cookies, "pat", pat);
    }
    return Ok(true);
  }

  datatype Path = OpaquePath | LegacyPath

  /** The branch `api_login` takes: the OPAQUE login for a PAT unless the
      probe answered and said OPAQUE is off. */
  function ChoosePath(password: string, capability: Option<map<string, Value>>): (p: Path)
    ensures p == OpaquePath ==> Pat.IsPatToken(password)
    ensures Pat.IsPatToken(password) && capability.None? ==> p == OpaquePath
  {
    if Pat.IsPatToken(password) && (capability.None? || Truthy(Get(capability.value, "opaque_enabled", Bool(false))))
    then OpaquePath
    else LegacyPath
  }

  /** The branch in terms of the probe's raw reply: a PAT goes the OPAQUE way
      when the probe failed in transport or on a truthy reply that is not a
      dict, or when the reply's `opaque_enabled` is truthy. An undecodable or
      empty reply, or one without `opaque_enabled`, sends it the legacy way. */
  lemma PathFromProbe(password: string, probe: Response)
    ensures ChoosePath(password, Shape(probe)) == OpaquePath <==>
      Pat.IsPatToken(password) &&
      (probe.TransportError? ||
       (probe.Reply? && Truthy(probe.body) &&
        (!probe.body.Dict? || Truthy(Get(probe.body.fields, "opaque_enabled", Bool(false))))))
  {
  }

  /** The inputs of one OPAQUE login that come from outside the script: the
      probe's reply, what the OPAQUE library computes, and the two replies of
      the exchange. */
  datatype Exchange = Exchange(
    probe: Response,
    credential: Option<(seq<Byte>, seq<Byte>)>,
    startReply: Response,
    recovered: Option<seq<Byte>>,
    finishReply: Response)

  /** Whether the OPAQUE exchange of `ex` logs in. */
  predicate OpaqueSucceeds(ex: Exchange) {
    StartResult(ex.credential, ex.startReply).Ok?
    && FinishResult(ex.recovered, StartResult(ex.credential, ex.startReply).value.sessionId, ex.finishReply).Ok?
  }

  /** The `try` block of `api_login`: the start step, then the finish step
      with the session id the start step returned, on one session. */
  method OpaqueExchange(s: Session, apiBase: string, lang: string, username: string, password: string, ex: Exchange)
    returns (r: Result<bool>)
    modifies s
    ensures r == Ok(true) <==> OpaqueSucceeds(ex)
    ensures r != Ok(true) ==> r.Err?
    ensures r == Ok(true) ==>
      var sid := StartResult(ex.credential, ex.startReply).value.sessionId;
      s.sent == old(s.sent) + [Request(Target(apiBase, lang, "pat_opaque_auth_init"),
                                       StartPayload(username, password, ex.credential.value.0)),
                               Request(Target(apiBase, lang, "pat_opaque_auth_finish"),
                                       FinishPayload(sid, FinishLoginRequest(ex.recovered.value)))] &&
      s.cookies == FinishCookies(CookieSet(old(s.cookies), "session_id", sid), ex.finishReply, sid)
  {
    var started := PatOpaqueStart(s, apiBase, username, password, lang, ex.credential, ex.startReply);
    if started.Err? {
      return Err(started.error);
    }
    var finished := PatOpaqueFinish(s, apiBase, started.value.sessionId, lang, ex.recovered, ex.finishReply);
    if finished.Err? {
      return Err(finished.error);
    }
    return Ok(true);
  }

  /** `api_login(username, password)`. `legacy_login` is not part of this
      model: `legacy` is what it returns or raises. A success hands back the
      fresh session; the legacy path's `False` gives no session. */
  method ApiLogin(apiBase: string, lang: string, username: string, password: string, ex: Exchange, legacy: Result<bool>)
    returns (r: Result<bool>, session: Session?)
    ensures session != null <==> r == Ok(true)
    ensures session != null ==> fresh(session)
    ensures ChoosePath(password, Shape(ex.probe)) == LegacyPath ==> r == legacy
    ensures ChoosePath(password, Shape(ex.probe)) == OpaquePath ==>
      (r == Ok(true) <==> OpaqueSucceeds(ex)) && (r != Ok(true) ==> r.Err?)
    ensures !Pat.IsPatToken(password) && session != null ==> session.sent == []
    ensures ChoosePath(password, Shape(ex.probe)) == OpaquePath && r == Ok(true) ==>
      var sid := StartResult(ex.credential, ex.startReply).value.sessionId;
      session != null &&
      session.sent == [Request(Target(apiBase, lang, "opaque_check"), Dict(map["username" := Str(username)])),
                       Request(Target(apiBase, lang, "pat_opaque_auth_init"),
                               StartPayload(username, password, ex.credential.value.0)),
                       Request(Target(apiBase, lang, "pat_opaque_auth_finish"),
                               FinishPayload(sid, FinishLoginRequest(ex.recovered.value)))] &&
      session.cookies == FinishCookies(CookieSet(map[], "session_id", sid), ex.finishReply, sid)
  {
    var s := new Session();
    var capability: Option<map<string, Value>> := None;
    if Pat.IsPatToken(password) {
      capability := OpaqueCheck(s, apiBase, username, lang, ex.probe);
    }
    if ChoosePath(password, capability) == OpaquePath {
      assert capability == Shape(ex.probe);
      assert s.sent == [Request(Target(apiBase, lang, "opaque_check"), Dict(map["username" := Str(username)]))];
      assert s.cookies == map[];
      r := OpaqueExchange(s, apiBase, lang, username, password, ex);
      if r.Err? {
        return r, null;
      }
      return r, s;
    }
    if legacy.Err? {
      return legacy, null;
    }
    if legacy.value {
      return Ok(true), s;
    }
    return Ok(false), null;
  }
}
