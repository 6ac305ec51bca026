# TrashMail client: a verified model of its decision layer

This project models the client side of the TrashMail.com API. TrashMail is a service for disposable e-mail addresses (DEAs). The model covers two scripts:

- `trashmail_api.py` holds the `TrashMailClient` class. It builds request parameters, logs in with a password or a Personal Access Token (PAT, a credential that starts with `tmpat_`), runs authenticated commands (`read_dea`, `save_dea`, `logout`), and tracks whether it is logged in and as whom.
- `failing_opaque_code.py` is a stand-alone script. It tries a token-based OPAQUE login, which is a password-authenticated key exchange, and falls back to a legacy login otherwise.

The network is not modelled. Each server reply is an input, of type `Http.Response`: either a transport exception, a body that is not JSON, or a decoded JSON value (`Json.Value`, with Python's truthiness in `Json.Truthy`). The `requests.Session` object is the class `Http.Session`. It holds a cookie jar and a log of every request handed to the transport, so each contract can say exactly what was sent. Its `Post` raises a `TypeError` (`NotSerializable`) without sending anything when the body holds a value that JSON cannot encode. The OPAQUE library's computations are inputs too: what the library returned, or that it raised.

Modules:

- `Json`: Python values at the JSON boundary.
- `Http`: requests, replies, exceptions and the session.
- `Pat`: the two token checks.
- `Base64Url`: the URL-safe encoding of section 5 of RFC 4648, with its padding stripped and restored.
- `AuthProbe`: shaping of the `opaque_check` reply.
- `TrashMailApi`: the client class.
- `OpaqueLogin`: the script.

Two behaviours of the code that a reader might not expect:

- Both URL builders lay the caller's extra keyword parameters over the fixed keys. But Python binds the keywords `cmd`, `api` (and, in the script, `lang`) to named parameters, so the extras can never hold them. In `_build_url` the only key the extras can replace is `lang`; in `build_url` they can replace none. The preconditions of the two `BuildUrl` members state this binding.
- `login` sets the logged-in state before it reads the reply's `data`. A reply such as `{"success": true, "data": null}` therefore raises a login error while leaving the client logged in (`TrashMailApi.NullDataRaisesLoggedIn`).

## Model

| member | source | states |
|---|---|---|
| `Http.SafeJson` | trashmail_api.py:84-90 | a reply that is not JSON reads as `None`; a JSON reply reads as its decoded body (the script's copy is at failing_opaque_code.py:37-42) |
| `Http.Session.Post` | failing_opaque_code.py:121 | a body that JSON cannot encode raises `NotSerializable` and nothing is sent; otherwise the request is appended to the log and the result is the transport's reply or its failure; the cookies do not change |
| `Http.CookieSet` | failing_opaque_code.py:92 | setting a cookie to `None` removes it from the jar; any other value is stored under the name; every other cookie keeps its value |
| `Pat.IsPatToken` | trashmail_api.py:308-310 | a string is a PAT exactly when it is longer than 6 characters and starts with `tmpat_` (the same function is at failing_opaque_code.py:45-46) |
| `Pat.PrefixCheckIsLaxer` | trashmail_api.py:185-186 | every PAT passes the prefix check of `login_with_pat`; the only string that passes the prefix check but is not a PAT is the bare `tmpat_` |
| `Base64Url.Encode` | failing_opaque_code.py:50 | the URL-safe encoding of n bytes is 4·⌈n/3⌉ characters long |
| `Base64Url.EncodeShape` | failing_opaque_code.py:50 | the encoding is alphabet symbols followed by exactly (3 − n mod 3) mod 3 padding characters `=` |
| `Base64Url.RStrip` | failing_opaque_code.py:50 | `rstrip(c)` gives a prefix of its input that does not end in `c`, and everything it removed is `c` |
| `Base64Url.RStripRun` | failing_opaque_code.py:50 | a string of non-`c` characters followed by a run of `c` loses exactly that run |
| `Base64Url.StripRemovesPadding` | failing_opaque_code.py:50 | stripping `=` from the encoding removes exactly its padding and nothing else |
| `Base64Url.EncodeUnpadded` | failing_opaque_code.py:49-50 | `_b64encode` output contains no `=` at all, and is a prefix of the padded encoding, shorter by exactly the padding |
| `Base64Url.RestorePadding` | failing_opaque_code.py:53-54 | the padding step of `_b64decode` keeps its input as a prefix and adds 0 to 3 `=`; the result length is a multiple of 4; input whose length is already a multiple of 4 is unchanged |
| `Base64Url.PaddingRoundTrip` | failing_opaque_code.py:49-54 | restoring the padding after `_b64encode` gives back exactly the padded URL-safe encoding of the original bytes |
| `AuthProbe.Shape` | trashmail_api.py:99-112 | the probe result has exactly the keys `opaque_enabled`, `srp_enabled` and `migration_available`, each the reply's value or `False` when missing; an exception occurs exactly on a transport failure or a truthy reply that is not a dict; an undecodable or falsy reply gives all `False` |
| `TrashMailApi.LoginStep` | trashmail_api.py:140-165 | an accepted reply (a dict with truthy `success`) logs in as the given user and returns `not data.requires_2fa`; it raises when `data` is not a dict, but only after logging in. Every other reply raises and leaves the state unchanged: a transport failure gives a login error, a missing or falsy reply gives "Invalid response from server", a non-dict reply gives a login error, and a rejection carries `msg` (default "Login failed") and `error_code` |
| `TrashMailApi.CallReply` | trashmail_api.py:214-223 | `api_call` returns the reply dict exactly when the dict is non-empty and its `success` is truthy or missing. Otherwise it raises: a transport failure, "Invalid response from server", an attribute error on a non-dict reply, or an error carrying `msg` (default "API call failed") and `error_code` |
| `TrashMailApi.TrashMailClient.constructor` | trashmail_api.py:67-72 | a new client is logged out, has no username, and holds a fresh empty session |
| `TrashMailApi.TrashMailClient.BuildUrl` | trashmail_api.py:74-82 | the url is `base_url + "/"`. The params hold `lang`, `api = 1` exactly when `api` is true, `cmd` exactly when it is non-empty, and every extra key with the extra's value; an extra `lang` replaces the client's own |
| `TrashMailApi.TrashMailClient.CheckAuthMethods` | trashmail_api.py:92-112 | posts `{username}` to `opaque_check` and returns the three keys: the shaped reply, or all `False` on any exception |
| `TrashMailApi.TrashMailClient.Login` | trashmail_api.py:114-165 | posts the credentials to `login`; the returned value or raised error and the new state are those of `LoginStep`; the invariant "logged in exactly when a username is set" is kept |
| `TrashMailApi.TrashMailClient.LoginWithPat` | trashmail_api.py:167-190 | a token without the `tmpat_` prefix raises `ValueError`; nothing is sent and the state is unchanged. Any other token, the bare prefix included, behaves exactly like `login` with the token as password |
| `TrashMailApi.TrashMailClient.ApiCall` | trashmail_api.py:192-223 | when logged out it raises "Not authenticated" and sends nothing. Otherwise it posts `params` to `cmd` and returns what `CallReply` gives; params that JSON cannot encode raise before sending |
| `TrashMailApi.TrashMailClient.GetDeas` | trashmail_api.py:225-228 | the `data` of a `read_dea` call, `[]` when missing; the errors of `api_call` pass through |
| `TrashMailApi.TrashMailClient.CreateDea` | trashmail_api.py:230-244 | posts `realemail` with the options laid over it (an option `realemail` wins) to `save_dea`, and returns the reply's `data`, `{}` when missing; an option named `cmd` raises a `TypeError` before anything is sent |
| `TrashMailApi.TrashMailClient.Logout` | trashmail_api.py:246-256 | always returns `True` and ends logged out with no username and a fresh session. The old session received the `logout` command exactly when the client was logged in; whatever that call raised is ignored |
| `TrashMailApi.TrashMailClient.IsAuthenticated` | trashmail_api.py:258-261 | logged in exactly when a username is known |
| `TrashMailApi.TrashMailClient.Username` | trashmail_api.py:263-266 | a username is present exactly while logged in |
| `TrashMailApi.SerializableOverlay` | trashmail_api.py:241-243 | laying options over the `realemail` dict leaves it JSON-encodable exactly when the options are |
| `TrashMailApi.TwoFactorStaysLoggedIn` | trashmail_api.py:144-153 | a successful reply that demands a second factor makes `login` return `False` while the client stays logged in as that user |
| `TrashMailApi.NullDataRaisesLoggedIn` | trashmail_api.py:144-165 | the reply `{"success": true, "data": null}` makes `login` raise a login error, yet the client is logged in |
| `TrashMailApi.LoginStepKeepsInvariant` | trashmail_api.py:144-159 | login keeps "logged in exactly when a username is set" |
| `OpaqueLogin.BuildUrl` | failing_opaque_code.py:20-34 | the url is `API_BASE_URL + "/"`. The params hold `lang`, `api = 1` exactly when `api` is true, `cmd` exactly when it is truthy, and every extra keyword with its value; no extra can replace a fixed key |
| `OpaqueLogin.OpaqueCheck` | failing_opaque_code.py:61-72 | posts `{username}` to `opaque_check` and returns the shaped reply, or `None` on any exception (where the class version gives all `False`) |
| `OpaqueLogin.TokenPrefix` | failing_opaque_code.py:82 | a token of at most 12 characters is sent whole; a longer one as its first 12 characters followed by `...` (15 characters) |
| `OpaqueLogin.TokenPrefixHidesTail` | failing_opaque_code.py:82 | two long tokens that agree on their first 12 characters give the same prefix, so nothing past the twelfth character is sent |
| `OpaqueLogin.StartPayload` | failing_opaque_code.py:78-84 | the start body (username, token prefix, unpadded start request) can be encoded as JSON |
| `OpaqueLogin.StartResult` | failing_opaque_code.py:86-96 | the start step succeeds exactly when the library produced a request and the reply is a dict with truthy `success` that holds `session_id` and `loginResponse`; it then returns the client secret and those two values. Otherwise it raises: a library error, a transport failure, a JSON decode error, the start error carrying the reply, or a shape error |
| `OpaqueLogin.PatOpaqueStart` | failing_opaque_code.py:75-96 | posts the start body to `pat_opaque_auth_init` only when the library produced a request. It returns `StartResult`, and as soon as an accepted reply holds a `session_id`, sets that cookie to it (or removes the cookie when it is `null`, as the cookie jar does), even if `loginResponse` is then missing |
| `OpaqueLogin.FinishLoginRequestAsWritten` | failing_opaque_code.py:114 | the finish request as written is a bytes object, which JSON cannot encode |
| `OpaqueLogin.FinishLoginRequest` | failing_opaque_code.py:114 | the corrected finish request is text with no `=`, can be encoded as JSON, and restores to the padded encoding of the library's output |
| `OpaqueLogin.AsWrittenFinishNeverSerializes` | failing_opaque_code.py:114-121 | as written, the finish body can never be encoded as JSON, whatever the session id and the library's output |
| `OpaqueLogin.FinishSerializes` | failing_opaque_code.py:114-121 | with the corrected request, the finish body can be encoded exactly when the session id can |
| `OpaqueLogin.FinalSessionId` | failing_opaque_code.py:125 | the final session id is the first truthy of the reply data's `session_id`, the reply's `session_id` and the given one, or the given one when none is truthy |
| `OpaqueLogin.FinishCookies` | failing_opaque_code.py:124-131 | the finish step changes only the `session_id` and `pat` cookies, and keeps all the others. `session_id` becomes the final session id exactly when that is truthy, and is otherwise left as it was; `pat` becomes the reply's `data.pat` exactly when that is truthy, and is otherwise left as it was |
| `OpaqueLogin.FinishResult` | failing_opaque_code.py:99-133 | the finish step returns `True` exactly when the library recovered the credentials, the session id can be sent, and the reply is a dict whose `data` is a dict. Otherwise it raises a library error, an encoding error, a transport failure, a JSON decode error or a shape error |
| `OpaqueLogin.PatOpaqueFinish` | failing_opaque_code.py:99-133 | posts the finish body to `pat_opaque_auth_finish` and returns `FinishResult`. On success the `session_id` cookie is set only when the final id is truthy, and the `pat` cookie only when the reply's data holds a truthy one; on failure the cookies are unchanged |
| `OpaqueLogin.ChoosePath` | failing_opaque_code.py:142-144 | only a PAT can take the OPAQUE path, and a PAT whose probe raised always takes it |
| `OpaqueLogin.PathFromProbe` | failing_opaque_code.py:142-144 | a PAT takes the OPAQUE path exactly when the probe failed in transport, or its reply is truthy and either not a dict or has a truthy `opaque_enabled`. An undecodable or empty reply, or one without `opaque_enabled`, sends it to the legacy login |
| `OpaqueLogin.ApiLogin` | failing_opaque_code.py:139-162 | on the legacy path the result is the legacy login's; on the OPAQUE path it is `True` exactly when start and finish both succeed, and otherwise an exception. A session is returned exactly on success and is fresh; a non-PAT password sends no probe. After an OPAQUE success, the returned session has sent exactly the probe, the start request and the finish request, and its cookies are those that the start step and then the finish step set on an empty jar |
| `OpaqueLogin.OpaqueExchange` | failing_opaque_code.py:144-147 | the start step and then the finish step on one session: it succeeds exactly when both do, and it raises otherwise. On success, exactly the start request and the finish request were added to the log, and the cookies are the start step's `session_id` followed by the finish step's cookies |

## Findings

| source | as written | input that shows it | evidently intended | confidence | as-written member | corrected member |
|---|---|---|---|---|---|---|
| failing_opaque_code.py:114-121 | the finish request is the bytes object returned by `urlsafe_b64encode`, placed as is in the JSON body of the post | any run that reaches the finish post, for example with library output `auth_u = b"\x00"` | the request as text, unpadded like the start request that `_b64encode` produces | medium: not executed; the standard `json` module refuses bytes with a `TypeError`, but `requests` would accept them if `simplejson` were installed | `OpaqueLogin.AsWrittenFinishNeverSerializes` | `OpaqueLogin.FinishLoginRequest` |

`OpaqueLogin.PatOpaqueFinish` and `OpaqueLogin.ApiLogin` use the corrected request.

## Left out

- HTTP transport: connections, headers, cookies the server sets through response headers, and the `response` object attached to `TrashMailAPIError`. Each reply is an input, and a session only records what it was asked to post.
- The OPAQUE library (`CreateCredentialRequest`, `RecoverCredentials`, and the `import opaque` that can fail) is foreign code. Its results are inputs.
- Base64 decoding: the decoder call in `_b64decode` and the decoding of `loginResponse` in `pat_opaque_finish`. Python's decoder is lenient, so no decode/encode round trip is claimed. A decoding failure is folded into the library input of the finish step.
- `legacy_login` and `HTTPError` are names the script never defines. The legacy login's result is an input of `ApiLogin`, and its effect on the session is not modelled. The start step's rejection is the abstract failure `OpaqueStartRejected`. Evaluating `except HTTPError` would itself raise, but in every case an exception propagates, and the model keeps the original one.
- Exception messages built from other exceptions (`f"Login error: {e}"`) keep the cause as a value, not its text.
- JSON floating-point numbers. `Json.Value` has integers only.
- Configuration read from the environment at import time (`API_BASE_URL`, `DEFAULT_LANG`) becomes parameters. The module globals `auths` and `cache_time`, logging, and the `__main__` demo are not modelled.
- `OpaqueLogin.BuildUrl`: `api` is modelled as a boolean, so `int(api)` is always 1. An `api` argument of another type is not modelled. `cmd=None` and `cmd=""` are the same empty string.
- The `isinstance(password, str)` test of `is_pat_token`: every modelled value is a string.
- `OpaqueLogin.ChoosePath`: its contract states only two implications. The full equivalence, in terms of the probe's raw reply, is `OpaqueLogin.PathFromProbe`.
