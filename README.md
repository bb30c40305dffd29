# External API session and runtime configuration, in Dafny

This project models the part of the backend that talks to the external API:

- **Runtime configuration** (`runtime_config.dfy`, module `RuntimeConfig`). It holds three
  in-memory overrides: the external API base URL, the username and the password. Each unset
  slot falls back to its default setting. Setters store a value verbatim. A reset puts the
  base URL back to its default.
- **Authentication client** (`auth.dfy`, module `Auth`). It caches a bearer token, the
  token's absolute expiry, and the base URL, username and password of the last successful
  login. On every `get_access_token` call it does three things in order:
  1. It drops the token if any recorded credential differs from the one in effect.
  2. It returns the cached token if the token is non-empty and the clock is strictly
     before `expiry - 60`.
  3. Otherwise it logs in. It records the new token, `expiry = now + expires_in`
     (3600 when the reply has no `expires_in`) and the credentials it used.
  The functions `LoginStep` and `AccessTokenStep` specify one call on a `Session` value.
  The class `AuthClient` updates its fields step by step, as the source does, and its
  methods are proved to produce exactly the `Session` those functions give.
- **Configuration endpoints** (`config_endpoint.dfy`, module `ConfigEndpoint`). They
  validate and normalise the values submitted for the base URL and for the credentials.
  They either store the values through the configuration setters or refuse them and
  leave the configuration unchanged.
- **String builtins** (`string_ops.dfy`, module `StringOps`). These model Python's
  `str.strip()`, `str.rstrip("/")` and `str.startswith`. Whitespace is the set of
  characters Python's `str.isspace` accepts. All of those code points are listed in
  `IsWhitespace`.

Inputs the source takes from its environment are parameters here:
- The clock (`time.time()`) is an integer `now`.
- The login exchange's reply is a `LoginResponse` argument: an HTTP status and an optional
  decoded JSON body, or a transport failure.
- The login POST the client sends is returned as a `LoginRequest` value. So "served from
  the cache" means that no request was sent.
- The default settings are constructor arguments of `ConfigStore`. So is the login path
  of `AuthClient`.
- `raise_for_status` is modelled as accepting exactly the statuses 200 to 299. That is
  the behaviour of the HTTP library, which is not part of this model.
- The module-level singletons `_runtime_config` and `auth_client` become explicit objects
  that are passed to the methods that use them.

Three facts about the code shape the model:
- The client has no lock and does not merge concurrent refreshes, so the model makes
  sequential calls.
- A failed login re-raises the underlying library exception or a `ValueError`; there is no
  error type of its own. `LoginError` only says which of those exceptions is raised.
- A 2xx reply whose JSON object has no usable `access_token` overwrites the cached token
  with `None` or `""` and raises; the expiry and the recorded credentials keep their values.

## Model

| member | source | states |
|---|---|---|
| `RuntimeConfig.ConfigStore.constructor` | backend/app/core/runtime_config.py:14-18 | at startup no slot is overridden, so each getter returns its default setting |
| `RuntimeConfig.ConfigStore.BaseUrl` | backend/app/core/runtime_config.py:21-28 | the base-URL override whenever it is not `None`, the empty string included; otherwise the default setting |
| `RuntimeConfig.ConfigStore.Username` | backend/app/core/runtime_config.py:48-55 | the username override whenever it is not `None`, the empty string included; otherwise the default setting |
| `RuntimeConfig.ConfigStore.Password` | backend/app/core/runtime_config.py:68-75 | the password override whenever it is not `None`, the empty string included; otherwise the default setting |
| `RuntimeConfig.ConfigStore.SetBaseUrl` | backend/app/core/runtime_config.py:21-38 | any string, the empty one included, is stored unvalidated; the base-URL getter then returns it; username and password are unchanged (only that slot is in the frame) |
| `RuntimeConfig.ConfigStore.ResetBaseUrl` | backend/app/core/runtime_config.py:41-45 | the base-URL getter returns the default again; username and password are unchanged |
| `RuntimeConfig.ConfigStore.SetUsername` | backend/app/core/runtime_config.py:48-65 | the username getter returns exactly the stored value; the other two getters are unchanged |
| `RuntimeConfig.ConfigStore.SetPassword` | backend/app/core/runtime_config.py:68-85 | the password getter returns exactly the stored value; the other two getters are unchanged |
| `Auth.LoginStep` | backend/app/core/auth_client.py:60-110 | a login sends a POST to base URL + login path with the current username and password; it succeeds iff the status is 2xx, the body is a JSON object and `access_token` is non-empty; on success the token that is cached and returned is exactly the reply's `access_token`, the expiry is `now + expires_in` (3600 by default) and the credentials used are recorded; a transport failure, a non-2xx status or an undecodable body changes nothing and raises the matching error; a decoded body without a non-empty `access_token` raises and leaves exactly the token changed, to that `None` or `""`, so no usable token stays cached; on any failure the expiry and the recorded credentials keep their values |
| `Auth.AccessTokenStep` | backend/app/core/auth_client.py:30-58 | no login is sent iff the credentials are unchanged and the token is valid (non-empty and `now < expiry - 60`); in that case every field is unchanged and the cached token is returned; otherwise the call is a login from the invalidated state; the client invariant is preserved; any returned token is non-empty, is the cached token, and was issued for the credentials in effect |
| `Auth.ChangedIffRecordedDiffers` | backend/app/core/auth_client.py:36-41 | under the invariant, the credentials count as changed iff some credentials are recorded and they differ from the ones in effect (both directions) |
| `Auth.NoInvalidationBeforeLogin` | backend/app/core/auth_client.py:23-45 | while nothing is recorded, as before the first successful login, no change of configuration invalidates anything |
| `Auth.CredentialChangeForcesLogin` | backend/app/core/auth_client.py:36-50 | after a change of base URL, username or password, the call is a login from token `None` and expiry 0, whatever the token's remaining lifetime, and it is sent with the new credentials |
| `Auth.ExpiryRefreshBoundary` | backend/app/core/auth_client.py:47-88 | after a login at `t`, a call `k` seconds later with the same credentials is a cache hit iff `k < expires_in - 60`; with the default lifetime the first refresh comes at `t + 3540`; a cache hit returns the same token |
| `Auth.RunKeepsCoherent` | backend/app/core/auth_client.py:20-93 | over any sequence of calls, with the configuration changing arbitrarily between them, the three recorded credentials stay all set or all unset, and a usable token always has them recorded |
| `Auth.AuthClient.constructor` | backend/app/core/auth_client.py:23-28 | a new client has no token, expiry 0 and no recorded credentials |
| `Auth.AuthClient.IsTokenValid` | backend/app/core/auth_client.py:53-58 | true iff the token is non-empty and `now < expiry - 60` (strict) |
| `Auth.AuthClient.FetchNewToken` | backend/app/core/auth_client.py:60-110 | re-reads the configuration and updates the fields exactly as `LoginStep` specifies; returns the request sent and passes iff the login succeeded |
| `Auth.AuthClient.GetAccessToken` | backend/app/core/auth_client.py:30-51 | updates the fields, returns the token or the raised error, and reports the request sent, all exactly as `AccessTokenStep` specifies for the configuration in effect; keeps the client invariant |
| `StringOps.Strip` | backend/app/api/endpoints/config.py:104 | `strip()` returns the slice of its input that starts at the first non-whitespace character; everything outside the slice is whitespace; a non-empty result neither starts nor ends with whitespace; the result is empty iff the input is all whitespace |
| `StringOps.StripUnique` | backend/app/api/endpoints/config.py:104 | any slice with whitespace-only outside parts and non-whitespace ends is exactly the stripped result, so the characterisation above determines `strip()` |
| `StringOps.TrimTrailingSlashes` | backend/app/api/endpoints/config.py:122 | `rstrip("/")` returns a prefix of its input, the part removed is all '/', and the result does not end with '/' |
| `StringOps.TrimTrailingSlashesKeeps` | backend/app/api/endpoints/config.py:122 | removing trailing slashes keeps every character up to and including the last one that is not '/' |
| `ConfigEndpoint.NormalizeBaseUrl` | backend/app/api/endpoints/config.py:104-122 | a submitted URL is refused as empty iff it is all whitespace (checked first); it is refused for its scheme iff it is not all whitespace and the stripped URL starts with neither `http://` nor `https://`; otherwise it is accepted |
| `ConfigEndpoint.AcceptedBaseUrl` | backend/app/api/endpoints/config.py:114-122 | an accepted URL is non-empty; it is the stripped URL with a run of trailing '/' removed; it keeps the scheme name and its ':'; it never ends with '/' |
| `ConfigEndpoint.AcceptedUrlKeepsSchemeName` | backend/app/api/endpoints/config.py:114-122 | removing the trailing slashes of a URL that passed the scheme check still leaves `http:` or `https:` at its start |
| `ConfigEndpoint.SchemeOnlyUrlLosesItsSlashes` | backend/app/api/endpoints/config.py:114-122 | `"http://"` passes the scheme check and is stored as `"http:"`, because the check runs before the slashes are removed |
| `ConfigEndpoint.StoredSchemeOnlyUrlIsRefused` | backend/app/api/endpoints/config.py:114-119 | `"http:"`, the value just stored, is refused when it is submitted again |
| `ConfigEndpoint.StoredUrlMayEndInWhitespace` | backend/app/api/endpoints/config.py:104-122 | `"http://a /"` is stored as `"http://a "`: whitespace in front of the removed slashes stays |
| `ConfigEndpoint.CheckCredentials` | backend/app/api/endpoints/config.py:142-158 | refused as an empty username iff the username is all whitespace (checked first); refused as an empty password iff the username is acceptable and the password is `""`; otherwise the stripped username and the unmodified password are accepted, so a whitespace-only password is accepted |
| `ConfigEndpoint.SetExternalApiBaseUrl` | backend/app/api/endpoints/config.py:96-131 | on acceptance the normalised URL is stored and echoed with success; on either refusal the store is unchanged and the reply carries the source's message and the URL currently in effect |
| `ConfigEndpoint.SetExternalApiCredentials` | backend/app/api/endpoints/config.py:134-168 | on acceptance the stripped username and the password are stored, and the reply echoes the username (the reply has no password field); on either refusal the store is unchanged and the reply carries the username currently in effect |

## Left out

- The HTTP exchange itself is not modelled: the httpx client, JSON encoding and decoding, async/await and the 30-second timeout. The reply is an input instead.
- `get_authorized_client` is not modelled. It only wraps the token in an httpx client with an `Authorization` header.
- Logging with structlog is not modelled. It is for observability only.
- `time.time()` is a float in the source. The model uses an integer clock. The same `now` is used for the validity check and for the new expiry, so time passing during the login exchange is not modelled.
- Concurrency is not modelled. The source has no lock and no coalescing of concurrent refreshes, so the model makes sequential calls only.
- Values of other JSON types in the reply are not modelled. The model takes `access_token` as an absent value or a string, and `expires_in` as an absent value or an integer. In the source, a non-integer number for `expires_in` (such as `1799.5`) works and the login succeeds. A falsy non-string `access_token` (`0`, `false`, `[]`, `{}`) raises a `ValueError`, the same path as a missing one. A truthy non-string `access_token` is stored as the token. An `expires_in` that cannot be added to a number, such as `null`, raises a `TypeError` after the token has been assigned. So `Auth.RunKeepsCoherent`'s invariant that a usable token has its credentials recorded holds only for integer or absent `expires_in`: in the source a first reply like `{"access_token": "x", "expires_in": null}` leaves a non-empty token with nothing recorded.
- The `settings` module is not part of this model. The default base URL, username and password and the login path are parameters.
- FastAPI routing, pydantic request and response schemas, and `get_settings_config` are not modelled. The last only copies settings into a reply.
