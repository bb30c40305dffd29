/** The bearer-token cache of the external API client. The client remembers
    the last token, its absolute expiry and the (base URL, username,
    password) it was issued for, and logs in again when the token is empty,
    about to expire or issued for other credentials.

    The functions below specify one call on a value `Session`; the class
    `AuthClient` performs the same call field by field and is proved equal
    to them. The clock and the reply of the login exchange are parameters. */
module Auth {
  import opened Wrappers
  import RuntimeConfig

  /** A token is refreshed this many seconds before it actually expires. */
  const ExpiryMarginSeconds: int := 60
  /** Lifetime assumed when the login reply carries no `expires_in`. */
  const DefaultExpiresInSeconds: int := 3600

  /** The credentials in effect: what the runtime configuration resolves to. */
  datatype Credentials = Credentials(baseUrl: string, username: string, password: string)

  function CurrentCredentials(store: RuntimeConfig.ConfigStore): (c: Credentials)
    reads store
  {
    Credentials(store.BaseUrl(), store.Username(), store.Password())
  }

  /** The JSON login POST sent to `url`, body `{"user_name": .., "password": ..}`. */
  datatype LoginRequest = LoginRequest(url: string, userName: string, password: string)

  /** The fields read from a decoded JSON reply. */
  datatype LoginBody = LoginBody(accessToken: Option<string>, expiresIn: Option<int>)

  /** What the login exchange produced: an HTTP reply whose body decoded to a
      JSON object (`Some`) or did not (`None`), or a transport failure
      (timeout, refused connection, name resolution). */
  datatype LoginResponse =
    | HttpResponse(status: int, body: Option<LoginBody>)
    | TransportError

  /** Why a call failed; each is an exception the client re-raises. */
  datatype LoginError =
    | StatusError(status: int)  // raise_for_status on a reply that is not 2xx
    | UndecodableBody           // the reply is not a JSON object
    | MissingAccessToken        // no access_token, or an empty one
    | TransportFailure

  /** `raise_for_status` accepts exactly the 2xx replies. */
  predicate IsSuccessStatus(status: int) {
    200 <= status <= 299
  }

  /** The client's fields: the token (None, or a string that may be empty),
      its absolute expiry in seconds, and the credentials of the last
      successful login. */
  datatype Session = Session(
    token: Option<string>,
    expiresAt: int,
    lastBaseUrl: Option<string>,
    lastUsername: Option<string>,
    lastPassword: Option<string>)

  /** A fresh client: no token, expiry 0, nothing recorded. */
  const InitialSession := Session(None, 0, None, None, None)

  /** The effect of one call: the new fields, what the call returns or
      raises, and the login request it sent, if any. */
  datatype Step = Step(session: Session, result: Result<string, LoginError>, request: Option<LoginRequest>)

  /** Python truthiness of the token: present and not empty. */
  predicate HasToken(s: Session) {
    s.token.Some? && s.token.value != ""
  }

  predicate HasRecorded(s: Session) {
    s.lastBaseUrl.Some? && s.lastUsername.Some? && s.lastPassword.Some?
  }

  function Recorded(s: Session): (c: Credentials)
    requires HasRecorded(s)
  {
    Credentials(s.lastBaseUrl.value, s.lastUsername.value, s.lastPassword.value)
  }

  /** The client's invariant: the three recorded credentials are set together
      or not at all, and a usable token exists only once they are set. */
  predicate Coherent(s: Session) {
    (s.lastBaseUrl.Some? == s.lastUsername.Some? == s.lastPassword.Some?) &&
    (HasToken(s) ==> HasRecorded(s))
  }

  /** Some recorded credential is set and differs from the one in effect. */
  predicate CredentialsChanged(s: Session, c: Credentials) {
    (s.lastBaseUrl.Some? && s.lastBaseUrl.value != c.baseUrl) ||
    (s.lastUsername.Some? && s.lastUsername.value != c.username) ||
    (s.lastPassword.Some? && s.lastPassword.value != c.password)
  }

  /** The token counts as usable at `now`: non-empty and strictly more than
      the margin away from its expiry. */
  predicate TokenValid(s: Session, now: int) {
    HasToken(s) && now < s.expiresAt - ExpiryMarginSeconds
  }

  /** First step of a call: a change of credentials drops the token. */
  function Invalidate(s: Session, c: Credentials): (s': Session) {
    if CredentialsChanged(s, c) then s.(token := None, expiresAt := 0) else s
  }

  /** One login exchange with credentials `c`, given its reply. */
  function LoginStep(s: Session, c: Credentials, loginPath: string, now: int, response: LoginResponse): (st: Step)
    ensures st.request == Some(LoginRequest(c.baseUrl + loginPath, c.username, c.password))
    ensures st.result.Success? <==>
      response.HttpResponse? && IsSuccessStatus(response.status) && response.body.Some? &&
      response.body.value.accessToken.Some? && response.body.value.accessToken.value != ""
    ensures st.result.Success? ==>
      st.result.value == response.body.value.accessToken.value &&
      st.session.token == Some(st.result.value) && st.result.value != "" &&
      st.session.expiresAt == now + response.body.value.expiresIn.GetOr(DefaultExpiresInSeconds) &&
      HasRecorded(st.session) && Recorded(st.session) == c
    // A failed login records nothing and keeps the expiry; only a reply
    // without a usable access_token overwrites the token, with an empty one.
    ensures st.result.Failure? ==>
      st.session.expiresAt == s.expiresAt &&
      st.session.lastBaseUrl == s.lastBaseUrl &&
      st.session.lastUsername == s.lastUsername &&
      st.session.lastPassword == s.lastPassword &&
      (st.session.token == s.token || !HasToken(st.session))
    ensures response.HttpResponse? && IsSuccessStatus(response.status) && response.body.None? ==>
      st.result == Failure(UndecodableBody) && st.session == s
    // A decoded reply without a usable access_token still overwrites the
    // token (with None or ""), so no usable token is left in place.
    ensures (response.HttpResponse? && IsSuccessStatus(response.status) && response.body.Some? &&
             (response.body.value.accessToken.None? || response.body.value.accessToken.value == "")) ==>
      st.result == Failure(MissingAccessToken) &&
      st.session == s.(token := response.body.value.accessToken) && !HasToken(st.session)
    ensures response.TransportError? ==> st.result == Failure(TransportFailure) && st.session == s
    ensures response.HttpResponse? && !IsSuccessStatus(response.status) ==>
      st.result == Failure(StatusError(response.status)) && st.session == s
  {
    var request := Some(LoginRequest(c.baseUrl + loginPath, c.username, c.password));
    match response
    case TransportError => Step(s, Failure(TransportFailure), request)
    case HttpResponse(status, body) =>
      if !IsSuccessStatus(status) then Step(s, Failure(StatusError(status)), request)
      else if body.None? then Step(s, Failure(UndecodableBody), request)
      else
        var s1 := s.(token := body.value.accessToken);
        if !HasToken(s1) then Step(s1, Failure(MissingAccessToken), request)
        else
          var s2 := Session(s1.token, now + body.value.expiresIn.GetOr(DefaultExpiresInSeconds),
                            Some(c.baseUrl), Some(c.username), Some(c.password));
          Step(s2, Success(s1.token.value), request)
  }

  /** One call of get_access_token with credentials `c` in effect at `now`. */
  function AccessTokenStep(s: Session, c: Credentials, loginPath: string, now: int, response: LoginResponse): (st: Step)
    // Cache hit: no login is sent exactly when the credentials are unchanged
    // and the token is valid; then nothing changes and the token is returned.
    ensures st.request.None? <==> !CredentialsChanged(s, c) && TokenValid(s, now)
    ensures st.request.None? ==> st.session == s && st.result == Success(s.token.value)
    ensures st.request.Some? ==> st == LoginStep(Invalidate(s, c), c, loginPath, now, response)
    ensures Coherent(s) ==> Coherent(st.session)
    // Whatever is returned is a non-empty token issued for the credentials in effect.
    ensures Coherent(s) && st.result.Success? ==>
      st.session.token == Some(st.result.value) && st.result.value != "" &&
      HasRecorded(st.session) && Recorded(st.session) == c
  {
    var s1 := Invalidate(s, c);
    if TokenValid(s1, now) then Step(s1, Success(s1.token.value), None)
    else LoginStep(s1, c, loginPath, now, response)
  }

  /** With consistent fields, "credentials changed" means exactly that some
      credentials are recorded and they are not the ones in effect. */
  lemma ChangedIffRecordedDiffers(s: Session, c: Credentials)
    requires Coherent(s)
    ensures CredentialsChanged(s, c) <==> HasRecorded(s) && Recorded(s) != c
  {
  }

  /** Before the first successful login nothing is recorded, so no change of
      configuration can invalidate anything. */
  lemma NoInvalidationBeforeLogin(s: Session, c: Credentials)
    requires s.lastBaseUrl.None? && s.lastUsername.None? && s.lastPassword.None?
    ensures Invalidate(s, c) == s
  {
  }

  /** A change of any credential forces a login with the new credentials,
      however long the cached token still had to live. */
  lemma CredentialChangeForcesLogin(s: Session, c: Credentials, loginPath: string, now: int, response: LoginResponse)
    requires CredentialsChanged(s, c)
    ensures AccessTokenStep(s, c, loginPath, now, response) ==
      LoginStep(s.(token := None, expiresAt := 0), c, loginPath, now, response)
    ensures AccessTokenStep(s, c, loginPath, now, response).request ==
      Some(LoginRequest(c.baseUrl + loginPath, c.username, c.password))
  {
  }

  /** After a login at `t` whose reply carried `expiresIn` (or nothing, then
      3600), a call `k` seconds later with unchanged credentials is served
      from the cache exactly when `k < expiresIn - 60`; with the default
      lifetime the first refreshing call is at t + 3540. */
  lemma ExpiryRefreshBoundary(s: Session, c: Credentials, loginPath: string, t: int,
                              token: string, expiresIn: Option<int>, k: int, later: LoginResponse)
    requires token != ""
    requires !TokenValid(Invalidate(s, c), t)
    ensures
      var first := AccessTokenStep(s, c, loginPath, t, HttpResponse(200, Some(LoginBody(Some(token), expiresIn))));
      var second := AccessTokenStep(first.session, c, loginPath, t + k, later);
      first.result == Success(token) &&
      (second.request.None? <==> k < expiresIn.GetOr(DefaultExpiresInSeconds) - ExpiryMarginSeconds) &&
      (expiresIn.None? ==> (second.request.None? <==> k < 3540)) &&
      (second.request.None? ==> second.result == Success(token))
  {
  }

  /** A sequence of calls, the configuration possibly changing before each. */
  datatype Call = Call(credentials: Credentials, now: int, response: LoginResponse)

  function Run(s: Session, loginPath: string, calls: seq<Call>): (s': Session)
    decreases calls
  {
    if calls == [] then s
    else
      var c := calls[0];
      Run(AccessTokenStep(s, c.credentials, loginPath, c.now, c.response).session, loginPath, calls[1..])
  }

  /** From a fresh client, whatever the calls, the recorded credentials stay
      all set or all unset and a usable token always has them recorded. */
  lemma {:induction false} RunKeepsCoherent(s: Session, loginPath: string, calls: seq<Call>)
    requires Coherent(s)
    ensures Coherent(Run(s, loginPath, calls))
    decreases calls
  {
    if calls != [] {
      var c := calls[0];
      RunKeepsCoherent(AccessTokenStep(s, c.credentials, loginPath, c.now, c.response).session, loginPath, calls[1..]);
    }
  }

  class AuthClient {
    /** The login path appended to the base URL. */
    const loginPath: string

    var token: Option<string>
    var tokenExpiresAt: int
    var lastBaseUrl: Option<string>
    var lastUsername: Option<string>
    var lastPassword: Option<string>

    function State(): (s: Session)
      reads this
    {
      Session(token, tokenExpiresAt, lastBaseUrl, lastUsername, lastPassword)
    }

    ghost predicate Valid()
      reads this
    {
      Coherent(State())
    }

    constructor (loginPath: string)
      ensures this.loginPath == loginPath
      ensures State() == InitialSession && Valid()
    {
      this.loginPath := loginPath;
      token := None;
      tokenExpiresAt := 0;
      lastBaseUrl := None;
      lastUsername := None;
      lastPassword := None;
    }

    /** `_is_token_valid` at clock `now`. */
    method IsTokenValid(now: int) returns (valid: bool)
      ensures valid == TokenValid(State(), now)
    {
      if token.None? || token.value == "" {
        return false;
      }
      return now < tokenExpiresAt - ExpiryMarginSeconds;
    }

    /** `_fetch_new_token`: re-reads the configuration, sends the login and
        applies the reply. */
    method FetchNewToken(store: RuntimeConfig.ConfigStore, now: int, response: LoginResponse)
      returns (outcome: Outcome<LoginError>, request: LoginRequest)
      modifies this`token, this`tokenExpiresAt, this`lastBaseUrl, this`lastUsername, this`lastPassword
      ensures
        var st := LoginStep(old(State()), CurrentCredentials(store), loginPath, now, response);
        State() == st.session && st.request == Some(request) &&
        (outcome.Pass? <==> st.result.Success?) &&
        (outcome.Fail? ==> st.result == Failure(outcome.error))
    {
      var baseUrl := store.BaseUrl();
      var username := store.Username();
      var password := store.Password();
      request := LoginRequest(baseUrl + loginPath, username, password);
      match response
      case TransportError =>
        outcome := Fail(TransportFailure);
      case HttpResponse(status, body) =>
        if !IsSuccessStatus(status) {
          return Fail(StatusError(status)), request;
        }
        if body.None? {
          return Fail(UndecodableBody), request;
        }
        token := body.value.accessToken;
        if token.None? || token.value == "" {
          return Fail(MissingAccessToken), request;
        }
        var expiresIn := body.value.expiresIn.GetOr(DefaultExpiresInSeconds);
        tokenExpiresAt := now + expiresIn;
        lastBaseUrl := Some(baseUrl);
        lastUsername := Some(username);
        lastPassword := Some(password);
        outcome := Pass;
    }

    /** `get_access_token`: returns the token or the exception it raises,
        and the login request sent, if any. */
    method GetAccessToken(store: RuntimeConfig.ConfigStore, now: int, response: LoginResponse)
      returns (result: Result<string, LoginError>, request: Option<LoginRequest>)
      requires Valid()
      modifies this`token, this`tokenExpiresAt, this`lastBaseUrl, this`lastUsername, this`lastPassword
      ensures Valid()
      ensures
        var st := AccessTokenStep(old(State()), CurrentCredentials(store), loginPath, now, response);
        State() == st.session && result == st.result && request == st.request
    {
      var currentBaseUrl := store.BaseUrl();
      var currentUsername := store.Username();
      var currentPassword := store.Password();

      var credentialsChanged :=
        (lastBaseUrl.Some? && lastBaseUrl.value != currentBaseUrl) ||
        (lastUsername.Some? && lastUsername.value != currentUsername) ||
        (lastPassword.Some? && lastPassword.value != currentPassword);
      if credentialsChanged {
        token := None;
        tokenExpiresAt := 0;
      }

      var valid := IsTokenValid(now);
      if valid {
        return Success(token.value), None;
      }

      var outcome, sent := FetchNewToken(store, now, response);
      request := Some(sent);
      if outcome.Fail? {
        return Failure(outcome.error), request;
      }
      result := Success(token.value);
    }
  }
}
