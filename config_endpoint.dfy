/** The two configuration setters of the HTTP API: they clean and check the
    submitted values and store them in the runtime configuration, or refuse
    them and leave the configuration as it was. */
module ConfigEndpoint {
  import opened Wrappers
  import opened StringOps
  import RuntimeConfig

  const EmptyUrlMessage := "URL cannot be empty"
  const MissingSchemeMessage := "URL must start with http:// or https://"
  const BaseUrlUpdatedMessage :=
    "External API base URL updated successfully. This change is temporary and will be reset on server restart."
  const EmptyUsernameMessage := "Username cannot be empty"
  const EmptyPasswordMessage := "password cannot be empty"
  const CredentialsUpdatedMessage :=
    "External API credentials updated successfully. This change is temporary and will be reset on server restart."

  datatype BaseUrlResponse = BaseUrlResponse(success: bool, message: string, externalApiBaseUrl: string)

  /** The reply carries the username only; there is no field for the password. */
  datatype CredentialsResponse = CredentialsResponse(success: bool, message: string, username: string)

  datatype UrlRejection = EmptyUrl | MissingScheme

  predicate HasHttpScheme(url: string) {
    StartsWith(url, "http://") || StartsWith(url, "https://")
  }

  /** The base URL as the endpoint would store it, or why it is refused:
      whitespace is stripped, an empty value and one without an http(s)
      scheme are refused, and every trailing '/' is removed. */
  function NormalizeBaseUrl(raw: string): (r: Result<string, UrlRejection>)
    ensures r == Failure(EmptyUrl) <==> AllWhitespace(raw)
    ensures r == Failure(MissingScheme) <==> !AllWhitespace(raw) && !HasHttpScheme(Strip(raw))
  {
    var url := Strip(raw);
    if url == [] then Failure(EmptyUrl)
    else if !HasHttpScheme(url) then Failure(MissingScheme)
    else Success(TrimTrailingSlashes(url))
  }

  /** An accepted URL is the stripped input minus a run of trailing '/'; the
      scheme name and its ':' survive, and it never ends with '/'. The scheme
      test comes before the slashes are removed, so of "http://" only "http:"
      is kept. */
  lemma AcceptedBaseUrl(raw: string)
    requires NormalizeBaseUrl(raw).Success?
    ensures
      var url, stripped := NormalizeBaseUrl(raw).value, Strip(raw);
      |url| <= |stripped| && url == stripped[..|url|] &&
      (forall k :: |url| <= k < |stripped| ==> stripped[k] == '/') &&
      (StartsWith(url, "http:") || StartsWith(url, "https:")) &&
      url != [] && url[|url| - 1] != '/'
  {
    AcceptedUrlKeepsSchemeName(Strip(raw));
  }

  /** The ':' after the scheme name is not a '/', so removing trailing
      slashes cannot eat into "http:" or "https:". */
  lemma AcceptedUrlKeepsSchemeName(url: string)
    requires HasHttpScheme(url)
    ensures StartsWith(TrimTrailingSlashes(url), "http:") || StartsWith(TrimTrailingSlashes(url), "https:")
  {
    var n := if StartsWith(url, "http://") then 5 else 6;
    assert url[n - 1] == ':' by {
      if n == 5 { assert url[..7][4] == ':'; } else { assert url[..8][5] == ':'; }
    }
    TrimTrailingSlashesKeeps(url, n);
    if n == 5 {
      assert url[..5] == url[..7][..5] == "http:";
    } else {
      assert url[..6] == url[..8][..6] == "https:";
    }
  }

  /** The scheme-only URL "http://" is accepted and stored as "http:". */
  lemma SchemeOnlyUrlLosesItsSlashes()
    ensures NormalizeBaseUrl("http://") == Success("http:")
  {
    var s := "http://";
    StripUnique(s, 0, 7);
    assert Strip(s) == s && s[..7] == "http://";
    assert s[..6] == "http:/";
    assert TrimTrailingSlashes(s) == TrimTrailingSlashes("http:/");
    assert "http:/"[..5] == "http:";
    assert TrimTrailingSlashes("http:/") == TrimTrailingSlashes("http:") == "http:";
  }

  /** The stored "http:" is refused when it is submitted to the same endpoint. */
  lemma StoredSchemeOnlyUrlIsRefused()
    ensures NormalizeBaseUrl("http:") == Failure(MissingScheme)
  {
    var t := "http:";
    StripUnique(t, 0, 5);
    assert Strip(t) == t;
  }

  /** Whitespace before a trailing '/' survives: "http://a /" is stored as
      "http://a ". */
  lemma StoredUrlMayEndInWhitespace()
    ensures NormalizeBaseUrl("http://a /") == Success("http://a ")
  {
    var s := "http://a /";
    StripUnique(s, 0, 10);
    assert Strip(s) == s;
    assert s[..7] == "http://";
    assert s[..9] == "http://a ";
    assert TrimTrailingSlashes(s) == "http://a ";
  }

  datatype CredentialsRejection = EmptyUsername | EmptyPassword

  /** The (username, password) pair the endpoint would store, or why it is
      refused: the username is stripped and checked first, the password is
      taken as given and only refused when empty. */
  function CheckCredentials(username: string, password: string): (r: Result<(string, string), CredentialsRejection>)
    ensures r == Failure(EmptyUsername) <==> AllWhitespace(username)
    ensures r == Failure(EmptyPassword) <==> !AllWhitespace(username) && password == []
    ensures r.Success? ==>
      r.value == (Strip(username), password) && r.value.0 != [] && r.value.1 != []
  {
    var name := Strip(username);
    if name == [] then Failure(EmptyUsername)
    else if password == [] then Failure(EmptyPassword)
    else Success((name, password))
  }

  /** POST /external-api-base-url. */
  method SetExternalApiBaseUrl(store: RuntimeConfig.ConfigStore, requestUrl: string)
    returns (response: BaseUrlResponse)
    modifies store`baseUrlOverride
    ensures match NormalizeBaseUrl(requestUrl)
      case Success(url) =>
        store.BaseUrl() == url && response == BaseUrlResponse(true, BaseUrlUpdatedMessage, url)
      case Failure(EmptyUrl) =>
        unchanged(store) && response == BaseUrlResponse(false, EmptyUrlMessage, store.BaseUrl())
      case Failure(MissingScheme) =>
        unchanged(store) && response == BaseUrlResponse(false, MissingSchemeMessage, store.BaseUrl())
  {
    var url := Strip(requestUrl);
    if url == [] {
      return BaseUrlResponse(false, EmptyUrlMessage, store.BaseUrl());
    }
    if !HasHttpScheme(url) {
      return BaseUrlResponse(false, MissingSchemeMessage, store.BaseUrl());
    }
    url := TrimTrailingSlashes(url);
    store.SetBaseUrl(url);
    response := BaseUrlResponse(true, BaseUrlUpdatedMessage, url);
  }

  /** POST /external-api-credentials. */
  method SetExternalApiCredentials(store: RuntimeConfig.ConfigStore, requestUsername: string, requestPassword: string)
    returns (response: CredentialsResponse)
    modifies store`usernameOverride, store`passwordOverride
    ensures match CheckCredentials(requestUsername, requestPassword)
      case Success((username, password)) =>
        store.Username() == username && store.Password() == password &&
        response == CredentialsResponse(true, CredentialsUpdatedMessage, username)
      case Failure(EmptyUsername) =>
        unchanged(store) && response == CredentialsResponse(false, EmptyUsernameMessage, store.Username())
      case Failure(EmptyPassword) =>
        unchanged(store) && response == CredentialsResponse(false, EmptyPasswordMessage, store.Username())
  {
    var username := Strip(requestUsername);
    var password := requestPassword;
    if username == [] {
      return CredentialsResponse(false, EmptyUsernameMessage, store.Username());
    }
    if password == [] {
      return CredentialsResponse(false, EmptyPasswordMessage, store.Username());
    }
    store.SetUsername(username);
    store.SetPassword(password);
    response := CredentialsResponse(true, CredentialsUpdatedMessage, username);
  }
}
