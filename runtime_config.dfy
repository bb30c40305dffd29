/** The in-memory runtime configuration: three optional overrides (base URL,
    username, password) of the external API settings. An unset slot falls
    back to the setting's default. Nothing is persisted. */
module RuntimeConfig {
  import opened Wrappers

  class ConfigStore {
    // The process-wide settings each slot falls back to.
    const defaultBaseUrl: string
    const defaultUsername: string
    const defaultPassword: string

    // The three slots; None means "use the default".
    var baseUrlOverride: Option<string>
    var usernameOverride: Option<string>
    var passwordOverride: Option<string>

    /** Startup: no slot is overridden, so every getter gives its default. */
    constructor (defaultBaseUrl: string, defaultUsername: string, defaultPassword: string)
      ensures this.defaultBaseUrl == defaultBaseUrl
      ensures this.defaultUsername == defaultUsername
      ensures this.defaultPassword == defaultPassword
      ensures baseUrlOverride == None && usernameOverride == None && passwordOverride == None
      ensures BaseUrl() == defaultBaseUrl && Username() == defaultUsername && Password() == defaultPassword
    {
      this.defaultBaseUrl := defaultBaseUrl;
      this.defaultUsername := defaultUsername;
      this.defaultPassword := defaultPassword;
      baseUrlOverride := None;
      usernameOverride := None;
      passwordOverride := None;
    }

    /** The override whenever one is set, the empty string included;
        otherwise the default. */
    function BaseUrl(): (url: string)
      reads this
      ensures baseUrlOverride.Some? ==> url == baseUrlOverride.value
      ensures baseUrlOverride.None? ==> url == defaultBaseUrl
    {
      match baseUrlOverride
      case Some(url) => url
      case None => defaultBaseUrl
    }

    /** The override whenever one is set, the empty string included;
        otherwise the default. */
    function Username(): (username: string)
      reads this
      ensures usernameOverride.Some? ==> username == usernameOverride.value
      ensures usernameOverride.None? ==> username == defaultUsername
    {
      match usernameOverride
      case Some(username) => username
      case None => defaultUsername
    }

    /** The override whenever one is set, the empty string included;
        otherwise the default. */
    function Password(): (password: string)
      reads this
      ensures passwordOverride.Some? ==> password == passwordOverride.value
      ensures passwordOverride.None? ==> password == defaultPassword
    {
      match passwordOverride
      case Some(password) => password
      case None => defaultPassword
    }

    /** Stores `url` verbatim (no validation, the empty string included); only
        the base-URL slot changes. */
    method SetBaseUrl(url: string)
      modifies this`baseUrlOverride
      ensures baseUrlOverride == Some(url)
      ensures BaseUrl() == url
      ensures Username() == old(Username()) && Password() == old(Password())
    {
      baseUrlOverride := Some(url);
    }

    /** Forgets the base-URL override, so the default applies again. */
    method ResetBaseUrl()
      modifies this`baseUrlOverride
      ensures baseUrlOverride == None
      ensures BaseUrl() == defaultBaseUrl
      ensures Username() == old(Username()) && Password() == old(Password())
    {
      baseUrlOverride := None;
    }

    /** Stores `username` verbatim; only the username slot changes. */
    method SetUsername(username: string)
      modifies this`usernameOverride
      ensures usernameOverride == Some(username)
      ensures Username() == username
      ensures BaseUrl() == old(BaseUrl()) && Password() == old(Password())
    {
      usernameOverride := Some(username);
    }

    /** Stores `password` verbatim; only the password slot changes. */
    method SetPassword(password: string)
      modifies this`passwordOverride
      ensures passwordOverride == Some(password)
      ensures Password() == password
      ensures BaseUrl() == old(BaseUrl()) && Username() == old(Username())
    {
      passwordOverride := Some(password);
    }
  }
}
