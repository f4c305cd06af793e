/** Configuration resolution of the reporting plugin: where the API URL,
    the authentication token and the disabled flag come from, the
    authorization header derived from the token, and the one line the
    plugin adds to the test session header.

    Each setting is read from three layers: the command line, an
    environment variable and the ini file. The layers reach this module
    as plain values; reading them is the host's business. */
module Options {
  import opened Common
  import PyText

  /** The built-in API URL, also the ini default of `report_api_url`. */
  const DefaultApiUrl: string := "http://localhost:5000"

  const DisabledLine: string := "Tests will NOT be reported to API"
  const EnabledLinePrefix: string := "Tests will be reported to "

  /** `--report-api-url`, `--report-api-auth-token` (both `None` when not
      given) and the `--report-api-disabled` switch. */
  datatype CommandLine = CommandLine(url: Option<string>, token: Option<string>, disabled: bool)

  /** `PYTEST_REPORT_API_URL`, `PYTEST_REPORT_API_AUTH_TOKEN` and
      `PYTEST_REPORT_API_DISABLED`; `None` when the variable is unset. */
  datatype Environment = Environment(url: Option<string>, token: Option<string>, disabled: Option<string>)

  /** What `getini` yields for `report_api_url` (the built-in URL when the
      key is unset), `report_api_auth_token` (`""` when the key is unset,
      since it is registered without a default; `None` only from a host
      that supplies it so) and the boolean `report_api_disabled`. */
  datatype IniFile = IniFile(url: string, token: Option<string>, disabled: IniBool)

  /** `getini` of a boolean key: a flag, or text pytest cannot read as a
      boolean, on which `getini` raises. */
  datatype IniBool = Flag(value: bool) | Unreadable(text: string)

  datatype Config = Config(url: string, token: Option<string>, disabled: bool, headers: map<string, string>)

  /** `int()` raised on the disabled-flag environment variable, or
      `getini` raised on the disabled-flag ini value. */
  datatype ConfigError = DisabledNotAnInteger(text: string) | IniNotABoolean(text: string)

  /** The URL: `os.getenv(name, ini) or DEFAULT` when the command line is
      silent. */
  function ResolveUrl(cli: Option<string>, env: Option<string>, ini: string): (r: string)
    ensures cli.Some? ==> r == cli.value
    ensures cli.None? && env.Some? && env.value != "" ==> r == env.value
    ensures cli.None? && env == Some("") ==> r == DefaultApiUrl
    ensures cli.None? && env.None? && ini != "" ==> r == ini
    ensures cli.None? && env.None? && ini == "" ==> r == DefaultApiUrl
    ensures r == "" ==> cli == Some("")
  {
    match cli
    case Some(u) => u
    case None =>
      var fromEnv := match env case Some(e) => e case None => ini;
      if fromEnv == "" then DefaultApiUrl else fromEnv
  }

  /** The token: `os.getenv(name, ini)` when the command line is silent.
      There is no built-in default, so a token is only ever one of the
      three layers' values. */
  function ResolveToken(cli: Option<string>, env: Option<string>, ini: Option<string>): (r: Option<string>)
    ensures cli.Some? ==> r == cli
    ensures cli.None? && env.Some? ==> r == env
    ensures cli.None? && env.None? ==> r == ini
    ensures r.None? <==> cli.None? && env.None? && ini.None?
  {
    if cli.Some? then cli
    else if env.Some? then env
    else ini
  }

  /** The disabled flag: `cli` if set, else `bool(int(os.getenv(name, ini)))`.
      The ini value is read first, as `getenv`'s default, so an unreadable
      one raises even when the variable is set. A set environment variable
      replaces the ini value rather than being or-ed with it, and `int()`
      raises on text that is not a number. */
  function ResolveDisabled(cli: bool, env: Option<string>, ini: IniBool): (r: Result<bool, ConfigError>)
    ensures cli ==> r == Success(true)
    ensures !cli && ini.Unreadable? ==> r == Failure(IniNotABoolean(ini.text))
    ensures !cli && ini.Flag? && env.None? ==> r == Success(ini.value)
    ensures r.Failure? <==> !cli && (ini.Unreadable? || (env.Some? && PyText.ParseInt(env.value).None?))
    ensures r.Failure? && ini.Flag? ==> r.error == DisabledNotAnInteger(env.value)
    ensures !cli && env.Some? && r.Success? ==> (r.value <==> PyText.ParseInt(env.value).value != 0)
  {
    if cli then Success(true)
    else
      match ini
      case Unreadable(text) => Failure(IniNotABoolean(text))
      case Flag(default) =>
        match env
        case None => Success(default)
        case Some(text) =>
          match PyText.ParseInt(text)
          case None => Failure(DisabledNotAnInteger(text))
          case Some(n) => Success(n != 0)
  }

  /** A set disabled variable decides on its own: its digits, not the ini
      file, settle the flag unless the command line disables reporting. */
  lemma DisabledByEnvironment(cli: bool, text: string, ini: bool)
    requires !cli && PyText.ParseInt(text).Some?
    ensures ResolveDisabled(cli, Some(text), Flag(ini))
         == Success(exists i :: 0 <= i < |text| && PyText.IsDigit(text[i]) && text[i] != '0')
  {
    PyText.ParseIntNonZero(text);
  }

  /** "0" in the environment re-enables reporting that the ini file
      disables, so "any layer disables" does not hold. */
  lemma ZeroInEnvironmentOverridesIni()
    ensures ResolveDisabled(false, Some("0"), Flag(true)) == Success(false)
  {
    PyText.ParseIntOfString(0);
  }

  /** A word in the disabled variable makes configuration fail, whatever
      flag the ini file holds. */
  lemma WordInEnvironmentFails(ini: bool)
    ensures ResolveDisabled(false, Some("yes"), Flag(ini)).Failure?
  {
    PyText.ParseIntRejects("yes", 0);
  }

  /** The request headers derived from the token by `pytest_configure`. */
  function AuthHeaders(token: Option<string>): (h: map<string, string>)
    ensures h.Keys <= {"Authorization"}
    ensures "Authorization" in h <==> token.Some? && token.value != ""
    ensures "Authorization" in h ==> h["Authorization"] == "token " + token.value
  {
    if token.Some? && token.value != "" then map["Authorization" := "token " + token.value]
    else map[]
  }

  /** `_get_options` followed by `pytest_configure`. */
  function Configure(cli: CommandLine, env: Environment, ini: IniFile): (r: Result<Config, ConfigError>)
    ensures r.Failure? <==> !cli.disabled && (ini.disabled.Unreadable?
                             || (env.disabled.Some? && PyText.ParseInt(env.disabled.value).None?))
    ensures r.Success? ==> r.value.url == ResolveUrl(cli.url, env.url, ini.url)
    ensures r.Success? ==> r.value.token == ResolveToken(cli.token, env.token, ini.token)
    ensures r.Success? ==> Success(r.value.disabled) == ResolveDisabled(cli.disabled, env.disabled, ini.disabled)
    ensures r.Success? ==> r.value.headers == AuthHeaders(r.value.token)
  {
    match ResolveDisabled(cli.disabled, env.disabled, ini.disabled)
    case Failure(e) => Failure(e)
    case Success(disabled) =>
      var token := ResolveToken(cli.token, env.token, ini.token);
      Success(Config(ResolveUrl(cli.url, env.url, ini.url), token, disabled, AuthHeaders(token)))
  }

  /** How the token shows in the header: a star and at most its first three
      characters, or "null" when there is no usable token. */
  function TokenPreview(token: Option<string>): (r: string)
    ensures r == "null" <==> token.None? || token.value == ""
    ensures r != "null" ==> |r| == 1 + Min(3, |token.value|) && r[0] == '*' && StartsWith(token.value, r[1..])
  {
    if token.Some? && token.value != "" then
      var shown := "*" + token.value[..Min(3, |token.value|)];
      assert shown[0] != "null"[0];
      shown
    else "null"
  }

  /** The URL as `repr()` shows it, for URLs without quotes, backslashes or
      unprintable characters. */
  function Quoted(url: string): string {
    "'" + url + "'"
  }

  /** The line `pytest_report_header` adds to the session header. */
  function ReportHeader(cfg: Config): (line: string)
    ensures cfg.disabled ==> line == DisabledLine
    ensures !cfg.disabled ==> StartsWith(line, EnabledLinePrefix + Quoted(cfg.url))
    ensures !cfg.disabled ==> EndsWith(line, "(token: " + TokenPreview(cfg.token) + ")")
    ensures !cfg.disabled ==> line != DisabledLine
  {
    if !cfg.disabled then
      EnabledLinePrefix + Quoted(cfg.url) + " (token: " + TokenPreview(cfg.token) + ")"
    else
      DisabledLine
  }

  /** With the token "abc123" the header shows "*abc"; without a token it
      shows "null". */
  lemma HeaderShowsTokenPreview(url: string)
    ensures EndsWith(ReportHeader(Config(url, Some("abc123"), false, AuthHeaders(Some("abc123")))), "(token: *abc)")
    ensures EndsWith(ReportHeader(Config(url, None, false, map[])), "(token: null)")
  {
    assert "abc123"[..3] == "abc";
  }
}
