/** netlify/functions/spotify-test.js: a diagnostic endpoint that reports which credentials
    are configured and whether a token can be obtained. */
module SpotifyTestFunction {
  import opened Base
  import opened Text
  import opened Upstream
  import opened NetlifyFunction

  /** The three credentials read at module load; `None` where the variable is unset. */
  datatype Credentials = Credentials(clientId: Option<string>, clientSecret: Option<string>, refreshToken: Option<string>)

  /** A variable is truthy when it is set to a non-empty string. */
  predicate IsSet(v: Option<string>)
  {
    v.Some? && v.value != ""
  }

  /** Lines 71-79: the module throws while loading unless all three credentials are set, so
      no handler exists otherwise. */
  predicate ModuleLoads(env: Credentials)
  {
    IsSet(env.clientId) && IsSet(env.clientSecret) && IsSet(env.refreshToken)
  }

  datatype EnvVarStatus = EnvVarStatus(clientId: string, clientSecret: string, refreshToken: string)

  /** Lines 123-125: each entry reads "Not set" exactly when its variable is unset, and the
      secret itself is never shown. */
  function EnvVars(env: Credentials): (status: EnvVarStatus)
    ensures status.clientId == "Not set" <==> !IsSet(env.clientId)
    ensures status.clientSecret == (if IsSet(env.clientSecret) then "Set (hidden)" else "Not set")
    ensures status.refreshToken == "Not set" <==> !IsSet(env.refreshToken)
  {
    EnvVarStatus(
      if IsSet(env.clientId) then
        var id := env.clientId.value;
        "Set (" + Substring(id, 0, 5) + "..." + Substring(id, |id| - 5, |id|) + ")"
      else "Not set",
      if IsSet(env.clientSecret) then "Set (hidden)" else "Not set",
      if IsSet(env.refreshToken) then "Set (" + Substring(env.refreshToken.value, 0, 5) + "...hidden...)" else "Not set")
  }

  /** What a loaded module shows of its credentials: the first and last five characters of the
      client id (all of it, twice, when it is shorter), nothing of the secret and the first five
      characters of the refresh token (all of it when shorter). None of the "Not set" texts can
      appear. */
  lemma MaskedCredentials(env: Credentials)
    requires ModuleLoads(env)
    ensures var id := env.clientId.value;
      EnvVars(env).clientId
      == "Set (" + id[..if |id| < 5 then |id| else 5] + "..." + id[if |id| < 5 then 0 else |id| - 5..] + ")"
    ensures EnvVars(env).clientSecret == "Set (hidden)"
    ensures var token := env.refreshToken.value;
      EnvVars(env).refreshToken == "Set (" + token[..if |token| < 5 then |token| else 5] + "...hidden...)"
  {
  }

  /** A client id shorter than five characters is shown in full, twice. */
  lemma ShortClientIdShownWhole(env: Credentials)
    requires ModuleLoads(env) && |env.clientId.value| <= 5
    ensures EnvVars(env).clientId == "Set (" + env.clientId.value + "..." + env.clientId.value + ")"
  {
  }

  /** `Failed: ${tokenError.message}` where the message is `Failed to get access token: ${error.message}`. */
  const FailedPrefix := "Failed: Failed to get access token: "

  /** `tokenStatus` after the inner try/catch: `'Success'`, or `Failed: ` followed by the
      message of the rethrown error, which itself embeds the axios message. */
  function TokenStatus(tokenReply: Reply<TokenGrant>): (status: string)
    ensures status == "Success" <==> Resolves(tokenReply)
  {
    match Settle(tokenReply)
    case Ok(_) => "Success"
    case Err(e) =>
      var status := FailedPrefix + e.message;
      assert status[0] != "Success"[0];
      status
  }

  datatype Diagnostics = Diagnostics(envVars: EnvVarStatus, tokenGeneration: string, tokenWorks: bool)

  /** How the body is rendered: the HTML page (its template is not modelled) or JSON. */
  datatype Rendered<+T> = Html(htmlData: T) | JsonText(jsonData: T)
  {
    /** The data behind the page or the JSON text. */
    function Data(): T
    {
      if Html? then htmlData else jsonData
    }
  }

  datatype ErrorData = ErrorData(error: string, message: string)

  /** The handler's outcome: a response, or an exception that escapes it. */
  datatype Outcome =
    | Preflighted(preflight: FunctionResponse<()>)
    | Answered(statusCode: int, headers: map<string, string>, diagnostics: Rendered<Diagnostics>)
    | Failed(failureCode: int, failureHeaders: map<string, string>, errorData: Rendered<ErrorData>)
    | Thrown(thrown: string)

  const HtmlHeaders: map<string, string> := CorsHeaders["Content-Type" := "text/html"]

  /** `event.headers.accept || ''` asks for HTML. */
  predicate WantsHtml(accept: Option<string>)
  {
    accept.Some? && Contains(accept.value, "text/html")
  }

  /** The outer catch block. Reading `event.headers.accept` is the only statement of the try
      block that can throw, and only when `event.headers` is absent, in which case the catch
      block's own read of it throws again. */
  function CatchBlock(headers: Option<map<string, string>>, message: string): (o: Outcome)
    ensures headers.None? <==> o.Thrown?
    ensures o.Failed? ==> o.failureCode == 500 && o.errorData.Html? == WantsHtml(Accept(headers.value))
    ensures o.Failed? ==> o.failureHeaders == (if WantsHtml(Accept(headers.value)) then HtmlHeaders else CorsHeaders)
  {
    match headers
    case None => Thrown("TypeError: Cannot read properties of undefined (reading 'accept')")
    case Some(h) =>
      var data := ErrorData("Failed to run diagnostics", message);
      if WantsHtml(Accept(h)) then Failed(500, HtmlHeaders, Html(data)) else Failed(500, CorsHeaders, JsonText(data))
  }

  function Accept(headers: map<string, string>): Option<string>
  {
    if "accept" in headers then Some(headers["accept"]) else None
  }

  /** `exports.handler` of a loaded module; `headers` is `event.headers`. */
  function Handler(env: Credentials, httpMethod: string, headers: Option<map<string, string>>, tokenReply: Reply<TokenGrant>)
    : (o: Outcome)
    requires ModuleLoads(env)
    ensures httpMethod == "OPTIONS" <==> o.Preflighted?
    ensures o.Preflighted? ==> o.preflight == Preflight()
    ensures o.Answered? <==> httpMethod != "OPTIONS" && headers.Some?
    ensures o.Answered? ==> o.statusCode == 200 && o.diagnostics.Html? == WantsHtml(Accept(headers.value))
    ensures o.Answered? ==> o.headers == (if WantsHtml(Accept(headers.value)) then HtmlHeaders else CorsHeaders)
    ensures o.Answered? ==> o.diagnostics.Data() == Diagnostics(EnvVars(env), TokenStatus(tokenReply), Resolves(tokenReply))
    ensures !o.Failed?
  {
    if httpMethod == "OPTIONS" then Preflighted(Preflight())
    else
      var status := TokenStatus(tokenReply);
      var data := Diagnostics(EnvVars(env), status, status == "Success");
      match headers
      case None => CatchBlock(headers, "Cannot read properties of undefined (reading 'accept')")
      case Some(h) =>
        if WantsHtml(Accept(h)) then Answered(200, HtmlHeaders, Html(data)) else Answered(200, CorsHeaders, JsonText(data))
  }

  /** A failed token exchange still answers 200, with `tokenWorks` false and the reason in
      `tokenGeneration`. */
  lemma TokenFailureStillAnswers(env: Credentials, headers: map<string, string>, tokenReply: Reply<TokenGrant>)
    requires ModuleLoads(env) && !Resolves(tokenReply)
    ensures Handler(env, "GET", Some(headers), tokenReply).Answered?
    ensures Handler(env, "GET", Some(headers), tokenReply).statusCode == 200
    ensures !Handler(env, "GET", Some(headers), tokenReply).diagnostics.Data().tokenWorks
    ensures StartsWith(TokenStatus(tokenReply), FailedPrefix)
  {
    var status := TokenStatus(tokenReply);
    assert status[..|FailedPrefix|] == FailedPrefix;
  }
}
