/** netlify-check.js: the pre-deploy check of the Spotify variables. Missing ones stop the
    build with exit status 1; otherwise the client id and secret are checked for the 32
    hexadecimal digits the provider issues. */
module NetlifyCheck {
  import opened Base
  import NetlifyDebug

  const RequiredVars := ["SPOTIFY_CLIENT_ID", "SPOTIFY_CLIENT_SECRET", "SPOTIFY_REFRESH_TOKEN"]

  /** `requiredVars.filter(varName => !process.env[varName])`: unset or empty, in list order. */
  function MissingVars(env: map<string, string>): (missing: seq<string>)
    ensures forall v :: v in missing <==> v in RequiredVars && !NetlifyDebug.Present(env, v)
  {
    Filter(RequiredVars, (v: string) => !NetlifyDebug.Present(env, v))
  }

  predicate HexDigit(c: char)
  {
    '0' <= c <= '9' || 'a' <= c <= 'f' || 'A' <= c <= 'F'
  }

  /** `/^[0-9a-f]{32}$/i`: exactly 32 hexadecimal digits, in either case. */
  predicate WellFormedKey(s: string)
  {
    |s| == 32 && forall k :: 0 <= k < |s| ==> HexDigit(s[k])
  }

  /** The outcome: exit 1 naming the missing variables, or the format warnings and whether
      the empty-refresh-token warning is printed. */
  datatype Outcome =
    | ExitFailure(missing: seq<string>)
    | Checked(clientIdWarning: bool, secretWarning: bool, emptyRefreshWarning: bool)

  function Check(env: map<string, string>): (o: Outcome)
    ensures o.ExitFailure? <==> exists v :: v in RequiredVars && !NetlifyDebug.Present(env, v)
    ensures o.Checked? ==>
      NetlifyDebug.Present(env, "SPOTIFY_CLIENT_ID") && NetlifyDebug.Present(env, "SPOTIFY_CLIENT_SECRET") &&
      NetlifyDebug.Present(env, "SPOTIFY_REFRESH_TOKEN")
    ensures o.Checked? ==> (o.clientIdWarning <==> !WellFormedKey(env["SPOTIFY_CLIENT_ID"]))
    ensures o.Checked? ==> (o.secretWarning <==> !WellFormedKey(env["SPOTIFY_CLIENT_SECRET"]))
  {
    var missing := MissingVars(env);
    if |missing| > 0 then
      assert missing[0] in missing;
      ExitFailure(missing)
    else
      assert RequiredVars[0] in RequiredVars && RequiredVars[1] in RequiredVars && RequiredVars[2] in RequiredVars;
      Checked(!WellFormedKey(env["SPOTIFY_CLIENT_ID"]), !WellFormedKey(env["SPOTIFY_CLIENT_SECRET"]),
              env["SPOTIFY_REFRESH_TOKEN"] == "")
  }

  /** An empty refresh token already counts as missing, so the warning for a set but empty
      token can never be printed. */
  lemma EmptyRefreshWarningUnreachable(env: map<string, string>)
    ensures Check(env).Checked? ==> !Check(env).emptyRefreshWarning
    ensures "SPOTIFY_REFRESH_TOKEN" in env && env["SPOTIFY_REFRESH_TOKEN"] == "" ==> Check(env).ExitFailure?
  {
    assert "SPOTIFY_REFRESH_TOKEN" in RequiredVars;
  }

  /** The format check accepts lower and upper case alike and nothing but 32 digits. */
  lemma KeyFormat()
    ensures WellFormedKey("0123456789abcdef0123456789ABCDEF")
    ensures !WellFormedKey("0123456789abcdef0123456789abcde")
    ensures !WellFormedKey("0123456789abcdef0123456789abcdeg")
  {
    assert !HexDigit("0123456789abcdef0123456789abcdeg"[31]);
  }
}
