/** netlify-debug.js: the deployment self-check. It reports each required variable masked,
    lists the function files, and looks for the build section, the functions directory, the
    API redirects and the required dependencies. */
module NetlifyDebug {
  import opened Base
  import opened Text
  import opened Js

  const RequiredVars := ["SPOTIFY_CLIENT_ID", "SPOTIFY_CLIENT_SECRET", "SPOTIFY_REFRESH_TOKEN"]
  const ApiEndpoints := ["/api/now-playing", "/api/top-tracks", "/api/recent-tracks"]
  const RequiredDeps := ["axios", "dotenv"]

  /** A value longer than 12 characters shows its first and last four around "..."; a shorter
      one shows as "****". */
  function Mask(value: string): (masked: string)
    ensures |value| > 12 ==> |masked| == 11 && masked[..4] == value[..4] && masked[4..7] == "..." && masked[7..] == value[|value| - 4..]
    ensures |value| <= 12 ==> masked == "****"
  {
    if |value| > 12 then Substring(value, 0, 4) + "..." + Substring(value, |value| - 4, |value|) else "****"
  }

  /** The mask reveals nothing of a value of 12 characters or fewer, and of a longer value no
      more than its first and last four: values that agree there mask alike. */
  lemma MaskRevealsAtMostEight(v: string, w: string)
    ensures |v| <= 12 && |w| <= 12 ==> Mask(v) == Mask(w)
    ensures |v| > 12 && |w| > 12 && v[..4] == w[..4] && v[|v| - 4..] == w[|w| - 4..] ==> Mask(v) == Mask(w)
  {
  }

  /** What the variable check prints for one name. */
  datatype VarReport = Missing(name: string) | Shown(name: string, masked: string)

  function Report(env: map<string, string>, name: string): VarReport
  {
    if name in env && env[name] != "" then Shown(name, Mask(env[name])) else Missing(name)
  }

  /** A variable counts as present when it is set and not empty. */
  predicate Present(env: map<string, string>, name: string)
  {
    name in env && env[name] != ""
  }

  /** The `forEach` over the required variables, clearing `allVarsPresent` at a missing one. */
  method CheckVars(env: map<string, string>, required: seq<string>) returns (allPresent: bool, reports: seq<VarReport>)
    ensures allPresent <==> forall k :: 0 <= k < |required| ==> Present(env, required[k])
    ensures |reports| == |required| && forall k :: 0 <= k < |required| ==> reports[k] == Report(env, required[k])
    ensures forall k :: 0 <= k < |required| ==> (reports[k].Missing? <==> !Present(env, required[k]))
  {
    allPresent := true;
    reports := [];
    for i := 0 to |required|
      invariant allPresent <==> forall k :: 0 <= k < i ==> Present(env, required[k])
      invariant |reports| == i && forall k :: 0 <= k < i ==> reports[k] == Report(env, required[k])
    {
      if !Present(env, required[i]) {
        allPresent := false;
      }
      reports := reports + [Report(env, required[i])];
    }
  }

  predicate IsFunctionFile(f: string)
  {
    EndsWith(f, ".js")
  }

  /** The function files: directory entries ending in ".js", in directory order, each as
      often as it is listed. */
  function FunctionFiles(entries: seq<string>): (files: seq<string>)
    ensures forall f :: f in files <==> f in entries && EndsWith(f, ".js")
    ensures Selects(entries, files, KeptIndices(entries, IsFunctionFile), IsFunctionFile)
  {
    FilterSelects(entries, IsFunctionFile);
    Filter(entries, IsFunctionFile)
  }

  /** The redirect line netlify.toml needs for an endpoint. */
  function RedirectLine(endpoint: string): string
  {
    "from = \"" + endpoint + "\""
  }

  predicate Redirected(toml: string, endpoint: string)
  {
    Contains(toml, RedirectLine(endpoint))
  }

  /** The `forEach` collecting the endpoints netlify.toml has no redirect for, in list order. */
  method MissingRedirects(toml: string, endpoints: seq<string>) returns (missing: seq<string>)
    ensures missing == Filter(endpoints, (e: string) => !Redirected(toml, e))
    ensures forall e :: e in missing <==> e in endpoints && !Redirected(toml, e)
  {
    missing := [];
    for i := 0 to |endpoints|
      invariant missing == Filter(endpoints[..i], (e: string) => !Redirected(toml, e))
    {
      assert endpoints[..i + 1][..i] == endpoints[..i];
      if !Redirected(toml, endpoints[i]) {
        missing := missing + [endpoints[i]];
      }
    }
    assert endpoints[..|endpoints|] == endpoints;
  }

  /** The netlify.toml checks: the build section, the functions directory, the redirects. */
  datatype TomlReport = TomlReport(hasBuild: bool, hasFunctions: bool, missingRedirects: seq<string>)

  method CheckToml(toml: string) returns (r: TomlReport)
    ensures r.hasBuild <==> Contains(toml, "[build]")
    ensures r.hasFunctions <==> Contains(toml, "functions =")
    ensures forall e :: e in r.missingRedirects <==> e in ApiEndpoints && !Redirected(toml, e)
  {
    var missing := MissingRedirects(toml, ApiEndpoints);
    r := TomlReport(Contains(toml, "[build]"), Contains(toml, "functions ="), missing);
  }

  /** A netlify.toml carrying the three redirect lines is missing none. */
  lemma AllRedirectsPresent(toml: string)
    requires forall e :: e in ApiEndpoints ==> Redirected(toml, e)
    ensures Filter(ApiEndpoints, (e: string) => !Redirected(toml, e)) == []
  {
    FilterNone(ApiEndpoints, (e: string) => !Redirected(toml, e));
  }

  /** The `forEach` collecting the required dependencies `package.json` lacks, in list order;
      without a `dependencies` object the first read throws. */
  method MissingDeps(dependencies: Value, required: seq<string>) returns (r: Result<seq<string>, string>)
    ensures Nullish(dependencies) && |required| > 0 ==> r == Err(ReadError(dependencies, required[0]))
    ensures !Nullish(dependencies) ==> r == Ok(Filter(required, (d: string) => !Truthy(Get(dependencies, d))))
  {
    if Nullish(dependencies) {
      if |required| > 0 {
        return Err(ReadError(dependencies, required[0]));
      }
      return Ok([]);
    }
    var missing := [];
    for i := 0 to |required|
      invariant missing == Filter(required[..i], (d: string) => !Truthy(Get(dependencies, d)))
    {
      assert required[..i + 1][..i] == required[..i];
      if !Truthy(Get(dependencies, required[i])) {
        missing := missing + [required[i]];
      }
    }
    assert required[..|required|] == required;
    return Ok(missing);
  }
}
