/** What the three track functions under netlify/functions share, line for line: the CORS
    headers, the preflight answer, the refresh-token exchange and the catch block. */
module NetlifyFunction {
  import opened Base
  import opened Upstream

  /** The headers every response of these functions carries. */
  const CorsHeaders: map<string, string> := map[
    "Access-Control-Allow-Origin" := "*",
    "Access-Control-Allow-Headers" := "Content-Type",
    "Access-Control-Allow-Methods" := "GET, POST, OPTIONS"]

  /** A response body before `JSON.stringify`: raw text (the empty preflight body), `null`,
      an `{ error }` object, or the handler's payload. */
  datatype Body<+V> = Text(text: string) | JsonNull | JsonError(error: string) | Json(value: V)

  /** The object a handler returns. */
  datatype FunctionResponse<+V> = FunctionResponse(statusCode: int, headers: map<string, string>, body: Body<V>)

  /** An outgoing request: the token exchange, or a call to the Web API with its query
      parameters and its `Authorization` header. */
  datatype Call = TokenCall | ApiCall(url: string, params: seq<(string, string)>, authorization: string)

  /** One invocation: the response and the requests made, in order. */
  datatype Run<+V> = Run(response: FunctionResponse<V>, calls: seq<Call>)

  const AuthorizationFailed := "Authorization failed, check your Spotify tokens"

  function Preflight<V>(): FunctionResponse<V>
  {
    FunctionResponse(200, CorsHeaders, Text(""))
  }

  /** The Web API answered with a status axios rejects. */
  predicate ApiRejected<D>(apiReply: Reply<D>)
  {
    apiReply.Response? && !Accepted(apiReply.status)
  }

  /** `getAccessToken`: the resolved token (possibly `undefined`), or, whatever went wrong, a
      fresh `Error('Failed to get access token')` that no longer carries the HTTP response. */
  function GetAccessToken(tokenReply: Reply<TokenGrant>): (r: Result<Option<string>, Failure>)
    ensures r.Ok? <==> Resolves(tokenReply)
    ensures r.Err? ==> r.error.response == None
  {
    match Settle(tokenReply)
    case Err(_) => Err(Failure("Failed to get access token", None))
    case Ok(resolved) => Ok(if resolved.data.None? then None else resolved.data.value.accessToken)
  }

  /** The `Authorization` header `Bearer ${accessToken}`. */
  function Bearer(token: Option<string>): string
  {
    "Bearer " + token.GetOr("undefined")
  }

  /** The catch block: 401 and 403 keep their status with a fixed message, any other HTTP
      error keeps its status and names its status text, and an error without a response gets
      the handler's own fallback. */
  function Caught<V>(e: Failure, fallback: FunctionResponse<V>): (r: FunctionResponse<V>)
    ensures e.response.Some? ==> r.statusCode == e.response.value.status && r.headers == CorsHeaders
    ensures e.response.Some? && e.response.value.status in {401, 403} ==> r.body == JsonError(AuthorizationFailed)
    ensures e.response.Some? && e.response.value.status !in {401, 403} ==>
              r.body == JsonError("Spotify API error: " + e.response.value.statusText)
    ensures e.response.None? ==> r == fallback
  {
    match e.response
    case Some(resp) =>
      if resp.status == 401 || resp.status == 403 then
        FunctionResponse(resp.status, CorsHeaders, JsonError(AuthorizationFailed))
      else
        FunctionResponse(resp.status, CorsHeaders, JsonError("Spotify API error: " + resp.statusText))
    case None => fallback
  }
}
