# Personal portfolio: the Spotify integration, modelled in Dafny

The portfolio site shows what its owner is listening to. Spotify's Web API is reached in three ways:

- **Serverless functions** (`netlify/functions`). `now-playing`, `top-tracks` and `recent-tracks` exchange a refresh token for an access token, call the Web API and reshape its answer. `spotify-test` reports which credentials are configured.
- **An Express server** (`server.js`). It caches a user token with an expiry and retries failed requests through an axios interceptor. After a 401 it refreshes once and tries once more. It also builds the authorization URL.
- **An Express router** (`backend/spotify.js`). It caches a client-credentials token and answers a 401 by fetching a new token and redirecting.

Several pages and components display the results:

- `script.js` and `data_analysis.js` are plain-DOM pages with a card carousel.
- `frontend/App.js`, `SpotifyDisplay.jsx` and `simplified-app.jsx` are React components.
- `components/SpotifyPlayer.js`, `components/NowPlaying.js` and `components/RecentlyPlayed.js` are classes that write HTML into the page.

A handful of deployment scripts check the environment and the sources: `netlify-debug.js`, `netlify-check.js`, `analyze-syntax.js`, `verify-jsx.js` and `test-recent-tracks.js`.

The model gives each of these files its own module. Shared behaviour lives in modules of its own:

- `Js`: JavaScript values, truthiness, property reads and the TypeError messages.
- `Upstream`: how axios settles a request.
- `NetlifyFunction`: the code the functions share.
- `Carousel`: the card classes.
- `Duration`: `formatDuration`.
- `HashParams`: the URL-fragment parser.
- `TrackText`: the track card text.
- `QueryString`: Node's `querystring`.

How the model is written:

- Code that computes a value becomes a function with lemmas about it.
- Code that updates state becomes a class whose methods are proved against those functions. This covers the server's token cache, the carousels, the React state cells, the navigation links, the theme and the components.
- Loops become methods with invariants.
- Whatever the program receives from outside is a parameter: replies from the network, the clock, `decodeURIComponent`, `JSON.parse`, environment variables and file contents.
- Timers are explicit "fired" events.

Differences between the code and its own comments or documentation:

- The model follows the code, not the comment. `analyze-syntax.js` says it lists the last 10 brace positions, but it lists 20.
- `netlify/functions/spotify-test.js` documents a 500 error page. The only statement in its `try` that can throw reads `event.headers`. When that throws, the `catch` block reads `event.headers` again and throws too. So the 500 answer is never produced, and the model shows this.
- `netlify-check.js` warns when the refresh token is set but empty. That warning cannot be printed: the earlier check already counts an empty variable as missing.

## Model

| member | source | states |
|---|---|---|
| Upstream.Settle | netlify/functions/now-playing.js:55-61 | the awaited axios request resolves exactly for a 2xx reply, with its status and data; a rejection carries the reply's status and status text when a reply arrived, and no response when none did |
| Upstream.ArtistNames | netlify/functions/now-playing.js:77 | `artists.map(a => a.name)` keeps one name per artist, in upstream order |
| NetlifyFunction.GetAccessToken | netlify/functions/now-playing.js:11-31 | the token exchange succeeds exactly when the token endpoint resolves; any failure is rethrown as a fresh Error that no longer carries the HTTP response |
| NetlifyFunction.Caught | netlify/functions/now-playing.js:88-115 | an error with a response keeps that status and the CORS headers; 401 and 403 get the fixed authorization message, any other status "Spotify API error: " plus its status text; an error without a response gets the handler's fallback |
| NowPlayingFunction.Handler | netlify/functions/now-playing.js:33-116 | every response carries the three CORS headers; OPTIONS answers the preflight with no request; otherwise the token is requested first and the Web API only after it resolves; the status differs from 200 exactly when the Web API rejected, and then it is the upstream status; a JSON body is the flattened upstream track of a non-204 reply |
| NowPlayingFunction.NothingPlaying | netlify/functions/now-playing.js:64-70 | an upstream 204 becomes 200 with body `null` |
| NowPlayingFunction.FlattenFailureDegrades | netlify/functions/now-playing.js:73-115 | a resolved reply other than 204 with no body, no `item` or no album image throws a TypeError without a response, and the answer is 200 with `null` |
| NowPlayingFunction.PlayingTrack | netlify/functions/now-playing.js:73-87 | a playing track yields 200 with id, name, all artists joined by ", " in order, album name, first image URL, Spotify URL and `isPlaying` equal to the upstream `is_playing` |
| NowPlayingFunction.Flatten | netlify/functions/now-playing.js:73-82 | the reshaping succeeds exactly when the body has an `item` whose album has an image; then every field comes from the item: id, name, joined artists, album name, first image URL, Spotify URL and `is_playing` |
| NowPlayingFunction.AuthorizationRejected | netlify/functions/now-playing.js:92-98 | an upstream 401 or 403 is returned with the same status and the fixed authorization message |
| NowPlayingFunction.ApiErrorPassedThrough | netlify/functions/now-playing.js:101-107 | any other rejected status is returned as it is, with "Spotify API error: " plus its status text |
| NowPlayingFunction.TokenFailureDegrades | netlify/functions/now-playing.js:27-30 | a failed token exchange, even a 401, ends in 200 with `null` and the Web API is never called, because the rethrown error has no response |
| NowPlayingFunction.NetworkFailureDegrades | netlify/functions/now-playing.js:109-114 | a Web API request without a response ends in 200 with `null` |
| TopTracksFunction.Format | netlify/functions/top-tracks.js:68-75 | a track maps to a view exactly when it has an artist and an album image; songID, title, album, albumArt and uri come from the track and `artist` is the first artist's name |
| TopTracksFunction.FormatAll | netlify/functions/top-tracks.js:68 | `items.map` gives one view per item in the same order, and fails as soon as any item fails |
| TopTracksFunction.Handler | netlify/functions/top-tracks.js:33-109 | CORS headers on every path; OPTIONS makes no request; the token comes first; every Web API call asks for time_range short_term and limit 5; a 200 JSON body is exactly the mapped upstream items |
| TopTracksFunction.FirstArtistOnly | netlify/functions/top-tracks.js:70 | with two or more artists, `artist` is not the joined artist line that now-playing builds |
| TopTracksFunction.TokenFailureIsServerError | netlify/functions/top-tracks.js:27-30 | a token failure never reaches the Web API and answers 500 "Failed to fetch top tracks" |
| TopTracksFunction.OneBadItemFailsAll | netlify/functions/top-tracks.js:68-75 | one item without artists or images turns the whole reply into the 500 fallback |
| TopTracksFunction.AuthorizationRejected | netlify/functions/top-tracks.js:85-91 | an upstream 401 or 403 keeps its status and carries the fixed authorization message |
| TopTracksFunction.ApiErrorPassedThrough | netlify/functions/top-tracks.js:94-100 | any other rejected upstream status is kept, with "Spotify API error: " and its status text |
| TopTracksFunction.NetworkFailureIsServerError | netlify/functions/top-tracks.js:103-107 | a Web API request without a response answers 500 "Failed to fetch top tracks" |
| RecentTracksFunction.Handler | netlify/functions/recent-tracks.js:33-97 | CORS headers on every path; OPTIONS makes no request; every Web API call uses limit 7; the body is JSON exactly when the token and the Web API resolve, and it is then the upstream body unchanged with status 200; status 500 exactly for a token failure, a request without a response or an upstream 500 |
| RecentTracksFunction.AuthorizationRejected | netlify/functions/recent-tracks.js:73-79 | an upstream 401 or 403 keeps its status and carries the fixed authorization message |
| RecentTracksFunction.ApiErrorPassedThrough | netlify/functions/recent-tracks.js:82-88 | any other rejected upstream status is kept, with "Spotify API error: " and its status text |
| RecentTracksFunction.NetworkFailureIsServerError | netlify/functions/recent-tracks.js:90-95 | a failed token exchange, or a Web API request without a response, answers 500 "Failed to fetch recent tracks" |
| SpotifyTestFunction.MaskedCredentials | netlify/functions/spotify-test.js:71-125 | once the module has loaded, the client id shows its first and last five characters (all of it, twice, when shorter), the secret shows nothing, the refresh token its first five characters (all of it when shorter), and no "Not set" text can appear |
| SpotifyTestFunction.EnvVars | netlify/functions/spotify-test.js:123-125 | each entry reads "Not set" exactly when its variable is unset, and a set secret is only ever shown as "Set (hidden)" |
| SpotifyTestFunction.ShortClientIdShownWhole | netlify/functions/spotify-test.js:123 | a client id of at most five characters is shown whole, twice |
| SpotifyTestFunction.TokenStatus | netlify/functions/spotify-test.js:129-137 | `tokenStatus` is "Success" exactly when the token exchange resolves |
| SpotifyTestFunction.CatchBlock | netlify/functions/spotify-test.js:165-224 | the catch block answers 500 with HTML headers and an HTML page exactly when the Accept header contains text/html, and JSON otherwise; with no `event.headers` it throws again |
| SpotifyTestFunction.Handler | netlify/functions/spotify-test.js:104-225 | OPTIONS answers the preflight; otherwise, with request headers present, the answer is 200 with `envVars`, `tokenGeneration` and `tokenWorks` true exactly when the token resolves; HTML exactly when Accept contains text/html; the 500 answer cannot be reached |
| SpotifyTestFunction.TokenFailureStillAnswers | netlify/functions/spotify-test.js:132-147 | a failed token exchange still answers 200, with `tokenWorks` false and a "Failed: " reason |
| TrackServer.Delivered | server.js:62-77 | a request through the retry interceptor ends at the first attempt that resolves, or fails with the last attempt's error; every attempt before the last failed; a failure has used all `retry` + 1 = 4 attempts |
| TrackServer.Send | server.js:68-77 | the interceptor's loop, with `currentRetry` counting up from unset, gives exactly the outcome and attempt count of `Delivered`, at most four attempts |
| TrackServer.UnauthorizedIsRetriedFirst | server.js:68-77 | the interceptor retries whatever the status: a 401 reaches the handler only after four attempts |
| TrackServer.Refreshed | server.js:92-116 | with no refresh token it fails with "No refresh token available" and makes no request; a failure rethrows the axios error unchanged and leaves the cached token and expiry as they were; a success stores `access_token` and `now + expires_in * 1000`, or a `NaN` expiry when `expires_in` is missing |
| TrackServer.RefreshSetsExpiry | server.js:109-110 | a successful refresh stores the granted token and an expiry `expires_in` seconds after `now`, or `NaN` when the body has no `expires_in` |
| TrackServer.FreshTokenKept | server.js:127 | a usable token is not refreshed before its expiry, and a usable token with a `NaN` expiry is never refreshed |
| TrackServer.GrantWithoutExpiryKept | server.js:109-127 | after a refresh whose body has a non-empty `access_token` but no `expires_in`, the expiry is `NaN` and the check at line 127 never refreshes again, at any later time |
| TrackServer.Sanitize | server.js:139-145 | one entry per play, in order, with id, name, artists joined by ", ", album name and the first image URL or `undefined`; the map fails when any play has no track |
| TrackServer.Fetched | server.js:131-145 | the recently-played request carries `Bearer` and the current token, and the attempt count comes from the interceptor; it succeeds exactly when the request resolves with a body holding `items` and every play has a track, and then gives the sanitised plays; a rejected request fails with the axios error unchanged, and any other failure is the TypeError of a missing property |
| TrackServer.TryOnce | server.js:125-147 | one try block makes one or two requests, refreshing first exactly when asked; it stops after the refresh exactly when the refresh failed, and then fails with that error; otherwise the fetch uses the token in force after the refresh and the outcome is the fetch's; without a refresh the token state is unchanged, with one it is what the refresh left |
| TrackServer.Handle | server.js:124-178 | the first request is a refresh exactly when the token is missing or `now >= tokenExpirationTime`, with no margin; at most four requests are made; the reply is 500 "Failed to fetch tracks" exactly when the first try failed without a 401, and 401 "Authentication failed" exactly when it failed with a 401 and the retry failed too; otherwise the tracks are those of the first try, or of the retry after a 401; the token cache is what the first try left, except after a 401, when it is what the retry's refresh left, and the requests are the first try's followed by the retry's |
| TrackServer.RetryOnlyAfterUnauthorized | server.js:148-176 | the handler goes on past the first try exactly when it failed with status 401, and the retry is one refresh followed by at most one fetch |
| TrackServer.TokenlessGrantSendsUndefined | server.js:109-136 | a refresh whose response has no body or no `access_token` leaves `undefined` cached, and the next fetch sends `Bearer undefined` |
| TrackServer.Server.constructor | server.js:44-80 | a started server has all four variables set, and `null` as its token and its expiry |
| TrackServer.Server.RefreshAccessToken | server.js:92-116 | the cached token and expiry become what `Refreshed` says: the granted token and `expires_in` seconds after `now`, `NaN` without `expires_in`, unchanged on failure |
| TrackServer.Server.FetchTracks | server.js:131-145 | the request and sanitiser answer as `Fetched` does and change no state |
| TrackServer.Server.Try | server.js:125-147 | one try block updates the state as `TryOnce` says |
| TrackServer.Server.GetTracks | server.js:124-178 | the reply, the new token state and the requests are those of `Handle` |
| TrackServer.Server.InitializeToken | server.js:83-90 | the startup refresh leaves the state `Refreshed` gives, and a failure is swallowed |
| QueryString.Utf8 | server.js:190-197 | `querystring.escape` works on the UTF-8 encoding: one to four bytes, a single byte exactly for ASCII |
| QueryString.PercentBytes | server.js:190-197 | byte `k` becomes the three characters at `3k`: `%` and its two upper-case hexadecimal digits, high nibble first |
| QueryString.Escape | server.js:190-197 | escaping never shortens a text |
| QueryString.EscapeConcat | server.js:190-197 | escaping works character by character: the escape of a concatenation is the concatenation of the escapes |
| QueryString.EscapeIdentity | server.js:190-197 | a text is left unchanged by escaping exactly when all its characters are unreserved |
| QueryString.EscapeSpace | server.js:195 | a space is escaped as `%20` |
| QueryString.EscapeJoinedBySpace | server.js:195 | parts of unreserved characters joined by a space escape to the same parts joined by `%20` |
| QueryString.PairTexts | server.js:191-197 | one `key=value` text per property, in property order, with both sides escaped |
| QueryString.Pair | server.js:191-197 | a `key=value` text holds no `&`, whatever the key and value hold, so it never splits the query |
| QueryString.PairSplits | server.js:191-197 | a `key=value` text splits at `=` back into exactly the escaped key and value |
| QueryString.Stringify | server.js:191-197 | a non-empty query splits at `&` back into its `key=value` texts, in order |
| TrackServer.AuthParameterTexts | server.js:191-197 | the five parameters appear in the order written: client_id and redirect_uri percent-encoded, response_type=code, the escaped scope, show_dialog=true |
| TrackServer.ScopesEscaped | server.js:183-195 | the four scopes need no escaping, so the space-joined list comes out joined by `%20` |
| TrackServer.AuthUrlParameters | server.js:190-197 | the URL is the authorization endpoint, `?`, then client_id, response_type=code, redirect_uri, the scopes joined by `%20` and show_dialog=true, joined by `&` |
| TrackServer.AuthUrl | server.js:190-197 | the URL is the endpoint and `?`, and its query splits at `&` back into exactly the five escaped parameters, in order, whatever the client id and redirect URI hold |
| ClientCredentialsRouter.Serve | backend/spotify.js:25-50 | a token is requested first exactly when none is cached, otherwise the cached one is reused with no expiry check; the upstream body is forwarded exactly when a token is available and the tracks request resolves; a redirect goes back to the same URL and only after a 401; any other failure is 500 "Error fetching Spotify tracks", and every rejection of the tracks request other than a 401 is that 500; after a 401 a resolving token request redirects and caches the new token, and a failing one leaves the request unanswered; a failed first token request leaves it unanswered with no tracks request; a cached token survives every outcome but a redirect |
| ClientCredentialsRouter.Follow | backend/spotify.js:43-46 | a client following redirects stops at the first outcome that is not a redirect |
| ClientCredentialsRouter.RedirectsUnbounded | backend/spotify.js:43-46 | while the Web API answers 401 and the token endpoint keeps issuing tokens, every request redirects: nothing bounds the redirects |
| ClientCredentialsRouter.TokenlessGrantSendsUndefined | backend/spotify.js:22-38 | a token response without `access_token` leaves `undefined` cached, so the tracks request sends `Bearer undefined` and the cache stays unusable |
| ClientCredentialsRouter.Router.constructor | backend/spotify.js:9 | the cache starts as `null` |
| ClientCredentialsRouter.Router.FetchAccessToken | backend/spotify.js:12-23 | it succeeds exactly when the token request resolves and then overwrites the cache with the response's `access_token`; a failure leaves the cache unchanged and propagates the axios error |
| ClientCredentialsRouter.Router.Tracks | backend/spotify.js:25-50 | one request through the middleware and handler gives the outcome, cache and requests of `Serve` |
| Carousel.EmbedUrl | data_analysis.js:95 | the embed URL holds the track id at a fixed offset after the embed prefix |
| Carousel.PositionInRange | data_analysis.js:46 | with both indices in range, `(index - current + n) % n` is the forward distance from the current card, in [0, n), so the `-1` test never fires |
| Carousel.ExactlyOneActive | data_analysis.js:44-65 | the card at the current index is the only active card |
| Carousel.Neighbours | data_analysis.js:58-64 | the card after the current one is next; from three cards on the card before it is previous and every other card hidden; with two cards the other card is next, never previous |
| Carousel.InitialClassesMatchIndexOne | data_analysis.js:40-91 | from three cards on, the creation classes are those of current index 1; with one card the card starts previous where the chain makes it active, and with two the first starts previous where the chain makes it next |
| Carousel.StepInverse | data_analysis.js:74-82 | a step forward goes to the following card and a step back to the preceding one, so the index stays in [0, n) and either step undoes the other |
| Carousel.Step | script.js:266 | the step is in [0, n) whenever the dividend is not negative, moves by the direction while the target is in range, and wraps n to 0 and -1 to n - 1 |
| Carousel.ClassAt | script.js:269-280 | position 0 and only it is active, 1 and only it next; from three cards on, in range, exactly `n - 1` is previous; with two cards no card is previous or hidden |
| SiteScript.InitialTheme | script.js:53 | a stored non-empty theme wins; otherwise the colour-scheme preference picks dark or light |
| SiteScript.Toggled | script.js:57-58 | the toggle gives light exactly when the current theme is dark, and dark for anything else |
| SiteScript.ToggleTwice | script.js:56-60 | toggling twice from dark or light returns to it |
| SiteScript.Theme.constructor | script.js:1-3 | the page starts with whatever attribute, stored theme and icon it was loaded with |
| SiteScript.Theme.Apply | script.js:11-15 | the same theme goes to the `data-theme` attribute and to storage, and the icon shows the other theme |
| SiteScript.Theme.Start | script.js:52-54 | on load the attribute becomes the initial theme, kept in sync with storage |
| SiteScript.Theme.Toggle | script.js:56-60 | a click sets the toggled theme in the attribute and in storage |
| SiteScript.HandleErrors | script.js:18-49 | the error banner exists afterwards exactly when it existed or the container's text mentions "Failed to fetch tracks"; the container is only rewritten when no banner existed, and then ends with the Retry label |
| SiteScript.BannerKeepsText | script.js:32-46 | a failure text without " Retry" becomes a banner holding that text, trimmed, followed by the Retry button |
| SiteScript.HandleErrorsOnce | script.js:63-69 | the second timer's run changes nothing after the first |
| SiteScript.NoneReached | script.js:92-107 | with no section reached there is no current section |
| SiteScript.LastReachedIsLast | script.js:101-107 | otherwise the current section is the id of the last reached section in document order |
| SiteScript.NavLinks.constructor | script.js:89 | one inactive flag per navigation link |
| SiteScript.NavLinks.FindSection | script.js:92-108 | the loop finds the current section: 'contact' within 150 of the document's end whatever the offsets, otherwise the last reached section |
| SiteScript.CurrentSection | script.js:92-108 | within 150 of the document end it is "contact", whatever the offsets; otherwise none when no section is reached, and the id of the last reached section when one is |
| SiteScript.LastReachedExactly | script.js:101-107 | with no section reached there is none; otherwise the id of the last reached section |
| SiteScript.NavLinks.UpdateActiveLink | script.js:91-116 | afterwards exactly the links whose href is `#` plus the current section are active |
| SiteScript.Shown | script.js:309 | the error block never shows an empty message |
| SiteScript.CardsFrom | script.js:237-253 | one card per item in order, each embedding `item.track.id`; it fails exactly when some item or its track is null or undefined |
| SiteScript.RateLimitWait | script.js:198-209 | a 429 waits the text of a truthy `retryAfter`, and 30 seconds when the body has none or a falsy one; a number `n` waits `n` seconds, 0 waits 30 |
| SiteScript.RejectedStatusShown | script.js:211-213 | any other failed response shows its status and status text |
| SiteScript.AtMostSevenCards | script.js:215-253 | an empty item list shows "No tracks found"; otherwise one card per item for the first seven items, in order |
| SiteScript.Load | script.js:188-314 | the rate-limit notice appears exactly for a 429 whose body parses to an object; any other failed status names status and status text; cards come only from an OK response and number one to seven; an error message is never empty |
| SiteScript.TrackCarousel.constructor | script.js:236-259 | one to seven cards with the creation classes, `currentIndex` 1 and no transition |
| SiteScript.TrackCarousel.UpdateCards | script.js:261-286 | while transitioning nothing changes; otherwise the index steps one card with wrap-around, stays in [0, n), every card's class follows from its position, and the carousel is locked |
| SiteScript.TrackCarousel.UnlockTimerFired | script.js:283-285 | the pending 600 ms timer unlocks the carousel |
| SiteScript.TrackCarousel.ButtonClicked | script.js:291-303 | a click updates the cards and replaces the auto-advance interval with a new one |
| SiteScript.TrackCarousel.IntervalFired | script.js:295-302 | only the live auto-advance interval moves the carousel one card forward |
| Duration.FieldsBracketDuration | data_analysis.js:269-273 | for ms ≥ 0 the seconds are in [0, 59], and `minutes*60000 + seconds*1000 <= ms < that + 1000` |
| Duration.Format | components/NowPlaying.js:8-12 | for ms ≥ 0 the text reads back as the minutes and the seconds: unpadded decimal minutes, a colon and exactly two second digits |
| Duration.ParseFormats | components/NowPlaying.js:8-12 | conversely, a text that reads back as minutes and seconds in [0, 59] is exactly what `formatDuration` prints for that duration, so no other spelling parses |
| DataAnalysis.BuildFrom | data_analysis.js:89-104 | one card per track, in order, each embedding its id; one unreadable track makes the `forEach` throw |
| DataAnalysis.Load | data_analysis.js:14-110 | cards are built exactly when the response is OK, the body parses to an array and every track is readable; then one card per track, in order, embedding `track.id` |
| DataAnalysis.OneNullTrackFailsAll | data_analysis.js:89-109 | a single `null` entry anywhere loses every card to the error paragraph |
| DataAnalysis.ObjectBodyFails | data_analysis.js:89 | an object body, such as an error object, fails at `forEach` |
| DataAnalysis.Autoplayed | data_analysis.js:53-57 | `updateCards` keeps one source per card |
| DataAnalysis.AutoplayAccumulates | data_analysis.js:50-57 | each update appends `&autoplay=1` to the active card's source and leaves the others; a second update appends again, so `updateCards` is not idempotent |
| DataAnalysis.ButtonsStayInRange | data_analysis.js:74-82 | from any index ≥ 0 both buttons land in [0, n); in range they move to the preceding and following card and undo each other |
| DataAnalysis.Player.constructor | data_analysis.js:40-41 | the cards start with the creation classes and `currentIndex` 1 |
| DataAnalysis.Player.UpdateCards | data_analysis.js:43-72 | every class follows from its position, the active card's source gains `&autoplay=1`, and the container is marked as transitioning with one more timer pending |
| DataAnalysis.Player.PreviousClicked | data_analysis.js:74-77 | the index becomes `(i - 1 + n) % n`, stays in range, and the cards are updated |
| DataAnalysis.Player.NextClicked | data_analysis.js:79-82 | the index becomes `(i + 1) % n`, stays in range, and the cards are updated |
| DataAnalysis.Player.TransitionTimerFired | data_analysis.js:69-71 | a 600 ms timer removes the transitioning class even when a later update's timer is still pending |
| DataAnalysis.TokenStartsPlayer | data_analysis.js:170-174 | a fragment whose last `access_token` item decodes to a non-empty token starts the player with it |
| DataAnalysis.NoTokenRedirects | data_analysis.js:160-169 | a fragment with no `access_token` item redirects to the authorization-code request with the scopes joined by `%20` |
| DataAnalysis.Begin | data_analysis.js:139-175 | the handler stops exactly when some fragment item fails to decode; it starts the player only with a non-empty token, and otherwise redirects to the authorization-code request |
| DataAnalysis.CodeRequestUrl | data_analysis.js:161-169 | the URL is the endpoint, `?` and the four parameters joined by `&`; with the client id and redirect URI unescaped, the query splits back into those four parameters exactly when neither holds an `&` |
| DataAnalysis.MalformedFragmentAborts | data_analysis.js:145-154 | a malformed escape in any item throws before the handler decides anything |
| HashParams.AccessToken | data_analysis.js:160 | the token is taken exactly when `access_token` is present and non-empty |
| HashParams.ParseHash | data_analysis.js:145-154 | the `reduce` loop over the items gives the fold of the items, or fails |
| HashParams.Parse | data_analysis.js:145-154 | the parse throws exactly when some non-empty item fails to decode; otherwise its keys are exactly the keys of the non-empty items |
| HashParams.FoldSucceedsExactly | data_analysis.js:148-154 | the fold fails exactly when some non-empty item fails to decode, and a successful fold has the keys of the non-empty items |
| HashParams.NoRecovery | data_analysis.js:148-154 | once a decode has thrown, the parse stays failed |
| HashParams.KeysOfItems | data_analysis.js:148-154 | when every item decodes, the parse succeeds and its keys are exactly the keys of the non-empty items |
| HashParams.LastOccurrenceWins | data_analysis.js:148-153 | a key maps to the decoded value of the last non-empty item with that key |
| HashParams.DecodeFailurePropagates | data_analysis.js:151 | a malformed escape in any non-empty item makes the whole parse throw |
| FrontendApp.IndicesInverse | frontend/App.js:53-77 | in range, `handlePrevious` maps 0 to n-1 and i to i-1, `handleNext` maps n-1 to 0 and i to i+1; both agree with the `%` steps of the other carousels, stay in [0, n) and undo each other |
| FrontendApp.PrevIndex | frontend/App.js:57 | in range, the index back is the `(i - 1 + n) % n` step of the other carousels, and stays in range |
| FrontendApp.NextIndex | frontend/App.js:70 | in range, the index forward is the `(i + 1) % n` step of the other carousels, and stays in range |
| FrontendApp.SingleTrackIndexDrifts | frontend/App.js:8-70 | with one track the index starts at 1 and each next click moves it further out, while the lone card stays active |
| FrontendApp.SameChain | frontend/App.js:179-183 | on the positions that occur, the render's class chain without the `-1` test is the shared one |
| FrontendApp.FirstNullish | frontend/App.js:169-170 | finds the first `null` or `undefined` item, whose `.track` read throws, or reports that there is none |
| FrontendApp.Render | frontend/App.js:96-203 | loading takes precedence, then a non-empty error, then the cards; one card slot per item, empty exactly for an item without a track; a card autoplays exactly when it is active and the app is playing |
| FrontendApp.RenderedClasses | frontend/App.js:169-187 | with the index in range and every item carrying a track, the cards take the shared classes, and exactly the current card is active |
| FrontendApp.Settled | frontend/App.js:26-51 | a fetch delivers items exactly when the response is OK and the body has a non-empty `items`; a non-OK response gives "Fetch failed: <status>", a body without items "No tracks found" |
| FrontendApp.App.constructor | frontend/App.js:5-11 | the state starts loading, with no tracks, no error, index 1, not playing and no active track |
| FrontendApp.App.FetchStarted | frontend/App.js:28 | a fetch sets `loading` |
| FrontendApp.App.FetchSettled | frontend/App.js:26-51 | `loading` ends false on every path; new items replace the tracks and reset the index to 1; a failure sets the error and nothing ever clears it |
| FrontendApp.App.Previous | frontend/App.js:53-64 | while transitioning nothing changes, the pending unlock included; otherwise the index moves back one card with wrap-around, playback stops, no track is active, and one 600 ms unlock is pending |
| FrontendApp.App.Next | frontend/App.js:66-77 | while transitioning nothing changes, the pending unlock included; otherwise the index moves forward one card with wrap-around, playback stops, no track is active, and one 600 ms unlock is pending |
| FrontendApp.App.CardClicked | frontend/App.js:79-94 | only the active card reacts, and only when not transitioning: a track id `===` the active one toggles playback, compared by reference for an object or array id; another track pauses and is queued for activation |
| FrontendApp.StrictEqualsIsIdentity | frontend/App.js:83 | an id read again from the same item of the same response is `===` to itself, whatever it is; an object or array id from another item or response is not; primitives compare by value |
| FrontendApp.App.UnlockFired | frontend/App.js:63 | the 600 ms timer ends the transition |
| FrontendApp.App.ActivationFired | frontend/App.js:87-90 | the oldest 100 ms timer makes its track active and playing |
| SpotifyDisplay.NowPlayingLink | SpotifyDisplay.jsx:8-34 | the now-playing section is rendered exactly when the prop is truthy, and then links to the track page of the text of `nowPlaying.id` |
| SpotifyDisplay.NowPlayingLinkOfTrack | SpotifyDisplay.jsx:8-34 | a track object links to its own id, and one without an id to the track "undefined" |
| SpotifyDisplay.TopTracks | SpotifyDisplay.jsx:35-98 | nothing for a prop that is not an array (null and undefined included); the empty-list notice exactly for an empty array; otherwise one slot per item, filled exactly for a truthy item with a truthy `songID` |
| SpotifyDisplay.Shown | SpotifyDisplay.jsx:67-95 | the entries that reach the page are never more than the items |
| SpotifyDisplay.DelayByOriginalIndex | SpotifyDisplay.jsx:79-93 | a rendered item has delay 1000 + 100·i for its original index i and links to its own `songID`, so a dropped item still pushes later ones back |
| SpotifyDisplay.ShownDelaysIncrease | SpotifyDisplay.jsx:83 | the delays that reach the page are strictly increasing and lie within the range the item indices give |
| SimplifiedApp.NextConsistent | simplified-app.jsx:11-50 | every event keeps the session consistent: a retry is pending only after a failed run, retries stop at the limit, and a set error stays set |
| SimplifiedApp.Next | simplified-app.jsx:11-50 | the effect runs only when due and a retry fires only when pending; each run counts once and ends the due state; a failing run shows "Local error" and schedules a retry exactly below the limit; a fired retry raises the count by one and makes the effect due |
| SimplifiedApp.RunsBounded | simplified-app.jsx:38-50 | from mount, whatever happens, the effect runs at most 1 + 3 times, `retryCount` never passes 3, and the only error is "Local error", which nothing clears |
| SimplifiedApp.MountedConsistent | simplified-app.jsx:6-9 | the mounted component is consistent |
| SimplifiedApp.FourthFailureStops | simplified-app.jsx:41-45 | after four failing runs the counter is 3 and no retry is pending |
| SimplifiedApp.Render | simplified-app.jsx:52-63 | the error line takes precedence over the display exactly when an error is set |
| SimplifiedApp.App.constructor | simplified-app.jsx:6-9 | the cells start null, empty, no error, count 0, with the effect due |
| SimplifiedApp.App.EffectRan | simplified-app.jsx:12-49 | a run takes the step the session model gives; a successful run stores `{id: "test"}` and `[]` and leaves the error as it was |
| SimplifiedApp.App.RetryTimerFired | simplified-app.jsx:42-44 | a retry timer increments `retryCount` by exactly one and makes the effect due again |
| SpotifyPlayer.HandleAuth | components/SpotifyPlayer.js:15-35 | `handleAuth` stops exactly when decoding the fragment throws, and it only authorizes with a non-empty token |
| SpotifyPlayer.TokenFragmentAuthorizes | components/SpotifyPlayer.js:29-34 | a fragment whose last `access_token` item decodes to a non-empty token stores that token and initializes the player |
| SpotifyPlayer.NoTokenRedirects | components/SpotifyPlayer.js:37-48 | a fragment without `access_token` redirects to the implicit-grant request with response_type=token and show_dialog=true |
| SpotifyPlayer.TokenRequestUrl | components/SpotifyPlayer.js:37-47 | the URL is the endpoint, `?` and the five parameters joined by `&`; with the client id and redirect URI unescaped, the query splits back into those five parameters exactly when neither holds an `&` |
| SpotifyPlayer.CurrentlyPlaying | components/SpotifyPlayer.js:60-71 | the view is updated exactly for a 200 whose body has a truthy `item`; any other status, 204 included, changes nothing |
| SpotifyPlayer.RecentlyPlayed | components/SpotifyPlayer.js:73-84 | the view is updated exactly for a 200 whose body has truthy `items`; any other status changes nothing |
| SpotifyPlayer.PlayingTrackNeverShown | components/SpotifyPlayer.js:86-89 | as written, a playing track throws at `new NowPlaying`: the error element appears and recently played is never fetched |
| SpotifyPlayer.InitializeAsWritten | components/SpotifyPlayer.js:50-94 | as written nothing is ever handed to the two components; the second fetch is made only when the first has nothing to show; the error element stays hidden exactly when neither fetch has anything to show and neither fails |
| SpotifyPlayer.Initialize | components/SpotifyPlayer.js:50-58 | the corrected program, with both components imported: currently playing runs first; the second fetch happens exactly when the first step does not throw, and a throw in the first step shows the error element and hands nothing to the recent list |
| SpotifyPlayer.PlayingTrackShown | components/SpotifyPlayer.js:50-94 | with the components imported, a well-formed playing track is shown and the recent tracks are fetched and handed over next |
| SpotifyPlayer.FirstFailureSkipsSecond | components/SpotifyPlayer.js:51-57 | a failed first fetch skips the second and shows the error element |
| SpotifyPlayer.Player.constructor | components/SpotifyPlayer.js:2-6 | the player starts with its client id and no access token |
| SpotifyPlayer.Player.Loaded | components/SpotifyPlayer.js:9-94 | with a token the field holds it and `initializePlayer` runs as written: nothing is handed to either component, the second fetch is made only when nothing is playing, and the error element shows whenever either step has something to show or fails; a redirect or a failed decode leaves the token and the record as they were |
| TrackText.NamesFrom | components/NowPlaying.js:21 | the artist names are read exactly when no artist from the position on is `null` or `undefined`, and then they are each artist's `name`, in order |
| TrackText.Describe | components/NowPlaying.js:17-32 | a card text exists only for a track that is neither `null` nor `undefined` and whose image and artist reads succeed; a missing track throws reading `album` |
| TrackText.ArtistLineOfNames | components/NowPlaying.js:21 | artists that each carry a name give every name joined by ", " in order |
| TrackText.DescribeWellFormed | components/NowPlaying.js:8-32 | a well-formed track shows its first image, its name, all its artist names joined by ", ", and its duration as `m:ss` |
| TrackText.Index | components/NowPlaying.js:18 | `images[0]` is the first element of an array, the first character of a string, and the property "0" of an object |
| TrackText.ImageUrlOfStringImages | components/NowPlaying.js:18 | an album whose `images` is a non-empty string shows the text "undefined" as its image instead of throwing |
| NowPlayingCard.NowPlaying.constructor | components/NowPlaying.js:2-6 | the card keeps its track, nothing is shown and no interval runs |
| NowPlayingCard.NowPlaying.Render | components/NowPlaying.js:14-50 | without a container nothing changes; a malformed track throws before anything is shown or started, leaving the remembered interval and the running ones as they were; otherwise the card text is shown and one new interval is started and remembered |
| NowPlayingCard.NowPlaying.Destroy | components/NowPlaying.js:52-56 | only the last remembered interval is stopped, and nothing when none was started |
| NowPlayingCard.RenderTwiceLeaks | components/NowPlaying.js:37-56 | rendering twice and then destroying leaves exactly the first interval running |
| NowPlayingCard.RenderAgainLeaks | components/NowPlaying.js:37-56 | on any card whose interval runs, a further render and a destroy clear only the new interval, so the earlier one keeps running |
| RecentlyPlayedList.CardsFrom | components/RecentlyPlayed.js:22-42 | the cards are those of the items before the first malformed one, in order; the error is that item's and is absent exactly when every item is well formed |
| RecentlyPlayedList.CardOf | components/RecentlyPlayed.js:22-42 | an item makes a card exactly when it is not null or undefined and its `track` describes; the card shows that text and its play button carries that same track |
| RecentlyPlayedList.RecentlyPlayed.constructor | components/RecentlyPlayed.js:6-9 | the list keeps its tracks and nothing has been selected |
| RecentlyPlayedList.RecentlyPlayed.Render | components/RecentlyPlayed.js:17-43 | without a container nothing changes; otherwise the container is emptied and holds the cards of the items before the first one that throws; a non-array list throws at `forEach` |
| RecentlyPlayedList.RecentlyPlayed.PlayClicked | components/RecentlyPlayed.js:59-66 | a click on a card's play button announces exactly that card's track |
| RecentlyPlayedList.CardsFollowItems | components/RecentlyPlayed.js:22-66 | after a render without error there is one card per item, in order, each showing and carrying its own item's track |
| NetlifyDebug.Mask | netlify-debug.js:24-26 | a value longer than 12 shows its first four and last four characters around "..."; a shorter one shows as "****" |
| NetlifyDebug.MaskRevealsAtMostEight | netlify-debug.js:22-26 | values of at most 12 characters mask alike, and longer values that agree on their first and last four mask alike |
| NetlifyDebug.CheckVars | netlify-debug.js:16-29 | all variables are reported present exactly when each is set and non-empty, with one report per variable, in order, missing exactly when absent or empty |
| NetlifyDebug.FunctionFiles | netlify-debug.js:45-46 | the listed function files are exactly the directory entries ending in ".js", in directory order and as often as they are listed |
| NetlifyDebug.MissingRedirects | netlify-debug.js:89-97 | the missing endpoints are exactly those whose `from = "…"` line the file lacks, in list order |
| NetlifyDebug.CheckToml | netlify-debug.js:74-97 | the build and functions checks hold exactly when their text occurs, and the missing redirects are exactly the endpoints without a redirect line |
| NetlifyDebug.AllRedirectsPresent | netlify-debug.js:90-102 | a file carrying all three redirect lines is missing none |
| NetlifyDebug.MissingDeps | netlify-debug.js:113-121 | without a `dependencies` object the first read throws; otherwise the missing dependencies are those whose entry is falsy, in order |
| NetlifyCheck.MissingVars | netlify-check.js:12 | a variable is listed missing exactly when it is required and unset or empty |
| NetlifyCheck.Check | netlify-check.js:12-36 | the check exits with failure exactly when some required variable is missing; otherwise each format warning is printed exactly when the id or secret is not 32 hexadecimal digits |
| NetlifyCheck.EmptyRefreshWarningUnreachable | netlify-check.js:12-33 | the warning for a set but empty refresh token is never printed, because an empty token already stops the check as missing |
| NetlifyCheck.KeyFormat | netlify-check.js:24-30 | the format check takes either case and rejects 31 digits or a non-hexadecimal character |
| AnalyzeSyntax.Braces | analyze-syntax.js:18-28 | one entry per brace, in increasing position, each typed by its character and carrying the 1-based line it is on |
| AnalyzeSyntax.Scan | analyze-syntax.js:11-28 | the loop's counts are the numbers of `{` and `}` and its recorded positions are exactly the braces in order |
| AnalyzeSyntax.MismatchOf | analyze-syntax.js:32-40 | a mismatch is reported exactly when the counts differ, with the absolute difference, the side that lacks braces, and the last twenty positions (all when fewer) |
| AnalyzeSyntax.SplitPieces | analyze-syntax.js:49-50 | splitting at a character gives one more piece than it occurs |
| AnalyzeSyntax.ElseLineIsLineOfLaterMatch | analyze-syntax.js:46-51 | the reported line is the 1-based line on which the later of the first `else if` and the first `else {` starts |
| AnalyzeSyntax.AnalyzeFile | analyze-syntax.js:5-62 | a failed read reports only the error; otherwise the returned counts, the mismatch report, the else line and the typo warning are those of the file's text |
| AnalyzeSyntax.ExtraOpenReported | analyze-syntax.js:32-40 | one extra `{` among at most twenty braces reports one closing brace missing and lists every brace |
| VerifyJsx.NextBracket | verify-jsx.js:37 | the first `[` or `]` at or after a position, with none before it |
| VerifyJsx.Groups | verify-jsx.js:37-38 | no matched group contains a bracket |
| VerifyJsx.GroupsAreInnermost | verify-jsx.js:37-38 | every matched group is the inside of an innermost bracket pair |
| VerifyJsx.InnermostAreGroups | verify-jsx.js:37-38 | every innermost bracket pair is matched |
| VerifyJsx.Trimmed | verify-jsx.js:41 | each group is trimmed, one for one and in order |
| VerifyJsx.ReadName | verify-jsx.js:42 | reading a whole identifier from the start, after a comma or inside a name ends inside a name |
| VerifyJsx.JoinedNamesAccepted | verify-jsx.js:42 | identifiers joined by ", " form a dependency list the pattern accepts |
| VerifyJsx.AcceptedShape | verify-jsx.js:42 | an accepted list holds only name characters, white space and commas, and starts and ends with a name character |
| VerifyJsx.Verify | verify-jsx.js:8-51 | a failed read reports only the error; otherwise the counts of `{` and `}`, a mismatch exactly when they differ, and exactly the malformed trimmed groups, in the order the regular expression finds them, each as often as it occurs |
| VerifyJsx.TrimmedGroupsAreInnermost | verify-jsx.js:37-41 | a trimmed group is exactly the trimmed inside of some innermost bracket pair |
| VerifyJsx.MalformedReportedExactly | verify-jsx.js:37-45 | a text is reported exactly when it is the non-empty, non-list trimmed inside of an innermost bracket pair |
| RecentTracksProbe.Preview | test-recent-tracks.js:14 | a body of at most 500 characters is shown whole; a longer one as its first 500 followed by "..." |
| RecentTracksProbe.MissingFields | test-recent-tracks.js:55-56 | a field is listed missing exactly when it is required and the first item does not own it, in the order of the required list |
| RecentTracksProbe.Classify | test-recent-tracks.js:42-75 | a parse failure, a non-array with its `typeof`, an empty array, or the item count with the missing fields of a first item that is neither `null` nor `undefined` |
| RecentTracksProbe.Run | test-recent-tracks.js:4-78 | a failed request reports only its message; a reply shows its status line and preview, and is classified as HTML exactly when its trimmed text starts with `<` |
| RecentTracksProbe.HtmlNeverParsed | test-recent-tracks.js:17-38 | an HTML body is never handed to the JSON parser |
| RecentTracksProbe.IndentedHtmlDetected | test-recent-tracks.js:17 | a body with leading white space before `<` still counts as HTML |
| RecentTracksProbe.ArrayVerdicts | test-recent-tracks.js:47-71 | an empty array is accepted and a parsed non-array is reported with its `typeof` |

## Left out

- HTTP traffic of every kind is left out. Axios, fetch and the Express request and response objects become an outcome passed in (`Upstream.Reply`, `Fetched`, `Network`).
- The OAuth exchanges are left out. Only whether the refresh and client-credentials grants succeed, and with what body, is an input. The Basic-auth header, the authorization-code flow in get-token.js and components/Callback.js are not part of this model.
- `decodeURIComponent`, `JSON.parse`, `JSON.stringify` and the `useEffect` regular expression of verify-jsx.js are parameters, not implementations.
- Environment variables, file contents, directory listings and `fs.existsSync` are parameters. The `require` syntax check of each function file in netlify-debug.js (lines 55-61) loads code, so it is left out.
- DOM manipulation, React rendering, CSS classes other than the card classes, hover effects, IntersectionObserver, the mobile navigation toggle and iframe attributes other than `src` are left out. Only the computed classes, texts and states are kept.
- The authentication-status block of script.js (lines 167-185) only rewrites the page from a query parameter, so it is left out.
- Timers are explicit events. Their delays, their ordering against other events and the real clock are not modelled.
- Floating point is left out. This covers `predictFutureSales` (data_analysis.js:120-136) and the progress-bar percentages (components/NowPlaying.js:23, 39-49; data_analysis.js:257, 294-301). Numbers are integers (`Js.Num`).
- String-to-number coercion and `__proto__` keys are left out. So is the normalisation of an iframe `src` by the browser.
- The HTML page templates of netlify/functions/spotify-test.js (lines 11-68 and 181-214) are left out. The model records only that the HTML form is chosen.
- The title and error scraping of an HTML body in test-recent-tracks.js (lines 21-36) uses regular expressions, so it is left out.
- Library configuration in server.js is left out: helmet, rate limiting, cors, static files, the DNS setup and `listen`.
- TrackServer.Fetched: the `limit: 5` query parameter of the recently-played request is not recorded. Only the `Authorization` header is.
- FrontendApp.App: React batches state updates and handlers can read stale closures. The model applies each event to the state left by the previous one.
- DataAnalysis.Player.PreviousClicked: with no cards the source's index becomes `NaN`. The model keeps the old index instead, since no card reads it. NextClicked is the same.
- The React function component that components/RecentlyPlayed.js declares under the same name as its class (lines 70-107) is left out. The duplicate declaration stops the module from loading at all; the class is modelled as if it stood alone.
- Inherited properties are left out. `Js.Get` reads own properties, `length`, and the elements and characters of arrays and strings at canonical index keys; any other key reads as `undefined`, including prototype methods.
- SimplifiedApp.Next: the failing run stands for the `catch` block of simplified-app.jsx:20-46. The `try` body at lines 13-19 only logs and calls two state setters, which do not throw in practice. The failure is kept as an input so that the retry logic is covered.
- Concurrency is left out. In server.js:124-178 and backend/spotify.js:12-50, requests can interleave at every `await` over the shared `accessToken` and `tokenExpirationTime`, and `initializeToken` (server.js:83-90) can race the first request. TrackServer.Server.GetTracks and ClientCredentialsRouter.Router.Tracks run each request to completion before the next.
- The clock is read once per step. server.js:110 and server.js:127 each call `Date.now()`; `TrackServer.Handle` and `TrackServer.Refreshed` take a single `now` for the whole request.
- String encoding is left out. JavaScript strings are sequences of UTF-16 code units, while `string` here is a sequence of Unicode scalar values. Lengths, `substring` and `slice` positions, and character counts differ for characters outside the Basic Multilingual Plane. This affects NetlifyDebug.Mask, SpotifyTestFunction.EnvVars, SpotifyTestFunction.MaskedCredentials, RecentTracksProbe.Preview and the brace positions of AnalyzeSyntax.Braces.
- Build and deploy plumbing is left out: webpack.config.js, prepare-netlify.js, netlify-deploy.js, vercel-build.js, validate-app-jsx.js and find-error-line.js.
- Network-only diagnostics are left out: test-spotify-api.js, test-netlify-endpoints.js, test-recent-tracks-function.js and test-netlify-functions.js.
- Components that only store a response are left out: App.jsx, Dashboard.js, TopArtists.js, TopTracks.js, Playlists.js, Search.js and Login.js.

## Findings

| source | as written | input that shows it | evidently intended | confidence | as-written member | corrected member |
|---|---|---|---|---|---|---|
| components/SpotifyPlayer.js:86-94 | `updateNowPlaying` and `updateRecentlyPlayed` call `new NowPlaying(...)` and `new RecentlyPlayed(...)`, but the module imports neither class, so the call throws a ReferenceError. `initializePlayer` catches it, shows the error element and skips the recently-played fetch. | currently-playing answers 200 with a truthy `item` | with both classes imported, the track is shown and recently played is fetched next | not executed | SpotifyPlayer.PlayingTrackNeverShown | SpotifyPlayer.PlayingTrackShown |
