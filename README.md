# Portfolio "now playing" widget: a Dafny model

This project models the decision logic of a personal portfolio site whose pages show
the track the owner last played on a music-streaming service. Four scripts hold it:

- `api/spotify.js`, a serverless endpoint. It accepts `GET ?action=recent`, which
  forwards the provider's recently-played answer, and `GET ?action=refresh`, which
  exchanges the refresh token for a new access token. When the provider answers 401
  it refreshes the token and runs the whole handler again. Any exception becomes 500.
  The access token is module-level state.
- `js/scripts.js`, the single-page site. It keeps a one-slot, five-minute track cache
  in local storage and calls the endpoint only on a cache miss. It also holds the
  player state, the project showcase with its screenshot carousel, and the
  stem-player mute button.
- `javascript/script.js`, the widget page. It calls the endpoint without a cache, and
  holds the player state, an inline mute button and the light/dark theme switch.
- `portfolioWebsite/js/scripts.js`, the older page. It talks to the provider directly,
  with the same refresh-and-retry-on-401 logic as the endpoint, but it swallows errors.

The provider, the clock and storage are parameters. A provider is a sequence of
answers consumed in order: `seq<Reply>` for recently-played fetches and `seq<Grant>`
for token-endpoint calls. Storage is an `Option` slot and the clock is an integer
count of milliseconds. Each handler returns the list of outbound calls it made
(`Call`), so that "which call, with which bearer token, in which order" can be stated.
A retry loop that runs out of supplied answers ends as `Pending`: the request is
still waiting.

Modules: `Wrappers` (Option), `Upstream` (wire shapes, the outcome of a request, token replacement,
counting of leading 401s), `Tracks` (the displayed record and the mapping to it), `SpotifyProxy`,
`ClientCache`, `Player`, `Showcase`, `Widgets`, `LegacyClient`. Code that changes
state is a class: `Proxy`, `TrackCache`, `PlayerState`, `WidgetPlayer`, `Page`,
`MuteToggle`, `Theme` and `SpotifyApi`. The methods of `Proxy`, `TrackCache`,
`SpotifyApi`, `Theme` and `WidgetPlayer` are proved equal to a pure function of the old
state, and the properties are proved about those functions. `PlayerState.UpdatePlayer`
does this for the record and states `hasPlayedOnce` directly. The methods of `Page`
and `MuteToggle` state the new state directly and keep a class invariant.
The two recursive retries (`handler` and `getRecentTrack` calling themselves) are
specified by recursive functions, `HandleRequest` and `GetRecent`. They are run by
`while` loops whose invariants tie the remaining work to those functions.

Three facts about the code shape what the model states:

- The retry on 401 has no bound.
- The endpoint keeps no track cache and sends no 429 of its own.
- In the client, an entry whose age equals the duration exactly is still served, since
  the test is `age > CACHE_DURATION`.

## Model

| member | source | states |
|---|---|---|
| `Upstream.NewToken` | api/spotify.js:56-59 | the token is replaced exactly when the grant reply carries a present, non-empty `access_token`; otherwise it is unchanged |
| `Upstream.TokenAfterCameFromAGrant` | api/spotify.js:44-59 | after any run of refreshes the token is the bootstrap one or a non-empty `access_token` some grant carried; nothing else ever becomes the token |
| `Upstream.TokenAfter` | api/spotify.js:20-25 | the token after a run of refreshes: a last grant carrying a non-empty `access_token` decides it, and when no grant carries one (all failed, or with a missing or empty `access_token`) the token is unchanged |
| `Upstream.LastCarrierDecides` | api/spotify.js:20-25 | the token after a run of refreshes is the `access_token` of the last grant carrying a non-empty one, whatever failed or empty grants follow it |
| `Tracks.Names` | js/scripts.js:87 | `artists.map(artist => artist.name)`: one name per artist, in the same order |
| `Tracks.JoinArtists` | js/scripts.js:87 | `join(', ')`: no names give "", otherwise the line starts with the first name, puts ", " after it when another follows, and is as long as the names plus two characters per separator |
| `Tracks.SplitJoinArtists` | js/scripts.js:87 | joining artist names with ", " loses nothing: splitting the line at ", " gives back the names in order (at least one name, no name with a comma) |
| `Tracks.TrackFromRaw` | js/scripts.js:85-90 | a track maps to a record iff it has an album image; the title, the first image URL and the `external_urls` link are carried over, and `artist` is `JoinArtists` of the artists' names |
| `Tracks.TrackArtistsInOrder` | javascript/script.js:67-75 | for at least one artist and no comma in any artist name, the `artist` field of a mapped track splits back into the artists' names, in their order |
| `Tracks.TrackFromDoc` | js/scripts.js:82-84 | a body yields a track iff `items` is present and non-empty, its first item has a track, and that track has an image |
| `Tracks.FetchedTrack` | javascript/script.js:57-80 | a 429, any other non-ok status, a thrown fetch or `json()`, and a body without a mappable first track all give null; only an ok response with a track gives a record |
| `SpotifyProxy.Forward` | api/spotify.js:27-28 | a non-401 upstream answer becomes 200 with the parsed body passed through unchanged, whatever its status; a thrown fetch or `json()` becomes 500 |
| `SpotifyProxy.HandleRequest` | api/spotify.js:1-42 | the handler as written, calling itself after a 401 and a refresh; a non-GET request or an unknown action makes no call and keeps the token; the token afterwards is the old one or an `access_token` some grant carried; at most two calls per recently-played answer supplied, plus one |
| `SpotifyProxy.DispatchWithoutRetry` | api/spotify.js:3-36 | non-GET gives 405 `Method not allowed` with no call; an action other than `recent`/`refresh` (or none) gives 400 `Invalid action` with no call; `refresh` makes one token call and gives 200 `Token refreshed`, or 500 if the call throws |
| `SpotifyProxy.OneRefreshPer401` | api/spotify.js:12-25 | on `recent` the calls alternate fetch, refresh, fetch, ...; a refresh (and a further fetch) follows only a 401; no fetch follows the first non-401; each fetch bears the token left by the refreshes before it |
| `SpotifyProxy.StopsAtFirstNon401` | api/spotify.js:12-28 | with every refresh completing, the answer is the forwarding of the first non-401 reply, after exactly one refresh per preceding 401, and the final token is the one those refreshes left |
| `SpotifyProxy.FailedRefreshIs500` | api/spotify.js:20-41 | a refresh that throws inside the retry (it has no `try` of its own) ends the request with 500; the token keeps the value the earlier refreshes left |
| `SpotifyProxy.RetriesWithoutBound` | api/spotify.js:20-25 | while the provider keeps answering 401 and the token endpoint answers, the handler never completes and makes two calls per 401 |
| `SpotifyProxy.AnswersAreWellFormed` | api/spotify.js:1-42 | every completed answer is 405, 400, 500, 200 `Token refreshed`, or a 200 pass-through |
| `SpotifyProxy.Proxy.constructor` | api/spotify.js:16 | the module-level token starts as the configured `SPOTIFY_ACCESS_TOKEN` |
| `SpotifyProxy.Proxy.RefreshToken` | api/spotify.js:44-60 | a throwing token call is reported as failed and changes nothing; otherwise the token becomes `NewToken` of the reply |
| `SpotifyProxy.Proxy.Handler` | api/spotify.js:1-42 | the answer, the calls made and the new module-level token are exactly those of `HandleRequest` on the old token |
| `SpotifyProxy.Proxy.Recent` | api/spotify.js:12-28 | the fetch/refresh loop of the `recent` branch agrees with the self-calling handler it replaces |
| `ClientCache.Expired` | js/scripts.js:44-45 | an entry expires only when its age is over the duration: an age equal to it, or a missing timestamp (age NaN), never expires |
| `ClientCache.ReadCache` | js/scripts.js:39-55 | no entry gives null; a corrupt or expired entry is removed and gives null; otherwise the stored track is served and the slot is kept; a read never changes the slot except to remove it |
| `ClientCache.Store` | js/scripts.js:57-64 | `cacheTrack(null)` leaves storage as it is; a track is stored with the current time |
| `ClientCache.RecentTrack` | js/scripts.js:67-98 | no fetch iff the cache serves a track, which is then returned with the slot kept; after a fetch the result is the fetched track, cached stamped with the write time on success and nothing written otherwise |
| `ClientCache.FreshnessBoundary` | js/scripts.js:43-49 | an entry is served iff `now - timestamp <= CACHE_DURATION`, so an age equal to the duration is still served; an entry not served is evicted |
| `ClientCache.HitSkipsNetwork` | js/scripts.js:67-72 | with a fresh cache, the network answer has no effect on the result and no fetch is made |
| `ClientCache.FailureCachesNothing` | js/scripts.js:74-97 | on a miss, a 429, a non-ok status or a failed request gives null and writes nothing beyond the eviction already done |
| `ClientCache.FetchedTrackServedUntilExpiry` | js/scripts.js:39-98 | a track fetched at time T is served from the cache with no fetch at every time up to T + 5 minutes, and refetched after it |
| `ClientCache.TrackCache.constructor` | js/scripts.js:13 | the storage slot under `CACHE_KEY` is whatever the page finds there |
| `ClientCache.TrackCache.GetCachedTrack` | js/scripts.js:39-55 | returns the track and leaves the slot as `ReadCache` of the old slot says |
| `ClientCache.TrackCache.CacheTrack` | js/scripts.js:57-64 | the slot becomes `Store` of the old slot |
| `ClientCache.TrackCache.GetRecentTrack` | js/scripts.js:67-98 | result, whether the network was used, and the new slot are those of `RecentTrack` |
| `ClientCache.TrackCache.IsCacheExpired` | js/scripts.js:100-103 | true exactly when `getCachedTrack` would give null, with the same eviction |
| `Player.NextTrack` | js/scripts.js:23-35 | the current record changes iff the update is non-null and its title or artist differs (`IsNewSong`), and then it becomes the update |
| `Player.NextTrackIdempotent` | js/scripts.js:26-27 | showing the same answer twice is the same as showing it once |
| `Player.PlayerState.constructor` | js/scripts.js:3-11 | the player starts with the blank record and `hasPlayedOnce` false |
| `Player.PlayerState.UpdatePlayer` | portfolioWebsite/js/scripts.js:88-104 | (also js/scripts.js:23-35) the record becomes `NextTrack`; `hasPlayedOnce` becomes true exactly when the record changed and never goes back; until then the record stays blank |
| `Player.WidgetPlayer.constructor` | javascript/script.js:24-31 | the widget's player starts with the blank record |
| `Player.WidgetPlayer.UpdatePlayer` | javascript/script.js:42-53 | the record becomes `NextTrack` of the old record and the update |
| `Showcase.Advance` | js/scripts.js:326-330 | the next screenshot index is `(i+1) % n`: one more, wrapping to 0 after the last, always below `n` |
| `Showcase.AfterTicks` | js/scripts.js:324-330 | the index after k ticks from the first screenshot is always below `n`, and is k during the first round |
| `Showcase.TicksVisitInOrder` | js/scripts.js:324-330 | after k ticks of a cycle started at the first screenshot the index is `k % n` |
| `Showcase.Page.constructor` | js/scripts.js:133-165 | no project open, no interval, audio muted; the video is muted when the toggle is wired |
| `Showcase.Page.ToggleAudio` | js/scripts.js:141-152 | the click flips `isAudioMuted` and sets the video's `muted` to it |
| `Showcase.Page.StopScreenshotCycle` | js/scripts.js:333-338 | afterwards no interval runs, so a second call is the same as one; nothing else changes |
| `Showcase.Page.StartScreenshotCycle` | js/scripts.js:312-331 | with one screenshot or none no interval is started; otherwise a cycle over all of them starts at index 0 |
| `Showcase.Page.Tick` | js/scripts.js:326-330 | the running cycle advances by `Advance` and the index stays in `[0, n)` |
| `Showcase.Page.OpenShowcase` | js/scripts.js:191-278 | opening the project already open changes nothing; another project becomes current, mutes the audio when the video exists, and runs a cycle only for a described non-video project with a container of two or more screenshots |
| `Showcase.Page.CloseShowcase` | js/scripts.js:280-310 | no project is open, no interval runs, and the audio is muted when the video exists |
| `Showcase.Page.KeyDown` | js/scripts.js:352-356 | Escape closes only while a truthy project id is open, and then, as `closeShowcase` does, stops the cycle and mutes the audio when the video exists; any other key, or no open project, changes nothing |
| `Widgets.MuteToggle.constructor` | javascript/script.js:5-7 | the video starts muted and the button lacks the `unmuted` class |
| `Widgets.MuteToggle.Click` | javascript/script.js:9-16 | the click flips `muted`, and the `unmuted` class is present iff the video is not muted |
| `Widgets.InitialTheme` | javascript/script.js:115-123 | (the test is `DarkAtLoad`) the page loads dark iff the saved theme is `dark`, or nothing (or an empty value) is saved and the system prefers dark, or the document was served dark; otherwise the served attribute is kept |
| `Widgets.ToggleTheme` | javascript/script.js:126-140 | a click turns dark into no attribute and anything else into dark, and saves `dark` or `light` to match the new attribute |
| `Widgets.ToggleTwiceRestores` | javascript/script.js:126-140 | two clicks restore the attribute when it was absent or dark; a foreign served value is discarded |
| `Widgets.SavedThemeSurvivesReload` | javascript/script.js:116-140 | for a document served without a theme, the value a click saves reproduces the attribute it set at the next load, whatever the system prefers |
| `Widgets.Theme.constructor` | javascript/script.js:115-123 | the attribute after load is `InitialTheme`; storage is not written at load |
| `Widgets.Theme.Click` | javascript/script.js:126-140 | the attribute and the saved value become those of `ToggleTheme` |
| `LegacyClient.GetRecent` | portfolioWebsite/js/scripts.js:41-71 | `getRecentTrack` as written, calling itself after a 401 and a refresh: the first call is a fetch with the current token, there are at most two calls per reply supplied, and a completed result comes after an odd number of calls, the last a fetch bearing the final token |
| `LegacyClient.RetriesUntilFirstNon401` | portfolioWebsite/js/scripts.js:41-71 | the client returns the mapping of the first non-401 reply (null unless ok with a track), after exactly one refresh per 401, each fetch bearing the token current at that point; a failed refresh leaves the token and the retry goes on |
| `LegacyClient.RetriesWithoutBound` | portfolioWebsite/js/scripts.js:49-52 | the retry on 401 has no bound: while 401s continue the client never returns |
| `LegacyClient.SpotifyApi.constructor` | portfolioWebsite/js/scripts.js:12-17 | `spotifyConfig.accessToken` starts as the configured `SPOTIFY_ACCESS_TOKEN` |
| `LegacyClient.SpotifyApi.RefreshToken` | portfolioWebsite/js/scripts.js:21-39 | the token becomes `NewToken` of the reply; a failed call is swallowed and leaves it unchanged |
| `LegacyClient.SpotifyApi.GetRecentTrack` | portfolioWebsite/js/scripts.js:41-71 | the result, the calls made and the new token are exactly those of `GetRecent` on the old token |

## Left out

- Network, JSON parsing, base64 Basic credentials and request headers other than the
  Bearer token are abstracted. The provider is a sequence of `Reply`/`Grant` values.
  A body either parses to the fields the code reads or makes `json()` throw.
- The client id, client secret and refresh token are constants that never change in
  the source. They are not modelled, and neither is the body of the token request.
- In the recently-played mapping only a missing image is modelled as a throwing read.
  A missing `artists`, `album` or `external_urls` field would also throw, and the
  caller's `try` would turn it into null. Such bodies are outside `RawTrack`.
- `Tracks.TrackArtistsInOrder`: the round trip back to the names holds only when no
  artist name contains a comma. A name such as "Tyler, The Creator" is cut in two by
  the reading. `Tracks.TrackFromRaw` still states the field as `JoinArtists` of the
  names for every artist list.
- `ClientCache.ReadCache`: a stored empty string is falsy and gives null without
  being removed. The slot's `None` stands for it; the page itself never stores one.
- `ClientCache.TrackCache.GetRecentTrack`: a `localStorage.setItem` that throws
  (storage full) would make the mapped track come back as null. Storage writes
  here always succeed.
- Logging is not modelled: the `console.error` in each `catch`, the `console.warn`
  on a 429 and the `console.log` on a cache hit have no effect on the state modelled.
- DOM writes (`textContent`, `src`, `href`, class lists, `style`, link buttons) are not
  modelled. Only the state variables they mirror are.
- `setInterval` and `clearInterval` scheduling, the `visibilitychange`, `unload` and
  resize listeners, the periodic token refresh of the older page, and video
  play/pause are event-loop matters. A running interval is modelled as its state
  (`Cycle`), and its callback as `Page.Tick`.
- The static project descriptions table is not modelled. Only whether an id has an
  entry matters, because a missing entry makes `openShowcase` throw before the
  carousel starts.
- Parallax, scroll, opacity and resize computations of the older page are
  floating-point DOM geometry and are not modelled.
- Concurrency between overlapping requests (two 401s refreshing at once) is not
  modelled. Each request runs to completion on its own.
