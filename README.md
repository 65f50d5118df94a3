# music-button-backend, modelled in Dafny

The backend lets a button device record a short clip. The clip is identified by
the AudD fingerprinting service, and the song is added to a Spotify playlist of
the button's owner. Users sign in with Spotify through an authorization-code
flow with PKCE (RFC 7636). This model covers the parts of the backend that
decide things. Every call to the outside world is a parameter.

- **Login** (`OAuthRoutes`).
  - `auth` stores a fresh code verifier under a fresh state.
  - `callback` checks its query parameters in a fixed order and uses the
    state up. It exchanges the code, upserts the user row, and maps a fresh
    session id to the user.
  - `logout` forgets one session.
  - The code verifier and the S256 challenge are built from the base64url
    encoding with its padding stripped (`Base64Url`).
- **Sessions** (`Sessions`): the in-memory session store, and
  `get_current_user`, which classifies a failed lookup as 401 or 404.
- **Token lifecycle** (`TokenRefresh`): `get_valid_token` hands out the stored
  access token while it is unexpired. Otherwise it refreshes it, and writes
  exactly the token and its expiry.
- **Playlist and buttons** (`PlaylistRoute`, `ButtonRoutes`):
  - get-or-create of the user's playlist;
  - registering a button for an existing user;
  - listing the current user's buttons.
- **Upload pipeline** (`SongRoutes`, `TrackIds`, `PyStr`):
  - reading the AudD reply and deciding between no match, failure and
    success;
  - parsing the Spotify track id out of the link AudD returns;
  - `add_to_spotify`, which creates the playlist only when the user has none,
    then adds the track URI at position 0;
  - fetching the track, and building the logged `RecentSong` row.
  - The Python string operations the parser and the artist list rely on
    (`in`, `split`, `join`) are modelled in `PyStr`.
- **Recent songs** (`RecentQuery`): the `/recent` query returns the current
  user's rows, newest first, at most ten. It is proved to meet a
  declarative description of a correct answer.

The database tables are fields of a `Database` object:
- users are a map keyed by user id;
- buttons are a map keyed by button id;
- the song log is a sequence.

`Consistent` states the referential integrity the schema declares. Every
state-changing route preserves it. The two in-memory dictionaries are objects
with a map field each: `PKCE_STORE` is `PkceStore`, and `session_store` is
`SessionStore`.

Outside effects are parameters:
- Replies from Spotify and AudD are `Reply<T>` values. A reply is either no
  reply at all, or a status code and a body that may fail to be JSON.
  Endpoints are functions from the request to the reply.
- Clock readings are integers, in seconds.
- Random bytes and the fresh `uuid4` session id are arguments.
- SHA-256 is a function argument.

Several methods allocate a fresh process state and run a whole flow. They are
`LoginFlow`, `LogoutFlow`, `RefreshedTokenIsReused`,
`SecondRequestReusesPlaylist`, `RegisteredButtonIsListed`,
`UploadWithLiveToken` and `UploadThenListRecent`. They state what a sequence of requests achieves.

## Model

| member | source | states |
|---|---|---|
| Common.CheckedJson | app/routes/oauth.py:108-109 | `raise_for_status()` then `json()` succeeds exactly on a 2xx reply whose body is JSON, and yields that body. A non-2xx reply fails with its status code. |
| Common.UncheckedJson | app/auth/oauth.py:30 | `json()` with no status check succeeds exactly when there is a reply with a JSON body, whatever its status. |
| Common.StatusFailure | app/routes/songs.py:105 | `raise_for_status()` raises nothing exactly on a 2xx reply. A non-2xx reply raises with its status code. |
| PyStr.FindFirst | app/routes/songs.py:26 | The leftmost occurrence of a separator, or none exactly when the string does not contain it (Python's `in`). |
| PyStr.Split | app/routes/songs.py:27 | `str.split` always yields at least one piece. |
| PyStr.FirstPieceLacksSeparator | app/routes/songs.py:29 | `s.split(sep)[0]` never contains `sep`. |
| PyStr.FirstPieceIsPrefix | app/routes/songs.py:29 | `s.split(sep)[0]` is a prefix of `s`. It is the whole of `s`, or the separator follows it. |
| PyStr.LastPieceAfterSeparator | app/routes/songs.py:27 | `s.split(sep)[-1]` never contains `sep`. When `s` contains `sep`, `s` ends with `sep` followed by that piece. |
| PyStr.Join | app/routes/songs.py:151 | `sep.join(parts)`. That splitting undoes it is proved in `SplitJoin`. |
| PyStr.SplitJoin | app/routes/songs.py:151 | Splitting `sep.join(parts)` on `sep` gives the parts back, when no part contains `sep` and two copies of `sep` cannot overlap. |
| Base64Url.Encode | app/routes/oauth.py:32 | `urlsafe_b64encode`, three bytes to four symbols. Its length and alphabet are proved in `EncodeShape`. |
| Base64Url.RStrip | app/routes/oauth.py:32 | `.rstrip(b"=")`. That it removes exactly the padding is proved in `RStripPadding` and `UnpaddedShape`. |
| Base64Url.Unpadded | app/routes/oauth.py:32 | The encoding with its padding stripped. Its shape is proved in `UnpaddedShape`. |
| Base64Url.EncodeShape | app/routes/oauth.py:32 | `urlsafe_b64encode` of n bytes has 4·⌈n/3⌉ characters. The first are URL-safe data symbols, and the rest are '='. |
| Base64Url.UnpaddedShape | app/routes/oauth.py:32 | `.rstrip(b"=")` leaves exactly the data symbols: a prefix of the padded encoding, URL-safe and free of '='. |
| OAuthRoutes.GenerateCodeVerifier | app/routes/oauth.py:31-32 | From 32 random bytes, a 43-character string with no '=' that is a valid code verifier under section 4.1 of RFC 7636. |
| OAuthRoutes.CodeChallenge | app/routes/oauth.py:35-37 | The S256 challenge is URL-safe, and is 43 characters for a 32-byte digest. |
| OAuthRoutes.StateToken | app/routes/oauth.py:47 | `token_urlsafe(16)` is 22 URL-safe characters. |
| OAuthRoutes.PkceStore.constructor | app/routes/oauth.py:28 | `PKCE_STORE` starts empty. |
| OAuthRoutes.Auth | app/routes/oauth.py:45-62 | Stores `PKCE_STORE[state] = verifier` and leaves every other entry as it was. Redirects with the S256 challenge of the stored verifier, and keeps every stored verifier valid. |
| OAuthRoutes.Callback | app/routes/oauth.py:78-160 | Checks, in order: an `error` gives 400; a missing code or state gives 400; both leave the PKCE store alone. Then it pops the state; an unknown or replayed state gives 400 "Invalid state". Exchange and profile failures are passed on. No failure opens a session or writes a user. On success it upserts: a new user gets no playlist; an existing user's tokens are overwritten and the playlist is kept; the expiry is `now + expires_in`. The fresh session id maps to the user id, and the cookie lives 604800 seconds. |
| OAuthRoutes.Logout | app/routes/oauth.py:162-176 | Removes exactly the cookie's session. With no cookie nothing changes. Always answers "Logged out successfully". |
| OAuthRoutes.LoginFlow | app/routes/oauth.py:45-160 | `auth` then `callback`: the authorize redirect carries the S256 challenge of the very verifier the token endpoint later receives, and the fresh state is found. The session resolves to the Spotify user, unless that id is empty. A replay of the same callback is refused with "Invalid state". |
| OAuthRoutes.CookieFor | app/routes/oauth.py:150-158 | The session cookie is named "session_id", carries the session id, lives one week (604800 seconds), and is HTTP-only, secure, `SameSite=None`, with path "/". |
| OAuthRoutes.LogoutFlow | app/routes/oauth.py:162-168 | After logout the session no longer resolves (401 "Invalid session"). Every other session resolves as before. |
| Sessions.SessionStore.constructor | app/auth/sessions.py:7 | `session_store` starts empty. |
| Sessions.GetCurrentUser | app/auth/sessions.py:10-28 | A missing cookie gives 401 "No session cookie". An unknown id, or one mapped to an empty user id, gives 401 "Invalid session". A missing user row gives 404. The lookup succeeds exactly otherwise, returning the row whose id is `session_store[session_id]`. The store is only read. |
| Spotify.GrantFrom | app/routes/oauth.py:108-113 | The code exchange succeeds exactly when the reply passes `raise_for_status`, is JSON and has all three token fields. It yields those fields. |
| Spotify.ProfileIdFrom | app/routes/oauth.py:120-123 | The profile read succeeds exactly when the reply passes `raise_for_status`, is JSON and has an `id`. It yields that id. |
| TokenRefresh.RefreshFrom | app/auth/oauth.py:30-35 | A refresh reply without `access_token` gives 400 "Failed to refresh token.". The refresh succeeds exactly when both `access_token` and `expires_in` are present. |
| TokenRefresh.CheckToken | app/auth/oauth.py:15-38 | The outcome of `get_valid_token` on a row, as a value. Strictly before expiry: the stored token and the same row. At or after expiry it succeeds exactly when the refresh does, with the new token and an expiry of `now + expires_in`. A failure leaves the row alone. The refresh token and the playlist are kept, and the token handed out is the one the row stores. |
| TokenRefresh.GetValidToken | app/auth/oauth.py:15-38 | Changes only this user's row, exactly as `CheckToken` says. Strictly before expiry: returns the stored token and changes nothing. At or after expiry it refreshes once. A failure leaves the row alone. Success replaces exactly the access token and sets the expiry to `now + expires_in`. The refresh token and the playlist are never touched. What is returned is always the stored token. |
| TokenRefresh.RefreshedTokenIsReused | app/auth/oauth.py:16-17 | After a successful refresh, a second call before the new expiry returns the same token without asking the token endpoint. Two calls before the original expiry both return the stored token. |
| PlaylistRoute.GetOrCreatePlaylist | app/routes/playlist.py:11-51 | A stored playlist id is returned and nothing is created. Otherwise one creation request is sent, with the stored access token and no expiry check. A non-201 reply raises with that status code. A 201 reply with an id stores that id and returns it. Every failure leaves the user row unchanged. |
| PlaylistRoute.SecondRequestReusesPlaylist | app/routes/playlist.py:12-17 | Idempotence: after a call that returned a non-empty id, a second call returns the same id, whatever the creation endpoint would answer. A failed session lookup fails both calls with the same error. |
| ButtonRoutes.RegisterButton | app/routes/buttons.py:19-29 | An unknown user gives 404 "User not found." and no insert. A reused button id is refused by its primary key. Otherwise the table maps the button id to the user and the answer is "registered". |
| ButtonRoutes.GetUserButtons | app/routes/buttons.py:14-16 | Succeeds exactly when the session lookup does, with exactly the buttons whose owner is the current user. Lookup failures are passed on. |
| ButtonRoutes.RegisteredButtonIsListed | app/routes/buttons.py:14-29 | A button just registered for a signed-in user appears in that user's list. |
| TrackIds.ExtractTrackId | app/routes/songs.py:25-33 | Raises `ValueError` exactly when the input contains neither marker and is not 22 characters long. An unmatched input of length 22 is returned as it is. |
| TrackIds.UriBranch | app/routes/songs.py:26-27 | Any input containing "spotify:track:" takes the URI branch (even one that also holds the web marker). The result follows the last "spotify:track:" and runs to the end. |
| TrackIds.UrlBranch | app/routes/songs.py:28-29 | A web link gives the text after the last "track/", cut before the first '?'. The result never contains '?'. |
| TrackIds.TrackUri | app/routes/songs.py:98 | The URI `spotify:track:{id}`. That it parses back to the id is proved in `UriRoundTrip`. |
| TrackIds.UriRoundTrip | app/routes/songs.py:26-27 | Parsing `spotify:track:{id}` gives back every id without "spotify:track:". |
| TrackIds.ShareUrlRoundTrip | app/routes/songs.py:28-29 | Parsing `https://open.spotify.com/track/{id}` gives back every id without '?', "track/" or "spotify:track:". |
| SongRoutes.IdentifySong | app/routes/songs.py:50-67 | The AudD reply's JSON, with no status check. A body that is not JSON becomes 500 "AudD returned an invalid response.". |
| SongRoutes.Recognise | app/routes/songs.py:126-132 | An unreadable reply's failure is passed on. No match exactly when the status is not "success" or the result is empty. Otherwise a missing Spotify link is `KeyError("spotify")`, a link that does not parse fails with the parser's error, and one that parses is a match carrying its id. |
| SongRoutes.AddTrackRequest | app/routes/songs.py:97-100 | The add request's JSON body. Its content is proved in `AddTrackRequestNamesTrack`. |
| SongRoutes.AddTrackRequestNamesTrack | app/routes/songs.py:97-100 | The add request carries one URI, at position 0, and it parses back to the track id. |
| SongRoutes.AddOutcome | app/routes/songs.py:102-107 | The add succeeds with "song added." exactly when the reply passes `raise_for_status`. |
| SongRoutes.AddedToSpotify | app/routes/songs.py:70-107 | The outcome of `add_to_spotify` on a row, as a value: a token failure ends it and leaves the row alone, a stored playlist id is never overwritten, and a success answers "song added." and leaves the row with a playlist. |
| SongRoutes.AddToSpotify | app/routes/songs.py:70-107 | Changes only this user's row, exactly as `AddedToSpotify` says, and reports the token check's outcome as `CheckToken` gives it. A token failure ends the call before anything changes. An existing playlist id is used and never overwritten. With none, the playlist is created first, and its reply is read with no status check. A reply without an id fails and the id stays empty. The new id is stored, then the one track is added with the token the check handed out. |
| SongRoutes.FetchedTrack | app/routes/songs.py:36-47 | The outcome of `enhance_song_info` on a row, as a value: the row the token check leaves, and either that check's failure or the track fetched with `raise_for_status` and `json()` using the stored token. The playlist is kept. |
| SongRoutes.EnhanceSongInfo | app/routes/songs.py:36-47 | Changes only this user's row, exactly as `FetchedTrack` says. A second token check, then the track fetch with `raise_for_status` and `json()`, using the token that check handed out. |
| SongRoutes.BuildRecentSong | app/routes/songs.py:147-154 | The logged row carries the owner's id, the track id, the track and album names, and the album's first image or none when it has no images. One artist is stored as is, none as "". That every artist comes back in order is proved in `ArtistsRecoverable`. |
| SongRoutes.FirstImage | app/routes/songs.py:153 | The album's first image, or none exactly when the album has no images. |
| SongRoutes.ArtistsRecoverable | app/routes/songs.py:151 | The stored artist column keeps every artist in input order: splitting it on ", " gives the names back. |
| SongRoutes.Upload | app/routes/songs.py:110-163 | A reply that cannot be read, and a match whose link does not parse, become failures. No match, and an unregistered button (404, checked after matching), change nothing. Nothing is logged unless the upload succeeds. Only the button owner's row may change, and a stored playlist id is never overwritten. Past the button lookup, it does what `AddAndLog` states for the button's owner. A success appends one row under the next id, built from the track Spotify returned. |
| SongRoutes.AddAndLog | app/routes/songs.py:138-160 | The part of `upload` after the button is found. If `add_to_spotify` fails, that failure is the outcome. If it succeeds and `enhance_song_info` fails, that failure is the outcome. The upload succeeds exactly when both succeed. The owner's row is left as the stages left it, and a row is logged only on success. |
| SongRoutes.UploadWithLiveToken | app/routes/songs.py:110-163 | Take an owner whose token is unexpired at both checks and who has a playlist. Then no user row changes, and the upload succeeds exactly when the add passes `raise_for_status` and the track fetch succeeds. A refused add or a failed fetch is the outcome, and a success logs the track's row. |
| SongRoutes.UploadThenListRecent | app/routes/songs.py:110-176 | A successful upload made later than every logged song is first in its owner's recent list. Any other outcome leaves the list as it was. |
| RecentQuery.Owned | app/routes/songs.py:173 | `WHERE user_id = uid` keeps every row of that user as many times as the table holds it, and no other row. |
| RecentQuery.Insert | app/routes/songs.py:174 | Inserting into a newest-first list keeps it newest first and adds exactly that row. |
| RecentQuery.SortNewestFirst | app/routes/songs.py:174 | `ORDER BY added_at DESC` yields a newest-first permutation of its input. |
| RecentQuery.RecentFor | app/routes/songs.py:171-176 | The query returns rows of the table owned by the user, newest first, min(10, owned) of them. No owned row left out is newer than the last one returned. |
| RecentQuery.GetRecentSongs | app/routes/songs.py:166-176 | Succeeds exactly when the session lookup does, and then gives a recent selection for the current user. Lookup failures are passed on. |
| RecentQuery.NewestRowLeads | app/routes/songs.py:174-175 | A row newer than every logged row is first in its owner's recent list. |

## Left out

- Outbound HTTP to Spotify and AudD is not performed. Each call is a function
  from its request to a `Reply`. A JSON body is reduced to the fields the code
  reads, and a field is `None` when it is missing. A present but `null` field
  is not told apart from a missing one.
- SHA-256, `secrets.token_bytes`, `secrets.token_urlsafe`, `uuid4` and
  `datetime.utcnow` are parameters.
  - Times are whole seconds, and an `expires_in` that is not an integer is not
    modelled.
- The authorize URL is kept as its query parameters; `urlencode` is not
  modelled. The cookie and the redirect are values, not HTTP responses.
  `delete_cookie` in `logout` is not modelled.
- Saving the recording to disk in `upload` (app/routes/songs.py:114-124) is not
  modelled, so neither is an upload that fails because the file cannot be
  written. The `print` calls are not modelled either.
- The `if not added` branch of `upload` (app/routes/songs.py:142-143) is never
  taken. `add_to_spotify` either raises or returns a non-empty dict, so the
  model has no such branch.
- SQL transactions are not modelled. Each `commit` is an immediate write, so a
  refresh or a playlist creation committed before a later failure in the same
  upload stays, as it does in the source. In `get_valid_token`, an
  `access_token` assigned in memory before the `expires_in` lookup raises is
  never committed. The model leaves the row unchanged in that case.
- `RecentSong.id` is an auto-increment. It is modelled as the row's position
  plus one, since the core never deletes rows.
- The exception texts that embed a JSON reply are kept as their fixed prefix,
  for example `Spotify error: {resp.json()}`. A missing key on the nested path
  `["spotify"]["external_urls"]["spotify"]` is one `KeyError("spotify")`.
- A Spotify track reply lacking `name`, `artists`, `album` or `images` raises
  `KeyError` in the source. `TrackBody` always has these fields, so that path
  is not modelled.
- The `check_auth` route (app/routes/oauth.py:40-42) is `get_current_user`
  alone. `post_auth_redirect` returns fixed HTML. Neither is modelled separately.
- Concurrent requests sharing `PKCE_STORE` and `session_store` are not
  modelled.
- RecentQuery.RecentFor: `ORDER BY added_at DESC` leaves rows with equal
  times in no particular order. `RecentFor` picks one order, and
  `IsRecentSelection`, which it is proved against, admits any.
- ButtonRoutes.GetUserButtons: returns the set of the user's buttons, not the
  relationship's list. Its order is not modelled.
- ButtonRoutes.RegisterButton: the source does not check for an existing
  button id. The commit fails on the primary key, and this is modelled as an
  `IntegrityError` that leaves the table unchanged.
