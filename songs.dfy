/** The song routes of app/routes/songs.py: the upload pipeline that turns a
    button's recording into a track on the owner's playlist and a row of the
    recent-songs log. */
module SongRoutes {
  import opened Common
  import opened PyStr
  import opened Models
  import opened Spotify
  import opened TokenRefresh
  import opened TrackIds
  import opened Sessions
  import opened RecentQuery

  const AudDInvalid: string := "AudD returned an invalid response."
  const ButtonMissing: string := "Button not registered."
  const SongAdded: string := "song added."
  /** The separator between artist names in the stored `artist` column. */
  const ArtistSeparator: string := ", "

  /** The playlist `add_to_spotify` creates when the user has none. */
  const UploadPlaylist := PlaylistSpec("Music Button", None, false)

  /** The match object of an AudD reply: only the Spotify link is read
      (`result["spotify"]["external_urls"]["spotify"]`). */
  datatype SongMatch = SongMatch(spotifyUrl: Option<string>)

  /** An AudD reply: its `status` field, and its `result` field (None when it
      is absent, null or empty, all of which Python treats as false). */
  datatype AudDBody = AudDBody(status: Option<string>, result: Option<SongMatch>)

  /** The two clock readings of one `get_valid_token` call. */
  datatype Clock = Clock(checkedAt: int, refreshedAt: int)

  /** Everything an upload receives from outside the backend: the AudD reply to
      the recording, the Spotify endpoints, and the clock readings of the two
      token checks and of the row's `added_at` default. */
  datatype World = World(
    audd: Reply<AudDBody>,
    refreshForAdd: string -> Reply<TokenBody>,
    refreshForTrack: string -> Reply<TokenBody>,
    createPlaylist: (string, string, PlaylistSpec) -> Reply<CreatedBody>,
    addTracks: (string, string, TracksPayload) -> Reply<()>,
    getTrack: (string, string) -> Reply<TrackBody>,
    addClock: Clock,
    trackClock: Clock,
    addedAt: int)

  /** How an upload ends: `{"success": True}`, `{"success": False, "reason":
      "No match found."}`, or `{"success": False, "error": ...}` for any
      exception raised on the way. */
  datatype UploadOutcome = Added | NoMatch | Failed(error: Failure)

  /** What the recording was recognised as. */
  datatype Recognition = NoMatchFound | Matched(trackId: string)

  /** `identify_song`: the AudD reply's JSON, with no status check; a body that
      is not JSON becomes a 500. */
  function IdentifySong(reply: Reply<AudDBody>): (r: Result<AudDBody>)
    ensures r.Ok? <==> reply.Reply? && reply.body.Some?
    ensures r.Ok? ==> r.value == reply.body.value
    ensures reply.Reply? && reply.body.None? ==> r == Err(HttpException(500, AudDInvalid))
    ensures reply.Unreachable? ==> r == Err(TransportError)
  {
    match reply
    case Unreachable => Err(TransportError)
    case Reply(_, body) => if body.None? then Err(HttpException(500, AudDInvalid)) else Ok(body.value)
  }

  /** The first part of `upload`, before the button is looked up: no match
      unless the status is "success" and there is a result; otherwise the
      track id parsed from the result's Spotify link. */
  function Recognise(reply: Reply<AudDBody>): (r: Result<Recognition>)
    ensures IdentifySong(reply).Err? ==> r == Err(IdentifySong(reply).error)
    ensures r == Ok(NoMatchFound) <==>
      (IdentifySong(reply).Ok? &&
       (IdentifySong(reply).value.status != Some("success") || IdentifySong(reply).value.result.None?))
    ensures r.Ok? && r.value.Matched? ==>
      && IdentifySong(reply).Ok?
      && IdentifySong(reply).value.status == Some("success")
      && IdentifySong(reply).value.result.Some?
      && IdentifySong(reply).value.result.value.spotifyUrl.Some?
      && ExtractTrackId(IdentifySong(reply).value.result.value.spotifyUrl.value) == Ok(r.value.trackId)
    // a "success" reply with a result: the link must be present, and then its
    // track id, or the reason it has none, is the answer
    ensures IdentifySong(reply).Ok? && IdentifySong(reply).value.status == Some("success") &&
            IdentifySong(reply).value.result.Some? ==>
      var found := IdentifySong(reply).value.result.value;
      && (found.spotifyUrl.None? ==> r == Err(KeyError("spotify")))
      && (found.spotifyUrl.Some? && ExtractTrackId(found.spotifyUrl.value).Err? ==>
            r == Err(ExtractTrackId(found.spotifyUrl.value).error))
      && (found.spotifyUrl.Some? && ExtractTrackId(found.spotifyUrl.value).Ok? ==>
            r == Ok(Matched(ExtractTrackId(found.spotifyUrl.value).value)))
  {
    match IdentifySong(reply)
    case Err(e) => Err(e)
    case Ok(body) =>
      if body.status != Some("success") || body.result.None? then Ok(NoMatchFound)
      else if body.result.value.spotifyUrl.None? then Err(KeyError("spotify"))
      else
        match ExtractTrackId(body.result.value.spotifyUrl.value)
        case Err(e) => Err(e)
        case Ok(id) => Ok(Matched(id))
  }

  /** The JSON body `add_to_spotify` sends: the one track's URI, at the top
      of the playlist. */
  function AddTrackRequest(trackId: string): TracksPayload {
    TracksPayload([TrackUri(trackId)], 0)
  }

  /** The request names exactly the track it was built for, at position 0: its
      only URI parses back to the id. */
  lemma AddTrackRequestNamesTrack(trackId: string)
    requires !Contains(trackId, UriMarker)
    ensures |AddTrackRequest(trackId).uris| == 1 && AddTrackRequest(trackId).position == 0
    ensures ExtractTrackId(AddTrackRequest(trackId).uris[0]) == Ok(trackId)
  {
    UriRoundTrip(trackId);
  }

  /** `resp.raise_for_status()` on the add-tracks reply, then the fixed
      `{"status": "song added."}`. */
  function AddOutcome(reply: Reply<()>): (r: Result<string>)
    ensures r.Ok? <==> StatusFailure(reply).None?
    ensures r.Ok? ==> r.value == SongAdded
    ensures r.Err? ==> Some(r.error) == StatusFailure(reply)
  {
    match StatusFailure(reply)
    case Some(e) => Err(e)
    case None => Ok(SongAdded)
  }

  /** What `add_to_spotify` does to the row `u`, as a value: the token check,
      then the playlist (created when the row has none, with no status check on
      the reply), then the add-tracks call. */
  function AddedToSpotify(u: User, trackId: string, w: World): (s: Stage<string>)
    ensures s.user.userId == u.userId && s.user.refreshToken == u.refreshToken
    // a token failure ends the call before anything else
    ensures var t := CheckToken(u, w.addClock.checkedAt, w.addClock.refreshedAt, w.refreshForAdd);
      t.result.Err? ==> s == Stage(Err(t.result.error), u)
    // an existing playlist id is never overwritten
    ensures Truthy(u.playlistId) ==> s.user.playlistId == u.playlistId
    // a success leaves the row with a playlist, and says so
    ensures s.result.Ok? ==> s.result.value == SongAdded && s.user.playlistId.Some?
  {
    var t := CheckToken(u, w.addClock.checkedAt, w.addClock.refreshedAt, w.refreshForAdd);
    if t.result.Err? then Stage(Err(t.result.error), t.user)
    else if Truthy(t.user.playlistId) then
      Stage(AddOutcome(w.addTracks(t.result.value, t.user.playlistId.value, AddTrackRequest(trackId))), t.user)
    else
      match UncheckedJson(w.createPlaylist(t.result.value, t.user.userId, UploadPlaylist))
      case Err(e) => Stage(Err(e), t.user)
      case Ok(created) =>
        if created.id.None? then Stage(Err(KeyError("id")), t.user)
        else Stage(AddOutcome(w.addTracks(t.result.value, created.id.value, AddTrackRequest(trackId))),
                   t.user.(playlistId := created.id))
  }

  /** `add_to_spotify` for the user stored under `userId`. `token` reports how
      the token check ended. */
  method AddToSpotify(db: Database, trackId: string, userId: string, w: World)
    returns (r: Result<string>, token: Result<string>)
    requires db.Valid() && userId in db.users
    modifies db
    ensures db.Valid() && db.buttons == old(db.buttons) && db.recentSongs == old(db.recentSongs)
    ensures userId in db.users && db.users.Keys == old(db.users.Keys)
    ensures db.users[userId].userId == userId
    ensures db.users[userId].refreshToken == old(db.users[userId].refreshToken)
    // the call does what `AddedToSpotify` describes, to this row only
    ensures db.users == old(db.users)[userId := db.users[userId]]
    ensures Stage(r, db.users[userId]) == AddedToSpotify(old(db.users[userId]), trackId, w)
    ensures token == CheckToken(old(db.users[userId]), w.addClock.checkedAt, w.addClock.refreshedAt, w.refreshForAdd).result
    // a token failure ends the call before anything else
    ensures token.Err? ==> r == Err(token.error) && db.users == old(db.users)
    ensures token.Ok? ==> token.value == db.users[userId].accessToken
    // an existing playlist id is used and never overwritten
    ensures Truthy(old(db.users[userId].playlistId)) ==>
      && db.users[userId].playlistId == old(db.users[userId].playlistId)
      && (token.Ok? ==> r == AddOutcome(w.addTracks(token.value, db.users[userId].playlistId.value, AddTrackRequest(trackId))))
    // otherwise the playlist is created first, with no status check on the reply
    ensures !Truthy(old(db.users[userId].playlistId)) && token.Ok? ==>
      var created := UncheckedJson(w.createPlaylist(token.value, userId, UploadPlaylist));
      && (created.Err? ==> r == Err(created.error) && db.users[userId].playlistId == old(db.users[userId].playlistId))
      && (created.Ok? && created.value.id.None? ==>
            r == Err(KeyError("id")) && db.users[userId].playlistId == old(db.users[userId].playlistId))
      && (created.Ok? && created.value.id.Some? ==>
            && db.users[userId].playlistId == created.value.id
            && r == AddOutcome(w.addTracks(token.value, created.value.id.value, AddTrackRequest(trackId))))
  {
    token := GetValidToken(db, userId, w.addClock.checkedAt, w.addClock.refreshedAt, w.refreshForAdd);
    if token.Err? {
      return Err(token.error), token;
    }
    var apiToken := token.value;
    var user := db.users[userId];
    if !Truthy(user.playlistId) {
      var created := UncheckedJson(w.createPlaylist(apiToken, userId, UploadPlaylist));
      if created.Err? {
        return Err(created.error), token;
      }
      if created.value.id.None? {
        return Err(KeyError("id")), token;
      }
      user := user.(playlistId := created.value.id);
      db.users := db.users[userId := user];
    }
    r := AddOutcome(w.addTracks(apiToken, user.playlistId.value, AddTrackRequest(trackId)));
  }

  /** What `enhance_song_info` does to the row `u`, as a value: a second
      token check, then `GET /v1/tracks/{id}` with `raise_for_status()` and
      `json()`. */
  function FetchedTrack(u: User, trackId: string, w: World): (s: Stage<TrackBody>)
    ensures s.user.userId == u.userId && s.user.refreshToken == u.refreshToken && s.user.playlistId == u.playlistId
    ensures var t := CheckToken(u, w.trackClock.checkedAt, w.trackClock.refreshedAt, w.refreshForTrack);
      && s.user == t.user
      && (t.result.Err? ==> s.result == Err(t.result.error))
      && (t.result.Ok? ==> s.result == CheckedJson(w.getTrack(s.user.accessToken, trackId)))
  {
    var t := CheckToken(u, w.trackClock.checkedAt, w.trackClock.refreshedAt, w.refreshForTrack);
    if t.result.Err? then Stage(Err(t.result.error), t.user)
    else Stage(CheckedJson(w.getTrack(t.result.value, trackId)), t.user)
  }

  /** `enhance_song_info` for the user stored under `userId`. */
  method EnhanceSongInfo(db: Database, trackId: string, userId: string, w: World)
    returns (r: Result<TrackBody>, token: Result<string>)
    requires db.Valid() && userId in db.users
    modifies db
    ensures db.Valid() && db.buttons == old(db.buttons) && db.recentSongs == old(db.recentSongs)
    ensures userId in db.users && db.users.Keys == old(db.users.Keys)
    ensures db.users[userId].userId == userId
    ensures db.users[userId].refreshToken == old(db.users[userId].refreshToken)
    ensures db.users[userId].playlistId == old(db.users[userId].playlistId)
    ensures db.users == old(db.users)[userId := db.users[userId]]
    ensures Stage(r, db.users[userId]) == FetchedTrack(old(db.users[userId]), trackId, w)
    ensures token == CheckToken(old(db.users[userId]), w.trackClock.checkedAt, w.trackClock.refreshedAt, w.refreshForTrack).result
    ensures token.Err? ==> r == Err(token.error) && db.users == old(db.users)
    ensures token.Ok? ==>
      token.value == db.users[userId].accessToken && r == CheckedJson(w.getTrack(token.value, trackId))
  {
    token := GetValidToken(db, userId, w.trackClock.checkedAt, w.trackClock.refreshedAt, w.refreshForTrack);
    if token.Err? {
      return Err(token.error), token;
    }
    r := CheckedJson(w.getTrack(token.value, trackId));
  }

  /** The image stored for a track: the album's first image, if it has any. */
  function FirstImage(urls: seq<string>): (r: Option<string>)
    ensures r.Some? <==> |urls| > 0
    ensures r.Some? ==> r.value == urls[0]
  {
    if |urls| > 0 then Some(urls[0]) else None
  }

  /** The row `upload` logs: the user's id, the track id, the track's name,
      its artists' names joined by ", " in the order given, the album's name
      and first image; `id` and `addedAt` come from the database. */
  function BuildRecentSong(id: nat, userId: string, trackId: string, addedAt: int, track: TrackBody): (row: RecentSong)
    ensures row.id == id && row.userId == userId && row.trackId == trackId && row.addedAt == addedAt
    ensures row.trackName == track.name && row.album == track.albumName
    ensures row.imageUrl.Some? <==> |track.imageUrls| > 0
    ensures row.imageUrl.Some? ==> row.imageUrl.value == track.imageUrls[0]
    // a single artist is stored as is, and no artist as the empty string
    ensures |track.artistNames| == 1 ==> row.artist == track.artistNames[0]
    ensures |track.artistNames| == 0 ==> row.artist == ""
  {
    RecentSong(id, userId, trackId, addedAt, track.name, Join(track.artistNames, ArtistSeparator),
               track.albumName, FirstImage(track.imageUrls))
  }

  /** The artist column keeps every artist, in order: splitting it on ", "
      gives the names back, as long as no name holds ", " itself. */
  lemma ArtistsRecoverable(id: nat, userId: string, trackId: string, addedAt: int, track: TrackBody)
    requires |track.artistNames| >= 1
    requires forall k :: 0 <= k < |track.artistNames| ==> !Contains(track.artistNames[k], ArtistSeparator)
    ensures Split(BuildRecentSong(id, userId, trackId, addedAt, track).artist, ArtistSeparator) == track.artistNames
  {
    assert BorderFree(ArtistSeparator) by {
      assert ArtistSeparator[1..][0] != ArtistSeparator[..1][0];
    }
    SplitJoin(track.artistNames, ArtistSeparator);
  }

  /** The part of `upload` after the button is found: add the track for its
      owner, fetch the track's details, and log the row. Each stage's failure is
      the outcome; the owner's row is left as the stages left it; success is
      both stages succeeding. */
  method AddAndLog(db: Database, trackId: string, owner: string, w: World) returns (r: UploadOutcome)
    requires db.Valid() && owner in db.users
    modifies db
    ensures db.Valid() && db.buttons == old(db.buttons) && db.users.Keys == old(db.users.Keys)
    ensures r != NoMatch
    ensures var added := AddedToSpotify(old(db.users[owner]), trackId, w);
      var fetched := FetchedTrack(added.user, trackId, w);
      && (added.result.Err? ==>
            r == Failed(added.result.error) && db.users == old(db.users)[owner := added.user]
            && db.recentSongs == old(db.recentSongs))
      && (added.result.Ok? && fetched.result.Err? ==>
            r == Failed(fetched.result.error) && db.users == old(db.users)[owner := fetched.user]
            && db.recentSongs == old(db.recentSongs))
      && (added.result.Ok? && fetched.result.Ok? ==>
            && r == Added
            && db.users == old(db.users)[owner := fetched.user]
            && db.recentSongs == old(db.recentSongs) +
                 [BuildRecentSong(|old(db.recentSongs)| + 1, owner, trackId, w.addedAt, fetched.result.value)])
  {
    var added, addToken := AddToSpotify(db, trackId, owner, w);
    if added.Err? {
      return Failed(added.error);
    }
    var track, trackToken := EnhanceSongInfo(db, trackId, owner, w);
    if track.Err? {
      return Failed(track.error);
    }
    var row := BuildRecentSong(|db.recentSongs| + 1, db.users[owner].userId, trackId, w.addedAt, track.value);
    AppendKeepsConsistent(db.users, db.buttons, db.recentSongs, row);
    db.recentSongs := db.recentSongs + [row];
    r := Added;
  }

  /** `upload(button_id, file)`. */
  method Upload(db: Database, buttonId: string, w: World) returns (r: UploadOutcome)
    requires db.Valid()
    modifies db
    ensures db.Valid() && db.buttons == old(db.buttons) && db.users.Keys == old(db.users.Keys)
    // nothing is logged unless the upload succeeds
    ensures r != Added ==> db.recentSongs == old(db.recentSongs)
    ensures var rec := Recognise(w.audd);
      && (rec.Err? ==> r == Failed(rec.error) && db.users == old(db.users))
      && (rec == Ok(NoMatchFound) ==> r == NoMatch && db.users == old(db.users))
      && (rec.Ok? && rec.value.Matched? && buttonId !in old(db.buttons) ==>
            r == Failed(HttpException(404, ButtonMissing)) && db.users == old(db.users))
    // only the button owner's row changes, and an existing playlist id is kept
    ensures forall k :: k in old(db.users) && (buttonId !in old(db.buttons) || k != old(db.buttons[buttonId].userId)) ==>
      db.users[k] == old(db.users[k])
    ensures forall k :: k in old(db.users) && Truthy(old(db.users[k].playlistId)) ==>
      db.users[k].playlistId == old(db.users[k].playlistId)
    // past the button lookup, each stage's failure is the outcome, the owner's
    // row is left as the stages left it, and success is both stages succeeding
    ensures var rec := Recognise(w.audd);
      rec.Ok? && rec.value.Matched? && buttonId in old(db.buttons) ==>
        var owner := old(db.buttons[buttonId].userId);
        var added := AddedToSpotify(old(db.users[owner]), rec.value.trackId, w);
        var fetched := FetchedTrack(added.user, rec.value.trackId, w);
        && (added.result.Err? ==> r == Failed(added.result.error) && db.users == old(db.users)[owner := added.user])
        && (added.result.Ok? && fetched.result.Err? ==>
              r == Failed(fetched.result.error) && db.users == old(db.users)[owner := fetched.user])
        && (added.result.Ok? && fetched.result.Ok? ==>
              && r == Added
              && db.users == old(db.users)[owner := fetched.user]
              && db.recentSongs == old(db.recentSongs) +
                   [BuildRecentSong(|old(db.recentSongs)| + 1, owner, rec.value.trackId, w.addedAt, fetched.result.value)])
    // a success appends one row describing the track as Spotify returned it
    ensures r == Added ==>
      && Recognise(w.audd).Ok? && Recognise(w.audd).value.Matched?
      && buttonId in old(db.buttons)
      && var owner := old(db.buttons[buttonId].userId);
         var trackId := Recognise(w.audd).value.trackId;
         var track := CheckedJson(w.getTrack(db.users[owner].accessToken, trackId));
         && track.Ok?
         && db.recentSongs ==
              old(db.recentSongs) + [BuildRecentSong(|old(db.recentSongs)| + 1, owner, trackId, w.addedAt, track.value)]
  {
    var rec := Recognise(w.audd);
    if rec.Err? {
      return Failed(rec.error);
    }
    if rec.value.NoMatchFound? {
      return NoMatch;
    }
    var trackId := rec.value.trackId;
    if buttonId !in db.buttons {
      return Failed(HttpException(404, ButtonMissing));
    }
    r := AddAndLog(db, trackId, db.buttons[buttonId].userId, w);
  }

  /** The common case of a button press: the owner's token is unexpired at
      both checks and the owner already has a playlist. Then no refresh and no
      playlist creation happens, and the upload succeeds exactly when Spotify
      accepts the track and returns its details; a refused add or a failed
      lookup is the outcome. */
  method UploadWithLiveToken(users0: map<string, User>, buttons0: map<string, Button>, recent0: seq<RecentSong>,
                             buttonId: string, w: World)
    returns (outcome: UploadOutcome, users: map<string, User>, logged: seq<RecentSong>)
    requires Consistent(users0, buttons0, recent0) && buttonId in buttons0
    requires Recognise(w.audd).Ok? && Recognise(w.audd).value.Matched?
    requires buttons0[buttonId].userId in users0
    requires var u := users0[buttons0[buttonId].userId];
      w.addClock.checkedAt < u.tokenExpiry && w.trackClock.checkedAt < u.tokenExpiry && Truthy(u.playlistId)
    ensures users == users0
    ensures var u := users0[buttons0[buttonId].userId];
      var trackId := Recognise(w.audd).value.trackId;
      var added := AddOutcome(w.addTracks(u.accessToken, u.playlistId.value, AddTrackRequest(trackId)));
      var track := CheckedJson(w.getTrack(u.accessToken, trackId));
      && (outcome == Added <==> added.Ok? && track.Ok?)
      && (added.Err? ==> outcome == Failed(added.error) && logged == recent0)
      && (added.Ok? && track.Err? ==> outcome == Failed(track.error) && logged == recent0)
      && (outcome == Added ==>
            logged == recent0 + [BuildRecentSong(|recent0| + 1, u.userId, trackId, w.addedAt, track.value)])
  {
    var db := new Database(users0, buttons0, recent0);
    outcome := Upload(db, buttonId, w);
    users, logged := db.users, db.recentSongs;
  }

  /** A button press followed by a look at the owner's recent songs: a
      successful upload made later than every logged song heads the list;
      any other outcome leaves the list as it was. */
  method UploadThenListRecent(users0: map<string, User>, buttons0: map<string, Button>, recent0: seq<RecentSong>,
                              buttonId: string, w: World, sessions: map<string, string>, sessionId: string)
    returns (outcome: UploadOutcome, recent: Result<seq<RecentSong>>)
    requires Consistent(users0, buttons0, recent0)
    requires forall i :: 0 <= i < |recent0| ==> recent0[i].addedAt < w.addedAt
    ensures outcome != Added ==> recent == GetRecentSongs(Some(sessionId), sessions, users0, recent0)
    ensures outcome == Added && buttonId in buttons0 && Get(sessions, sessionId) == Some(buttons0[buttonId].userId) &&
            sessionId != "" && buttons0[buttonId].userId != "" ==>
      && Recognise(w.audd).Ok? && Recognise(w.audd).value.Matched?
      && recent.Ok? && |recent.value| > 0
      && recent.value[0].trackId == Recognise(w.audd).value.trackId
      && recent.value[0].addedAt == w.addedAt
      && recent.value[0].userId == buttons0[buttonId].userId
  {
    var db := new Database(users0, buttons0, recent0);
    outcome := Upload(db, buttonId, w);
    recent := GetRecentSongs(Some(sessionId), sessions, db.users, db.recentSongs);
    RecentSongsIgnoreUserFields(Some(sessionId), sessions, db.users, users0, db.recentSongs);
    if outcome == Added {
      var row := db.recentSongs[|recent0|];
      NewestRowLeads(recent0, row);
    }
  }
}
