/** The playlist route (app/routes/playlist.py): return the user's playlist,
    creating it on Spotify the first time. */
module PlaylistRoute {
  import opened Common
  import opened Models
  import opened Sessions
  import opened Spotify

  /** The playlist this route creates. */
  const ButtonPlaylist := PlaylistSpec("ESP32 Music Button", Some("Songs added from my ESP32 button!"), false)

  /** The detail of the exception raised for a reply other than 201 (the
      reply's JSON, which follows this prefix in the source, is not
      modelled). */
  const SpotifyErrorDetail: string := "Spotify error: "

  /** `get_or_create_playlist`, behind `get_current_user`. `create` is
      `POST /v1/users/{user_id}/playlists`, given the bearer token, the user id
      and the playlist to create. */
  method GetOrCreatePlaylist(db: Database, sessions: map<string, string>, cookie: Option<string>,
                             create: (string, string, PlaylistSpec) -> Reply<CreatedBody>)
    returns (r: Result<string>)
    requires db.Valid()
    modifies db
    ensures db.Valid() && db.buttons == old(db.buttons) && db.recentSongs == old(db.recentSongs)
    ensures r.Err? ==> db.users == old(db.users)
    ensures var current := GetCurrentUser(cookie, sessions, old(db.users));
      && (current.Err? ==> r == Err(current.error))
      // a stored playlist id is returned and nothing is created
      && (current.Ok? && Truthy(current.value.playlistId) ==>
            r == Ok(current.value.playlistId.value) && db.users == old(db.users))
      // otherwise one creation request, with the stored access token as it is
      && (current.Ok? && !Truthy(current.value.playlistId) ==>
            var user := current.value;
            var reply := create(user.accessToken, user.userId, ButtonPlaylist);
            && (reply.Unreachable? ==> r == Err(TransportError))
            && (reply.Reply? && reply.status != 201 ==>
                  r == if reply.body.None? then Err(JsonError)
                       else Err(HttpException(reply.status, SpotifyErrorDetail)))
            && (reply.Reply? && reply.status == 201 ==>
                  if reply.body.None? then r == Err(JsonError)
                  else if reply.body.value.id.None? then r == Err(KeyError("id"))
                  else r == Ok(reply.body.value.id.value) &&
                       db.users == old(db.users)[user.userId := user.(playlistId := Some(r.value))]))
  {
    var current := GetCurrentUser(cookie, sessions, db.users);
    if current.Err? {
      return Err(current.error);
    }
    var user := current.value;
    if Truthy(user.playlistId) {
      return Ok(user.playlistId.value);
    }
    var reply := create(user.accessToken, user.userId, ButtonPlaylist);
    if reply.Unreachable? {
      return Err(TransportError);
    }
    if reply.status != 201 {
      if reply.body.None? {
        return Err(JsonError);
      }
      return Err(HttpException(reply.status, SpotifyErrorDetail));
    }
    if reply.body.None? {
      return Err(JsonError);
    }
    if reply.body.value.id.None? {
      return Err(KeyError("id"));
    }
    var playlistId := reply.body.value.id.value;
    db.users := db.users[user.userId := user.(playlistId := Some(playlistId))];
    r := Ok(playlistId);
  }

  /** Get-or-create is idempotent: after a call that returned a non-empty id,
      a second call returns that id again, whatever the creation endpoint would
      answer (it is not asked). */
  method SecondRequestReusesPlaylist(users0: map<string, User>, buttons0: map<string, Button>,
                                     recent0: seq<RecentSong>, sessions: map<string, string>, cookie: Option<string>,
                                     create1: (string, string, PlaylistSpec) -> Reply<CreatedBody>,
                                     create2: (string, string, PlaylistSpec) -> Reply<CreatedBody>)
    returns (first: Result<string>, second: Result<string>)
    requires Consistent(users0, buttons0, recent0)
    ensures first.Ok? && first.value != "" ==> second == first
    ensures GetCurrentUser(cookie, sessions, users0).Err? ==>
              first == Err(GetCurrentUser(cookie, sessions, users0).error) && second == first
  {
    var db := new Database(users0, buttons0, recent0);
    first := GetOrCreatePlaylist(db, sessions, cookie, create1);
    second := GetOrCreatePlaylist(db, sessions, cookie, create2);
  }
}
