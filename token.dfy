/** The access-token lifecycle (app/auth/oauth.py): `get_valid_token` hands out
    the stored token while it is unexpired and otherwise refreshes it. */
module TokenRefresh {
  import opened Common
  import opened Models
  import opened Spotify

  const RefreshFailed: string := "Failed to refresh token."

  /** What a successful refresh yields. */
  datatype Refreshed = Refreshed(accessToken: string, expiresIn: int)

  /** How `get_valid_token` reads the refresh reply: `json()` with no status
      check, a 400 when `access_token` is absent, then `expires_in`. */
  function RefreshFrom(reply: Reply<TokenBody>): (r: Result<Refreshed>)
    ensures UncheckedJson(reply).Err? ==> r == Err(UncheckedJson(reply).error)
    ensures UncheckedJson(reply).Ok? && UncheckedJson(reply).value.accessToken.None? ==>
      r == Err(HttpException(400, RefreshFailed))
    ensures r.Ok? <==> (UncheckedJson(reply).Ok? &&
      UncheckedJson(reply).value.accessToken.Some? && UncheckedJson(reply).value.expiresIn.Some?)
    ensures r.Ok? ==>
      r.value == Refreshed(UncheckedJson(reply).value.accessToken.value, UncheckedJson(reply).value.expiresIn.value)
  {
    match UncheckedJson(reply)
    case Err(e) => Err(e)
    case Ok(body) =>
      if body.accessToken.None? then Err(HttpException(400, RefreshFailed))
      else if body.expiresIn.None? then Err(KeyError("expires_in"))
      else Ok(Refreshed(body.accessToken.value, body.expiresIn.value))
  }

  /** What one stage of a request hands back, together with the owner's row
      as that stage leaves it. */
  datatype Stage<T> = Stage(result: Result<T>, user: User)

  /** The outcome of `get_valid_token` on the row `u`, as a value: the token it
      hands out (or the failure) and the row it leaves behind. */
  function CheckToken(u: User, now: int, refreshedAt: int, refresh: string -> Reply<TokenBody>): (c: Stage<string>)
    ensures c.user.userId == u.userId && c.user.refreshToken == u.refreshToken
    ensures c.user.playlistId == u.playlistId
    ensures c.result.Ok? ==> c.result.value == c.user.accessToken
    ensures c.result.Err? ==> c.user == u
    ensures now < u.tokenExpiry ==> c == Stage(Ok(u.accessToken), u)
    ensures u.tokenExpiry <= now ==>
      var got := RefreshFrom(refresh(u.refreshToken));
      && (c.result.Ok? <==> got.Ok?)
      && (got.Err? ==> c.result == Err(got.error))
      && (got.Ok? ==> c.result.value == got.value.accessToken && c.user.tokenExpiry == refreshedAt + got.value.expiresIn)
  {
    if now < u.tokenExpiry then Stage(Ok(u.accessToken), u)
    else
      match RefreshFrom(refresh(u.refreshToken))
      case Err(e) => Stage(Err(e), u)
      case Ok(got) =>
        var renewed := u.(accessToken := got.accessToken, tokenExpiry := refreshedAt + got.expiresIn);
        Stage(Ok(renewed.accessToken), renewed)
  }

  /** `get_valid_token(user, session)` for the user stored under `userId`.
      `now` is the clock reading of the expiry check and `refreshedAt` the
      later one the new expiry is computed from; `refresh` is the token
      endpoint, given the refresh token it is sent. */
  method GetValidToken(db: Database, userId: string, now: int, refreshedAt: int,
                       refresh: string -> Reply<TokenBody>) returns (r: Result<string>)
    requires db.Valid() && userId in db.users
    modifies db
    ensures db.Valid() && db.buttons == old(db.buttons) && db.recentSongs == old(db.recentSongs)
    ensures userId in db.users && db.users.Keys == old(db.users.Keys)
    // only this user's row can change, and it changes as `CheckToken` says
    ensures db.users == old(db.users)[userId := db.users[userId]]
    ensures Stage(r, db.users[userId]) == CheckToken(old(db.users[userId]), now, refreshedAt, refresh)
    // the refresh token and the playlist are never touched
    ensures db.users[userId].refreshToken == old(db.users[userId].refreshToken)
    ensures db.users[userId].playlistId == old(db.users[userId].playlistId)
    // what is handed out is what is stored
    ensures r.Ok? ==> r.value == db.users[userId].accessToken
    ensures r.Err? ==> db.users == old(db.users)
    // strictly before expiry: the stored token, nothing changes
    ensures now < old(db.users[userId].tokenExpiry) ==>
      r == Ok(old(db.users[userId].accessToken)) && db.users == old(db.users)
    // at or after expiry: one refresh, which replaces exactly the token and its expiry
    ensures old(db.users[userId].tokenExpiry) <= now ==>
      var u := old(db.users[userId]);
      var got := RefreshFrom(refresh(u.refreshToken));
      (got.Err? ==> r == Err(got.error)) &&
      (got.Ok? ==>
        && r == Ok(got.value.accessToken)
        && db.users == old(db.users)[userId := u.(accessToken := got.value.accessToken,
                                                  tokenExpiry := refreshedAt + got.value.expiresIn)])
  {
    var u := db.users[userId];
    if now < u.tokenExpiry {
      return Ok(u.accessToken);
    }
    var got := RefreshFrom(refresh(u.refreshToken));
    if got.Err? {
      return Err(got.error);
    }
    db.users := db.users[userId := u.(accessToken := got.value.accessToken,
                                      tokenExpiry := refreshedAt + got.value.expiresIn)];
    r := Ok(db.users[userId].accessToken);
  }

  /** Two requests in a row: once a refresh has succeeded, a second call made
      before the new expiry hands out the refreshed token again, whatever the
      token endpoint would answer (it is not asked). */
  method RefreshedTokenIsReused(users0: map<string, User>, buttons0: map<string, Button>, recent0: seq<RecentSong>,
                                userId: string, now1: int, refreshedAt1: int, now2: int, refreshedAt2: int,
                                refresh1: string -> Reply<TokenBody>, refresh2: string -> Reply<TokenBody>)
    returns (first: Result<string>, second: Result<string>)
    requires Consistent(users0, buttons0, recent0) && userId in users0
    ensures var u := users0[userId];
      var got := RefreshFrom(refresh1(u.refreshToken));
      u.tokenExpiry <= now1 && got.Ok? && now2 < refreshedAt1 + got.value.expiresIn ==>
        first == Ok(got.value.accessToken) && second == first
    ensures now1 < users0[userId].tokenExpiry && now2 < users0[userId].tokenExpiry ==>
      first == Ok(users0[userId].accessToken) && second == first
  {
    var db := new Database(users0, buttons0, recent0);
    first := GetValidToken(db, userId, now1, refreshedAt1, refresh1);
    second := GetValidToken(db, userId, now2, refreshedAt2, refresh2);
  }
}
