/** The in-memory session store and the lookup every authenticated route
    depends on (app/auth/sessions.py). */
module Sessions {
  import opened Common
  import opened Models

  const NoSessionCookie: string := "No session cookie"
  const InvalidSession: string := "Invalid session"
  const UserNotFound: string := "User not found"

  /** `session_store`: session id to Spotify user id, empty when the process
      starts. */
  class SessionStore {
    var entries: map<string, string>

    constructor ()
      ensures entries == map[]
    {
      entries := map[];
    }
  }

  /** `get_current_user`: the `session_id` cookie must be present, must name a
      session that maps to a user id, and that user must exist, checked in
      that order. It only reads the store and the table. */
  function GetCurrentUser(cookie: Option<string>, sessions: map<string, string>, users: map<string, User>): (r: Result<User>)
    requires UsersKeyed(users)
    ensures !Truthy(cookie) ==> r == Err(HttpException(401, NoSessionCookie))
    ensures Truthy(cookie) && !Truthy(Get(sessions, cookie.value)) ==>
      r == Err(HttpException(401, InvalidSession))
    ensures Truthy(cookie) && Truthy(Get(sessions, cookie.value)) && sessions[cookie.value] !in users ==>
      r == Err(HttpException(404, UserNotFound))
    ensures r.Ok? <==> Truthy(cookie) && Truthy(Get(sessions, cookie.value)) && sessions[cookie.value] in users
    ensures r.Ok? ==> r.value.userId == sessions[cookie.value] && r.value == users[r.value.userId]
  {
    if !Truthy(cookie) then Err(HttpException(401, NoSessionCookie))
    else
      var userId := Get(sessions, cookie.value);
      if !Truthy(userId) then Err(HttpException(401, InvalidSession))
      else if userId.value !in users then Err(HttpException(404, UserNotFound))
      else Ok(users[userId.value])
  }
}
