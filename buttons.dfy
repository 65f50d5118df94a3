/** The button routes (app/routes/buttons.py): register a device for a user,
    and list the current user's devices. */
module ButtonRoutes {
  import opened Common
  import opened Models
  import opened Sessions

  const UserMissing: string := "User not found."
  const Registered: string := "registered"

  /** `register_button`: the user must exist; the new row is committed under
      its primary key, which the database refuses to reuse. */
  method RegisterButton(db: Database, buttonId: string, userId: string) returns (r: Result<string>)
    requires db.Valid()
    modifies db
    ensures db.Valid() && db.users == old(db.users) && db.recentSongs == old(db.recentSongs)
    ensures userId !in old(db.users) ==> r == Err(HttpException(404, UserMissing))
    ensures userId in old(db.users) && buttonId in old(db.buttons) ==> r == Err(IntegrityError)
    ensures r.Ok? <==> userId in old(db.users) && buttonId !in old(db.buttons)
    ensures r.Ok? ==> r.value == Registered && db.buttons == old(db.buttons)[buttonId := Button(buttonId, userId)]
    ensures r.Err? ==> db.buttons == old(db.buttons)
  {
    if userId !in db.users {
      return Err(HttpException(404, UserMissing));
    }
    if buttonId in db.buttons {
      return Err(IntegrityError);
    }
    db.buttons := db.buttons[buttonId := Button(buttonId, userId)];
    r := Ok(Registered);
  }

  /** `get_user_buttons`, behind `get_current_user`: the buttons whose owner
      is the current user, all of them and no others. */
  function GetUserButtons(cookie: Option<string>, sessions: map<string, string>, users: map<string, User>,
                          buttons: map<string, Button>): (r: Result<set<Button>>)
    requires UsersKeyed(users)
    ensures GetCurrentUser(cookie, sessions, users).Err? ==> r == Err(GetCurrentUser(cookie, sessions, users).error)
    ensures r.Ok? <==> GetCurrentUser(cookie, sessions, users).Ok?
    ensures r.Ok? ==> forall b :: b in r.value <==>
      b in buttons.Values && b.userId == GetCurrentUser(cookie, sessions, users).value.userId
  {
    match GetCurrentUser(cookie, sessions, users)
    case Err(e) => Err(e)
    case Ok(user) => Ok(set k | k in buttons && buttons[k].userId == user.userId :: buttons[k])
  }

  /** A registered button shows up in its owner's list. */
  method RegisteredButtonIsListed(users0: map<string, User>, buttons0: map<string, Button>, recent0: seq<RecentSong>,
                                  sessions: map<string, string>, sessionId: string, buttonId: string)
    returns (registered: Result<string>, listed: Result<set<Button>>)
    requires Consistent(users0, buttons0, recent0)
    requires sessionId != "" && sessionId in sessions && sessions[sessionId] in users0 && sessions[sessionId] != ""
    requires buttonId !in buttons0
    ensures registered == Ok(Registered)
    ensures listed.Ok? && Button(buttonId, sessions[sessionId]) in listed.value
  {
    var db := new Database(users0, buttons0, recent0);
    registered := RegisterButton(db, buttonId, sessions[sessionId]);
    listed := GetUserButtons(Some(sessionId), sessions, db.users, db.buttons);
    assert db.buttons[buttonId] == Button(buttonId, sessions[sessionId]);
  }
}
