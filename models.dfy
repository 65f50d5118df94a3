/** The three database tables (app/models.py): users keyed by Spotify user id,
    buttons keyed by button id, and the log of recently added songs. */
module Models {
  import opened Common

  /** A `User` row. Times are whole seconds on the server's UTC clock. */
  datatype User = User(
    userId: string,
    accessToken: string,
    refreshToken: string,
    tokenExpiry: int,
    playlistId: Option<string>)

  /** A `Button` row: a device owned by a user. */
  datatype Button = Button(buttonId: string, userId: string)

  /** A `RecentSong` row. Its name, artist and album columns are nullable in
      the schema, but the only writer always fills them. */
  datatype RecentSong = RecentSong(
    id: nat,
    userId: string,
    trackId: string,
    addedAt: int,
    trackName: string,
    artist: string,
    album: string,
    imageUrl: Option<string>)

  /** Every user row is stored under its primary key. */
  predicate UsersKeyed(users: map<string, User>) {
    forall k :: k in users ==> users[k].userId == k
  }

  /** The tables agree with their keys: rows sit under their primary keys,
      every button and every logged song refers to an existing user, and the
      log's auto-increment ids are 1, 2, 3, ... in insertion order. */
  predicate Consistent(users: map<string, User>, buttons: map<string, Button>, recent: seq<RecentSong>) {
    && UsersKeyed(users)
    && (forall k :: k in buttons ==> buttons[k].buttonId == k && buttons[k].userId in users)
    && (forall i :: 0 <= i < |recent| ==> recent[i].id == i + 1 && recent[i].userId in users)
  }

  /** Logging a song for an existing user under the next id keeps the tables
      consistent. */
  lemma AppendKeepsConsistent(users: map<string, User>, buttons: map<string, Button>, recent: seq<RecentSong>,
                              row: RecentSong)
    requires Consistent(users, buttons, recent) && row.id == |recent| + 1 && row.userId in users
    ensures Consistent(users, buttons, recent + [row])
  {
  }

  /** Writing a user row under its own id keeps the tables consistent. */
  lemma UpsertKeepsConsistent(users: map<string, User>, buttons: map<string, Button>, recent: seq<RecentSong>,
                              user: User)
    requires Consistent(users, buttons, recent)
    ensures Consistent(users[user.userId := user], buttons, recent)
  {
  }

  /** The committed contents of the database. */
  class Database {
    var users: map<string, User>
    var buttons: map<string, Button>
    var recentSongs: seq<RecentSong>

    ghost predicate Valid()
      reads this
    {
      Consistent(users, buttons, recentSongs)
    }

    constructor (users0: map<string, User>, buttons0: map<string, Button>, recent0: seq<RecentSong>)
      requires Consistent(users0, buttons0, recent0)
      ensures Valid()
      ensures users == users0 && buttons == buttons0 && recentSongs == recent0
    {
      users, buttons, recentSongs := users0, buttons0, recent0;
    }
  }
}
