/** The Spotify login routes (app/routes/oauth.py): `auth` starts an
    authorization-code flow with PKCE (RFC 7636) and remembers the verifier
    under a random state; `callback` checks the reply, consumes that state,
    exchanges the code, upserts the user and opens a session; `logout` closes
    it. */
module OAuthRoutes {
  import opened Common
  import opened Base64Url
  import opened Models
  import opened Sessions
  import opened Spotify

  const Scopes: string := "playlist-modify-private playlist-read-private user-read-private"
  const PostAuthPath: string := "/api/auth/post-auth"
  const SessionCookieName: string := "session_id"
  /** One week, in seconds. */
  const SessionMaxAge: int := 60 * 60 * 24 * 7
  const MissingCodeOrState: string := "Missing code or state"
  const InvalidState: string := "Invalid state"
  const LoggedOut: string := "Logged out successfully"

  // ---------------------------------------------------------------------------
  // PKCE values

  /** The characters section 4.1 of RFC 7636 allows in a code verifier. */
  predicate IsUnreserved(c: char) {
    ('A' <= c <= 'Z') || ('a' <= c <= 'z') || ('0' <= c <= '9') || c == '-' || c == '.' || c == '_' || c == '~'
  }

  /** A code verifier as section 4.1 of RFC 7636 defines it: 43 to 128
      unreserved characters. */
  predicate IsCodeVerifier(v: string) {
    43 <= |v| <= 128 && forall i :: 0 <= i < |v| ==> IsUnreserved(v[i])
  }

  /** `generate_code_verifier`: 32 random bytes, base64url-encoded, padding
      stripped. */
  function GenerateCodeVerifier(randomBytes: seq<byte>): (v: string)
    requires |randomBytes| == 32
    ensures IsCodeVerifier(v) && |v| == 43
    ensures forall i :: 0 <= i < |v| ==> v[i] != '='
  {
    UnpaddedShape(randomBytes);
    Unpadded(randomBytes)
  }

  /** `generate_code_challenge`: the S256 method of section 4.2 of RFC 7636,
      base64url without padding of the SHA-256 digest of the verifier's
      bytes. The digest function is a parameter. */
  function CodeChallenge(verifier: string, sha256: string -> seq<byte>): (c: string)
    ensures |sha256(verifier)| == 32 ==> |c| == 43
    ensures AllUrlSafe(c)
  {
    UnpaddedShape(sha256(verifier));
    Unpadded(sha256(verifier))
  }

  /** `secrets.token_urlsafe(16)`: 16 random bytes, base64url-encoded without
      padding. */
  function StateToken(randomBytes: seq<byte>): (s: string)
    requires |randomBytes| == 16
    ensures |s| == 22 && AllUrlSafe(s)
  {
    UnpaddedShape(randomBytes);
    Unpadded(randomBytes)
  }

  /** `PKCE_STORE`: state to code verifier, empty when the process starts. */
  class PkceStore {
    var verifiers: map<string, string>

    /** Every remembered verifier is a valid one. */
    ghost predicate Valid()
      reads this
    {
      forall s :: s in verifiers ==> IsCodeVerifier(verifiers[s])
    }

    constructor ()
      ensures Valid() && verifiers == map[]
    {
      verifiers := map[];
    }
  }

  // ---------------------------------------------------------------------------
  // auth

  datatype Config = Config(clientId: string, redirectUri: string)

  /** The query of the redirect to Spotify's authorize page. */
  datatype AuthorizeQuery = AuthorizeQuery(
    clientId: string,
    responseType: string,
    redirectUri: string,
    scope: string,
    state: string,
    codeChallengeMethod: string,
    codeChallenge: string)

  /** `auth`: remember a fresh verifier under a fresh state, leaving every other
      entry as it was, and send the user to Spotify with the verifier's S256
      challenge. */
  method Auth(pkce: PkceStore, config: Config, stateBytes: seq<byte>, verifierBytes: seq<byte>,
              sha256: string -> seq<byte>) returns (q: AuthorizeQuery)
    requires pkce.Valid() && |stateBytes| == 16 && |verifierBytes| == 32
    modifies pkce
    ensures pkce.Valid()
    ensures q.state == StateToken(stateBytes)
    ensures pkce.verifiers == old(pkce.verifiers)[q.state := GenerateCodeVerifier(verifierBytes)]
    ensures q == AuthorizeQuery(config.clientId, "code", config.redirectUri, Scopes, q.state,
                                "S256", CodeChallenge(pkce.verifiers[q.state], sha256))
  {
    var state := StateToken(stateBytes);
    var verifier := GenerateCodeVerifier(verifierBytes);
    var challenge := CodeChallenge(verifier, sha256);
    pkce.verifiers := pkce.verifiers[state := verifier];
    q := AuthorizeQuery(config.clientId, "code", config.redirectUri, Scopes, state, "S256", challenge);
  }

  // ---------------------------------------------------------------------------
  // callback

  /** The session cookie the callback sets. */
  datatype SessionCookie = SessionCookie(
    name: string, value: string, maxAge: int, httpOnly: bool, secure: bool, sameSite: string, path: string)

  datatype LoginRedirect = LoginRedirect(location: string, cookie: SessionCookie)

  function CookieFor(sessionId: string): (c: SessionCookie)
    ensures c.name == "session_id" && c.value == sessionId
    // a week, in seconds
    ensures c.maxAge == 604800
    // sent only over HTTPS, hidden from scripts, and sent on cross-site requests
    ensures c.httpOnly && c.secure && c.sameSite == "None" && c.path == "/"
  {
    SessionCookie(SessionCookieName, sessionId, SessionMaxAge, true, true, "None", "/")
  }

  /** The query has no truthy `error` and truthy `code` and `state`: the point
      at which the callback looks the state up. */
  predicate ReachesStateLookup(query: map<string, string>) {
    !Truthy(Get(query, "error")) && Truthy(Get(query, "code")) && Truthy(Get(query, "state"))
  }

  /** `callback`. `exchange` is the token endpoint given the code and the
      verifier, `profile` is `GET /v1/me` given the access token, `now` the
      clock and `newSessionId` the fresh `uuid4` string. */
  method Callback(pkce: PkceStore, sessions: SessionStore, db: Database, query: map<string, string>,
                  exchange: (string, string) -> Reply<TokenBody>, profile: string -> Reply<ProfileBody>,
                  now: int, newSessionId: string) returns (r: Result<LoginRedirect>)
    requires pkce.Valid() && db.Valid()
    modifies pkce, sessions, db
    ensures pkce.Valid() && db.Valid()
    ensures db.buttons == old(db.buttons) && db.recentSongs == old(db.recentSongs)
    // validation, in order, before the state is touched
    ensures Truthy(Get(query, "error")) ==>
      r == Err(HttpException(400, "Spotify auth error: " + query["error"]))
    ensures !Truthy(Get(query, "error")) && !(Truthy(Get(query, "code")) && Truthy(Get(query, "state"))) ==>
      r == Err(HttpException(400, MissingCodeOrState))
    ensures !ReachesStateLookup(query) ==> pkce.verifiers == old(pkce.verifiers)
    // past validation the state is removed, whatever happens next
    ensures ReachesStateLookup(query) ==> pkce.verifiers == old(pkce.verifiers) - {query["state"]}
    ensures ReachesStateLookup(query) && !Truthy(Get(old(pkce.verifiers), query["state"])) ==>
      r == Err(HttpException(400, InvalidState))
    // past a known state, a failed exchange or profile fetch is passed on, and otherwise the login succeeds
    ensures ReachesStateLookup(query) && Truthy(Get(old(pkce.verifiers), query["state"])) ==>
      var grant := GrantFrom(exchange(query["code"], old(pkce.verifiers)[query["state"]]));
      && (grant.Err? ==> r == Err(grant.error))
      && (grant.Ok? ==>
            var userId := ProfileIdFrom(profile(grant.value.accessToken));
            (userId.Err? ==> r == Err(userId.error)) && (userId.Ok? ==> r.Ok?))
    // no failure opens a session or writes a user
    ensures r.Err? ==> sessions.entries == old(sessions.entries) && db.users == old(db.users)
    // success: upsert the user and map the new session to it
    ensures r.Ok? ==>
      && ReachesStateLookup(query)
      && Truthy(Get(old(pkce.verifiers), query["state"]))
      && var grant := GrantFrom(exchange(query["code"], old(pkce.verifiers)[query["state"]]));
      && grant.Ok?
      && var userId := ProfileIdFrom(profile(grant.value.accessToken));
      && userId.Ok?
      && var uid := userId.value;
      && r.value == LoginRedirect(PostAuthPath, CookieFor(newSessionId))
      && sessions.entries == old(sessions.entries)[newSessionId := uid]
      && db.users.Keys == old(db.users.Keys) + {uid}
      && (forall k :: k in old(db.users) && k != uid ==> db.users[k] == old(db.users)[k])
      && db.users[uid].accessToken == grant.value.accessToken
      && db.users[uid].refreshToken == grant.value.refreshToken
      && db.users[uid].tokenExpiry == now + grant.value.expiresIn
      && db.users[uid].playlistId == (if uid in old(db.users) then old(db.users)[uid].playlistId else None)
  {
    var error := Get(query, "error");
    var code := Get(query, "code");
    var state := Get(query, "state");
    if Truthy(error) {
      return Err(HttpException(400, "Spotify auth error: " + error.value));
    }
    if !Truthy(code) || !Truthy(state) {
      return Err(HttpException(400, MissingCodeOrState));
    }
    var verifier := Get(pkce.verifiers, state.value);
    pkce.verifiers := pkce.verifiers - {state.value};
    if !Truthy(verifier) {
      return Err(HttpException(400, InvalidState));
    }
    var grant := GrantFrom(exchange(code.value, verifier.value));
    if grant.Err? {
      return Err(grant.error);
    }
    var userId := ProfileIdFrom(profile(grant.value.accessToken));
    if userId.Err? {
      return Err(userId.error);
    }
    var uid := userId.value;
    var expiry := now + grant.value.expiresIn;
    var user;
    if uid !in db.users {
      user := User(uid, grant.value.accessToken, grant.value.refreshToken, expiry, None);
    } else {
      user := db.users[uid].(accessToken := grant.value.accessToken,
                             refreshToken := grant.value.refreshToken,
                             tokenExpiry := expiry);
    }
    UpsertKeepsConsistent(db.users, db.buttons, db.recentSongs, user);
    db.users := db.users[uid := user];
    sessions.entries := sessions.entries[newSessionId := uid];
    r := Ok(LoginRedirect(PostAuthPath, CookieFor(newSessionId)));
  }

  // ---------------------------------------------------------------------------
  // logout

  /** `logout`: forget the cookie's session, if there is one, and answer the
      same message in every case. */
  method Logout(sessions: SessionStore, cookie: Option<string>) returns (detail: string)
    modifies sessions
    ensures detail == LoggedOut
    ensures Truthy(cookie) ==> sessions.entries == old(sessions.entries) - {cookie.value}
    ensures !Truthy(cookie) ==> sessions.entries == old(sessions.entries)
  {
    if Truthy(cookie) {
      sessions.entries := sessions.entries - {cookie.value};
    }
    detail := LoggedOut;
  }

  // ---------------------------------------------------------------------------
  // Whole flows, from a freshly started process

  /** Log in through `auth` and `callback`, look the session up, then replay
      the same callback. The verifier the token endpoint receives is the one
      whose challenge went to Spotify; the fresh state is always found; the
      session resolves to the user Spotify named (unless that id is empty);
      the replay is refused because the state was used up. */
  method LoginFlow(users0: map<string, User>, buttons0: map<string, Button>, recent0: seq<RecentSong>,
                   config: Config, stateBytes: seq<byte>, verifierBytes: seq<byte>, sha256: string -> seq<byte>,
                   code: string, exchange: (string, string) -> Reply<TokenBody>,
                   profile: string -> Reply<ProfileBody>, now: int, sessionId: string, replaySessionId: string)
    returns (authorize: AuthorizeQuery, login: Result<LoginRedirect>, lookup: Result<User>,
             replay: Result<LoginRedirect>)
    requires Consistent(users0, buttons0, recent0)
    requires |stateBytes| == 16 && |verifierBytes| == 32 && code != "" && sessionId != ""
    // the challenge sent to Spotify is made from the verifier the token
    // endpoint later receives
    ensures authorize.state == StateToken(stateBytes) && authorize.codeChallengeMethod == "S256"
    ensures authorize.codeChallenge == CodeChallenge(GenerateCodeVerifier(verifierBytes), sha256)
    ensures var grant := GrantFrom(exchange(code, GenerateCodeVerifier(verifierBytes)));
      && (grant.Err? ==> login == Err(grant.error))
      && (grant.Ok? ==>
          var uid := ProfileIdFrom(profile(grant.value.accessToken));
          && (uid.Err? ==> login == Err(uid.error))
          && (uid.Ok? ==> login.Ok? && (lookup.Ok? <==> uid.value != "")
                          && (lookup.Ok? ==> lookup.value.userId == uid.value)))
    ensures replay == Err(HttpException(400, InvalidState))
  {
    var pkce := new PkceStore();
    var sessions := new SessionStore();
    var db := new Database(users0, buttons0, recent0);
    var q := Auth(pkce, config, stateBytes, verifierBytes, sha256);
    authorize := q;
    var verifier := GenerateCodeVerifier(verifierBytes);
    assert pkce.verifiers == map[q.state := verifier];
    var query := map["code" := code, "state" := q.state];
    assert ReachesStateLookup(query) by {
      assert Get(query, "error") == None;
      assert Get(query, "code") == Some(code) && Get(query, "state") == Some(q.state);
    }
    assert Truthy(Get(pkce.verifiers, query["state"]));
    login := Callback(pkce, sessions, db, query, exchange, profile, now, sessionId);
    assert q.state !in pkce.verifiers;
    var grant := GrantFrom(exchange(code, verifier));
    if login.Ok? {
      var uid := ProfileIdFrom(profile(grant.value.accessToken)).value;
      assert sessions.entries == map[sessionId := uid];
      assert uid in db.users;
    }
    lookup := GetCurrentUser(Some(sessionId), sessions.entries, db.users);
    replay := Callback(pkce, sessions, db, query, exchange, profile, now, replaySessionId);
  }

  /** Logging out ends exactly the cookie's session: it no longer resolves,
      and every other session resolves as before. */
  method LogoutFlow(entries0: map<string, string>, users: map<string, User>, sessionId: string, otherId: string)
    returns (detail: string, ended: Result<User>, other: Result<User>)
    requires UsersKeyed(users) && sessionId != "" && otherId != sessionId
    ensures detail == LoggedOut
    ensures ended == Err(HttpException(401, InvalidSession))
    ensures other == GetCurrentUser(Some(otherId), entries0, users)
  {
    var sessions := new SessionStore();
    sessions.entries := entries0;
    detail := Logout(sessions, Some(sessionId));
    ended := GetCurrentUser(Some(sessionId), sessions.entries, users);
    other := GetCurrentUser(Some(otherId), sessions.entries, users);
  }
}
