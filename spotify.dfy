/** The shapes of the Spotify Web API requests the backend sends and of the
    replies it reads, and how it reads them. Only the JSON fields the source
    touches are modelled; a field is None when the reply lacks it. */
module Spotify {
  import opened Common

  /** A reply of the accounts service's token endpoint. */
  datatype TokenBody = TokenBody(accessToken: Option<string>, refreshToken: Option<string>, expiresIn: Option<int>)

  /** A reply of `GET /v1/me`. */
  datatype ProfileBody = ProfileBody(id: Option<string>)

  /** The JSON body of a playlist-creation request. */
  datatype PlaylistSpec = PlaylistSpec(name: string, description: Option<string>, public: bool)

  /** A reply of `POST /v1/users/{user_id}/playlists`. */
  datatype CreatedBody = CreatedBody(id: Option<string>)

  /** The JSON body of `POST /v1/playlists/{playlist_id}/tracks`. */
  datatype TracksPayload = TracksPayload(uris: seq<string>, position: int)

  /** A reply of `GET /v1/tracks/{id}`, or None when it lacks a field the
      upload reads (name, artists' names, album name, album images). */
  datatype TrackBody = TrackBody(name: string, artistNames: seq<string>, albumName: string, imageUrls: seq<string>)

  /** What an authorization-code exchange grants. */
  datatype Grant = Grant(accessToken: string, refreshToken: string, expiresIn: int)

  /** The callback's reading of the code exchange: `raise_for_status()`,
      `json()`, then `access_token`, `refresh_token` and `expires_in` in that
      order, each a KeyError when missing. */
  function GrantFrom(reply: Reply<TokenBody>): (r: Result<Grant>)
    ensures r.Ok? <==> (CheckedJson(reply).Ok? &&
      var b := CheckedJson(reply).value;
      b.accessToken.Some? && b.refreshToken.Some? && b.expiresIn.Some?)
    ensures r.Ok? ==> var b := CheckedJson(reply).value;
      r.value == Grant(b.accessToken.value, b.refreshToken.value, b.expiresIn.value)
  {
    match CheckedJson(reply)
    case Err(e) => Err(e)
    case Ok(b) =>
      if b.accessToken.None? then Err(KeyError("access_token"))
      else if b.refreshToken.None? then Err(KeyError("refresh_token"))
      else if b.expiresIn.None? then Err(KeyError("expires_in"))
      else Ok(Grant(b.accessToken.value, b.refreshToken.value, b.expiresIn.value))
  }

  /** The callback's reading of the profile: `raise_for_status()`, `json()`,
      then `id`. */
  function ProfileIdFrom(reply: Reply<ProfileBody>): (r: Result<string>)
    ensures r.Ok? <==> CheckedJson(reply).Ok? && CheckedJson(reply).value.id.Some?
    ensures r.Ok? ==> r.value == CheckedJson(reply).value.id.value
  {
    match CheckedJson(reply)
    case Err(e) => Err(e)
    case Ok(b) => if b.id.None? then Err(KeyError("id")) else Ok(b.id.value)
  }
}
