/** Spotify track identifiers: the parser the upload pipeline applies to the
    link the fingerprinting service returns, and the track URI the playlist
    call is built from (app/routes/songs.py). */
module TrackIds {
  import opened Common
  import opened PyStr

  const UriMarker: string := "spotify:track:"
  const UrlMarker: string := "open.spotify.com/track/"
  const TrackSegment: string := "track/"
  const QueryStart: string := "?"
  /** A bare Spotify id is 22 base-62 characters. */
  const BareIdLength := 22
  const InvalidInput: string := "Invalid Spotify track input"

  /** `extract_track_id`: a URI gives the text after its last
      "spotify:track:"; a web link gives the text after its last "track/" up
      to the first '?'; a 22-character string is taken as the id itself;
      anything else is a ValueError. */
  function ExtractTrackId(s: string): (r: Result<string>)
    ensures r.Err? <==> !Contains(s, UriMarker) && !Contains(s, UrlMarker) && |s| != BareIdLength
    ensures r.Err? ==> r.error == ValueError(InvalidInput)
    ensures !Contains(s, UriMarker) && !Contains(s, UrlMarker) && |s| == BareIdLength ==> r == Ok(s)
  {
    if Contains(s, UriMarker) then Ok(LastPiece(s, UriMarker))
    else if Contains(s, UrlMarker) then Ok(Split(LastPiece(s, TrackSegment), QueryStart)[0])
    else if |s| == BareIdLength then Ok(s)
    else Err(ValueError(InvalidInput))
  }

  /** The URI `add_to_spotify` sends for a track id: `spotify:track:{id}`. */
  function TrackUri(id: string): string {
    UriMarker + id
  }

  /** The public web link Spotify gives for a track. */
  function ShareUrl(id: string): string {
    "https://open.spotify.com/track/" + id
  }

  /** Any input containing "spotify:track:" is parsed as a URI, whatever else
      it contains: the result is the text after the last occurrence, so the
      input ends with "spotify:track:" followed by the result, and the result
      holds no further "spotify:track:". */
  lemma UriBranch(s: string)
    requires Contains(s, UriMarker)
    ensures ExtractTrackId(s).Ok?
    ensures var id := ExtractTrackId(s).value;
      !Contains(id, UriMarker) &&
      |id| + |UriMarker| <= |s| &&
      s[|s| - |id| - |UriMarker|..] == UriMarker + id
  {
    LastPieceAfterSeparator(s, UriMarker);
  }

  /** A web link without "spotify:track:" gives a prefix of the text after the
      last "track/", cut where the first '?' begins: the result never holds '?'
      or "spotify:track:". */
  lemma UrlBranch(s: string)
    requires !Contains(s, UriMarker) && Contains(s, UrlMarker)
    ensures ExtractTrackId(s).Ok?
    ensures var id := ExtractTrackId(s).value;
      !Contains(id, QueryStart) && !Contains(id, UriMarker)
    ensures var id := ExtractTrackId(s).value;
      exists n :: OccursAt(s, TrackSegment, n) &&
        !Contains(s[n + |TrackSegment|..], TrackSegment) &&
        id <= s[n + |TrackSegment|..] &&
        (id == s[n + |TrackSegment|..] || s[n + |TrackSegment| + |id|] == '?')
  {
    LinkHasSegment(s);
    var tail := LastPiece(s, TrackSegment);
    LastPieceAfterSeparator(s, TrackSegment);
    var n := |s| - |tail| - |TrackSegment|;
    assert s[n..] == TrackSegment + tail;
    assert s[n + |TrackSegment|..] == tail;
    assert OccursAt(s, TrackSegment, n);
    QueryCut(s, n + |TrackSegment|);
  }

  /** "open.spotify.com/track/" holds "track/". */
  lemma LinkHasSegment(s: string)
    requires Contains(s, UrlMarker)
    ensures Contains(s, TrackSegment)
  {
    var i :| 0 <= i <= |s| && OccursAt(s, UrlMarker, i);
    assert UrlMarker == "open.spotify.com/" + TrackSegment;
    OccursWithin(s, "open.spotify.com/", TrackSegment, i);
  }

  /** Cutting the text from `start` on at its first '?' gives a prefix of it
      without '?', and without anything `s` itself lacks. */
  lemma QueryCut(s: string, start: nat)
    requires start <= |s| && !Contains(s, UriMarker)
    ensures var id := Split(s[start..], QueryStart)[0];
      && !Contains(id, QueryStart) && !Contains(id, UriMarker)
      && id <= s[start..]
      && (id == s[start..] || s[start + |id|] == '?')
  {
    var tail := s[start..];
    var id := Split(tail, QueryStart)[0];
    FirstPieceLacksSeparator(tail, QueryStart);
    FirstPieceIsPrefix(tail, QueryStart);
    assert id == s[start..start + |id|];
    SliceLacks(s, start, start + |id|, UriMarker);
    if id != tail {
      OccursAtChar(tail, QueryStart, |id|, 0);
    }
  }

  /** Round trip with the URI builder: parsing `spotify:track:{id}` gives the
      id back, for every id that does not itself hold "spotify:track:". */
  lemma UriRoundTrip(id: string)
    requires !Contains(id, UriMarker)
    ensures ExtractTrackId(TrackUri(id)) == Ok(id)
  {
    FindFirstPrefixed(UriMarker, id);
    assert OccursAt(TrackUri(id), UriMarker, 0);
    SplitPrefixed(UriMarker, id);
    SplitWithout(id, UriMarker);
  }

  /** Round trip with Spotify's web link: parsing
      `https://open.spotify.com/track/{id}` gives the id back, for every id
      without '?', "track/" or "spotify:track:" (a base-62 id has none). */
  lemma ShareUrlRoundTrip(id: string)
    requires !Contains(id, QueryStart) && !Contains(id, TrackSegment) && !Contains(id, UriMarker)
    ensures ExtractTrackId(ShareUrl(id)) == Ok(id)
  {
    var s := ShareUrl(id);
    ShareUrlLacksUriMarker(id);
    ShareUrlFirstSegment(id);
    assert s[31..] == id;
    SplitWithout(id, TrackSegment);
    assert Split(s, TrackSegment) == [s[..25], id];
    SplitWithout(id, QueryStart);
  }

  /** A web link holds "spotify:track:" only if its id does: the host's only
      ':' is at index 5, too early for the marker's. */
  lemma ShareUrlLacksUriMarker(id: string)
    requires !Contains(id, UriMarker)
    ensures !Contains(ShareUrl(id), UriMarker)
  {
    var host := "https://open.spotify.com/track";
    assert ShareUrl(id) == host + ['/'] + id;
    assert forall k :: 0 <= k < |host| && host[k] == ':' ==> k == 5;
    forall j | 0 <= j <= |host|
      ensures !OccursAt(host, UriMarker, j)
    {
      OccursAtChar(host, UriMarker, j, 7);
    }
    NoOccurrenceAcrossGlue(host, '/', id, UriMarker);
  }

  /** A web link holds "open.spotify.com/track/" at index 8, and its leftmost
      "track/" starts at index 25, right after the host. */
  lemma ShareUrlFirstSegment(id: string)
    ensures OccursAt(ShareUrl(id), UrlMarker, 8)
    ensures FindFirst(ShareUrl(id), TrackSegment) == Some(25)
  {
    var host := "https://open.spotify.com/";
    var s := ShareUrl(id);
    assert s == host + (TrackSegment + id);
    assert host[8..] + TrackSegment == UrlMarker;
    OccursInConcat(host, TrackSegment + id, TrackSegment, 25);
    assert OccursAt(TrackSegment + id, TrackSegment, 0);
    assert s[8..8 + |UrlMarker|] == host[8..] + TrackSegment;
    NoSegmentInHost(s);
    FindFirstAt(s, TrackSegment, 25);
  }

  /** No "track/" starts before index 25 of a web link: that would put the
      'r' of "track/" in the host "https://open.spotify.com/" or on the 't'
      after it. */
  lemma NoSegmentInHost(s: string)
    requires |s| >= 26 && s[..26] == "https://open.spotify.com/t"
    ensures forall j :: 0 <= j < 25 ==> !OccursAt(s, TrackSegment, j)
  {
    forall j | 0 <= j < 25
      ensures !OccursAt(s, TrackSegment, j)
    {
      OccursAtChar(s, TrackSegment, j, 1);
      assert s[j + 1] == s[..26][j + 1];
    }
  }
}
