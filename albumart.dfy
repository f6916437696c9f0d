/**
 * The album-art lookup (app/api/musix/album-art/route.ts): the newest song's
 * album art and album name are looked up on Last.fm, first with
 * `track.getInfo` for the full artist string, then for the first artist of a
 * comma-separated list, and finally with `track.search`. Every reply Last.fm
 * can give, including a thrown exception, is an input; the chain always ends
 * in a value and the endpoint always answers 200.
 */
module AlbumArt {
  import opened Wrappers
  import opened Text
  import opened SongStore

  // ---------------------------------------------------------------------------
  // Requests and replies
  // ---------------------------------------------------------------------------

  /** The query parameters of a `track.getInfo` or `track.search` request. */
  datatype Request =
    | GetInfo(apiKey: string, artist: string, track: string)
    | Search(apiKey: string, track: string, limit: string)

  /** An album image; `text` is its `#text` URL, "" when absent. */
  datatype Image = Image(text: string)

  /** `track.album`; `images` is None when the image field is missing or not an array. */
  datatype Album = Album(title: string, images: Option<seq<Image>>)

  /** `track`, of which only the album is read. */
  datatype TrackInfo = TrackInfo(album: Option<Album>)

  /** What a `track.getInfo` request ends in. */
  datatype InfoReply =
    | InfoThrew                      // `fetch` or `response.json()` threw
    | InfoNotOk                      // `response.ok` is false
    | InfoBody(error: Option<int>, track: Option<TrackInfo>)

  /** One entry of `results.trackmatches.track`, of which only the images are read. */
  datatype Match = Match(images: Option<seq<Image>>)

  /** What a `track.search` request ends in; `tracks` is None when the list is missing or not an array. */
  datatype SearchReply =
    | SearchThrew
    | SearchNotOk
    | SearchBody(error: Option<int>, tracks: Option<seq<Match>>)

  /** The outcome of `tryTrackGetInfo` when it returns. */
  datatype InfoResult = InfoResult(albumArt: Option<string>, albumName: Option<string>, success: bool)

  /** `tryTrackGetInfo` either returns or lets an exception escape to its caller. */
  datatype Attempt = Threw | Returned(result: InfoResult)

  /** The `{ albumArt, albumName }` pair the chain ends in. */
  datatype Art = Art(albumArt: Option<string>, albumName: Option<string>)

  const NoArt := Art(None, None)

  /** A JavaScript `error` field is truthy when present and non-zero. */
  predicate ErrorSet(error: Option<int>) {
    error.Some? && error.value != 0
  }

  /** `x || null` on a string: the empty string becomes null. */
  function OrNull(s: string): (o: Option<string>)
    ensures o.None? <==> s == ""
    ensures o.Some? ==> o.value == s
  {
    if s == "" then None else Some(s)
  }

  /** No field of an art pair is the empty string. */
  predicate NoEmptyField(albumArt: Option<string>, albumName: Option<string>) {
    (albumArt.Some? ==> albumArt.value != "") && (albumName.Some? ==> albumName.value != "")
  }

  /** The image list the code accepts: present, an array, and not empty. */
  predicate HasImages(images: Option<seq<Image>>) {
    images.Some? && |images.value| > 0
  }

  /** The art of the largest image, which is the last one of the list. */
  function LargestArt(images: seq<Image>): (a: Option<string>)
    requires |images| > 0
    ensures a.Some? <==> images[|images| - 1].text != ""
    ensures a.Some? ==> a.value == images[|images| - 1].text
  {
    OrNull(images[|images| - 1].text)
  }

  // ---------------------------------------------------------------------------
  // track.getInfo
  // ---------------------------------------------------------------------------

  /** The album a `track.getInfo` body describes, if the code gets that far. */
  predicate Found(reply: InfoReply) {
    reply.InfoBody? && !ErrorSet(reply.error) && reply.track.Some? && reply.track.value.album.Some?
  }

  /** `tryTrackGetInfo`: the album art and name a `track.getInfo` reply yields. */
  function TryTrackGetInfo(reply: InfoReply): (a: Attempt)
    ensures a.Threw? <==> reply.InfoThrew?
    ensures a.Returned? ==> (a.result.success <==> Found(reply))
    ensures a.Returned? && !a.result.success ==> a.result.albumArt.None? && a.result.albumName.None?
    ensures a.Returned? ==> NoEmptyField(a.result.albumArt, a.result.albumName)
    ensures a.Returned? && Found(reply) ==>
      var album := reply.track.value.album.value;
      a.result.albumName == OrNull(album.title) &&
      a.result.albumArt == (if HasImages(album.images) then LargestArt(album.images.value) else None)
  {
    match reply
    case InfoThrew => Threw
    case InfoNotOk => Returned(InfoResult(None, None, false))
    case InfoBody(error, track) =>
      if ErrorSet(error) then Returned(InfoResult(None, None, false))
      else if track.None? then Returned(InfoResult(None, None, false))
      else if track.value.album.None? then Returned(InfoResult(None, None, false))
      else
        var album := track.value.album.value;
        if !HasImages(album.images) then Returned(InfoResult(None, OrNull(album.title), true))
        else Returned(InfoResult(LargestArt(album.images.value), OrNull(album.title), true))
  }

  /** An attempt the chain accepts: it succeeded and found at least one of the two fields. */
  predicate Qualifies(r: InfoResult) {
    r.success && (r.albumArt.Some? || r.albumName.Some?)
  }

  // ---------------------------------------------------------------------------
  // track.search
  // ---------------------------------------------------------------------------

  /**
   * The text of `artist` before its first comma, or all of it when it has
   * none: `p` is a prefix of `artist` free of commas, followed by a comma
   * unless it is all of `artist`.
   */
  predicate FirstPart(artist: string, p: string) {
    |p| <= |artist| && p == artist[..|p|] && (forall i :: 0 <= i < |p| ==> p[i] != ',') &&
    (|p| < |artist| ==> artist[|p|] == ',')
  }

  /**
   * `artist.split(',')[0].trim()`: the text before the first comma with the
   * whitespace around it removed, and nothing else removed.
   */
  function FirstArtist(artist: string): (f: string)
    ensures |f| <= |artist|
  {
    Trim(BeforeFirst(artist, ','))
  }

  /**
   * The first artist is the comma-free text before the first comma (or all
   * of `artist`), less only the whitespace around it.
   */
  lemma {:induction false} FirstArtistSpec(artist: string)
    ensures var f := FirstArtist(artist);
      (f == [] || (!IsSpace(f[0]) && !IsSpace(f[|f| - 1]))) &&
      (forall i :: 0 <= i < |f| ==> f[i] != ',') &&
      exists w1, w2 :: AllSpace(w1) && AllSpace(w2) && FirstPart(artist, w1 + f + w2)
  {
    var before := BeforeFirst(artist, ',');
    BeforeFirstSpec(artist, ',');
    TrimSpec(before);
    var k := |before| - |TrimStart(before)|;
    var f := Trim(before);
    assert before == before[..k] + f + before[k + |f|..];
    assert FirstPart(artist, before);
    assert forall i :: 0 <= i < |f| ==> f[i] == before[k + i];
  }

  /** The search text: the song name, a space, and the first artist. */
  function SearchQuery(songName: string, artist: string): string {
    songName + " " + FirstArtist(artist)
  }

  function SearchRequest(apiKey: string, songName: string, artist: string): Request {
    Search(apiKey, SearchQuery(songName, artist), "5")
  }

  /** `tryLastFmSearch` on a reply: the art of the first match, never an album name. */
  function TryLastFmSearch(reply: SearchReply): (art: Art)
    ensures art.albumName.None?
    ensures art.albumArt.Some? <==>
      reply.SearchBody? && !ErrorSet(reply.error) && reply.tracks.Some? && |reply.tracks.value| > 0 &&
      HasImages(reply.tracks.value[0].images) &&
      LargestArt(reply.tracks.value[0].images.value).Some?
    ensures art.albumArt.Some? ==> art.albumArt == LargestArt(reply.tracks.value[0].images.value)
    ensures NoEmptyField(art.albumArt, art.albumName)
  {
    match reply
    case SearchThrew => NoArt
    case SearchNotOk => NoArt
    case SearchBody(error, tracks) =>
      if ErrorSet(error) then NoArt
      else if tracks.None? || |tracks.value| == 0 then NoArt
      else
        var first := tracks.value[0];
        if HasImages(first.images) then Art(LargestArt(first.images.value), None)
        else NoArt
  }

  // ---------------------------------------------------------------------------
  // The fallback chain
  // ---------------------------------------------------------------------------

  /** The art the chain ends in and the requests it sent, in order. */
  datatype Lookup = Lookup(art: Art, requests: seq<Request>)

  /**
   * `getLastFmAlbumArt`: full artist, then (only for a comma-separated
   * artist) the first artist, then the search; an exception from either
   * `track.getInfo` attempt ends the chain with no art.
   */
  function GetLastFmAlbumArt(
    apiKey: string, songName: string, artist: string,
    info: Request -> InfoReply, search: Request -> SearchReply): (l: Lookup)
    ensures |l.requests| >= 1 && l.requests[0] == GetInfo(apiKey, artist, songName)
    ensures NoEmptyField(l.art.albumArt, l.art.albumName)
  {
    var full := GetInfo(apiKey, artist, songName);
    match TryTrackGetInfo(info(full))
    case Threw => Lookup(NoArt, [full])
    case Returned(r1) =>
      if Qualifies(r1) then Lookup(Art(r1.albumArt, r1.albumName), [full])
      else if ',' in artist then
        var first := GetInfo(apiKey, FirstArtist(artist), songName);
        match TryTrackGetInfo(info(first))
        case Threw => Lookup(NoArt, [full, first])
        case Returned(r2) =>
          if Qualifies(r2) then Lookup(Art(r2.albumArt, r2.albumName), [full, first])
          else
            var s := SearchRequest(apiKey, songName, artist);
            Lookup(TryLastFmSearch(search(s)), [full, first, s])
      else
        var s := SearchRequest(apiKey, songName, artist);
        Lookup(TryLastFmSearch(search(s)), [full, s])
  }

  /** The full-artist answer is kept as it is whenever it qualifies, and nothing else is asked. */
  lemma {:induction false} FullArtistAnswerWins(
    apiKey: string, songName: string, artist: string,
    info: Request -> InfoReply, search: Request -> SearchReply)
    requires var a := TryTrackGetInfo(info(GetInfo(apiKey, artist, songName))); a.Returned? && Qualifies(a.result)
    ensures var r := TryTrackGetInfo(info(GetInfo(apiKey, artist, songName))).result;
      GetLastFmAlbumArt(apiKey, songName, artist, info, search) ==
        Lookup(Art(r.albumArt, r.albumName), [GetInfo(apiKey, artist, songName)])
  {
  }

  /**
   * When the first-artist retry is sent and its answer qualifies, that
   * answer is returned as it is, after exactly the two `track.getInfo`
   * requests.
   */
  lemma {:induction false} RetryAnswerWins(
    apiKey: string, songName: string, artist: string,
    info: Request -> InfoReply, search: Request -> SearchReply)
    requires var a := TryTrackGetInfo(info(GetInfo(apiKey, artist, songName)));
      a.Returned? && !Qualifies(a.result) && ',' in artist
    requires var b := TryTrackGetInfo(info(GetInfo(apiKey, FirstArtist(artist), songName)));
      b.Returned? && Qualifies(b.result)
    ensures var r := TryTrackGetInfo(info(GetInfo(apiKey, FirstArtist(artist), songName))).result;
      GetLastFmAlbumArt(apiKey, songName, artist, info, search) ==
        Lookup(Art(r.albumArt, r.albumName), [GetInfo(apiKey, artist, songName), GetInfo(apiKey, FirstArtist(artist), songName)])
  {
  }

  /**
   * An exception from either `track.getInfo` request reaches the handler's
   * catch: the chain ends with no art and no album name, and the search is
   * never sent.
   */
  lemma {:induction false} ThrowEndsChain(
    apiKey: string, songName: string, artist: string,
    info: Request -> InfoReply, search: Request -> SearchReply)
    requires var a := TryTrackGetInfo(info(GetInfo(apiKey, artist, songName)));
      a.Threw? ||
      (a.Returned? && !Qualifies(a.result) && ',' in artist &&
       TryTrackGetInfo(info(GetInfo(apiKey, FirstArtist(artist), songName))).Threw?)
    ensures var l := GetLastFmAlbumArt(apiKey, songName, artist, info, search);
      l.art == NoArt && SearchRequest(apiKey, songName, artist) !in l.requests
  {
    var s := SearchRequest(apiKey, songName, artist);
    assert s != GetInfo(apiKey, artist, songName) && s != GetInfo(apiKey, FirstArtist(artist), songName);
  }

  /** A second `track.getInfo` is sent exactly when the first returned without qualifying and the artist holds a comma; it asks for the first artist. */
  lemma {:induction false} RetryOnlyForArtistLists(
    apiKey: string, songName: string, artist: string,
    info: Request -> InfoReply, search: Request -> SearchReply)
    ensures var l := GetLastFmAlbumArt(apiKey, songName, artist, info, search);
      var a := TryTrackGetInfo(info(GetInfo(apiKey, artist, songName)));
      (|l.requests| >= 2 && l.requests[1].GetInfo?) <==> (a.Returned? && !Qualifies(a.result) && ',' in artist)
    ensures var l := GetLastFmAlbumArt(apiKey, songName, artist, info, search);
      |l.requests| >= 2 && l.requests[1].GetInfo? ==> l.requests[1] == GetInfo(apiKey, FirstArtist(artist), songName)
  {
  }

  /** The search is the last resort: it is sent only after every `track.getInfo` attempt returned without qualifying, and then decides the answer. */
  lemma {:induction false} SearchIsLastResort(
    apiKey: string, songName: string, artist: string,
    info: Request -> InfoReply, search: Request -> SearchReply)
    ensures var l := GetLastFmAlbumArt(apiKey, songName, artist, info, search);
      var s := SearchRequest(apiKey, songName, artist);
      s in l.requests <==>
        (var a := TryTrackGetInfo(info(GetInfo(apiKey, artist, songName)));
         a.Returned? && !Qualifies(a.result) &&
         (',' in artist ==>
           var b := TryTrackGetInfo(info(GetInfo(apiKey, FirstArtist(artist), songName)));
           b.Returned? && !Qualifies(b.result)))
    ensures var l := GetLastFmAlbumArt(apiKey, songName, artist, info, search);
      var s := SearchRequest(apiKey, songName, artist);
      s in l.requests ==> l.requests[|l.requests| - 1] == s && l.art == TryLastFmSearch(search(s))
  {
    var l := GetLastFmAlbumArt(apiKey, songName, artist, info, search);
    var s := SearchRequest(apiKey, songName, artist);
    var full := GetInfo(apiKey, artist, songName);
    var first := GetInfo(apiKey, FirstArtist(artist), songName);
    assert s != full && s != first;
  }

  /** An album name only ever comes from a `track.getInfo` reply that found the album. */
  lemma {:induction false} AlbumNameOnlyFromGetInfo(
    apiKey: string, songName: string, artist: string,
    info: Request -> InfoReply, search: Request -> SearchReply)
    ensures var l := GetLastFmAlbumArt(apiKey, songName, artist, info, search);
      l.art.albumName.Some? ==> exists k :: 0 <= k < |l.requests| && l.requests[k].GetInfo? && Found(info(l.requests[k]))
  {
    var l := GetLastFmAlbumArt(apiKey, songName, artist, info, search);
    if l.art.albumName.Some? {
      var full := GetInfo(apiKey, artist, songName);
      var a := TryTrackGetInfo(info(full));
      if a.Returned? && Qualifies(a.result) {
        assert l.requests[0] == full;
      } else {
        var first := GetInfo(apiKey, FirstArtist(artist), songName);
        assert l.requests[1] == first;
      }
    }
  }

  // ---------------------------------------------------------------------------
  // The endpoint
  // ---------------------------------------------------------------------------

  /** The JSON body and status of the album-art endpoint. */
  datatype ArtResponse = ArtResponse(
    status: int,
    songName: Option<string>,
    artist: Option<string>,
    albumArt: Option<string>,
    albumName: Option<string>)

  const EmptyResponse := ArtResponse(200, None, None, None, None)

  /**
   * `GET`: the newest archived song and the art found for it. `rows` and
   * `readFails` are the song table and whether reading it reports an error;
   * `readThrows` is an exception escaping the read, which the handler's own
   * catch turns into an empty answer. `apiKey` is `LASTFM_API_KEY`, None when
   * unset or empty.
   */
  function Get(
    rows: seq<SongRow>, readFails: bool, readThrows: bool, apiKey: Option<string>,
    info: Request -> InfoReply, search: Request -> SearchReply): (resp: ArtResponse)
    ensures resp.status == 200
    ensures NoEmptyField(resp.albumArt, resp.albumName)
    ensures resp.songName.None? <==> readThrows || ArchivedSongs(rows, readFails) == []
    ensures resp.songName.None? ==> resp == EmptyResponse
    ensures resp.songName.Some? ==>
      var latest := ArchivedSongs(rows, readFails)[0];
      resp.songName == Some(latest.songName) && resp.artist == Some(latest.artist)
    ensures apiKey.None? ==> resp.albumArt.None? && resp.albumName.None?
  {
    if readThrows then EmptyResponse
    else
      var songs := ArchivedSongs(rows, readFails);
      if songs == [] then EmptyResponse
      else
        var latest := songs[0];
        match apiKey
        case None => ArtResponse(200, Some(latest.songName), Some(latest.artist), None, None)
        case Some(key) =>
          var art := GetLastFmAlbumArt(key, latest.songName, latest.artist, info, search).art;
          ArtResponse(200, Some(latest.songName), Some(latest.artist), art.albumArt, art.albumName)
  }

  /** The art the endpoint reports for a found song is the art the chain ends in. */
  lemma {:induction false} GetReportsChainResult(
    rows: seq<SongRow>, readFails: bool, apiKey: string,
    info: Request -> InfoReply, search: Request -> SearchReply)
    requires ArchivedSongs(rows, readFails) != []
    ensures var latest := ArchivedSongs(rows, readFails)[0];
      var art := GetLastFmAlbumArt(apiKey, latest.songName, latest.artist, info, search).art;
      var resp := Get(rows, readFails, false, Some(apiKey), info, search);
      resp.albumArt == art.albumArt && resp.albumName == art.albumName
  {
  }
}
